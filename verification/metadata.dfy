/**
 * The AYON data block kept in the project notes: reading it
 * (`get_ayon_data`, which may append a placeholder) and writing it
 * (`update_ayon_data`, a shallow merge substituted into every guard span).
 * The write that the rest of the model uses substitutes the dumped text
 * literally; `WriteAsWritten` keeps the template expansion `re.sub` applies.
 */
module Metadata {
  import opened Wrappers
  import opened Text
  import opened Errors
  import opened Json
  import opened Guard
  import opened ReTemplate

  const ContextKey: string := "context"
  const InstancesKey: string := "publish_instances"
  const ContainersKey: string := "containers"

  /** What `_create_ayon_data` appends: the unformatted guard on a line of its own. */
  const Placeholder: string := "\n" + Template + "\n"

  /** The notes after a read, and the value the read returned. */
  datatype Loaded = Loaded(notes: string, data: Json)

  /** The notes after an operation, and what it returned or raised. */
  datatype Step<+T> = Step(notes: string, result: Result<T, Error>)

  /**
   * `get_ayon_data`: decode the payload of the leftmost span; with no span, or
   * a payload that is not valid JSON, append the placeholder and return `{}`.
   */
  function Read(c: Codec, notes: string): (l: Loaded)
    ensures notes <= l.notes
    ensures l.notes == notes || (l.notes == notes + Placeholder && l.data == EmptyObject)
    ensures l.notes == notes <==>
              Search(notes).Some? && c.loads(Search(notes).value.payload) == Some(l.data)
  {
    match Search(notes)
    case None => Loaded(notes + Placeholder, EmptyObject)
    case Some(sp) =>
      match c.loads(sp.payload)
      case None => Loaded(notes + Placeholder, EmptyObject)
      case Some(j) => Loaded(notes, j)
  }

  /**
   * `update_ayon_data`: read the block, merge `data` over it (its keys win),
   * and substitute the dumped result, literally, for every span. A block
   * that is not an object has no `copy`/`update`.
   */
  function Write(c: Codec, notes: string, data: map<string, Json>): (r: Step<()>)
    ensures notes <= Read(c, notes).notes
    ensures r.result.Ok? <==> Read(c, notes).data.JObj?
    ensures r.result.Err? ==> r == Step(Read(c, notes).notes, Err(AttributeError))
  {
    var l := Read(c, notes);
    match l.data
    case JObj(cur) =>
      var merged := JObj(cur + data);
      Step(ReplaceAll(l.notes, 0, Wrap(c.dumps(merged))), Ok(()))
    case _ => Step(l.notes, Err(AttributeError))
  }

  /**
   * `update_ayon_data` as written: the guarded dump is handed to `re.sub` as
   * a replacement string, so its backslash escapes are expanded first, and a
   * bad escape raises `re.error` before the notes change.
   */
  function WriteAsWritten(c: Codec, notes: string, data: map<string, Json>): (r: Step<()>)
    ensures r.result.Err? && Read(c, notes).data.JObj? ==> r.result.error.ReError?
  {
    var l := Read(c, notes);
    match l.data
    case JObj(cur) =>
      (match ExpandTemplate(Wrap(c.dumps(JObj(cur + data))))
       case Ok(repl) => Step(ReplaceAll(l.notes, 0, repl), Ok(()))
       case Err(e) => Step(l.notes, Err(e)))
    case _ => Step(l.notes, Err(AttributeError))
  }

  /** The notes hold `block` stably: a read returns it and leaves the notes alone. */
  ghost predicate Stored(c: Codec, notes: string, block: map<string, Json>) {
    Read(c, notes) == Loaded(notes, JObj(block))
  }

  /** The dumped text of `j` can be stored: it cannot end a span early. */
  ghost predicate Safe(c: Codec, j: Json) {
    Clean(c.dumps(j))
  }

  /** A prefix followed, after it, by a suffix is a match, so the search succeeds. */
  lemma PrefixThenSuffixMatches(s: string, p: nat, q: nat)
    requires At(s, p, Prefix) && p + |Prefix| <= q && At(s, q, Suffix)
    ensures Search(s).Some?
  {
    FindSuffixFinds(s, p + |Prefix|, q);
    assert MatchAt(s, p);
  }

  /** After a read the notes always contain a span. */
  lemma ReadLeavesSpan(c: Codec, notes: string)
    ensures Search(Read(c, notes).notes).Some?
  {
    var l := Read(c, notes);
    if l.notes != notes {
      var p := |notes| + 1;
      var q := p + |Prefix| + 2;
      assert l.notes[p..p + |Prefix|] == Prefix;
      assert l.notes[q..q + |Suffix|] == Suffix;
      PrefixThenSuffixMatches(l.notes, p, q);
    }
  }

  /** A prefix cannot start in `notes + "\n"` when `notes` holds none: the newline is not part of it. */
  lemma NewlineBlocksPrefix(notes: string, k: nat)
    requires !Occurs(notes, Prefix)
    requires k < |notes| + 1
    ensures !At(notes + "\n" + Prefix, k, Prefix)
  {
    var u := notes + "\n" + Prefix;
    if k + |Prefix| <= |notes| {
      assert !At(notes, k, Prefix);
      assert u[k..k + |Prefix|] == notes[k..k + |Prefix|];
    } else if k + |Prefix| <= |u| {
      assert u[k..k + |Prefix|][|notes| - k] == '\n';
      assert Prefix[|notes| - k] != '\n';
    }
  }

  /**
   * With no guard prefix in the notes, the first read appends exactly the
   * placeholder and returns `{}`; a second read returns `{}` and appends nothing.
   */
  lemma FreshReadIdempotent(c: Codec, notes: string)
    requires Lawful(c)
    requires !Occurs(notes, Prefix)
    ensures Read(c, notes) == Loaded(notes + Placeholder, EmptyObject)
    ensures Stored(c, notes + Placeholder, map[])
  {
    NoPrefixNoMatch(notes);
    var a := notes + "\n";
    forall k | 0 <= k < |a|
      ensures !At(a + Prefix, k, Prefix)
    {
      NewlineBlocksPrefix(notes, k);
    }
    assert Clean("{}");
    SearchWrappedFirst(a, "{}", "\n");
    assert notes + Placeholder == a + Wrap("{}") + "\n";
  }

  /**
   * A leftmost span whose payload is not valid JSON stays leftmost, so every
   * read appends another placeholder.
   */
  lemma InvalidJsonAppendsAgain(c: Codec, notes: string)
    requires Search(notes).Some? && c.loads(Search(notes).value.payload).None?
    ensures Read(c, notes) == Loaded(notes + Placeholder, EmptyObject)
    ensures Read(c, notes + Placeholder) == Loaded(notes + Placeholder + Placeholder, EmptyObject)
  {
    SearchAppend(notes, Placeholder);
  }

  /** A read of notes with a valid leftmost payload returns it and changes nothing. */
  lemma ReadDecodesLeftmost(c: Codec, notes: string, j: Json)
    requires Search(notes).Some? && c.loads(Search(notes).value.payload) == Some(j)
    ensures Read(c, notes) == Loaded(notes, j)
  {
  }

  /**
   * Reading after a write returns the shallow merge: the written keys take
   * the new values and every other key of the old block is kept.
   */
  lemma ReadAfterWrite(c: Codec, notes: string, cur: map<string, Json>, data: map<string, Json>)
    requires Lawful(c)
    requires Read(c, notes).data == JObj(cur)
    requires Safe(c, JObj(cur + data))
    ensures Write(c, notes, data).result == Ok(())
    ensures Stored(c, Write(c, notes, data).notes, cur + data)
    ensures forall k | k in data :: (cur + data)[k] == data[k]
    ensures forall k | k in cur && k !in data :: (cur + data)[k] == cur[k]
  {
    var l := Read(c, notes);
    var merged := JObj(cur + data);
    var t := c.dumps(merged);
    ReadLeavesSpan(c, notes);
    SearchAfterReplace(l.notes, t);
  }

  /**
   * A write replaces every span and nothing else: cut the notes at their spans
   * and every span becomes the new guarded payload, the text between them kept.
   */
  lemma WriteReplacesEverySpan(c: Codec, notes: string, data: map<string, Json>)
    requires Lawful(c)
    requires Read(c, notes).data.JObj?
    ensures var d := Decompose(Read(c, notes).notes, 0);
            var w := Wrap(c.dumps(JObj(Read(c, notes).data.fields + data)));
            && |d.payloads| >= 1
            && Write(c, notes, data).notes == Weave(d.gaps, Repeat(w, |d.payloads|))
  {
    var l := Read(c, notes);
    var payload := c.dumps(JObj(l.data.fields + data));
    ReadLeavesSpan(c, notes);
    assert Write(c, notes, data).notes == ReplaceAll(l.notes, 0, Wrap(payload));
    ReplaceAllWeaves(l.notes, 0, Wrap(payload));
  }

  /** Writing stored notes stores the merge. */
  lemma WriteStored(c: Codec, notes: string, b: map<string, Json>, data: map<string, Json>)
    requires Lawful(c) && Stored(c, notes, b) && Safe(c, JObj(b + data))
    ensures Write(c, notes, data).result == Ok(())
    ensures Stored(c, Write(c, notes, data).notes, b + data)
  {
    ReadAfterWrite(c, notes, b, data);
  }

  /** The guard strings hold no backslash, so only the dump can carry one. */
  lemma GuardHasNoBackslash()
    ensures '\\' !in Prefix && '\\' !in Suffix
  {
  }

  /** When the dump holds no backslash, the write as written is the literal write. */
  lemma WriteAsWrittenAgrees(c: Codec, notes: string, data: map<string, Json>)
    requires Read(c, notes).data.JObj?
    requires '\\' !in c.dumps(JObj(Read(c, notes).data.fields + data))
    ensures WriteAsWritten(c, notes, data) == Write(c, notes, data)
  {
    GuardHasNoBackslash();
  }

  /** The guarded escape `\\\\` expands to one backslash; the guard is kept. */
  lemma WrapCollapsesBackslash(a: string, b: string)
    requires '\\' !in a && '\\' !in b
    ensures ExpandTemplate(Wrap(a + "\\\\" + b)) == Ok(Wrap(a + "\\" + b))
  {
    GuardHasNoBackslash();
    EscapedBackslashCollapses(Prefix + a, b + Suffix);
    assert Prefix + a + "\\\\" + (b + Suffix) == Wrap(a + "\\\\" + b);
    assert Prefix + a + "\\" + (b + Suffix) == Wrap(a + "\\" + b);
  }

  /**
   * A dump holding the escape `\\\\` (how `json.dumps` writes a backslash,
   * as in a Windows path) is stored with the backslash halved: the next
   * read finds a different payload, and when that is not valid JSON the
   * next read drops the whole block and appends a placeholder.
   */
  lemma WriteAsWrittenCollapsesBackslash(c: Codec, notes: string, data: map<string, Json>, a: string, b: string)
    requires Read(c, notes).data.JObj?
    requires c.dumps(JObj(Read(c, notes).data.fields + data)) == a + "\\\\" + b
    requires '\\' !in a && '\\' !in b
    requires Clean(a + "\\" + b)
    ensures var w := WriteAsWritten(c, notes, data);
            && w.result == Ok(())
            && Search(w.notes).Some?
            && Search(w.notes).value.payload == a + "\\" + b
            && Search(w.notes).value.payload != c.dumps(JObj(Read(c, notes).data.fields + data))
    ensures c.loads(a + "\\" + b).None? ==>
              var w := WriteAsWritten(c, notes, data);
              Read(c, w.notes) == Loaded(w.notes + Placeholder, EmptyObject)
  {
    var l := Read(c, notes);
    ReadLeavesSpan(c, notes);
    WrapCollapsesBackslash(a, b);
    assert WriteAsWritten(c, notes, data).notes == ReplaceAll(l.notes, 0, Wrap(a + "\\" + b));
    SearchAfterReplace(l.notes, a + "\\" + b);
    assert |a + "\\" + b| != |a + "\\\\" + b|;
  }

  /** The guarded escape `\\u` is a bad template escape. */
  lemma WrapRejectsUnicode(a: string, b: string)
    requires '\\' !in a
    ensures ExpandTemplate(Wrap(a + "\\u" + b)) == Err(ReError("bad escape \\u"))
  {
    GuardHasNoBackslash();
    UnicodeEscapeRaises(Prefix + a, b + Suffix);
    assert Prefix + a + "\\u" + (b + Suffix) == Wrap(a + "\\u" + b);
  }

  /**
   * A dump holding the escape `\\u` (how `json.dumps` writes a non-ASCII
   * character) makes the write as written raise `re.error` and change
   * nothing, where the literal write succeeds.
   */
  lemma WriteAsWrittenRejectsUnicode(c: Codec, notes: string, data: map<string, Json>, a: string, b: string)
    requires Read(c, notes).data.JObj?
    requires c.dumps(JObj(Read(c, notes).data.fields + data)) == a + "\\u" + b
    requires '\\' !in a
    ensures WriteAsWritten(c, notes, data) == Step(Read(c, notes).notes, Err(ReError("bad escape \\u")))
    ensures Write(c, notes, data).result == Ok(())
  {
    WrapRejectsUnicode(a, b);
  }
}
