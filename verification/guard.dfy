/**
 * The guard-string protocol of the metadata store: the regular expression
 * `AYON_CONTEXT::(?P<context>.*?)::AYON_CONTEXT_END` with `re.DOTALL`, its
 * leftmost match (`re.search`) and the replacement of every match (`re.sub`),
 * spelled out over strings.
 */
module Guard {
  import opened Wrappers
  import opened Text

  const Prefix: string := "AYON_CONTEXT::"
  const Suffix: string := "::AYON_CONTEXT_END"

  /** `AYON_METADATA_GUARD.format(payload)`. */
  function Wrap(payload: string): string {
    Prefix + payload + Suffix
  }

  /** `AYON_METADATA_GUARD` itself: its unformatted `{}` is the empty JSON object. */
  const Template: string := Wrap("{}")

  /** A match of the guard pattern: where it starts, its payload, and where it ends. */
  datatype Span = Span(start: nat, payload: string, end: nat)

  /** The first `Suffix` at or after `from`: the lazy `.*?` stops there. */
  function FindSuffix(s: string, from: nat): (r: Option<nat>)
    ensures r.Some? ==> from <= r.value && At(s, r.value, Suffix)
    ensures r.Some? ==> forall k | from <= k < r.value :: !At(s, k, Suffix)
    ensures r.None? ==> forall k | from <= k :: !At(s, k, Suffix)
    decreases |s| - from
  {
    if from + |Suffix| > |s| then None
    else if At(s, from, Suffix) then Some(from)
    else FindSuffix(s, from + 1)
  }

  /** The pattern matches at `p`: the prefix is there and a suffix follows it. */
  predicate MatchAt(s: string, p: nat) {
    At(s, p, Prefix) && FindSuffix(s, p + |Prefix|).Some?
  }

  /** The leftmost match at or after `from`, as `re.search` scans start positions. */
  function FindMatch(s: string, from: nat): (r: Option<nat>)
    ensures r.Some? ==> from <= r.value && MatchAt(s, r.value)
    ensures r.Some? ==> forall k | from <= k < r.value :: !MatchAt(s, k)
    ensures r.None? ==> forall k | from <= k :: !MatchAt(s, k)
    decreases |s| - from
  {
    if from + |Prefix| > |s| then None
    else if MatchAt(s, from) then Some(from)
    else FindMatch(s, from + 1)
  }

  /** The span matched at `p`. */
  function SpanAt(s: string, p: nat): (sp: Span)
    requires MatchAt(s, p)
    ensures sp.start == p <= sp.end <= |s|
    ensures s[sp.start..sp.end] == Wrap(sp.payload)
  {
    var q := FindSuffix(s, p + |Prefix|).value;
    var sp := Span(p, s[p + |Prefix|..q], q + |Suffix|);
    assert s[p..q + |Suffix|] == s[p..p + |Prefix|] + s[p + |Prefix|..q] + s[q..q + |Suffix|];
    sp
  }

  /** `re.search(AYON_METADATA_REGEX, s)`. */
  function Search(s: string): Option<Span> {
    match FindMatch(s, 0)
    case None => None
    case Some(p) => Some(SpanAt(s, p))
  }

  /** `re.sub(AYON_METADATA_REGEX, repl, s[from..])` with an already expanded `repl`. */
  function ReplaceAll(s: string, from: nat, repl: string): string
    requires from <= |s|
    decreases |s| - from
  {
    match FindMatch(s, from)
    case None => s[from..]
    case Some(p) =>
      var sp := SpanAt(s, p);
      s[from..p] + repl + ReplaceAll(s, sp.end, repl)
  }

  /** `gaps[0] + fills[0] + gaps[1] + ... + fills[n-1] + gaps[n]`. */
  function Weave(gaps: seq<string>, fills: seq<string>): string
    requires |gaps| == |fills| + 1
    decreases |fills|
  {
    if |fills| == 0 then gaps[0] else gaps[0] + fills[0] + Weave(gaps[1..], fills[1..])
  }

  function WrapAll(payloads: seq<string>): (r: seq<string>)
    ensures |r| == |payloads|
    ensures forall i | 0 <= i < |r| :: r[i] == Wrap(payloads[i])
  {
    seq(|payloads|, i requires 0 <= i < |payloads| => Wrap(payloads[i]))
  }

  function Repeat(x: string, n: nat): (r: seq<string>)
    ensures |r| == n
    ensures forall i | 0 <= i < n :: r[i] == x
  {
    seq(n, i => x)
  }

  /** The text split into the parts between matches and the payloads of the matches. */
  datatype Parts = Parts(gaps: seq<string>, payloads: seq<string>)

  /** `s[from..]` cut at every match of the pattern, as `re.sub` sees it. */
  function Decompose(s: string, from: nat): (d: Parts)
    requires from <= |s|
    ensures |d.gaps| == |d.payloads| + 1
    ensures Weave(d.gaps, WrapAll(d.payloads)) == s[from..]
    ensures FindMatch(s, from).None? <==> |d.payloads| == 0
    decreases |s| - from
  {
    match FindMatch(s, from)
    case None => Parts([s[from..]], [])
    case Some(p) =>
      var sp := SpanAt(s, p);
      var rest := Decompose(s, sp.end);
      var d := Parts([s[from..p]] + rest.gaps, [sp.payload] + rest.payloads);
      DecomposeStep(s, from, p, sp, rest, d);
      d
  }

  lemma DecomposeStep(s: string, from: nat, p: nat, sp: Span, rest: Parts, d: Parts)
    requires from <= p <= sp.end <= |s| && sp.start == p
    requires s[p..sp.end] == Wrap(sp.payload)
    requires |rest.gaps| == |rest.payloads| + 1
    requires Weave(rest.gaps, WrapAll(rest.payloads)) == s[sp.end..]
    requires d == Parts([s[from..p]] + rest.gaps, [sp.payload] + rest.payloads)
    ensures Weave(d.gaps, WrapAll(d.payloads)) == s[from..]
  {
    assert d.gaps[1..] == rest.gaps;
    assert WrapAll(d.payloads)[1..] == WrapAll(rest.payloads);
    calc {
      Weave(d.gaps, WrapAll(d.payloads));
      d.gaps[0] + WrapAll(d.payloads)[0] + Weave(d.gaps[1..], WrapAll(d.payloads)[1..]);
      s[from..p] + s[p..sp.end] + s[sp.end..];
      { SliceThree(s, from, p, sp.end); }
      s[from..];
    }
  }

  /**
   * `re.sub` replaces every match and nothing else: the text between the
   * matches is kept and each match becomes `repl`.
   */
  lemma {:induction false} ReplaceAllWeaves(s: string, from: nat, repl: string)
    requires from <= |s|
    ensures var d := Decompose(s, from);
            ReplaceAll(s, from, repl) == Weave(d.gaps, Repeat(repl, |d.payloads|))
    decreases |s| - from
  {
    match FindMatch(s, from)
    case None =>
    case Some(p) =>
      var sp := SpanAt(s, p);
      ReplaceAllWeaves(s, sp.end, repl);
      var d := Decompose(s, from);
      assert Repeat(repl, |d.payloads|)[1..] == Repeat(repl, |d.payloads| - 1);
  }

  /** A payload that `Suffix` cannot cut short. */
  ghost predicate Clean(t: string) {
    forall k :: !At(t, k, Suffix)
  }

  /** No occurrence of `Suffix` can overlap the closing one: it has no self-overlap. */
  lemma NoStraddle(t: string, rest: string, k: nat)
    requires k < |t| < k + |Suffix|
    ensures !At(t + Suffix + rest, k, Suffix)
  {
    var u := t + Suffix + rest;
    var d := |t| - k;
    if k + |Suffix| <= |u| {
      assert u[|t|] == ':' && u[|t| + 1] == ':';
      if d == 1 {
        assert u[k..k + |Suffix|][2] == ':' != Suffix[2];
      } else {
        assert Suffix[d] != ':';
        assert u[k..k + |Suffix|][d] == ':';
      }
    }
  }

  /** The first `Suffix` after a clean payload is the one that closes it. */
  lemma SuffixClosesClean(t: string, rest: string)
    requires Clean(t)
    ensures FindSuffix(t + Suffix + rest, 0) == Some(|t|)
  {
    var u := t + Suffix + rest;
    assert At(u, |t|, Suffix) by {
      assert u[|t|..|t| + |Suffix|] == Suffix;
    }
    forall k | 0 <= k < |t|
      ensures !At(u, k, Suffix)
    {
      if k + |Suffix| <= |t| {
        assert !At(t, k, Suffix);
        assert u[k..k + |Suffix|] == t[k..k + |Suffix|];
      } else {
        NoStraddle(t, rest, k);
      }
    }
    FindSuffixExact(u, 0, |t|);
  }

  /** `FindSuffix` returns the first occurrence. */
  lemma FindSuffixExact(s: string, from: nat, q: nat)
    requires from <= q && At(s, q, Suffix)
    requires forall k | from <= k < q :: !At(s, k, Suffix)
    ensures FindSuffix(s, from) == Some(q)
  {
  }

  /** `FindMatch` returns the first match. */
  lemma FindMatchExact(s: string, from: nat, p: nat)
    requires from <= p && MatchAt(s, p)
    requires forall k | from <= k < p :: !MatchAt(s, k)
    ensures FindMatch(s, from) == Some(p)
  {
  }

  /** A suffix at or after `from` is found. */
  lemma FindSuffixFinds(s: string, from: nat, q: nat)
    requires from <= q && At(s, q, Suffix)
    ensures FindSuffix(s, from).Some? && FindSuffix(s, from).value <= q
  {
  }

  /** Before the leftmost match there is no prefix at all. */
  lemma NoPrefixBeforeMatch(s: string, k: nat)
    requires FindMatch(s, 0).Some? && k < FindMatch(s, 0).value
    ensures !At(s, k, Prefix)
  {
    var p := FindMatch(s, 0).value;
    var q := FindSuffix(s, p + |Prefix|).value;
    FindSuffixFinds(s, k + |Prefix|, q);
    assert !MatchAt(s, k);
  }

  /** Occurrences inside a piece `w` of `u` starting at `off` are occurrences of `w`. */
  lemma AtShift(u: string, off: nat, w: string, j: nat, pat: string)
    requires off + |w| <= |u| && u[off..off + |w|] == w
    requires j + |pat| <= |w|
    ensures At(u, off + j, pat) <==> At(w, j, pat)
  {
    var a, b := u[off + j..off + j + |pat|], w[j..j + |pat|];
    forall i | 0 <= i < |pat|
      ensures a[i] == b[i]
    {
      assert u[off + j + i] == u[off..off + |w|][j + i];
    }
    assert a == b;
  }

  /** The first suffix in a piece `w` of `u` is the first suffix of `u` after the piece's start. */
  lemma FindSuffixShift(u: string, off: nat, w: string, q: nat)
    requires off + |w| <= |u| && u[off..off + |w|] == w
    requires FindSuffix(w, 0) == Some(q)
    ensures FindSuffix(u, off) == Some(off + q)
  {
    forall k | off <= k < off + q
      ensures !At(u, k, Suffix)
    {
      AtShift(u, off, w, k - off, Suffix);
    }
    AtShift(u, off, w, q, Suffix);
    FindSuffixExact(u, off, off + q);
  }

  /** Appending text keeps the first suffix found before it. */
  lemma FindSuffixAppend(s: string, x: string, from: nat)
    requires FindSuffix(s, from).Some?
    ensures FindSuffix(s + x, from) == FindSuffix(s, from)
  {
    var q := FindSuffix(s, from).value;
    forall k | from <= k < q
      ensures !At(s + x, k, Suffix)
    {
      AtAppend(s, x, k, Suffix);
    }
    AtAppend(s, x, q, Suffix);
    FindSuffixExact(s + x, from, q);
  }

  /** Appending text keeps the leftmost match. */
  lemma FindMatchAppend(s: string, x: string)
    requires FindMatch(s, 0).Some?
    ensures FindMatch(s + x, 0) == FindMatch(s, 0)
  {
    var p := FindMatch(s, 0).value;
    var u := s + x;
    forall k | 0 <= k < p
      ensures !MatchAt(u, k)
    {
      NoPrefixBeforeMatch(s, k);
      AtAppend(s, x, k, Prefix);
    }
    AtAppend(s, x, p, Prefix);
    FindSuffixAppend(s, x, p + |Prefix|);
    FindMatchExact(u, 0, p);
  }

  /**
   * Appending text after the leftmost match does not move it: the same span is
   * found, with the same payload.
   */
  lemma SearchAppend(s: string, x: string)
    requires Search(s).Some?
    ensures Search(s + x) == Search(s)
  {
    var p := FindMatch(s, 0).value;
    FindMatchAppend(s, x);
    FindSuffixAppend(s, x, p + |Prefix|);
    var q := FindSuffix(s, p + |Prefix|).value;
    assert (s + x)[p + |Prefix|..q] == s[p + |Prefix|..q];
  }

  /** A string with no prefix anywhere has no match. */
  lemma NoPrefixNoMatch(s: string)
    requires !Occurs(s, Prefix)
    ensures Search(s).None?
  {
  }

  /**
   * A wrapped clean payload preceded by text in which no prefix starts is the
   * leftmost match, whatever follows it.
   */
  lemma SearchWrappedFirst(a: string, t: string, tail: string)
    requires Clean(t)
    requires forall k | 0 <= k < |a| :: !At(a + Prefix, k, Prefix)
    ensures Search(a + Wrap(t) + tail) == Some(Span(|a|, t, |a| + |Wrap(t)|))
  {
    var u := (a + Prefix) + (t + Suffix + tail);
    assert a + Wrap(t) + tail == u by {
      Regroup(a, Prefix, t, Suffix, tail);
    }
    SearchWrappedAt(u, a, t, tail);
  }

  /** `SearchWrappedFirst` on the string cut at the end of the prefix. */
  lemma SearchWrappedAt(u: string, a: string, t: string, tail: string)
    requires u == (a + Prefix) + (t + Suffix + tail)
    requires Clean(t)
    requires forall k | 0 <= k < |a| :: !At(a + Prefix, k, Prefix)
    ensures Search(u) == Some(Span(|a|, t, |a| + |Prefix| + |t| + |Suffix|))
  {
    WrappedPayload(u, a, t, tail);
    WrappedMatch(u, a, t, tail);
    WrappedSuffix(u, a, t, tail);
    SearchFound(u, |a|, |a| + |Prefix| + |t|, t);
  }

  /** The payload sits between the end of the prefix and the start of the suffix. */
  lemma WrappedPayload(u: string, a: string, t: string, tail: string)
    requires u == (a + Prefix) + (t + Suffix + tail)
    ensures u[|a| + |Prefix|..|a| + |Prefix| + |t|] == t
  {
    SliceBetween(a + Prefix, t, Suffix, tail);
  }

  /** The span found from the positions of the leftmost match and of its closing suffix. */
  lemma SearchFound(s: string, p: nat, q: nat, payload: string)
    requires FindMatch(s, 0) == Some(p) && FindSuffix(s, p + |Prefix|) == Some(q)
    requires p + |Prefix| <= q && s[p + |Prefix|..q] == payload
    ensures Search(s) == Some(Span(p, payload, q + |Suffix|))
  {
  }

  /** The suffix that closes a wrapped clean payload is the first one after its prefix. */
  lemma WrappedSuffix(u: string, a: string, t: string, tail: string)
    requires u == (a + Prefix) + (t + Suffix + tail)
    requires Clean(t)
    ensures FindSuffix(u, |a| + |Prefix|) == Some(|a| + |Prefix| + |t|)
  {
    SuffixClosesClean(t, tail);
    SuffixAfter(u, a + Prefix, t + Suffix + tail, |t|);
  }

  /** A suffix found first in `w` is found first after `x` in `u = x + w`, shifted by `|x|`. */
  lemma SuffixAfter(u: string, x: string, w: string, q: nat)
    requires u == x + w
    requires FindSuffix(w, 0) == Some(q)
    ensures FindSuffix(u, |x|) == Some(|x| + q)
  {
    SliceAfter(x, w);
    FindSuffixShift(u, |x|, w, q);
  }

  /** A wrapped clean payload after text in which no prefix starts is the leftmost match. */
  lemma WrappedMatch(u: string, a: string, t: string, tail: string)
    requires u == (a + Prefix) + (t + Suffix + tail)
    requires Clean(t)
    requires forall k | 0 <= k < |a| :: !At(a + Prefix, k, Prefix)
    ensures FindMatch(u, 0) == Some(|a|)
  {
    var p := |a|;
    WrappedSuffix(u, a, t, tail);
    assert u[..p + |Prefix|] == a + Prefix;
    forall k | 0 <= k < p
      ensures !MatchAt(u, k)
    {
      AtPrefix(a + Prefix, u, k, Prefix);
    }
    assert At(u, p, Prefix) by {
      assert u[p..p + |Prefix|] == Prefix;
    }
    FindMatchExact(u, 0, p);
  }

  /** `ReplaceAll` from the start: the text before the first match, the replacement, the rest. */
  lemma ReplaceAllFirst(s: string, repl: string)
    requires Search(s).Some?
    ensures var sp := Search(s).value;
            ReplaceAll(s, 0, repl) == s[..sp.start] + repl + ReplaceAll(s, sp.end, repl)
  {
  }

  /**
   * After every match of `s` is replaced by `Wrap(t)` with a clean `t`, the
   * leftmost match sits where the old one did and carries `t`.
   */
  lemma SearchAfterReplace(s: string, t: string)
    requires Search(s).Some?
    requires Clean(t)
    ensures Search(ReplaceAll(s, 0, Wrap(t))).Some?
    ensures Search(ReplaceAll(s, 0, Wrap(t))).value.payload == t
    ensures Search(ReplaceAll(s, 0, Wrap(t))).value.start == Search(s).value.start
  {
    var sp := Search(s).value;
    var p := sp.start;
    var a := s[..p];
    ReplaceAllFirst(s, Wrap(t));
    assert s[..p + |Prefix|] == a + Prefix by {
      assert s[p..p + |Prefix|] == Prefix;
    }
    forall k | 0 <= k < |a|
      ensures !At(a + Prefix, k, Prefix)
    {
      NoPrefixBeforeMatch(s, k);
      AtPrefix(a + Prefix, s, k, Prefix);
    }
    SearchWrappedFirst(a, t, ReplaceAll(s, sp.end, Wrap(t)));
  }
}
