/**
 * `re.search(r"(?P<name>.+)\(\*\.(?P<ext>\w+)\)", label)["ext"]`: the file
 * extension a pre-2025 exporter label carries as `... (*.ext)`.
 *
 * `.` does not cross a line break, `.+` is greedy and needs one character, so
 * the match starts at the beginning of the first line holding a marker after
 * its first character, and the extension is taken from the last marker of
 * that line. A marker is `(*.`, a maximal run of word characters, and `)`.
 */
module ExtensionPattern {
  import opened Wrappers
  import opened Text

  /** The length of the run of word characters starting at `k`: the greedy `\w+`. */
  function WordRun(s: string, k: nat): (n: nat)
    requires k <= |s|
    ensures k + n <= |s|
    ensures forall i | k <= i < k + n :: IsWordChar(s[i])
    ensures k + n == |s| || !IsWordChar(s[k + n])
    decreases |s| - k
  {
    if k < |s| && IsWordChar(s[k]) then 1 + WordRun(s, k + 1) else 0
  }

  /** The opener `(*.` starts at `j`. */
  predicate Opens(s: string, j: nat) {
    j + 3 <= |s| && s[j] == '(' && s[j + 1] == '*' && s[j + 2] == '.'
  }

  /** `(*.`, one or more word characters, then `)`, starting at `j`. */
  predicate Marker(s: string, j: nat) {
    Opens(s, j)
    && var n := WordRun(s, j + 3);
       n >= 1 && j + 3 + n < |s| && s[j + 3 + n] == ')'
  }

  /** The `ext` group of a marker at `j`. */
  function ExtAt(s: string, j: nat): (e: string)
    requires Marker(s, j)
    ensures |e| >= 1 && forall i | 0 <= i < |e| :: IsWordChar(e[i])
  {
    s[j + 3..j + 3 + WordRun(s, j + 3)]
  }

  /** The last marker below `hi` that has at least one character before it. */
  function LastMarker(s: string, hi: nat): (r: Option<nat>)
    requires hi <= |s|
    ensures r.Some? ==> 1 <= r.value < hi && Marker(s, r.value)
    ensures r.Some? ==> forall j | r.value < j < hi :: !Marker(s, j)
    ensures r.None? ==> forall j | 1 <= j < hi :: !Marker(s, j)
    decreases hi
  {
    if hi <= 1 then None
    else if Marker(s, hi - 1) then Some(hi - 1)
    else LastMarker(s, hi - 1)
  }

  /** `_get_extension`: the extension of the first line that has a marker after its start. */
  function Extension(s: string): (r: Option<string>)
    decreases |s|
  {
    var line := BeforeFirst(s, '\n');
    match LastMarker(line, |line|)
    case Some(j) => Some(ExtAt(line, j))
    case None => if |line| < |s| then Extension(s[|line| + 1..]) else None
  }

  /** A run of word characters is the same seen from a suffix of the text. */
  lemma {:induction false} WordRunShift(s: string, o: nat, k: nat)
    requires o + k <= |s|
    ensures WordRun(s[o..], k) == WordRun(s, o + k)
    decreases |s| - o - k
  {
    if o + k < |s| && IsWordChar(s[o + k]) {
      WordRunShift(s, o, k + 1);
    }
  }

  /** A marker is the same seen from a suffix of the text, and so is its extension. */
  lemma MarkerShift(s: string, o: nat, j: nat)
    requires o <= |s|
    ensures Marker(s[o..], j) <==> Marker(s, o + j)
    ensures Marker(s, o + j) ==> ExtAt(s[o..], j) == ExtAt(s, o + j)
  {
    var t := s[o..];
    if j + 3 <= |t| {
      WordRunShift(s, o, j + 3);
      assert t[j] == s[o + j] && t[j + 1] == s[o + j + 1] && t[j + 2] == s[o + j + 2];
      var n := WordRun(t, j + 3);
      if j + 3 + n < |t| {
        assert t[j + 3 + n] == s[o + j + 3 + n];
      }
      if Marker(s, o + j) {
        assert t[j + 3..j + 3 + n] == s[o + j + 3..o + j + 3 + n];
      }
    }
  }

  /** A run of word characters inside a line stops where it would in the whole text. */
  lemma {:induction false} WordRunLine(s: string, line: string, k: nat)
    requires |line| <= |s| && line == s[..|line|] && (|line| == |s| || s[|line|] == '\n')
    requires k <= |line|
    ensures WordRun(line, k) == WordRun(s, k)
    decreases |line| - k
  {
    if k < |line| && IsWordChar(line[k]) {
      WordRunLine(s, line, k + 1);
    } else if k == |line| && k < |s| {
      assert !IsWordChar(s[k]);
    }
  }

  /** A marker starting inside a line is a marker of the whole text, and the other way round. */
  lemma MarkerLine(s: string, line: string, j: nat)
    requires |line| <= |s| && line == s[..|line|] && (|line| == |s| || s[|line|] == '\n')
    requires j < |line|
    ensures Marker(line, j) <==> Marker(s, j)
    ensures Marker(s, j) ==> ExtAt(line, j) == ExtAt(s, j)
  {
    if j + 3 <= |line| {
      WordRunLine(s, line, j + 3);
      assert line[j] == s[j] && line[j + 1] == s[j + 1] && line[j + 2] == s[j + 2];
      var n := WordRun(line, j + 3);
      if j + 3 + n == |line| && j + 3 + n < |s| {
        assert s[j + 3 + n] == '\n';
      } else if j + 3 + n < |line| {
        assert line[j + 3 + n] == s[j + 3 + n];
      }
      if Marker(s, j) {
        assert line[j + 3..j + 3 + n] == s[j + 3..j + 3 + n];
      }
    } else if j + 3 <= |s| {
      assert s[|line|] == '\n';
      assert !Opens(s, j);
    }
  }

  /** Whatever extension is found is the `ext` of a marker of the text. */
  lemma {:induction false} ExtensionSound(s: string)
    requires Extension(s).Some?
    ensures exists j :: Marker(s, j) && ExtAt(s, j) == Extension(s).value
    decreases |s|
  {
    var line := BeforeFirst(s, '\n');
    match LastMarker(line, |line|)
    case Some(j) =>
      MarkerLine(s, line, j);
    case None =>
      var o := |line| + 1;
      ExtensionSound(s[o..]);
      var j :| Marker(s[o..], j) && ExtAt(s[o..], j) == Extension(s[o..]).value;
      MarkerShift(s, o, j);
  }

  /** A marker with a character before it on its own line is found. */
  predicate Findable(s: string, j: nat) {
    1 <= j < |s| && Marker(s, j) && s[j - 1] != '\n'
  }

  /**
   * An extension is found exactly when some marker has a character before it
   * on its own line.
   */
  lemma ExtensionFound(s: string)
    ensures Extension(s).Some? <==> exists j :: Findable(s, j)
  {
    if exists j :: Findable(s, j) {
      var j :| Findable(s, j);
      ExtensionComplete(s, j);
    }
    if Extension(s).Some? {
      ExtensionNeedsMarker(s);
    }
  }

  /** A findable marker makes the search succeed. */
  lemma {:induction false} ExtensionComplete(s: string, j: nat)
    requires Findable(s, j)
    ensures Extension(s).Some?
    decreases |s|
  {
    var line := BeforeFirst(s, '\n');
    var o := |line| + 1;
    if j < |line| {
      MarkerLine(s, line, j);
    } else if LastMarker(line, |line|).None? {
      assert s[j] == '(';
      assert s[|line|] == '\n';
      MarkerShift(s, o, j - o);
      assert s[o..][j - o - 1] == s[j - 1];
      ExtensionComplete(s[o..], j - o);
    }
  }

  /** A successful search has a findable marker. */
  lemma {:induction false} ExtensionNeedsMarker(s: string)
    requires Extension(s).Some?
    ensures exists j :: Findable(s, j)
    decreases |s|
  {
    var line := BeforeFirst(s, '\n');
    var o := |line| + 1;
    if LastMarker(line, |line|).Some? {
      var j := LastMarker(line, |line|).value;
      MarkerLine(s, line, j);
      assert s[j - 1] == line[j - 1];
      assert Findable(s, j);
    } else {
      ExtensionNeedsMarker(s[o..]);
      var k: nat :| Findable(s[o..], k);
      MarkerShift(s, o, k);
      assert s[o + k - 1] == s[o..][k - 1];
      assert Findable(s, o + k);
    }
  }

  /** Text without `*` has no marker, so no extension. */
  lemma {:induction false} NoStarNoExtension(s: string)
    requires '*' !in s
    ensures Extension(s) == None
    decreases |s|
  {
    var line := BeforeFirst(s, '\n');
    forall j | 1 <= j < |line|
      ensures !Marker(line, j)
    {
      if j + 3 <= |line| {
        assert line[j + 1] == s[j + 1];
      }
    }
    if |line| < |s| {
      NoStarNoExtension(s[|line| + 1..]);
    }
  }

  /** The label of a pre-2025 exporter: a one-line name, then ` (*.ext)`. */
  function LegacyLabel(stem: string, ext: string): string {
    stem + " (*." + ext + ")"
  }

  /** A one-line name followed by ` (*.ext)` yields `ext`, whatever the name holds. */
  lemma LegacyLabelExtension(stem: string, ext: string)
    requires '\n' !in stem
    requires |ext| >= 1 && forall i | 0 <= i < |ext| :: IsWordChar(ext[i])
    ensures Extension(LegacyLabel(stem, ext)) == Some(ext)
  {
    var s := LegacyLabel(stem, ext);
    var j0 := |stem| + 1;
    LegacyOneLine(stem, ext);
    assert BeforeFirst(s, '\n') == s;
    LegacyMarker(stem, ext);
    LegacyLastMarker(stem, ext);
    var r := LastMarker(s, |s|);
    assert r == Some(j0);
  }

  /** A legacy label is one line. */
  lemma LegacyOneLine(stem: string, ext: string)
    requires '\n' !in stem
    requires forall i | 0 <= i < |ext| :: IsWordChar(ext[i])
    ensures '\n' !in LegacyLabel(stem, ext)
  {
    var s := LegacyLabel(stem, ext);
    var j0 := |stem| + 1;
    forall i | 0 <= i < |s|
      ensures s[i] != '\n'
    {
      if i < |stem| {
        assert s[i] == stem[i];
      } else if j0 + 3 <= i < j0 + 3 + |ext| {
        assert s[i] == ext[i - j0 - 3];
      }
    }
  }

  /** The closing ` (*.ext)` of a legacy label is a marker with extension `ext`. */
  lemma LegacyMarker(stem: string, ext: string)
    requires |ext| >= 1 && forall i | 0 <= i < |ext| :: IsWordChar(ext[i])
    ensures Marker(LegacyLabel(stem, ext), |stem| + 1)
    ensures ExtAt(LegacyLabel(stem, ext), |stem| + 1) == ext
  {
    var s := LegacyLabel(stem, ext);
    var j0 := |stem| + 1;
    forall i | j0 + 3 <= i < j0 + 3 + |ext|
      ensures IsWordChar(s[i])
    {
      assert s[i] == ext[i - j0 - 3];
    }
    WordRunExact(s, j0 + 3, |ext|);
    assert s[j0] == '(' && s[j0 + 1] == '*' && s[j0 + 2] == '.';
    assert s[j0 + 3..j0 + 3 + |ext|] == ext;
  }

  /** No marker starts after the closing one of a legacy label. */
  lemma LegacyLastMarker(stem: string, ext: string)
    requires forall i | 0 <= i < |ext| :: IsWordChar(ext[i])
    ensures forall j | |stem| + 1 < j < |LegacyLabel(stem, ext)| :: !Marker(LegacyLabel(stem, ext), j)
  {
    var s := LegacyLabel(stem, ext);
    var j0 := |stem| + 1;
    forall j | j0 < j < |s|
      ensures !Marker(s, j)
    {
      if j0 + 3 <= j < j0 + 3 + |ext| {
        assert s[j] == ext[j - j0 - 3];
      }
    }
  }

  /** A run of exactly `n` word characters followed by a non-word character. */
  lemma {:induction false} WordRunExact(s: string, k: nat, n: nat)
    requires k + n < |s| && !IsWordChar(s[k + n])
    requires forall i | k <= i < k + n :: IsWordChar(s[i])
    ensures WordRun(s, k) == n
    decreases n
  {
    if n > 0 {
      WordRunExact(s, k + 1, n - 1);
    }
  }
}
