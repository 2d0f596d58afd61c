/** String helpers with the semantics of the Python built-ins the source uses. */
module Text {
  import opened Wrappers

  /** `w` occurs in `s` starting at index `i`. */
  predicate At(s: string, i: int, w: string) {
    0 <= i && i + |w| <= |s| && s[i..i + |w|] == w
  }

  /** `w in s` for strings. */
  ghost predicate Occurs(s: string, w: string) {
    exists i :: At(s, i, w)
  }

  /** An occurrence that lies wholly inside `s` is not affected by appending. */
  lemma AtAppend(s: string, x: string, i: int, w: string)
    requires 0 <= i && i + |w| <= |s|
    ensures At(s + x, i, w) <==> At(s, i, w)
  {
    assert (s + x)[i..i + |w|] == s[i..i + |w|];
  }

  /** An occurrence that lies wholly inside a prefix `s` of `t` is one of `t`. */
  lemma AtPrefix(s: string, t: string, i: int, w: string)
    requires |s| <= |t| && s == t[..|s|]
    requires 0 <= i && i + |w| <= |s|
    ensures At(t, i, w) <==> At(s, i, w)
  {
    assert t[i..i + |w|] == s[i..i + |w|];
  }

  /** Regrouping a string built around a wrapped middle piece. */
  lemma Regroup(a: string, p: string, t: string, q: string, tail: string)
    ensures a + (p + t + q) + tail == (a + p) + (t + q + tail)
  {
  }

  /** The second part of a concatenation is its slice after the first part. */
  lemma SliceAfter(x: string, w: string)
    ensures (x + w)[|x|..|x| + |w|] == w
  {
  }

  /** A slice is its three consecutive sub-slices joined. */
  lemma SliceThree(s: string, i: nat, j: nat, k: nat)
    requires i <= j <= k <= |s|
    ensures s[i..] == s[i..j] + s[j..k] + s[k..]
  {
    assert s[i..] == s[i..j] + s[j..];
    assert s[j..] == s[j..k] + s[k..];
  }

  /** The first part of the second part of a concatenation is its slice there. */
  lemma SliceBetween(x: string, t: string, y: string, z: string)
    ensures (x + (t + y + z))[|x|..|x| + |t|] == t
  {
  }

  predicate IsDigit(c: char) {
    '0' <= c <= '9'
  }

  /** The ASCII part of the regular-expression class `\w`. */
  predicate IsWordChar(c: char) {
    'a' <= c <= 'z' || 'A' <= c <= 'Z' || IsDigit(c) || c == '_'
  }

  /** A non-empty string of `\w` characters: no spaces, no punctuation. */
  predicate IsIdentifier(s: string) {
    |s| > 0 && forall c | c in s :: IsWordChar(c)
  }

  /** `sep.join(parts)`. */
  function Join(parts: seq<string>, sep: string): string
    decreases |parts|
  {
    if |parts| == 0 then ""
    else if |parts| == 1 then parts[0]
    else Join(parts[..|parts| - 1], sep) + sep + parts[|parts| - 1]
  }

  /** `"".join(parts)`: the pieces one after another, with nothing between. */
  function Concat(parts: seq<string>): (r: string)
    ensures |parts| == 1 ==> r == parts[0]
  {
    Join(parts, "")
  }

  /** Sum of the lengths of `parts`. */
  function TotalLength(parts: seq<string>): nat
    decreases |parts|
  {
    if |parts| == 0 then 0 else TotalLength(parts[..|parts| - 1]) + |parts[|parts| - 1]|
  }

  /** Concatenation keeps every piece, in order, at the offset given by the pieces before it. */
  lemma {:induction false} ConcatPieces(parts: seq<string>, k: nat)
    requires k < |parts|
    ensures |Concat(parts)| == TotalLength(parts)
    ensures At(Concat(parts), TotalLength(parts[..k]), parts[k])
    decreases |parts|
  {
    var n := |parts| - 1;
    if n == 0 {
      assert parts[..k] == [];
    } else {
      var init := parts[..n];
      assert Concat(parts) == Concat(init) + parts[n];
      if k < n {
        ConcatPieces(init, k);
        assert init[..k] == parts[..k];
        AtAppend(Concat(init), parts[n], TotalLength(parts[..k]), parts[k]);
      } else {
        ConcatPieces(init, 0);
        assert parts[..k] == init;
        assert Concat(parts)[|Concat(init)|..] == parts[n];
      }
    }
  }

  /** `s[:n]`: at most the first `n` characters. */
  function Take(s: string, n: nat): (r: string)
    ensures |r| == if |s| < n then |s| else n
    ensures r == s[..|r|]
  {
    if |s| <= n then s else s[..n]
  }

  function ToLower(c: char): char {
    if 'A' <= c <= 'Z' then (c as int + 32) as char else c
  }

  function ToUpper(c: char): char {
    if 'a' <= c <= 'z' then (c as int - 32) as char else c
  }

  /** `s.lower()`, ASCII only. */
  function Lower(s: string): (r: string)
    ensures |r| == |s|
  {
    seq(|s|, i requires 0 <= i < |s| => ToLower(s[i]))
  }

  /** `s.capitalize()`, ASCII only: first character upper case, the rest lower case. */
  function Capitalize(s: string): (r: string)
    ensures |r| == |s|
  {
    seq(|s|, i requires 0 <= i < |s| => if i == 0 then ToUpper(s[0]) else ToLower(s[i]))
  }

  /** Capitalising twice is capitalising once. */
  lemma CapitalizeIdempotent(s: string)
    ensures Capitalize(Capitalize(s)) == Capitalize(s)
  {
    var c := Capitalize(s);
    forall i | 0 <= i < |s|
      ensures Capitalize(c)[i] == c[i]
    {
      if i == 0 {
        assert ToUpper(ToUpper(s[0])) == ToUpper(s[0]);
      } else {
        assert ToLower(ToLower(s[i])) == ToLower(s[i]);
      }
    }
  }

  /** `s.replace(a, b)` for single characters. */
  function ReplaceChar(s: string, a: char, b: char): (r: string)
    ensures |r| == |s|
  {
    seq(|s|, i requires 0 <= i < |s| => if s[i] == a then b else s[i])
  }

  /** Replacing `a` by a different `b` leaves no `a` behind and changes nothing else. */
  lemma ReplaceCharRemoves(s: string, a: char, b: char)
    requires a != b
    ensures a !in ReplaceChar(s, a, b)
    ensures forall i | 0 <= i < |s| && s[i] != a :: ReplaceChar(s, a, b)[i] == s[i]
  {
  }

  /** `s.split(c)[0]`: the text before the first `c`, or all of `s`. */
  function BeforeFirst(s: string, c: char): (r: string)
    ensures |r| <= |s| && r == s[..|r|]
    ensures c !in r
    ensures |r| < |s| ==> s[|r|] == c
    decreases |s|
  {
    if |s| == 0 then ""
    else if s[0] == c then ""
    else [s[0]] + BeforeFirst(s[1..], c)
  }

  function DigitChar(d: nat): char
    requires d < 10
  {
    ('0' as int + d) as char
  }

  /** `str(n)` for a natural number. */
  function NatToString(n: nat): (r: string)
    ensures |r| > 0
    ensures forall c | c in r :: IsDigit(c)
    decreases n
  {
    if n < 10 then [DigitChar(n)] else NatToString(n / 10) + [DigitChar(n % 10)]
  }

  /** `str(i)` for an integer. */
  function IntToString(i: int): string {
    if i < 0 then "-" + NatToString(-i) else NatToString(i)
  }

  function DigitsValue(s: string): nat
    requires forall c | c in s :: IsDigit(c)
    decreases |s|
  {
    if |s| == 0 then 0
    else
      assert s[|s| - 1] in s && IsDigit(s[|s| - 1]);
      DigitsValue(s[..|s| - 1]) * 10 + (s[|s| - 1] as int - '0' as int)
  }

  /** `int(s)` restricted to plain decimal digits; anything else is a `ValueError`, here `None`. */
  function ParseNat(s: string): Option<nat> {
    if |s| > 0 && forall c | c in s :: IsDigit(c) then Some(DigitsValue(s)) else None
  }

  /** Parsing a printed natural number gives it back. */
  lemma {:induction false} ParseNatToString(n: nat)
    ensures ParseNat(NatToString(n)) == Some(n)
    decreases n
  {
    var s := NatToString(n);
    if n < 10 {
      assert s[..|s| - 1] == [];
      assert DigitsValue(s) == n;
    } else {
      ParseNatToString(n / 10);
      assert s[..|s| - 1] == NatToString(n / 10);
    }
  }
}
