/**
 * The path arithmetic the plug-ins rely on: `pathlib.PurePosixPath`
 * (parsing, `/`, `.name`, `.parent`, `.suffix`, `.as_posix()`) and
 * `posixpath.split` / `posixpath.splitext` on plain strings.
 */
module Paths {
  import opened Wrappers
  import opened Text

  /** `s.rfind(c)`: the last position of `c` in `s`, if there is one. */
  function LastIndex(s: string, c: char): (r: Option<nat>)
    ensures r.Some? ==> r.value < |s| && s[r.value] == c && c !in s[r.value + 1..]
    ensures r.None? <==> c !in s
    decreases |s|
  {
    if |s| == 0 then None
    else if s[|s| - 1] == c then Some(|s| - 1)
    else
      var r := LastIndex(s[..|s| - 1], c);
      assert s == s[..|s| - 1] + [s[|s| - 1]];
      if r.Some? then
        assert s[r.value + 1..] == s[..|s| - 1][r.value + 1..] + [s[|s| - 1]];
        r
      else r
  }

  /** `s.split(c)`: the pieces between the occurrences of `c`, empty ones included. */
  function Split(s: string, c: char): (r: seq<string>)
    ensures |r| >= 1
    ensures forall i | 0 <= i < |r| :: c !in r[i]
    decreases |s|
  {
    match LastIndex(s, c)
    case None => [s]
    case Some(i) => Split(s[..i], c) + [s[i + 1..]]
  }

  /** Joining the pieces of a split gives the string back. */
  lemma {:induction false} JoinSplit(s: string, c: char)
    ensures Join(Split(s, c), [c]) == s
    decreases |s|
  {
    match LastIndex(s, c)
    case None =>
    case Some(i) =>
      JoinSplit(s[..i], c);
      var r := Split(s, c);
      assert r[..|r| - 1] == Split(s[..i], c);
      assert s == s[..i] + [c] + s[i + 1..];
  }

  /** Splitting pieces joined by a separator they do not contain gives the pieces back. */
  lemma {:induction false} SplitJoin(parts: seq<string>, c: char)
    requires |parts| >= 1
    requires forall i | 0 <= i < |parts| :: c !in parts[i]
    ensures Split(Join(parts, [c]), c) == parts
    decreases |parts|
  {
    if |parts| > 1 {
      var init, last := parts[..|parts| - 1], parts[|parts| - 1];
      var j := Join(init, [c]);
      var s := j + [c] + last;
      assert Join(parts, [c]) == s;
      assert s[|j|] == c && s[|j| + 1..] == last;
      assert LastIndex(s, c) == Some(|j|);
      assert s[..|j|] == j;
      SplitJoin(init, c);
      assert parts == init + [last];
    }
  }

  /** A component `pathlib` keeps: non-empty, without a slash, and not `.`. */
  predicate IsPart(p: string) {
    |p| > 0 && '/' !in p && p != "."
  }

  /** The pieces `pathlib` keeps when it parses: empty pieces and `.` are dropped. */
  function Keep(pieces: seq<string>): (r: seq<string>)
    ensures |r| <= |pieces|
    ensures forall i | 0 <= i < |r| :: r[i] != "" && r[i] != "."
    ensures forall x :: x in r <==> x in pieces && x != "" && x != "."
  {
    if |pieces| == 0 then []
    else if pieces[0] == "" || pieces[0] == "." then Keep(pieces[1..])
    else [pieces[0]] + Keep(pieces[1..])
  }

  /** A parsed path: rooted or relative, and its components. */
  datatype Path = Path(absolute: bool, parts: seq<string>)

  /** Every component is one `pathlib` keeps. */
  predicate Valid(p: Path) {
    forall i | 0 <= i < |p.parts| :: IsPart(p.parts[i])
  }

  /** `PurePosixPath(s)`: a leading slash makes it rooted; empty and `.` components go. */
  function Parse(s: string): (p: Path)
    ensures Valid(p)
  {
    var pieces := Split(s, '/');
    var r := Keep(pieces);
    assert forall i | 0 <= i < |r| :: r[i] in pieces;
    Path(|s| > 0 && s[0] == '/', r)
  }

  /** `.as_posix()`. */
  function AsPosix(p: Path): string {
    if p.absolute then "/" + Join(p.parts, "/")
    else if |p.parts| == 0 then "."
    else Join(p.parts, "/")
  }

  /** `p / s`: a rooted `s` replaces `p`; otherwise its components are appended. */
  function Div(p: Path, s: string): Path {
    if |s| > 0 && s[0] == '/' then Parse(s)
    else Path(p.absolute, p.parts + Parse(s).parts)
  }

  /** `.name`: the last component, or empty text for a path without one. */
  function Name(p: Path): string {
    if |p.parts| == 0 then "" else p.parts[|p.parts| - 1]
  }

  /** `.parent`: the path without its last component; a bare root or `.` is its own parent. */
  function Parent(p: Path): Path {
    if |p.parts| == 0 then p else Path(p.absolute, p.parts[..|p.parts| - 1])
  }

  /** `.suffix` of a name: from its last dot, when that dot is neither first nor last. */
  function Suffix(name: string): (r: string)
    ensures |r| <= |name|
    ensures r == "" || (r[0] == '.' && '.' !in r[1..] && r == name[|name| - |r|..])
  {
    match LastIndex(name, '.')
    case Some(i) => if 0 < i < |name| - 1 then name[i..] else ""
    case None => ""
  }

  /** A single component parses to itself. */
  lemma ParsePart(n: string)
    requires IsPart(n)
    ensures Parse(n) == Path(false, [n])
  {
    assert LastIndex(n, '/') == None;
  }

  /** `(p / n).name` is `n` and `(p / n).parent` is `p`, for a plain file name `n`. */
  lemma NameParentDiv(p: Path, n: string)
    requires IsPart(n)
    ensures Name(Div(p, n)) == n
    ensures Parent(Div(p, n)) == p
  {
    ParsePart(n);
    assert (p.parts + [n])[..|p.parts|] == p.parts;
  }

  /** `(p / n).as_posix()` puts `n` after `p` and a slash, except after `.` and the bare root. */
  lemma AsPosixDiv(p: Path, n: string)
    requires IsPart(n)
    ensures AsPosix(Div(p, n)) ==
              if |p.parts| == 0 then (if p.absolute then "/" + n else n)
              else AsPosix(p) + "/" + n
  {
    ParsePart(n);
    var ps := p.parts + [n];
    assert ps[..|ps| - 1] == p.parts;
  }

  /** A slash in front of joined components is an empty first piece. */
  lemma {:induction false} JoinRooted(parts: seq<string>)
    requires |parts| >= 1
    ensures Join([""] + parts, "/") == "/" + Join(parts, "/")
    decreases |parts|
  {
    if |parts| > 1 {
      var init := parts[..|parts| - 1];
      JoinRooted(init);
      assert ([""] + parts)[..|parts|] == [""] + init;
    }
  }

  /** Components that are all kept are kept unchanged. */
  lemma {:induction false} KeepParts(parts: seq<string>)
    requires forall i | 0 <= i < |parts| :: IsPart(parts[i])
    ensures Keep(parts) == parts
    decreases |parts|
  {
    if |parts| > 0 {
      KeepParts(parts[1..]);
      assert parts == [parts[0]] + parts[1..];
    }
  }

  /** Printing a parsed path and parsing the text gives the same path back. */
  lemma ParseAsPosix(p: Path)
    requires Valid(p)
    ensures Parse(AsPosix(p)) == p
  {
    if |p.parts| == 0 {
      var s := AsPosix(p);
      if p.absolute {
        assert s == "/";
        assert LastIndex(s, '/') == Some(0);
        assert Split(s, '/') == ["", ""] by {
          assert LastIndex(s[..0], '/') == None;
        }
        assert Keep(["", ""]) == [] by {
          assert ["", ""][1..] == [""];
          assert Keep([""]) == [] by {
            assert [""][1..] == [];
          }
        }
      } else {
        assert LastIndex(s, '/') == None;
      }
    } else if p.absolute {
      ParseRooted(p.parts);
    } else {
      ParseRelative(p.parts);
    }
  }

  /** The rooted case of `ParseAsPosix`. */
  lemma ParseRooted(parts: seq<string>)
    requires |parts| >= 1 && forall i | 0 <= i < |parts| :: IsPart(parts[i])
    ensures Parse("/" + Join(parts, "/")) == Path(true, parts)
  {
    var s := "/" + Join(parts, "/");
    var pieces := [""] + parts;
    assert s == Join(pieces, "/") by {
      JoinRooted(parts);
    }
    assert Split(s, '/') == pieces by {
      forall i | 0 <= i < |pieces|
        ensures '/' !in pieces[i]
      {
        if i > 0 {
          assert pieces[i] == parts[i - 1];
        }
      }
      SplitJoin(pieces, '/');
    }
    assert Keep(pieces) == parts by {
      assert pieces[1..] == parts;
      KeepParts(parts);
    }
  }

  /** The relative case of `ParseAsPosix`. */
  lemma ParseRelative(parts: seq<string>)
    requires |parts| >= 1 && forall i | 0 <= i < |parts| :: IsPart(parts[i])
    ensures Parse(Join(parts, "/")) == Path(false, parts)
  {
    assert forall i | 0 <= i < |parts| :: '/' !in parts[i];
    SplitJoin(parts, '/');
    KeepParts(parts);
    JoinFirst(parts);
    assert Join(parts, "/")[0] == parts[0][0];
  }

  /** Joined text starts with the first piece. */
  lemma {:induction false} JoinFirst(parts: seq<string>)
    requires |parts| >= 1
    ensures |parts[0]| <= |Join(parts, "/")|
    ensures Join(parts, "/")[..|parts[0]|] == parts[0]
    decreases |parts|
  {
    if |parts| > 1 {
      var init := parts[..|parts| - 1];
      JoinFirst(init);
      assert init[0] == parts[0];
      var j := Join(init, "/");
      assert Join(parts, "/") == j + "/" + parts[|parts| - 1];
      assert (j + "/" + parts[|parts| - 1])[..|parts[0]|] == j[..|parts[0]|];
    }
  }

  /** `s.rstrip(c)`. */
  function RStrip(s: string, c: char): (r: string)
    ensures |r| <= |s|
    ensures r == s[..|r|]
    ensures |r| == 0 || r[|r| - 1] != c
    ensures forall i | |r| <= i < |s| :: s[i] == c
    decreases |s|
  {
    if |s| > 0 && s[|s| - 1] == c then RStrip(s[..|s| - 1], c) else s
  }

  /** `s.lstrip(c)`. */
  function LStrip(s: string, c: char): (r: string)
    ensures |r| <= |s|
    ensures r == s[|s| - |r|..]
    ensures |r| == 0 || r[0] != c
    ensures forall i | 0 <= i < |s| - |r| :: s[i] == c
    decreases |s|
  {
    if |s| > 0 && s[0] == c then LStrip(s[1..], c) else s
  }

  /**
   * `posixpath.split(p)`: the final component holds no slash and ends the
   * path; the directory part is the rest, with its trailing slashes removed
   * unless it is all slashes.
   */
  function SplitPath(p: string): (r: (string, string))
    ensures '/' !in r.1 && |r.1| <= |p| && r.1 == p[|p| - |r.1|..]
    ensures r.0 <= p[..|p| - |r.1|]
    ensures forall i | |r.0| <= i < |p| - |r.1| :: p[i] == '/'
    ensures |r.0| == 0 || r.0[|r.0| - 1] != '/' || forall i | 0 <= i < |r.0| :: r.0[i] == '/'
  {
    var i := match LastIndex(p, '/') case Some(k) => k + 1 case None => 0;
    var head, tail := p[..i], p[i..];
    if |head| > 0 && exists k | 0 <= k < |head| :: head[k] != '/' then
      var h := RStrip(head, '/');
      assert forall j | |h| <= j < i :: p[j] == head[j];
      (h, tail)
    else (head, tail)
  }

  /** `posixpath.splitext(p)`: the extension starts at the last dot of the final component, unless only dots precede it there. */
  function SplitExt(p: string): (r: (string, string))
  {
    var start := match LastIndex(p, '/') case Some(k) => k + 1 case None => 0;
    match LastIndex(p, '.')
    case Some(dot) =>
      if start <= dot && exists k | start <= k < dot :: p[k] != '.' then (p[..dot], p[dot..])
      else (p, "")
    case None => (p, "")
  }

  /**
   * The root and the extension make up the path; an extension is a dot and
   * what follows it, holding no further dot and no slash.
   */
  lemma SplitExtParts(p: string)
    ensures var (root, ext) := SplitExt(p);
            && root + ext == p
            && (ext == "" || (ext[0] == '.' && '.' !in ext[1..] && '/' !in ext))
  {
    var (root, ext) := SplitExt(p);
    if ext != "" {
      var dot := LastIndex(p, '.').value;
      var start := match LastIndex(p, '/') case Some(k) => k + 1 case None => 0;
      assert ext == p[dot..] && ext[1..] == p[dot + 1..];
      if LastIndex(p, '/').Some? {
        var sl := LastIndex(p, '/').value;
        assert ext == p[sl + 1..][dot - sl - 1..];
      }
    }
  }

  /** A file name's extension without its dot: `ext.lstrip(".")` after `splitext`. */
  lemma ExtensionText(p: string)
    ensures var ext := SplitExt(p).1;
            LStrip(ext, '.') == if ext == "" then "" else ext[1..]
  {
    var ext := SplitExt(p).1;
    SplitExtParts(p);
    if ext != "" {
      assert LStrip(ext, '.') == LStrip(ext[1..], '.');
      if |ext| > 1 {
        assert ext[1] in ext[1..];
      }
    }
  }
}
