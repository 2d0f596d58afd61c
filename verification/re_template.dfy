/**
 * What `re.sub` makes of a replacement given as a string: the template is
 * parsed for backslash escapes before anything is substituted. This is the
 * text the metadata store's write hands to `re.sub`.
 */
module ReTemplate {
  import opened Wrappers
  import opened Errors

  /** The character a one-letter template escape `\a \b \f \n \r \t \v` stands for. */
  function ControlEscape(e: char): Option<char> {
    match e
    case 'a' => Some(7 as char)
    case 'b' => Some(8 as char)
    case 'f' => Some(12 as char)
    case 'n' => Some(10 as char)
    case 'r' => Some(13 as char)
    case 't' => Some(9 as char)
    case 'v' => Some(11 as char)
    case _ => None
  }

  predicate IsAsciiLetter(e: char) {
    'a' <= e <= 'z' || 'A' <= e <= 'Z'
  }

  /** `piece` in front of an expansion that succeeded; an error passes through. */
  function Prepend(piece: string, r: Result<string, Error>): (p: Result<string, Error>)
    ensures p.Ok? <==> r.Ok?
    ensures p.Ok? ==> p.value == piece + r.value
    ensures p.Err? ==> p == r
  {
    match r
    case Ok(v) => Ok(piece + v)
    case Err(e) => Err(e)
  }

  /**
   * The expanded template, token by token as the template parser reads it:
   * a character other than `\` is kept; `\\` is one backslash; the control
   * escapes become their characters; any other ASCII letter after `\`, or a
   * `\` at the very end, raises `re.error`; a `\` before any other character
   * is kept with that character. Group references (`\g<…>`, `\1`, the octal
   * `\0`) are not spelled out and count as an error here.
   */
  function ExpandTemplate(t: string): (r: Result<string, Error>)
    ensures '\\' !in t ==> r == Ok(t)
    ensures r.Ok? ==> |r.value| <= |t|
    ensures r.Err? ==> '\\' in t
    ensures r.Err? ==> r.error.ReError?
    decreases |t|
  {
    if |t| == 0 then Ok("")
    else if t[0] != '\\' then
      assert forall x | x in t[1..] :: x in t;
      assert t == t[..1] + t[1..];
      Prepend(t[..1], ExpandTemplate(t[1..]))
    else if |t| == 1 then Err(ReError("bad escape (end of pattern)"))
    else
      var e := t[1];
      if e == '\\' then Prepend("\\", ExpandTemplate(t[2..]))
      else if ControlEscape(e).Some? then Prepend([ControlEscape(e).value], ExpandTemplate(t[2..]))
      else if e == 'g' || '0' <= e <= '9' then Err(ReError("group reference"))
      else if IsAsciiLetter(e) then Err(ReError("bad escape \\" + [e]))
      else Prepend(t[..2], ExpandTemplate(t[2..]))
  }

  /** Text without a backslash passes through in front of the rest. */
  lemma {:induction false} ExpandPlainPrefix(a: string, b: string)
    requires '\\' !in a
    ensures ExpandTemplate(a + b) == Prepend(a, ExpandTemplate(b))
    decreases |a|
  {
    var r := ExpandTemplate(b);
    if |a| == 0 {
      assert a + b == b;
      if r.Ok? {
        assert a + r.value == r.value;
      }
    } else {
      var u := a + b;
      PlainStep(u);
      assert u[..1] == a[..1];
      assert u[1..] == a[1..] + b;
      assert '\\' !in a[1..];
      ExpandPlainPrefix(a[1..], b);
      if r.Ok? {
        RegroupFront(a, r.value);
      }
    }
  }

  lemma RegroupFront(a: string, v: string)
    requires |a| > 0
    ensures a[..1] + (a[1..] + v) == a + v
  {
    assert a == a[..1] + a[1..];
  }

  /** One plain character at the front of a template. */
  lemma PlainStep(u: string)
    requires |u| > 0 && u[0] != '\\'
    ensures ExpandTemplate(u) == Prepend(u[..1], ExpandTemplate(u[1..]))
  {
  }

  /**
   * The escape `json.dumps` writes for a backslash, `\\`, collapses to a
   * single backslash: the expanded text is one character shorter.
   */
  lemma EscapedBackslashCollapses(a: string, b: string)
    requires '\\' !in a && '\\' !in b
    ensures ExpandTemplate(a + "\\\\" + b) == Ok(a + "\\" + b)
  {
    var u := "\\\\" + b;
    EscapeStep(u);
    assert u[2..] == b;
    ExpandPlainPrefix(a, u);
    assert a + "\\\\" + b == a + u;
    assert a + ("\\" + b) == a + "\\" + b;
  }

  /** One `\\` token at the front of a template. */
  lemma EscapeStep(u: string)
    requires |u| > 1 && u[0] == '\\' && u[1] == '\\'
    ensures ExpandTemplate(u) == Prepend("\\", ExpandTemplate(u[2..]))
  {
  }

  /**
   * The escape `json.dumps` writes for a non-ASCII character, `\uXXXX`, is
   * a bad template escape: the expansion raises.
   */
  lemma UnicodeEscapeRaises(a: string, b: string)
    requires '\\' !in a
    ensures ExpandTemplate(a + "\\u" + b) == Err(ReError("bad escape \\u"))
  {
    var u := "\\u" + b;
    assert u[0] == '\\' && u[1] == 'u' && |u| > 1;
    assert ControlEscape('u').None? && IsAsciiLetter('u');
    assert ExpandTemplate(u) == Err(ReError("bad escape \\" + ['u']));
    assert "bad escape \\" + ['u'] == "bad escape \\u";
    ExpandPlainPrefix(a, u);
    assert a + "\\u" + b == a + u;
  }
}
