/**
 * The HTML escaping Django's `format_html` applies to every interpolated
 * argument, with the matching unescaping as its partner.
 */
module Html {

  function EscapeChar(c: char): string
  {
    match c
    case '&' => "&amp;"
    case '<' => "&lt;"
    case '>' => "&gt;"
    case '"' => "&quot;"
    case '\'' => "&#x27;"
    case _ => [c]
  }

  /** Django's `escape`: the five markup-significant characters become entities. */
  function Escape(s: string): (r: string)
    ensures |r| >= |s|
  {
    if |s| == 0 then "" else EscapeChar(s[0]) + Escape(s[1..])
  }

  predicate StartsWith(s: string, prefix: string)
  {
    |prefix| <= |s| && s[..|prefix|] == prefix
  }

  /** Replaces the five entities `Escape` writes by the characters they stand for. */
  function Unescape(s: string): string
  {
    if |s| == 0 then ""
    else if StartsWith(s, "&amp;") then "&" + Unescape(s[5..])
    else if StartsWith(s, "&lt;") then "<" + Unescape(s[4..])
    else if StartsWith(s, "&gt;") then ">" + Unescape(s[4..])
    else if StartsWith(s, "&quot;") then "\"" + Unescape(s[6..])
    else if StartsWith(s, "&#x27;") then "'" + Unescape(s[6..])
    else [s[0]] + Unescape(s[1..])
  }

  /** Escaped text holds no character that could open a tag or close an attribute. */
  lemma {:induction false} EscapeIsInert(s: string)
    ensures forall i :: 0 <= i < |Escape(s)| ==> Escape(s)[i] !in "<>\"'"
  {
    if |s| > 0 {
      EscapeIsInert(s[1..]);
      var e := EscapeChar(s[0]);
      assert forall i :: 0 <= i < |e| ==> e[i] !in "<>\"'";
      var r := e + Escape(s[1..]);
      assert forall i :: |e| <= i < |r| ==> r[i] == Escape(s[1..])[i - |e|];
    }
  }

  lemma UnescapeOne(c: char, rest: string)
    ensures Unescape(EscapeChar(c) + rest) == [c] + Unescape(rest)
  {
    var s := EscapeChar(c) + rest;
    var e := EscapeChar(c);
    assert s[..|e|] == e;
    assert s[|e|..] == rest;
    if c !in "&<>\"'" {
      assert s[0] == c;
      assert !StartsWith(s, "&amp;") && !StartsWith(s, "&lt;") && !StartsWith(s, "&gt;")
        && !StartsWith(s, "&quot;") && !StartsWith(s, "&#x27;") by {
        if |s| >= 4 { assert s[..4][0] == c; }
        if |s| >= 5 { assert s[..5][0] == c; }
        if |s| >= 6 { assert s[..6][0] == c; }
      }
    } else if c == '&' {
      assert StartsWith(s, "&amp;");
    } else if c == '<' {
      assert !StartsWith(s, "&amp;") by { if |s| >= 5 { assert s[..5][1] == 'l'; } }
    } else if c == '>' {
      assert !StartsWith(s, "&amp;") by { if |s| >= 5 { assert s[..5][1] == 'g'; } }
      assert !StartsWith(s, "&lt;") by { assert s[..4][1] == 'g'; }
    } else if c == '"' {
      assert !StartsWith(s, "&amp;") by { assert s[..5][1] == 'q'; }
      assert !StartsWith(s, "&lt;") by { assert s[..4][1] == 'q'; }
      assert !StartsWith(s, "&gt;") by { assert s[..4][1] == 'q'; }
    } else {
      assert !StartsWith(s, "&amp;") by { assert s[..5][1] == '#'; }
      assert !StartsWith(s, "&lt;") by { assert s[..4][1] == '#'; }
      assert !StartsWith(s, "&gt;") by { assert s[..4][1] == '#'; }
      assert !StartsWith(s, "&quot;") by { assert s[..6][1] == '#'; }
    }
  }

  /** Escaping loses nothing: the browser shows exactly the original text. */
  lemma {:induction false} UnescapeEscape(s: string)
    ensures Unescape(Escape(s)) == s
  {
    if |s| > 0 {
      UnescapeOne(s[0], Escape(s[1..]));
      UnescapeEscape(s[1..]);
      assert [s[0]] + s[1..] == s;
    }
  }
}
