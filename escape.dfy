/** `esc` of learn.js: `(x ?? '').toString()` with every `&`, `<` and `>`
    replaced by its HTML entity. Nothing in the renderers calls it; it is
    modelled with its inverse, which shows that no information is lost. */
module Escape {
  import opened JsText

  function Entity(c: char): (r: string)
    ensures |r| >= 1
    ensures c == '&' ==> r == "&amp;"
    ensures c == '<' ==> r == "&lt;"
    ensures c == '>' ==> r == "&gt;"
    ensures c != '&' && c != '<' && c != '>' ==> r == [c]
  {
    if c == '&' then "&amp;"
    else if c == '<' then "&lt;"
    else if c == '>' then "&gt;"
    else [c]
  }

  /** The `replace(/[&<>]/g, ...)` pass. */
  function EscapeText(s: string): (r: string)
    ensures |r| >= |s|
  {
    if s == [] then [] else Entity(s[0]) + EscapeText(s[1..])
  }

  /** `esc(x)`: a missing value (`null`, `undefined`) becomes "". */
  function Esc(x: Str): (r: string)
    ensures x.None? ==> r == ""
    ensures x.Some? ==> r == EscapeText(x.value)
  {
    match x
    case None => ""
    case Some(s) => EscapeText(s)
  }

  /** An independent reading back of the three entities. */
  function Unescape(s: string): string
    decreases |s|
  {
    if s == [] then []
    else if StartsWith(s, "&amp;") then ['&'] + Unescape(s[5..])
    else if StartsWith(s, "&lt;") then ['<'] + Unescape(s[4..])
    else if StartsWith(s, "&gt;") then ['>'] + Unescape(s[4..])
    else [s[0]] + Unescape(s[1..])
  }

  /** The escaped text holds no angle bracket. */
  lemma {:induction false} EscapedHasNoBrackets(s: string)
    ensures forall i :: 0 <= i < |EscapeText(s)| ==> EscapeText(s)[i] != '<' && EscapeText(s)[i] != '>'
  {
    if s != [] {
      EscapedHasNoBrackets(s[1..]);
      var e, rest := Entity(s[0]), EscapeText(s[1..]);
      assert EscapeText(s) == e + rest;
      assert forall i :: 0 <= i < |e| ==> e[i] != '<' && e[i] != '>';
    }
  }

  /** Every `&` of the escaped text opens one of the three entities. */
  lemma {:induction false} EscapedAmpersandsOpenEntities(s: string)
    ensures forall i :: 0 <= i < |EscapeText(s)| && EscapeText(s)[i] == '&' ==>
              StartsWith(EscapeText(s)[i..], "&amp;") || StartsWith(EscapeText(s)[i..], "&lt;")
              || StartsWith(EscapeText(s)[i..], "&gt;")
  {
    if s != [] {
      EscapedAmpersandsOpenEntities(s[1..]);
      var e, rest := Entity(s[0]), EscapeText(s[1..]);
      var r := EscapeText(s);
      assert r == e + rest;
      forall i | 0 <= i < |r| && r[i] == '&'
        ensures StartsWith(r[i..], "&amp;") || StartsWith(r[i..], "&lt;") || StartsWith(r[i..], "&gt;")
      {
        if i < |e| {
          assert i == 0;
          assert r[..|e|] == e;
        } else {
          assert r[i..] == rest[i - |e|..];
          assert rest[i - |e|] == '&';
        }
      }
    }
  }

  /** A text not starting with `&` is read back one character at a time. */
  lemma UnescapePlain(r: string)
    requires r != [] && r[0] != '&'
    ensures Unescape(r) == [r[0]] + Unescape(r[1..])
  {
    assert !StartsWith(r, "&amp;") && !StartsWith(r, "&lt;") && !StartsWith(r, "&gt;") by {
      assert "&amp;"[0] == '&' && "&lt;"[0] == '&' && "&gt;"[0] == '&';
    }
  }

  /** Unescaping reads one escaped character back and goes on after it. */
  lemma UnescapeEntity(c: char, rest: string)
    ensures Unescape(Entity(c) + rest) == [c] + Unescape(rest)
  {
    var e := Entity(c);
    var r := e + rest;
    assert r[..|e|] == e && r[|e|..] == rest;
    if c == '&' {
      assert StartsWith(r, "&amp;");
    } else if c == '<' {
      assert !StartsWith(r, "&amp;") by { assert r[1] == 'l'; }
      assert StartsWith(r, "&lt;");
    } else if c == '>' {
      assert !StartsWith(r, "&amp;") && !StartsWith(r, "&lt;") by { assert r[1] == 'g'; }
      assert StartsWith(r, "&gt;");
    } else {
      UnescapePlain(r);
    }
  }

  /** Unescaping undoes escaping. */
  lemma {:induction false} UnescapeEscape(s: string)
    ensures Unescape(EscapeText(s)) == s
  {
    if s != [] {
      UnescapeEscape(s[1..]);
      assert EscapeText(s) == Entity(s[0]) + EscapeText(s[1..]);
      UnescapeEntity(s[0], EscapeText(s[1..]));
    }
  }

  /** So `esc` is injective: different texts never escape alike. */
  lemma EscInjective(a: string, b: string)
    requires EscapeText(a) == EscapeText(b)
    ensures a == b
  {
    UnescapeEscape(a);
    UnescapeEscape(b);
  }
}
