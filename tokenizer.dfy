/** `tokenizeWords` of learn.js: a global scan with the regular expression
    `(\w+|[åæøÅÆØA-Za-z]+|\d+|\S)`. At each position the alternatives are
    tried left to right; whitespace matches none of them and is skipped.
    `\w` is ASCII only, and `\d+` can never win because every digit is `\w`. */
module Tokenizer {
  import opened JsText

  /** `\w`: [A-Za-z0-9_]. */
  predicate IsWordChar(c: char) {
    ('A' <= c <= 'Z') || ('a' <= c <= 'z') || ('0' <= c <= '9') || c == '_'
  }

  /** The six Norwegian letters listed in the second alternative. */
  predicate IsNordic(c: char) {
    c == 'å' || c == 'æ' || c == 'ø' || c == 'Å' || c == 'Æ' || c == 'Ø'
  }

  /** `[åæøÅÆØA-Za-z]`. */
  predicate IsLetterRunChar(c: char) {
    IsNordic(c) || ('A' <= c <= 'Z') || ('a' <= c <= 'z')
  }

  /** Which alternative of the expression matches at a non-space character. */
  datatype Alternative = WordRun | LetterRun | SingleChar

  function AlternativeAt(c: char): Alternative {
    if IsWordChar(c) then WordRun
    else if IsNordic(c) then LetterRun
    else SingleChar
  }

  /** The character class a greedy `+` of that alternative extends over. */
  predicate Extends(alt: Alternative, c: char) {
    match alt
    case WordRun => IsWordChar(c)
    case LetterRun => IsLetterRunChar(c)
    case SingleChar => false
  }

  lemma ExtendsIsNotSpace(alt: Alternative, c: char)
    requires Extends(alt, c)
    ensures !IsSpace(c)
  {
  }

  /** Length of the longest prefix of `s` inside the class of `alt`. */
  function RunLength(s: string, alt: Alternative): (n: nat)
    ensures n <= |s|
    ensures forall i :: 0 <= i < n ==> Extends(alt, s[i])
    ensures n == |s| || !Extends(alt, s[n])
  {
    if s == [] || !Extends(alt, s[0]) then 0 else 1 + RunLength(s[1..], alt)
  }

  /** A run length is determined by its two defining properties. */
  lemma RunLengthUnique(s: string, alt: Alternative, n: nat)
    requires n <= |s|
    requires forall i :: 0 <= i < n ==> Extends(alt, s[i])
    requires n == |s| || !Extends(alt, s[n])
    ensures RunLength(s, alt) == n
  {
  }

  /** Length of the match the expression finds at `s[0]`. */
  function MatchLength(s: string): (n: nat)
    requires s != [] && !IsSpace(s[0])
    ensures 1 <= n <= |s|
  {
    var alt := AlternativeAt(s[0]);
    if alt == SingleChar then 1 else RunLength(s, alt)
  }

  /** The token sequence `tokenizeWords` produces for `s`. */
  function Tokenize(s: string): seq<string>
    decreases |s|
  {
    if s == [] then []
    else if IsSpace(s[0]) then Tokenize(s[1..])
    else
      var n := MatchLength(s);
      [s[..n]] + Tokenize(s[n..])
  }

  /** One `re.exec` from position `i`: the end of the match found there. */
  method MatchEnd(s: string, i: nat) returns (j: nat)
    requires i < |s| && !IsSpace(s[i])
    ensures j == i + MatchLength(s[i..])
  {
    var alt := AlternativeAt(s[i]);
    j := i + 1;
    if alt != SingleChar {
      while j < |s| && Extends(alt, s[j])
        invariant i < j <= |s|
        invariant forall k :: i <= k < j ==> Extends(alt, s[k])
      {
        j := j + 1;
      }
      RunLengthUnique(s[i..], alt, j - i);
    }
  }

  /** Scanning from a match: its token, then the scan after it. */
  lemma MatchStep(s: string, i: nat, j: nat)
    requires i < |s| && !IsSpace(s[i]) && j == i + MatchLength(s[i..])
    ensures Tokenize(s[i..]) == [s[i..j]] + Tokenize(s[j..])
  {
    assert s[i..][..j - i] == s[i..j] && s[i..][j - i..] == s[j..];
  }

  /** `tokenizeWords(str)`: the `while (re.exec(...))` loop pushing each match. */
  method TokenizeWords(str: Str) returns (tokens: seq<string>)
    ensures tokens == Tokenize(Or(str, ""))
  {
    var s := Or(str, "");
    tokens := [];
    var i := 0;
    while i < |s|
      invariant 0 <= i <= |s|
      invariant tokens + Tokenize(s[i..]) == Tokenize(s)
    {
      if IsSpace(s[i]) {
        assert Tokenize(s[i..]) == Tokenize(s[i + 1..]);
        i := i + 1;
      } else {
        var j := MatchEnd(s, i);
        MatchStep(s, i, j);
        tokens := tokens + [s[i..j]];
        i := j;
      }
    }
  }

  // ---------------------------------------------------------------------
  // Basic properties

  /** Concatenation of a token list. */
  function Concat(ts: seq<string>): string {
    if ts == [] then [] else ts[0] + Concat(ts[1..])
  }

  /** The input with every whitespace character removed, order kept. */
  function RemoveSpaces(s: string): string {
    if s == [] then []
    else (if IsSpace(s[0]) then [] else [s[0]]) + RemoveSpaces(s[1..])
  }

  lemma {:induction false} RemoveSpacesAppend(a: string, b: string)
    ensures RemoveSpaces(a + b) == RemoveSpaces(a) + RemoveSpaces(b)
  {
    if a != [] {
      assert (a + b)[1..] == a[1..] + b;
      RemoveSpacesAppend(a[1..], b);
    } else {
      assert a + b == b;
    }
  }

  lemma {:induction false} RemoveSpacesOfSolid(t: string)
    requires forall i :: 0 <= i < |t| ==> !IsSpace(t[i])
    ensures RemoveSpaces(t) == t
  {
    if t != [] {
      RemoveSpacesOfSolid(t[1..]);
    }
  }

  /** The first token of a non-space position holds no whitespace. */
  lemma MatchIsSolid(s: string)
    requires s != [] && !IsSpace(s[0])
    ensures forall i :: 0 <= i < MatchLength(s) ==> !IsSpace(s[i])
  {
    var alt := AlternativeAt(s[0]);
    if alt != SingleChar {
      forall i | 0 <= i < MatchLength(s) ensures !IsSpace(s[i]) {
        ExtendsIsNotSpace(alt, s[i]);
      }
    }
  }

  /** No token is empty and no token contains whitespace. */
  lemma {:induction false} TokensAreSolid(s: string)
    ensures forall k :: 0 <= k < |Tokenize(s)| ==>
              Tokenize(s)[k] != [] && forall i :: 0 <= i < |Tokenize(s)[k]| ==> !IsSpace(Tokenize(s)[k][i])
    decreases |s|
  {
    if s == [] {
    } else if IsSpace(s[0]) {
      TokensAreSolid(s[1..]);
    } else {
      var n := MatchLength(s);
      MatchIsSolid(s);
      TokensAreSolid(s[n..]);
    }
  }

  /** Joining the tokens gives back the input without its whitespace. */
  lemma {:induction false} ConcatIsInputWithoutSpaces(s: string)
    ensures Concat(Tokenize(s)) == RemoveSpaces(s)
    decreases |s|
  {
    if s == [] {
    } else if IsSpace(s[0]) {
      ConcatIsInputWithoutSpaces(s[1..]);
    } else {
      var n := MatchLength(s);
      var toks := Tokenize(s);
      assert toks == [s[..n]] + Tokenize(s[n..]);
      assert toks[1..] == Tokenize(s[n..]);
      ConcatIsInputWithoutSpaces(s[n..]);
      MatchIsSolid(s);
      RemoveSpacesOfSolid(s[..n]);
      assert s == s[..n] + s[n..];
      RemoveSpacesAppend(s[..n], s[n..]);
    }
  }

  /** Missing (`null`, `undefined`) or empty input gives no tokens. */
  lemma EmptyInputHasNoTokens(str: Str)
    requires !Truthy(str)
    ensures Tokenize(Or(str, "")) == []
  {
  }

  // ---------------------------------------------------------------------
  // Maximality: the four ways the scan can advance

  /** A token that starts with `\w` is the whole maximal run of `[A-Za-z0-9_]`. */
  lemma WordRunIsMaximal(w: string, rest: string)
    requires w != [] && forall i :: 0 <= i < |w| ==> IsWordChar(w[i])
    requires rest == [] || !IsWordChar(rest[0])
    ensures Tokenize(w + rest) == [w] + Tokenize(rest)
  {
    var s := w + rest;
    assert s[0] == w[0];
    RunLengthUnique(s, WordRun, |w|);
    assert s[..|w|] == w && s[|w|..] == rest;
  }

  /** A token that starts with å, æ, ø, Å, Æ or Ø extends over
      `[åæøÅÆØA-Za-z]` only: digits and `_` end it. */
  lemma LetterRunIsMaximal(w: string, rest: string)
    requires w != [] && IsNordic(w[0])
    requires forall i :: 0 <= i < |w| ==> IsLetterRunChar(w[i])
    requires rest == [] || !IsLetterRunChar(rest[0])
    ensures Tokenize(w + rest) == [w] + Tokenize(rest)
  {
    var s := w + rest;
    assert s[0] == w[0];
    RunLengthUnique(s, LetterRun, |w|);
    assert s[..|w|] == w && s[|w|..] == rest;
  }

  /** Any other non-space character is a token on its own. */
  lemma OtherCharIsSingleToken(c: char, rest: string)
    requires !IsSpace(c) && !IsWordChar(c) && !IsNordic(c)
    ensures Tokenize([c] + rest) == [[c]] + Tokenize(rest)
  {
    var s := [c] + rest;
    assert s[0] == c && s[..1] == [c] && s[1..] == rest;
  }

  /** Whitespace is skipped. */
  lemma SpaceIsSkipped(c: char, rest: string)
    requires IsSpace(c)
    ensures Tokenize([c] + rest) == Tokenize(rest)
  {
    var s := [c] + rest;
    assert s[0] == c && s[1..] == rest;
  }

  /** Every token has one of the three shapes of the expression's alternatives. */
  lemma {:induction false} TokenShapes(s: string)
    ensures forall k :: 0 <= k < |Tokenize(s)| ==>
              var t := Tokenize(s)[k];
              t != [] &&
              ((forall i :: 0 <= i < |t| ==> IsWordChar(t[i]))
               || (IsNordic(t[0]) && forall i :: 0 <= i < |t| ==> IsLetterRunChar(t[i]))
               || (|t| == 1 && !IsSpace(t[0]) && !IsWordChar(t[0]) && !IsNordic(t[0])))
    decreases |s|
  {
    if s == [] {
    } else if IsSpace(s[0]) {
      TokenShapes(s[1..]);
    } else {
      TokenShapes(s[MatchLength(s)..]);
    }
  }

  /** Two word runs separated by a space are two tokens. */
  lemma TwoWords(a: string, b: string)
    requires a != [] && forall i :: 0 <= i < |a| ==> IsWordChar(a[i])
    requires b != [] && forall i :: 0 <= i < |b| ==> IsWordChar(b[i])
    ensures Tokenize(a + " " + b) == [a, b]
  {
    assert a + " " + b == a + ([' '] + b);
    WordRunIsMaximal(a, [' '] + b);
    SpaceIsSkipped(' ', b);
    assert b == b + [];
    WordRunIsMaximal(b, []);
  }

  lemma JegSpiser()
    ensures Tokenize("Jeg spiser") == ["Jeg", "spiser"]
  {
    assert forall i :: 0 <= i < |"Jeg"| ==> IsWordChar("Jeg"[i]);
    assert forall i :: 0 <= i < |"spiser"| ==> IsWordChar("spiser"[i]);
    TwoWords("Jeg", "spiser");
    assert "Jeg" + " " + "spiser" == "Jeg spiser";
  }

  /** `\w` is ASCII only, so "Bjørn" splits before the ø. */
  lemma BjornSplits()
    ensures Tokenize("Bjørn") == ["Bj", "ørn"]
  {
    assert "Bjørn" == "Bj" + "ørn";
    WordRunIsMaximal("Bj", "ørn");
    assert "ørn" == "ørn" + "";
    LetterRunIsMaximal("ørn", "");
  }
}
