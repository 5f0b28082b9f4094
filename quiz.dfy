/** The click handlers of the three quiz kinds in learn.js: each decides
    ok or bad from the user's answer and the item's data, and sets the
    feedback text and class. */
module Quiz {
  import opened JsText
  import opened Fragments

  /** The feedback element after a check: its verdict, `textContent` and `className`. */
  datatype Feedback = Feedback(ok: bool, text: string, cls: string)

  /** The shared tail of all three handlers. */
  function Verdict(ok: bool, wrongText: string): (f: Feedback)
    ensures f.ok == ok
    ensures f.text == (if ok then "Riktig!" else wrongText)
    ensures f.cls == "quiz-feedback " + (if ok then "ok" else "bad")
  {
    Feedback(ok, if ok then "Riktig!" else wrongText, "quiz-feedback " + (if ok then "ok" else "bad"))
  }

  // ---------------------------------------------------------------------
  // fill_list

  /** A typed answer is right when, trimmed and lowercased, it equals the
      lowercased expected answer (a missing answer counts as ""). */
  predicate FillMatches(input: string, ans: Str) {
    Lower(Trim(input)) == Lower(Or(ans, ""))
  }

  /** The `fill_list` check; the wrong-answer text interpolates `it.ans`
      as a template literal does, so a missing answer reads "undefined". */
  function FillCheck(input: string, ans: Str): (f: Feedback)
    ensures f.ok <==> FillMatches(input, ans)
    ensures f.ok ==> f.text == "Riktig!"
    ensures !f.ok ==> f.text == "Riktig svar: " + Interp(ans)
    ensures f.cls == "quiz-feedback " + (if f.ok then "ok" else "bad")
  {
    Verdict(FillMatches(input, ans), "Riktig svar: " + Interp(ans))
  }

  predicate AllSpace(s: string) {
    forall i :: 0 <= i < |s| ==> IsSpace(s[i])
  }

  lemma {:induction false} TrimStartPadded(pad: string, s: string)
    requires AllSpace(pad)
    ensures TrimStart(pad + s) == TrimStart(s)
    decreases |pad|
  {
    if pad != [] {
      assert (pad + s)[0] == pad[0] && (pad + s)[1..] == pad[1..] + s;
      TrimStartPadded(pad[1..], s);
    } else {
      assert pad + s == s;
    }
  }

  lemma {:induction false} TrimEndPadded(s: string, pad: string)
    requires AllSpace(pad)
    ensures TrimEnd(s + pad) == TrimEnd(s)
    decreases |pad|
  {
    if pad != [] {
      var sp := s + pad;
      assert sp[|sp| - 1] == pad[|pad| - 1];
      assert sp[..|sp| - 1] == s + pad[..|pad| - 1];
      TrimEndPadded(s, pad[..|pad| - 1]);
    } else {
      assert s + pad == s;
    }
  }

  /** Trailing whitespace survives `TrimStart` only after a non-space character. */
  lemma {:induction false} TrimStartThenPad(s: string, pad: string)
    requires AllSpace(pad)
    ensures TrimStart(s + pad) == (if TrimStart(s) == [] then [] else TrimStart(s) + pad)
    decreases |s|
  {
    if s == [] {
      assert s + pad == pad;
      TrimStartPadded(pad, []);
      assert pad + [] == pad;
    } else if IsSpace(s[0]) {
      assert (s + pad)[0] == s[0] && (s + pad)[1..] == s[1..] + pad;
      TrimStartThenPad(s[1..], pad);
    } else {
      assert (s + pad)[0] == s[0];
    }
  }

  lemma TrimPadded(pre: string, s: string, post: string)
    requires AllSpace(pre) && AllSpace(post)
    ensures Trim(pre + s + post) == Trim(s)
  {
    assert pre + s + post == pre + (s + post);
    TrimStartPadded(pre, s + post);
    TrimStartThenPad(s, post);
    if TrimStart(s) != [] {
      TrimEndPadded(TrimStart(s), post);
    }
  }

  /** Whitespace around the typed answer never changes the verdict or the feedback. */
  lemma FillIgnoresPadding(pre: string, input: string, post: string, ans: Str)
    requires AllSpace(pre) && AllSpace(post)
    ensures FillCheck(pre + input + post, ans) == FillCheck(input, ans)
  {
    TrimPadded(pre, input, post);
  }

  /** The expected answer is compared without regard to case. */
  lemma FillIgnoresAnswerCase(input: string, a: string)
    ensures FillCheck(input, Some(Lower(a))).ok == FillCheck(input, Some(a)).ok
  {
    LowerIdempotent(a);
    LowerIdempotent(input);
  }

  lemma TrimOfTrimmed(s: string)
    requires s == [] || (!IsSpace(s[0]) && !IsSpace(s[|s| - 1]))
    ensures Trim(s) == s
  {
  }

  lemma KattIsKatt()
    ensures Lower("Katt") == "katt" && Lower("katt") == "katt" && Trim("katt") == "katt"
  {
    var l := Lower("Katt");
    assert l[0] == 'k';
    assert l == "katt";
    TrimOfTrimmed("katt");
    LowerIdempotent("Katt");
  }

  /** A trimmed word matches an answer with the same lower-case form, with or without padding. */
  lemma PaddedWordMatches(w: string, a: string, pre: string, post: string)
    requires AllSpace(pre) && AllSpace(post)
    requires Trim(w) == w && Lower(w) == Lower(a)
    ensures FillCheck(w, Some(a)).ok && FillCheck(pre + w + post, Some(a)).ok
  {
    FillIgnoresPadding(pre, w, post, Some(a));
  }

  lemma KattMatches()
    ensures FillCheck("katt", Some("Katt")).ok
  {
    KattIsKatt();
    assert FillMatches("katt", Some("Katt"));
  }

  lemma PaddedKattMatches()
    ensures FillCheck(" katt ", Some("Katt")).ok
  {
    assert " katt " == " " + "katt" + " ";
    assert AllSpace(" ");
    KattIsKatt();
    PaddedWordMatches("katt", "Katt", " ", " ");
  }

  /** A trimmed input whose first letter differs from the answer's in lower case is wrong. */
  lemma FirstLetterDiffers(input: string, a: string)
    requires Trim(input) == input && input != [] && a != []
    requires LowerChar(input[0]) != LowerChar(a[0])
    ensures !FillMatches(input, Some(a))
  {
    assert Lower(Trim(input))[0] != Lower(a)[0];
  }

  /** A different word is wrong whatever its case. */
  lemma HundIsNotKatt()
    ensures !FillMatches("hund", Some("Katt"))
  {
    TrimOfTrimmed("hund");
    assert Lower("hund")[0] == 'h' && Lower("Katt")[0] == 'k';
  }

  // ---------------------------------------------------------------------
  // mcq_list

  /** `findIndex(el => el.checked)` over the question's radios. */
  function SelectedIndex(checked: seq<bool>): (r: int)
    ensures -1 <= r < |checked|
    ensures r == -1 <==> forall i :: 0 <= i < |checked| ==> !checked[i]
    ensures r >= 0 ==> checked[r] && forall i :: 0 <= i < r ==> !checked[i]
  {
    if checked == [] then -1
    else if checked[0] then 0
    else
      var r := SelectedIndex(checked[1..]);
      if r == -1 then -1 else r + 1
  }

  /** `q.options?.[idx]?.no || ''`. */
  function OptionText(options: seq<Str>, answerIndex: Option<int>): (t: string)
    ensures answerIndex.Some? && 0 <= answerIndex.value < |options|
            ==> t == Or(options[answerIndex.value], "")
    ensures !(answerIndex.Some? && 0 <= answerIndex.value < |options|) ==> t == ""
  {
    if answerIndex.Some? && 0 <= answerIndex.value < |options|
    then Or(options[answerIndex.value], "") else ""
  }

  /** The `mcq_list` check: `answerIndex` compared with `===` against the
      selected position (a missing `answerIndex` never matches). */
  function McqCheck(checked: seq<bool>, answerIndex: Option<int>, options: seq<Str>): (f: Feedback)
    ensures f.ok <==> answerIndex == Some(SelectedIndex(checked))
    ensures !f.ok ==> f.text == "Riktig svar: " + OptionText(options, answerIndex)
    ensures f.cls == "quiz-feedback " + (if f.ok then "ok" else "bad")
  {
    Verdict(answerIndex == Some(SelectedIndex(checked)), "Riktig svar: " + OptionText(options, answerIndex))
  }

  /** With no radio checked the answer is wrong, unless the data itself says `answerIndex: -1`. */
  lemma McqNothingSelected(checked: seq<bool>, answerIndex: Option<int>, options: seq<Str>)
    requires forall i :: 0 <= i < |checked| ==> !checked[i]
    ensures McqCheck(checked, answerIndex, options).ok <==> answerIndex == Some(-1)
  {
  }

  /** Checking exactly the radio at `answerIndex` is right; checking exactly any other is wrong
      and names the right option. */
  lemma McqSingleSelection(n: nat, k: nat, answerIndex: int, options: seq<Str>)
    requires k < n
    ensures var checked := seq(n, i requires 0 <= i < n => i == k);
            var f := McqCheck(checked, Some(answerIndex), options);
            (f.ok <==> k == answerIndex)
            && (!f.ok ==> f.text == "Riktig svar: " + OptionText(options, Some(answerIndex)))
  {
    var checked := seq(n, i requires 0 <= i < n => i == k);
    assert checked[k];
    assert SelectedIndex(checked) == k;
  }

  // ---------------------------------------------------------------------
  // tf_list

  /** The `tf_list` check `!!q.answer === val`. */
  function TfCheck(answer: bool, clicked: bool): (f: Feedback)
    ensures f.ok <==> answer == clicked
    ensures !f.ok && clicked ==> f.text == "Det er ikke sant."
    ensures !f.ok && !clicked ==> f.text == "Det er sant."
    ensures f.ok ==> f.text == "Riktig!"
    ensures f.cls == "quiz-feedback " + (if f.ok then "ok" else "bad")
  {
    Verdict(answer == clicked, if clicked then "Det er ikke sant." else "Det er sant.")
  }

  // ---------------------------------------------------------------------
  // Running a check handler found in a rendered fragment

  /** What clicking a check button shows, given the text typed into the item's
      input and which of its radios are checked. */
  function RunCheck(q: Quiz, input: string, checked: seq<bool>): (f: Feedback)
    ensures q.FillQuiz? ==> f == FillCheck(input, q.ans)
    ensures q.McqQuiz? ==> f == McqCheck(checked, q.answerIndex, q.options)
    ensures q.TfQuiz? ==> f == TfCheck(q.answer, q.clicked)
  {
    match q
    case FillQuiz(ans) => FillCheck(input, ans)
    case McqQuiz(_, idx, opts) => McqCheck(checked, idx, opts)
    case TfQuiz(answer, clicked) => TfCheck(answer, clicked)
  }

  /** A wrong-answer text that is not "Riktig!" keeps the feedback text and class in step with the verdict. */
  lemma VerdictShows(ok: bool, wrongText: string)
    requires wrongText != "Riktig!"
    ensures var f := Verdict(ok, wrongText);
            (f.text == "Riktig!" <==> f.ok)
            && (f.cls == "quiz-feedback ok" <==> f.ok)
            && (f.cls == "quiz-feedback bad" <==> !f.ok)
  {
    assert |"quiz-feedback ok"| != |"quiz-feedback bad"|;
  }

  lemma CorrectAnswerIsNotRight(shown: string)
    ensures "Riktig svar: " + shown != "Riktig!"
  {
    assert |"Riktig svar: " + shown| > |"Riktig!"|;
  }

  /** Whatever the quiz kind, the feedback reads "Riktig!" exactly when the answer is
      right, and its class is the ok class exactly then and the bad class otherwise. */
  lemma RunCheckShowsVerdict(q: Quiz, input: string, checked: seq<bool>)
    ensures var f := RunCheck(q, input, checked);
            (f.text == "Riktig!" <==> f.ok)
            && (f.cls == "quiz-feedback ok" <==> f.ok)
            && (f.cls == "quiz-feedback bad" <==> !f.ok)
  {
    match q
    case FillQuiz(ans) =>
      CorrectAnswerIsNotRight(Interp(ans));
      VerdictShows(FillMatches(input, ans), "Riktig svar: " + Interp(ans));
    case McqQuiz(_, idx, opts) =>
      CorrectAnswerIsNotRight(OptionText(opts, idx));
      VerdictShows(idx == Some(SelectedIndex(checked)), "Riktig svar: " + OptionText(opts, idx));
    case TfQuiz(answer, clicked) =>
      var wrong := if clicked then "Det er ikke sant." else "Det er sant.";
      assert wrong[0] == 'D';
      VerdictShows(answer == clicked, wrong);
  }
}
