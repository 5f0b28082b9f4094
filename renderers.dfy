/** The `R.*` renderers of learn.js and the helpers they share
    (`mkWordTokens`, `mkSpeakBtn`, `mkChips`), each a function from a block
    record to a fragment, with the fallbacks the source applies to missing
    fields. */
module Renderers {
  import opened JsText
  import opened Tokenizer
  import opened Fragments
  import opened Lesson

  // ---------------------------------------------------------------------
  // mkWordTokens

  /** One clickable word: click, Enter or Space speaks the word at rate 1. */
  function WordSpan(p: string): Frag {
    Frag(Span, "word", p, map["tabindex" := "0", "data-word" := p], Say(p, NormalRate), [])
  }

  /** The children of the word wrapper: each token, a single space between two. */
  function WordKids(toks: seq<string>): seq<Frag>
    decreases |toks|
  {
    if toks == [] then []
    else if |toks| == 1 then [WordSpan(toks[0])]
    else [WordSpan(toks[0]), PlainText(" ")] + WordKids(toks[1..])
  }

  /** `mkWordTokens(noText)`. */
  function WordTokens(noText: string): Frag {
    Frag(Span, "no-words", "", map[], Inert, WordKids(Tokenize(noText)))
  }

  /** The tokens joined by single spaces. */
  function JoinSpaces(ts: seq<string>): string
    decreases |ts|
  {
    if ts == [] then ""
    else if |ts| == 1 then ts[0]
    else ts[0] + " " + JoinSpaces(ts[1..])
  }

  /** `speak(t, 1)` for each token, in order. */
  function WordSays(ts: seq<string>): (r: seq<Handler>)
    ensures |r| == |ts|
    ensures forall i :: 0 <= i < |ts| ==> r[i] == Say(ts[i], NormalRate)
  {
    seq(|ts|, i requires 0 <= i < |ts| => Say(ts[i], NormalRate))
  }

  /** n tokens give n word spans, in token order, with exactly n-1 single-space
      text nodes between them. */
  lemma {:induction false} WordKidsLayout(toks: seq<string>)
    ensures |WordKids(toks)| == if toks == [] then 0 else 2 * |toks| - 1
    ensures forall i :: 0 <= i < |toks| ==> WordKids(toks)[2 * i] == WordSpan(toks[i])
    ensures forall i :: 0 <= i < |toks| - 1 ==> WordKids(toks)[2 * i + 1] == PlainText(" ")
    decreases |toks|
  {
    if |toks| > 1 {
      WordKidsLayout(toks[1..]);
      var k := WordKids(toks);
      assert k == [WordSpan(toks[0]), PlainText(" ")] + WordKids(toks[1..]);
      forall i | 1 <= i < |toks| ensures k[2 * i] == WordSpan(toks[i]) {
        assert k[2 * i] == WordKids(toks[1..])[2 * (i - 1)];
      }
      forall i | 1 <= i < |toks| - 1 ensures k[2 * i + 1] == PlainText(" ") {
        assert k[2 * i + 1] == WordKids(toks[1..])[2 * (i - 1) + 1];
      }
    }
  }

  /** Each span speaks its own token at rate 1, in token order, and nothing else speaks. */
  lemma {:induction false} WordKidsSpoken(toks: seq<string>)
    ensures Spoken(WordKids(toks)) == WordSays(toks)
    ensures Checks(WordKids(toks)) == []
    decreases |toks|
  {
    if toks == [] {
    } else if |toks| == 1 {
      One(WordSpan(toks[0]));
    } else {
      var head := [WordSpan(toks[0]), PlainText(" ")];
      WordKidsSpoken(toks[1..]);
      SpokenAppend(head, WordKids(toks[1..]));
      ChecksAppend(head, WordKids(toks[1..]));
      SpokenAppend([WordSpan(toks[0])], [PlainText(" ")]);
      ChecksAppend([WordSpan(toks[0])], [PlainText(" ")]);
      One(WordSpan(toks[0]));
      One(PlainText(" "));
      assert WordSays(toks) == [Say(toks[0], NormalRate)] + WordSays(toks[1..]);
    }
  }

  /** The wrapper's text is the tokens joined by single spaces. */
  lemma {:induction false} WordKidsText(toks: seq<string>)
    ensures TextOf(WordKids(toks)) == JoinSpaces(toks)
    decreases |toks|
  {
    if toks == [] {
    } else if |toks| == 1 {
      One(WordSpan(toks[0]));
      assert TextOf([WordSpan(toks[0])]) == toks[0] + TextOf([]);
    } else {
      var head := [WordSpan(toks[0]), PlainText(" ")];
      WordKidsText(toks[1..]);
      TextOfAppend(head, WordKids(toks[1..]));
      TextOfAppend([WordSpan(toks[0])], [PlainText(" ")]);
      One(WordSpan(toks[0]));
      One(PlainText(" "));
    }
  }

  /** What `mkWordTokens(t)` offers: a span per token of `t` speaking that token. */
  lemma WordTokensSpeakTokens(t: string)
    ensures Spoken([WordTokens(t)]) == WordSays(Tokenize(t))
    ensures Checks([WordTokens(t)]) == []
    ensures TextOf([WordTokens(t)]) == JoinSpaces(Tokenize(t))
  {
    One(WordTokens(t));
    WordKidsSpoken(Tokenize(t));
    WordKidsText(Tokenize(t));
  }

  // ---------------------------------------------------------------------
  // mkSpeakBtn and mkChips

  /** `mkSpeakBtn(text)` with its default caption 🔊. */
  function SpeakButton(text: string): Frag {
    ButtonEl("btn", "🔊", Say(text, NormalRate))
  }

  function Chip(noText: string, caption: string, rate: Rate): Frag {
    ButtonEl("chip", caption, Say(noText, rate))
  }

  /** `mkChips(noText)`: four buttons, slow to fast. */
  function Chips(noText: string): Frag {
    Box("chips", [Chip(noText, "🐢 Extra Slow", 60), Chip(noText, "🐢 Slow", 80),
                  Chip(noText, "▶️ Normal", 100), Chip(noText, "🎧 Native", 108)])
  }

  /** The chip rates 0.60, 0.80, 1.00 and 1.08, in that order. */
  function ChipSays(noText: string): seq<Handler> {
    [Say(noText, 60), Say(noText, 80), Say(noText, 100), Say(noText, 108)]
  }

  /** A row of speaking leaves speaks their handlers in order. */
  lemma {:induction false} SpeakingLeaves(fs: seq<Frag>)
    requires forall i :: 0 <= i < |fs| ==> fs[i].on.Say? && fs[i].kids == []
    ensures Spoken(fs) == seq(|fs|, i requires 0 <= i < |fs| => fs[i].on)
    ensures Checks(fs) == []
  {
    if fs != [] {
      SpeakingLeaves(fs[1..]);
    }
  }

  /** Each chip speaks the same line; the rates are the four fixed ones, strictly increasing. */
  lemma ChipsSpeakAtFourRates(t: string)
    ensures Spoken([Chips(t)]) == ChipSays(t)
    ensures Checks([Chips(t)]) == []
    ensures forall i, j :: 0 <= i < j < 4 ==> ChipSays(t)[i].rate < ChipSays(t)[j].rate
  {
    One(Chips(t));
    SpeakingLeaves(Chips(t).kids);
  }

  // ---------------------------------------------------------------------
  // Line cards shared by lines, mono and qa_list

  /** `pEl(prefix + s, cls)` when `s` is truthy, nothing otherwise. */
  function OptPara(s: Str, prefix: string, cls: string): seq<Frag> {
    if Truthy(s) then [Para(prefix + s.value, cls)] else []
  }

  /** The labelled word tokens of a NO line and its chip row. */
  function SpokenLine(caption: string, no: string): seq<Frag> {
    [Box("", [StrongText(caption), WordTokens(no)]), Chips(no)]
  }

  /** The content of one line card (learn.js lines 70-73, repeated at 85-87). */
  function LineParts(no: string, pron: Str, en: Str): seq<Frag> {
    SpokenLine("NO: ", no) + OptPara(pron, "Pron: ", "muted") + OptPara(en, "EN: ", "")
  }

  /** What a NO line offers to speak: its words at rate 1, then the whole line at the chip rates. */
  function LineSays(no: string): seq<Handler> {
    WordSays(Tokenize(no)) + ChipSays(no)
  }

  lemma OptParaSilent(s: Str, prefix: string, cls: string)
    ensures Spoken(OptPara(s, prefix, cls)) == [] && Checks(OptPara(s, prefix, cls)) == []
  {
    if Truthy(s) {
      One(Para(prefix + s.value, cls));
    }
  }

  lemma SpokenLineSays(caption: string, no: string)
    ensures Spoken(SpokenLine(caption, no)) == LineSays(no)
    ensures Checks(SpokenLine(caption, no)) == []
  {
    var top := Box("", [StrongText(caption), WordTokens(no)]);
    One(top);
    One(StrongText(caption));
    SpokenAppend([StrongText(caption)], [WordTokens(no)]);
    ChecksAppend([StrongText(caption)], [WordTokens(no)]);
    WordTokensSpeakTokens(no);
    ChipsSpeakAtFourRates(no);
    SpokenAppend([top], [Chips(no)]);
    ChecksAppend([top], [Chips(no)]);
  }

  /** A line card speaks its NO words, then its NO line at the four chip rates;
      a pronunciation and a gloss paragraph appear exactly when present. */
  lemma LinePartsLayout(no: string, pron: Str, en: Str)
    ensures Spoken(LineParts(no, pron, en)) == LineSays(no)
    ensures Checks(LineParts(no, pron, en)) == []
    ensures |LineParts(no, pron, en)| == 2 + (if Truthy(pron) then 1 else 0) + (if Truthy(en) then 1 else 0)
    ensures Truthy(pron) ==> LineParts(no, pron, en)[2] == Para("Pron: " + pron.value, "muted")
    ensures Truthy(en) ==> LineParts(no, pron, en)[|LineParts(no, pron, en)| - 1] == Para("EN: " + en.value, "")
  {
    var a, b, c := SpokenLine("NO: ", no), OptPara(pron, "Pron: ", "muted"), OptPara(en, "EN: ", "");
    SpokenLineSays("NO: ", no);
    OptParaSilent(pron, "Pron: ", "muted");
    OptParaSilent(en, "EN: ", "");
    SpokenAppend(a + b, c);
    SpokenAppend(a, b);
    ChecksAppend(a + b, c);
    ChecksAppend(a, b);
  }

  // ---------------------------------------------------------------------
  // R.heading and R.image

  /** `R.heading`: an h2 with `text || title || 'Untitled'`. */
  function RenderHeading(b: Block): Frag {
    Box("block card", [Leaf(H2, "", Or(b.text, Or(b.title, "Untitled")))])
  }

  /** The heading shows the text, else the title, else "Untitled": never an empty title. */
  lemma HeadingTitle(b: Block)
    ensures var h := RenderHeading(b).kids[0].text;
            h != ""
            && (Truthy(b.text) ==> h == b.text.value)
            && (!Truthy(b.text) && Truthy(b.title) ==> h == b.title.value)
            && (!Truthy(b.text) && !Truthy(b.title) ==> h == "Untitled")
  {
  }

  function FigureKids(b: Block): seq<Frag> {
    [Frag(Img, "", "", map["src" := Interp(b.src), "alt" := Or(b.alt, "")], Inert, [])]
    + (if Truthy(b.alt) then [Leaf(FigCaption, "", b.alt.value)] else [])
  }

  /** `R.image`: a figure with the image and, when `alt` is present, a caption. */
  function RenderImage(b: Block): Frag {
    Box("block image card", [Frag(Figure, "", "", map[], Inert, FigureKids(b))])
  }

  /** The caption appears exactly when `alt` is present, and repeats it. */
  lemma ImageCaption(b: Block)
    ensures var fig := RenderImage(b).kids[0];
            fig.tag == Figure
            && fig.kids[0].tag == Img && fig.kids[0].attrs["alt"] == Or(b.alt, "")
            && (|fig.kids| == 2 <==> Truthy(b.alt))
            && (Truthy(b.alt) ==> fig.kids[1].tag == FigCaption && fig.kids[1].text == b.alt.value)
            && |fig.kids| <= 2
  {
  }

  // ---------------------------------------------------------------------
  // R.lines and R.mono

  function LineCard(item: Item): Frag {
    Box("card", LineParts(Or(item.no, ""), item.pron, item.en))
  }

  /** `R.lines`: a title, then one card per item. */
  function RenderLines(b: Block): Frag {
    Box("block card", [Heading3(Or(b.title, "Lines"))]
                      + seq(|b.items|, i requires 0 <= i < |b.items| => LineCard(b.items[i])))
  }

  /** One card per item in item order; card i speaks exactly item i's NO line. */
  lemma LinesLayout(b: Block)
    ensures |RenderLines(b).kids| == 1 + |b.items|
    ensures RenderLines(b).kids[0] == Heading3(Or(b.title, "Lines"))
    ensures forall i :: 0 <= i < |b.items| ==>
              Spoken([RenderLines(b).kids[i + 1]]) == LineSays(Or(b.items[i].no, ""))
  {
    var kids := RenderLines(b).kids;
    forall i | 0 <= i < |b.items|
      ensures Spoken([kids[i + 1]]) == LineSays(Or(b.items[i].no, ""))
    {
      assert kids[i + 1] == LineCard(b.items[i]);
      LineCardSays(b.items[i]);
    }
  }

  lemma LineCardSays(it: Item)
    ensures Spoken([LineCard(it)]) == LineSays(Or(it.no, ""))
  {
    One(LineCard(it));
    LinePartsLayout(Or(it.no, ""), it.pron, it.en);
  }

  /** The model lines of a slot, one line card's content each, in order. */
  function ModelLines(ms: seq<Item>): seq<Frag>
    decreases |ms|
  {
    if ms == [] then [] else LineParts(Or(ms[0].no, ""), ms[0].pron, ms[0].en) + ModelLines(ms[1..])
  }

  function SlotCard(slot: Item): Frag {
    Box("card", [Frag(P, "", Or(slot.no, Or(slot.title, "")), map["style" := "font-weight: 600"], Inert, [])]
                + (match slot.model case Some(ms) => ModelLines(ms) case None => []))
  }

  /** `R.mono`: a title, then one card per slot. */
  function RenderMono(b: Block): Frag {
    Box("block card", [Heading3(Or(b.title, "Monolog"))]
                      + seq(|b.items|, i requires 0 <= i < |b.items| => SlotCard(b.items[i])))
  }

  /** The spoken content of a slot's model lines: each line's words and chips, in order. */
  function ModelSays(ms: seq<Item>): seq<Handler>
    decreases |ms|
  {
    if ms == [] then [] else LineSays(Or(ms[0].no, "")) + ModelSays(ms[1..])
  }

  lemma {:induction false} ModelLinesSpoken(ms: seq<Item>)
    ensures Spoken(ModelLines(ms)) == ModelSays(ms)
    decreases |ms|
  {
    if ms != [] {
      ModelLinesSpoken(ms[1..]);
      LinePartsLayout(Or(ms[0].no, ""), ms[0].pron, ms[0].en);
      SpokenAppend(LineParts(Or(ms[0].no, ""), ms[0].pron, ms[0].en), ModelLines(ms[1..]));
    }
  }

  /** A slot card speaks exactly its model lines (nothing when `model` is not an array). */
  lemma SlotCardSays(slot: Item)
    ensures Spoken([SlotCard(slot)]) == (match slot.model case Some(ms) => ModelSays(ms) case None => [])
  {
    var t := Frag(P, "", Or(slot.no, Or(slot.title, "")), map["style" := "font-weight: 600"], Inert, []);
    var rest := match slot.model case Some(ms) => ModelLines(ms) case None => [];
    One(SlotCard(slot));
    One(t);
    SpokenAppend([t], rest);
    if slot.model.Some? {
      ModelLinesSpoken(slot.model.value);
    }
  }

  /** One card per slot; its first line is `no || title || ''`, and it speaks exactly
      its model lines in order (nothing when `model` is not an array). */
  lemma MonoLayout(b: Block)
    ensures |RenderMono(b).kids| == 1 + |b.items|
    ensures forall i :: 0 <= i < |b.items| ==>
              var card := RenderMono(b).kids[i + 1];
              card.kids[0].text == Or(b.items[i].no, Or(b.items[i].title, ""))
              && Spoken([card]) == (match b.items[i].model case Some(ms) => ModelSays(ms) case None => [])
  {
    var kids := RenderMono(b).kids;
    forall i | 0 <= i < |b.items|
      ensures Spoken([kids[i + 1]]) == (match b.items[i].model case Some(ms) => ModelSays(ms) case None => [])
    {
      assert kids[i + 1] == SlotCard(b.items[i]);
      SlotCardSays(b.items[i]);
    }
  }

  // ---------------------------------------------------------------------
  // R.verbs_table

  const VerbHeaders: seq<string> := ["Infinitiv", "Presens", "Preteritum", "Perfektum", "Futurum", "Notater"]

  /** The five tense forms of a verb, in column order. */
  function TenseForms(v: Verb): (r: seq<Form>)
    ensures |r| == 5
  {
    [v.inf, v.pres, v.pret, v.perf, v.fut]
  }

  /** One tense cell: the form's word tokens and a speak button, then the
      optional pronunciation and gloss. */
  function TenseCell(f: Form): Frag {
    var form := Or(f.form, "");
    Frag(Td, "", "", map[], Inert,
         [Box("", [Box("", [WordTokens(form), SpeakButton(form)])]
                  + OptPara(f.pron, "Pron: ", "muted") + OptPara(f.en, "EN: ", "muted"))])
  }

  function VerbRow(v: Verb): Frag {
    var forms := TenseForms(v);
    Frag(Tr, "", "", map[], Inert,
         seq(5, i requires 0 <= i < 5 => TenseCell(forms[i])) + [Leaf(Td, "", Or(v.notes, ""))])
  }

  function HeaderRow(): Frag {
    Frag(THead, "", "", map[], Inert,
         [Frag(Tr, "", "", map[], Inert, seq(6, i requires 0 <= i < 6 => Leaf(Th, "", VerbHeaders[i])))])
  }

  /** `R.verbs_table`: title and hint, then a table with six headers and a row per verb. */
  function RenderVerbsTable(b: Block): Frag {
    Box("block card",
        [Box("", [Heading3(Or(b.title, "Verb")), Para("Trykk på ord eller 🔊 for å høre.", "muted")]),
         Frag(Table, "", "", map[], Inert,
              [HeaderRow(),
               Frag(TBody, "", "", map[], Inert,
                    seq(|b.verbs|, i requires 0 <= i < |b.verbs| => VerbRow(b.verbs[i])))])])
  }

  /** A tense cell speaks the form's words at rate 1 and then the whole form. */
  lemma TenseCellSpoken(f: Form)
    ensures Spoken([TenseCell(f)]) == WordSays(Tokenize(Or(f.form, ""))) + [Say(Or(f.form, ""), NormalRate)]
  {
    var form := Or(f.form, "");
    var line := Box("", [WordTokens(form), SpeakButton(form)]);
    var inner := Box("", [line] + OptPara(f.pron, "Pron: ", "muted") + OptPara(f.en, "EN: ", "muted"));
    One(TenseCell(f));
    One(inner);
    One(line);
    WordTokensSpeakTokens(form);
    One(SpeakButton(form));
    SpokenAppend([WordTokens(form)], [SpeakButton(form)]);
    OptParaSilent(f.pron, "Pron: ", "muted");
    OptParaSilent(f.en, "EN: ", "muted");
    SpokenAppend([line] + OptPara(f.pron, "Pron: ", "muted"), OptPara(f.en, "EN: ", "muted"));
    SpokenAppend([line], OptPara(f.pron, "Pron: ", "muted"));
    SpokenAppend([inner], []);
  }

  /** Six headers in the fixed order; one row per verb in order; each row has the
      five tense cells inf, pres, pret, perf, fut and then the notes cell. */
  lemma VerbsTableLayout(b: Block)
    ensures var table := RenderVerbsTable(b).kids[1];
            var headers := table.kids[0].kids[0].kids;
            var rows := table.kids[1].kids;
            |headers| == 6
            && (forall k :: 0 <= k < 6 ==> headers[k].text == VerbHeaders[k])
            && |rows| == |b.verbs|
            && forall i :: 0 <= i < |b.verbs| ==>
                 |rows[i].kids| == |headers|
                 && rows[i].kids[5].text == Or(b.verbs[i].notes, "")
                 && forall k :: 0 <= k < 5 ==>
                      var form := Or(TenseForms(b.verbs[i])[k].form, "");
                      Spoken([rows[i].kids[k]]) == WordSays(Tokenize(form)) + [Say(form, NormalRate)]
  {
    forall i, k | 0 <= i < |b.verbs| && 0 <= k < 5
      ensures Spoken([VerbRow(b.verbs[i]).kids[k]])
              == WordSays(Tokenize(Or(TenseForms(b.verbs[i])[k].form, "")))
                 + [Say(Or(TenseForms(b.verbs[i])[k].form, ""), NormalRate)]
    {
      TenseCellSpoken(TenseForms(b.verbs[i])[k]);
    }
  }

  // ---------------------------------------------------------------------
  // R.fill_list, R.mcq_list, R.tf_list

  function FillItem(it: Item): Frag {
    Box("quiz-item",
        [Box("", [StrongText("NO: "), WordTokens(Or(it.no, ""))]),
         Frag(Input, "", "", map["type" := "text", "placeholder" := "svar"], Inert, []),
         Box("", [ButtonEl("btn", "Sjekk", Check(FillQuiz(it.ans))), Leaf(Div, "quiz-feedback", "")])])
  }

  /** `R.fill_list`: a title and a quiz list of one item per entry. */
  function RenderFillList(b: Block): Frag {
    Box("block card", [Heading3(Or(b.title, "Verb Diktat")),
                       Box("quiz-list", seq(|b.items|, i requires 0 <= i < |b.items| => FillItem(b.items[i])))])
  }

  /** The name shared by the radios of question `qi`. */
  function McqGroup(qi: nat): string {
    "mcq_" + NatToString(qi)
  }

  function McqOption(qi: nat, oi: nat, opt: Str): Frag {
    var id := McqGroup(qi) + "_" + NatToString(oi);
    Box("quiz-option",
        [Frag(Input, "", "", map["type" := "radio", "name" := McqGroup(qi), "id" := id], Inert, []),
         Frag(Label, "", Or(opt, ""), map["for" := id], Inert, [])])
  }

  function McqItem(q: Item, qi: nat): Frag {
    Box("quiz-item",
        [Box("", [StrongText("NO: "), WordTokens(Or(q.noQ, ""))]),
         Box("quiz-options", seq(|q.options|, oi requires 0 <= oi < |q.options| => McqOption(qi, oi, q.options[oi]))),
         ButtonEl("btn", "Sjekk", Check(McqQuiz(McqGroup(qi), q.answerIndex, q.options))),
         Leaf(Div, "quiz-feedback", "")])
  }

  /** `R.mcq_list`: a title and one question per entry, numbered from 0. */
  function RenderMcqList(b: Block): Frag {
    Box("block card", [Heading3(Or(b.title, "Multiple Choice")),
                       Box("quiz-list", seq(|b.items|, i requires 0 <= i < |b.items| => McqItem(b.items[i], i)))])
  }

  function TfItem(q: Item): Frag {
    Box("quiz-item",
        OptPara(q.en, "EN: ", "")
        + [Box("", [StrongText("NO: "), WordTokens(Or(q.no, ""))]),
           Box("", [ButtonEl("btn", "Sant", Check(TfQuiz(q.answer, true))),
                    ButtonEl("btn", "Usant", Check(TfQuiz(q.answer, false))),
                    Leaf(Div, "quiz-feedback", "")])])
  }

  /** `R.tf_list`: a title and one statement per entry. */
  function RenderTfList(b: Block): Frag {
    Box("block card", [Heading3(Or(b.title, "Sant / Usant")),
                       Box("quiz-list", seq(|b.items|, i requires 0 <= i < |b.items| => TfItem(b.items[i])))])
  }

  /** One fill item per entry, in order; item i's check button carries entry i's answer. */
  lemma FillListLayout(b: Block)
    ensures var list := RenderFillList(b).kids[1].kids;
            |list| == |b.items|
            && forall i :: 0 <= i < |b.items| ==> list[i].kids[2].kids[0].on == Check(FillQuiz(b.items[i].ans))
  {
  }

  /** One question per entry, numbered from 0: its radios share the name
      `mcq_i` and show its options in order, and its button checks them. */
  lemma McqListLayout(b: Block)
    ensures var list := RenderMcqList(b).kids[1].kids;
            |list| == |b.items|
            && forall i :: 0 <= i < |b.items| ==>
                 var q := b.items[i];
                 |list[i].kids[1].kids| == |q.options|
                 && (forall oi :: 0 <= oi < |q.options| ==>
                       list[i].kids[1].kids[oi].kids[0].attrs["name"] == McqGroup(i)
                       && list[i].kids[1].kids[oi].kids[1].text == Or(q.options[oi], ""))
                 && list[i].kids[2].on == Check(McqQuiz(McqGroup(i), q.answerIndex, q.options))
  {
  }

  /** One statement per entry: the EN line only when present, and the two
      buttons answering true and false. */
  lemma TfListLayout(b: Block)
    ensures var list := RenderTfList(b).kids[1].kids;
            |list| == |b.items|
            && forall i :: 0 <= i < |b.items| ==>
                 var item := list[i];
                 var ctr := item.kids[|item.kids| - 1];
                 |item.kids| == (if Truthy(b.items[i].en) then 3 else 2)
                 && ctr.kids[0].on == Check(TfQuiz(b.items[i].answer, true))
                 && ctr.kids[1].on == Check(TfQuiz(b.items[i].answer, false))
  {
  }

  // ---------------------------------------------------------------------
  // R.qa_list and R.markdown

  /** A question or answer line, present only when its NO text is truthy. */
  function QaLine(no: Str, caption: string): seq<Frag> {
    if Truthy(no) then SpokenLine(caption, no.value) else []
  }

  function QaCard(q: Item): Frag {
    Box("card", QaLine(q.noQ, "Q NO: ") + OptPara(q.pronQ, "PronQ: ", "muted") + OptPara(q.enQ, "EN: ", "")
                + QaLine(q.noA, "A NO: ") + OptPara(q.pronA, "PronA: ", "muted") + OptPara(q.enA, "EN: ", ""))
  }

  /** `R.qa_list`: a title and one card per question. */
  function RenderQaList(b: Block): Frag {
    Box("block card", [Heading3(Or(b.title, "Spørsmål"))]
                      + seq(|b.items|, i requires 0 <= i < |b.items| => QaCard(b.items[i])))
  }

  function OptSays(no: Str): seq<Handler> {
    if Truthy(no) then LineSays(no.value) else []
  }

  lemma QaLineSpoken(no: Str, caption: string)
    ensures Spoken(QaLine(no, caption)) == OptSays(no)
  {
    if Truthy(no) {
      SpokenLineSays(caption, no.value);
    }
  }

  /** A question card speaks the question line, then the answer line; each is
      present exactly when its NO text is. */
  lemma QaCardSpoken(q: Item)
    ensures Spoken([QaCard(q)]) == OptSays(q.noQ) + OptSays(q.noA)
  {
    var a, b, c := QaLine(q.noQ, "Q NO: "), OptPara(q.pronQ, "PronQ: ", "muted"), OptPara(q.enQ, "EN: ", "");
    var d, e, f := QaLine(q.noA, "A NO: "), OptPara(q.pronA, "PronA: ", "muted"), OptPara(q.enA, "EN: ", "");
    One(QaCard(q));
    QaLineSpoken(q.noQ, "Q NO: ");
    QaLineSpoken(q.noA, "A NO: ");
    OptParaSilent(q.pronQ, "PronQ: ", "muted");
    OptParaSilent(q.enQ, "EN: ", "");
    OptParaSilent(q.pronA, "PronA: ", "muted");
    OptParaSilent(q.enA, "EN: ", "");
    SpokenAppend(a + b + c + d + e, f);
    SpokenAppend(a + b + c + d, e);
    SpokenAppend(a + b + c, d);
    SpokenAppend(a + b, c);
    SpokenAppend(a, b);
  }

  /** `R.markdown`: the text as a plain paragraph; no markdown is parsed. */
  function RenderMarkdown(b: Block): Frag {
    Box("block markdown card", [Heading3(Or(b.title, "Notater")), Para(Or(b.text, ""), "")])
  }

  /** `R_unknown`: the title, else "Unknown block: " and the raw kind, then the JSON dump. */
  function RenderUnknown(b: Block): Frag {
    Box("block card", [Heading3(Or(b.title, "Unknown block: " + Interp(b.kind))), Leaf(Pre, "", b.json)])
  }

  /** Without a title the fallback names the kind as given (not lowercased). */
  lemma UnknownNamesKind(b: Block)
    ensures !Truthy(b.title) ==> RenderUnknown(b).kids[0].text == "Unknown block: " + Interp(b.kind)
    ensures Truthy(b.title) ==> RenderUnknown(b).kids[0].text == b.title.value
    ensures RenderUnknown(b).kids[1].text == b.json
  {
  }
}
