/** An abstract DOM fragment: what a learn.js renderer builds with
    `createElement`, `textContent`, `className` and `appendChild`,
    plus the one click handler an element carries. */
module Fragments {
  import opened JsText

  /** A speech rate in hundredths (1.08 is 108). */
  type Rate = nat

  const NormalRate: Rate := 100

  datatype Tag =
    | Div | Span | H2 | H3 | P | Strong | Pre
    | Figure | Img | FigCaption
    | Table | THead | TBody | Tr | Th | Td
    | Button | Input | Label | TextNode

  /** The data a quiz "check" handler closes over. */
  datatype Quiz =
    | FillQuiz(ans: Str)
    | McqQuiz(group: string, answerIndex: Option<int>, options: seq<Str>)
    | TfQuiz(answer: bool, clicked: bool)

  /** What activating an element does: nothing, `speak(text, rate)`, or a quiz check. */
  datatype Handler = Inert | Say(text: string, rate: Rate) | Check(quiz: Quiz)

  datatype Frag = Frag(tag: Tag, cls: string, text: string, attrs: map<string, string>,
                       on: Handler, kids: seq<Frag>)

  /** `div(cls)` followed by `appendChild` of each kid. */
  function Box(cls: string, kids: seq<Frag>): Frag {
    Frag(Div, cls, "", map[], Inert, kids)
  }

  /** An element whose only content is its `textContent`. */
  function Leaf(tag: Tag, cls: string, text: string): Frag {
    Frag(tag, cls, text, map[], Inert, [])
  }

  function Heading3(text: string): Frag { Leaf(H3, "", text) }

  function Para(text: string, cls: string): Frag { Leaf(P, cls, text) }

  function StrongText(text: string): Frag { Leaf(Strong, "", text) }

  function PlainText(text: string): Frag { Leaf(TextNode, "", text) }

  function ButtonEl(cls: string, caption: string, on: Handler): Frag {
    Frag(Button, cls, caption, map[], on, [])
  }

  /** `textContent` of a list of sibling fragments, in document order. */
  function TextOf(fs: seq<Frag>): string
    decreases fs
  {
    if fs == [] then [] else fs[0].text + TextOf(fs[0].kids) + TextOf(fs[1..])
  }

  /** Every `speak` handler in a list of sibling fragments, in document order. */
  function Spoken(fs: seq<Frag>): seq<Handler>
    decreases fs
  {
    if fs == [] then []
    else (if fs[0].on.Say? then [fs[0].on] else []) + Spoken(fs[0].kids) + Spoken(fs[1..])
  }

  /** Every quiz handler in a list of sibling fragments, in document order. */
  function Checks(fs: seq<Frag>): seq<Quiz>
    decreases fs
  {
    if fs == [] then []
    else (if fs[0].on.Check? then [fs[0].on.quiz] else []) + Checks(fs[0].kids) + Checks(fs[1..])
  }

  lemma {:induction false} TextOfAppend(a: seq<Frag>, b: seq<Frag>)
    ensures TextOf(a + b) == TextOf(a) + TextOf(b)
  {
    if a != [] {
      assert (a + b)[0] == a[0] && (a + b)[1..] == a[1..] + b;
      TextOfAppend(a[1..], b);
    } else {
      assert a + b == b;
    }
  }

  lemma {:induction false} SpokenAppend(a: seq<Frag>, b: seq<Frag>)
    ensures Spoken(a + b) == Spoken(a) + Spoken(b)
  {
    if a != [] {
      assert (a + b)[0] == a[0] && (a + b)[1..] == a[1..] + b;
      SpokenAppend(a[1..], b);
    } else {
      assert a + b == b;
    }
  }

  lemma {:induction false} ChecksAppend(a: seq<Frag>, b: seq<Frag>)
    ensures Checks(a + b) == Checks(a) + Checks(b)
  {
    if a != [] {
      assert (a + b)[0] == a[0] && (a + b)[1..] == a[1..] + b;
      ChecksAppend(a[1..], b);
    } else {
      assert a + b == b;
    }
  }

  /** A single fragment, seen through the three observations. */
  lemma One(f: Frag)
    ensures TextOf([f]) == f.text + TextOf(f.kids)
    ensures Spoken([f]) == (if f.on.Say? then [f.on] else []) + Spoken(f.kids)
    ensures Checks([f]) == (if f.on.Check? then [f.on.quiz] else []) + Checks(f.kids)
  {
    assert [f][1..] == [];
  }
}
