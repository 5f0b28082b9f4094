/** `renderDataset` of learn.js: every block's `kind`, lowercased, is looked
    up in the renderer table `R`; a kind the table lacks goes to `R_unknown`.
    `LearnView` holds the page state the call rewrites. */
module Dispatcher {
  import opened JsText
  import opened Fragments
  import opened Lesson
  import opened Renderers
  import opened Speech

  /** The ten renderers the table defines. */
  datatype Kind =
    | HeadingKind | ImageKind | LinesKind | MonoKind | VerbsTableKind
    | FillListKind | McqListKind | TfListKind | QaListKind | MarkdownKind

  /** The property name each renderer is stored under. */
  function KindKey(k: Kind): string {
    match k
      case HeadingKind => "heading"
      case ImageKind => "image"
      case LinesKind => "lines"
      case MonoKind => "mono"
      case VerbsTableKind => "verbs_table"
      case FillListKind => "fill_list"
      case McqListKind => "mcq_list"
      case TfListKind => "tf_list"
      case QaListKind => "qa_list"
      case MarkdownKind => "markdown"
  }

  /** Every key of the table is already lower case, so a lowercased kind can reach it. */
  lemma KindKeyIsLower(k: Kind)
    ensures Lower(KindKey(k)) == KindKey(k)
  {
    LowerOfLowerKey(KindKey(k));
  }

  /** Keys made of a-z and `_` are already lower case. */
  lemma LowerOfLowerKey(key: string)
    requires forall i :: 0 <= i < |key| ==> ('a' <= key[i] <= 'z') || key[i] == '_'
    ensures Lower(key) == key
  {
  }

  /** The renderer stored as an own property of `R` under `key`, if any. */
  function OwnRenderer(key: string): (r: Option<Kind>)
    ensures r.Some? ==> KindKey(r.value) == key
    ensures r.None? ==> forall k :: KindKey(k) != key
  {
    if key == "heading" then Some(HeadingKind)
    else if key == "image" then Some(ImageKind)
    else if key == "lines" then Some(LinesKind)
    else if key == "mono" then Some(MonoKind)
    else if key == "verbs_table" then Some(VerbsTableKind)
    else if key == "fill_list" then Some(FillListKind)
    else if key == "mcq_list" then Some(McqListKind)
    else if key == "tf_list" then Some(TfListKind)
    else if key == "qa_list" then Some(QaListKind)
    else if key == "markdown" then Some(MarkdownKind)
    else None
  }

  /** Each renderer is found under its own key. */
  lemma OwnRendererFindsKey(k: Kind)
    ensures OwnRenderer(KindKey(k)) == Some(k)
  {
  }

  /** The lookup key: `(blk.kind || '').toLowerCase()`. */
  function KindOf(b: Block): (key: string)
    ensures Lower(key) == key
  {
    LowerIdempotent(Or(b.kind, ""));
    Lower(Or(b.kind, ""))
  }

  /** The renderer a block is given, looking at own properties only. */
  function Resolve(b: Block): Option<Kind> {
    OwnRenderer(KindOf(b))
  }

  function RenderKind(k: Kind, b: Block): Frag {
    match k
    case HeadingKind => RenderHeading(b)
    case ImageKind => RenderImage(b)
    case LinesKind => RenderLines(b)
    case MonoKind => RenderMono(b)
    case VerbsTableKind => RenderVerbsTable(b)
    case FillListKind => RenderFillList(b)
    case McqListKind => RenderMcqList(b)
    case TfListKind => RenderTfList(b)
    case QaListKind => RenderQaList(b)
    case MarkdownKind => RenderMarkdown(b)
  }

  /** `(R[kind] || R_unknown)(blk)`, with `R` consulted for own keys. */
  function RenderBlock(b: Block): (f: Frag)
    ensures Resolve(b).Some? ==> f == RenderKind(Resolve(b).value, b)
    ensures Resolve(b).None? ==> f == RenderUnknown(b)
  {
    match Resolve(b)
    case Some(k) => RenderKind(k, b)
    case None => RenderUnknown(b)
  }

  /** The fragments a dataset renders to: one per block, in block order. */
  function RenderAll(blocks: seq<Block>): (fs: seq<Frag>)
    ensures |fs| == |blocks|
    ensures forall i :: 0 <= i < |blocks| ==> fs[i] == RenderBlock(blocks[i])
  {
    seq(|blocks|, i requires 0 <= i < |blocks| => RenderBlock(blocks[i]))
  }

  /** `kind` is matched without regard to case. */
  lemma KindIgnoresCase(b: Block, kind: string)
    requires b.kind == Some(kind)
    ensures Resolve(b) == Resolve(b.(kind := Some(Lower(kind))))
  {
    LowerIdempotent(kind);
  }

  /** A kind spelled in any case reaches its renderer. */
  lemma KindInAnyCase(k: Kind, b: Block, kind: string)
    requires b.kind == Some(kind) && Lower(kind) == KindKey(k)
    ensures RenderBlock(b) == RenderKind(k, b)
  {
    OwnRendererFindsKey(k);
  }

  /** Without a kind, or with one the table lacks (such as "html"), the
      block goes to the unknown renderer. */
  lemma UnmatchedKindIsUnknown(b: Block)
    requires !Truthy(b.kind) || b.kind == Some("html")
    ensures RenderBlock(b) == RenderUnknown(b)
  {
    if b.kind == Some("html") {
      LowerOfLowerKey("html");
    }
  }

  // ---------------------------------------------------------------------
  // The lookup as written: `R` is a plain object literal

  /** What `R[kind]` reads: an own renderer, a member inherited from
      `Object.prototype`, or `undefined`. */
  datatype Lookup = Own(kind: Kind) | Inherited(name: string) | Absent

  /** The members of `Object.prototype` whose names are all lower case, and
      so are reachable by a lowercased key. */
  predicate IsInheritedKey(key: string) {
    key == "constructor" || key == "__proto__"
  }

  function LookupAsWritten(key: string): (r: Lookup)
    ensures r.Own? <==> OwnRenderer(key).Some?
    ensures r.Inherited? <==> IsInheritedKey(key)
  {
    match OwnRenderer(key)
    case Some(k) => Own(k)
    case None => if IsInheritedKey(key) then Inherited(key) else Absent
  }

  /** How the `forEach` ends: every block appended, or a `TypeError` at block
      `at` after the fragments before it were appended. `Object` called on a
      block returns the block, which `appendChild` refuses; `Object.prototype`
      is not callable. */
  datatype Outcome = Completed(frags: seq<Frag>) | Threw(at: nat, frags: seq<Frag>)

  function RenderAllAsWritten(blocks: seq<Block>): (o: Outcome)
    ensures o.Threw? ==> o.at < |blocks| && LookupAsWritten(KindOf(blocks[o.at])).Inherited?
    ensures o.Completed? ==> |o.frags| == |blocks|
    decreases |blocks|
  {
    if blocks == [] then Completed([])
    else
      match LookupAsWritten(KindOf(blocks[0]))
      case Inherited(_) => Threw(0, [])
      case _ =>
        var f := RenderBlock(blocks[0]);
        match RenderAllAsWritten(blocks[1..])
        case Completed(fs) => Completed([f] + fs)
        case Threw(i, fs) => Threw(i + 1, [f] + fs)
  }

  /** Away from the two inherited names the table as written and the
      corrected lookup render the same fragments. */
  lemma {:induction false} AsWrittenAgrees(blocks: seq<Block>)
    requires forall i :: 0 <= i < |blocks| ==> !IsInheritedKey(KindOf(blocks[i]))
    ensures RenderAllAsWritten(blocks) == Completed(RenderAll(blocks))
    decreases |blocks|
  {
    if blocks != [] {
      var rest := blocks[1..];
      AsWrittenAgrees(rest);
      assert !LookupAsWritten(KindOf(blocks[0])).Inherited?;
      var fs := RenderAll(rest);
      assert RenderAllAsWritten(blocks) == Completed([RenderBlock(blocks[0])] + fs);
      assert RenderAll(blocks) == [RenderBlock(blocks[0])] + fs;
    }
  }

  lemma ConstructorIsInherited(b: Block)
    requires b.kind == Some("Constructor")
    ensures IsInheritedKey(KindOf(b))
  {
    var l := Lower("Constructor");
    assert l[0] == 'c';
    assert l == "constructor";
  }

  lemma HeadingIsOwn(b: Block)
    requires b.kind == Some("heading")
    ensures !IsInheritedKey(KindOf(b))
    ensures RenderBlock(b) == RenderHeading(b)
  {
    LowerOfLowerKey("heading");
  }

  /** The as-written loop stops at the first block of an inherited kind,
      keeping exactly the fragments of the blocks before it. */
  lemma {:induction false} AsWrittenStopsAtInherited(blocks: seq<Block>, k: nat)
    requires k < |blocks| && IsInheritedKey(KindOf(blocks[k]))
    requires forall i :: 0 <= i < k ==> !IsInheritedKey(KindOf(blocks[i]))
    ensures RenderAllAsWritten(blocks) == Threw(k, RenderAll(blocks[..k]))
    decreases k
  {
    if k > 0 {
      AsWrittenStopsAtInherited(blocks[1..], k - 1);
      assert blocks[1..][..k - 1] == blocks[..k][1..];
      assert RenderAll(blocks[..k]) == [RenderBlock(blocks[0])] + RenderAll(blocks[..k][1..]);
    }
  }

  lemma StopsAtSecond(a: Block, b: Block)
    requires !IsInheritedKey(KindOf(a)) && IsInheritedKey(KindOf(b))
    ensures RenderAllAsWritten([a, b, a]) == Threw(1, [RenderBlock(a)])
  {
    var blocks := [a, b, a];
    AsWrittenStopsAtInherited(blocks, 1);
    assert blocks[..1] == [a];
  }

  /** Three blocks, the middle one of kind "Constructor": the page as written
      keeps only the first heading, where one fragment per block is meant. */
  lemma ConstructorKindStopsRendering(h: Block, c: Block)
    requires h.kind == Some("heading") && c.kind == Some("Constructor")
    ensures RenderAllAsWritten([h, c, h]) == Threw(1, [RenderHeading(h)])
    ensures |RenderAll([h, c, h])| == 3
  {
    HeadingIsOwn(h);
    ConstructorIsInherited(c);
    StopsAtSecond(h, c);
  }

  /** With own properties only, the names `Object.prototype` lends to `R`
      go to the unknown renderer like any other unmatched kind. */
  lemma InheritedKindIsUnknown(b: Block)
    requires IsInheritedKey(KindOf(b))
    ensures RenderBlock(b) == RenderUnknown(b)
  {
  }

  /** The page of `ConstructorKindStopsRendering`, rendered by the corrected
      lookup: all three blocks, the middle one as an unknown block. */
  lemma ConstructorKindIsUnknown(h: Block, c: Block)
    requires h.kind == Some("heading") && c.kind == Some("Constructor")
    ensures RenderAll([h, c, h]) == [RenderHeading(h), RenderUnknown(c), RenderHeading(h)]
  {
    HeadingIsOwn(h);
    ConstructorIsInherited(c);
    InheritedKindIsUnknown(c);
  }

  // ---------------------------------------------------------------------
  // The page

  /** `els.meta` and `els.container` with the speech session they share. */
  class LearnView {
    var meta: string
    var container: seq<Frag>
    const speech: Session

    constructor (speech: Session)
      ensures this.speech == speech && meta == "" && container == []
    {
      this.speech := speech;
      meta := "";
      container := [];
    }

    /** `renderDataset(data)`: cancel audio, show the title, clear the
        container, then append one fragment per block in order. */
    method RenderDataset(data: Dataset)
      requires speech.Valid()
      modifies this, speech
      ensures speech.pending == [] && speech.Valid()
      ensures speech.voice == old(speech.voice) && speech.ready == old(speech.ready)
      ensures meta == Or(data.title, "")
      ensures container == RenderAll(data.blocks)
    {
      speech.CancelAll();
      meta := Or(data.title, "");
      container := [];
      var blocks := data.blocks;
      for i := 0 to |blocks|
        invariant container == RenderAll(blocks[..i])
        invariant meta == Or(data.title, "")
        invariant speech.pending == [] && speech.Valid()
        invariant speech.voice == old(speech.voice) && speech.ready == old(speech.ready)
      {
        assert blocks[..i + 1] == blocks[..i] + [blocks[i]];
        container := container + [RenderBlock(blocks[i])];
      }
      assert blocks[..|blocks|] == blocks;
    }
  }

  /** A response as `loadDataset` sees it; `dataset` is `None` when the body
      is not JSON. */
  datatype Response = Response(ok: bool, status: nat, dataset: Option<Dataset>)

  /** The message `resp.json()` rejects with on a body that is not JSON; the engine's wording is not modelled. */
  const JsonSyntaxError := "SyntaxError"

  /** `loadDataset(path)` given what `fetch` answered: the error it throws, if any. */
  method LoadDataset(view: LearnView, path: string, resp: Response) returns (err: Option<string>)
    requires view.speech.Valid()
    modifies view, view.speech
    ensures !resp.ok ==> err == Some("HTTP " + NatToString(resp.status) + " for " + path)
    ensures resp.ok && resp.dataset.Some? ==>
              err.None? && view.container == RenderAll(resp.dataset.value.blocks)
              && view.meta == Or(resp.dataset.value.title, "") && view.speech.pending == []
    ensures resp.ok && resp.dataset.None? ==> err == Some(JsonSyntaxError)
    ensures err.Some? ==> view.container == old(view.container) && view.meta == old(view.meta)
                          && view.speech.pending == old(view.speech.pending)
    ensures view.speech.voice == old(view.speech.voice) && view.speech.ready == old(view.speech.ready)
    ensures view.speech.Valid()
  {
    if !resp.ok {
      return Some("HTTP " + NatToString(resp.status) + " for " + path);
    }
    match resp.dataset
    case None => err := Some(JsonSyntaxError);
    case Some(d) =>
      view.RenderDataset(d);
      err := None;
  }
}
