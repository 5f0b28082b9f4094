/** The lesson document learn.js consumes: a dataset of blocks, each block a
    JSON record keyed by `kind`. Every field is optional in the source; an
    absent array (`blk.items || []`) is modelled as the empty sequence, an
    absent string as `None`. The JSON dump `R_unknown` shows is kept opaque. */
module Lesson {
  import opened JsText

  /** One entry of `blk.items`. The renderers of the different kinds read
      different fields of the same record. */
  datatype Item = Item(
    // lines, mono model lines, fill_list and tf_list
    no: Str, pron: Str, en: Str,
    // mono slots
    title: Str, model: Option<seq<Item>>,
    // fill_list
    ans: Str,
    // mcq_list: the question, the `no` of each option, the correct index
    noQ: Str, options: seq<Str>, answerIndex: Option<int>,
    // tf_list: the truthiness `!!q.answer`
    answer: bool,
    // qa_list
    pronQ: Str, enQ: Str, noA: Str, pronA: Str, enA: Str)

  /** One tense of a verb: `v.inf`, `v.inf_pron`, `v.inf_en` and so on. */
  datatype Form = Form(form: Str, pron: Str, en: Str)

  /** One entry of `blk.verbs`. */
  datatype Verb = Verb(inf: Form, pres: Form, pret: Form, perf: Form, fut: Form, notes: Str)

  datatype Block = Block(
    kind: Str, title: Str, text: Str, src: Str, alt: Str,
    items: seq<Item>, verbs: seq<Verb>,
    json: string)   // JSON.stringify(blk, null, 2), opaque

  datatype Dataset = Dataset(title: Str, blocks: seq<Block>)
}
