# NorskA2 lesson renderer and navigation shell, in Dafny

NorskA2 is a small single-page app for learning Norwegian at level A2.
`learn.js` turns a lesson dataset into cards. A dataset is a title and a list
of blocks, each block tagged with a `kind`. Every Norwegian line is split into
clickable word tokens plus four speed chips, and all of them speak through
the browser's speech engine. The fill-in, multiple-choice and true/false
quizzes each check one answer. `app.js` is the shell around that page. It
routes between `#home` and `#learn` and falls back across path candidates
when loading JSON. It draws the navigation tree from `navigation.json` and
remembers which groups are expanded. It also handles keyboard movement over
the tree and the drawer and collapse flags.

The model has these modules:

* `JsText`: the JavaScript string semantics the code relies on. This covers
  `||` fallbacks on optional fields (`Str` is `Option<string>`), template
  interpolation of a missing value as "undefined", `trim`, `toLowerCase`,
  `startsWith` and number-to-string.
* `Tokenizer`: `tokenizeWords` as a scanner over the regular expression's
  four alternatives (`Tokenize`). The `while` loop over `re.exec` is a
  method proved equal to it.
* `Fragments` and `Lesson`: an abstract element tree stands in for the DOM.
  A `Frag` has a tag, a class, text, attributes, a click handler and
  children. The handler either speaks a text at a rate or runs a quiz check.
  `Lesson` holds the dataset records with their optional fields.
* `Renderers`: every `R.*` renderer, `mkWordTokens`, `mkChips` and
  `mkSpeakBtn` as functions from a block to a fragment. Lemmas state what
  each tree shows, and what it speaks, in order.
* `Quiz`: the three check handlers as decision functions, each giving ok or
  bad, the feedback text and the CSS class.
* `Escape`: `esc` and its inverse.
* `Speech`: `pickNbVoice` as a first-match search, and the `TTS` record as a
  class. The engine's queue is kept as the utterances queued and not
  cancelled.
* `Dispatcher`: the renderer table, the lowercased `kind` lookup with its
  unknown-block fallback, and `renderDataset` as a method on the page.
  `loadDataset` takes the fetch response as a parameter.
* `Routing`: route normalisation, `resolvePath`, and `fetchAsJSON` /
  `loadJSON` over a server given as a function from URL to reply.
* `NavTree`: the expanded-set default, `makeNode`'s label, emoji, container
  and open rules as a pure rendering of the tree, root selection,
  `findAliasByPath` against a preorder listing, the dot-prefix chain of
  `expandChainToAlias`, and the arrow-key moves.
* `Shell`: the app shell as a class. `navigate`, the drawer handlers,
  `makeNode` (recursive, updating the shared expanded set), the click
  toggle, `expandChainToAlias` and the tail of `initNav` are methods that
  change its fields.

Where the code and the behaviour one would expect from reading it part ways,
the model follows the code, except for the `R` lookup (see "## Findings"):

* In the multiple-choice check, an `answerIndex` of -1 counts "nothing
  selected" as correct, because `findIndex` gives -1 when no radio is
  checked (`Quiz.McqNothingSelected`).
* A fill-in item without `ans` shows "Riktig svar: undefined".
* `findAliasByPath` passes over a child result that is the empty alias,
  because `""` is falsy.

## Model

| member | source | states |
|---|---|---|
| Tokenizer.RunLength | learn.js:36 | length of the greedy run of one alternative: every char in it extends the run, and the next char does not |
| Tokenizer.TokenizeWords | learn.js:35-39 | the `re.exec` loop returns exactly `Tokenize` of `str \|\| ''` |
| Tokenizer.TokensAreSolid | learn.js:36-37 | no token is empty and no token contains a whitespace character |
| Tokenizer.ConcatIsInputWithoutSpaces | learn.js:36-37 | the tokens concatenated give the input with its whitespace removed |
| Tokenizer.EmptyInputHasNoTokens | learn.js:37 | a missing or empty string gives no tokens |
| Tokenizer.WordRunIsMaximal | learn.js:36 | a maximal run of `[A-Za-z0-9_]` is one token, and scanning resumes after it |
| Tokenizer.LetterRunIsMaximal | learn.js:36 | a run starting with å/æ/ø/Å/Æ/Ø extends over `[åæøÅÆØA-Za-z]` only, as one token |
| Tokenizer.OtherCharIsSingleToken | learn.js:36 | any other non-space character is a token by itself |
| Tokenizer.SpaceIsSkipped | learn.js:36-37 | a whitespace character yields no token |
| Tokenizer.TokenShapes | learn.js:36 | every token is a word run, a Nordic letter run or a single other character |
| Tokenizer.JegSpiser | learn.js:35-39 | "Jeg spiser" gives ["Jeg", "spiser"] |
| Tokenizer.BjornSplits | learn.js:36 | "Bjørn" gives ["Bj", "ørn"], because `\w` is ASCII only |
| JsText.LowerIdempotent | learn.js:241 | lowercasing twice is lowercasing once |
| JsText.Trim | learn.js:146 | the result is a slice of the input whose cut-off ends are whitespace and whose own ends are not |
| JsText.BoolToString | app.js:46 | `String(b)` is "true" exactly when b holds |
| Renderers.WordKidsLayout | learn.js:42-46 | n tokens give n word spans in token order, with a single-space text between each pair (2n-1 children) |
| Renderers.WordKidsSpoken | learn.js:44-45 | the spans speak their own tokens at rate 1, in order, and check nothing |
| Renderers.WordKidsText | learn.js:43-46 | the wrapper's text is the tokens joined by single spaces |
| Renderers.WordTokensSpeakTokens | learn.js:40-49 | `mkWordTokens(t)` speaks exactly the tokens of t at rate 1, and its text is those tokens space-joined |
| Renderers.ChipsSpeakAtFourRates | learn.js:220-229 | the chip row speaks its text at 0.60, 0.80, 1.00 and 1.08, strictly increasing in that order |
| Renderers.SpokenLineSays | learn.js:71 | a NO line speaks its words at rate 1, then the whole line at the four chip rates |
| Renderers.LinePartsLayout | learn.js:70-73 | a line card holds the NO line and chips, then "Pron: " and "EN: " paragraphs only when those fields are present; the "Pron: " paragraph comes third and the "EN: " paragraph last |
| Renderers.HeadingTitle | learn.js:63 | the heading is `text`, else `title`, else "Untitled", and is never empty |
| Renderers.ImageCaption | learn.js:65 | the figure has an image with `alt \|\| ''`, and a caption repeating `alt` exactly when `alt` is present |
| Renderers.LinesLayout | learn.js:67-77 | `R.lines` has a title, then one card per item in order, card i speaking item i's NO line |
| Renderers.LineCardSays | learn.js:69-74 | one item's card speaks that item's NO line and nothing else |
| Renderers.ModelLinesSpoken | learn.js:83-88 | a slot's model lines speak each line's words and chips, line by line |
| Renderers.MonoLayout | learn.js:79-93 | `R.mono` has one card per slot, titled `no \|\| title \|\| ''`, speaking its model lines (nothing when `model` is not an array) |
| Renderers.TenseCellSpoken | learn.js:117-125 | a tense cell speaks the form's words at rate 1, then the whole form through its speak button |
| Renderers.VerbsTableLayout | learn.js:95-134 | six headers (Infinitiv, Presens, Preteritum, Perfektum, Futurum, Notater); one row per verb with six cells; cell k speaks tense k in the order inf, pres, pret, perf, fut; cell 6 shows `notes \|\| ''` |
| Renderers.FillListLayout | learn.js:136-153 | one fill item per entry in order, each check button carrying its entry's expected answer |
| Renderers.McqListLayout | learn.js:155-179 | one question per entry; question i names its radios `mcq_i`, labels them with its options in order, and its button checks them against `answerIndex` |
| Renderers.TfListLayout | learn.js:181-200 | one statement per entry, with the EN line only when `en` is present, and "Sant" / "Usant" buttons checking true and false |
| Renderers.QaLineSpoken | learn.js:206 | a Q/A NO line is shown and spoken only when present |
| Renderers.QaCardSpoken | learn.js:202-215 | a QA card speaks the question's line, then the answer's line |
| Renderers.UnknownNamesKind | learn.js:244 | the unknown renderer's heading is `title`, else "Unknown block: " and the kind as given; then the JSON text |
| Quiz.FillCheck | learn.js:145-148 | ok iff the trimmed, lowercased input equals the lowercased answer; else "Riktig svar: " and the answer (or "undefined"); matching class |
| Quiz.FillIgnoresPadding | learn.js:146 | whitespace around the input changes nothing in the outcome |
| Quiz.FillIgnoresAnswerCase | learn.js:146 | lowercasing the expected answer does not change the outcome |
| Quiz.PaddedWordMatches | learn.js:146-147 | a trimmed word with the answer's lower-case form is ok, and stays ok with whitespace around it |
| Quiz.KattMatches | learn.js:146 | "katt" matches "Katt" |
| Quiz.PaddedKattMatches | learn.js:146 | " katt " matches "Katt" |
| Quiz.FirstLetterDiffers | learn.js:146 | a trimmed input whose first letter differs from the answer's, ignoring case, is wrong |
| Quiz.HundIsNotKatt | learn.js:146 | a different word is wrong |
| Quiz.SelectedIndex | learn.js:173 | the index of the first checked radio, and -1 exactly when none is checked |
| Quiz.McqCheck | learn.js:171-175 | ok iff the selected index equals `answerIndex`; when wrong the feedback names the correct option's text; matching class |
| Quiz.McqNothingSelected | learn.js:173-174 | with nothing checked the answer is ok exactly when `answerIndex` is -1 |
| Quiz.McqSingleSelection | learn.js:173-174 | with only radio k checked, ok iff k is `answerIndex` |
| Quiz.TfCheck | learn.js:193-195 | ok iff `!!answer` equals the click; a wrong "Sant" gives "Det er ikke sant.", a wrong "Usant" gives "Det er sant." |
| Quiz.RunCheckShowsVerdict | learn.js:145-195 | for every quiz kind, the feedback reads "Riktig!" exactly when the answer is right, with the ok class then and the bad class otherwise |
| Escape.EscapedHasNoBrackets | learn.js:58 | escaped text contains no < or > |
| Escape.EscapedAmpersandsOpenEntities | learn.js:58 | every & in escaped text begins one of the three entities |
| Escape.UnescapeEscape | learn.js:58 | unescaping the escaped text gives the original back |
| Escape.EscInjective | learn.js:58 | two texts with the same escape are equal |
| Speech.Find | learn.js:16-17 | `voices.find`: the first voice the rule accepts, or none when no voice does |
| Speech.PickVoiceCases | learn.js:16-18 | stated on the voices themselves: first matching `/^(nb\|no)/i`, else first with lang starting "en", null iff neither exists |
| Speech.NorwegianBeatsEnglish | learn.js:16-17 | a Norwegian voice wins over an English voice listed before it |
| Speech.UtteranceFor | learn.js:29-30 | the utterance carries the text, the rate and the chosen voice, with a non-empty lang |
| Speech.Session.constructor | learn.js:13-23 | with an engine present the voice is picked at start and `ready` is set; without one the voice is null; nothing is queued |
| Speech.Session.PickNbVoice | learn.js:14-19 | the voice becomes `PickVoice(voices)` and `ready` is true; re-running it on the same list gives the same voice |
| Speech.Session.CancelAll | learn.js:24 | the queue is emptied; voice and readiness are kept |
| Speech.Session.Speak | learn.js:27-32 | cancel, then queue exactly one utterance for the text at the rate when an engine exists, none otherwise |
| Speech.Session.Activate | learn.js:44-45 | activating a speaking element speaks its text at its rate; other elements leave the queue alone |
| Dispatcher.KindKeyIsLower | learn.js:63-217 | every table key is already lower case |
| Dispatcher.OwnRenderer | learn.js:61-217 | the table's own keys resolve to their renderer; any other key resolves to none |
| Dispatcher.OwnRendererFindsKey | learn.js:63-217 | each renderer is found by its own key |
| Dispatcher.KindOf | learn.js:241 | the lookup key `(kind \|\| '').toLowerCase()` is lower case |
| Dispatcher.KindIgnoresCase | learn.js:241 | resolving a kind is the same as resolving its lowercased form |
| Dispatcher.KindInAnyCase | learn.js:241 | a kind in any case reaches the renderer of its lowercase key |
| Dispatcher.UnmatchedKindIsUnknown | learn.js:241-244 | a missing kind, or "html", goes to the unknown renderer |
| Dispatcher.LookupAsWritten | learn.js:241 | `R[kind]` on a plain object: own keys give a renderer; "constructor" and "__proto__" give inherited members |
| Dispatcher.RenderAllAsWritten | learn.js:241 | the `forEach` as written stops at the first block whose key is inherited |
| Dispatcher.AsWrittenAgrees | learn.js:241 | without inherited keys, the loop as written renders exactly `RenderAll` |
| Dispatcher.AsWrittenStopsAtInherited | learn.js:241 | the loop as written throws at the first inherited key, keeping only the fragments of the blocks before it |
| Dispatcher.ConstructorKindStopsRendering | learn.js:241 | a page of heading, "Constructor", heading keeps one fragment as written, where three are meant |
| Dispatcher.InheritedKindIsUnknown | learn.js:241-244 | with own properties only, a block whose lowercased kind is "constructor" or "__proto__" goes to `R_unknown` |
| Dispatcher.ConstructorKindIsUnknown | learn.js:241-244 | the same three-block page renders to three fragments under the corrected lookup, the middle one an unknown block |
| Dispatcher.LearnView.constructor | learn.js:5-10 | the page starts with empty meta text and an empty container |
| Dispatcher.LearnView.RenderDataset | learn.js:238-242 | audio is cancelled, meta is `title \|\| ''`, and the container is exactly one fragment per block in order (a missing `blocks` is empty), with the corrected lookup; as written, see `Dispatcher.RenderAllAsWritten` |
| Dispatcher.LoadDataset | learn.js:232-236 | a non-ok response throws "HTTP status for path", and a body that is not JSON throws; neither touches the title, the container or the speech queue. An ok JSON response renders the dataset: the title is `title \|\| ''`, the container is one fragment per block (with the corrected lookup; as written, see `Dispatcher.RenderAllAsWritten`) and the queue is cancelled |
| Routing.NormalizeRoute | app.js:31 | any hash outside {#home, #learn} becomes #home; a known route is kept |
| Routing.NormalizeRouteIdempotent | app.js:31 | normalising twice is normalising once |
| Routing.ResolvePath | app.js:88 | `[p, p.slice(2)]` when p starts with "./", else `[p]`: never empty, first element p |
| Routing.FetchAsJSON | app.js:78-87 | loads iff the reply is ok and parses; a non-ok reply throws "HTTP status statusText for url" carrying the url |
| Routing.FirstLoaded | app.js:90 | the first candidate that loads, or none when all fail |
| Routing.LoadJSON | app.js:89-92 | the candidate loop returns `LoadOutcome` |
| Routing.LoadOutcomeCases | app.js:89-92 | succeeds iff some candidate loads, with the first such value; otherwise it throws the last candidate's error, and the "Could not fetch" fallback is unreachable |
| Routing.SecondCandidateServes | app.js:88-91 | a "./" path whose first form gets 404 is loaded from its second form |
| NavTree.LoadExpandedSet | app.js:95-102 | never empty: no stored value, an unparsable one or an empty list gives {nav.home}; otherwise the stored aliases |
| NavTree.LabelText | app.js:124 | a truthy `label` wins over `alias`; the label is blank only when `label` is falsy and `alias` is empty |
| NavTree.EmojiText | app.js:125 | `emoji \|\| '•'`, never empty |
| NavTree.RenderNodeShape | app.js:120-151 | a container has `aria-expanded` open iff its alias is expanded or is nav.home; a non-container has none; the ul is present iff there are children, hidden iff not open |
| NavTree.RenderAddsOnlyHome | app.js:130-133 | rendering adds to the expanded set nothing beyond nav.home, and an open container's alias is added |
| NavTree.RootOf | app.js:174-175 | the first node whose alias is nav.home, else the first node, else none |
| NavTree.FirstHome | app.js:174 | the index of the first nav.home node |
| NavTree.FirstDatasetAlias | app.js:259-266 | the reference search: the first node of a list with type dataset and the path |
| NavTree.FindIsFirstInPreorder | app.js:259-266 | `findAliasByPath` returns the alias of the first dataset node with the path in preorder (parent before children), and null when none exists |
| NavTree.FindIsSound | app.js:261 | a returned alias always belongs to a dataset node with that path, never to a node of another type |
| NavTree.Split | app.js:269 | `split('.')` always gives at least one part |
| NavTree.JoinSplit | app.js:269-271 | joining the parts with '.' gives the alias back |
| NavTree.StepIsChainPrefix | app.js:271 | each accumulated `acc.join('.')` is a dot prefix of the alias |
| NavTree.ChainPrefixIsStep | app.js:271 | every dot prefix of the alias is one of the accumulated joins |
| NavTree.ChainOfABC | app.js:268-273 | for "a.b.c" the chain is exactly a, a.b and a.b.c |
| NavTree.KeyMove | app.js:179-194 | right opens, left closes or moves to the parent, down and up move one button within the list, Enter and space click; a focus target is always in range |
| NavTree.DownUpRoundTrip | app.js:188-192 | ArrowDown then ArrowUp returns to the same button |
| NavTree.ButtonsArePreorder | app.js:189 | the buttons in document order are the tree's nodes in preorder |
| Shell.App.constructor | app.js:95-106 | both views and the drawer start consistent; the expanded set is `loadExpandedSet` over storage and is non-empty |
| Shell.App.Navigate | app.js:30-39 | exactly the section whose route equals the normalised hash is visible; the stop button is hidden iff the route is not #learn; audio is cancelled iff it is not #learn; the drawer and collapse flags, the nav sets, the tree and storage stay as they were |
| Shell.App.StopAudio | app.js:299-303 | the speech queue is emptied; the voice and readiness are kept |
| Shell.App.SetDrawerCollapsed | app.js:45-49 | attribute, body class and stored value all become the flag, and only the drawer key in storage changes |
| Shell.App.RestoreDrawerState | app.js:50-54 | collapsed iff the stored value is "true"; storage is unchanged |
| Shell.App.ToggleDrawer | app.js:57-62 | `show` flips; `aria-expanded`, overlay hidden == not shown and no-scroll == shown; the collapse flags, storage, the nav sets, the tree and the views stay |
| Shell.App.OverlayClick | app.js:64-69 | the drawer is not shown, the overlay is hidden, no-scroll is off and `aria-expanded` is "false"; the collapse flags, storage, the nav sets, the tree and the views stay |
| Shell.App.CollapseClick | app.js:72-75 | the collapsed flag flips and storage gains or updates only the drawer key, holding it; the drawer, the views and the nav sets stay |
| Shell.App.MakeNode | app.js:115-172 | returns the node rendered against the set it started from plus nav.home, and adds to the set exactly the open containers; the drawer, collapse and stop-button flags, storage and the saved set stay |
| Shell.App.MakeChildren | app.js:150 | the children in order, each rendered against the same starting set; the same fields stay as for `MakeNode` |
| Shell.App.RenderTree | app.js:108-177 | the root list holds the rendered root, or nothing when the tree is empty; the set only grows, by nav.home at most; the drawer, collapse and stop-button flags, storage and the saved set stay |
| Shell.App.ClickNode | app.js:153-168 | a container flips `aria-expanded` and its group's `hidden`; afterwards its alias is in the set iff now open; the set is saved; a route container or route navigates; a dataset opens; the drawer, collapse and stop-button flags, storage, the tree and the views stay |
| Shell.App.ExpandChainToAlias | app.js:268-273 | the set afterwards is the old set plus exactly the dot prefixes of the alias (nothing removed), and is saved; the drawer, collapse and stop-button flags, storage, the tree and the views stay |
| Shell.App.ReopenLast | app.js:244-252 | with a stored last path that some dataset node has, the saved set is the old set plus exactly that alias's dot prefixes, the set is that plus nav.home at most, the tree is re-rendered against it, and that dataset is opened; otherwise the set, the saved set and the tree are unchanged; the views, the drawer and collapse flags and storage never change |

## Left out

- `sw.js`: service-worker caching is asynchronous I/O with no rule of its own worth stating.
- The network: `fetch` becomes a parameter, a `Response` for `loadDataset` and a server function from URL to reply for `fetchAsJSON`. The body text is not kept.
- DOM details: CSS classes beyond the quiz's ok or bad, inline styles, focus and scrolling, `preventDefault`, the `innerHTML` header markup (the six headers are text leaves) and `CSS.escape`.
- The speech engine: audio, timing and `onvoiceschanged` firing are not modelled. `speak` is cancel-then-queue on a queue of at most one utterance. A throwing `pickNbVoice` at start-up is not modelled.
- Floating point: speech rates are whole hundredths (60, 80, 100, 108).
- Unicode: `toLowerCase` maps only ASCII and Latin-1 capitals.
- Characters outside the Basic Multilingual Plane: a model string is a sequence of Unicode scalar values, while JavaScript strings are UTF-16 code units. The non-`u` `\S` of learn.js:36 matches each surrogate half, so an emoji is one token in the model and two tokens (two spans speaking lone surrogates) in the source.
- JSON `null` and non-string values: a `null` field is treated as a missing one, so it interpolates as "undefined" where the source prints "null" (`Riktig svar: ${it.ans}` at learn.js:147, `Unknown block: ${blk.kind}` at learn.js:244, `img.src` at learn.js:65). Every text field is a string or missing; a numeric `ans`, which makes `.toLowerCase()` throw at learn.js:146, is not modelled.
- `loadDataset`: a rejected `fetch` promise (a network failure) cannot be expressed as a `Response` and is not modelled.
- `JSON.stringify`: the unknown renderer's dump is a field of the block, not computed. `JSON.parse` of stored aliases is a parameter.
- Routing.JsonSyntaxError: a reply that is not JSON fails with a fixed message; the engine's own wording is not modelled.
- `openDataset`, `highlightCurrent`, `showError` and `renderMinimal` (app.js:196-236): page effects with nothing to state; a click that opens a dataset returns an `OpenData` effect instead.
- `initNav`: the load of `navigation.json` and its error path are not modelled; `Shell.App.ReopenLast` models its tail.
- The service-worker registration and the install prompt (app.js:278-296).
- The start-up and hashchange listeners are not modelled; they call `navigate` with `location.hash`.
- NavTree.LoadExpandedSet: the set's insertion order is not kept (it only affects the stored JSON order); `savedExpanded` is the saved set.
- NavTree.FindIsFirstInPreorder: requires every alias to be non-empty, because `findAliasByPath` skips a child result of `""` (falsy). `FindIsSound` holds without that condition.
- Shell.App.ClickNode: returns the updated item rather than rewriting it inside `rendered`; element identity and aliasing are not modelled.
- Nav nodes whose `alias` or `type` is missing are modelled as the empty string; a node missing `children` has none.
- Quiz.McqCheck: `answerIndex` is a whole number or missing; a string or fractional `answerIndex` is not modelled.
- learn.js has no renderer for `html`: an `html` block goes to `R_unknown` (`Dispatcher.UnmatchedKindIsUnknown`). Each chip speaks its text once at its own rate (learn.js:220-229); there is no sequential playback at several rates.
- NavTree.KeyMove: the focus targets range over every `.node` button, as app.js:189-192 collects them, including buttons inside a group hidden at app.js:149; so ArrowDown on a collapsed container can target a button that is not displayed. Whether `focus()` lands on it is not modelled.
- Radio groups across blocks: learn.js:163-164 build the names `mcq_${qi}` and ids `mcq_${qi}_${oi}` per block, so two `mcq_list` blocks on one page reuse them. The model keeps each block's radios separate; the shared browser radio group and the label `for` reaching the first block's radio are not modelled.
- `esc` is defined in learn.js but never called there; it is modelled with its inverse all the same.

## Findings

| source | as written | input that shows it | evidently intended | confidence | as-written member | corrected member |
|---|---|---|---|---|---|---|
| learn.js:241 | `R` is a plain object literal, so `R[kind]` also finds members inherited from `Object.prototype`. A lowercased kind of "constructor" gives `Object`, whose result is not a node, so `appendChild` throws. "__proto__" gives a non-function, so the call throws. `renderDataset` stops at that block. | blocks with kinds "heading", "Constructor", "heading" | every unmatched kind goes to `R_unknown`, one fragment per block | not executed | Dispatcher.RenderAllAsWritten, Dispatcher.ConstructorKindStopsRendering | Dispatcher.ConstructorKindIsUnknown, Dispatcher.LearnView.RenderDataset |
