/** The text-to-speech part of learn.js: the voice picker and `speak` /
    `cancelAll` over the browser's utterance queue. The engine is foreign;
    what it is asked to say is kept as `pending`, the utterances queued
    and not cancelled. */
module Speech {
  import opened JsText
  import opened Fragments

  /** A `SpeechSynthesisVoice`; its `lang` may be missing. */
  datatype Voice = Voice(name: string, lang: Str)

  /** A `SpeechSynthesisUtterance` as `speak` configures it. */
  datatype Utterance = Utterance(text: string, rate: Rate, voice: Option<Voice>, lang: string)

  /** `/^(nb|no)/i`: "nb" or "no" in either case at the start. A missing
      `lang` is tested as "undefined" and never matches. */
  predicate IsNorwegianTag(lang: Str) {
    lang.Some? && |lang.value| >= 2
    && (lang.value[0] == 'n' || lang.value[0] == 'N')
    && (lang.value[1] == 'b' || lang.value[1] == 'B' || lang.value[1] == 'o' || lang.value[1] == 'O')
  }

  /** `v.lang && v.lang.startsWith('en')`: case-sensitive. */
  predicate IsEnglishTag(lang: Str) {
    Truthy(lang) && StartsWith(lang.value, "en")
  }

  /** The two searches of `pickNbVoice`. */
  datatype Rule = Norwegian | English

  predicate Matches(v: Voice, rule: Rule) {
    match rule
    case Norwegian => IsNorwegianTag(v.lang)
    case English => IsEnglishTag(v.lang)
  }

  /** `voices.find(...)` as an index: the first voice the rule accepts. */
  function Find(voices: seq<Voice>, rule: Rule): (r: Option<nat>)
    ensures r.Some? ==> r.value < |voices| && Matches(voices[r.value], rule)
                        && forall j :: 0 <= j < r.value ==> !Matches(voices[j], rule)
    ensures r.None? <==> forall j :: 0 <= j < |voices| ==> !Matches(voices[j], rule)
  {
    if voices == [] then None
    else if Matches(voices[0], rule) then Some(0)
    else
      match Find(voices[1..], rule)
      case None => None
      case Some(i) => Some(i + 1)
  }

  /** The voice `pickNbVoice` settles on: the first Norwegian one, else the
      first English one, else none. */
  function PickVoice(voices: seq<Voice>): (r: Option<Voice>)
    ensures Find(voices, Norwegian).Some? ==> r == Some(voices[Find(voices, Norwegian).value])
    ensures Find(voices, Norwegian).None? && Find(voices, English).Some?
            ==> r == Some(voices[Find(voices, English).value])
    ensures Find(voices, Norwegian).None? && Find(voices, English).None? ==> r.None?
  {
    match Find(voices, Norwegian)
    case Some(i) => Some(voices[i])
    case None =>
      match Find(voices, English)
      case Some(j) => Some(voices[j])
      case None => None
  }

  /** The three outcomes in terms of the voices themselves. */
  lemma PickVoiceCases(voices: seq<Voice>)
    ensures (exists i :: 0 <= i < |voices| && Matches(voices[i], Norwegian))
            ==> exists i :: 0 <= i < |voices| && PickVoice(voices) == Some(voices[i])
                            && Matches(voices[i], Norwegian)
                            && forall j :: 0 <= j < i ==> !Matches(voices[j], Norwegian)
    ensures (forall i :: 0 <= i < |voices| ==> !Matches(voices[i], Norwegian))
            && (exists i :: 0 <= i < |voices| && Matches(voices[i], English))
            ==> exists i :: 0 <= i < |voices| && PickVoice(voices) == Some(voices[i])
                            && Matches(voices[i], English)
                            && forall j :: 0 <= j < i ==> !Matches(voices[j], English)
    ensures PickVoice(voices).None? <==>
            forall i :: 0 <= i < |voices| ==> !Matches(voices[i], Norwegian) && !Matches(voices[i], English)
  {
    var n, e := Find(voices, Norwegian), Find(voices, English);
    if n.Some? {
      assert Matches(voices[n.value], Norwegian);
    } else if e.Some? {
      assert Matches(voices[e.value], English);
    }
  }

  /** A Norwegian voice wins over an English one listed earlier. */
  lemma NorwegianBeatsEnglish()
    ensures var en, nb := Voice("Samantha", Some("en-US")), Voice("Nora", Some("nb-NO"));
            PickVoice([en, nb]) == Some(nb)
  {
    var en, nb := Voice("Samantha", Some("en-US")), Voice("Nora", Some("nb-NO"));
    assert Find([en, nb], Norwegian) == Some(1) by {
      assert !Matches(en, Norwegian);
      assert [en, nb][1..] == [nb];
    }
  }

  /** `(TTS.voice && TTS.voice.lang) || 'nb-NO'`. */
  function UtteranceLang(voice: Option<Voice>): (lang: string)
    ensures voice.Some? && Truthy(voice.value.lang) ==> lang == voice.value.lang.value
    ensures !(voice.Some? && Truthy(voice.value.lang)) ==> lang == "nb-NO"
  {
    if voice.Some? then Or(voice.value.lang, "nb-NO") else "nb-NO"
  }

  /** The utterance `speak(text, rate)` hands to the engine. */
  function UtteranceFor(text: string, rate: Rate, voice: Option<Voice>): (u: Utterance)
    ensures u.text == text && u.rate == rate && u.voice == voice
    ensures u.lang != []
  {
    Utterance(text, rate, voice, UtteranceLang(voice))
  }

  /** The `TTS` record, with the engine's queue. `available` is
      `'speechSynthesis' in window`. */
  class Session {
    const available: bool
    var voice: Option<Voice>
    var ready: bool
    var pending: seq<Utterance>

    /** At most one utterance is ever queued, and none without an engine. */
    predicate Valid()
      reads this
    {
      |pending| <= 1 && (!available ==> pending == [])
    }

    /** Script start: `TTS.voice` is null until a pick; with an engine the
        voices it lists at that moment are picked from. */
    constructor (available: bool, voices: seq<Voice>)
      ensures this.available == available
      ensures voice == (if available then PickVoice(voices) else None)
      ensures ready == available
      ensures pending == []
      ensures Valid()
    {
      this.available := available;
      voice := if available then PickVoice(voices) else None;
      ready := available;
      pending := [];
    }

    /** `pickNbVoice()`, also run by `onvoiceschanged` with the new list. */
    method PickNbVoice(voices: seq<Voice>)
      requires Valid()
      modifies this
      ensures voice == PickVoice(voices) && ready
      ensures pending == old(pending)
      ensures Valid()
    {
      voice := PickVoice(voices);
      ready := true;
    }

    /** `cancelAll()`: the engine drops everything queued (without an engine
        the call throws and is caught, and nothing is queued anyway). */
    method CancelAll()
      requires Valid()
      modifies this
      ensures pending == []
      ensures voice == old(voice) && ready == old(ready)
      ensures Valid()
    {
      pending := [];
    }

    /** `speak(text, rate)`: cancel, then queue one utterance if there is an engine. */
    method Speak(text: string, rate: Rate)
      requires Valid()
      modifies this
      ensures pending == (if available then [UtteranceFor(text, rate, voice)] else [])
      ensures voice == old(voice) && ready == old(ready)
      ensures Valid()
    {
      CancelAll();
      if !available {
        return;
      }
      pending := pending + [UtteranceFor(text, rate, voice)];
    }

    /** Activating a rendered element: a `Say` handler speaks, anything else
        leaves the queue alone. */
    method Activate(h: Handler)
      requires Valid()
      modifies this
      ensures h.Say? ==> pending == (if available then [UtteranceFor(h.text, h.rate, voice)] else [])
      ensures !h.Say? ==> pending == old(pending)
      ensures voice == old(voice) && ready == old(ready)
      ensures Valid()
    {
      if h.Say? {
        Speak(h.text, h.rate);
      }
    }
  }
}
