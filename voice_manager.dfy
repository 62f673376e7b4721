/** The speech-output wrapper (VoiceManager.ts): which voice it picks, and the commands it gives the
    browser's speech-synthesis engine, kept as a trace. */
module Voice {
  import opened Basics
  import opened Text

  /** A voice the engine offers; only its name matters to the wrapper. */
  datatype Voice = Voice(name: string, lang: string)

  datatype Utterance = Utterance(text: string, voice: Option<Voice>, rate: real, pitch: real, volume: real)

  /** What the wrapper asks of the engine. */
  datatype Command = Cancel | SpeakUtterance(utterance: Utterance)

  /** Name fragments of the voices preferred for children. */
  const Hints: seq<string> := ["female", "samantha", "karen", "veena", "zira"]

  const DefaultRate: real := 0.9
  const DefaultPitch: real := 1.1

  predicate Preferred(v: Voice) {
    exists h | h in Hints :: Contains(ToLower(v.name), h)
  }

  /** The index of the earliest preferred voice. */
  function FirstPreferred(voices: seq<Voice>): (r: Option<nat>)
    ensures r.Some? ==> r.value < |voices| && Preferred(voices[r.value])
    ensures r.Some? ==> forall k :: 0 <= k < r.value ==> !Preferred(voices[k])
    ensures r.None? ==> forall k :: 0 <= k < |voices| ==> !Preferred(voices[k])
  {
    if voices == [] then None
    else if Preferred(voices[0]) then Some(0)
    else
      var rest := FirstPreferred(voices[1..]);
      if rest.Some? then Some(rest.value + 1) else None
  }

  /** `loadVoices`' choice: the earliest preferred voice, else the first voice, else none. */
  function ChooseVoice(voices: seq<Voice>): Option<Voice> {
    var preferred := FirstPreferred(voices);
    if preferred.Some? then Some(voices[preferred.value])
    else if voices != [] then Some(voices[0])
    else None
  }

  lemma ChooseVoiceSpec(voices: seq<Voice>)
    ensures ChooseVoice(voices).None? <==> voices == []
    ensures ChooseVoice(voices).Some? ==> ChooseVoice(voices).value in voices
    ensures (exists k :: 0 <= k < |voices| && Preferred(voices[k])) ==>
              exists k :: 0 <= k < |voices| && ChooseVoice(voices) == Some(voices[k]) && Preferred(voices[k])
                          && forall j :: 0 <= j < k ==> !Preferred(voices[j])
    ensures (forall k :: 0 <= k < |voices| ==> !Preferred(voices[k])) && voices != [] ==>
              ChooseVoice(voices) == Some(voices[0])
  {
    var preferred := FirstPreferred(voices);
    if preferred.Some? {
      assert voices[preferred.value] in voices;
    }
  }

  /** The index of the first voice with exactly this name. */
  function FindByName(voices: seq<Voice>, name: string): (r: Option<nat>)
    ensures r.Some? ==> r.value < |voices| && voices[r.value].name == name
    ensures r.Some? ==> forall k :: 0 <= k < r.value ==> voices[k].name != name
    ensures r.None? <==> forall k :: 0 <= k < |voices| ==> voices[k].name != name
  {
    if voices == [] then None
    else if voices[0].name == name then Some(0)
    else
      var rest := FindByName(voices[1..], name);
      if rest.Some? then Some(rest.value + 1) else None
  }

  /** `options.rate || 0.9` and `options.pitch || 1.1`: a missing or zero value takes the default. */
  function OrDefault(given: Option<real>, default: real): (r: real)
    ensures r == given.GetOr(default) <==> (given.None? || given.value != 0.0 || default == 0.0)
    ensures r == default <==> (given.None? || given.value == 0.0 || given.value == default)
  {
    if given.Some? && given.value != 0.0 then given.value else default
  }

  /** Every speak command comes straight after a cancel. */
  predicate CancelBeforeSpeak(trace: seq<Command>) {
    forall i :: 0 <= i < |trace| && trace[i].SpeakUtterance? ==> i > 0 && trace[i - 1].Cancel?
  }

  class VoiceManager {
    var voices: seq<Voice>
    var selectedVoice: Option<Voice>
    /** The commands given to the engine so far. */
    var engine: seq<Command>

    predicate Valid()
      reads this
    {
      (selectedVoice.Some? ==> selectedVoice.value in voices) && CancelBeforeSpeak(engine)
    }

    /** The constructor loads the voices the engine has at that moment. */
    constructor (available: seq<Voice>)
      ensures Valid()
      ensures voices == available && selectedVoice == ChooseVoice(available) && engine == []
    {
      voices := available;
      selectedVoice := ChooseVoice(available);
      engine := [];
      ChooseVoiceSpec(available);
    }

    /** `loadVoices`, run again when the engine reports that its voices changed. */
    method LoadVoices(available: seq<Voice>)
      requires Valid()
      modifies this`voices, this`selectedVoice
      ensures Valid()
      ensures voices == available && selectedVoice == ChooseVoice(available)
    {
      voices := available;
      selectedVoice := ChooseVoice(available);
      ChooseVoiceSpec(available);
    }

    /** Cancels whatever is being said, then speaks `text` unchanged with the selected voice, if any. */
    method Speak(text: string, rate: Option<real>, pitch: Option<real>)
      requires Valid()
      modifies this`engine
      ensures Valid()
      ensures engine == old(engine) + [Cancel, SpeakUtterance(Utterance(text, selectedVoice,
                          OrDefault(rate, DefaultRate), OrDefault(pitch, DefaultPitch), 1.0))]
    {
      engine := engine + [Cancel];
      var utterance := Utterance(text, selectedVoice, OrDefault(rate, DefaultRate), OrDefault(pitch, DefaultPitch), 1.0);
      engine := engine + [SpeakUtterance(utterance)];
    }

    method Stop()
      requires Valid()
      modifies this`engine
      ensures Valid() && engine == old(engine) + [Cancel]
    {
      engine := engine + [Cancel];
    }

    method GetAvailableVoices() returns (r: seq<Voice>)
      ensures r == voices
    {
      r := voices;
    }

    /** Selects the first voice with this exact name; an unknown name changes nothing. */
    method SetVoice(voiceName: string)
      requires Valid()
      modifies this`selectedVoice
      ensures Valid()
      ensures var found := FindByName(voices, voiceName);
              selectedVoice == if found.Some? then Some(voices[found.value]) else old(selectedVoice)
    {
      var found := FindByName(voices, voiceName);
      if found.Some? {
        selectedVoice := Some(voices[found.value]);
      }
    }
  }
}
