/** The microphone button (SpeechInput.tsx): whether recognition is supported, whether it is
    listening, the commands given to the browser's recognition objects and the callbacks fired.
    Recognition objects are numbered 1, 2, ... in the order the setup effect creates them. */
module SpeechInput {
  import opened Basics

  /** A command to the recognition object with this number. */
  datatype EngineCommand = Start(instance: nat) | Stop(instance: nat)

  /** A callback the component fires on its parent. */
  datatype Notice = Result(transcript: string) | Problem(message: string) | Started | Ended

  /** How the setup effect configures a recognition object. */
  datatype Config = Config(continuous: bool, interimResults: bool, lang: string)

  const UnsupportedBrowserMessage := "Sorry, your browser doesn't support Speech Recognition. Please use Chrome, Edge, or Safari."
  const NotSupportedMessage := "Speech recognition is not supported in this browser."
  const StartFailedMessage := "Failed to start speech recognition. Please try again."

  function ErrorMessage(code: string): string {
    "Speech recognition error: " + code
  }

  /** The transcript an `onresult` event delivers: the first alternative of the first result;
      an event without one makes the handler throw and delivers nothing. */
  function FirstTranscript(results: seq<seq<string>>): (r: Option<string>)
    ensures r.Some? <==> |results| > 0 && |results[0]| > 0
    ensures r.Some? ==> r.value == results[0][0]
  {
    if |results| > 0 && |results[0]| > 0 then Some(results[0][0]) else None
  }

  class Recognizer {
    var supported: bool
    var listening: bool
    /** `recognitionRef.current`: the number of the object the buttons talk to. */
    var current: Option<nat>
    /** How many recognition objects the setup effect has created. */
    var created: nat
    var config: Option<Config>
    /** The cleanup the last setup registered, with the `listening` value it captured. */
    var cleanup: Option<bool>
    var engine: seq<EngineCommand>
    var notices: seq<Notice>
    const hasOnError: bool
    const hasOnStart: bool
    const hasOnEnd: bool

    /** Commands only ever name objects that exist, and the reference names one of them. */
    predicate Valid()
      reads this
    {
      && (current.Some? ==> 1 <= current.value <= created)
      && (forall i :: 0 <= i < |engine| ==> 1 <= engine[i].instance <= created)
    }

    /** The optional callbacks the parent passes decide which notices can be fired. */
    constructor (hasOnError: bool, hasOnStart: bool, hasOnEnd: bool)
      ensures Valid()
      ensures supported && !listening && current == None && created == 0 && config == None
      ensures cleanup == None && engine == [] && notices == []
      ensures this.hasOnError == hasOnError && this.hasOnStart == hasOnStart && this.hasOnEnd == hasOnEnd
    {
      supported, listening := true, false;
      current, created, config, cleanup := None, 0, None, None;
      engine, notices := [], [];
      this.hasOnError, this.hasOnStart, this.hasOnEnd := hasOnError, hasOnStart, hasOnEnd;
    }

    function IfError(message: string): seq<Notice>
      reads this
    {
      if hasOnError then [Problem(message)] else []
    }

    /** The cleanup registered by the previous setup, run before the effect runs again or when the
        component unmounts: stops the referenced object if `listening` was true when it was set up. */
    method Cleanup()
      requires Valid()
      modifies this`engine, this`cleanup
      ensures Valid() && cleanup == None
      ensures engine == old(engine) + (if old(cleanup) == Some(true) && current.Some? then [Stop(current.value)] else [])
    {
      if cleanup == Some(true) && current.Some? {
        engine := engine + [Stop(current.value)];
      }
      cleanup := None;
    }

    /** One run of the setup effect, which runs on mount and again whenever one of its dependencies
        changes, `listening` among them. Without recognition in the browser it marks the component
        unsupported and reports it once; otherwise a new object is created, configured with interim
        results off, and becomes the referenced one. */
    method Setup(available: bool, continuous: bool, lang: string)
      requires Valid()
      modifies this
      ensures Valid()
      ensures listening == old(listening) && notices == old(notices) + (if available then [] else IfError(UnsupportedBrowserMessage))
      ensures engine == old(engine) + (if old(cleanup) == Some(true) && old(current).Some? then [Stop(old(current).value)] else [])
      ensures !available ==>
                && !supported && current == old(current) && created == old(created)
                && config == old(config) && cleanup == None
      ensures available ==>
                && supported == old(supported) && created == old(created) + 1 && current == Some(created)
                && config == Some(Config(continuous, false, lang)) && cleanup == Some(listening)
    {
      Cleanup();
      if !available {
        supported := false;
        notices := notices + IfError(UnsupportedBrowserMessage);
        return;
      }
      created := created + 1;
      config := Some(Config(continuous, false, lang));
      current := Some(created);
      cleanup := Some(listening);
    }

    /** `startListening`: reports instead of starting when unsupported; otherwise starts the
        referenced object only when not listening, reporting when `start` throws. */
    method StartListening(startThrows: bool)
      requires Valid()
      modifies this`engine, this`notices
      ensures Valid()
      ensures !supported ==> engine == old(engine) && notices == old(notices) + IfError(NotSupportedMessage)
      ensures supported && current.Some? && !listening && !startThrows ==>
                engine == old(engine) + [Start(current.value)] && notices == old(notices)
      ensures supported && current.Some? && !listening && startThrows ==>
                engine == old(engine) && notices == old(notices) + IfError(StartFailedMessage)
      ensures supported && (current.None? || listening) ==> engine == old(engine) && notices == old(notices)
    {
      if !supported {
        notices := notices + IfError(NotSupportedMessage);
        return;
      }
      if current.Some? && !listening {
        if startThrows {
          notices := notices + IfError(StartFailedMessage);
        } else {
          engine := engine + [Start(current.value)];
        }
      }
    }

    /** `stopListening`: stops the referenced object only while listening. */
    method StopListening()
      requires Valid()
      modifies this`engine
      ensures Valid()
      ensures engine == old(engine) + (if current.Some? && listening then [Stop(current.value)] else [])
    {
      if current.Some? && listening {
        engine := engine + [Stop(current.value)];
      }
    }

    /** A click on the button: stop while listening, start otherwise. */
    method Click(startThrows: bool)
      requires Valid()
      modifies this`engine, this`notices
      ensures Valid()
      ensures listening ==> engine == old(engine) + (if current.Some? then [Stop(current.value)] else []) && notices == old(notices)
      ensures !listening && !supported ==> engine == old(engine) && notices == old(notices) + IfError(NotSupportedMessage)
      ensures !listening && supported && current.Some? && !startThrows ==>
                engine == old(engine) + [Start(current.value)] && notices == old(notices)
      ensures !listening && supported && current.Some? && startThrows ==>
                engine == old(engine) && notices == old(notices) + IfError(StartFailedMessage)
      ensures !listening && supported && current.None? ==> engine == old(engine) && notices == old(notices)
    {
      if listening {
        StopListening();
      } else {
        StartListening(startThrows);
      }
    }

    method OnStart()
      modifies this`listening, this`notices
      ensures listening
      ensures notices == old(notices) + (if hasOnStart then [Started] else [])
    {
      listening := true;
      if hasOnStart {
        notices := notices + [Started];
      }
    }

    /** `onresult`, with recognition results given as their alternatives' transcripts. */
    method OnResult(results: seq<seq<string>>)
      modifies this`notices
      ensures var t := FirstTranscript(results);
              notices == old(notices) + (if t.Some? then [Result(t.value)] else [])
    {
      if |results| > 0 && |results[0]| > 0 {
        notices := notices + [Result(results[0][0])];
      }
    }

    method OnError(code: string)
      modifies this`listening, this`notices
      ensures !listening
      ensures notices == old(notices) + IfError(ErrorMessage(code))
    {
      listening := false;
      notices := notices + IfError(ErrorMessage(code));
    }

    method OnEnd()
      modifies this`listening, this`notices
      ensures !listening
      ensures notices == old(notices) + (if hasOnEnd then [Ended] else [])
    {
      listening := false;
      if hasOnEnd {
        notices := notices + [Ended];
      }
    }
  }

  /** Because the setup effect depends on `listening`, the start event makes it run again and replace
      the referenced object: the next click stops object 2, which was never started, while object 1
      goes on listening. */
  method StopAfterRestartScenario() returns (engine: seq<EngineCommand>, listening: bool)
    ensures engine == [Start(1), Stop(2)]
    ensures listening
  {
    var r := new Recognizer(true, true, true);
    r.Setup(true, false, "en-US");
    r.Click(false);
    r.OnStart();
    r.Setup(true, false, "en-US");
    r.Click(false);
    engine, listening := r.engine, r.listening;
  }

  /** Without a new setup between the start event and the click, the click stops the object that
      was started. */
  method StopWithoutRestartScenario() returns (engine: seq<EngineCommand>)
    ensures engine == [Start(1), Stop(1)]
  {
    var r := new Recognizer(true, true, true);
    r.Setup(true, false, "en-US");
    r.Click(false);
    r.OnStart();
    r.Click(false);
    engine := r.engine;
  }
}
