/**
 * The webview's speech-capture turn machine (src/webview/main.js): the
 * recognition callbacks, the record toggle, and the handler for replies
 * arriving from the extension host.
 *
 * The speech engines are abstract. A recognition engine is seen only
 * through the calls made on it (`start()`, `stop()`) and the events it
 * delivers (`OnStart`, `OnResult`, `OnError`, `OnEnd`); the synthesis
 * engine only through `cancel()` and `speak()` and its two callbacks.
 */
module Capture {
  import opened Wrappers
  import opened JsText
  import opened Protocol

  /** One entry of `event.results`: whether it is final, and the transcript
      of its first alternative. */
  datatype RecResult = RecResult(isFinal: bool, transcript: string)

  /** A `result` event: the engine's result list and the index of the first
      entry that changed. */
  datatype ResultEvent = ResultEvent(results: seq<RecResult>, resultIndex: nat)

  /** The texts the script writes into the status line. */
  datatype Status =
    | Listening
    | Idle
    | ErrorNamed(error: string)
    | NoSpeech
    | MicProblem
    | MicDenied
    | AlreadyListening
    | StartFailed
    | SpeakFailed
  {
    function Text(): string {
      match this
      case Listening => "Status: Listening..."
      case Idle => "Status: Idle"
      case ErrorNamed(e) => "Status: Error - " + e
      case NoSpeech => "Status: No speech detected."
      case MicProblem => "Status: Microphone problem."
      case MicDenied => "Status: Mic access denied."
      case AlreadyListening => "Status: Listening (already)..."
      case StartFailed => "Status: Error starting mic."
      case SpeakFailed => "Status: Error speaking."
    }
  }

  /** Calls made on the recognition engine. */
  datatype EngineCall = Start | Stop

  /** Calls made on the synthesis engine. */
  datatype SynthCall = Cancel | Speak(text: string)

  /** A paragraph of the rendered conversation. */
  datatype Line = You(text: string) | Sky(text: string)

  /** What `recognition.start()` did: returned, or threw an error of that name. */
  datatype StartOutcome = Started | Threw(name: string)

  /** The entries the `onresult` loop visits: those from `resultIndex` on. */
  function Pending(results: seq<RecResult>, resultIndex: nat): seq<RecResult> {
    if resultIndex <= |results| then results[resultIndex..] else []
  }

  /** The transcripts of the entries of `rs` whose `isFinal` equals `final`,
      concatenated in order. */
  function Pieces(rs: seq<RecResult>, final: bool): string {
    if rs == [] then ""
    else
      var last := rs[|rs| - 1];
      Pieces(rs[..|rs| - 1], final) + (if last.isFinal == final then last.transcript else "")
  }

  /** The final text of one activation: the final pieces of each result
      event in turn. */
  function Utterance(events: seq<ResultEvent>): string {
    if events == [] then ""
    else
      var last := events[|events| - 1];
      Utterance(events[..|events| - 1]) + Pieces(Pending(last.results, last.resultIndex), true)
  }

  /** A message the webview may send upstream: a `sendToGemini` with a
      non-empty text and no other field. */
  predicate Submittable(m: Message) {
    m.kind == SendToGemini && Truthy(m.text) && m.extra == map[]
  }

  /** What `onend` posts for the accumulated turn `acc`: one `sendToGemini`
      carrying `acc.trim()` when that is not empty, nothing otherwise. */
  function Emission(acc: string): (r: seq<Message>)
    ensures |r| <= 1
    ensures r != [] <==> Trim(acc) != ""
    ensures forall m :: m in r ==> Submittable(m) && m.text == Some(Trim(acc))
  {
    var t := Trim(acc);
    if t != "" then [Message(SendToGemini, Some(t), map[])] else []
  }

  /** `onend` posts nothing exactly when the turn is all white space, and
      otherwise posts a text that neither starts nor ends with white space
      and that trimming leaves as it is. */
  lemma EmissionIffNotBlank(acc: string)
    ensures Emission(acc) == [] <==> AllWhitespace(acc)
    ensures forall m :: m in Emission(acc) ==>
      && !IsJsWhitespace(m.text.value[0])
      && !IsJsWhitespace(m.text.value[|m.text.value| - 1])
      && Trim(m.text.value) == m.text.value
  {
    TrimEmptyIff(acc);
    TrimIdempotent(acc);
    TrimEnds(acc);
  }

  /** The status text `onerror` leaves for the engine's error code. */
  function ErrorStatus(error: string): (s: Status)
    ensures error == "no-speech" <==> s == NoSpeech
    ensures error == "audio-capture" <==> s == MicProblem
    ensures error == "not-allowed" <==> s == MicDenied
    ensures error !in {"no-speech", "audio-capture", "not-allowed"} <==> s == ErrorNamed(error)
  {
    if error == "no-speech" then NoSpeech
    else if error == "audio-capture" then MicProblem
    else if error == "not-allowed" then MicDenied
    else ErrorNamed(error)
  }

  /** The status text written when `recognition.start()` throws `name`. */
  function StartFailureStatus(name: string): (s: Status)
    ensures s == AlreadyListening <==> name == "InvalidStateError"
    ensures s != AlreadyListening ==> s == StartFailed
  {
    if name == "InvalidStateError" then AlreadyListening else StartFailed
  }

  /** The `onresult` loop: walks the entries from `resultIndex` on and
      collects the final and the interim transcripts separately. */
  method CollectTranscripts(results: seq<RecResult>, resultIndex: nat)
    returns (latestFinalPiece: string, interimTranscript: string)
    ensures latestFinalPiece == Pieces(Pending(results, resultIndex), true)
    ensures interimTranscript == Pieces(Pending(results, resultIndex), false)
  {
    latestFinalPiece, interimTranscript := "", "";
    var i := resultIndex;
    while i < |results|
      invariant resultIndex <= i
      invariant i <= |results| || i == resultIndex
      invariant i <= |results| ==> latestFinalPiece == Pieces(results[resultIndex..i], true)
      invariant i <= |results| ==> interimTranscript == Pieces(results[resultIndex..i], false)
      invariant i > |results| ==> latestFinalPiece == "" && interimTranscript == ""
    {
      assert results[resultIndex..i + 1][..i - resultIndex] == results[resultIndex..i];
      if results[i].isFinal {
        latestFinalPiece := latestFinalPiece + results[i].transcript;
      } else {
        interimTranscript := interimTranscript + results[i].transcript;
      }
      i := i + 1;
    }
    if resultIndex <= |results| {
      assert results[resultIndex..i] == results[resultIndex..];
    }
  }

  /** The webview's speech state: the variables the callbacks share, and
      what the script has written to the outside so far. */
  class Recognizer {
    /** Whether `window.speechSynthesis` exists. */
    const synthAvailable: bool
    /** `isRecording` */
    var isRecording: bool
    /** `currentFinalTranscriptForTurn` */
    var acc: string
    /** Messages posted to the extension host with `vscode.postMessage`
        (diagnostic log messages aside). */
    var outbox: seq<Message>
    /** Every text written to the status line, oldest first. */
    var statusHistory: seq<Status>
    /** Calls made on the recognition engine, oldest first. */
    var engineCalls: seq<EngineCall>
    /** Calls made on the synthesis engine, oldest first. */
    var synthCalls: seq<SynthCall>
    /** Paragraphs appended to the transcript container. */
    var transcript: seq<Line>

    /** Everything the webview has posted upstream is a submittable turn. */
    ghost predicate Valid()
      reads this
    {
      forall m :: m in outbox ==> Submittable(m)
    }

    /** The state once the listeners are attached. */
    constructor (synthAvailable: bool)
      ensures this.synthAvailable == synthAvailable
      ensures Valid()
      ensures !isRecording && acc == "" && outbox == []
      ensures statusHistory == [] && engineCalls == [] && synthCalls == [] && transcript == []
    {
      this.synthAvailable := synthAvailable;
      isRecording, acc, outbox := false, "", [];
      statusHistory, engineCalls, synthCalls, transcript := [], [], [], [];
    }

    /** `recognition.onstart`: recording begins with an empty turn. */
    method OnStart()
      requires Valid()
      modifies this`isRecording, this`acc, this`statusHistory
      ensures Valid()
      ensures isRecording && acc == ""
      ensures statusHistory == old(statusHistory) + [Listening]
    {
      isRecording := true;
      statusHistory := statusHistory + [Listening];
      acc := "";
    }

    /** `recognition.onresult`: the final pieces from `resultIndex` on are
        appended to the turn; interim pieces are only logged. */
    method OnResult(results: seq<RecResult>, resultIndex: nat)
      requires Valid()
      modifies this`acc
      ensures Valid()
      ensures acc == old(acc) + Pieces(Pending(results, resultIndex), true)
    {
      var latestFinalPiece, interimTranscript := CollectTranscripts(results, resultIndex);
      acc := acc + latestFinalPiece;
    }

    /** `stopRecordingInternal`: calls `stop()` only while recording, and
        always ends idle. An exception from `stop()` is caught and only
        logged, so it changes nothing here. */
    method StopRecordingInternal()
      requires Valid()
      modifies this`isRecording, this`engineCalls, this`statusHistory
      ensures Valid()
      ensures !isRecording
      ensures engineCalls == old(engineCalls) + (if old(isRecording) then [Stop] else [])
      ensures statusHistory == old(statusHistory) + [Idle]
    {
      if isRecording {
        engineCalls := engineCalls + [Stop];
      }
      isRecording := false;
      statusHistory := statusHistory + [Idle];
    }

    /** `startRecordingInternal`: while recording it only warns; otherwise
        it calls `start()`, and if that throws, reports the failure and
        returns to idle. A successful start changes no state: `onstart`
        does that when the engine fires it. */
    method StartRecordingInternal(outcome: StartOutcome)
      requires Valid()
      modifies this`isRecording, this`engineCalls, this`statusHistory
      ensures Valid()
      ensures old(isRecording) ==>
        isRecording && engineCalls == old(engineCalls) && statusHistory == old(statusHistory)
      ensures !old(isRecording) ==> !isRecording && engineCalls == old(engineCalls) + [Start]
      ensures !old(isRecording) ==>
        (statusHistory == old(statusHistory) +
          match outcome
          case Started => []
          case Threw(name) => [StartFailureStatus(name), Idle])
    {
      if !isRecording {
        engineCalls := engineCalls + [Start];
        match outcome
        case Started =>
        case Threw(name) =>
          statusHistory := statusHistory + [StartFailureStatus(name)];
          StopRecordingInternal();
      }
    }

    /** The record button: stops while recording, starts otherwise. */
    method Toggle(outcome: StartOutcome)
      requires Valid()
      modifies this`isRecording, this`engineCalls, this`statusHistory
      ensures Valid()
      ensures !isRecording
      ensures old(isRecording) ==>
        engineCalls == old(engineCalls) + [Stop] && statusHistory == old(statusHistory) + [Idle]
      ensures !old(isRecording) ==> engineCalls == old(engineCalls) + [Start]
      ensures !old(isRecording) ==>
        (statusHistory == old(statusHistory) +
          match outcome
          case Started => []
          case Threw(name) => [StartFailureStatus(name), Idle])
    {
      if isRecording {
        StopRecordingInternal();
      } else {
        StartRecordingInternal(outcome);
      }
    }

    /** `recognition.onerror`: writes the generic error text, replaces it
        with the specific one for a known code, then stops; the turn is
        kept for the `onend` that follows. */
    method OnError(error: string)
      requires Valid()
      modifies this`isRecording, this`engineCalls, this`statusHistory
      ensures Valid()
      ensures !isRecording
      ensures engineCalls == old(engineCalls) + (if old(isRecording) then [Stop] else [])
      ensures statusHistory == old(statusHistory) + [ErrorNamed(error)] +
        (if ErrorStatus(error) == ErrorNamed(error) then [] else [ErrorStatus(error)]) + [Idle]
    {
      statusHistory := statusHistory + [ErrorNamed(error)];
      if error == "no-speech" {
        statusHistory := statusHistory + [NoSpeech];
      } else if error == "audio-capture" {
        statusHistory := statusHistory + [MicProblem];
      } else if error == "not-allowed" {
        statusHistory := statusHistory + [MicDenied];
      }
      StopRecordingInternal();
    }

    /** `recognition.onend`: posts the trimmed turn if it is not blank,
        then clears it and stops. */
    method OnEnd()
      requires Valid()
      modifies this`acc, this`outbox, this`transcript
      modifies this`isRecording, this`engineCalls, this`statusHistory
      ensures Valid()
      ensures acc == "" && !isRecording
      ensures outbox == old(outbox) + Emission(old(acc))
      ensures transcript == old(transcript) +
        (if Trim(old(acc)) == "" then [] else [You(Trim(old(acc)))])
      ensures engineCalls == old(engineCalls) + (if old(isRecording) then [Stop] else [])
      ensures statusHistory == old(statusHistory) + [Idle]
    {
      ghost var emitted := Emission(acc);
      if Trim(acc) != "" {
        var textToSend := Trim(acc);
        transcript := transcript + [You(textToSend)];
        assert emitted == [Message(SendToGemini, Some(textToSend), map[])];
        outbox := outbox + [Message(SendToGemini, Some(textToSend), map[])];
      }
      acc := "";
      StopRecordingInternal();
    }

    /** The `message` listener: a `geminiResponse` with text is shown and
        spoken once; one without text is only warned about; other kinds are
        ignored. */
    method OnMessage(message: Message)
      requires Valid()
      modifies this`transcript, this`synthCalls
      ensures Valid()
      ensures message.kind == GeminiResponse && Truthy(message.text) ==>
        && transcript == old(transcript) + [Sky(message.text.value)]
        && synthCalls == old(synthCalls) +
             (if synthAvailable then [Cancel, Speak(message.text.value)] else [])
      ensures !(message.kind == GeminiResponse && Truthy(message.text)) ==>
        transcript == old(transcript) && synthCalls == old(synthCalls)
    {
      if message.kind == GeminiResponse {
        if Truthy(message.text) {
          transcript := transcript + [Sky(message.text.value)];
          SpeakText(message.text.value);
        }
      }
    }

    /** `speakText`: cancels whatever is being spoken, then speaks `text`. */
    method SpeakText(text: string)
      requires Valid()
      modifies this`synthCalls
      ensures Valid()
      ensures synthCalls == old(synthCalls) + (if synthAvailable then [Cancel, Speak(text)] else [])
    {
      if synthAvailable {
        synthCalls := synthCalls + [Cancel, Speak(text)];
      }
    }

    /** The utterance's `onend`: back to "Idle" unless recording. */
    method OnSpeechEnd()
      requires Valid()
      modifies this`statusHistory
      ensures Valid()
      ensures statusHistory == old(statusHistory) + (if isRecording then [] else [Idle])
    {
      if !isRecording {
        statusHistory := statusHistory + [Idle];
      }
    }

    /** The utterance's `onerror`: reported on the status line only. */
    method OnSpeechError()
      requires Valid()
      modifies this`statusHistory
      ensures Valid()
      ensures statusHistory == old(statusHistory) + [SpeakFailed]
    {
      statusHistory := statusHistory + [SpeakFailed];
    }
  }

  /** How a recognition activation comes to its `end` event. */
  datatype Ending =
    | NaturalEnd           // the engine detects the end of the utterance
    | UserStop             // the record button is pressed again
    | EngineError(error: string)

  /** The engine delivers `events` one after the other: the turn grows by
      their final text, in order. */
  method Deliver(r: Recognizer, events: seq<ResultEvent>)
    requires r.Valid()
    modifies r`acc
    ensures r.Valid()
    ensures r.acc == old(r.acc) + Utterance(events)
  {
    for k := 0 to |events|
      invariant r.Valid()
      invariant r.acc == old(r.acc) + Utterance(events[..k])
    {
      UtteranceStep(events, k);
      AppendAssoc(old(r.acc), Utterance(events[..k]), Pieces(Pending(events[k].results, events[k].resultIndex), true));
      r.OnResult(events[k].results, events[k].resultIndex);
    }
    assert events[..|events|] == events;
  }

  /** String concatenation regroups freely. */
  lemma AppendAssoc(a: string, b: string, c: string)
    ensures a + (b + c) == (a + b) + c
  {
  }

  /** One more event adds its final pieces to the final text. */
  lemma UtteranceStep(events: seq<ResultEvent>, k: nat)
    requires k < |events|
    ensures Utterance(events[..k + 1]) ==
      Utterance(events[..k]) + Pieces(Pending(events[k].results, events[k].resultIndex), true)
  {
    assert events[..k + 1][..k] == events[..k];
  }

  /** How the browser ends an activation: the ending's own handler, then
      the result events the engine still delivers for audio it had
      already captured (`onresult` does not look at `isRecording`), then
      the `end` event. The turn, late pieces included, is posted whichever
      way it ends. */
  method Finish(r: Recognizer, ending: Ending, late: seq<ResultEvent>)
    requires r.Valid() && (ending.UserStop? ==> r.isRecording)
    modifies r
    ensures r.Valid()
    ensures r.outbox == old(r.outbox) + Emission(old(r.acc) + Utterance(late))
    ensures !r.isRecording && r.statusHistory != [] && r.statusHistory[|r.statusHistory| - 1] == Idle
  {
    match ending {
      case NaturalEnd =>
      case UserStop => r.Toggle(Started);
      case EngineError(error) => r.OnError(error);
    }
    Deliver(r, late);
    r.OnEnd();
  }

  /** A whole activation as the browser drives it: the button starts the
      engine, `onstart` fires, the result events arrive, the activation
      ends one of the three ways, the engine delivers its last results,
      and `onend` fires. Whatever the events and the ending, at most one
      message is posted: the trimmed final text of all the events, when
      it is not blank. The machine always ends idle. */
  method Activation(events: seq<ResultEvent>, ending: Ending, late: seq<ResultEvent>)
    returns (sent: seq<Message>, finalStatus: Status, recording: bool)
    ensures sent == Emission(Utterance(events + late))
    ensures |sent| <= 1
    ensures finalStatus == Idle && !recording
  {
    var r := new Recognizer(true);
    r.Toggle(Started);
    r.OnStart();
    assert r.acc == "" && r.outbox == [];
    Deliver(r, events);
    assert r.acc == Utterance(events);
    UtteranceAppend(events, late);
    Finish(r, ending, late);
    sent, finalStatus, recording := r.outbox, r.statusHistory[|r.statusHistory| - 1], r.isRecording;
  }

  /** Result events are accumulated in order: the final text of two runs
      of events is the final text of the first followed by that of the
      second. */
  lemma {:induction false} UtteranceAppend(a: seq<ResultEvent>, b: seq<ResultEvent>)
    ensures Utterance(a + b) == Utterance(a) + Utterance(b)
  {
    if b != [] {
      assert (a + b)[..|a + b| - 1] == a + b[..|b| - 1];
      UtteranceAppend(a, b[..|b| - 1]);
    } else {
      assert a + b == a;
    }
  }

  /** No final entries, no final text. */
  lemma {:induction false} NoFinalPieces(rs: seq<RecResult>)
    requires forall i :: 0 <= i < |rs| ==> !rs[i].isFinal
    ensures Pieces(rs, true) == ""
  {
    if rs != [] {
      NoFinalPieces(rs[..|rs| - 1]);
    }
  }

  /** Interim results are never accumulated: an activation that receives
      only interim entries posts nothing. */
  lemma {:induction false} InterimOnlyEmitsNothing(events: seq<ResultEvent>)
    requires forall k, i :: 0 <= k < |events| && 0 <= i < |events[k].results| ==>
      !events[k].results[i].isFinal
    ensures Utterance(events) == ""
    ensures Emission(Utterance(events)) == []
  {
    if events != [] {
      var last := events[|events| - 1];
      InterimOnlyEmitsNothing(events[..|events| - 1]);
      NoFinalPieces(Pending(last.results, last.resultIndex));
    }
  }

  /** Final pieces are collected in order: the pieces of a concatenation
      are the concatenation of the pieces. */
  lemma {:induction false} PiecesAppend(a: seq<RecResult>, b: seq<RecResult>, final: bool)
    ensures Pieces(a + b, final) == Pieces(a, final) + Pieces(b, final)
  {
    if b != [] {
      assert (a + b)[..|a + b| - 1] == a + b[..|b| - 1];
      PiecesAppend(a, b[..|b| - 1], final);
    } else {
      assert a + b == a;
    }
  }
}
