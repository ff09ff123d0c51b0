/**
 * The browser speech-recognition hook: the recognizer's start, end, result and
 * error events update `isListening`, `transcript` and `error`; the hook's own
 * operations start, stop and reset. The browser recognizer is a handle that
 * records the start and stop requests made to it; whether `start()` throws is
 * an input of the start operation.
 */
module SpeechRecognition {
  import opened JsString

  const BlockedMessage: string := "Microphone access blocked. Please enable permissions."
  const StartFailedMessage: string := "Failed to start microphone."
  const ErrorPrefix: string := "Speech recognition error: "
  const AlreadyStarted: string := "already started"
  const InvalidStateError: string := "InvalidStateError"

  /** One entry of the result list: whether it is final and its first alternative's text. */
  datatype SpeechResult = SpeechResult(isFinal: bool, transcript: string)

  /** The recognizer as configured by the hook. */
  datatype Recognizer = Recognizer(lang: string, continuous: bool, interimResults: bool)

  /** A request made to the browser recognizer. */
  datatype RecognizerCall = StartCall | StopCall

  /** What `start()` did: returned, or threw an error with a name and an optional message. */
  datatype StartOutcome = Started | Threw(name: string, message: Option<string>)

  /**
   * The browser's support: neither constructor name present, a name present whose
   * value is unusable, or a usable constructor.
   */
  datatype Support = Unsupported | NameWithoutConstructor | Supported

  /** The error kinds the error handler tells apart. */
  datatype ErrorKind = PermissionDenied | NoSpeech | OtherError(code: string)

  function Classify(code: string): (k: ErrorKind)
    ensures k == PermissionDenied <==> code == "not-allowed" || code == "permission-denied"
    ensures k == NoSpeech <==> code == "no-speech"
    ensures k.OtherError? ==> k.code == code
  {
    if code == "not-allowed" || code == "permission-denied" then PermissionDenied
    else if code == "no-speech" then NoSpeech
    else OtherError(code)
  }

  /**
   * The error shown after an error event: the blocked-microphone message for a
   * permission error, the previous error for silence, and the code after a fixed
   * prefix for anything else.
   */
  function ErrorAfterEvent(code: string, previous: Option<string>): (e: Option<string>)
    ensures code == "no-speech" ==> e == previous
    ensures code != "no-speech" ==> e.Some?
    ensures code == "not-allowed" || code == "permission-denied" ==> e == Some(BlockedMessage)
    ensures Classify(code).OtherError? ==>
      |e.value| >= |ErrorPrefix| && e.value[..|ErrorPrefix|] == ErrorPrefix && e.value[|ErrorPrefix|..] == code
  {
    match Classify(code)
    case PermissionDenied => Some(BlockedMessage)
    case NoSpeech => previous
    case OtherError(c) => Some(ErrorPrefix + c)
  }

  /** Distinct unrecognised codes give distinct messages, so the message names its code. */
  lemma OtherErrorsDistinguishable(a: string, b: string, previous: Option<string>)
    requires Classify(a).OtherError? && Classify(b).OtherError? && a != b
    ensures ErrorAfterEvent(a, previous) != ErrorAfterEvent(b, previous)
  {
    var ea, eb := ErrorAfterEvent(a, previous), ErrorAfterEvent(b, previous);
    assert ea.value[|ErrorPrefix|..] == a;
    assert eb.value[|ErrorPrefix|..] == b;
  }

  /** No text that starts with the generic prefix is the blocked-microphone message. */
  lemma PrefixedIsNotBlocked(e: string)
    requires |e| >= |ErrorPrefix| && e[..|ErrorPrefix|] == ErrorPrefix
    ensures e != BlockedMessage
  {
    var blockedHead, blockedTail := "Microphone access blocked.", " Please enable permissions.";
    assert BlockedMessage == blockedHead + blockedTail;
    assert BlockedMessage[0] == blockedHead[0] == 'M';
    assert e[0] == ErrorPrefix[0] == 'S';
  }

  /**
   * The blocked-microphone message appears exactly for a permission error, or for
   * silence when it was already showing: no other code can produce it.
   */
  lemma BlockedMessageOnlyForPermission(code: string, previous: Option<string>)
    ensures ErrorAfterEvent(code, previous) == Some(BlockedMessage) <==>
      Classify(code) == PermissionDenied || (Classify(code) == NoSpeech && previous == Some(BlockedMessage))
  {
    if Classify(code).OtherError? {
      PrefixedIsNotBlocked(ErrorAfterEvent(code, previous).value);
    }
  }

  /** The in-order concatenation of every result's text, final or not. */
  function Concatenation(results: seq<SpeechResult>): string
  {
    if results == [] then "" else Concatenation(results[..|results| - 1]) + results[|results| - 1].transcript
  }

  /** Concatenation distributes over splitting the result list. */
  lemma {:induction false} ConcatenationAppend(a: seq<SpeechResult>, b: seq<SpeechResult>)
    ensures Concatenation(a + b) == Concatenation(a) + Concatenation(b)
    decreases |b|
  {
    if b == [] {
      assert a + b == a;
    } else {
      var b' := b[..|b| - 1];
      assert (a + b)[..|a + b| - 1] == a + b';
      ConcatenationAppend(a, b');
    }
  }

  /** Whether a result is final never changes the transcript. */
  lemma {:induction false} ConcatenationIgnoresFinality(results: seq<SpeechResult>, flags: seq<bool>)
    requires |flags| == |results|
    ensures Concatenation(seq(|results|, i requires 0 <= i < |results| => results[i].(isFinal := flags[i])))
            == Concatenation(results)
    decreases |results|
  {
    if results != [] {
      var n := |results|;
      var relabelled := seq(n, i requires 0 <= i < n => results[i].(isFinal := flags[i]));
      var front := results[..n - 1];
      assert relabelled[..n - 1] == seq(n - 1, i requires 0 <= i < n - 1 => front[i].(isFinal := flags[..n - 1][i]));
      ConcatenationIgnoresFinality(front, flags[..n - 1]);
    }
  }

  /** The result loop of onresult: both branches append the result's text. */
  method AssembleTranscript(results: seq<SpeechResult>) returns (current: string)
    ensures current == Concatenation(results)
  {
    current := "";
    var i := 0;
    while i < |results|
      invariant 0 <= i <= |results|
      invariant current == Concatenation(results[..i])
    {
      var result := results[i];
      if result.isFinal {
        current := current + result.transcript;
      } else {
        current := current + result.transcript;
      }
      assert results[..i + 1][..i] == results[..i];
      i := i + 1;
    }
    assert results[..i] == results;
  }

  class SpeechRecognitionHook {
    var isListening: bool
    var transcript: string
    var hasRecognitionSupport: bool
    var error: Option<string>
    var recognizer: Option<Recognizer>
    /** The requests made to the browser recognizer, in order. */
    var calls: seq<RecognizerCall>

    constructor ()
      ensures !isListening && transcript == "" && !hasRecognitionSupport
      ensures error == None && recognizer == None && calls == []
    {
      isListening := false;
      transcript := "";
      hasRecognitionSupport := false;
      error := None;
      recognizer := None;
      calls := [];
    }

    /**
     * The setup effect for a language and the disabled flag. Disabled: a listening
     * recognizer is stopped and listening cleared, nothing is created. Enabled: with a
     * usable constructor a continuous, interim-result recognizer for the language
     * replaces the held one; without support the support flag is cleared.
     */
    method Setup(lang: string, isDisabled: bool, support: Support)
      modifies this
      ensures transcript == old(transcript) && error == old(error)
      ensures isDisabled ==>
        && hasRecognitionSupport == old(hasRecognitionSupport) && recognizer == old(recognizer)
        && (if old(recognizer).Some? && old(isListening)
            then !isListening && calls == old(calls) + [StopCall]
            else isListening == old(isListening) && calls == old(calls))
    ensures !isDisabled ==>
        && isListening == old(isListening) && calls == old(calls)
        && hasRecognitionSupport == (support != Unsupported)
        && recognizer == (if support == Supported then Some(Recognizer(lang, true, true)) else old(recognizer))
    {
      if isDisabled {
        if recognizer.Some? && isListening {
          calls := calls + [StopCall];
          isListening := false;
        }
        return;
      }
      if support != Unsupported {
        hasRecognitionSupport := true;
        if support == NameWithoutConstructor {
          return;
        }
        recognizer := Some(Recognizer(lang, true, true));
      } else {
        hasRecognitionSupport := false;
      }
    }

    /** The effect's cleanup: stop the held recognizer; the hook's state is untouched. */
    method Cleanup()
      modifies this
      ensures calls == old(calls) + (if recognizer.Some? then [StopCall] else [])
      ensures isListening == old(isListening) && transcript == old(transcript)
      ensures hasRecognitionSupport == old(hasRecognitionSupport) && error == old(error)
      ensures recognizer == old(recognizer)
    {
      if recognizer.Some? {
        calls := calls + [StopCall];
      }
    }

    /** onstart: listening, with no error. */
    method OnStart()
      modifies this
      ensures isListening && error == None
      ensures transcript == old(transcript) && hasRecognitionSupport == old(hasRecognitionSupport)
      ensures recognizer == old(recognizer) && calls == old(calls)
    {
      isListening := true;
      error := None;
    }

    /** onend: no longer listening. */
    method OnEnd()
      modifies this
      ensures !isListening
      ensures transcript == old(transcript) && error == old(error)
      ensures hasRecognitionSupport == old(hasRecognitionSupport)
      ensures recognizer == old(recognizer) && calls == old(calls)
    {
      isListening := false;
    }

    /** onresult: the transcript becomes the concatenation of every result so far. */
    method OnResult(results: seq<SpeechResult>)
      modifies this
      ensures transcript == Concatenation(results)
      ensures isListening == old(isListening) && error == old(error)
      ensures hasRecognitionSupport == old(hasRecognitionSupport)
      ensures recognizer == old(recognizer) && calls == old(calls)
    {
      transcript := AssembleTranscript(results);
    }

    /** onerror: the error as classified; listening stops whatever the code. */
    method OnError(code: string)
      modifies this
      ensures error == ErrorAfterEvent(code, old(error))
      ensures !isListening
      ensures transcript == old(transcript) && hasRecognitionSupport == old(hasRecognitionSupport)
      ensures recognizer == old(recognizer) && calls == old(calls)
    {
      if code == "not-allowed" || code == "permission-denied" {
        error := Some(BlockedMessage);
      } else if code == "no-speech" {
      } else {
        error := Some(ErrorPrefix + code);
      }
      isListening := false;
    }

    /**
     * startListening: clear the error, then ask the held recognizer to start. An
     * "already started" failure marks the hook listening; any other failure sets
     * the start-failure message. Without a recognizer only the error is cleared.
     */
    method StartListening(outcome: StartOutcome)
      modifies this
      ensures transcript == old(transcript) && hasRecognitionSupport == old(hasRecognitionSupport)
      ensures recognizer == old(recognizer)
      ensures recognizer.None? ==> calls == old(calls) && error == None && isListening == old(isListening)
      ensures recognizer.Some? ==> calls == old(calls) + [StartCall]
      ensures recognizer.Some? && outcome.Started? ==> error == None && isListening == old(isListening)
      ensures recognizer.Some? && outcome.Threw? ==>
        var alreadyStarted := outcome.name == InvalidStateError
                              || (outcome.message.Some? && Includes(outcome.message.value, AlreadyStarted));
        if alreadyStarted then isListening && error == None
        else error == Some(StartFailedMessage) && isListening == old(isListening)
    {
      error := None;
      if recognizer.Some? {
        calls := calls + [StartCall];
        if outcome.Threw? {
          if outcome.name == InvalidStateError
             || (outcome.message.Some? && Includes(outcome.message.value, AlreadyStarted)) {
            isListening := true;
          } else {
            error := Some(StartFailedMessage);
          }
        }
      }
    }

    /** stopListening: ask the held recognizer to stop; a thrown error is swallowed. */
    method StopListening()
      modifies this
      ensures calls == old(calls) + (if recognizer.Some? then [StopCall] else [])
      ensures isListening == old(isListening) && transcript == old(transcript)
      ensures hasRecognitionSupport == old(hasRecognitionSupport) && error == old(error)
      ensures recognizer == old(recognizer)
    {
      if recognizer.Some? {
        calls := calls + [StopCall];
      }
    }

    /** resetTranscript: the transcript is emptied and nothing else changes. */
    method ResetTranscript()
      modifies this
      ensures transcript == ""
      ensures isListening == old(isListening) && error == old(error)
      ensures hasRecognitionSupport == old(hasRecognitionSupport)
      ensures recognizer == old(recognizer) && calls == old(calls)
    {
      transcript := "";
    }
  }
}
