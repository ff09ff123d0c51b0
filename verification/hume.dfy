/**
 * The Hume voice-session hook. Its state is the UI status, the message list, the
 * live transcript, the microphone and speaker flags (the speaker flag kept twice,
 * as React state and as a ref read by the message handler), the last error and
 * the three handles: socket, recorder and player. Each operation and socket
 * callback is a transition function on `State`; `HumeHook` is the hook itself,
 * whose methods update its fields as those functions say.
 *
 * The SDK objects are values: a socket is an identity, a recorder has a state, a
 * player has a queue of audio chunks. Every await is one atomic step whose
 * outcome is a parameter, and `Date.now()` is the parameter `now`.
 */
module Hume {
  import opened JsString

  const MissingKeyError: string := "HUME_API_KEY not found in environment variables"
  const ConnectionError: string := "Connection error"
  const MicrophoneError: string := "Microphone error"

  datatype Status = Idle | Connecting | Active | Error

  datatype Role = User | Assistant

  datatype Message = Message(role: Role, text: string, timestamp: int)

  datatype RecorderState = Inactive | Recording | Paused

  /** The MediaRecorder held in `recorderRef`. */
  datatype Recorder = Recorder(state: RecorderState)

  /** One `audio_output` payload. */
  datatype AudioChunk = AudioChunk(data: string)

  /** The web-audio player held in `playerRef`: the audio queued for playback. */
  datatype Player = Player(queue: seq<AudioChunk>)

  /** The chat socket held in `socketRef`. */
  datatype Socket = Socket(id: nat)

  /** A socket message, by its `type`; `content` is `message?.content`. */
  datatype ServerMessage =
    | AudioOutput(chunk: AudioChunk)
    | UserMessage(content: Option<string>, interim: bool)
    | AssistantMessage(content: Option<string>)
    | UserInterruption
    | Unknown(kind: string)

  /** What `connect` did: returned a socket, or threw with a message. */
  datatype ConnectOutcome = Connected(socket: Socket) | ConnectThrew(message: Option<string>)

  /** What starting audio capture did: a recording recorder, or a throw with a message. */
  datatype CaptureOutcome = Captured | CaptureFailed(message: Option<string>)

  /** The optional argument of startSession. */
  datatype StartOptions = StartOptions(configId: Option<string>, voiceId: Option<string>, language: Option<string>)

  /** The connect options handed to the SDK; None means the key is absent. */
  datatype ConnectRequest = ConnectRequest(configId: Option<string>, voiceId: Option<string>)

  datatype State = State(
    status: Status,
    messages: seq<Message>,
    liveTranscript: string,
    isMicMuted: bool,
    isSpeakerMuted: bool,
    speakerMutedRef: bool,
    error: Option<string>,
    socket: Option<Socket>,
    recorder: Option<Recorder>,
    player: Option<Player>,
    /** The sockets endSession has closed, in order. */
    closed: seq<Socket>)

  /**
   * What every reachable state satisfies: a muted microphone holds no recorder, and
   * the speaker flag's state and ref agree.
   */
  predicate Invariant(s: State)
  {
    (s.isMicMuted ==> s.recorder.None?) && s.isSpeakerMuted == s.speakerMutedRef
  }

  /** The first render: idle, no messages, microphone muted, speaker on, no handles. */
  function Initial(): (s: State)
    ensures Invariant(s)
    ensures s.status == Idle && s.isMicMuted && !s.isSpeakerMuted
    ensures s.socket.None? && s.recorder.None? && s.player.None? && s.messages == []
    ensures s.error == None && s.liveTranscript == "" && s.closed == []
  {
    State(Idle, [], "", true, false, false, None, None, None, None, [])
  }

  /** The connect options: a truthy configId from the caller, else from the environment; a voiceId only when given. */
  function ConnectOptions(options: Option<StartOptions>, envConfigId: Option<string>): (c: ConnectRequest)
    ensures c.configId.Some? ==> c.configId.value != ""
    ensures options.Some? && Truthy(options.value.configId) ==> c.configId == options.value.configId
    ensures !(options.Some? && Truthy(options.value.configId)) ==>
      c.configId == (if Truthy(envConfigId) then envConfigId else None)
    ensures c.voiceId.Some? <==> options.Some? && Truthy(options.value.voiceId)
    ensures c.voiceId.Some? ==> c.voiceId == options.value.voiceId
  {
    var configId := if options.Some? && Truthy(options.value.configId) then options.value.configId else envConfigId;
    var voiceId := if options.Some? && Truthy(options.value.voiceId) then options.value.voiceId else None;
    ConnectRequest(if Truthy(configId) then configId else None, voiceId)
  }

  /** The language option is never passed on to the SDK. */
  lemma LanguageIsNotForwarded(options: StartOptions, language: Option<string>, envConfigId: Option<string>)
    ensures ConnectOptions(Some(options.(language := language)), envConfigId) == ConnectOptions(Some(options), envConfigId)
  {
  }

  /** startAudioCapture: a recording recorder and an unmuted microphone, or the thrown message as the error. */
  function StartCapture(s: State, outcome: CaptureOutcome): (r: State)
    ensures outcome.Captured? ==> r.recorder == Some(Recorder(Recording)) && !r.isMicMuted && r.error == s.error
    ensures outcome.CaptureFailed? ==>
      r.error == outcome.message && r.recorder == s.recorder && r.isMicMuted == s.isMicMuted
    ensures r.(recorder := s.recorder, isMicMuted := s.isMicMuted, error := s.error) == s
    ensures Invariant(s) ==> Invariant(r)
  {
    match outcome
    case Captured => s.(recorder := Some(Recorder(Recording)), isMicMuted := false)
    case CaptureFailed(message) => s.(error := message)
  }

  /** stopAudioCapture: only a held recorder that is not inactive is released, muting the microphone. */
  function StopCapture(s: State): (r: State)
    ensures s.recorder.Some? && s.recorder.value.state != Inactive ==> r.recorder.None? && r.isMicMuted
    ensures !(s.recorder.Some? && s.recorder.value.state != Inactive) ==> r == s
    ensures r.(recorder := s.recorder, isMicMuted := s.isMicMuted) == s
    ensures Invariant(s) ==> Invariant(r)
  {
    if s.recorder.Some? && s.recorder.value.state != Inactive then s.(recorder := None, isMicMuted := true) else s
  }

  /**
   * startSession: a held socket makes it a no-op. Otherwise the status is Connecting
   * with no error; a missing key or a throwing connect ends in Error with the message
   * and no socket; a connected socket is held.
   */
  function Start(s: State, apiKey: Option<string>, outcome: ConnectOutcome): (r: State)
    ensures s.socket.Some? ==> r == s
    ensures s.socket.None? ==> (r.socket.Some? <==> Truthy(apiKey) && outcome.Connected?)
    ensures s.socket.None? ==> r.status == (if r.socket.Some? then Connecting else Error)
    ensures s.socket.None? && !Truthy(apiKey) ==> r.error == Some(MissingKeyError)
    ensures s.socket.None? && Truthy(apiKey) ==>
      r.error == (if outcome.ConnectThrew? then outcome.message else None)
    ensures s.socket.None? && Truthy(apiKey) && outcome.Connected? ==> r.socket == Some(outcome.socket)
    ensures r.(status := s.status, error := s.error, socket := s.socket) == s
    ensures Invariant(s) ==> Invariant(r)
  {
    if s.socket.Some? then s
    else if !Truthy(apiKey) then s.(status := Error, error := Some(MissingKeyError))
    else match outcome
      case ConnectThrew(message) => s.(status := Error, error := message)
      case Connected(socket) => s.(status := Connecting, error := None, socket := Some(socket))
  }

  /**
   * handleOpen: Active, then a fresh player is initialized and held only if its
   * `init()` resolves (`playerReady`); a rejected init leaves the held player as it
   * was. Capture is not started.
   */
  function Open(s: State, playerReady: bool): (r: State)
    ensures r.status == Active
    ensures r.player == if playerReady then Some(Player([])) else s.player
    ensures r.(status := s.status, player := s.player) == s
    ensures Invariant(s) ==> Invariant(r)
  {
    var active := s.(status := Active);
    if playerReady then active.(player := Some(Player([]))) else active
  }

  /** The player after `stop()`: playback halted, nothing queued. */
  function Stopped(p: Option<Player>): (q: Option<Player>)
    ensures q.Some? <==> p.Some?
    ensures q.Some? ==> q.value.queue == []
  {
    if p.Some? then Some(Player([])) else None
  }

  /** handleMessage: dispatch on the message type. */
  function Dispatch(s: State, msg: ServerMessage, now: int): (r: State)
    ensures s.messages <= r.messages && |r.messages| <= |s.messages| + 1
    ensures r.(messages := s.messages, liveTranscript := s.liveTranscript, player := s.player) == s
    ensures Invariant(s) ==> Invariant(r)
  {
    match msg
    case AudioOutput(chunk) =>
      if s.player.Some? && !s.speakerMutedRef then s.(player := Some(Player(s.player.value.queue + [chunk]))) else s
    case UserMessage(content, interim) =>
      if !Truthy(content) then s
      else if interim then s.(liveTranscript := content.value)
      else s.(liveTranscript := "", messages := s.messages + [Message(User, content.value, now)])
    case AssistantMessage(content) =>
      if Truthy(content) then s.(messages := s.messages + [Message(Assistant, content.value, now)]) else s
    case UserInterruption => s.(player := Stopped(s.player))
    case Unknown(_) => s
  }

  /** handleError: Error, with the fixed connection message. */
  function OnError(s: State): (r: State)
    ensures r.status == Error && r.error == Some(ConnectionError)
    ensures r.(status := s.status, error := s.error) == s
    ensures Invariant(s) ==> Invariant(r)
  {
    s.(status := Error, error := Some(ConnectionError))
  }

  /** handleClose: Idle, recorder and player released; the socket is left held. */
  function OnClose(s: State): (r: State)
    ensures r.status == Idle && r.recorder.None? && r.player.None? && r.socket == s.socket
    ensures r.(status := s.status, recorder := s.recorder, player := s.player) == s
    ensures Invariant(s) ==> Invariant(r)
  {
    s.(status := Idle, recorder := None, player := None)
  }

  /** endSession: stop capture, close and drop the socket, Idle with no messages. */
  function End(s: State): (r: State)
    ensures r.status == Idle && r.socket.None? && r.messages == []
    ensures r.closed == s.closed + (if s.socket.Some? then [s.socket.value] else [])
    ensures r.error == s.error && r.liveTranscript == s.liveTranscript && r.player == s.player
    ensures r.isSpeakerMuted == s.isSpeakerMuted && r.speakerMutedRef == s.speakerMutedRef
    ensures (r.recorder, r.isMicMuted) == (StopCapture(s).recorder, StopCapture(s).isMicMuted)
    ensures Invariant(s) ==> Invariant(r)
  {
    var t := StopCapture(s);
    var closed := if t.socket.Some? then t.closed + [t.socket.value] else t.closed;
    t.(socket := None, closed := closed, status := Idle, messages := [])
  }

  /** toggleMic: without a socket nothing; a muted microphone starts capture, an unmuted one stops it. */
  function MicToggled(s: State, capture: CaptureOutcome): (r: State)
    ensures s.socket.None? ==> r == s
    ensures s.socket.Some? ==> r == if s.isMicMuted then StartCapture(s, capture) else StopCapture(s)
    ensures Invariant(s) ==> Invariant(r)
  {
    if s.socket.None? then s
    else if s.isMicMuted then StartCapture(s, capture)
    else StopCapture(s)
  }

  /** toggleSpeaker: ref and state take the same new value; muting stops the player. */
  function SpeakerToggled(s: State): (r: State)
    ensures r.speakerMutedRef == !s.speakerMutedRef && r.isSpeakerMuted == r.speakerMutedRef
    ensures r.player == if r.speakerMutedRef then Stopped(s.player) else s.player
    ensures r.(isSpeakerMuted := s.isSpeakerMuted, speakerMutedRef := s.speakerMutedRef, player := s.player) == s
    ensures Invariant(s) ==> Invariant(r)
  {
    var newValue := !s.speakerMutedRef;
    s.(speakerMutedRef := newValue, isSpeakerMuted := newValue, player := if newValue then Stopped(s.player) else s.player)
  }

  /** The recorder's onerror: the fixed microphone message. */
  function RecorderFailed(s: State): (r: State)
    ensures r.error == Some(MicrophoneError) && r.(error := s.error) == s
    ensures Invariant(s) ==> Invariant(r)
  {
    s.(error := Some(MicrophoneError))
  }

  /** The browser stops the held recorder on its own: its state becomes inactive. */
  function RecorderHalted(s: State): (r: State)
    ensures r.recorder == if s.recorder.Some? then Some(Recorder(Inactive)) else None
    ensures r.(recorder := s.recorder) == s
    ensures Invariant(s) ==> Invariant(r)
  {
    if s.recorder.Some? then s.(recorder := Some(Recorder(Inactive))) else s
  }

  // Properties of the transitions.

  /** After the socket closes the status is Idle, yet startSession still does nothing: the socket is never cleared. */
  lemma StartAfterCloseIsNoOp(s: State, apiKey: Option<string>, outcome: ConnectOutcome)
    requires s.socket.Some?
    ensures OnClose(s).status == Idle
    ensures Start(OnClose(s), apiKey, outcome) == OnClose(s)
  {
  }

  /** A failed start leaves Error, the message and no socket. */
  lemma FailedStartHoldsNoSocket(s: State, apiKey: Option<string>, message: Option<string>)
    requires s.socket.None?
    ensures var r := Start(s, apiKey, ConnectThrew(message));
            r.status == Error && r.socket.None?
            && r.error == (if Truthy(apiKey) then message else Some(MissingKeyError))
  {
  }

  /** Connecting and opening leaves the microphone muted with no recorder, and a player ready. */
  lemma OpenLeavesMicMuted(apiKey: string, socket: Socket)
    requires apiKey != ""
    ensures var r := Open(Start(Initial(), Some(apiKey), Connected(socket)), true);
            r.status == Active && r.isMicMuted && r.recorder.None? && r.player == Some(Player([]))
            && r.socket == Some(socket) && r.error == None
  {
  }

  /**
   * When the player's init is rejected on the first open, the session still shows
   * Active but holds no player, so every audio output is dropped.
   */
  lemma FailedPlayerInitDropsAudio(apiKey: string, socket: Socket, chunk: AudioChunk, now: int)
    requires apiKey != ""
    ensures var r := Open(Start(Initial(), Some(apiKey), Connected(socket)), false);
            r.status == Active && r.player.None? && Dispatch(r, AudioOutput(chunk), now) == r
  {
  }

  /** From a consistent state with a socket, unmuting and muting again ends muted with no recorder held. */
  lemma {:induction false} TwoTogglesEndMuted(s: State, second: CaptureOutcome)
    requires Invariant(s) && s.socket.Some? && s.isMicMuted
    ensures var r := MicToggled(MicToggled(s, Captured), second);
            r.isMicMuted && r.recorder.None? && Invariant(r)
  {
    var t := MicToggled(s, Captured);
    assert t == StartCapture(s, Captured);
    assert !t.isMicMuted && t.recorder == Some(Recorder(Recording)) && t.socket == s.socket;
    assert MicToggled(t, second) == StopCapture(t);
  }

  /** Toggling the speaker twice restores it, with ref and state still in step. */
  lemma ToggleSpeakerTwice(s: State)
    requires Invariant(s)
    ensures var r := SpeakerToggled(SpeakerToggled(s));
            r.isSpeakerMuted == s.isSpeakerMuted && r.speakerMutedRef == r.isSpeakerMuted
  {
  }

  /** Audio is queued only when a player exists and the speaker is on. */
  lemma AudioQueuedOnlyWhenAudible(s: State, chunk: AudioChunk, now: int)
    ensures var r := Dispatch(s, AudioOutput(chunk), now);
            r.player != s.player <==> s.player.Some? && !s.speakerMutedRef
    ensures var r := Dispatch(s, AudioOutput(chunk), now);
            r.player != s.player ==> r.player.value.queue == s.player.value.queue + [chunk]
  {
    if s.player.Some? && !s.speakerMutedRef {
      var q := s.player.value.queue;
      assert |q + [chunk]| != |q|;
    }
  }

  /** A user message with no content changes nothing. */
  lemma EmptyUserMessageIgnored(s: State, content: Option<string>, interim: bool, now: int)
    requires !Truthy(content)
    ensures Dispatch(s, UserMessage(content, interim), now) == s
  {
  }

  /** An interim user message only replaces the live transcript. */
  lemma InterimUserMessage(s: State, text: string, now: int)
    requires text != ""
    ensures Dispatch(s, UserMessage(Some(text), true), now) == s.(liveTranscript := text)
  {
  }

  /** A final user message clears the live transcript and appends exactly one user message. */
  lemma FinalUserMessage(s: State, text: string, now: int)
    requires text != ""
    ensures var r := Dispatch(s, UserMessage(Some(text), false), now);
            r.liveTranscript == "" && r.messages == s.messages + [Message(User, text, now)]
            && r.player == s.player
  {
  }

  /** An assistant message with content appends exactly one assistant message; without content nothing. */
  lemma AssistantMessageAppends(s: State, content: Option<string>, now: int)
    ensures var r := Dispatch(s, AssistantMessage(content), now);
            r == if Truthy(content) then s.(messages := s.messages + [Message(Assistant, content.value, now)]) else s
  {
  }

  /** An interruption stops a held player and touches nothing else; an unknown type changes nothing. */
  lemma InterruptionAndUnknown(s: State, kind: string, now: int)
    ensures Dispatch(s, UserInterruption, now) == s.(player := Stopped(s.player))
    ensures Dispatch(s, Unknown(kind), now) == s
  {
  }

  // The hook as an event machine.

  /** Every event the hook reacts to, with the outcome of whatever it awaits. */
  datatype Event =
    | StartSessionEvent(apiKey: Option<string>, outcome: ConnectOutcome)
    | OpenEvent(playerReady: bool)
    | MessageEvent(msg: ServerMessage, now: int)
    | ErrorEvent
    | CloseEvent
    | EndSessionEvent
    | ToggleMicEvent(capture: CaptureOutcome)
    | ToggleSpeakerEvent
    | RecorderErrorEvent
    | RecorderHaltedEvent

  function Step(s: State, e: Event): (r: State)
    ensures Invariant(s) ==> Invariant(r)
  {
    match e
    case StartSessionEvent(apiKey, outcome) => Start(s, apiKey, outcome)
    case OpenEvent(playerReady) => Open(s, playerReady)
    case MessageEvent(msg, now) => Dispatch(s, msg, now)
    case ErrorEvent => OnError(s)
    case CloseEvent => OnClose(s)
    case EndSessionEvent => End(s)
    case ToggleMicEvent(capture) => MicToggled(s, capture)
    case ToggleSpeakerEvent => SpeakerToggled(s)
    case RecorderErrorEvent => RecorderFailed(s)
    case RecorderHaltedEvent => RecorderHalted(s)
  }

  /** The state after a sequence of events, in order. */
  function Run(s: State, events: seq<Event>): State
    decreases |events|
  {
    if events == [] then s else Run(Step(s, events[0]), events[1..])
  }

  /** Every state reachable from a consistent one is consistent; in particular every state reachable from the first render. */
  lemma {:induction false} RunKeepsInvariant(s: State, events: seq<Event>)
    requires Invariant(s)
    ensures Invariant(Run(s, events))
    decreases |events|
  {
    if events != [] {
      RunKeepsInvariant(Step(s, events[0]), events[1..]);
    }
  }

  /** Without endSession, messages are only ever appended: earlier ones are kept, in order. */
  lemma {:induction false} MessagesOnlyGrow(s: State, events: seq<Event>)
    requires forall i :: 0 <= i < |events| ==> !events[i].EndSessionEvent?
    ensures s.messages <= Run(s, events).messages
    decreases |events|
  {
    if events != [] {
      var t := Step(s, events[0]);
      assert s.messages <= t.messages;
      MessagesOnlyGrow(t, events[1..]);
    }
  }

  /** Once a socket is held, only endSession lets go of it: closing, errors and restarts keep it. */
  lemma {:induction false} SocketHeldUntilEnd(s: State, events: seq<Event>)
    requires s.socket.Some?
    requires forall i :: 0 <= i < |events| ==> !events[i].EndSessionEvent?
    ensures Run(s, events).socket == s.socket
    decreases |events|
  {
    if events != [] {
      var t := Step(s, events[0]);
      assert t.socket == s.socket;
      SocketHeldUntilEnd(t, events[1..]);
    }
  }

  /** The hook: its fields are the state, updated in place by its operations and callbacks. */
  class HumeHook {
    var status: Status
    var messages: seq<Message>
    var liveTranscript: string
    var isMicMuted: bool
    var isSpeakerMuted: bool
    var speakerMutedRef: bool
    var error: Option<string>
    var socket: Option<Socket>
    var recorder: Option<Recorder>
    var player: Option<Player>
    var closed: seq<Socket>

    function Snapshot(): State
      reads this
    {
      State(status, messages, liveTranscript, isMicMuted, isSpeakerMuted, speakerMutedRef,
            error, socket, recorder, player, closed)
    }

    predicate Valid()
      reads this
    {
      Invariant(Snapshot())
    }

    constructor ()
      ensures Snapshot() == Initial() && Valid()
    {
      status := Idle;
      messages := [];
      liveTranscript := "";
      isMicMuted := true;
      isSpeakerMuted := false;
      speakerMutedRef := false;
      error := None;
      socket := None;
      recorder := None;
      player := None;
      closed := [];
    }

    /**
     * startSession. Returns the connect options handed to the SDK, when connect is
     * reached; `outcome` is what connect did with them.
     */
    method StartSession(options: Option<StartOptions>, apiKey: Option<string>, envConfigId: Option<string>,
                        outcome: ConnectOutcome)
        returns (request: Option<ConnectRequest>)
      requires Valid()
      modifies this
      ensures Valid()
      ensures Snapshot() == Start(old(Snapshot()), apiKey, outcome)
      ensures request == if old(socket).None? && Truthy(apiKey) then Some(ConnectOptions(options, envConfigId)) else None
    {
      request := None;
      if socket.Some? {
        return;
      }
      status := Connecting;
      error := None;
      if !Truthy(apiKey) {
        error := Some(MissingKeyError);
        status := Error;
        return;
      }
      request := Some(ConnectOptions(options, envConfigId));
      match outcome
      case ConnectThrew(message) =>
        error := message;
        status := Error;
      case Connected(s) =>
        socket := Some(s);
    }

    method StartAudioCapture(outcome: CaptureOutcome)
      requires Valid()
      modifies this
      ensures Valid()
      ensures Snapshot() == StartCapture(old(Snapshot()), outcome)
    {
      match outcome
      case Captured =>
        recorder := Some(Recorder(Recording));
        isMicMuted := false;
      case CaptureFailed(message) =>
        error := message;
    }

    method StopAudioCapture()
      requires Valid()
      modifies this
      ensures Valid()
      ensures Snapshot() == StopCapture(old(Snapshot()))
    {
      if recorder.Some? && recorder.value.state != Inactive {
        recorder := None;
        isMicMuted := true;
      }
    }

    /** `playerReady` says whether the new player's `init()` resolved. */
    method HandleOpen(playerReady: bool)
      requires Valid()
      modifies this
      ensures Valid()
      ensures Snapshot() == Open(old(Snapshot()), playerReady)
    {
      status := Active;
      if playerReady {
        player := Some(Player([]));
      }
    }

    method HandleMessage(msg: ServerMessage, now: int)
      requires Valid()
      modifies this
      ensures Valid()
      ensures Snapshot() == Dispatch(old(Snapshot()), msg, now)
    {
      match msg
      case AudioOutput(chunk) =>
        if player.Some? && !speakerMutedRef {
          player := Some(Player(player.value.queue + [chunk]));
        }
      case UserMessage(content, interim) =>
        if Truthy(content) {
          if interim {
            liveTranscript := content.value;
          } else {
            liveTranscript := "";
            messages := messages + [Message(User, content.value, now)];
          }
        }
      case AssistantMessage(content) =>
        if Truthy(content) {
          messages := messages + [Message(Assistant, content.value, now)];
        }
      case UserInterruption =>
        if player.Some? {
          player := Some(Player([]));
        }
      case Unknown(_) =>
    }

    method HandleError()
      requires Valid()
      modifies this
      ensures Valid()
      ensures Snapshot() == OnError(old(Snapshot()))
    {
      error := Some(ConnectionError);
      status := Error;
    }

    method HandleClose()
      requires Valid()
      modifies this
      ensures Valid()
      ensures Snapshot() == OnClose(old(Snapshot()))
    {
      status := Idle;
      recorder := None;
      player := None;
    }

    method EndSession()
      requires Valid()
      modifies this
      ensures Valid()
      ensures Snapshot() == End(old(Snapshot()))
    {
      StopAudioCapture();
      if socket.Some? {
        closed := closed + [socket.value];
        socket := None;
      }
      status := Idle;
      messages := [];
    }

    method ToggleMic(capture: CaptureOutcome)
      requires Valid()
      modifies this
      ensures Valid()
      ensures Snapshot() == MicToggled(old(Snapshot()), capture)
    {
      if socket.None? {
        return;
      }
      if isMicMuted {
        StartAudioCapture(capture);
      } else {
        StopAudioCapture();
      }
    }

    method ToggleSpeaker()
      requires Valid()
      modifies this
      ensures Valid()
      ensures Snapshot() == SpeakerToggled(old(Snapshot()))
    {
      var newValue := !speakerMutedRef;
      speakerMutedRef := newValue;
      isSpeakerMuted := newValue;
      if player.Some? && newValue {
        player := Some(Player([]));
      }
    }

    method OnRecorderError()
      requires Valid()
      modifies this
      ensures Valid()
      ensures Snapshot() == RecorderFailed(old(Snapshot()))
    {
      error := Some(MicrophoneError);
    }

    method OnRecorderHalted()
      requires Valid()
      modifies this
      ensures Valid()
      ensures Snapshot() == RecorderHalted(old(Snapshot()))
    {
      if recorder.Some? {
        recorder := Some(Recorder(Inactive));
      }
    }
  }
}
