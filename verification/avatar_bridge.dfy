/**
 * The avatar component's audio bridge: the agent's audio track is tapped by a
 * 4096-sample mono script processor whose handler converts each float frame to
 * 16-bit PCM and forwards it to the lip-sync client, when that client exists.
 * Samples are real numbers here; the Int16Array store is truncation toward
 * zero followed by ECMAScript's ToInt16 wrap-around.
 */
module AvatarBridge {
  import opened JsString

  /** 0x8000: the scale for negative samples. */
  const NegativeScale: real := 32768.0
  /** 0x7FFF: the scale for non-negative samples. */
  const PositiveScale: real := 32767.0
  const BufferSize: nat := 4096
  const InputChannels: nat := 1
  const OutputChannels: nat := 1

  const Initializing: string := "Initializing..."
  const SimliInitFailed: string := "Simli Init Failed"
  const StartingAvatar: string := "Starting Avatar..."
  const ConnectingToAgent: string := "Connecting to Agent..."
  const ConnectionFailed: string := "Connection Failed"
  const AudioKind: string := "audio"

  /** A value an Int16Array element can hold. */
  type Int16 = x: int | -32768 <= x <= 32767

  /** Math.max(-1, Math.min(1, x)). */
  function Clamp(x: real): (s: real)
    ensures -1.0 <= s <= 1.0
    ensures -1.0 <= x <= 1.0 ==> s == x
    ensures x < -1.0 ==> s == -1.0
    ensures 1.0 < x ==> s == 1.0
  {
    var upper := if 1.0 <= x then 1.0 else x;
    if -1.0 >= upper then -1.0 else upper
  }

  /** `s < 0 ? s * 0x8000 : s * 0x7FFF`. */
  function Scale(s: real): real
  {
    if s < 0.0 then s * NegativeScale else s * PositiveScale
  }

  /** Truncation toward zero. */
  function TruncateTowardZero(r: real): (n: int)
    ensures r >= 0.0 ==> 0 <= n && n as real <= r < n as real + 1.0
    ensures r < 0.0 ==> n <= 0 && n as real - 1.0 < r <= n as real
  {
    if r >= 0.0 then r.Floor else -((-r).Floor)
  }

  /** ECMAScript ToInt16 of an integer: reduce modulo 2^16 into [-32768, 32767]. */
  function ToInt16(n: int): (v: Int16)
    ensures -32768 <= n <= 32767 ==> v == n
    ensures (v - n) % 65536 == 0
  {
    var m := n % 65536;
    if m >= 32768 then m - 65536 else m
  }

  /** One sample of the frame loop: clamp, scale, store into an Int16Array slot. */
  function ConvertSample(x: real): (v: Int16)
    ensures x < 0.0 ==> v <= 0
    ensures x >= 0.0 ==> v >= 0
    ensures x >= 1.0 ==> v == 32767
    ensures x <= -1.0 ==> v == -32768
    ensures -1.0 <= x <= 1.0 ==> v == TruncateTowardZero(Scale(x))
  {
    var scaled := Scale(Clamp(x));
    assert -32768.0 <= scaled <= 32767.0;
    ToInt16(TruncateTowardZero(scaled))
  }

  /** The three reference points: 1.5, -1.5 and 0. */
  lemma ConvertSampleExamples()
    ensures ConvertSample(1.5) == 32767
    ensures ConvertSample(-1.5) == -32768
    ensures ConvertSample(0.0) == 0
  {
  }

  lemma ClampMonotone(x: real, y: real)
    requires x <= y
    ensures Clamp(x) <= Clamp(y)
  {
  }

  lemma ScaleMonotone(s: real, t: real)
    requires -1.0 <= s <= t <= 1.0
    ensures Scale(s) <= Scale(t)
  {
  }

  lemma TruncateMonotone(a: real, b: real)
    requires a <= b
    ensures TruncateTowardZero(a) <= TruncateTowardZero(b)
  {
    if a >= 0.0 {
      assert a.Floor <= b.Floor;
    } else if b < 0.0 {
      assert (-b).Floor <= (-a).Floor;
    }
  }

  /** A louder input never gives a smaller output. */
  lemma ConvertSampleMonotone(x: real, y: real)
    requires x <= y
    ensures ConvertSample(x) <= ConvertSample(y)
  {
    ClampMonotone(x, y);
    ScaleMonotone(Clamp(x), Clamp(y));
    TruncateMonotone(Scale(Clamp(x)), Scale(Clamp(y)));
  }

  /** A whole frame converted sample by sample. */
  function ConvertedFrame(samples: seq<real>): (frame: seq<Int16>)
    ensures |frame| == |samples|
    ensures forall i :: 0 <= i < |samples| ==> frame[i] == ConvertSample(samples[i])
  {
    seq(|samples|, i requires 0 <= i < |samples| => ConvertSample(samples[i]))
  }

  /** The loop of the processor's handler: a fresh Int16Array of the frame's length, filled sample by sample. */
  method ConvertFrame(input: array<real>) returns (output: array<Int16>)
    ensures output.Length == input.Length
    ensures forall i :: 0 <= i < input.Length ==> output[i] == ConvertSample(input[i])
    ensures output[..] == ConvertedFrame(input[..])
  {
    output := new Int16[input.Length];
    var i := 0;
    while i < input.Length
      invariant 0 <= i <= input.Length
      invariant forall k :: 0 <= k < i ==> output[k] == ConvertSample(input[k])
    {
      var s := Clamp(input[i]);
      output[i] := ToInt16(TruncateTowardZero(if s < 0.0 then s * NegativeScale else s * PositiveScale));
      i := i + 1;
    }
  }

  /** An opaque SDK object: the lip-sync client or the voice-agent session. */
  datatype Handle = Handle(id: nat)

  /** The JSON answer of the join-URL endpoint, or a failed fetch. */
  datatype JoinUrlReply = FetchFailed | JoinUrlBody(joinUrl: Option<string>)

  /**
   * One audio bridge: a media-stream source feeding a script processor of the given
   * size and channel counts, connected on to the context's destination; whether a
   * resume of a suspended context was requested.
   */
  datatype Bridge = Bridge(bufferSize: nat, inputChannels: nat, outputChannels: nat,
                           routedToDestination: bool, resumeRequested: bool)

  /** The bridge one track_started listener builds for an audio track. */
  function AudioBridge(contextSuspended: bool): (b: Bridge)
    ensures b.bufferSize == BufferSize && b.inputChannels == 1 && b.outputChannels == 1
    ensures b.routedToDestination && b.resumeRequested == contextSuspended
  {
    Bridge(BufferSize, InputChannels, OutputChannels, true, contextSuspended)
  }

  /**
   * The bridges one audio track gets when `registrations` track_started listeners are
   * registered: every listener builds its own, so a track is tapped once per listener.
   */
  function BridgesFor(registrations: nat, contextSuspended: bool): (bs: seq<Bridge>)
    ensures |bs| == registrations
    ensures forall i :: 0 <= i < |bs| ==> bs[i] == AudioBridge(contextSuspended)
  {
    seq(registrations, _ => AudioBridge(contextSuspended))
  }

  /** The avatar component's state and what it has handed to the two SDKs. */
  class AvatarInterface {
    var status: string
    var simliClient: Option<Handle>
    var ultravoxSession: Option<Handle>
    /** The URLs the agent session was asked to join, in order. */
    var joinRequests: seq<string>
    /**
     * How many times the agent's status, track and transcript listeners have been
     * registered: each completed start adds one set, and none is ever removed.
     */
    var registrations: nat
    var bridges: seq<Bridge>
    /** The frames delivered to the lip-sync client's sendAudioData, in order. */
    var avatarFrames: seq<seq<Int16>>

    constructor ()
      ensures status == Initializing && simliClient == None && ultravoxSession == None
      ensures joinRequests == [] && registrations == 0 && bridges == [] && avatarFrames == []
    {
      status := Initializing;
      simliClient := None;
      ultravoxSession := None;
      joinRequests := [];
      registrations := 0;
      bridges := [];
      avatarFrames := [];
    }

    /**
     * The mount effect: without the video and audio elements nothing happens;
     * otherwise the lip-sync client is kept only if it initializes, and the agent
     * session is always created.
     */
    method Mount(elementsPresent: bool, simliInitializes: bool, simli: Handle, ultravox: Handle)
      modifies this
      ensures !elementsPresent ==> unchanged(this)
      ensures elementsPresent ==>
        && simliClient == (if simliInitializes then Some(simli) else old(simliClient))
        && status == (if simliInitializes then old(status) else SimliInitFailed)
        && ultravoxSession == Some(ultravox)
        && joinRequests == old(joinRequests) && registrations == old(registrations)
        && bridges == old(bridges) && avatarFrames == old(avatarFrames)
    {
      if !elementsPresent {
        return;
      }
      if simliInitializes {
        simliClient := Some(simli);
      } else {
        status := SimliInitFailed;
      }
      ultravoxSession := Some(ultravox);
    }

    /**
     * startSession: does nothing unless both clients exist; otherwise starts the
     * avatar, fetches a join URL and asks the agent session to join it, ending in
     * "Connection Failed" when the avatar does not start, no join URL comes back or
     * the join call throws. Only a join that returns registers the listeners, and it
     * registers a further set each time, however many are registered already.
     */
    method StartSession(avatarStarts: bool, reply: JoinUrlReply, joinThrows: bool)
      modifies this
      ensures old(simliClient).None? || old(ultravoxSession).None? ==> unchanged(this)
      ensures old(simliClient).Some? && old(ultravoxSession).Some? ==>
        var joins := avatarStarts && reply.JoinUrlBody? && Truthy(reply.joinUrl);
        && (joins ==> joinRequests == old(joinRequests) + [reply.joinUrl.value])
        && (joins && !joinThrows ==> status == ConnectingToAgent && registrations == old(registrations) + 1)
        && (joins && joinThrows ==> status == ConnectionFailed && registrations == old(registrations))
        && (!joins ==> status == ConnectionFailed && joinRequests == old(joinRequests)
                       && registrations == old(registrations))
        && simliClient == old(simliClient) && ultravoxSession == old(ultravoxSession)
        && bridges == old(bridges) && avatarFrames == old(avatarFrames)
    {
      if simliClient.None? || ultravoxSession.None? {
        return;
      }
      status := StartingAvatar;
      if !avatarStarts {
        status := ConnectionFailed;
        return;
      }
      status := ConnectingToAgent;
      if reply.FetchFailed? || !Truthy(reply.joinUrl) {
        status := ConnectionFailed;
        return;
      }
      joinRequests := joinRequests + [reply.joinUrl.value];
      if joinThrows {
        status := ConnectionFailed;
        return;
      }
      registrations := registrations + 1;
    }

    /**
     * The auto-start effect: start once both clients exist while still initializing,
     * with the same outcome as a start from the button.
     */
    method AutoStart(avatarStarts: bool, reply: JoinUrlReply, joinThrows: bool)
      modifies this
      ensures !(old(simliClient).Some? && old(ultravoxSession).Some? && old(status) == Initializing) ==> unchanged(this)
      ensures old(simliClient).Some? && old(ultravoxSession).Some? && old(status) == Initializing ==>
        var joins := avatarStarts && reply.JoinUrlBody? && Truthy(reply.joinUrl);
        && (joins ==> joinRequests == old(joinRequests) + [reply.joinUrl.value])
        && (joins && !joinThrows ==> status == ConnectingToAgent && registrations == old(registrations) + 1)
        && (joins && joinThrows ==> status == ConnectionFailed && registrations == old(registrations))
        && (!joins ==> status == ConnectionFailed && joinRequests == old(joinRequests)
                       && registrations == old(registrations))
        && simliClient == old(simliClient) && ultravoxSession == old(ultravoxSession)
        && bridges == old(bridges) && avatarFrames == old(avatarFrames)
    {
      if simliClient.Some? && ultravoxSession.Some? && status == Initializing {
        StartSession(avatarStarts, reply, joinThrows);
      }
    }

    /**
     * The agent's status listeners: each shows "Agent: <status>", so however many are
     * registered the result is the same as for one.
     */
    method OnAgentStatus(agentStatus: string)
      modifies this
      ensures status == (if old(registrations) > 0 then "Agent: " + agentStatus else old(status))
      ensures simliClient == old(simliClient) && ultravoxSession == old(ultravoxSession)
      ensures joinRequests == old(joinRequests) && registrations == old(registrations)
      ensures bridges == old(bridges) && avatarFrames == old(avatarFrames)
    {
      if registrations > 0 {
        status := "Agent: " + agentStatus;
      }
    }

    /**
     * track_started: only an audio track gets bridges, one from each registered
     * listener, each a 4096-sample mono processor routed to the destination, with a
     * resume requested when the context is suspended.
     */
    method OnTrackStarted(trackKind: string, contextSuspended: bool)
      modifies this
      ensures bridges == old(bridges) +
        (if trackKind == AudioKind then BridgesFor(old(registrations), contextSuspended) else [])
      ensures status == old(status) && simliClient == old(simliClient) && ultravoxSession == old(ultravoxSession)
      ensures joinRequests == old(joinRequests) && registrations == old(registrations)
      ensures avatarFrames == old(avatarFrames)
    {
      if trackKind == AudioKind {
        var i := 0;
        while i < registrations
          invariant 0 <= i <= registrations
          invariant bridges == old(bridges) + BridgesFor(i, contextSuspended)
          invariant status == old(status) && simliClient == old(simliClient) && ultravoxSession == old(ultravoxSession)
          invariant joinRequests == old(joinRequests) && registrations == old(registrations)
          invariant avatarFrames == old(avatarFrames)
        {
          assert BridgesFor(i + 1, contextSuspended) == BridgesFor(i, contextSuspended) + [AudioBridge(contextSuspended)];
          bridges := bridges + [AudioBridge(contextSuspended)];
          i := i + 1;
        }
      }
    }

    /**
     * onaudioprocess: convert the frame; hand it to the lip-sync client only when
     * that client exists. Nothing else about the component changes, so the audio
     * routing to the destination is the same with or without the client.
     */
    method OnAudioProcess(input: array<real>)
      modifies this
      ensures avatarFrames == old(avatarFrames) +
        (if simliClient.Some? then [ConvertedFrame(input[..])] else [])
      ensures status == old(status) && simliClient == old(simliClient) && ultravoxSession == old(ultravoxSession)
      ensures joinRequests == old(joinRequests) && registrations == old(registrations) && bridges == old(bridges)
    {
      var frame := ConvertFrame(input);
      if simliClient.Some? {
        avatarFrames := avatarFrames + [frame[..]];
      }
    }
  }
}
