/**
 * The Ultravox voice-agent hook: a join URL is fetched from the server, a fresh
 * SDK session joins the call with its microphone muted, and the session's
 * status and transcript events update the hook's state. The SDK session is a
 * value recording its own status and mute flag; the requests the hook makes to
 * it are kept in order.
 */
module Ultravox {
  import opened JsString

  const ApiErrorPrefix: string := "API Error: "
  const NoJoinUrl: string := "No Join URL returned"
  /** The SDK status the start guard compares against. */
  const SdkActive: string := "active"
  /** The SDK status that sends the hook back to idle. */
  const SdkDisconnected: string := "disconnected"
  const UserSpeaker: string := "user"

  datatype Status = Idle | Connecting | Active | Error

  datatype Speaker = User | Agent

  /** A transcript as the hook exposes it. */
  datatype TranscriptItem = TranscriptItem(text: string, speaker: Speaker, isFinal: bool)

  /** A transcript as the SDK reports it; its speaker is free text. */
  datatype SdkTranscript = SdkTranscript(text: string, speaker: string, isFinal: bool)

  /** The SDK session: its status text and whether its microphone is muted. */
  datatype SdkSession = SdkSession(status: string, micMuted: bool)

  /** A request the hook makes to the SDK session. */
  datatype SdkCall = JoinCall(url: string) | MuteMic | ToggleMicMute | LeaveCall

  /**
   * The join-URL fetch: it threw (with the error's message, if any), answered with
   * a non-ok status, or answered with a body whose joinUrl may be missing.
   */
  datatype FetchOutcome = FetchThrew(message: Option<string>) | HttpError(statusText: string) | Fetched(joinUrl: Option<string>)

  /** Whether joining the call returned or threw. */
  datatype JoinOutcome = Joined | JoinThrew(message: Option<string>)

  /** The fetch step's result: a join URL, or the message of the error it throws. */
  datatype UrlResult = Url(url: string) | Failed(message: Option<string>)

  function ReadJoinUrl(f: FetchOutcome): (r: UrlResult)
    ensures r.Url? <==> f.Fetched? && Truthy(f.joinUrl)
    ensures r.Url? ==> r.url == f.joinUrl.value && r.url != ""
    ensures f.HttpError? ==> r == Failed(Some(ApiErrorPrefix + f.statusText))
    ensures f.Fetched? && !Truthy(f.joinUrl) ==> r == Failed(Some(NoJoinUrl))
    ensures f.FetchThrew? ==> r == Failed(f.message)
  {
    match f
    case FetchThrew(message) => Failed(message)
    case HttpError(statusText) => Failed(Some(ApiErrorPrefix + statusText))
    case Fetched(joinUrl) => if Truthy(joinUrl) then Url(joinUrl.value) else Failed(Some(NoJoinUrl))
  }

  /** `t.speaker === 'user' ? 'user' : 'agent'`. */
  function SpeakerOf(speaker: string): Speaker
  {
    if speaker == UserSpeaker then User else Agent
  }

  /** The transcripts listener's map over the SDK's transcripts. */
  function FormatTranscripts(ts: seq<SdkTranscript>): (r: seq<TranscriptItem>)
    ensures |r| == |ts|
    ensures forall i :: 0 <= i < |ts| ==>
      && r[i].text == ts[i].text && r[i].isFinal == ts[i].isFinal
      && (r[i].speaker == User <==> ts[i].speaker == UserSpeaker)
  {
    if ts == [] then []
    else [TranscriptItem(ts[0].text, SpeakerOf(ts[0].speaker), ts[0].isFinal)] + FormatTranscripts(ts[1..])
  }

  /** Formatting a longer list formats the earlier part the same way. */
  lemma {:induction false} FormatTranscriptsAppend(a: seq<SdkTranscript>, b: seq<SdkTranscript>)
    ensures FormatTranscripts(a + b) == FormatTranscripts(a) + FormatTranscripts(b)
  {
    if a != [] {
      assert (a + b)[1..] == a[1..] + b;
      FormatTranscriptsAppend(a[1..], b);
    } else {
      assert a + b == b;
    }
  }

  class UltravoxHook {
    var status: Status
    var transcripts: seq<TranscriptItem>
    var isMicMuted: bool
    var error: Option<string>
    var session: Option<SdkSession>
    /** The status and transcript listeners have been registered on a session. */
    var listening: bool
    var calls: seq<SdkCall>

    /** An active hook has a session whose microphone state it mirrors. */
    predicate Valid()
      reads this
    {
      status == Active ==> session.Some? && isMicMuted == session.value.micMuted
    }

    constructor ()
      ensures Valid()
      ensures status == Idle && transcripts == [] && !isMicMuted && error == None
      ensures session == None && !listening && calls == []
    {
      status := Idle;
      transcripts := [];
      isMicMuted := false;
      error := None;
      session := None;
      listening := false;
      calls := [];
    }

    /**
     * startSession. A session whose SDK status is "active" makes it a no-op. Otherwise
     * the hook connects: a failed fetch ends in Error with the failure's message and no
     * new session; after a good fetch `created` becomes the session, the listeners are
     * registered and the call is joined; a join that throws ends in Error with the
     * session kept; a join that returns mutes the microphone and ends in Active.
     */
    method StartSession(fetch: FetchOutcome, created: SdkSession, join: JoinOutcome)
      requires Valid()
      modifies this
      ensures Valid()
      ensures transcripts == old(transcripts)
      ensures old(session).Some? && old(session).value.status == SdkActive ==> unchanged(this)
      ensures !(old(session).Some? && old(session).value.status == SdkActive) ==>
        match ReadJoinUrl(fetch)
        case Failed(message) =>
          && status == Error && error == message
          && session == old(session) && listening == old(listening)
          && calls == old(calls) && isMicMuted == old(isMicMuted)
        case Url(url) =>
          && listening
          && (join.JoinThrew? ==>
                && status == Error && error == join.message && session == Some(created)
                && calls == old(calls) + [JoinCall(url)] && isMicMuted == old(isMicMuted))
          && (join.Joined? ==>
                && status == Active && error == None && isMicMuted
                && session == Some(created.(micMuted := true))
                && calls == old(calls) + [JoinCall(url), MuteMic])
    {
      if session.Some? && session.value.status == SdkActive {
        return;
      }
      status := Connecting;
      error := None;
      var r := ReadJoinUrl(fetch);
      if r.Failed? {
        error := r.message;
        status := Error;
        return;
      }
      session := Some(created);
      listening := true;
      calls := calls + [JoinCall(r.url)];
      if join.JoinThrew? {
        error := join.message;
        status := Error;
        return;
      }
      calls := calls + [MuteMic];
      session := Some(session.value.(micMuted := true));
      status := Active;
      isMicMuted := true;
    }

    /** The status listener: the SDK reports a new status; "disconnected" means idle. */
    method OnSdkStatus(sdkStatus: string)
      requires Valid()
      modifies this
      ensures Valid()
      ensures session == if old(session).Some? then Some(old(session).value.(status := sdkStatus)) else None
      ensures status == if listening && sdkStatus == SdkDisconnected then Idle else old(status)
      ensures transcripts == old(transcripts) && isMicMuted == old(isMicMuted) && error == old(error)
      ensures listening == old(listening) && calls == old(calls)
    {
      if session.Some? {
        session := Some(session.value.(status := sdkStatus));
      }
      if listening && sdkStatus == SdkDisconnected {
        status := Idle;
      }
    }

    /** The transcripts listener: a present, non-empty list replaces the transcripts. */
    method OnSdkTranscripts(updated: Option<seq<SdkTranscript>>)
      modifies this
      ensures transcripts ==
        if listening && updated.Some? && |updated.value| > 0 then FormatTranscripts(updated.value) else old(transcripts)
      ensures status == old(status) && isMicMuted == old(isMicMuted) && error == old(error)
      ensures session == old(session) && listening == old(listening) && calls == old(calls)
    {
      if listening && updated.Some? && |updated.value| > 0 {
        transcripts := FormatTranscripts(updated.value);
      }
    }

    /**
     * endSession: with a session, leave the call (`leaveSucceeds` says whether the
     * awaited leave resolved) and drop it; then idle with no transcripts. A leave that
     * rejects throws out of the handler before anything else changes.
     */
    method EndSession(leaveSucceeds: bool)
      requires Valid()
      modifies this
      ensures Valid()
      ensures calls == old(calls) + (if old(session).Some? then [LeaveCall] else [])
      ensures isMicMuted == old(isMicMuted) && error == old(error) && listening == old(listening)
      ensures old(session).Some? && !leaveSucceeds ==>
        status == old(status) && transcripts == old(transcripts) && session == old(session)
      ensures old(session).None? || leaveSucceeds ==>
        status == Idle && transcripts == [] && session == None
    {
      if session.Some? {
        calls := calls + [LeaveCall];
        if !leaveSucceeds {
          return;
        }
        session := None;
      }
      status := Idle;
      transcripts := [];
    }

    /** toggleMic: flip the session's microphone and mirror its new state; no session, no change. */
    method ToggleMic()
      requires Valid()
      modifies this
      ensures Valid()
      ensures old(session).None? ==> unchanged(this)
      ensures old(session).Some? ==>
        && session == Some(old(session).value.(micMuted := !old(session).value.micMuted))
        && isMicMuted == session.value.micMuted
        && calls == old(calls) + [ToggleMicMute]
        && status == old(status) && transcripts == old(transcripts) && error == old(error)
        && listening == old(listening)
    {
      if session.Some? {
        calls := calls + [ToggleMicMute];
        session := Some(session.value.(micMuted := !session.value.micMuted));
        isMicMuted := session.value.micMuted;
      }
    }
  }
}
