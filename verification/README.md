# SafeHaven voice companion: a Dafny model of its session and routing logic

SafeHaven is a Next.js voice safety companion. This project models the parts of
it whose behaviour can be stated without the vendor SDKs it drives:

- **Hume voice session** (`hume.dfy`, module `Hume`): the `useHume` hook's
  status, messages, live transcript, microphone and speaker flags, error and its
  socket, recorder and player handles. Each operation and socket callback is a
  transition function on a `State` value; the class `HumeHook` holds the same
  fields and its methods update them in place, each proved equal to its
  transition. The hook is also an event machine (`Step`, `Run`), with
  invariants proved over every event sequence.
- **Ultravox session** (`ultravox.dfy`, module `Ultravox`): the `useUltravox`
  hook as a class, with the transcript mapping as a pure function.
- **Browser speech recognition** (`speech_recognition.dfy`, module
  `SpeechRecognition`): the recognizer's event handlers, start/stop/reset, the
  setup effect, the transcript accumulator loop and the error classification.
- **Avatar audio bridge** (`avatar_bridge.dfy`, module `AvatarBridge`): the
  Float32 to Int16 conversion loop over an array, the forward-to-avatar guard,
  and the component's start-up guards as a class.
- **Telegram webhook** (`telegram.dfy`, module `Telegram`): the per-chat Redis
  history (encode, LPUSH, LRANGE 0..9, reverse, decode) and the handler's
  branches, with the Redis store as a class holding a map of lists.
- **Text to speech** (`speak.dfy`, module `Speak`): the voice-ID fallback chain
  and the handler's response selection.
- **Isolation then transcription** (`isolate.dfy`, module `Isolate`): the
  missing-audio check, the fallback to the original audio, the trimmed result
  and the catch-all error.
- **JavaScript built-ins** (`js_string.dfy`, module `JsString`): truthiness of
  optional strings, `String.prototype.trim`, `split`/`join` on one character,
  `includes`, and the decimal text of an integer, as the routes above use them.

The SDK, HTTP and storage results the handlers branch on are parameters: an
`await` is one atomic step whose outcome the caller chooses, and `Date.now()` is
the parameter `now`. The awaits whose failure is not modelled are named under
"Left out".
Audio samples are real numbers.

## Model

| member | source | states |
|---|---|---|
| Hume.Initial | app/hooks/use-hume.ts:22-32 | The first state is idle, microphone muted, speaker on, with no messages, no live transcript, no error, nothing closed and no handles, and satisfies the invariant. |
| Hume.ConnectOptions | app/hooks/use-hume.ts:188-202 | The config id is the caller's when truthy, else the environment's when truthy, else absent, and is never empty; a voice id is passed exactly when the caller gave a truthy one. |
| Hume.LanguageIsNotForwarded | app/hooks/use-hume.ts:171-202 | The language option never changes what is handed to connect. |
| Hume.StartCapture | app/hooks/use-hume.ts:48-79 | Success holds a recording recorder and unmutes the microphone; failure sets the error to the thrown message and keeps the microphone as it was; nothing else changes and the invariant is kept. |
| Hume.StopCapture | app/hooks/use-hume.ts:81-89 | Only a held recorder that is not inactive is released, and then the microphone is muted; otherwise nothing changes. |
| Hume.Start | app/hooks/use-hume.ts:171-218 | A held socket makes start a no-op; otherwise a socket is held exactly when the key is truthy and connect returned, and it is the socket connect returned, the status is Connecting if so and Error if not, and the error is the missing-key message, the thrown message, or none. |
| Hume.Open | app/hooks/use-hume.ts:91-101 | The status becomes Active; a fresh empty player is held when its init resolves, and a rejected init leaves the player as it was; nothing else changes. |
| Hume.FailedPlayerInitDropsAudio | app/hooks/use-hume.ts:93-98 | When the first player's init is rejected the session is still Active but holds no player, and an audio output leaves the state unchanged. |
| Hume.Dispatch | app/hooks/use-hume.ts:103-148 | Messages are only appended, at most one per socket message; only messages, live transcript and player can change. |
| Hume.OnError | app/hooks/use-hume.ts:150-154 | The status becomes Error with the fixed connection message; nothing else changes. |
| Hume.OnClose | app/hooks/use-hume.ts:156-169 | The status becomes Idle and recorder and player are released, while the socket stays held. |
| Hume.End | app/hooks/use-hume.ts:220-230 | Capture is stopped, the held socket is closed and dropped, the status is Idle and messages are emptied; error and live transcript are left as they were. |
| Hume.MicToggled | app/hooks/use-hume.ts:243-254 | Without a socket nothing changes; a muted microphone starts capture and an unmuted one stops it. |
| Hume.SpeakerToggled | app/hooks/use-hume.ts:256-263 | Ref and state flip to the same new value; the player is stopped only when muting. |
| Hume.RecorderFailed | app/hooks/use-hume.ts:65-68 | A recorder error sets the fixed microphone message and nothing else. |
| Hume.RecorderHalted | app/hooks/use-hume.ts:82 | The browser stopping the held recorder makes its state inactive and changes nothing else. |
| Hume.StartAfterCloseIsNoOp | app/hooks/use-hume.ts:156-176 | After the socket closes the status is Idle, yet a new start does nothing, because the socket is still held. |
| Hume.FailedStartHoldsNoSocket | app/hooks/use-hume.ts:181-184 | A missing key or a throwing connect ends in Error with the matching message and no socket held. |
| Hume.OpenLeavesMicMuted | app/hooks/use-hume.ts:25-27 | Connecting and opening from the first state, with the player init resolving, leaves the session Active with the microphone muted, no recorder and an empty player. |
| Hume.TwoTogglesEndMuted | app/hooks/use-hume.ts:243-254 | From a muted microphone with a socket, a successful unmute followed by a toggle ends muted with no recorder held. |
| Hume.ToggleSpeakerTwice | app/hooks/use-hume.ts:256-263 | Two speaker toggles restore the speaker flag, ref and state still equal. |
| Hume.AudioQueuedOnlyWhenAudible | app/hooks/use-hume.ts:107-111 | Audio output changes the player exactly when a player exists and the speaker ref is unmuted, and then appends the chunk to its queue. |
| Hume.EmptyUserMessageIgnored | app/hooks/use-hume.ts:113-114 | A user message without truthy content changes nothing. |
| Hume.InterimUserMessage | app/hooks/use-hume.ts:115-116 | An interim user message only replaces the live transcript. |
| Hume.FinalUserMessage | app/hooks/use-hume.ts:117-124 | A final user message clears the live transcript and appends exactly one user message stamped with the current time. |
| Hume.AssistantMessageAppends | app/hooks/use-hume.ts:128-136 | An assistant message with content appends exactly one assistant message; without content nothing changes. |
| Hume.InterruptionAndUnknown | app/hooks/use-hume.ts:138-147 | An interruption stops a held player and changes nothing else; an unknown type changes nothing. |
| Hume.Step | app/hooks/use-hume.ts:21-263 | Every event of the hook keeps the invariant: a muted microphone holds no recorder and the speaker ref equals the speaker state. |
| Hume.RunKeepsInvariant | app/hooks/use-hume.ts:21-263 | Every state reachable by any sequence of events from a consistent state is consistent. |
| Hume.MessagesOnlyGrow | app/hooks/use-hume.ts:103-136 | Without endSession, earlier messages are kept in order by any sequence of events. |
| Hume.SocketHeldUntilEnd | app/hooks/use-hume.ts:156-230 | Once a socket is held, only endSession releases it: close, error and restart events keep it. |
| Hume.HumeHook.constructor | app/hooks/use-hume.ts:22-32 | The hook starts in the first state. |
| Hume.HumeHook.StartSession | app/hooks/use-hume.ts:171-218 | The new state is `Start` of the old one, and connect receives `ConnectOptions` exactly when it is reached. |
| Hume.HumeHook.StartAudioCapture | app/hooks/use-hume.ts:48-79 | The new state is `StartCapture` of the old one. |
| Hume.HumeHook.StopAudioCapture | app/hooks/use-hume.ts:81-89 | The new state is `StopCapture` of the old one. |
| Hume.HumeHook.HandleOpen | app/hooks/use-hume.ts:91-101 | The new state is `Open` of the old one with the player init's outcome. |
| Hume.HumeHook.HandleMessage | app/hooks/use-hume.ts:103-148 | The new state is `Dispatch` of the old one. |
| Hume.HumeHook.HandleError | app/hooks/use-hume.ts:150-154 | The new state is `OnError` of the old one. |
| Hume.HumeHook.HandleClose | app/hooks/use-hume.ts:156-169 | The new state is `OnClose` of the old one. |
| Hume.HumeHook.EndSession | app/hooks/use-hume.ts:220-230 | The new state is `End` of the old one. |
| Hume.HumeHook.ToggleMic | app/hooks/use-hume.ts:243-254 | The new state is `MicToggled` of the old one. |
| Hume.HumeHook.ToggleSpeaker | app/hooks/use-hume.ts:256-263 | The new state is `SpeakerToggled` of the old one. |
| Hume.HumeHook.OnRecorderError | app/hooks/use-hume.ts:65-68 | The new state is `RecorderFailed` of the old one. |
| Hume.HumeHook.OnRecorderHalted | app/hooks/use-hume.ts:82 | The new state is `RecorderHalted` of the old one. |
| Ultravox.ReadJoinUrl | app/hooks/use-ultravox.ts:39-44 | A join URL results exactly when the fetch answered ok with a truthy joinUrl; a non-ok answer gives "API Error: " and the status text, a missing URL "No Join URL returned", a throw its own message. |
| Ultravox.FormatTranscripts | app/hooks/use-ultravox.ts:63-67 | The mapping keeps length and order, copies text and finality, and gives the user speaker exactly for SDK speaker "user". |
| Ultravox.FormatTranscriptsAppend | app/hooks/use-ultravox.ts:63-67 | Mapping a concatenation maps each part in order. |
| Ultravox.UltravoxHook.constructor | app/hooks/use-ultravox.ts:13-19 | Idle, no transcripts, microphone unmuted, no error and no session. |
| Ultravox.UltravoxHook.StartSession | app/hooks/use-ultravox.ts:31-86 | A session whose SDK status is "active" makes it a no-op; a failed fetch ends in Error with its message and no new session; a join that throws ends in Error with the new session kept; a join that returns mutes the SDK microphone and ends Active with the microphone muted. |
| Ultravox.UltravoxHook.OnSdkStatus | app/hooks/use-ultravox.ts:51-56 | SDK status "disconnected" sets Idle; any other status leaves the local status unchanged. |
| Ultravox.UltravoxHook.OnSdkTranscripts | app/hooks/use-ultravox.ts:58-70 | A present, non-empty update replaces the transcripts by their mapping; an absent or empty one leaves them. |
| Ultravox.UltravoxHook.EndSession | app/hooks/use-ultravox.ts:88-95 | The call is left exactly when a session is held; a rejected leave changes nothing else, and otherwise the hook ends Idle with no transcripts and no session. |
| Ultravox.UltravoxHook.ToggleMic | app/hooks/use-ultravox.ts:97-102 | Without a session nothing changes; otherwise the SDK's mute flag flips and the hook's flag equals it. |
| SpeechRecognition.Classify | app/hooks/use-speech-recognition.ts:99-105 | Permission errors are exactly "not-allowed" and "permission-denied", silence exactly "no-speech", every other code is kept as is. |
| SpeechRecognition.ErrorAfterEvent | app/hooks/use-speech-recognition.ts:99-105 | Silence keeps the previous error, a permission error gives the blocked-microphone message, any other code gives the fixed prefix followed by the code. |
| SpeechRecognition.OtherErrorsDistinguishable | app/hooks/use-speech-recognition.ts:103-104 | Two different unrecognised codes give two different messages. |
| SpeechRecognition.PrefixedIsNotBlocked | app/hooks/use-speech-recognition.ts:100-104 | A message with the generic prefix is never the blocked-microphone message. |
| SpeechRecognition.BlockedMessageOnlyForPermission | app/hooks/use-speech-recognition.ts:99-105 | The blocked-microphone message results exactly from a permission error, or from silence while it was already shown. |
| SpeechRecognition.ConcatenationAppend | app/hooks/use-speech-recognition.ts:84-95 | The transcript of a split result list is the transcripts of its parts, in order. |
| SpeechRecognition.ConcatenationIgnoresFinality | app/hooks/use-speech-recognition.ts:88-92 | Changing which results are final never changes the transcript. |
| SpeechRecognition.AssembleTranscript | app/hooks/use-speech-recognition.ts:85-93 | The loop yields the in-order concatenation of every result's text, final and interim alike. |
| SpeechRecognition.SpeechRecognitionHook.constructor | app/hooks/use-speech-recognition.ts:42-48 | Not listening, empty transcript, no support flag, no error, no recognizer. |
| SpeechRecognition.SpeechRecognitionHook.Setup | app/hooks/use-speech-recognition.ts:50-112 | Disabled: a listening recognizer is stopped and listening cleared, nothing created. Enabled: the support flag is set from the browser; a usable constructor gives a continuous, interim-result recognizer for the language. |
| SpeechRecognition.SpeechRecognitionHook.Cleanup | app/hooks/use-speech-recognition.ts:115-119 | The held recognizer is asked to stop; the hook's state is untouched. |
| SpeechRecognition.SpeechRecognitionHook.OnStart | app/hooks/use-speech-recognition.ts:75-78 | Listening, with no error. |
| SpeechRecognition.SpeechRecognitionHook.OnEnd | app/hooks/use-speech-recognition.ts:80-82 | Not listening; nothing else changes. |
| SpeechRecognition.SpeechRecognitionHook.OnResult | app/hooks/use-speech-recognition.ts:84-95 | The transcript becomes the concatenation of all results; nothing else changes. |
| SpeechRecognition.SpeechRecognitionHook.OnError | app/hooks/use-speech-recognition.ts:97-107 | The error becomes `ErrorAfterEvent` of the code and the old error, and listening stops in every case. |
| SpeechRecognition.SpeechRecognitionHook.StartListening | app/hooks/use-speech-recognition.ts:122-139 | The error is cleared first; with a recognizer a start is requested, an InvalidStateError or "already started" failure marks listening, any other failure sets the start-failure message; without one nothing else happens. |
| SpeechRecognition.SpeechRecognitionHook.StopListening | app/hooks/use-speech-recognition.ts:141-150 | A held recognizer is asked to stop; no hook state changes. |
| SpeechRecognition.SpeechRecognitionHook.ResetTranscript | app/hooks/use-speech-recognition.ts:152-154 | The transcript is emptied and nothing else changes. |
| AvatarBridge.Clamp | components/AvatarInterface.tsx:131 | The result lies in [-1, 1], equals the input inside that range and saturates outside it. |
| AvatarBridge.TruncateTowardZero | components/AvatarInterface.tsx:132 | The result is the integer part toward zero: within one of the input, on the same side of zero. |
| AvatarBridge.ToInt16 | components/AvatarInterface.tsx:129-132 | The stored value is congruent to the integer modulo 65536 and equals it when it fits in 16 bits. |
| AvatarBridge.ConvertSample | components/AvatarInterface.tsx:131-132 | Negative inputs give non-positive outputs, the rest non-negative; inputs at or beyond 1 give 32767, at or beyond -1 give -32768; in range the output is the scaled sample truncated toward zero. |
| AvatarBridge.ConvertSampleExamples | components/AvatarInterface.tsx:131-132 | 1.5 converts to 32767, -1.5 to -32768 and 0 to 0. |
| AvatarBridge.ClampMonotone | components/AvatarInterface.tsx:131 | Clamping preserves order. |
| AvatarBridge.ScaleMonotone | components/AvatarInterface.tsx:132 | The asymmetric scaling preserves order on [-1, 1]. |
| AvatarBridge.TruncateMonotone | components/AvatarInterface.tsx:132 | Truncation toward zero preserves order. |
| AvatarBridge.ConvertSampleMonotone | components/AvatarInterface.tsx:131-132 | A louder sample never converts to a smaller one. |
| AvatarBridge.ConvertedFrame | components/AvatarInterface.tsx:127-133 | A converted frame has the input's length and each sample converted in place. |
| AvatarBridge.ConvertFrame | components/AvatarInterface.tsx:127-133 | The loop fills a fresh array of the input's length with each converted sample. |
| AvatarBridge.AvatarInterface.constructor | components/AvatarInterface.tsx:11-14 | Status "Initializing..." with no clients and nothing bridged. |
| AvatarBridge.AvatarInterface.Mount | components/AvatarInterface.tsx:16-57 | Without the media elements nothing changes; otherwise the avatar client is kept only if it initializes, else the status is "Simli Init Failed", and the agent session is created. |
| AvatarBridge.AudioBridge | components/AvatarInterface.tsx:111-145 | One listener's bridge is a 4096-sample mono processor routed to the destination, with a resume exactly when the context is suspended. |
| AvatarBridge.BridgesFor | components/AvatarInterface.tsx:107-147 | With n track listeners registered an audio track gets exactly n bridges, all alike. |
| AvatarBridge.AvatarInterface.StartSession | components/AvatarInterface.tsx:67-162 | Without both clients nothing changes; the join URL is requested exactly when the avatar starts and a truthy join URL comes back; a join that returns registers one more set of listeners, each time it runs; a join that throws, a failed avatar start or a missing URL ends "Connection Failed" with no new listeners. |
| AvatarBridge.AvatarInterface.AutoStart | components/AvatarInterface.tsx:59-65 | The session starts only once both clients exist while the status is still "Initializing...", and then has exactly the outcome of StartSession. |
| AvatarBridge.AvatarInterface.OnAgentStatus | components/AvatarInterface.tsx:89-92 | Once any listeners are registered the status shows "Agent: " and the SDK status, however many are registered. |
| AvatarBridge.AvatarInterface.OnTrackStarted | components/AvatarInterface.tsx:107-147 | Only an audio track gets bridges, one per registered listener, each a 4096-sample mono processor routed to the destination, with a resume when the context is suspended. |
| AvatarBridge.AvatarInterface.OnAudioProcess | components/AvatarInterface.tsx:123-137 | The converted frame goes to the avatar client exactly when that client exists; nothing else about the component, its routing included, changes. |
| JsString.TrimStart | app/api/telegram/route.ts:50 | The result is a suffix of the input that does not start with whitespace, and everything dropped is whitespace. |
| JsString.TrimEnd | app/api/telegram/route.ts:50 | The result is a prefix of the input that does not end with whitespace, and everything dropped is whitespace. |
| JsString.Trim | app/api/isolate/route.ts:61 | The result is a contiguous part of the input with no whitespace at either end, and everything dropped before and after it is whitespace. |
| JsString.TrimStartSkips | app/api/telegram/route.ts:50 | Leading whitespace never changes the start-trimmed text. |
| JsString.TrimSkipsLeadingWhitespace | app/api/telegram/route.ts:50 | Leading whitespace never changes the trimmed text. |
| JsString.TrimIdempotent | app/api/isolate/route.ts:61 | Trimming twice is trimming once. |
| JsString.IncludesAt | app/hooks/use-speech-recognition.ts:129 | Text that occurs at some position is included. |
| JsString.Split | app/api/telegram/route.ts:49 | Splitting gives at least one part and no part contains the separator. |
| JsString.JoinSplit | app/api/telegram/route.ts:49-50 | Joining the parts of a split with the same separator gives back the input. |
| JsString.SplitAfterFirst | app/api/telegram/route.ts:49 | Splitting text whose head has no separator gives the head followed by the split of the rest. |
| JsString.SplitFirstRejoin | app/api/telegram/route.ts:49-50 | The first part is the text before the first separator and re-joining the other parts gives exactly the text after it. |
| JsString.NatToString | app/api/telegram/route.ts:45 | The decimal text is non-empty, a single digit exactly below ten, and has no minus sign. |
| JsString.NatToStringInjective | app/api/telegram/route.ts:45 | Different numbers have different decimal texts. |
| JsString.SignMarksNegative | app/api/telegram/route.ts:45 | An integer's text starts with a minus sign exactly when it is negative. |
| JsString.IntToStringInjective | app/api/telegram/route.ts:45 | Different integers have different texts. |
| Telegram.HistoryKeysDistinct | app/api/telegram/route.ts:45 | Two chats never share a history key. |
| Telegram.DecodeEntry | app/api/telegram/route.ts:49-50 | The role is the user exactly when the text before the first colon is "User". |
| Telegram.DecodeUserRoundTrip | app/api/telegram/route.ts:49-50 | A stored "User: " line decodes to the user with the trimmed text, colons in the text kept. |
| Telegram.DecodeAiRoundTrip | app/api/telegram/route.ts:49-50 | A stored "AI: " line decodes to the model with the trimmed reply, colons in the reply kept. |
| Telegram.DecodeOtherRoleIsModel | app/api/telegram/route.ts:50 | Any role text other than exactly "User" before the first colon decodes to the model. |
| Telegram.Reverse | app/api/telegram/route.ts:48 | The reversed list has the same length with positions mirrored. |
| Telegram.LRange | app/api/telegram/route.ts:46 | LRANGE returns the list's elements from start through stop, clipped to the list. |
| Telegram.DecodeHistory | app/api/telegram/route.ts:48-51 | The decoded history has one entry per raw item, the last raw item first. |
| Telegram.ReadHistory | app/api/telegram/route.ts:46-51 | A read yields at most ten entries. |
| Telegram.PushTurn | app/api/telegram/route.ts:71-72 | After a turn the head is the AI line, then the user line, then the old list. |
| Telegram.PushTurnExtendsLog | app/api/telegram/route.ts:71-72 | A list built by pushes is the chronological log reversed, and a turn appends the user line and then the AI line to that log. |
| Telegram.ReadIsChronological | app/api/telegram/route.ts:46-48 | Reading the pushed list gives the at most ten latest log entries, oldest first. |
| Telegram.ReadHistoryOfLog | app/api/telegram/route.ts:46-51 | The decoded history is the decoding of the at most ten latest log entries, in order. |
| Telegram.NextReadEndsWithTurn | app/api/telegram/route.ts:46-72 | After a turn the next read ends with that turn's user message and then its reply, each trimmed. |
| Telegram.Store.constructor | app/api/telegram/route.ts:3 | The store starts empty. |
| Telegram.Store.LPush | app/api/telegram/route.ts:71-72 | LPUSH puts the value at the head of the key's list, an absent key reading as empty; TTLs are untouched. |
| Telegram.Store.Expire | app/api/telegram/route.ts:73 | EXPIRE sets the TTL of an existing key only; lists are untouched. |
| Telegram.HandleUpdate | app/api/telegram/route.ts:26-81 | A missing token is a 500 before any store access; a body that is not JSON is a 500; no message or no text is ok with the store unchanged; otherwise the model sees the decoded history, and only if generation and delivery succeed is the turn pushed and the TTL set to 86400, else the response is 500 with the store unchanged. |
| Speak.ResolveVoiceId | app/api/speak/route.ts:10-29 | The voice id is never empty and is either one of the four configured voices or the built-in one. |
| Speak.SwahiliVoiceFirst | app/api/speak/route.ts:13-17 | For "sw-KE" a configured Swahili voice for the gender wins. |
| Speak.GenderDefaultSecond | app/api/speak/route.ts:19-24 | Without a Swahili voice in play, a configured gender default is used. |
| Speak.FallbackLast | app/api/speak/route.ts:26-29 | With nothing applicable configured, the built-in voice is used. |
| Speak.NonMaleIsFemale | app/api/speak/route.ts:14-23 | Every gender other than exactly "male", absent included, resolves like the female voices. |
| Speak.HandleSpeak | app/api/speak/route.ts:3-81 | An unreadable body is a 500; a missing key is a 500 with no provider call; the provider is called with the resolved voice, the key, the text and the fixed model settings; a non-ok answer gives its status with the fixed message; audio is returned as audio/mpeg exactly when the provider answered ok with readable audio; with a body and a key the provider is always called; an ok answer whose audio cannot be read, and every throw, is a 500. |
| Isolate.ErrorText | app/api/isolate/route.ts:68 | The error text is the thrown message when that is truthy and "Processing failed" otherwise. |
| Isolate.HandleIsolate | app/api/isolate/route.ts:7-70 | No audio is a 400 with no isolation call; transcription gets the isolated audio when isolation answered ok and the original otherwise; the returned text is the trimmed transcription; every throw is a 500 with its message or "Processing failed". |
| Isolate.ErrorTextReadabilityIrrelevant | app/api/isolate/route.ts:34-40 | Whether the isolation error body can be read never changes the outcome. |
| Isolate.ReturnedTextIsTrimmed | app/api/isolate/route.ts:61-64 | A returned text never starts or ends with whitespace. |

## Left out

- Unmount cleanups of the three hooks and of the avatar component (closing sockets, stopping tracks, leaving calls): they only release SDK resources when the component goes away.
- `updateSessionSettings` of the Hume hook: it forwards settings to an open socket and changes no hook state.
- The recorder's `ondataavailable` upload (base64 encoding and `sendAudioInput`): an SDK side effect on the socket.
- Media streams: whether microphone tracks are stopped is not tracked; in particular a capture that fails after the stream was acquired leaves that stream running, which the model does not show.
- Hume.Dispatch: the player's `enqueue` and `stop` are modelled as appending to and emptying a queue; a rejected `enqueue` (use-hume.ts:109), audio decoding and playback timing are not modelled.
- Isolate.HandleIsolate: reading the uploaded file or the isolated audio as bytes (isolate/route.ts:41, :44) is taken to succeed; a rejection there would reach the catch-all 500.
- Stale React closures and interleavings of callbacks: every await is one atomic step, and each callback sees the hook's current state.
- Ultravox.UltravoxHook.OnSdkStatus: events from a session that is no longer held are treated like events from the held one.
- AvatarBridge: IEEE single-precision rounding, NaN and infinities; samples are reals.
- AvatarBridge.AvatarInterface.OnTrackStarted: the audio context's resume timing and the contents of the processor's output buffer.
- The avatar component's transcripts listener and `handleDebug`: logging only.
- Telegram.HandleUpdate: Redis command failures (the history read and part-way through the writes), a message without a `chat` field, and TTL-driven eviction (the TTL last set is recorded).
- Telegram: the system instruction, model name and token limit of the generation call; generation is a parameter.
- The web chat and Ultravox join-URL API routes: thin forwarders to vendor services.
- Logging (`console.*`) throughout.
