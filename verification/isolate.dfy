/**
 * POST /api/isolate: noise isolation followed by transcription. The uploaded
 * audio goes to the isolation service; a non-ok isolation response makes the
 * route fall back to the original audio. The chosen audio is transcribed and
 * the trimmed text is returned.
 */
module Isolate {
  import opened JsString

  const NoAudioError: string := "No audio provided"
  const DefaultError: string := "Processing failed"
  const TranscriptionMimeType: string := "audio/mp3"
  const TranscriptionPrompt: string := "Transcribe this audio exactly. Do not add any commentary."

  type Blob = seq<bv8>

  /** The multipart body: unreadable (with the thrown message), or read with its "audio" field. */
  datatype Form = FormUnreadable(message: Option<string>) | Form(audio: Option<Blob>)

  /** The isolation request: the API key header (empty when unset) and the audio. */
  datatype IsolationCall = IsolationCall(apiKey: string, audio: Blob)

  /**
   * The isolation service's answer: the request failed outright, or a response
   * arrived; a non-ok response's error text may or may not be readable.
   */
  datatype IsolationReply =
    | IsolationUnreachable(message: Option<string>)
    | IsolationResponse(ok: bool, status: int, errorTextReadable: bool, body: Blob)

  /** The transcription request: the audio, its declared type and the prompt. */
  datatype TranscriptionCall = TranscriptionCall(audio: Blob, mimeType: string, prompt: string)

  datatype TranscriptionReply = Transcribed(text: string) | TranscriptionFailed(message: Option<string>)

  datatype Response = Text(text: string) | JsonError(status: int, error: string)

  /** What the handler did: the calls it made and its response. */
  datatype Exchange = Exchange(isolation: Option<IsolationCall>, transcription: Option<TranscriptionCall>, response: Response)

  /** `error.message || "Processing failed"`. */
  function ErrorText(message: Option<string>): (e: string)
    ensures e != ""
    ensures Truthy(message) ==> e == message.value
    ensures !Truthy(message) ==> e == DefaultError
  {
    if Truthy(message) then message.value else DefaultError
  }

  /**
   * The audio to transcribe: the isolated audio when isolation answered ok, the
   * original upload when it answered with an error (reading the error text or
   * failing to read it makes no difference).
   */
  function AudioToTranscribe(original: Blob, reply: IsolationReply): Blob
    requires reply.IsolationResponse?
  {
    if reply.ok then reply.body else original
  }

  /**
   * POST /api/isolate. `isolationKey` is the ElevenLabs key from the environment;
   * `isolate` and `transcribe` are the two services' answers to a call.
   */
  function HandleIsolate(form: Form, isolationKey: Option<string>,
                         isolate: IsolationCall -> IsolationReply,
                         transcribe: TranscriptionCall -> TranscriptionReply): (ex: Exchange)
    ensures form.FormUnreadable? ==> ex == Exchange(None, None, JsonError(500, ErrorText(form.message)))
    ensures form.Form? && form.audio.None? ==> ex == Exchange(None, None, JsonError(400, NoAudioError))
    ensures form.Form? && form.audio.Some? ==>
      && ex.isolation == Some(IsolationCall(if Truthy(isolationKey) then isolationKey.value else "", form.audio.value))
      && var reply := isolate(ex.isolation.value);
         if reply.IsolationUnreachable? then
           ex.transcription.None? && ex.response == JsonError(500, ErrorText(reply.message))
         else
           && ex.transcription.Some?
           && ex.transcription.value.audio == (if reply.ok then reply.body else form.audio.value)
           && ex.transcription.value.prompt == TranscriptionPrompt
    ensures ex.transcription.Some? && transcribe(ex.transcription.value).Transcribed? ==>
      ex.response == Text(Trim(transcribe(ex.transcription.value).text))
    ensures ex.transcription.Some? && transcribe(ex.transcription.value).TranscriptionFailed? ==>
      ex.response == JsonError(500, ErrorText(transcribe(ex.transcription.value).message))
  {
    match form
    case FormUnreadable(message) => Exchange(None, None, JsonError(500, ErrorText(message)))
    case Form(audio) =>
      if audio.None? then Exchange(None, None, JsonError(400, NoAudioError))
      else
        var key := if Truthy(isolationKey) then isolationKey.value else "";
        var isoCall := IsolationCall(key, audio.value);
        match isolate(isoCall)
        case IsolationUnreachable(message) => Exchange(Some(isoCall), None, JsonError(500, ErrorText(message)))
        case reply =>
          var clean := AudioToTranscribe(audio.value, reply);
          var call := TranscriptionCall(clean, TranscriptionMimeType, TranscriptionPrompt);
          var response :=
            match transcribe(call)
            case Transcribed(text) => Text(Trim(text))
            case TranscriptionFailed(message) => JsonError(500, ErrorText(message));
          Exchange(Some(isoCall), Some(call), response)
  }

  /** Whether the isolation error text could be read never changes the outcome. */
  lemma ErrorTextReadabilityIrrelevant(form: Form, key: Option<string>,
                                       isolate: IsolationCall -> IsolationReply,
                                       isolate': IsolationCall -> IsolationReply,
                                       transcribe: TranscriptionCall -> TranscriptionReply)
    requires forall c :: isolate'(c) == (if isolate(c).IsolationResponse? && !isolate(c).ok
                                         then isolate(c).(errorTextReadable := !isolate(c).errorTextReadable)
                                         else isolate(c))
    ensures HandleIsolate(form, key, isolate', transcribe) == HandleIsolate(form, key, isolate, transcribe)
  {
  }

  /** A returned transcription never starts or ends with whitespace. */
  lemma ReturnedTextIsTrimmed(form: Form, key: Option<string>,
                              isolate: IsolationCall -> IsolationReply,
                              transcribe: TranscriptionCall -> TranscriptionReply)
    ensures var r := HandleIsolate(form, key, isolate, transcribe).response;
            r.Text? && r.text != [] ==> !IsWhitespace(r.text[0]) && !IsWhitespace(r.text[|r.text| - 1])
  {
  }
}
