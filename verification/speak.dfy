/**
 * POST /api/speak: text-to-speech through ElevenLabs. The voice identifier is
 * resolved through a fixed fallback chain (Swahili voice for the gender, then
 * the gender's default voice, then a built-in voice); the handler then returns
 * either the synthesized audio or a JSON error.
 */
module Speak {
  import opened JsString

  /** The voice used when no configured voice applies ("Rachel"). */
  const FallbackVoiceId: string := "21m00Tcm4TlvDq8ikWAM"
  const SwahiliLanguage: string := "sw-KE"
  const Male: string := "male"
  const ModelId: string := "eleven_turbo_v2_5"
  const Stability: real := 0.5
  const SimilarityBoost: real := 0.75
  const AudioContentType: string := "audio/mpeg"

  const MissingKeyError: string := "ElevenLabs API key not configured"
  const ProviderError: string := "Failed to generate speech"
  const InternalError: string := "Internal server error"

  /** The environment values the route reads. */
  datatype SpeakEnv = SpeakEnv(
    apiKey: Option<string>,
    maleSw: Option<string>, femaleSw: Option<string>,
    male: Option<string>, female: Option<string>)

  /** The request body's fields; each may be absent. */
  datatype SpeakRequest = SpeakRequest(text: Option<string>, gender: Option<string>, language: Option<string>)

  /** The synthesis request sent to the provider. */
  datatype ProviderCall = ProviderCall(
    voiceId: string, apiKey: string, text: Option<string>,
    modelId: string, stability: real, similarityBoost: real)

  /**
   * The provider's answer: the request failed outright, or a response arrived. A
   * non-ok response's body may or may not parse as JSON; an ok response's audio
   * may or may not be readable.
   */
  datatype ProviderReply =
    | Unreachable
    | Reply(ok: bool, status: int, errorBodyIsJson: bool, audio: Option<seq<bv8>>)

  datatype Response =
    | Audio(bytes: seq<bv8>, contentType: string)
    | JsonError(status: int, error: string)

  /** What the handler did: the provider call it made, if any, and its response. */
  datatype Exchange = Exchange(call: Option<ProviderCall>, response: Response)

  /** The Swahili voice for a gender: the male one only for exactly "male". */
  function SwahiliVoice(gender: Option<string>, env: SpeakEnv): Option<string>
  {
    if gender == Some(Male) then env.maleSw else env.femaleSw
  }

  /** The default voice for a gender: the male one only for exactly "male". */
  function GenderDefaultVoice(gender: Option<string>, env: SpeakEnv): Option<string>
  {
    if gender == Some(Male) then env.male else env.female
  }

  /**
   * The voice identifier: the Swahili voice when the language is exactly "sw-KE" and
   * that voice is set, otherwise the gender default when set, otherwise the built-in one.
   */
  function ResolveVoiceId(language: Option<string>, gender: Option<string>, env: SpeakEnv): (id: string)
    ensures id != ""
    ensures id == FallbackVoiceId || Some(id) in {env.maleSw, env.femaleSw, env.male, env.female}
  {
    var swahili := if language == Some(SwahiliLanguage) then SwahiliVoice(gender, env) else None;
    var chosen := if Truthy(swahili) then swahili else GenderDefaultVoice(gender, env);
    if Truthy(chosen) then chosen.value else FallbackVoiceId
  }

  /** A configured Swahili voice wins for "sw-KE". */
  lemma SwahiliVoiceFirst(gender: Option<string>, env: SpeakEnv)
    requires Truthy(SwahiliVoice(gender, env))
    ensures ResolveVoiceId(Some(SwahiliLanguage), gender, env) == SwahiliVoice(gender, env).value
  {
  }

  /** Without a Swahili voice in play, a configured gender default is used. */
  lemma GenderDefaultSecond(language: Option<string>, gender: Option<string>, env: SpeakEnv)
    requires language != Some(SwahiliLanguage) || !Truthy(SwahiliVoice(gender, env))
    requires Truthy(GenderDefaultVoice(gender, env))
    ensures ResolveVoiceId(language, gender, env) == GenderDefaultVoice(gender, env).value
  {
  }

  /** With nothing configured that applies, the built-in voice is used. */
  lemma FallbackLast(language: Option<string>, gender: Option<string>, env: SpeakEnv)
    requires language != Some(SwahiliLanguage) || !Truthy(SwahiliVoice(gender, env))
    requires !Truthy(GenderDefaultVoice(gender, env))
    ensures ResolveVoiceId(language, gender, env) == FallbackVoiceId
  {
  }

  /** Any gender other than exactly "male", absent included, gets the female voices. */
  lemma NonMaleIsFemale(language: Option<string>, gender: Option<string>, env: SpeakEnv)
    requires gender != Some(Male)
    ensures ResolveVoiceId(language, gender, env) == ResolveVoiceId(language, None, env)
  {
  }

  /**
   * POST /api/speak. `body` is None when the request body is not a JSON object;
   * `synthesize` is the provider's answer to a call.
   */
  function HandleSpeak(body: Option<SpeakRequest>, env: SpeakEnv, synthesize: ProviderCall -> ProviderReply): (ex: Exchange)
    ensures body.None? ==> ex == Exchange(None, JsonError(500, InternalError))
    ensures body.Some? && !Truthy(env.apiKey) ==> ex == Exchange(None, JsonError(500, MissingKeyError))
    ensures ex.call.Some? ==>
      && body.Some? && Truthy(env.apiKey)
      && ex.call.value == ProviderCall(ResolveVoiceId(body.value.language, body.value.gender, env), env.apiKey.value,
                                       body.value.text, ModelId, Stability, SimilarityBoost)
    ensures ex.response.Audio? <==>
      ex.call.Some? && synthesize(ex.call.value).Reply? && synthesize(ex.call.value).ok && synthesize(ex.call.value).audio.Some?
    ensures ex.response.Audio? ==>
      ex.response == Audio(synthesize(ex.call.value).audio.value, AudioContentType)
    ensures ex.call.Some? && synthesize(ex.call.value).Reply? && !synthesize(ex.call.value).ok ==>
      ex.response == (if synthesize(ex.call.value).errorBodyIsJson
                      then JsonError(synthesize(ex.call.value).status, ProviderError)
                      else JsonError(500, InternalError))
    ensures ex.call.Some? && synthesize(ex.call.value).Unreachable? ==> ex.response == JsonError(500, InternalError)
    ensures body.Some? && Truthy(env.apiKey) ==> ex.call.Some?
    ensures (ex.call.Some? && synthesize(ex.call.value).Reply? && synthesize(ex.call.value).ok &&
             synthesize(ex.call.value).audio.None?) ==> ex.response == JsonError(500, InternalError)
  {
    match body
    case None => Exchange(None, JsonError(500, InternalError))
    case Some(req) =>
      var voiceId := ResolveVoiceId(req.language, req.gender, env);
      if !Truthy(env.apiKey) then Exchange(None, JsonError(500, MissingKeyError))
      else
        var call := ProviderCall(voiceId, env.apiKey.value, req.text, ModelId, Stability, SimilarityBoost);
        var response :=
          match synthesize(call)
          case Unreachable => JsonError(500, InternalError)
          case Reply(ok, status, errorBodyIsJson, audio) =>
            if !ok then
              (if errorBodyIsJson then JsonError(status, ProviderError) else JsonError(500, InternalError))
            else if audio.None? then JsonError(500, InternalError)
            else Audio(audio.value, AudioContentType);
        Exchange(Some(call), response)
  }
}
