/** The ElevenLabs text-to-speech client and its settings validator. `fetch`
    is a parameter: a function from the request to what the awaited call
    produced. */
module ElevenLabsService {
  import opened Types
  import opened Text

  const API_URL: string := "https://api.elevenlabs.io/v1"
  const MODEL_ID: string := "eleven_multilingual_v2"
  const STABILITY: real := 0.5
  const SIMILARITY_BOOST: real := 0.75
  const UNKNOWN_VOICE_NAME: string := "Unknown"

  /** A request as sent: method, URL, the `xi-api-key` header and, for the
      speech call, the JSON body's fields. */
  datatype Request =
    | SpeechRequest(url: string, apiKey: string, text: string, modelId: string, stability: real, similarityBoost: real)
    | VoiceRequest(url: string, apiKey: string)

  const MISSING_CREDENTIALS_MESSAGE: string := "ElevenLabs API key and Voice ID are required."
  const API_ERROR_PREFIX: string := "ElevenLabs API Error: "

  /** The speech request for `voiceId`: POST to `/text-to-speech/<voiceId>`. */
  function SpeechRequestFor(text: string, apiKey: string, voiceId: string): (r: Request)
    ensures r.SpeechRequest? && r.url == API_URL + "/text-to-speech/" + voiceId
    ensures r.apiKey == apiKey && r.text == text && r.modelId == MODEL_ID
    ensures r.stability == 0.5 && r.similarityBoost == 0.75
  {
    SpeechRequest(API_URL + "/text-to-speech/" + voiceId, apiKey, text, MODEL_ID, STABILITY, SIMILARITY_BOOST)
  }

  /** `detail?.message || fallback`: an absent or empty detail message falls back. */
  function DetailOr(json: JsonBody, fallback: string): (m: string)
    ensures json.JsonObject? && json.detailMessage.Some? && json.detailMessage.value != "" ==> m == json.detailMessage.value
    ensures !(json.JsonObject? && json.detailMessage.Some? && json.detailMessage.value != "") ==> m == fallback
  {
    if json.JsonObject? && json.detailMessage.Some? && json.detailMessage.value != "" then json.detailMessage.value else fallback
  }

  /** `generateElevenLabsSpeech(text, apiKey, voiceId)`: empty credentials
      are rejected before any request; a non-OK response becomes an error
      carrying the provider's detail message or the status text (or the
      JSON parse error, when the error body is not JSON). */
  function GenerateElevenLabsSpeech(text: string, apiKey: string, voiceId: string, fetch: Request -> FetchResult): (r: Outcome<seq<uint8>>)
    ensures apiKey == "" || voiceId == "" ==> r == Err(ErrorWithMessage(MISSING_CREDENTIALS_MESSAGE))
    ensures r.Ok? <==>
      apiKey != "" && voiceId != ""
      && fetch(SpeechRequestFor(text, apiKey, voiceId)).Responded?
      && fetch(SpeechRequestFor(text, apiKey, voiceId)).response.Ok()
    ensures r.Ok? ==> r.value == fetch(SpeechRequestFor(text, apiKey, voiceId)).response.body
    ensures apiKey != "" && voiceId != "" && fetch(SpeechRequestFor(text, apiKey, voiceId)).Threw? ==>
      r == Err(ErrorWithMessage(fetch(SpeechRequestFor(text, apiKey, voiceId)).message))
    ensures var fetched := fetch(SpeechRequestFor(text, apiKey, voiceId));
      apiKey != "" && voiceId != "" && fetched.Responded? && !fetched.response.Ok() && fetched.response.json.NotJson? ==>
        r == Err(ErrorWithMessage(fetched.response.json.syntaxError))
  {
    if apiKey == "" || voiceId == "" then Err(ErrorWithMessage(MISSING_CREDENTIALS_MESSAGE))
    else match fetch(SpeechRequestFor(text, apiKey, voiceId))
      case Threw(_, message) => Err(ErrorWithMessage(message))
      case Responded(response) =>
        if response.Ok() then Ok(response.body)
        else match response.json
          case NotJson(syntaxError) => Err(ErrorWithMessage(syntaxError))
          case JsonObject(_, _) =>
            Err(ErrorWithMessage(API_ERROR_PREFIX + DetailOr(response.json, response.statusText)))
  }

  /** A non-OK response with a JSON body fails with the prefixed provider
      message, falling back to the status text when the detail message is
      absent or empty. */
  lemma ApiErrorMessage(text: string, apiKey: string, voiceId: string, fetch: Request -> FetchResult)
    requires apiKey != "" && voiceId != ""
    requires fetch(SpeechRequestFor(text, apiKey, voiceId)).Responded?
    requires !fetch(SpeechRequestFor(text, apiKey, voiceId)).response.Ok()
    requires fetch(SpeechRequestFor(text, apiKey, voiceId)).response.json.JsonObject?
    ensures GenerateElevenLabsSpeech(text, apiKey, voiceId, fetch).Err?
    ensures StartsWith(GenerateElevenLabsSpeech(text, apiKey, voiceId, fetch).error.message, API_ERROR_PREFIX)
    ensures GenerateElevenLabsSpeech(text, apiKey, voiceId, fetch).error.message
      == API_ERROR_PREFIX + DetailOr(fetch(SpeechRequestFor(text, apiKey, voiceId)).response.json,
                                     fetch(SpeechRequestFor(text, apiKey, voiceId)).response.statusText)
    ensures var json := fetch(SpeechRequestFor(text, apiKey, voiceId)).response.json;
      json.detailMessage.Some? && json.detailMessage.value != "" ==>
        GenerateElevenLabsSpeech(text, apiKey, voiceId, fetch).error.message == API_ERROR_PREFIX + json.detailMessage.value
    ensures var json := fetch(SpeechRequestFor(text, apiKey, voiceId)).response.json;
      json.detailMessage.None? || json.detailMessage == Some("") ==>
        GenerateElevenLabsSpeech(text, apiKey, voiceId, fetch).error.message
          == API_ERROR_PREFIX + fetch(SpeechRequestFor(text, apiKey, voiceId)).response.statusText
  {
  }

  /** Missing credentials are rejected whatever the network would have done. */
  lemma MissingCredentialsSendNothing(text: string, apiKey: string, voiceId: string, f1: Request -> FetchResult, f2: Request -> FetchResult)
    requires apiKey == "" || voiceId == ""
    ensures GenerateElevenLabsSpeech(text, apiKey, voiceId, f1) == GenerateElevenLabsSpeech(text, apiKey, voiceId, f2)
    ensures GenerateElevenLabsSpeech(text, apiKey, voiceId, f1).Err?
  {
  }

  // ---------------------------------------------------------------------
  // Validation
  // ---------------------------------------------------------------------

  const EMPTY_KEY_MESSAGE: string := "ElevenLabs API Key 不能为空。请在设置中填写。"
  const EMPTY_VOICE_MESSAGE: string := "Voice ID 不能为空。请在设置中填写有效的 Voice ID。"
  const AUTH_MESSAGE: string := "API Key 无效或未授权。请检查 ElevenLabs API Key 是否正确。"
  const RATE_LIMIT_MESSAGE: string := "API 请求过于频繁或配额已用尽。请稍后再试。"
  const NETWORK_MESSAGE: string := "网络连接失败。请检查网络连接、防火墙或 CORS 设置。如果是浏览器 CORS 错误，建议使用后端代理。"
  const UNKNOWN_PREFIX: string := "未知错误: "

  function VoiceRequestFor(apiKey: string, voiceId: string): (r: Request)
    ensures r.VoiceRequest? && r.url == API_URL + "/voices/" + voiceId && r.apiKey == apiKey
  {
    VoiceRequest(API_URL + "/voices/" + voiceId, apiKey)
  }

  function OkMessage(voiceName: string, voiceId: string): string {
    "✅ ElevenLabs 配置有效！Voice: " + voiceName + " (" + voiceId + ")"
  }

  function VoiceNotFoundMessage(voiceId: string): string {
    "Voice ID \"" + voiceId + "\" 不存在。请检查 Voice ID 是否正确，或访问 ElevenLabs 获取可用的 Voice ID。"
  }

  function HttpErrorMessage(status: nat, statusText: string): string {
    "HTTP 错误 " + NatToString(status) + ": " + statusText
  }

  /** The catch block: a thrown error whose message names fetch or network,
      or whose name is `TypeError`, is a network failure. */
  function CaughtError(name: string, message: string): (r: ValidationResult)
    ensures !r.success
    ensures r.errorType == Some(Network) <==> Contains(message, "fetch") || Contains(message, "network") || name == "TypeError"
    ensures r.errorType != Some(Network) ==> r == ValidationResult(false, UNKNOWN_PREFIX + message, Some(Unknown))
  {
    if Contains(message, "fetch") || Contains(message, "network") || name == "TypeError" then
      ValidationResult(false, NETWORK_MESSAGE, Some(Network))
    else
      ValidationResult(false, UNKNOWN_PREFIX + message, Some(Unknown))
  }

  /** The answer for a response: OK (its JSON read for the voice name),
      401, 404, 429, or any other status. */
  function ResponseVerdict(voiceId: string, response: HttpResponse): (r: ValidationResult)
    ensures r.success <==> response.Ok() && response.json.JsonObject?
    ensures response.Ok() && response.json.JsonObject? ==>
      var name := response.json.name;
      r == ValidationResult(true, OkMessage(if name.Some? && name.value != "" then name.value else UNKNOWN_VOICE_NAME, voiceId), None)
    ensures response.Ok() && response.json.NotJson? ==> r == CaughtError("SyntaxError", response.json.syntaxError)
    ensures !response.Ok() && response.status == 401 ==> r == ValidationResult(false, AUTH_MESSAGE, Some(Auth))
    ensures !response.Ok() && response.status == 404 ==> r == ValidationResult(false, VoiceNotFoundMessage(voiceId), Some(Model))
    ensures !response.Ok() && response.status == 429 ==> r == ValidationResult(false, RATE_LIMIT_MESSAGE, Some(Config))
    ensures !response.Ok() && response.status !in {401, 404, 429} ==>
      r == ValidationResult(false, DetailOr(response.json, HttpErrorMessage(response.status, response.statusText)), Some(Unknown))
  {
    if response.Ok() then
      match response.json
      case NotJson(syntaxError) => CaughtError("SyntaxError", syntaxError)
      case JsonObject(_, name) =>
        var voiceName := if name.Some? && name.value != "" then name.value else UNKNOWN_VOICE_NAME;
        ValidationResult(true, OkMessage(voiceName, voiceId), None)
    else if response.status == 401 then ValidationResult(false, AUTH_MESSAGE, Some(Auth))
    else if response.status == 404 then ValidationResult(false, VoiceNotFoundMessage(voiceId), Some(Model))
    else if response.status == 429 then ValidationResult(false, RATE_LIMIT_MESSAGE, Some(Config))
    else ValidationResult(false, DetailOr(response.json, HttpErrorMessage(response.status, response.statusText)), Some(Unknown))
  }

  /** `validateElevenLabsSettings(apiKey, voiceId)`. */
  function ValidateElevenLabsSettings(apiKey: string, voiceId: string, fetch: Request -> FetchResult): (r: ValidationResult)
    ensures IsBlank(apiKey) ==> r == ValidationResult(false, EMPTY_KEY_MESSAGE, Some(Config))
    ensures !IsBlank(apiKey) && IsBlank(voiceId) ==> r == ValidationResult(false, EMPTY_VOICE_MESSAGE, Some(Config))
    ensures r.success <==>
      !IsBlank(apiKey) && !IsBlank(voiceId)
      && fetch(VoiceRequestFor(apiKey, voiceId)).Responded?
      && fetch(VoiceRequestFor(apiKey, voiceId)).response.Ok()
      && fetch(VoiceRequestFor(apiKey, voiceId)).response.json.JsonObject?
    ensures !r.success ==> r.errorType.Some?
    ensures !IsBlank(apiKey) && !IsBlank(voiceId) && fetch(VoiceRequestFor(apiKey, voiceId)).Threw? ==>
      r == CaughtError(fetch(VoiceRequestFor(apiKey, voiceId)).name, fetch(VoiceRequestFor(apiKey, voiceId)).message)
    ensures !IsBlank(apiKey) && !IsBlank(voiceId) && fetch(VoiceRequestFor(apiKey, voiceId)).Responded? ==>
      r == ResponseVerdict(voiceId, fetch(VoiceRequestFor(apiKey, voiceId)).response)
  {
    if IsBlank(apiKey) then ValidationResult(false, EMPTY_KEY_MESSAGE, Some(Config))
    else if IsBlank(voiceId) then ValidationResult(false, EMPTY_VOICE_MESSAGE, Some(Config))
    else match fetch(VoiceRequestFor(apiKey, voiceId))
      case Threw(name, message) => CaughtError(name, message)
      case Responded(response) => ResponseVerdict(voiceId, response)
  }

  /** A voice without a name is reported as `Unknown`. */
  lemma UnnamedVoiceReportedUnknown(apiKey: string, voiceId: string, fetch: Request -> FetchResult)
    requires !IsBlank(apiKey) && !IsBlank(voiceId)
    requires fetch(VoiceRequestFor(apiKey, voiceId)).Responded?
    requires fetch(VoiceRequestFor(apiKey, voiceId)).response.Ok()
    requires fetch(VoiceRequestFor(apiKey, voiceId)).response.json == JsonObject(None, None)
    ensures ValidateElevenLabsSettings(apiKey, voiceId, fetch) == ValidationResult(true, OkMessage(UNKNOWN_VOICE_NAME, voiceId), None)
  {
  }

  /** A whitespace-only key fails validation yet is sent by the speech call,
      which only rejects the empty string. */
  lemma WhitespaceKeyValidatedButSent(text: string, voiceId: string, fetch: Request -> FetchResult)
    requires voiceId != ""
    requires fetch(SpeechRequestFor(text, " ", voiceId)).Responded?
    requires fetch(SpeechRequestFor(text, " ", voiceId)).response.Ok()
    ensures !ValidateElevenLabsSettings(" ", voiceId, fetch).success
    ensures GenerateElevenLabsSpeech(text, " ", voiceId, fetch).Ok?
  {
    assert IsWhitespace(" "[0]);
  }
}
