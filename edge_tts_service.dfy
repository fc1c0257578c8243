/** The Edge TTS client (a free proxy, no key) and its validator. Every error
    raised inside the request is caught once and rethrown with a friendlier
    message; `fetch` is a parameter. */
module EdgeTtsService {
  import opened Types
  import opened Text

  const URL: string := "https://tts.travisvn.com/api/tts"
  const DEFAULT_VOICE: string := "en-US-AriaNeural"
  const LANGUAGE: string := "en-US"
  const SPEED: real := 1.0
  const VALIDATION_TEXT: string := "Test"
  /** Bodies shorter than this are not accepted as audio. */
  const MIN_AUDIO_BYTES: nat := 100

  /** The POST request and its JSON body. */
  datatype Request = Request(url: string, text: string, voice: string, language: string, speed: real)

  function RequestFor(text: string, voiceName: string): (r: Request)
    ensures r.url == URL && r.text == text && r.voice == voiceName && r.language == LANGUAGE && r.speed == 1.0
  {
    Request(URL, text, voiceName, LANGUAGE, SPEED)
  }

  // The messages below are each one string of the source. They are written as
  // concatenations so that the characters the substring lemmas inspect (the
  // proofs that a message does or does not contain "fetch", "429" or "500")
  // sit at the start of a piece, where the verifier can index them cheaply.
  const STATUS_PREFIX: string := "Edge TTS service " + "responded with " + "status: "
  const INVALID_AUDIO_MESSAGE: string := "Received invalid " + "audio data from " + "Edge TTS service"
  const CONNECT_MESSAGE: string := "Unable to " + "connect to Edge TTS service. Please check your internet connection."
  const RATE_LIMIT_MESSAGE: string := "Edge TTS service r" + "ate limit exceeded. Please try again in a few moments."
  const UNAVAILABLE_MESSAGE: string := "Edge TTS service i" + "s currently unavailable. Please try again later or use a different TTS provider."
  const FAILED_PREFIX: string := "Edge TTS failed: "

  /** The error thrown for a non-OK response. */
  function StatusMessage(status: nat): string {
    STATUS_PREFIX + NatToString(status)
  }

  /** The body of the `try`: the raw error it throws, before the `catch` rewrites it. */
  function RawAttempt(fetched: FetchResult): (r: Outcome<seq<uint8>>)
    ensures r.Ok? <==> fetched.Responded? && fetched.response.Ok() && |fetched.response.body| >= MIN_AUDIO_BYTES
  {
    match fetched
    case Threw(_, message) => Err(ErrorWithMessage(message))
    case Responded(response) =>
      if !response.Ok() then Err(ErrorWithMessage(StatusMessage(response.status)))
      else if |response.body| < MIN_AUDIO_BYTES then Err(ErrorWithMessage(INVALID_AUDIO_MESSAGE))
      else Ok(response.body)
  }

  /** The `catch` block's rewriting of a caught message. */
  function Rethrown(message: string): (m: string)
    ensures Contains(message, "fetch") ==> m == CONNECT_MESSAGE
    ensures !Contains(message, "fetch") && Contains(message, "status: 429") ==> m == RATE_LIMIT_MESSAGE
    ensures !Contains(message, "fetch") && !Contains(message, "status: 429") && Contains(message, "status: 500") ==> m == UNAVAILABLE_MESSAGE
    ensures !Contains(message, "fetch") && !Contains(message, "status: 429") && !Contains(message, "status: 500") ==> m == FAILED_PREFIX + message
  {
    if Contains(message, "fetch") then CONNECT_MESSAGE
    else if Contains(message, "status: 429") then RATE_LIMIT_MESSAGE
    else if Contains(message, "status: 500") then UNAVAILABLE_MESSAGE
    else FAILED_PREFIX + message
  }

  /** `generateEdgeSpeech(text, voiceName)`. */
  function GenerateEdgeSpeech(text: string, voiceName: string, fetch: Request -> FetchResult): (r: Outcome<seq<uint8>>)
    ensures r.Ok? <==> RawAttempt(fetch(RequestFor(text, voiceName))).Ok?
    ensures r.Ok? ==> r.value == fetch(RequestFor(text, voiceName)).response.body
    ensures r.Err? ==> r.error == ErrorWithMessage(Rethrown(RawAttempt(fetch(RequestFor(text, voiceName))).error.message))
  {
    match RawAttempt(fetch(RequestFor(text, voiceName)))
    case Ok(bytes) => Ok(bytes)
    case Err(e) => Err(ErrorWithMessage(Rethrown(e.message)))
  }

  /** The status message never mentions fetch. */
  lemma StatusMessageNoFetch(status: nat)
    ensures !Contains(StatusMessage(status), "fetch")
  {
    var d := NatToString(status);
    assert 'f' !in STATUS_PREFIX;
    assert forall i | 0 <= i < |d| :: d[i] != 'f';
    AbsentCharNotContained(StatusMessage(status), "fetch", 0);
  }

  lemma StatusPrefixShape()
    ensures NoDigits(STATUS_PREFIX)
    ensures STATUS_PREFIX[|STATUS_PREFIX| - |"status: "|..] == "status: "
  {
    var a, b, c := "Edge TTS service ", "responded with ", "status: ";
    assert STATUS_PREFIX == a + b + c;
    assert (a + b + c)[|a + b|..] == c;
  }

  /** A passed-through message differs from every fixed message. */
  lemma FailedIsNoFixedMessage(x: string)
    ensures FAILED_PREFIX + x !in {CONNECT_MESSAGE, RATE_LIMIT_MESSAGE, UNAVAILABLE_MESSAGE}
  {
    assert (FAILED_PREFIX + x)[9] == 'f';
    assert CONNECT_MESSAGE[0] == 'U';
    assert RATE_LIMIT_MESSAGE[9] == 's';
    assert UNAVAILABLE_MESSAGE[9] == 's';
  }

  /** Which of the catch block's signals a status message carries. */
  lemma StatusMessageSignals(status: nat)
    ensures !Contains(StatusMessage(status), "fetch")
    ensures Contains(StatusMessage(status), "status: 429") <==> StartsWith(NatToString(status), "429")
    ensures Contains(StatusMessage(status), "status: 500") <==> StartsWith(NatToString(status), "500")
  {
    StatusMessageNoFetch(status);
    StatusPrefixShape();
    DigitSuffixMatch(STATUS_PREFIX, NatToString(status), "status: ", "429");
    DigitSuffixMatch(STATUS_PREFIX, NatToString(status), "status: ", "500");
    assert "status: " + "429" == "status: 429";
    assert "status: " + "500" == "status: 500";
  }

  /** A non-OK response is reported as rate limiting exactly when the status
      renders with a leading `429`. */
  lemma RateLimitIffLeading429(status: nat)
    ensures Rethrown(StatusMessage(status)) == RATE_LIMIT_MESSAGE <==> StartsWith(NatToString(status), "429")
  {
    StatusMessageSignals(status);
    assert RATE_LIMIT_MESSAGE[17] != UNAVAILABLE_MESSAGE[17];
    FailedIsNoFixedMessage(StatusMessage(status));
  }

  /** Among three-digit statuses, exactly 429 is reported as rate limiting. */
  lemma RateLimitExactlyFor429(status: nat)
    requires 100 <= status <= 999
    ensures Rethrown(StatusMessage(status)) == RATE_LIMIT_MESSAGE <==> status == 429
  {
    RateLimitIffLeading429(status);
    NatToStringLength3(status);
    if StartsWith(NatToString(status), "429") {
      SamePrefixSameLength(NatToString(status), "429");
      assert NatToString(429) == "429";
      NatToStringInjective(status, 429);
    }
  }

  /** Among three-digit statuses, exactly 500 is reported as unavailable. */
  lemma UnavailableExactlyFor500(status: nat)
    requires 100 <= status <= 999
    ensures Rethrown(StatusMessage(status)) == UNAVAILABLE_MESSAGE <==> status == 500
  {
    StatusMessageSignals(status);
    NatToStringLength3(status);
    assert RATE_LIMIT_MESSAGE[17] != UNAVAILABLE_MESSAGE[17];
    FailedIsNoFixedMessage(StatusMessage(status));
    if StartsWith(NatToString(status), "500") {
      SamePrefixSameLength(NatToString(status), "500");
      assert NatToString(500) == "500";
      NatToStringInjective(status, 500);
      assert !StartsWith(NatToString(status), "429");
    }
  }

  /** Any other failing status is passed through behind the generic prefix. */
  lemma OtherStatusPassedThrough(status: nat)
    requires 100 <= status <= 999 && status != 429 && status != 500
    ensures Rethrown(StatusMessage(status)) == FAILED_PREFIX + StatusMessage(status)
  {
    RateLimitExactlyFor429(status);
    UnavailableExactlyFor500(status);
    StatusMessageSignals(status);
  }

  /** A body shorter than 100 bytes is reported as invalid audio behind the generic prefix. */
  lemma ShortBodyReported(text: string, voiceName: string, fetch: Request -> FetchResult)
    requires fetch(RequestFor(text, voiceName)).Responded?
    requires fetch(RequestFor(text, voiceName)).response.Ok()
    requires |fetch(RequestFor(text, voiceName)).response.body| < MIN_AUDIO_BYTES
    ensures GenerateEdgeSpeech(text, voiceName, fetch) == Err(ErrorWithMessage(FAILED_PREFIX + INVALID_AUDIO_MESSAGE))
  {
    AbsentCharNotContained(INVALID_AUDIO_MESSAGE, "fetch", 4);
    AbsentCharNotContained(INVALID_AUDIO_MESSAGE, "status: 429", 6);
    AbsentCharNotContained(INVALID_AUDIO_MESSAGE, "status: 500", 6);
  }

  /** A failed `fetch` whose message names fetch becomes the connection message. */
  lemma FetchFailureReported(text: string, voiceName: string, fetch: Request -> FetchResult)
    requires fetch(RequestFor(text, voiceName)).Threw?
    requires Contains(fetch(RequestFor(text, voiceName)).message, "fetch")
    ensures GenerateEdgeSpeech(text, voiceName, fetch) == Err(ErrorWithMessage(CONNECT_MESSAGE))
  {
  }

  // ---------------------------------------------------------------------
  // Validation
  // ---------------------------------------------------------------------

  /** `{ success, message }`, the validator's result (no error kind). */
  datatype Check = Check(success: bool, message: string)

  const READY_MESSAGE: string := "Edge TTS is ready! Free, unlimited text-to-speech with natural-sounding voices."
  const VALIDATION_SHORT_MESSAGE: string := "Edge TTS service validation failed. The service might be experiencing issues."
  const VALIDATION_FAILED_PREFIX: string := "Edge TTS validation failed: "

  function HttpUnavailableMessage(status: nat): string {
    "Edge TTS service is currently unavailable (HTTP " + NatToString(status) + "). Please try again later or use a different TTS provider."
  }

  /** `validateEdgeTTSSettings()`: synthesises `Test` with the default voice. */
  function ValidateEdgeTtsSettings(fetch: Request -> FetchResult): (r: Check)
    ensures r.success <==> RawAttempt(fetch(RequestFor(VALIDATION_TEXT, DEFAULT_VOICE))).Ok?
    ensures r.success ==> r.message == READY_MESSAGE
    ensures fetch(RequestFor(VALIDATION_TEXT, DEFAULT_VOICE)).Responded? && !fetch(RequestFor(VALIDATION_TEXT, DEFAULT_VOICE)).response.Ok() ==>
      r.message == HttpUnavailableMessage(fetch(RequestFor(VALIDATION_TEXT, DEFAULT_VOICE)).response.status)
    ensures fetch(RequestFor(VALIDATION_TEXT, DEFAULT_VOICE)).Threw? ==>
      var m := fetch(RequestFor(VALIDATION_TEXT, DEFAULT_VOICE)).message;
      r.message == if Contains(m, "fetch") || Contains(m, "network") then CONNECT_MESSAGE else VALIDATION_FAILED_PREFIX + m
    ensures var fetched := fetch(RequestFor(VALIDATION_TEXT, DEFAULT_VOICE));
      fetched.Responded? && fetched.response.Ok() && |fetched.response.body| < MIN_AUDIO_BYTES ==>
        r == Check(false, VALIDATION_SHORT_MESSAGE)
  {
    match fetch(RequestFor(VALIDATION_TEXT, DEFAULT_VOICE))
    case Threw(_, message) =>
      if Contains(message, "fetch") || Contains(message, "network") then Check(false, CONNECT_MESSAGE)
      else Check(false, VALIDATION_FAILED_PREFIX + message)
    case Responded(response) =>
      if !response.Ok() then Check(false, HttpUnavailableMessage(response.status))
      else if |response.body| < MIN_AUDIO_BYTES then Check(false, VALIDATION_SHORT_MESSAGE)
      else Check(true, READY_MESSAGE)
  }

  /** The validator succeeds exactly when the same request would yield audio. */
  lemma ValidatorAgreesWithSpeech(fetch: Request -> FetchResult)
    ensures ValidateEdgeTtsSettings(fetch).success <==> GenerateEdgeSpeech(VALIDATION_TEXT, DEFAULT_VOICE, fetch).Ok?
  {
  }
}
