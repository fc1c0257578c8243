/** The Gemini service: the retry/backoff executor, the API-key fallback, the
    story and speech requests, the error classifier and the two validators.
    The SDK's `generateContent` is a parameter: a function from the request
    and the attempt number to what the awaited call settled to. */
module GeminiService {
  import opened Types
  import opened Text

  // ---------------------------------------------------------------------
  // Retry with exponential backoff
  // ---------------------------------------------------------------------

  /** The defaults that both callers also pass explicitly. */
  const MAX_RETRIES: int := 3
  const INITIAL_DELAY_MS: int := 2000

  /** The retry predicate: the serialised error names 503, UNAVAILABLE or
      overloaded, or the message names 503, overloaded, 429, rate limit,
      UNAVAILABLE, network or timeout. */
  predicate ShouldRetry(e: Failure) {
    || Contains(e.serialized, "503")
    || Contains(e.serialized, "UNAVAILABLE")
    || Contains(e.serialized, "overloaded")
    || Contains(e.message, "503")
    || Contains(e.message, "overloaded")
    || Contains(e.message, "429")
    || Contains(e.message, "rate limit")
    || Contains(e.message, "UNAVAILABLE")
    || Contains(e.message, "network")
    || Contains(e.message, "timeout")
  }

  /** An attempt that failed with an error the executor retries. */
  predicate Retryable<T>(o: Outcome<T>) {
    o.Err? && ShouldRetry(o.error)
  }

  /** How the promise returned by the executor settles. `RejectedUndefined`
      is `throw lastError` with `lastError` never assigned. */
  datatype Settled<+T> = Resolved(value: T) | Rejected(error: Failure) | RejectedUndefined

  /** The executor's answer when it stops at an attempt that settled to `o`. */
  function Settle<T>(o: Outcome<T>): (r: Settled<T>)
    ensures r.Resolved? <==> o.Ok?
    ensures o.Ok? ==> r == Resolved(o.value)
    ensures o.Err? ==> r == Rejected(o.error)
  {
    match o
    case Ok(v) => Resolved(v)
    case Err(e) => Rejected(e)
  }

  /** `Math.pow(2, n)` for a non-negative integer `n`. */
  function Pow2(n: nat): (r: nat)
    ensures r >= 1
  {
    if n == 0 then 1 else 2 * Pow2(n - 1)
  }

  /** The first `n` waits of the schedule: the wait after attempt `j` is
      `initialDelay * 2^j`. */
  function Backoff(initialDelay: int, n: nat): (s: seq<int>)
    ensures |s| == n
    ensures forall j | 0 <= j < n :: s[j] == initialDelay * Pow2(j)
  {
    if n == 0 then [] else Backoff(initialDelay, n - 1) + [initialDelay * Pow2(n - 1)]
  }

  /** The index of the attempt at which the executor stops, searching from `k`:
      the first attempt that succeeds, fails with a non-retryable error, or is
      the last one allowed. */
  function StopIndex<T>(op: nat -> Outcome<T>, maxRetries: int, k: nat): (r: nat)
    requires k < maxRetries
    ensures k <= r < maxRetries
    ensures forall j | k <= j < r :: Retryable(op(j))
    ensures r == maxRetries - 1 || !Retryable(op(r))
    decreases maxRetries - k
  {
    if k == maxRetries - 1 || !Retryable(op(k)) then k else StopIndex(op, maxRetries, k + 1)
  }

  /** The number of times the executor invokes the operation. */
  function Attempts<T>(op: nat -> Outcome<T>, maxRetries: int): (n: nat)
    ensures maxRetries <= 0 ==> n == 0
    ensures maxRetries > 0 ==> 1 <= n <= maxRetries
  {
    if maxRetries <= 0 then 0 else StopIndex(op, maxRetries, 0) + 1
  }

  /** How the executor's promise settles. */
  function RetryResult<T>(op: nat -> Outcome<T>, maxRetries: int): (r: Settled<T>)
    ensures r.RejectedUndefined? <==> maxRetries <= 0
  {
    if maxRetries <= 0 then RejectedUndefined else Settle(op(StopIndex(op, maxRetries, 0)))
  }

  /** The waits the executor requests before it settles. */
  function Sleeps<T>(op: nat -> Outcome<T>, maxRetries: int, initialDelay: int): (s: seq<int>)
    ensures |s| == if maxRetries <= 0 then 0 else Attempts(op, maxRetries) - 1
  {
    Backoff(initialDelay, if maxRetries <= 0 then 0 else Attempts(op, maxRetries) - 1)
  }

  /** Any index with the stopping property is the stopping index, searching from `i`. */
  lemma {:induction false} StopIndexUnique<T>(op: nat -> Outcome<T>, maxRetries: int, i: nat, k: nat)
    requires i <= k < maxRetries
    requires forall j | i <= j < k :: Retryable(op(j))
    requires k == maxRetries - 1 || !Retryable(op(k))
    ensures StopIndex(op, maxRetries, i) == k
    decreases k - i
  {
    if i < k {
      assert Retryable(op(i));
      StopIndexUnique(op, maxRetries, i + 1, k);
    }
  }

  /** `retryWithBackoff(fn, maxRetries, initialDelay)`: attempt `k` of `fn`
      settles to `op(k)`; the waits are recorded in `sleeps` instead of
      being slept. */
  method RetryWithBackoff<T>(op: nat -> Outcome<T>, maxRetries: int, initialDelay: int)
    returns (result: Settled<T>, calls: nat, sleeps: seq<int>)
    ensures calls == Attempts(op, maxRetries)
    ensures result == RetryResult(op, maxRetries)
    ensures sleeps == Sleeps(op, maxRetries, initialDelay)
  {
    var lastError: Option<Failure> := None;
    calls, sleeps := 0, [];
    var attempt: nat := 0;
    while attempt < maxRetries
      invariant attempt == 0 || attempt < maxRetries
      invariant calls == attempt
      invariant sleeps == Backoff(initialDelay, attempt)
      invariant forall j | 0 <= j < attempt :: Retryable(op(j))
      invariant lastError.None? <==> attempt == 0
    {
      var outcome := op(attempt);
      calls := calls + 1;
      if outcome.Ok? {
        StopIndexUnique(op, maxRetries, 0, attempt);
        return Resolved(outcome.value), calls, sleeps;
      }
      lastError := Some(outcome.error);
      var shouldRetry := ShouldRetry(outcome.error);
      if !shouldRetry || attempt == maxRetries - 1 {
        StopIndexUnique(op, maxRetries, 0, attempt);
        return Rejected(outcome.error), calls, sleeps;
      }
      var delayTime := initialDelay * Pow2(attempt);
      sleeps := sleeps + [delayTime];
      attempt := attempt + 1;
    }
    result := match lastError
      case Some(e) => Rejected(e)
      case None => RejectedUndefined;
  }

  /** Any run stops within `maxRetries` attempts, after at least one. */
  lemma AttemptsAtMostMax<T>(op: nat -> Outcome<T>, maxRetries: int)
    requires maxRetries >= 1
    ensures 1 <= Attempts(op, maxRetries) <= maxRetries
    ensures |Sleeps(op, maxRetries, INITIAL_DELAY_MS)| == Attempts(op, maxRetries) - 1
  {
  }

  /** The first success is returned at once: when attempts `0..k-1` failed
      retryably and attempt `k` succeeds, the executor returns attempt `k`'s
      value after exactly `k + 1` calls and `k` waits. */
  lemma FirstSuccessReturned<T>(op: nat -> Outcome<T>, maxRetries: int, initialDelay: int, k: nat)
    requires k < maxRetries
    requires forall j | 0 <= j < k :: Retryable(op(j))
    requires op(k).Ok?
    ensures Attempts(op, maxRetries) == k + 1
    ensures RetryResult(op, maxRetries) == Resolved(op(k).value)
    ensures Sleeps(op, maxRetries, initialDelay) == Backoff(initialDelay, k)
  {
    StopIndexUnique(op, maxRetries, 0, k);
  }

  /** An error the predicate does not match is rethrown after one call and no wait. */
  lemma NonRetryableRethrownAtOnce<T>(op: nat -> Outcome<T>, maxRetries: int, initialDelay: int)
    requires maxRetries >= 1
    requires op(0).Err? && !ShouldRetry(op(0).error)
    ensures Attempts(op, maxRetries) == 1
    ensures RetryResult(op, maxRetries) == Rejected(op(0).error)
    ensures Sleeps(op, maxRetries, initialDelay) == []
  {
    StopIndexUnique(op, maxRetries, 0, 0);
  }

  /** With the defaults (3 attempts, 2000 ms), a run that fails retryably
      every time sleeps 2000 ms then 4000 ms and rethrows the third error. */
  lemma DefaultScheduleAllFail<T>(op: nat -> Outcome<T>)
    requires Retryable(op(0)) && Retryable(op(1)) && Retryable(op(2))
    ensures Attempts(op, MAX_RETRIES) == 3
    ensures Sleeps(op, MAX_RETRIES, INITIAL_DELAY_MS) == [2000, 4000]
    ensures RetryResult(op, MAX_RETRIES) == Rejected(op(2).error)
  {
    StopIndexUnique(op, MAX_RETRIES, 0, 2);
    assert Backoff(2000, 2) == [2000, 4000];
  }

  /** With the defaults no run ever waits 8000 ms: every wait is 2000 or 4000. */
  lemma DefaultScheduleNeverEightSeconds<T>(op: nat -> Outcome<T>)
    ensures forall w | w in Sleeps(op, MAX_RETRIES, INITIAL_DELAY_MS) :: w == 2000 || w == 4000
    ensures 8000 !in Sleeps(op, MAX_RETRIES, INITIAL_DELAY_MS)
  {
    var s := Sleeps(op, MAX_RETRIES, INITIAL_DELAY_MS);
    assert |s| <= 2;
    assert Pow2(1) == 2;
  }

  /** Each wait is twice the one before it. */
  lemma BackoffDoubles(initialDelay: int, n: nat, j: nat)
    requires j + 1 < n
    ensures Backoff(initialDelay, n)[j + 1] == 2 * Backoff(initialDelay, n)[j]
  {
    assert Pow2(j + 1) == 2 * Pow2(j);
  }

  /** An operation that fails twice with an overload and then succeeds
      returns the success after waits of 2000 and 4000 ms and three calls. */
  lemma OverloadTwiceThenSuccess<T>(op: nat -> Outcome<T>)
    requires op(0).Err? && Contains(op(0).error.serialized, "503")
    requires op(1).Err? && Contains(op(1).error.message, "overloaded")
    requires op(2).Ok?
    ensures Attempts(op, MAX_RETRIES) == 3
    ensures Sleeps(op, MAX_RETRIES, INITIAL_DELAY_MS) == [2000, 4000]
    ensures RetryResult(op, MAX_RETRIES) == Resolved(op(2).value)
  {
    FirstSuccessReturned(op, MAX_RETRIES, INITIAL_DELAY_MS, 2);
    assert Backoff(2000, 2) == [2000, 4000];
  }

  // ---------------------------------------------------------------------
  // Client key
  // ---------------------------------------------------------------------

  /** `getAIClient(apiKey)`'s key: the given key when it is not blank after
      trimming, otherwise the build-time environment key. */
  function ClientKey(apiKey: string, envKey: string): (k: string)
    ensures !IsBlank(apiKey) ==> k == apiKey
    ensures IsBlank(apiKey) ==> k == envKey
  {
    if !IsBlank(apiKey) then apiKey else envKey
  }

  // ---------------------------------------------------------------------
  // Story generation
  // ---------------------------------------------------------------------

  const STORY_INSTRUCTION: string :=
    "Analyze the provided image with strict accuracy. Describe only what is clearly visible. Do not invent details or make assumptions about ambiguous elements (e.g., if gender isn't clear, use \"a person\").\n\n"
    + "After describing the image, determine if it depicts a well-known person, place, or a significant event by using the search tool. Prioritize official and reputable sources.\n\n"
    + "- If it IS a significant event/person/place: Weave the factual context into a compelling narrative based on the image.\n"
    + "- If it is NOT a significant event/person/place: Focus primarily on a deep, creative interpretation of the visual details in the image. Use search results only for minor contextual details if necessary.\n\n"
    + "The final story should be vivid, creative, and engaging."

  const CUSTOM_REQUIREMENTS_HEADER: string := "\n\n**User's Custom Requirements (PRIORITY):**\n"

  /** The uploaded image as `fileToBase64` reads it, with the file's MIME type. */
  datatype ImageFile = ImageFile(base64: string, mimeType: string)

  datatype Part = TextPart(text: string) | InlineData(data: string, mimeType: string)

  /** One `generateContent` request for a story, with the Google Search tool
      on. It records the prompt and the image its contents are built from;
      the parts it carries are `StoryContents`. */
  datatype StoryRequest = StoryRequest(apiKey: string, model: string, prompt: string, imageFile: Option<ImageFile>,
                                       googleSearch: bool)

  /** `response.text` (absent read as "") and the first candidate's grounding chunks. */
  datatype StoryResponse = StoryResponse(text: string, groundingChunks: Option<seq<GroundingChunk>>)

  /** `StoryResult`. */
  datatype StoryResult = StoryResult(story: string, sources: seq<GroundingChunk>)

  /** The instruction text, with the custom requirements appended when given. */
  function StoryPromptText(prompt: string): (t: string)
  {
    if IsBlank(prompt) then STORY_INSTRUCTION else STORY_INSTRUCTION + CUSTOM_REQUIREMENTS_HEADER + prompt
  }

  /** The request parts: the image part (when there is an image) before the text part. */
  function StoryParts(prompt: string, imageFile: Option<ImageFile>): (parts: seq<Part>)
  {
    var text := TextPart(StoryPromptText(prompt));
    if imageFile.Some? then [InlineData(imageFile.value.base64, imageFile.value.mimeType), text] else [text]
  }

  /** The user's prompt reaches the request only when it is not blank, and
      then as the tail of the text, after the instruction and the header. */
  lemma StoryPromptAppendedOnlyWhenNotBlank(prompt: string)
    ensures StartsWith(StoryPromptText(prompt), STORY_INSTRUCTION)
    ensures IsBlank(prompt) <==> StoryPromptText(prompt) == STORY_INSTRUCTION
    ensures !IsBlank(prompt) ==>
      StoryPromptText(prompt)[|STORY_INSTRUCTION|..] == CUSTOM_REQUIREMENTS_HEADER + prompt
  {
    var t := StoryPromptText(prompt);
    if !IsBlank(prompt) {
      assert |t| > |STORY_INSTRUCTION|;
    }
  }

  /** The image part, when present, comes first; the text part is always last. */
  lemma StoryPartsOrder(prompt: string, imageFile: Option<ImageFile>)
    ensures |StoryParts(prompt, imageFile)| == (if imageFile.Some? then 2 else 1)
    ensures StoryParts(prompt, imageFile)[|StoryParts(prompt, imageFile)| - 1] == TextPart(StoryPromptText(prompt))
    ensures imageFile.Some? ==>
      StoryParts(prompt, imageFile)[0] == InlineData(imageFile.value.base64, imageFile.value.mimeType)
    ensures forall i | 0 <= i < |StoryParts(prompt, imageFile)| - 1 :: StoryParts(prompt, imageFile)[i].InlineData?
  {
  }

  /** Builds the parts as the source does: start from the instruction,
      append the custom requirements, then put the image part in front. */
  method BuildStoryParts(prompt: string, imageFile: Option<ImageFile>) returns (parts: seq<Part>)
    ensures parts == StoryParts(prompt, imageFile)
    ensures parts[|parts| - 1].TextPart? && StartsWith(parts[|parts| - 1].text, STORY_INSTRUCTION)
    ensures imageFile.Some? <==> |parts| == 2
  {
    var basePrompt := STORY_INSTRUCTION;
    if !IsBlank(prompt) {
      basePrompt := basePrompt + CUSTOM_REQUIREMENTS_HEADER + prompt;
    }
    parts := [TextPart(basePrompt)];
    if imageFile.Some? {
      parts := [InlineData(imageFile.value.base64, imageFile.value.mimeType)] + parts;
    }
    StoryPromptAppendedOnlyWhenNotBlank(prompt);
  }

  /** The request `generateStory` sends on every attempt. */
  function StoryRequestFor(prompt: string, imageFile: Option<ImageFile>, model: string, apiKey: string, envKey: string): (r: StoryRequest)
  {
    StoryRequest(ClientKey(apiKey, envKey), model, prompt, imageFile, true)
  }

  /** The parts a story request carries. */
  function StoryContents(request: StoryRequest): seq<Part> {
    StoryParts(request.prompt, request.imageFile)
  }

  /** One attempt's result: the text and the grounding chunks, defaulting to none. */
  function StoryAttempt(response: Outcome<StoryResponse>): (r: Outcome<StoryResult>)
    ensures response.Err? <==> r.Err?
    ensures response.Err? ==> r.error == response.error
    ensures response.Ok? ==> r.value.story == response.value.text
    ensures response.Ok? && response.value.groundingChunks.None? ==> r.value.sources == []
    ensures response.Ok? && response.value.groundingChunks.Some? ==> r.value.sources == response.value.groundingChunks.value
  {
    match response
    case Err(e) => Err(e)
    case Ok(resp) =>
      Ok(StoryResult(resp.text, if resp.groundingChunks.Some? then resp.groundingChunks.value else []))
  }

  /** The operation `generateStory` hands to the executor. */
  function StoryOp(request: StoryRequest, service: (StoryRequest, nat) -> Outcome<StoryResponse>): nat -> Outcome<StoryResult>
  {
    (k: nat) => StoryAttempt(service(request, k))
  }

  /** `generateStory(prompt, imageFile, model, apiKey)`. */
  method GenerateStory(prompt: string, imageFile: Option<ImageFile>, model: string, apiKey: string, envKey: string,
                       service: (StoryRequest, nat) -> Outcome<StoryResponse>)
    returns (request: StoryRequest, result: Settled<StoryResult>, calls: nat, sleeps: seq<int>)
    ensures request == StoryRequestFor(prompt, imageFile, model, apiKey, envKey)
    ensures result == RetryResult(StoryOp(request, service), MAX_RETRIES)
    ensures calls == Attempts(StoryOp(request, service), MAX_RETRIES)
    ensures sleeps == Sleeps(StoryOp(request, service), MAX_RETRIES, INITIAL_DELAY_MS)
  {
    var parts := BuildStoryParts(prompt, imageFile);
    request := StoryRequest(ClientKey(apiKey, envKey), model, prompt, imageFile, true);
    assert StoryContents(request) == parts;
    result, calls, sleeps := RetryWithBackoff(StoryOp(request, service), MAX_RETRIES, INITIAL_DELAY_MS);
  }

  // ---------------------------------------------------------------------
  // Speech generation
  // ---------------------------------------------------------------------

  const SPEECH_INSTRUCTION: string :=
    "Read this story in a natural, human-like voice, with engaging and varied intonation suitable for an English learner. Avoid a robotic tone. Story: "
  const SPEECH_VOICE: string := "Zephyr"
  /** One string in the source. It is written as a concatenation so that the
      substring lemmas below, which show it holds none of the retry signals,
      can read its characters piece by piece instead of unfolding the whole
      literal. */
  const MISSING_AUDIO_MESSAGE: string := "The API did " + "not return " + "any audio " + "data."

  /** One `generateContent` request for audio (response modality AUDIO). It
      records the story it reads; the text it carries is `SpeechText`. */
  datatype SpeechRequest = SpeechRequest(apiKey: string, model: string, story: string, voiceName: string)

  /** The text a speech request carries: the reading instruction, then the story. */
  function SpeechText(request: SpeechRequest): string {
    SPEECH_INSTRUCTION + request.story
  }

  /** The first candidate's first part's inline data, if any. */
  datatype SpeechResponse = SpeechResponse(audioData: Option<string>)

  /** The request `generateGeminiSpeech` sends on every attempt. */
  function SpeechRequestFor(text: string, model: string, apiKey: string, envKey: string): (r: SpeechRequest)
  {
    SpeechRequest(ClientKey(apiKey, envKey), model, text, SPEECH_VOICE)
  }

  /** The spoken text starts with the instruction and ends with the story
      itself, unchanged; the voice is always the same prebuilt one. */
  lemma SpeechTextEndsWithStory(text: string, model: string, apiKey: string, envKey: string)
    ensures var r := SpeechRequestFor(text, model, apiKey, envKey);
      && StartsWith(SpeechText(r), SPEECH_INSTRUCTION)
      && SpeechText(r)[|SPEECH_INSTRUCTION|..] == text
      && r.voiceName == SPEECH_VOICE && r.model == model
  {
  }

  /** `!base64Audio`: absent or empty. */
  predicate HasAudio(response: SpeechResponse) {
    response.audioData.Some? && response.audioData.value != ""
  }

  /** One attempt: missing audio becomes a thrown `Error`. */
  function SpeechAttempt(response: Outcome<SpeechResponse>): (r: Outcome<string>)
    ensures r.Ok? <==> response.Ok? && HasAudio(response.value)
    ensures r.Ok? ==> r.value == response.value.audioData.value && r.value != ""
    ensures response.Ok? && !HasAudio(response.value) ==> r == Err(ErrorWithMessage(MISSING_AUDIO_MESSAGE))
    ensures response.Err? ==> r == Err(response.error)
  {
    match response
    case Err(e) => Err(e)
    case Ok(resp) =>
      if HasAudio(resp) then Ok(resp.audioData.value) else Err(ErrorWithMessage(MISSING_AUDIO_MESSAGE))
  }

  function SpeechOp(request: SpeechRequest, service: (SpeechRequest, nat) -> Outcome<SpeechResponse>): nat -> Outcome<string>
  {
    (k: nat) => SpeechAttempt(service(request, k))
  }

  /** `generateGeminiSpeech(text, model, apiKey)`. */
  method GenerateGeminiSpeech(text: string, model: string, apiKey: string, envKey: string,
                              service: (SpeechRequest, nat) -> Outcome<SpeechResponse>)
    returns (request: SpeechRequest, result: Settled<string>, calls: nat, sleeps: seq<int>)
    ensures request == SpeechRequestFor(text, model, apiKey, envKey)
    ensures result == RetryResult(SpeechOp(request, service), MAX_RETRIES)
    ensures calls == Attempts(SpeechOp(request, service), MAX_RETRIES)
    ensures sleeps == Sleeps(SpeechOp(request, service), MAX_RETRIES, INITIAL_DELAY_MS)
  {
    var prompt := SPEECH_INSTRUCTION + text;
    request := SpeechRequest(ClientKey(apiKey, envKey), model, text, SPEECH_VOICE);
    assert SpeechText(request) == prompt;
    result, calls, sleeps := RetryWithBackoff(SpeechOp(request, service), MAX_RETRIES, INITIAL_DELAY_MS);
  }

  /** The serialised `Error` matches none of the serialised-error signals. */
  lemma EmptyObjectNotRetryable()
    ensures !Contains(EMPTY_OBJECT_JSON, "503")
    ensures !Contains(EMPTY_OBJECT_JSON, "UNAVAILABLE")
    ensures !Contains(EMPTY_OBJECT_JSON, "overloaded")
  {
    AbsentCharNotContained(EMPTY_OBJECT_JSON, "503", 0);
    AbsentCharNotContained(EMPTY_OBJECT_JSON, "UNAVAILABLE", 0);
    AbsentCharNotContained(EMPTY_OBJECT_JSON, "overloaded", 0);
  }

  /** The missing-audio error is not one the executor retries. */
  lemma MissingAudioNotRetryable()
    ensures !ShouldRetry(ErrorWithMessage(MISSING_AUDIO_MESSAGE))
  {
    var m := MISSING_AUDIO_MESSAGE;
    EmptyObjectNotRetryable();
    AbsentCharNotContained(m, "503", 0);
    AbsentCharNotContained(m, "overloaded", 1);
    AbsentCharNotContained(m, "429", 0);
    AbsentCharNotContained(m, "rate limit", 7);
    AbsentCharNotContained(m, "UNAVAILABLE", 0);
    AbsentCharNotContained(m, "network", 3);
    AbsentCharNotContained(m, "timeout", 2);
  }

  /** A first response without audio ends the run: one call, no wait, the
      missing-audio error. */
  lemma MissingAudioFailsFast(request: SpeechRequest, service: (SpeechRequest, nat) -> Outcome<SpeechResponse>)
    requires service(request, 0).Ok? && !HasAudio(service(request, 0).value)
    ensures Attempts(SpeechOp(request, service), MAX_RETRIES) == 1
    ensures Sleeps(SpeechOp(request, service), MAX_RETRIES, INITIAL_DELAY_MS) == []
    ensures RetryResult(SpeechOp(request, service), MAX_RETRIES) == Rejected(ErrorWithMessage(MISSING_AUDIO_MESSAGE))
  {
    MissingAudioNotRetryable();
    NonRetryableRethrownAtOnce(SpeechOp(request, service), MAX_RETRIES, INITIAL_DELAY_MS);
  }

  // ---------------------------------------------------------------------
  // Error classification and validation
  // ---------------------------------------------------------------------

  /** `{ message, errorType }` produced by `parseGeminiError`. */
  datatype Diagnosis = Diagnosis(message: string, errorType: ErrorType)

  const NETWORK_MESSAGE: string := "网络连接失败。请检查网络连接是否正常，或检查防火墙/代理设置。"
  const AUTH_MESSAGE: string := "API Key 无效或未授权。请检查 Gemini API Key 是否正确，是否已启用。"
  const QUOTA_MESSAGE: string := "API 配额已用尽或请求过于频繁。请稍后再试或检查配额限制。"
  const CAPABILITY_MESSAGE: string := "该模型不支持请求的功能（如 TTS）。请选择支持该功能的模型。"
  const UNKNOWN_PREFIX: string := "未知错误: "

  /** The model-branch message; it names "the specified model" only when the
      message mentions `model`. */
  function ModelMessage(errorMessage: string): string {
    "模型 \"" + (if Contains(errorMessage, "model") then "指定的模型" else "") + "\" 不存在或不可用。请检查模型名称是否正确，或该模型是否对你的 API Key 可用。"
  }

  predicate NetworkSignal(m: string) {
    Contains(m, "fetch") || Contains(m, "network") || Contains(m, "ENOTFOUND") || Contains(m, "ECONNREFUSED")
  }

  predicate AuthSignal(m: string) {
    Contains(m, "API key") || Contains(m, "401") || Contains(m, "Unauthorized") || Contains(m, "invalid_api_key")
  }

  predicate ModelSignal(m: string) {
    Contains(m, "404") || Contains(m, "not found") || Contains(m, "does not exist") || Contains(m, "model")
  }

  predicate QuotaSignal(m: string) {
    Contains(m, "quota") || Contains(m, "429") || Contains(m, "rate limit")
  }

  predicate CapabilitySignal(m: string) {
    Contains(m, "modality") || Contains(m, "audio") || Contains(m, "not supported")
  }

  /** `parseGeminiError`: first match wins over the message alone, in the
      order network, auth, model, quota, capability, unknown. */
  function ParseGeminiError(errorMessage: string): (d: Diagnosis)
    ensures d.errorType == Network <==> NetworkSignal(errorMessage)
    ensures d.errorType == Auth <==> !NetworkSignal(errorMessage) && AuthSignal(errorMessage)
    ensures d.errorType == Model <==>
      !NetworkSignal(errorMessage) && !AuthSignal(errorMessage) && ModelSignal(errorMessage)
    ensures d.errorType == Config <==>
      !NetworkSignal(errorMessage) && !AuthSignal(errorMessage) && !ModelSignal(errorMessage)
      && (QuotaSignal(errorMessage) || CapabilitySignal(errorMessage))
    ensures d.errorType == Config && QuotaSignal(errorMessage) ==> d.message == QUOTA_MESSAGE
    ensures d.errorType == Config && !QuotaSignal(errorMessage) ==> d.message == CAPABILITY_MESSAGE
    ensures d.errorType == Unknown ==> d.message == UNKNOWN_PREFIX + errorMessage
    ensures d.errorType == Network ==> d.message == NETWORK_MESSAGE
    ensures d.errorType == Auth ==> d.message == AUTH_MESSAGE
    ensures d.errorType == Model ==> d.message == ModelMessage(errorMessage)
  {
    if NetworkSignal(errorMessage) then Diagnosis(NETWORK_MESSAGE, Network)
    else if AuthSignal(errorMessage) then Diagnosis(AUTH_MESSAGE, Auth)
    else if ModelSignal(errorMessage) then Diagnosis(ModelMessage(errorMessage), Model)
    else if QuotaSignal(errorMessage) then Diagnosis(QUOTA_MESSAGE, Config)
    else if CapabilitySignal(errorMessage) then Diagnosis(CAPABILITY_MESSAGE, Config)
    else Diagnosis(UNKNOWN_PREFIX + errorMessage, Unknown)
  }

  /** Any message mentioning `model` (and no network or auth signal) is a
      model error, even when it also names a quota or an overload; in
      particular the classifier has no overload kind. */
  lemma ModelMentionOutranksQuotaAndOverload(m: string)
    requires Contains(m, "model") && !NetworkSignal(m) && !AuthSignal(m)
    ensures ParseGeminiError(m).errorType == Model
    ensures ParseGeminiError(m).message == ModelMessage(m)
  {
  }

  /** The provider's usual overload message, "The model is overloaded. Please
      try again later.", written as a concatenation so that the substring
      lemmas below can read its characters piece by piece. */
  const OVERLOAD_SAMPLE: string := "The " + "model" + " is overl" + "oaded. Ple" + "ase try ag" + "ain later."

  lemma OverloadSampleSignals()
    ensures Contains(OVERLOAD_SAMPLE, "model")
    ensures !NetworkSignal(OVERLOAD_SAMPLE)
  {
    var m := OVERLOAD_SAMPLE;
    assert m[4..9] == "model";
    ContainsAt(m, "model", 4);
    AbsentCharNotContained(m, "fetch", 0);
    AbsentCharNotContained(m, "network", 3);
    AbsentCharNotContained(m, "ENOTFOUND", 0);
    AbsentCharNotContained(m, "ECONNREFUSED", 0);
  }

  lemma OverloadSampleNotAuth()
    ensures !AuthSignal(OVERLOAD_SAMPLE)
  {
    var m := OVERLOAD_SAMPLE;
    AbsentCharNotContained(m, "API key", 0);
    AbsentCharNotContained(m, "401", 0);
    AbsentCharNotContained(m, "Unauthorized", 0);
    AbsentCharNotContained(m, "invalid_api_key", 7);
  }

  /** The provider's usual overload message is classified as a model error. */
  lemma OverloadMessageClassifiedAsModel()
    ensures ParseGeminiError(OVERLOAD_SAMPLE).errorType == Model
  {
    OverloadSampleSignals();
    OverloadSampleNotAuth();
    ModelMentionOutranksQuotaAndOverload(OVERLOAD_SAMPLE);
  }

  const EMPTY_KEY_MESSAGE: string := "API Key 不能为空。请在设置中填写有效的 Gemini API Key。"
  const EMPTY_STORY_MODEL_MESSAGE: string := "模型名称不能为空。请选择或输入有效的模型名称。"
  const EMPTY_TTS_MODEL_MESSAGE: string := "TTS 模型名称不能为空。请选择或输入有效的 TTS 模型名称。"
  const NO_STORY_DATA_MESSAGE: string := "模型调用成功但未返回数据。这可能是模型配置问题。"

  function StoryModelOkMessage(model: string): string {
    "✅ 故事生成模型 \"" + model + "\" 验证成功！API Key 有效。"
  }

  function TtsModelOkMessage(model: string): string {
    "✅ TTS 模型 \"" + model + "\" 验证成功！支持语音生成。"
  }

  function TtsNoAudioMessage(model: string): string {
    "模型 \"" + model + "\" 调用成功但未返回音频数据。该模型可能不支持 TTS 功能。"
  }

  function Diagnosed(e: Failure): (r: ValidationResult)
    ensures !r.success && r.errorType == Some(ParseGeminiError(e.message).errorType)
  {
    var d := ParseGeminiError(e.message);
    ValidationResult(false, d.message, Some(d.errorType))
  }

  /** The contents both validators send. */
  const PROBE_CONTENTS: string := "test"
  const PROBE_MAX_OUTPUT_TOKENS: int := 5

  /** The story validator's test request: a client built by `getAIClient(apiKey)`,
      the model, the contents "test" and an output cap of 5 tokens. */
  datatype StoryProbe = StoryProbe(apiKey: string, model: string, contents: string, maxOutputTokens: int)

  /** The TTS validator's test request: a client built by `getAIClient(apiKey)`,
      the model, one text part "test", audio output in the prebuilt voice. */
  datatype TtsProbe = TtsProbe(apiKey: string, model: string, contents: string, voiceName: string)

  /** The story probe for a key and model; the client key is the fallback of
      `getAIClient`, which is the given key whenever the probe is sent. */
  function StoryProbeFor(apiKey: string, model: string, envKey: string): (p: StoryProbe)
    ensures !IsBlank(apiKey) ==> p.apiKey == apiKey
    ensures p.model == model && p.contents == "test" && p.maxOutputTokens == 5
  {
    StoryProbe(ClientKey(apiKey, envKey), model, PROBE_CONTENTS, PROBE_MAX_OUTPUT_TOKENS)
  }

  /** The TTS probe for a key and model. */
  function TtsProbeFor(apiKey: string, model: string, envKey: string): (p: TtsProbe)
    ensures !IsBlank(apiKey) ==> p.apiKey == apiKey
    ensures p.model == model && p.contents == "test" && p.voiceName == "Zephyr"
  {
    TtsProbe(ClientKey(apiKey, envKey), model, PROBE_CONTENTS, SPEECH_VOICE)
  }

  /** `validateGeminiStoryModel(apiKey, model)`; `probe` is what the SDK's
      `generateContent` settles to for a test request. */
  function ValidateGeminiStoryModel(apiKey: string, model: string, envKey: string,
                                    probe: StoryProbe -> Outcome<StoryResponse>): (r: ValidationResult)
    ensures IsBlank(apiKey) ==> r == ValidationResult(false, EMPTY_KEY_MESSAGE, Some(Config))
    ensures !IsBlank(apiKey) && IsBlank(model) ==> r == ValidationResult(false, EMPTY_STORY_MODEL_MESSAGE, Some(Config))
    ensures var o := probe(StoryProbeFor(apiKey, model, envKey));
      r.success <==> !IsBlank(apiKey) && !IsBlank(model) && o.Ok? && o.value.text != ""
    ensures r.success ==> r == ValidationResult(true, StoryModelOkMessage(model), None)
    ensures !r.success ==> r.errorType.Some?
    ensures var o := probe(StoryProbeFor(apiKey, model, envKey));
      !IsBlank(apiKey) && !IsBlank(model) && o.Err? ==> r == Diagnosed(o.error)
    ensures var o := probe(StoryProbeFor(apiKey, model, envKey));
      !IsBlank(apiKey) && !IsBlank(model) && o.Ok? && o.value.text == "" ==>
        r == ValidationResult(false, NO_STORY_DATA_MESSAGE, Some(Config))
  {
    if IsBlank(apiKey) then ValidationResult(false, EMPTY_KEY_MESSAGE, Some(Config))
    else if IsBlank(model) then ValidationResult(false, EMPTY_STORY_MODEL_MESSAGE, Some(Config))
    else match probe(StoryProbeFor(apiKey, model, envKey))
      case Err(e) => Diagnosed(e)
      case Ok(response) =>
        if response.text != "" then ValidationResult(true, StoryModelOkMessage(model), None)
        else ValidationResult(false, NO_STORY_DATA_MESSAGE, Some(Config))
  }

  /** `validateGeminiTTSModel(apiKey, model)`; `probe` is what the SDK's
      `generateContent` settles to for a test speech request. */
  function ValidateGeminiTtsModel(apiKey: string, model: string, envKey: string,
                                  probe: TtsProbe -> Outcome<SpeechResponse>): (r: ValidationResult)
    ensures IsBlank(apiKey) ==> r == ValidationResult(false, EMPTY_KEY_MESSAGE, Some(Config))
    ensures !IsBlank(apiKey) && IsBlank(model) ==> r == ValidationResult(false, EMPTY_TTS_MODEL_MESSAGE, Some(Config))
    ensures var o := probe(TtsProbeFor(apiKey, model, envKey));
      r.success <==> !IsBlank(apiKey) && !IsBlank(model) && o.Ok? && HasAudio(o.value)
    ensures r.success ==> r == ValidationResult(true, TtsModelOkMessage(model), None)
    ensures !r.success ==> r.errorType.Some?
    ensures var o := probe(TtsProbeFor(apiKey, model, envKey));
      !IsBlank(apiKey) && !IsBlank(model) && o.Err? ==> r == Diagnosed(o.error)
    ensures var o := probe(TtsProbeFor(apiKey, model, envKey));
      !IsBlank(apiKey) && !IsBlank(model) && o.Ok? && !HasAudio(o.value) ==>
        r == ValidationResult(false, TtsNoAudioMessage(model), Some(Config))
  {
    if IsBlank(apiKey) then ValidationResult(false, EMPTY_KEY_MESSAGE, Some(Config))
    else if IsBlank(model) then ValidationResult(false, EMPTY_TTS_MODEL_MESSAGE, Some(Config))
    else match probe(TtsProbeFor(apiKey, model, envKey))
      case Err(e) => Diagnosed(e)
      case Ok(response) =>
        if HasAudio(response) then ValidationResult(true, TtsModelOkMessage(model), None)
        else ValidationResult(false, TtsNoAudioMessage(model), Some(Config))
  }

  /** A validator's answer depends on the provider only through its one test
      request: two providers that answer that request alike give the same
      result, whatever they would answer to any other key or model. */
  lemma ValidatorsSeeOnlyTheirProbe(apiKey: string, model: string, envKey: string,
                                    p1: StoryProbe -> Outcome<StoryResponse>, p2: StoryProbe -> Outcome<StoryResponse>,
                                    q1: TtsProbe -> Outcome<SpeechResponse>, q2: TtsProbe -> Outcome<SpeechResponse>)
    requires p1(StoryProbe(apiKey, model, "test", 5)) == p2(StoryProbe(apiKey, model, "test", 5))
    requires q1(TtsProbe(apiKey, model, "test", "Zephyr")) == q2(TtsProbe(apiKey, model, "test", "Zephyr"))
    ensures ValidateGeminiStoryModel(apiKey, model, envKey, p1) == ValidateGeminiStoryModel(apiKey, model, envKey, p2)
    ensures ValidateGeminiTtsModel(apiKey, model, envKey, q1) == ValidateGeminiTtsModel(apiKey, model, envKey, q2)
  {
    if !IsBlank(apiKey) {
      assert StoryProbeFor(apiKey, model, envKey) == StoryProbe(apiKey, model, "test", 5);
      assert TtsProbeFor(apiKey, model, envKey) == TtsProbe(apiKey, model, "test", "Zephyr");
    }
  }

  /** With a blank key (or a blank model) neither validator looks at the
      probe: the answer is the same whatever the provider would have said. */
  lemma ValidatorsCheckInputsBeforeCalling(apiKey: string, model: string, envKey: string,
                                           p1: StoryProbe -> Outcome<StoryResponse>, p2: StoryProbe -> Outcome<StoryResponse>,
                                           q1: TtsProbe -> Outcome<SpeechResponse>, q2: TtsProbe -> Outcome<SpeechResponse>)
    requires IsBlank(apiKey) || IsBlank(model)
    ensures ValidateGeminiStoryModel(apiKey, model, envKey, p1) == ValidateGeminiStoryModel(apiKey, model, envKey, p2)
    ensures ValidateGeminiTtsModel(apiKey, model, envKey, q1) == ValidateGeminiTtsModel(apiKey, model, envKey, q2)
    ensures IsBlank(apiKey) ==> ValidateGeminiStoryModel(apiKey, model, envKey, p1).message == EMPTY_KEY_MESSAGE
  {
  }
}
