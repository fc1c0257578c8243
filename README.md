# AI Story Weaver — a verified model of the client core

AI Story Weaver is a browser client. The user uploads an image and may type a
prompt. A Gemini model writes a story about the image, grounded by web search,
and a text-to-speech provider (Gemini, ElevenLabs or Edge TTS) narrates it. The
last five stories are kept in `localStorage`. A settings panel stores the
provider choices and keys and can test them against the providers.

This project models the decision logic and state updates of that client in
Dafny and proves what they promise. Every provider call, `fetch`, timer and
clock is a parameter of the model. An answer from a provider is an
`Outcome` (`Ok(value)` or `Err(Failure(serialized, message))`), given per
attempt. A `fetch` answer is a `FetchResult` (it threw, or it responded with
a status, body and JSON). A thrown value is the pair a catch block reads:
`JSON.stringify(error)` and `error.message`.

Modules, one per source file, plus shared helpers:

- `GeminiService` (`services/geminiService.ts`):
  - `retryWithBackoff` is a loop method. It is proved against a specification function: the stop index, the attempt count, the result and the list of requested sleeps.
  - It also covers the key fallback of `getAIClient`, the prompt and parts built by `generateStory`, the missing-audio check of `generateGeminiSpeech`, the first-match classifier `parseGeminiError`, and the two validators.
- `App` (`App.tsx`):
  - The component is a class whose fields are its state variables. Each handler is a method, specified by a function from the old state to the new one. Lemmas about those functions state the orchestration properties.
  - The history is a newest-first list capped at five, written to a `LocalStorage` object.
  - The module also has the credential mapping and the story and audio error messages.
- `AudioUtils` (`utils/audioUtils.ts`): `decode` copies the bytes from `atob` into an array. `createWavBlob` writes a 44-byte RIFF/WAVE header into an array at fixed little-endian offsets, then the payload.
- `Base64`: `atob`, the forgiving base64 decoder over the alphabet of section 4 of RFC 4648, and a `btoa` encoder as its partner, with a round-trip proof.
- `UseSettings` (`hooks/useSettings.ts`): the defaults, the key-by-key merge on load, and the save.
- `ElevenLabsService` and `EdgeTtsService`: the precondition, status and message mapping of the two speech calls and their validators.
- `SettingsPanel` (`components/SettingsPanel.tsx`): the configuration test sequence, field edits, reset and save.
- `AudioPlayer` (`components/AudioPlayer.tsx`):
  - source selection;
  - the object-URL lifecycle of the effect and its cleanup;
  - render precedence, `formatTime`, the download name, and play/pause.
- `HistoryPanel` and `SourcesDisplay`: relative-time buckets, the closed, empty and list views, and the order-preserving web-source filter.
- `Storage` (the `localStorage` map), `Types` (shared datatypes) and `Text` (substring, trim-blank and decimal helpers).

## Model

| member | source | states |
|---|---|---|
| GeminiService.Settle | services/geminiService.ts:34-36 | one call settles to a resolved value exactly when it succeeded, otherwise to the rejection carrying its error |
| GeminiService.ShouldRetry | services/geminiService.ts:43-53 | an error is retried exactly when its serialisation names 503, UNAVAILABLE or overloaded, or its message names 503, overloaded, 429, rate limit, UNAVAILABLE, network or timeout |
| GeminiService.Retryable | services/geminiService.ts:55 | an attempt counts as retryable exactly when it failed with an error that ShouldRetry accepts |
| GeminiService.Backoff | services/geminiService.ts:59-62 | the n waits are initialDelay·2^j for j = 0..n-1 |
| GeminiService.StopIndex | services/geminiService.ts:34-57 | the attempt where the loop stops: every attempt before it failed with a retryable error, and it is the last allowed one or does not retry |
| GeminiService.Attempts | services/geminiService.ts:34 | no call when maxRetries ≤ 0, otherwise between 1 and maxRetries calls |
| GeminiService.RetryResult | services/geminiService.ts:55-66 | the loop ends with `throw undefined` exactly when maxRetries ≤ 0 |
| GeminiService.Sleeps | services/geminiService.ts:60-62 | one wait follows every attempt except the last |
| GeminiService.StopIndexUnique | services/geminiService.ts:34-57 | any attempt k after only retryable failures that is the last or not retryable is where the loop stops |
| GeminiService.RetryWithBackoff | services/geminiService.ts:27-67 | the loop makes exactly Attempts calls, returns RetryResult and requests exactly the Sleeps waits, in order |
| GeminiService.AttemptsAtMostMax | services/geminiService.ts:34 | at most maxRetries calls, and one fewer wait than calls |
| GeminiService.FirstSuccessReturned | services/geminiService.ts:35-36 | the first success after k retryable failures is returned after k+1 calls and waits initialDelay·2^0..2^(k-1) |
| GeminiService.NonRetryableRethrownAtOnce | services/geminiService.ts:55-57 | an error the predicate rejects is rethrown after one call with no wait |
| GeminiService.DefaultScheduleAllFail | services/geminiService.ts:59-66 | with 3 attempts and 2000 ms, three retryable failures wait 2000 then 4000 and rethrow the third error |
| GeminiService.DefaultScheduleNeverEightSeconds | services/geminiService.ts:59-62 | with the defaults every wait is 2000 or 4000; the 8 s wait in the comment never happens |
| GeminiService.BackoffDoubles | services/geminiService.ts:60 | each wait is twice the previous one |
| GeminiService.OverloadTwiceThenSuccess | services/geminiService.ts:43-62 | a 503 failure, an overloaded failure and then a success return the success after 3 calls and waits of 2000 and 4000 |
| GeminiService.ClientKey | services/geminiService.ts:20 | the given key is used exactly when it is not blank after trimming, otherwise the environment key |
| GeminiService.StoryPromptAppendedOnlyWhenNotBlank | services/geminiService.ts:79-91 | the instruction always comes first; the custom-requirements block and the prompt are appended exactly when the prompt is not blank |
| GeminiService.StoryPromptText | services/geminiService.ts:79-91 | the prompt text: the fixed instruction, then the custom-requirements header and the user's prompt when the prompt is not blank |
| GeminiService.StoryParts | services/geminiService.ts:93-103 | the request parts: the image's inline data and MIME type (when there is an image) placed before the text part |
| GeminiService.StoryRequestFor | services/geminiService.ts:75-111 | each story attempt goes to the client of ClientKey(apiKey, envKey) with the given model, the prompt, the image and the Google Search tool |
| GeminiService.SpeechRequestFor | services/geminiService.ts:126-138 | each speech attempt goes to the client of ClientKey(apiKey, envKey) with the given model, the story and the Zephyr voice |
| GeminiService.HasAudio | services/geminiService.ts:140-143 | the response carries audio exactly when its first inline-data payload is present and non-empty |
| GeminiService.StoryPartsOrder | services/geminiService.ts:93-103 | the prompt text is the last part; an image adds exactly one inline-data part, placed before it |
| GeminiService.BuildStoryParts | services/geminiService.ts:93-103 | the parts built step by step (text, then the image unshifted) equal the specification, with two parts exactly when there is an image |
| GeminiService.StoryAttempt | services/geminiService.ts:113-116 | the story is the response text; sources are the grounding chunks, or empty when there are none; errors pass through |
| GeminiService.GenerateStory | services/geminiService.ts:69-118 | the request carries the resolved key, the model, the prompt and image, and search grounding; the result, calls and waits are those of the retry loop over that request |
| GeminiService.SpeechTextEndsWithStory | services/geminiService.ts:129-134 | the speech prompt is the fixed instruction followed by the story, spoken by voice Zephyr with the given model |
| GeminiService.SpeechAttempt | services/geminiService.ts:140-144 | success exactly when the response holds a non-empty audio payload; otherwise "The API did not return any audio data." or the provider's error |
| GeminiService.GenerateGeminiSpeech | services/geminiService.ts:120-146 | the speech request for the text, and the result, calls and waits of the retry loop over it |
| GeminiService.EmptyObjectNotRetryable | services/geminiService.ts:43-46 | a thrown `Error` serialises to "{}", which matches none of the serialised-error signals |
| GeminiService.MissingAudioNotRetryable | services/geminiService.ts:141-143 | the missing-audio error fails the retry predicate |
| GeminiService.MissingAudioFailsFast | services/geminiService.ts:140-145 | a response without audio is rethrown after one call and no wait |
| GeminiService.ParseGeminiError | services/geminiService.ts:157-205 | first match wins on the message alone: network, then auth, then model, then quota or capability (config), then unknown quoting the message; each kind holds exactly when its signal is present and no earlier signal is, and each kind's message is stated: NETWORK_MESSAGE, AUTH_MESSAGE, ModelMessage of the input, the quota or capability text, or the unknown prefix and the input |
| GeminiService.ModelMentionOutranksQuotaAndOverload | services/geminiService.ts:177-181 | any message naming "model", with no network or auth signal, is a model error even when it also names a quota |
| GeminiService.NetworkSignal | services/geminiService.ts:161 | the network test: the message names fetch, network, ENOTFOUND or ECONNREFUSED |
| GeminiService.AuthSignal | services/geminiService.ts:169 | the auth test: the message names API key, 401, Unauthorized or invalid_api_key |
| GeminiService.ModelSignal | services/geminiService.ts:177 | the model test: the message names 404, not found, does not exist or model |
| GeminiService.QuotaSignal | services/geminiService.ts:185 | the quota test: the message names quota, 429 or rate limit |
| GeminiService.CapabilitySignal | services/geminiService.ts:193 | the capability test: the message names modality, audio or not supported |
| GeminiService.ModelMessage | services/geminiService.ts:179 | the model-error text, which quotes "指定的模型" exactly when the message mentions model and an empty name otherwise |
| GeminiService.OverloadMessageClassifiedAsModel | services/geminiService.ts:177-181 | the provider's usual "The model is overloaded" message is classified as a model error |
| GeminiService.Diagnosed | services/geminiService.ts:244-248 | a caught error becomes a failure whose kind is the classifier's |
| GeminiService.StoryModelOkMessage | services/geminiService.ts:233-236 | the story validator's success text quoting the model |
| GeminiService.TtsModelOkMessage | services/geminiService.ts:285-288 | the TTS validator's success text quoting the model |
| GeminiService.TtsNoAudioMessage | services/geminiService.ts:291-295 | the TTS validator's no-audio text quoting the model |
| GeminiService.StoryProbeFor | services/geminiService.ts:224-230 | the story test request goes to the given key's client with the given model, contents "test" and at most 5 output tokens |
| GeminiService.TtsProbeFor | services/geminiService.ts:268-282 | the TTS test request goes to the given key's client with the given model, the text "test" and the Zephyr voice |
| GeminiService.ValidateGeminiStoryModel | services/geminiService.ts:207-249 | blank key, then blank model, fail with config before any call; otherwise the answer to the story test request decides: text gives the success message, an ok answer without text gives the config no-data failure, a thrown error is classified |
| GeminiService.ValidateGeminiTtsModel | services/geminiService.ts:251-300 | blank key, then blank model, fail with config; otherwise the answer to the TTS test request decides: audio gives the success message, an ok answer without audio gives the config no-audio failure naming the model, a thrown error is classified |
| GeminiService.ValidatorsSeeOnlyTheirProbe | services/geminiService.ts:224-229 | two providers that answer the key's and model's test request alike give both validators the same result |
| GeminiService.ValidatorsCheckInputsBeforeCalling | services/geminiService.ts:208-222 | with a blank key or model, neither validator's answer depends on the provider, and the key check comes first |
| App.Credential | App.tsx:158-161 | gemini, openai and claude use their own key; every other provider uses the Kimi key |
| App.PanelKeyNeverReachesGeneration | App.tsx:158-161 | the `generativeApiKey` field the settings panel tests never changes the key used to generate |
| App.PrependCapped | App.tsx:70 | the new entry is first, the previous entries follow in order, and the list holds min(n+1, 5) entries |
| App.PrependCappedDropsOldest | App.tsx:69-73 | under the cap nothing is dropped; at the cap only the oldest entries go |
| App.RemoveId | App.tsx:94 | no survivor carries the id, every survivor was in the list, and every entry with another id survives |
| App.RemoveIdConcat | App.tsx:92-98 | filtering keeps the survivors in their original order |
| App.RemoveUnknownId | App.tsx:92-98 | deleting an id no entry carries leaves the list unchanged |
| App.RemoveIdCounts | App.tsx:94 | every entry with the id is removed, and every other entry keeps its multiplicity |
| App.LoadedHistory | App.tsx:45-54 | a stored history list replaces the current one untruncated; nothing stored, or unparseable text, leaves it as it was |
| App.SaveToHistoryGuard | App.tsx:57-74 | an empty story or no image URL saves nothing; otherwise only the history changes, with the new entry (id and timestamp from the clock) first and at most five entries |
| App.CanSave | App.tsx:58 | saving happens only for a non-empty story with a non-empty image URL |
| App.NewEntry | App.tsx:60-67 | the new record: id and timestamp from the same clock reading, the story, the current image URL and prompt, and the sources |
| App.AfterSave | App.tsx:57-74 | the state after `saveToHistory`: unchanged when CanSave fails, otherwise the history becomes the capped list with the new entry first |
| App.ApplyAudioFrame | App.tsx:105-141 | any audio outcome ends idle; only the audio fields, `audioError` and `error` change; `audioError` is raised exactly on failure, with its message |
| App.AudioStarted | App.tsx:106-109 | before the provider is awaited: busy up, `audioError` down, both audio fields cleared |
| App.OverloadSignal | App.tsx:129 | the overload test of both catch blocks: the serialised error names 503 or UNAVAILABLE, or the message names overloaded |
| App.AudioErrorMessage | App.tsx:127-135 | the TTS overload text for an overload, otherwise the failure prefix, the error's message and the suffix |
| App.NotImplementedMessage | App.tsx:124 | the text naming an unknown TTS provider |
| App.GeminiNarration | App.tsx:111-115 | the retried Gemini speech call: a non-empty payload is Gemini audio, an empty one sets nothing, a rejection is an audio failure with AudioErrorMessage |
| App.BufferNarration | App.tsx:116-122 | an ElevenLabs or Edge answer: the buffer, or an audio failure with AudioErrorMessage |
| App.AudioResult | App.tsx:110-135 | dispatch on `ttsProvider`: gemini, elevenlabs (with its key and voice), edge (with the "en-US" argument), otherwise the not-implemented failure |
| App.AudioTrace | App.tsx:110-126 | the calls and waits of the audio step: the Gemini retry schedule, one ElevenLabs call when both credentials are set, one Edge call, none otherwise |
| App.ApplyAudio | App.tsx:110-136 | Gemini audio goes to `geminiAudio`, a buffer to `elevenlabsAudio`, a failure to `error` with `audioError` raised |
| App.AfterAudio | App.tsx:105-141 | `handleGenerateAudio`: AudioStarted, the provider's outcome applied, then the busy flag down |
| App.AudioStepKeepsStory | App.tsx:105-141 | the audio step keeps story, sources, history, prompt and image; it raises `audioError` exactly when the provider failed, and never leaves both audio fields set |
| App.UnknownTtsProvider | App.tsx:122-125 | from any state, a provider other than gemini, elevenlabs and edge sets the "not yet implemented" error naming it, raises `audioError` and calls nothing |
| App.EdgeNarrationNeverPlays | App.tsx:119-121 | Edge audio is stored in the buffer field, where the player, told the provider is "edge", creates no source |
| App.StoryFailurePrecedence | App.tsx:186-194 | story errors take the first match: overload, then bad key, then bad model, then generic |
| App.StoryFailureOf | App.tsx:186-194 | the story error's kind: overload, then 401 or API key, then 404 or not found, then any other |
| App.StoryErrorMessage | App.tsx:186-194 | the message shown for a story error: its kind's prefix, the error's message, and the kind's suffix |
| App.StoryErrorQuotesMessage | App.tsx:186-194 | every story error message is the prefix of its kind followed by the error's own message |
| App.OverloadIsRetryable | App.tsx:186-187 | an error the overload message is shown for always passes the retry predicate |
| App.StorySettled | App.tsx:163-169 | the story call always settles to a result or an error, never to `undefined` |
| App.NoImageOnlySetsError | App.tsx:144-147 | without an image only the error changes, whatever the providers would answer, and nothing is called or stored |
| App.StoryStepEndsIdle | App.tsx:195-197 | a started story run ends with both busy flags down, on success and on failure |
| App.StoryStarted | App.tsx:149-155 | before the provider is awaited: error and `audioError` cleared, story, sources and both audio fields emptied, busy up |
| App.StoryShown | App.tsx:170-178 | the success path: the story and sources shown, AfterSave applied, and AfterAudio chained for a non-empty story |
| App.StoryEnded | App.tsx:170-197 | a resolved call goes through StoryShown, a rejected one sets StoryErrorMessage, and the busy flag goes down either way |
| App.AfterStory | App.tsx:143-198 | `handleGenerateStory`: without an image only the error is set; otherwise StoryStarted, then StoryEnded of the retried story call |
| App.StoryWritesHistory | App.tsx:163-174 | storage is written exactly when there is an image, the story call resolves and CanSave holds for its story |
| App.StoryTrace | App.tsx:163-178 | the story call's attempts and waits, followed by the narration's when a non-empty story is narrated |
| App.StoryFailureSkipsAudio | App.tsx:180-194 | a failed story shows its classified error, keeps the cleared fields cleared and the history unchanged, and never reaches the audio step |
| App.EmptyStorySkipsAudio | App.tsx:170-178 | an empty story shows no error, saves nothing and does not narrate |
| App.StoryShownNarrates | App.tsx:170-178 | a non-empty story is shown with its sources, saved, and narrated; `audioError` reports the narration's outcome |
| App.StorySuccessChainsAudio | App.tsx:163-178 | a successful non-empty story run ends with that story and its sources, the saved history, and the audio outcome of narrating it |
| App.StorySuccessTrace | App.tsx:163-178 | a successful run makes the narration's speech calls and waits the story retries, then the narration's |
| App.OverloadReportedAfterThreeAttempts | App.tsx:186-187 | when the overload message is shown, the story provider was called exactly three times |
| App.AppComponent.constructor | App.tsx:28-42 | the initial state: empty prompt, story and history; no image, audio or error; all flags down |
| App.AppComponent.LoadHistory | App.tsx:45-54 | the mount effect changes only the history, to LoadedHistory of the stored value |
| App.AppComponent.SaveToHistory | App.tsx:57-74 | the state becomes AfterSave; the stored copy is the new list, and storage is untouched when nothing is saved |
| App.AppComponent.HandleSelectHistory | App.tsx:84-90 | the entry's story, sources, image URL and prompt come back and the drawer closes; nothing else changes |
| App.AppComponent.HandleDeleteHistory | App.tsx:92-98 | the history becomes RemoveId of the old one, and the stored copy is that list |
| App.AppComponent.HandleImageUpload | App.tsx:100-103 | only the image file and its object URL change |
| App.AppComponent.CanGenerate | App.tsx:274 | the generate button is enabled exactly when neither step is busy and an image is chosen |
| App.AppComponent.NarrateWithGemini | App.tsx:111-115 | the retried Gemini speech result: a non-empty payload is stored, an empty one changes nothing, an error is reported; calls and waits are the retry loop's |
| App.AppComponent.StoreBuffer | App.tsx:116-121 | a buffer answer goes to the buffer field, an error is reported with `audioError` |
| App.AppComponent.Narrate | App.tsx:110-125 | the selected provider's call is made and its outcome applied, with its calls and waits |
| App.AppComponent.StartAudio | App.tsx:106-109 | busy flag up, `audioError` down, both audio fields cleared |
| App.AppComponent.FinishAudio | App.tsx:138-140 | only the audio busy flag goes down |
| App.AppComponent.HandleGenerateAudio | App.tsx:105-141 | the state becomes AfterAudio and the trace is the provider's calls and waits |
| App.AppComponent.StartStory | App.tsx:149-155 | error, `audioError`, story, sources and both audio fields are cleared, then the story busy flag goes up |
| App.AppComponent.ShowStory | App.tsx:170-178 | the story and sources are shown, saved to history and storage, and a non-empty story is narrated |
| App.AppComponent.Settle | App.tsx:170-197 | a result is shown and chained; an error is classified into the message; the story busy flag then goes down |
| App.AppComponent.FinishStory | App.tsx:195-197 | only the story busy flag goes down |
| App.AppComponent.HandleGenerateStory | App.tsx:143-198 | the state becomes AfterStory, the state while awaiting is StoryStarted, the calls and waits are StoryTrace, and storage changes exactly when a story is saved |
| AudioUtils.DecodedBytes | utils/audioUtils.ts:1-9 | undecodable input throws; otherwise the bytes have the decoded string's length and byte i is its char code i |
| AudioUtils.Decode | utils/audioUtils.ts:1-9 | the loop fills a fresh array with exactly those bytes |
| AudioUtils.DecodeBtoa | utils/audioUtils.ts:1-9 | decoding the base64 text of any bytes gives back those bytes |
| AudioUtils.AsciiBytes | utils/audioUtils.ts:30-34 | one byte per character, its char code taken mod 256 as `setUint8` stores it |
| AudioUtils.Le16RoundTrip | utils/audioUtils.ts:50 | a little-endian u16 field reads back as the value mod 2^16 |
| AudioUtils.Le32RoundTrip | utils/audioUtils.ts:44 | a little-endian u32 field reads back as the value mod 2^32 |
| AudioUtils.WavFile | utils/audioUtils.ts:36-39 | the blob is 44 + dataSize bytes |
| AudioUtils.RiffLayout | utils/audioUtils.ts:43-45 | "RIFF" at offset 0 and "WAVE" at offset 8 |
| AudioUtils.ChunkSizeLayout | utils/audioUtils.ts:44 | ChunkSize at offset 4 is 36 + dataSize |
| AudioUtils.FmtLayout | utils/audioUtils.ts:48 | "fmt " at offset 12 |
| AudioUtils.SubchunkSizeLayout | utils/audioUtils.ts:49 | Subchunk1Size at offset 16 is 16 |
| AudioUtils.FormatLayout | utils/audioUtils.ts:50-51 | AudioFormat 1 at offset 20, NumChannels at offset 22 |
| AudioUtils.RateLayout | utils/audioUtils.ts:52-53 | SampleRate at 24 and ByteRate sampleRate·numChannels·2 at 28 |
| AudioUtils.AlignLayout | utils/audioUtils.ts:54-55 | BlockAlign numChannels·2 at 32 and BitsPerSample 16 at 34 |
| AudioUtils.DataLayout | utils/audioUtils.ts:58-63 | "data" at 36, Subchunk2Size dataSize at 40, and the payload unchanged from 44 on |
| AudioUtils.TagBytes | utils/audioUtils.ts:43-58 | the four tags are the ASCII bytes of RIFF, WAVE, fmt and data |
| AudioUtils.SpliceAdjacent | utils/audioUtils.ts:43-63 | two writes at adjacent offsets equal one write of their concatenation, so the header writes and the payload copy do not overlap |
| AudioUtils.WriteBytes | utils/audioUtils.ts:62-63 | the loop copies the bytes at the offset and leaves every other byte as it was |
| AudioUtils.WriteString | utils/audioUtils.ts:30-34 | the string's char codes are written at the offset, nothing else changes |
| AudioUtils.SetUint16 | utils/audioUtils.ts:50 | the two little-endian bytes are written at the offset, nothing else changes |
| AudioUtils.SetUint32 | utils/audioUtils.ts:44 | the four little-endian bytes are written at the offset, nothing else changes |
| AudioUtils.WriteRiffChunk | utils/audioUtils.ts:43-45 | bytes 0..11 become the RIFF descriptor |
| AudioUtils.WriteFmtPrologue | utils/audioUtils.ts:48-51 | bytes 12..23 become "fmt ", 16, 1 and the channel count |
| AudioUtils.WriteFmtRates | utils/audioUtils.ts:52-55 | bytes 24..35 become the rate, byte rate, block align and bit depth |
| AudioUtils.WriteDataChunkHeader | utils/audioUtils.ts:58-59 | bytes 36..43 become "data" and the payload size |
| AudioUtils.WriteHeader | utils/audioUtils.ts:42-59 | bytes 0..43 become the whole header |
| AudioUtils.CreateWavBlob | utils/audioUtils.ts:36-66 | the blob is the header followed by the payload, typed audio/wav, for a payload that spans its whole buffer |
| Base64.Atob | utils/audioUtils.ts:2 | input fails exactly when, after stripping whitespace and padding, its length is 1 mod 4 or a character is outside the alphabet; every character of the result is below 256 |
| Base64.StripWhitespace | utils/audioUtils.ts:2 | the input with every ASCII whitespace character removed, no longer than the input |
| Base64.StripPadding | utils/audioUtils.ts:2 | for a length divisible by four, one or two trailing "=" are removed; the result is a prefix of the input |
| Base64.DecodeSextets | utils/audioUtils.ts:2 | a padding-free base64 string decodes to three bytes per four characters and one or two bytes for a trailing group of two or three |
| Base64.Btoa | utils/audioUtils.ts:2 | the reference encoder that `atob` inverts: the sextet encoding padded with "=" to a multiple of four characters |
| Base64.DecodeEncode | utils/audioUtils.ts:2 | decoding the encoding of any bytes gives them back |
| Base64.AtobBtoa | utils/audioUtils.ts:2 | `atob(btoa(bytes))` is the binary string of those bytes |
| UseSettings.Field | hooks/useSettings.ts:3-17 | a field reads as its stored value, or empty when absent |
| UseSettings.DefaultsAsDeclared | hooks/useSettings.ts:21-32 | the defaults hold exactly the ten declared fields: gemini, gemini-2.5-flash, gemini, gemini-2.5-flash-preview-tts and empty keys |
| UseSettings.Merge | hooks/useSettings.ts:43 | stored fields override the defaults key by key; other defaults remain |
| UseSettings.LoadedSettings | hooks/useSettings.ts:38-50 | a stored object is merged over the defaults; nothing stored or unparseable text leaves the current settings |
| UseSettings.SaveThenLoad | hooks/useSettings.ts:52-56 | saved complete settings load back unchanged |
| UseSettings.PartialStoredKeepsDefaults | hooks/useSettings.ts:43 | a field missing from storage keeps its default |
| UseSettings.SettingsStore.constructor | hooks/useSettings.ts:35-36 | defaults, not yet loaded |
| UseSettings.SettingsStore.Load | hooks/useSettings.ts:38-50 | settings become LoadedSettings of the current settings and the stored value, unchanged when nothing is stored, and `isLoaded` becomes true in every case |
| UseSettings.SettingsStore.SaveSettings | hooks/useSettings.ts:52-59 | the settings are written under the v4 key and replace the in-memory ones; a failed write changes neither |
| Storage.LocalStorage.GetItem | App.tsx:47 | an item is present exactly when its key is stored, with the stored value |
| Storage.LocalStorage.SetItem | App.tsx:71 | only the key is overwritten |
| ElevenLabsService.SpeechRequestFor | services/elevenlabsService.ts:12-27 | the request posts the text to /text-to-speech/voiceId with the key, model eleven_multilingual_v2 and voice settings 0.5 and 0.75 |
| ElevenLabsService.DetailOr | services/elevenlabsService.ts:31 | `detail.message` when present and non-empty, otherwise the fallback |
| ElevenLabsService.GenerateElevenLabsSpeech | services/elevenlabsService.ts:3-35 | an empty key or voice id throws before any request; success exactly on an ok response, returning its body; a thrown fetch error passes through; a non-ok response whose body is not JSON throws the parse error |
| ElevenLabsService.ApiErrorMessage | services/elevenlabsService.ts:29-32 | a non-ok JSON response throws "ElevenLabs API Error: " followed by the detail message when it is non-empty, and by the status text when it is absent or empty |
| ElevenLabsService.MissingCredentialsSendNothing | services/elevenlabsService.ts:8-10 | with an empty key or voice id the answer does not depend on the network |
| ElevenLabsService.VoiceRequestFor | services/elevenlabsService.ts:63-68 | the validator reads /voices/voiceId with the key |
| ElevenLabsService.CaughtError | services/elevenlabsService.ts:112-128 | a thrown error is network exactly when its message has "fetch" or "network" or its name is TypeError, otherwise unknown quoting the message |
| ElevenLabsService.ResponseVerdict | services/elevenlabsService.ts:70-110 | ok with a JSON body succeeds with the message naming the voice ("Unknown" when it has no name); ok with a body that is not JSON is the caught SyntaxError; 401 is auth, 404 model, 429 config, any other status unknown with the detail or the HTTP status |
| ElevenLabsService.OkMessage | services/elevenlabsService.ts:75 | the success text naming the voice and its id |
| ElevenLabsService.VoiceNotFoundMessage | services/elevenlabsService.ts:91 | the 404 text quoting the voice id |
| ElevenLabsService.HttpErrorMessage | services/elevenlabsService.ts:108 | the fallback text naming the HTTP status and its status text |
| ElevenLabsService.ValidateElevenLabsSettings | services/elevenlabsService.ts:45-130 | blank key, then blank voice id, fail with config; otherwise a thrown fetch is classified by CaughtError and a response by ResponseVerdict (401, 404, 429, other); success exactly on an ok response with a JSON body |
| ElevenLabsService.UnnamedVoiceReportedUnknown | services/elevenlabsService.ts:71-76 | a voice without a name is reported as "Unknown" |
| ElevenLabsService.WhitespaceKeyValidatedButSent | services/elevenlabsService.ts:8 | a whitespace key fails validation but passes the speech call's empty check and is sent |
| EdgeTtsService.RequestFor | services/edgeTtsService.ts:11-24 | the request posts text and voice with language en-US and speed 1.0 |
| EdgeTtsService.RawAttempt | services/edgeTtsService.ts:26-37 | the try block succeeds exactly on an ok response with at least 100 bytes |
| EdgeTtsService.StatusMessage | services/edgeTtsService.ts:27 | the error thrown for a non-ok response: the fixed prefix and the status in decimal |
| EdgeTtsService.HttpUnavailableMessage | services/edgeTtsService.ts:73-78 | the validator's text for a non-ok response, naming the HTTP status |
| EdgeTtsService.Rethrown | services/edgeTtsService.ts:42-50 | "fetch" gives the connection message, then "status: 429" the rate-limit message, then "status: 500" the unavailable message, otherwise "Edge TTS failed: " and the message |
| EdgeTtsService.GenerateEdgeSpeech | services/edgeTtsService.ts:4-52 | success exactly when the try block succeeds, returning the body unchanged; every failure is rethrown through the mapping |
| EdgeTtsService.StatusMessageNoFetch | services/edgeTtsService.ts:27 | a status error never mentions "fetch" |
| EdgeTtsService.StatusMessageSignals | services/edgeTtsService.ts:44-46 | a status message holds "status: 429" or "status: 500" exactly when the status's digits start with 429 or 500 |
| EdgeTtsService.RateLimitExactlyFor429 | services/edgeTtsService.ts:44-45 | among three-digit statuses, only 429 gives the rate-limit message |
| EdgeTtsService.UnavailableExactlyFor500 | services/edgeTtsService.ts:46-47 | among three-digit statuses, only 500 gives the unavailable message |
| EdgeTtsService.OtherStatusPassedThrough | services/edgeTtsService.ts:50 | any other three-digit status N gives "Edge TTS failed: Edge TTS service responded with status: N" |
| EdgeTtsService.ShortBodyReported | services/edgeTtsService.ts:33-35 | an ok body under 100 bytes gives "Edge TTS failed: Received invalid audio data from Edge TTS service" |
| EdgeTtsService.FetchFailureReported | services/edgeTtsService.ts:42-43 | a thrown fetch error gives the connection message |
| EdgeTtsService.ValidateEdgeTtsSettings | services/edgeTtsService.ts:54-108 | success exactly on an ok response of at least 100 bytes; a non-ok status is reported with its number; an ok response under 100 bytes gives the validation-failed message; a thrown fetch or network error gives the connection message, any other throw the failed prefix and its message |
| EdgeTtsService.ValidatorAgreesWithSpeech | services/edgeTtsService.ts:54-108 | the validator succeeds exactly when speech generation of its test text would |
| SettingsPanel.ReportLine | components/SettingsPanel.tsx:47 | a passed check reads "Label: OK", a failed one "Label: Failed - " followed by its message |
| SettingsPanel.TtsCheck | components/SettingsPanel.tsx:52-60 | a TTS check runs exactly for the gemini and elevenlabs providers |
| SettingsPanel.StoryCheck | components/SettingsPanel.tsx:46 | the story check validates `generativeApiKey` and `storyModel` with the Gemini story validator |
| SettingsPanel.TestMessages | components/SettingsPanel.tsx:40-65 | the report: the story line, then the TTS line only when the story check passed and the provider has a check |
| SettingsPanel.TestSucceeds | components/SettingsPanel.tsx:40-65 | the test succeeds exactly when the story check passed and the TTS check, if one ran, passed too |
| SettingsPanel.ReportShape | components/SettingsPanel.tsx:46-61 | one message when the story check fails or the provider has no check, two otherwise; the first always reports the story check |
| SettingsPanel.StoryFailureSkipsTts | components/SettingsPanel.tsx:48-51 | after a failed story check the TTS check is not run and the test fails |
| SettingsPanel.MissingGenerativeKeyFails | components/SettingsPanel.tsx:46 | with `generativeApiKey` absent or blank the only message is the story check's empty-key failure |
| SettingsPanel.DefaultsNeverPass | components/SettingsPanel.tsx:46 | the default settings never pass the test, because they lack `generativeApiKey` |
| SettingsPanel.Panel.constructor | components/SettingsPanel.tsx:19-21 | the local copy is the settings, the status idle, no messages |
| SettingsPanel.Panel.Reset | components/SettingsPanel.tsx:24-28 | the local copy, the status and the messages are reset |
| SettingsPanel.Panel.HandleChange | components/SettingsPanel.tsx:35-38 | only the named field changes |
| SettingsPanel.Panel.HandleSave | components/SettingsPanel.tsx:30-33 | the local copy is saved, then closing is requested |
| SettingsPanel.Panel.HandleTestConfiguration | components/SettingsPanel.tsx:40-65 | the status is testing while the checks run; the messages and the final status are those of the sequence |
| AudioPlayer.GeminiSourceIsWav | components/AudioPlayer.tsx:49-52 | a Gemini payload becomes a WAV blob at 24000 Hz, 1 channel, 16 bits, carrying the decoded payload |
| AudioPlayer.ChooseSource | components/AudioPlayer.tsx:48-60 | gemini with a truthy payload gives a 24 kHz mono WAV of the decoded bytes or a throw; elevenlabs with a buffer gives an audio/mpeg blob; anything else gives no source |
| AudioPlayer.GeminiPayloadPlaysEncodedBytes | components/AudioPlayer.tsx:49-52 | the blob made from base64 PCM carries exactly that PCM after its header |
| AudioPlayer.ElevenLabsSourceIsMpeg | components/AudioPlayer.tsx:53-55 | an ElevenLabs buffer becomes an audio/mpeg blob of those bytes |
| AudioPlayer.OtherProvidersGetNoSource | components/AudioPlayer.tsx:49-60 | any other provider gets no source |
| AudioPlayer.EdgeAudioIsNeverPlayed | components/AudioPlayer.tsx:49-60 | provider "edge" with a buffer gets no source |
| AudioPlayer.OnlyUndecodableGeminiPayloadThrows | components/AudioPlayer.tsx:48-65 | the catch branch is reached exactly for a Gemini payload `atob` rejects |
| AudioPlayer.ObjectUrls.CreateObjectUrl | components/AudioPlayer.tsx:52 | a fresh URL is bound to the blob and becomes live |
| AudioPlayer.ObjectUrls.RevokeObjectUrl | components/AudioPlayer.tsx:69 | the URL stops being live |
| AudioPlayer.TwoDigits | components/AudioPlayer.tsx:113 | seconds are two digits, zero-padded, reading back as the value |
| AudioPlayer.FormatTime | components/AudioPlayer.tsx:109-114 | NaN and 0 give "0:00"; otherwise whole minutes, a colon and the seconds in two digits |
| AudioPlayer.FormatTimeReadsBack | components/AudioPlayer.tsx:109-114 | for n seconds the text is minutes, ":" and two digits of seconds below 60, with 60·minutes + seconds = n |
| AudioPlayer.NaNFormatsAsZero | components/AudioPlayer.tsx:110 | NaN and 0 both format as "0:00" |
| AudioPlayer.RenderPrecedence | components/AudioPlayer.tsx:127-157 | loading, then error with retry, then the placeholder without a source, then the player |
| AudioPlayer.Render | components/AudioPlayer.tsx:127-157 | loading, then the error with retry, then the placeholder, then the player with its source and both formatted times |
| AudioPlayer.DownloadNameShape | components/AudioPlayer.tsx:121 | "story-narration-", the clock in decimal, then ".wav" exactly for gemini and ".mp3" otherwise |
| AudioPlayer.DownloadName | components/AudioPlayer.tsx:121 | "story-narration-", the clock reading, and ".wav" for gemini or ".mp3" otherwise |
| AudioPlayer.Player.constructor | components/AudioPlayer.tsx:41-44 | no source, paused, time and duration zero |
| AudioPlayer.Player.Effect | components/AudioPlayer.tsx:46-65 | a chosen blob gets a fresh live URL that becomes the source; no source leaves it as it was; a thrown decode clears it |
| AudioPlayer.Player.Cleanup | components/AudioPlayer.tsx:67-77 | the effect's URL is revoked; the playback state is reset only without an error |
| AudioPlayer.Player.EffectThenCleanup | components/AudioPlayer.tsx:46-78 | every URL an effect creates is revoked by its cleanup |
| AudioPlayer.Player.TogglePlayPause | components/AudioPlayer.tsx:80-89 | with an element, pause when playing and play otherwise, flipping the flag; without one nothing happens |
| AudioPlayer.Player.Download | components/AudioPlayer.tsx:116-121 | no link without a source; the link points at the source and ends in .wav exactly for gemini |
| HistoryPanel.BucketRanges | components/HistoryPanel.tsx:28-36 | under a minute (negative included) is "Just now", then whole minutes 1–59, hours 1–23, days 1–6, and the date from a week on |
| HistoryPanel.Bucket | components/HistoryPanel.tsx:27-36 | the floored minute, hour and day counts of the age, tested in the source's order |
| HistoryPanel.AgeLabel | components/HistoryPanel.tsx:32-36 | "Just now", "Nm ago", "Nh ago", "Nd ago", or the locale date |
| HistoryPanel.FormatDate | components/HistoryPanel.tsx:24-37 | the label of the bucket of `now - timestamp` |
| HistoryPanel.CardFor | components/HistoryPanel.tsx:72-102 | one card: the id, the image URL, the formatted date, the prompt only when non-empty, and the story |
| HistoryPanel.RelativeLabelReadsBack | components/HistoryPanel.tsx:33-35 | a relative label is the count in decimal followed by "m ago", "h ago" or "d ago" |
| HistoryPanel.MinutesLabel | components/HistoryPanel.tsx:33 | an entry a minute to an hour old shows its whole minutes |
| HistoryPanel.Render | components/HistoryPanel.tsx:22-116 | closed renders nothing, empty history the empty state, otherwise one card per entry in order with its id, story, image URL and date, and the prompt line, holding the entry's prompt, only for a non-empty prompt |
| SourcesDisplay.WebSources | components/SourcesDisplay.tsx:9 | exactly the chunks with a `web` part are kept |
| SourcesDisplay.WebSourcesConcat | components/SourcesDisplay.tsx:9 | the filter keeps relative order |
| SourcesDisplay.WebSourcesCounts | components/SourcesDisplay.tsx:9 | each web chunk is kept as often as it occurs, every other chunk never |
| SourcesDisplay.AllWebKept | components/SourcesDisplay.tsx:9 | a list of web chunks comes through unchanged |
| SourcesDisplay.Render | components/SourcesDisplay.tsx:9-42 | nothing exactly when no chunk has `web`; otherwise one link per kept chunk to its uri, titled with its title |

## Left out

- File reading: `fileToBase64` (FileReader) is not modelled. An image is given as its base64 data and MIME type.
- `decodeAudioData` is not modelled: it does floating-point sample scaling through an `AudioContext`.
- `formatTime` covers whole non-negative seconds plus an explicit NaN. Fractional times, and the floating-point values the player reads from the media element, are not modelled.
- Timers are not modelled: `retryWithBackoff` records the waits it asks for instead of sleeping. The 2 s "Copied!" timer of the story display is not part of this model.
- `Date.now()` is a `now` parameter, and `toLocaleDateString()` is a function parameter. The two calls in `saveToHistory` are taken to return the same instant.
- Provider SDK calls and `fetch` are not modelled. Their answers are parameters, given per attempt for the retried Gemini calls.
- `JSON.stringify` of a thrown value is a string the `Failure` carries. Every `new Error` serialises to "{}".
- `translateToSimplifiedChinese` is not part of this model: App.tsx imports it, but services/geminiService.ts does not define it. Only the credential it would receive is modelled, by `App.Credential`.
- `generateStory` (services/geminiService.ts:69-74) declares four parameters. App.tsx passes `settings.storyProvider` as a fifth argument, which JavaScript ignores, so the model has four parameters.
- Object URLs are natural-number handles. `App.AppComponent.HandleImageUpload` takes the URL as a parameter.
- JSON under the history key that parses but is not a list is not modelled. Such a value is treated like unparseable text: the history stays as it was.
- A failing `localStorage.setItem` inside the history updater is not modelled: it would abort the React state update.
- React machinery is not modelled: re-rendering, `useCallback` dependencies and stale closures. `App.AppComponent.CanGenerate` states the button's `disabled` guard (App.tsx:274); the handler itself has no guard, and concurrent runs are not modelled.
- Logging (`console.log`, `console.error`) is not modelled.
- components/WelcomeBanner.tsx, components/StoryDisplay.tsx, components/ImageUploader.tsx and vite.config.ts are not part of this model.
- The prompt texts of the two Gemini requests are not stored in the request values. `GeminiService.StoryContents` and `GeminiService.SpeechText` derive them from the request's inputs.
- `EdgeTtsService.RequestFor` records the speed as the literal 1.0 and does not model JSON number formatting.
- AudioUtils.CreateWavBlob: copies the payload itself. The source copies `new Uint8Array(pcmData.buffer)`, the whole underlying buffer, so the two agree only for a payload that spans its buffer from offset 0. That holds at the only call site, which passes the fresh array `decode` returns. A shorter view would make the source's `set` throw, and an offset view would copy other bytes; neither case is modelled.
- JSON under the settings key that parses to something other than an object of string fields is treated like unparseable text: the settings stay as they were.
- Selecting a history entry (`App.AppComponent.HandleSelectHistory`) keeps the current image file and any audio, as the source does. The next generation then uses the old image with the restored prompt.
