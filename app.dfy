/** The top-level component: its state, the history store kept in
    `localStorage`, the credential chosen for the story provider, and the
    two handlers that drive generation, the story step and the audio step it
    chains into. Every provider answer is an input, bundled in `Providers`;
    each handler is specified by a function from the state before to the
    state after, and the lemmas below are about those functions. */
module App {
  import opened Types
  import opened Text
  import opened Storage
  import opened UseSettings
  import GeminiService
  import ElevenLabsService
  import EdgeTtsService
  import SettingsPanel
  import AudioPlayer

  const HISTORY_KEY: string := "ai-story-weaver-history"
  const HISTORY_LIMIT: nat := 5

  /** The second argument `generateEdgeSpeech` receives, in its voice slot. */
  const EDGE_VOICE_ARGUMENT: string := "en-US"

  const NO_IMAGE_MESSAGE: string := "📷 Please upload an image first."

  // ---------------------------------------------------------------------
  // Credentials
  // ---------------------------------------------------------------------

  /** The key handed to the story provider (and to translation): the key of
      the selected provider, with every unknown provider falling to Kimi. */
  function Credential(settings: Settings): (apiKey: string)
    ensures Field(settings, STORY_PROVIDER) == "gemini" ==> apiKey == Field(settings, GEMINI_API_KEY)
    ensures Field(settings, STORY_PROVIDER) == "openai" ==> apiKey == Field(settings, OPENAI_API_KEY)
    ensures Field(settings, STORY_PROVIDER) == "claude" ==> apiKey == Field(settings, CLAUDE_API_KEY)
    ensures Field(settings, STORY_PROVIDER) !in {"gemini", "openai", "claude"} ==> apiKey == Field(settings, KIMI_API_KEY)
  {
    var provider := Field(settings, STORY_PROVIDER);
    if provider == "gemini" then Field(settings, GEMINI_API_KEY)
    else if provider == "openai" then Field(settings, OPENAI_API_KEY)
    else if provider == "claude" then Field(settings, CLAUDE_API_KEY)
    else Field(settings, KIMI_API_KEY)
  }

  /** The key the settings panel tests (`generativeApiKey`) is never the key
      used to generate: changing it changes no credential. */
  lemma PanelKeyNeverReachesGeneration(settings: Settings, key: string)
    ensures Credential(settings[SettingsPanel.GENERATIVE_API_KEY := key]) == Credential(settings)
  {
    var t := settings[SettingsPanel.GENERATIVE_API_KEY := key];
    assert SettingsPanel.GENERATIVE_API_KEY[0] == 'g' && STORY_PROVIDER[0] == 's';
    assert Field(t, STORY_PROVIDER) == Field(settings, STORY_PROVIDER);
    assert SettingsPanel.GENERATIVE_API_KEY[2] != GEMINI_API_KEY[2];
    assert SettingsPanel.GENERATIVE_API_KEY[0] != OPENAI_API_KEY[0];
    assert SettingsPanel.GENERATIVE_API_KEY[0] != CLAUDE_API_KEY[0];
    assert SettingsPanel.GENERATIVE_API_KEY[0] != KIMI_API_KEY[0];
  }

  // ---------------------------------------------------------------------
  // History
  // ---------------------------------------------------------------------

  function Min(a: nat, b: nat): nat {
    if a <= b then a else b
  }

  /** `[newItem, ...prev].slice(0, 5)`. */
  function PrependCapped(item: HistoryEntry, prev: seq<HistoryEntry>): (r: seq<HistoryEntry>)
    ensures |r| == Min(|prev| + 1, HISTORY_LIMIT)
    ensures r[0] == item
    ensures forall i | 1 <= i < |r| :: r[i] == prev[i - 1]
  {
    ([item] + prev)[..Min(|prev| + 1, HISTORY_LIMIT)]
  }

  /** Below the cap nothing is dropped; at the cap exactly the oldest
      entries beyond the fourth are. */
  lemma PrependCappedDropsOldest(item: HistoryEntry, prev: seq<HistoryEntry>)
    ensures |prev| < HISTORY_LIMIT ==> PrependCapped(item, prev) == [item] + prev
    ensures |prev| >= HISTORY_LIMIT ==> PrependCapped(item, prev) == [item] + prev[..HISTORY_LIMIT - 1]
  {
    var r := PrependCapped(item, prev);
    if |prev| < HISTORY_LIMIT {
      assert r == [item] + prev by {
        forall i | 0 <= i < |r| ensures r[i] == ([item] + prev)[i] {
        }
      }
    } else {
      assert r == [item] + prev[..HISTORY_LIMIT - 1] by {
        forall i | 0 <= i < |r| ensures r[i] == ([item] + prev[..HISTORY_LIMIT - 1])[i] {
        }
      }
    }
  }

  /** `prev.filter(item => item.id !== id)`. */
  function RemoveId(prev: seq<HistoryEntry>, id: string): (r: seq<HistoryEntry>)
    ensures |r| <= |prev|
    ensures forall i | 0 <= i < |r| :: r[i].id != id && r[i] in prev
    ensures forall i | 0 <= i < |prev| && prev[i].id != id :: prev[i] in r
  {
    if prev == [] then []
    else (if prev[0].id != id then [prev[0]] else []) + RemoveId(prev[1..], id)
  }

  /** Filtering keeps the survivors in their original order. */
  lemma {:induction false} RemoveIdConcat(a: seq<HistoryEntry>, b: seq<HistoryEntry>, id: string)
    ensures RemoveId(a + b, id) == RemoveId(a, id) + RemoveId(b, id)
    decreases |a|
  {
    if a != [] {
      assert (a + b)[0] == a[0];
      assert (a + b)[1..] == a[1..] + b;
      RemoveIdConcat(a[1..], b, id);
    } else {
      assert a + b == b;
    }
  }

  /** Deleting an id no entry carries leaves the list as it was. */
  lemma {:induction false} RemoveUnknownId(prev: seq<HistoryEntry>, id: string)
    requires forall i | 0 <= i < |prev| :: prev[i].id != id
    ensures RemoveId(prev, id) == prev
    decreases |prev|
  {
    if prev != [] {
      RemoveUnknownId(prev[1..], id);
    }
  }

  /** Every entry with another id survives as often as it occurred. */
  lemma {:induction false} RemoveIdCounts(prev: seq<HistoryEntry>, id: string, e: HistoryEntry)
    ensures multiset(RemoveId(prev, id))[e] == if e.id == id then 0 else multiset(prev)[e]
    decreases |prev|
  {
    if prev != [] {
      RemoveIdCounts(prev[1..], id, e);
      var head := if prev[0].id != id then [prev[0]] else [];
      assert RemoveId(prev, id) == head + RemoveId(prev[1..], id);
      assert multiset(RemoveId(prev, id)) == multiset(head) + multiset(RemoveId(prev[1..], id));
      assert prev == [prev[0]] + prev[1..];
      assert multiset(prev) == multiset{prev[0]} + multiset(prev[1..]);
    }
  }

  /** The history after the mount effect: a stored list replaces it whole,
      however long; nothing stored or text that does not parse leaves it. */
  function LoadedHistory(stored: Option<StoredValue>, current: seq<HistoryEntry>): (r: seq<HistoryEntry>)
    ensures stored.Some? && stored.value.HistoryJson? ==> r == stored.value.entries
    ensures !(stored.Some? && stored.value.HistoryJson?) ==> r == current
  {
    match stored
    case Some(HistoryJson(entries)) => entries
    case _ => current
  }

  // ---------------------------------------------------------------------
  // Component state
  // ---------------------------------------------------------------------

  /** A snapshot of the component's state variables. */
  datatype State = State(
    prompt: string,
    imageFile: Option<GeminiService.ImageFile>,
    imageUrl: Option<string>,
    story: string,
    sources: seq<GroundingChunk>,
    geminiAudio: Option<string>,
    elevenlabsAudio: Option<seq<uint8>>,
    error: Option<string>,
    audioError: bool,
    history: seq<HistoryEntry>,
    isGeneratingStory: bool,
    isGeneratingAudio: bool,
    isSettingsOpen: bool,
    isHistoryOpen: bool)

  /** What every provider call of a run settles to: the Gemini story and
      speech endpoints per attempt, the two `fetch`es, and the environment key. */
  datatype Providers = Providers(
    envKey: string,
    storyService: (GeminiService.StoryRequest, nat) -> Outcome<GeminiService.StoryResponse>,
    speechService: (GeminiService.SpeechRequest, nat) -> Outcome<GeminiService.SpeechResponse>,
    elevenLabsFetch: ElevenLabsService.Request -> FetchResult,
    edgeFetch: EdgeTtsService.Request -> FetchResult)

  /** Provider calls made and waits requested during one handler run. */
  datatype Trace = Trace(storyCalls: nat, speechCalls: nat, sleeps: seq<int>)

  /** `!newStory || !imageUrl` fails. */
  predicate CanSave(s: State, newStory: string) {
    newStory != "" && s.imageUrl.Some? && s.imageUrl.value != ""
  }

  /** The record `saveToHistory` builds at time `now`. */
  function NewEntry(s: State, newStory: string, newSources: seq<GroundingChunk>, now: nat): HistoryEntry
    requires s.imageUrl.Some?
  {
    HistoryEntry(NatToString(now), newStory, s.imageUrl.value, s.prompt, now, newSources)
  }

  function AfterSave(s: State, newStory: string, newSources: seq<GroundingChunk>, now: nat): State {
    if CanSave(s, newStory) then s.(history := PrependCapped(NewEntry(s, newStory, newSources, now), s.history))
    else s
  }

  /** An empty story or a missing image URL saves nothing; otherwise the new
      entry comes first and the list holds at most five. */
  lemma SaveToHistoryGuard(s: State, newStory: string, newSources: seq<GroundingChunk>, now: nat)
    ensures !CanSave(s, newStory) ==> AfterSave(s, newStory, newSources, now) == s
    ensures CanSave(s, newStory) ==>
      var h := AfterSave(s, newStory, newSources, now).history;
      && 1 <= |h| <= HISTORY_LIMIT
      && h[0] == HistoryEntry(NatToString(now), newStory, s.imageUrl.value, s.prompt, now, newSources)
      && AfterSave(s, newStory, newSources, now) == s.(history := h)
  {
  }

  // ---------------------------------------------------------------------
  // The audio step
  // ---------------------------------------------------------------------

  const AUDIO_OVERLOAD_MESSAGE: string :=
    "⚠️ TTS 服务器当前负载过高。已自动重试 3 次但仍失败，请稍后再试。故事已生成，可手动点击重新生成语音。"
  const AUDIO_FAILED_PREFIX: string := "🔊 语音生成失败: "
  const AUDIO_FAILED_SUFFIX: string := "。故事已生成，可手动点击重新生成语音。"

  /** The overload test both catch blocks apply first. */
  predicate OverloadSignal(e: Failure) {
    Contains(e.serialized, "503") || Contains(e.serialized, "UNAVAILABLE") || Contains(e.message, "overloaded")
  }

  function AudioErrorMessage(e: Failure): string {
    if OverloadSignal(e) then AUDIO_OVERLOAD_MESSAGE else AUDIO_FAILED_PREFIX + e.message + AUDIO_FAILED_SUFFIX
  }

  function NotImplementedMessage(provider: string): string {
    "TTS provider \"" + provider + "\" is not yet implemented. Please use Gemini, ElevenLabs, or Edge TTS."
  }

  /** How the audio step's `try` block ends. */
  datatype AudioOutcome =
    | GeminiAudio(base64: string)
    | BufferAudio(bytes: seq<uint8>)
    | NoAudio
    | AudioFailed(message: string)

  function GeminiSpeechOp(text: string, settings: Settings, p: Providers): nat -> Outcome<string> {
    GeminiService.SpeechOp(
      GeminiService.SpeechRequestFor(text, Field(settings, TTS_MODEL), Field(settings, GEMINI_API_KEY), p.envKey),
      p.speechService)
  }

  /** The Gemini branch: the retried speech call; an empty payload sets nothing. */
  function GeminiNarration(text: string, settings: Settings, p: Providers): AudioOutcome {
    var r := GeminiService.RetryResult(GeminiSpeechOp(text, settings, p), GeminiService.MAX_RETRIES);
    if r.Resolved? then (if r.value != "" then GeminiAudio(r.value) else NoAudio)
    else AudioFailed(AudioErrorMessage(r.error))
  }

  /** A buffer-returning provider's answer. */
  function BufferNarration(r: Outcome<seq<uint8>>): AudioOutcome {
    match r
    case Ok(bytes) => BufferAudio(bytes)
    case Err(e) => AudioFailed(AudioErrorMessage(e))
  }

  function AudioResult(text: string, settings: Settings, p: Providers): AudioOutcome {
    var provider := Field(settings, TTS_PROVIDER);
    if provider == "gemini" then GeminiNarration(text, settings, p)
    else if provider == "elevenlabs" then
      BufferNarration(ElevenLabsService.GenerateElevenLabsSpeech(
        text, Field(settings, ELEVENLABS_API_KEY), Field(settings, ELEVENLABS_VOICE_ID), p.elevenLabsFetch))
    else if provider == "edge" then
      BufferNarration(EdgeTtsService.GenerateEdgeSpeech(text, EDGE_VOICE_ARGUMENT, p.edgeFetch))
    else
      AudioFailed(NotImplementedMessage(provider))
  }

  /** Attempts and waits of the retried Gemini speech call. */
  function GeminiTrace(text: string, settings: Settings, p: Providers): Trace {
    var op := GeminiSpeechOp(text, settings, p);
    Trace(0, GeminiService.Attempts(op, GeminiService.MAX_RETRIES),
          GeminiService.Sleeps(op, GeminiService.MAX_RETRIES, GeminiService.INITIAL_DELAY_MS))
  }

  /** ElevenLabs sends its one request only with both credentials present. */
  function ElevenLabsTrace(settings: Settings): Trace {
    Trace(0, if Field(settings, ELEVENLABS_API_KEY) != "" && Field(settings, ELEVENLABS_VOICE_ID) != "" then 1 else 0, [])
  }

  function AudioTrace(text: string, settings: Settings, p: Providers): Trace {
    var provider := Field(settings, TTS_PROVIDER);
    if provider == "gemini" then GeminiTrace(text, settings, p)
    else if provider == "elevenlabs" then ElevenLabsTrace(settings)
    else if provider == "edge" then Trace(0, 1, [])
    else Trace(0, 0, [])
  }

  /** The state set before the provider is awaited. */
  function AudioStarted(s: State): State {
    s.(isGeneratingAudio := true, audioError := false, geminiAudio := None, elevenlabsAudio := None)
  }

  function ApplyAudio(s: State, outcome: AudioOutcome): State {
    match outcome
    case GeminiAudio(a) => s.(geminiAudio := Some(a))
    case BufferAudio(b) => s.(elevenlabsAudio := Some(b))
    case NoAudio => s
    case AudioFailed(m) => s.(error := Some(m), audioError := true)
  }

  /** `handleGenerateAudio(text)` from start to `finally`. */
  function AfterAudio(s: State, text: string, settings: Settings, p: Providers): State {
    ApplyAudio(AudioStarted(s), AudioResult(text, settings, p)).(isGeneratingAudio := false)
  }

  /** Applying any outcome after the reset ends idle and touches nothing but
      the audio fields, the error and the busy flag. */
  lemma ApplyAudioFrame(s: State, o: AudioOutcome)
    ensures var t := ApplyAudio(AudioStarted(s), o).(isGeneratingAudio := false);
      && !t.isGeneratingAudio
      && t.story == s.story && t.sources == s.sources && t.history == s.history
      && t.prompt == s.prompt && t.imageFile == s.imageFile && t.isGeneratingStory == s.isGeneratingStory
      && (t.audioError <==> o.AudioFailed?)
      && (t.audioError ==> t.error == Some(o.message))
      && (!t.audioError ==> t.error == s.error)
      && (t.geminiAudio.Some? ==> t.elevenlabsAudio.None?)
  {
  }

  /** The audio step ends idle and touches nothing but the audio fields, the
      error and the busy flag; a failure raises `audioError` and keeps the story. */
  lemma AudioStepKeepsStory(s: State, text: string, settings: Settings, p: Providers)
    ensures var t := AfterAudio(s, text, settings, p);
      && !t.isGeneratingAudio
      && t.story == s.story && t.sources == s.sources && t.history == s.history
      && t.prompt == s.prompt && t.imageFile == s.imageFile && t.isGeneratingStory == s.isGeneratingStory
      && (t.audioError <==> AudioResult(text, settings, p).AudioFailed?)
      && (t.audioError ==> t.error == Some(AudioResult(text, settings, p).message))
      && (!t.audioError ==> t.error == s.error)
      && (t.geminiAudio.Some? ==> t.elevenlabsAudio.None?)
  {
    ApplyAudioFrame(s, AudioResult(text, settings, p));
  }

  /** A provider the component does not know reports itself as not
      implemented, without calling anything. */
  lemma UnknownTtsProvider(s: State, text: string, settings: Settings, p: Providers)
    requires Field(settings, TTS_PROVIDER) !in {"gemini", "elevenlabs", "edge"}
    ensures AfterAudio(s, text, settings, p).audioError
    ensures AfterAudio(s, text, settings, p).error == Some(NotImplementedMessage(Field(settings, TTS_PROVIDER)))
    ensures AudioResult(text, settings, p) == AudioFailed(NotImplementedMessage(Field(settings, TTS_PROVIDER)))
    ensures AudioTrace(text, settings, p) == Trace(0, 0, [])
  {
  }

  /** Edge audio lands in the buffer field, where the player, told the
      provider is `"edge"`, creates no source: it is never playable. */
  lemma EdgeNarrationNeverPlays(s: State, text: string, settings: Settings, p: Providers)
    requires Field(settings, TTS_PROVIDER) == "edge"
    requires EdgeTtsService.GenerateEdgeSpeech(text, EDGE_VOICE_ARGUMENT, p.edgeFetch).Ok?
    ensures var t := AfterAudio(s, text, settings, p);
      && t.elevenlabsAudio == Some(EdgeTtsService.GenerateEdgeSpeech(text, EDGE_VOICE_ARGUMENT, p.edgeFetch).value)
      && t.geminiAudio.None? && !t.audioError
      && AudioPlayer.ChooseSource(Field(settings, TTS_PROVIDER), t.geminiAudio, t.elevenlabsAudio) == AudioPlayer.NoSource
  {
    var t := AfterAudio(s, text, settings, p);
    AudioPlayer.OtherProvidersGetNoSource("edge", t.geminiAudio, t.elevenlabsAudio);
  }

  // ---------------------------------------------------------------------
  // The story step
  // ---------------------------------------------------------------------

  const STORY_OVERLOAD_PREFIX: string :=
    "⚠️ Gemini API 服务器当前负载过高。已自动重试 3 次但仍失败，请稍后再试。错误详情: "
  const AUTH_PREFIX: string := "🔑 API Key 错误: "
  const AUTH_SUFFIX: string := "。请在右上角设置中检查 API Key 是否正确。"
  const MODEL_PREFIX: string := "🤖 模型错误: "
  const MODEL_SUFFIX: string := "。请在设置中检查模型名称是否正确。"
  const STORY_FAILED_PREFIX: string := "❌ 故事生成失败: "

  datatype StoryFailure = Overloaded | BadKey | BadModel | OtherFailure

  predicate AuthSignal(e: Failure) {
    Contains(e.message, "401") || Contains(e.message, "API key")
  }

  predicate ModelSignal(e: Failure) {
    Contains(e.message, "404") || Contains(e.message, "not found")
  }

  function StoryFailureOf(e: Failure): StoryFailure {
    if OverloadSignal(e) then Overloaded
    else if AuthSignal(e) then BadKey
    else if ModelSignal(e) then BadModel
    else OtherFailure
  }

  /** First match wins: overload, then key, then model, then the rest. */
  lemma StoryFailurePrecedence(e: Failure)
    ensures StoryFailureOf(e) == Overloaded <==> OverloadSignal(e)
    ensures StoryFailureOf(e) == BadKey <==> !OverloadSignal(e) && AuthSignal(e)
    ensures StoryFailureOf(e) == BadModel <==> !OverloadSignal(e) && !AuthSignal(e) && ModelSignal(e)
    ensures StoryFailureOf(e) == OtherFailure <==> !OverloadSignal(e) && !AuthSignal(e) && !ModelSignal(e)
  {
  }

  function StoryErrorMessage(e: Failure): string {
    match StoryFailureOf(e)
    case Overloaded => STORY_OVERLOAD_PREFIX + e.message
    case BadKey => AUTH_PREFIX + e.message + AUTH_SUFFIX
    case BadModel => MODEL_PREFIX + e.message + MODEL_SUFFIX
    case OtherFailure => STORY_FAILED_PREFIX + e.message
  }

  /** Every story error message quotes the error's own message right after
      the prefix of its kind. */
  lemma StoryErrorQuotesMessage(e: Failure)
    ensures var prefix := match StoryFailureOf(e)
                          case Overloaded => STORY_OVERLOAD_PREFIX
                          case BadKey => AUTH_PREFIX
                          case BadModel => MODEL_PREFIX
                          case OtherFailure => STORY_FAILED_PREFIX;
      OccursAt(StoryErrorMessage(e), prefix, 0) && OccursAt(StoryErrorMessage(e), e.message, |prefix|)
  {
  }

  /** An overload error always passes the retry predicate, so a story run
      only reports overload after spending all three attempts. */
  lemma OverloadIsRetryable(e: Failure)
    requires OverloadSignal(e)
    ensures GeminiService.ShouldRetry(e)
  {
  }

  function StoryOpOf(s: State, settings: Settings, p: Providers): nat -> Outcome<GeminiService.StoryResult> {
    GeminiService.StoryOp(
      GeminiService.StoryRequestFor(s.prompt, s.imageFile, Field(settings, STORY_MODEL), Credential(settings), p.envKey),
      p.storyService)
  }

  function StorySettled(s: State, settings: Settings, p: Providers): (r: GeminiService.Settled<GeminiService.StoryResult>)
    ensures !r.RejectedUndefined?
  {
    GeminiService.RetryResult(StoryOpOf(s, settings, p), GeminiService.MAX_RETRIES)
  }

  /** The state set before the story provider is awaited. */
  function StoryStarted(s: State): State {
    s.(error := None, audioError := false, story := "", sources := [],
       geminiAudio := None, elevenlabsAudio := None, isGeneratingStory := true)
  }

  /** The success path: the story and sources are shown, saved, and a
      non-empty story is narrated. */
  function StoryShown(s: State, r: GeminiService.StoryResult, settings: Settings, p: Providers, now: nat): State {
    var shown := s.(story := r.story, sources := r.sources);
    var saved := AfterSave(shown, r.story, r.sources, now);
    if r.story != "" then AfterAudio(saved, r.story, settings, p) else saved
  }

  /** `handleGenerateStory()` at time `now` from start to `finally`. */
  function AfterStory(s: State, settings: Settings, p: Providers, now: nat): State {
    if s.imageFile.None? then s.(error := Some(NO_IMAGE_MESSAGE))
    else
      StoryEnded(StoryStarted(s), StorySettled(s, settings, p), settings, p, now)
  }

  /** From the started state, what the settled provider call leads to, up to
      and including the `finally` block. */
  function StoryEnded(started: State, r: GeminiService.Settled<GeminiService.StoryResult>, settings: Settings, p: Providers, now: nat): State
    requires !r.RejectedUndefined?
  {
    var ended :=
      if r.Resolved? then StoryShown(started, r.value, settings, p, now)
      else started.(error := Some(StoryErrorMessage(r.error)));
    ended.(isGeneratingStory := false)
  }

  /** Whether the run writes the history to storage. */
  predicate StoryWritesHistory(s: State, settings: Settings, p: Providers) {
    s.imageFile.Some? && StorySettled(s, settings, p).Resolved? && CanSave(s, StorySettled(s, settings, p).value.story)
  }

  function StoryTrace(s: State, settings: Settings, p: Providers): Trace {
    if s.imageFile.None? then Trace(0, 0, [])
    else
      var op := StoryOpOf(s, settings, p);
      var r := StorySettled(s, settings, p);
      var audio := if r.Resolved? && r.value.story != "" then AudioTrace(r.value.story, settings, p) else Trace(0, 0, []);
      Trace(GeminiService.Attempts(op, GeminiService.MAX_RETRIES), audio.speechCalls,
            GeminiService.Sleeps(op, GeminiService.MAX_RETRIES, GeminiService.INITIAL_DELAY_MS) + audio.sleeps)
  }

  /** Without an image only the error changes, whatever the providers would
      have answered, and nothing is called. */
  lemma NoImageOnlySetsError(s: State, settings: Settings, p: Providers, q: Providers, now: nat)
    requires s.imageFile.None?
    ensures AfterStory(s, settings, p, now) == s.(error := Some(NO_IMAGE_MESSAGE))
    ensures AfterStory(s, settings, p, now) == AfterStory(s, settings, q, now)
    ensures StoryTrace(s, settings, p) == Trace(0, 0, []) && !StoryWritesHistory(s, settings, p)
  {
  }

  /** A started run ends with both busy flags down, on success and on failure,
      when it started with no audio in progress. */
  lemma StoryStepEndsIdle(s: State, settings: Settings, p: Providers, now: nat)
    requires s.imageFile.Some? && !s.isGeneratingAudio
    ensures !AfterStory(s, settings, p, now).isGeneratingStory
    ensures !AfterStory(s, settings, p, now).isGeneratingAudio
  {
  }

  /** A failed story run shows the classified error, leaves the cleared
      fields cleared, keeps the history, and never reaches the audio step:
      what the speech providers would answer makes no difference. */
  lemma StoryFailureSkipsAudio(s: State, settings: Settings, p: Providers, q: Providers, now: nat)
    requires s.imageFile.Some? && q.envKey == p.envKey && q.storyService == p.storyService
    requires StorySettled(s, settings, p).Rejected?
    ensures var t := AfterStory(s, settings, p, now);
      && t.error == Some(StoryErrorMessage(StorySettled(s, settings, p).error))
      && t.story == "" && t.sources == [] && t.geminiAudio.None? && t.elevenlabsAudio.None? && !t.audioError
      && t.history == s.history
      && t == AfterStory(s, settings, q, now)
    ensures StoryTrace(s, settings, p).speechCalls == 0
  {
  }

  /** An empty story is shown and not saved, and no audio is requested. */
  lemma EmptyStorySkipsAudio(s: State, settings: Settings, p: Providers, q: Providers, now: nat)
    requires s.imageFile.Some? && q.envKey == p.envKey && q.storyService == p.storyService
    requires StorySettled(s, settings, p).Resolved? && StorySettled(s, settings, p).value.story == ""
    ensures var t := AfterStory(s, settings, p, now);
      && t.story == "" && t.error.None? && t.history == s.history && t.geminiAudio.None? && t.elevenlabsAudio.None?
      && t == AfterStory(s, settings, q, now)
    ensures StoryTrace(s, settings, p).speechCalls == 0 && !StoryWritesHistory(s, settings, p)
  {
  }

  /** Showing a non-empty story: it stays shown, the history is the saved
      one, and the audio step decides alone whether an audio error shows. */
  lemma StoryShownNarrates(s: State, r: GeminiService.StoryResult, settings: Settings, p: Providers, now: nat)
    requires r.story != ""
    ensures var t := StoryShown(s, r, settings, p, now);
      && t.story == r.story && t.sources == r.sources
      && t.history == AfterSave(s, r.story, r.sources, now).history
      && t.audioError == AudioResult(r.story, settings, p).AudioFailed?
  {
    var saved := AfterSave(s.(story := r.story, sources := r.sources), r.story, r.sources, now);
    ApplyAudioFrame(saved, AudioResult(r.story, settings, p));
  }

  /** A non-empty story is shown, saved (given an image URL) and narrated:
      the final state is the audio step applied to the saved state. */
  lemma StorySuccessChainsAudio(s: State, settings: Settings, p: Providers, now: nat)
    requires s.imageFile.Some?
    requires StorySettled(s, settings, p).Resolved? && StorySettled(s, settings, p).value.story != ""
    ensures var r := StorySettled(s, settings, p).value;
      var t := AfterStory(s, settings, p, now);
      && t.story == r.story && t.sources == r.sources
      && t.history == AfterSave(s, r.story, r.sources, now).history
      && t.audioError == AudioResult(r.story, settings, p).AudioFailed?
  {
    var r := StorySettled(s, settings, p).value;
    StoryShownNarrates(StoryStarted(s), r, settings, p, now);
  }

  /** A successful run with a non-empty story makes exactly the speech calls
      and waits of its audio step, after those of the story call. */
  lemma StorySuccessTrace(s: State, settings: Settings, p: Providers)
    requires s.imageFile.Some?
    requires StorySettled(s, settings, p).Resolved? && StorySettled(s, settings, p).value.story != ""
    ensures var r := StorySettled(s, settings, p).value;
      var op := StoryOpOf(s, settings, p);
      && StoryTrace(s, settings, p).speechCalls == AudioTrace(r.story, settings, p).speechCalls
      && StoryTrace(s, settings, p).sleeps
         == GeminiService.Sleeps(op, GeminiService.MAX_RETRIES, GeminiService.INITIAL_DELAY_MS) + AudioTrace(r.story, settings, p).sleeps
  {
  }

  /** A story error reported as overload only comes after three attempts. */
  lemma OverloadReportedAfterThreeAttempts(s: State, settings: Settings, p: Providers)
    requires s.imageFile.Some?
    requires StorySettled(s, settings, p).Rejected? && OverloadSignal(StorySettled(s, settings, p).error)
    ensures StoryTrace(s, settings, p).storyCalls == GeminiService.MAX_RETRIES
  {
    var op := StoryOpOf(s, settings, p);
    var k := GeminiService.StopIndex(op, GeminiService.MAX_RETRIES, 0);
    OverloadIsRetryable(StorySettled(s, settings, p).error);
    assert GeminiService.Retryable(op(k));
  }

  // ---------------------------------------------------------------------
  // The component
  // ---------------------------------------------------------------------

  class AppComponent {
    var prompt: string
    var imageFile: Option<GeminiService.ImageFile>
    var imageUrl: Option<string>
    var story: string
    var sources: seq<GroundingChunk>
    var geminiAudio: Option<string>
    var elevenlabsAudio: Option<seq<uint8>>
    var error: Option<string>
    var audioError: bool
    var history: seq<HistoryEntry>
    var isGeneratingStory: bool
    var isGeneratingAudio: bool
    var isSettingsOpen: bool
    var isHistoryOpen: bool
    const storage: LocalStorage

    function View(): State
      reads this
    {
      State(prompt, imageFile, imageUrl, story, sources, geminiAudio, elevenlabsAudio, error, audioError,
            history, isGeneratingStory, isGeneratingAudio, isSettingsOpen, isHistoryOpen)
    }

    /** The first render. */
    constructor (storage: LocalStorage)
      ensures this.storage == storage
      ensures View() == State("", None, None, "", [], None, None, None, false, [], false, false, false, false)
    {
      this.storage := storage;
      prompt := "";
      imageFile := None;
      imageUrl := None;
      story := "";
      sources := [];
      geminiAudio := None;
      elevenlabsAudio := None;
      error := None;
      audioError := false;
      history := [];
      isGeneratingStory := false;
      isGeneratingAudio := false;
      isSettingsOpen := false;
      isHistoryOpen := false;
    }

    /** The mount effect reading the stored history. */
    method LoadHistory()
      modifies this
      ensures View() == old(View()).(history := LoadedHistory(storage.GetItem(HISTORY_KEY), old(history)))
    {
      var saved := storage.GetItem(HISTORY_KEY);
      if saved.Some? {
        match saved.value
        case HistoryJson(entries) =>
          history := entries;
        case _ =>
      }
    }

    /** `saveToHistory(newStory, newSources)` at time `now`; the stored copy
        is the new list. */
    method SaveToHistory(newStory: string, newSources: seq<GroundingChunk>, now: nat)
      modifies this, storage
      ensures View() == AfterSave(old(View()), newStory, newSources, now)
      ensures storage.items == if CanSave(old(View()), newStory)
        then old(storage.items)[HISTORY_KEY := HistoryJson(history)] else old(storage.items)
    {
      if newStory == "" || imageUrl.None? || imageUrl.value == "" {
        return;
      }
      var item := HistoryEntry(NatToString(now), newStory, imageUrl.value, prompt, now, newSources);
      var updated := PrependCapped(item, history);
      storage.SetItem(HISTORY_KEY, HistoryJson(updated));
      history := updated;
    }

    /** `handleSelectHistory(item)`: the entry's story, sources, image URL and
        prompt come back and the drawer closes; the image file and any audio stay. */
    method HandleSelectHistory(item: HistoryEntry)
      modifies this
      ensures View() == old(View()).(story := item.story, sources := item.sources, imageUrl := Some(item.imageUrl),
                                     prompt := item.prompt, isHistoryOpen := false)
    {
      story := item.story;
      sources := item.sources;
      imageUrl := Some(item.imageUrl);
      prompt := item.prompt;
      isHistoryOpen := false;
    }

    /** `handleDeleteHistory(id)`; the stored copy is the filtered list. */
    method HandleDeleteHistory(id: string)
      modifies this, storage
      ensures View() == old(View()).(history := RemoveId(old(history), id))
      ensures storage.items == old(storage.items)[HISTORY_KEY := HistoryJson(history)]
    {
      var updated := RemoveId(history, id);
      storage.SetItem(HISTORY_KEY, HistoryJson(updated));
      history := updated;
    }

    /** `handleImageUpload(file)`; `objectUrl` is what `URL.createObjectURL` returned. */
    method HandleImageUpload(file: GeminiService.ImageFile, objectUrl: string)
      modifies this
      ensures View() == old(View()).(imageFile := Some(file), imageUrl := Some(objectUrl))
    {
      imageFile := Some(file);
      imageUrl := Some(objectUrl);
    }

    /** The generate button is enabled. */
    predicate CanGenerate()
      reads this
    {
      !isGeneratingStory && !isGeneratingAudio && imageFile.Some?
    }

    /** The Gemini branch of the audio step. */
    method NarrateWithGemini(text: string, settings: Settings, p: Providers) returns (trace: Trace)
      modifies this
      ensures View() == ApplyAudio(old(View()), GeminiNarration(text, settings, p))
      ensures trace == GeminiTrace(text, settings, p)
    {
      var request, result, calls, sleeps := GeminiService.GenerateGeminiSpeech(
        text, Field(settings, TTS_MODEL), Field(settings, GEMINI_API_KEY), p.envKey, p.speechService);
      trace := Trace(0, calls, sleeps);
      if result.Resolved? {
        if result.value != "" {
          geminiAudio := Some(result.value);
        }
      } else {
        error := Some(AudioErrorMessage(result.error));
        audioError := true;
      }
    }

    /** The ElevenLabs and Edge branches: a buffer is stored, an error reported. */
    method StoreBuffer(result: Outcome<seq<uint8>>)
      modifies this
      ensures View() == ApplyAudio(old(View()), BufferNarration(result))
    {
      if result.Ok? {
        elevenlabsAudio := Some(result.value);
      } else {
        error := Some(AudioErrorMessage(result.error));
        audioError := true;
      }
    }

    /** The `try` block of the audio step: the call for the selected provider. */
    method Narrate(text: string, settings: Settings, p: Providers) returns (trace: Trace)
      modifies this
      ensures View() == ApplyAudio(old(View()), AudioResult(text, settings, p))
      ensures trace == AudioTrace(text, settings, p)
    {
      var provider := Field(settings, TTS_PROVIDER);
      if provider == "gemini" {
        trace := NarrateWithGemini(text, settings, p);
      } else if provider == "elevenlabs" {
        var apiKey, voiceId := Field(settings, ELEVENLABS_API_KEY), Field(settings, ELEVENLABS_VOICE_ID);
        trace := ElevenLabsTrace(settings);
        var result := ElevenLabsService.GenerateElevenLabsSpeech(text, apiKey, voiceId, p.elevenLabsFetch);
        StoreBuffer(result);
      } else if provider == "edge" {
        trace := Trace(0, 1, []);
        var result := EdgeTtsService.GenerateEdgeSpeech(text, EDGE_VOICE_ARGUMENT, p.edgeFetch);
        StoreBuffer(result);
      } else {
        trace := Trace(0, 0, []);
        error := Some(NotImplementedMessage(provider));
        audioError := true;
      }
    }

    /** `handleGenerateAudio(text)` with the current settings. */
    method HandleGenerateAudio(text: string, settings: Settings, p: Providers) returns (trace: Trace)
      modifies this
      ensures View() == AfterAudio(old(View()), text, settings, p)
      ensures trace == AudioTrace(text, settings, p)
    {
      StartAudio();
      trace := Narrate(text, settings, p);
      FinishAudio();
    }

    /** The resets before the speech provider is awaited. */
    method StartAudio()
      modifies this
      ensures View() == AudioStarted(old(View()))
    {
      isGeneratingAudio := true;
      audioError := false;
      geminiAudio := None;
      elevenlabsAudio := None;
    }

    /** The audio step's `finally` block. */
    method FinishAudio()
      modifies this
      ensures View() == old(View()).(isGeneratingAudio := false)
    {
      isGeneratingAudio := false;
    }

    /** The statements after a story arrives: show it, save it, narrate it. */
    method ShowStory(r: GeminiService.StoryResult, settings: Settings, p: Providers, now: nat) returns (audio: Trace)
      modifies this, storage
      ensures View() == StoryShown(old(View()), r, settings, p, now)
      ensures audio == if r.story != "" then AudioTrace(r.story, settings, p) else Trace(0, 0, [])
      ensures storage.items == if CanSave(old(View()), r.story)
        then old(storage.items)[HISTORY_KEY := HistoryJson(history)] else old(storage.items)
    {
      story := r.story;
      sources := r.sources;
      assert View() == old(View()).(story := r.story, sources := r.sources);
      SaveToHistory(r.story, r.sources, now);
      ghost var saved := View();
      if r.story != "" {
        audio := HandleGenerateAudio(r.story, settings, p);
        ApplyAudioFrame(saved, AudioResult(r.story, settings, p));
      } else {
        audio := Trace(0, 0, []);
      }
    }

    /** The statements after the provider call settles, `finally` included. */
    method Settle(result: GeminiService.Settled<GeminiService.StoryResult>, settings: Settings, p: Providers, now: nat)
      returns (audio: Trace)
      requires !result.RejectedUndefined?
      modifies this, storage
      ensures View() == StoryEnded(old(View()), result, settings, p, now)
      ensures audio == if result.Resolved? && result.value.story != "" then AudioTrace(result.value.story, settings, p) else Trace(0, 0, [])
      ensures storage.items == if result.Resolved? && CanSave(old(View()), result.value.story)
        then old(storage.items)[HISTORY_KEY := HistoryJson(history)] else old(storage.items)
    {
      if result.Resolved? {
        audio := ShowStory(result.value, settings, p, now);
      } else {
        error := Some(StoryErrorMessage(result.error));
        audio := Trace(0, 0, []);
      }
      FinishStory();
    }

    /** The story step's `finally` block. */
    method FinishStory()
      modifies this
      ensures View() == old(View()).(isGeneratingStory := false)
    {
      isGeneratingStory := false;
    }

    /** The resets before the story provider is awaited. */
    method StartStory()
      modifies this
      ensures View() == StoryStarted(old(View()))
    {
      error, audioError, story, sources := None, false, "", [];
      geminiAudio, elevenlabsAudio, isGeneratingStory := None, None, true;
    }

    /** `handleGenerateStory()` at time `now`. `whileRunning` is the state
        shown while the story provider is awaited. */
    method HandleGenerateStory(settings: Settings, p: Providers, now: nat) returns (whileRunning: State, trace: Trace)
      modifies this, storage
      ensures View() == AfterStory(old(View()), settings, p, now)
      ensures trace == StoryTrace(old(View()), settings, p)
      ensures old(imageFile).Some? ==> whileRunning == StoryStarted(old(View()))
      ensures storage.items == if StoryWritesHistory(old(View()), settings, p)
        then old(storage.items)[HISTORY_KEY := HistoryJson(history)] else old(storage.items)
    {
      if imageFile.None? {
        error := Some(NO_IMAGE_MESSAGE);
        whileRunning := View();
        trace := Trace(0, 0, []);
        return;
      }
      ghost var s := View();
      StartStory();
      whileRunning := View();

      var apiKey := Credential(settings);
      var request, result, calls, sleeps := GeminiService.GenerateStory(
        prompt, imageFile, Field(settings, STORY_MODEL), apiKey, p.envKey, p.storyService);
      assert result == StorySettled(s, settings, p);
      assert StoryWritesHistory(s, settings, p) <==> result.Resolved? && CanSave(whileRunning, result.value.story);
      var audio := Settle(result, settings, p, now);
      trace := Trace(calls, audio.speechCalls, sleeps + audio.sleeps);
    }
  }
}
