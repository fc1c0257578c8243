/** The settings panel: a local copy of the settings edited field by field,
    saved through the hook, and the configuration test that checks the story
    model and then, only if that passed, the TTS provider. */
module SettingsPanel {
  import opened Types
  import opened Text
  import opened UseSettings
  import GeminiService
  import ElevenLabsService

  /** The field the panel's Gemini key input is bound to; it is not one of the
      declared settings fields. */
  const GENERATIVE_API_KEY: string := "generativeApiKey"

  datatype TestStatus = Idle | Testing | Success | Error

  const STORY_LABEL: string := "Story Model"
  const GEMINI_TTS_LABEL: string := "Gemini TTS"
  const ELEVENLABS_TTS_LABEL: string := "ElevenLabs TTS"

  /** One line of the test report. */
  function ReportLine(check: string, result: ValidationResult): (line: string)
    ensures StartsWith(line, check + ": ")
    ensures result.success ==> line == check + ": OK"
    ensures !result.success ==> line == check + ": Failed - " + result.message
  {
    check + ": " + (if result.success then "OK" else "Failed - " + result.message)
  }

  /** What the providers answer during one test run: the Gemini SDK's answer
      to the story and TTS test requests, the network seen by the ElevenLabs
      check, and the build-time key `getAIClient` falls back to. */
  datatype Probes = Probes(
    story: GeminiService.StoryProbe -> Outcome<GeminiService.StoryResponse>,
    speech: GeminiService.TtsProbe -> Outcome<GeminiService.SpeechResponse>,
    fetch: ElevenLabsService.Request -> FetchResult,
    envKey: string)

  function StoryCheck(local: Settings, probes: Probes): ValidationResult {
    GeminiService.ValidateGeminiStoryModel(Field(local, GENERATIVE_API_KEY), Field(local, STORY_MODEL), probes.envKey, probes.story)
  }

  /** The TTS check for the selected provider, if it has one. */
  function TtsCheck(local: Settings, probes: Probes): (r: Option<(string, ValidationResult)>)
    ensures r.Some? <==> Field(local, TTS_PROVIDER) in {"gemini", "elevenlabs"}
  {
    var provider := Field(local, TTS_PROVIDER);
    if provider == "gemini" then
      Some((GEMINI_TTS_LABEL, GeminiService.ValidateGeminiTtsModel(Field(local, GENERATIVE_API_KEY), Field(local, TTS_MODEL), probes.envKey, probes.speech)))
    else if provider == "elevenlabs" then
      Some((ELEVENLABS_TTS_LABEL, ElevenLabsService.ValidateElevenLabsSettings(Field(local, ELEVENLABS_API_KEY), Field(local, ELEVENLABS_VOICE_ID), probes.fetch)))
    else None
  }

  /** The report of a run: the story line, then the TTS line when the story
      check passed and the provider has a check. */
  function TestMessages(local: Settings, probes: Probes): (messages: seq<string>)
  {
    var story := StoryCheck(local, probes);
    var tts := TtsCheck(local, probes);
    [ReportLine(STORY_LABEL, story)]
      + (if story.success && tts.Some? then [ReportLine(tts.value.0, tts.value.1)] else [])
  }

  /** Whether every check that ran succeeded. */
  predicate TestSucceeds(local: Settings, probes: Probes) {
    var tts := TtsCheck(local, probes);
    StoryCheck(local, probes).success && (tts.Some? ==> tts.value.1.success)
  }

  /** The report has one line when the story check fails or the provider has
      no check, two otherwise; the first line is always the story line. */
  lemma ReportShape(local: Settings, probes: Probes)
    ensures |TestMessages(local, probes)| == 1 <==>
      !StoryCheck(local, probes).success || Field(local, TTS_PROVIDER) !in {"gemini", "elevenlabs"}
    ensures |TestMessages(local, probes)| <= 2
    ensures TestMessages(local, probes)[0] == ReportLine(STORY_LABEL, StoryCheck(local, probes))
  {
  }

  /** A failing story check ends the run: one line, an error status, and the
      TTS probes play no part. */
  lemma StoryFailureSkipsTts(local: Settings, p: Probes, q: Probes)
    requires p.story == q.story && p.envKey == q.envKey && !StoryCheck(local, p).success
    ensures TestMessages(local, p) == TestMessages(local, q) == [ReportLine(STORY_LABEL, StoryCheck(local, p))]
    ensures !TestSucceeds(local, p)
  {
  }

  /** With no usable `generativeApiKey` (absent, as in the defaults, or blank)
      the run reports the empty-key failure and never tests TTS. */
  lemma MissingGenerativeKeyFails(local: Settings, probes: Probes)
    requires IsBlank(Field(local, GENERATIVE_API_KEY))
    ensures TestMessages(local, probes) == [STORY_LABEL + ": Failed - " + GeminiService.EMPTY_KEY_MESSAGE]
    ensures !TestSucceeds(local, probes)
  {
    var r := StoryCheck(local, probes);
    assert r == ValidationResult(false, GeminiService.EMPTY_KEY_MESSAGE, Some(Config));
    assert TestMessages(local, probes) == [ReportLine(STORY_LABEL, r)];
    var m := GeminiService.EMPTY_KEY_MESSAGE;
    assert ReportLine(STORY_LABEL, r) == STORY_LABEL + ": " + ("Failed - " + m);
    assert STORY_LABEL + ": " + ("Failed - " + m) == STORY_LABEL + ": Failed - " + m;
  }

  /** The defaults never pass the test. */
  lemma DefaultsNeverPass(probes: Probes)
    ensures !TestSucceeds(DEFAULT_SETTINGS, probes)
  {
    assert GENERATIVE_API_KEY !in DEFAULT_SETTINGS;
    MissingGenerativeKeyFails(DEFAULT_SETTINGS, probes);
  }

  class Panel {
    var localSettings: Settings
    var testStatus: TestStatus
    var testMessages: seq<string>

    constructor (settings: Settings)
      ensures localSettings == settings && testStatus == Idle && testMessages == []
    {
      localSettings := settings;
      testStatus := Idle;
      testMessages := [];
    }

    /** The effect run when the panel opens or the settings change. */
    method Reset(settings: Settings)
      modifies this
      ensures localSettings == settings && testStatus == Idle && testMessages == []
    {
      localSettings := settings;
      testStatus := Idle;
      testMessages := [];
    }

    /** `handleChange`: the input named `name` now holds `value`; no other field moves. */
    method HandleChange(name: string, value: string)
      modifies this
      ensures localSettings == old(localSettings)[name := value]
      ensures forall k | k != name :: Field(localSettings, k) == Field(old(localSettings), k)
      ensures testStatus == old(testStatus) && testMessages == old(testMessages)
    {
      localSettings := localSettings[name := value];
    }

    /** `handleSave`: hands the local copy to the hook's `saveSettings`, then
        asks to be closed. */
    method HandleSave(store: SettingsStore, writeFails: bool) returns (closeRequested: bool)
      modifies store, store.storage
      ensures closeRequested
      ensures store.isLoaded == old(store.isLoaded)
      ensures writeFails ==> store.settings == old(store.settings) && store.storage.items == old(store.storage.items)
      ensures !writeFails ==> store.settings == localSettings
      ensures !writeFails ==> store.storage.items == old(store.storage.items)[SETTINGS_KEY := Storage.SettingsJson(localSettings)]
    {
      store.SaveSettings(localSettings, writeFails);
      closeRequested := true;
    }

    /** `handleTestConfiguration`. `statusWhileRunning` is the status shown
        while the checks are awaited. */
    method HandleTestConfiguration(probes: Probes) returns (statusWhileRunning: TestStatus)
      modifies this
      ensures statusWhileRunning == Testing
      ensures localSettings == old(localSettings)
      ensures testMessages == TestMessages(localSettings, probes)
      ensures testStatus == if TestSucceeds(localSettings, probes) then Success else Error
    {
      testStatus := Testing;
      statusWhileRunning := testStatus;
      var messages: seq<string> := [];
      var overallSuccess := true;

      var storyResult := StoryCheck(localSettings, probes);
      messages := messages + [ReportLine(STORY_LABEL, storyResult)];
      if !storyResult.success {
        overallSuccess := false;
      }

      if overallSuccess {
        var provider := Field(localSettings, TTS_PROVIDER);
        if provider == "gemini" {
          var ttsResult := GeminiService.ValidateGeminiTtsModel(
            Field(localSettings, GENERATIVE_API_KEY), Field(localSettings, TTS_MODEL), probes.envKey, probes.speech);
          messages := messages + [ReportLine(GEMINI_TTS_LABEL, ttsResult)];
          if !ttsResult.success {
            overallSuccess := false;
          }
        } else if provider == "elevenlabs" {
          var ttsResult := ElevenLabsService.ValidateElevenLabsSettings(
            Field(localSettings, ELEVENLABS_API_KEY), Field(localSettings, ELEVENLABS_VOICE_ID), probes.fetch);
          messages := messages + [ReportLine(ELEVENLABS_TTS_LABEL, ttsResult)];
          if !ttsResult.success {
            overallSuccess := false;
          }
        }
      }

      testMessages := messages;
      testStatus := if overallSuccess then Success else Error;
    }
  }
}
