/** The settings hook: defaults, the load effect that overlays stored fields
    on the defaults, and `saveSettings`. A settings object is a map from field
    name to string value, so the object spread `{...a, ...b}` is map union
    and an undeclared field such as `generativeApiKey` is simply one more key. */
module UseSettings {
  import opened Types
  import opened Storage

  type Settings = map<string, string>

  const SETTINGS_KEY: string := "ai-story-weaver-settings-v4"

  const STORY_PROVIDER: string := "storyProvider"
  const GEMINI_API_KEY: string := "geminiApiKey"
  const OPENAI_API_KEY: string := "openaiApiKey"
  const CLAUDE_API_KEY: string := "claudeApiKey"
  const KIMI_API_KEY: string := "kimiApiKey"
  const STORY_MODEL: string := "storyModel"
  const TTS_PROVIDER: string := "ttsProvider"
  const TTS_MODEL: string := "ttsModel"
  const ELEVENLABS_API_KEY: string := "elevenLabsApiKey"
  const ELEVENLABS_VOICE_ID: string := "elevenLabsVoiceId"

  const DEFAULT_SETTINGS: Settings := map[
    STORY_PROVIDER := "gemini",
    GEMINI_API_KEY := "",
    OPENAI_API_KEY := "",
    CLAUDE_API_KEY := "",
    KIMI_API_KEY := "",
    STORY_MODEL := "gemini-2.5-flash",
    TTS_PROVIDER := "gemini",
    TTS_MODEL := "gemini-2.5-flash-preview-tts",
    ELEVENLABS_API_KEY := "",
    ELEVENLABS_VOICE_ID := ""
  ]

  /** Reading a field; an absent field reads as the empty string, which every
      reader treats exactly as `undefined` (falsy, blank). */
  function Field(s: Settings, name: string): (v: string)
    ensures name in s ==> v == s[name]
    ensures name !in s ==> v == ""
  {
    if name in s then s[name] else ""
  }

  /** The ten declared fields and their default values. */
  lemma DefaultsAsDeclared()
    ensures DEFAULT_SETTINGS.Keys == {STORY_PROVIDER, GEMINI_API_KEY, OPENAI_API_KEY, CLAUDE_API_KEY, KIMI_API_KEY,
                                      STORY_MODEL, TTS_PROVIDER, TTS_MODEL, ELEVENLABS_API_KEY, ELEVENLABS_VOICE_ID}
    ensures Field(DEFAULT_SETTINGS, STORY_PROVIDER) == "gemini"
    ensures Field(DEFAULT_SETTINGS, STORY_MODEL) == "gemini-2.5-flash"
    ensures Field(DEFAULT_SETTINGS, TTS_PROVIDER) == "gemini"
    ensures Field(DEFAULT_SETTINGS, TTS_MODEL) == "gemini-2.5-flash-preview-tts"
    ensures forall k | k in {GEMINI_API_KEY, OPENAI_API_KEY, CLAUDE_API_KEY, KIMI_API_KEY, ELEVENLABS_API_KEY, ELEVENLABS_VOICE_ID} ::
      Field(DEFAULT_SETTINGS, k) == ""
  {
  }

  /** `{ ...defaults, ...loaded }`: every loaded field overrides, every
      default field absent from `loaded` survives, and nothing else appears. */
  function Merge(defaults: Settings, loaded: Settings): (m: Settings)
    ensures m.Keys == defaults.Keys + loaded.Keys
    ensures forall k | k in loaded :: m[k] == loaded[k]
    ensures forall k | k in defaults && k !in loaded :: m[k] == defaults[k]
  {
    defaults + loaded
  }

  /** What the load effect leaves in `settings`, given the current value and
      what `getItem` returned: stored JSON overlays the defaults (not the
      current value); nothing stored, or text that does not parse, leaves the
      current value as it was. */
  function LoadedSettings(current: Settings, stored: Option<StoredValue>): (s: Settings)
    ensures stored.Some? && stored.value.SettingsJson? ==> s == Merge(DEFAULT_SETTINGS, stored.value.fields)
    ensures !(stored.Some? && stored.value.SettingsJson?) ==> s == current
  {
    match stored
    case Some(SettingsJson(fields)) => Merge(DEFAULT_SETTINGS, fields)
    case _ => current
  }

  /** Saved settings that carry every declared field load back unchanged. */
  lemma SaveThenLoad(current: Settings, s: Settings)
    requires DEFAULT_SETTINGS.Keys <= s.Keys
    ensures LoadedSettings(current, Some(SettingsJson(s))) == s
  {
    var m := LoadedSettings(current, Some(SettingsJson(s)));
    assert m.Keys == s.Keys;
    assert forall k | k in m :: m[k] == s[k];
  }

  /** A stored object with only some fields keeps the defaults for the rest. */
  lemma PartialStoredKeepsDefaults(current: Settings, fields: Settings, k: string)
    requires k in DEFAULT_SETTINGS && k !in fields
    ensures Field(LoadedSettings(current, Some(SettingsJson(fields))), k) == DEFAULT_SETTINGS[k]
  {
  }

  /** The hook's state and the storage it reads and writes. */
  class SettingsStore {
    var settings: Settings
    var isLoaded: bool
    const storage: LocalStorage

    /** The first render: defaults, not yet loaded. */
    constructor (storage: LocalStorage)
      ensures settings == DEFAULT_SETTINGS && !isLoaded && this.storage == storage
    {
      settings := DEFAULT_SETTINGS;
      isLoaded := false;
      this.storage := storage;
    }

    /** The mount effect: overlay what is stored, then mark loaded whatever happened. */
    method Load()
      modifies this
      ensures settings == LoadedSettings(old(settings), storage.GetItem(SETTINGS_KEY))
      ensures isLoaded
      ensures storage.GetItem(SETTINGS_KEY).None? ==> settings == old(settings)
    {
      var stored := storage.GetItem(SETTINGS_KEY);
      if stored.Some? {
        match stored.value
        case SettingsJson(fields) =>
          settings := Merge(DEFAULT_SETTINGS, fields);
        case _ =>
          // Nothing read as settings: `settings` stays as it was.
      }
      isLoaded := true;
    }

    /** `saveSettings(newSettings)`; `writeFails` stands for `setItem` throwing
        (a full or unavailable storage), which leaves both copies as they were. */
    method SaveSettings(newSettings: Settings, writeFails: bool)
      modifies this, storage
      ensures isLoaded == old(isLoaded)
      ensures writeFails ==> settings == old(settings) && storage.items == old(storage.items)
      ensures !writeFails ==> storage.items == old(storage.items)[SETTINGS_KEY := SettingsJson(newSettings)]
      ensures !writeFails ==> settings == newSettings
    {
      if writeFails {
        return;
      }
      storage.SetItem(SETTINGS_KEY, SettingsJson(newSettings));
      settings := newSettings;
    }
  }
}
