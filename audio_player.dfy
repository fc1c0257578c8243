/** The audio player: the effect that turns the narration payload into an
    object URL and its cleanup, the play/pause toggle, the download link, the
    render-branch choice and `formatTime`. Object URLs are opaque handles
    issued by an `ObjectUrls` registry that remembers which are still live. */
module AudioPlayer {
  import opened Types
  import opened Text
  import AudioUtils
  import Base64

  /** Gemini TTS returns 16-bit PCM at 24 kHz, mono. */
  const GEMINI_SAMPLE_RATE: nat := 24000
  const GEMINI_CHANNELS: nat := 1
  const MPEG_MIME_TYPE: string := "audio/mpeg"

  // ---------------------------------------------------------------------
  // Source selection
  // ---------------------------------------------------------------------

  /** What the effect's `try` block does: create a URL for a blob, create
      nothing, or throw (`decode` rejecting the payload). */
  datatype SourceChoice = Create(blob: Blob) | NoSource | Thrown

  /** A `string | null` prop is truthy when it is present and not empty. */
  predicate Truthy(s: Option<string>) {
    s.Some? && s.value != ""
  }

  /** The blob the effect builds for the given props. */
  function ChooseSource(ttsProvider: string, base64Audio: Option<string>, arrayBufferAudio: Option<seq<uint8>>): SourceChoice {
    if ttsProvider == "gemini" && Truthy(base64Audio) then
      match AudioUtils.DecodedBytes(base64Audio.value)
      case None => Thrown
      case Some(pcm) => Create(Blob(AudioUtils.WavFile(pcm, GEMINI_SAMPLE_RATE, GEMINI_CHANNELS), AudioUtils.WAV_MIME_TYPE))
    else if ttsProvider == "elevenlabs" && arrayBufferAudio.Some? then
      Create(Blob(arrayBufferAudio.value, MPEG_MIME_TYPE))
    else
      NoSource
  }

  /** A Gemini payload becomes a WAV file whose header declares 24000 Hz mono
      16-bit PCM and whose body is the decoded bytes. */
  lemma GeminiSourceIsWav(base64Audio: string)
    requires base64Audio != "" && AudioUtils.DecodedBytes(base64Audio).Some?
    ensures var c := ChooseSource("gemini", Some(base64Audio), None);
      var pcm := AudioUtils.DecodedBytes(base64Audio).value;
      && c.Create? && c.blob.mimeType == "audio/wav"
      && |c.blob.bytes| == 44 + |pcm|
      && AudioUtils.ReadLe32(c.blob.bytes, 24) == 24000
      && AudioUtils.ReadLe16(c.blob.bytes, 22) == 1
      && AudioUtils.ReadLe16(c.blob.bytes, 34) == 16
      && c.blob.bytes[44..] == pcm
  {
    var pcm := AudioUtils.DecodedBytes(base64Audio).value;
    AudioUtils.FormatLayout(pcm, GEMINI_SAMPLE_RATE, GEMINI_CHANNELS);
    AudioUtils.RateLayout(pcm, GEMINI_SAMPLE_RATE, GEMINI_CHANNELS);
    AudioUtils.AlignLayout(pcm, GEMINI_SAMPLE_RATE, GEMINI_CHANNELS);
    AudioUtils.DataLayout(pcm, GEMINI_SAMPLE_RATE, GEMINI_CHANNELS);
  }

  /** Audio that Gemini's speech call returned, base64-encoded, plays back as
      exactly the bytes that were encoded. */
  lemma GeminiPayloadPlaysEncodedBytes(pcm: seq<uint8>)
    requires pcm != []
    ensures var c := ChooseSource("gemini", Some(Base64Of(pcm)), None);
      c.Create? && c.blob.bytes[44..] == pcm
  {
    AudioUtils.DecodeBtoa(pcm);
    GeminiSourceIsWav(Base64Of(pcm));
  }

  /** The base64 text of `pcm`, as the speech service delivers it. */
  function Base64Of(pcm: seq<uint8>): (s: string)
    requires pcm != []
    ensures s != ""
  {
    AudioUtils.DecodeBtoa(pcm);
    Base64.Btoa(pcm)
  }

  /** An ElevenLabs buffer becomes an MPEG blob holding the buffer unchanged. */
  lemma ElevenLabsSourceIsMpeg(buffer: seq<uint8>, base64Audio: Option<string>)
    ensures ChooseSource("elevenlabs", base64Audio, Some(buffer)) == Create(Blob(buffer, "audio/mpeg"))
  {
  }

  /** Any provider other than the two, `"edge"` included, gets no source,
      whatever payloads arrive; only a Gemini payload can make the effect throw. */
  lemma OtherProvidersGetNoSource(ttsProvider: string, base64Audio: Option<string>, arrayBufferAudio: Option<seq<uint8>>)
    requires ttsProvider != "gemini" && ttsProvider != "elevenlabs"
    ensures ChooseSource(ttsProvider, base64Audio, arrayBufferAudio) == NoSource
  {
  }

  lemma EdgeAudioIsNeverPlayed(buffer: seq<uint8>)
    ensures ChooseSource("edge", None, Some(buffer)) == NoSource
  {
    OtherProvidersGetNoSource("edge", None, Some(buffer));
  }

  lemma OnlyUndecodableGeminiPayloadThrows(ttsProvider: string, base64Audio: Option<string>, arrayBufferAudio: Option<seq<uint8>>)
    ensures ChooseSource(ttsProvider, base64Audio, arrayBufferAudio).Thrown? <==>
      ttsProvider == "gemini" && Truthy(base64Audio) && Base64.Atob(base64Audio.value).None?
  {
  }

  // ---------------------------------------------------------------------
  // Object URLs
  // ---------------------------------------------------------------------

  /** `URL.createObjectURL` / `URL.revokeObjectURL`: every URL ever issued
      maps to its blob; `live` holds those not yet revoked. */
  class ObjectUrls {
    var blobs: map<nat, Blob>
    var live: set<nat>
    var next: nat

    predicate Valid()
      reads this
    {
      live <= blobs.Keys && forall u | u in blobs :: u < next
    }

    constructor ()
      ensures Valid() && blobs == map[] && live == {}
    {
      blobs := map[];
      live := {};
      next := 0;
    }

    /** Issues a URL never issued before. */
    method CreateObjectUrl(blob: Blob) returns (url: nat)
      requires Valid()
      modifies this
      ensures Valid()
      ensures url !in old(blobs)
      ensures blobs == old(blobs)[url := blob]
      ensures live == old(live) + {url}
    {
      url := next;
      blobs := blobs[url := blob];
      live := live + {url};
      next := next + 1;
    }

    method RevokeObjectUrl(url: nat)
      requires Valid()
      modifies this
      ensures Valid()
      ensures blobs == old(blobs) && live == old(live) - {url}
    {
      live := live - {url};
    }
  }

  // ---------------------------------------------------------------------
  // Rendering
  // ---------------------------------------------------------------------

  /** `formatTime` input: NaN, or a non-negative whole number of seconds. */
  datatype Time = NaN | Seconds(n: nat)

  /** A number below sixty as two digits, zero-padded. */
  function TwoDigits(v: nat): (r: string)
    requires v < 60
    ensures |r| == 2 && AllDigits(r) && ParseNat(r) == v
  {
    ParseNatToString(v);
    var d := NatToString(v);
    if v < 10 then
      assert ParseNat("0") == 0;
      assert ("0" + d)[..1] == "0";
      "0" + d
    else
      NatToString(v)
  }

  /** `formatTime`: `"0:00"` for NaN and zero, otherwise whole minutes, a
      colon and the remaining seconds in two digits. */
  function FormatTime(t: Time): (s: string)
  {
    match t
    case NaN => "0:00"
    case Seconds(n) => if n == 0 then "0:00" else NatToString(n / 60) + ":" + TwoDigits(n % 60)
  }

  /** Every rendered time reads back: minutes before the colon, fewer than
      sixty seconds in the last two digits, and together the original count.
      Zero needs no special case: `"0:00"` is what the general rule gives. */
  lemma FormatTimeReadsBack(n: nat)
    ensures var s := FormatTime(Seconds(n));
      && |s| >= 4 && s[|s| - 3] == ':'
      && AllDigits(s[..|s| - 3]) && AllDigits(s[|s| - 2..])
      && ParseNat(s[|s| - 2..]) < 60
      && 60 * ParseNat(s[..|s| - 3]) + ParseNat(s[|s| - 2..]) == n
  {
    var s := FormatTime(Seconds(n));
    var m, sec := NatToString(n / 60), TwoDigits(n % 60);
    assert NatToString(0) == "0";
    assert s == m + ":" + sec;
    assert s[..|s| - 3] == m;
    assert s[|s| - 2..] == sec;
    ParseNatToString(n / 60);
  }

  lemma NaNFormatsAsZero()
    ensures FormatTime(NaN) == FormatTime(Seconds(0)) == "0:00"
  {
  }

  /** What the component renders. */
  datatype View =
    | Loading
    | ErrorWithRetry
    | Placeholder
    | PlayerView(src: nat, isPlaying: bool, currentTime: string, duration: string)

  function Render(isLoading: bool, hasError: bool, audioSrc: Option<nat>, isPlaying: bool, currentTime: Time, duration: Time): View {
    if isLoading then Loading
    else if hasError then ErrorWithRetry
    else if audioSrc.None? then Placeholder
    else PlayerView(audioSrc.value, isPlaying, FormatTime(currentTime), FormatTime(duration))
  }

  /** Loading outranks the error, the error outranks a missing source, and the
      player shows only with a source and neither of the others. */
  lemma RenderPrecedence(isLoading: bool, hasError: bool, audioSrc: Option<nat>, isPlaying: bool, currentTime: Time, duration: Time)
    ensures var v := Render(isLoading, hasError, audioSrc, isPlaying, currentTime, duration);
      && (v.Loading? <==> isLoading)
      && (v.ErrorWithRetry? <==> !isLoading && hasError)
      && (v.Placeholder? <==> !isLoading && !hasError && audioSrc.None?)
      && (v.PlayerView? <==> !isLoading && !hasError && audioSrc.Some?)
      && (v.PlayerView? ==> v.src == audioSrc.value)
  {
  }

  /** The downloaded file's name for a given `Date.now()`. */
  function DownloadName(ttsProvider: string, now: nat): string {
    "story-narration-" + NatToString(now) + (if ttsProvider == "gemini" then ".wav" else ".mp3")
  }

  /** The name is the fixed prefix, the timestamp that reads back, and an
      extension that is `wav` exactly for Gemini and `mp3` otherwise. */
  lemma DownloadNameShape(ttsProvider: string, now: nat)
    ensures var name := DownloadName(ttsProvider, now);
      && |name| > 20 && name[..16] == "story-narration-"
      && AllDigits(name[16..|name| - 4]) && ParseNat(name[16..|name| - 4]) == now
      && (name[|name| - 4..] == ".wav" <==> ttsProvider == "gemini")
      && (name[|name| - 4..] == ".mp3" <==> ttsProvider != "gemini")
  {
    var name := DownloadName(ttsProvider, now);
    var ext := if ttsProvider == "gemini" then ".wav" else ".mp3";
    assert name == "story-narration-" + NatToString(now) + ext;
    assert name[16..|name| - 4] == NatToString(now);
    assert name[|name| - 4..] == ext;
    assert ".wav"[1] != ".mp3"[1];
    ParseNatToString(now);
  }

  /** What `play()` / `pause()` was asked of the audio element. */
  datatype MediaCommand = Play | Pause

  // ---------------------------------------------------------------------
  // The component
  // ---------------------------------------------------------------------

  class Player {
    var audioSrc: Option<nat>
    var isPlaying: bool
    var currentTime: Time
    var duration: Time
    const urls: ObjectUrls

    constructor (urls: ObjectUrls)
      ensures this.urls == urls
      ensures audioSrc.None? && !isPlaying && currentTime == Seconds(0) && duration == Seconds(0)
    {
      this.urls := urls;
      audioSrc := None;
      isPlaying := false;
      currentTime := Seconds(0);
      duration := Seconds(0);
    }

    /** The effect body. It returns the URL it created, which its cleanup
        revokes. A created URL becomes the source; creating none leaves the
        source as it was; a throw clears it. */
    method Effect(ttsProvider: string, base64Audio: Option<string>, arrayBufferAudio: Option<seq<uint8>>)
      returns (objectUrl: Option<nat>)
      requires urls.Valid()
      modifies this, urls
      ensures urls.Valid()
      ensures isPlaying == old(isPlaying) && currentTime == old(currentTime) && duration == old(duration)
      ensures match ChooseSource(ttsProvider, base64Audio, arrayBufferAudio)
        case Create(blob) =>
          && objectUrl.Some? && objectUrl.value !in old(urls.blobs)
          && urls.blobs == old(urls.blobs)[objectUrl.value := blob]
          && urls.live == old(urls.live) + {objectUrl.value}
          && audioSrc == objectUrl
        case NoSource =>
          objectUrl.None? && urls.blobs == old(urls.blobs) && urls.live == old(urls.live) && audioSrc == old(audioSrc)
        case Thrown =>
          objectUrl.None? && urls.blobs == old(urls.blobs) && urls.live == old(urls.live) && audioSrc.None?
    {
      objectUrl := None;
      if ttsProvider == "gemini" && Truthy(base64Audio) {
        var audioData := AudioUtils.Decode(base64Audio.value);
        if audioData.None? {
          audioSrc := None;
          return;
        }
        var blob := AudioUtils.CreateWavBlob(audioData.value[..], GEMINI_SAMPLE_RATE, GEMINI_CHANNELS);
        var url := urls.CreateObjectUrl(blob);
        objectUrl := Some(url);
      } else if ttsProvider == "elevenlabs" && arrayBufferAudio.Some? {
        var blob := Blob(arrayBufferAudio.value, MPEG_MIME_TYPE);
        var url := urls.CreateObjectUrl(blob);
        objectUrl := Some(url);
      }
      if objectUrl.Some? {
        audioSrc := objectUrl;
      }
    }

    /** The cleanup: revoke the URL this run created, and reset the playback
        state unless the retry button is showing. */
    method Cleanup(objectUrl: Option<nat>, hasError: bool)
      requires urls.Valid()
      modifies this, urls
      ensures urls.Valid()
      ensures urls.blobs == old(urls.blobs)
      ensures urls.live == if objectUrl.Some? then old(urls.live) - {objectUrl.value} else old(urls.live)
      ensures !hasError ==> audioSrc.None? && !isPlaying && currentTime == Seconds(0) && duration == Seconds(0)
      ensures hasError ==> audioSrc == old(audioSrc) && isPlaying == old(isPlaying)
                           && currentTime == old(currentTime) && duration == old(duration)
    {
      if objectUrl.Some? {
        urls.RevokeObjectUrl(objectUrl.value);
      }
      if !hasError {
        audioSrc := None;
        isPlaying := false;
        currentTime := Seconds(0);
        duration := Seconds(0);
      }
    }

    /** One run of the effect followed by its cleanup leaves no URL live that
        was not live before: every URL created is revoked. */
    method EffectThenCleanup(ttsProvider: string, base64Audio: Option<string>, arrayBufferAudio: Option<seq<uint8>>, hasError: bool)
      requires urls.Valid()
      modifies this, urls
      ensures urls.Valid()
      ensures urls.live == old(urls.live)
      ensures ChooseSource(ttsProvider, base64Audio, arrayBufferAudio).Create? ==> |urls.blobs| == |old(urls.blobs)| + 1
      ensures !hasError ==> audioSrc.None? && !isPlaying
    {
      var objectUrl := Effect(ttsProvider, base64Audio, arrayBufferAudio);
      Cleanup(objectUrl, hasError);
    }

    /** `togglePlayPause`; `hasElement` says whether the audio element is
        mounted. Without it nothing happens. */
    method TogglePlayPause(hasElement: bool) returns (command: Option<MediaCommand>)
      modifies this
      ensures audioSrc == old(audioSrc) && currentTime == old(currentTime) && duration == old(duration)
      ensures hasElement ==> isPlaying == !old(isPlaying) && command == Some(if old(isPlaying) then Pause else Play)
      ensures !hasElement ==> isPlaying == old(isPlaying) && command.None?
    {
      command := None;
      if hasElement {
        if isPlaying {
          command := Some(Pause);
        } else {
          command := Some(Play);
        }
        isPlaying := !isPlaying;
      }
    }

    /** `handleDownload`: the link it clicks, as (href, download name), or
        nothing without a source. */
    function Download(ttsProvider: string, now: nat): (link: Option<(nat, string)>)
      reads this
      ensures link.None? <==> audioSrc.None?
      ensures link.Some? ==> link.value.0 == audioSrc.value
      ensures link.Some? ==> |link.value.1| > 4 && (link.value.1[|link.value.1| - 4..] == ".wav" <==> ttsProvider == "gemini")
    {
      DownloadNameShape(ttsProvider, now);
      if audioSrc.None? then None else Some((audioSrc.value, DownloadName(ttsProvider, now)))
    }
  }
}
