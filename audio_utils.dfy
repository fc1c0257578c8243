/** Byte-level audio helpers: `decode` (base64 to bytes), `writeString` and
    `createWavBlob`, which lays out the canonical 44-byte RIFF/WAVE header for
    16-bit PCM followed by the payload. The `ArrayBuffer` behind the
    `DataView` is an array of bytes; `setUint16`/`setUint32` with
    `littleEndian = true` write the value modulo 2^16 / 2^32, low byte first. */
module AudioUtils {
  import opened Types
  import opened Base64

  const BITS_PER_SAMPLE: nat := 16
  const HEADER_SIZE: nat := 44
  const TWO_16: nat := 0x1_0000
  const TWO_32: nat := 0x1_0000_0000
  const WAV_MIME_TYPE: string := "audio/wav"

  // ---------------------------------------------------------------------
  // decode
  // ---------------------------------------------------------------------

  /** The bytes `decode(base64)` produces, or `None` when `atob` throws. */
  function DecodedBytes(base64: string): (r: Option<seq<uint8>>)
    ensures r.None? <==> Atob(base64).None?
    ensures r.Some? ==> |r.value| == |Atob(base64).value|
    ensures r.Some? ==> forall i | 0 <= i < |r.value| :: r.value[i] as int == Atob(base64).value[i] as int
  {
    match Atob(base64)
    case None => None
    case Some(binaryString) => Some(seq(|binaryString|, i requires 0 <= i < |binaryString| => binaryString[i] as int as uint8))
  }

  /** `decode(base64)`: the character codes of `atob(base64)` copied one by
      one into a fresh `Uint8Array`; `None` when `atob` throws. */
  method Decode(base64: string) returns (r: Option<array<uint8>>)
    ensures r.None? <==> Atob(base64).None?
    ensures r.Some? ==> fresh(r.value) && r.value[..] == DecodedBytes(base64).value
  {
    var decoded := Atob(base64);
    if decoded.None? {
      return None;
    }
    var binaryString := decoded.value;
    var len := |binaryString|;
    var bytes := new uint8[len];
    for i := 0 to len
      invariant forall j | 0 <= j < i :: bytes[j] as int == binaryString[j] as int
    {
      bytes[i] := binaryString[i] as int as uint8;
    }
    assert bytes[..] == DecodedBytes(base64).value;
    return Some(bytes);
  }

  /** Decoding what `btoa` produced yields the original bytes. */
  lemma DecodeBtoa(b: seq<uint8>)
    ensures DecodedBytes(Btoa(b)) == Some(b)
  {
    AtobBtoa(b);
    var r := DecodedBytes(Btoa(b));
    assert r.value == b by {
      forall i | 0 <= i < |b| ensures r.value[i] == b[i] {
        assert r.value[i] as int == BinaryString(b)[i] as int;
      }
    }
  }

  // ---------------------------------------------------------------------
  // Little-endian fields and ASCII tags
  // ---------------------------------------------------------------------

  /** `setUint8(offset + i, str.charCodeAt(i))` stores each code modulo 256. */
  function AsciiBytes(str: string): (r: seq<uint8>)
    ensures |r| == |str|
    ensures forall i | 0 <= i < |str| :: r[i] as int == str[i] as int % 256
  {
    seq(|str|, i requires 0 <= i < |str| => (str[i] as int % 256) as uint8)
  }

  /** The two bytes `setUint16(_, v, true)` stores. */
  function Le16(v: int): (r: seq<uint8>)
    ensures |r| == 2
  {
    var w := v % TWO_16;
    [(w % 256) as uint8, (w / 256) as uint8]
  }

  /** The four bytes `setUint32(_, v, true)` stores. */
  function Le32(v: int): (r: seq<uint8>)
    ensures |r| == 4
  {
    var w := v % TWO_32;
    [(w % 256) as uint8, ((w / 256) % 256) as uint8, ((w / 0x1_0000) % 256) as uint8, (w / 0x100_0000) as uint8]
  }

  /** `getUint16(offset, true)`. */
  function ReadLe16(bytes: seq<uint8>, offset: nat): nat
    requires offset + 2 <= |bytes|
  {
    bytes[offset] as nat + 256 * bytes[offset + 1] as nat
  }

  /** `getUint32(offset, true)`. */
  function ReadLe32(bytes: seq<uint8>, offset: nat): nat
    requires offset + 4 <= |bytes|
  {
    bytes[offset] as nat + 256 * bytes[offset + 1] as nat
      + 0x1_0000 * bytes[offset + 2] as nat + 0x100_0000 * bytes[offset + 3] as nat
  }

  lemma Le16RoundTrip(v: int)
    ensures ReadLe16(Le16(v), 0) == v % TWO_16
  {
  }

  lemma Le32RoundTrip(v: int)
    ensures ReadLe32(Le32(v), 0) == v % TWO_32
  {
    var w := v % TWO_32;
    var q := w / 256;
    var q2 := q / 256;
    assert w == w % 256 + 256 * q;
    assert q == q % 256 + 256 * q2;
    assert q2 == q2 % 256 + 256 * (q2 / 256);
    assert w / 0x1_0000 == q2;
    assert w / 0x100_0000 == q2 / 256;
  }

  // ---------------------------------------------------------------------
  // The WAV layout
  // ---------------------------------------------------------------------

  /** The RIFF descriptor: tag, ChunkSize = 36 + dataSize, format tag. */
  function RiffChunk(dataSize: nat): (r: seq<uint8>)
    ensures |r| == 12
  {
    AsciiBytes("RIFF") + Le32(36 + dataSize) + AsciiBytes("WAVE")
  }

  /** The `fmt ` sub-chunk for 16-bit PCM. */
  function FmtChunk(sampleRate: nat, numChannels: nat): (r: seq<uint8>)
    ensures |r| == 24
  {
    AsciiBytes("fmt ") + Le32(16) + Le16(1) + Le16(numChannels) + Le32(sampleRate)
      + Le32(sampleRate * numChannels * (BITS_PER_SAMPLE / 8)) + Le16(numChannels * (BITS_PER_SAMPLE / 8))
      + Le16(BITS_PER_SAMPLE)
  }

  /** The `data` sub-chunk header: tag and Subchunk2Size = dataSize. */
  function DataChunkHeader(dataSize: nat): (r: seq<uint8>)
    ensures |r| == 8
  {
    AsciiBytes("data") + Le32(dataSize)
  }

  function WavHeader(dataSize: nat, sampleRate: nat, numChannels: nat): (r: seq<uint8>)
    ensures |r| == HEADER_SIZE
  {
    RiffChunk(dataSize) + FmtChunk(sampleRate, numChannels) + DataChunkHeader(dataSize)
  }

  /** The bytes of the blob `createWavBlob(pcm, sampleRate, numChannels)` returns. */
  function WavFile(pcm: seq<uint8>, sampleRate: nat, numChannels: nat): (r: seq<uint8>)
    ensures |r| == HEADER_SIZE + |pcm|
  {
    WavHeader(|pcm|, sampleRate, numChannels) + pcm
  }

  /** A field placed between `pre` and `post` sits at offset `|pre|`. */
  lemma FieldAt(w: seq<uint8>, pre: seq<uint8>, field: seq<uint8>, post: seq<uint8>)
    requires w == pre + field + post
    ensures w[|pre|..|pre| + |field|] == field
  {
  }

  lemma ReadField16(w: seq<uint8>, offset: nat, v: int)
    requires offset + 2 <= |w| && w[offset..offset + 2] == Le16(v)
    ensures ReadLe16(w, offset) == v % TWO_16
  {
    Le16RoundTrip(v);
    assert w[offset] == Le16(v)[0] && w[offset + 1] == Le16(v)[1];
  }

  lemma ReadField32(w: seq<uint8>, offset: nat, v: int)
    requires offset + 4 <= |w| && w[offset..offset + 4] == Le32(v)
    ensures ReadLe32(w, offset) == v % TWO_32
  {
    Le32RoundTrip(v);
    assert w[offset] == Le32(v)[0] && w[offset + 1] == Le32(v)[1];
    assert w[offset + 2] == Le32(v)[2] && w[offset + 3] == Le32(v)[3];
  }

  /** The RIFF descriptor: `RIFF` at 0 and `WAVE` at 8. */
  lemma RiffLayout(pcm: seq<uint8>, sampleRate: nat, numChannels: nat)
    ensures WavFile(pcm, sampleRate, numChannels)[0..4] == AsciiBytes("RIFF")
    ensures WavFile(pcm, sampleRate, numChannels)[8..12] == AsciiBytes("WAVE")
  {
    var n := |pcm|;
    var w := WavFile(pcm, sampleRate, numChannels);
    var rest := FmtChunk(sampleRate, numChannels) + DataChunkHeader(n) + pcm;
    FieldAt(w, [], AsciiBytes("RIFF"), Le32(36 + n) + AsciiBytes("WAVE") + rest);
    FieldAt(w, AsciiBytes("RIFF") + Le32(36 + n), AsciiBytes("WAVE"), rest);
  }

  /** ChunkSize = 36 + dataSize at 4. */
  lemma ChunkSizeLayout(pcm: seq<uint8>, sampleRate: nat, numChannels: nat)
    ensures ReadLe32(WavFile(pcm, sampleRate, numChannels), 4) == (36 + |pcm|) % TWO_32
  {
    var n := |pcm|;
    var w := WavFile(pcm, sampleRate, numChannels);
    var rest := FmtChunk(sampleRate, numChannels) + DataChunkHeader(n) + pcm;
    FieldAt(w, AsciiBytes("RIFF"), Le32(36 + n), AsciiBytes("WAVE") + rest);
    ReadField32(w, 4, 36 + n);
  }

  /** The `fmt ` tag at 12. */
  lemma FmtLayout(pcm: seq<uint8>, sampleRate: nat, numChannels: nat)
    ensures WavFile(pcm, sampleRate, numChannels)[12..16] == AsciiBytes("fmt ")
  {
    var n := |pcm|;
    var w := WavFile(pcm, sampleRate, numChannels);
    var tail := Le32(16) + Le16(1) + Le16(numChannels) + Le32(sampleRate)
      + Le32(sampleRate * numChannels * (BITS_PER_SAMPLE / 8))
      + Le16(numChannels * (BITS_PER_SAMPLE / 8)) + Le16(BITS_PER_SAMPLE) + DataChunkHeader(n) + pcm;
    FieldAt(w, RiffChunk(n), AsciiBytes("fmt "), tail);
  }

  /** Subchunk1Size = 16 at 16. */
  lemma SubchunkSizeLayout(pcm: seq<uint8>, sampleRate: nat, numChannels: nat)
    ensures ReadLe32(WavFile(pcm, sampleRate, numChannels), 16) == 16
  {
    var n := |pcm|;
    var w := WavFile(pcm, sampleRate, numChannels);
    var tail := Le16(1) + Le16(numChannels) + Le32(sampleRate) + Le32(sampleRate * numChannels * (BITS_PER_SAMPLE / 8))
      + Le16(numChannels * (BITS_PER_SAMPLE / 8)) + Le16(BITS_PER_SAMPLE) + DataChunkHeader(n) + pcm;
    FieldAt(w, RiffChunk(n) + AsciiBytes("fmt "), Le32(16), tail);
    ReadField32(w, 16, 16);
  }

  /** AudioFormat = 1 at 20 and NumChannels at 22. */
  lemma FormatLayout(pcm: seq<uint8>, sampleRate: nat, numChannels: nat)
    ensures ReadLe16(WavFile(pcm, sampleRate, numChannels), 20) == 1
    ensures ReadLe16(WavFile(pcm, sampleRate, numChannels), 22) == numChannels % TWO_16
  {
    var n := |pcm|;
    var w := WavFile(pcm, sampleRate, numChannels);
    var pre := RiffChunk(n) + AsciiBytes("fmt ") + Le32(16);
    var tail := Le32(sampleRate) + Le32(sampleRate * numChannels * (BITS_PER_SAMPLE / 8))
      + Le16(numChannels * (BITS_PER_SAMPLE / 8)) + Le16(BITS_PER_SAMPLE) + DataChunkHeader(n) + pcm;
    FieldAt(w, pre, Le16(1), Le16(numChannels) + tail);
    ReadField16(w, 20, 1);
    FieldAt(w, pre + Le16(1), Le16(numChannels), tail);
    ReadField16(w, 22, numChannels);
  }

  /** SampleRate at 24 and ByteRate = sampleRate * numChannels * 2 at 28. */
  lemma RateLayout(pcm: seq<uint8>, sampleRate: nat, numChannels: nat)
    ensures ReadLe32(WavFile(pcm, sampleRate, numChannels), 24) == sampleRate % TWO_32
    ensures ReadLe32(WavFile(pcm, sampleRate, numChannels), 28) == (sampleRate * numChannels * 2) % TWO_32
  {
    var n := |pcm|;
    var w := WavFile(pcm, sampleRate, numChannels);
    var byteRate := sampleRate * numChannels * (BITS_PER_SAMPLE / 8);
    var blockAlign := numChannels * (BITS_PER_SAMPLE / 8);
    var pre := RiffChunk(n) + AsciiBytes("fmt ") + Le32(16) + Le16(1) + Le16(numChannels);
    var post := Le16(blockAlign) + Le16(BITS_PER_SAMPLE) + DataChunkHeader(n) + pcm;
    FieldAt(w, pre, Le32(sampleRate), Le32(byteRate) + post);
    ReadField32(w, 24, sampleRate);
    FieldAt(w, pre + Le32(sampleRate), Le32(byteRate), post);
    ReadField32(w, 28, byteRate);
  }

  /** BlockAlign = numChannels * 2 at 32 and BitsPerSample = 16 at 34. */
  lemma AlignLayout(pcm: seq<uint8>, sampleRate: nat, numChannels: nat)
    ensures ReadLe16(WavFile(pcm, sampleRate, numChannels), 32) == (numChannels * 2) % TWO_16
    ensures ReadLe16(WavFile(pcm, sampleRate, numChannels), 34) == 16
  {
    var n := |pcm|;
    var w := WavFile(pcm, sampleRate, numChannels);
    var byteRate := sampleRate * numChannels * (BITS_PER_SAMPLE / 8);
    var blockAlign := numChannels * (BITS_PER_SAMPLE / 8);
    var pre := RiffChunk(n) + AsciiBytes("fmt ") + Le32(16) + Le16(1) + Le16(numChannels)
      + Le32(sampleRate) + Le32(byteRate);
    var post := DataChunkHeader(n) + pcm;
    FieldAt(w, pre, Le16(blockAlign), Le16(BITS_PER_SAMPLE) + post);
    ReadField16(w, 32, blockAlign);
    FieldAt(w, pre + Le16(blockAlign), Le16(BITS_PER_SAMPLE), post);
    ReadField16(w, 34, BITS_PER_SAMPLE);
  }

  /** The `data` tag at 36, Subchunk2Size = dataSize at 40, and the payload from 44 on. */
  lemma DataLayout(pcm: seq<uint8>, sampleRate: nat, numChannels: nat)
    ensures WavFile(pcm, sampleRate, numChannels)[36..40] == AsciiBytes("data")
    ensures ReadLe32(WavFile(pcm, sampleRate, numChannels), 40) == |pcm| % TWO_32
    ensures WavFile(pcm, sampleRate, numChannels)[HEADER_SIZE..] == pcm
  {
    var n := |pcm|;
    var w := WavFile(pcm, sampleRate, numChannels);
    var pre := RiffChunk(n) + FmtChunk(sampleRate, numChannels);
    FieldAt(w, pre, AsciiBytes("data"), Le32(n) + pcm);
    FieldAt(w, pre + AsciiBytes("data"), Le32(n), pcm);
    ReadField32(w, 40, n);
  }

  /** The four ASCII tags are the expected byte values. */
  lemma TagBytes()
    ensures AsciiBytes("RIFF") == [0x52, 0x49, 0x46, 0x46]
    ensures AsciiBytes("WAVE") == [0x57, 0x41, 0x56, 0x45]
    ensures AsciiBytes("fmt ") == [0x66, 0x6D, 0x74, 0x20]
    ensures AsciiBytes("data") == [0x64, 0x61, 0x74, 0x61]
  {
  }

  // ---------------------------------------------------------------------
  // Writers
  // ---------------------------------------------------------------------

  /** `s` with `bytes` stored from `offset` on. */
  function Splice(s: seq<uint8>, offset: nat, bytes: seq<uint8>): (r: seq<uint8>)
    requires offset + |bytes| <= |s|
    ensures |r| == |s|
  {
    s[..offset] + bytes + s[offset + |bytes|..]
  }

  /** Two adjacent stores are one store of the concatenation. */
  lemma SpliceAdjacent(s: seq<uint8>, offset: nat, a: seq<uint8>, b: seq<uint8>)
    requires offset + |a| + |b| <= |s|
    ensures Splice(Splice(s, offset, a), offset + |a|, b) == Splice(s, offset, a + b)
  {
    var t := Splice(s, offset, a);
    assert t[..offset + |a|] == s[..offset] + a;
    assert t[offset + |a| + |b|..] == s[offset + |a| + |b|..];
  }

  /** Stores `bytes` at `offset`, leaving every other byte as it was. */
  method WriteBytes(view: array<uint8>, offset: nat, bytes: seq<uint8>)
    requires offset + |bytes| <= view.Length
    modifies view
    ensures view[..] == Splice(old(view[..]), offset, bytes)
  {
    for i := 0 to |bytes|
      invariant view[..offset] == old(view[..offset])
      invariant view[offset..offset + i] == bytes[..i]
      invariant view[offset + i..] == old(view[offset + i..])
    {
      view[offset + i] := bytes[i];
      assert view[offset..offset + i + 1] == view[offset..offset + i] + [bytes[i]];
    }
    assert view[..] == view[..offset] + view[offset..offset + |bytes|] + view[offset + |bytes|..];
  }

  /** `writeString(view, offset, str)`. */
  method WriteString(view: array<uint8>, offset: nat, str: string)
    requires offset + |str| <= view.Length
    modifies view
    ensures view[..] == Splice(old(view[..]), offset, AsciiBytes(str))
  {
    WriteBytes(view, offset, AsciiBytes(str));
  }

  /** `view.setUint16(offset, value, true)`. */
  method SetUint16(view: array<uint8>, offset: nat, value: int)
    requires offset + 2 <= view.Length
    modifies view
    ensures view[..] == Splice(old(view[..]), offset, Le16(value))
  {
    WriteBytes(view, offset, Le16(value));
  }

  /** `view.setUint32(offset, value, true)`. */
  method SetUint32(view: array<uint8>, offset: nat, value: int)
    requires offset + 4 <= view.Length
    modifies view
    ensures view[..] == Splice(old(view[..]), offset, Le32(value))
  {
    WriteBytes(view, offset, Le32(value));
  }

  /** The first three writes of `createWavBlob`: the RIFF descriptor at offset 0. */
  method WriteRiffChunk(view: array<uint8>, dataSize: nat)
    requires 12 <= view.Length
    modifies view
    ensures view[..] == Splice(old(view[..]), 0, RiffChunk(dataSize))
  {
    ghost var s := view[..];
    WriteString(view, 0, "RIFF");
    SetUint32(view, 4, 36 + dataSize);
    SpliceAdjacent(s, 0, AsciiBytes("RIFF"), Le32(36 + dataSize));
    WriteString(view, 8, "WAVE");
    SpliceAdjacent(s, 0, AsciiBytes("RIFF") + Le32(36 + dataSize), AsciiBytes("WAVE"));
  }

  /** The first four fields of the `fmt ` sub-chunk at offset 12. */
  method WriteFmtPrologue(view: array<uint8>, numChannels: nat)
    requires 24 <= view.Length
    modifies view
    ensures view[..] == Splice(old(view[..]), 12, AsciiBytes("fmt ") + Le32(16) + Le16(1) + Le16(numChannels))
  {
    ghost var s := view[..];
    WriteString(view, 12, "fmt ");
    SetUint32(view, 16, 16);
    SpliceAdjacent(s, 12, AsciiBytes("fmt "), Le32(16));
    SetUint16(view, 20, 1);
    SpliceAdjacent(s, 12, AsciiBytes("fmt ") + Le32(16), Le16(1));
    SetUint16(view, 22, numChannels);
    SpliceAdjacent(s, 12, AsciiBytes("fmt ") + Le32(16) + Le16(1), Le16(numChannels));
  }

  /** The remaining `fmt ` fields at offset 24: rate, byte rate, block align, bits. */
  method WriteFmtRates(view: array<uint8>, sampleRate: nat, numChannels: nat)
    requires 36 <= view.Length
    modifies view
    ensures view[..] == Splice(old(view[..]), 24,
      Le32(sampleRate) + Le32(sampleRate * numChannels * (BITS_PER_SAMPLE / 8))
      + Le16(numChannels * (BITS_PER_SAMPLE / 8)) + Le16(BITS_PER_SAMPLE))
  {
    ghost var s := view[..];
    var byteRate := sampleRate * numChannels * (BITS_PER_SAMPLE / 8);
    var blockAlign := numChannels * (BITS_PER_SAMPLE / 8);
    SetUint32(view, 24, sampleRate);
    SetUint32(view, 28, byteRate);
    SpliceAdjacent(s, 24, Le32(sampleRate), Le32(byteRate));
    SetUint16(view, 32, blockAlign);
    SpliceAdjacent(s, 24, Le32(sampleRate) + Le32(byteRate), Le16(blockAlign));
    SetUint16(view, 34, BITS_PER_SAMPLE);
    SpliceAdjacent(s, 24, Le32(sampleRate) + Le32(byteRate) + Le16(blockAlign), Le16(BITS_PER_SAMPLE));
  }

  /** The `data` sub-chunk header at offset 36. */
  method WriteDataChunkHeader(view: array<uint8>, dataSize: nat)
    requires 44 <= view.Length
    modifies view
    ensures view[..] == Splice(old(view[..]), 36, DataChunkHeader(dataSize))
  {
    ghost var s := view[..];
    WriteString(view, 36, "data");
    SetUint32(view, 40, dataSize);
    SpliceAdjacent(s, 36, AsciiBytes("data"), Le32(dataSize));
  }

  /** The header writes of `createWavBlob`, in offset order. */
  method WriteHeader(view: array<uint8>, dataSize: nat, sampleRate: nat, numChannels: nat)
    requires HEADER_SIZE <= view.Length
    modifies view
    ensures view[..] == Splice(old(view[..]), 0, WavHeader(dataSize, sampleRate, numChannels))
  {
    ghost var s := view[..];
    WriteRiffChunk(view, dataSize);
    WriteFmtPrologue(view, numChannels);
    SpliceAdjacent(s, 0, RiffChunk(dataSize), AsciiBytes("fmt ") + Le32(16) + Le16(1) + Le16(numChannels));
    ghost var h := RiffChunk(dataSize) + (AsciiBytes("fmt ") + Le32(16) + Le16(1) + Le16(numChannels));
    WriteFmtRates(view, sampleRate, numChannels);
    ghost var rates := Le32(sampleRate) + Le32(sampleRate * numChannels * (BITS_PER_SAMPLE / 8))
      + Le16(numChannels * (BITS_PER_SAMPLE / 8)) + Le16(BITS_PER_SAMPLE);
    SpliceAdjacent(s, 0, h, rates);
    assert h + rates == RiffChunk(dataSize) + FmtChunk(sampleRate, numChannels);
    WriteDataChunkHeader(view, dataSize);
    SpliceAdjacent(s, 0, h + rates, DataChunkHeader(dataSize));
  }

  /** `createWavBlob(pcmData, sampleRate, numChannels)`: the header, then the
      payload copied in from offset 44. */
  method CreateWavBlob(pcmData: seq<uint8>, sampleRate: nat, numChannels: nat) returns (blob: Blob)
    ensures blob == Blob(WavFile(pcmData, sampleRate, numChannels), WAV_MIME_TYPE)
  {
    var dataSize := |pcmData|;
    var view := new uint8[HEADER_SIZE + dataSize];
    ghost var s := view[..];
    WriteHeader(view, dataSize, sampleRate, numChannels);
    // The payload is copied after the header and leaves the header bytes as they are.
    WriteBytes(view, HEADER_SIZE, pcmData);
    SpliceAdjacent(s, 0, WavHeader(dataSize, sampleRate, numChannels), pcmData);
    blob := Blob(view[..], WAV_MIME_TYPE);
  }
}
