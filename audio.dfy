/** Model of daemon/audio.go: the `AudioConfig` record, the read-window size a
    capture session fixes when it starts, and the WAV framer `wavChunk`, which
    writes the canonical 44-byte RIFF/WAVE PCM header in front of every chunk
    of raw PCM the daemon sends. */
module Audio {

  datatype Option<T> = None | Some(value: T)

  /** One byte of a chunk. */
  type Byte = x: int | 0 <= x < 256

  const U16Modulus: int := 0x1_0000
  const U32Modulus: int := 0x1_0000_0000

  /** The session's requested format. `secondsPerChunk` is a Go `float64`;
      here it is an exact real (rounding of binary floating point is not modelled). */
  datatype AudioConfig = AudioConfig(sampleRate: int, channels: int, bytesPerSample: int, secondsPerChunk: real)

  // ---------------------------------------------------------------------------
  // Fixed-width integers and their little-endian encodings
  // ---------------------------------------------------------------------------

  /** Go's `uint16(x)` for an `int` x: the low 16 bits, two's complement for negatives. */
  function ToU16(x: int): (r: nat)
    ensures r < U16Modulus
    ensures (x - r) % U16Modulus == 0
    ensures 0 <= x < U16Modulus ==> r == x
  {
    x % U16Modulus
  }

  /** Go's `uint32(x)` for an `int` x: the low 32 bits, two's complement for negatives. */
  function ToU32(x: int): (r: nat)
    ensures r < U32Modulus
    ensures (x - r) % U32Modulus == 0
    ensures 0 <= x < U32Modulus ==> r == x
  {
    x % U32Modulus
  }

  /** `binary.Write(buf, binary.LittleEndian, uint16(x))`: low byte first. */
  function LE16(x: nat): (r: seq<Byte>)
    requires x < U16Modulus
    ensures |r| == 2
  {
    [x % 256, x / 256]
  }

  /** `binary.Write(buf, binary.LittleEndian, uint32(x))`: low byte first. */
  function LE32(x: nat): (r: seq<Byte>)
    requires x < U32Modulus
    ensures |r| == 4
  {
    [x % 256, x / 256 % 256, x / 256 / 256 % 256, x / 256 / 256 / 256]
  }

  /** The unsigned 16-bit little-endian value stored at `s[off..off + 2]`. */
  function ReadLE16(s: seq<Byte>, off: nat): (r: nat)
    requires off + 2 <= |s|
    ensures r < U16Modulus
  {
    s[off] as int + 0x100 * (s[off + 1] as int)
  }

  /** The unsigned 32-bit little-endian value stored at `s[off..off + 4]`. */
  function ReadLE32(s: seq<Byte>, off: nat): (r: nat)
    requires off + 4 <= |s|
    ensures r < U32Modulus
  {
    s[off] as int + 0x100 * (s[off + 1] as int + 0x100 * (s[off + 2] as int + 0x100 * (s[off + 3] as int)))
  }

  /** A natural number is its low byte plus 256 times the rest. */
  lemma SplitLowByte(x: nat)
    ensures x == x % 256 + 256 * (x / 256)
  {
  }

  /** The low byte and the rest of `lo + 256 * hi` are `lo` and `hi`. */
  lemma JoinLowByte(lo: int, hi: nat)
    requires 0 <= lo < 256
    ensures (lo + 256 * hi) % 256 == lo && (lo + 256 * hi) / 256 == hi
  {
  }

  /** Reading back a 16-bit field recovers the value that was written. */
  lemma LE16RoundTrip(x: nat)
    requires x < U16Modulus
    ensures ReadLE16(LE16(x), 0) == x
  {
    SplitLowByte(x);
  }

  /** Reading back a 32-bit field recovers the value that was written. */
  lemma LE32RoundTrip(x: nat)
    requires x < U32Modulus
    ensures ReadLE32(LE32(x), 0) == x
  {
    SplitLowByte(x);
    SplitLowByte(x / 256);
    SplitLowByte(x / 256 / 256);
  }

  /** Re-encoding a 16-bit field that was read gives back the same two bytes. */
  lemma ReadLE16Canonical(s: seq<Byte>, off: nat)
    requires off + 2 <= |s|
    ensures LE16(ReadLE16(s, off)) == s[off..off + 2]
  {
    JoinLowByte(s[off], s[off + 1]);
  }

  /** Re-encoding a 32-bit field that was read gives back the same four bytes. */
  lemma ReadLE32Canonical(s: seq<Byte>, off: nat)
    requires off + 4 <= |s|
    ensures LE32(ReadLE32(s, off)) == s[off..off + 4]
  {
    var q2 := s[off + 2] as int + 0x100 * (s[off + 3] as int);
    var q1 := s[off + 1] as int + 0x100 * q2;
    JoinLowByte(s[off], q1);
    JoinLowByte(s[off + 1], q2);
    JoinLowByte(s[off + 2], s[off + 3]);
  }

  // ---------------------------------------------------------------------------
  // ASCII tags
  // ---------------------------------------------------------------------------

  /** Every character is 7-bit ASCII, so its UTF-8 encoding is one byte. */
  predicate IsAscii(s: string)
  {
    forall i | 0 <= i < |s| :: s[i] as int < 128
  }

  /** The bytes `buf.WriteString(s)` appends for an ASCII string. */
  function Ascii(s: string): (r: seq<Byte>)
    requires IsAscii(s)
    ensures |r| == |s|
    ensures forall i | 0 <= i < |s| :: r[i] == s[i] as int
  {
    seq(|s|, i requires 0 <= i < |s| => s[i] as int)
  }

  // ---------------------------------------------------------------------------
  // The 44-byte header
  // ---------------------------------------------------------------------------

  /** The numeric fields of a canonical RIFF/WAVE PCM header, in file order. */
  datatype WavHeader = WavHeader(
    riffSize: nat,
    fmtSize: nat,
    audioFormat: nat,
    channels: nat,
    sampleRate: nat,
    byteRate: nat,
    blockAlign: nat,
    bitsPerSample: nat,
    dataSize: nat)
  {
    /** Every field fits its on-disk width. */
    predicate WellFormed()
    {
      riffSize < U32Modulus && fmtSize < U32Modulus && audioFormat < U16Modulus &&
      channels < U16Modulus && sampleRate < U32Modulus && byteRate < U32Modulus &&
      blockAlign < U16Modulus && bitsPerSample < U16Modulus && dataSize < U32Modulus
    }
  }

  /** The header bytes in write order: "RIFF", size, "WAVE", "fmt ", the fmt
      sub-chunk, "data", data size. */
  function EncodeHeader(h: WavHeader): (r: seq<Byte>)
    requires h.WellFormed()
    ensures |r| == 44
  {
    Ascii("RIFF") + LE32(h.riffSize) + Ascii("WAVE") +
    Ascii("fmt ") + LE32(h.fmtSize) + LE16(h.audioFormat) + LE16(h.channels) +
    LE32(h.sampleRate) + LE32(h.byteRate) + LE16(h.blockAlign) + LE16(h.bitsPerSample) +
    Ascii("data") + LE32(h.dataSize)
  }

  /** A reader for the header at the front of a chunk: the four tags must be in
      place, and the numeric fields are read at their fixed offsets. */
  function DecodeHeader(b: seq<Byte>): (r: Option<WavHeader>)
    ensures r.Some? ==> |b| >= 44 && r.value.WellFormed()
  {
    if |b| < 44 || b[0..4] != Ascii("RIFF") || b[8..12] != Ascii("WAVE") ||
       b[12..16] != Ascii("fmt ") || b[36..40] != Ascii("data")
    then None
    else Some(WavHeader(
      ReadLE32(b, 4), ReadLE32(b, 16), ReadLE16(b, 20), ReadLE16(b, 22), ReadLE32(b, 24),
      ReadLE32(b, 28), ReadLE16(b, 32), ReadLE16(b, 34), ReadLE32(b, 40)))
  }

  /** Where each piece of an encoded header sits. */
  lemma EncodeHeaderSlices(h: WavHeader, rest: seq<Byte>)
    requires h.WellFormed()
    ensures var b := EncodeHeader(h) + rest;
      |b| == 44 + |rest| &&
      b[0..4] == Ascii("RIFF") && b[4..8] == LE32(h.riffSize) &&
      b[8..12] == Ascii("WAVE") && b[12..16] == Ascii("fmt ") &&
      b[16..20] == LE32(h.fmtSize) && b[20..22] == LE16(h.audioFormat) &&
      b[22..24] == LE16(h.channels) && b[24..28] == LE32(h.sampleRate) &&
      b[28..32] == LE32(h.byteRate) && b[32..34] == LE16(h.blockAlign) &&
      b[34..36] == LE16(h.bitsPerSample) && b[36..40] == Ascii("data") &&
      b[40..44] == LE32(h.dataSize) && b[44..] == rest
  {
  }

  lemma ReadLE16Of(s: seq<Byte>, off: nat, x: nat)
    requires x < U16Modulus && off + 2 <= |s| && s[off..off + 2] == LE16(x)
    ensures ReadLE16(s, off) == x
  {
    assert s[off] == LE16(x)[0] && s[off + 1] == LE16(x)[1];
    LE16RoundTrip(x);
  }

  lemma ReadLE32Of(s: seq<Byte>, off: nat, x: nat)
    requires x < U32Modulus && off + 4 <= |s| && s[off..off + 4] == LE32(x)
    ensures ReadLE32(s, off) == x
  {
    assert s[off] == LE32(x)[0] && s[off + 1] == LE32(x)[1];
    assert s[off + 2] == LE32(x)[2] && s[off + 3] == LE32(x)[3];
    LE32RoundTrip(x);
  }

  /** Encode then decode: any well-formed header is read back unchanged,
      whatever follows it. */
  lemma HeaderRoundTrip(h: WavHeader, rest: seq<Byte>)
    requires h.WellFormed()
    ensures DecodeHeader(EncodeHeader(h) + rest) == Some(h)
  {
    var b := EncodeHeader(h) + rest;
    EncodeHeaderSlices(h, rest);
    ReadLE32Of(b, 4, h.riffSize);
    ReadLE32Of(b, 16, h.fmtSize);
    ReadLE16Of(b, 20, h.audioFormat);
    ReadLE16Of(b, 22, h.channels);
    ReadLE32Of(b, 24, h.sampleRate);
    ReadLE32Of(b, 28, h.byteRate);
    ReadLE16Of(b, 32, h.blockAlign);
    ReadLE16Of(b, 34, h.bitsPerSample);
    ReadLE32Of(b, 40, h.dataSize);
  }

  /** Decode then encode: a header that decodes is well-formed and re-encodes
      to exactly the first 44 bytes it was read from. */
  lemma DecodeHeaderCanonical(b: seq<Byte>)
    requires DecodeHeader(b).Some?
    ensures DecodeHeader(b).value.WellFormed()
    ensures EncodeHeader(DecodeHeader(b).value) == b[..44]
  {
    var h := DecodeHeader(b).value;
    EncodeHeaderSlices(h, []);
    ReadLE32Canonical(b, 4);
    ReadLE32Canonical(b, 16);
    ReadLE16Canonical(b, 20);
    ReadLE16Canonical(b, 22);
    ReadLE32Canonical(b, 24);
    ReadLE32Canonical(b, 28);
    ReadLE16Canonical(b, 32);
    ReadLE16Canonical(b, 34);
    ReadLE32Canonical(b, 40);
    var e := EncodeHeader(h);
    forall i | 0 <= i < 44
      ensures e[i] == b[i]
    {
      if i < 4 { assert e[i] == e[0..4][i]; assert b[i] == b[0..4][i]; }
      else if i < 8 { assert e[i] == e[4..8][i - 4]; assert b[i] == b[4..8][i - 4]; }
      else if i < 12 { assert e[i] == e[8..12][i - 8]; assert b[i] == b[8..12][i - 8]; }
      else if i < 16 { assert e[i] == e[12..16][i - 12]; assert b[i] == b[12..16][i - 12]; }
      else if i < 20 { assert e[i] == e[16..20][i - 16]; assert b[i] == b[16..20][i - 16]; }
      else if i < 22 { assert e[i] == e[20..22][i - 20]; assert b[i] == b[20..22][i - 20]; }
      else if i < 24 { assert e[i] == e[22..24][i - 22]; assert b[i] == b[22..24][i - 22]; }
      else if i < 28 { assert e[i] == e[24..28][i - 24]; assert b[i] == b[24..28][i - 24]; }
      else if i < 32 { assert e[i] == e[28..32][i - 28]; assert b[i] == b[28..32][i - 28]; }
      else if i < 34 { assert e[i] == e[32..34][i - 32]; assert b[i] == b[32..34][i - 32]; }
      else if i < 36 { assert e[i] == e[34..36][i - 34]; assert b[i] == b[34..36][i - 34]; }
      else if i < 40 { assert e[i] == e[36..40][i - 36]; assert b[i] == b[36..40][i - 36]; }
      else { assert e[i] == e[40..44][i - 40]; assert b[i] == b[40..44][i - 40]; }
    }
  }

  // ---------------------------------------------------------------------------
  // wavChunk
  // ---------------------------------------------------------------------------

  /** The header `wavChunk` writes for `dataLen` bytes of PCM: the fmt
      sub-chunk size is always 16 and the format tag always 1 (integer PCM),
      and every derived value is truncated to its field's width. */
  function ChunkHeader(dataLen: nat, sampleRate: int, channels: int, bytesPerSample: int): (h: WavHeader)
    ensures h.WellFormed()
  {
    var blockAlign := channels * bytesPerSample;
    var byteRate := sampleRate * blockAlign;
    WavHeader(ToU32(36 + dataLen), 16, 1, ToU16(channels), ToU32(sampleRate),
              ToU32(byteRate), ToU16(blockAlign), ToU16(bytesPerSample * 8), ToU32(dataLen))
  }

  /** The bytes `wavChunk(pcm, sampleRate, channels, bytesPerSample)` returns. */
  function WavBytes(pcm: seq<Byte>, sampleRate: int, channels: int, bytesPerSample: int): (r: seq<Byte>)
    ensures |r| == 44 + |pcm| && r[44..] == pcm
  {
    EncodeHeader(ChunkHeader(|pcm|, sampleRate, channels, bytesPerSample)) + pcm
  }

  lemma MulAssociates(a: int, b: int, c: int)
    ensures a * (b * c) == a * b * c
  {
  }

  /** Length and every field offset of a framed chunk, for every input. */
  lemma WavBytesLayout(pcm: seq<Byte>, sampleRate: int, channels: int, bytesPerSample: int, r: seq<Byte>)
    requires r == WavBytes(pcm, sampleRate, channels, bytesPerSample)
    ensures |r| == 44 + |pcm|
    ensures r[0..4] == Ascii("RIFF") && r[8..12] == Ascii("WAVE")
    ensures r[12..16] == Ascii("fmt ") && r[36..40] == Ascii("data")
    ensures ReadLE32(r, 4) == ToU32(36 + |pcm|)
    ensures ReadLE32(r, 16) == 16 && ReadLE16(r, 20) == 1
    ensures ReadLE16(r, 22) == ToU16(channels)
    ensures ReadLE32(r, 24) == ToU32(sampleRate)
    ensures ReadLE32(r, 28) == ToU32(sampleRate * channels * bytesPerSample)
    ensures ReadLE16(r, 32) == ToU16(channels * bytesPerSample)
    ensures ReadLE16(r, 34) == ToU16(bytesPerSample * 8)
    ensures ReadLE32(r, 40) == ToU32(|pcm|)
    ensures r[44..] == pcm
  {
    var h := ChunkHeader(|pcm|, sampleRate, channels, bytesPerSample);
    HeaderRoundTrip(h, pcm);
    assert DecodeHeader(r) == Some(h);
    var byteRate := sampleRate * channels * bytesPerSample;
    MulAssociates(sampleRate, channels, bytesPerSample);
    assert h.byteRate == ToU32(byteRate);
  }

  /** Framing then parsing the header recovers the format and the payload length
      whenever the inputs fit their fields. */
  lemma WavBytesRoundTrip(pcm: seq<Byte>, sampleRate: int, channels: int, bytesPerSample: int)
    requires 0 <= channels < U16Modulus
    requires 0 <= sampleRate < U32Modulus
    requires 0 <= bytesPerSample * 8 < U16Modulus
    requires 36 + |pcm| < U32Modulus
    ensures var r := WavBytes(pcm, sampleRate, channels, bytesPerSample);
      DecodeHeader(r).Some? &&
      DecodeHeader(r).value.channels == channels &&
      DecodeHeader(r).value.sampleRate == sampleRate &&
      DecodeHeader(r).value.bitsPerSample / 8 == bytesPerSample &&
      DecodeHeader(r).value.dataSize == |pcm| &&
      DecodeHeader(r).value.riffSize == 36 + |pcm| &&
      r[44..] == pcm
  {
    var h := ChunkHeader(|pcm|, sampleRate, channels, bytesPerSample);
    HeaderRoundTrip(h, pcm);
  }

  /** Go's `bytes.Buffer`, as `wavChunk` uses it: a byte sequence that only grows. */
  class ByteBuffer {
    var data: seq<Byte>

    constructor ()
      ensures data == []
    {
      data := [];
    }

    method WriteString(s: string)
      requires IsAscii(s)
      modifies this
      ensures data == old(data) + Ascii(s)
    {
      data := data + Ascii(s);
    }

    method Write(p: seq<Byte>)
      modifies this
      ensures data == old(data) + p
    {
      data := data + p;
    }

    method WriteU16LE(x: nat)
      requires x < U16Modulus
      modifies this
      ensures data == old(data) + LE16(x)
    {
      data := data + LE16(x);
    }

    method WriteU32LE(x: nat)
      requires x < U32Modulus
      modifies this
      ensures data == old(data) + LE32(x)
    {
      data := data + LE32(x);
    }

    /** `buf.Bytes()`: nothing has been read, so everything written so far. */
    function Bytes(): (r: seq<Byte>)
      reads this
      ensures r == data
    {
      data
    }
  }

  /** `wavChunk`: write the header field by field into a fresh buffer, then the
      PCM payload; the result is exactly `WavBytes`. */
  method WavChunk(pcm: seq<Byte>, sampleRate: int, channels: int, bytesPerSample: int)
    returns (chunk: seq<Byte>)
    ensures chunk == WavBytes(pcm, sampleRate, channels, bytesPerSample)
    ensures |chunk| == 44 + |pcm| && chunk[44..] == pcm
  {
    var h := ChunkHeader(|pcm|, sampleRate, channels, bytesPerSample);
    var buf := new ByteBuffer();
    buf.WriteString("RIFF");
    assert buf.data == Ascii("RIFF");
    buf.WriteU32LE(h.riffSize);
    buf.WriteString("WAVE");
    buf.WriteString("fmt ");
    buf.WriteU32LE(h.fmtSize);
    buf.WriteU16LE(h.audioFormat);
    buf.WriteU16LE(h.channels);
    buf.WriteU32LE(h.sampleRate);
    buf.WriteU32LE(h.byteRate);
    buf.WriteU16LE(h.blockAlign);
    buf.WriteU16LE(h.bitsPerSample);
    buf.WriteString("data");
    buf.WriteU32LE(h.dataSize);
    assert buf.data == EncodeHeader(h);
    buf.Write(pcm);
    chunk := buf.Bytes();
  }

  // ---------------------------------------------------------------------------
  // The capture session's read window
  // ---------------------------------------------------------------------------

  /** Go's `int(f)` for a float: truncation toward zero. */
  function TruncateToInt(x: real): (r: int)
    ensures 0.0 <= x ==> 0 <= r && r as real <= x < r as real + 1.0
    ensures x < 0.0 ==> r <= 0 && r as real - 1.0 < x <= r as real
  {
    if 0.0 <= x then x.Floor else -((-x).Floor)
  }

  /** The length of the buffer a session reads from the capture process before
      framing each chunk: `int(SampleRate * SecondsPerChunk) * BytesPerSample`. */
  function ReadWindowSize(cfg: AudioConfig): (r: int)
    ensures cfg.sampleRate >= 0 && cfg.secondsPerChunk >= 0.0 && cfg.bytesPerSample >= 0 ==> r >= 0
    ensures cfg.bytesPerSample == 0 ==> r == 0
  {
    TruncateToInt(cfg.sampleRate as real * cfg.secondsPerChunk) * cfg.bytesPerSample
  }

  /** For a whole number of seconds the window is sampleRate * seconds *
      bytesPerSample bytes, whatever the channel count. */
  lemma ReadWindowWholeSeconds(cfg: AudioConfig, seconds: int)
    requires cfg.secondsPerChunk == seconds as real
    ensures ReadWindowSize(cfg) == cfg.sampleRate * seconds * cfg.bytesPerSample
  {
    var n := cfg.sampleRate * seconds;
    var x := cfg.sampleRate as real * cfg.secondsPerChunk;
    assert ReadWindowSize(cfg) == TruncateToInt(x) * cfg.bytesPerSample;
    assert x == n as real;
    var t := TruncateToInt(x);
    assert t == n by {
      if 0 <= n { assert x.Floor == n; }
      else { assert -x == (-n) as real; assert (-x).Floor == -n; }
    }
  }

  /** The chunk a session emits for one full read window. */
  function SessionChunk(cfg: AudioConfig, window: seq<Byte>): (r: seq<Byte>)
    requires |window| == ReadWindowSize(cfg)
    ensures |r| == 44 + ReadWindowSize(cfg)
    ensures r[44..] == window
  {
    WavBytes(window, cfg.sampleRate, cfg.channels, cfg.bytesPerSample)
  }

  /** With whole-number seconds every emitted chunk is 44 + sampleRate *
      seconds * bytesPerSample bytes long. */
  lemma SessionChunkLength(cfg: AudioConfig, seconds: int, window: seq<Byte>)
    requires cfg.secondsPerChunk == seconds as real
    requires |window| == ReadWindowSize(cfg)
    ensures |SessionChunk(cfg, window)| == 44 + cfg.sampleRate * seconds * cfg.bytesPerSample
  {
    ReadWindowWholeSeconds(cfg, seconds);
  }

  /** 16 kHz mono 16-bit at one second per chunk: 32000 bytes of PCM, 32044 framed. */
  lemma OneSecondAt16kHz(window: seq<Byte>)
    requires |window| == ReadWindowSize(AudioConfig(16000, 1, 2, 1.0))
    ensures |window| == 32000
    ensures |SessionChunk(AudioConfig(16000, 1, 2, 1.0), window)| == 32044
  {
    SessionChunkLength(AudioConfig(16000, 1, 2, 1.0), 1, window);
  }
}
