/**
 * The canonical 44-byte PCM WAVE container of js/audioUtils.js (and of the
 * private copy in js/audioProcessing.js): one mono 16-bit little-endian
 * channel after a RIFF header with a `fmt ` and a `data` chunk.
 *
 * Samples are JavaScript numbers, modelled as exact reals: clamped to
 * [-1, 1], scaled by 0x8000 below zero and by 0x7FFF otherwise, and stored by
 * DataView.setInt16, which truncates toward zero.
 */
module AudioUtils {
  import opened Common
  import opened Bytes

  const HeaderSize: nat := 44

  /** What a decoder reads back from one of these containers. */
  datatype WavInfo = WavInfo(sampleRate: nat, samples: seq<int>)

  function Clamp(x: real): (s: real)
    ensures -1.0 <= s <= 1.0
  {
    if x > 1.0 then 1.0 else if x < -1.0 then -1.0 else x
  }

  /** `s < 0 ? s * 0x8000 : s * 0x7FFF` on the clamped sample. */
  function Scale(x: real): real
  {
    var s := Clamp(x);
    if s < 0.0 then s * 32768.0 else s * 32767.0
  }

  /**
   * The 16-bit value setInt16 stores for a sample: always in range, full
   * scale at and beyond +-1, zero for silence, and the truncation of the
   * scaled sample toward zero.
   */
  function Quantize(x: real): (q: int)
    ensures -0x8000 <= q <= 0x7FFF
    ensures x >= 1.0 ==> q == 0x7FFF
    ensures x <= -1.0 ==> q == -0x8000
    ensures x == 0.0 ==> q == 0
    ensures q == Truncate(Scale(x))
    ensures x > 0.0 ==> q >= 0
    ensures x < 0.0 ==> q <= 0
  {
    ToInt16(Scale(x))
  }

  /** Louder input never gives a smaller stored value. */
  lemma QuantizeMonotonic(x: real, y: real)
    requires x <= y
    ensures Quantize(x) <= Quantize(y)
  {
    var sx, sy := Scale(x), Scale(y);
    assert sx <= sy by {
      if Clamp(x) < 0.0 && Clamp(y) >= 0.0 {
      } else if Clamp(x) < 0.0 {
        assert Clamp(x) * 32768.0 <= Clamp(y) * 32768.0;
      } else {
        assert Clamp(x) * 32767.0 <= Clamp(y) * 32767.0;
      }
    }
    TruncateMonotonic(sx, sy);
  }

  lemma TruncateMonotonic(a: real, b: real)
    requires a <= b
    ensures Truncate(a) <= Truncate(b)
  {
    if a >= 0.0 {
      assert a.Floor <= b.Floor;
    } else if b < 0.0 {
      assert (-b).Floor <= (-a).Floor;
    }
  }

  /** The two bytes of one sample. */
  function SampleBytes(x: real): seq<Byte>
  {
    LittleEndian(Quantize(x) % 0x1_0000, 2)
  }

  /** The data chunk's payload: the samples' bytes, one after another. */
  function PcmBytes(s: seq<real>): (r: seq<Byte>)
    ensures |r| == 2 * |s|
  {
    if s == [] then [] else PcmBytes(s[..|s| - 1]) + SampleBytes(s[|s| - 1])
  }

  /** The quantised values of a run of samples, in order. */
  function Quantized(s: seq<real>): (q: seq<int>)
    ensures |q| == |s|
  {
    seq(|s|, i requires 0 <= i < |s| => Quantize(s[i]))
  }

  /** Reads consecutive little-endian 16-bit pairs back into values. */
  function DecodePcm(b: seq<Byte>): (v: seq<int>)
    requires |b| % 2 == 0
    ensures |v| == |b| / 2
  {
    if b == [] then [] else DecodePcm(b[..|b| - 2]) + [DecodeInt16(b[|b| - 2..])]
  }

  /** The bytes of a string, one per character (charCodeAt, stored by setUint8). */
  function AsciiBytes(s: string): (r: seq<Byte>)
    ensures |r| == |s|
  {
    seq(|s|, i requires 0 <= i < |s| => (s[i] as int) % 256)
  }

  function U16(v: int): seq<Byte> { LittleEndian(v % 0x1_0000, 2) }

  function U32(v: int): seq<Byte> { LittleEndian(ToUint32(v), 4) }

  /** The RIFF chunk descriptor: tag, size of what follows, form type. */
  function RiffDescriptor(n: nat): (h: seq<Byte>)
    ensures |h| == 12
  {
    AsciiBytes("RIFF") + U32(36 + n * 2) + AsciiBytes("WAVE")
  }

  /** The `fmt ` sub-chunk: 16-byte PCM format, one channel, 16 bits. */
  function FmtChunk(sampleRate: int): (h: seq<Byte>)
    ensures |h| == 24
  {
    AsciiBytes("fmt ") + U32(16) + U16(1) + U16(1)
    + U32(sampleRate) + U32(sampleRate * 2) + U16(2) + U16(16)
  }

  /** The `data` sub-chunk header: tag and payload size. */
  function DataChunkHeader(n: nat): (h: seq<Byte>)
    ensures |h| == 8
  {
    AsciiBytes("data") + U32(n * 2)
  }

  /** The header createWavBuffer writes for n samples at the given rate. */
  function WavHeader(n: nat, sampleRate: int): (h: seq<Byte>)
    ensures |h| == HeaderSize
  {
    RiffDescriptor(n) + FmtChunk(sampleRate) + DataChunkHeader(n)
  }

  /** The whole buffer createWavBuffer returns. */
  function WavBytes(s: seq<real>, sampleRate: int): seq<Byte>
  {
    WavHeader(|s|, sampleRate) + PcmBytes(s)
  }

  /**
   * A strict reader of exactly this container layout: the four tags, a
   * 16-byte PCM `fmt ` chunk for one 16-bit channel with consistent byte rate
   * and block align, and RIFF and data sizes that agree with the buffer.
   */
  function DecodeWav(b: seq<Byte>): Option<WavInfo>
  {
    if |b| < HeaderSize then None
    else
      var h := b[..HeaderSize];
      var rate := DecodeLE(h[24..28]);
      var dataBytes := DecodeLE(h[40..44]);
      if && h[0..4] == AsciiBytes("RIFF")
         && DecodeLE(h[4..8]) == 36 + dataBytes
         && h[8..12] == AsciiBytes("WAVE")
         && h[12..16] == AsciiBytes("fmt ")
         && DecodeLE(h[16..20]) == 16
         && DecodeLE(h[20..22]) == 1
         && DecodeLE(h[22..24]) == 1
         && DecodeLE(h[28..32]) == ToUint32(rate * 2)
         && DecodeLE(h[32..34]) == 2
         && DecodeLE(h[34..36]) == 16
         && h[36..40] == AsciiBytes("data")
         && dataBytes == |b| - HeaderSize
         && dataBytes % 2 == 0
      then Some(WavInfo(rate, DecodePcm(b[HeaderSize..])))
      else None
  }

  // ----- properties of the layout -----

  /** Sample i occupies bytes 2i and 2i+1 of the payload. */
  lemma {:induction false} PcmBytesAt(s: seq<real>, i: nat)
    requires i < |s|
    ensures PcmBytes(s)[2 * i..2 * i + 2] == SampleBytes(s[i])
    decreases |s|
  {
    var init := s[..|s| - 1];
    assert PcmBytes(s) == PcmBytes(init) + SampleBytes(s[|s| - 1]);
    if i < |s| - 1 {
      PcmBytesAt(init, i);
      assert init[i] == s[i];
    }
  }

  /** Reading the two bytes of a sample back gives its quantised value. */
  lemma SampleRoundTrip(x: real)
    ensures DecodeInt16(SampleBytes(x)) == Quantize(x)
  {
    Int16RoundTrip(Quantize(x));
  }

  /** Decoding the payload gives back the quantised samples (the raw path is lossless). */
  lemma {:induction false} PcmRoundTrip(s: seq<real>)
    ensures DecodePcm(PcmBytes(s)) == Quantized(s)
    decreases |s|
  {
    if s != [] {
      var init := s[..|s| - 1];
      var b := PcmBytes(s);
      assert b == PcmBytes(init) + SampleBytes(s[|s| - 1]);
      assert b[..|b| - 2] == PcmBytes(init);
      assert b[|b| - 2..] == SampleBytes(s[|s| - 1]);
      PcmRoundTrip(init);
      SampleRoundTrip(s[|s| - 1]);
      assert Quantized(s) == Quantized(init) + [Quantize(s[|s| - 1])];
    }
  }

  /** The buffer is exactly 44 + 2n bytes long. */
  lemma WavBytesLength(s: seq<real>, sampleRate: int)
    ensures |WavBytes(s, sampleRate)| == HeaderSize + 2 * |s|
  {
  }

  /** Reads a 32-bit field back. */
  lemma U32RoundTrip(v: int)
    ensures DecodeLE(U32(v)) == ToUint32(v)
  {
    LittleEndianRoundTrip(ToUint32(v), 4);
  }

  /** Reads a 16-bit field back. */
  lemma U16RoundTrip(v: int)
    requires 0 <= v < 0x1_0000
    ensures DecodeLE(U16(v)) == v
  {
    LittleEndianRoundTrip(v, 2);
  }

  lemma RiffDescriptorFields(n: nat)
    ensures var h := RiffDescriptor(n);
      && h[0..4] == AsciiBytes("RIFF")
      && DecodeLE(h[4..8]) == ToUint32(36 + 2 * n)
      && h[8..12] == AsciiBytes("WAVE")
  {
    var h := RiffDescriptor(n);
    assert h[4..8] == U32(36 + n * 2);
    U32RoundTrip(36 + n * 2);
  }

  lemma FmtChunkFields(sampleRate: int)
    ensures var h := FmtChunk(sampleRate);
      && h[0..4] == AsciiBytes("fmt ")
      && DecodeLE(h[4..8]) == 16
      && DecodeLE(h[8..10]) == 1
      && DecodeLE(h[10..12]) == 1
      && DecodeLE(h[12..16]) == ToUint32(sampleRate)
      && DecodeLE(h[16..20]) == ToUint32(sampleRate * 2)
      && DecodeLE(h[20..22]) == 2
      && DecodeLE(h[22..24]) == 16
  {
    var h := FmtChunk(sampleRate);
    var h8 := AsciiBytes("fmt ") + U32(16);
    var h16 := h8 + U16(1) + U16(1) + U32(sampleRate);
    assert h[..16] == h16;
    assert h[4..8] == U32(16) by { assert h8[4..8] == U32(16); }
    assert h[8..10] == U16(1);
    assert h[10..12] == U16(1);
    assert h[12..16] == U32(sampleRate);
    assert h[16..20] == U32(sampleRate * 2);
    assert h[20..22] == U16(2);
    assert h[22..24] == U16(16);
    U32RoundTrip(16);
    U16RoundTrip(1);
    U32RoundTrip(sampleRate);
    U32RoundTrip(sampleRate * 2);
    U16RoundTrip(2);
    U16RoundTrip(16);
  }

  lemma DataChunkHeaderFields(n: nat)
    ensures var h := DataChunkHeader(n);
      && h[0..4] == AsciiBytes("data")
      && DecodeLE(h[4..8]) == ToUint32(2 * n)
  {
    var h := DataChunkHeader(n);
    assert h[4..8] == U32(n * 2);
    U32RoundTrip(n * 2);
  }

  /**
   * The header read field by field: the four ASCII tags, the RIFF size
   * 36 + 2n and data size 2n (modulo 2^32, as setUint32 stores them), format
   * 1, one channel, the sample rate, byte rate sampleRate * 2, block align 2
   * and 16 bits per sample.
   */
  lemma WavHeaderFields(n: nat, sampleRate: int)
    ensures var h := WavHeader(n, sampleRate);
      && h[0..4] == AsciiBytes("RIFF") && h[0..4] == [0x52, 0x49, 0x46, 0x46]
      && DecodeLE(h[4..8]) == ToUint32(36 + 2 * n)
      && h[8..12] == AsciiBytes("WAVE") && h[8..12] == [0x57, 0x41, 0x56, 0x45]
      && h[12..16] == AsciiBytes("fmt ") && h[12..16] == [0x66, 0x6d, 0x74, 0x20]
      && DecodeLE(h[16..20]) == 16
      && DecodeLE(h[20..22]) == 1
      && DecodeLE(h[22..24]) == 1
      && DecodeLE(h[24..28]) == ToUint32(sampleRate)
      && DecodeLE(h[28..32]) == ToUint32(sampleRate * 2)
      && DecodeLE(h[32..34]) == 2
      && DecodeLE(h[34..36]) == 16
      && h[36..40] == AsciiBytes("data") && h[36..40] == [0x64, 0x61, 0x74, 0x61]
      && DecodeLE(h[40..44]) == ToUint32(2 * n)
  {
    var r, f, d := RiffDescriptor(n), FmtChunk(sampleRate), DataChunkHeader(n);
    var h := WavHeader(n, sampleRate);
    ThreeParts(r, f, d);
    RiffDescriptorFields(n);
    FmtChunkFields(sampleRate);
    DataChunkHeaderFields(n);
    TagBytes();
    SubSlice(h, r, 0, 0, 4);
    SubSlice(h, r, 0, 4, 8);
    SubSlice(h, r, 0, 8, 12);
    SubSlice(h, f, 12, 0, 4);
    SubSlice(h, f, 12, 4, 8);
    SubSlice(h, f, 12, 8, 10);
    SubSlice(h, f, 12, 10, 12);
    SubSlice(h, f, 12, 12, 16);
    SubSlice(h, f, 12, 16, 20);
    SubSlice(h, f, 12, 20, 22);
    SubSlice(h, f, 12, 22, 24);
    SubSlice(h, d, 36, 0, 4);
    SubSlice(h, d, 36, 4, 8);
  }

  lemma TagBytes()
    ensures AsciiBytes("RIFF") == [0x52, 0x49, 0x46, 0x46]
    ensures AsciiBytes("WAVE") == [0x57, 0x41, 0x56, 0x45]
    ensures AsciiBytes("fmt ") == [0x66, 0x6d, 0x74, 0x20]
    ensures AsciiBytes("data") == [0x64, 0x61, 0x74, 0x61]
  {
  }

  lemma ThreeParts<T>(a: seq<T>, b: seq<T>, c: seq<T>)
    ensures var h := a + b + c;
      && h[..|a|] == a && h[|a|..|a| + |b|] == b && h[|a| + |b|..] == c
  {
  }

  /** A slice of a part is the corresponding slice of the whole. */
  lemma SubSlice<T>(h: seq<T>, x: seq<T>, at: nat, lo: nat, hi: nat)
    requires at + |x| <= |h| && h[at..at + |x|] == x && lo <= hi <= |x|
    ensures h[at + lo..at + hi] == x[lo..hi]
  {
    forall k | 0 <= k < hi - lo
      ensures h[at + lo..at + hi][k] == x[lo..hi][k]
    {
      assert h[at + lo + k] == h[at..at + |x|][lo + k];
    }
  }

  lemma ByteRateWraps(rate: int)
    ensures ToUint32(ToUint32(rate) * 2) == ToUint32(rate * 2)
  {
    var u := ToUint32(rate);
    var c := u * 2 / 0x1_0000_0000;
    assert u * 2 == c * 0x1_0000_0000 + ToUint32(u * 2);
    assert rate == rate / 0x1_0000_0000 * 0x1_0000_0000 + u;
    ModUnique(rate * 2, 2 * (rate / 0x1_0000_0000) + c, ToUint32(u * 2));
  }

  /** Euclidean division by 2^32 has one remainder. */
  lemma ModUnique(x: int, q: int, r: int)
    requires 0 <= r < 0x1_0000_0000 && x == q * 0x1_0000_0000 + r
    ensures x % 0x1_0000_0000 == r
  {
  }

  /**
   * Round trip: when the sizes fit in 32 bits, a decoder reading the buffer
   * recovers the sample rate (modulo 2^32) and exactly the quantised samples.
   */
  lemma WavRoundTrip(s: seq<real>, sampleRate: int)
    requires 36 + 2 * |s| < 0x1_0000_0000
    ensures DecodeWav(WavBytes(s, sampleRate)) == Some(WavInfo(ToUint32(sampleRate), Quantized(s)))
  {
    var b := WavBytes(s, sampleRate);
    var h := WavHeader(|s|, sampleRate);
    assert b[..HeaderSize] == h && b[HeaderSize..] == PcmBytes(s);
    WavHeaderFields(|s|, sampleRate);
    ByteRateWraps(sampleRate);
    PcmRoundTrip(s);
  }

  // ----- the writer, as the source runs it -----

  /** writeString: one setUint8 per character, from `offset` on. */
  method WriteString(view: array<Byte>, offset: nat, str: string)
    requires offset + |str| <= view.Length
    modifies view
    ensures view[..] == Splice(old(view[..]), offset, AsciiBytes(str))
  {
    var i := 0;
    while i < |str|
      invariant 0 <= i <= |str|
      invariant view[..] == Splice(old(view[..]), offset, AsciiBytes(str)[..i])
    {
      SetUint8(view, offset + i, str[i] as int);
      assert AsciiBytes(str)[..i + 1] == AsciiBytes(str)[..i] + [(str[i] as int) % 256];
      SpliceTwice(old(view[..]), offset, AsciiBytes(str)[..i], [(str[i] as int) % 256]);
      i := i + 1;
    }
    assert AsciiBytes(str)[..i] == AsciiBytes(str);
  }

  /** floatTo16BitPCM: one setInt16 per sample, the offset advancing by two. */
  method FloatTo16BitPCM(view: array<Byte>, offset: nat, input: seq<real>)
    requires offset + 2 * |input| <= view.Length
    modifies view
    ensures view[..] == Splice(old(view[..]), offset, PcmBytes(input))
  {
    ghost var start := view[..];
    var i, o := 0, offset;
    while i < |input|
      invariant 0 <= i <= |input| && o == offset + 2 * i
      invariant view[..] == Splice(start, offset, PcmBytes(input[..i]))
    {
      WriteSample(view, o, input[i]);
      PcmBytesStep(input, i);
      SpliceTwice(start, offset, PcmBytes(input[..i]), SampleBytes(input[i]));
      i, o := i + 1, o + 2;
    }
    assert input[..i] == input;
  }

  /** The body of floatTo16BitPCM's loop: clamp, scale and store one sample. */
  method WriteSample(view: array<Byte>, o: nat, x: real)
    requires o + 2 <= view.Length
    modifies view
    ensures view[..] == Splice(old(view[..]), o, SampleBytes(x))
  {
    var s := Clamp(x);
    SetInt16(view, o, if s < 0.0 then s * 32768.0 else s * 32767.0);
  }

  /** One more sample appends its two bytes. */
  lemma PcmBytesStep(input: seq<real>, i: nat)
    requires i < |input|
    ensures PcmBytes(input[..i + 1]) == PcmBytes(input[..i]) + SampleBytes(input[i])
  {
    assert input[..i + 1][..i] == input[..i];
  }

  /** The first three header writes of createWavBuffer: `RIFF`, the RIFF size, `WAVE`. */
  method WriteRiffDescriptor(view: array<Byte>, n: nat)
    requires 12 <= view.Length
    modifies view
    ensures view[..] == Splice(old(view[..]), 0, RiffDescriptor(n))
  {
    ghost var start := view[..];
    WriteString(view, 0, "RIFF");
    SetUint32(view, 4, 36 + n * 2);
    SpliceTwice(start, 0, AsciiBytes("RIFF"), U32(36 + n * 2));
    WriteString(view, 8, "WAVE");
    SpliceTwice(start, 0, AsciiBytes("RIFF") + U32(36 + n * 2), AsciiBytes("WAVE"));
  }

  /** The `fmt ` sub-chunk writes of createWavBuffer, at bytes 12 to 35. */
  method WriteFmtChunk(view: array<Byte>, sampleRate: int)
    requires 36 <= view.Length
    modifies view
    ensures view[..] == Splice(old(view[..]), 12, FmtChunk(sampleRate))
  {
    ghost var start := view[..];
    ghost var q: seq<Byte> := AsciiBytes("fmt ");
    WriteString(view, 12, "fmt ");
    SetUint32(view, 16, 16);
    SpliceTwice(start, 12, q, U32(16));
    q := q + U32(16);
    SetUint16(view, 20, 1);
    SpliceTwice(start, 12, q, U16(1));
    q := q + U16(1);
    SetUint16(view, 22, 1);
    SpliceTwice(start, 12, q, U16(1));
    q := q + U16(1);
    SetUint32(view, 24, sampleRate);
    SpliceTwice(start, 12, q, U32(sampleRate));
    q := q + U32(sampleRate);
    SetUint32(view, 28, sampleRate * 2);
    SpliceTwice(start, 12, q, U32(sampleRate * 2));
    q := q + U32(sampleRate * 2);
    SetUint16(view, 32, 2);
    SpliceTwice(start, 12, q, U16(2));
    q := q + U16(2);
    SetUint16(view, 34, 16);
    SpliceTwice(start, 12, q, U16(16));
    q := q + U16(16);
  }

  /** The last two header writes of createWavBuffer: `data` and the data size. */
  method WriteDataChunkHeader(view: array<Byte>, n: nat)
    requires 44 <= view.Length
    modifies view
    ensures view[..] == Splice(old(view[..]), 36, DataChunkHeader(n))
  {
    ghost var start := view[..];
    WriteString(view, 36, "data");
    SetUint32(view, 40, n * 2);
    SpliceTwice(start, 36, AsciiBytes("data"), U32(n * 2));
  }

  /**
   * createWavBuffer: a zero-filled buffer of 44 + 2n bytes, the header
   * fields written in order, then the samples from byte 44 on.
   */
  method CreateWavBuffer(audioData: seq<real>, sampleRate: int) returns (buffer: array<Byte>)
    ensures fresh(buffer)
    ensures buffer[..] == WavBytes(audioData, sampleRate)
  {
    var n := |audioData|;
    buffer := new Byte[HeaderSize + n * 2](_ => 0);
    var view := buffer;
    ghost var s0 := view[..];
    WriteRiffDescriptor(view, n);
    WriteFmtChunk(view, sampleRate);
    SpliceTwice(s0, 0, RiffDescriptor(n), FmtChunk(sampleRate));
    WriteDataChunkHeader(view, n);
    SpliceTwice(s0, 0, RiffDescriptor(n) + FmtChunk(sampleRate), DataChunkHeader(n));
    ghost var s3 := view[..];
    FloatTo16BitPCM(view, HeaderSize, audioData);
    assert s3[..HeaderSize] == WavHeader(n, sampleRate);
  }
}
