/**
 * The WAV-strategy preprocessing of js/audioProcessing.js: downmix the decoded
 * buffer to mono, optionally hand it to the platform resampler, and cut the
 * samples into runs of floor(5 MiB / 2) samples, each wrapped in its own
 * 44-byte WAV header.
 *
 * Decoding and resampling are Web Audio calls: the decoded buffer is an input
 * and the offline renderer is an uninterpreted function. Sample values are
 * exact reals; the rounding of Float32Array stores is not modelled.
 */
module AudioProcessing {
  import opened Common
  import opened Bytes
  import opened AudioUtils

  const BytesPerSample: nat := 2
  const MaxChunkSize: nat := 5 * 1024 * 1024
  const SamplesPerChunk: nat := MaxChunkSize / BytesPerSample
  const TargetSampleRate: nat := 16000

  /** A decoded Web Audio buffer: planar channels of `length` samples each. */
  datatype AudioBuffer = AudioBuffer(channels: seq<seq<real>>, length: nat, sampleRate: nat)

  /** What the platform guarantees of a decoded buffer: at least one channel, all of the same length. */
  predicate ValidBuffer(b: AudioBuffer)
  {
    |b.channels| >= 1 && forall c :: 0 <= c < |b.channels| ==> |b.channels[c]| == b.length
  }

  /** The sum of sample i over the first `count` channels, added in channel order. */
  function ChannelSum(channels: seq<seq<real>>, i: nat, count: nat): real
    requires count <= |channels|
    requires forall c :: 0 <= c < count ==> i < |channels[c]|
  {
    if count == 0 then 0.0 else ChannelSum(channels, i, count - 1) + channels[count - 1][i]
  }

  /** The mono signal: at every index, the mean over all channels. */
  function Downmix(b: AudioBuffer): seq<real>
    requires ValidBuffer(b)
  {
    seq(b.length, i requires 0 <= i < b.length => ChannelSum(b.channels, i, |b.channels|) / (|b.channels| as real))
  }

  /** A buffer's downmix keeps its length, and one channel comes through unchanged. */
  lemma DownmixShape(b: AudioBuffer)
    requires ValidBuffer(b)
    ensures |Downmix(b)| == b.length
    ensures |b.channels| == 1 ==> Downmix(b) == b.channels[0]
  {
    if |b.channels| == 1 {
      forall i | 0 <= i < b.length ensures Downmix(b)[i] == b.channels[0][i] {
        assert ChannelSum(b.channels, i, 1) == b.channels[0][i];
      }
    }
  }

  lemma {:induction false} ChannelSumBounds(channels: seq<seq<real>>, i: nat, count: nat)
    requires count <= |channels|
    requires forall c :: 0 <= c < count ==> i < |channels[c]| && -1.0 <= channels[c][i] <= 1.0
    ensures -(count as real) <= ChannelSum(channels, i, count) <= count as real
  {
    if count > 0 {
      ChannelSumBounds(channels, i, count - 1);
    }
  }

  /** Channels within full scale downmix to a signal within full scale. */
  lemma DownmixBounded(b: AudioBuffer)
    requires ValidBuffer(b)
    requires forall c, i :: 0 <= c < |b.channels| && 0 <= i < b.length ==> -1.0 <= b.channels[c][i] <= 1.0
    ensures forall i :: 0 <= i < |Downmix(b)| ==> -1.0 <= Downmix(b)[i] <= 1.0
  {
    var n := |b.channels| as real;
    forall i | 0 <= i < b.length ensures -1.0 <= Downmix(b)[i] <= 1.0 {
      ChannelSumBounds(b.channels, i, |b.channels|);
      var sum := ChannelSum(b.channels, i, |b.channels|);
      assert -n <= sum <= n;
      assert sum / n <= 1.0 by { assert sum <= n * 1.0; }
      assert -1.0 <= sum / n by { assert -1.0 * n <= sum; }
    }
  }

  /** Two channels [1, -1] and [0.5, 0.5] downmix to [0.75, -0.25]. */
  lemma DownmixExample()
    ensures Downmix(AudioBuffer([[1.0, -1.0], [0.5, 0.5]], 2, 44100)) == [0.75, -0.25]
  {
    var b := AudioBuffer([[1.0, -1.0], [0.5, 0.5]], 2, 44100);
    assert ChannelSum(b.channels, 0, 2) == 1.5;
    assert ChannelSum(b.channels, 1, 2) == -0.5;
  }

  /** convertToMono: for every index, sum the channels in order, then divide by their number. */
  method ConvertToMono(audioBuffer: AudioBuffer) returns (monoData: array<real>)
    requires ValidBuffer(audioBuffer)
    ensures fresh(monoData)
    ensures monoData[..] == Downmix(audioBuffer)
  {
    var numChannels := |audioBuffer.channels|;
    var length := audioBuffer.length;
    monoData := new real[length](_ => 0.0);
    var i := 0;
    while i < length
      invariant 0 <= i <= length
      invariant forall j :: 0 <= j < i ==> monoData[j] == Downmix(audioBuffer)[j]
    {
      var sum := 0.0;
      var channel := 0;
      while channel < numChannels
        invariant 0 <= channel <= numChannels
        invariant sum == ChannelSum(audioBuffer.channels, i, channel)
      {
        sum := sum + audioBuffer.channels[channel][i];
        channel := channel + 1;
      }
      monoData[i] := sum / (numChannels as real);
      i := i + 1;
    }
  }

  /** One WAV buffer per run of samples, in order. */
  function Wavs(slices: seq<seq<real>>, sampleRate: int): (r: seq<seq<Byte>>)
    ensures |r| == |slices|
  {
    seq(|slices|, j requires 0 <= j < |slices| => WavBytes(slices[j], sampleRate))
  }

  lemma WavsAppend(done: seq<seq<real>>, slice: seq<real>, sampleRate: int)
    ensures Wavs(done + [slice], sampleRate) == Wavs(done, sampleRate) + [WavBytes(slice, sampleRate)]
  {
  }

  /**
   * chunkAudioData: step i by samplesPerChunk and wrap each slice in its own
   * WAV buffer, so chunk j is the WAV of the j-th run of samplesPerChunk samples.
   */
  method ChunkAudioData(audioData: seq<real>, sampleRate: int) returns (chunks: seq<seq<Byte>>)
    ensures chunks == Wavs(Slices(audioData, SamplesPerChunk), sampleRate)
  {
    var k := SamplesPerChunk;
    var n := |audioData|;
    chunks := [];
    ghost var done: seq<seq<real>> := [];
    var i := 0;
    while i < n
      invariant chunks == Wavs(done, sampleRate)
      invariant Slices(audioData, k) == done + Slices(audioData[Min(i, n)..], k)
    {
      var chunkData := audioData[i..Min(i + k, n)];
      var wavBuffer := CreateWavBuffer(chunkData, sampleRate);
      SlicesLoopStep(audioData, i, done, k);
      WavsAppend(done, chunkData, sampleRate);
      chunks := chunks + [wavBuffer[..]];
      done := done + [chunkData];
      i := i + k;
    }
    assert audioData[Min(i, n)..] == [];
  }

  /** The samples preprocessAudio chunks: the downmix, passed through the resampler when downsampling. */
  function Processed(b: AudioBuffer, shouldDownsample: bool, resample: (seq<real>, nat, nat) -> seq<real>): seq<real>
    requires ValidBuffer(b)
  {
    if shouldDownsample then resample(Downmix(b), b.sampleRate, TargetSampleRate) else Downmix(b)
  }

  /**
   * The rate every chunk header declares is the decoded buffer's rate, in both
   * modes: after downsampling the headers name the original rate while the
   * samples were resampled to 16 kHz.
   */
  lemma ChunkHeaderRate(b: AudioBuffer, shouldDownsample: bool, resample: (seq<real>, nat, nat) -> seq<real>, j: nat)
    requires ValidBuffer(b)
    requires j < |Slices(Processed(b, shouldDownsample, resample), SamplesPerChunk)|
    ensures var wav := Wavs(Slices(Processed(b, shouldDownsample, resample), SamplesPerChunk), b.sampleRate)[j];
      DecodeLE(wav[24..28]) == ToUint32(b.sampleRate)
  {
    var s := Processed(b, shouldDownsample, resample);
    SlicesShape(s, SamplesPerChunk);
    WavChunk(Slices(s, SamplesPerChunk)[j], b.sampleRate);
  }

  // ----- what the chunks promise -----

  /** samplesPerChunk is 2621440 and the header is not subtracted: a full chunk is 5 MiB + 44 bytes. */
  lemma ChunkSizeConstants()
    ensures SamplesPerChunk == 2621440
    ensures HeaderSize + BytesPerSample * SamplesPerChunk == MaxChunkSize + 44
  {
  }

  /**
   * Every chunk is a standalone WAV: it decodes on its own to its own
   * samples at the given rate, its data size field is twice its sample
   * count, and it is at most 5 MiB + 44 bytes long.
   */
  lemma ChunkIsStandaloneWav(s: seq<real>, sampleRate: int, j: nat)
    requires j < |Slices(s, SamplesPerChunk)|
    ensures var slice := Slices(s, SamplesPerChunk)[j];
      var wav := WavBytes(slice, sampleRate);
      && 1 <= |slice| <= SamplesPerChunk
      && |wav| == HeaderSize + 2 * |slice| <= MaxChunkSize + HeaderSize
      && DecodeLE(wav[40..44]) == 2 * |slice|
      && DecodeWav(wav) == Some(WavInfo(ToUint32(sampleRate), Quantized(slice)))
  {
    SlicesShape(s, SamplesPerChunk);
    WavChunk(Slices(s, SamplesPerChunk)[j], sampleRate);
  }

  /** The WAV of one run of at most samplesPerChunk samples. */
  lemma WavChunk(slice: seq<real>, sampleRate: int)
    requires |slice| <= SamplesPerChunk
    ensures var wav := WavBytes(slice, sampleRate);
      && |wav| == HeaderSize + 2 * |slice| <= MaxChunkSize + HeaderSize
      && DecodeLE(wav[24..28]) == ToUint32(sampleRate)
      && DecodeLE(wav[40..44]) == 2 * |slice|
      && DecodeWav(wav) == Some(WavInfo(ToUint32(sampleRate), Quantized(slice)))
  {
    var wav := WavBytes(slice, sampleRate);
    assert wav[24..28] == WavHeader(|slice|, sampleRate)[24..28];
    WavBytesLength(slice, sampleRate);
    WavHeaderFields(|slice|, sampleRate);
    assert wav[40..44] == WavHeader(|slice|, sampleRate)[40..44];
    WavRoundTrip(slice, sampleRate);
  }

  lemma QuantizedConcat(a: seq<real>, b: seq<real>)
    ensures Quantized(a + b) == Quantized(a) + Quantized(b)
  {
  }

  /** The quantised samples of the slices of s, in slice order. */
  function DecodedSlices(slices: seq<seq<real>>): seq<seq<int>>
  {
    seq(|slices|, j requires 0 <= j < |slices| => Quantized(slices[j]))
  }

  lemma {:induction false} FlattenQuantized(slices: seq<seq<real>>)
    ensures Flatten(DecodedSlices(slices)) == Quantized(Flatten(slices))
  {
    if slices != [] {
      FlattenQuantized(slices[1..]);
      assert DecodedSlices(slices)[1..] == DecodedSlices(slices[1..]);
      QuantizedConcat(slices[0], Flatten(slices[1..]));
    }
  }

  /**
   * Concatenating the samples each chunk decodes to, in chunk order, gives the
   * 16-bit quantisation of the whole input.
   */
  lemma ChunksReassemble(s: seq<real>)
    ensures Flatten(DecodedSlices(Slices(s, SamplesPerChunk))) == Quantized(s)
  {
    FlattenQuantized(Slices(s, SamplesPerChunk));
    SlicesFlatten(s, SamplesPerChunk);
  }
}
