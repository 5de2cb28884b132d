/**
 * The MP3 strategy of older/app.js: the mono signal is stored into an
 * Int16Array, fed to the encoder in blocks of 1152 samples, and the non-empty
 * encoder outputs (frames) are packed greedily into chunks of at most 5 MiB.
 *
 * The lamejs encoder is a foreign library: its state is a type parameter S,
 * and creating it, encoding one block and flushing it are function parameters.
 */
module Mp3 {
  import opened Common
  import opened Bytes
  import opened AudioProcessing

  const BlockSize: nat := 1152

  /** One Int8Array of encoder output. */
  type Frame = seq<int>

  /** The frames that make up one uploaded Blob. */
  type Mp3Chunk = seq<Frame>

  /** Each sample times 32767, stored into an Int16Array (truncated, then wrapped into 16 bits). */
  function Int16Samples(channelData: seq<real>): (r: seq<int>)
    ensures |r| == |channelData|
  {
    seq(|channelData|, i requires 0 <= i < |channelData| => ToInt16(channelData[i] * 32767.0))
  }

  /**
   * A signal within full scale is stored without wrap-around: each sample is
   * its value times 32767 truncated toward zero, within [-32767, 32767].
   */
  lemma Int16SamplesFullScale(channelData: seq<real>)
    requires forall i :: 0 <= i < |channelData| ==> -1.0 <= channelData[i] <= 1.0
    ensures forall i :: 0 <= i < |channelData| ==>
      Int16Samples(channelData)[i] == Truncate(channelData[i] * 32767.0) &&
      -32767 <= Int16Samples(channelData)[i] <= 32767
  {
    forall i | 0 <= i < |channelData|
      ensures Int16Samples(channelData)[i] == Truncate(channelData[i] * 32767.0)
      ensures -32767 <= Int16Samples(channelData)[i] <= 32767
    {
      var v := channelData[i] * 32767.0;
      assert -32767.0 <= v <= 32767.0;
    }
  }

  /** The encoder state and raw outputs after encoding the blocks in order. */
  function EncodeAll<S>(s: S, blocks: seq<seq<int>>, encodeBuffer: (S, seq<int>) -> (S, Frame)): (r: (S, seq<Frame>))
    ensures |r.1| == |blocks|
  {
    if blocks == [] then (s, [])
    else
      var prev := EncodeAll(s, blocks[..|blocks| - 1], encodeBuffer);
      var next := encodeBuffer(prev.0, blocks[|blocks| - 1]);
      (next.0, prev.1 + [next.1])
  }

  /** The outputs that are kept: the non-empty ones, in order. */
  function NonEmpty(outputs: seq<Frame>): (r: seq<Frame>)
    ensures |r| <= |outputs|
    ensures forall i :: 0 <= i < |r| ==> |r[i]| > 0
  {
    if outputs == [] then []
    else
      var last := outputs[|outputs| - 1];
      NonEmpty(outputs[..|outputs| - 1]) + (if |last| > 0 then [last] else [])
  }

  lemma NonEmptyAppend(outputs: seq<Frame>, x: Frame)
    ensures NonEmpty(outputs + [x]) == NonEmpty(outputs) + (if |x| > 0 then [x] else [])
  {
    assert (outputs + [x])[..|outputs|] == outputs;
  }

  /** Dropping empty outputs loses no byte: the kept frames concatenate to all the output. */
  lemma {:induction false} NonEmptyFlatten(outputs: seq<Frame>)
    ensures Flatten(NonEmpty(outputs)) == Flatten(outputs)
  {
    if outputs != [] {
      var init, last := outputs[..|outputs| - 1], outputs[|outputs| - 1];
      assert outputs == init + [last];
      NonEmptyFlatten(init);
      FlattenAppend(init, last);
      if |last| > 0 {
        FlattenAppend(NonEmpty(init), last);
      } else {
        assert last == [];
        calc {
          Flatten(NonEmpty(outputs));
          { assert NonEmpty(outputs) == NonEmpty(init); }
          Flatten(NonEmpty(init));
          Flatten(init);
          { assert Flatten(init) + last == Flatten(init); }
          Flatten(init + [last]);
        }
      }
    }
  }

  /** What convertToMp3 returns: the non-empty block outputs, then the flush output if non-empty. */
  function Mp3Data<S>(channelData: seq<real>, sampleRate: nat, newEncoder: nat -> S,
                      encodeBuffer: (S, seq<int>) -> (S, Frame), flush: S -> Frame): seq<Frame>
  {
    var run := EncodeAll(newEncoder(sampleRate), Slices(Int16Samples(channelData), BlockSize), encodeBuffer);
    NonEmpty(run.1 + [flush(run.0)])
  }

  /**
   * The encoder sees all samples in order, in blocks of 1152 with only the
   * last possibly shorter, and the frames carry every byte it produced:
   * the block outputs in order followed by the flush output.
   */
  lemma Mp3DataSpec<S>(channelData: seq<real>, sampleRate: nat, newEncoder: nat -> S,
                       encodeBuffer: (S, seq<int>) -> (S, Frame), flush: S -> Frame)
    ensures var blocks := Slices(Int16Samples(channelData), BlockSize);
      var run := EncodeAll(newEncoder(sampleRate), blocks, encodeBuffer);
      var frames := Mp3Data(channelData, sampleRate, newEncoder, encodeBuffer, flush);
      && Flatten(blocks) == Int16Samples(channelData)
      && (forall j :: 0 <= j < |blocks| - 1 ==> |blocks[j]| == BlockSize)
      && (|blocks| > 0 ==> 1 <= |blocks[|blocks| - 1]| <= BlockSize)
      && Flatten(frames) == Flatten(run.1) + flush(run.0)
      && |frames| <= |blocks| + 1
      && (forall i :: 0 <= i < |frames| ==> |frames[i]| > 0)
  {
    var samples := Int16Samples(channelData);
    var blocks := Slices(samples, BlockSize);
    var run := EncodeAll(newEncoder(sampleRate), blocks, encodeBuffer);
    SlicesFlatten(samples, BlockSize);
    SlicesShape(samples, BlockSize);
    NonEmptyFlatten(run.1 + [flush(run.0)]);
    FlattenAppend(run.1, flush(run.0));
  }

  lemma EncodeStep<S>(s: S, blocks: seq<seq<int>>, block: seq<int>, encodeBuffer: (S, seq<int>) -> (S, Frame))
    ensures var prev := EncodeAll(s, blocks, encodeBuffer);
      var next := encodeBuffer(prev.0, block);
      EncodeAll(s, blocks + [block], encodeBuffer) == (next.0, prev.1 + [next.1])
  {
    assert (blocks + [block])[..|blocks|] == blocks;
  }

  /** The Int16Array of convertToMp3: element i is sample i times 32767, as stored by ToInt16. */
  method ToInt16Array(channelData: seq<real>) returns (samples: array<int>)
    ensures fresh(samples)
    ensures samples[..] == Int16Samples(channelData)
  {
    samples := new int[|channelData|];
    var i := 0;
    while i < |channelData|
      invariant 0 <= i <= |channelData|
      invariant forall j :: 0 <= j < i ==> samples[j] == ToInt16(channelData[j] * 32767.0)
    {
      samples[i] := ToInt16(channelData[i] * 32767.0);
      i := i + 1;
    }
  }

  /**
   * The block loop of convertToMp3: encode samples.subarray(i, i + 1152) for
   * i = 0, 1152, ... and keep the non-empty outputs. Returns the encoder's
   * final state with the kept frames.
   */
  method EncodeBlocks<S>(samples: array<int>, encoder: S, encodeBuffer: (S, seq<int>) -> (S, Frame))
    returns (mp3encoder: S, mp3Data: seq<Frame>)
    ensures var run := EncodeAll(encoder, Slices(samples[..], BlockSize), encodeBuffer);
      mp3encoder == run.0 && mp3Data == NonEmpty(run.1)
  {
    ghost var all := samples[..];
    mp3encoder := encoder;
    mp3Data := [];
    ghost var done: seq<seq<int>> := [];
    ghost var outputs: seq<Frame> := [];
    var i := 0;
    while i < samples.Length
      invariant samples[..] == all
      invariant Slices(all, BlockSize) == done + Slices(all[Min(i, |all|)..], BlockSize)
      invariant EncodeAll(encoder, done, encodeBuffer) == (mp3encoder, outputs)
      invariant mp3Data == NonEmpty(outputs)
    {
      var sampleChunk := samples[i..Min(i + BlockSize, samples.Length)];
      assert sampleChunk == all[i..Min(i + BlockSize, |all|)];
      SlicesLoopStep(all, i, done, BlockSize);
      EncodeStep(encoder, done, sampleChunk, encodeBuffer);
      var encoded := encodeBuffer(mp3encoder, sampleChunk);
      var mp3buf := encoded.1;
      mp3encoder := encoded.0;
      NonEmptyAppend(outputs, mp3buf);
      if |mp3buf| > 0 {
        mp3Data := mp3Data + [mp3buf];
      }
      done := done + [sampleChunk];
      outputs := outputs + [mp3buf];
      i := i + BlockSize;
    }
    assert all[Min(i, |all|)..] == [];
    assert Slices(all, BlockSize) == done;
  }

  /**
   * convertToMp3: store the samples into an Int16Array, encode them block by
   * block keeping the non-empty outputs, then flush and keep a non-empty
   * flush output.
   */
  method ConvertToMp3<S>(channelData: seq<real>, sampleRate: nat, newEncoder: nat -> S,
                         encodeBuffer: (S, seq<int>) -> (S, Frame), flush: S -> Frame)
    returns (mp3Data: seq<Frame>)
    ensures mp3Data == Mp3Data(channelData, sampleRate, newEncoder, encodeBuffer, flush)
  {
    var samples := ToInt16Array(channelData);
    var mp3encoder;
    mp3encoder, mp3Data := EncodeBlocks(samples, newEncoder(sampleRate), encodeBuffer);
    var mp3buf := flush(mp3encoder);
    ghost var run := EncodeAll(newEncoder(sampleRate), Slices(samples[..], BlockSize), encodeBuffer);
    NonEmptyAppend(run.1, mp3buf);
    if |mp3buf| > 0 {
      mp3Data := mp3Data + [mp3buf];
    }
  }

  /** The byte size of a chunk: the total length of its frames. */
  function Size(chunk: Mp3Chunk): nat
  {
    |Flatten(chunk)|
  }

  /**
   * The per-chunk conditions of a greedy packing: each chunk is at most 5 MiB
   * unless it is a single frame; every chunk after the first is non-empty
   * and was closed only because its successor's first frame would not fit.
   */
  predicate ChunksOk(chunks: seq<Mp3Chunk>)
  {
    && (forall j :: 0 <= j < |chunks| ==> Size(chunks[j]) <= MaxChunkSize || |chunks[j]| == 1)
    && (forall j :: 0 < j < |chunks| ==> chunks[j] != [] && Size(chunks[j - 1]) + |chunks[j][0]| > MaxChunkSize)
  }

  /**
   * What chunkMp3Data promises of its chunks: their frames, in order, are
   * the input frames; no input gives no chunks; the conditions of ChunksOk;
   * and the first chunk is empty exactly when the first frame alone exceeds
   * 5 MiB.
   */
  predicate GreedyPacking(chunks: seq<Mp3Chunk>, frames: seq<Frame>)
  {
    && Flatten(chunks) == frames
    && (chunks == [] <==> frames == [])
    && ChunksOk(chunks)
    && ((chunks != [] && chunks[0] == []) <==> (frames != [] && |frames[0]| > MaxChunkSize))
  }

  lemma SizeAppend(chunk: Mp3Chunk, frame: Frame)
    ensures Size(chunk + [frame]) == Size(chunk) + |frame|
  {
    FlattenAppend(chunk, frame);
  }

  /** Closing the open chunk because the next frame does not fit keeps the conditions. */
  lemma CloseChunk(chunks: seq<Mp3Chunk>, current: Mp3Chunk, data: Frame)
    requires ChunksOk(chunks + [current])
    requires Size(current) + |data| > MaxChunkSize
    ensures ChunksOk((chunks + [current]) + [[] + [data]])
  {
    var c := (chunks + [current]) + [[] + [data]];
    assert c[|c| - 1] == [data];
    forall j | 0 <= j < |c| ensures Size(c[j]) <= MaxChunkSize || |c[j]| == 1 {
      if j < |c| - 1 { assert c[j] == (chunks + [current])[j]; }
    }
    forall j | 0 < j < |c| ensures c[j] != [] && Size(c[j - 1]) + |c[j][0]| > MaxChunkSize {
      if j < |c| - 1 { assert c[j] == (chunks + [current])[j] && c[j - 1] == (chunks + [current])[j - 1]; }
    }
  }

  /** Adding a frame that fits to the open chunk keeps the conditions. */
  lemma ExtendChunk(chunks: seq<Mp3Chunk>, current: Mp3Chunk, data: Frame)
    requires ChunksOk(chunks + [current])
    requires chunks != [] ==> current != []
    requires Size(current) + |data| <= MaxChunkSize
    ensures ChunksOk(chunks + [current + [data]])
  {
    var c := chunks + [current + [data]];
    SizeAppend(current, data);
    forall j | 0 <= j < |c| ensures Size(c[j]) <= MaxChunkSize || |c[j]| == 1 {
      if j < |c| - 1 { assert c[j] == (chunks + [current])[j]; }
    }
    forall j | 0 < j < |c| ensures c[j] != [] && Size(c[j - 1]) + |c[j][0]| > MaxChunkSize {
      if j < |c| - 1 {
        assert c[j] == (chunks + [current])[j] && c[j - 1] == (chunks + [current])[j - 1];
      } else {
        assert (chunks + [current])[j] == current;
        assert c[j - 1] == (chunks + [current])[j - 1] && c[j][0] == current[0];
      }
    }
  }

  /** chunkMp3Data: greedy packing, closing the current chunk when the next frame would overflow it. */
  method ChunkMp3Data(mp3Data: seq<Frame>) returns (chunks: seq<Mp3Chunk>)
    ensures GreedyPacking(chunks, mp3Data)
  {
    chunks := [];
    var currentChunk: Mp3Chunk := [];
    var currentSize := 0;
    var t := 0;
    while t < |mp3Data|
      invariant 0 <= t <= |mp3Data|
      invariant Flatten(chunks) + currentChunk == mp3Data[..t]
      invariant currentSize == Size(currentChunk)
      invariant t == 0 ==> chunks == [] && currentChunk == []
      invariant t > 0 ==> currentChunk != []
      invariant ChunksOk(chunks + [currentChunk])
      invariant (chunks != [] && chunks[0] == []) <==> (t > 0 && |mp3Data[0]| > MaxChunkSize)
    {
      var data := mp3Data[t];
      if currentSize + |data| > MaxChunkSize {
        CloseChunk(chunks, currentChunk, data);
        FlattenAppend(chunks, currentChunk);
        chunks := chunks + [currentChunk];
        currentChunk := [];
        currentSize := 0;
      } else {
        ExtendChunk(chunks, currentChunk, data);
      }
      SizeAppend(currentChunk, data);
      currentChunk := currentChunk + [data];
      currentSize := currentSize + |data|;
      assert mp3Data[..t + 1] == mp3Data[..t] + [data];
      t := t + 1;
    }
    assert mp3Data[..t] == mp3Data;
    if |currentChunk| > 0 {
      FlattenAppend(chunks, currentChunk);
      chunks := chunks + [currentChunk];
    }
  }
}
