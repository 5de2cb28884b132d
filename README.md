# Audio Transcription Tool — a Dafny model of its core

The Audio Transcription Tool is a browser application that sends a
recording to the Groq speech-to-text API and shows the transcript. It has
two front ends, and this project models both of them:

- **The current front end** (`js/app.js`, `js/audioProcessing.js`,
  `js/audioUtils.js`). It decodes the file and mixes it down to mono. It
  can resample to 16 kHz. It then cuts the signal into WAV files of at most
  5 MiB of 16-bit PCM, which it uploads one after another. Each upload gets
  one request, with no retry.
- **The older front end** (`older/app.js`). It encodes the mono signal to
  MP3 in blocks of 1152 samples and packs the encoded frames greedily into
  5 MiB chunks. Each chunk's request is retried: an HTTP 429 waits
  2^attempt seconds, and any other failure is retried at once, up to three
  attempts.

The model is made of these modules:

| module | file | what it holds |
|---|---|---|
| `Common` | `common.dfy` | Option and Result, flattening, fixed-stride slicing, decimal formatting, `String.prototype.trim` |
| `Bytes` | `bytes.dfy` | the `DataView` setters used by the WAV writer (little-endian, 32-bit wrap-around, `setInt16` conversion), as methods on a byte array |
| `AudioUtils` | `audio_utils.dfy` | `createWavBuffer`, `writeString` and `floatTo16BitPCM` (exported by js/audioUtils.js and copied word for word into js/audioProcessing.js), and the WAV layout they produce, with a decoder to state round trips |
| `AudioProcessing` | `audio_processing.dfy` | mono down-mixing and WAV chunking for the current front end |
| `Mp3` | `mp3.dfy` | `convertToMp3` and `chunkMp3Data` of the older front end |
| `DebugLog` | `debug_log.dfy` | the older front end's log messages and its debug log, which keeps the last 100 |
| `Retry` | `retry.dfy` | `transcribeChunk`'s retry policy, in closed form |
| `Transcript` | `transcript.dfy` | progress percentages and the accumulated transcript text |
| `OlderApp` | `older_app.dfy` | the older front end's component state as a class, and the functions that specify its runs |
| `App` | `app.dfy` | the current front end's component state as a class, and the functions that specify its runs |

The component state of each front end is a `class`, and each handler is a
method that updates its fields. A ghost field `logged` records every
message logged since the log was last cleared. The class invariant ties the
visible debug log to it:

- in the older front end, the visible log is the window onto the last 100
  messages;
- in the current front end, it is every message when debug mode is on, and
  nothing when it is off.

Some behaviour comes from outside the program. Each such input is a
parameter of the model:

- the browser's decoder gives a decoded buffer or the error it threw;
- the resampler is a function;
- the lamejs encoder is a state type with three functions: create, encode a
  block, flush;
- the server is a function from the request (and, in the older front end,
  the attempt) to its response;
- a click on Cancel is a predicate on the chunk index before whose check it
  happened.

A transcription run is a method whose loop is proved against functions that
give its whole effect in closed form:

- the index at which the loop stops;
- the text it accumulates;
- the error it ends with;
- the log it writes.

Lemmas about those functions state what the program promises: the order in
which chunks are requested, when a run completes, and the round trips of
the binary formats.

## Model

| member | source | states |
|---|---|---|
| Common.SlicesFlatten | js/audioProcessing.js:59-63 | the slices the chunking loop takes, put back together in order, are the whole signal |
| Common.SlicesShape | js/audioProcessing.js:59-63 | an empty signal gives no slice; otherwise there are ceil(length / k) slices, all but the last exactly k long and the last 1 to k long |
| Common.TrimSpec | older/app.js:265 | `trim()` leaves the input with only white space removed on either side, and its result neither starts nor ends with white space |
| Common.TrimStart | older/app.js:265 | removing leading white space never lengthens the text |
| Common.TrimStartSpec | older/app.js:265 | what is left after removing leading white space is a suffix of the text, preceded only by white space, and does not start with white space |
| Common.TrimEnd | older/app.js:265 | removing trailing white space never lengthens the text |
| Common.TrimEndSpec | older/app.js:265 | what is left after removing trailing white space is a prefix of the text, followed only by white space, and does not end with white space |
| Common.NatToString | older/app.js:256-257 | the chunk counters print as non-empty digit strings without a leading zero |
| Bytes.LittleEndianRoundTrip | js/audioUtils.js:8-30 | the little-endian bytes of a value that fits in the width decode back to it |
| Bytes.LittleEndian | js/audioUtils.js:8-30 | a field of the given width has exactly that many bytes |
| Bytes.DecodeLE | js/audioUtils.js:8-30 | a field of w bytes reads as a value below 256^w |
| Bytes.Splice | js/audioUtils.js:42-53 | writing into the buffer keeps its length |
| Bytes.DecodeInt16 | js/audioUtils.js:51 | two bytes read as a signed 16-bit value |
| Bytes.DecodeLEInjective | js/audioUtils.js:8-30 | two fields of the same width that decode to the same value are the same bytes |
| Bytes.SpliceTwice | js/audioUtils.js:42-53 | writing a then b right after it is writing a + b |
| Bytes.ToUint32 | js/audioUtils.js:8 | `setUint32` stores its value modulo 2^32, which is the value itself when it is in range |
| Bytes.SetUint8 | js/audioUtils.js:44 | `setUint8` changes exactly one byte, to the value modulo 256 |
| Bytes.SetUint16 | js/audioUtils.js:16-18 | `setUint16(..., true)` writes the value modulo 2^16 as two little-endian bytes and changes nothing else |
| Bytes.SetUint32 | js/audioUtils.js:8 | `setUint32(..., true)` writes the value modulo 2^32 as four little-endian bytes and changes nothing else |
| Bytes.Truncate | js/audioUtils.js:51 | the conversion to an integer truncates toward zero: the result lies within 1 of the value, on the side of zero |
| Bytes.ToInt16 | js/audioUtils.js:51 | `setInt16` keeps the truncated value modulo 2^16 in the signed 16-bit range, and keeps it unchanged when it is already in range |
| Bytes.Int16RoundTrip | js/audioUtils.js:51 | a signed 16-bit value stored in two's complement reads back as itself |
| Bytes.SetInt16 | js/audioUtils.js:51 | `setInt16(..., true)` writes the two's-complement little-endian bytes of the converted value and changes nothing else |
| AudioUtils.Clamp | js/audioUtils.js:50 | the clamped sample lies in [-1, 1] |
| AudioUtils.Quantize | js/audioUtils.js:50-51 | a sample becomes a 16-bit value: full scale maps to 32767 or -32768, zero to zero, and the sign is kept |
| AudioUtils.QuantizeMonotonic | js/audioUtils.js:50-51 | a louder sample never gives a smaller 16-bit value |
| AudioUtils.TruncateMonotonic | js/audioUtils.js:51 | truncation toward zero never reverses the order of two values |
| AudioUtils.PcmBytes | js/audioUtils.js:48-53 | two bytes per sample |
| AudioUtils.Quantized | js/audioUtils.js:48-53 | one 16-bit value per sample |
| AudioUtils.DecodePcm | js/audioUtils.js:48-53 | one sample per two bytes |
| AudioUtils.AsciiBytes | js/audioUtils.js:42-46 | one byte per character of a tag |
| AudioUtils.RiffDescriptor | js/audioUtils.js:6-10 | the RIFF descriptor is 12 bytes |
| AudioUtils.FmtChunk | js/audioUtils.js:12-26 | the format chunk is 24 bytes |
| AudioUtils.DataChunkHeader | js/audioUtils.js:28-30 | the data chunk header is 8 bytes |
| AudioUtils.WavHeader | js/audioUtils.js:2-30 | the header is 44 bytes |
| AudioUtils.PcmBytesStep | js/audioUtils.js:49-51 | one more sample appends its two bytes |
| AudioUtils.SampleRoundTrip | js/audioUtils.js:51 | the two bytes written for a sample decode to its quantized value |
| AudioUtils.PcmRoundTrip | js/audioUtils.js:48-53 | the PCM bytes of a signal decode to its quantized samples, in order |
| AudioUtils.PcmBytesAt | js/audioUtils.js:49-51 | sample i occupies bytes 2i and 2i+1 of the PCM data |
| AudioUtils.WavBytesLength | js/audioUtils.js:2 | the WAV file is 44 bytes plus 2 per sample |
| AudioUtils.U32RoundTrip | js/audioUtils.js:8 | a 32-bit header field decodes to its value modulo 2^32 |
| AudioUtils.U16RoundTrip | js/audioUtils.js:16 | a 16-bit header field decodes to its value |
| AudioUtils.RiffDescriptorFields | js/audioUtils.js:6-10 | the first 12 bytes are "RIFF", 36 + 2n modulo 2^32, "WAVE" |
| AudioUtils.FmtChunkFields | js/audioUtils.js:12-26 | the format chunk is "fmt ", size 16, PCM, mono, the sample rate, twice the rate as byte rate, block align 2, 16 bits |
| AudioUtils.DataChunkHeaderFields | js/audioUtils.js:28-30 | the data chunk header is "data" and 2n modulo 2^32 |
| AudioUtils.WavHeaderFields | js/audioUtils.js:5-30 | every field of the 44-byte header, at the offset the writer uses, with the tags' ASCII bytes |
| AudioUtils.TagBytes | js/audioUtils.js:42-46 | the four tags are the ASCII codes of their characters |
| AudioUtils.WavRoundTrip | js/audioUtils.js:1-35 | a WAV file whose size field does not wrap decodes to the sample rate (modulo 2^32) and the quantized samples |
| AudioUtils.ByteRateWraps | js/audioUtils.js:22 | reducing the rate modulo 2^32 before doubling gives the same byte-rate field |
| AudioUtils.WriteString | js/audioUtils.js:42-46 | the buffer afterwards is the old one with the string's character codes at the offset |
| AudioUtils.FloatTo16BitPCM | js/audioUtils.js:48-53 | the buffer afterwards is the old one with the samples' PCM bytes at the offset |
| AudioUtils.WriteSample | js/audioUtils.js:50-51 | one pass of the PCM loop writes the sample's two bytes at the offset |
| AudioUtils.WriteRiffDescriptor | js/audioUtils.js:6-10 | the first 12 bytes become the RIFF descriptor |
| AudioUtils.WriteFmtChunk | js/audioUtils.js:12-26 | bytes 12 to 35 become the format chunk |
| AudioUtils.WriteDataChunkHeader | js/audioUtils.js:28-30 | bytes 36 to 43 become the data chunk header |
| AudioUtils.CreateWavBuffer | js/audioUtils.js:1-35 | a fresh buffer holding exactly the WAV file of the samples |
| AudioProcessing.ConvertToMono | js/audioProcessing.js:25-39 | a fresh array whose sample i is the mean of the channels' samples i |
| AudioProcessing.DownmixShape | js/audioProcessing.js:25-39 | the mono signal has the buffer's length, and a mono input comes back unchanged |
| AudioProcessing.ChannelSumBounds | js/audioProcessing.js:31-34 | the sum over c channels of samples in [-1, 1] lies in [-c, c] |
| AudioProcessing.DownmixBounded | js/audioProcessing.js:25-39 | mixing samples in [-1, 1] gives samples in [-1, 1] |
| AudioProcessing.DownmixExample | js/audioProcessing.js:35 | two channels [1, -1] and [0.5, 0.5] mix to [0.75, -0.25] |
| AudioProcessing.WavsAppend | js/audioProcessing.js:61-62 | one more slice adds its WAV file at the end of the chunks |
| AudioProcessing.Wavs | js/audioProcessing.js:59-63 | one WAV file per slice |
| AudioProcessing.ChunkAudioData | js/audioProcessing.js:53-66 | the chunks are the WAV files of the consecutive slices of 2621440 samples, in order |
| AudioProcessing.ChunkSizeConstants | js/audioProcessing.js:54-56 | a chunk holds 2621440 samples, which is 5 MiB of PCM after the 44-byte header |
| AudioProcessing.ChunkIsStandaloneWav | js/audioProcessing.js:59-63 | every chunk holds 1 to 2621440 samples and is a WAV file of its own, with its own data size, that decodes to its slice |
| AudioProcessing.WavChunk | js/audioProcessing.js:61 | a slice of at most 2621440 samples makes a WAV file of at most 5 MiB + 44 bytes with the given rate and data size |
| AudioProcessing.ChunkHeaderRate | js/audioProcessing.js:19 | every chunk's header carries the decoded buffer's rate, even when the signal was resampled to 16 kHz |
| AudioProcessing.QuantizedConcat | js/audioProcessing.js:59-63 | quantizing two parts is quantizing the whole |
| AudioProcessing.FlattenQuantized | js/audioProcessing.js:59-63 | the decoded slices, put together, are the quantized concatenation of the slices |
| AudioProcessing.ChunksReassemble | js/audioProcessing.js:53-66 | decoding every chunk and putting the samples together gives the whole quantized signal: no sample is lost, repeated or reordered |
| Mp3.Int16Samples | older/app.js:131-136 | one 16-bit sample per input sample |
| Mp3.Int16SamplesFullScale | older/app.js:134-136 | for inputs in [-1, 1], each stored sample is the input times 32767 truncated, within [-32767, 32767] |
| Mp3.NonEmpty | older/app.js:143-145 | only non-empty encoder outputs are kept, in order |
| Mp3.NonEmptyFlatten | older/app.js:143-145 | dropping empty outputs loses no byte |
| Mp3.EncodeStep | older/app.js:140-146 | encoding one more block threads the encoder state and appends its output |
| Mp3.EncodeAll | older/app.js:140-146 | one encoder output per block |
| Mp3.Mp3DataSpec | older/app.js:129-154 | the blocks are the samples in order, all 1152 long but the last, which is 1 to 1152 long; the frames are every encoded byte then the flushed bytes, at most one per block plus one, and none empty |
| Mp3.ToInt16Array | older/app.js:131-136 | a fresh array of the stored samples |
| Mp3.EncodeBlocks | older/app.js:138-146 | the encoder state after the blocks of 1152 samples, and their non-empty outputs |
| Mp3.ConvertToMp3 | older/app.js:129-154 | the frames are those of the specification Mp3Data |
| Mp3.SizeAppend | older/app.js:168-169 | adding a frame adds its length to the chunk's size |
| Mp3.CloseChunk | older/app.js:163-168 | closing the current chunk when the next frame would pass 5 MiB keeps the packing conditions |
| Mp3.ExtendChunk | older/app.js:168-169 | adding a frame that fits keeps the packing conditions |
| Mp3.ChunkMp3Data | older/app.js:156-177 | the chunks hold the frames in order; none if there is no frame; each at most 5 MiB unless a single frame; each later chunk was opened only because its first frame did not fit in the previous one; the first chunk is empty exactly when the first frame alone exceeds 5 MiB |
| DebugLog.Window | older/app.js:45-47 | the log holds at most 100 entries |
| DebugLog.WindowIsSuffix | older/app.js:42-49 | the log is the most recent part of what was logged |
| DebugLog.WindowOfSuffix | older/app.js:45-47 | entries older than the last 100 no longer matter |
| DebugLog.WindowOfWindow | older/app.js:42-49 | pushing and shifting one at a time is the same as keeping the last 100 of everything logged |
| DebugLog.WindowPush | older/app.js:44-47 | a push adds the entry at the end and shifts out the oldest only when the log was full |
| Retry.Pow2 | older/app.js:201 | powers of two are positive |
| Retry.FirstOk | older/app.js:182-210 | the first attempt that got a successful response, if any |
| Retry.FirstOkSpec | older/app.js:182-210 | no attempt before the first success succeeded |
| Retry.FirstOkStable | older/app.js:182-210 | allowing more attempts does not change which one succeeds first |
| Retry.FirstOkNone | older/app.js:182-210 | when no attempt succeeds, there is no first success |
| Retry.Attempts | older/app.js:182 | at most `retries` requests are made |
| Retry.Then | older/app.js:199-216 | prepending waits and log entries keeps the result |
| Retry.ThenThen | older/app.js:199-216 | prepending in two steps is prepending once |
| Retry.ThenDone | older/app.js:199-216 | a finished outcome is its waits and log |
| Retry.RetryStep | older/app.js:199-216 | a 429 waits 2^attempt seconds and logs it before the next attempt; another failure before the last attempt logs the failed attempt |
| Retry.SucceedsAt | older/app.js:209-210 | the first success returns its text after that many attempts |
| Retry.ThrowsAt | older/app.js:206-214 | a failure other than 429 on the last attempt is rethrown with its message |
| Retry.ExhaustedAt | older/app.js:182-218 | when the last attempt is rate limited, the loop ends and yields undefined |
| Retry.ClosedFormAtEnd | older/app.js:182-218 | the closed form holds where the loop ends |
| Retry.ClosedFormAfterWait | older/app.js:200-204 | the closed form holds across a 429 wait |
| Retry.ClosedFormAfterRetry | older/app.js:211-216 | the closed form holds across a caught failure |
| Retry.RetryFromClosedForm | older/app.js:181-218 | from any attempt on, the loop gives the closed form's result, waits and log |
| Retry.RetryClosedForm | older/app.js:181-218 | transcribeChunk's result, waits and log are the closed form |
| Retry.Pow2Increasing | older/app.js:201 | later attempts wait longer |
| Retry.RetryWaitsLimited | older/app.js:200-203 | every wait is 2^j seconds for an attempt j that was rate limited |
| Retry.RetryWaitsComplete | older/app.js:200-203 | every rate-limited attempt waits |
| Retry.RetryWaitsBelow | older/app.js:201 | the waits before attempt m are shorter than 2^m seconds |
| Retry.RetryWaitsIncreasing | older/app.js:201 | the waits strictly increase |
| Retry.RetryWaitsSpec | older/app.js:199-205 | the waits are exactly the waits of the rate-limited attempts, one each, strictly increasing |
| Retry.RetryExample | older/app.js:181-218 | two 429s and then a success return the text after waiting 1 s and 2 s |
| Retry.AllRateLimited | older/app.js:182-218 | when every attempt is rate limited, the result is undefined after waiting 2^j seconds for each attempt j |
| Retry.AllRateLimitedDefault | older/app.js:181-218 | with the default three attempts, that is 1 s, 2 s and 4 s and then undefined |
| Retry.RethrowOnlyOnLast | older/app.js:211-214 | transcribeChunk throws exactly when every attempt failed and the last failure was not a 429; it then throws that failure's message |
| Retry.RetryLogsNotices | older/app.js:202-215 | transcribeChunk logs only rate-limit waits and failed attempts |
| Transcript.Progress | older/app.js:262 | progress lies in [0, 100] and is 100 exactly at the last chunk |
| Transcript.Spaced | older/app.js:260 | the accumulated text of at least one chunk ends with a space |
| Transcript.SpacedAppend | older/app.js:260 | one more chunk appends its text and a space |
| Transcript.SpacedIsJoin | older/app.js:260 | the accumulated text is the texts joined by single spaces, plus a trailing space |
| Transcript.JoinEnds | older/app.js:260 | the joined text starts with the first text and ends with the last |
| Transcript.TrimStartKeeps | older/app.js:265 | trimming keeps a start that is not white space |
| Transcript.TrimEndDropsSpace | older/app.js:265 | trimming drops the single trailing space after a text that does not end in white space |
| Transcript.TrimSpaced | older/app.js:265 | trimming the accumulated text gives the texts joined by single spaces, when the first and the last have no white space at their outer ends |
| Common.FirstStop | older/app.js:249-263 | the index at which the chunk loop stops lies within the chunks |
| Common.FirstStopSpec | js/app.js:53-87 | the loop passes every chunk before its stop index and stops at it: a cancel before it, or a failed request |
| Common.FirstStopAt | older/app.js:249-263 | a loop that passed the first i chunks and stops at chunk i (or ends there) stops there over all of them |
| OlderApp.Texts | older/app.js:259-260 | one text per chunk passed |
| OlderApp.AccumulatedIsSpaced | older/app.js:248-261 | the streamed transcript is each chunk's text followed by a space, in order |
| OlderApp.TextsAt | older/app.js:259-260 | the j-th text is chunk j's |
| OlderApp.ChunkAnnounced | older/app.js:255-259 | the pass for chunk i announces exactly chunk i + 1 |
| OlderApp.ChunksAnnounced | older/app.js:249-263 | the first k passes announce chunks 1 to k, in order |
| OlderApp.LoopAnnounced | older/app.js:249-263 | the loop requests the chunks in order, and none after the one it stops at: it announces chunks 1 to the number requested |
| OlderApp.TranscriptIsJoined | older/app.js:260-265 | the transcript shown is the chunks' texts joined by single spaces when the outer texts are not padded |
| OlderApp.CancelledAt | older/app.js:250-253 | a cancel before chunk i stops the loop there without error, after the cancel notices |
| OlderApp.ChunkThrowsAt | older/app.js:259 | a request of chunk i that throws stops the loop there with its error, after that chunk's log |
| OlderApp.RunFails | older/app.js:242-272 | a run ends with an error exactly when decoding failed, or a request threw before the user cancelled |
| OlderApp.CancelShowsComplete | older/app.js:249-267 | a cancelled run logs the cancellation, then still logs completion and shows 'Transcription complete' |
| OlderApp.Transcriber.constructor | older/app.js:5-24 | the initial state, with the key and flags read from storage |
| OlderApp.Transcriber.AddDebugLog | older/app.js:42-49 | in debug mode the entry is pushed and the log keeps at most the last 100; otherwise the log is unchanged |
| OlderApp.Transcriber.HandleFileUpload | older/app.js:51-54 | the chosen file is stored and its name logged; with no file chosen, the empty selection is stored and nothing is logged |
| OlderApp.Transcriber.CancelTranscription | older/app.js:281-285 | clears the flag, shows 'Transcription canceled' and logs it |
| OlderApp.Transcriber.NewTranscription | older/app.js:287-299 | clears the file, texts, status, error flag and counters; the log holds only the notice, in debug mode |
| OlderApp.Transcriber.PreprocessAudio | older/app.js:56-97 | yields the decoding failure, or the MP3 chunks of the processed signal encoded at the right rate; logs each step |
| OlderApp.Transcriber.TranscribeChunk | older/app.js:181-218 | the result, waits and log are those of the closed form of the retry policy |
| OlderApp.Transcriber.CancelAndStop | older/app.js:250-253 | the cancel, as the loop sees it: flag cleared, 'Transcription canceled' shown, both notices logged |
| OlderApp.Transcriber.TranscribeStep | older/app.js:254-259 | sets the chunk counter and status, logs the chunk, and requests it |
| OlderApp.Transcriber.ChunkPass | older/app.js:249-263 | one pass of the loop: it stops as the closed form says, or passes the chunk |
| OlderApp.Transcriber.RequestPass | older/app.js:254-262 | a request stops the loop when it throws, or appends the chunk's text and streams it |
| OlderApp.Transcriber.TranscribeChunks | older/app.js:248-263 | the loop stops at the stop index with the accumulated text, the loop's error and log; the flag is cleared exactly when it was cancelled |
| OlderApp.Transcriber.TranscribeFile | older/app.js:220-279 | no file or no key: the prompt is shown, flagged and logged, and the running flag, the texts and the counters are left as they were; otherwise the run is preprocessed and transcribed, ends with the status, error flag, transcript and log of the closed form, and resets the counters |
| OlderApp.Transcriber.RunTranscription | older/app.js:235-278 | from preprocessing on, the run ends as the closed form says |
| OlderApp.Transcriber.FinishTranscription | older/app.js:243-278 | once preprocessing returned, success or failure, the run ends as the closed form says and the counters are reset |
| OlderApp.Transcriber.EndPreprocessingFailed | older/app.js:268-278 | a preprocessing failure is shown and logged as a transcription error |
| OlderApp.Transcriber.TranscribePreprocessed | older/app.js:243-278 | with the chunks preprocessed, the run ends as the closed form says |
| OlderApp.Transcriber.TranscribeAll | older/app.js:244-267 | the try block after preprocessing: start notice, loop, closing status and entry |
| OlderApp.Transcriber.BeginTranscription | older/app.js:235-240 | sets the flag and status and clears the texts |
| OlderApp.Transcriber.StartChunks | older/app.js:244-246 | sets the chunk total and status |
| OlderApp.Transcriber.EndTry | older/app.js:265-272 | completion shows the trimmed transcript; an error shows its message and sets the error flag |
| OlderApp.Transcriber.ResetCounters | older/app.js:273-278 | clears the flag and the counters |
| App.LoadSettings | js/app.js:7-11 | the key is the stored one or empty; each flag is set exactly when its stored item is "true" |
| App.StoreSettings | js/app.js:24-26 | only the three items are written |
| App.SettingsRoundTrip | js/app.js:7-11 | settings saved and read back are the same settings |
| App.Preprocessed | js/audioProcessing.js:1-23 | preprocessing fails exactly when decoding fails, with its message |
| App.Texts | js/app.js:83-84 | one text per chunk passed |
| App.TextsAt | js/app.js:83-84 | the j-th text is chunk j's `data.text` (empty for a failed answer, which never reaches it) |
| App.AccumulatedIsSpaced | js/app.js:52-85 | the transcript shown is each chunk's text followed by a space, in order |
| App.RequestAnnounced | js/app.js:58-81 | one request announces exactly its chunk |
| App.ChunksAnnounced | js/app.js:53-87 | the first k passes announce chunks 1 to k, in order |
| App.LoopAnnounced | js/app.js:53-87 | the loop requests the chunks in order, and none after the one it stops at |
| App.NoticesAnnounceNothing | js/app.js:53-58 | the cancellation notices logged after k passes announce no further chunk |
| App.CancelledAt | js/app.js:54-57 | a cancel before chunk i stops the loop there without error, after the cancel notices |
| App.FailsAt | js/app.js:78-81 | a failed response for chunk i stops the loop there with the HTTP error message |
| App.UnreadableStops | js/app.js:76-92 | an ok answer whose body is not JSON has its status logged, then ends the loop with the parse error's message |
| App.RunOutcome | js/app.js:40-98 | a run logs 'Transcription completed' exactly when decoding succeeded, every chunk was transcribed and no cancel was requested; it logs an error exactly when there was one; a completed run had every response succeed and no cancel |
| App.Transcriber.constructor | js/app.js:4-19 | the initial state, with the settings read from storage |
| App.Transcriber.Mounted | js/app.js:121-123 | logs the start |
| App.Transcriber.AddLog | js/app.js:30-35 | the message is kept exactly in debug mode |
| App.Transcriber.SaveSettings | js/app.js:23-29 | stores the settings, closes the dialog and logs the key length |
| App.Transcriber.HandleFileSelect | js/app.js:36-39 | the chosen file is stored and its name logged; with no file chosen, the empty selection is stored and nothing is logged |
| App.Transcriber.CancelTranscription | js/app.js:100-103 | sets the flag and logs it |
| App.Transcriber.ResetAll | js/app.js:105-113 | clears the file, text, progress and flags, and the log holds only the reset notice |
| App.Transcriber.NewTranscription | js/app.js:114-119 | clears the file, text and progress and logs it |
| App.Transcriber.PreprocessAudio | js/audioProcessing.js:1-23 | the chunks are the WAV files of the processed signal, or the decoding failure; each step is logged |
| App.Transcriber.RequestChunk | js/app.js:58-83 | the chunk's text; or the HTTP error with status and body; or the rejection's message; or, for an ok answer whose body is not JSON, the parse error after the status was logged; the status is logged unless the request was rejected |
| App.Transcriber.CancelAndStop | js/app.js:54-57 | the cancel, as the loop sees it: both notices logged |
| App.Transcriber.EndLoop | js/app.js:53-88 | a cancel after the last check leaves only its notice |
| App.Transcriber.ShowChunk | js/app.js:84-86 | appends the text and a space, shows it, and sets the progress to (i+1)/n of 100 |
| App.Transcriber.TranscribePass | js/app.js:53-87 | one pass of the loop: it stops as the closed form says, or passes the chunk |
| App.Transcriber.StopAtCancel | js/app.js:54-57 | a cancel stops the loop as the closed form says |
| App.Transcriber.RequestPass | js/app.js:58-86 | a request stops the loop on failure or shows the chunk |
| App.Transcriber.TranscribeChunks | js/app.js:52-90 | the loop ends at the stop index showing the accumulated text and progress, with the loop's error, cancel flag and log |
| App.Transcriber.TranscribeAudio | js/app.js:40-98 | no file: only the notice is logged; otherwise the run is preprocessed and transcribed, and ends with the transcript, progress and log of the closed form and both flags cleared |
| App.Transcriber.BeginTranscription | js/app.js:45-49 | sets the flag, clears progress, text and cancel flag, and logs the start |
| App.Transcriber.EndPreprocessingFailed | js/app.js:91-97 | a preprocessing failure is logged as a transcription error, and the flags cleared |
| App.Transcriber.TranscribePreprocessed | js/app.js:52-97 | with the chunks preprocessed, the run ends as the closed form says |
| App.Transcriber.EndTry | js/app.js:88-93 | logs the error, or completion unless a cancel was requested |

## Left out

- Decoding the file (FileReader, `decodeAudioData`) is the browser's work. It is a parameter holding the decoded buffer or the error thrown. `reader.onerror` (older/app.js:94) rejects with an error the model does not tell apart from a decoding error.
- Resampling with an `OfflineAudioContext` is a parameter function. The model passes it the mono signal, the source rate and 16000; the length it renders is not modelled.
- The lamejs encoder is an opaque state with three parameter functions. MP3 encoding itself is not modelled.
- `fetch`, `FormData` and `response.json()` are the parameter `respond`: each answer is ok with its text, an HTTP error with its body, a rejected request, or an ok answer whose body does not parse. A response whose JSON has no `text` field is not modelled, and neither is `selectedLanguage` (older/app.js:187-189).
- `setTimeout` in `delay` is not modelled: the waits are returned as values, in milliseconds.
- Floating point is modelled as real numbers. Float32 rounding of samples and NaN inputs are not modelled.
- Log timestamps (`new Date().toISOString()`) and `console` output are left out. A log entry is its message.
- The texts of the older front end's messages are modelled by `DebugLog.EntryText`; those of the current front end by `App.MessageText`. No property is proved about these texts.
- Vue reactivity, templates and the `watch` callbacks that write settings to localStorage (older/app.js:26-40) are left out. The model reads the stored key and flags once, in the constructor.
- `generateMinutes` and the Gemini key (older/app.js from line 301) are not part of this model.
- `chunkAudioData` (js/audioProcessing.js:61) calls that file's own private `createWavBuffer`, `writeString` and `floatTo16BitPCM` (js/audioProcessing.js:68-104), not the exports of js/audioUtils.js. The two copies differ only in comments, `export`, and `const` against `let`. One model, `AudioUtils.WavBytes` and its methods, stands for both.
- `createWavFile` (js/audioUtils.js:37-40) only wraps the buffer in a Blob. Blobs are modelled as their bytes or their frames.
- The files under `js - Copy/` are not part of this model.
- A cancel click is modelled only where the loop can see it, as a predicate on the chunk index. A click during preprocessing counts as a click before chunk 0. The exact point in the log where its notice appears is not modelled.
- Changing the settings or the selected model while a run is in progress is not modelled. A run uses the values it started with.
- The sample rate of the current front end's `AudioContext` is taken to be the decoded buffer's rate.
- OlderApp.Transcriber.TranscribeChunks: does not state the chunk counter or progress it leaves, because `TranscribeFile` resets both in its `finally` block.
- App.Transcriber.TranscribeChunks: does not state `isTranscribing`, because the method does not change it; `TranscribeAudio` states it.
- Where the code's behaviour looks unintended, the model follows the code:
  - the older front end shows 'Transcription complete' after a cancel, because the status set by `cancelTranscription` is overwritten (older/app.js:266);
  - it logs 'Starting audio preprocessing' twice (older/app.js:240 and 57);
  - the current front end writes the decoded rate into every WAV header even when the samples were resampled to 16 kHz (js/audioProcessing.js:19).
