/**
 * The component state of older/app.js and the methods that change it: the
 * bounded debug log, file selection, cancellation, the reset for a new
 * transcription, preprocessing into MP3 chunks, the retrying request of one
 * chunk and the driver that transcribes all chunks.
 *
 * The browser's decoder gives the decoded file (or its failure); the
 * resampler and the lamejs encoder are function parameters, as in the Mp3
 * module. The server is the function `respond(i, k)`: its answer to attempt k
 * for chunk i. A click on Cancel is `cancel(i)`: the user cancelled before the
 * loop checks chunk i.
 */
module OlderApp {
  import opened Common
  import opened DebugLog
  import opened Retry
  import opened Transcript
  import opened AudioProcessing
  import opened Mp3

  /** The status line: which message is shown. StatusText gives its text. */
  datatype Status =
    | Blank
    | SelectFilePrompt
    | GroqKeyPrompt
    | Preprocessing
    | Transcribing
    | ChunkStatus(current: nat, total: nat)
    | Complete
    | Canceled
    | Failed(message: string)

  function StatusText(s: Status): string
  {
    match s
    case Blank => ""
    case SelectFilePrompt => "Please select a file"
    case GroqKeyPrompt => "Please set your Groq API key in the settings"
    case Preprocessing => "Preprocessing audio..."
    case Transcribing => "Transcribing..."
    case ChunkStatus(current, total) => "Transcribing chunk " + NatToString(current) + " of " + NatToString(total)
    case Complete => "Transcription complete"
    case Canceled => "Transcription canceled"
    case Failed(message) => "Error during transcription: " + message
  }

  /** The rate the encoder is created with: 16 kHz after downsampling, else the decoded rate. */
  function EncoderRate(b: AudioBuffer, downsampleAudio: bool): nat
  {
    if downsampleAudio then TargetSampleRate else b.sampleRate
  }

  /**
   * What preprocessAudio logs, one entry per step in the order it logs them:
   * a decoding failure is logged after the decoding step and ends the log.
   */
  function PreprocessLog(downsampleAudio: bool, decoded: Result<AudioBuffer>): seq<LogEntry>
  {
    var decoding := [StartingPreprocessing] + [DecodingAudio];
    if decoded.Failure? then decoding + [PreprocessingError(decoded.message)]
    else
      var mono := decoding + [ConvertingToMono];
      var converting := (if downsampleAudio then mono + [Resampling] else mono) + [ConvertingToMp3];
      converting + [ChunkingMp3] + [PreprocessingCompleted]
  }

  /** The answers to the attempts for chunk i. */
  function ForChunk(respond: (nat, nat) -> Response, i: nat): nat -> Response
  {
    (k: nat) => respond(i, k)
  }

  /** What transcribeChunk does for chunk i with the default three attempts. */
  function ChunkRun(respond: (nat, nat) -> Response, i: nat): Outcome
  {
    RetryFrom(ForChunk(respond, i), DefaultRetries, 0)
  }

  /**
   * run gives, for each chunk, what transcribeChunk does for it: the loop
   * below is stated for any such run, and the request of chunk i is what
   * ties run(i) to the server's answers.
   */
  ghost predicate IsChunkRuns(respond: (nat, nat) -> Response, run: nat -> Outcome)
  {
    forall i: nat {:trigger ChunkRun(respond, i)} :: run(i) == ChunkRun(respond, i)
  }

  /**
   * The text `chunkTranscription + ' '` contributes: the transcribed text, or
   * "undefined" when every attempt was rate limited. A thrown error leaves
   * the loop before the concatenation and contributes nothing.
   */
  function ChunkText(r: ChunkResult): string
  {
    match r
    case Text(t) => t
    case Undefined => "undefined"
    case Threw(_) => ""
  }

  /** Whether the loop stops at chunk i: the user cancelled before it or its request threw. */
  function Stops(run: nat -> Outcome, cancel: nat -> bool): nat -> bool
  {
    (i: nat) => cancel(i) || run(i).result.Threw?
  }

  /** The first of the n chunks at which the loop stops, or n. */
  function StopIndex(run: nat -> Outcome, cancel: nat -> bool, n: nat): nat
  {
    FirstStop(Stops(run, cancel), n)
  }

  /** The texts of the first k chunks. */
  function Texts(run: nat -> Outcome, k: nat): (r: seq<string>)
    ensures |r| == k
  {
    if k == 0 then [] else Texts(run, k - 1) + [ChunkText(run(k - 1).result)]
  }

  /** The text the loop has accumulated after the first k chunks: each chunk's text and a space. */
  function Accumulated(run: nat -> Outcome, k: nat): string
  {
    if k == 0 then "" else Accumulated(run, k - 1) + ChunkText(run(k - 1).result) + " "
  }

  /** The accumulated text is the chunks' texts, each followed by one space. */
  lemma {:induction false} AccumulatedIsSpaced(run: nat -> Outcome, k: nat)
    ensures Accumulated(run, k) == Spaced(Texts(run, k))
  {
    if k > 0 {
      AccumulatedIsSpaced(run, k - 1);
      SpacedAppend(Texts(run, k - 1), ChunkText(run(k - 1).result));
    }
  }

  /** What the loop logs for chunk i of n: the chunk notice, then what transcribeChunk logs. */
  function ChunkLog(run: nat -> Outcome, i: nat, n: nat): seq<LogEntry>
  {
    [TranscribingChunk(i + 1, n)] + run(i).log
  }

  /** What the loop logs for the first k chunks of n. */
  function ChunksLog(run: nat -> Outcome, k: nat, n: nat): seq<LogEntry>
  {
    if k == 0 then [] else ChunksLog(run, k - 1, n) + ChunkLog(run, k - 1, n)
  }

  /**
   * What the loop over n chunks logs: the chunks it completes, then at a
   * cancel the cancellation notices, or at a chunk that throws what that
   * chunk logged.
   */
  function LoopLog(run: nat -> Outcome, cancel: nat -> bool, n: nat): seq<LogEntry>
  {
    var k := StopIndex(run, cancel, n);
    if k == n then ChunksLog(run, n, n)
    else if cancel(k) then ChunksLog(run, k, n) + [CanceledByUser, TranscriptionCancelled]
    else ChunksLog(run, k + 1, n)
  }

  /** How many of the n chunks the loop requests: those it passes, and the one that throws. */
  function Requested(run: nat -> Outcome, cancel: nat -> bool, n: nat): nat
  {
    var k := StopIndex(run, cancel, n);
    if k < n && !cancel(k) then k + 1 else k
  }

  /** The chunk number an entry announces: "Transcribing chunk i of n" names chunk i. */
  function ChunkNumber(e: LogEntry): Option<nat>
  {
    if e.TranscribingChunk? then Some(e.current) else None
  }

  /** The pass for chunk i announces exactly that chunk: transcribeChunk logs only its own notices. */
  lemma ChunkAnnounced(respond: (nat, nat) -> Response, run: nat -> Outcome, i: nat, n: nat)
    requires IsChunkRuns(respond, run)
    ensures Collect(ChunkLog(run, i, n), ChunkNumber) == [i + 1]
  {
    var log := run(i).log;
    assert run(i) == ChunkRun(respond, i);
    RetryLogsNotices(ForChunk(respond, i), DefaultRetries, 0);
    CollectNone(log, ChunkNumber);
    CollectOne(TranscribingChunk(i + 1, n), ChunkNumber);
    CollectConcat([TranscribingChunk(i + 1, n)], log, ChunkNumber);
  }

  /** The first k passes announce chunks 1 to k, in order. */
  lemma {:induction false} ChunksAnnounced(respond: (nat, nat) -> Response, run: nat -> Outcome, k: nat, n: nat)
    requires IsChunkRuns(respond, run)
    ensures Collect(ChunksLog(run, k, n), ChunkNumber) == OneTo(k)
  {
    if k > 0 {
      ChunksAnnounced(respond, run, k - 1, n);
      CollectConcat(ChunksLog(run, k - 1, n), ChunkLog(run, k - 1, n), ChunkNumber);
      ChunkAnnounced(respond, run, k - 1, n);
    }
  }

  /**
   * The loop of transcribeFile requests the chunks strictly in index order,
   * and none after the one it stops at: the chunks its log announces are 1
   * to the number requested, which counts the chunks passed and the one that
   * threw, but not a chunk the user cancelled before.
   */
  lemma LoopAnnounced(respond: (nat, nat) -> Response, run: nat -> Outcome, cancel: nat -> bool, n: nat)
    requires IsChunkRuns(respond, run)
    ensures Collect(LoopLog(run, cancel, n), ChunkNumber) == OneTo(Requested(run, cancel, n))
  {
    var k := StopIndex(run, cancel, n);
    var log := LoopLog(run, cancel, n);
    ChunksAnnounced(respond, run, k, n);
    if k < n && cancel(k) {
      assert log == ChunksLog(run, k, n) + [CanceledByUser, TranscriptionCancelled];
      CollectConcat(ChunksLog(run, k, n), [CanceledByUser, TranscriptionCancelled], ChunkNumber);
      CollectNone([CanceledByUser, TranscriptionCancelled], ChunkNumber);
    } else if k < n {
      assert log == ChunksLog(run, k + 1, n);
      ChunksAnnounced(respond, run, k + 1, n);
    } else {
      assert log == ChunksLog(run, n, n);
    }
  }

  /** The error that ends the loop over n chunks, if a chunk's request threw. */
  function LoopError(run: nat -> Outcome, cancel: nat -> bool, n: nat): Option<string>
  {
    var k := StopIndex(run, cancel, n);
    if k < n && !cancel(k) && run(k).result.Threw? then Some(run(k).result.message) else None
  }

  /** A loop that passes the first i chunks and finds a cancel before chunk i ends there, without error. */
  lemma CancelledAt(run: nat -> Outcome, cancel: nat -> bool, n: nat, i: nat)
    requires i < n && StopIndex(run, cancel, i) == i && cancel(i)
    ensures StopIndex(run, cancel, n) == i
    ensures LoopError(run, cancel, n) == None
    ensures LoopLog(run, cancel, n) == ChunksLog(run, i, n) + [CanceledByUser, TranscriptionCancelled]
  {
    FirstStopAt(Stops(run, cancel), n, i);
  }

  /** A loop that passes the first i chunks and whose request for chunk i throws ends there, with that error. */
  lemma ChunkThrowsAt(run: nat -> Outcome, cancel: nat -> bool, n: nat, i: nat)
    requires i < n && StopIndex(run, cancel, i) == i && !cancel(i) && run(i).result.Threw?
    ensures StopIndex(run, cancel, n) == i
    ensures LoopError(run, cancel, n) == Some(run(i).result.message)
    ensures LoopLog(run, cancel, n) == ChunksLog(run, i + 1, n)
  {
    FirstStopAt(Stops(run, cancel), n, i);
  }

  /** How many chunks preprocessing produced: none when it failed. */
  function ChunkCount(preprocessed: Result<seq<Mp3Chunk>>): nat
  {
    if preprocessed.Success? then |preprocessed.value| else 0
  }

  /** The error that ends transcribeFile's try block, if any: the preprocessing error, or the loop's. */
  function RunError(decoded: Result<AudioBuffer>, run: nat -> Outcome, cancel: nat -> bool, n: nat): Option<string>
  {
    if decoded.Failure? then Some(decoded.message) else LoopError(run, cancel, n)
  }

  /** The entry that closes the try block: the error, or completion. */
  function EndEntry(error: Option<string>): LogEntry
  {
    if error.Some? then TranscriptionError(error.value) else TranscriptionCompleted
  }

  /** The status line after the try block: the error, or completion (even after a cancel). */
  function EndStatus(error: Option<string>): Status
  {
    if error.Some? then Failed(error.value) else Complete
  }

  /**
   * What the try block of transcribeFile logs after preprocessing gave n
   * chunks: the start notice, the loop's entries, then the closing entry.
   */
  function TryLog(run: nat -> Outcome, cancel: nat -> bool, n: nat): seq<LogEntry>
  {
    [StartingTranscription] + LoopLog(run, cancel, n) + [EndEntry(LoopError(run, cancel, n))]
  }

  /**
   * What transcribeFile logs once a file and a key are set: its own notice
   * and preprocessAudio's, then either the preprocessing error or what the
   * chunks' transcription logs.
   */
  function RunLog(downsampleAudio: bool, decoded: Result<AudioBuffer>, run: nat -> Outcome, cancel: nat -> bool, n: nat)
    : seq<LogEntry>
  {
    var preprocessing := [StartingPreprocessing] + PreprocessLog(downsampleAudio, decoded);
    preprocessing + (if decoded.Failure? then [EndEntry(Some(decoded.message))] else TryLog(run, cancel, n))
  }

  /**
   * What preprocessAudio yields: the decoding failure, or chunks greedily
   * packed from the MP3 frames of the signal it encodes.
   */
  predicate PreprocessedAs<S>(preprocessed: Result<seq<Mp3Chunk>>, decoded: Result<AudioBuffer>, downsampleAudio: bool,
                              resample: (seq<real>, nat, nat) -> seq<real>, newEncoder: nat -> S,
                              encodeBuffer: (S, seq<int>) -> (S, Frame), flush: S -> Frame)
  {
    && (decoded.Failure? ==> preprocessed == Failure(decoded.message))
    && (decoded.Success? ==>
          var b := decoded.value;
          && ValidBuffer(b)
          && preprocessed.Success?
          && GreedyPacking(preprocessed.value, Mp3Data(Processed(b, downsampleAudio, resample), EncoderRate(b, downsampleAudio),
                                                       newEncoder, encodeBuffer, flush)))
  }

  /**
   * When the first chunk's text starts and the last chunk's text ends with
   * a character that is not white space, the transcript transcribeFile shows
   * is the chunks' texts joined by single spaces.
   */
  lemma TranscriptIsJoined(run: nat -> Outcome, k: nat)
    requires k > 0
    requires var first := ChunkText(run(0).result); first != [] && !IsJsSpace(first[0])
    requires var last := ChunkText(run(k - 1).result); last != [] && !IsJsSpace(last[|last| - 1])
    ensures Trim(Accumulated(run, k)) == Join(Texts(run, k))
  {
    AccumulatedIsSpaced(run, k);
    TextsAt(run, k, 0);
    TrimSpaced(Texts(run, k));
  }

  /** The text of chunk j is the j-th of the texts. */
  lemma {:induction false} TextsAt(run: nat -> Outcome, k: nat, j: nat)
    requires j < k
    ensures Texts(run, k)[j] == ChunkText(run(j).result)
  {
    if j < k - 1 {
      TextsAt(run, k - 1, j);
    }
  }

  /** No cancel was requested before the loop checked any of chunks 0 to j. */
  predicate NotCancelledThrough(cancel: nat -> bool, j: nat)
  {
    forall j': nat :: j' <= j ==> !cancel(j')
  }

  /**
   * transcribeFile ends in an error (status 'Error during transcription',
   * hasError set) exactly when decoding failed, or some chunk's request threw
   * before the user cancelled.
   */
  lemma RunFails(decoded: Result<AudioBuffer>, run: nat -> Outcome, cancel: nat -> bool, n: nat)
    ensures EndStatus(RunError(decoded, run, cancel, n)).Failed? <==>
      decoded.Failure? || exists j: nat :: j < n && run(j).result.Threw? && NotCancelledThrough(cancel, j)
  {
    var k := StopIndex(run, cancel, n);
    FirstStopSpec(Stops(run, cancel), n);
    if decoded.Success? {
      if LoopError(run, cancel, n).Some? {
        forall j': nat | j' <= k ensures !cancel(j') {
          if j' < k { assert !Stops(run, cancel)(j'); }
        }
        assert k < n && run(k).result.Threw? && NotCancelledThrough(cancel, k);
      }
      forall j: nat | j < n && run(j).result.Threw? && NotCancelledThrough(cancel, j)
        ensures LoopError(run, cancel, n).Some?
      {
        assert Stops(run, cancel)(j);
        assert k <= j;
        assert !cancel(k);
      }
    }
  }

  /**
   * A cancelled run still ends as a completed one: after the cancellation
   * notices, transcribeFile logs its completion and shows 'Transcription
   * complete' with the trimmed text of the chunks done before the cancel.
   */
  lemma CancelShowsComplete(downsampleAudio: bool, decoded: Result<AudioBuffer>, run: nat -> Outcome,
                            cancel: nat -> bool, n: nat)
    requires decoded.Success?
    requires StopIndex(run, cancel, n) < n && cancel(StopIndex(run, cancel, n))
    ensures EndStatus(RunError(decoded, run, cancel, n)) == Complete
    ensures var log := RunLog(downsampleAudio, decoded, run, cancel, n);
      |log| >= 3 && log[|log| - 3..] == [CanceledByUser, TranscriptionCancelled, TranscriptionCompleted]
  {
    var k := StopIndex(run, cancel, n);
    var chunks := ChunksLog(run, k, n);
    assert LoopError(run, cancel, n) == None;
    assert LoopLog(run, cancel, n) == chunks + [CanceledByUser, TranscriptionCancelled];
    var tail := [CanceledByUser, TranscriptionCancelled, TranscriptionCompleted];
    assert TryLog(run, cancel, n) == [StartingTranscription] + chunks + tail;
    var front := [StartingPreprocessing] + PreprocessLog(downsampleAudio, decoded) + [StartingTranscription] + chunks;
    var log := RunLog(downsampleAudio, decoded, run, cancel, n);
    assert log == front + tail;
    assert (front + tail)[|front|..] == tail;
  }

  class Transcriber {
    var selectedFile: Option<string>
    var groqApiKey: string
    var debugMode: bool
    var downsampleAudio: bool
    var debugLogs: seq<LogEntry>
    var isTranscribing: bool
    var status: Status
    var hasError: bool
    var transcription: string
    var streamingTranscription: string
    var formattedMinutes: string
    var currentChunk: nat
    var totalChunks: nat
    var transcriptionProgress: real
    /**
     * Every message logged since the log was last cleared, whether or not
     * debug mode keeps it; in debug mode, debugLogs holds the last 100.
     */
    ghost var logged: seq<LogEntry>

    /** In debug mode the debug log is the window onto the last 100 messages logged; otherwise it stays empty. */
    ghost predicate Valid()
      reads this`debugLogs, this`logged, this`debugMode
    {
      debugLogs == if debugMode then Window(logged, MaxDebugLogs) else []
    }

    /** setup(): the stored API key and settings, everything else empty. */
    constructor(storedGroqApiKey: string, storedDebugMode: bool, storedDownsampleAudio: bool)
      ensures Valid()
      ensures groqApiKey == storedGroqApiKey && debugMode == storedDebugMode && downsampleAudio == storedDownsampleAudio
      ensures selectedFile == None && debugLogs == [] && !isTranscribing && status == Blank && !hasError
      ensures transcription == "" && streamingTranscription == "" && formattedMinutes == ""
      ensures currentChunk == 0 && totalChunks == 0 && transcriptionProgress == 0.0
    {
      selectedFile := None;
      groqApiKey := storedGroqApiKey;
      debugMode := storedDebugMode;
      downsampleAudio := storedDownsampleAudio;
      debugLogs := [];
      logged := [];
      isTranscribing := false;
      status := Blank;
      hasError := false;
      transcription := "";
      streamingTranscription := "";
      formattedMinutes := "";
      currentChunk := 0;
      totalChunks := 0;
      transcriptionProgress := 0.0;
    }

    /**
     * addDebugLog: in debug mode, push the entry and shift the oldest out
     * past 100 entries. The log keeps at most 100 entries and ends with the
     * new one.
     */
    method AddDebugLog(message: LogEntry)
      requires Valid()
      modifies this`debugLogs, this`logged
      ensures Valid()
      ensures logged == old(logged) + [message]
      ensures |debugLogs| <= MaxDebugLogs
      ensures debugMode ==> debugLogs != [] && debugLogs[|debugLogs| - 1] == message
      ensures !debugMode ==> debugLogs == old(debugLogs)
    {
      if debugMode {
        WindowPush(debugLogs, message, MaxDebugLogs);
        WindowOfWindow(logged, [message], MaxDebugLogs);
        debugLogs := debugLogs + [message];
        if |debugLogs| > MaxDebugLogs {
          debugLogs := debugLogs[1..];
        }
      }
      logged := logged + [message];
    }

    /**
     * handleFileUpload: remember the chosen file and log its name. With no file chosen,
     * `files[0]` is undefined: the handler stores it and then throws on its
     * name before logging anything.
     */
    method HandleFileUpload(file: Option<string>)
      requires Valid()
      modifies this`selectedFile, this`debugLogs, this`logged
      ensures Valid()
      ensures selectedFile == file
      ensures file.Some? ==> logged == old(logged) + [FileSelected(file.value)]
      ensures file.None? ==> unchanged(this`debugLogs, this`logged)
    {
      selectedFile := file;
      if file.Some? {
        AddDebugLog(FileSelected(file.value));
      }
    }

    /** cancelTranscription: clear the running flag, which the driver checks before each chunk. */
    method CancelTranscription()
      requires Valid()
      modifies this`isTranscribing, this`status, this`debugLogs, this`logged
      ensures Valid()
      ensures !isTranscribing && status == Canceled
      ensures logged == old(logged) + [CanceledByUser]
    {
      isTranscribing := false;
      status := Canceled;
      AddDebugLog(CanceledByUser);
    }

    /** newTranscription: clear the file, the texts, the status, the log and the counters. */
    method NewTranscription()
      requires Valid()
      modifies this`selectedFile, this`transcription, this`streamingTranscription, this`formattedMinutes, this`status,
               this`hasError, this`debugLogs, this`logged, this`currentChunk, this`totalChunks, this`transcriptionProgress
      ensures Valid()
      ensures selectedFile == None && transcription == "" && streamingTranscription == "" && formattedMinutes == ""
      ensures status == Blank && !hasError && currentChunk == 0 && totalChunks == 0 && transcriptionProgress == 0.0
      ensures debugLogs == if debugMode then [NewTranscriptionInitiated] else []
    {
      selectedFile := None;
      transcription := "";
      streamingTranscription := "";
      formattedMinutes := "";
      status := Blank;
      hasError := false;
      debugLogs := [];
      logged := [];
      currentChunk := 0;
      totalChunks := 0;
      transcriptionProgress := 0.0;
      AddDebugLog(NewTranscriptionInitiated);
    }

    /**
     * preprocessAudio: decode, downmix, resample to 16 kHz when downsampling,
     * encode to MP3 and pack the frames into chunks, logging each step. A
     * decoding failure is logged and passed on.
     */
    method PreprocessAudio<S>(decoded: Result<AudioBuffer>, resample: (seq<real>, nat, nat) -> seq<real>,
                              newEncoder: nat -> S, encodeBuffer: (S, seq<int>) -> (S, Frame), flush: S -> Frame)
      returns (chunks: Result<seq<Mp3Chunk>>)
      requires Valid()
      requires decoded.Success? ==> ValidBuffer(decoded.value)
      modifies this`debugLogs, this`logged
      ensures Valid()
      ensures PreprocessedAs(chunks, decoded, downsampleAudio, resample, newEncoder, encodeBuffer, flush)
      ensures logged == old(logged) + PreprocessLog(downsampleAudio, decoded)
    {
      AddDebugLog(StartingPreprocessing);
      ghost var entries := [StartingPreprocessing];
      AddDebugLog(DecodingAudio);
      AppendAssoc(old(logged), entries, [DecodingAudio]);
      entries := entries + [DecodingAudio];
      if decoded.Failure? {
        AddDebugLog(PreprocessingError(decoded.message));
        AppendAssoc(old(logged), entries, [PreprocessingError(decoded.message)]);
        return Failure(decoded.message);
      }
      var audioBuffer := decoded.value;
      AddDebugLog(ConvertingToMono);
      AppendAssoc(old(logged), entries, [ConvertingToMono]);
      entries := entries + [ConvertingToMono];
      var monoBuffer := ConvertToMono(audioBuffer);
      var mp3Data;
      if downsampleAudio {
        AddDebugLog(Resampling);
        AppendAssoc(old(logged), entries, [Resampling]);
        entries := entries + [Resampling];
        var resampledBuffer := resample(monoBuffer[..], audioBuffer.sampleRate, TargetSampleRate);
        AddDebugLog(ConvertingToMp3);
        AppendAssoc(old(logged), entries, [ConvertingToMp3]);
        entries := entries + [ConvertingToMp3];
        mp3Data := ConvertToMp3(resampledBuffer, TargetSampleRate, newEncoder, encodeBuffer, flush);
      } else {
        AddDebugLog(ConvertingToMp3);
        AppendAssoc(old(logged), entries, [ConvertingToMp3]);
        entries := entries + [ConvertingToMp3];
        mp3Data := ConvertToMp3(monoBuffer[..], audioBuffer.sampleRate, newEncoder, encodeBuffer, flush);
      }
      AddDebugLog(ChunkingMp3);
      AppendAssoc(old(logged), entries, [ChunkingMp3]);
      entries := entries + [ChunkingMp3];
      var packed := ChunkMp3Data(mp3Data);
      AddDebugLog(PreprocessingCompleted);
      AppendAssoc(old(logged), entries, [PreprocessingCompleted]);
      chunks := Success(packed);
    }

    /**
     * transcribeChunk: request the chunk up to `retries` times. Returns what
     * it yields and the waits it awaited; the log receives the rate-limit and
     * retry notices.
     */
    method TranscribeChunk(respond: nat -> Response, retries: nat) returns (result: ChunkResult, waits: seq<nat>)
      requires Valid()
      modifies this`debugLogs, this`logged
      ensures Valid()
      ensures var run := RetryFrom(respond, retries, 0);
        && result == run.result && waits == run.waits
        && logged == old(logged) + run.log
    {
      ghost var entries: seq<LogEntry> := [];
      waits := [];
      var attempt := 0;
      while attempt < retries
        invariant attempt <= retries
        invariant Valid()
        invariant RetryFrom(respond, retries, 0) == Then(waits, entries, RetryFrom(respond, retries, attempt))
        invariant logged == old(logged) + entries
      {
        var response := respond(attempt);
        if response.Ok? {
          ThenDone(waits, entries, Text(response.text));
          return Text(response.text), waits;
        }
        RetryStep(respond, retries, attempt);
        if RateLimited(response) {
          var waitTime := WaitTime(attempt);
          AddDebugLog(RateLimitWait(waitTime));
          ThenThen(waits, entries, [waitTime], [RateLimitWait(waitTime)], RetryFrom(respond, retries, attempt + 1));
          entries := entries + [RateLimitWait(waitTime)];
          waits := waits + [waitTime];
        } else if attempt == retries - 1 {
          ThenDone(waits, entries, Threw(ErrorMessage(response)));
          return Threw(ErrorMessage(response)), waits;
        } else {
          AddDebugLog(AttemptFailed(attempt));
          ThenThen(waits, entries, [], [AttemptFailed(attempt)], RetryFrom(respond, retries, attempt + 1));
          entries := entries + [AttemptFailed(attempt)];
          assert waits + [] == waits;
        }
        attempt := attempt + 1;
      }
      ThenDone(waits, entries, Undefined);
      result := Undefined;
    }

    /**
     * A click on Cancel while a chunk is in flight, then the check the loop of
     * transcribeFile makes before the next chunk: the flag is down, so the
     * loop logs the cancellation and stops.
     */
    method CancelAndStop()
      requires Valid() && isTranscribing
      modifies this`isTranscribing, this`status, this`debugLogs, this`logged
      ensures Valid() && !isTranscribing && status == Canceled
      ensures logged == old(logged) + [CanceledByUser, TranscriptionCancelled]
    {
      CancelTranscription();
      if !isTranscribing {
        AddDebugLog(TranscriptionCancelled);
      }
      AppendAssoc(old(logged), [CanceledByUser], [TranscriptionCancelled]);
    }

    /**
     * One pass of the loop of transcribeFile: report chunk i of n in the
     * counter, the log and the status line, then request it.
     */
    method TranscribeStep(respond: (nat, nat) -> Response, run: nat -> Outcome, i: nat, n: nat) returns (result: ChunkResult)
      requires Valid() && IsChunkRuns(respond, run)
      modifies this`currentChunk, this`status, this`debugLogs, this`logged
      ensures Valid()
      ensures result == run(i).result
      ensures currentChunk == i + 1 && status == ChunkStatus(i + 1, n)
      ensures logged == old(logged) + ChunkLog(run, i, n)
    {
      currentChunk := i + 1;
      AddDebugLog(TranscribingChunk(currentChunk, n));
      status := ChunkStatus(currentChunk, n);
      var waits;
      result, waits := TranscribeChunk(ForChunk(respond, i), DefaultRetries);
      assert run(i) == ChunkRun(respond, i);
      AppendAssoc(old(logged), [TranscribingChunk(i + 1, n)], run(i).log);
    }

    /**
     * The text so far after k chunks, given the streamed text before the
     * loop: each chunk's text followed by a space, and once a chunk is done
     * the streamed transcript shows that text.
     */
    ghost predicate Streamed(run: nat -> Outcome, k: nat, fullTranscription: string, streaming0: string)
      reads this`streamingTranscription
    {
      && fullTranscription == Accumulated(run, k)
      && streamingTranscription == (if k > 0 then fullTranscription else streaming0)
    }

    /** How a pass that stops the loop at chunk i of n leaves the component, for a log that held `before`. */
    ghost predicate LoopStopped(before: seq<LogEntry>, run: nat -> Outcome, cancel: nat -> bool, i: nat, n: nat,
                                fullTranscription: string, error: Option<string>, streaming0: string)
      reads this`streamingTranscription, this`isTranscribing, this`logged
    {
      && StopIndex(run, cancel, n) == i
      && Streamed(run, i, fullTranscription, streaming0)
      && error == LoopError(run, cancel, n)
      && isTranscribing == !cancel(i)
      && logged == before + LoopLog(run, cancel, n)
    }

    /** How a pass that completes chunk i of n leaves the component, for a log that held `before`. */
    ghost predicate LoopPassed(before: seq<LogEntry>, run: nat -> Outcome, cancel: nat -> bool, i: nat, n: nat,
                               fullTranscription: string, streaming0: string)
      reads this`streamingTranscription, this`isTranscribing, this`logged
    {
      && StopIndex(run, cancel, i + 1) == i + 1 && isTranscribing
      && Streamed(run, i + 1, fullTranscription, streaming0)
      && logged == before + ChunksLog(run, i + 1, n)
    }

    /**
     * One pass of the loop of transcribeFile, for chunk i of n: stop if the
     * user cancelled; otherwise report and request the chunk, and either
     * stop with the error it threw or append its text. Returns whether the
     * loop stops here, the error, and the text so far.
     */
    method ChunkPass(ghost before: seq<LogEntry>, i: nat, n: nat, respond: (nat, nat) -> Response, run: nat -> Outcome,
                     cancel: nat -> bool, fullTranscription: string, ghost streaming0: string)
      returns (stop: bool, error: Option<string>, extended: string)
      requires Valid() && isTranscribing && totalChunks == n && IsChunkRuns(respond, run)
      requires i < n && StopIndex(run, cancel, i) == i
      requires Streamed(run, i, fullTranscription, streaming0) && logged == before + ChunksLog(run, i, n)
      modifies this`isTranscribing, this`status, this`debugLogs, this`logged, this`currentChunk,
               this`streamingTranscription, this`transcriptionProgress
      ensures Valid()
      ensures stop ==> LoopStopped(before, run, cancel, i, n, extended, error, streaming0)
      ensures !stop ==> LoopPassed(before, run, cancel, i, n, extended, streaming0)
    {
      if cancel(i) {
        CancelAndStop();
        CancelledAt(run, cancel, n, i);
        AppendAssoc(before, ChunksLog(run, i, n), [CanceledByUser, TranscriptionCancelled]);
        return true, None, fullTranscription;
      }
      stop, error, extended := RequestPass(before, i, n, respond, run, cancel, fullTranscription, streaming0);
    }

    /** A pass that requests chunk i: stop with the error it threw, or append its text and advance the progress. */
    method RequestPass(ghost before: seq<LogEntry>, i: nat, n: nat, respond: (nat, nat) -> Response, run: nat -> Outcome,
                       ghost cancel: nat -> bool, fullTranscription: string, ghost streaming0: string)
      returns (stop: bool, error: Option<string>, extended: string)
      requires Valid() && isTranscribing && totalChunks == n && IsChunkRuns(respond, run)
      requires i < n && !cancel(i) && StopIndex(run, cancel, i) == i
      requires Streamed(run, i, fullTranscription, streaming0) && logged == before + ChunksLog(run, i, n)
      modifies this`status, this`debugLogs, this`logged, this`currentChunk, this`streamingTranscription,
               this`transcriptionProgress
      ensures Valid()
      ensures stop ==> LoopStopped(before, run, cancel, i, n, extended, error, streaming0)
      ensures !stop ==> LoopPassed(before, run, cancel, i, n, extended, streaming0)
    {
      var chunkTranscription := TranscribeStep(respond, run, i, n);
      AppendAssoc(before, ChunksLog(run, i, n), ChunkLog(run, i, n));
      if chunkTranscription.Threw? {
        ChunkThrowsAt(run, cancel, n, i);
        return true, Some(chunkTranscription.message), fullTranscription;
      }
      extended := fullTranscription + ChunkText(chunkTranscription) + " ";
      streamingTranscription := extended;
      transcriptionProgress := Progress(i + 1, totalChunks);
      stop, error := false, None;
    }

    /**
     * The loop of transcribeFile over n chunks: before each chunk, stop if
     * cancelled; otherwise report the chunk, request it, and append its text.
     * A chunk whose request throws ends the loop with its error. Returns the
     * text so far and the error.
     */
    method TranscribeChunks(n: nat, respond: (nat, nat) -> Response, run: nat -> Outcome, cancel: nat -> bool)
      returns (fullTranscription: string, error: Option<string>)
      requires Valid() && isTranscribing && totalChunks == n && IsChunkRuns(respond, run)
      modifies this`isTranscribing, this`status, this`debugLogs, this`logged, this`currentChunk,
               this`streamingTranscription, this`transcriptionProgress
      ensures Valid()
      ensures var k := StopIndex(run, cancel, n);
        var cancelled := k < n && cancel(k);
        && fullTranscription == Accumulated(run, k)
        && error == LoopError(run, cancel, n)
        && logged == old(logged) + LoopLog(run, cancel, n)
        && isTranscribing == !cancelled
        && streamingTranscription == (if k > 0 then fullTranscription else old(streamingTranscription))
    {
      fullTranscription := "";
      error := None;
      var i := 0;
      while i < n
        invariant i <= n
        invariant StopIndex(run, cancel, i) == i
        invariant Valid() && isTranscribing
        invariant Streamed(run, i, fullTranscription, old(streamingTranscription))
        invariant logged == old(logged) + ChunksLog(run, i, n)
      {
        var stop, passError;
        stop, passError, fullTranscription := ChunkPass(old(logged), i, n, respond, run, cancel, fullTranscription,
                                                        old(streamingTranscription));
        if stop {
          return fullTranscription, passError;
        }
        i := i + 1;
      }
      FirstStopAt(Stops(run, cancel), n, n);
    }

    /**
     * What transcribeFile leaves, once a file and a key are set, for a log
     * that held `before`: the run's log, the status line and the error flag
     * of how the try block ended, the trimmed transcript when it completed,
     * and the text streamed so far.
     */
    ghost predicate Ended(before: seq<LogEntry>, downsample: bool, decoded: Result<AudioBuffer>,
                          run: nat -> Outcome, cancel: nat -> bool, n: nat)
      reads this`logged, this`status, this`hasError, this`transcription, this`streamingTranscription
    {
      var k := StopIndex(run, cancel, n);
      var error := RunError(decoded, run, cancel, n);
      && logged == before + RunLog(downsample, decoded, run, cancel, n)
      && status == EndStatus(error) && hasError == status.Failed?
      && transcription == (if error.Some? then "" else Trim(Accumulated(run, k)))
      && streamingTranscription == Accumulated(run, k)
    }

    /** What the try block leaves once preprocessing gave n chunks, for a log that held `before`. */
    ghost predicate TriedChunks(before: seq<LogEntry>, run: nat -> Outcome, cancel: nat -> bool, n: nat)
      reads this`logged, this`status, this`hasError, this`transcription, this`streamingTranscription
    {
      var k := StopIndex(run, cancel, n);
      var error := LoopError(run, cancel, n);
      && logged == before + TryLog(run, cancel, n)
      && status == EndStatus(error) && hasError == status.Failed?
      && transcription == (if error.Some? then "" else Trim(Accumulated(run, k)))
      && streamingTranscription == Accumulated(run, k)
    }

    /**
     * transcribeFile: without a file or a key, show the prompt and log it;
     * otherwise preprocess, transcribe the chunks, show the result or the
     * error, and reset the flag and the counters. Returns, as a ghost, what
     * preprocessing yielded.
     */
    method TranscribeFile<S>(decoded: Result<AudioBuffer>, resample: (seq<real>, nat, nat) -> seq<real>,
                             newEncoder: nat -> S, encodeBuffer: (S, seq<int>) -> (S, Frame), flush: S -> Frame,
                             respond: (nat, nat) -> Response, run: nat -> Outcome, cancel: nat -> bool)
      returns (ghost preprocessed: Result<seq<Mp3Chunk>>)
      requires Valid() && IsChunkRuns(respond, run)
      requires decoded.Success? ==> ValidBuffer(decoded.value)
      modifies this`isTranscribing, this`status, this`hasError, this`transcription, this`streamingTranscription,
               this`debugLogs, this`logged, this`currentChunk, this`totalChunks, this`transcriptionProgress
      ensures Valid()
      ensures selectedFile.None? ==> status == SelectFilePrompt && hasError && logged == old(logged) + [NoFileSelected]
      ensures selectedFile.Some? && groqApiKey == "" ==>
        status == GroqKeyPrompt && hasError && logged == old(logged) + [NoGroqApiKey]
      ensures selectedFile.None? || groqApiKey == "" ==>
        unchanged(this`isTranscribing, this`transcription, this`streamingTranscription,
                  this`currentChunk, this`totalChunks, this`transcriptionProgress)
      ensures selectedFile.Some? && groqApiKey != "" ==>
        && PreprocessedAs(preprocessed, decoded, downsampleAudio, resample, newEncoder, encodeBuffer, flush)
        && Ended(old(logged), downsampleAudio, decoded, run, cancel, ChunkCount(preprocessed))
        && !isTranscribing && currentChunk == 0 && totalChunks == 0 && transcriptionProgress == 0.0
    {
      if selectedFile.None? {
        status := SelectFilePrompt;
        hasError := true;
        AddDebugLog(NoFileSelected);
        return Failure("");
      }
      if groqApiKey == "" {
        status := GroqKeyPrompt;
        hasError := true;
        AddDebugLog(NoGroqApiKey);
        return Failure("");
      }
      preprocessed := RunTranscription(decoded, resample, newEncoder, encodeBuffer, flush, respond, run, cancel);
    }

    /** The try block of transcribeFile, its catch and its finally clause. */
    method RunTranscription<S>(decoded: Result<AudioBuffer>, resample: (seq<real>, nat, nat) -> seq<real>,
                               newEncoder: nat -> S, encodeBuffer: (S, seq<int>) -> (S, Frame), flush: S -> Frame,
                               respond: (nat, nat) -> Response, run: nat -> Outcome, cancel: nat -> bool)
      returns (ghost preprocessed: Result<seq<Mp3Chunk>>)
      requires Valid() && IsChunkRuns(respond, run)
      requires decoded.Success? ==> ValidBuffer(decoded.value)
      modifies this`isTranscribing, this`status, this`hasError, this`transcription, this`streamingTranscription,
               this`debugLogs, this`logged, this`currentChunk, this`totalChunks, this`transcriptionProgress
      ensures Valid()
      ensures PreprocessedAs(preprocessed, decoded, downsampleAudio, resample, newEncoder, encodeBuffer, flush)
      ensures Ended(old(logged), downsampleAudio, decoded, run, cancel, ChunkCount(preprocessed))
      ensures !isTranscribing && currentChunk == 0 && totalChunks == 0 && transcriptionProgress == 0.0
    {
      BeginTranscription();
      var preprocessedChunks := PreprocessAudio(decoded, resample, newEncoder, encodeBuffer, flush);
      preprocessed := preprocessedChunks;
      AppendAssoc(old(logged), [StartingPreprocessing], PreprocessLog(downsampleAudio, decoded));
      FinishTranscription(old(logged), decoded, preprocessedChunks, respond, run, cancel);
    }

    /** What transcribeFile does once preprocessing returned: the chunk loop or the catch clause, then the finally clause. */
    method FinishTranscription(ghost before: seq<LogEntry>, decoded: Result<AudioBuffer>, preprocessed: Result<seq<Mp3Chunk>>,
                               respond: (nat, nat) -> Response, run: nat -> Outcome, cancel: nat -> bool)
      requires Valid() && IsChunkRuns(respond, run) && decoded.Failure? == preprocessed.Failure?
      requires isTranscribing && !hasError && transcription == "" && streamingTranscription == ""
      requires logged == before + ([StartingPreprocessing] + PreprocessLog(downsampleAudio, decoded))
      modifies this`isTranscribing, this`status, this`hasError, this`transcription, this`streamingTranscription,
               this`debugLogs, this`logged, this`currentChunk, this`totalChunks, this`transcriptionProgress
      ensures Valid() && Ended(before, downsampleAudio, decoded, run, cancel, ChunkCount(preprocessed))
      ensures !isTranscribing && currentChunk == 0 && totalChunks == 0 && transcriptionProgress == 0.0
    {
      if preprocessed.Failure? {
        EndPreprocessingFailed(before, decoded, preprocessed, run, cancel);
      } else {
        TranscribePreprocessed(before, decoded, preprocessed, respond, run, cancel);
      }
    }

    /** The catch clause of transcribeFile when preprocessing failed, then its finally clause. */
    method EndPreprocessingFailed(ghost before: seq<LogEntry>, decoded: Result<AudioBuffer>,
                                  ghost preprocessed: Result<seq<Mp3Chunk>>, ghost run: nat -> Outcome, ghost cancel: nat -> bool)
      requires Valid() && decoded.Failure? && preprocessed.Failure?
      requires !hasError && transcription == "" && streamingTranscription == ""
      requires logged == before + ([StartingPreprocessing] + PreprocessLog(downsampleAudio, decoded))
      modifies this`transcription, this`status, this`hasError, this`debugLogs, this`logged,
               this`isTranscribing, this`currentChunk, this`totalChunks, this`transcriptionProgress
      ensures Valid() && Ended(before, downsampleAudio, decoded, run, cancel, ChunkCount(preprocessed))
      ensures !isTranscribing && currentChunk == 0 && totalChunks == 0 && transcriptionProgress == 0.0
    {
      EndTry("", Some(decoded.message));
      AppendAssoc(before, [StartingPreprocessing] + PreprocessLog(downsampleAudio, decoded), [EndEntry(Some(decoded.message))]);
      ResetCounters();
    }

    /** The try block of transcribeFile once preprocessing gave its chunks, then its finally clause. */
    method TranscribePreprocessed(ghost before: seq<LogEntry>, decoded: Result<AudioBuffer>, preprocessed: Result<seq<Mp3Chunk>>,
                                  respond: (nat, nat) -> Response, run: nat -> Outcome, cancel: nat -> bool)
      requires Valid() && IsChunkRuns(respond, run) && decoded.Success? && preprocessed.Success?
      requires isTranscribing && !hasError && transcription == "" && streamingTranscription == ""
      requires logged == before + ([StartingPreprocessing] + PreprocessLog(downsampleAudio, decoded))
      modifies this`isTranscribing, this`status, this`hasError, this`transcription, this`streamingTranscription,
               this`debugLogs, this`logged, this`currentChunk, this`totalChunks, this`transcriptionProgress
      ensures Valid() && Ended(before, downsampleAudio, decoded, run, cancel, ChunkCount(preprocessed))
      ensures !isTranscribing && currentChunk == 0 && totalChunks == 0 && transcriptionProgress == 0.0
    {
      ghost var pre := [StartingPreprocessing] + PreprocessLog(downsampleAudio, decoded);
      var n := |preprocessed.value|;
      TranscribeAll(before + pre, n, respond, run, cancel);
      AppendAssoc(before, pre, TryLog(run, cancel, n));
      ResetCounters();
    }

    /** The rest of the try block of transcribeFile once preprocessing gave n chunks. */
    method TranscribeAll(ghost before: seq<LogEntry>, n: nat, respond: (nat, nat) -> Response, run: nat -> Outcome,
                         cancel: nat -> bool)
      requires Valid() && IsChunkRuns(respond, run)
      requires isTranscribing && !hasError && transcription == "" && streamingTranscription == "" && logged == before
      modifies this`isTranscribing, this`status, this`hasError, this`transcription, this`streamingTranscription,
               this`debugLogs, this`logged, this`currentChunk, this`totalChunks, this`transcriptionProgress
      ensures Valid() && TriedChunks(before, run, cancel, n)
    {
      StartChunks(n);
      var fullTranscription, error := TranscribeChunks(n, respond, run, cancel);
      AppendAssoc(before, [StartingTranscription], LoopLog(run, cancel, n));
      EndTry(fullTranscription, error);
      AppendAssoc(before, [StartingTranscription] + LoopLog(run, cancel, n), [EndEntry(error)]);
    }

    /** The start of transcribeFile once a file and a key are set: raise the flag, clear the texts, log. */
    method BeginTranscription()
      requires Valid()
      modifies this`isTranscribing, this`status, this`hasError, this`transcription, this`streamingTranscription,
               this`debugLogs, this`logged
      ensures Valid()
      ensures isTranscribing && status == Preprocessing && !hasError && transcription == "" && streamingTranscription == ""
      ensures logged == old(logged) + [StartingPreprocessing]
    {
      isTranscribing := true;
      status := Preprocessing;
      hasError := false;
      transcription := "";
      streamingTranscription := "";
      AddDebugLog(StartingPreprocessing);
    }

    /** After preprocessing: record the chunk count, show the status, log. */
    method StartChunks(n: nat)
      requires Valid()
      modifies this`totalChunks, this`status, this`debugLogs, this`logged
      ensures Valid()
      ensures totalChunks == n && status == Transcribing
      ensures logged == old(logged) + [StartingTranscription]
    {
      totalChunks := n;
      status := Transcribing;
      AddDebugLog(StartingTranscription);
    }

    /** The end of the try block, or its catch clause when the block threw. */
    method EndTry(fullTranscription: string, error: Option<string>)
      requires Valid()
      modifies this`transcription, this`status, this`hasError, this`debugLogs, this`logged
      ensures Valid()
      ensures status == EndStatus(error) && hasError == (status.Failed? || old(hasError))
      ensures transcription == if error.Some? then old(transcription) else Trim(fullTranscription)
      ensures logged == old(logged) + [EndEntry(error)]
    {
      if error.Some? {
        status := Failed(error.value);
        hasError := true;
        AddDebugLog(TranscriptionError(error.value));
      } else {
        transcription := Trim(fullTranscription);
        status := Complete;
        AddDebugLog(TranscriptionCompleted);
      }
    }

    /** The finally clause: lower the flag and reset the counters. */
    method ResetCounters()
      modifies this`isTranscribing, this`currentChunk, this`totalChunks, this`transcriptionProgress
      ensures !isTranscribing && currentChunk == 0 && totalChunks == 0 && transcriptionProgress == 0.0
    {
      isTranscribing := false;
      currentChunk := 0;
      totalChunks := 0;
      transcriptionProgress := 0.0;
    }
  }
}
