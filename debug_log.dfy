/**
 * The bounded debug log of older/app.js: addDebugLog pushes the entry and, once
 * the log holds more than 100 entries, shifts the oldest one out. Seen from
 * outside, the log is a window onto the last 100 entries logged.
 */
module DebugLog {
  import opened Common

  const MaxDebugLogs: nat := 100

  /**
   * An entry of the debug log: which message was logged, with the values it
   * reports. EntryText gives the message's text; the ISO timestamp the
   * source prefixes to it is left out.
   */
  datatype LogEntry =
    | FileSelected(name: string)
    | StartingPreprocessing
    | DecodingAudio
    | ConvertingToMono
    | Resampling
    | ConvertingToMp3
    | ChunkingMp3
    | PreprocessingCompleted
    | PreprocessingError(message: string)
    | RateLimitWait(waitTime: nat)
    | AttemptFailed(attempt: nat)
    | NoFileSelected
    | NoGroqApiKey
    | StartingTranscription
    | TranscriptionCancelled
    | TranscribingChunk(current: nat, total: nat)
    | TranscriptionCompleted
    | TranscriptionError(message: string)
    | CanceledByUser
    | NewTranscriptionInitiated

  function EntryText(e: LogEntry): string
  {
    match e
    case FileSelected(name) => "File selected: " + name
    case StartingPreprocessing => "Starting audio preprocessing"
    case DecodingAudio => "Decoding audio data"
    case ConvertingToMono => "Converting to mono"
    case Resampling => "Resampling to 16kHz"
    case ConvertingToMp3 => "Converting to MP3"
    case ChunkingMp3 => "Chunking MP3 data"
    case PreprocessingCompleted => "Audio preprocessing completed"
    case PreprocessingError(message) => "Error during audio preprocessing: " + message
    case RateLimitWait(waitTime) => "Rate limited. Waiting " + NatToString(waitTime) + "ms before retry."
    case AttemptFailed(attempt) => "Attempt " + NatToString(attempt + 1) + " failed. Retrying..."
    case NoFileSelected => "Transcription attempted without file selection"
    case NoGroqApiKey => "Transcription attempted without Groq API key"
    case StartingTranscription => "Audio preprocessing completed, starting transcription"
    case TranscriptionCancelled => "Transcription cancelled"
    case TranscribingChunk(current, total) => "Transcribing chunk " + NatToString(current) + " of " + NatToString(total)
    case TranscriptionCompleted => "Transcription completed successfully"
    case TranscriptionError(message) => "Transcription error: " + message
    case CanceledByUser => "Transcription canceled by user"
    case NewTranscriptionInitiated => "New transcription initiated"
  }

  /** The last n entries of log, or all of it when it is shorter. */
  function Window<T>(log: seq<T>, n: nat): (r: seq<T>)
    ensures |r| == if |log| <= n then |log| else n
  {
    if |log| <= n then log else log[|log| - n..]
  }

  /** The window is a suffix of the log. */
  lemma WindowIsSuffix<T>(log: seq<T>, n: nat)
    ensures var r := Window(log, n); r == log[|log| - |r|..]
  {
  }

  /** A suffix holding at least n entries has the same window as the whole. */
  lemma WindowOfSuffix<T>(prefix: seq<T>, suffix: seq<T>, n: nat)
    requires |suffix| >= n
    ensures Window(prefix + suffix, n) == Window(suffix, n)
  {
    var whole := prefix + suffix;
    assert whole[|whole| - n..] == suffix[|suffix| - n..];
  }

  /**
   * Logging more entries into a window gives the window of the whole history:
   * the log always holds the last n entries ever logged into it.
   */
  lemma WindowOfWindow<T>(log: seq<T>, more: seq<T>, n: nat)
    ensures Window(Window(log, n) + more, n) == Window(log + more, n)
  {
    if |log| > n {
      var dropped := log[..|log| - n];
      assert log + more == dropped + (Window(log, n) + more);
      WindowOfSuffix(dropped, Window(log, n) + more, n);
    }
  }

  /**
   * One push into a log of at most n entries: the new entry is kept last,
   * the log stays within n entries, and the oldest entry is dropped exactly
   * when the log was full.
   */
  lemma WindowPush<T>(log: seq<T>, entry: T, n: nat)
    requires 0 < n && |log| <= n
    ensures var r := Window(log + [entry], n);
      && |r| <= n
      && r[|r| - 1] == entry
      && (|log| < n ==> r == log + [entry])
      && (|log| == n ==> r == log[1..] + [entry])
  {
  }
}
