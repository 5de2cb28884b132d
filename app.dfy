/**
 * The component of js/app.js, the newer front end: settings kept in local
 * storage, an unbounded debug log, file selection, and transcribeAudio, which
 * preprocesses the file into WAV chunks (js/audioProcessing.js, logging
 * through the component's addLog) and sends each chunk once, stopping at the
 * first failure or at a cancellation request.
 *
 * The decoded file, the resampler and the server are inputs, as in the older
 * front end: `respond(i)` is the answer to the request for chunk i, and
 * `cancel(i)` says that the user asked to cancel before the loop checks the
 * flag for chunk i.
 */
module App {
  import opened Common
  import opened Bytes
  import opened AudioProcessing
  import Retry
  import opened Transcript

  const ApiUrl: string := "https://api.groq.com/openai/v1/audio/transcriptions"
  const DefaultModel: string := "distil-whisper-large-v3-en"

  const GroqKeyItem: string := "groqApiKey"
  const DebugModeItem: string := "debugMode"
  const DownsampleItem: string := "downsampleAudio"

  /** The settings object of the component. */
  datatype Settings = Settings(groqApiKey: string, debugMode: bool, downsampleAudio: bool)

  /** The string local storage holds for a flag: what `setItem` makes of a boolean. */
  function StoredFlag(b: bool): string
  {
    if b then "true" else "false"
  }

  /** data(): the key, or '' when none is stored; each flag is set exactly when the stored string is 'true'. */
  function LoadSettings(storage: map<string, string>): (s: Settings)
    ensures s.groqApiKey == (if GroqKeyItem in storage then storage[GroqKeyItem] else "")
    ensures s.debugMode <==> DebugModeItem in storage && storage[DebugModeItem] == "true"
    ensures s.downsampleAudio <==> DownsampleItem in storage && storage[DownsampleItem] == "true"
  {
    Settings(if GroqKeyItem in storage then storage[GroqKeyItem] else "",
             DebugModeItem in storage && storage[DebugModeItem] == "true",
             DownsampleItem in storage && storage[DownsampleItem] == "true")
  }

  /** saveSettings: the three items written to local storage, the other items kept. */
  function StoreSettings(storage: map<string, string>, s: Settings): (r: map<string, string>)
    ensures forall item :: item in storage && item !in {GroqKeyItem, DebugModeItem, DownsampleItem} ==>
      item in r && r[item] == storage[item]
  {
    storage[GroqKeyItem := s.groqApiKey][DebugModeItem := StoredFlag(s.debugMode)][DownsampleItem := StoredFlag(s.downsampleAudio)]
  }

  /** Round trip: the settings saved are the settings the next page load reads back. */
  lemma SettingsRoundTrip(storage: map<string, string>, s: Settings)
    ensures LoadSettings(StoreSettings(storage, s)) == s
  {
    var r := StoreSettings(storage, s);
    assert r[GroqKeyItem] == s.groqApiKey;
    assert r[DebugModeItem] == StoredFlag(s.debugMode);
    assert r[DownsampleItem] == StoredFlag(s.downsampleAudio);
  }

  /** A message of the debug log; MessageText gives its text (the timestamp prefix is left out). */
  datatype Message =
    | ApplicationInitialized
    | SettingsSaved(keyLength: nat)
    | FileSelected(name: string)
    | NoFileSelected
    | StartingTranscription
    | StartingPreprocessing
    | DecodingAudio
    | ConvertingToMono
    | Downsampling
    | ChunkingAudio
    | PreprocessingCompleted
    | TranscriptionCancelled
    | TranscribingChunk(current: nat, total: nat)
    | SendingRequest(url: string)
    | UsingModel(model: string)
    | ResponseStatus(status: nat)
    | TranscriptionCompleted
    | TranscriptionError(message: string)
    | CancellationRequested
    | AllDataReset
    | NewTranscriptionInitiated

  function MessageText(m: Message): string
  {
    match m
    case ApplicationInitialized => "Application initialized"
    case SettingsSaved(keyLength) => "Settings saved. API key length: " + NatToString(keyLength)
    case FileSelected(name) => "File selected: " + name
    case NoFileSelected => "No file selected"
    case StartingTranscription => "Starting transcription"
    case StartingPreprocessing => "Starting audio preprocessing"
    case DecodingAudio => "Decoding audio data"
    case ConvertingToMono => "Converting to mono"
    case Downsampling => "Downsampling to 16kHz"
    case ChunkingAudio => "Chunking audio data"
    case PreprocessingCompleted => "Audio preprocessing completed"
    case TranscriptionCancelled => "Transcription cancelled"
    case TranscribingChunk(current, total) => "Transcribing chunk " + NatToString(current) + " of " + NatToString(total)
    case SendingRequest(url) => "Sending request to: " + url
    case UsingModel(model) => "Using model: " + model
    case ResponseStatus(status) => "Response status: " + NatToString(status)
    case TranscriptionCompleted => "Transcription completed"
    case TranscriptionError(message) => "Transcription error: " + message
    case CancellationRequested => "Cancellation requested"
    case AllDataReset => "All data reset"
    case NewTranscriptionInitiated => "New transcription initiated"
  }

  // ----- preprocessAudio of js/audioProcessing.js -----

  /**
   * What preprocessAudio yields: the decoding failure, or one standalone WAV
   * per run of samplesPerChunk samples of the (possibly resampled) downmix,
   * every header naming the decoded rate.
   */
  function Preprocessed(decoded: Result<AudioBuffer>, shouldDownsample: bool, resample: (seq<real>, nat, nat) -> seq<real>)
    : (r: Result<seq<seq<Byte>>>)
    requires decoded.Success? ==> ValidBuffer(decoded.value)
    ensures r.Failure? <==> decoded.Failure?
    ensures decoded.Failure? ==> r.message == decoded.message
  {
    if decoded.Failure? then Failure(decoded.message)
    else
      var b := decoded.value;
      Success(Wavs(Slices(Processed(b, shouldDownsample, resample), SamplesPerChunk), b.sampleRate))
  }

  /**
   * What preprocessAudio logs: the start and decoding notices, and after a
   * successful decode the conversion, the resampling when asked, the chunking
   * and the completion notices.
   */
  function PreprocessLog(shouldDownsample: bool, decoded: Result<AudioBuffer>): seq<Message>
  {
    var decoding := [StartingPreprocessing] + [DecodingAudio];
    if decoded.Failure? then decoding
    else
      var mono := decoding + [ConvertingToMono];
      (if shouldDownsample then mono + [Downsampling] else mono) + [ChunkingAudio] + [PreprocessingCompleted]
  }

  // ----- the loop of transcribeAudio -----

  /** The text `data.text + ' '` contributes for a successful answer. */
  function ChunkText(r: Retry.Response): string
  {
    if r.Ok? then r.text else ""
  }

  /** The error a failed request throws: the HTTP status and the body, or the rejection's or the parse error's message. */
  function RequestError(r: Retry.Response): string
    requires !r.Ok?
  {
    if r.HttpError? then "HTTP error! status: " + NatToString(r.status) + ", message: " + r.body else r.message
  }

  /**
   * What one pass of the loop logs for chunk i of n: the chunk, the URL and
   * the model, then the response status unless the request was rejected;
   * a body that does not parse is read after its status is logged.
   */
  function RequestLog(i: nat, n: nat, model: string, r: Retry.Response): seq<Message>
  {
    var sent := [TranscribingChunk(i + 1, n)] + [SendingRequest(ApiUrl)] + [UsingModel(model)];
    if r.Thrown? then sent else sent + [ResponseStatus(r.status)]
  }

  /** Whether the loop stops at chunk i: cancellation was requested before it or its request failed. */
  function Stops(respond: nat -> Retry.Response, cancel: nat -> bool): nat -> bool
  {
    (i: nat) => cancel(i) || !respond(i).Ok?
  }

  /** The first of the n chunks at which the loop stops, or n. */
  function StopIndex(respond: nat -> Retry.Response, cancel: nat -> bool, n: nat): nat
  {
    FirstStop(Stops(respond, cancel), n)
  }

  /** The texts of the first k chunks. */
  function Texts(respond: nat -> Retry.Response, k: nat): (r: seq<string>)
    ensures |r| == k
  {
    if k == 0 then [] else Texts(respond, k - 1) + [ChunkText(respond(k - 1))]
  }

  /** The text of chunk j is the j-th of the texts. */
  lemma {:induction false} TextsAt(respond: nat -> Retry.Response, k: nat, j: nat)
    requires j < k
    ensures Texts(respond, k)[j] == ChunkText(respond(j))
  {
    if j < k - 1 {
      TextsAt(respond, k - 1, j);
    }
  }

  /** The transcript after the first k chunks: each chunk's text and a space. */
  function Accumulated(respond: nat -> Retry.Response, k: nat): string
  {
    if k == 0 then "" else Accumulated(respond, k - 1) + ChunkText(respond(k - 1)) + " "
  }

  /** The transcript shown is the chunks' texts, each followed by one space: nothing is trimmed. */
  lemma {:induction false} AccumulatedIsSpaced(respond: nat -> Retry.Response, k: nat)
    ensures Accumulated(respond, k) == Spaced(Texts(respond, k))
  {
    if k > 0 {
      AccumulatedIsSpaced(respond, k - 1);
      SpacedAppend(Texts(respond, k - 1), ChunkText(respond(k - 1)));
    }
  }

  /** What the loop logs for the first k of n chunks. */
  function ChunksLog(respond: nat -> Retry.Response, model: string, k: nat, n: nat): seq<Message>
  {
    if k == 0 then [] else ChunksLog(respond, model, k - 1, n) + RequestLog(k - 1, n, model, respond(k - 1))
  }

  /**
   * What the loop over n chunks logs: the chunks it completes, then at a
   * cancellation the request and the cancellation notices, or at a failed
   * request what that request logged. A cancellation requested after the
   * last pass (cancel(n)) logs only the request.
   */
  function LoopLog(respond: nat -> Retry.Response, cancel: nat -> bool, model: string, n: nat): seq<Message>
  {
    var k := StopIndex(respond, cancel, n);
    if k == n && cancel(n) then ChunksLog(respond, model, n, n) + [CancellationRequested]
    else if k == n then ChunksLog(respond, model, n, n)
    else if cancel(k) then ChunksLog(respond, model, k, n) + [CancellationRequested, TranscriptionCancelled]
    else ChunksLog(respond, model, k, n) + RequestLog(k, n, model, respond(k))
  }

  /** The chunk number a message announces: "Transcribing chunk i of n" names chunk i. */
  function ChunkNumber(m: Message): Option<nat>
  {
    if m.TranscribingChunk? then Some(m.current) else None
  }

  /** How many of the n chunks the loop requests: those it passes, and the one whose request fails. */
  function Requested(respond: nat -> Retry.Response, cancel: nat -> bool, n: nat): nat
  {
    var k := StopIndex(respond, cancel, n);
    if k < n && !cancel(k) then k + 1 else k
  }

  /** One pass announces exactly its own chunk. */
  lemma RequestAnnounced(i: nat, n: nat, model: string, r: Retry.Response)
    ensures Collect(RequestLog(i, n, model, r), ChunkNumber) == [i + 1]
  {
    var sent := [TranscribingChunk(i + 1, n)] + [SendingRequest(ApiUrl)] + [UsingModel(model)];
    CollectOne(TranscribingChunk(i + 1, n), ChunkNumber);
    CollectOne(SendingRequest(ApiUrl), ChunkNumber);
    CollectOne(UsingModel(model), ChunkNumber);
    CollectConcat([TranscribingChunk(i + 1, n)], [SendingRequest(ApiUrl)], ChunkNumber);
    CollectConcat([TranscribingChunk(i + 1, n)] + [SendingRequest(ApiUrl)], [UsingModel(model)], ChunkNumber);
    if !r.Thrown? {
      CollectOne(ResponseStatus(r.status), ChunkNumber);
      CollectConcat(sent, [ResponseStatus(r.status)], ChunkNumber);
    }
  }

  /** The first k passes announce chunks 1 to k, in order. */
  lemma {:induction false} ChunksAnnounced(respond: nat -> Retry.Response, model: string, k: nat, n: nat)
    ensures Collect(ChunksLog(respond, model, k, n), ChunkNumber) == OneTo(k)
  {
    if k > 0 {
      ChunksAnnounced(respond, model, k - 1, n);
      CollectConcat(ChunksLog(respond, model, k - 1, n), RequestLog(k - 1, n, model, respond(k - 1)), ChunkNumber);
      RequestAnnounced(k - 1, n, model, respond(k - 1));
    }
  }

  /**
   * The loop requests the chunks strictly in index order, one request each,
   * and none after the one it stops at: the chunks its log announces are 1
   * to the number requested, which counts the chunks passed and the failing
   * one, but not a chunk the loop cancels before.
   */
  lemma LoopAnnounced(respond: nat -> Retry.Response, cancel: nat -> bool, model: string, n: nat)
    ensures Collect(LoopLog(respond, cancel, model, n), ChunkNumber) == OneTo(Requested(respond, cancel, n))
  {
    var k := StopIndex(respond, cancel, n);
    if k == n && cancel(n) {
      NoticesAnnounceNothing(respond, model, n, n, [CancellationRequested]);
    } else if k < n && cancel(k) {
      NoticesAnnounceNothing(respond, model, k, n, [CancellationRequested, TranscriptionCancelled]);
    } else if k < n {
      ChunksAnnounced(respond, model, k + 1, n);
    } else {
      ChunksAnnounced(respond, model, n, n);
    }
  }

  /** Notices that name no chunk, logged after the first k passes, leave the announced chunks 1 to k. */
  lemma NoticesAnnounceNothing(respond: nat -> Retry.Response, model: string, k: nat, n: nat, notices: seq<Message>)
    requires forall i :: 0 <= i < |notices| ==> !notices[i].TranscribingChunk?
    ensures Collect(ChunksLog(respond, model, k, n) + notices, ChunkNumber) == OneTo(k)
  {
    ChunksAnnounced(respond, model, k, n);
    CollectConcat(ChunksLog(respond, model, k, n), notices, ChunkNumber);
    CollectNone(notices, ChunkNumber);
  }

  /** Whether cancellation was requested before the loop over n chunks stopped or finished. */
  predicate Cancelled(respond: nat -> Retry.Response, cancel: nat -> bool, n: nat)
  {
    cancel(StopIndex(respond, cancel, n))
  }

  /** The error that ends the loop over n chunks, if a request failed. */
  function LoopError(respond: nat -> Retry.Response, cancel: nat -> bool, n: nat): Option<string>
  {
    var k := StopIndex(respond, cancel, n);
    if k < n && !cancel(k) && !respond(k).Ok? then Some(RequestError(respond(k))) else None
  }

  /** A loop that passes the first i chunks and finds cancellation requested before chunk i ends there, without error. */
  lemma CancelledAt(respond: nat -> Retry.Response, cancel: nat -> bool, model: string, n: nat, i: nat)
    requires i < n && StopIndex(respond, cancel, i) == i && cancel(i)
    ensures StopIndex(respond, cancel, n) == i
    ensures LoopError(respond, cancel, n) == None
    ensures Cancelled(respond, cancel, n)
    ensures LoopLog(respond, cancel, model, n) == ChunksLog(respond, model, i, n) + [CancellationRequested, TranscriptionCancelled]
  {
    FirstStopAt(Stops(respond, cancel), n, i);
  }

  /** A loop that passes the first i chunks and whose request for chunk i fails ends there, with that error. */
  lemma FailsAt(respond: nat -> Retry.Response, cancel: nat -> bool, model: string, n: nat, i: nat)
    requires i < n && StopIndex(respond, cancel, i) == i && !cancel(i) && !respond(i).Ok?
    ensures StopIndex(respond, cancel, n) == i
    ensures LoopError(respond, cancel, n) == Some(RequestError(respond(i)))
    ensures !Cancelled(respond, cancel, n)
    ensures LoopLog(respond, cancel, model, n) == ChunksLog(respond, model, i, n) + RequestLog(i, n, model, respond(i))
  {
    FirstStopAt(Stops(respond, cancel), n, i);
  }

  /**
   * An ok answer for chunk i whose body is not JSON still has its status
   * logged; the loop then ends there with the parse error's message.
   */
  lemma UnreadableStops(respond: nat -> Retry.Response, cancel: nat -> bool, model: string, n: nat, i: nat)
    requires i < n && StopIndex(respond, cancel, i) == i && !cancel(i) && respond(i).Unreadable?
    ensures LoopError(respond, cancel, n) == Some(respond(i).message)
    ensures LoopLog(respond, cancel, model, n) ==
      ChunksLog(respond, model, i, n) + [TranscribingChunk(i + 1, n), SendingRequest(ApiUrl), UsingModel(model), ResponseStatus(respond(i).status)]
  {
    FailsAt(respond, cancel, model, n, i);
  }

  /** The error that ends transcribeAudio's try block, if any: the preprocessing error, or the loop's. */
  function RunError(decoded: Result<AudioBuffer>, respond: nat -> Retry.Response, cancel: nat -> bool, n: nat): Option<string>
  {
    if decoded.Failure? then Some(decoded.message) else LoopError(respond, cancel, n)
  }

  /** What the end of the try block logs: the error, nothing after a cancellation, else completion. */
  function EndLog(error: Option<string>, cancelled: bool): seq<Message>
  {
    if error.Some? then [TranscriptionError(error.value)] else if cancelled then [] else [TranscriptionCompleted]
  }

  /**
   * What transcribeAudio logs once a file is selected: the start notice and
   * preprocessAudio's, then the loop's entries, then how the run ended.
   */
  function RunLog(shouldDownsample: bool, decoded: Result<AudioBuffer>, respond: nat -> Retry.Response, cancel: nat -> bool,
                  model: string, n: nat): seq<Message>
  {
    var preprocessing := [StartingTranscription] + PreprocessLog(shouldDownsample, decoded);
    var looped := if decoded.Failure? then preprocessing else preprocessing + LoopLog(respond, cancel, model, n);
    looped + EndLog(RunError(decoded, respond, cancel, n), decoded.Success? && Cancelled(respond, cancel, n))
  }

  /**
   * How a run reads from its log: it ends with the completion notice exactly
   * when preprocessing succeeded and every chunk was transcribed without a
   * cancellation request, and with an error notice exactly when preprocessing
   * or a request failed. A completed run got an ok response for every chunk.
   */
  lemma RunOutcome(shouldDownsample: bool, decoded: Result<AudioBuffer>, respond: nat -> Retry.Response,
                   cancel: nat -> bool, model: string, n: nat)
    ensures var log := RunLog(shouldDownsample, decoded, respond, cancel, model, n);
      && |log| > 0
      && (log[|log| - 1] == TranscriptionCompleted <==>
            decoded.Success? && StopIndex(respond, cancel, n) == n && !cancel(n))
      && (log[|log| - 1].TranscriptionError? <==> RunError(decoded, respond, cancel, n).Some?)
      && (log[|log| - 1] == TranscriptionCompleted ==> forall j :: 0 <= j < n ==> respond(j).Ok? && !cancel(j))
  {
    var log := RunLog(shouldDownsample, decoded, respond, cancel, model, n);
    var preprocessing := [StartingTranscription] + PreprocessLog(shouldDownsample, decoded);
    var error := RunError(decoded, respond, cancel, n);
    var k := StopIndex(respond, cancel, n);
    FirstStopSpec(Stops(respond, cancel), n);
    if decoded.Failure? {
      assert log == preprocessing + [TranscriptionError(decoded.message)];
    } else {
      var loop := LoopLog(respond, cancel, model, n);
      var cancelled := Cancelled(respond, cancel, n);
      assert log == preprocessing + loop + EndLog(error, cancelled);
      if error.Some? {
        assert log[|log| - 1] == TranscriptionError(error.value);
      } else if cancelled {
        assert EndLog(error, cancelled) == [];
        if k == n {
          assert loop == ChunksLog(respond, model, n, n) + [CancellationRequested];
        } else {
          assert loop == ChunksLog(respond, model, k, n) + [CancellationRequested, TranscriptionCancelled];
        }
        assert log[|log| - 1] == loop[|loop| - 1];
      } else {
        assert log[|log| - 1] == TranscriptionCompleted;
        assert k == n;
        forall j | 0 <= j < n
          ensures respond(j).Ok? && !cancel(j)
        {
          assert !Stops(respond, cancel)(j);
        }
      }
    }
  }

  /** How many chunks preprocessing produced: none when it failed. */
  function ChunkCount(preprocessed: Result<seq<seq<Byte>>>): nat
  {
    if preprocessed.Success? then |preprocessed.value| else 0
  }

  class Transcriber {
    var showSettings: bool
    var settings: Settings
    var debugLogs: seq<Message>
    var selectedFile: Option<string>
    var transcription: string
    var selectedModel: string
    var isTranscribing: bool
    var progress: real
    var cancelRequested: bool
    /** Every message logged since the log was last cleared; in debug mode, debugLogs holds all of them. */
    ghost var logged: seq<Message>

    /** In debug mode the debug log is everything logged; otherwise it stays empty. */
    ghost predicate Valid()
      reads this`debugLogs, this`logged, this`settings
    {
      debugLogs == if settings.debugMode then logged else []
    }

    /** data(): the settings read from local storage, everything else empty. */
    constructor(storage: map<string, string>)
      ensures Valid()
      ensures settings == LoadSettings(storage) && selectedModel == DefaultModel
      ensures !showSettings && debugLogs == [] && selectedFile == None && transcription == ""
      ensures !isTranscribing && progress == 0.0 && !cancelRequested
    {
      showSettings := false;
      settings := LoadSettings(storage);
      debugLogs := [];
      logged := [];
      selectedFile := None;
      transcription := "";
      selectedModel := DefaultModel;
      isTranscribing := false;
      progress := 0.0;
      cancelRequested := false;
    }

    /** mounted(): log that the application started. */
    method Mounted()
      requires Valid()
      modifies this`debugLogs, this`logged
      ensures Valid() && logged == old(logged) + [ApplicationInitialized]
    {
      AddLog(ApplicationInitialized);
    }

    /** addLog: in debug mode, push the message; the log is never shortened. */
    method AddLog(message: Message)
      requires Valid()
      modifies this`debugLogs, this`logged
      ensures Valid()
      ensures logged == old(logged) + [message]
      ensures debugLogs == old(debugLogs) + (if settings.debugMode then [message] else [])
    {
      if settings.debugMode {
        debugLogs := debugLogs + [message];
      }
      logged := logged + [message];
    }

    /** saveSettings: write the settings to local storage, close the dialog, log the key's length. */
    method SaveSettings(storage: map<string, string>) returns (saved: map<string, string>)
      requires Valid()
      modifies this`showSettings, this`debugLogs, this`logged
      ensures Valid()
      ensures saved == StoreSettings(storage, settings) && !showSettings
      ensures logged == old(logged) + [SettingsSaved(|settings.groqApiKey|)]
    {
      saved := storage[GroqKeyItem := settings.groqApiKey];
      saved := saved[DebugModeItem := StoredFlag(settings.debugMode)];
      saved := saved[DownsampleItem := StoredFlag(settings.downsampleAudio)];
      showSettings := false;
      AddLog(SettingsSaved(|settings.groqApiKey|));
    }

    /**
     * handleFileSelect: remember the chosen file and log its name. With no file chosen,
     * `files[0]` is undefined: the handler stores it and then throws on its
     * name before logging anything.
     */
    method HandleFileSelect(file: Option<string>)
      requires Valid()
      modifies this`selectedFile, this`debugLogs, this`logged
      ensures Valid()
      ensures selectedFile == file
      ensures file.Some? ==> logged == old(logged) + [FileSelected(file.value)]
      ensures file.None? ==> unchanged(this`debugLogs, this`logged)
    {
      selectedFile := file;
      if file.Some? {
        AddLog(FileSelected(file.value));
      }
    }

    /** cancelTranscription: raise the flag the loop checks before each chunk. */
    method CancelTranscription()
      requires Valid()
      modifies this`cancelRequested, this`debugLogs, this`logged
      ensures Valid() && cancelRequested
      ensures logged == old(logged) + [CancellationRequested]
    {
      cancelRequested := true;
      AddLog(CancellationRequested);
    }

    /** resetAll: clear the file, the transcript, the progress, both flags and the log. */
    method ResetAll()
      requires Valid()
      modifies this`selectedFile, this`transcription, this`progress, this`isTranscribing, this`cancelRequested,
               this`debugLogs, this`logged
      ensures Valid()
      ensures selectedFile == None && transcription == "" && progress == 0.0 && !isTranscribing && !cancelRequested
      ensures logged == [AllDataReset]
      ensures debugLogs == if settings.debugMode then [AllDataReset] else []
    {
      selectedFile := None;
      transcription := "";
      progress := 0.0;
      isTranscribing := false;
      cancelRequested := false;
      debugLogs := [];
      logged := [];
      AddLog(AllDataReset);
    }

    /** newTranscription: clear the file, the transcript and the progress; the log is kept. */
    method NewTranscription()
      requires Valid()
      modifies this`selectedFile, this`transcription, this`progress, this`debugLogs, this`logged
      ensures Valid()
      ensures selectedFile == None && transcription == "" && progress == 0.0
      ensures logged == old(logged) + [NewTranscriptionInitiated]
    {
      selectedFile := None;
      transcription := "";
      progress := 0.0;
      AddLog(NewTranscriptionInitiated);
    }

    /**
     * preprocessAudio of js/audioProcessing.js, logging through addLog:
     * decode, downmix, resample to 16 kHz when asked, and cut into WAV
     * chunks labelled with the decoded rate. A decoding failure is thrown
     * after the decoding notice.
     */
    method PreprocessAudio(decoded: Result<AudioBuffer>, shouldDownsample: bool, resample: (seq<real>, nat, nat) -> seq<real>)
      returns (chunks: Result<seq<seq<Byte>>>)
      requires Valid()
      requires decoded.Success? ==> ValidBuffer(decoded.value)
      modifies this`debugLogs, this`logged
      ensures Valid()
      ensures chunks == Preprocessed(decoded, shouldDownsample, resample)
      ensures logged == old(logged) + PreprocessLog(shouldDownsample, decoded)
    {
      AddLog(StartingPreprocessing);
      AddLog(DecodingAudio);
      AppendAssoc(old(logged), [StartingPreprocessing], [DecodingAudio]);
      ghost var entries := [StartingPreprocessing] + [DecodingAudio];
      if decoded.Failure? {
        return Failure(decoded.message);
      }
      var audioBuffer := decoded.value;
      AddLog(ConvertingToMono);
      AppendAssoc(old(logged), entries, [ConvertingToMono]);
      entries := entries + [ConvertingToMono];
      var monoBuffer := ConvertToMono(audioBuffer);
      var processedBuffer := monoBuffer[..];
      if shouldDownsample {
        AddLog(Downsampling);
        AppendAssoc(old(logged), entries, [Downsampling]);
        entries := entries + [Downsampling];
        processedBuffer := resample(monoBuffer[..], audioBuffer.sampleRate, TargetSampleRate);
      }
      AddLog(ChunkingAudio);
      AppendAssoc(old(logged), entries, [ChunkingAudio]);
      entries := entries + [ChunkingAudio];
      var wavs := ChunkAudioData(processedBuffer, audioBuffer.sampleRate);
      AddLog(PreprocessingCompleted);
      AppendAssoc(old(logged), entries, [PreprocessingCompleted]);
      chunks := Success(wavs);
    }

    /**
     * The request of one pass of the loop for chunk i of n: log the chunk,
     * the URL and the model, send, log the status, and throw on a response
     * that is not ok. Returns the text or the error thrown.
     */
    method RequestChunk(i: nat, n: nat, response: Retry.Response) returns (result: Result<string>)
      requires Valid()
      modifies this`debugLogs, this`logged
      ensures Valid()
      ensures result == if response.Ok? then Success(response.text) else Failure(RequestError(response))
      ensures logged == old(logged) + RequestLog(i, n, selectedModel, response)
    {
      AddLog(TranscribingChunk(i + 1, n));
      AddLog(SendingRequest(ApiUrl));
      AppendAssoc(old(logged), [TranscribingChunk(i + 1, n)], [SendingRequest(ApiUrl)]);
      AddLog(UsingModel(selectedModel));
      AppendAssoc(old(logged), [TranscribingChunk(i + 1, n)] + [SendingRequest(ApiUrl)], [UsingModel(selectedModel)]);
      if response.Thrown? {
        return Failure(response.message);
      }
      AddLog(ResponseStatus(response.status));
      AppendAssoc(old(logged), [TranscribingChunk(i + 1, n)] + [SendingRequest(ApiUrl)] + [UsingModel(selectedModel)],
                  [ResponseStatus(response.status)]);
      if response.HttpError? {
        return Failure(RequestError(response));
      }
      if response.Unreadable? {
        return Failure(response.message);
      }
      result := Success(response.text);
    }

    /**
     * A click on Cancel while a chunk is in flight (or before the first one),
     * then the check the loop makes before the next chunk: the flag is up, so
     * the loop logs the cancellation.
     */
    method CancelAndStop()
      requires Valid()
      modifies this`cancelRequested, this`debugLogs, this`logged
      ensures Valid() && cancelRequested
      ensures logged == old(logged) + [CancellationRequested, TranscriptionCancelled]
    {
      CancelTranscription();
      if cancelRequested {
        AddLog(TranscriptionCancelled);
      }
      AppendAssoc(old(logged), [CancellationRequested], [TranscriptionCancelled]);
    }

    /**
     * After the last pass: a click on Cancel during the last request raises
     * the flag too late to stop a chunk, and only keeps the completion notice
     * out of the log.
     */
    method EndLoop(ghost before: seq<Message>, n: nat, ghost respond: nat -> Retry.Response, cancel: nat -> bool)
      requires Valid() && !cancelRequested && StopIndex(respond, cancel, n) == n
      requires logged == before + ChunksLog(respond, selectedModel, n, n)
      modifies this`cancelRequested, this`debugLogs, this`logged
      ensures Valid() && cancelRequested == cancel(n)
      ensures logged == before + LoopLog(respond, cancel, selectedModel, n)
    {
      if cancel(n) {
        CancelTranscription();
        AppendAssoc(before, ChunksLog(respond, selectedModel, n, n), [CancellationRequested]);
      }
    }

    /**
     * What the page shows after k of n chunks, given the transcript and the
     * progress before the loop: the text so far is each chunk's text followed
     * by a space, and once a chunk is done the transcript shows that text and
     * the progress is k / n of 100.
     */
    ghost predicate Shown(respond: nat -> Retry.Response, k: nat, n: nat, fullTranscription: string,
                          transcription0: string, progress0: real)
      reads this`transcription, this`progress
    {
      && fullTranscription == Accumulated(respond, k)
      && transcription == (if k > 0 then fullTranscription else transcription0)
      && progress == (if k > 0 then Progress(k, n) else progress0)
    }

    /** The end of a pass whose request succeeded: append the text and a space, show it, advance the progress. */
    method ShowChunk(ghost respond: nat -> Retry.Response, i: nat, n: nat, fullTranscription: string, text: string,
                     ghost transcription0: string, ghost progress0: real)
      returns (extended: string)
      requires i < n && respond(i).Ok? && text == respond(i).text
      requires Shown(respond, i, n, fullTranscription, transcription0, progress0)
      modifies this`transcription, this`progress
      ensures Shown(respond, i + 1, n, extended, transcription0, progress0)
    {
      extended := fullTranscription + text + " ";
      transcription := extended;
      progress := Progress(i + 1, n);
    }

    /**
     * One pass of the loop of transcribeAudio, for chunk i of n: stop if
     * cancellation was requested; otherwise request the chunk, and either
     * stop with the request's error or show its text and the progress.
     * Returns whether the loop stops here, the error, and the text so far.
     */
    method TranscribePass(ghost before: seq<Message>, i: nat, n: nat, respond: nat -> Retry.Response, cancel: nat -> bool,
                          fullTranscription: string, ghost transcription0: string, ghost progress0: real)
      returns (stop: bool, error: Option<string>, extended: string)
      requires Valid() && !cancelRequested && i < n && StopIndex(respond, cancel, i) == i
      requires Shown(respond, i, n, fullTranscription, transcription0, progress0)
      requires logged == before + ChunksLog(respond, selectedModel, i, n)
      modifies this`cancelRequested, this`debugLogs, this`logged, this`transcription, this`progress
      ensures Valid()
      ensures stop ==> Stopped(before, respond, cancel, i, n, extended, error, transcription0, progress0)
      ensures !stop ==> Passed(before, respond, cancel, i, n, extended, transcription0, progress0)
    {
      if cancel(i) {
        StopAtCancel(before, i, n, respond, cancel);
        return true, None, fullTranscription;
      }
      stop, error, extended := RequestPass(before, i, n, respond, cancel, fullTranscription, transcription0, progress0);
    }

    /** How a pass that stops the loop at chunk i of n leaves the page, for a log that held `before`. */
    ghost predicate Stopped(before: seq<Message>, respond: nat -> Retry.Response, cancel: nat -> bool, i: nat, n: nat,
                            fullTranscription: string, error: Option<string>, transcription0: string, progress0: real)
      reads this`transcription, this`progress, this`cancelRequested, this`logged, this`selectedModel
    {
      && StopIndex(respond, cancel, n) == i
      && Shown(respond, i, n, fullTranscription, transcription0, progress0)
      && error == LoopError(respond, cancel, n)
      && cancelRequested == Cancelled(respond, cancel, n)
      && logged == before + LoopLog(respond, cancel, selectedModel, n)
    }

    /** How a pass that completes chunk i of n leaves the page, for a log that held `before`. */
    ghost predicate Passed(before: seq<Message>, respond: nat -> Retry.Response, cancel: nat -> bool, i: nat, n: nat,
                           fullTranscription: string, transcription0: string, progress0: real)
      reads this`transcription, this`progress, this`cancelRequested, this`logged, this`selectedModel
    {
      && StopIndex(respond, cancel, i + 1) == i + 1 && !cancelRequested
      && Shown(respond, i + 1, n, fullTranscription, transcription0, progress0)
      && logged == before + ChunksLog(respond, selectedModel, i + 1, n)
    }

    /** A pass that finds cancellation requested before chunk i: log it and stop there. */
    method StopAtCancel(ghost before: seq<Message>, i: nat, n: nat, ghost respond: nat -> Retry.Response, ghost cancel: nat -> bool)
      requires Valid() && i < n && cancel(i) && StopIndex(respond, cancel, i) == i
      requires logged == before + ChunksLog(respond, selectedModel, i, n)
      modifies this`cancelRequested, this`debugLogs, this`logged
      ensures Valid()
      ensures StopIndex(respond, cancel, n) == i && LoopError(respond, cancel, n) == None
      ensures cancelRequested == Cancelled(respond, cancel, n)
      ensures logged == before + LoopLog(respond, cancel, selectedModel, n)
    {
      CancelAndStop();
      CancelledAt(respond, cancel, selectedModel, n, i);
      AppendAssoc(before, ChunksLog(respond, selectedModel, i, n), [CancellationRequested, TranscriptionCancelled]);
    }

    /** A pass that requests chunk i: stop with the request's error, or show the text and the progress. */
    method RequestPass(ghost before: seq<Message>, i: nat, n: nat, respond: nat -> Retry.Response, ghost cancel: nat -> bool,
                       fullTranscription: string, ghost transcription0: string, ghost progress0: real)
      returns (stop: bool, error: Option<string>, extended: string)
      requires Valid() && !cancelRequested && i < n && !cancel(i) && StopIndex(respond, cancel, i) == i
      requires Shown(respond, i, n, fullTranscription, transcription0, progress0)
      requires logged == before + ChunksLog(respond, selectedModel, i, n)
      modifies this`debugLogs, this`logged, this`transcription, this`progress
      ensures Valid()
      ensures stop ==> Stopped(before, respond, cancel, i, n, extended, error, transcription0, progress0)
      ensures !stop ==> Passed(before, respond, cancel, i, n, extended, transcription0, progress0)
    {
      var result := RequestChunk(i, n, respond(i));
      AppendAssoc(before, ChunksLog(respond, selectedModel, i, n), RequestLog(i, n, selectedModel, respond(i)));
      if result.Failure? {
        FailsAt(respond, cancel, selectedModel, n, i);
        return true, Some(result.message), fullTranscription;
      }
      extended := ShowChunk(respond, i, n, fullTranscription, result.value, transcription0, progress0);
      stop, error := false, None;
    }

    /**
     * The loop of transcribeAudio over n chunks: before each chunk, stop if
     * cancellation was requested; otherwise request the chunk and append its
     * text to the transcript shown, advancing the progress. A failed request
     * ends the loop with its error.
     */
    method TranscribeChunks(n: nat, respond: nat -> Retry.Response, cancel: nat -> bool)
      returns (fullTranscription: string, error: Option<string>)
      requires Valid() && !cancelRequested
      modifies this`cancelRequested, this`debugLogs, this`logged, this`transcription, this`progress
      ensures Valid()
      ensures Shown(respond, StopIndex(respond, cancel, n), n, fullTranscription, old(transcription), old(progress))
      ensures error == LoopError(respond, cancel, n)
      ensures cancelRequested == Cancelled(respond, cancel, n)
      ensures logged == old(logged) + LoopLog(respond, cancel, selectedModel, n)
    {
      fullTranscription := "";
      error := None;
      var i := 0;
      while i < n
        invariant i <= n
        invariant StopIndex(respond, cancel, i) == i
        invariant Valid() && !cancelRequested
        invariant Shown(respond, i, n, fullTranscription, old(transcription), old(progress))
        invariant logged == old(logged) + ChunksLog(respond, selectedModel, i, n)
      {
        var stop, passError;
        stop, passError, fullTranscription := TranscribePass(old(logged), i, n, respond, cancel, fullTranscription,
                                                             old(transcription), old(progress));
        if stop {
          return fullTranscription, passError;
        }
        assert Passed(old(logged), respond, cancel, i, n, fullTranscription, old(transcription), old(progress));
        i := i + 1;
      }
      FirstStopAt(Stops(respond, cancel), n, n);
      EndLoop(old(logged), n, respond, cancel);
    }

    /**
     * What transcribeAudio leaves, once a file is selected, for a log that
     * held `before`: the run's log, the transcript and the progress of the
     * chunks completed, both flags down.
     */
    ghost predicate Ended(before: seq<Message>, shouldDownsample: bool, decoded: Result<AudioBuffer>,
                          respond: nat -> Retry.Response, cancel: nat -> bool, n: nat)
      reads this`logged, this`transcription, this`progress, this`isTranscribing, this`cancelRequested, this`selectedModel
    {
      var k := StopIndex(respond, cancel, n);
      && logged == before + RunLog(shouldDownsample, decoded, respond, cancel, selectedModel, n)
      && transcription == Accumulated(respond, k)
      && progress == Progress(k, n)
      && !isTranscribing && !cancelRequested
    }

    /**
     * transcribeAudio: without a file, log it and stop; otherwise preprocess,
     * transcribe the chunks one request each, and log how the run ended.
     * Returns, as a ghost, what preprocessing yielded.
     */
    method TranscribeAudio(decoded: Result<AudioBuffer>, resample: (seq<real>, nat, nat) -> seq<real>,
                           respond: nat -> Retry.Response, cancel: nat -> bool)
      returns (ghost preprocessed: Result<seq<seq<Byte>>>)
      requires Valid()
      requires decoded.Success? ==> ValidBuffer(decoded.value)
      modifies this`isTranscribing, this`progress, this`transcription, this`cancelRequested, this`debugLogs, this`logged
      ensures Valid()
      ensures selectedFile.None? ==>
        && logged == old(logged) + [NoFileSelected]
        && transcription == old(transcription) && progress == old(progress) && isTranscribing == old(isTranscribing)
        && cancelRequested == old(cancelRequested)
      ensures selectedFile.Some? ==>
        && preprocessed == Preprocessed(decoded, settings.downsampleAudio, resample)
        && Ended(old(logged), settings.downsampleAudio, decoded, respond, cancel, ChunkCount(preprocessed))
    {
      if selectedFile.None? {
        AddLog(NoFileSelected);
        return Failure("");
      }
      BeginTranscription();
      var chunks := PreprocessAudio(decoded, settings.downsampleAudio, resample);
      preprocessed := chunks;
      AppendAssoc(old(logged), [StartingTranscription], PreprocessLog(settings.downsampleAudio, decoded));
      if chunks.Failure? {
        EndPreprocessingFailed(old(logged), decoded, chunks, respond, cancel);
      } else {
        TranscribePreprocessed(old(logged), decoded, chunks, respond, cancel);
      }
    }

    /** The start of transcribeAudio once a file is selected: raise the flag, clear the progress and the transcript, log. */
    method BeginTranscription()
      requires Valid()
      modifies this`isTranscribing, this`progress, this`transcription, this`cancelRequested, this`debugLogs, this`logged
      ensures Valid()
      ensures isTranscribing && progress == 0.0 && transcription == "" && !cancelRequested
      ensures logged == old(logged) + [StartingTranscription]
    {
      isTranscribing := true;
      progress := 0.0;
      transcription := "";
      cancelRequested := false;
      AddLog(StartingTranscription);
    }

    /** The catch clause when preprocessing failed, then the finally clause. */
    method EndPreprocessingFailed(ghost before: seq<Message>, decoded: Result<AudioBuffer>, ghost preprocessed: Result<seq<seq<Byte>>>,
                                  ghost respond: nat -> Retry.Response, ghost cancel: nat -> bool)
      requires Valid() && decoded.Failure? && preprocessed.Failure?
      requires progress == 0.0 && transcription == ""
      requires logged == before + ([StartingTranscription] + PreprocessLog(settings.downsampleAudio, decoded))
      modifies this`isTranscribing, this`cancelRequested, this`debugLogs, this`logged
      ensures Valid() && Ended(before, settings.downsampleAudio, decoded, respond, cancel, ChunkCount(preprocessed))
    {
      AddLog(TranscriptionError(decoded.message));
      AppendAssoc(before, [StartingTranscription] + PreprocessLog(settings.downsampleAudio, decoded), [TranscriptionError(decoded.message)]);
      isTranscribing := false;
      cancelRequested := false;
    }

    /** The try block once preprocessing gave its chunks, then the finally clause. */
    method TranscribePreprocessed(ghost before: seq<Message>, decoded: Result<AudioBuffer>, preprocessed: Result<seq<seq<Byte>>>,
                                  respond: nat -> Retry.Response, cancel: nat -> bool)
      requires Valid() && decoded.Success? && preprocessed.Success?
      requires progress == 0.0 && transcription == "" && !cancelRequested
      requires logged == before + ([StartingTranscription] + PreprocessLog(settings.downsampleAudio, decoded))
      modifies this`isTranscribing, this`progress, this`transcription, this`cancelRequested, this`debugLogs, this`logged
      ensures Valid() && Ended(before, settings.downsampleAudio, decoded, respond, cancel, ChunkCount(preprocessed))
    {
      ghost var entries := [StartingTranscription] + PreprocessLog(settings.downsampleAudio, decoded);
      var n := |preprocessed.value|;
      var fullTranscription, error := TranscribeChunks(n, respond, cancel);
      AppendAssoc(before, entries, LoopLog(respond, cancel, selectedModel, n));
      entries := entries + LoopLog(respond, cancel, selectedModel, n);
      EndTry(error);
      AppendAssoc(before, entries, EndLog(error, Cancelled(respond, cancel, n)));
      isTranscribing := false;
      cancelRequested := false;
    }

    /** The end of the try block, or its catch clause when the block threw. */
    method EndTry(error: Option<string>)
      requires Valid()
      modifies this`debugLogs, this`logged
      ensures Valid()
      ensures logged == old(logged) + EndLog(error, cancelRequested)
    {
      if error.Some? {
        AddLog(TranscriptionError(error.value));
      } else if !cancelRequested {
        AddLog(TranscriptionCompleted);
      }
    }
  }
}
