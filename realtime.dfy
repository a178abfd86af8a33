/**
 * main.py: the capture buffer shared by the sound-device callback and the GUI, the
 * consumption cursor `processed_audio_index`, and the transcript accumulated by the
 * real-time transcription loop, the stop handler and `process_recording`.
 *
 * The module-level globals (`recording_active`, `audio_buffer`, the input stream) are the
 * fields of a `Recorder`; the application holds that recorder. The transcription backend
 * is a function from the WAV file sent to it to its raw text, `None` meaning the call
 * raised. Each step of a thread is one atomic method call.
 */
module Realtime {
  import opened Seqs
  import opened Wrappers
  import opened Text
  import opened Wav
  import Sentences

  const SampleRate: int := 44100
  const Channels: nat := 1

  /** The transcription backend: raw text for a WAV file, or `None` when it raises. */
  type Backend = WavFile -> Option<string>

  /** `transcribe_audio`: the backend's text with surrounding whitespace removed. */
  function TranscribeAudio(backend: Backend, audio: WavFile): (r: Option<string>)
    ensures r.None? <==> backend(audio).None?
    ensures r.Some? ==> r.value == Strip(backend(audio).value)
  {
    match backend(audio)
    case None => None
    case Some(text) => Some(Strip(text))
  }

  /** The file `write(wav_path, SAMPLE_RATE, data)` produces for a list of blocks. */
  function Recording(blocks: seq<Block>): (w: WavFile)
    ensures w.header == Header(Channels, 2, SampleRate)
    ensures |w.frames| % 2 == 0 && Decode(w.frames) == Concat(blocks)
  {
    MonoPcm16(SampleRate, Concat(blocks))
  }

  /** The capture globals of main.py. */
  class Recorder {
    var recordingActive: bool
    var audioBuffer: seq<Block>
    var streamOpen: bool

    constructor ()
      ensures !recordingActive && audioBuffer == [] && !streamOpen
    {
      recordingActive, audioBuffer, streamOpen := false, [], false;
    }

    /** `audio_callback` (main.py:46-50): keep a copy of the block only while recording. */
    method AudioCallback(block: Block)
      modifies this
      ensures audioBuffer == if old(recordingActive) then old(audioBuffer) + [block] else old(audioBuffer)
      ensures recordingActive == old(recordingActive) && streamOpen == old(streamOpen)
    {
      if recordingActive {
        audioBuffer := audioBuffer + [block];
      }
    }

    /** `start_recording` (main.py:54-62): recording on, buffer cleared, stream started. */
    method StartRecording()
      modifies this
      ensures recordingActive && audioBuffer == [] && streamOpen
    {
      recordingActive := true;
      audioBuffer := [];
      streamOpen := true;
    }

    /** `stop_recording` (main.py:65-69): recording off, stream stopped and closed. */
    method StopRecording()
      modifies this
      ensures !recordingActive && !streamOpen && audioBuffer == old(audioBuffer)
    {
      recordingActive := false;
      streamOpen := false;
    }
  }

  /** What the transcription thread sees between two ticks: a captured block, or a tick. */
  datatype Event = Captured(block: Block) | Tick(tempPath: string)

  /** What the capture callback and the transcription ticks change. */
  datatype Live = Live(buffer: seq<Block>, cursor: nat, transcription: string, status: string)

  /**
   * One event while recording and transcribing: a captured block joins the buffer, or a
   * tick sends the blocks past the cursor and, when there are some and the backend
   * answers, appends the stripped text and a space, moves the cursor past them and shows
   * the transcript (main.py:151-171).
   */
  function LiveStep(backend: Backend, s: Live, e: Event): (r: Live)
    requires s.cursor <= |s.buffer|
    ensures r.cursor <= |r.buffer|
  {
    match e
    case Captured(b) => s.(buffer := s.buffer + [b])
    case Tick(_) =>
      var current := s.buffer[s.cursor..];
      var outcome := TranscribeAudio(backend, Recording(current));
      if current == [] || outcome.None? then s
      else
        var t := s.transcription + outcome.value + " ";
        Live(s.buffer, s.cursor + |current|, t, "Real-time: " + t)
  }

  /** A run of events, in order. */
  function LiveRun(backend: Backend, s: Live, es: seq<Event>): (r: Live)
    requires s.cursor <= |s.buffer|
    ensures r.cursor <= |r.buffer|
    decreases |es|
  {
    if es == [] then s else LiveStep(backend, LiveRun(backend, s, es[..|es| - 1]), es[|es| - 1])
  }

  /** The blocks a run of events captures, in order. */
  function CapturedBlocks(es: seq<Event>): seq<Block>
    decreases |es|
  {
    if es == [] then []
    else CapturedBlocks(es[..|es| - 1]) + (if es[|es| - 1].Captured? then [es[|es| - 1].block] else [])
  }

  /**
   * Over a run, the buffer grows by exactly the captured blocks, the cursor only moves
   * forward and stays within the buffer, and the transcript only grows at its end.
   */
  lemma {:induction false} LiveRunFacts(backend: Backend, s: Live, es: seq<Event>)
    requires s.cursor <= |s.buffer|
    ensures var r := LiveRun(backend, s, es);
            r.buffer == s.buffer + CapturedBlocks(es)
            && s.cursor <= r.cursor <= |r.buffer|
            && s.transcription <= r.transcription
    decreases |es|
  {
    if es != [] {
      var init := es[..|es| - 1];
      LiveRunFacts(backend, s, init);
      var m := LiveRun(backend, s, init);
      match es[|es| - 1]
      case Captured(b) =>
        ConcatAssoc(s.buffer, CapturedBlocks(init), [b]);
      case Tick(_) =>
        assert CapturedBlocks(es) == CapturedBlocks(init) + [];
    }
  }

  /**
   * A tick that the backend answers catches the cursor up with the buffer: every block
   * captured so far has been sent, and the transcript ends with the answer and a space.
   */
  lemma TickCatchesUp(backend: Backend, s: Live, path: string)
    requires s.cursor <= |s.buffer|
    ensures var r := LiveStep(backend, s, Tick(path));
            var current := s.buffer[s.cursor..];
            var outcome := TranscribeAudio(backend, Recording(current));
            current != [] && outcome.Some? ==>
              r.cursor == |r.buffer| && r.transcription == s.transcription + outcome.value + " "
  {
  }

  /** The transcription state of the tkinter application in main.py. */
  class VoiceAssistantApp {
    const rec: Recorder
    var processedAudioIndex: nat
    var transcription: string
    var transcribingActive: bool
    var hasStream: bool
    var status: string
    /** The temporary WAV files on disk that this application created. */
    var tempFiles: set<string>

    /** The cursor never runs past the captured blocks. */
    predicate Valid()
      reads this, rec
    {
      processedAudioIndex <= |rec.audioBuffer|
    }

    /** The part of the application that capture and the ticks change. */
    function LiveOf(): Live
      reads this, rec
    {
      Live(rec.audioBuffer, processedAudioIndex, transcription, status)
    }

    constructor (rec: Recorder)
      ensures this.rec == rec && Valid()
      ensures processedAudioIndex == 0 && transcription == "" && !transcribingActive
      ensures !hasStream && status == "Click 'Start Recording' to begin." && tempFiles == {}
    {
      this.rec := rec;
      processedAudioIndex, transcription, transcribingActive := 0, "", false;
      hasStream, status, tempFiles := false, "Click 'Start Recording' to begin.", {};
    }

    /**
     * `start_recording_handler` (main.py:134-145): only when not recording, reset the cursor
     * and the transcript, and start capturing into an empty buffer.
     */
    method StartRecordingHandler()
      requires Valid()
      modifies this, rec
      ensures Valid()
      ensures old(rec.recordingActive) ==>
                unchanged(this) && unchanged(rec)
      ensures !old(rec.recordingActive) ==>
                processedAudioIndex == 0 && transcription == "" && transcribingActive
                && status == "Recording... Speak now!" && hasStream
                && rec.recordingActive && rec.audioBuffer == [] && rec.streamOpen
                && tempFiles == old(tempFiles)
    {
      if !rec.recordingActive {
        processedAudioIndex := 0;
        transcription := "";
        transcribingActive := true;
        status := "Recording... Speak now!";
        rec.StartRecording();
        hasStream := true;
      }
    }

    /**
     * One iteration of `realtime_transcription_loop` (main.py:151-171): transcribe the
     * blocks not yet transcribed. Nothing happens when there are none. On success the
     * stripped text and a space are appended and the cursor moves past the slice; when the
     * backend raises both stay as they were. The temporary file is removed on both paths.
     */
    method TranscriptionTick(backend: Backend, tempPath: string)
      requires Valid() && tempPath !in tempFiles
      modifies this
      ensures Valid() && tempFiles == old(tempFiles)
      ensures transcribingActive == old(transcribingActive) && hasStream == old(hasStream)
      ensures var current := rec.audioBuffer[old(processedAudioIndex)..];
              var outcome := TranscribeAudio(backend, Recording(current));
              if current == [] || outcome.None? then
                processedAudioIndex == old(processedAudioIndex) && transcription == old(transcription)
                && status == old(status)
              else
                processedAudioIndex == old(processedAudioIndex) + |current|
                && transcription == old(transcription) + outcome.value + " "
                && status == "Real-time: " + transcription
    {
      var current := rec.audioBuffer[processedAudioIndex..];
      if current == [] {
        return;
      }
      tempFiles := tempFiles + {tempPath};
      var chunkText := TranscribeAudio(backend, Recording(current));
      if chunkText.Some? {
        transcription := transcription + chunkText.value + " ";
        status := "Real-time: " + transcription;
        processedAudioIndex := processedAudioIndex + |current|;
      }
      tempFiles := tempFiles - {tempPath};
    }

    /**
     * `realtime_transcription_loop` (main.py:148-171) interleaved with the capture callback:
     * while recording and transcribing, each event captures a block or runs a tick, as
     * `LiveRun` describes; otherwise nothing happens.
     */
    method RealtimeTranscriptionLoop(backend: Backend, events: seq<Event>) returns (handled: nat)
      requires Valid()
      requires forall k :: 0 <= k < |events| ==> events[k].Tick? ==> events[k].tempPath !in tempFiles
      modifies this, rec
      ensures Valid() && tempFiles == old(tempFiles)
      ensures handled == if old(rec.recordingActive) && old(transcribingActive) then |events| else 0
      ensures LiveOf() == LiveRun(backend, old(LiveOf()), events[..handled])
      ensures rec.recordingActive == old(rec.recordingActive) && transcribingActive == old(transcribingActive)
      ensures rec.streamOpen == old(rec.streamOpen) && hasStream == old(hasStream)
    {
      ghost var s0 := LiveOf();
      handled := 0;
      while handled < |events| && rec.recordingActive && transcribingActive
        invariant Valid() && handled <= |events| && tempFiles == old(tempFiles)
        invariant !(rec.recordingActive && transcribingActive) ==> handled == 0
        invariant LiveOf() == LiveRun(backend, s0, events[..handled])
        invariant rec.recordingActive == old(rec.recordingActive)
        invariant transcribingActive == old(transcribingActive)
        invariant rec.streamOpen == old(rec.streamOpen) && hasStream == old(hasStream)
        decreases |events| - handled
      {
        ghost var before := LiveOf();
        assert events[..handled + 1][..handled] == events[..handled];
        assert events[..handled + 1][handled] == events[handled];
        match events[handled] {
          case Captured(block) =>
            rec.AudioCallback(block);
          case Tick(tempPath) =>
            TranscriptionTick(backend, tempPath);
        }
        assert LiveOf() == LiveStep(backend, before, events[handled]);
        handled := handled + 1;
      }
    }

    /**
     * `stop_and_process_handler` (main.py:174-194): when recording with a stream, stop
     * capturing and transcribing, transcribe what is left, and append it without a trailing
     * space and without moving the cursor. When that backend call raises, the exception
     * leaves the handler: the file is still removed, the status is not updated and
     * processing does not start. Returns whether `process_recording` was started.
     */
    method StopAndProcessHandler(backend: Backend, tempPath: string) returns (processing: bool)
      requires Valid() && tempPath !in tempFiles
      modifies this, rec
      ensures Valid() && tempFiles == old(tempFiles) && hasStream == old(hasStream)
      ensures processedAudioIndex == old(processedAudioIndex) && rec.audioBuffer == old(rec.audioBuffer)
      ensures !(old(rec.recordingActive) && old(hasStream)) ==>
                !processing && unchanged(this) && unchanged(rec)
      ensures old(rec.recordingActive) && old(hasStream) ==>
                var current := old(rec.audioBuffer)[old(processedAudioIndex)..];
                var outcome := TranscribeAudio(backend, Recording(current));
                !transcribingActive && !rec.recordingActive && !rec.streamOpen
                && (processing <==> current == [] || outcome.Some?)
                && (processing ==> status == "Processing final response...")
                && (!processing ==> status == old(status))
                && transcription == old(transcription) + (if processing && current != [] then outcome.value else "")
    {
      processing := false;
      if !(rec.recordingActive && hasStream) {
        return;
      }
      transcribingActive := false;
      rec.StopRecording();
      var current := rec.audioBuffer[processedAudioIndex..];
      if current != [] {
        tempFiles := tempFiles + {tempPath};
        var text := TranscribeAudio(backend, Recording(current));
        tempFiles := tempFiles - {tempPath};
        if text.None? {
          return;
        }
        transcription := transcription + text.value;
      }
      status := "Processing final response...";
      processing := true;
    }

    /**
     * `process_recording` (main.py:196-218) with the response stream given as its deltas
     * and whether it raises: an empty or whitespace-only transcript ends with "No speech
     * detected" and sends nothing; otherwise the stripped transcript is sent, every
     * sentence of the response is shown in turn, and the status ends on the last one. A
     * raising stream ends the streaming thread: the flush is skipped and no error is shown.
     */
    method ProcessRecording(deltas: seq<Option<string>>, raised: bool) returns (sent: Option<string>, spoken: seq<string>)
      modifies this
      ensures processedAudioIndex == old(processedAudioIndex) && transcription == old(transcription)
      ensures tempFiles == old(tempFiles) && transcribingActive == old(transcribingActive)
      ensures hasStream == old(hasStream)
      ensures Strip(transcription) == "" ==>
                sent == None && spoken == [] && status == "No speech detected"
      ensures Strip(transcription) != "" ==>
                sent == Some(Strip(transcription))
                && spoken == (if raised then Sentences.Pump("", deltas).spoken else Sentences.CallbackTexts(deltas))
                && status == (if spoken == [] then "Generating response..." else "Speaking: " + spoken[|spoken| - 1])
    {
      var transcribedText := Strip(transcription);
      if transcribedText == "" {
        status := "No speech detected";
        return None, [];
      }
      status := "Generating response...";
      sent := Some(transcribedText);
      var leftover;
      spoken, leftover := Sentences.StreamResponse(deltas, raised);
      // `on_sentence` runs once per sentence; the last call leaves its text in the status.
      if spoken != [] {
        status := "Speaking: " + spoken[|spoken| - 1];
      }
    }
  }
}
