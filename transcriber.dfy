/**
 * transcriber.py: `RealTimeTranscriber`, a FIFO of audio chunks drained by a worker that
 * saves each chunk as a WAV file, transcribes it and appends every segment, stripped and
 * followed by a space, to an accumulated transcript.
 *
 * The Whisper model is a function from the saved file to a `Decoding`: the segments, or a
 * raise in the call or part-way through the segments. Only `queue.Empty` is caught in
 * `transcribe_loop`, so a raise ends the worker thread. The segments yielded before it
 * stay in the transcript, and the temporary file stays on disk. Temporary files are
 * numbered in creation order, standing for the fresh names `tempfile` picks.
 */
module Transcriber {
  import opened Seqs
  import opened Wrappers
  import opened Text
  import opened Wav
  import opened Whisper

  /** `(audio_chunk.copy(), samplerate)` as held in `audio_queue`. */
  type Chunk = (Block, int)

  /** The file `_save_wav` writes for a chunk (transcriber.py:49-54). */
  function ChunkFile(c: Chunk): (w: WavFile)
    ensures w.header == Header(1, 2, c.1)
    ensures |w.frames| % 2 == 0 && Decode(w.frames) == c.0
  {
    MonoPcm16(c.1, c.0)
  }

  /** What one segment adds to the transcript: `seg.text.strip() + " "`. */
  function Piece(seg: string): string {
    Strip(seg) + " "
  }

  /** What the segments of one chunk add to the transcript (transcriber.py:33-34). */
  function SegmentsText(segs: seq<string>): string
    decreases |segs|
  {
    if segs == [] then "" else SegmentsText(segs[..|segs| - 1]) + Piece(segs[|segs| - 1])
  }

  /** The text of consecutive segment lists is the text of their concatenation. */
  lemma {:induction false} SegmentsTextAppend(a: seq<string>, b: seq<string>)
    ensures SegmentsText(a + b) == SegmentsText(a) + SegmentsText(b)
    decreases |b|
  {
    if b == [] {
      assert a + b == a;
    } else {
      var b' := b[..|b| - 1];
      var last := b[|b| - 1];
      var ab := a + b;
      assert ab[..|ab| - 1] == a + b';
      assert ab[|ab| - 1] == last;
      var sa, sb', p := SegmentsText(a), SegmentsText(b'), Piece(last);
      assert SegmentsText(ab) == SegmentsText(a + b') + p;
      assert SegmentsText(b) == sb' + p;
      SegmentsTextAppend(a, b');
      ConcatAssoc(sa, sb', p);
    }
  }

  /**
   * Each segment contributes its stripped text and exactly one space, so the transcript
   * of n segments ends in a space and is at least n characters long.
   */
  lemma {:induction false} SegmentsTextShape(segs: seq<string>)
    ensures |SegmentsText(segs)| >= |segs|
    ensures segs != [] ==> SegmentsText(segs)[|SegmentsText(segs)| - 1] == ' '
    decreases |segs|
  {
    if segs != [] {
      SegmentsTextShape(segs[..|segs| - 1]);
    }
  }

  /** The trailing space after the last segment never shows in a stripped read. */
  lemma TrailingSpaceInvisible(text: string, seg: string)
    ensures Strip(text + SegmentsText([seg])) == Strip(text + Strip(seg))
  {
    assert [seg][..0] == [];
    assert SegmentsText([seg]) == Piece(seg);
    assert (text + Strip(seg)) + " " == text + SegmentsText([seg]);
    StripAppendSpace(text + Strip(seg), " ");
  }

  /** How a run of the worker over a queue ends: the text it added, chunks taken, crash. */
  datatype Drained = Drained(text: string, handled: nat, crashed: bool)

  /**
   * The worker over the chunks of a queue, in order: each chunk's segments are appended
   * until the model raises. That ends the worker with the chunk taken off the queue and
   * the segments it yielded before raising appended.
   */
  function Drain(model: Model, q: seq<Chunk>): (d: Drained)
    ensures d.handled <= |q|
    ensures d.crashed ==> 0 < d.handled
    ensures !d.crashed ==> d.handled == |q|
    decreases |q|
  {
    if q == [] then Drained("", 0, false)
    else
      var t := model(ChunkFile(q[0]));
      if !t.Decoded? then Drained(SegmentsText(t.Yielded()), 1, true)
      else
        var rest := Drain(model, q[1..]);
        Drained(SegmentsText(t.segments) + rest.text, 1 + rest.handled, rest.crashed)
  }

  /**
   * The worker on a single chunk appends the text of every segment the generator yielded,
   * whether or not it raised afterwards, and crashes exactly when the model raised.
   */
  lemma DrainOne(model: Model, c: Chunk)
    ensures var t := model(ChunkFile(c));
            Drain(model, [c]) == Drained(SegmentsText(t.Yielded()), 1, !t.Decoded?)
  {
    assert [c][1..] == [];
    var t := model(ChunkFile(c));
    if t.Decoded? {
      assert SegmentsText(t.segments) + "" == SegmentsText(t.segments);
    }
  }

  /**
   * FIFO order: draining a queue and then whatever was enqueued after it is draining the
   * whole queue, and a crash in the first part leaves the rest untouched.
   */
  lemma {:induction false} DrainAppend(model: Model, q: seq<Chunk>, r: seq<Chunk>)
    ensures var dq := Drain(model, q);
            var dr := Drain(model, r);
            Drain(model, q + r)
            == if dq.crashed then dq else Drained(dq.text + dr.text, |q| + dr.handled, dr.crashed)
    decreases |q|
  {
    if q == [] {
      assert q + r == r;
    } else {
      assert (q + r)[0] == q[0];
      assert (q + r)[1..] == q[1..] + r;
      var t := model(ChunkFile(q[0]));
      if t.Decoded? {
        DrainAppend(model, q[1..], r);
        var a, b, c := SegmentsText(t.segments), Drain(model, q[1..]).text, Drain(model, r).text;
        ConcatAssoc(a, b, c);
      }
    }
  }

  /** One more chunk for a worker that has not crashed: outcomes and texts compose. */
  lemma DrainExtends(model: Model, q: seq<Chunk>, k: nat, t0: string)
    requires k < |q|
    ensures var o := Drain(model, q[..k]);
            var s := Drain(model, [q[k]]);
            var n := Drain(model, q[..k + 1]);
            !o.crashed ==>
              n.crashed == s.crashed && n.handled == k + 1 && t0 + n.text == (t0 + o.text) + s.text
  {
    DrainAppend(model, q[..k], [q[k]]);
    assert q[..k] + [q[k]] == q[..k + 1];
    ConcatAssoc(t0, Drain(model, q[..k]).text, Drain(model, [q[k]]).text);
  }

  /** A worker that crashed, or took every chunk, has the outcome of the whole queue. */
  lemma DrainEnds(model: Model, q: seq<Chunk>, k: nat)
    requires k <= |q|
    ensures var o := Drain(model, q[..k]);
            o.crashed || k == |q| ==> Drain(model, q) == o
  {
    if k == |q| {
      assert q[..k] == q;
    } else if Drain(model, q[..k]).crashed {
      DrainAppend(model, q[..k], q[k..]);
      assert q[..k] + q[k..] == q;
    }
  }

  /** The transcriber object of transcriber.py. */
  class RealTimeTranscriber {
    var audioQueue: seq<Chunk>
    var transcribedText: string
    var running: bool
    /** Whether the worker thread is still alive: a raising model call ends it. */
    var workerAlive: bool
    /** The temporary files on disk. */
    var files: map<nat, WavFile>
    var nextTemp: nat

    /** Every temporary file was created before the next fresh name. */
    predicate Valid()
      reads this
    {
      forall f :: f in files ==> f < nextTemp
    }

    /** `__init__` (transcriber.py:13-21): empty queue and transcript, worker started. */
    constructor ()
      ensures Valid()
      ensures audioQueue == [] && transcribedText == "" && running && workerAlive
      ensures files == map[] && nextTemp == 0
    {
      audioQueue, transcribedText, running, workerAlive := [], "", true, true;
      files, nextTemp := map[], 0;
    }

    /** `add_audio_chunk` (transcriber.py:23-24): enqueue the chunk with its sample rate. */
    method AddAudioChunk(chunk: Block, samplerate: int)
      modifies this
      ensures audioQueue == old(audioQueue) + [(chunk, samplerate)]
      ensures transcribedText == old(transcribedText) && running == old(running)
      ensures workerAlive == old(workerAlive) && files == old(files) && nextTemp == old(nextTemp)
    {
      audioQueue := audioQueue + [(chunk, samplerate)];
    }

    /** `_save_wav` (transcriber.py:49-54): one channel, two bytes per sample, the given rate. */
    method SaveWav(path: nat, data: Block, samplerate: int)
      modifies this
      ensures files == old(files)[path := ChunkFile((data, samplerate))]
      ensures files[path].header == Header(1, 2, samplerate)
      ensures audioQueue == old(audioQueue) && transcribedText == old(transcribedText)
      ensures running == old(running) && workerAlive == old(workerAlive) && nextTemp == old(nextTemp)
    {
      files := files[path := ChunkFile((data, samplerate))];
    }

    /** `for seg in segments` (transcriber.py:33-34): append each segment in order. */
    method AppendSegments(segments: seq<string>)
      modifies this
      ensures transcribedText == old(transcribedText) + SegmentsText(segments)
      ensures audioQueue == old(audioQueue) && running == old(running) && workerAlive == old(workerAlive)
      ensures files == old(files) && nextTemp == old(nextTemp)
    {
      ghost var t0 := transcribedText;
      for j := 0 to |segments|
        invariant transcribedText == t0 + SegmentsText(segments[..j])
        invariant audioQueue == old(audioQueue) && running == old(running) && workerAlive == old(workerAlive)
        invariant files == old(files) && nextTemp == old(nextTemp)
      {
        ghost var before := transcribedText;
        assert segments[..j + 1][..j] == segments[..j];
        assert segments[..j + 1][j] == segments[j];
        transcribedText := transcribedText + Piece(segments[j]);
        ConcatAssoc(t0, SegmentsText(segments[..j]), Piece(segments[j]));
      }
      assert segments[..|segments|] == segments;
    }

    /**
     * One iteration of `transcribe_loop` (transcriber.py:28-37). An empty queue changes
     * nothing. Otherwise the head chunk is taken, saved and transcribed, and the segments
     * the generator yields are appended in order. Then the file is removed, or, when the
     * model raised, the worker dies and the file stays on disk.
     */
    method TranscribeStep(model: Model)
      requires Valid() && workerAlive
      modifies this
      ensures Valid()
      ensures running == old(running)
      ensures old(audioQueue) == [] ==>
                audioQueue == [] && transcribedText == old(transcribedText) && workerAlive
                && files == old(files) && nextTemp == old(nextTemp)
      ensures old(audioQueue) != [] ==>
                var d := Drain(model, old(audioQueue)[..1]);
                audioQueue == old(audioQueue)[1..]
                && transcribedText == old(transcribedText) + d.text
                && workerAlive == !d.crashed
                && nextTemp == old(nextTemp) + 1
                && files == if d.crashed then old(files)[old(nextTemp) := ChunkFile(old(audioQueue)[0])]
                            else old(files)
    {
      if audioQueue == [] {
        return;
      }
      var c := audioQueue[0];
      audioQueue := audioQueue[1..];
      var path := nextTemp;
      nextTemp := nextTemp + 1;
      ghost var before := files;
      assert old(audioQueue)[..1] == [c];
      DrainOne(model, c);
      SaveWav(path, c.0, c.1);
      var result := model(files[path]);
      AppendSegments(result.Yielded());
      if !result.Decoded? {
        workerAlive := false;
        return;
      }
      files := files - {path};
      assert path !in before;
      assert files == before;
    }

    /**
     * `transcribe_loop` (transcriber.py:26-37) until the queue is drained or the worker
     * dies; once `stop` has cleared `running` it does nothing.
     */
    method TranscribeLoop(model: Model)
      requires Valid() && workerAlive
      modifies this
      ensures Valid() && running == old(running)
      ensures !old(running) ==>
                audioQueue == old(audioQueue) && transcribedText == old(transcribedText) && workerAlive
                && files == old(files) && nextTemp == old(nextTemp)
      ensures old(running) ==>
                var d := Drain(model, old(audioQueue));
                transcribedText == old(transcribedText) + d.text
                && audioQueue == old(audioQueue)[d.handled..]
                && workerAlive == !d.crashed
                && nextTemp == old(nextTemp) + d.handled
                && files == if d.crashed then old(files)[nextTemp - 1 := ChunkFile(old(audioQueue)[d.handled - 1])]
                            else old(files)
    {
      ghost var q0, t0, f0, n0 := audioQueue, transcribedText, files, nextTemp;
      ghost var k := 0;
      while running && workerAlive && audioQueue != []
        invariant Valid() && running == old(running)
        invariant 0 <= k <= |q0| && audioQueue == q0[k..]
        invariant var d := Drain(model, q0[..k]);
                  transcribedText == t0 + d.text && d.crashed == !workerAlive && d.handled == k
        invariant nextTemp == n0 + k
        invariant files == if workerAlive then f0 else f0[nextTemp - 1 := ChunkFile(q0[k - 1])]
        invariant !running ==> k == 0 && workerAlive
        decreases |audioQueue|
      {
        assert audioQueue[..1] == [q0[k]];
        DrainExtends(model, q0, k, t0);
        TranscribeStep(model);
        k := k + 1;
      }
      DrainEnds(model, q0, k);
    }

    /**
     * `get_current_transcription` (transcriber.py:39-40): the transcript without its
     * surrounding whitespace; it reads the object and changes nothing.
     */
    function GetCurrentTranscription(): (r: string)
      reads this
      ensures r == [] <==> AllSpace(transcribedText)
      ensures r != [] ==> !IsSpace(r[0]) && !IsSpace(r[|r| - 1])
      ensures var i := StripStart(transcribedText);
              i + |r| <= |transcribedText| && r == transcribedText[i..i + |r|]
    {
      StripFacts(transcribedText);
      Strip(transcribedText)
    }

    /** `reset` (transcriber.py:42-43): the transcript starts over; nothing else changes. */
    method Reset()
      modifies this
      ensures transcribedText == ""
      ensures audioQueue == old(audioQueue) && running == old(running) && workerAlive == old(workerAlive)
      ensures files == old(files) && nextTemp == old(nextTemp)
    {
      transcribedText := "";
    }

    /** `stop` (transcriber.py:45-47): clear `running`, which ends the loop. */
    method Stop()
      modifies this
      ensures !running
      ensures audioQueue == old(audioQueue) && transcribedText == old(transcribedText)
      ensures workerAlive == old(workerAlive) && files == old(files) && nextTemp == old(nextTemp)
    {
      running := false;
    }
  }
}
