/**
 * test.py: the chunk-and-clear variant of live transcription. The capture callback fills
 * `audio_buffer`; `chunking_worker` takes the whole buffer, clears it, writes it as a WAV
 * file and queues the file's path; `transcription_worker` takes paths off the queue,
 * transcribes each and extends `accumulated_text` with every non-empty partial.
 *
 * The module-level globals and the GUI's two text variables are the fields of one
 * `Session` object. The Whisper model is a function from a WAV file to a `Decoding`: the
 * segments, or a raise in the call or part-way through the segments. Nothing in
 * `transcription_worker` catches a raise, so the worker thread ends there. The file is
 * removed between the call and the iteration, so it stays on disk only when the call
 * itself raised. Temporary files are numbered in creation order, standing for the fresh
 * names `tempfile` picks.
 */
module Chunked {
  import opened Seqs
  import opened Wrappers
  import opened Text
  import opened Wav
  import opened Whisper

  const SampleRate: int := 44100
  const Channels: nat := 1

  /** Queued paths are distinct and in creation order. */
  predicate Increasing(q: seq<nat>) {
    forall i, j :: 0 <= i < j < |q| ==> q[i] < q[j]
  }

  /**
   * The temporary files and the path queue: every file is older than the next name, every
   * queued path names a file on disk, and the queue is in creation order.
   */
  predicate QueueOk(files: map<nat, WavFile>, next: nat, q: seq<nat>) {
    (forall f :: f in files ==> f < next) && AllOnDisk(files, q) && Increasing(q)
  }

  /** Writing a fresh file and queueing its path keeps the queue well formed. */
  lemma QueuePush(files: map<nat, WavFile>, next: nat, q: seq<nat>, w: WavFile)
    requires QueueOk(files, next, q)
    ensures next !in files && QueueOk(files[next := w], next + 1, q + [next])
  {
    var q' := q + [next];
    assert forall i :: 0 <= i < |q| ==> q'[i] == q[i] && q[i] < next;
  }

  /** Taking the head path, and removing its file, keeps the rest of the queue well formed. */
  lemma QueuePop(files: map<nat, WavFile>, next: nat, q: seq<nat>)
    requires QueueOk(files, next, q) && q != []
    ensures QueueOk(files, next, q[1..]) && QueueOk(files - {q[0]}, next, q[1..])
  {
    assert forall i :: 0 <= i < |q[1..]| ==> q[1..][i] == q[i + 1] && q[0] < q[i + 1];
  }

  /**
   * The worker's outcome on the head path: one partial and the file removed, or a crash,
   * which removed the file only when the segments, not the call, raised.
   */
  lemma TranscribeOne(model: Model, files: map<nat, WavFile>, q: seq<nat>, result: Decoding, acc: string)
    requires q != [] && AllOnDisk(files, q) && result == model(files[q[0]])
    ensures AllOnDisk(files, q[..1])
    ensures Transcripts(model, files, q[..1])
            == match result
               case Decoded(segs) => Outcome([Partial(segs)], 1, 1, false)
               case RaisedAtCall => Outcome([], 1, 0, true)
               case RaisedAfter(_) => Outcome([], 1, 1, true)
    ensures result.Decoded? ==> ExtendAll(acc, [Partial(result.segments)]) == Extend(acc, Partial(result.segments))
  {
    assert q[..1] == [q[0]] && [q[0]][1..] == [];
    if result.Decoded? { assert [Partial(result.segments)][..0] == []; }
  }

  /** A chunk appended to the chunk list extends the flattened blocks by that chunk. */
  lemma FlattenPush(chunks: seq<seq<Block>>, c: seq<Block>)
    ensures Flatten(chunks + [c]) == Flatten(chunks) + c
  {
    assert (chunks + [c])[..|chunks|] == chunks;
  }

  /** The blocks of consecutive chunks, in order. */
  function Flatten(chunks: seq<seq<Block>>): seq<Block>
    decreases |chunks|
  {
    if chunks == [] then [] else Flatten(chunks[..|chunks| - 1]) + chunks[|chunks| - 1]
  }

  /** `"".join(segment.text for segment in segments)`. */
  function JoinSegments(segs: seq<string>): string
    decreases |segs|
  {
    if segs == [] then "" else JoinSegments(segs[..|segs| - 1]) + segs[|segs| - 1]
  }

  /** The partial transcript of one chunk (test.py:112). */
  function Partial(segs: seq<string>): string {
    Strip(JoinSegments(segs))
  }

  /** The accumulation rule (test.py:113-114): only a non-empty partial is appended. */
  function Extend(acc: string, partial: string): string {
    if partial == "" then acc else acc + " " + partial
  }

  /** The accumulated text after a run of partials, in order. */
  function ExtendAll(acc: string, partials: seq<string>): string
    decreases |partials|
  {
    if partials == [] then acc
    else Extend(ExtendAll(acc, partials[..|partials| - 1]), partials[|partials| - 1])
  }

  /** The non-empty strings of `ps`, in order, separated by single spaces. */
  function SpaceJoin(ps: seq<string>): string
    decreases |ps|
  {
    if ps == [] then ""
    else
      var init := SpaceJoin(ps[..|ps| - 1]);
      var last := ps[|ps| - 1];
      if last == "" then init else if init == "" then last else init + " " + last
  }

  /** How the worker ends on a queue: the partials it produced, paths taken, files removed, crash. */
  datatype Outcome = Outcome(partials: seq<string>, handled: nat, removed: nat, crashed: bool)

  /** Every queued path names a file on disk. */
  predicate AllOnDisk(files: map<nat, WavFile>, q: seq<nat>) {
    forall i :: 0 <= i < |q| ==> q[i] in files
  }

  /**
   * The transcription worker over queued paths, in order, reading the files as they are
   * on disk: one partial per transcribed file, until the model raises. Each file is
   * removed once its call returned, so a crash in the segments removes the failing file
   * too, while a crash in the call leaves it.
   */
  function Transcripts(model: Model, files: map<nat, WavFile>, q: seq<nat>): (o: Outcome)
    requires AllOnDisk(files, q)
    ensures o.handled <= |q| && |o.partials| <= o.handled && o.removed <= o.handled
    ensures !o.crashed ==> o.handled == |q| && |o.partials| == |q| && o.removed == |q|
    ensures o.crashed ==>
              o.handled == |o.partials| + 1
              && (o.removed == |o.partials| || o.removed == o.handled)
              && (o.removed == |o.partials| <==> model(files[q[|o.partials|]]).RaisedAtCall?)
    decreases |q|
  {
    if q == [] then Outcome([], 0, 0, false)
    else
      match model(files[q[0]])
      case RaisedAtCall => Outcome([], 1, 0, true)
      case RaisedAfter(_) => Outcome([], 1, 1, true)
      case Decoded(segs) =>
        var rest := Transcripts(model, files, q[1..]);
        Outcome([Partial(segs)] + rest.partials, 1 + rest.handled, 1 + rest.removed, rest.crashed)
  }

  /** Extending by consecutive runs of partials is extending by their concatenation. */
  lemma {:induction false} ExtendAllAppend(acc: string, a: seq<string>, b: seq<string>)
    ensures ExtendAll(acc, a + b) == ExtendAll(ExtendAll(acc, a), b)
    decreases |b|
  {
    if b == [] {
      assert a + b == a;
    } else {
      var ab := a + b;
      assert ab[..|ab| - 1] == a + b[..|b| - 1];
      assert ab[|ab| - 1] == b[|b| - 1];
      ExtendAllAppend(acc, a, b[..|b| - 1]);
    }
  }

  /** FIFO order: the worker on a queue followed by more paths, in two runs. */
  lemma {:induction false} TranscriptsAppend(model: Model, files: map<nat, WavFile>, q: seq<nat>, r: seq<nat>)
    requires AllOnDisk(files, q) && AllOnDisk(files, r)
    ensures AllOnDisk(files, q + r)
    ensures var oq := Transcripts(model, files, q);
            var or := Transcripts(model, files, r);
            Transcripts(model, files, q + r)
            == if oq.crashed then oq
               else Outcome(oq.partials + or.partials, |q| + or.handled, |q| + or.removed, or.crashed)
    decreases |q|
  {
    AllOnDiskConcat(files, q, r);
    if q == [] {
      assert q + r == r;
    } else {
      var qr := q + r;
      assert qr[0] == q[0] && qr[1..] == q[1..] + r;
      AllOnDiskSlice(files, q, 1, |q|);
      match model(files[q[0]])
      case RaisedAtCall =>
      case RaisedAfter(_) =>
      case Decoded(segs) =>
        TranscriptsAppend(model, files, q[1..], r);
        ConcatAssoc([Partial(segs)], Transcripts(model, files, q[1..]).partials, Transcripts(model, files, r).partials);
    }
  }

  /** Two queues whose paths are on disk, one after the other. */
  lemma AllOnDiskConcat(files: map<nat, WavFile>, q: seq<nat>, r: seq<nat>)
    requires AllOnDisk(files, q) && AllOnDisk(files, r)
    ensures AllOnDisk(files, q + r)
  {
    forall i | 0 <= i < |q + r| ensures (q + r)[i] in files {
      if i < |q| { assert (q + r)[i] == q[i]; } else { assert (q + r)[i] == r[i - |q|]; }
    }
  }

  /** Every slice of a queue whose paths are on disk has its paths on disk. */
  lemma AllOnDiskSlice(files: map<nat, WavFile>, q: seq<nat>, i: nat, j: nat)
    requires AllOnDisk(files, q) && i <= j <= |q|
    ensures AllOnDisk(files, q[i..j])
  {
    assert forall t :: 0 <= t < j - i ==> q[i..j][t] == q[i + t];
  }

  /** Transcribing one path reads only that path's file. */
  lemma TranscriptsHead(model: Model, fa: map<nat, WavFile>, fb: map<nat, WavFile>, p: nat)
    requires p in fa && p in fb && fa[p] == fb[p]
    ensures AllOnDisk(fa, [p]) && AllOnDisk(fb, [p])
    ensures Transcripts(model, fa, [p]) == Transcripts(model, fb, [p])
  {
    assert [p][1..] == [];
  }

  /** One more path for a worker that has not crashed: outcomes and texts compose. */
  lemma WorkerExtends(model: Model, files: map<nat, WavFile>, q: seq<nat>, k: nat, acc: string)
    requires AllOnDisk(files, q) && k < |q|
    ensures AllOnDisk(files, q[..k]) && AllOnDisk(files, q[..k + 1]) && AllOnDisk(files, [q[k]])
    ensures var o := Transcripts(model, files, q[..k]);
            var s := Transcripts(model, files, [q[k]]);
            var n := Transcripts(model, files, q[..k + 1]);
            !o.crashed ==>
              n.crashed == s.crashed && n.handled == k + s.handled && n.removed == k + s.removed
              && ExtendAll(acc, n.partials) == ExtendAll(ExtendAll(acc, o.partials), s.partials)
  {
    AllOnDiskSlice(files, q, 0, k);
    AllOnDiskSlice(files, q, 0, k + 1);
    AllOnDiskSlice(files, q, k, k + 1);
    assert q[k..k + 1] == [q[k]];
    TranscriptsAppend(model, files, q[..k], [q[k]]);
    assert q[..k] + [q[k]] == q[..k + 1];
    ExtendAllAppend(acc, Transcripts(model, files, q[..k]).partials, Transcripts(model, files, [q[k]]).partials);
  }

  /**
   * One turn of `transcription_worker` keeps its loop invariant: the state after the path at
   * place `k` is the outcome of the first `k + 1` paths.
   */
  lemma WorkerStep(model: Model, f0: map<nat, WavFile>, q0: seq<nat>, k: nat, a0: string,
                   fk: map<nat, WavFile>, ak: string, fn: map<nat, WavFile>, an: string, alive: bool)
    requires AllOnDisk(f0, q0) && k < |q0| && AllOnDisk(f0, q0[..k]) && AllOnDisk(f0, [q0[k]])
    requires AllOnDisk(f0, q0[..k + 1])
    requires var o := Transcripts(model, f0, q0[..k]);
             !o.crashed && ak == ExtendAll(a0, o.partials) && fk == f0 - Taken(q0, o.removed)
    requires var s := Transcripts(model, f0, [q0[k]]);
             alive == !s.crashed && an == ExtendAll(ak, s.partials)
             && fn == if s.removed == 0 then fk else fk - {q0[k]}
    requires var o := Transcripts(model, f0, q0[..k]);
             var s := Transcripts(model, f0, [q0[k]]);
             var n := Transcripts(model, f0, q0[..k + 1]);
             n.crashed == s.crashed && n.handled == k + s.handled && n.removed == k + s.removed
             && ExtendAll(a0, n.partials) == ExtendAll(ExtendAll(a0, o.partials), s.partials)
    ensures var n := Transcripts(model, f0, q0[..k + 1]);
            an == ExtendAll(a0, n.partials) && n.crashed == !alive && n.handled == k + 1
            && fn == f0 - Taken(q0, n.removed)
  {
    TakenNext(f0, q0, k);
  }

  /** A worker that crashed, or took every path, has the outcome of the whole queue. */
  lemma WorkerEnds(model: Model, files: map<nat, WavFile>, q: seq<nat>, k: nat)
    requires AllOnDisk(files, q) && k <= |q|
    ensures AllOnDisk(files, q[..k])
    ensures var o := Transcripts(model, files, q[..k]);
            o.crashed || k == |q| ==> Transcripts(model, files, q) == o
  {
    AllOnDiskSlice(files, q, 0, k);
    AllOnDiskSlice(files, q, k, |q|);
    TranscriptsAppend(model, files, q[..k], q[k..]);
    assert q[..k] + q[k..] == q;
    var o := Transcripts(model, files, q[..k]);
    assert o.partials + [] == o.partials;
  }

  /** From an empty transcript, the accumulated text is a space before the joined partials. */
  lemma {:induction false} ExtendAllFromEmpty(ps: seq<string>)
    ensures ExtendAll("", ps) == if SpaceJoin(ps) == "" then "" else " " + SpaceJoin(ps)
    decreases |ps|
  {
    if ps != [] {
      var init, last := ps[..|ps| - 1], ps[|ps| - 1];
      ExtendAllFromEmpty(init);
      var j := SpaceJoin(init);
      if last != "" && j != "" {
        ConcatAssoc(" ", j, " " + last);
        ConcatAssoc(j, " ", last);
        assert " " + j + " " + last == " " + (j + " " + last);
      }
    }
  }

  /** A string that `strip` leaves as it is. */
  predicate Stripped(s: string) {
    s == [] || (!IsSpace(s[0]) && !IsSpace(s[|s| - 1]))
  }

  /** Every string of `ps` is stripped. */
  predicate AllStripped(ps: seq<string>) {
    forall k :: 0 <= k < |ps| ==> Stripped(ps[k])
  }

  /** Joining stripped strings with single spaces gives a stripped string. */
  lemma {:induction false} SpaceJoinStripped(ps: seq<string>)
    requires AllStripped(ps)
    ensures Stripped(SpaceJoin(ps))
    decreases |ps|
  {
    if ps != [] {
      var init := ps[..|ps| - 1];
      assert forall k :: 0 <= k < |init| ==> init[k] == ps[k];
      SpaceJoinStripped(init);
      var j, last := SpaceJoin(init), ps[|ps| - 1];
      if last != "" && j != "" {
        var t := j + " " + last;
        assert t[0] == j[0] && t[|t| - 1] == last[|last| - 1];
      }
    }
  }

  lemma StripOfStripped(s: string)
    requires Stripped(s)
    ensures Strip(s) == s
  {
    if s != [] {
      assert TrimStart(s) == s;
      assert TrimEnd(s) == s;
    }
  }

  lemma StripLeadingSpace(s: string)
    requires Stripped(s) && s != []
    ensures Strip(" " + s) == s
  {
    var t := " " + s;
    assert t[1..] == s;
    assert TrimStart(t) == TrimStart(s);
    StripOfStripped(s);
  }

  /** Each partial is itself stripped. */
  lemma PartialStripped(segs: seq<string>)
    ensures Stripped(Partial(segs))
  {
    StripFacts(JoinSegments(segs));
  }

  /**
   * The live transcript the GUI shows, `accumulated_text.strip()`, is the non-empty
   * partials joined by single spaces.
   */
  lemma ViewIsSpaceJoin(ps: seq<string>)
    requires AllStripped(ps)
    ensures Strip(ExtendAll("", ps)) == SpaceJoin(ps)
  {
    ExtendAllFromEmpty(ps);
    SpaceJoinStripped(ps);
    if SpaceJoin(ps) != "" {
      StripLeadingSpace(SpaceJoin(ps));
    } else {
      assert Strip("") == "";
    }
  }

  /** Every partial the worker produces is stripped. */
  lemma {:induction false} TranscriptsStripped(model: Model, files: map<nat, WavFile>, q: seq<nat>)
    requires AllOnDisk(files, q)
    ensures AllStripped(Transcripts(model, files, q).partials)
    decreases |q|
  {
    if q != [] && model(files[q[0]]).Decoded? {
      assert AllOnDisk(files, q[1..]) by {
        forall i | 0 <= i < |q[1..]| ensures q[1..][i] in files { assert q[1..][i] == q[i + 1]; }
      }
      TranscriptsStripped(model, files, q[1..]);
      var p := Partial(model(files[q[0]]).segments);
      PartialStripped(model(files[q[0]]).segments);
      var rest := Transcripts(model, files, q[1..]).partials;
      assert Transcripts(model, files, q).partials == [p] + rest;
      assert forall k :: 0 < k < 1 + |rest| ==> ([p] + rest)[k] == rest[k - 1];
    }
  }

  /**
   * From an empty transcript, the label the worker leaves is the non-empty partials of the
   * transcribed chunks, in queue order, separated by single spaces.
   */
  lemma LiveTranscript(model: Model, files: map<nat, WavFile>, q: seq<nat>)
    requires AllOnDisk(files, q)
    ensures var ps := Transcripts(model, files, q).partials;
            Strip(ExtendAll("", ps)) == SpaceJoin(ps)
  {
    TranscriptsStripped(model, files, q);
    ViewIsSpaceJoin(Transcripts(model, files, q).partials);
  }

  /** The paths at the first `n` places of a queue. */
  function Taken(q: seq<nat>, n: nat): set<nat>
    requires n <= |q|
  {
    set i | 0 <= i < n :: q[i]
  }

  lemma TakenNext(files: map<nat, WavFile>, q: seq<nat>, n: nat)
    requires n < |q|
    ensures Taken(q, n + 1) == Taken(q, n) + {q[n]}
    ensures files - Taken(q, n) - {q[n]} == files - Taken(q, n + 1)
  {
    assert q[n] in Taken(q, n + 1);
  }

  /** In a queue of distinct paths, the path at place `n` is not among those before it. */
  lemma TakenMissing(q: seq<nat>, n: nat)
    requires Increasing(q) && n < |q|
    ensures q[n] !in Taken(q, n)
  {
  }

  /** After a crash, the failing path's file is on disk exactly when it was not yet removed. */
  lemma TakenLeft(files: map<nat, WavFile>, q: seq<nat>, o: Outcome)
    requires AllOnDisk(files, q) && Increasing(q) && o.removed <= o.handled <= |q|
    requires o.crashed ==> o.handled == |o.partials| + 1 && (o.removed == |o.partials| || o.removed == o.handled)
    ensures o.crashed ==>
              |o.partials| < |q| && (q[|o.partials|] in files - Taken(q, o.removed) <==> o.removed == |o.partials|)
  {
    if o.crashed {
      TakenMissing(q, |o.partials|);
      if o.removed == o.handled {
        assert q[|o.partials|] in Taken(q, o.removed);
      }
    }
  }

  /** The state the capture callback and `chunking_worker` change. */
  datatype Chunking = Chunking(buffer: seq<Block>, chunks: seq<seq<Block>>, queue: seq<nat>,
                               files: map<nat, WavFile>, next: nat)

  /**
   * One event while recording: a block joins the buffer, or a tick turns a non-empty
   * buffer into a chunk, writes it to the next fresh file and queues that file's path.
   */
  function ChunkStep(c: Chunking, e: ChunkEvent): Chunking {
    match e
    case Captured(b) => c.(buffer := c.buffer + [b])
    case Tick =>
      if c.buffer == [] then c
      else Chunking([], c.chunks + [c.buffer], c.queue + [c.next],
                    c.files[c.next := MonoPcm16(SampleRate, Concat(c.buffer))], c.next + 1)
  }

  /** A run of events, in order. */
  function ChunkRun(c: Chunking, es: seq<ChunkEvent>): Chunking
    decreases |es|
  {
    if es == [] then c else ChunkStep(ChunkRun(c, es[..|es| - 1]), es[|es| - 1])
  }

  /** The blocks a run of events captures, in order. */
  function Captures(es: seq<ChunkEvent>): seq<Block>
    decreases |es|
  {
    if es == [] then []
    else Captures(es[..|es| - 1]) + (if es[|es| - 1].Captured? then [es[|es| - 1].block] else [])
  }

  /** The fresh names `a`, `a + 1`, ..., `b - 1`. */
  function Range(a: nat, b: nat): (r: seq<nat>)
    requires a <= b
    ensures |r| == b - a && forall k :: 0 <= k < |r| ==> r[k] == a + k
    decreases b - a
  {
    if a == b then [] else Range(a, b - 1) + [b - 1]
  }

  /**
   * No block is lost or reordered: the chunks taken during a run, followed by the buffer
   * left at its end, hold the blocks buffered before it and the blocks it captured.
   */
  lemma {:induction false} ChunkRunBlocks(c: Chunking, es: seq<ChunkEvent>)
    ensures var r := ChunkRun(c, es);
            c.chunks <= r.chunks
            && Flatten(r.chunks) + r.buffer == Flatten(c.chunks) + c.buffer + Captures(es)
    decreases |es|
  {
    if es != [] {
      var init, e := es[..|es| - 1], es[|es| - 1];
      ChunkRunBlocks(c, init);
      var m := ChunkRun(c, init);
      var before := Flatten(c.chunks) + c.buffer;
      match e
      case Captured(b) =>
        ConcatAssoc(Flatten(m.chunks), m.buffer, [b]);
        ConcatAssoc(before, Captures(init), [b]);
      case Tick =>
        if m.buffer != [] {
          FlattenPush(m.chunks, m.buffer);
          assert Flatten(m.chunks + [m.buffer]) + [] == Flatten(m.chunks + [m.buffer]);
        }
        assert Captures(es) == Captures(init) + [];
    }
  }

  /** The chunks from place `from` on were written, in order, to the files `next`, `next + 1`, .... */
  predicate WrittenFrom(r: Chunking, from: nat, next: nat) {
    forall j :: from <= j < |r.chunks| ==> WrittenAt(r, from, next, j)
  }

  /** Chunk `j` of the run, counted from place `from`, is in the file of its name. */
  predicate WrittenAt(r: Chunking, from: nat, next: nat, j: nat)
    requires from <= j < |r.chunks|
  {
    next + (j - from) in r.files && r.files[next + (j - from)] == MonoPcm16(SampleRate, Concat(r.chunks[j]))
  }

  /**
   * Every chunk `r` took after `c` got the next fresh name, in order: the queue grew by
   * exactly those names, each names a new file holding its chunk's samples, and the files
   * that were already there are kept.
   */
  predicate NamedInOrder(c: Chunking, r: Chunking) {
    |c.chunks| <= |r.chunks| && r.next == c.next + (|r.chunks| - |c.chunks|)
    && r.queue == c.queue + Range(c.next, r.next)
    && (forall f :: f in r.files ==> f < r.next)
    && (forall f :: f in c.files ==> f in r.files && r.files[f] == c.files[f])
    && WrittenFrom(r, |c.chunks|, c.next)
  }

  /** One event keeps the naming order. */
  lemma ChunkStepQueue(c: Chunking, m: Chunking, e: ChunkEvent)
    requires NamedInOrder(c, m)
    ensures NamedInOrder(c, ChunkStep(m, e))
  {
    var r := ChunkStep(m, e);
    if e.Tick? && m.buffer != [] {
      var f := MonoPcm16(SampleRate, Concat(m.buffer));
      assert r == Chunking([], m.chunks + [m.buffer], m.queue + [m.next], m.files[m.next := f], m.next + 1);
      assert Range(c.next, r.next) == Range(c.next, m.next) + [m.next];
      ConcatAssoc(c.queue, Range(c.next, m.next), [m.next]);
      assert forall g :: g in r.files ==> g < r.next;
      forall j | |c.chunks| <= j < |r.chunks|
        ensures WrittenAt(r, |c.chunks|, c.next, j)
      {
        if j < |m.chunks| {
          assert WrittenAt(m, |c.chunks|, c.next, j);
          assert r.chunks[j] == m.chunks[j];
          assert c.next + (j - |c.chunks|) < m.next;
        } else {
          assert r.chunks[j] == m.buffer && c.next + (j - |c.chunks|) == m.next;
        }
      }
    } else {
      assert r.chunks == m.chunks && r.files == m.files && r.queue == m.queue && r.next == m.next;
      forall j | |c.chunks| <= j < |r.chunks|
        ensures WrittenAt(r, |c.chunks|, c.next, j)
      {
        assert WrittenAt(m, |c.chunks|, c.next, j);
      }
    }
  }

  /** Every chunk taken during a run gets the next fresh name, in order. */
  lemma {:induction false} ChunkRunQueue(c: Chunking, es: seq<ChunkEvent>)
    requires forall f :: f in c.files ==> f < c.next
    ensures NamedInOrder(c, ChunkRun(c, es))
    decreases |es|
  {
    if es == [] {
      assert Range(c.next, c.next) == [] && c.queue + [] == c.queue;
    } else {
      ChunkRunQueue(c, es[..|es| - 1]);
      ChunkStepQueue(c, ChunkRun(c, es[..|es| - 1]), es[|es| - 1]);
    }
  }

  /** What a capture session and its two workers share in test.py. */
  class Session {
    var recordingActive: bool
    var audioBuffer: seq<Block>
    var streamOpen: bool
    var transcriptQueue: seq<nat>
    var accumulatedText: string
    var files: map<nat, WavFile>
    var nextTemp: nat
    var status: string
    var transcriptView: string
    /** Whether the transcription worker thread is still alive. */
    var workerAlive: bool
    /** The blocks captured in this recording session, in order. */
    ghost var captured: seq<Block>
    /** The chunks the chunking worker has taken in this session, in order. */
    ghost var chunks: seq<seq<Block>>

    /**
     * Every captured block is in exactly one chunk or still in the buffer, in capture order;
     * queued paths are distinct, increasing and name files on disk.
     */
    ghost predicate Valid()
      reads this
    {
      Flatten(chunks) + audioBuffer == captured
      && QueueOk(files, nextTemp, transcriptQueue)
    }

    /**
     * The live transcript label shows the accumulated text stripped. Only the transcription
     * worker changes either; every other method leaves both as they are.
     */
    ghost predicate Displayed()
      reads this
    {
      transcriptView == Strip(accumulatedText)
    }

    /** The part of the session that capture and chunking change. */
    ghost function Snapshot(): Chunking
      reads this
    {
      Chunking(audioBuffer, chunks, transcriptQueue, files, nextTemp)
    }

    constructor ()
      ensures Valid() && Displayed()
      ensures !recordingActive && audioBuffer == [] && !streamOpen && transcriptQueue == []
      ensures accumulatedText == "" && files == map[] && nextTemp == 0 && workerAlive
      ensures status == "" && transcriptView == "" && captured == [] && chunks == []
    {
      recordingActive, audioBuffer, streamOpen, transcriptQueue := false, [], false, [];
      accumulatedText, files, nextTemp, workerAlive := "", map[], 0, true;
      status, transcriptView := "", "";
      captured, chunks := [], [];
      assert Strip("") == "";
    }

    /** `audio_callback` (test.py:54-59): keep a copy of the block only while recording. */
    method AudioCallback(block: Block)
      requires Valid()
      modifies this
      ensures Valid()
      ensures audioBuffer == if old(recordingActive) then old(audioBuffer) + [block] else old(audioBuffer)
      ensures captured == if old(recordingActive) then old(captured) + [block] else old(captured)
      ensures chunks == old(chunks) && transcriptQueue == old(transcriptQueue) && files == old(files)
      ensures recordingActive == old(recordingActive) && nextTemp == old(nextTemp)
      ensures accumulatedText == old(accumulatedText) && transcriptView == old(transcriptView)
      ensures status == old(status) && workerAlive == old(workerAlive) && streamOpen == old(streamOpen)
    {
      if recordingActive {
        audioBuffer := audioBuffer + [block];
        captured := captured + [block];
        assert Flatten(chunks) + audioBuffer == (Flatten(chunks) + old(audioBuffer)) + [block];
      }
    }

    /**
     * One iteration of `chunking_worker` after its sleep (test.py:70-85). An empty buffer
     * changes nothing; otherwise the whole buffer is flushed into one chunk.
     */
    method ChunkingTick()
      requires Valid()
      modifies this
      ensures Valid()
      ensures old(audioBuffer) == [] ==> unchanged(this)
      ensures old(audioBuffer) != [] ==> FlushedFrom(old(chunks), old(audioBuffer), old(transcriptQueue), old(files), old(nextTemp))
      ensures captured == old(captured) && recordingActive == old(recordingActive)
      ensures accumulatedText == old(accumulatedText) && transcriptView == old(transcriptView)
      ensures status == old(status) && workerAlive == old(workerAlive) && streamOpen == old(streamOpen)
    {
      if audioBuffer != [] {
        FlushBuffer();
      }
    }

    /**
     * The state after the whole buffer `buffer` became one chunk: the buffer is empty, the
     * chunk was written to a fresh WAV file and that file's path was queued once.
     */
    ghost predicate FlushedFrom(chunks0: seq<seq<Block>>, buffer: seq<Block>, q0: seq<nat>, files0: map<nat, WavFile>, next0: nat)
      reads this
    {
      chunks == chunks0 + [buffer] && audioBuffer == []
      && transcriptQueue == q0 + [next0]
      && next0 !in files0 && files == files0[next0 := MonoPcm16(SampleRate, Concat(buffer))]
      && nextTemp == next0 + 1
    }

    /** The locked part of a `chunking_worker` iteration with a non-empty buffer (test.py:70-85). */
    method FlushBuffer()
      requires Valid()
      modifies this
      ensures Valid()
      ensures FlushedFrom(old(chunks), old(audioBuffer), old(transcriptQueue), old(files), old(nextTemp))
      ensures captured == old(captured) && recordingActive == old(recordingActive)
      ensures accumulatedText == old(accumulatedText) && transcriptView == old(transcriptView)
      ensures status == old(status) && workerAlive == old(workerAlive) && streamOpen == old(streamOpen)
    {
      var data, path := audioBuffer, nextTemp;
      var wav := MonoPcm16(SampleRate, Concat(data));
      QueuePush(files, path, transcriptQueue, wav);
      FlattenPush(chunks, data);
      ghost var c := chunks + [data];
      assert Flatten(c) + [] == captured by {
        assert Flatten(c) + [] == Flatten(c);
      }
      chunks := c;
      audioBuffer := [];
      files, nextTemp := files[path := wav], path + 1;
      transcriptQueue := transcriptQueue + [path];
    }

    /**
     * `chunking_worker` (test.py:62-85) interleaved with the capture callback: while
     * recording, each event captures a block or runs a tick, as `ChunkRun` describes; when
     * not recording, nothing happens.
     */
    method ChunkingWorker(events: seq<ChunkEvent>) returns (handled: nat)
      requires Valid()
      modifies this
      ensures Valid()
      ensures handled == if old(recordingActive) then |events| else 0
      ensures Snapshot() == ChunkRun(old(Snapshot()), events[..handled])
      ensures captured == old(captured) + Captures(events[..handled])
      ensures recordingActive == old(recordingActive) && streamOpen == old(streamOpen)
      ensures accumulatedText == old(accumulatedText) && transcriptView == old(transcriptView)
      ensures status == old(status) && workerAlive == old(workerAlive)
    {
      ghost var s0, c0 := Snapshot(), captured;
      handled := 0;
      while handled < |events| && recordingActive
        invariant Valid() && handled <= |events|
        invariant !recordingActive ==> handled == 0
        invariant Snapshot() == ChunkRun(s0, events[..handled])
        invariant captured == c0 + Captures(events[..handled])
        invariant recordingActive == old(recordingActive) && streamOpen == old(streamOpen)
        invariant accumulatedText == old(accumulatedText) && transcriptView == old(transcriptView)
        invariant status == old(status) && workerAlive == old(workerAlive)
        decreases |events| - handled
      {
        ghost var before, cap := Snapshot(), captured;
        assert events[..handled + 1][..handled] == events[..handled];
        assert events[..handled + 1][handled] == events[handled];
        match events[handled] {
          case Captured(block) =>
            AudioCallback(block);
            ConcatAssoc(c0, Captures(events[..handled]), [block]);
          case Tick =>
            ChunkingTick();
            assert Captures(events[..handled + 1]) == Captures(events[..handled]) + [];
        }
        assert Snapshot() == ChunkStep(before, events[handled]);
        handled := handled + 1;
      }
    }

    /**
     * One iteration of `transcription_worker` (test.py:96-115). An empty queue changes
     * nothing. Otherwise the head path is taken and its file transcribed. A raising call
     * kills the worker with the file still on disk. Otherwise the file is removed; then a
     * raise in the segments kills the worker too, and without one a non-empty partial is
     * appended after a space, the GUI showing the stripped result.
     */
    method TranscriptionStep(model: Model)
      requires Valid() && Displayed() && workerAlive
      modifies this
      ensures Valid() && Displayed()
      ensures old(transcriptQueue) == [] ==>
                transcriptQueue == [] && accumulatedText == old(accumulatedText)
                && files == old(files) && workerAlive
      ensures old(transcriptQueue) != [] ==>
                var o := Transcripts(model, old(files), old(transcriptQueue)[..1]);
                transcriptQueue == old(transcriptQueue)[1..]
                && workerAlive == !o.crashed
                && accumulatedText == ExtendAll(old(accumulatedText), o.partials)
                && files == if o.removed == 0 then old(files) else old(files) - {old(transcriptQueue)[0]}
      ensures chunks == old(chunks) && captured == old(captured) && audioBuffer == old(audioBuffer)
      ensures recordingActive == old(recordingActive) && nextTemp == old(nextTemp)
      ensures status == old(status) && streamOpen == old(streamOpen)
    {
      if transcriptQueue == [] {
        return;
      }
      var q := transcriptQueue;
      var wavPath := q[0];
      var result := model(files[wavPath]);
      QueuePop(files, nextTemp, q);
      TranscribeOne(model, files, q, result, accumulatedText);
      transcriptQueue := q[1..];
      if result.RaisedAtCall? {
        workerAlive := false;
        return;
      }
      files := files - {wavPath};
      if result.RaisedAfter? {
        workerAlive := false;
        return;
      }
      AppendPartial(Partial(result.segments));
    }

    /**
     * `if partial:` (test.py:113-115): a non-empty partial is appended after a space and the
     * label shows the stripped text; an empty one changes nothing.
     */
    method AppendPartial(partial: string)
      requires Displayed()
      modifies this
      ensures Displayed()
      ensures accumulatedText == Extend(old(accumulatedText), partial)
      ensures partial == "" ==> unchanged(this)
      ensures chunks == old(chunks) && captured == old(captured) && audioBuffer == old(audioBuffer)
      ensures transcriptQueue == old(transcriptQueue) && files == old(files) && workerAlive == old(workerAlive)
      ensures recordingActive == old(recordingActive) && nextTemp == old(nextTemp)
      ensures status == old(status) && streamOpen == old(streamOpen)
    {
      if partial != "" {
        accumulatedText := accumulatedText + " " + partial;
        transcriptView := Strip(accumulatedText);
      }
    }

    /**
     * `transcription_worker` (test.py:90-115) from its current state: it takes queued paths
     * in order until the queue is empty or the model raises. The real worker goes on
     * waiting for more paths while recording; once recording has stopped it ends with the
     * queue drained, which is where this loop ends too.
     */
    method TranscriptionWorker(model: Model)
      requires Valid() && Displayed() && workerAlive
      modifies this
      ensures Valid() && Displayed()
      ensures var o := Transcripts(model, old(files), old(transcriptQueue));
              accumulatedText == ExtendAll(old(accumulatedText), o.partials)
              && transcriptQueue == old(transcriptQueue)[o.handled..]
              && workerAlive == !o.crashed
      ensures workerAlive ==> transcriptQueue == []
      ensures var o := Transcripts(model, old(files), old(transcriptQueue));
              files == old(files) - Taken(old(transcriptQueue), o.removed)
              && (o.crashed ==>
                    (old(transcriptQueue)[|o.partials|] in files
                     <==> model(old(files)[old(transcriptQueue)[|o.partials|]]).RaisedAtCall?))
      ensures chunks == old(chunks) && captured == old(captured) && audioBuffer == old(audioBuffer)
      ensures recordingActive == old(recordingActive) && status == old(status)
      ensures nextTemp == old(nextTemp) && streamOpen == old(streamOpen)
    {
      ghost var q0, f0, a0 := transcriptQueue, files, accumulatedText;
      ghost var k := 0;
      while workerAlive && transcriptQueue != []
        invariant Valid() && Displayed() && 0 <= k <= |q0| && transcriptQueue == q0[k..]
        invariant AllOnDisk(f0, q0) && AllOnDisk(f0, q0[..k]) && Increasing(q0)
        invariant var o := Transcripts(model, f0, q0[..k]);
                  accumulatedText == ExtendAll(a0, o.partials) && o.crashed == !workerAlive && o.handled == k
                  && files == f0 - Taken(q0, o.removed)
        invariant chunks == old(chunks) && captured == old(captured) && audioBuffer == old(audioBuffer)
        invariant recordingActive == old(recordingActive) && status == old(status)
        invariant nextTemp == old(nextTemp) && streamOpen == old(streamOpen)
        decreases |transcriptQueue|
      {
        ghost var head, fk, ak := q0[k], files, accumulatedText;
        assert transcriptQueue[..1] == [head];
        TakenMissing(q0, k);
        TranscriptsHead(model, files, f0, head);
        WorkerExtends(model, f0, q0, k, a0);
        TranscriptionStep(model);
        WorkerStep(model, f0, q0, k, a0, fk, ak, files, accumulatedText, workerAlive);
        k := k + 1;
      }
      WorkerEnds(model, f0, q0, k);
      ghost var o := Transcripts(model, f0, q0);
      TakenLeft(f0, q0, o);
    }

    /**
     * `start_recording` (test.py:164-182): only when not recording, turn recording on with
     * an empty buffer and a started stream. The accumulated transcript is not reset.
     */
    method StartRecording()
      requires Valid()
      modifies this
      ensures Valid()
      ensures old(recordingActive) ==> unchanged(this)
      ensures !old(recordingActive) ==>
                recordingActive && audioBuffer == [] && streamOpen && workerAlive
                && captured == [] && chunks == []
                && status == "Recording… Speak now!"
                && accumulatedText == old(accumulatedText) && transcriptView == old(transcriptView)
                && transcriptQueue == old(transcriptQueue) && files == old(files)
                && nextTemp == old(nextTemp)
    {
      if !recordingActive {
        recordingActive := true;
        audioBuffer := [];
        captured, chunks := [], [];
        streamOpen := true;
        workerAlive := true;
        status := "Recording… Speak now!";
      }
    }

    /**
     * `stop_and_submit` (test.py:184-196): when recording, stop and close the stream and
     * hand the live transcript on as the prompt; otherwise only report that no recording
     * is running.
     */
    method StopAndSubmit() returns (prompt: Option<string>)
      requires Valid()
      modifies this
      ensures Valid()
      ensures old(recordingActive) ==>
                !recordingActive && !streamOpen && prompt == Some(transcriptView)
                && status == "Recording stopped. Sending to GPT‑4…"
      ensures !old(recordingActive) ==>
                prompt == None && status == "Not currently recording."
                && streamOpen == old(streamOpen) && !recordingActive
      ensures audioBuffer == old(audioBuffer) && transcriptQueue == old(transcriptQueue)
      ensures accumulatedText == old(accumulatedText) && transcriptView == old(transcriptView)
      ensures files == old(files) && workerAlive == old(workerAlive)
      ensures captured == old(captured) && chunks == old(chunks) && nextTemp == old(nextTemp)
    {
      if recordingActive {
        recordingActive := false;
        streamOpen := false;
        status := "Recording stopped. Sending to GPT‑4…";
        prompt := Some(transcriptView);
      } else {
        status := "Not currently recording.";
        prompt := None;
      }
    }
  }

  /** What `chunking_worker` sees between two checks: a captured block, or a tick. */
  datatype ChunkEvent = Captured(block: Block) | Tick
}
