/**
 * streaming_voice.py: the sentence extractor `extract_sentences`, the buffering loop of
 * `stream_gpt4_response`, and the sentinel-terminated queue loop of `tts_worker`.
 *
 * The pattern `(?<=[.!?])\s+` is modelled by a left-to-right scanner that reports the same
 * non-overlapping matches as `re.finditer`: a match starts at a whitespace character
 * preceded by `.`, `!` or `?` and runs over the longest whitespace run from there.
 */
module Sentences {
  import opened Seqs
  import opened Wrappers
  import opened Text

  predicate IsTerminal(c: char) {
    c == '.' || c == '!' || c == '?'
  }

  /** The lookbehind `(?<=[.!?])` holds at i and `\s` matches s[i]. */
  predicate BoundaryAt(s: string, i: int) {
    0 < i < |s| && IsTerminal(s[i - 1]) && IsSpace(s[i])
  }

  predicate HasBoundary(s: string) {
    exists i | 0 < i < |s| :: BoundaryAt(s, i)
  }

  /** A complete sentence: non-empty, ends in terminal punctuation, no boundary inside. */
  predicate CompleteSentence(p: string) {
    p != [] && IsTerminal(p[|p| - 1]) && !HasBoundary(p)
  }

  /** The end of the greedy `\s+` run that starts at i. */
  function RunEnd(s: string, i: nat): (e: nat)
    requires i <= |s|
    ensures i <= e <= |s|
    ensures forall k :: i <= k < e ==> IsSpace(s[k])
    ensures e == |s| || !IsSpace(s[e])
    decreases |s| - i
  {
    if i < |s| && IsSpace(s[i]) then RunEnd(s, i + 1) else i
  }

  datatype Match = Match(start: nat, end: nat)

  /** The matches of `re.finditer(r'(?<=[.!?])\s+', s)` found by scanning from position i. */
  function FindMatches(s: string, i: nat): (ms: seq<Match>)
    requires i <= |s|
    decreases |s| - i
  {
    if i == |s| then []
    else if BoundaryAt(s, i) then
      var e := RunEnd(s, i);
      [Match(i, e)] + FindMatches(s, e)
    else FindMatches(s, i + 1)
  }

  /** Each match lies at or after i, starts at a boundary and covers a whole whitespace run. */
  predicate MatchesFrom(s: string, ms: seq<Match>, i: nat) {
    forall k :: 0 <= k < |ms| ==>
      i <= ms[k].start < ms[k].end <= |s|
      && BoundaryAt(s, ms[k].start) && ms[k].end == RunEnd(s, ms[k].start)
  }

  /** Every match found from i lies after i, starts at a boundary and covers a whole run. */
  lemma {:induction false} FindMatchesFacts(s: string, i: nat)
    requires i <= |s|
    ensures MatchesFrom(s, FindMatches(s, i), i)
    decreases |s| - i
  {
    if i < |s| {
      if BoundaryAt(s, i) {
        var e := RunEnd(s, i);
        assert e == RunEnd(s, i + 1);
        FindMatchesFacts(s, e);
        var ms := FindMatches(s, i);
        assert forall k :: 0 < k < |ms| ==> ms[k] == FindMatches(s, e)[k - 1];
      } else {
        FindMatchesFacts(s, i + 1);
      }
    }
  }

  /** Matches follow one another from position `from` on, without overlapping. */
  predicate Chain(s: string, ms: seq<Match>, from: nat) {
    (forall k :: 0 <= k < |ms| ==> ms[k].start < ms[k].end <= |s|)
    && (|ms| > 0 ==> from <= ms[0].start)
    && (forall k :: 0 < k < |ms| ==> ms[k - 1].end <= ms[k].start)
  }

  /** `re.split`: the text before, between and after the matches, from position `from`. */
  function Pieces(s: string, ms: seq<Match>, from: nat): (ps: seq<string>)
    requires from <= |s| && Chain(s, ms, from)
    ensures |ps| == |ms| + 1
    decreases |ms|
  {
    if ms == [] then [s[from..]]
    else [s[from..ms[0].start]] + Pieces(s, ms[1..], ms[0].end)
  }

  /** The whitespace runs the matches cover: the separators `re.split` drops. */
  function Runs(s: string, ms: seq<Match>): (ws: seq<string>)
    requires forall k :: 0 <= k < |ms| ==> ms[k].start <= ms[k].end <= |s|
    ensures |ws| == |ms|
  {
    if ms == [] then [] else [s[ms[0].start..ms[0].end]] + Runs(s, ms[1..])
  }

  /** pieces[0] + seps[0] + pieces[1] + ... + seps[n-1] + pieces[n]. */
  function Interleave(pieces: seq<string>, seps: seq<string>): string
    requires |pieces| == |seps| + 1
  {
    if seps == [] then pieces[0]
    else pieces[0] + seps[0] + Interleave(pieces[1..], seps[1..])
  }

  lemma {:induction false} FindMatchesChain(s: string, i: nat)
    requires i <= |s|
    ensures Chain(s, FindMatches(s, i), i)
    decreases |s| - i
  {
    FindMatchesFacts(s, i);
    if i < |s| {
      if BoundaryAt(s, i) {
        var e := RunEnd(s, i);
        FindMatchesChain(s, e);
        FindMatchesFacts(s, e);
        var ms := FindMatches(s, i);
        assert forall k :: 0 < k < |ms| ==> ms[k] == FindMatches(s, e)[k - 1];
      } else {
        FindMatchesChain(s, i + 1);
      }
    }
  }

  /** `re.split(r'(?<=[.!?])\s+', s)`. */
  function Split(s: string): seq<string> {
    FindMatchesChain(s, 0);
    Pieces(s, FindMatches(s, 0), 0)
  }

  datatype Extraction = Extraction(sentences: seq<string>, remaining: string)

  /**
   * The end of the last match found from i; from 0 it is where `extract_sentences` cuts
   * its input.
   */
  function LastEnd(s: string, i: nat): (e: nat)
    requires i <= |s| && FindMatches(s, i) != []
    ensures i < e <= |s|
    ensures e == |s| || !IsSpace(s[e])
  {
    var ms := FindMatches(s, i);
    FindMatchesFacts(s, i);
    ms[|ms| - 1].end
  }

  /** `extract_sentences(text)` (streaming_voice.py:33-42). */
  function ExtractSentences(text: string): Extraction {
    if FindMatches(text, 0) == [] then Extraction([], text)
    else
      var idx := LastEnd(text, 0);
      Extraction(Split(text[..idx]), text[idx..])
  }

  /** The whitespace runs `extract_sentences` drops between the sentences it returns. */
  function Separators(text: string): seq<string> {
    var ms := FindMatches(text, 0);
    FindMatchesFacts(text, 0);
    Runs(text, ms)
  }

  /** The part of the input `extract_sentences` splits off: everything before `remaining`. */
  function Consumed(text: string): (c: string)
    ensures c + ExtractSentences(text).remaining == text
  {
    if FindMatches(text, 0) == [] then "" else text[..LastEnd(text, 0)]
  }

  // ---------------------------------------------------------------------------------
  // Facts about the scanner

  /** The scan from i finds nothing exactly when no boundary lies at or after i. */
  lemma {:induction false} NoMatchesIff(s: string, i: nat)
    requires i <= |s|
    ensures FindMatches(s, i) == [] <==> forall j :: i <= j < |s| ==> !BoundaryAt(s, j)
    decreases |s| - i
  {
    if i < |s| && !BoundaryAt(s, i) {
      NoMatchesIff(s, i + 1);
    }
  }

  /**
   * The first match found from i starts at the first boundary at or after i, ends where
   * its whitespace run ends, and the scan resumes there.
   */
  lemma {:induction false} FirstMatch(s: string, i: nat)
    requires i <= |s| && FindMatches(s, i) != []
    ensures var ms := FindMatches(s, i);
            BoundaryAt(s, ms[0].start)
            && ms[0].end == RunEnd(s, ms[0].start)
            && ms[1..] == FindMatches(s, ms[0].end)
            && forall j :: i <= j < ms[0].start ==> !BoundaryAt(s, j)
    decreases |s| - i
  {
    if !BoundaryAt(s, i) {
      FirstMatch(s, i + 1);
    }
  }

  /** The scan resumed at the end of the last match finds nothing more. */
  lemma {:induction false} LastMatch(s: string, i: nat)
    requires i <= |s| && FindMatches(s, i) != []
    ensures FindMatches(s, LastEnd(s, i)) == []
    decreases |s| - i
  {
    var ms := FindMatches(s, i);
    FirstMatch(s, i);
    FindMatchesFacts(s, i);
    var e := ms[0].end;
    if ms[1..] != [] {
      LastMatch(s, e);
      assert ms[|ms| - 1] == ms[1..][|ms[1..]| - 1];
      assert LastEnd(s, i) == LastEnd(s, e);
    }
  }

  lemma {:induction false} RunEndPrefix(s: string, L: nat, i: nat)
    requires i <= L <= |s|
    requires L == |s| || !IsSpace(s[L])
    ensures RunEnd(s[..L], i) == RunEnd(s, i)
    decreases L - i
  {
    if i < L && IsSpace(s[i]) {
      RunEndPrefix(s, L, i + 1);
    }
  }

  /**
   * Cutting the text right after a whitespace run, at a point with no boundary after it,
   * does not change the matches found before the cut.
   */
  lemma {:induction false} FindMatchesPrefix(s: string, L: nat, i: nat)
    requires i <= L <= |s|
    requires L == |s| || !IsSpace(s[L])
    requires forall j :: L <= j < |s| ==> !BoundaryAt(s, j)
    ensures FindMatches(s[..L], i) == FindMatches(s, i)
    decreases L - i
  {
    var p := s[..L];
    if i == L {
      NoMatchesIff(s, i);
    } else {
      assert p[i] == s[i];
      assert i > 0 ==> p[i - 1] == s[i - 1];
      assert BoundaryAt(p, i) == BoundaryAt(s, i);
      if BoundaryAt(s, i) {
        RunEndPrefix(s, L, i);
        FindMatchesPrefix(s, L, RunEnd(s, i));
      } else {
        FindMatchesPrefix(s, L, i + 1);
      }
    }
  }

  lemma {:induction false} RunsPrefix(s: string, L: nat, ms: seq<Match>)
    requires L <= |s|
    requires forall k :: 0 <= k < |ms| ==> ms[k].start <= ms[k].end <= L
    ensures Runs(s[..L], ms) == Runs(s, ms)
  {
    if ms != [] {
      assert s[..L][ms[0].start..ms[0].end] == s[ms[0].start..ms[0].end];
      RunsPrefix(s, L, ms[1..]);
    }
  }

  /** Joining the pieces of `re.split` with the runs it dropped gives back the text. */
  lemma {:induction false} PiecesJoin(s: string, ms: seq<Match>, from: nat)
    requires from <= |s| && Chain(s, ms, from)
    ensures Interleave(Pieces(s, ms, from), Runs(s, ms)) == s[from..]
    decreases |ms|
  {
    if ms != [] {
      var a, e := ms[0].start, ms[0].end;
      assert Chain(s, ms[1..], e);
      PiecesJoin(s, ms[1..], e);
      var ps, ws := Pieces(s, ms, from), Runs(s, ms);
      assert ps[0] == s[from..a] && ps[1..] == Pieces(s, ms[1..], e);
      assert ws[0] == s[a..e] && ws[1..] == Runs(s, ms[1..]);
      SliceJoin(s, from, a, e);
    }
  }

  lemma SliceJoin(s: string, i: nat, j: nat, k: nat)
    requires i <= j <= k <= |s|
    ensures s[i..] == s[i..j] + s[j..k] + s[k..]
  {
  }

  /** The text from i up to the first boundary after it is a complete sentence. */
  lemma GapIsSentence(s: string, i: nat, a: nat)
    requires i < a < |s| && BoundaryAt(s, a)
    requires forall j :: i <= j < a ==> !BoundaryAt(s, j)
    ensures CompleteSentence(s[i..a])
  {
    var p := s[i..a];
    assert p[|p| - 1] == s[a - 1];
    forall j | 0 < j < |p| && BoundaryAt(p, j) ensures false {
      assert p[j - 1] == s[i + j - 1] && p[j] == s[i + j];
      assert BoundaryAt(s, i + j);
    }
  }

  /** Every piece but the last of a split is a complete sentence; the last is the tail. */
  lemma {:induction false} PiecesShape(s: string, i: nat)
    requires i <= |s| && !BoundaryAt(s, i)
    ensures Chain(s, FindMatches(s, i), i)
    ensures var ms := FindMatches(s, i);
            var ps := Pieces(s, ms, i);
            (forall k :: 0 <= k < |ps| - 1 ==> CompleteSentence(ps[k]))
            && ps[|ps| - 1] == s[(if ms == [] then i else ms[|ms| - 1].end)..]
    decreases |s| - i
  {
    var ms := FindMatches(s, i);
    FindMatchesChain(s, i);
    if ms != [] {
      FirstMatch(s, i);
      var a, e := ms[0].start, ms[0].end;
      GapIsSentence(s, i, a);
      PiecesShape(s, e);
      var ps := Pieces(s, ms, i);
      var rest := Pieces(s, ms[1..], e);
      assert ps == [s[i..a]] + rest;
      if ms[1..] != [] {
        assert ms[|ms| - 1] == ms[1..][|ms[1..]| - 1];
      }
      assert ps[|ps| - 1] == rest[|rest| - 1];
      forall k | 0 <= k < |ps| - 1 ensures CompleteSentence(ps[k]) {
        if k > 0 { assert ps[k] == rest[k - 1]; }
      }
    }
  }

  // ---------------------------------------------------------------------------------
  // Properties of extract_sentences

  /**
   * Without a terminal mark followed by whitespace the input comes back whole as the
   * remainder with no sentences, and only then (streaming_voice.py:34-38).
   */
  lemma ExtractWithoutBoundary(text: string)
    ensures ExtractSentences(text) == Extraction([], text) <==> !HasBoundary(text)
  {
    NoMatchesIff(text, 0);
    if FindMatches(text, 0) != [] {
      var idx := LastEnd(text, 0);
      FindMatchesChain(text[..idx], 0);
      assert |Split(text[..idx])| >= 1;
    }
  }

  /**
   * The facts about the cut: the sentences are the split of the prefix up to the end of
   * the last match, the remainder is the rest, and that prefix is found again by the split.
   */
  lemma CutFacts(text: string)
    requires FindMatches(text, 0) != []
    ensures var idx := LastEnd(text, 0);
            FindMatches(text[..idx], 0) == FindMatches(text, 0)
            && FindMatches(text, idx) == []
            && (forall j :: idx <= j < |text| ==> !BoundaryAt(text, j))
  {
    var idx := LastEnd(text, 0);
    LastMatch(text, 0);
    NoMatchesIff(text, idx);
    FindMatchesPrefix(text, idx, 0);
  }

  /**
   * The remainder is the suffix after the end of the last match, and the sentences joined
   * with the dropped whitespace runs, followed by the remainder, give back the input
   * (streaming_voice.py:39-41).
   */
  lemma ExtractLossless(text: string)
    ensures var x := ExtractSentences(text);
            var seps := Separators(text);
            (x.sentences == [] ==> x.remaining == text && seps == [])
            && (x.sentences != [] ==>
                  |x.sentences| == |seps| + 1
                  && x.remaining == text[LastEnd(text, 0)..]
                  && Interleave(x.sentences, seps) + x.remaining == text)
  {
    var ms := FindMatches(text, 0);
    if ms != [] {
      var idx := LastEnd(text, 0);
      var p := text[..idx];
      CutFacts(text);
      FindMatchesChain(text, 0);
      FindMatchesChain(p, 0);
      var ss := Pieces(p, ms, 0);
      assert ExtractSentences(text).sentences == ss;
      RunsPrefix(text, idx, ms);
      assert Separators(text) == Runs(p, ms);
      PiecesJoin(p, ms, 0);
      assert Interleave(ss, Runs(p, ms)) == p;
      assert p + text[idx..] == text;
    }
  }

  /** Every separator dropped between two sentences is a non-empty whitespace run. */
  lemma SeparatorsAreWhitespace(text: string)
    ensures forall k :: 0 <= k < |Separators(text)| ==>
              Separators(text)[k] != [] && AllSpace(Separators(text)[k])
  {
    var ms := FindMatches(text, 0);
    FindMatchesFacts(text, 0);
    RunsWhitespace(text, ms);
  }

  lemma {:induction false} RunsWhitespace(s: string, ms: seq<Match>)
    requires forall k :: 0 <= k < |ms| ==> ms[k].start < ms[k].end <= |s|
    requires forall k :: 0 <= k < |ms| ==> ms[k].end == RunEnd(s, ms[k].start)
    ensures forall k :: 0 <= k < |Runs(s, ms)| ==> Runs(s, ms)[k] != [] && AllSpace(Runs(s, ms)[k])
  {
    if ms != [] {
      RunsWhitespace(s, ms[1..]);
      var w := s[ms[0].start..ms[0].end];
      assert ms[0].end == RunEnd(s, ms[0].start);
      assert forall j :: 0 <= j < |w| ==> w[j] == s[ms[0].start + j];
      forall k | 0 <= k < |Runs(s, ms)| ensures Runs(s, ms)[k] != [] && AllSpace(Runs(s, ms)[k]) {
        if k > 0 { assert Runs(s, ms)[k] == Runs(s, ms[1..])[k - 1]; }
      }
    }
  }

  /** The remainder never holds a terminal mark followed by whitespace (streaming_voice.py:37-41). */
  lemma ExtractRemainderHasNoBoundary(text: string)
    ensures !HasBoundary(ExtractSentences(text).remaining)
  {
    var ms := FindMatches(text, 0);
    if ms == [] {
      NoMatchesIff(text, 0);
    } else {
      var idx := LastEnd(text, 0);
      CutFacts(text);
      var r := text[idx..];
      forall j | BoundaryAt(r, j) ensures false {
        assert r[j - 1] == text[idx + j - 1] && r[j] == text[idx + j];
        assert BoundaryAt(text, idx + j);
      }
    }
  }

  /**
   * When a boundary exists, every sentence but the last is complete (non-empty, ends in
   * `.`, `!` or `?`, no boundary inside) and the last one is the empty string left after
   * the final whitespace run (streaming_voice.py:37-40).
   */
  lemma ExtractSentenceShape(text: string)
    ensures var ss := ExtractSentences(text).sentences;
            HasBoundary(text) ==>
              |ss| >= 2 && ss[|ss| - 1] == ""
              && forall k :: 0 <= k < |ss| - 1 ==> CompleteSentence(ss[k])
  {
    NoMatchesIff(text, 0);
    var ms := FindMatches(text, 0);
    if ms != [] {
      var idx := LastEnd(text, 0);
      var p := text[..idx];
      CutFacts(text);
      assert !BoundaryAt(p, 0);
      PiecesShape(p, 0);
    }
  }

  /** A scan from i skips straight to j when no boundary lies in between. */
  lemma {:induction false} ScanSkips(s: string, i: nat, j: nat)
    requires i <= j <= |s|
    requires forall k :: i <= k < j ==> !BoundaryAt(s, k)
    ensures FindMatches(s, i) == FindMatches(s, j)
    decreases j - i
  {
    if i < j {
      ScanSkips(s, i + 1, j);
    }
  }

  /** A worked example: one delta holding two finished sentences and a fragment. */
  const Example: string := "Hi. Ok? so"

  lemma ExampleFirstMatch()
    ensures FindMatches(Example, 0) == [Match(3, 4)] + FindMatches(Example, 4)
  {
    var t := Example;
    assert !BoundaryAt(t, 0) && !BoundaryAt(t, 1) && !BoundaryAt(t, 2);
    ScanSkips(t, 0, 3);
    assert BoundaryAt(t, 3) && RunEnd(t, 3) == 4;
  }

  lemma ExampleSecondMatch()
    ensures FindMatches(Example, 4) == [Match(7, 8)] + FindMatches(Example, 8)
  {
    var t := Example;
    assert !BoundaryAt(t, 4) && !BoundaryAt(t, 5) && !BoundaryAt(t, 6);
    ScanSkips(t, 4, 7);
    assert BoundaryAt(t, 7) && RunEnd(t, 7) == 8;
  }

  lemma ExampleNoMoreMatches()
    ensures FindMatches(Example, 8) == []
  {
    var t := Example;
    assert !BoundaryAt(t, 8) && !BoundaryAt(t, 9);
    ScanSkips(t, 8, 10);
  }

  /**
   * The example gives the two sentences, the trailing empty piece, and the fragment as
   * the remainder.
   */
  lemma ExampleTwoSentencesAndFragment()
    ensures ExtractSentences(Example) == Extraction(["Hi.", "Ok?", ""], "so")
  {
    var t := Example;
    ExampleFirstMatch();
    ExampleSecondMatch();
    ExampleNoMoreMatches();
    var ms := [Match(3, 4), Match(7, 8)];
    assert FindMatches(t, 0) == ms;
    CutFacts(t);
    assert LastEnd(t, 0) == 8;
    var p := t[..8];
    assert FindMatches(p, 0) == ms;
    assert ms[1..] == [Match(7, 8)];
    assert Pieces(p, ms, 0) == [p[0..3]] + Pieces(p, [Match(7, 8)], 4);
    assert Pieces(p, [Match(7, 8)], 4) == [p[4..7], p[8..]];
    assert p[0..3] == "Hi." && p[4..7] == "Ok?" && p[8..] == "" && t[8..] == "so";
  }

  // ---------------------------------------------------------------------------------
  // stream_gpt4_response: the buffering loop (streaming_voice.py:20-29)

  /** One streamed delta: `delta.get("content", "")`. */
  function DeltaText(d: Option<string>): string {
    d.GetOr("")
  }

  /** All streamed text, in order. */
  function StreamText(deltas: seq<Option<string>>): string
    decreases |deltas|
  {
    if deltas == [] then "" else DeltaText(deltas[0]) + StreamText(deltas[1..])
  }

  datatype Pumped = Pumped(spoken: seq<string>, buffer: string, consumed: string)

  /**
   * The `for chunk in response` loop from a given buffer: the sentences passed to the
   * callback, the buffer left at the end, and the text split off on the way.
   */
  function Pump(buffer: string, deltas: seq<Option<string>>): Pumped
    decreases |deltas|
  {
    if deltas == [] then Pumped([], buffer, "")
    else
      var text := buffer + DeltaText(deltas[0]);
      var x := ExtractSentences(text);
      var rest := Pump(x.remaining, deltas[1..]);
      Pumped(x.sentences + rest.spoken, rest.buffer, Consumed(text) + rest.consumed)
  }

  /**
   * Everything the callback receives for a stream: the sentences split off inside the loop,
   * then the leftover buffer when it is not blank.
   */
  function CallbackTexts(deltas: seq<Option<string>>): seq<string> {
    var p := Pump("", deltas);
    p.spoken + (if AllSpace(p.buffer) then [] else [p.buffer])
  }

  /** One turn of the loop at delta i: append it, extract, carry the remainder. */
  lemma PumpAt(buffer: string, deltas: seq<Option<string>>, i: nat)
    requires i < |deltas|
    ensures var text := buffer + DeltaText(deltas[i]);
            var x := ExtractSentences(text);
            var rest := Pump(x.remaining, deltas[i + 1..]);
            Pump(buffer, deltas[i..]) == Pumped(x.sentences + rest.spoken, rest.buffer, Consumed(text) + rest.consumed)
  {
    assert deltas[i..][1..] == deltas[i + 1..];
  }

  /** `for sentence in sentences: callback(sentence)`: the callback sees each sentence in order. */
  method Speak(said: seq<string>, sentences: seq<string>) returns (r: seq<string>)
    ensures r == said + sentences
  {
    r := said;
    var j := 0;
    while j < |sentences|
      invariant 0 <= j <= |sentences|
      invariant r == said + sentences[..j]
    {
      r := r + [sentences[j]];
      j := j + 1;
    }
    assert sentences[..j] == sentences;
  }

  /**
   * The `for chunk in response` loop (streaming_voice.py:20-27): the sentences passed to
   * the callback for the deltas received, in order, and the buffer after the last one.
   */
  method StreamLoop(deltas: seq<Option<string>>) returns (spoken: seq<string>, buffer: string)
    ensures spoken == Pump("", deltas).spoken && buffer == Pump("", deltas).buffer
    ensures !HasBoundary(buffer)
  {
    buffer := "";
    spoken := [];
    ghost var total := Pump("", deltas);
    var i := 0;
    while i < |deltas|
      invariant 0 <= i <= |deltas|
      invariant spoken + Pump(buffer, deltas[i..]).spoken == total.spoken
      invariant Pump(buffer, deltas[i..]).buffer == total.buffer
      invariant !HasBoundary(buffer)
    {
      ghost var before := spoken;
      var text := buffer + DeltaText(deltas[i]);
      var x := ExtractSentences(text);
      PumpAt(buffer, deltas, i);
      ExtractRemainderHasNoBoundary(text);
      spoken := Speak(spoken, x.sentences);
      ghost var later := Pump(x.remaining, deltas[i + 1..]);
      ConcatAssoc(before, x.sentences, later.spoken);
      buffer := x.remaining;
      i := i + 1;
    }
    assert deltas[i..] == [];
  }

  /**
   * `stream_gpt4_response` once the backend stream is given as the deltas it yields and
   * whether it then raises (`raised`; with no deltas, the request itself raised): the
   * strings the callback receives, in order, and the buffer when the stream ends. A raise
   * leaves the function before the final flush, so only the sentences split off so far
   * reach the callback.
   */
  method StreamResponse(deltas: seq<Option<string>>, raised: bool) returns (spoken: seq<string>, leftover: string)
    ensures leftover == Pump("", deltas).buffer
    ensures !HasBoundary(leftover)
    ensures spoken == if raised then Pump("", deltas).spoken else CallbackTexts(deltas)
  {
    spoken, leftover := StreamLoop(deltas);
    if raised {
      return;
    }
    StripFacts(leftover);
    if Strip(leftover) != "" {
      spoken := spoken + [leftover];
    }
  }

  lemma Regroup(b: string, d: string, tail: string, c: string, rem: string, restc: string, restb: string)
    requires b + d == c + rem
    requires rem + tail == restc + restb
    ensures b + (d + tail) == (c + restc) + restb
  {
    calc {
      b + (d + tail);
      (b + d) + tail;
      (c + rem) + tail;
      c + (rem + tail);
      c + (restc + restb);
      (c + restc) + restb;
    }
  }

  /**
   * Nothing is lost: the starting buffer and all streamed text equal the text split off
   * into sentences followed by the final buffer.
   */
  lemma {:induction false} PumpLossless(buffer: string, deltas: seq<Option<string>>)
    ensures buffer + StreamText(deltas) == Pump(buffer, deltas).consumed + Pump(buffer, deltas).buffer
    decreases |deltas|
  {
    if deltas != [] {
      var d := DeltaText(deltas[0]);
      var text := buffer + d;
      var rem := ExtractSentences(text).remaining;
      PumpAt(buffer, deltas, 0);
      assert deltas[0..] == deltas;
      PumpLossless(rem, deltas[1..]);
      var after := Pump(rem, deltas[1..]);
      Regroup(buffer, d, StreamText(deltas[1..]), Consumed(text), rem, after.consumed, after.buffer);
    }
  }

  /**
   * The whitespace dropped between consecutive sentences of a stream: each round's
   * separators, and an empty string where one round's sentences meet the next round's.
   */
  function PumpSeps(buffer: string, deltas: seq<Option<string>>): seq<string>
    decreases |deltas|
  {
    if deltas == [] then []
    else
      var text := buffer + DeltaText(deltas[0]);
      var x := ExtractSentences(text);
      var later := PumpSeps(x.remaining, deltas[1..]);
      if x.sentences == [] then later
      else if Pump(x.remaining, deltas[1..]).spoken == [] then Separators(text)
      else Separators(text) + [""] + later
  }

  /** Interleaving two runs, joined by an empty separator, is interleaving each in turn. */
  lemma {:induction false} InterleaveJoin(a: seq<string>, sa: seq<string>, b: seq<string>, sb: seq<string>)
    requires |a| == |sa| + 1 && |b| == |sb| + 1
    ensures Interleave(a + b, sa + [""] + sb) == Interleave(a, sa) + Interleave(b, sb)
    decreases |sa|
  {
    var ab, sab := a + b, sa + [""] + sb;
    if sa == [] {
      assert ab[0] == a[0] && ab[1..] == b && sab[0] == "" && sab[1..] == sb;
      assert a[0] + "" == a[0];
    } else {
      assert ab[0] == a[0] && ab[1..] == a[1..] + b;
      assert sab[0] == sa[0] && sab[1..] == sa[1..] + [""] + sb;
      InterleaveJoin(a[1..], sa[1..], b, sb);
      ConcatAssoc(a[0] + sa[0], Interleave(a[1..], sa[1..]), Interleave(b, sb));
    }
  }

  /** The text one round of the loop splits off is its sentences interleaved with its separators. */
  lemma ConsumedInterleaved(text: string)
    ensures var x := ExtractSentences(text);
            var seps := Separators(text);
            (x.sentences == [] ==> Consumed(text) == "" && seps == [])
            && (x.sentences != [] ==>
                  |x.sentences| == |seps| + 1 && Consumed(text) == Interleave(x.sentences, seps))
            && (forall k :: 0 <= k < |seps| ==> AllSpace(seps[k]))
  {
    ExtractLossless(text);
    SeparatorsAreWhitespace(text);
    var x := ExtractSentences(text);
    if x.sentences != [] {
      var w := Interleave(x.sentences, Separators(text));
      assert (w + x.remaining)[..|w|] == w;
      assert (Consumed(text) + x.remaining)[..|Consumed(text)|] == Consumed(text);
    }
  }

  /** What the loop splits off is exactly the spoken sentences interleaved with the whitespace between them. */
  lemma {:induction false} PumpInterleaved(buffer: string, deltas: seq<Option<string>>)
    ensures var p := Pump(buffer, deltas);
            var seps := PumpSeps(buffer, deltas);
            (p.spoken == [] ==> seps == [] && p.consumed == "")
            && (p.spoken != [] ==> |p.spoken| == |seps| + 1 && Interleave(p.spoken, seps) == p.consumed)
    decreases |deltas|
  {
    if deltas != [] {
      var text := buffer + DeltaText(deltas[0]);
      var x := ExtractSentences(text);
      PumpAt(buffer, deltas, 0);
      assert deltas[0..] == deltas;
      PumpInterleaved(x.remaining, deltas[1..]);
      ConsumedInterleaved(text);
      var rest := Pump(x.remaining, deltas[1..]);
      if x.sentences == [] {
        assert x.sentences + rest.spoken == rest.spoken;
        assert "" + rest.consumed == rest.consumed;
      } else if rest.spoken == [] {
        assert x.sentences + [] == x.sentences;
        assert Consumed(text) + "" == Consumed(text);
      } else {
        InterleaveJoin(x.sentences, Separators(text), rest.spoken, PumpSeps(x.remaining, deltas[1..]));
      }
    }
  }

  /** Every string is whitespace, possibly empty. */
  predicate AllWhitespace(ws: seq<string>) {
    forall k :: 0 <= k < |ws| ==> AllSpace(ws[k])
  }

  lemma AllWhitespaceJoin(w: seq<string>, v: seq<string>)
    requires AllWhitespace(w) && AllWhitespace(v)
    ensures AllWhitespace(w + [""] + v)
  {
    var ws := w + [""] + v;
    forall k | 0 <= k < |ws| ensures AllSpace(ws[k]) {
      if k < |w| { assert ws[k] == w[k]; }
      else if k > |w| { assert ws[k] == v[k - |w| - 1]; }
    }
  }

  /** Every separator between spoken sentences is whitespace, possibly empty. */
  lemma {:induction false} PumpSepsWhitespace(buffer: string, deltas: seq<Option<string>>)
    ensures AllWhitespace(PumpSeps(buffer, deltas))
    decreases |deltas|
  {
    if deltas != [] {
      var text := buffer + DeltaText(deltas[0]);
      var x := ExtractSentences(text);
      PumpSepsWhitespace(x.remaining, deltas[1..]);
      ConsumedInterleaved(text);
      assert AllWhitespace(Separators(text));
      if x.sentences != [] && Pump(x.remaining, deltas[1..]).spoken != [] {
        AllWhitespaceJoin(Separators(text), PumpSeps(x.remaining, deltas[1..]));
      }
    }
  }

  /**
   * The starting buffer and the whole stream are the sentences spoken inside the loop,
   * interleaved with the whitespace dropped between them, followed by the leftover buffer;
   * `stream_gpt4_response` starts from the empty buffer.
   */
  lemma StreamLossless(buffer: string, deltas: seq<Option<string>>)
    ensures var p := Pump(buffer, deltas);
            var seps := PumpSeps(buffer, deltas);
            (p.spoken == [] ==> buffer + StreamText(deltas) == p.buffer)
            && (p.spoken != [] ==>
                  |p.spoken| == |seps| + 1 && buffer + StreamText(deltas) == Interleave(p.spoken, seps) + p.buffer)
  {
    var p, seps, all := Pump(buffer, deltas), PumpSeps(buffer, deltas), buffer + StreamText(deltas);
    PumpLossless(buffer, deltas);
    assert all == p.consumed + p.buffer;
    PumpInterleaved(buffer, deltas);
    if p.spoken == [] {
      assert p.consumed == "";
      assert all == p.buffer;
    } else {
      assert p.consumed == Interleave(p.spoken, seps);
    }
  }

  /** Each string is a complete sentence or the empty trailing piece of a split. */
  predicate SentencesOrEmpty(ps: seq<string>) {
    forall k :: 0 <= k < |ps| ==> ps[k] == "" || CompleteSentence(ps[k])
  }

  lemma SentencesOrEmptyAppend(a: seq<string>, b: seq<string>)
    requires SentencesOrEmpty(a) && SentencesOrEmpty(b)
    ensures SentencesOrEmpty(a + b)
  {
    forall k | 0 <= k < |a + b| ensures (a + b)[k] == "" || CompleteSentence((a + b)[k]) {
      if k < |a| { assert (a + b)[k] == a[k]; } else { assert (a + b)[k] == b[k - |a|]; }
    }
  }

  lemma ExtractedSentencesOrEmpty(text: string)
    ensures SentencesOrEmpty(ExtractSentences(text).sentences)
  {
    ExtractSentenceShape(text);
    ExtractWithoutBoundary(text);
  }

  /**
   * Everything handed to the callback inside the loop is a complete sentence or the empty
   * trailing piece of a split; only the end-of-stream flush can pass an unfinished fragment.
   */
  lemma {:induction false} PumpSpokenShape(buffer: string, deltas: seq<Option<string>>)
    ensures SentencesOrEmpty(Pump(buffer, deltas).spoken)
    decreases |deltas|
  {
    if deltas != [] {
      var text := buffer + DeltaText(deltas[0]);
      var x := ExtractSentences(text);
      PumpAt(buffer, deltas, 0);
      assert deltas[0..] == deltas;
      PumpSpokenShape(x.remaining, deltas[1..]);
      ExtractedSentencesOrEmpty(text);
      SentencesOrEmptyAppend(x.sentences, Pump(x.remaining, deltas[1..]).spoken);
    }
  }

  // ---------------------------------------------------------------------------------
  // tts_worker: the sentinel-terminated queue loop (streaming_voice.py:48-53)

  /** The texts a worker renders from a queue: everything before the first `None`, in order. */
  function UntilSentinel(items: seq<Option<string>>): (r: seq<string>)
    ensures |r| <= |items|
  {
    if items == [] || items[0].None? then [] else [items[0].value] + UntilSentinel(items[1..])
  }

  /** The rendered texts are the queue's leading texts, and the next item is the sentinel. */
  lemma {:induction false} UntilSentinelFacts(items: seq<Option<string>>)
    ensures var r := UntilSentinel(items);
            (forall k :: 0 <= k < |r| ==> items[k] == Some(r[k]))
            && (|r| < |items| ==> items[|r|] == None)
  {
    if items != [] && items[0].Some? {
      UntilSentinelFacts(items[1..]);
    }
  }

  /** `tts_queue`: a FIFO of texts, `None` being the shutdown sentinel. */
  class SpeechQueue {
    var items: seq<Option<string>>

    constructor ()
      ensures items == []
    {
      items := [];
    }

    /** `tts_queue.put(x)`. */
    method Put(x: Option<string>)
      modifies this
      ensures items == old(items) + [x]
    {
      items := items + [x];
    }

    /** `tts_queue.get()` on a non-empty queue (on an empty one it blocks). */
    method Get() returns (x: Option<string>)
      requires items != []
      modifies this
      ensures x == old(items)[0] && items == old(items)[1..]
    {
      x := items[0];
      items := items[1..];
    }
  }

  /**
   * The `while True` loop of `tts_worker`: render each dequeued text in turn and stop at the
   * first `None`. When the queue runs dry without a sentinel the real worker blocks in
   * `get()`; here it returns with `stopped` false.
   */
  method TtsWorker(q: SpeechQueue) returns (rendered: seq<string>, stopped: bool)
    modifies q
    ensures rendered == UntilSentinel(old(q.items))
    ensures stopped <==> |rendered| < |old(q.items)|
    ensures q.items == if stopped then old(q.items)[|rendered| + 1..] else []
  {
    rendered, stopped := [], false;
    ghost var queued := q.items;
    while q.items != []
      invariant |rendered| <= |queued| && q.items == queued[|rendered|..]
      invariant UntilSentinel(queued) == rendered + UntilSentinel(q.items)
      decreases |q.items|
    {
      ghost var cur := q.items;
      var text := q.Get();
      assert cur[1..] == q.items == queued[|rendered| + 1..];
      if text == None {
        assert UntilSentinel(cur) == [];
        stopped := true;
        return;
      }
      assert UntilSentinel(cur) == [text.value] + UntilSentinel(q.items);
      rendered := rendered + [text.value];
    }
    assert UntilSentinel(q.items) == [];
  }

  function Enqueued(texts: seq<string>): (r: seq<Option<string>>)
    ensures |r| == |texts| && forall k :: 0 <= k < |r| ==> r[k] == Some(texts[k])
  {
    if texts == [] then [] else [Some(texts[0])] + Enqueued(texts[1..])
  }

  /**
   * Texts enqueued before the sentinel are rendered in enqueue order, and nothing enqueued
   * after the sentinel is rendered.
   */
  lemma {:induction false} RenderedInEnqueueOrder(texts: seq<string>, after: seq<Option<string>>)
    ensures UntilSentinel(Enqueued(texts) + [None] + after) == texts
  {
    if texts != [] {
      assert (Enqueued(texts) + [None] + after)[1..] == Enqueued(texts[1..]) + [None] + after;
      RenderedInEnqueueOrder(texts[1..], after);
    }
  }
}
