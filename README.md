# Sophie voice assistant: a verified model of its core

Sophie is a desktop voice assistant. It captures microphone audio in blocks, turns the
captured audio into text (in one variant by re-sending the not-yet-transcribed blocks every
second, in another by cutting the buffer into chunks and queueing them for a Whisper
model), sends the transcript to a chat model, and speaks the streamed reply sentence by
sentence. A separate conversational agent keeps a chat history and lets the model call
registered tools.

This project models these parts in Dafny and proves properties of the model:

- the sentence extractor and the streaming loop of `streaming_voice.py`, plus its
  text-to-speech queue worker (`sentences.dfy`);
- the `main.py` recorder and real-time transcription application (`realtime.dfy`);
- the `test.py` chunking and transcription workers and their GUI guards (`chunked.dfy`);
- the `RealTimeTranscriber` class of `transcriber.py` (`transcriber.dfy`);
- the `Agent` class of `src/agents/agent.py` (`agent.dfy`).

Some modules are shared:

- `text.dfy`: Python's `str.strip` and its whitespace set.
- `wav.dfy`: 16-bit PCM encoding and the WAV header.
- `wrappers.dfy`: the `Option` type.
- `seqs.dfy`: a sequence-regrouping lemma.
- `whisper.dfy`: what a faster-whisper `transcribe` comes to. It gives the segments, or
  raises in the call itself, or raises part-way through the lazy segment generator after
  yielding some segments.

Objects that the source updates in place are classes with `modifies` clauses:

- the recorder and the application (`main.py`);
- the capture session (`test.py`);
- the transcriber;
- the speech queue;
- the agent.

Each thread loop is a method with loop invariants. The methods are proved against pure
specification functions: `Pump`, `UntilSentinel`, `Drain`, `Transcripts`, `Exec`, and the
event folds `LiveRun` (main.py's transcription loop) and `ChunkRun` (test.py's chunking
loop). Lemmas then prove what the source promises about those functions.

External services are oracles passed in as values:

- The transcription service is a function from the WAV file to its text. `None` stands for
  a call that raised.
- The Whisper model is a function from the WAV file to a `Decoding`: `Decoded(segments)`,
  `RaisedAtCall`, or `RaisedAfter(yielded)`.
- The chat service's streamed deltas are a list.
- The agent's chat service is the list of replies it will give.
- Argument evaluation and tool execution are functions that return `Ok` or `Raised`.

Each step of a thread (one callback, one tick, one queue item) is one atomic method call.
This is a modelling choice, and it is stronger than what the source guarantees; the gaps are
listed under "## Left out".

## Model

| member | source | states |
|---|---|---|
| Text.StripFacts | transcriber.py:39-40 | `strip()` removes exactly a whitespace prefix and suffix; the result is a slice of the input with non-space ends, and it is empty iff the input is all whitespace |
| Text.StripAppendSpace | transcriber.py:34 | appending whitespace to a text does not change its stripped form |
| Text.StripIdempotent | main.py:199 | stripping an already stripped transcript changes nothing |
| Wav.DecodeEncode | transcriber.py:54 | the 16-bit little-endian bytes of `tobytes()` decode back to the same samples |
| Wav.MonoPcm16 | transcriber.py:49-54 | a written file has 1 channel, sample width 2 and the given rate, and its frames decode to the samples |
| Wav.ConcatAppend | test.py:73 | concatenating the blocks of two consecutive lists equals concatenating each list and joining the results |
| Wav.ReadBackBlocks | main.py:155-163 | the file written for the buffered blocks decodes to the blocks' samples in capture order |
| Sentences.FindMatches | streaming_voice.py:37 | the matches of `re.finditer`, scanning left to right; `FindMatchesFacts`, `FirstMatch` and `LastMatch` state that each is a whole whitespace run after a terminal mark, in order, without overlap |
| Sentences.FindMatchesFacts | streaming_voice.py:37 | each match starts after a `.`, `!` or `?` at a whitespace character and spans the whole whitespace run there |
| Sentences.NoMatchesIff | streaming_voice.py:37-38 | there are no matches iff no position has a terminal mark followed by whitespace |
| Sentences.FirstMatch | streaming_voice.py:37 | the first match is the leftmost boundary position, and the matches after it are those found from its end |
| Sentences.LastMatch | streaming_voice.py:39 | no match is found after the end of the last match |
| Sentences.Split | streaming_voice.py:40 | `re.split` on the same pattern; `PiecesShape` and `SeparatorsAreWhitespace` state that it gives one more piece than there are matches and drops exactly the matched runs |
| Sentences.PiecesShape | streaming_voice.py:40 | the split pieces before the last one are complete sentences, and the last one is the text after the final whitespace run |
| Sentences.ExtractSentences | streaming_voice.py:33-42 | cuts at the end of the last match and splits the part before; `ExtractWithoutBoundary`, `ExtractLossless` and `ExtractRemainderHasNoBoundary` state what it returns |
| Sentences.ExtractWithoutBoundary | streaming_voice.py:33-42 | `extract_sentences` returns no sentences and the whole text iff the text has no sentence boundary |
| Sentences.ExtractLossless | streaming_voice.py:33-42 | sentences interleaved with the whitespace runs between them, followed by the remainder, rebuild the text exactly; the remainder starts at the end of the last match |
| Sentences.SeparatorsAreWhitespace | streaming_voice.py:40 | every separator that `re.split` drops is a non-empty whitespace run |
| Sentences.ExtractRemainderHasNoBoundary | streaming_voice.py:41 | the remainder kept in the buffer contains no sentence boundary |
| Sentences.ExtractSentenceShape | streaming_voice.py:39-40 | with a boundary there are at least two pieces; all but the last are complete sentences, and the last is the empty string |
| Sentences.ExampleTwoSentencesAndFragment | streaming_voice.py:33-42 | `"Hi. Ok? so"` gives the sentences `["Hi.", "Ok?", ""]` and the remainder `"so"` |
| Sentences.Consumed | streaming_voice.py:39-41 | the consumed prefix followed by the remainder is the input text |
| Sentences.Speak | streaming_voice.py:25-26 | the callbacks are the earlier ones followed by every extracted sentence, in order |
| Sentences.Pump | streaming_voice.py:20-27 | the stream loop as a fold over the deltas; `StreamLoop` runs it, and `PumpLossless`, `PumpInterleaved` and `StreamLossless` state that nothing is lost or reordered |
| Sentences.CallbackTexts | streaming_voice.py:20-29 | the loop's sentences followed by the leftover when it is not blank; `StreamResponse` computes it |
| Sentences.StreamLoop | streaming_voice.py:20-27 | the loop speaks what `Pump` speaks from the empty buffer and keeps its final buffer, which has no sentence boundary |
| Sentences.StreamResponse | streaming_voice.py:13-29 | the callback sequence is every sentence extracted while streaming, then the non-blank leftover; if the stream raises, only the sentences spoken before it and no flush; the leftover has no boundary |
| Sentences.PumpLossless | streaming_voice.py:20-27 | the buffer plus all streamed deltas equals the text split off by extraction plus the final buffer |
| Sentences.PumpInterleaved | streaming_voice.py:20-27 | the text split off over the whole stream is exactly the spoken sentences interleaved with one separator between each two |
| Sentences.PumpSepsWhitespace | streaming_voice.py:37-40 | every separator between two spoken sentences is whitespace (empty where two loop rounds meet) |
| Sentences.StreamLossless | streaming_voice.py:13-29 | the whole stream is the spoken sentences interleaved with the dropped whitespace, followed by the leftover buffer; nothing is lost or reordered |
| Sentences.PumpSpokenShape | streaming_voice.py:24-26 | every text sent to the callback while streaming is a complete sentence or the empty string |
| Sentences.UntilSentinel | streaming_voice.py:50-53 | the texts before the first `None`, in order; `UntilSentinelFacts` and `RenderedInEnqueueOrder` state it, and `TtsWorker` computes it |
| Sentences.SpeechQueue.constructor | streaming_voice.py:48 | the queue starts empty |
| Sentences.UntilSentinelFacts | streaming_voice.py:50-53 | the worker renders the queued texts in order up to, and not including, the first `None` sentinel |
| Sentences.SpeechQueue.Put | streaming_voice.py:48 | putting appends the item at the back of the FIFO queue |
| Sentences.SpeechQueue.Get | streaming_voice.py:52 | getting returns the front item and removes it |
| Sentences.TtsWorker | streaming_voice.py:50-53 | the worker renders exactly the texts before the sentinel and stops iff a sentinel was queued; the remaining queue is what follows the sentinel |
| Sentences.RenderedInEnqueueOrder | streaming_voice.py:50-53 | texts enqueued before a sentinel are all rendered, in enqueue order, and nothing after the sentinel is |
| Realtime.TranscribeAudio | main.py:87-93 | the result is the backend's text stripped, and it fails exactly when the backend raises |
| Realtime.Recording | main.py:155-163 | the file sent to the backend is mono, 16-bit, 44100 Hz, and holds the blocks' samples in order |
| Realtime.Recorder.constructor | main.py:37-38 | recording is off, the buffer is empty and no stream is open |
| Realtime.Recorder.AudioCallback | main.py:46-50 | a block is appended to the buffer only while recording |
| Realtime.Recorder.StartRecording | main.py:54-62 | recording turns on, the buffer is cleared and the stream is started |
| Realtime.Recorder.StopRecording | main.py:65-69 | recording turns off and the stream is stopped and closed; the buffer is kept |
| Realtime.VoiceAssistantApp.constructor | main.py:97-107 | the cursor is 0, the transcript is empty, transcription is off, and the status is the start prompt |
| Realtime.VoiceAssistantApp.StartRecordingHandler | main.py:134-145 | when not recording, the cursor and transcript are reset, transcription starts and the buffer is empty; when recording, nothing changes |
| Realtime.LiveStep | main.py:151-171 | a captured block joins the buffer; a tick with new blocks and an answering backend appends the answer and a space, moves the cursor past the blocks sent and shows the transcript; otherwise nothing changes; the cursor stays within the buffer |
| Realtime.LiveRun | main.py:148-171 | `LiveStep` over a run of events, in order; the cursor stays within the buffer, and `LiveRunFacts` states what a run changes |
| Realtime.LiveRunFacts | main.py:148-171 | over any run of events the buffer grows by exactly the captured blocks, the cursor only moves forward and stays within the buffer, and the transcript only grows at its end |
| Realtime.TickCatchesUp | main.py:152-167 | a tick the backend answers leaves no block unsent, and the transcript ends with the answer and a space |
| Realtime.VoiceAssistantApp.TranscriptionTick | main.py:151-171 | with no new blocks, or when the backend raises, cursor, transcript and status stay; otherwise the stripped text and a space are appended and the cursor moves past the blocks sent; the temporary file is removed on every path |
| Realtime.VoiceAssistantApp.RealtimeTranscriptionLoop | main.py:148-171 | the loop handles every event while recording and transcribing, and none otherwise; buffer, cursor, transcript and status afterwards are `LiveRun` over the events handled; the stream is untouched |
| Realtime.VoiceAssistantApp.StopAndProcessHandler | main.py:174-194 | without an active recording and stream nothing changes, the stream reference included. Otherwise capture stops and the remaining blocks are transcribed. Their text is appended without a space and the cursor stays. Processing starts unless that final backend call raised |
| Realtime.VoiceAssistantApp.ProcessRecording | main.py:196-218 | a blank transcript gives "No speech detected" and sends nothing; otherwise the stripped transcript is sent and every streamed sentence is shown (only those before the error when the stream raises), and the status ends on the last one |
| Transcriber.ChunkFile | transcriber.py:49-54 | a chunk's file is mono, 16-bit, at the chunk's own rate, and decodes to the chunk's samples |
| Transcriber.SegmentsText | transcriber.py:33-34 | each segment stripped and followed by a space, in order; `SegmentsTextShape` and `SegmentsTextAppend` state its shape and that it composes |
| Transcriber.SegmentsTextShape | transcriber.py:33-34 | each segment contributes at least one character, and the text ends in a space |
| Transcriber.TrailingSpaceInvisible | transcriber.py:34-40 | the space appended after a segment never shows in the current transcription |
| Transcriber.SegmentsTextAppend | transcriber.py:33-34 | transcribing consecutive segment lists appends their texts in order |
| Transcriber.Drain | transcriber.py:26-37 | the worker takes every queued chunk unless the model raises, and takes at least one chunk before it crashes; a raise ends it with that chunk taken and the text of the segments yielded before the raise appended |
| Transcriber.DrainOne | transcriber.py:30-35 | one chunk appends the text of every segment the generator yielded, whether or not it raised afterwards, and the worker crashes exactly when the model raised |
| Transcriber.DrainAppend | transcriber.py:26-37 | chunks are handled first in, first out: draining two queues in turn equals draining their concatenation, and nothing runs after a crash |
| Transcriber.RealTimeTranscriber.constructor | transcriber.py:13-21 | the queue and text are empty, and the worker is running |
| Transcriber.RealTimeTranscriber.AddAudioChunk | transcriber.py:23-24 | the chunk and its rate are queued at the back; nothing else changes |
| Transcriber.RealTimeTranscriber.SaveWav | transcriber.py:49-54 | the file at the path is the chunk written with header (1 channel, width 2, the given rate) |
| Transcriber.RealTimeTranscriber.AppendSegments | transcriber.py:33-34 | each segment is appended stripped and followed by a space, in order |
| Transcriber.RealTimeTranscriber.TranscribeStep | transcriber.py:27-37 | an empty queue changes nothing. Otherwise the head chunk is taken and the text of the segments yielded is appended. If the model raised, in the call or in the segments, the worker dies and the saved file stays on disk; otherwise the file is removed |
| Transcriber.DrainExtends | transcriber.py:26-37 | one more chunk for a worker that has not crashed appends that chunk's text and outcome |
| Transcriber.DrainEnds | transcriber.py:26-37 | a worker that crashed, or took every chunk, has the outcome of the whole queue |
| Transcriber.RealTimeTranscriber.TranscribeLoop | transcriber.py:26-37 | while running, the text grows by the drained chunks' texts, including the segments the crashing chunk yielded before its raise; the queue loses exactly the chunks handled, one temporary name is used per chunk, the one file left on disk is the crashing chunk's, and the worker is alive iff nothing raised; when not running nothing changes |
| Transcriber.RealTimeTranscriber.GetCurrentTranscription | transcriber.py:39-40 | the result is the accumulated text without surrounding whitespace; it is empty iff the text is all whitespace |
| Transcriber.RealTimeTranscriber.Reset | transcriber.py:42-43 | the text is cleared; the queue and worker state are kept |
| Transcriber.RealTimeTranscriber.Stop | transcriber.py:45-47 | running turns off; nothing else changes |
| Chunked.Transcripts | test.py:96-115 | the worker takes every queued path, produces one partial per path and removes every file, unless the model raises; then it stops just after the failing path with no partial for it, and that file was removed exactly when the raise came from the segments rather than the call |
| Chunked.TranscribeOne | test.py:98-115 | on the head path: a decoded file gives one partial and is removed; a raising call leaves the file; a raise in the segments comes after the file was removed; both raises produce no partial |
| Chunked.TranscriptsAppend | test.py:96-115 | queued paths are transcribed in FIFO order, and running over two queues in turn equals running over their concatenation |
| Chunked.Partial | test.py:112 | the segment texts joined and stripped; `PartialStripped` states that it is stripped |
| Chunked.Extend | test.py:113-114 | a non-empty partial is appended after a space, an empty one is dropped; `ViewIsSpaceJoin` states what the label then shows |
| Chunked.ExtendAll | test.py:96-114 | `Extend` over the partials, in order; `ExtendAllAppend` and `ExtendAllFromEmpty` state how it composes and what it builds from an empty text |
| Chunked.ExtendAllAppend | test.py:113-114 | extending the transcript by two runs of partials equals extending it by their concatenation |
| Chunked.ExtendAllFromEmpty | test.py:113-114 | from an empty transcript, the accumulated text is a space followed by the non-empty partials joined by single spaces |
| Chunked.SpaceJoinStripped | test.py:112-115 | joining stripped partials with single spaces gives a stripped text |
| Chunked.PartialStripped | test.py:112 | each partial is stripped |
| Chunked.ViewIsSpaceJoin | test.py:115 | the live transcript shown is exactly the non-empty stripped partials joined by single spaces |
| Chunked.TranscriptsStripped | test.py:112 | every partial the worker produces is stripped |
| Chunked.LiveTranscript | test.py:96-115 | after the worker runs from an empty transcript, the label shows its partials joined by single spaces, in queue order |
| Chunked.QueuePush | test.py:76-85 | a fresh file name is not yet on disk, and queueing it keeps the queue increasing and on disk |
| Chunked.QueuePop | test.py:98-109 | taking the head path, and removing its file, keeps the rest of the queue on disk and increasing |
| Chunked.ChunkStep | test.py:54-85 | a captured block joins the buffer; a tick on a non-empty buffer turns it into one chunk, written to the next fresh file name, which is queued; `ChunkStepQueue` states that it keeps the naming order |
| Chunked.ChunkRun | test.py:62-85 | `ChunkStep` over a run of events, in order; `ChunkRunBlocks` and `ChunkRunQueue` state what a run keeps |
| Chunked.ChunkRunBlocks | test.py:54-85 | no block is lost or reordered: the chunks taken during a run and the buffer left hold the blocks buffered before it and those captured, in order |
| Chunked.ChunkStepQueue | test.py:76-85 | one event keeps the naming order |
| Chunked.ChunkRunQueue | test.py:70-85 | every chunk taken during a run gets the next fresh name, in order: the queue grows by exactly those names, each names a new file holding its chunk's samples, and earlier files are kept |
| Chunked.TakenNext | test.py:98-109 | removing one more queued path's file removes it from what is left on disk |
| Chunked.TakenLeft | test.py:103-112 | after a crash the failing path's file is on disk exactly when it was not yet removed, that is, when the call itself raised |
| Chunked.Session.constructor | test.py:118-126 | the session starts idle, with an empty buffer, queue, transcript and label |
| Chunked.Session.AudioCallback | test.py:54-59 | a block is appended to the buffer (and to the captured audio) only while recording |
| Chunked.Session.ChunkingTick | test.py:68-85 | an empty buffer changes nothing; otherwise the whole buffer is flushed into one chunk |
| Chunked.Session.FlushBuffer | test.py:70-85 | the buffer becomes a new chunk and is cleared; the chunk is written to a fresh WAV file whose path is queued once; every captured block is in exactly one chunk or in the buffer |
| Chunked.Session.ChunkingWorker | test.py:62-85 | the loop handles every event while recording and none otherwise; buffer, chunks, queue, files and next name afterwards are `ChunkRun` over the events handled, and the captured audio grows by exactly the captured blocks; flags, transcript and labels are untouched |
| Chunked.Session.TranscriptionStep | test.py:96-115 | A path is taken from the queue head. If the call raises, the worker dies and the file stays. Otherwise the file is removed; a raise in the segments then kills the worker with nothing appended, and without one a non-empty partial is appended after a space. The label shows the stripped text |
| Chunked.Session.AppendPartial | test.py:113-115 | the accumulated text becomes `Extend` of the old text and the partial: a non-empty partial is appended after one space, an empty one leaves the whole state unchanged; the label keeps showing the stripped text; no other field changes |
| Chunked.Session.TranscriptionWorker | test.py:90-115 | the accumulated text is extended by the worker's partials over the queue, in order; the queue loses exactly the paths handled and the disk exactly the files removed; after a crash the failing path's file is on disk iff the call itself raised; the worker is alive iff nothing raised; names and stream are untouched |
| Chunked.Session.StartRecording | test.py:164-182 | only when idle, recording starts with an empty buffer, a started stream and the "Recording… Speak now!" status; the accumulated transcript and the next file name are kept |
| Chunked.Session.StopAndSubmit | test.py:184-196 | when recording, the stream is stopped and closed and the live transcript is the prompt; otherwise the status says "Not currently recording." and no prompt is sent |
| Agents.Normalize | src/agents/agent.py:106-111 | missing name, id and type default to "", and missing arguments default to "{}"; present fields are kept |
| Agents.NormalizeIdempotent | src/agents/agent.py:103-113 | parsing an already parsed call gives the same call |
| Agents.ParseAll | src/agents/agent.py:103-113 | the parsed list has the same length and order as the input |
| Agents.Agent.ParseToolCalls | src/agents/agent.py:103-113 | the loop returns each call parsed, at the same position |
| Agents.ToolsSchema | src/agents/agent.py:84-87 | one entry per tool, in order, each of type "function" with that tool's schema |
| Agents.Agent.GetOpenaiToolsSchema | src/agents/agent.py:84-87 | the schema list has one entry per tool, in order |
| Agents.Functions | src/agents/agent.py:63-65 | the schemas are sent only with tools and schemas; `SchemasSentIffTools` states it for a constructed agent |
| Agents.SchemasSentIffTools | src/agents/agent.py:63-65 | a constructed agent sends function schemas exactly when it has tools |
| Agents.FindTool | src/agents/agent.py:45 | the first tool with the call's name; none iff the name is missing or no tool has it |
| Agents.NameList | src/agents/agent.py:47 | the names are written as a bracketed list |
| Agents.NameListExample | src/agents/agent.py:47 | two tools `Search` and `Weather` are listed as `['Search', 'Weather']` |
| Agents.QuotedNamesMention | src/agents/agent.py:47 | every tool's name appears quoted in the list |
| Agents.NotFound | src/agents/agent.py:47 | the error text for an unknown name; `NotFoundListsTools` states that it names every tool |
| Agents.NotFoundListsTools | src/agents/agent.py:45-47 | the not-found text names every registered tool |
| Agents.RunTool | src/agents/agent.py:42-59 | an unknown name gives the not-found text and no message. A raising evaluation gives "Error: " and its text; a raising tool gives "Error: " and the tool's text; neither logs a message. A successful tool's output is returned and logged as one tool message, with the tool's name and the call id |
| Agents.Agent.ExecuteTool | src/agents/agent.py:42-59 | the output and the history change are those that `RunTool` gives |
| Agents.Exec | src/agents/agent.py:24-40 | the turn raises iff the first request raises. The requests consumed are a prefix of the replies. The first request sent carries the history as it was |
| Agents.ToolMessages | src/agents/agent.py:36-37 | the tool messages of the calls, in order; `ToolMessagesFromTools` states that each comes from a registered tool |
| Agents.ToolMessagesFromTools | src/agents/agent.py:35-55 | every tool message a tool round adds comes from a registered tool |
| Agents.ExecAppendsAgentMessages | src/agents/agent.py:24-40 | `execute` only appends to the history, and each new entry is an assistant reply or the output of a registered tool |
| Agents.NoToolsNoToolMessages | src/agents/agent.py:45-47 | an agent without tools adds only assistant messages |
| Agents.ToolRoundThenAnswer | src/agents/agent.py:24-40 | a reply calling a tool, then a plain reply: two requests are sent, the second with the first reply and the tool's message appended; the answer is the second reply's content |
| Agents.UnknownToolThenAnswer | src/agents/agent.py:24-47 | a call naming no registered tool adds no tool message; the two replies are recorded and the second's content is returned |
| Agents.Initial | src/agents/agent.py:15-16 | the history is empty iff there is no system prompt; otherwise it is that one system message |
| Agents.Agent.constructor | src/agents/agent.py:8-16 | no tool list means none; schemas exist only when there are tools; the history is the initial one |
| Agents.Agent.Reset | src/agents/agent.py:89-92 | the history returns to the initial one |
| Agents.Agent.HandleMessagesHistory | src/agents/agent.py:94-101 | exactly one message is appended, with parsed tool calls and the given tool reference; earlier messages are unchanged |
| Agents.CallsOf | src/agents/agent.py:75-79 | a reply carries no tool call iff its `function_call` is missing or empty; otherwise exactly that one call |
| Agents.AssistantEntry | src/agents/agent.py:81 | the assistant message for a reply, with its content and its parsed calls; `CallsOf` states which calls those are |
| Agents.Agent.CallLlm | src/agents/agent.py:61-82 | one request carries the history and the functions. A reply appends exactly one assistant message, whose tool calls are `[function_call]` or none. A raising service appends nothing |
| Agents.Agent.Execute | src/agents/agent.py:24-33 | history, result, remaining replies and requests are those `Exec` gives |
| Agents.Agent.RunTools | src/agents/agent.py:35-40 | every call runs in order, then `execute` runs on the extended history, as `Exec` gives |
| Agents.Agent.Invoke | src/agents/agent.py:18-22 | the user message is appended, then `execute` runs as `Exec` gives |

## Where the code and the description of the system differ

The model follows the code in each case:

- `extract_sentences` uses `re.split`. It drops the whitespace runs between sentences, and when
  there is a boundary it returns a trailing empty string as its last sentence.
  `stream_gpt4_response` passes that empty string to the callback.
  - Joining the emitted sentences does not rebuild the text. Only the sentences interleaved
    with the dropped whitespace do, for one call (`Sentences.ExtractLossless`) and over the whole
    stream (`Sentences.StreamLossless`).
- No emotion tags are recognised anywhere in the code, and the speech worker applies no
  per-emotion rate or volume.
- `execute_tool` does not append an error as a tool message. Unknown tools, failed argument
  evaluation and raising tools return an error text that `run_tools` discards.
- When a nested `execute` raises, the enclosing `execute` returns the content of its own
  earlier reply (the one that carried the tool call). It does not return the content of a
  final reply.
- In `stop_and_process_handler`, an exception from the final transcription is not caught. It
  leaves the handler.
- When the Whisper model raises inside the transcriber's worker, or inside `test.py`'s
  transcription worker, nothing catches it, and the worker thread ends.
  - In transcriber.py the texts of the segments yielded before the raise stay in
    `transcribed_text`, and the temporary file stays on disk.
  - In test.py the file stays only when `transcribe` itself raised. A raise while the
    segments are joined comes after `os.remove` at test.py:109, so that file is gone, and
    no partial is appended.
- `test.py`'s `start_recording` does not reset `accumulated_text`, so a new recording appends
  to the previous transcript.

## Left out

- Threads, locks, sleeps and timeouts. Each thread step is one atomic method call, and a
  loop's interleaving with the capture callback is an input list of events. The source is
  weaker than this in three ways that the model does not capture:
  - `realtime_transcription_loop` in main.py holds `buffer_lock` only while it slices the
    buffer; writing the file, calling the backend, and advancing `processed_audio_index`
    happen after the lock is released.
  - That loop tests its flags before its one-second sleep. A tick that wakes after
    `stop_and_process_handler` can transcribe again the blocks the handler already
    transcribed. The model's loop method tests the flags right before each tick, and such
    a late tick is only a call of `TranscriptionTick` made after the handler.
  - test.py's `chunking_worker` also tests `recording_active` before its sleep. A tick
    that wakes after `stop_and_submit` flushes one more chunk. `transcription_worker` may
    have ended by then, because it stops once recording is off and the queue is empty, and
    that chunk's file is then never transcribed. In the model this is a call of
    `ChunkingTick` after `StopAndSubmit`, with no later `TranscriptionWorker`.
  - `RealTimeTranscriber` in transcriber.py takes no lock around `transcribed_text`.
- The tkinter widgets, the waveform canvas and the amplitude computations of both GUIs.
- The title, geometry and buttons of both GUIs.
- Chunked.Session.constructor: test.py:125 passes the text as the `master` argument of
  `tk.StringVar`. That raises, so `VoiceAssistantApp()` at test.py:215 fails and the source
  never reaches this state. The model starts from the state the code evidently intends, with
  both labels empty.
- Device failures when opening a stream.
- The OpenAI, faster-whisper, pyttsx3 and edge-tts calls. They are oracles. Audio playback in
  `tts_worker` and `speak` is not modelled.
- The request parameters sent to the services:
  - model names
  - `max_tokens`
  - temperature
  - beam size
  - VAD
  - language
- `save_audio_to_wav` in main.py. Nothing calls it.
- `_send_to_gpt4` in test.py.
- The module-level code at the end of streaming_voice.py, which starts the speech thread, is
  not modelled. streaming_voice.py:66 uses `threading`, which the module never imports, so
  importing the module (as main.py:22 does) raises `NameError`. Lines 57-58 also use `np`
  and `sd` without importing them. The model treats the module's functions as if the import
  succeeded.
- Sentences.StreamResponse: an exception from the chat stream is a flag on the input. A
  raising stream ends the thread and skips the final flush; nothing in main.py reports it.
- Agents.CallsOf: a `function_call` that holds only keys other than name, arguments, id and
  type is modelled as an empty call.
- app.py, python.py, junk/, scripts/ and src/prompts are not part of this model.
- `eval` of tool arguments. It is a function from the argument string to keyword arguments,
  or an exception text.
- Tools are identified by their class name and schema text. Tool outputs are strings.
- A reply whose `content` is null is modelled as a string.
- Sentences.DeltaText: a delta whose `content` key is present but null is modelled as `""`.
  streaming_voice.py:22 would pass `None` on, and `buffer += None` at line 23 raises
  `TypeError`.
- Agents.Exec: the chat service is a finite list of replies. Running past its end counts as
  a raising call. A model that keeps calling tools forever is therefore cut off when the
  list ends, instead of recursing until Python's recursion limit.
- Transcriber.RealTimeTranscriber.TranscribeLoop: the real loop keeps polling an empty queue
  until `stop`. The model ends when the queue is empty or the worker has crashed.
- Chunked.Session.TranscriptionWorker: the real worker polls while recording is active. The
  model drains the queue it is given and ends there.
- Console printing, including the colorama output of the agent.
