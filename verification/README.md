# smart_dog_server core, modelled in Dafny

This project models the conversational core of the smart_dog_server voice
assistant:

- **Context compaction.** `ChatContextManager.manage_context` works once the
  last prompt-token reading passes a fraction of the context window. It
  summarises the older rounds of the conversation into one system message.
  When system prompts have piled up, it merges them.
- **The turn loop of both chat handlers.**
  - The user message is appended.
  - The model is called until its finish reason is not `tool_calls`.
  - Every tool-calling reply is recorded with one tool message per call.
  - Token usage is accounted after every reply.
  - The console loop stops at `exit` or `quit` and compacts the context after each turn.
- **The tool gateway.**
  - The whitelist check `_is_tool_allowed`, including the exceptions that a
    null value in the whitelist file raises.
  - `prepare_tools`, which lists the MCP catalog, filters it and describes it.
  - `_process_tool_calls`, which turns each call into a tool message.
- **`_call_llm_stream`.** The chunks of a streamed reply are gathered. Tool-call
  fragments are merged by index.
- **The voice handler's rendering side.**
  - `split_sentences` cuts the reply after each maximal run of sentence terminators (`Sentences.SplitIsScan`).
  - `chat_with_tts` and `_handle_audio_data` are a fold over the message queue.
  - The LLM worker puts one turn's items on the queue and ends them with a `None` sentinel.
- **The voice activity detector.** The frame-size arithmetic, and
  `detect_voice_from_file`, which records from the first speech frame until
  enough trailing silence.
- **The local calculator server.** `add` and `minus`, with parameters that
  default to 10 and must lie in 1..100. A JSON argument is validated as a lax
  integer, as pydantic does it.

The model has no I/O. Each collaborator is a parameter:

- the chat model: a function from a request to a stream or a reply;
- the summarizer;
- JSON parsing;
- the MCP `list_tools` result, which is a catalog or an exception;
- the MCP `call_tool`;
- text-to-speech;
- the per-frame speech test.

A Python exception becomes a `Failure` carrying its message. A value that
Python leaves as `None` is an `Option`. A dict key that may be absent or
null is a `Field`, which keeps those two apart. A history message's
`tool_calls` key is one: it is absent on an answer and null on a reply that
finished with `tool_calls` but named none (`Orchestrator.RoundsNullCalls`).

Modules follow the program's structure:

- `Base` has Python's `str.strip` and truthiness.
- `Messages` has the chat history.
- `ContextManager`
- `ToolGateway`
- `StreamMerge`
- `Sentences`
- `Rendering`
- `Orchestrator`
- `VoiceWorker`
- `Vad`
- `Calculator`
- `Scenarios` has worked examples on concrete inputs.

Three behaviours of the code are easy to get wrong:

- **Fragment boundaries.** Feeding reply fragments one at a time does not
  always split the same as splitting the whole reply. The buffer keeps a
  stripped remainder, so a space at a fragment boundary is lost
  (`Scenarios.FragmentBoundaryDropsSpace`).
- **Stream merge.** A later fragment whose name or id is non-empty overwrites
  the stored value; it does not keep the first one.
- **A call with no function object.** `_process_tool_calls` raises when a call
  has no function object. This happens on the log line before the `try`, so
  it is not turned into a tool message (`ToolGateway.ProcessToolCallsSpec`).

A tool name without `_` raises when a whitelist is loaded
(`ToolGateway.IsToolAllowed`). So does a null `mcp_servers`, a null namespace
entry, or a null `tools` list in an enabled namespace that does not allow all
of its tools. A missing key reads as its default; a null one does not.

## Model

| member | source | states |
|---|---|---|
| ContextManager.KeepCountRounds | chat_handler/chat_context_manager.py:111-128 | When not the whole list is kept, the kept suffix starts at a user message and holds exactly `rounds` user messages. When the whole list is kept, it holds at most `rounds` user messages, and with exactly `rounds` it opens with one. |
| ContextManager.KeepCountWhole | chat_handler/chat_context_manager.py:111-128 | The whole non-empty list is kept exactly when it holds fewer than `rounds` user messages, or exactly `rounds` and opens with one. |
| ContextManager.GetKeepChatMessages | chat_handler/chat_context_manager.py:122-128 | The backwards-walking loop returns at most the list length and 0 when `rounds <= 0`. Otherwise the kept messages are the last `rounds` rounds: they open with a user message and count `rounds` users, or they are the whole list, which happens exactly when it has fewer than `rounds` users, or `rounds` users and a user message first. |
| ContextManager.SplitRecent | chat_handler/chat_context_manager.py:44-46 | Old and recent messages together are the non-system messages, in order. Recent has exactly `k` messages when `0 < k <= len`. With `k = 0` (Python's `[-0:]`) or `k >= len`, nothing is old. |
| ContextManager.ManageContext | chat_handler/chat_context_manager.py:23-76 | A successful call that sent no summarizer request returns the history unchanged. |
| ContextManager.CompactionSkipped | chat_handler/chat_context_manager.py:35-76 | The history is returned unchanged, and the summarizer is not called, in two cases: the token count is not above `max_context_tokens * summarize_threshold`, or there are no old messages to summarise. |
| ContextManager.CompactionFailure | chat_handler/chat_context_manager.py:48-51 | Compaction can raise only when the threshold is crossed and old messages exist. An exception from the first summarizer call propagates unchanged. |
| ContextManager.CompactionKeepsRecent | chat_handler/chat_context_manager.py:39-54 | When the summarizer was asked, the threshold was crossed. The first request is the old messages plus the summarise instruction, with no tools. Old plus recent messages are the non-system messages. The new history ends with the recent messages, verbatim. |
| ContextManager.CompactionAppendsSummary | chat_handler/chat_context_manager.py:53-73 | With fewer than `system_prompt_maxnum` system prompts, the summarizer is asked once. The result is the original system messages in order, one new summary system message, and the recent messages. |
| ContextManager.MergeFailurePropagates | chat_handler/chat_context_manager.py:62-66 | With `system_prompt_maxnum` or more system prompts, an exception from the merge call propagates. |
| ContextManager.CompactionMergesSummaries | chat_handler/chat_context_manager.py:62-73 | With `system_prompt_maxnum` or more system prompts, the merge request is system messages 2..n+1 of the first pass plus the merge instruction. The result is the first system message, one merged summary and the recent messages. Exactly two requests are sent. |
| ContextManager.CompactionBoundsSystemPrompts | chat_handler/chat_context_manager.py:53-73 | Whatever the limit, a compacted history holds at most max(limit, 2) system messages. |
| ContextManager.CompactionKeepsLastRounds | chat_handler/chat_context_manager.py:43-46 | Whenever compaction runs, the messages kept verbatim open with a user message and hold exactly `keep_chat_rounds` user messages. |
| Messages.PartitionAppend | chat_handler/chat_context_manager.py:39-40 | Splitting into system and non-system messages distributes over concatenation, and so does counting a role. |
| Messages.PartitionSizes | chat_handler/chat_context_manager.py:39-40 | The system and non-system parts together are as long as the history, and the system part holds every system message. |
| ToolGateway.IsToolAllowed | chat_handler/chat_handler.py:253-274 | With no whitelist (none loaded, or an empty file), every name is allowed. With a whitelist, a name without `_` raises the unpacking error. The check gives a verdict exactly when the name splits and its namespace can be read without meeting a null. Every exception is the unpacking error, `x in None` or `.get` on None. |
| ToolGateway.IsToolAllowedFollowsPolicy | chat_handler/chat_handler.py:260-274 | `ns_short`, where `ns` has no underscore, gets a verdict exactly when namespace `ns` can be read. The verdict is then whether `ns` is listed and enabled and either allows all tools or lists `short`. A null `mcp_servers` and a null `tools` list of an enabled namespace raise `x in None`. A null namespace entry raises `.get` on None. |
| ToolGateway.PrepareTools | chat_handler/chat_handler.py:223-243 | A failure is one of the whitelist check's exceptions. It never yields more tools than the catalog has. |
| ToolGateway.PrepareToolsSucceeds | chat_handler/chat_handler.py:223-243 | Preparing the tools succeeds exactly when the whitelist check gives a verdict on every catalog name. With no whitelist, every tool is offered. |
| ToolGateway.PrepareToolsFailsAtFirst | chat_handler/chat_handler.py:223-238 | A failed preparation carries the exception of the first catalog name the whitelist check raises on. Every earlier name got a verdict. |
| ToolGateway.PrepareToolsSelectsAllowed | chat_handler/chat_handler.py:223-238 | The prepared tools are exactly the descriptions of the allowed catalog tools, in both directions. |
| ToolGateway.PrepareToolsKeepsOrder | chat_handler/chat_handler.py:223-238 | Filtering keeps catalog order. Preparing a + b is preparing a, then b. |
| ToolGateway.Dispatch | chat_handler/chat_handler.py:189-214 | Each call yields a tool message with the call's id. It holds the result text when parsing and the call succeed. Otherwise it holds an error text naming the tool and the error. |
| ToolGateway.ProcessToolCallsSpec | chat_handler/chat_handler.py:183-214 | One tool message per call, in order, each equal to that call's `Dispatch`. The batch raises exactly when some call has no function object. It then stops at the first such call, after appending the earlier results. |
| StreamMerge.MergeSpec | chat_handler/chat_handler.py:152-166 | Merging fails exactly when a later fragment updates a call whose first fragment had no function object. Otherwise there is one call per distinct index, in order of first appearance. Each call has the last truthy id and name (or the first fragment's) and its argument texts joined in arrival order. |
| StreamMerge.MergeIntoAppend | chat_handler/chat_handler.py:152-166 | Merging fragments from consecutive chunks is merging them all at once. A failure is final. |
| StreamMerge.GatherText | chat_handler/chat_handler.py:147-149 | The gathered text is the join of the fragments handed on, even when a chunk raised. |
| StreamMerge.GatherSpec | chat_handler/chat_handler.py:142-171 | Gathering raises exactly when the merge of all fragments fails. Otherwise the pieces handed on are the non-empty text fragments in order, and the calls are the merge of all fragments. The finish reason and usage come from the last chunk that carried a finish reason. |
| StreamMerge.CallLlmStreamSpec | chat_handler/chat_tts_handler.py:191-247 | A reply exists exactly when neither the stream nor the merge raised. Its content is the join of the fragments handed on. Its tool calls are the merged calls, or None when there are none. |
| Sentences.Split | chat_handler/chat_tts_handler.py:86-106 | The remainder has no surrounding whitespace. |
| Sentences.SplitIsScan | chat_handler/chat_tts_handler.py:91-104 | The text is cut exactly at the ends of its maximal terminator runs, the `end()` of each `finditer` match. Every sentence is the stripped text from the previous cut, or the start, to the next cut, and empty pieces are dropped. The remainder is the stripped text after the last cut. This equals a reference that reads the text one character at a time. |
| Sentences.SplitCount | chat_handler/chat_tts_handler.py:91-101 | A run of consecutive terminators closes at most one sentence, so no more sentences are emitted than there are runs. |
| Sentences.SplitSentences | chat_handler/chat_tts_handler.py:91-101 | Every emitted sentence is non-empty and stripped. It holds at most one run of terminators, and nothing follows that run. A run made only of line breaks is stripped away, so such a sentence has no terminator at all. |
| Sentences.SplitRemainder | chat_handler/chat_tts_handler.py:103-104 | The remainder holds no terminator. |
| Sentences.SplitNoTerminator | chat_handler/chat_tts_handler.py:91-106 | A text without terminators yields no sentence, and its stripped self as the remainder. |
| Sentences.SplitKeepsText | chat_handler/chat_tts_handler.py:86-106 | Whitespace aside, the sentences followed by the remainder are the input text. |
| Rendering.Speak | chat_handler/chat_tts_handler.py:357-359 | When nothing raises, every text is sent in order. When synthesis raises, a non-empty prefix is sent, and the text it raised on is the last one sent. |
| Rendering.SpeakSucceeds | chat_handler/chat_tts_handler.py:357-359 | Speaking completes exactly when every synthesis succeeds, and it then delivers the non-empty audio of every text in order. |
| Rendering.RenderTimesOutWithoutSentinel | chat_handler/chat_tts_handler.py:332-368 | A fold that runs out of queue items has read every item and saw no sentinel. |
| Rendering.RenderStopsAtSentinel | chat_handler/chat_tts_handler.py:335-345 | A completed fold read exactly up to and including the first sentinel. Every earlier item is text, and later items are left unread. |
| Rendering.RenderSpeaksTrimmedText | chat_handler/chat_tts_handler.py:338-362 | Every text sent to the synthesiser is non-empty and has no surrounding whitespace. |
| Rendering.RenderDeliversAudio | chat_handler/chat_tts_handler.py:375-387 | Unless synthesis raised, every spoken text was synthesised, and the audio delivered is its audio in order, with empty audio dropped. |
| Rendering.RenderStopsAtFailure | chat_handler/chat_tts_handler.py:341-359 | When synthesis raises, the last text spoken is the one it raised on. |
| Rendering.RenderSpeaksEverything | chat_handler/chat_tts_handler.py:332-368 | Whitespace aside, a completed fold speaks the buffer followed by all text received before the sentinel. |
| Rendering.ChatWithTts | chat_handler/chat_tts_handler.py:314-373 | Whitespace aside, a completed rendering of one turn speaks exactly the text received before the sentinel, and reads no more items than the queue holds. |
| Orchestrator.Account | chat_handler/chat_handler.py:74-79 | With a usage report, `message_tokens` becomes its prompt tokens and each total grows by its count. Without one, nothing changes and the history is untouched. |
| Orchestrator.Rounds | chat_handler/chat_handler.py:66-116 | The history only grows and the tools are unchanged. A model call happens exactly when the bound allows one. An answered turn's answer is the last reply received. |
| Orchestrator.RoundsNullCalls | chat_handler/chat_handler.py:101-113 | A reply that finishes with `tool_calls` but carries none is stored with a null `tool_calls` key, so it differs from an answer. Iterating over the missing calls then raises "'NoneType' object is not iterable", and the stored message stays in the history. |
| Orchestrator.RoundsTotals | chat_handler/chat_handler.py:73-79 | After a turn, the totals have grown by the sum of the usage its replies reported. |
| Orchestrator.RoundsMessageTokens | chat_handler/chat_handler.py:74-75 | After a turn, `message_tokens` is the prompt size of the last reply that reported usage. If none did, it is unchanged. |
| Orchestrator.RoundsRequests | chat_handler/chat_handler.py:118-132 | The first request is the history the turn started from. Every request carries the session's tools and a prefix of the final history that extends the starting one. |
| Orchestrator.RoundsConclude | chat_handler/chat_handler.py:93-116 | An answered turn's finish reason is not `tool_calls`. Its history is the starting one, then complete tool rounds, then the answer. In each round, every declared call is answered in order by a tool message with its id. |
| Orchestrator.HandleChat | chat_handler/chat_handler.py:52-116 | The user message is appended first. Tools are prepared only when there are none. An exception from `list_tools` or from the whitelist check ends the turn with that exception, before any model call. An answer concludes the history. The first request holds the history with the user message. |
| Orchestrator.IsExitSpelling | chat_handler/chat_handler.py:285 | An input ends the loop exactly when it spells `exit` or `quit` in any mix of ASCII case. |
| Orchestrator.ChatLoop | chat_handler/chat_handler.py:276-296 | An exit word first ends the loop at once, with nothing changed. No more turns run than there are inputs. |
| Orchestrator.LoopPassCompacts | chat_handler/chat_handler.py:283-296 | Each pass compacts once, after a turn that answered. The loop goes on exactly when the turn answered and compaction succeeded. The next session is the turn's, with the concluded history replaced by its compaction, computed from the prompt size of the last reported usage. A turn that raised or ran out of calls, or a compaction that raised, stops the loop with the uncompacted turn state and that outcome. |
| Orchestrator.ChatLoopStops | chat_handler/chat_handler.py:283-296 | No input a turn ran for was an exit word. The loop exits at the first exit word. It runs out of input only after a turn for every input. It raises or runs out of model calls only after running a turn. |
| VoiceWorker.WorkerTurn | chat_handler/chat_tts_handler.py:117-187 | The worker as written: a turn's items begin with its streamed fragments, in order. |
| VoiceWorker.CompactionFailureDoublesSentinel | chat_handler/chat_tts_handler.py:155-187 | As written, an answered turn whose compaction raises puts the fragments, a sentinel, an error text and a second sentinel. If it was the only unfinished task, the worker thread dies. |
| VoiceWorker.StaleErrorEndsNextTurn | chat_handler/chat_tts_handler.py:332-345 | The stale error text and second sentinel end the next `chat_with_tts` call after two items, speaking only the error text. |
| VoiceWorker.WorkerTurnFixed | chat_handler/chat_tts_handler.py:147-187 | The corrected worker keeps running. Any turn that ends puts its fragments, then either the error text and one sentinel or just one sentinel, and calls `task_done` once. The history extends the user message. |
| VoiceWorker.WorkerTurnFixedCompacts | chat_handler/chat_tts_handler.py:147-161 | The corrected worker's session holds the compacted history after an answered turn whose compaction succeeded. In every other case it keeps the turn's history. |
| VoiceWorker.WorkerTurnAgrees | chat_handler/chat_tts_handler.py:117-187 | On every turn except an answered one whose compaction raises, the worker as written and the corrected one take the same step. |
| VoiceWorker.RenderIgnoresLater | chat_handler/chat_tts_handler.py:335-345 | Items after a turn's sentinel do not change how the turn renders. |
| VoiceWorker.ReceivedSaid | chat_handler/chat_tts_handler.py:210-215 | The renderer receives, before the sentinel, exactly the text fragments the worker streamed, joined. |
| VoiceWorker.RenderOwnTurn | chat_handler/chat_tts_handler.py:332-368 | A turn's items with one sentinel never time out, and a completed rendering reads all of them. |
| VoiceWorker.VoiceSession | chat_handler/chat_tts_handler.py:390-402 | With the corrected worker, at most one worker step and one rendering per input. |
| VoiceWorker.VoiceSessionKeepsTurnsApart | chat_handler/chat_tts_handler.py:314-373 | With the corrected worker, each completed rendering reads exactly its own turn's items. Whitespace aside, it speaks exactly the text they carry. |
| Vad.TruncDiv | my_vad/webrtc_vad.py:17 | Python's `int()` of a quotient rounds toward zero, for both signs. |
| Vad.FrameSizeBounds | my_vad/webrtc_vad.py:17-19 | The frame size is the sample count, computed exactly in integers and truncated toward zero. The byte count is even. |
| Vad.DefaultFrames | my_vad/webrtc_vad.py:6-19 | With the defaults, 16 kHz and 30 ms, a frame is 480 samples, or 960 bytes. |
| Vad.FramesCover | my_vad/webrtc_vad.py:104-107 | Reading frame by frame yields `len // frame_bytes` frames. They form a prefix of the file and lose only a tail shorter than a frame. |
| Vad.DetectVoiceFromFile | my_vad/webrtc_vad.py:88-131 | A missing file raises. Otherwise the loop returns the recording that starts at the first speech frame and stops before the frame that makes the silence reach the limit, or at the last full frame. |
| Vad.ExpectedWholeFrames | my_vad/webrtc_vad.py:123-124 | The recording is made of whole frames. |
| Vad.ExpectedNonEmpty | my_vad/webrtc_vad.py:109-124 | Something is recorded exactly when some full frame is speech. The recording then begins with the first such frame. |
| Vad.PartialFrameIgnored | my_vad/webrtc_vad.py:105-107 | Appending fewer bytes than a frame to whole-frame audio does not change the recording. |
| Calculator.LaxInt | my_mcp/my_server/local_cal.py:12-13 | An `int` parameter in lax mode accepts an integer as is and a boolean as 1 or 0. It accepts a number only when it has no fractional part, giving its exact value. It accepts a string only when it reads as an integer. Null, arrays and objects are rejected. |
| Calculator.ParseShowInt | my_mcp/my_server/local_cal.py:11-44 | The decimal text of any integer, which is how the tool's result is sent, reads back as that integer. |
| Calculator.LaxIntSpellings | my_mcp/my_server/local_cal.py:12-13 | An integer, its decimal text and any float spelling of it validate to the same integer. |
| Calculator.LaxExamples | my_mcp/my_server/local_cal.py:12-13 | "5", 5.0 and true are accepted as 5, 5 and 1. 2.5, "abc" and null are rejected. |
| Calculator.Param | my_mcp/my_server/local_cal.py:12-13 | A missing argument is 10. A given one is accepted exactly when it validates as an integer in 1..100, and it then has that value. A null argument is not missing: it fails as an invalid integer. |
| Calculator.Add | my_mcp/my_server/local_cal.py:11-25 | `add` succeeds exactly when both arguments validate. Its result is the sum of the two validated values, which lies in 2..200. |
| Calculator.Minus | my_mcp/my_server/local_cal.py:30-44 | `minus` succeeds exactly when both arguments validate. Its result is the first validated value minus the second, which lies in -99..99. |
| Calculator.MinusUndoesAdd | my_mcp/my_server/local_cal.py:11-44 | When the sum is itself a valid argument, subtracting y from x + y gives back x, also when the sum is passed back as the text `add` returned. |
| Calculator.SwapArguments | my_mcp/my_server/local_cal.py:11-44 | `add` is symmetric and `minus` is antisymmetric on valid arguments. |
| Calculator.Defaults | my_mcp/my_server/local_cal.py:11-44 | With both arguments left out, `add` gives 20 and `minus` gives 0. An explicit null does not take the default. |
| Calculator.DocumentedExamples | my_mcp/my_server/local_cal.py:21-42 | add(2, 3) is 5 and minus(3, 2) is 1. |
| Calculator.CalculatorTool | my_mcp/my_server/local_cal.py:6-44 | Served by name, `add` and `minus` succeed exactly when their arguments validate. They then give one text item, which reads back as the sum or the difference. Any other name fails. |
| Scenarios.SplitExample | chat_handler/chat_tts_handler.py:86-106 | "Hello world. How are you? I am" splits into the two sentences and the remainder "I am". |
| Scenarios.LineBreakStripped | chat_handler/chat_tts_handler.py:91-104 | "Hello\n" splits into the one sentence "Hello", which holds no terminator, and an empty remainder. |
| Scenarios.OneRunOneSentence | chat_handler/chat_tts_handler.py:91-101 | "a.." holds one run of terminators, so it yields at most one sentence. |
| Scenarios.RenderTwoFragments | chat_handler/chat_tts_handler.py:335-362 | A fragment without a terminator, then one that completes the sentence, then the sentinel: only the joined sentence is spoken. |
| Scenarios.FragmentBoundaryDropsSpace | chat_handler/chat_tts_handler.py:348-362 | Fed as "Hello " and "world.", the reply is spoken as "Helloworld.". Split whole, it gives "Hello world.". |
| Scenarios.WhitelistExample | chat_handler/chat_tts_handler.py:495-516 | With only calc enabled for `add`: calc_add is allowed, calc_minus is not, and other_add is not. |
| Scenarios.NullToolsRaises | chat_handler/chat_handler.py:268-272 | With calc enabled and a null `tools` list, checking calc_add raises `x in None`, and so does preparing a catalog that lists it. |
| Scenarios.MergeExample | chat_handler/chat_tts_handler.py:218-232 | Three fragments of call 0 merge into one call with the id, the name and the joined arguments. |
| Scenarios.KeepOneRound | chat_handler/chat_context_manager.py:111-128 | Keeping one round of [user, assistant, user, assistant] keeps the last two messages. |
| Scenarios.CalculatorAnswers | chat_handler/chat_tts_handler.py:518-538 | add(2, 3) through the gateway yields a tool message carrying "5". |
| Scenarios.CalculatorRejects | chat_handler/chat_tts_handler.py:539-549 | add(0, 3) through the gateway yields a tool message naming the tool and the validation error. |

## Left out

- Threads, queues and timeouts are not modelled. The worker and the renderer are modelled as functions over the item sequence. A 10-second `get` timeout is the queue running dry, and the 0.5-second polls are not modelled.
- The audio thread, playback, the WebSocket send, `audio_queue.join` and the printing are left out. Delivery is the sequence of non-empty audio pieces.
- The chat model, the summarizer, JSON parsing, the MCP `call_tool`, text-to-speech and webrtcvad's `is_speech` are foreign calls. They are function parameters. The MCP `list_tools` is a parameter too: the catalog it returns, or the exception it raises.
- `detect_voice_from_ws` is not part of this model. It is a socket-driven variant of the file detector.
- YAML loading of the system prompt and the whitelist file is left out. A loaded whitelist is a value, and a missing file is `None`.
- `ws_server.py`, `main.py`, the ASR and TTS engines and `remote_greet.py` are not part of this model. They are service wiring and engines.
- `handle_chat_stream` and `interactive_loop_with_tts_asr` are not modelled. They only call modelled operations with fixed arguments or a recorded input.
- The raise when the TTS model is missing, at the top of `chat_with_tts`, is left out. The model always has a synthesiser.
- Orchestrator.Rounds: the source's `while True` has no bound. The model takes a bound on model calls, and running out of it is an outcome of its own, `OutOfFuel`. A model that never stops calling tools is therefore not modelled.
- Orchestrator.ChatLoop: reading from the console is the list of inputs. Running out of them stands for `input()` raising at end of input.
- Vad.FrameSizeBounds: the frame size is the exact integer quotient. Python computes `sample_rate * frame_duration_ms / 1000` as a float before `int()`, so the two can differ once the product is around 9e15 or larger, where doubles no longer hold every integer. Beyond the float range Python raises OverflowError, which is not modelled either.
- Vad.DetectVoiceFromFile: requires a positive frame size. With `frame_bytes` 0 the source would read empty frames forever, and with a negative one it would read the whole file at once.
- Calculator.Param: validation messages follow pydantic's wording only in part. When both arguments are invalid, pydantic reports both, while the model reports the first.
- Calculator.LaxInt: a string reads as an integer only as an optional minus sign and decimal digits. Other spellings pydantic may accept, such as surrounding whitespace, a plus sign or underscores, are not modelled. A number with a fraction part is exact here, so the rounding of JSON floats to double precision is not modelled either.
- ToolGateway.IsToolAllowed: whitelist values are booleans, string lists, mappings, absent or null. A YAML value of another type is not modelled, such as a string `enabled` (truthy when non-empty) or a string `tools` (which Python would search as a substring).
- ContextManager.Triggered: the float `summarize_threshold` is the exact ratio of two integers. Python compares against the rounded float product `max_context_tokens * summarize_threshold`, so the two can disagree when the token count is at that boundary.
- Orchestrator.Account: Python's `getattr(..., 0)` on a usage object that lacks a field is modelled as a report whose missing fields are 0.

## Findings

| source | as written | input that shows it | evidently intended | confidence | as-written member | corrected member |
|---|---|---|---|---|---|---|
| chat_handler/chat_tts_handler.py:155-187 | The worker puts the `None` sentinel and calls `task_done` before `manage_context`. When compaction then raises, the exception handler puts an error text and a second `None` and calls `task_done` again. | An answered turn whose summarizer call raises. The queue then holds the fragments, None, the error text and None. With one unfinished task, the second `task_done` raises ValueError inside the handler and the worker thread ends. Either way the error text and the second None stay on the queue. When the worker survives, the next `chat_with_tts` call reads the stale error text and stops at the stale sentinel, before its own turn. | One sentinel and one `task_done` per input. A failed compaction keeps the uncompacted history, and each rendering reads exactly its own turn. | not executed | VoiceWorker.CompactionFailureDoublesSentinel | VoiceWorker.WorkerTurnFixed |
