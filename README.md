# Pre-response agent: speculative filler turn and session metrics

This project models the core of `agent-worker/fast-preresponse.py`, a LiveKit voice agent.
When the user finishes a turn, the agent asks a small fast model for a short acknowledgment
(a "silence filler"). It speaks that acknowledgment as it streams, waits until the whole
text has arrived, and adds it to the turn context before the main model answers. The model
covers three parts of that file.

- **Filler turn** (`FillerTurn`). The agent copies the turn context without instructions or
  function-call records and keeps its three most recent items. It puts the fixed filler
  prompt first and the new user message last. Each chunk the fast model streams is passed to
  speech output unaltered and added to a running text. A write-once future receives the text
  when the stream ends. Then exactly one assistant message with that text
  (`interrupted = false`) is appended to the turn context. The chat context is a class whose
  `items` sequence is updated in place. The fast model is a function parameter from the
  context it is given to the chunks it streams. Speech output records what it was handed.
- **Metrics** (`SessionMetrics`). These are the six module-level Prometheus objects. Each
  latency summary is a count/sum pair, each counter a running total, and the active
  conversations gauge an integer. They are fields of the `Metrics` class. `HandleEvent` is
  the `metrics_collected` handler. It dispatches on the event's class (LLM, STT, TTS, VAD or
  another one) and reads the optional attributes `duration_ms`, `total_tokens` and
  `conversation` as `Option`s in place of the `hasattr` probes. The pure function
  `HandleMetrics` specifies it, and `Run` folds that function over a sequence of events in
  arrival order. Prometheus refuses a negative counter increment with an error. The model
  keeps that case as a `raised` outcome, and it ends the handler before the turn counter is
  touched.
- **Usage report** (`UsageReport` and `Metrics.LogUsage`). At shutdown the collector's summary
  becomes a record with optional `llm`, `stt` and `tts` parts. Each part is present exactly
  when the summary has that modality, and missing inner figures become 0. The gauge is then
  decremented. `SessionStarted` models the increment at session start.

The handler, the reply generator and the context building all run sequentially here. The
generator is consumed to the end before the awaiting code reads the future.

## Model

| member | source | states |
|---|---|---|
| FillerTurn.Filtered | agent-worker/fast-preresponse.py:59-60 | the copy holds exactly the items of the context that the exclusion flags keep, and no more items than the context |
| FillerTurn.FilteredConcat | agent-worker/fast-preresponse.py:59-60 | copying distributes over concatenation, so the kept items stay in their original relative order |
| FillerTurn.SpeculativeItems | agent-worker/fast-preresponse.py:59-63 | the fast model's context is the filler prompt first and the new message last. Between them are min(3, number of kept items) items, which are exactly the most recent kept items of the turn context; none is an instruction or a function-call record, and each comes from the turn context |
| FillerTurn.ChatContext.Copy | agent-worker/fast-preresponse.py:59-60 | copying returns a fresh context holding the filtered items and leaves the original untouched |
| FillerTurn.ChatContext.Truncate | agent-worker/fast-preresponse.py:61 | truncation keeps the most recent max_items items |
| FillerTurn.ChatContext.InsertItem | agent-worker/fast-preresponse.py:62 | list insertion places the item at the index, or at the end when the index is past it |
| FillerTurn.ChatContext.AppendItem | agent-worker/fast-preresponse.py:63 | appending adds the item after all the others |
| FillerTurn.ChatContext.AddMessage | agent-worker/fast-preresponse.py:89 | adding a message appends one message with that role, text and interrupted flag |
| FillerTurn.SpeechOutput.Play | agent-worker/fast-preresponse.py:82 | each yielded chunk reaches speech output after everything handed over before it |
| FillerTurn.FillerFuture.SetResult | agent-worker/fast-preresponse.py:76-83 | the future can only be resolved while unresolved, and then holds exactly the given text |
| FillerTurn.FastLlmReply | agent-worker/fast-preresponse.py:78-83 | speech output receives every chunk unaltered and in stream order. The future, resolved exactly once, holds the in-order concatenation of the chunks |
| FillerTurn.ConcatSplit | agent-worker/fast-preresponse.py:79-81 | the concatenation of two chunk sequences is the concatenation of their concatenations |
| FillerTurn.ChunkInPlace | agent-worker/fast-preresponse.py:80-83 | every chunk occurs unaltered in the accumulated text at its own offset, offsets following stream order |
| FillerTurn.PreResponseAgent.constructor | agent-worker/fast-preresponse.py:48-55 | the agent's fast-model prompt is the fixed two-part system message |
| FillerTurn.PreResponseAgent.OnUserTurnCompleted | agent-worker/fast-preresponse.py:57-89 | the fast model is given the bounded speculative context, and speech output receives exactly its chunks. The turn context's only change is one appended assistant message whose single text part is the concatenation of the chunks (empty for an empty stream), with interrupted false |
| SessionMetrics.HandleMetrics | agent-worker/fast-preresponse.py:110-159 | an event updates only the distribution of its own class, by one more count and its duration added, when it has a duration. Only LLM events touch the token total, adding total_tokens when present. VAD and unrecognised events touch no distribution. The turn counter goes up by exactly 1 when the event carries a conversation, unless a negative token count raised first. The gauge is never touched |
| SessionMetrics.Metrics.HandleEvent | agent-worker/fast-preresponse.py:104-166 | the handler changes the metrics exactly as the event's effect describes and reports whether it raised |
| SessionMetrics.RunLlmEvents | agent-worker/fast-preresponse.py:111-115 | a run of timed LLM events adds its length to the LLM latency count, the sum of durations to its sum and the sum of token counts to the token total; STT and TTS stay unchanged |
| SessionMetrics.RunUntimedEvents | agent-worker/fast-preresponse.py:147-159 | a run of VAD or unrecognised events changes nothing except the turn counter, which grows by the number of events carrying a conversation |
| SessionMetrics.RunKeepsGauge | agent-worker/fast-preresponse.py:104-166 | handling any events leaves the active-conversation gauge unchanged |
| SessionMetrics.RunCountsGrow | agent-worker/fast-preresponse.py:104-166 | no event ever decreases a latency count, the token total or the turn counter |
| SessionMetrics.LlmAccumulationExample | agent-worker/fast-preresponse.py:111-115 | LLM latencies 100, 150, 120, 90, 200 with token counts 10 and 20 give count 5, sum 660 and 30 tokens |
| SessionMetrics.SessionGaugeBalanced | agent-worker/fast-preresponse.py:102 | a session start raises the gauge by 1 for the whole session, and the report's decrement returns it to its prior value |
| SessionMetrics.Metrics.constructor | agent-worker/fast-preresponse.py:34-39 | all metrics start at zero |
| SessionMetrics.Metrics.SessionStarted | agent-worker/fast-preresponse.py:102 | session start adds one active conversation and changes nothing else |
| SessionMetrics.Metrics.LogUsage | agent-worker/fast-preresponse.py:168-192 | the report's record is the one built from the summary, the logged gauge value is the one before the decrement, and the gauge then drops by exactly 1 with nothing else changed |
| UsageReport.BuildSummaryRecord | agent-worker/fast-preresponse.py:171-182 | each of the llm, stt and tts records is present exactly when the summary has that modality; every inner figure is the summary's value when present and 0 when missing |
| UsageReport.AbsenceIsNotZero | agent-worker/fast-preresponse.py:171-182 | a summary without stt and one with an all-zero stt give different records |

## Left out

- The LiveKit room connection, session start, worker bootstrap and command-line entry (lines 92-99, 194, 201-202) are I/O plumbing.
- The Groq, Deepgram, OpenAI and Silero providers are foreign calls. The fast model is a function parameter, and `session.say` is only the record of chunks handed to speech output.
- The agent's main reply and its instructions (lines 43-46) are not covered by this model.
- The concurrency between `say` and the awaiting coroutine is not modelled. The model consumes the stream fully and only then reads the future.
- A stream that fails or is cancelled is not modelled. The code leaves the future unresolved then, and the model invents no failed or cancelled state.
- `ChatContext.copy` and `truncate` are library code and are not part of this model beyond the exclusion filter and keeping the most recent `max_items` items. Assigned message ids and creation times are left out too.
- `metrics.UsageCollector` is left out: its `collect` (line 108) and the internals of `get_summary` are library code. The summary is an input value of `LogUsage`.
- `metrics.log_metrics`, all `logger.info` calls, JSON serialisation of the record and the `datetime` timestamps are observability output only.
- SessionMetrics.SessionGaugeBalanced: the balance holds only for a session that reaches its report. The gauge goes up at line 102, but the decrement callback is registered only at line 198. If `session.start` (line 194) or `start_http_server` (line 197) raises, `log_usage` never runs and the gauge stays one too high. The model does not capture that path.
- The Prometheus HTTP server (line 197) and the shutdown-callback registration (line 198) are left out. Prometheus label and quantile machinery is left out too. A summary is only its count and sum.
- Durations and token counts are integers, not floats.
- The attributes are optional per event in the model. Whether LiveKit's metric classes actually carry `duration_ms`, `total_tokens` or `conversation`, and whether its usage summary has `llm`, `stt` or `tts`, is decided by library code that is not part of this model.
- SessionMetrics.Run: what the event emitter does with an error raised by the handler is not modelled. The run continues from the metrics as the handler left them.
