# Research assistant chat page: stream filter and session state

The repository wires a team of language-model agents (a coordinator and seven
specialists: six bound to a tool, plus a general assistant) into a Streamlit chat page. Everything except one part of
`main.py` is configuration of the agent framework. That part has exact rules,
and this project models it in Dafny:

- **The stream chunk filter** (`ChunkFilter`). The coordinator's answer arrives
  as a stream of chunks. The query handler loops over the chunks in order:
  - it skips a chunk whose content is empty or not a string;
  - it stops at the first chunk that mentions `delegate_task_to_member`;
  - it keeps a chunk out of the visible answer when the chunk starts with one
    of `duckduckgo_`, `web_crawler`, `youtube_`, `resend_`, `github_`,
    `hackernews_` or contains `) completed in `, and records that chunk in a
    tool log when capture is on;
  - it appends every other chunk to the answer.

  `FilterStream` is that loop. It is proved equal to the specification
  functions `Response` and `ToolLog`. Lemmas about those functions state the
  properties of the loop: it stops early, skipped chunks have no effect, the
  answer and the log partition the inspected chunks, and the answer contains
  no chunk with a tool prefix.
- **The chat session** (`ChatSession.Session`). Its fields are the keys of
  Streamlit's session dictionary: `messages`, `team_session_id`, `team`,
  `tool_logs`, `memory_dump` and `show_tool_logs`. Its methods are:
  - first-load initialisation;
  - the sidebar's tool-log toggle;
  - the chat-input handler (`Submit`);
  - the reset button.

  The team run is an input to `Submit`, of type `RunOutcome`. The outcome is
  either the chunk stream plus the memory list the store returned, or an error
  raised by the run or by the memory store.

`Text` holds the string operations the handler uses: `startswith` with a
tuple, the `in` substring test, `+=` concatenation and `"\n".join`.
`Wrappers` holds `Option`.

Behaviour the model follows from the code:
- A failure of `team.db.get_user_memories()` (main.py:84) comes after the
  answer was already appended (main.py:82) and after `tool_logs` was stored
  (main.py:77). The `except` branch then appends a third entry,
  `"Error: …"`. `RunOutcome.MemoryRaised` models this, so such a query adds
  three history entries, not two.
- An empty query does nothing, because of `if user_query:` (main.py:43).
- Reset takes the new session id as a parameter. The id is derived from the
  clock in whole seconds, so the code does not guarantee that it differs from
  the old id, and the model does not claim it does.

## Model

| member | source | states |
|---|---|---|
| `ChunkFilter.Classify` | main.py:61-67 | with `IsToolChunk` (the prefix-or-completion test): each chunk gets exactly one fate: skipped iff empty or not a string; stop iff its content contains the delegation marker (which wins over the tool test); diverted iff a non-empty, non-delegation tool chunk; kept otherwise |
| `ChunkFilter.Processed` | main.py:60-64 | the chunks the loop inspects are non-empty strings that do not mention the delegation marker |
| `ChunkFilter.Responded` | main.py:66-68 | every chunk added to the answer is non-empty, has no tool prefix, no completion marker and no delegation marker; there are no more of them than chunks |
| `ChunkFilter.Diverted` | main.py:66-73 | every diverted chunk is non-empty tool output that does not mention the delegation marker |
| `ChunkFilter.HaltsAppend` | main.py:63-64 | a stream reaches a stopping chunk iff one of its two parts does |
| `ChunkFilter.RespondedAppend` | main.py:60-68 | the answer chunks of `a + b` are those of `a`, followed by those of `b` only when `a` did not stop the loop |
| `ChunkFilter.DivertedAppend` | main.py:60-73 | the same split law for the diverted chunks |
| `ChunkFilter.ProcessedAppend` | main.py:60-64 | the same split law for the inspected chunks |
| `ChunkFilter.StopDiscardsRest` | main.py:63-64 | a chunk containing `delegate_task_to_member` and every later chunk add nothing to the answer or to the tool log, whether capture is on or off |
| `ChunkFilter.SkippedChunkIsInert` | main.py:61 | inserting a chunk that is empty or not a string anywhere changes neither the answer nor the log |
| `ChunkFilter.SelectPartition` | main.py:66-73 | splitting chunks into tool output and the rest keeps every chunk exactly once (as a multiset, and by count) |
| `ChunkFilter.RoutesPartitionProcessed` | main.py:66-73 | the answer is exactly the inspected non-tool chunks and the log exactly the inspected tool chunks, both in arrival order; together they are the inspected chunks, with no chunk in both |
| `ChunkFilter.AnswerHasNoToolPrefix` | main.py:66-68 | no chunk of the visible answer starts with any of the six reserved tool prefixes |
| `ChunkFilter.ExtendPrefix` | main.py:60-73 | one more chunk that does not stop the loop adds its text to the answer iff it is kept, and to the diverted list iff it is diverted |
| `ChunkFilter.StopAt` | main.py:63-64 | when the chunk at position `i` stops the loop, the answer and the diverted chunks of the whole stream are those of the chunks before `i` |
| `ChunkFilter.FilterStream` | main.py:56-73 | the loop's outputs are `Response` and `ToolLog`: the loop's answer is the in-order concatenation of the kept chunks up to the first delegation chunk; its log is the diverted chunks when capture is on and empty when it is off |
| `Text.StartsWithAnyIff` | main.py:66 | about `StartsWith`/`StartsWithAny`: `startswith` with a tuple holds iff some prefix of the tuple is a prefix of the string |
| `Text.ContainsIff` | main.py:63-67 | about `Contains`, the `in` test: the substring test holds iff the marker occurs at some offset of the string |
| `Text.ConcatAppend` | main.py:68 | about `Concat`, repeated `+=`: concatenating in arrival order distributes over splitting the chunk list |
| `Text.JoinLines` | main.py:77 | the join of no lines is empty, the join of one line is that line, and a join has one newline between neighbours: length is the total of the lines plus one less than their number; it starts with the first line |
| `Text.JoinLinesAppend` | main.py:77 | joining two non-empty lists puts exactly one newline between the two joins |
| `Wrappers.Option.GetOr` | main.py:56 | a present key yields its value; an absent one yields the default |
| `ChatSession.ErrorReply` | main.py:91 | the error entry is an assistant message `"Error: "` followed by the error text |
| `ChatSession.Appended` | main.py:43-91 | a query appends the user entry first, then assistant entries only: the answer on success, the error entry if the run raised (the partial answer is dropped), or the answer followed by the error entry if the memory store raised |
| `ChatSession.StoredToolLogs` | main.py:76-77 | `tool_logs` changes only when capture is on and something was captured, and then becomes the newline-join of the captured chunks |
| `ChatSession.StoredToolLogsNonEmpty` | main.py:76-77 | whenever capture is on and something was captured, the stored tool log is non-empty and starts with the first captured chunk |
| `ChatSession.Session.CaptureEnabled` | main.py:56 | capture is on iff the `show_tool_logs` key is present and true |
| `ChatSession.Session.constructor` | main.py:15 | a new browser session has none of the keys |
| `ChatSession.Session.FirstLoad` | main.py:15-21 | without a team: the session id and an empty history are created only where absent, and the team is created; with a team: nothing changes |
| `ChatSession.Session.SetShowToolLogs` | main.py:111-112 | the toggle's value becomes the capture setting; nothing else changes |
| `ChatSession.Session.ConsumeStream` | main.py:56-77 | the answer is the filtered response of the stream under the session's capture setting, and `tool_logs` follows the stored-log rule |
| `ChatSession.Session.Submit` | main.py:43 | an empty query changes nothing; any other query changes the session as `Answer` does; the session id and the capture setting never change |
| `ChatSession.Session.Answer` | main.py:44-92 | the history becomes the old history followed by the appended entries; `tool_logs` follows the stored-log rule unless the run raised; `memory_dump` becomes the memory list only on full success and is otherwise kept |
| `ChatSession.Session.Reset` | main.py:126-133 | the history is empty; the session id is the new value; a team exists; `memory_dump` and `tool_logs` are absent; the capture setting is kept |

## Left out

- The agent definitions and the team construction (all_agents.py and create_team.py) are configuration of the agent framework. Their routing rules are natural-language text, so there is nothing to verify.
- The team run itself (`team.run`, main.py:59) and the memory store (main.py:84) are calls into the framework. Their results are the inputs in `RunOutcome`. A failure part-way through the stream is modelled as `RunRaised`: the chunks read before the failure leave no trace in the session, which matches the code.
- Exception types and messages are an abstract error string (main.py:88-92). `str(e)` becomes that string.
- All rendering is left out: chat bubbles, the streaming cursor redraw (main.py:70), the title and help text, the memory and log displays in the sidebar (main.py:99-110, 113-119, 121-124), `st.error`/`st.exception`, and `st.rerun`.
- Environment and credential loading (main.py:8-13) is left out.
- The session id from `time.time()` (main.py:17, 128) is a parameter. Its format and uniqueness are not modelled.
- The team object is represented only by whether the `team` key is present. The fresh team created at reset is not modelled beyond that.
