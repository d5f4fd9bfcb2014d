/** The chat page's session state and the three things that change it:
    loading the page for the first time, submitting a query, and the reset
    button. The keys of the session dictionary that may be absent are
    `Option` fields; the coordinator team object is represented only by
    whether the `team` key is present. */
module ChatSession {
  import opened Wrappers
  import opened Text
  import opened ChunkFilter

  datatype Role = User | Assistant

  /** One entry of the chat history: `{"role": ..., "content": ...}`. */
  datatype Message = Message(role: Role, content: string)

  /** What running the team on a query produced. */
  datatype RunOutcome =
    /** The stream ran to its end and the memory store returned `memories`. */
    | Streamed(chunks: seq<Chunk>, memories: seq<string>)
    /** Starting the run or reading the stream raised `error`. */
    | RunRaised(error: string)
    /** The stream ran to its end, but reading the memory store raised `error`. */
    | MemoryRaised(chunks: seq<Chunk>, error: string)

  /** The history entry recorded for a run that raised `error`. */
  function ErrorReply(error: string): (m: Message)
    ensures m.role == Assistant && StartsWith(m.content, "Error: ")
    ensures m.content[|"Error: "|..] == error
  {
    Message(Assistant, "Error: " + error)
  }

  /** The entries a submitted query appends to the history, in order: the
      user's query, then the answer, then an error entry if the memory store
      failed after the answer was recorded. */
  function Appended(query: string, outcome: RunOutcome): (r: seq<Message>)
    ensures 2 <= |r| <= 3
    ensures r[0] == Message(User, query)
    ensures forall k :: 1 <= k < |r| ==> r[k].role == Assistant
    ensures |r| == 3 <==> outcome.MemoryRaised?
    ensures outcome.RunRaised? ==> r[1] == ErrorReply(outcome.error)
    ensures outcome.MemoryRaised? ==> r[2] == ErrorReply(outcome.error)
    ensures !outcome.RunRaised? ==> r[1] == Message(Assistant, Response(outcome.chunks))
  {
    match outcome
    case Streamed(chunks, _) => [Message(User, query), Message(Assistant, Response(chunks))]
    case RunRaised(error) => [Message(User, query), ErrorReply(error)]
    case MemoryRaised(chunks, error) =>
      [Message(User, query), Message(Assistant, Response(chunks)), ErrorReply(error)]
  }

  /** The `tool_logs` value after the stream was consumed: the captured chunks
      joined by newlines when capture was on and caught something, otherwise
      the previous value. */
  function StoredToolLogs(previous: Option<string>, chunks: seq<Chunk>, capture: bool): (r: Option<string>)
    ensures r != previous ==> capture && Diverted(chunks) != []
    ensures capture && Diverted(chunks) != [] ==> r == Some(JoinLines(Diverted(chunks)))
  {
    var logs := ToolLog(chunks, capture);
    if capture && logs != [] then Some(JoinLines(logs)) else previous
  }

  /** A stored tool log is never empty: it starts with the first captured chunk. */
  lemma StoredToolLogsNonEmpty(previous: Option<string>, chunks: seq<Chunk>, capture: bool)
    requires capture && Diverted(chunks) != []
    ensures StoredToolLogs(previous, chunks, capture).value != ""
    ensures StartsWith(StoredToolLogs(previous, chunks, capture).value, Diverted(chunks)[0])
  {
  }

  class Session {
    /** `st.session_state.messages`; `None` before the first load. */
    var messages: Option<seq<Message>>
    /** `st.session_state.team_session_id`. */
    var teamSessionId: Option<string>
    /** Whether `st.session_state.team` is set. */
    var hasTeam: bool
    /** `st.session_state.tool_logs`. */
    var toolLogs: Option<string>
    /** `st.session_state.memory_dump`. */
    var memoryDump: Option<seq<string>>
    /** `st.session_state.show_tool_logs`, written by the sidebar toggle. */
    var showToolLogs: Option<bool>

    /** Once the team exists, the history and the session id exist too. */
    ghost predicate Valid()
      reads this
    {
      hasTeam ==> messages.Some? && teamSessionId.Some?
    }

    /** Whether the query handler captures tool output
        (`st.session_state.get("show_tool_logs", False)`). */
    function CaptureEnabled(): (b: bool)
      reads this
      ensures b <==> showToolLogs == Some(true)
    {
      showToolLogs.GetOr(false)
    }

    /** A brand-new browser session: no keys at all. */
    constructor ()
      ensures Valid()
      ensures messages == None && teamSessionId == None && !hasTeam
      ensures toolLogs == None && memoryDump == None && showToolLogs == None
    {
      messages := None;
      teamSessionId := None;
      hasTeam := false;
      toolLogs := None;
      memoryDump := None;
      showToolLogs := None;
    }

    /** The top of every script run: when there is no team yet, fill in a
        session id and an empty history where they are missing and create the
        team. `freshId` stands for the clock-derived id. */
    method FirstLoad(freshId: string)
      requires Valid()
      modifies this
      ensures Valid() && hasTeam
      ensures old(hasTeam) ==> unchanged(this)
      ensures !old(hasTeam) ==>
        messages == (if old(messages).None? then Some([]) else old(messages)) &&
        teamSessionId == (if old(teamSessionId).None? then Some(freshId) else old(teamSessionId))
      ensures toolLogs == old(toolLogs) && memoryDump == old(memoryDump) && showToolLogs == old(showToolLogs)
    {
      if !hasTeam {
        if teamSessionId.None? {
          teamSessionId := Some(freshId);
        }
        if messages.None? {
          messages := Some([]);
        }
        hasTeam := true;
      }
    }

    /** The sidebar's tool-log toggle writes its value into the session. */
    method SetShowToolLogs(on: bool)
      modifies this
      ensures showToolLogs == Some(on) && CaptureEnabled() == on
      ensures messages == old(messages) && teamSessionId == old(teamSessionId) && hasTeam == old(hasTeam)
      ensures toolLogs == old(toolLogs) && memoryDump == old(memoryDump)
      ensures Valid() == old(Valid())
    {
      showToolLogs := Some(on);
    }

    /** The part of the query handler inside the `try` up to the stored tool
        log: run the chunk loop with the current capture setting, then store
        the joined tool log if capture is on and something was captured. */
    method ConsumeStream(chunks: seq<Chunk>) returns (response: string)
      modifies this`toolLogs
      ensures response == Response(chunks)
      ensures toolLogs == StoredToolLogs(old(toolLogs), chunks, CaptureEnabled())
    {
      var capture := CaptureEnabled();
      var logs;
      response, logs := FilterStream(chunks, capture);
      if capture && logs != [] {
        toolLogs := Some(JoinLines(logs));
      }
    }

    /** The chat input handler: an empty query does nothing, any other query
        is answered by `Answer`. */
    method Submit(query: string, outcome: RunOutcome)
      requires Valid() && hasTeam
      modifies this
      ensures Valid() && hasTeam
      ensures query == "" ==> unchanged(this)
      ensures query != "" ==> messages == Some(old(messages).value + Appended(query, outcome))
      ensures query != "" ==>
                toolLogs == (if outcome.RunRaised? then old(toolLogs)
                             else StoredToolLogs(old(toolLogs), outcome.chunks, old(CaptureEnabled())))
      ensures query != "" ==>
                memoryDump == (if outcome.Streamed? then Some(outcome.memories) else old(memoryDump))
      ensures teamSessionId == old(teamSessionId) && showToolLogs == old(showToolLogs)
    {
      if query != "" {
        Answer(query, outcome);
      }
    }

    /** Answering a non-empty query: the query and the answer (or the error)
        are appended to the history after every earlier entry; the tool log is
        replaced only when capture was on and the stream produced tool output;
        the memory dump is replaced only when the memory store answered. */
    method Answer(query: string, outcome: RunOutcome)
      requires messages.Some?
      modifies this`messages, this`toolLogs, this`memoryDump
      ensures messages == Some(old(messages).value + Appended(query, outcome))
      ensures toolLogs == (if outcome.RunRaised? then old(toolLogs)
                           else StoredToolLogs(old(toolLogs), outcome.chunks, CaptureEnabled()))
      ensures memoryDump == (if outcome.Streamed? then Some(outcome.memories) else old(memoryDump))
    {
      ghost var history := messages.value;
      messages := Some(messages.value + [Message(User, query)]);
      match outcome
      case RunRaised(error) =>
        messages := Some(messages.value + [ErrorReply(error)]);
        assert messages.value == history + [Message(User, query), ErrorReply(error)];
      case Streamed(chunks, memories) =>
        var response := ConsumeStream(chunks);
        messages := Some(messages.value + [Message(Assistant, response)]);
        memoryDump := Some(memories);
        assert messages.value == history + [Message(User, query), Message(Assistant, response)];
      case MemoryRaised(chunks, error) =>
        var response := ConsumeStream(chunks);
        messages := Some(messages.value + [Message(Assistant, response)]);
        messages := Some(messages.value + [ErrorReply(error)]);
        assert messages.value == history + [Message(User, query), Message(Assistant, response), ErrorReply(error)];
    }

    /** The reset button: empty history, a new session id (`freshId`, not
        necessarily different from the old one), a new team, and no memory dump
        or tool log. */
    method Reset(freshId: string)
      modifies this
      ensures Valid() && hasTeam
      ensures messages == Some([]) && teamSessionId == Some(freshId)
      ensures memoryDump == None && toolLogs == None
      ensures showToolLogs == old(showToolLogs)
    {
      messages := Some([]);
      teamSessionId := Some(freshId);
      hasTeam := true;
      if memoryDump.Some? {
        memoryDump := None;
      }
      if toolLogs.Some? {
        toolLogs := None;
      }
    }
  }
}
