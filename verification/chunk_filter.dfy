/** The loop of the chat page's query handler that turns the coordinator's
    stream of chunks into the visible answer and the optional tool log.

    A chunk's content is `Some(s)` when it is a string and `None` when it is
    missing or of another type. The loop looks at the chunks in arrival order:
    it skips chunks whose content is not a non-empty string, stops at the first
    chunk that mentions the delegation tool, sends chunks that look like tool
    output to the log (kept only when capture is on), and appends every other
    chunk to the answer. */
module ChunkFilter {
  import opened Wrappers
  import opened Text

  /** A chunk containing this marker ends the stream processing. */
  const DelegationMarker: string := "delegate_task_to_member"

  /** A chunk containing this marker reports a finished tool call. */
  const CompletedMarker: string := ") completed in "

  /** Chunks starting with one of these name a specialist's tool call. */
  const ToolPrefixes: seq<string> :=
    ["duckduckgo_", "web_crawler", "youtube_", "resend_", "github_", "hackernews_"]

  /** The content of one chunk of the stream. */
  type Chunk = Option<string>

  /** What the loop does with one chunk. */
  datatype Verdict =
    | Skip    // empty or not a string: ignored
    | Stop    // mentions the delegation tool: the loop ends here
    | Keep    // appended to the visible answer
    | Divert  // tool output: kept out of the answer, logged when capture is on

  /** Tool output: starts with a reserved tool prefix or reports a completed call. */
  predicate IsToolChunk(s: string)
  {
    StartsWithAny(s, ToolPrefixes) || Contains(s, CompletedMarker)
  }

  /** The verdict the loop reaches for one chunk, checking emptiness first,
      then the delegation marker, then the tool markers. Each chunk gets
      exactly one verdict, and the delegation test wins over the tool test. */
  function Classify(c: Chunk): (v: Verdict)
    ensures v == Skip <==> c.None? || c.value == ""
    ensures v == Stop <==> c.Some? && Contains(c.value, DelegationMarker)
    ensures v == Keep <==> c.Some? && c.value != "" && !Contains(c.value, DelegationMarker) && !IsToolChunk(c.value)
    ensures v == Divert <==> c.Some? && c.value != "" && !Contains(c.value, DelegationMarker) && IsToolChunk(c.value)
  {
    if c.None? || c.value == "" then Skip
    else if Contains(c.value, DelegationMarker) then Stop
    else if IsToolChunk(c.value) then Divert
    else Keep
  }

  /** The stream reaches a chunk that stops the loop. */
  predicate Halts(cs: seq<Chunk>)
  {
    cs != [] && (Classify(cs[0]) == Stop || Halts(cs[1..]))
  }

  /** The chunks the loop actually inspects: the non-empty string contents
      that arrive before the first stopping chunk. */
  function Processed(cs: seq<Chunk>): (r: seq<string>)
    ensures forall k :: 0 <= k < |r| ==> r[k] != "" && !Contains(r[k], DelegationMarker)
  {
    if cs == [] then []
    else match Classify(cs[0])
      case Stop => []
      case Skip => Processed(cs[1..])
      case _ => [cs[0].value] + Processed(cs[1..])
  }

  /** The chunks appended to the visible answer, in arrival order. None of
      them is empty, mentions the delegation tool, or looks like tool output. */
  function Responded(cs: seq<Chunk>): (r: seq<string>)
    ensures forall k :: 0 <= k < |r| ==> r[k] != "" && !Contains(r[k], DelegationMarker) && !IsToolChunk(r[k])
    ensures |r| <= |cs|
  {
    if cs == [] then []
    else match Classify(cs[0])
      case Stop => []
      case Keep => [cs[0].value] + Responded(cs[1..])
      case _ => Responded(cs[1..])
  }

  /** The chunks diverted away from the answer, in arrival order. Every one
      is non-empty tool output that does not mention the delegation tool. */
  function Diverted(cs: seq<Chunk>): (r: seq<string>)
    ensures forall k :: 0 <= k < |r| ==> r[k] != "" && !Contains(r[k], DelegationMarker) && IsToolChunk(r[k])
    ensures |r| <= |cs|
  {
    if cs == [] then []
    else match Classify(cs[0])
      case Stop => []
      case Divert => [cs[0].value] + Diverted(cs[1..])
      case _ => Diverted(cs[1..])
  }

  /** The visible answer: the kept chunks concatenated in arrival order. */
  function Response(cs: seq<Chunk>): string
  {
    Concat(Responded(cs))
  }

  /** The tool log the loop collects: the diverted chunks when capture is on,
      nothing otherwise. */
  function ToolLog(cs: seq<Chunk>, capture: bool): seq<string>
  {
    if capture then Diverted(cs) else []
  }

  /** The elements of `xs` that are tool output (`tool`) or that are not (`!tool`), in order. */
  function Select(xs: seq<string>, tool: bool): seq<string>
  {
    if xs == [] then []
    else if IsToolChunk(xs[0]) == tool then [xs[0]] + Select(xs[1..], tool)
    else Select(xs[1..], tool)
  }

  // ---------------------------------------------------------------------
  // Properties of the specification

  /** A stream halts when one of its two parts does. */
  lemma {:induction false} HaltsAppend(a: seq<Chunk>, b: seq<Chunk>)
    ensures Halts(a + b) <==> Halts(a) || Halts(b)
  {
    if a == [] {
      assert a + b == b;
    } else {
      assert (a + b)[1..] == a[1..] + b;
      HaltsAppend(a[1..], b);
    }
  }

  /** Processing a stream in two parts: the second part reaches the answer
      only when the first part did not stop the loop. */
  lemma {:induction false} RespondedAppend(a: seq<Chunk>, b: seq<Chunk>)
    ensures Responded(a + b) == Responded(a) + (if Halts(a) then [] else Responded(b))
  {
    if a == [] {
      assert a + b == b;
    } else {
      assert (a + b)[0] == a[0];
      assert (a + b)[1..] == a[1..] + b;
      RespondedAppend(a[1..], b);
    }
  }

  /** The second part of a stream reaches the tool log only when the first
      part did not stop the loop. */
  lemma {:induction false} DivertedAppend(a: seq<Chunk>, b: seq<Chunk>)
    ensures Diverted(a + b) == Diverted(a) + (if Halts(a) then [] else Diverted(b))
  {
    if a == [] {
      assert a + b == b;
    } else {
      assert (a + b)[0] == a[0];
      assert (a + b)[1..] == a[1..] + b;
      DivertedAppend(a[1..], b);
    }
  }

  /** The second part of a stream is inspected only when the first part did
      not stop the loop. */
  lemma {:induction false} ProcessedAppend(a: seq<Chunk>, b: seq<Chunk>)
    ensures Processed(a + b) == Processed(a) + (if Halts(a) then [] else Processed(b))
  {
    if a == [] {
      assert a + b == b;
    } else {
      assert (a + b)[0] == a[0];
      assert (a + b)[1..] == a[1..] + b;
      ProcessedAppend(a[1..], b);
    }
  }

  /** The first stopping chunk ends processing: neither it nor any later chunk
      reaches the answer or the tool log. */
  lemma {:induction false} StopDiscardsRest(before: seq<Chunk>, stop: Chunk, after: seq<Chunk>)
    requires Classify(stop) == Stop
    ensures Responded(before + [stop] + after) == Responded(before)
    ensures Diverted(before + [stop] + after) == Diverted(before)
    ensures Response(before + [stop] + after) == Response(before)
    ensures forall capture: bool :: ToolLog(before + [stop] + after, capture) == ToolLog(before, capture)
  {
    assert before + [stop] + after == before + ([stop] + after);
    RespondedAppend(before, [stop] + after);
    DivertedAppend(before, [stop] + after);
  }

  /** A chunk that is empty or not a string changes neither output. */
  lemma {:induction false} SkippedChunkIsInert(before: seq<Chunk>, c: Chunk, after: seq<Chunk>)
    requires c.None? || c.value == ""
    ensures Responded(before + [c] + after) == Responded(before + after)
    ensures Diverted(before + [c] + after) == Diverted(before + after)
  {
    assert before + [c] + after == before + ([c] + after);
    assert ([c] + after)[1..] == after;
    RespondedAppend(before, [c] + after);
    RespondedAppend(before, after);
    DivertedAppend(before, [c] + after);
    DivertedAppend(before, after);
  }

  /** Selecting the tool chunks and the other chunks splits a list in two:
      together they hold each element exactly once. */
  lemma {:induction false} SelectPartition(xs: seq<string>)
    ensures multiset(Select(xs, false)) + multiset(Select(xs, true)) == multiset(xs)
    ensures |Select(xs, false)| + |Select(xs, true)| == |xs|
  {
    if xs != [] {
      SelectPartition(xs[1..]);
      assert xs == [xs[0]] + xs[1..];
    }
  }

  /** The answer holds exactly the inspected chunks that are not tool output,
      and the diverted chunks are exactly the inspected tool chunks, both in
      arrival order; so no inspected chunk is lost and none lands in both. */
  lemma {:induction false} RoutesPartitionProcessed(cs: seq<Chunk>)
    ensures Responded(cs) == Select(Processed(cs), false)
    ensures Diverted(cs) == Select(Processed(cs), true)
    ensures multiset(Responded(cs)) + multiset(Diverted(cs)) == multiset(Processed(cs))
  {
    if cs != [] {
      RoutesPartitionProcessed(cs[1..]);
      match Classify(cs[0])
      case Stop =>
      case Skip =>
      case Keep =>
        assert ([cs[0].value] + Processed(cs[1..]))[1..] == Processed(cs[1..]);
      case Divert =>
        assert ([cs[0].value] + Processed(cs[1..]))[1..] == Processed(cs[1..]);
    }
    SelectPartition(Processed(cs));
  }

  /** No piece of the visible answer starts with a reserved tool prefix. */
  lemma AnswerHasNoToolPrefix(cs: seq<Chunk>, k: int, p: string)
    requires 0 <= k < |Responded(cs)| && p in ToolPrefixes
    ensures !StartsWith(Responded(cs)[k], p)
  {
  }

  /** One more chunk that does not stop the loop extends the answer or the
      log by at most that chunk. */
  lemma {:induction false} ExtendPrefix(cs: seq<Chunk>, i: int)
    requires 0 <= i < |cs| && !Halts(cs[..i]) && Classify(cs[i]) != Stop
    ensures !Halts(cs[..i + 1])
    ensures Concat(Responded(cs[..i + 1])) ==
            Concat(Responded(cs[..i])) + (if Classify(cs[i]) == Keep then cs[i].value else "")
    ensures Diverted(cs[..i + 1]) ==
            Diverted(cs[..i]) + (if Classify(cs[i]) == Divert then [cs[i].value] else [])
  {
    var c := cs[i];
    assert cs[..i + 1] == cs[..i] + [c];
    assert [c][1..] == [];
    HaltsAppend(cs[..i], [c]);
    RespondedAppend(cs[..i], [c]);
    DivertedAppend(cs[..i], [c]);
    if Classify(c) == Keep {
      assert Responded([c]) == [c.value];
      ConcatAppend(Responded(cs[..i]), [c.value]);
      assert Concat([c.value]) == c.value + Concat([]);
    } else {
      assert Responded([c]) == [];
      assert Responded(cs[..i + 1]) == Responded(cs[..i]);
    }
  }

  /** When the chunk at `i` stops the loop, the outputs are those of the chunks before it. */
  lemma {:induction false} StopAt(cs: seq<Chunk>, i: int)
    requires 0 <= i < |cs| && Classify(cs[i]) == Stop
    ensures Response(cs) == Concat(Responded(cs[..i]))
    ensures Diverted(cs) == Diverted(cs[..i])
  {
    assert cs == cs[..i] + [cs[i]] + cs[i + 1..];
    StopDiscardsRest(cs[..i], cs[i], cs[i + 1..]);
  }

  // ---------------------------------------------------------------------
  // The loop

  /** The chunk loop of the query handler: `response` is the visible answer and
      `logs` the captured tool log, as `Response` and `ToolLog` describe. */
  method FilterStream(chunks: seq<Chunk>, capture: bool) returns (response: string, logs: seq<string>)
    ensures response == Response(chunks)
    ensures logs == ToolLog(chunks, capture)
    ensures !capture ==> logs == []
  {
    response := "";
    logs := [];
    var i := 0;
    while i < |chunks|
      invariant 0 <= i <= |chunks|
      invariant !Halts(chunks[..i])
      invariant response == Concat(Responded(chunks[..i]))
      invariant logs == ToolLog(chunks[..i], capture)
    {
      var c := chunks[i];
      if c.Some? && c.value != "" {
        if Contains(c.value, DelegationMarker) {
          StopAt(chunks, i);
          break;
        }
        if !IsToolChunk(c.value) {
          response := response + c.value;
        } else if capture {
          logs := logs + [c.value];
        }
      }
      ExtendPrefix(chunks, i);
      i := i + 1;
    }
    assert i == |chunks| ==> chunks[..i] == chunks;
  }
}
