/** The streaming conversion of a Codex run against its aggregation. */
module CodexAgreement {
  import opened Wrappers
  import opened Chat
  import opened JsonString
  import opened CodexEvents
  import opened CodexStream
  import CA = CodexAggregate
  import R = ResponsesReply
  import A = AnthropicCalls
  import P = Pivot

  // ---- Streaming ----

  /** What a chat client is sent. */
  datatype Line = Data(chunk: Chunk) | Done

  function Chunks(lines: seq<Line>): seq<Chunk> {
    if lines == [] then []
    else Chunks(lines[..|lines| - 1]) + if lines[|lines| - 1].Data? then [lines[|lines| - 1].chunk] else []
  }

  function Dones(lines: seq<Line>): nat {
    if lines == [] then 0 else Dones(lines[..|lines| - 1]) + if lines[|lines| - 1].Done? then 1 else 0
  }

  lemma LinesSnoc(lines: seq<Line>, l: Line)
    ensures Chunks(lines + [l]) == Chunks(lines) + if l.Data? then [l.chunk] else []
    ensures Dones(lines + [l]) == Dones(lines) + if l.Done? then 1 else 0
    ensures Pieces(Chunks(lines + [l])) ==
      if l.Data? then Pieces(Chunks(lines)) + ChunkPieces(l.chunk) else Pieces(Chunks(lines))
  {
    assert (lines + [l])[..|lines|] == lines;
    if l.Data? {
      PiecesSnoc(Chunks(lines), l.chunk);
    } else {
      assert Chunks(lines) + [] == Chunks(lines);
    }
  }

  /** The last two lines of a completed run: the chunk with the finish reason, and the end. */
  predicate EndsWith(lines: seq<Line>, reason: string) {
    && |lines| >= 2
    && lines[|lines| - 1] == Done
    && lines[|lines| - 2].Data? && lines[|lines| - 2].chunk.choice.Some?
    && lines[|lines| - 2].chunk.choice.value.finish == InProcess(reason)
  }

  /** The first model that an event names. */
  function FirstModel(events: seq<Event>): string {
    if events == [] then ""
    else
      var before, e := FirstModel(events[..|events| - 1]), events[|events| - 1];
      if before != "" then before
      else if e.Created? || e.Completed? || e.Failed? then e.model
      else ""
  }

  lemma FirstModelSnoc(events: seq<Event>, e: Event)
    ensures FirstModel([]) == ""
    ensures FirstModel(events + [e]) == FirstNonEmpty(FirstModel(events), EventModel(e))
  {
    assert (events + [e])[..|events|] == events;
  }

  /** Every chunk names the model or none. */
  predicate Named(chunks: seq<Chunk>, model: string) {
    forall c <- chunks :: c.model == "" || c.model == model
  }

  lemma NamedOn(lines: seq<Line>, before: string, given: string)
    ensures Named(Chunks(lines), before) ==> Named(Chunks(lines), FirstNonEmpty(before, given))
  {
  }

  lemma NamedSnoc(lines: seq<Line>, c: Chunk, model: string)
    requires Named(Chunks(lines), model) && c.model == model
    ensures Named(Chunks(lines + [Data(c)]), model)
  {
    LinesSnoc(lines, Data(c));
    forall d | d in Chunks(lines + [Data(c)]) ensures d.model == "" || d.model == model {
      assert d in Chunks(lines) || d == c;
    }
  }

  /** Converts one event and sends what comes of it. */
  method SendEvent(st: CodexChunkState, lines: seq<Line>, e: Event) returns (sent: seq<Line>, usage: Option<Usage>)
    requires st.Valid()
    modifies st
    ensures st.Valid() && st.run == Next(old(st.run), e)
    ensures old(st.said) == Pieces(Chunks(lines)) ==> st.said == Pieces(Chunks(sent))
    ensures st.model == FirstNonEmpty(old(st.model), EventModel(e))
    ensures Named(Chunks(lines), old(st.model)) ==> Named(Chunks(sent), st.model)
    ensures st.said == old(st.said) + SayingOf(old(st.View()), old(st.finishSent), e)
    ensures st.View() == After(old(st.View()), e)
    ensures st.finishSent == (old(st.finishSent) || e.Completed? || e.Failed?)
    ensures Dones(sent) == Dones(lines) + if st.finishSent && !old(st.finishSent) then 1 else 0
    ensures usage == if e.Completed? then e.usage else None
    ensures st.finishSent && !old(st.finishSent) && st.run.Some? ==> EndsWith(sent, Reason(st.run.value))
  {
    hide Follows, Says, Advance, Chunks, Dones, Pieces, Reason, SayingOf, After, Named;
    NamedOn(lines, st.model, EventModel(e));
    var chunk, fin;
    chunk, usage, fin := st.Convert(e);
    sent := lines;
    if chunk.Some? {
      LinesSnoc(sent, Data(chunk.value));
      if Named(Chunks(lines), old(st.model)) {
        NamedSnoc(sent, chunk.value, st.model);
      }
      sent := sent + [Data(chunk.value)];
    }
    if fin {
      LinesSnoc(sent, Done);
      assert Chunks(sent) + [] == Chunks(sent);
      sent := sent + [Done];
    }
  }

  /** Whatever the upstream sends, the client is sent what the events say, one by one, and the
      end marker exactly once. A well-formed run reaches it as the pieces it is made of, and a
      completed one ends with its finish reason. */
  method StreamCodexChunks(events: seq<Event>) returns (lines: seq<Line>, lastUsage: Option<Usage>)
    ensures Dones(lines) == 1
    ensures Named(Chunks(lines), FirstModel(events))
    ensures Pieces(Chunks(lines)) == Spoken(events)
    ensures R.Content(Pieces(Chunks(lines)), R.ThoughtKey) == ReasoningOf(events)
    ensures R.Content(Pieces(Chunks(lines)), R.MessageKey) == TextOf(events)
    ensures Ran(events).Some? ==> Says(Pieces(Chunks(lines)), Ran(events).value)
    ensures Ran(events).Some? && Ran(events).value.end.Some? ==>
              EndsWith(lines, Reason(Ran(events).value)) && lastUsage == Ran(events).value.end.value
  {
    hide Follows, Says, Advance, Chunks, Dones, Pieces, Ran, Reason, EndsWith, Spoken, TablesOf, SayingOf, After;
    hide R.Content, ReasoningOf, TextOf, HasEnded, FirstModel, Named, EventModel;
    FirstModelSnoc([], Ignored);
    SpokenContent(events);
    var st := new CodexChunkState();
    lines, lastUsage := [], None;
    RanNothing();
    NothingSent();
    NothingSpoken();
    for i := 0 to |events|
      invariant st.Valid()
      invariant st.run == Ran(events[..i]) && st.said == Pieces(Chunks(lines))
      invariant st.model == FirstModel(events[..i]) && Named(Chunks(lines), st.model)
      invariant st.said == Spoken(events[..i]) && st.View() == TablesOf(events[..i])
      invariant st.finishSent == HasEnded(events[..i])
      invariant Dones(lines) == if st.finishSent then 1 else 0
      invariant st.run.Some? && st.run.value.end.None? ==> lastUsage == None
      invariant st.run.Some? && st.run.value.end.Some? ==>
                EndsWith(lines, Reason(st.run.value)) && lastUsage == st.run.value.end.value
    {
      assert events[..i + 1] == events[..i] + [events[i]];
      RanSnoc(events[..i], events[i]);
      SpokenSnoc(events[..i], events[i]);
      FirstModelSnoc(events[..i], events[i]);
      EndOf(st.run, events[i]);
      var usage;
      lines, usage := SendEvent(st, lines, events[i]);
      if usage.Some? {
        lastUsage := usage;
      }
    }
    assert events[..|events|] == events;
    SaidAll(st.run, st.said, st.View());
    if !st.finishSent {
      LinesSnoc(lines, Done);
      assert Chunks(lines) + [] == Chunks(lines);
      lines := lines + [Done];
    }
  }

  lemma NothingSent()
    ensures Pieces(Chunks([])) == [] && Dones([]) == 0 && Named(Chunks([]), "")
  {
  }

  // ---- Aggregating ----

  datatype PrintedCall = PrintedCall(id: string, name: string, arguments: string)

  datatype Completion =
    Completion(content: string, reasoning: string, calls: seq<PrintedCall>, finish: string, usage: Usage)

  function PrintCall(tc: CA.AggToolCall, clockId: string): PrintedCall {
    PrintedCall(FirstNonEmpty(tc.id, clockId), tc.name,
                if tc.kind.Custom? then WrapInput(tc.arguments) else tc.arguments)
  }

  /** The calls of a run in the order in which they were finished. */
  function PrintedCalls(run: Run, clockId: string): (r: seq<PrintedCall>)
    requires forall k :: 0 <= k < |run.done| ==> run.done[k] < |run.calls|
    ensures |r| == |run.done|
  {
    seq(|run.done|, k requires 0 <= k < |run.done| => PrintCall(CA.Collected(run.calls[run.done[k]]), clockId))
  }

  method WriteChatCompletion(agg: CA.RelayAgg, clockId: string) returns (r: Completion)
    ensures r.content == agg.content && r.reasoning == agg.reasoning
    ensures r.usage == Usage(agg.promptTokens, agg.completionTokens)
    ensures r.finish == FirstNonEmpty(agg.finishReason, "stop")
    ensures |r.calls| == |agg.toolCalls|
    ensures forall k :: 0 <= k < |r.calls| ==> r.calls[k] == PrintCall(agg.toolCalls[k], clockId)
  {
    var calls: seq<PrintedCall> := [];
    for k := 0 to |agg.toolCalls|
      invariant |calls| == k && forall j :: 0 <= j < k ==> calls[j] == PrintCall(agg.toolCalls[j], clockId)
    {
      calls := calls + [PrintCall(agg.toolCalls[k], clockId)];
    }
    var finish := agg.finishReason;
    if finish == "" {
      finish := "stop";
    }
    return Completion(agg.content, agg.reasoning, calls, finish, Usage(agg.promptTokens, agg.completionTokens));
  }

  method AggregateCodexStream(events: seq<Event>, clockId: string) returns (completion: Completion)
    ensures completion.reasoning == CA.InLines(CA.Reasonings(events))
    ensures Ran(events).Some? ==>
      var run := Ran(events).value;
      && RunInv(run) && completion.content == run.text && completion.calls == PrintedCalls(run, clockId)
      && completion.finish == Reason(run) && completion.usage == CA.Tokens(run)
  {
    hide CA.Follows, Advance, Ran, CA.Tokens, CA.InLines, CA.Reasonings;
    var agg := new CA.RelayAgg();
    RanNothing();
    CA.InLinesSnoc([], "");
    CA.ReasoningsSnoc([], Ignored);
    for i := 0 to |events|
      invariant agg.Valid() && agg.run == Ran(events[..i])
      invariant agg.reasoning == CA.InLines(CA.Reasonings(events[..i]))
    {
      assert events[..i + 1] == events[..i] + [events[i]];
      RanSnoc(events[..i], events[i]);
      CA.ReasoningsSnoc(events[..i], events[i]);
      if events[i].ReasoningDelta? {
        CA.InLinesSnoc(CA.Reasonings(events[..i]), events[i].delta);
      }
      agg.Apply(events[i]);
    }
    assert events[..|events|] == events;
    completion := WriteChatCompletion(agg, clockId);
    if agg.run.Some? {
      RanInv(events);
      Gathered(agg.run.value, agg.toolCalls, agg.pendingTools);
      assert completion.calls == PrintedCalls(agg.run.value, clockId);
    }
  }

  lemma Gathered(run: Run, toolCalls: seq<CA.AggToolCall>, pending: map<string, CA.AggToolCall>)
    requires CA.Follows(Some(run), toolCalls, pending)
    ensures RunInv(run) && toolCalls == CA.FinishedCalls(run)
  {
  }

  // ---- The agreement ----

  /** A finished custom call that was sent without a delta: its JSON prefix is streamed twice. */
  predicate TwicePrefixed(c: ToolCall) {
    c.kind.Custom? && c.deltas == ""
  }

  /** Streaming and aggregating give a finished call the same arguments except in that case. */
  lemma ArgumentsAgreeExactly(c: ToolCall)
    requires c.payload.Some?
    ensures Streamed(c) == PrintCall(CA.Collected(c), "").arguments <==> !TwicePrefixed(c)
  {
    if TwicePrefixed(c) {
      assert Streamed(c) == INPUT_PREFIX + WrapInput(c.payload.value);
      assert |Streamed(c)| == |INPUT_PREFIX| + |WrapInput(c.payload.value)|;
    }
  }

  /** A custom call announced and finished at once: its prefix is streamed twice. */
  lemma PrefixTwice(input: string)
    ensures
      var run := Ran(SingleCall(Custom, input, None));
      && run.Some? && run.value.end.Some? && |run.value.calls| == 1 && TwicePrefixed(run.value.calls[0])
      && Streamed(run.value.calls[0]) == INPUT_PREFIX + WrapInput(input)
      && PrintCall(CA.Collected(run.value.calls[0]), "").arguments == WrapInput(input)
  {
    SingleCallRuns(Custom, input, None);
  }

  /** The deltas of a list without anything between them. */
  function Whole(ds: seq<string>): string {
    if ds == [] then "" else Whole(ds[..|ds| - 1]) + ds[|ds| - 1]
  }

  lemma {:induction false} WholeReasoning(events: seq<Event>)
    ensures ReasoningOf(events) == Whole(CA.Reasonings(events))
  {
    if events != [] {
      var init, e := events[..|events| - 1], events[|events| - 1];
      WholeReasoning(init);
      if e.ReasoningDelta? {
        var ds := CA.Reasonings(init);
        assert (ds + [e.delta])[..|ds|] == ds;
      } else {
        assert CA.Reasonings(init) + [] == CA.Reasonings(init) && ReasoningOf(init) + "" == ReasoningOf(init);
      }
    }
  }

  lemma WholeSnoc(ds: seq<string>, d: string)
    ensures Whole([]) == "" && Whole([d]) == d && Whole(ds + [d]) == Whole(ds) + d
  {
    assert (ds + [d])[..|ds|] == ds;
    assert [d][..0] == [] && "" + d == d;
  }

  lemma {:induction false} WholeFromFirst(ds: seq<string>)
    ensures Whole(ds) == Whole(CA.FromFirst(ds))
  {
    if ds == [] {
      assert CA.FromFirst(ds) == [];
    } else {
      hide Whole, CA.FromFirst;
      var init, d := ds[..|ds| - 1], ds[|ds| - 1];
      WholeFromFirst(init);
      assert ds == init + [d];
      CA.FromFirstSnoc(init, d);
      WholeSnoc(init, d);
      WholeSnoc(CA.FromFirst(init), d);
      assert "" + d == d;
    }
  }

  /** Joining adds a line break per delta. */
  lemma {:induction false} JoinedLength(ds: seq<string>)
    ensures |P.Join(ds, "\n")| == |Whole(ds)| + if |ds| > 0 then |ds| - 1 else 0
    ensures |ds| <= 1 ==> P.Join(ds, "\n") == Whole(ds)
  {
    if |ds| == 1 {
      assert ds[..0] == [] && "" + ds[0] == ds[0];
    } else if ds != [] {
      JoinedLength(ds[..|ds| - 1]);
    }
  }

  /** For every sequence of events the aggregated reasoning is the streamed one exactly if at
      most one delta comes from the first one on that says something. */
  lemma ReasoningAgreesExactly(events: seq<Event>)
    ensures CA.InLines(CA.Reasonings(events)) == ReasoningOf(events) <==> |CA.FromFirst(CA.Reasonings(events))| <= 1
  {
    WholeReasoning(events);
    WholeFromFirst(CA.Reasonings(events));
    JoinedLength(CA.FromFirst(CA.Reasonings(events)));
  }

  /** Two deltas of reasoning. */
  lemma ReasoningBroken()
    ensures
      var events := [ReasoningDelta("a"), ReasoningDelta("b")];
      CA.InLines(CA.Reasonings(events)) == "a\nb" && ReasoningOf(events) == "ab"
  {
    var a, b := ReasoningDelta("a"), ReasoningDelta("b");
    CA.ReasoningsSnoc([], a);
    CA.ReasoningsSnoc([a], b);
    CA.InLinesSnoc([], "a");
    CA.InLinesSnoc(["a"], "b");
    assert [] + [a] == [a] && [a] + [b] == [a, b] && [] + ["a"] == ["a"] && ["a"] + ["b"] == ["a", "b"];
    assert "a" + "\n" + "b" == "a\nb";
    ContentSnoc([], a);
    ContentSnoc([a], b);
    assert "" + "a" + "b" == "ab";
  }

  /** The call under index `i` of a chunk stream is the call at place `k` of a completion. */
  ghost predicate SameCall(ps: seq<Piece>, i: nat, printed: PrintedCall, same: bool) {
    && R.CallKey(i) in R.Order(ps)
    && printed.id == FirstNonEmpty(R.Opener(ps, i).id, R.Opener(ps, i).clockId)
    && Trunc(printed.name, 128) == R.Opener(ps, i).name
    && (printed.arguments == R.Content(ps, R.CallKey(i)) <==> same)
  }

  /** For every completed well-formed run, reading the chunk stream and reading the completion
      give the same text, finish reason and usage, and the same calls (the stream numbers
      them as announced, the completion as finished), with the same id, the same name up to
      its streamed length, and the same arguments exactly if the call was not finished
      without a delta as a custom call. */
  method BothWays(events: seq<Event>, clockId: string)
    returns (lines: seq<Line>, streamUsage: Option<Usage>, completion: Completion)
    ensures Ran(events).Some? && Ran(events).value.end.Some? ==>
      var run, ps := Ran(events).value, Pieces(Chunks(lines));
      && R.Content(ps, R.MessageKey) == completion.content
      && EndsWith(lines, completion.finish)
      && completion.usage == (if streamUsage.Some? then streamUsage.value else Usage(0, 0))
      && |A.Calls(ps)| == |run.calls| && |completion.calls| == |run.done|
      && (forall i :: 0 <= i < |run.calls| ==> i in run.done)
      && (forall k, l :: 0 <= k < l < |run.done| ==> run.done[k] != run.done[l])
      && (forall k :: 0 <= k < |completion.calls| ==>
            && run.done[k] < |run.calls|
            && SameCall(ps, run.done[k], completion.calls[k], !TwicePrefixed(run.calls[run.done[k]])))
  {
    hide Ran, Says, Reason;
    lines, streamUsage := StreamCodexChunks(events);
    completion := AggregateCodexStream(events, clockId);
    if Ran(events).Some? && Ran(events).value.end.Some? {
      RanInv(events);
      Agreement(Ran(events).value, Pieces(Chunks(lines)), clockId);
    }
  }

  lemma Agreement(run: Run, ps: seq<Piece>, clockId: string)
    requires RunInv(run) && run.end.Some? && Says(ps, run)
    ensures R.Content(ps, R.MessageKey) == run.text && |A.Calls(ps)| == |run.calls|
    ensures forall i :: 0 <= i < |run.calls| ==> i in run.done
    ensures forall k :: 0 <= k < |run.done| ==>
              SameCall(ps, run.done[k], PrintedCalls(run, clockId)[k], !TwicePrefixed(run.calls[run.done[k]]))
  {
    forall k | 0 <= k < |run.done|
      ensures SameCall(ps, run.done[k], PrintedCalls(run, clockId)[k], !TwicePrefixed(run.calls[run.done[k]]))
    {
      var i := run.done[k];
      assert SaysCall(ps, i, run.calls[i]);
      ArgumentsAgreeExactly(run.calls[i]);
    }
  }
}
