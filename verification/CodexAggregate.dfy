/** Responses events folded into one chat completion. */
module CodexAggregate {
  import opened Wrappers
  import opened Chat
  import opened CodexEvents
  import P = Pivot

  datatype AggToolCall = AggToolCall(id: string, name: string, kind: Kind, arguments: string)

  /** A call as it is collected when it is finished, and as it stands while it is open. */
  function Collected(c: ToolCall): AggToolCall {
    AggToolCall(c.callId, c.name, c.kind, Arguments(c))
  }

  function Pending(c: ToolCall): AggToolCall {
    AggToolCall(c.callId, c.name, c.kind, c.deltas)
  }

  /** The calls of a run in the order in which they were finished. */
  function FinishedCalls(run: Run): (r: seq<AggToolCall>)
    requires forall k :: 0 <= k < |run.done| ==> run.done[k] < |run.calls|
    ensures |r| == |run.done|
  {
    seq(|run.done|, k requires 0 <= k < |run.done| => Collected(run.calls[run.done[k]]))
  }

  function Tokens(run: Run): Usage {
    if run.end.Some? && run.end.value.Some? then run.end.value.value else Usage(0, 0)
  }

  // ---- The table of open calls ----

  /** The open calls are in the table and the finished ones are not. */
  ghost predicate Pended(calls: seq<ToolCall>, pending: map<string, AggToolCall>) {
    forall i :: 0 <= i < |calls| ==>
      if calls[i].payload.None? then calls[i].id in pending && pending[calls[i].id] == Pending(calls[i])
      else calls[i].id !in pending
  }

  /** Nothing else is in the table. */
  ghost predicate Known(calls: seq<ToolCall>, pending: map<string, AggToolCall>) {
    forall id :: id in pending ==> Find(calls, id).Some?
  }

  ghost predicate Distinct(calls: seq<ToolCall>) {
    forall i, j :: 0 <= i < j < |calls| ==> calls[i].id != calls[j].id
  }

  lemma PendedUpdate(calls: seq<ToolCall>, pending: map<string, AggToolCall>, i: nat, c: ToolCall)
    requires Pended(calls, pending) && Distinct(calls) && i < |calls| && c.id == calls[i].id
    ensures c.payload.None? ==> Pended(calls[i := c], pending[c.id := Pending(c)])
    ensures c.payload.Some? ==> Pended(calls[i := c], pending - {c.id})
  {
  }

  lemma KnownUpdate(calls: seq<ToolCall>, pending: map<string, AggToolCall>, i: nat, c: ToolCall)
    requires Known(calls, pending) && i < |calls| && c.id == calls[i].id
    ensures Known(calls[i := c], pending[c.id := Pending(c)])
    ensures Known(calls[i := c], pending - {c.id})
  {
    forall id | Find(calls, id).Some? ensures Find(calls[i := c], id).Some? {
      var j := Find(calls, id).value;
      assert calls[i := c][j].id == id;
    }
    assert calls[i := c][i].id == c.id;
  }

  lemma KnownSnoc(calls: seq<ToolCall>, pending: map<string, AggToolCall>, c: ToolCall)
    requires Known(calls, pending)
    ensures Known(calls + [c], pending[c.id := Pending(c)])
  {
    assert (calls + [c])[..|calls|] == calls;
  }

  lemma NothingPending(calls: seq<ToolCall>, pending: map<string, AggToolCall>)
    requires Pended(calls, pending) && Known(calls, pending)
    requires forall i :: 0 <= i < |calls| ==> calls[i].payload.Some?
    ensures pending == map[]
  {
  }

  lemma FinishedUpdate(run: Run, i: nat, c: ToolCall)
    requires RunInv(run) && i < |run.calls| && run.calls[i].payload.None?
    ensures FinishedCalls(run.(calls := run.calls[i := c])) == FinishedCalls(run)
    ensures FinishedCalls(run.(calls := run.calls[i := c], done := run.done + [i])) ==
      FinishedCalls(run) + [Collected(c)]
  {
    assert i !in run.done;
  }

  // ---- The collected state against the run ----

  ghost predicate Gathers(run: Run, toolCalls: seq<AggToolCall>, pending: map<string, AggToolCall>) {
    RunInv(run) && toolCalls == FinishedCalls(run) && Pended(run.calls, pending) && Known(run.calls, pending)
  }

  ghost predicate Follows(run: Option<Run>, toolCalls: seq<AggToolCall>, pending: map<string, AggToolCall>) {
    run.Some? ==> Gathers(run.value, toolCalls, pending)
  }

  lemma FollowAdded(run: Option<Run>, toolCalls: seq<AggToolCall>, pending: map<string, AggToolCall>, e: Event)
    requires Follows(run, toolCalls, pending) && e.ItemAdded? && e.item.ToolItem?
    ensures Follows(Next(run, e), toolCalls,
                    pending[ItemKey(e.itemId, e.item) := AggToolCall(e.item.callId, e.item.name, e.item.kind, "")])
  {
    hide Known;
    if Next(run, e).Some? {
      AdvanceKeeps(run.value, e);
      KnownSnoc(run.value.calls, pending, Next(run, e).value.calls[|run.value.calls|]);
    }
  }

  lemma FollowDelta(run: Option<Run>, toolCalls: seq<AggToolCall>, pending: map<string, AggToolCall>, e: Event)
    requires Follows(run, toolCalls, pending) && (e.ArgumentsDelta? || e.InputDelta?)
    ensures
      if e.itemId != "" && e.itemId in pending
      then
        var tc := pending[e.itemId];
        Follows(Next(run, e), toolCalls, pending[e.itemId := tc.(arguments := tc.arguments + e.delta)])
      else Follows(Next(run, e), toolCalls, pending)
  {
    hide Known, FinishedCalls;
    if Next(run, e).Some? {
      var r := run.value;
      AdvanceKeeps(r, e);
      var i := OpenCall(r, e.itemId, if e.InputDelta? then Custom else Function).value;
      var c := r.calls[i].(deltas := r.calls[i].deltas + e.delta);
      PendedUpdate(r.calls, pending, i, c);
      KnownUpdate(r.calls, pending, i, c);
      FinishedUpdate(r, i, c);
    }
  }

  /** What a finished item makes of its pending call. */
  function Settled(tc: AggToolCall, item: Item): AggToolCall
    requires item.ToolItem?
  {
    AggToolCall(FirstNonEmpty(item.callId, tc.id), FirstNonEmpty(item.name, tc.name), item.kind,
                FirstNonEmpty(tc.arguments, Payload(item)))
  }

  lemma FollowDone(run: Option<Run>, toolCalls: seq<AggToolCall>, pending: map<string, AggToolCall>, e: Event)
    requires Follows(run, toolCalls, pending) && e.ItemDone? && e.item.ToolItem?
    ensures
      var key := ItemKey(e.itemId, e.item);
      var tc := if key in pending then pending[key] else AggToolCall("", "", e.item.kind, "");
      Follows(Next(run, e), toolCalls + [Settled(tc, e.item)], pending - {key})
  {
    hide Known, FinishedCalls, Payload;
    if Next(run, e).Some? {
      var r, key := run.value, ItemKey(e.itemId, e.item);
      AdvanceKeeps(r, e);
      var i := OpenCall(r, key, e.item.kind).value;
      var c := r.calls[i].(payload := Some(Payload(e.item)));
      assert Settled(pending[key], e.item) == Collected(c);
      PendedUpdate(r.calls, pending, i, c);
      KnownUpdate(r.calls, pending, i, c);
      FinishedUpdate(r, i, c);
    }
  }

  lemma FollowOther(run: Option<Run>, toolCalls: seq<AggToolCall>, pending: map<string, AggToolCall>, e: Event)
    requires Follows(run, toolCalls, pending)
    requires e.Created? || e.Ignored? || e.TextDelta? || e.ReasoningDelta? || e.Completed?
      || (e.ItemAdded? && e.item.OtherItem?) || (e.ItemDone? && e.item.OtherItem?)
    ensures Follows(Next(run, e), toolCalls, pending)
    ensures e.Completed? && Next(run, e).Some? ==> pending == map[]
  {
    hide Known, Pended;
    if Next(run, e).Some? {
      AdvanceKeeps(run.value, e);
      if e.Completed? {
        NothingPending(run.value.calls, pending);
      }
    }
  }

  // ---- The reasoning ----

  function Reasonings(events: seq<Event>): seq<string> {
    if events == [] then []
    else
      var e := events[|events| - 1];
      Reasonings(events[..|events| - 1]) + if e.ReasoningDelta? then [e.delta] else []
  }

  /** The deltas from the first one on that says something. */
  function FromFirst(ds: seq<string>): seq<string> {
    if ds == [] then [] else if ds[0] == "" then FromFirst(ds[1..]) else ds
  }

  lemma {:induction false} FromFirstSnoc(ds: seq<string>, d: string)
    ensures FromFirst(ds + [d]) == if FromFirst(ds) != [] then FromFirst(ds) + [d] else if d != "" then [d] else []
    ensures FromFirst(ds) != [] ==> FromFirst(ds)[0] != ""
  {
    if ds == [] {
      assert [] + [d] == [d] && [d][1..] == [];
    } else {
      assert (ds + [d])[1..] == ds[1..] + [d];
      FromFirstSnoc(ds[1..], d);
    }
  }

  /** The deltas in lines of their own, once one has said something. */
  function InLines(ds: seq<string>): string {
    P.Join(FromFirst(ds), "\n")
  }

  lemma {:induction false} JoinNotEmpty(texts: seq<string>)
    requires texts != [] && texts[0] != ""
    ensures P.Join(texts, "\n") != ""
  {
    if |texts| > 1 {
      JoinNotEmpty(texts[..|texts| - 1]);
    }
  }

  lemma InLinesSnoc(ds: seq<string>, d: string)
    ensures InLines([]) == ""
    ensures InLines(ds + [d]) == if InLines(ds) != "" then InLines(ds) + "\n" + d else d
  {
    var before := FromFirst(ds);
    FromFirstSnoc(ds, d);
    if before != [] {
      JoinNotEmpty(before);
      assert (before + [d])[..|before|] == before;
    }
  }

  lemma ReasoningsSnoc(events: seq<Event>, e: Event)
    ensures Reasonings([]) == []
    ensures Reasonings(events + [e]) == if e.ReasoningDelta? then Reasonings(events) + [e.delta] else Reasonings(events)
  {
    assert (events + [e])[..|events|] == events;
  }

  class RelayAgg {
    var content: string
    var reasoning: string
    var toolCalls: seq<AggToolCall>
    var promptTokens: int
    var completionTokens: int
    var finishReason: string
    var errMsg: string
    var hasToolCall: bool
    var pendingTools: map<string, AggToolCall>
    /** The run so far while it is well formed. */
    ghost var run: Option<Run>

    ghost predicate Valid()
      reads this
    {
      && Follows(run, toolCalls, pendingTools)
      && (run.Some? ==>
            && content == run.value.text
            && finishReason == Reason(run.value)
            && Usage(promptTokens, completionTokens) == Tokens(run.value)
            && hasToolCall == (run.value.calls != [])
            && errMsg == "")
    }

    constructor ()
      ensures Valid() && run == Some(NEW_RUN) && reasoning == ""
    {
      content, reasoning, toolCalls, promptTokens, completionTokens := "", "", [], 0, 0;
      finishReason, errMsg, hasToolCall, pendingTools := "stop", "", false, map[];
      run := Some(NEW_RUN);
    }

    method ApplyDelta(e: Event)
      requires Valid() && (e.ArgumentsDelta? || e.InputDelta?)
      modifies this`pendingTools, this`run
      ensures Valid() && run == Next(old(run), e)
    {
      hide Follows;
      FollowDelta(run, toolCalls, pendingTools, e);
      run := Next(run, e);
      if e.itemId != "" && e.itemId in pendingTools {
        var tc := pendingTools[e.itemId];
        pendingTools := pendingTools[e.itemId := tc.(arguments := tc.arguments + e.delta)];
      }
    }

    method ApplyDone(e: Event)
      requires Valid() && e.ItemDone? && e.item.ToolItem?
      modifies this`pendingTools, this`toolCalls, this`run
      ensures Valid() && run == Next(old(run), e)
    {
      hide Follows;
      FollowDone(run, toolCalls, pendingTools, e);
      run := Next(run, e);
      var item, key := e.item, ItemKey(e.itemId, e.item);
      var tc := if key in pendingTools then pendingTools[key] else AggToolCall("", "", item.kind, "");
      if item.callId != "" {
        tc := tc.(id := item.callId);
      }
      if item.name != "" {
        tc := tc.(name := item.name);
      }
      tc := tc.(kind := item.kind);
      if tc.arguments == "" {
        tc := tc.(arguments := if item.arguments != "" then item.arguments else item.input);
      }
      pendingTools := pendingTools - {key};
      toolCalls := toolCalls + [tc];
    }

    /** Collects what the upstream never finished, in any order. */
    method ApplyCompleted(e: Event)
      requires Valid() && e.Completed?
      modifies this`pendingTools, this`toolCalls, this`run, this`promptTokens, this`completionTokens
      ensures Valid() && run == Next(old(run), e)
      ensures pendingTools == map[]
    {
      hide Follows;
      FollowOther(run, toolCalls, pendingTools, e);
      run := Next(run, e);
      ghost var calls := toolCalls;
      while pendingTools != map[]
        invariant run.Some? ==> pendingTools == map[] && toolCalls == calls
        modifies this`pendingTools, this`toolCalls
        decreases |pendingTools|
      {
        var id :| id in pendingTools;
        toolCalls := toolCalls + [pendingTools[id]];
        pendingTools := pendingTools - {id};
      }
      FollowNothing(toolCalls, pendingTools);
      if e.usage.Some? {
        promptTokens, completionTokens := e.usage.value.prompt, e.usage.value.completion;
      }
    }

    /** Adds one event to the completion; every reasoning delta but the first begins a line. */
    method Apply(e: Event)
      requires Valid()
      modifies this
      ensures Valid() && run == Next(old(run), e)
      ensures content == old(content) + if e.TextDelta? then e.delta else ""
      ensures errMsg == if e.Failed? then e.message else old(errMsg)
      ensures !e.ReasoningDelta? ==> reasoning == old(reasoning)
      ensures e.ReasoningDelta? ==>
                reasoning == if old(reasoning) != "" then old(reasoning) + "\n" + e.delta else e.delta
    {
      hide Follows;
      match e {
        case ArgumentsDelta(_, _) => ApplyDelta(e);
        case InputDelta(_, _) => ApplyDelta(e);
        case ItemAdded(itemId, ToolItem(kind, _, callId, name, _, _), _) =>
          FollowAdded(run, toolCalls, pendingTools, e);
          run := Next(run, e);
          hasToolCall := true;
          finishReason := "tool_calls";
          pendingTools := pendingTools[ItemKey(itemId, e.item) := AggToolCall(callId, name, kind, "")];
        case ItemDone(_, ToolItem(_, _, _, _, _, _)) => ApplyDone(e);
        case Completed(_, _) => ApplyCompleted(e);
        case Failed(_, message) =>
          run := Next(run, e);
          FollowNothing(toolCalls, pendingTools);
          errMsg := message;
        case TextDelta(delta) =>
          FollowOther(run, toolCalls, pendingTools, e);
          run := Next(run, e);
          content := content + delta;
        case ReasoningDelta(delta) =>
          FollowOther(run, toolCalls, pendingTools, e);
          run := Next(run, e);
          if reasoning != "" {
            reasoning := reasoning + "\n";
          }
          reasoning := reasoning + delta;
        case _ =>
          FollowOther(run, toolCalls, pendingTools, e);
          run := Next(run, e);
      }
    }
  }

  lemma FollowNothing(toolCalls: seq<AggToolCall>, pending: map<string, AggToolCall>)
    ensures Follows(None, toolCalls, pending)
  {
  }
}
