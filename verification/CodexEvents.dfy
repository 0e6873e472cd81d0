/** The Responses stream of a Codex upstream, and the automaton that says which runs are
    well formed and what they amount to. Both conversions of such a run are proved against it. */
module CodexEvents {
  import opened Wrappers
  import opened Chat

  datatype Kind = Function | Custom

  /** An output item; `input` is the item's input as text. */
  datatype Item =
    | ToolItem(kind: Kind, id: string, callId: string, name: string, arguments: string, input: string)
    | OtherItem

  /** `clockId` is the identifier that would be generated for a call that carries none. */
  datatype Event =
    | Created(model: string)
    | TextDelta(delta: string)
    | ReasoningDelta(delta: string)
    | ItemAdded(itemId: string, item: Item, clockId: string)
    | ArgumentsDelta(itemId: string, delta: string)
    | InputDelta(itemId: string, delta: string)
    | ItemDone(itemId: string, item: Item)
    | Completed(model: string, usage: Option<Usage>)
    | Failed(model: string, message: string)
    | Ignored

  function EventModel(e: Event): string {
    match e
    case Created(model) => model
    case Completed(model, _) => model
    case Failed(model, _) => model
    case _ => ""
  }

  /** The identifier of an item: its own, or else the event's. */
  function ItemKey(itemId: string, item: Item): string {
    if item.ToolItem? then FirstNonEmpty(item.id, itemId) else itemId
  }

  /** The complete arguments a finished item carries. */
  function Payload(item: Item): string
    requires item.ToolItem?
  {
    if item.arguments != "" then item.arguments else item.input
  }

  // ---- Well-formed runs ----

  /** A tool call of a run: what announced it, the concatenation of its deltas, and the
      payload of the finished item. */
  datatype ToolCall = ToolCall(id: string, kind: Kind, callId: string, name: string, deltas: string,
                               payload: Option<string>)

  /** A run: its text, its calls as announced, which of them are finished and in which order,
      and the usage it ended with. */
  datatype Run = Run(text: string, calls: seq<ToolCall>, done: seq<nat>, end: Option<Option<Usage>>)

  const NEW_RUN := Run("", [], [], None)

  function Find(calls: seq<ToolCall>, id: string): (r: Option<nat>)
    ensures r.Some? ==> r.value < |calls| && calls[r.value].id == id
    ensures r.None? ==> forall i :: 0 <= i < |calls| ==> calls[i].id != id
  {
    if calls == [] then None
    else if calls[|calls| - 1].id == id then Some(|calls| - 1)
    else Find(calls[..|calls| - 1], id)
  }

  /** The open call of a kind that an event speaks about. */
  function OpenCall(run: Run, id: string, kind: Kind): (r: Option<nat>)
    ensures r.Some? ==> r.value < |run.calls| && run.calls[r.value].id == id && run.calls[r.value].kind == kind
    ensures r.Some? ==> run.calls[r.value].payload.None?
  {
    var i := Find(run.calls, id);
    if i.Some? && run.calls[i.value].kind == kind && run.calls[i.value].payload.None? then i else None
  }

  function Said(run: Run, i: nat, delta: string): Run
    requires i < |run.calls|
  {
    var c := run.calls[i];
    run.(calls := run.calls[i := c.(deltas := c.deltas + delta)])
  }

  function Finished(run: Run, i: nat, payload: string): Run
    requires i < |run.calls|
  {
    run.(calls := run.calls[i := run.calls[i].(payload := Some(payload))], done := run.done + [i])
  }

  /** A well-formed run announces every call with an identifier of its own, a call id and a
      name, sends deltas of the right kind while the call is open, finishes every call once
      without renaming it, and completes when all calls are finished. */
  function Advance(run: Run, e: Event): Option<Run> {
    if run.end.Some? then None
    else match e
      case Created(_) => Some(run)
      case Ignored => Some(run)
      case TextDelta(delta) => Some(run.(text := run.text + delta))
      case ReasoningDelta(_) => Some(run)
      case ItemAdded(itemId, item, _) =>
        if item.OtherItem? then Some(run)
        else
          var key := ItemKey(itemId, item);
          if key != "" && item.callId != "" && item.name != "" && Find(run.calls, key).None?
          then Some(run.(calls := run.calls + [ToolCall(key, item.kind, item.callId, item.name, "", None)])) else None
      case ArgumentsDelta(itemId, delta) =>
        var i := OpenCall(run, itemId, Function);
        if i.Some? then Some(Said(run, i.value, delta)) else None
      case InputDelta(itemId, delta) =>
        var i := OpenCall(run, itemId, Custom);
        if i.Some? then Some(Said(run, i.value, delta)) else None
      case ItemDone(itemId, item) =>
        if item.OtherItem? then Some(run)
        else
          var i := OpenCall(run, ItemKey(itemId, item), item.kind);
          if i.Some? && item.callId in ["", run.calls[i.value].callId] && item.name in ["", run.calls[i.value].name]
          then Some(Finished(run, i.value, Payload(item))) else None
      case Completed(_, usage) =>
        if forall c <- run.calls :: c.payload.Some? then Some(run.(end := Some(usage))) else None
      case Failed(_, _) => None
  }

  function Next(run: Option<Run>, e: Event): Option<Run> {
    if run.None? then None else Advance(run.value, e)
  }

  /** What a sequence of events amounts to; `None` if it is not a well-formed run. */
  function Ran(events: seq<Event>): Option<Run> {
    if events == [] then Some(NEW_RUN) else Next(Ran(events[..|events| - 1]), events[|events| - 1])
  }

  lemma RanSnoc(events: seq<Event>, e: Event)
    ensures Ran(events + [e]) == Next(Ran(events), e)
  {
    assert (events + [e])[..|events|] == events;
  }

  lemma RanNothing()
    ensures Ran([]) == Some(NEW_RUN)
  {
  }

  /** Only a completion ends a run, and nothing follows it. */
  lemma EndOf(run: Option<Run>, e: Event)
    ensures Next(run, e).Some? ==> run.Some? && run.value.end.None?
    ensures Next(run, e).Some? && Next(run, e).value.end.Some? ==>
              e.Completed? && Next(run, e).value.end.value == e.usage
    ensures Next(run, e).Some? && (e.Completed? || e.Failed?) ==> Next(run, e).value.end.Some?
  {
  }

  /** What the calls are worth: the deltas, or the payload if no delta said anything. */
  function Arguments(c: ToolCall): string {
    if c.deltas != "" || c.payload.None? then c.deltas else c.payload.value
  }

  /** The reason a completed run finished for. */
  function Reason(run: Run): string {
    if run.calls == [] then "stop" else "tool_calls"
  }

  /** Identifiers are pairwise distinct, and `done` lists exactly the finished calls, once each. */
  ghost predicate RunInv(run: Run) {
    && (forall i, j :: 0 <= i < j < |run.calls| ==> run.calls[i].id != run.calls[j].id)
    && (forall i :: 0 <= i < |run.calls| ==>
          run.calls[i].id != "" && run.calls[i].callId != "" && run.calls[i].name != "")
    && (forall k :: 0 <= k < |run.done| ==> run.done[k] < |run.calls|)
    && (forall k, l :: 0 <= k < l < |run.done| ==> run.done[k] != run.done[l])
    && (forall i :: 0 <= i < |run.calls| ==> (i in run.done <==> run.calls[i].payload.Some?))
    && (run.end.Some? ==> forall i :: 0 <= i < |run.calls| ==> run.calls[i].payload.Some?)
  }

  lemma AdvanceKeeps(run: Run, e: Event)
    requires RunInv(run) && Advance(run, e).Some?
    ensures RunInv(Advance(run, e).value)
  {
    hide RunInv;
    match e {
      case ItemAdded(_, ToolItem(_, _, _, _, _, _), _) => AddedKeeps(run, Advance(run, e).value.calls[|run.calls|]);
      case ArgumentsDelta(_, delta) => SaidKeeps(run, OpenCall(run, e.itemId, Function).value, delta);
      case InputDelta(_, delta) => SaidKeeps(run, OpenCall(run, e.itemId, Custom).value, delta);
      case ItemDone(_, ToolItem(_, _, _, _, _, _)) =>
        FinishedKeeps(run, OpenCall(run, ItemKey(e.itemId, e.item), e.item.kind).value, Payload(e.item));
      case Completed(_, usage) => EndKeeps(run, usage);
      case TextDelta(delta) => TextKeeps(run, run.text + delta);
      case _ =>
    }
  }

  lemma AddedKeeps(run: Run, c: ToolCall)
    requires RunInv(run) && run.end.None? && Find(run.calls, c.id).None?
    requires c.id != "" && c.callId != "" && c.name != "" && c.payload.None?
    ensures RunInv(run.(calls := run.calls + [c]))
  {
  }

  lemma SaidKeeps(run: Run, i: nat, delta: string)
    requires RunInv(run) && i < |run.calls|
    ensures RunInv(Said(run, i, delta))
  {
  }

  lemma FinishedKeeps(run: Run, i: nat, payload: string)
    requires RunInv(run) && run.end.None? && i < |run.calls| && run.calls[i].payload.None?
    ensures RunInv(Finished(run, i, payload))
  {
    var next := Finished(run, i, payload);
    forall j | 0 <= j < |next.calls| ensures j in next.done <==> next.calls[j].payload.Some? {
      assert next.done == run.done + [i];
    }
  }

  lemma EndKeeps(run: Run, usage: Option<Usage>)
    requires RunInv(run) && forall c <- run.calls :: c.payload.Some?
    ensures RunInv(run.(end := Some(usage)))
  {
    forall i | 0 <= i < |run.calls| ensures run.calls[i].payload.Some? {
      assert run.calls[i] in run.calls;
    }
  }

  lemma TextKeeps(run: Run, text: string)
    requires RunInv(run)
    ensures RunInv(run.(text := text))
  {
  }

  lemma {:induction false} RanInv(events: seq<Event>)
    requires Ran(events).Some?
    ensures RunInv(Ran(events).value)
  {
    if events != [] {
      RanInv(events[..|events| - 1]);
      AdvanceKeeps(Ran(events[..|events| - 1]).value, events[|events| - 1]);
    }
  }

  /** The run of a single call that is announced and finished at once. */
  function SingleCall(kind: Kind, payload: string, usage: Option<Usage>): seq<Event> {
    [ItemAdded("i", ToolItem(kind, "", "c", "f", "", ""), ""),
     ItemDone("i", ToolItem(kind, "", "c", "f", "", payload)),
     Completed("", usage)]
  }

  lemma SingleCallRuns(kind: Kind, payload: string, usage: Option<Usage>)
    ensures Ran(SingleCall(kind, payload, usage)) ==
      Some(Run("", [ToolCall("i", kind, "c", "f", "", Some(payload))], [0], Some(usage)))
  {
    hide Advance;
    var events := SingleCall(kind, payload, usage);
    var a, d, c := events[0], events[1], events[2];
    RanNothing();
    RanSnoc([], a);
    RanSnoc([a], d);
    RanSnoc([a, d], c);
    assert [] + [a] == [a] && [a] + [d] == [a, d] && [a, d] + [c] == events;
    SingleCallSteps(kind, payload, usage);
  }

  lemma SingleCallSteps(kind: Kind, payload: string, usage: Option<Usage>)
    ensures
      var events := SingleCall(kind, payload, usage);
      var call := ToolCall("i", kind, "c", "f", "", None);
      var announced := Run("", [call], [], None);
      var finished := Run("", [call.(payload := Some(payload))], [0], None);
      && Advance(NEW_RUN, events[0]) == Some(announced)
      && Advance(announced, events[1]) == Some(finished)
      && Advance(finished, events[2]) == Some(finished.(end := Some(usage)))
  {
    var call := ToolCall("i", kind, "c", "f", "", None);
    var done := call.(payload := Some(payload));
    FoundAlone(call);
    assert Find([], "i") == None;
    assert [] + [call] == [call] && [call][0 := done] == [done];
    assert [] + [0] == [0];
  }

  lemma FoundAlone(c: ToolCall)
    ensures Find([c], c.id) == Some(0)
  {
  }
}
