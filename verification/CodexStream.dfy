/** Responses events to chat chunks, one by one as they arrive. */
module CodexStream {
  import opened Wrappers
  import opened Chat
  import opened JsonString
  import opened CodexEvents
  import R = ResponsesReply
  import A = AnthropicCalls

  /** The arguments a chat client has received for a call. A custom call is wrapped piece by
      piece: the prefix when it is announced, each delta escaped, the suffix when it is
      finished; a payload that arrives all at once is wrapped as a whole. */
  function Streamed(c: ToolCall): string {
    match c.kind
    case Function => Arguments(c)
    case Custom =>
      if c.payload.None? then INPUT_PREFIX + Escape(c.deltas)
      else if c.deltas != "" then INPUT_PREFIX + Escape(c.deltas) + INPUT_SUFFIX
      else INPUT_PREFIX + WrapInput(c.payload.value)
  }

  /** The pieces of the chunks say what the run says: the text, and under index `i` the
      identity and arguments of the `i`-th call announced. */
  ghost predicate Says(ps: seq<Piece>, run: Run) {
    && R.Content(ps, R.MessageKey) == run.text
    && A.Announced(ps)
    && |A.Calls(ps)| == |run.calls|
    && forall i :: 0 <= i < |run.calls| ==> SaysCall(ps, i, run.calls[i])
  }

  ghost predicate SaysCall(ps: seq<Piece>, i: nat, c: ToolCall) {
    && i < |A.Calls(ps)| && A.Calls(ps)[i] == i
    && R.CallKey(i) in R.Order(ps)
    && FirstNonEmpty(R.Opener(ps, i).id, R.Opener(ps, i).clockId) == c.callId
    && R.Opener(ps, i).name == Trunc(c.name, 128)
    && R.Content(ps, R.CallKey(i)) == Streamed(c)
  }

  lemma SaysText(ps: seq<Piece>, run: Run, s: string)
    requires Says(ps, run)
    ensures Says(ps + [Text(s)], run.(text := run.text + s))
    ensures Says(ps + [Thought(s)], run)
  {
    hide A.Announced, A.Calls, R.Order, R.Content, R.Opener;
    R.Snoc(ps, Text(s));
    R.Snoc(ps, Thought(s));
    A.AnnouncedSnoc(ps, Text(s));
    A.AnnouncedSnoc(ps, Thought(s));
    A.CallsSnoc(ps, Text(s));
    A.CallsSnoc(ps, Thought(s));
  }

  /** A call is announced under the next index. */
  lemma SaysNewCall(ps: seq<Piece>, run: Run, e: ToolEntry, c: ToolCall)
    requires Says(ps, run)
    requires e.index == |run.calls| && e.name != "" && e.name == Trunc(c.name, 128)
    requires FirstNonEmpty(e.id, e.clockId) == c.callId && e.args == Streamed(c)
    ensures Says(ps + [Call(e)], run.(calls := run.calls + [c]))
  {
    hide A.Announced, A.Calls, R.Order, R.Content, Streamed;
    var n := |run.calls|;
    A.CallsKnown(R.Order(ps));
    CallsAreCalls(ps);
    forall i | 0 <= i < n ensures A.Calls(ps)[i] == i {
      assert SaysCall(ps, i, run.calls[i]);
    }
    R.Snoc(ps, Call(e));
    R.Unheard(ps, R.CallKey(n));
    A.AnnouncedSnoc(ps, Call(e));
    A.CallsSnoc(ps, Call(e));
    assert (ps + [Call(e)])[..|ps|] == ps;
  }

  lemma CallsAreCalls(ps: seq<Piece>)
    ensures forall i :: i in A.Calls(ps) <==> R.CallKey(i) in R.Order(ps)
  {
    A.CallsKnown(R.Order(ps));
  }

  /** A fragment continues a known call. */
  lemma SaysFragment(ps: seq<Piece>, run: Run, e: ToolEntry, c: ToolCall)
    requires Says(ps, run)
    requires 0 <= e.index < |run.calls| && e.name == ""
    requires var b := run.calls[e.index];
      c.callId == b.callId && c.name == b.name && Streamed(c) == Streamed(b) + e.args
    ensures Says(ps + [Call(e)], run.(calls := run.calls[e.index := c]))
  {
    hide A.Announced, A.Calls, R.Order, R.Content, R.Opener, Streamed;
    assert SaysCall(ps, e.index, run.calls[e.index]);
    CallsAreCalls(ps);
    R.Snoc(ps, Call(e));
    A.AnnouncedSnoc(ps, Call(e));
    A.CallsSnoc(ps, Call(e));
    var ps', calls' := ps + [Call(e)], run.calls[e.index := c];
    forall i | 0 <= i < |calls'| ensures SaysCall(ps', i, calls'[i]) {
      assert SaysCall(ps, i, run.calls[i]);
    }
  }

  /** Nothing is said: the call is worth the same. */
  lemma SaysNothing(ps: seq<Piece>, run: Run, i: nat, c: ToolCall)
    requires Says(ps, run)
    requires i < |run.calls|
    requires var b := run.calls[i];
      c.callId == b.callId && c.name == b.name && Streamed(c) == Streamed(b)
    ensures Says(ps, run.(calls := run.calls[i := c]))
  {
    hide A.Announced, A.Calls, R.Order, R.Content, R.Opener, Streamed;
    assert SaysCall(ps, i, run.calls[i]);
  }

  // ---- The converter's tables ----

  datatype Tables = Tables(toolIndex: nat, byItem: map<string, nat>, types: map<int, Kind>, emitted: set<int>,
                           finishReason: string)

  ghost predicate Indexed(run: Run, t: Tables) {
    && t.toolIndex == |run.calls|
    && (forall i :: 0 <= i < |run.calls| ==> run.calls[i].id in t.byItem && t.byItem[run.calls[i].id] == i)
    && (forall i :: 0 <= i < |run.calls| ==> i in t.types && t.types[i] == run.calls[i].kind)
    && (forall i :: 0 <= i < |run.calls| && run.calls[i].payload.None? ==>
          (i in t.emitted <==> run.calls[i].deltas != ""))
    && (forall i :: i in t.emitted ==> i < t.toolIndex)
    && t.finishReason == Reason(run)
  }

  /** While the run is well formed, the pieces said and the tables follow it. */
  ghost predicate Follows(run: Option<Run>, said: seq<Piece>, t: Tables) {
    run.Some? ==> RunInv(run.value) && Says(said, run.value) && Indexed(run.value, t)
  }

  lemma FollowText(run: Option<Run>, said: seq<Piece>, t: Tables, e: Event)
    requires Follows(run, said, t) && (e.TextDelta? || e.ReasoningDelta?)
    ensures e.delta == "" ==> Follows(Next(run, e), said, t)
    ensures Follows(Next(run, e), said + [if e.TextDelta? then Text(e.delta) else Thought(e.delta)], t)
  {
    hide Says, RunInv;
    if Next(run, e).Some? {
      AdvanceKeeps(run.value, e);
      SaysText(said, run.value, e.delta);
      assert run.value.text + "" == run.value.text;
    }
  }

  /** An event that says nothing and concerns no call. */
  lemma FollowQuiet(run: Option<Run>, said: seq<Piece>, t: Tables, e: Event)
    requires Follows(run, said, t)
    requires e.Created? || e.Ignored? || e.Completed? || e.Failed?
      || (e.ItemAdded? && e.item.OtherItem?) || (e.ItemDone? && e.item.OtherItem?)
    ensures Follows(Next(run, e), said, t)
  {
    hide RunInv;
    if Next(run, e).Some? {
      AdvanceKeeps(run.value, e);
      assert forall i :: 0 <= i < |run.value.calls| && SaysCall(said, i, run.value.calls[i]) ==> true;
    }
  }

  function Announcing(t: Tables, key: string, kind: Kind): Tables {
    Tables(t.toolIndex + 1, if key == "" then t.byItem else t.byItem[key := t.toolIndex],
           t.types[t.toolIndex := kind], t.emitted, "tool_calls")
  }

  lemma FollowAdded(run: Option<Run>, said: seq<Piece>, t: Tables, e: Event)
    requires Follows(run, said, t) && e.ItemAdded? && e.item.ToolItem?
    ensures Follows(Next(run, e), said + [Call(AddedEntry(t.toolIndex, e))],
                    Announcing(t, ItemKey(e.itemId, e.item), e.item.kind))
  {
    hide Says, RunInv, Find;
    if Next(run, e).Some? {
      AdvanceKeeps(run.value, e);
      var c := ToolCall(ItemKey(e.itemId, e.item), e.item.kind, e.item.callId, e.item.name, "", None);
      assert INPUT_PREFIX + "" == INPUT_PREFIX;
      SaysNewCall(said, run.value, AddedEntry(t.toolIndex, e), c);
    }
  }

  function AddedEntry(index: nat, e: Event): ToolEntry
    requires e.ItemAdded? && e.item.ToolItem?
  {
    ToolEntry(index, e.item.callId, e.clockId, Trunc(e.item.name, 128),
              if e.item.kind.Custom? then INPUT_PREFIX else "")
  }

  function Fragment(index: int, args: string): ToolEntry {
    ToolEntry(index, "", "", "", args)
  }

  predicate IsDelta(e: Event) {
    e.ArgumentsDelta? || e.InputDelta?
  }

  /** The fragment a delta event becomes. */
  function DeltaArgs(e: Event): string
    requires IsDelta(e)
  {
    if e.InputDelta? then Escape(e.delta) else e.delta
  }

  /** The index of an item; for an unknown one that of the latest call. */
  function ToolIndexFor(t: Tables, key: string): int {
    if key != "" && key in t.byItem then t.byItem[key]
    else if t.toolIndex == 0 then 0 else t.toolIndex - 1
  }

  lemma IndexOfOpen(run: Run, t: Tables, id: string, kind: Kind)
    requires RunInv(run) && Indexed(run, t) && OpenCall(run, id, kind).Some?
    ensures
      var i := OpenCall(run, id, kind).value;
      && ToolIndexFor(t, id) == i && i in t.types && t.types[i] == kind
      && (i in t.emitted <==> run.calls[i].deltas != "")
  {
  }

  lemma StreamedDelta(b: ToolCall, e: Event)
    requires IsDelta(e) && b.payload.None? && b.kind == DeltaKind(e)
    ensures Streamed(b.(deltas := b.deltas + e.delta)) == Streamed(b) + DeltaArgs(e)
  {
    EscapeConcat(b.deltas, e.delta);
    assert INPUT_PREFIX + Escape(b.deltas) + Escape(e.delta) == INPUT_PREFIX + (Escape(b.deltas) + Escape(e.delta));
  }

  function DeltaKind(e: Event): Kind
    requires IsDelta(e)
  {
    if e.InputDelta? then Custom else Function
  }

  lemma IndexedDelta(run: Run, t: Tables, e: Event)
    requires RunInv(run) && Indexed(run, t) && IsDelta(e) && Advance(run, e).Some?
    ensures e.delta == "" ==> Indexed(Advance(run, e).value, t)
    ensures e.delta != "" ==> Indexed(Advance(run, e).value, t.(emitted := t.emitted + {ToolIndexFor(t, e.itemId)}))
  {
    IndexOfOpen(run, t, e.itemId, DeltaKind(e));
    IndexedSaid(run, t, OpenCall(run, e.itemId, DeltaKind(e)).value, e.delta);
    hide Indexed, RunInv, Find;
  }

  lemma IndexedSaid(run: Run, t: Tables, i: nat, delta: string)
    requires Indexed(run, t) && i < |run.calls| && run.calls[i].payload.None?
    ensures delta == "" ==> Indexed(CodexEvents.Said(run, i, delta), t)
    ensures delta != "" ==> Indexed(CodexEvents.Said(run, i, delta), t.(emitted := t.emitted + {i}))
  {
  }

  lemma FollowDelta(run: Option<Run>, said: seq<Piece>, t: Tables, e: Event)
    requires Follows(run, said, t) && IsDelta(e)
    ensures e.delta == "" ==> Follows(Next(run, e), said, t)
    ensures e.delta != "" ==>
      var index := ToolIndexFor(t, e.itemId);
      Follows(Next(run, e), said + [Call(Fragment(index, DeltaArgs(e)))], t.(emitted := t.emitted + {index}))
  {
    hide Says, RunInv, Streamed, Indexed, ToolIndexFor, DeltaArgs;
    if Next(run, e).Some? {
      var r := run.value;
      AdvanceKeeps(r, e);
      IndexOfOpen(r, t, e.itemId, DeltaKind(e));
      IndexedDelta(r, t, e);
      var i := OpenCall(r, e.itemId, DeltaKind(e)).value;
      var c := r.calls[i].(deltas := r.calls[i].deltas + e.delta);
      StreamedDelta(r.calls[i], e);
      if e.delta == "" {
        assert c == r.calls[i];
        SaysNothing(said, r, i, c);
      } else {
        SaysFragment(said, r, Fragment(i, DeltaArgs(e)), c);
      }
    }
  }

  /** What the finished item adds to the arguments; `None` if nothing. */
  function DoneArgs(t: Tables, e: Event): Option<string>
    requires e.ItemDone? && e.item.ToolItem?
  {
    var index := ToolIndexFor(t, ItemKey(e.itemId, e.item));
    if index in t.types && t.types[index].Custom? then
      Some(if index in t.emitted then INPUT_SUFFIX else WrapInput(Payload(e.item)))
    else if Payload(e.item) == "" || index in t.emitted then None
    else Some(Payload(e.item))
  }

  lemma StreamedDone(b: ToolCall, t: Tables, e: Event)
    requires e.ItemDone? && e.item.ToolItem? && b.payload.None? && b.kind == e.item.kind
    requires
      var i := ToolIndexFor(t, ItemKey(e.itemId, e.item));
      i in t.types && t.types[i] == b.kind && (i in t.emitted <==> b.deltas != "")
    ensures
      var c := b.(payload := Some(Payload(e.item)));
      Streamed(c) == Streamed(b) + if DoneArgs(t, e).Some? then DoneArgs(t, e).value else ""
  {
    if b.deltas == "" {
      assert Escape(b.deltas) == "";
    }
  }

  lemma IndexedDone(run: Run, t: Tables, e: Event)
    requires RunInv(run) && Indexed(run, t) && e.ItemDone? && e.item.ToolItem? && Advance(run, e).Some?
    ensures Indexed(Advance(run, e).value, t)
    ensures Indexed(Advance(run, e).value, t.(emitted := t.emitted + {ToolIndexFor(t, ItemKey(e.itemId, e.item))}))
  {
    IndexOfOpen(run, t, ItemKey(e.itemId, e.item), e.item.kind);
  }

  lemma FollowDone(run: Option<Run>, said: seq<Piece>, t: Tables, e: Event)
    requires Follows(run, said, t) && e.ItemDone? && e.item.ToolItem?
    ensures DoneArgs(t, e).None? ==> Follows(Next(run, e), said, t)
    ensures DoneArgs(t, e).Some? ==>
      var index := ToolIndexFor(t, ItemKey(e.itemId, e.item));
      Follows(Next(run, e), said + [Call(Fragment(index, DoneArgs(t, e).value))], t.(emitted := t.emitted + {index}))
  {
    hide Says, RunInv, Streamed, Indexed, ToolIndexFor, DoneArgs, Payload;
    if Next(run, e).Some? {
      var r, key := run.value, ItemKey(e.itemId, e.item);
      AdvanceKeeps(r, e);
      IndexOfOpen(r, t, key, e.item.kind);
      IndexedDone(r, t, e);
      var i := OpenCall(r, key, e.item.kind).value;
      var c := r.calls[i].(payload := Some(Payload(e.item)));
      StreamedDone(r.calls[i], t, e);
      if DoneArgs(t, e).None? {
        SaysNothing(said, r, i, c);
        SaysDone(said, r.(calls := r.calls[i := c]), i);
      } else {
        SaysFragment(said, r, Fragment(i, DoneArgs(t, e).value), c);
        SaysDone(said + [Call(Fragment(i, DoneArgs(t, e).value))], r.(calls := r.calls[i := c]), i);
      }
    }
  }

  /** The order of completion is not visible to a chat client. */
  lemma SaysDone(ps: seq<Piece>, run: Run, i: nat)
    requires Says(ps, run)
    ensures Says(ps, run.(done := run.done + [i]))
  {
  }

  lemma SaidAll(run: Option<Run>, said: seq<Piece>, t: Tables)
    requires Follows(run, said, t)
    ensures run.Some? ==> Says(said, run.value)
  {
  }

  // ---- What the events say, one by one ----

  const NO_TABLES := Tables(0, map[], map[], {}, "stop")

  predicate EndsRun(e: Event) {
    e.Completed? || e.Failed?
  }

  /** The pieces of the chunk an event becomes; `ended` if the stream is finished already. */
  function SayingOf(t: Tables, ended: bool, e: Event): seq<Piece> {
    match e
    case TextDelta(delta) => if delta == "" then [] else [Text(delta)]
    case ReasoningDelta(delta) => if delta == "" then [] else [Thought(delta)]
    case ItemAdded(_, item, _) => if item.OtherItem? then [] else [Call(AddedEntry(t.toolIndex, e))]
    case ItemDone(itemId, item) =>
      if item.OtherItem? || DoneArgs(t, e).None? then []
      else [Call(Fragment(ToolIndexFor(t, ItemKey(itemId, item)), DoneArgs(t, e).value))]
    case Failed(_, message) => if ended then [] else [Text("[Error] " + message)]
    case _ => if IsDelta(e) && e.delta != "" then [Call(Fragment(ToolIndexFor(t, e.itemId), DeltaArgs(e)))] else []
  }

  /** The tables after an event. */
  function After(t: Tables, e: Event): Tables {
    if e.ItemAdded? && e.item.ToolItem? then Announcing(t, ItemKey(e.itemId, e.item), e.item.kind)
    else if IsDelta(e) && e.delta != "" then t.(emitted := t.emitted + {ToolIndexFor(t, e.itemId)})
    else if e.ItemDone? && e.item.ToolItem? && DoneArgs(t, e).Some?
    then t.(emitted := t.emitted + {ToolIndexFor(t, ItemKey(e.itemId, e.item))})
    else t
  }

  function TablesOf(events: seq<Event>): Tables {
    if events == [] then NO_TABLES else After(TablesOf(events[..|events| - 1]), events[|events| - 1])
  }

  predicate HasEnded(events: seq<Event>) {
    exists d <- events :: EndsRun(d)
  }

  /** Everything a sequence of events says, well formed or not. */
  function Spoken(events: seq<Event>): seq<Piece> {
    if events == [] then []
    else
      var init, e := events[..|events| - 1], events[|events| - 1];
      Spoken(init) + SayingOf(TablesOf(init), HasEnded(init), e)
  }

  lemma SpokenSnoc(events: seq<Event>, e: Event)
    ensures Spoken(events + [e]) == Spoken(events) + SayingOf(TablesOf(events), HasEnded(events), e)
    ensures TablesOf(events + [e]) == After(TablesOf(events), e)
    ensures HasEnded(events + [e]) <==> HasEnded(events) || EndsRun(e)
  {
    assert (events + [e])[..|events|] == events;
    if d :| d in events && EndsRun(d) {
      assert d in events + [e];
    }
    assert e in events + [e];
  }

  lemma NothingSpoken()
    ensures Spoken([]) == [] && TablesOf([]) == NO_TABLES && !HasEnded([])
  {
  }

  /** The reasoning of a run: all its reasoning deltas. */
  function ReasoningOf(events: seq<Event>): string {
    if events == [] then ""
    else
      var e := events[|events| - 1];
      ReasoningOf(events[..|events| - 1]) + if e.ReasoningDelta? then e.delta else ""
  }

  /** The text of a run: all its text deltas, and the report of a failure if that ends it. */
  function TextOf(events: seq<Event>): string {
    if events == [] then ""
    else
      var init, e := events[..|events| - 1], events[|events| - 1];
      TextOf(init)
      + if e.TextDelta? then e.delta
        else if e.Failed? && !exists d <- init :: d.Completed? || d.Failed? then "[Error] " + e.message
        else ""
  }

  /** An event says at most one thing, and text or reasoning as it arrives. */
  lemma SayingSays(t: Tables, ended: bool, e: Event)
    ensures |SayingOf(t, ended, e)| <= 1
    ensures
      var ps := SayingOf(t, ended, e);
      && (e.TextDelta? ==> ps == if e.delta == "" then [] else [Text(e.delta)])
      && (e.ReasoningDelta? ==> ps == if e.delta == "" then [] else [Thought(e.delta)])
      && (e.Failed? ==> ps == if ended then [] else [Text("[Error] " + e.message)])
      && (!e.TextDelta? && !e.ReasoningDelta? && !e.Failed? ==> ps == [] || ps[0].Call?)
  {
    hide DoneArgs, ToolIndexFor, DeltaArgs, AddedEntry, ItemKey;
  }

  lemma EndedMeans(events: seq<Event>)
    ensures HasEnded(events) <==> exists d <- events :: d.Completed? || d.Failed?
  {
    if d :| d in events && EndsRun(d) {
      assert d in events && (d.Completed? || d.Failed?);
    }
    if d :| d in events && (d.Completed? || d.Failed?) {
      assert EndsRun(d);
    }
  }

  lemma ContentSnoc(events: seq<Event>, e: Event)
    ensures ReasoningOf(events + [e]) == ReasoningOf(events) + if e.ReasoningDelta? then e.delta else ""
    ensures TextOf(events + [e]) ==
      TextOf(events)
      + if e.TextDelta? then e.delta else if e.Failed? && !HasEnded(events) then "[Error] " + e.message else ""
  {
    assert (events + [e])[..|events|] == events;
    EndedMeans(events);
  }

  /** Whatever the events, well formed or not, the stream carries the whole reasoning and the
      whole text. */
  lemma {:induction false} SpokenContent(events: seq<Event>)
    ensures R.Content(Spoken(events), R.ThoughtKey) == ReasoningOf(events)
    ensures R.Content(Spoken(events), R.MessageKey) == TextOf(events)
  {
    if events == [] {
      NothingSpoken();
    } else {
      hide Spoken, TextOf, ReasoningOf, R.Content;
      var init, e := events[..|events| - 1], events[|events| - 1];
      SpokenContent(init);
      assert events == init + [e];
      ContentStep(init, e);
    }
  }

  lemma ContentStep(events: seq<Event>, e: Event)
    requires R.Content(Spoken(events), R.ThoughtKey) == ReasoningOf(events)
    requires R.Content(Spoken(events), R.MessageKey) == TextOf(events)
    ensures R.Content(Spoken(events + [e]), R.ThoughtKey) == ReasoningOf(events + [e])
    ensures R.Content(Spoken(events + [e]), R.MessageKey) == TextOf(events + [e])
  {
    hide Spoken, TextOf, ReasoningOf, R.Content, HasEnded, SayingOf, TablesOf;
    SpokenSnoc(events, e);
    ContentSnoc(events, e);
    ContentSaid(Spoken(events), TablesOf(events), HasEnded(events), e);
  }

  /** What one event adds to the reasoning and to the text. */
  lemma ContentSaid(ps: seq<Piece>, t: Tables, ended: bool, e: Event)
    ensures
      var all := ps + SayingOf(t, ended, e);
      && R.Content(all, R.ThoughtKey) == R.Content(ps, R.ThoughtKey) + (if e.ReasoningDelta? then e.delta else "")
      && R.Content(all, R.MessageKey) ==
           R.Content(ps, R.MessageKey)
           + (if e.TextDelta? then e.delta else if e.Failed? && !ended then "[Error] " + e.message else "")
  {
    hide SayingOf, R.Content;
    var said := SayingOf(t, ended, e);
    SayingSays(t, ended, e);
    if said == [] {
      assert ps + said == ps;
    } else {
      assert said == [said[0]];
      R.Snoc(ps, said[0]);
    }
  }

  // ---- The converter ----

  class CodexChunkState {
    var model: string
    var toolIndex: nat
    var toolIdxByItem: map<string, nat>
    var argsEmittedIdx: set<int>
    var toolTypeByIdx: map<int, Kind>
    var finishReason: string
    var finishSent: bool
    /** The run so far while it is well formed, and the pieces of the chunks so far. */
    ghost var run: Option<Run>
    ghost var said: seq<Piece>

    function View(): Tables
      reads this
    {
      Tables(toolIndex, toolIdxByItem, toolTypeByIdx, argsEmittedIdx, finishReason)
    }

    ghost predicate Valid()
      reads this
    {
      Follows(run, said, View()) && (run.Some? ==> finishSent == run.value.end.Some?)
    }

    constructor ()
      ensures Valid() && run == Some(NEW_RUN) && said == [] && model == "" && !finishSent && View() == NO_TABLES
    {
      model, toolIndex, toolIdxByItem, argsEmittedIdx, toolTypeByIdx := "", 0, map[], {}, map[];
      finishReason, finishSent := "stop", false;
      run, said := Some(NEW_RUN), [];
    }

    function ChunkBase(delta: Delta, finish: FinishReason): Chunk
      reads this
    {
      Chunk(model, None, Some(Choice(finish, delta)))
    }

    function CallChunk(entry: ToolEntry): Chunk
      reads this
    {
      ChunkBase(Delta("", "", [entry]), Absent)
    }

    method ConvertText(e: Event) returns (chunk: Option<Chunk>)
      requires Valid() && (e.TextDelta? || e.ReasoningDelta?)
      modifies this`run, this`said
      ensures Valid() && run == Next(old(run), e)
      ensures chunk.Some? ==>
                chunk.value.choice.Some? && chunk.value == ChunkBase(chunk.value.choice.value.delta, Absent)
      ensures said == old(said) + if chunk.Some? then ChunkPieces(chunk.value) else []
      ensures said == old(said) + SayingOf(old(View()), old(finishSent), e) && View() == After(old(View()), e)
    {
      hide Follows;
      FollowText(run, said, View(), e);
      run := Next(run, e);
      if e.delta == "" {
        return None;
      }
      said := said + [if e.TextDelta? then Text(e.delta) else Thought(e.delta)];
      return Some(ChunkBase(if e.TextDelta? then Delta(e.delta, "", []) else Delta("", e.delta, []), Absent));
    }

    method ConvertAdded(e: Event) returns (chunk: Option<Chunk>)
      requires Valid() && e.ItemAdded?
      modifies this`run, this`said, this`toolIndex, this`toolIdxByItem, this`toolTypeByIdx, this`finishReason
      ensures Valid() && run == Next(old(run), e)
      ensures chunk.Some? ==>
                chunk.value.choice.Some? && chunk.value == ChunkBase(chunk.value.choice.value.delta, Absent)
      ensures said == old(said) + if chunk.Some? then ChunkPieces(chunk.value) else []
      ensures said == old(said) + SayingOf(old(View()), old(finishSent), e) && View() == After(old(View()), e)
    {
      hide Follows;
      if e.item.OtherItem? {
        FollowQuiet(run, said, View(), e);
        run := Next(run, e);
        return None;
      }
      FollowAdded(run, said, View(), e);
      var index, key := toolIndex, ItemKey(e.itemId, e.item);
      toolIndex := toolIndex + 1;
      if key != "" {
        toolIdxByItem := toolIdxByItem[key := index];
      }
      finishReason := "tool_calls";
      toolTypeByIdx := toolTypeByIdx[index := e.item.kind];
      var arguments := if toolTypeByIdx[index] == Custom then INPUT_PREFIX else "";
      var entry := ToolEntry(index, e.item.callId, e.clockId, Trunc(e.item.name, 128), arguments);
      run, said := Next(run, e), said + [Call(entry)];
      return Some(CallChunk(entry));
    }

    method ConvertDelta(e: Event) returns (chunk: Option<Chunk>)
      requires Valid() && IsDelta(e)
      modifies this`run, this`said, this`argsEmittedIdx
      ensures Valid() && run == Next(old(run), e)
      ensures chunk.Some? ==>
                chunk.value.choice.Some? && chunk.value == ChunkBase(chunk.value.choice.value.delta, Absent)
      ensures said == old(said) + if chunk.Some? then ChunkPieces(chunk.value) else []
      ensures said == old(said) + SayingOf(old(View()), old(finishSent), e) && View() == After(old(View()), e)
    {
      hide Follows;
      FollowDelta(run, said, View(), e);
      run := Next(run, e);
      if e.delta == "" {
        return None;
      }
      var index := ToolIndexFor(View(), e.itemId);
      argsEmittedIdx := argsEmittedIdx + {index};
      var entry := Fragment(index, if e.InputDelta? then Escape(e.delta) else e.delta);
      said := said + [Call(entry)];
      return Some(CallChunk(entry));
    }

    method ConvertDone(e: Event) returns (chunk: Option<Chunk>)
      requires Valid() && e.ItemDone?
      modifies this`run, this`said, this`argsEmittedIdx
      ensures Valid() && run == Next(old(run), e)
      ensures chunk.Some? ==>
                chunk.value.choice.Some? && chunk.value == ChunkBase(chunk.value.choice.value.delta, Absent)
      ensures said == old(said) + if chunk.Some? then ChunkPieces(chunk.value) else []
      ensures said == old(said) + SayingOf(old(View()), old(finishSent), e) && View() == After(old(View()), e)
    {
      hide Follows;
      if e.item.OtherItem? {
        FollowQuiet(run, said, View(), e);
        run := Next(run, e);
        return None;
      }
      FollowDone(run, said, View(), e);
      run := Next(run, e);
      var args := if e.item.arguments != "" then e.item.arguments else e.item.input;
      var index := ToolIndexFor(View(), ItemKey(e.itemId, e.item));
      if index in toolTypeByIdx && toolTypeByIdx[index] == Custom {
        args := if index in argsEmittedIdx then INPUT_SUFFIX else INPUT_PREFIX + Escape(args) + INPUT_SUFFIX;
      } else if args == "" || index in argsEmittedIdx {
        return None;
      }
      argsEmittedIdx := argsEmittedIdx + {index};
      var entry := Fragment(index, args);
      said := said + [Call(entry)];
      return Some(CallChunk(entry));
    }

    /** The stream is finished once, by the first event that completes or fails it. */
    method ConvertEnd(e: Event) returns (chunk: Option<Chunk>, usage: Option<Usage>)
      requires Valid() && EndsRun(e)
      modifies this`run, this`said, this`finishSent
      ensures Valid() && run == Next(old(run), e) && finishSent
      ensures usage == if e.Completed? then e.usage else None
      ensures chunk.Some? == !old(finishSent)
      ensures chunk.Some? ==> chunk.value.choice.Some?
      ensures chunk.Some? ==> chunk.value == ChunkBase(chunk.value.choice.value.delta, chunk.value.choice.value.finish)
      ensures chunk.Some? ==> chunk.value.choice.value.finish.InProcess?
      ensures chunk.Some? && run.Some? ==> chunk.value.choice.value.finish.reason == Reason(run.value)
      ensures said == old(said) + if chunk.Some? then ChunkPieces(chunk.value) else []
      ensures said == old(said) + SayingOf(old(View()), old(finishSent), e)
    {
      hide Follows, Reason;
      chunk, usage := None, None;
      ghost var was, before := finishSent, said;
      if e.Completed? {
        FollowQuiet(run, said, View(), e);
        run := Next(run, e);
        FollowedReason(run, said, View());
        usage := e.usage;
        if !finishSent {
          finishSent := true;
          chunk := Some(ChunkBase(NO_DELTA, InProcess(finishReason)));
        }
      } else {
        run := Next(run, e);
        FollowFailed(said, View());
        if !finishSent {
          finishSent := true;
          FollowFailed(said + [Text("[Error] " + e.message)], View());
          said := said + [Text("[Error] " + e.message)];
          chunk := Some(ChunkBase(Delta("[Error] " + e.message, "", []), InProcess("stop")));
        }
      }
    }

    /** One event of the upstream. */
    method Convert(e: Event) returns (chunk: Option<Chunk>, usage: Option<Usage>, fin: bool)
      requires Valid()
      modifies this
      ensures Valid() && run == Next(old(run), e)
      ensures model == FirstNonEmpty(old(model), EventModel(e))
      ensures chunk.Some? ==> chunk.value.model == model && chunk.value.usage.None? && chunk.value.choice.Some?
      ensures chunk.Some? ==>
                (if fin then chunk.value.choice.value.finish.InProcess? else chunk.value.choice.value.finish == Absent)
      ensures said == old(said) + if chunk.Some? then ChunkPieces(chunk.value) else []
      ensures said == old(said) + SayingOf(old(View()), old(finishSent), e) && View() == After(old(View()), e)
      ensures fin == (!old(finishSent) && (e.Completed? || e.Failed?)) && (fin ==> chunk.Some?)
      ensures finishSent == (old(finishSent) || fin)
      ensures usage == if e.Completed? then e.usage else None
      ensures fin && run.Some? ==> chunk.value.choice.value.finish.reason == Reason(run.value)
    {
      hide Follows, Reason, DoneArgs, ToolIndexFor, DeltaArgs, Announcing, AddedEntry, ItemKey, ChunkPieces;
      if model == "" {
        model := EventModel(e);
      }
      chunk, usage, fin := None, None, false;
      match e {
        case TextDelta(_) => chunk := ConvertText(e);
        case ReasoningDelta(_) => chunk := ConvertText(e);
        case ItemAdded(_, _, _) => chunk := ConvertAdded(e);
        case ArgumentsDelta(_, _) => chunk := ConvertDelta(e);
        case InputDelta(_, _) => chunk := ConvertDelta(e);
        case ItemDone(_, _) => chunk := ConvertDone(e);
        case Completed(_, _) =>
          fin := !finishSent;
          chunk, usage := ConvertEnd(e);
        case Failed(_, _) =>
          fin := !finishSent;
          chunk, usage := ConvertEnd(e);
        case _ =>
          FollowQuiet(run, said, View(), e);
          run := Next(run, e);
      }
    }
  }

  /** Once the run is not well formed, nothing is claimed. */
  lemma FollowFailed(said: seq<Piece>, t: Tables)
    ensures Follows(None, said, t)
  {
  }

  lemma FollowedReason(run: Option<Run>, said: seq<Piece>, t: Tables)
    requires Follows(run, said, t)
    ensures run.Some? ==> t.finishReason == Reason(run.value)
  {
  }
}
