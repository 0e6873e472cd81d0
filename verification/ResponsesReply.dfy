/** What a reader of the Responses stream must end up with, said directly about the chat
    chunks: one item per speaker (the text, the reasoning, each tool call), in the order
    in which they first speak, holding the concatenation of what they said. */
module ResponsesReply {
  import opened Wrappers
  import opened Chat
  import opened ResponsesClient

  datatype Key = MessageKey | ThoughtKey | CallKey(index: int)

  function KeyOf(p: Piece): Key {
    match p
    case Text(_) => MessageKey
    case Thought(_) => ThoughtKey
    case Call(e) => CallKey(e.index)
  }

  function Said(p: Piece): string {
    match p
    case Text(s) => s
    case Thought(s) => s
    case Call(e) => e.args
  }

  /** The speakers in the order of their first piece. */
  function Order(ps: seq<Piece>): seq<Key> {
    if ps == [] then []
    else
      var o, k := Order(ps[..|ps| - 1]), KeyOf(ps[|ps| - 1]);
      if k in o then o else o + [k]
  }

  function Content(ps: seq<Piece>, k: Key): string {
    if ps == [] then ""
    else Content(ps[..|ps| - 1], k) + if KeyOf(ps[|ps| - 1]) == k then Said(ps[|ps| - 1]) else ""
  }

  /** The number of non-empty deltas of a speaker. */
  function Count(ps: seq<Piece>, k: Key): nat {
    if ps == [] then 0
    else Count(ps[..|ps| - 1], k) + if KeyOf(ps[|ps| - 1]) == k && Said(ps[|ps| - 1]) != "" then 1 else 0
  }

  /** The entry that opened a tool call: it alone gives the call its identity. */
  function Opener(ps: seq<Piece>, index: int): ToolEntry
    requires CallKey(index) in Order(ps)
  {
    var init := ps[..|ps| - 1];
    if CallKey(index) in Order(init) then Opener(init, index) else ps[|ps| - 1].entry
  }

  function AddedCall(index: int, e: ToolEntry): Item {
    FunctionCall(CallId(index), FirstNonEmpty(e.id, e.clockId), Trunc(e.name, 128), "", "", false)
  }

  function AddedItem(ps: seq<Piece>, j: nat): Item
    requires j < |Order(ps)|
  {
    match Order(ps)[j]
    case MessageKey => Message(MsgId(j), None)
    case ThoughtKey => Reasoning(ReasonId(j), None)
    case CallKey(index) => AddedCall(index, Opener(ps, index))
  }

  function OpenSlot(ps: seq<Piece>, j: nat): Slot
    requires j < |Order(ps)|
  {
    var k := Order(ps)[j];
    Slot(AddedItem(ps, j), Content(ps, k), Count(ps, k), if k.MessageKey? then InPart else Opened)
  }

  function OpenSlots(ps: seq<Piece>): (r: seq<Slot>)
    ensures |r| == |Order(ps)|
    ensures forall j :: 0 <= j < |r| ==> r[j] == OpenSlot(ps, j)
  {
    seq(|Order(ps)|, j requires 0 <= j < |Order(ps)| => OpenSlot(ps, j))
  }

  function ClosedSlots(ps: seq<Piece>): (r: seq<Slot>)
    ensures |r| == |Order(ps)|
    ensures forall j :: 0 <= j < |r| ==> r[j] == OpenSlot(ps, j).(stage := Closed)
  {
    seq(|Order(ps)|, j requires 0 <= j < |Order(ps)| => OpenSlot(ps, j).(stage := Closed))
  }

  function Answer(ps: seq<Piece>, model: string, finish: string, usage: Usage): Client {
    Client(true, ClosedSlots(ps), Some(Response(model, finish == "length", Outputs(ClosedSlots(ps)), usage)))
  }

  /** The reply to a whole stream of chunks: only the chunks up to the finishing one matter. */
  function ReplyTo(model: string, cs: seq<Chunk>): Client {
    Answer(Pieces(Heard(cs)), LastModel(model, Heard(cs)), FinalFinish(cs), LastUsage(Heard(cs)))
  }

  predicate KnownAndBare(entries: seq<ToolEntry>, known: seq<Key>) {
    forall e <- entries :: e.args == "" && CallKey(e.index) in known
  }

  /** A delta that makes the emitter write nothing: it has no text and no reasoning, and
      its tool entries continue known calls with no arguments. */
  predicate SaysNothing(d: Delta, known: seq<Key>) {
    d.content == "" && d.reasoning == "" && KnownAndBare(d.toolCalls, known)
  }

  predicate Inert(c: Chunk, known: seq<Key>) {
    c.choice.Some? ==> SaysNothing(c.choice.value.delta, known)
  }

  /** Nothing is said after the chunk that finishes the stream. */
  predicate Quiet(cs: seq<Chunk>) {
    forall j :: FinishIndex(cs) < j < |cs| ==> Inert(cs[j], Order(Pieces(Heard(cs))))
  }

  /** Text after the finishing chunk. */
  lemma TextAfterTheEnd(text: string)
    requires text != ""
    ensures !Quiet([Chunk("", None, Some(Choice(Wire("stop"), NO_DELTA))),
                    Chunk("", None, Some(Choice(Absent, Delta(text, "", []))))])
  {
    var finish := Chunk("", None, Some(Choice(Wire("stop"), NO_DELTA)));
    var more := Chunk("", None, Some(Choice(Absent, Delta(text, "", []))));
    assert Finishing([finish, more][0]);
    assert !Inert([finish, more][1], Order(Pieces(Heard([finish, more]))));
  }

  /** The reply is marked incomplete exactly if the first finish reason says "length". */
  lemma IncompleteExactly(model: string, cs: seq<Chunk>)
    ensures ReplyTo(model, cs).reply.value.incomplete
            <==> FinishIndex(cs) < |cs| && FinishOf(cs[FinishIndex(cs)]) == "length"
  {
    hide Answer, Heard, Pieces, LastModel, LastUsage, FinishOf;
    AnswerHead(Pieces(Heard(cs)), LastModel(model, Heard(cs)), FinalFinish(cs), LastUsage(Heard(cs)));
  }

  lemma AnswerHead(ps: seq<Piece>, model: string, finish: string, usage: Usage)
    ensures
      var r := Answer(ps, model, finish, usage).reply;
      && r.Some? && r.value.incomplete == (finish == "length")
      && r.value.model == model && r.value.usage == usage && |r.value.output| == |Order(ps)|
  {
  }

  /** The items of the reply, one by one: the text, the reasoning, or a call with the identity
      of its first entry and all of its arguments. */
  lemma AnswerItem(ps: seq<Piece>, model: string, finish: string, usage: Usage, j: nat)
    requires j < |Order(ps)|
    ensures
      var r := Answer(ps, model, finish, usage).reply;
      r.Some? && j < |r.value.output| &&
      match Order(ps)[j]
      case MessageKey => r.value.output[j] == Message(MsgId(j), Some(Content(ps, MessageKey)))
      case ThoughtKey => r.value.output[j] == Reasoning(ReasonId(j), Some(Content(ps, ThoughtKey)))
      case CallKey(i) =>
        var e := Opener(ps, i);
        r.value.output[j] ==
        FunctionCall(CallId(i), if e.id != "" then e.id else e.clockId,
                     if |e.name| <= 128 then e.name else e.name[..128], "",
                     Content(ps, CallKey(i)), true)
  {
    hide Content, Opener, Count;
    assert Order(ps)[j] in Order(ps);
  }

  // ---- What the chunks say, delta by delta ----

  function Texts(cs: seq<Chunk>): string {
    if cs == [] then ""
    else
      var c := cs[|cs| - 1];
      Texts(cs[..|cs| - 1]) + if c.choice.Some? then c.choice.value.delta.content else ""
  }

  function Thoughts(cs: seq<Chunk>): string {
    if cs == [] then ""
    else
      var c := cs[|cs| - 1];
      Thoughts(cs[..|cs| - 1]) + if c.choice.Some? then c.choice.value.delta.reasoning else ""
  }

  /** The arguments of the entries of one index. */
  function ArgsIn(entries: seq<ToolEntry>, index: int): string {
    if entries == [] then ""
    else
      var e := entries[|entries| - 1];
      ArgsIn(entries[..|entries| - 1], index) + if e.index == index then e.args else ""
  }

  function Args(cs: seq<Chunk>, index: int): string {
    if cs == [] then ""
    else
      var c := cs[|cs| - 1];
      Args(cs[..|cs| - 1], index) + if c.choice.Some? then ArgsIn(c.choice.value.delta.toolCalls, index) else ""
  }

  /** Who says nothing says the empty text. */
  lemma SaidBy(ps: seq<Piece>, p: Piece, k: Key)
    ensures Content(ps + [p], k) == Content(ps, k) + if KeyOf(p) == k then Said(p) else ""
  {
    Snoc(ps, p);
  }

  lemma {:induction false} SaidByCalls(ps: seq<Piece>, entries: seq<ToolEntry>, index: int)
    ensures Content(ps + CallPieces(entries), CallKey(index)) == Content(ps, CallKey(index)) + ArgsIn(entries, index)
    ensures Content(ps + CallPieces(entries), MessageKey) == Content(ps, MessageKey)
    ensures Content(ps + CallPieces(entries), ThoughtKey) == Content(ps, ThoughtKey)
  {
    hide Content;
    if entries == [] {
      assert ps + CallPieces(entries) == ps;
    } else {
      var n := |entries| - 1;
      SaidByCalls(ps, entries[..n], index);
      assert CallPieces(entries) == CallPieces(entries[..n]) + [Call(entries[n])];
      var before := ps + CallPieces(entries[..n]);
      assert ps + CallPieces(entries) == before + [Call(entries[n])];
      SaidBy(before, Call(entries[n]), CallKey(index));
      SaidBy(before, Call(entries[n]), MessageKey);
      SaidBy(before, Call(entries[n]), ThoughtKey);
    }
  }

  lemma SaidByDelta(ps: seq<Piece>, d: Delta, index: int)
    ensures Content(ps + DeltaPieces(d), MessageKey) == Content(ps, MessageKey) + d.content
    ensures Content(ps + DeltaPieces(d), ThoughtKey) == Content(ps, ThoughtKey) + d.reasoning
    ensures Content(ps + DeltaPieces(d), CallKey(index)) == Content(ps, CallKey(index)) + ArgsIn(d.toolCalls, index)
  {
    hide Content, ArgsIn;
    var a := ps + if d.content != "" then [Text(d.content)] else [];
    var b := a + if d.reasoning != "" then [Thought(d.reasoning)] else [];
    assert ps + DeltaPieces(d) == b + CallPieces(d.toolCalls);
    if d.content != "" {
      SaidByAll(ps, Text(d.content), index);
    } else {
      assert a == ps;
    }
    if d.reasoning != "" {
      SaidByAll(a, Thought(d.reasoning), index);
    } else {
      assert b == a;
    }
    SaidByCalls(b, d.toolCalls, index);
  }

  lemma SaidByAll(ps: seq<Piece>, p: Piece, index: int)
    ensures Content(ps + [p], MessageKey) == Content(ps, MessageKey) + if p.Text? then p.s else ""
    ensures Content(ps + [p], ThoughtKey) == Content(ps, ThoughtKey) + if p.Thought? then p.s else ""
    ensures !p.Call? ==> Content(ps + [p], CallKey(index)) == Content(ps, CallKey(index))
  {
    hide Content;
    SaidBy(ps, p, MessageKey);
    SaidBy(ps, p, ThoughtKey);
    SaidBy(ps, p, CallKey(index));
  }

  /** For every stream of chunks the text, the reasoning and the arguments of each call are all
      the deltas of their kind, in order. */
  lemma {:induction false} ChunksSay(cs: seq<Chunk>, index: int)
    ensures Content(Pieces(cs), MessageKey) == Texts(cs)
    ensures Content(Pieces(cs), ThoughtKey) == Thoughts(cs)
    ensures Content(Pieces(cs), CallKey(index)) == Args(cs, index)
  {
    if cs == [] {
      assert Pieces(cs) == [];
    } else {
      hide Content, ArgsIn, DeltaPieces;
      var init, c := cs[..|cs| - 1], cs[|cs| - 1];
      ChunksSay(init, index);
      if c.choice.Some? {
        SaidByDelta(Pieces(init), c.choice.value.delta, index);
      } else {
        assert Pieces(init) + [] == Pieces(init);
      }
    }
  }

  // ---- How the reply grows by one piece ----

  lemma {:induction false} OrderDistinct(ps: seq<Piece>)
    ensures forall i, j :: 0 <= i < j < |Order(ps)| ==> Order(ps)[i] != Order(ps)[j]
  {
    if ps != [] {
      OrderDistinct(ps[..|ps| - 1]);
    }
  }

  /** A silent speaker has said nothing. */
  lemma {:induction false} Unheard(ps: seq<Piece>, k: Key)
    requires k !in Order(ps)
    ensures Content(ps, k) == "" && Count(ps, k) == 0
  {
    if ps != [] {
      Unheard(ps[..|ps| - 1], k);
    }
  }

  lemma Snoc(ps: seq<Piece>, p: Piece)
    ensures Order(ps + [p]) == if KeyOf(p) in Order(ps) then Order(ps) else Order(ps) + [KeyOf(p)]
    ensures forall k :: Content(ps + [p], k) == Content(ps, k) + if KeyOf(p) == k then Said(p) else ""
    ensures forall k :: Count(ps + [p], k) == Count(ps, k) + if KeyOf(p) == k && Said(p) != "" then 1 else 0
    ensures forall i :: CallKey(i) in Order(ps) ==> Opener(ps + [p], i) == Opener(ps, i)
  {
    assert (ps + [p])[..|ps|] == ps;
  }

  /** One more piece changes the slot of its own speaker only. */
  lemma SlotSnoc(ps: seq<Piece>, p: Piece, j: nat)
    requires j < |Order(ps)|
    ensures j < |Order(ps + [p])| && Order(ps + [p])[j] == Order(ps)[j]
    ensures
      var s := OpenSlot(ps, j);
      OpenSlot(ps + [p], j) ==
      if Order(ps)[j] == KeyOf(p) && Said(p) != ""
      then s.(text := s.text + Said(p), deltas := s.deltas + 1) else s
  {
    Snoc(ps, p);
    assert Order(ps)[j].CallKey? ==> CallKey(Order(ps)[j].index) in Order(ps);
  }

  /** A known speaker's piece extends its slot and nothing else. */
  lemma SnocKnown(ps: seq<Piece>, p: Piece, j: nat)
    requires j < |Order(ps)| && Order(ps)[j] == KeyOf(p)
    ensures Order(ps + [p]) == Order(ps)
    ensures Said(p) == "" ==> OpenSlots(ps + [p]) == OpenSlots(ps)
    ensures Said(p) != "" ==>
      var s := OpenSlot(ps, j);
      OpenSlots(ps + [p]) == OpenSlots(ps)[j := s.(text := s.text + Said(p), deltas := s.deltas + 1)]
  {
    Snoc(ps, p);
    OrderDistinct(ps);
    forall i | 0 <= i < |Order(ps)|
      ensures OpenSlots(ps + [p])[i] ==
        if i == j && Said(p) != ""
        then OpenSlot(ps, j).(text := OpenSlot(ps, j).text + Said(p), deltas := OpenSlot(ps, j).deltas + 1)
        else OpenSlots(ps)[i]
    {
      SlotSnoc(ps, p, i);
    }
  }

  /** The slot a new speaker gets. */
  function NewSlot(j: nat, p: Piece): Slot {
    Slot(match p
         case Text(_) => Message(MsgId(j), None)
         case Thought(_) => Reasoning(ReasonId(j), None)
         case Call(e) => AddedCall(e.index, e),
         Said(p), if Said(p) != "" then 1 else 0, if p.Text? then InPart else Opened)
  }

  /** A new speaker's piece appends a slot. */
  lemma SnocNew(ps: seq<Piece>, p: Piece)
    requires KeyOf(p) !in Order(ps)
    ensures Order(ps + [p]) == Order(ps) + [KeyOf(p)]
    ensures OpenSlots(ps + [p]) == OpenSlots(ps) + [NewSlot(|Order(ps)|, p)]
  {
    hide Order, OpenSlot, NewSlot;
    Snoc(ps, p);
    forall i | 0 <= i < |Order(ps)| ensures OpenSlots(ps + [p])[i] == OpenSlots(ps)[i] {
      assert Order(ps)[i] in Order(ps);
      SlotSnoc(ps, p, i);
    }
    FirstSlot(ps, p);
  }

  /** The slot that a new speaker's first piece opens. */
  lemma FirstSlot(ps: seq<Piece>, p: Piece)
    requires KeyOf(p) !in Order(ps)
    ensures |Order(ps + [p])| == |Order(ps)| + 1
    ensures OpenSlot(ps + [p], |Order(ps)|) == NewSlot(|Order(ps)|, p)
  {
    Snoc(ps, p);
    Unheard(ps, KeyOf(p));
    assert (ps + [p])[..|ps|] == ps;
  }

  /** Identifiers of distinct speakers are distinct. */
  lemma IdsDistinct(ps: seq<Piece>, p: Piece)
    requires KeyOf(p) !in Order(ps)
    ensures forall s <- OpenSlots(ps) :: s.added.id != NewSlot(|Order(ps)|, p).added.id
  {
    forall s | s in OpenSlots(ps) ensures s.added.id != NewSlot(|Order(ps)|, p).added.id {
      var j :| 0 <= j < |OpenSlots(ps)| && s == OpenSlots(ps)[j];
      assert Order(ps)[j] in Order(ps);
    }
  }

  // ---- What the reader makes of each piece ----

  /** The reader of an unfinished stream. */
  function Reader(ps: seq<Piece>): Client {
    Client(true, OpenSlots(ps), None)
  }

  lemma ReadKnownText(w: seq<Event>, ps: seq<Piece>, txt: string, j: nat)
    requires Read(w) == Some(Reader(ps))
    requires txt != "" && j < |Order(ps)| && Order(ps)[j] == MessageKey
    ensures Read(w + [TextDelta(MsgId(j), j, txt)]) == Some(Reader(ps + [Text(txt)]))
  {
    hide Order, Content, Count, Read;
    SnocKnown(ps, Text(txt), j);
    ReadSnoc(w, TextDelta(MsgId(j), j, txt));
  }

  lemma ReadKnownThought(w: seq<Event>, ps: seq<Piece>, th: string, j: nat)
    requires Read(w) == Some(Reader(ps))
    requires th != "" && j < |Order(ps)| && Order(ps)[j] == ThoughtKey
    ensures Read(w + [ReasoningDelta(ReasonId(j), j, th)]) == Some(Reader(ps + [Thought(th)]))
  {
    hide Order, Content, Count, Read;
    SnocKnown(ps, Thought(th), j);
    ReadSnoc(w, ReasoningDelta(ReasonId(j), j, th));
  }

  lemma ReadKnownCall(w: seq<Event>, ps: seq<Piece>, e: ToolEntry, j: nat)
    requires Read(w) == Some(Reader(ps))
    requires j < |Order(ps)| && Order(ps)[j] == CallKey(e.index)
    ensures e.args == "" ==> Reader(ps + [Call(e)]) == Reader(ps)
    ensures e.args != "" ==> Read(w + [ArgumentsDelta(CallId(e.index), j, e.args)]) == Some(Reader(ps + [Call(e)]))
  {
    hide Order, Content, Count, Read, Opener;
    SnocKnown(ps, Call(e), j);
    ReadSnoc(w, ArgumentsDelta(CallId(e.index), j, e.args));
  }

  lemma UpdateLast(s: seq<Slot>, a: Slot, b: Slot)
    ensures (s + [a])[|s| := b] == s + [b]
  {
  }

  lemma UpdateTwice(s: seq<Slot>, j: nat, a: Slot, b: Slot)
    requires j < |s|
    ensures s[j := a][j := b] == s[j := b]
  {
  }

  /** The reader after an item was announced and nothing of it was said. */
  function Announced(ps: seq<Piece>, item: Item, stage: Stage): Client {
    Client(true, OpenSlots(ps) + [Slot(item, "", 0, stage)], None)
  }

  lemma ReadAdded(w: seq<Event>, ps: seq<Piece>, p: Piece)
    requires Read(w) == Some(Reader(ps)) && KeyOf(p) !in Order(ps)
    ensures
      var m := NewSlot(|Order(ps)|, p).added;
      Read(w + [ItemAdded(|Order(ps)|, m)]) == Some(Announced(ps, m, Opened))
  {
    IdsDistinct(ps, p);
    ReadSnoc(w, ItemAdded(|Order(ps)|, NewSlot(|Order(ps)|, p).added));
  }

  lemma ReadNewText(w: seq<Event>, ps: seq<Piece>, txt: string)
    requires Read(w) == Some(Reader(ps))
    requires txt != "" && MessageKey !in Order(ps)
    ensures
      var j := |Order(ps)|;
      Read(w + [ItemAdded(j, Message(MsgId(j), None))] + [PartAdded(MsgId(j), j)] + [TextDelta(MsgId(j), j, txt)])
      == Some(Reader(ps + [Text(txt)]))
  {
    var p, s, j := Text(txt), OpenSlots(ps), |Order(ps)|;
    var m := Message(MsgId(j), None);
    SnocNew(ps, p);
    ReadAdded(w, ps, p);
    var w1 := w + [ItemAdded(j, m)];
    var w2 := w1 + [PartAdded(MsgId(j), j)];
    UpdateLast(s, Slot(m, "", 0, Opened), Slot(m, "", 0, InPart));
    ReadSnoc(w1, PartAdded(MsgId(j), j));
    assert "" + txt == txt;
    UpdateLast(s, Slot(m, "", 0, InPart), NewSlot(j, p));
    ReadSnoc(w2, TextDelta(MsgId(j), j, txt));
  }

  lemma ReadNewThought(w: seq<Event>, ps: seq<Piece>, th: string)
    requires Read(w) == Some(Reader(ps))
    requires th != "" && ThoughtKey !in Order(ps)
    ensures
      var j := |Order(ps)|;
      Read(w + [ItemAdded(j, Reasoning(ReasonId(j), None))] + [ReasoningDelta(ReasonId(j), j, th)])
      == Some(Reader(ps + [Thought(th)]))
  {
    var p, s, j := Thought(th), OpenSlots(ps), |Order(ps)|;
    var m := Reasoning(ReasonId(j), None);
    SnocNew(ps, p);
    ReadAdded(w, ps, p);
    var e := ReasoningDelta(ReasonId(j), j, th);
    assert "" + th == th;
    UpdateLast(s, Slot(m, "", 0, Opened), NewSlot(j, p));
    ReadSnoc(w + [ItemAdded(j, m)], e);
    assert Step(Announced(ps, m, Opened), e) == Some(Reader(ps + [p]));
  }

  lemma ReadNewCall(w: seq<Event>, ps: seq<Piece>, e: ToolEntry)
    requires Read(w) == Some(Reader(ps))
    requires CallKey(e.index) !in Order(ps)
    ensures
      var j := |Order(ps)|;
      var w1 := w + [ItemAdded(j, AddedCall(e.index, e))];
      && (e.args == "" ==> Read(w1) == Some(Reader(ps + [Call(e)])))
      && (e.args != "" ==> Read(w1 + [ArgumentsDelta(CallId(e.index), j, e.args)]) == Some(Reader(ps + [Call(e)])))
  {
    hide Order, OpenSlots, Read;
    var p, s, j := Call(e), OpenSlots(ps), |Order(ps)|;
    var m := AddedCall(e.index, e);
    SnocNew(ps, p);
    ReadAdded(w, ps, p);
    assert "" + e.args == e.args;
    UpdateLast(s, Slot(m, "", 0, Opened), NewSlot(j, p));
    ReadSnoc(w + [ItemAdded(j, m)], ArgumentsDelta(CallId(e.index), j, e.args));
  }

  /** A stream that has been rejected or completed takes no more events. */
  predicate Over(w: seq<Event>) {
    Read(w).None? || Read(w).value.reply.Some?
  }

  lemma ReadOver(w: seq<Event>, e: Event)
    requires Over(w)
    ensures Read(w + [e]).None?
  {
    ReadSnoc(w, e);
  }

  // ---- Closing the items one speaker after the other ----

  /** The slots when the speakers of `done` have been closed. */
  function HalfClosed(ps: seq<Piece>, done: set<Key>): (r: seq<Slot>)
    ensures |r| == |Order(ps)|
    ensures forall j :: 0 <= j < |r| ==>
      r[j] == if Order(ps)[j] in done then ClosedSlots(ps)[j] else OpenSlots(ps)[j]
  {
    seq(|Order(ps)|, j requires 0 <= j < |Order(ps)| =>
      if Order(ps)[j] in done then ClosedSlots(ps)[j] else OpenSlots(ps)[j])
  }

  function Closer(ps: seq<Piece>, done: set<Key>): Client {
    Client(true, HalfClosed(ps, done), None)
  }

  /** The reader while slot `j` of an open speaker stands at `stage`. */
  function Midway(ps: seq<Piece>, done: set<Key>, j: nat, stage: Stage): Client
    requires j < |Order(ps)|
  {
    Client(true, HalfClosed(ps, done)[j := OpenSlot(ps, j).(stage := stage)], None)
  }

  lemma CloseKey(ps: seq<Piece>, done: set<Key>, j: nat)
    requires j < |Order(ps)| && Order(ps)[j] !in done
    ensures HalfClosed(ps, done)[j] == OpenSlot(ps, j)
    ensures HalfClosed(ps, done)[j := OpenSlot(ps, j).(stage := Closed)] == HalfClosed(ps, done + {Order(ps)[j]})
  {
    OrderDistinct(ps);
  }

  lemma ReadClosedThought(w: seq<Event>, ps: seq<Piece>, done: set<Key>, j: nat)
    requires Read(w) == Some(Closer(ps, done))
    requires j < |Order(ps)| && Order(ps)[j] == ThoughtKey && ThoughtKey !in done
    ensures Read(w + [ItemDone(j, Reasoning(ReasonId(j), Some(Content(ps, ThoughtKey))))])
         == Some(Closer(ps, done + {ThoughtKey}))
  {
    CloseKey(ps, done, j);
    ReadSnoc(w, ItemDone(j, Reasoning(ReasonId(j), Some(Content(ps, ThoughtKey)))));
  }

  lemma ReadClosedText(w: seq<Event>, ps: seq<Piece>, done: set<Key>, j: nat)
    requires Read(w) == Some(Closer(ps, done))
    requires j < |Order(ps)| && Order(ps)[j] == MessageKey && MessageKey !in done
    ensures
      var t := Content(ps, MessageKey);
      Read(w + [TextDone(MsgId(j), j, t)] + [PartDone(MsgId(j), j, t)] + [ItemDone(j, Message(MsgId(j), Some(t)))])
      == Some(Closer(ps, done + {MessageKey}))
  {
    var t, s, o := Content(ps, MessageKey), HalfClosed(ps, done), OpenSlot(ps, j);
    var w1 := w + [TextDone(MsgId(j), j, t)];
    var w2 := w1 + [PartDone(MsgId(j), j, t)];
    CloseKey(ps, done, j);
    ReadSnoc(w, TextDone(MsgId(j), j, t));
    assert Read(w1) == Some(Midway(ps, done, j, TextEnded));
    UpdateTwice(s, j, o.(stage := TextEnded), o.(stage := PartEnded));
    ReadSnoc(w1, PartDone(MsgId(j), j, t));
    assert Read(w2) == Some(Midway(ps, done, j, PartEnded));
    UpdateTwice(s, j, o.(stage := PartEnded), o.(stage := Closed));
    ReadSnoc(w2, ItemDone(j, Message(MsgId(j), Some(t))));
  }

  lemma ReadClosedCall(w: seq<Event>, ps: seq<Piece>, done: set<Key>, j: nat)
    requires Read(w) == Some(Closer(ps, done))
    requires j < |Order(ps)| && Order(ps)[j].CallKey? && Order(ps)[j] !in done
    ensures
      var k := Order(ps)[j];
      Read(w + [ArgumentsDone(CallId(k.index), j, Content(ps, k))] + [ItemDone(j, Filled(OpenSlot(ps, j)))])
      == Some(Closer(ps, done + {k}))
  {
    var k, s, o := Order(ps)[j], HalfClosed(ps, done), OpenSlot(ps, j);
    var e1, e2 := ArgumentsDone(CallId(k.index), j, Content(ps, k)), ItemDone(j, Filled(o));
    CloseKey(ps, done, j);
    ReadSnoc(w, e1);
    assert Read(w + [e1]) == Some(Midway(ps, done, j, PayloadEnded));
    UpdateTwice(s, j, o.(stage := PayloadEnded), o.(stage := Closed));
    ReadSnoc(w + [e1], e2);
  }

  /** Once every item is closed the reader accepts the completed response, and no response with
      other items or another order of them. */
  lemma ReadCompleted(w: seq<Event>, ps: seq<Piece>, done: set<Key>, model: string, finish: string, usage: Usage)
    requires Read(w) == Some(Closer(ps, done))
    requires forall k <- Order(ps) :: k in done
    ensures Read(w + [Completed(Answer(ps, model, finish, usage).reply.value)]) ==
      Some(Answer(ps, model, finish, usage))
    ensures forall r: Response :: Read(w + [Completed(r)]).Some? <==> r.output == Outputs(ClosedSlots(ps))
  {
    assert HalfClosed(ps, done) == ClosedSlots(ps);
    forall r: Response ensures Read(w + [Completed(r)]).Some? <==> r.output == Outputs(ClosedSlots(ps)) {
      ReadSnoc(w, Completed(r));
    }
    ReadSnoc(w, Completed(Answer(ps, model, finish, usage).reply.value));
  }
}
