/** The writer that sits between the Responses emitter and a client whose tools are
    bridged. It must turn every well-formed stream about aliases into a well-formed stream
    about the client's own tools. */
module ResponsesToolWriter {
  import opened Wrappers
  import opened Chat
  import opened ResponsesClient
  import opened ResponsesTools
  import opened ResponsesReply
  import opened ResponsesOut

  /** The per-request constants of a bridge. */
  datatype Tools = Tools(byAlias: map<string, Identity>, decode: string -> string)

  type Items = map<ItemId, Identity>

  /** A bridge whose aliases are proper for some list of declarations. */
  ghost predicate Proper(t: Tools, byIdentity: map<Identity, string>, names: set<string>,
                         hash: (Identity, nat) -> string) {
    Inverse(t.byAlias, byIdentity) && ProperAliases(byIdentity, names, hash) && InputDecoder(t.decode)
  }

  function Restore(t: Tools, item: Item): Item {
    Restored(t.byAlias, t.decode, item)
  }

  function RestoreAll(t: Tools, items: seq<Item>): (r: seq<Item>)
    ensures |r| == |items|
    ensures forall i :: 0 <= i < |items| ==> r[i] == Restore(t, items[i])
  {
    seq(|items|, i requires 0 <= i < |items| => Restore(t, items[i]))
  }

  function RememberAll(t: Tools, known: Items, items: seq<Item>): Items {
    if items == [] then known
    else Remembered(t.byAlias, RememberAll(t, known, items[..|items| - 1]), items[|items| - 1])
  }

  predicate CustomId(known: Items, id: ItemId) {
    id in known && known[id].custom
  }

  /** What is sent for one event. The items of a completed response are the very objects
      that were restored when they were closed, so they are restored a second time. */
  function Forwarded(t: Tools, known: Items, e: Event): seq<Event> {
    match e
    case ItemAdded(index, item) => [ItemAdded(index, Restore(t, item))]
    case ItemDone(index, item) => [ItemDone(index, Restore(t, item))]
    case Completed(r) => [Completed(r.(output := RestoreAll(t, RestoreAll(t, r.output))))]
    case ArgumentsDelta(id, _, _) => if CustomId(known, id) then [] else [e]
    case ArgumentsDone(id, index, args) =>
      if CustomId(known, id)
      then [InputDelta(id, index, t.decode(args)), InputDone(id, index, t.decode(args))]
      else [e]
    case _ => [e]
  }

  function KnownAfter(t: Tools, known: Items, e: Event): Items {
    match e
    case ItemAdded(_, item) => Remembered(t.byAlias, known, item)
    case ItemDone(_, item) => Remembered(t.byAlias, known, item)
    case Completed(r) => RememberAll(t, RememberAll(t, known, r.output), RestoreAll(t, r.output))
    case _ => known
  }

  function KnownItems(t: Tools, w: seq<Event>): Items {
    if w == [] then map[] else KnownAfter(t, KnownItems(t, w[..|w| - 1]), w[|w| - 1])
  }

  /** Everything that is sent for a stream of events. */
  function Bridged(t: Tools, w: seq<Event>): seq<Event> {
    if w == [] then []
    else Bridged(t, w[..|w| - 1]) + Forwarded(t, KnownItems(t, w[..|w| - 1]), w[|w| - 1])
  }

  // ---- What the client should read instead ----

  /** A function call under an alias becomes the call of the tool; the arguments of a custom
      tool stay hidden until they are complete, and then arrive decoded, in one delta. */
  function SlotImage(t: Tools, s: Slot): Slot {
    var item := Restore(t, s.added);
    if !s.added.FunctionCall? || !item.CustomCall? then s.(added := item)
    else if s.stage == Opened then Slot(item, "", 0, Opened)
    else Slot(item, t.decode(s.text), 1, s.stage)
  }

  function SlotImages(t: Tools, slots: seq<Slot>): (r: seq<Slot>)
    ensures |r| == |slots|
    ensures forall i :: 0 <= i < |slots| ==> r[i] == SlotImage(t, slots[i])
  {
    seq(|slots|, i requires 0 <= i < |slots| => SlotImage(t, slots[i]))
  }

  function Image(t: Tools, c: Client): Client {
    Client(c.created, SlotImages(t, c.slots),
           if c.reply.None? then None else Some(c.reply.value.(output := RestoreAll(t, c.reply.value.output))))
  }

  /** The emitter itself never speaks of custom calls. */
  predicate PlainSlots(c: Client) {
    forall s <- c.slots :: !s.added.CustomCall?
  }

  /** The bridge knows exactly the announced calls of bridged tools. */
  ghost predicate Knows(t: Tools, known: Items, c: Client) {
    && (forall s <- c.slots :: CustomId(known, s.added.id) <==> Restore(t, s.added).CustomCall?)
    && (forall id :: id in known ==> exists s :: s in c.slots && s.added.id == id)
  }

  lemma RestoreKeepsId(t: Tools, item: Item)
    ensures Restore(t, item).id == item.id
  {
  }

  lemma ImageUpdate(t: Tools, c: Client, i: nat, s: Slot)
    requires i < |c.slots|
    ensures Image(t, c.(slots := c.slots[i := s])) == Image(t, c).(slots := Image(t, c).slots[i := SlotImage(t, s)])
  {
    var c' := c.(slots := c.slots[i := s]);
    assert SlotImages(t, c'.slots) == SlotImages(t, c.slots)[i := SlotImage(t, s)];
  }

  /** Replacing a slot by one for the same announced item leaves the bridge's knowledge right. */
  lemma KnowsUpdate(t: Tools, known: Items, c: Client, i: nat, s: Slot)
    requires Knows(t, known, c) && PlainSlots(c) && i < |c.slots| && s.added == c.slots[i].added
    ensures Knows(t, known, c.(slots := c.slots[i := s])) && PlainSlots(c.(slots := c.slots[i := s]))
  {
    var slots := c.slots[i := s];
    assert c.slots[i] in c.slots;
    forall x | x in slots
      ensures CustomId(known, x.added.id) <==> Restore(t, x.added).CustomCall?
      ensures !x.added.CustomCall?
    {
      assert x in c.slots || x == s;
    }
    forall id | id in known ensures exists x :: x in slots && x.added.id == id {
      var x :| x in c.slots && x.added.id == id;
      var j :| 0 <= j < |c.slots| && c.slots[j] == x;
      assert slots[j] in slots && slots[j].added.id == id;
    }
  }

  /** `w` has been read as the image of `c`. */
  ghost predicate Mirrors(t: Tools, w: seq<Event>, c: Client) {
    Read(w) == Some(Image(t, c))
  }

  /** An event the emitter may write: it never speaks of custom calls. */
  predicate PlainEvent(e: Event) {
    !e.InputDelta? && !e.InputDone? && (e.ItemAdded? ==> !e.item.CustomCall?)
  }

  lemma KnowsAdded(t: Tools, known: Items, c: Client, item: Item)
    requires Knows(t, known, c) && !item.CustomCall?
    requires forall s <- c.slots :: s.added.id != item.id
    ensures Knows(t, Remembered(t.byAlias, known, item), c.(slots := c.slots + [Slot(item, "", 0, Opened)]))
  {
    var known', new_ := Remembered(t.byAlias, known, item), Slot(item, "", 0, Opened);
    var slots := c.slots + [new_];
    assert item.id !in known;
    forall s | s in slots ensures CustomId(known', s.added.id) <==> Restore(t, s.added).CustomCall? {
      assert s in c.slots || s == new_;
    }
    forall id | id in known' ensures exists s :: s in slots && s.added.id == id {
      if id in known {
        var s :| s in c.slots && s.added.id == id;
        assert s in slots;
      } else {
        assert slots[|c.slots|] in slots;
      }
    }
  }

  lemma MirrorAdded(t: Tools, w: seq<Event>, known: Items, c: Client, e: Event)
    requires InputDecoder(t.decode) && Mirrors(t, w, c) && Knows(t, known, c) && PlainSlots(c)
    requires e.ItemAdded? && PlainEvent(e) && Step(c, e).Some?
    ensures Mirrors(t, w + Forwarded(t, known, e), Step(c, e).value)
    ensures Knows(t, KnownAfter(t, known, e), Step(c, e).value) && PlainSlots(Step(c, e).value)
  {
    hide Knows, Mirrors, Image, Restore;
    KnowsAdded(t, known, c, e.item);
    AddedStep(t, c, e);
    MirrorStep(t, w, c, ItemAdded(e.index, Restore(t, e.item)), Step(c, e).value);
  }

  lemma MirrorStep(t: Tools, w: seq<Event>, c: Client, e: Event, c': Client)
    requires Mirrors(t, w, c) && Step(Image(t, c), e) == Some(Image(t, c'))
    ensures Mirrors(t, w + [e], c')
  {
    ReadSnoc(w, e);
  }

  lemma AddedStep(t: Tools, c: Client, e: Event)
    requires InputDecoder(t.decode) && e.ItemAdded? && PlainEvent(e) && Step(c, e).Some?
    ensures Step(Image(t, c), ItemAdded(e.index, Restore(t, e.item))) == Some(Image(t, Step(c, e).value))
  {
    var restored, slot := Restore(t, e.item), Slot(e.item, "", 0, Opened);
    assert SlotImage(t, slot) == Slot(restored, "", 0, Opened);
    assert SlotImages(t, c.slots + [slot]) == SlotImages(t, c.slots) + [SlotImage(t, slot)];
    RestoreKeepsId(t, e.item);
    forall s | s in Image(t, c).slots ensures s.added.id != restored.id {
      var i :| 0 <= i < |c.slots| && s == SlotImage(t, c.slots[i]);
      assert c.slots[i] in c.slots;
      RestoreKeepsId(t, c.slots[i].added);
    }
  }

  /** Moving one slot of the image moves the image. */
  lemma MirrorSlot(t: Tools, w: seq<Event>, known: Items, c: Client, e: Event, i: nat, s: Slot)
    requires Mirrors(t, w, c) && Knows(t, known, c) && PlainSlots(c) && i < |c.slots|
    requires s.added == c.slots[i].added
    requires Step(Image(t, c), e) == Some(Image(t, c).(slots := Image(t, c).slots[i := SlotImage(t, s)]))
    ensures
      var c' := c.(slots := c.slots[i := s]);
      Mirrors(t, w + [e], c') && Knows(t, known, c') && PlainSlots(c')
  {
    ImageUpdate(t, c, i, s);
    KnowsUpdate(t, known, c, i, s);
    ReadSnoc(w, e);
  }

  /** The events about text and reasoning pass unchanged. */
  lemma MirrorText(t: Tools, w: seq<Event>, known: Items, c: Client, e: Event)
    requires Mirrors(t, w, c) && Knows(t, known, c) && PlainSlots(c)
    requires e.PartAdded? || e.TextDelta? || e.ReasoningDelta? || e.TextDone? || e.PartDone?
    requires Step(c, e).Some?
    ensures Mirrors(t, w + Forwarded(t, known, e), Step(c, e).value)
    ensures Knows(t, KnownAfter(t, known, e), Step(c, e).value) && PlainSlots(Step(c, e).value)
  {
    hide Mirrors, Knows, Image;
    var i := e.index;
    var s' := Step(c, e).value.slots[i];
    assert Step(c, e).value == c.(slots := c.slots[i := s']);
    TextStep(t, c, e);
    MirrorSlot(t, w, known, c, e, i, s');
  }

  lemma TextStep(t: Tools, c: Client, e: Event)
    requires e.PartAdded? || e.TextDelta? || e.ReasoningDelta? || e.TextDone? || e.PartDone?
    requires Step(c, e).Some?
    ensures 0 <= e.index < |c.slots| && Step(c, e).value.slots[e.index].added == c.slots[e.index].added
    ensures Step(Image(t, c), e) ==
      Some(Image(t, c).(slots := Image(t, c).slots[e.index := SlotImage(t, Step(c, e).value.slots[e.index])]))
  {
    var i := e.index;
    assert Image(t, c).slots[i] == c.slots[i];
  }

  /** The arguments of a bridged custom tool are held back. */
  lemma MirrorHeldBack(t: Tools, w: seq<Event>, known: Items, c: Client, e: Event)
    requires Mirrors(t, w, c) && Knows(t, known, c) && PlainSlots(c)
    requires e.ArgumentsDelta? && CustomId(known, e.id) && Step(c, e).Some?
    ensures Mirrors(t, w + Forwarded(t, known, e), Step(c, e).value)
    ensures Knows(t, known, Step(c, e).value) && PlainSlots(Step(c, e).value)
  {
    hide Knows, PlainSlots, Step, Image, Restore;
    DeltaAt(c, e);
    KnownAt(t, known, c, e.index);
    HeldBackStep(t, c, e);
    KnowsUpdate(t, known, c, e.index, Step(c, e).value.slots[e.index]);
    assert w + [] == w;
  }

  lemma DeltaAt(c: Client, e: Event)
    requires e.ArgumentsDelta? && Step(c, e).Some?
    ensures 0 <= e.index < |c.slots| && c.slots[e.index].added.id == e.id
  {
  }

  lemma KnownAt(t: Tools, known: Items, c: Client, i: int)
    requires Knows(t, known, c) && 0 <= i < |c.slots|
    ensures CustomId(known, c.slots[i].added.id) <==> Restore(t, c.slots[i].added).CustomCall?
  {
    assert c.slots[i] in c.slots;
  }

  lemma HeldBackStep(t: Tools, c: Client, e: Event)
    requires e.ArgumentsDelta? && Step(c, e).Some? && Restore(t, c.slots[e.index].added).CustomCall?
    ensures |Step(c, e).value.slots| == |c.slots|
    ensures Image(t, Step(c, e).value) == Image(t, c)
    ensures Step(c, e).value == c.(slots := c.slots[e.index := Step(c, e).value.slots[e.index]])
    ensures Step(c, e).value.slots[e.index].added == c.slots[e.index].added
  {
    assert SlotImages(t, Step(c, e).value.slots) == SlotImages(t, c.slots);
  }

  /** The arguments of any other tool pass unchanged. */
  lemma MirrorArguments(t: Tools, w: seq<Event>, known: Items, c: Client, e: Event)
    requires Mirrors(t, w, c) && Knows(t, known, c) && PlainSlots(c)
    requires (e.ArgumentsDelta? || e.ArgumentsDone?) && !CustomId(known, e.id) && Step(c, e).Some?
    ensures Mirrors(t, w + Forwarded(t, known, e), Step(c, e).value)
    ensures Knows(t, known, Step(c, e).value) && PlainSlots(Step(c, e).value)
  {
    var i := e.index;
    assert c.slots[i] in c.slots;
    ArgumentsStep(t, c, e);
    MirrorSlot(t, w, known, c, e, i, Step(c, e).value.slots[i]);
  }

  lemma ArgumentsStep(t: Tools, c: Client, e: Event)
    requires e.ArgumentsDelta? || e.ArgumentsDone?
    requires Step(c, e).Some? && !Restore(t, c.slots[e.index].added).CustomCall?
    ensures Step(c, e).value == c.(slots := c.slots[e.index := Step(c, e).value.slots[e.index]])
    ensures Step(c, e).value.slots[e.index].added == c.slots[e.index].added
    ensures Step(Image(t, c), e) ==
      Some(Image(t, c).(slots := Image(t, c).slots[e.index := SlotImage(t, Step(c, e).value.slots[e.index])]))
  {
    var i := e.index;
    assert Image(t, c).slots[i] == c.slots[i].(added := Restore(t, c.slots[i].added));
  }

  /** The complete arguments of a bridged custom tool arrive decoded, as one delta and its end. */
  lemma MirrorInput(t: Tools, w: seq<Event>, known: Items, c: Client, e: Event)
    requires Mirrors(t, w, c) && Knows(t, known, c) && PlainSlots(c)
    requires e.ArgumentsDone? && CustomId(known, e.id) && Step(c, e).Some?
    ensures Mirrors(t, w + Forwarded(t, known, e), Step(c, e).value)
    ensures Knows(t, known, Step(c, e).value) && PlainSlots(Step(c, e).value)
  {
    hide Knows, PlainSlots, Restore;
    var i, input := e.index, t.decode(e.arguments);
    var s := c.slots[i];
    var s' := s.(stage := PayloadEnded);
    KnownAt(t, known, c, i);
    InputSteps(t, c, e);
    ImageUpdate(t, c, i, s');
    KnowsUpdate(t, known, c, i, s');
    var e1, e2 := InputDelta(e.id, i, input), InputDone(e.id, i, input);
    ReadSnoc(w, e1);
    ReadSnoc(w + [e1], e2);
    assert w + [e1, e2] == w + [e1] + [e2];
  }

  lemma InputSteps(t: Tools, c: Client, e: Event)
    requires e.ArgumentsDone? && Step(c, e).Some? && Restore(t, c.slots[e.index].added).CustomCall?
    ensures
      var i, input := e.index, t.decode(e.arguments);
      var item := Restore(t, c.slots[i].added);
      var half := Image(t, c).(slots := Image(t, c).slots[i := Slot(item, input, 1, Opened)]);
      && Step(Image(t, c), InputDelta(e.id, i, input)) == Some(half)
      && Step(half, InputDone(e.id, i, input))
         == Some(Image(t, c).(slots := Image(t, c).slots[i := Slot(item, input, 1, PayloadEnded)]))
    ensures SlotImage(t, c.slots[e.index].(stage := PayloadEnded)) ==
      Slot(Restore(t, c.slots[e.index].added), t.decode(e.arguments), 1, PayloadEnded)
    ensures Step(c, e).value == c.(slots := c.slots[e.index := c.slots[e.index].(stage := PayloadEnded)])
  {
    var i, input := e.index, t.decode(e.arguments);
    var item := Restore(t, c.slots[i].added);
    RestoreKeepsId(t, c.slots[i].added);
    assert Image(t, c).slots[i] == Slot(item, "", 0, Opened);
    assert "" + input == input;
    var slots := Image(t, c).slots;
    assert slots[i := Slot(item, input, 1, Opened)][i := Slot(item, input, 1, PayloadEnded)] ==
      slots[i := Slot(item, input, 1, PayloadEnded)];
  }

  /** A closed item, restored, is what the client has gathered about it. */
  lemma FilledImage(t: Tools, s: Slot)
    requires s.added.Reasoning? || s.added.Message? || (s.added.FunctionCall? && s.stage != Opened)
    ensures Filled(SlotImage(t, s)) == Restore(t, Filled(s))
  {
  }

  lemma MirrorDone(t: Tools, byIdentity: map<Identity, string>, w: seq<Event>, known: Items, c: Client, e: Event)
    requires Mirrors(t, w, c) && Knows(t, known, c) && PlainSlots(c)
    requires Inverse(t.byAlias, byIdentity)
    requires e.ItemDone? && Step(c, e).Some?
    ensures Mirrors(t, w + Forwarded(t, known, e), Step(c, e).value)
    ensures Knows(t, KnownAfter(t, known, e), Step(c, e).value) && PlainSlots(Step(c, e).value)
  {
    hide Mirrors, Knows, Image;
    var i := e.index;
    var s := c.slots[i];
    var s' := s.(stage := Closed);
    var e' := ItemDone(i, Restore(t, e.item));
    assert s in c.slots;
    DoneStep(t, c, e);
    MirrorSlot(t, w, known, c, e', i, s');
    KnowsDone(t, known, c, i, e.item, Step(c, e).value);
  }

  lemma DoneStep(t: Tools, c: Client, e: Event)
    requires e.ItemDone? && Step(c, e).Some? && !c.slots[e.index].added.CustomCall?
    ensures Step(c, e).value == c.(slots := c.slots[e.index := c.slots[e.index].(stage := Closed)])
    ensures Step(Image(t, c), ItemDone(e.index, Restore(t, e.item))) ==
      Some(Image(t, c).(slots := Image(t, c).slots[e.index := SlotImage(t, c.slots[e.index].(stage := Closed))]))
  {
    var s := c.slots[e.index];
    FilledImage(t, s);
    assert Image(t, c).slots[e.index] == SlotImage(t, s);
  }

  /** Remembering the identity of a closed item changes nothing: it was remembered before. */
  lemma KnowsDone(t: Tools, known: Items, c: Client, i: nat, item: Item, c': Client)
    requires Knows(t, known, c') && PlainSlots(c') && i < |c.slots| && i < |c'.slots|
    requires c'.slots[i].added == c.slots[i].added && item == Filled(c.slots[i])
    ensures Knows(t, Remembered(t.byAlias, known, item), c')
  {
    var s := c'.slots[i];
    assert s in c'.slots;
    var known' := Remembered(t.byAlias, known, item);
    forall x | x in c'.slots ensures CustomId(known', x.added.id) <==> Restore(t, x.added).CustomCall? {
    }
  }

  lemma MirrorCompleted(t: Tools, byIdentity: map<Identity, string>, names: set<string>,
                        hash: (Identity, nat) -> string,
                        w: seq<Event>, c: Client, e: Event)
    requires Proper(t, byIdentity, names, hash)
    requires Mirrors(t, w, c) && PlainSlots(c) && e.Completed? && Step(c, e).Some?
    ensures Mirrors(t, w + Forwarded(t, map[], e), Step(c, e).value)
  {
    var out := e.response.output;
    forall i | 0 <= i < |out|
      ensures RestoreAll(t, RestoreAll(t, out))[i] == RestoreAll(t, out)[i]
      ensures RestoreAll(t, out)[i] == Outputs(Image(t, c).slots)[i]
    {
      RestoreIdempotent(t.byAlias, byIdentity, names, hash, t.decode, out[i]);
      assert c.slots[i] in c.slots;
      FilledImage(t, c.slots[i]);
    }
    assert RestoreAll(t, RestoreAll(t, out)) == RestoreAll(t, out) == Outputs(Image(t, c).slots);
    forall s | s in Image(t, c).slots ensures s.stage == Closed {
      var i :| 0 <= i < |c.slots| && s == SlotImage(t, c.slots[i]);
      assert c.slots[i] in c.slots;
    }
    MirrorStep(t, w, c, Completed(e.response.(output := RestoreAll(t, out))), Step(c, e).value);
  }

  /** Every well-formed stream about aliases becomes a well-formed stream about the client's
      tools, read as the image of what the original would have been read as. */
  lemma {:induction false} BridgedReads(t: Tools, byIdentity: map<Identity, string>, names: set<string>,
                                        hash: (Identity, nat) -> string, w: seq<Event>)
    requires Proper(t, byIdentity, names, hash)
    requires forall e <- w :: PlainEvent(e)
    requires Read(w).Some?
    ensures Mirrors(t, Bridged(t, w), Read(w).value)
    ensures Read(w).value.reply.None? ==> Knows(t, KnownItems(t, w), Read(w).value) && PlainSlots(Read(w).value)
  {
    if w == [] {
      assert SlotImages(t, []) == [];
    } else {
      var w0, e := w[..|w| - 1], w[|w| - 1];
      var c, known := Read(w0).value, KnownItems(t, w0);
      BridgedReads(t, byIdentity, names, hash, w0);
      MirrorOne(t, byIdentity, names, hash, Bridged(t, w0), known, c, e);
    }
  }

  lemma MirrorOne(t: Tools, byIdentity: map<Identity, string>, names: set<string>, hash: (Identity, nat) -> string,
                  w: seq<Event>, known: Items, c: Client, e: Event)
    requires Proper(t, byIdentity, names, hash) && PlainEvent(e)
    requires Mirrors(t, w, c) && Knows(t, known, c) && PlainSlots(c) && Step(c, e).Some?
    ensures Mirrors(t, w + Forwarded(t, known, e), Step(c, e).value)
    ensures Step(c, e).value.reply.None? ==>
              Knows(t, KnownAfter(t, known, e), Step(c, e).value) && PlainSlots(Step(c, e).value)
  {
    hide Knows, Mirrors, Image, Restore, PlainSlots;
    match e {
      case Created(_) => MirrorCreated(t, w, known, c, e);
      case ItemAdded(_, _) => MirrorAdded(t, w, known, c, e);
      case ArgumentsDelta(id, _, _) =>
        if CustomId(known, id) { MirrorHeldBack(t, w, known, c, e); } else { MirrorArguments(t, w, known, c, e); }
      case ArgumentsDone(id, _, _) =>
        if CustomId(known, id) { MirrorInput(t, w, known, c, e); } else { MirrorArguments(t, w, known, c, e); }
      case ItemDone(_, _) => MirrorDone(t, byIdentity, w, known, c, e);
      case Completed(_) => MirrorCompleted(t, byIdentity, names, hash, w, c, e);
      case _ => MirrorText(t, w, known, c, e);
    }
  }

  lemma MirrorCreated(t: Tools, w: seq<Event>, known: Items, c: Client, e: Event)
    requires Mirrors(t, w, c) && Knows(t, known, c) && PlainSlots(c)
    requires e.Created? && Step(c, e).Some?
    ensures Mirrors(t, w + Forwarded(t, known, e), Step(c, e).value)
    ensures Knows(t, known, Step(c, e).value) && PlainSlots(Step(c, e).value)
  {
    MirrorStep(t, w, c, e, Step(c, e).value);
  }

  /** A step keeps every announced item. */
  lemma StepKeepsItems(c: Client, e: Event)
    requires Step(c, e).Some?
    ensures |c.slots| <= |Step(c, e).value.slots|
    ensures forall i :: 0 <= i < |c.slots| ==> Step(c, e).value.slots[i].added == c.slots[i].added
  {
  }

  /** A stream that announced no custom call has no event about one. */
  lemma {:induction false} PlainStream(w: seq<Event>)
    requires Read(w).Some? && PlainSlots(Read(w).value)
    ensures forall e <- w :: PlainEvent(e)
  {
    if w != [] {
      var w0, e := w[..|w| - 1], w[|w| - 1];
      var c, c' := Read(w0).value, Read(w).value;
      StepKeepsItems(c, e);
      forall i | 0 <= i < |c.slots| ensures !c.slots[i].added.CustomCall? {
        assert c'.slots[i] in c'.slots;
      }
      PlainStream(w0);
      if e.ItemAdded? {
        assert c'.slots[|c.slots|] in c'.slots;
      }
      forall x | x in w ensures PlainEvent(x) {
        assert x in w0 || x == e;
      }
    }
  }

  class ResponsesToolWriter {
    const bridge: ResponsesToolBridge
    /** What the client was sent. */
    var written: seq<Event>

    constructor (bridge: ResponsesToolBridge)
      ensures this.bridge == bridge && written == []
    {
      this.bridge := bridge;
      written := [];
    }

    function Maps(): Tools
      reads bridge
    {
      Tools(bridge.byAlias, bridge.decode)
    }

    method Send(event: Event)
      modifies this, bridge`items
      ensures written == old(written) + Forwarded(Maps(), old(bridge.items), event)
      ensures bridge.items == KnownAfter(Maps(), old(bridge.items), event)
    {
      hide Restored, RestoreAll, RememberAll, Remembered;
      match event {
        case ItemAdded(index, item) =>
          var restored := bridge.RestoreItem(item);
          written := written + [ItemAdded(index, restored)];
        case ItemDone(index, item) =>
          var restored := bridge.RestoreItem(item);
          written := written + [ItemDone(index, restored)];
        case Completed(response) =>
          var once := RestoreOutput(response.output);
          var twice := RestoreOutput(once);
          written := written + [Completed(Response(response.model, response.incomplete, twice, response.usage))];
        case ArgumentsDelta(id, _, _) =>
          if !(id in bridge.items && bridge.items[id].custom) {
            written := written + [event];
          }
        case ArgumentsDone(id, index, arguments) =>
          if id in bridge.items && bridge.items[id].custom {
            var input := bridge.decode(arguments);
            written := written + [InputDelta(id, index, input), InputDone(id, index, input)];
          } else {
            written := written + [event];
          }
        case _ =>
          written := written + [event];
      }
    }

    method RestoreOutput(output: seq<Item>) returns (r: seq<Item>)
      modifies bridge`items
      ensures r == RestoreAll(Maps(), output)
      ensures bridge.items == RememberAll(Maps(), old(bridge.items), output)
    {
      r := [];
      for i := 0 to |output|
        invariant r == RestoreAll(Maps(), output)[..i]
        invariant bridge.items == RememberAll(Maps(), old(bridge.items), output[..i])
      {
        assert output[..i + 1][..i] == output[..i];
        var item := bridge.RestoreItem(output[i]);
        r := r + [item];
      }
      assert output[..|output|] == output;
    }
  }

  /** Passes a stream of events through the writer. */
  method SendAll(writer: ResponsesToolWriter, events: seq<Event>)
    requires writer.written == [] && writer.bridge.items == map[]
    modifies writer, writer.bridge`items
    ensures writer.written == Bridged(writer.Maps(), events)
    ensures writer.bridge.items == KnownItems(writer.Maps(), events)
  {
    for i := 0 to |events|
      invariant writer.written == Bridged(writer.Maps(), events[..i])
      invariant writer.bridge.items == KnownItems(writer.Maps(), events[..i])
    {
      assert events[..i + 1][..i] == events[..i];
      writer.Send(events[i]);
    }
    assert events[..|events|] == events;
  }

  /** Sends a well-formed stream about aliases to a client that declared the tools `ds`. */
  method SendBridged(ds: seq<ToolDecl>, hash: (Identity, nat) -> string, decode: string -> string, events: seq<Event>)
    returns (sent: seq<Event>, tools: Tools, byIdentity: map<Identity, string>)
    requires Salted(hash) && InputDecoder(decode)
    ensures Proper(tools, byIdentity, Names(ds), hash)
    ensures forall id :: id in Ids(Declared(ds, "")) <==> id in byIdentity
    ensures sent == Bridged(tools, events)
    ensures Read(events).Some? && PlainSlots(Read(events).value) ==>
              Read(sent) == Some(Image(tools, Read(events).value))
  {
    hide Read, Image, PlainSlots;
    var bridge := new ResponsesToolBridge(ds, hash, decode);
    var writer := new ResponsesToolWriter(bridge);
    SendAll(writer, events);
    tools, byIdentity := writer.Maps(), bridge.byIdentity;
    if Read(events).Some? && PlainSlots(Read(events).value) {
      PlainStream(events);
      BridgedReads(tools, byIdentity, Names(ds), hash, events);
    }
    sent := writer.written;
  }

  lemma AnswerPlain(ps: seq<Piece>, model: string, finish: string, usage: Usage)
    ensures PlainSlots(Answer(ps, model, finish, usage))
  {
  }

  /** Upstream chat chunks to a Responses client with bridged tools. */
  method BridgeChatChunksWithTools(model: string, chunks: seq<Chunk>, ds: seq<ToolDecl>,
                                   hash: (Identity, nat) -> string, decode: string -> string)
    returns (sent: seq<Event>, tools: Tools, byIdentity: map<Identity, string>)
    requires Salted(hash) && InputDecoder(decode)
    ensures Proper(tools, byIdentity, Names(ds), hash)
    ensures forall id :: id in Ids(Declared(ds, "")) <==> id in byIdentity
    ensures Quiet(chunks) ==> Read(sent) == Some(Image(tools, ReplyTo(model, chunks)))
  {
    hide Answer, Image, Read, Quiet;
    var events, _ := BridgeChatChunks(model, chunks);
    AnswerPlain(Pieces(Heard(chunks)), LastModel(model, Heard(chunks)), FinalFinish(chunks), LastUsage(Heard(chunks)));
    sent, tools, byIdentity := SendBridged(ds, hash, decode, events);
  }

  /** The image has the head and the tokens of the reply, and its items in their places: text and
      reasoning as they are, a call of a known alias under the name and the namespace of its
      tool, with its own payload, and any other call as it is. */
  lemma ImageKeeps(t: Tools, c: Client, j: nat)
    requires c.reply.Some? && j < |c.reply.value.output|
    ensures
      var r, given := Image(t, c).reply, c.reply.value.output[j];
      && r.Some? && r.value.model == c.reply.value.model && r.value.incomplete == c.reply.value.incomplete
      && r.value.usage == c.reply.value.usage && |r.value.output| == |c.reply.value.output|
      && var item := r.value.output[j];
         if !given.FunctionCall? || given.name !in t.byAlias then item == given
         else
           var tool := t.byAlias[given.name];
           && item.id == given.id && (item.FunctionCall? || item.CustomCall?) && item.callId == given.callId
           && item.name == tool.name && item.completed == given.completed
           && item.namespace == (if tool.namespace != "" then tool.namespace else given.namespace)
           && (tool.custom ==> item.CustomCall? && item.input == t.decode(given.arguments))
           && (!tool.custom ==> item.FunctionCall? && item.arguments == given.arguments)
  {
  }

  /** What the client has gathered about a finished custom call: one delta, holding the
      decoded arguments, which the closed item repeats. */
  lemma CustomCallImage(t: Tools, ps: seq<Piece>, model: string, finish: string, usage: Usage, j: nat)
    requires j < |Order(ps)| && Order(ps)[j].CallKey?
    requires AddedItem(ps, j).name in t.byAlias && t.byAlias[AddedItem(ps, j).name].custom
    ensures
      var c := Image(t, Answer(ps, model, finish, usage));
      var input := t.decode(Content(ps, Order(ps)[j]));
      && c.slots[j].deltas == 1 && c.slots[j].text == input
      && c.reply.value.output[j].CustomCall? && c.reply.value.output[j].input == input
      && c.reply.value.output[j].name == t.byAlias[AddedItem(ps, j).name].name
  {
    var c0 := Answer(ps, model, finish, usage);
    assert SlotImage(t, c0.slots[j]) == Image(t, c0).slots[j];
    assert c0.reply.value.output[j] == Filled(c0.slots[j]);
  }
}
