/** The Responses streaming protocol as its reader sees it: events, items, and the
    automaton that reads a stream of events back into a list of items. The automaton is
    the reference the emitters are proved against; it rejects every stream that is not
    well formed. */
module ResponsesClient {
  import opened Wrappers
  import opened Chat

  /** Item identifiers: "msg_", "rs_" and "fc_" followed by a number. */
  datatype ItemId = MsgId(n: int) | ReasonId(n: int) | CallId(n: int)

  datatype Item =
    | Message(id: ItemId, content: Option<string>)
    | Reasoning(id: ItemId, summary: Option<string>)
    | FunctionCall(id: ItemId, callId: string, name: string, namespace: string, arguments: string, completed: bool)
    | CustomCall(id: ItemId, callId: string, name: string, namespace: string, input: string, completed: bool)

  datatype Response = Response(model: string, incomplete: bool, output: seq<Item>, usage: Usage)

  datatype Event =
    | Created(model: string)
    | ItemAdded(index: int, item: Item)
    | PartAdded(id: ItemId, index: int)
    | TextDelta(id: ItemId, index: int, delta: string)
    | ReasoningDelta(id: ItemId, index: int, delta: string)
    | ArgumentsDelta(id: ItemId, index: int, delta: string)
    | ArgumentsDone(id: ItemId, index: int, arguments: string)
    | InputDelta(id: ItemId, index: int, delta: string)
    | InputDone(id: ItemId, index: int, input: string)
    | TextDone(id: ItemId, index: int, text: string)
    | PartDone(id: ItemId, index: int, text: string)
    | ItemDone(index: int, item: Item)
    | Completed(response: Response)

  /** How far an item has come. */
  datatype Stage = Opened | InPart | TextEnded | PartEnded | PayloadEnded | Closed

  /** An item as announced, the concatenation and number of its deltas so far, and its stage. */
  datatype Slot = Slot(added: Item, text: string, deltas: nat, stage: Stage)

  datatype Client = Client(created: bool, slots: seq<Slot>, reply: Option<Response>)

  const FRESH := Client(false, [], None)

  /** An announced item must be empty: all its content arrives through deltas. */
  predicate Empty(item: Item) {
    match item
    case Message(_, content) => content.None?
    case Reasoning(_, summary) => summary.None?
    case FunctionCall(_, _, _, _, arguments, completed) => arguments == "" && !completed
    case CustomCall(_, _, _, _, input, completed) => input == "" && !completed
  }

  /** The announced item carrying everything its deltas said. */
  function Filled(s: Slot): Item {
    match s.added
    case Message(id, _) => Message(id, Some(s.text))
    case Reasoning(id, _) => Reasoning(id, Some(s.text))
    case FunctionCall(id, c, n, ns, _, _) => FunctionCall(id, c, n, ns, s.text, true)
    case CustomCall(id, c, n, ns, _, _) => CustomCall(id, c, n, ns, s.text, true)
  }

  /** The last stage before an item of this kind may be closed. */
  function LastStage(item: Item): Stage {
    match item
    case Message(_, _) => PartEnded
    case Reasoning(_, _) => Opened
    case FunctionCall(_, _, _, _, _, _) => PayloadEnded
    case CustomCall(_, _, _, _, _, _) => PayloadEnded
  }

  /** The slot an event may speak about: it exists and has the announced identifier and stage. */
  predicate At(c: Client, index: int, id: ItemId, stage: Stage) {
    0 <= index < |c.slots| && c.slots[index].added.id == id && c.slots[index].stage == stage
  }

  function Appended(c: Client, index: int, delta: string): Client
    requires 0 <= index < |c.slots|
  {
    var s := c.slots[index];
    c.(slots := c.slots[index := s.(text := s.text + delta, deltas := s.deltas + 1)])
  }

  function Moved(c: Client, index: int, stage: Stage): Client
    requires 0 <= index < |c.slots|
  {
    c.(slots := c.slots[index := c.slots[index].(stage := stage)])
  }

  function Step(c: Client, e: Event): Option<Client> {
    if c.reply.Some? then None
    else if !c.created then
      if e.Created? then Some(c.(created := true)) else None
    else match e
      case Created(_) => None
      case ItemAdded(index, item) =>
        if index == |c.slots| && Empty(item) && (forall s <- c.slots :: s.added.id != item.id)
        then Some(c.(slots := c.slots + [Slot(item, "", 0, Opened)])) else None
      case PartAdded(id, index) =>
        if At(c, index, id, Opened) && c.slots[index].added.Message? then Some(Moved(c, index, InPart)) else None
      case TextDelta(id, index, delta) =>
        if At(c, index, id, InPart) && c.slots[index].added.Message? then Some(Appended(c, index, delta)) else None
      case ReasoningDelta(id, index, delta) =>
        if At(c, index, id, Opened) && c.slots[index].added.Reasoning? then Some(Appended(c, index, delta)) else None
      case ArgumentsDelta(id, index, delta) =>
        if At(c, index, id, Opened) && c.slots[index].added.FunctionCall? then Some(Appended(c, index, delta)) else None
      case InputDelta(id, index, delta) =>
        if At(c, index, id, Opened) && c.slots[index].added.CustomCall? then Some(Appended(c, index, delta)) else None
      case TextDone(id, index, text) =>
        if At(c, index, id, InPart) && c.slots[index].added.Message? && c.slots[index].text == text
        then Some(Moved(c, index, TextEnded))
        else None
      case PartDone(id, index, text) =>
        if At(c, index, id, TextEnded) && c.slots[index].added.Message? && c.slots[index].text == text
        then Some(Moved(c, index, PartEnded))
        else None
      case ArgumentsDone(id, index, arguments) =>
        if At(c, index, id, Opened) && c.slots[index].added.FunctionCall? && c.slots[index].text == arguments
        then Some(Moved(c, index, PayloadEnded)) else None
      case InputDone(id, index, input) =>
        if At(c, index, id, Opened) && c.slots[index].added.CustomCall? && c.slots[index].text == input
        then Some(Moved(c, index, PayloadEnded)) else None
      case ItemDone(index, item) =>
        if 0 <= index < |c.slots|
           && c.slots[index].stage == LastStage(c.slots[index].added) && item == Filled(c.slots[index])
        then Some(Moved(c, index, Closed)) else None
      case Completed(response) =>
        if (forall s <- c.slots :: s.stage == Closed) && response.output == Outputs(c.slots)
        then Some(c.(reply := Some(response))) else None
  }

  /** The items a list of slots amounts to. */
  function Outputs(slots: seq<Slot>): (r: seq<Item>)
    ensures |r| == |slots|
    ensures forall i :: 0 <= i < |r| ==> r[i] == Filled(slots[i])
  {
    seq(|slots|, i requires 0 <= i < |slots| => Filled(slots[i]))
  }

  /** What a reader makes of a stream of events; `None` if the stream is not well formed. */
  function Read(events: seq<Event>): Option<Client> {
    if events == [] then Some(FRESH)
    else
      var c := Read(events[..|events| - 1]);
      if c.None? then None else Step(c.value, events[|events| - 1])
  }

  lemma ReadSnoc(events: seq<Event>, e: Event)
    ensures Read(events + [e]) == if Read(events).None? then None else Step(Read(events).value, e)
  {
    assert (events + [e])[..|events|] == events;
  }
}
