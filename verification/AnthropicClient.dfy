/** The Anthropic streaming protocol as its reader sees it: an automaton that reads a stream
    of events back into a list of content blocks and rejects every stream whose blocks are
    not properly bracketed, numbered from zero, and fed with deltas of their own kind. */
module AnthropicClient {
  import opened Wrappers
  import opened Chat

  datatype Block = TextBlock | ThinkingBlock | ToolUse(id: string, name: string)

  datatype DeltaKind = TextDelta | ThinkingDelta | InputJsonDelta

  datatype Event =
    | MessageStart(model: string, inputTokens: int)
    | BlockStart(index: int, block: Block)
    | BlockDelta(index: int, kind: DeltaKind, delta: string)
    | BlockStop(index: int)
    | MessageDelta(stopReason: string, usage: Usage)
    | MessageStop

  /** A content block with the concatenation of its deltas. */
  datatype Part = Part(block: Block, text: string)

  /** The head of the message. */
  datatype Head = Head(model: string, inputTokens: int)

  datatype Client =
    | Waiting
    | Reading(head: Head, parts: seq<Part>, open: bool)
    | Stopping(head: Head, parts: seq<Part>, stopReason: string, usage: Usage)
    | Stopped(head: Head, parts: seq<Part>, stopReason: string, usage: Usage)

  function KindOf(b: Block): DeltaKind {
    match b
    case TextBlock => TextDelta
    case ThinkingBlock => ThinkingDelta
    case ToolUse(_, _) => InputJsonDelta
  }

  /** The last block takes some more text. */
  function Extended(parts: seq<Part>, s: string): seq<Part>
    requires parts != []
  {
    var n := |parts| - 1;
    parts[..n] + [Part(parts[n].block, parts[n].text + s)]
  }

  function Step(c: Client, e: Event): Option<Client> {
    match c
    case Waiting => if e.MessageStart? then Some(Reading(Head(e.model, e.inputTokens), [], false)) else None
    case Reading(h, parts, false) =>
      (match e
       case BlockStart(index, block) =>
         if index == |parts| then Some(Reading(h, parts + [Part(block, "")], true)) else None
       case MessageDelta(stop, usage) => Some(Stopping(h, parts, stop, usage))
       case _ => None)
    case Reading(h, parts, true) =>
      (match e
       case BlockDelta(index, kind, delta) =>
         if index == |parts| - 1 && parts != [] && kind == KindOf(parts[index].block)
         then Some(Reading(h, Extended(parts, delta), true)) else None
       case BlockStop(index) => if index == |parts| - 1 then Some(Reading(h, parts, false)) else None
       case _ => None)
    case Stopping(h, parts, stop, usage) => if e.MessageStop? then Some(Stopped(h, parts, stop, usage)) else None
    case Stopped(_, _, _, _) => None
  }

  /** What a reader makes of a stream of events; `None` if the stream is not well formed. */
  function Read(events: seq<Event>): Option<Client> {
    if events == [] then Some(Waiting)
    else
      var c := Read(events[..|events| - 1]);
      if c.None? then None else Step(c.value, events[|events| - 1])
  }

  lemma ReadSnoc(events: seq<Event>, e: Event)
    ensures Read(events + [e]) == if Read(events).None? then None else Step(Read(events).value, e)
  {
    assert (events + [e])[..|events|] == events;
  }
}
