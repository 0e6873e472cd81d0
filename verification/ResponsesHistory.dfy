/** The history of a conversation from the items of a Responses request to chat messages and
    back to the items of a Codex request: parallel calls, one item each, become one assistant
    message, and one item each again. */
module ResponsesHistory {
  import opened Wrappers
  import C = Chat
  import opened Pivot
  import opened ResponsesItems
  import T = ResponsesTools

  type Aliases = map<T.Identity, string>

  // ---- Items to messages ----

  function ChatContent(content: Content): Content {
    match content
    case Null => Str("")
    case Str(s) => Str(s)
    case Parts(texts) => if NonEmpty(texts) == [] then Str("") else ContentOf(NonEmpty(texts))
  }

  /** The message of one item, its tool under its alias; `None` for items that have none. */
  function MessageOf(aliases: Aliases, item: Item): Option<Message> {
    match T.Incoming(aliases, item)
    case MessageItem(Speaker(role), content) => Some(Spoken(role, ChatContent(content), [], ""))
    case MessageItem(role, content) => Some(System(role.DeveloperRole?, ChatContent(content)))
    case FunctionCall(id, name, _, arguments) =>
      Some(Spoken(AssistantRole, Null, [Call(IdOf(id), C.Trunc(name, NAME_LIMIT), arguments)], ""))
    case CallOutput(_, id, output) => Some(Tool(id, Str(output)))
    case _ => None
  }

  predicate Calling(m: Message) {
    m.Spoken? && m.role.AssistantRole? && m.calls != []
  }

  /** A calling message joins a calling message right before it. */
  function AddMessage(ms: seq<Message>, m: Message): seq<Message> {
    var n := |ms| - 1;
    if Calling(m) && ms != [] && Calling(ms[n])
    then ms[..n] + [Spoken(AssistantRole, ms[n].content, ms[n].calls + m.calls, ms[n].reasoning)]
    else ms + [m]
  }

  function Messages(aliases: Aliases, start: seq<Message>, items: seq<Item>): seq<Message> {
    if items == [] then start
    else
      var ms, m := Messages(aliases, start, items[..|items| - 1]), MessageOf(aliases, items[|items| - 1]);
      if m.Some? then AddMessage(ms, m.value) else ms
  }

  function Opening(instructions: string): seq<Message> {
    if instructions != "" then [System(false, Str(instructions))] else []
  }

  /** The message of an item that has gone through the bridge. */
  method PivotMessage(bridge: T.ResponsesToolBridge, item: Item) returns (m: Option<Message>)
    ensures m == MessageOf(bridge.byIdentity, item)
  {
    var renamed := bridge.InputItem(item);
    match renamed {
      case MessageItem(Speaker(role), content) =>
        m := Some(Spoken(role, ChatContent(content), [], ""));
      case MessageItem(role, content) =>
        m := Some(System(role.DeveloperRole?, ChatContent(content)));
      case FunctionCall(id, name, _, arguments) =>
        m := Some(Spoken(AssistantRole, Null, [Call(IdOf(id), C.Trunc(name, NAME_LIMIT), arguments)], ""));
      case CallOutput(_, id, output) =>
        m := Some(Tool(id, Str(output)));
      case _ =>
        m := None;
    }
  }

  method ResponsesToPivot(bridge: T.ResponsesToolBridge, instructions: string, input: Input) returns (ms: seq<Message>)
    ensures ms == Messages(bridge.byIdentity, Opening(instructions), ItemsIn(input))
  {
    hide T.Incoming;
    ms := [];
    if instructions != "" {
      ms := [System(false, Str(instructions))];
    }
    match input {
      case TextInput(s) =>
        TextSays(bridge.byIdentity, ms, s);
        if s != "" {
          ms := ms + [Spoken(UserRole, Str(s), [], "")];
        }
      case ListInput(items) =>
        for i := 0 to |items|
          invariant ms == Messages(bridge.byIdentity, Opening(instructions), items[..i])
        {
          assert items[..i + 1][..i] == items[..i];
          var current := PivotMessage(bridge, items[i]);
          if current.None? {
            continue;
          }
          if current.value.Spoken? && current.value.calls != [] && ms != [] {
            var previous := ms[|ms| - 1];
            if previous.Spoken? && previous.role.AssistantRole? && previous.calls != [] {
              ms := ms[|ms| - 1 := Spoken(AssistantRole, previous.content, previous.calls + current.value.calls,
                                          previous.reasoning)];
              continue;
            }
          }
          ms := ms + [current.value];
        }
        assert items[..|items|] == items;
    }
  }

  lemma TextSays(aliases: Aliases, start: seq<Message>, s: string)
    ensures Messages(aliases, start, ItemsIn(TextInput(s))) ==
      if s != "" then start + [Spoken(UserRole, Str(s), [], "")] else start
  {
    if s != "" {
      assert ItemsIn(TextInput(s))[..0] == [];
    }
  }

  // ---- Messages to items ----

  function CallItem(call: Call): seq<Item> {
    var name := TrimSpace(call.name);
    if name != "" then [FunctionCall(IdOf(call.id), C.Trunc(name, NAME_LIMIT), "", call.arguments)] else []
  }

  function CallItems(calls: seq<Call>): seq<Item> {
    if calls == [] then [] else CallItems(calls[..|calls| - 1]) + CallItem(calls[|calls| - 1])
  }

  function ContentParts(content: Content): seq<string> {
    match content
    case Null => []
    case Str(s) => if s == "" then [] else [s]
    case Parts(texts) => texts
  }

  function ReasoningItems(text: string): seq<Item> {
    if TrimSpace(text) == "" then [] else [ReasoningItem(text)]
  }

  /** The items of one message; `listing` prints a list of parts. */
  function ItemsOf(m: Message, listing: seq<string> -> string): seq<Item> {
    match m
    case Spoken(role, content, calls, reasoning) =>
      (if role.AssistantRole? then ReasoningItems(reasoning) else [])
      + (if ContentParts(content) != [] then [MessageItem(Speaker(role), Parts(ContentParts(content)))] else [])
      + (if role.AssistantRole? then CallItems(calls) else [])
    case Tool(id, content) =>
      [CallOutput(false, IdOf(id), match content case Null => "" case Str(s) => s case Parts(texts) => listing(texts))]
    case _ => []
  }

  function ItemsOfAll(ms: seq<Message>, listing: seq<string> -> string): seq<Item> {
    if ms == [] then [] else ItemsOfAll(ms[..|ms| - 1], listing) + ItemsOf(ms[|ms| - 1], listing)
  }

  /** The text of the first system or developer message. */
  function Instructions(ms: seq<Message>): Option<string> {
    if ms == [] then None
    else if Instructions(ms[..|ms| - 1]).Some? then Instructions(ms[..|ms| - 1])
    else if ms[|ms| - 1].System? then Some(JoinText(ms[|ms| - 1].content)) else None
  }

  method AssistantCalls(calls: seq<Call>) returns (items: seq<Item>)
    ensures items == CallItems(calls)
  {
    hide TrimSpace, C.Trunc, IdOf;
    items := [];
    for i := 0 to |calls|
      invariant items == CallItems(calls[..i])
    {
      assert calls[..i + 1][..i] == calls[..i];
      var name := TrimSpace(calls[i].name);
      if name == "" {
        continue;
      }
      items := items + [FunctionCall(IdOf(calls[i].id), C.Trunc(name, NAME_LIMIT), "", calls[i].arguments)];
    }
    assert calls[..|calls|] == calls;
  }

  /** The items of a message by someone: reasoning, content, calls. */
  method SpokenItems(m: Message, listing: seq<string> -> string) returns (input: seq<Item>)
    requires m.Spoken?
    ensures input == ItemsOf(m, listing)
  {
    input := [];
    if m.role.AssistantRole? {
      input := input + ReasoningItems(m.reasoning);
    }
    var parts := ContentParts(m.content);
    if |parts| > 0 {
      input := input + [MessageItem(Speaker(m.role), Parts(parts))];
    }
    if m.role.AssistantRole? {
      var items := AssistantCalls(m.calls);
      input := input + items;
    }
  }

  method MessagesToInput(ms: seq<Message>, listing: seq<string> -> string)
    returns (instructions: string, input: seq<Item>)
    ensures input == ItemsOfAll(ms, listing)
    ensures instructions == if Instructions(ms).Some? then Instructions(ms).value else ""
  {
    hide JoinText, ContentParts, CallItems, ReasoningItems;
    instructions, input := "", [];
    var instructionsSeen := false;
    for i := 0 to |ms|
      invariant input == ItemsOfAll(ms[..i], listing)
      invariant Instructions(ms[..i]) == if instructionsSeen then Some(instructions) else None
      invariant !instructionsSeen ==> instructions == ""
    {
      assert ms[..i + 1][..i] == ms[..i];
      var items: seq<Item> := [];
      match ms[i] {
        case System(_, content) =>
          if !instructionsSeen {
            instructions, instructionsSeen := JoinText(content), true;
          }
        case Spoken(_, _, _, _) =>
          items := SpokenItems(ms[i], listing);
        case Tool(id, content) =>
          items := [CallOutput(false, IdOf(id),
                               match content case Null => "" case Str(s) => s case Parts(texts) => listing(texts))];
        case OtherRole =>
      }
      input := input + items;
    }
    assert ms[..|ms|] == ms;
  }

  // ---- There and back ----

  /** What is left of an item. */
  function Kept(aliases: Aliases, item: Item): seq<Item> {
    match T.Incoming(aliases, item)
    case MessageItem(Speaker(role), content) =>
      if TextsOf(content) == [] then [] else [MessageItem(Speaker(role), Parts(TextsOf(content)))]
    case FunctionCall(id, name, _, arguments) =>
      var cut := TrimSpace(C.Trunc(name, NAME_LIMIT));
      if cut == "" then [] else [FunctionCall(IdOf(IdOf(id)), C.Trunc(cut, NAME_LIMIT), "", arguments)]
    case CallOutput(_, id, output) => [CallOutput(false, IdOf(id), output)]
    case _ => []
  }

  function KeptAll(aliases: Aliases, items: seq<Item>): seq<Item> {
    if items == [] then [] else KeptAll(aliases, items[..|items| - 1]) + Kept(aliases, items[|items| - 1])
  }

  lemma ItemsSnoc(ms: seq<Message>, m: Message, listing: seq<string> -> string)
    ensures ItemsOfAll(ms + [m], listing) == ItemsOfAll(ms, listing) + ItemsOf(m, listing)
  {
    assert (ms + [m])[..|ms|] == ms;
  }

  lemma {:induction false} CallItemsConcat(a: seq<Call>, b: seq<Call>)
    ensures CallItems(a + b) == CallItems(a) + CallItems(b)
  {
    hide CallItem;
    if b == [] {
      assert a + b == a;
    } else {
      var n := |b| - 1;
      assert (a + b)[..|a| + n] == a + b[..n] && (a + b)[|a| + n] == b[n];
      CallItemsConcat(a, b[..n]);
      assert CallItems(a) + (CallItems(b[..n]) + CallItem(b[n])) == CallItems(a) + CallItems(b[..n]) + CallItem(b[n]);
    }
  }

  /** Joining two calling messages does not change their items. */
  lemma JoinedSays(previous: Message, m: Message, listing: seq<string> -> string)
    requires Calling(previous) && Calling(m) && m.content.Null? && m.reasoning == ""
    ensures
      var joined := Spoken(AssistantRole, previous.content, previous.calls + m.calls, previous.reasoning);
      ItemsOf(joined, listing) == ItemsOf(previous, listing) + ItemsOf(m, listing)
  {
    hide CallItems, ContentParts, ReasoningItems;
    CallItemsConcat(previous.calls, m.calls);
    assert ReasoningItems("") == [] by { NoReasoning(); }
    assert ContentParts(Null) == [] by { NoContent(); }
    assert ItemsOf(m, listing) == CallItems(m.calls);
  }

  lemma NoReasoning()
    ensures ReasoningItems("") == []
  {
  }

  lemma NoContent()
    ensures ContentParts(Null) == []
  {
  }

  lemma AddSays(ms: seq<Message>, m: Message, listing: seq<string> -> string)
    requires Calling(m) ==> m.content.Null? && m.reasoning == ""
    ensures ItemsOfAll(AddMessage(ms, m), listing) == ItemsOfAll(ms, listing) + ItemsOf(m, listing)
  {
    hide ItemsOf;
    var n := |ms| - 1;
    if Calling(m) && ms != [] && Calling(ms[n]) {
      JoinedSays(ms[n], m, listing);
      ItemsSnoc(ms[..n], Spoken(AssistantRole, ms[n].content, ms[n].calls + m.calls, ms[n].reasoning), listing);
      ItemsSnoc(ms[..n], ms[n], listing);
      assert ms == ms[..n] + [ms[n]];
    } else {
      ItemsSnoc(ms, m, listing);
    }
  }

  lemma MessageSays(aliases: Aliases, item: Item, listing: seq<string> -> string)
    ensures Kept(aliases, item) ==
      if MessageOf(aliases, item).Some? then ItemsOf(MessageOf(aliases, item).value, listing) else []
  {
    hide TrimSpace, NonEmpty, ReasoningItems, T.Incoming;
    NoReasoning();
    match T.Incoming(aliases, item) {
      case FunctionCall(id, name, _, arguments) =>
        var call := Call(IdOf(id), C.Trunc(name, NAME_LIMIT), arguments);
        assert [call][..0] == [];
        assert CallItems([call]) == CallItems([]) + Kept(aliases, item);
      case MessageItem(Speaker(role), Parts(texts)) =>
        assert TextsOf(Parts(texts)) == NonEmpty(texts);
        NotEmpty(texts);
        if NonEmpty(texts) != [] {
          assert NonEmpty(texts)[0] in NonEmpty(texts);
        }
        assert ContentParts(ChatContent(Parts(texts))) == NonEmpty(texts);
        assert CallItems([]) == [];
      case _ =>
    }
  }

  lemma NotEmpty(texts: seq<string>)
    ensures forall t <- NonEmpty(texts) :: t != ""
  {
    AllNonEmpty(texts);
  }

  lemma {:induction false} MessagesSay(aliases: Aliases, start: seq<Message>, items: seq<Item>,
                                       listing: seq<string> -> string)
    ensures ItemsOfAll(Messages(aliases, start, items), listing) == ItemsOfAll(start, listing) + KeptAll(aliases, items)
  {
    hide Kept, ItemsOf, AddMessage;
    if items == [] {
      assert ItemsOfAll(start, listing) + [] == ItemsOfAll(start, listing);
    } else {
      var init, item := items[..|items| - 1], items[|items| - 1];
      MessagesSay(aliases, start, init, listing);
      MessageSays(aliases, item, listing);
      if MessageOf(aliases, item).Some? {
        MessageBare(aliases, item);
        AddSays(Messages(aliases, start, init), MessageOf(aliases, item).value, listing);
      }
    }
  }

  lemma MessageBare(aliases: Aliases, item: Item)
    requires MessageOf(aliases, item).Some?
    ensures Calling(MessageOf(aliases, item).value) ==>
              MessageOf(aliases, item).value.content.Null? && MessageOf(aliases, item).value.reasoning == ""
  {
  }

  /** No calling message follows another. */
  ghost predicate Gathered(ms: seq<Message>) {
    forall i, j :: 0 <= i && j == i + 1 && j < |ms| ==> !(Calling(ms[i]) && Calling(ms[j]))
  }

  lemma AddGathers(ms: seq<Message>, m: Message)
    requires Gathered(ms)
    ensures Gathered(AddMessage(ms, m))
  {
    var added := AddMessage(ms, m);
    forall i, j | 0 <= i && j == i + 1 && j < |added| ensures !(Calling(added[i]) && Calling(added[j])) {
      assert j < |ms| ==> !(Calling(ms[i]) && Calling(ms[j]));
    }
  }

  /** Parallel calls share one message. */
  lemma {:induction false} CallsAreGathered(aliases: Aliases, start: seq<Message>, items: seq<Item>)
    requires forall m <- start :: !Calling(m)
    ensures Gathered(Messages(aliases, start, items))
  {
    if items == [] {
      assert forall i :: 0 <= i < |start| ==> start[i] in start;
    } else {
      var ms, m := Messages(aliases, start, items[..|items| - 1]), MessageOf(aliases, items[|items| - 1]);
      CallsAreGathered(aliases, start, items[..|items| - 1]);
      if m.Some? {
        AddGathers(ms, m.value);
      }
    }
  }

  // ---- What comes back unchanged ----

  /** A text message, an output of a function, or a call of a function without a namespace. */
  predicate NormalItem(item: Item) {
    match item
    case MessageItem(Speaker(_), Parts(texts)) => texts != [] && forall t <- texts :: t != ""
    case FunctionCall(id, name, ns, _) =>
      id != "" && ns == "" && name != "" && TrimSpace(name) == name && |name| <= NAME_LIMIT
    case CallOutput(custom, id, _) => !custom && id != ""
    case _ => false
  }

  lemma ItemExactly(aliases: Aliases, item: Item)
    requires T.PlainNames(aliases)
    ensures |Kept(aliases, item)| <= 1
    ensures Kept(aliases, item) == [item] <==> NormalItem(item)
  {
    match item {
      case MessageItem(Speaker(_), Parts(texts)) => AllNonEmpty(texts);
      case FunctionCall(_, name, ns, _) =>
        var cut := C.Trunc(T.AliasOf(aliases, T.Identity(name, ns, false)), NAME_LIMIT);
        TrimShortens(cut);
        TrimShortens(TrimLeft(cut));
      case _ =>
    }
  }

  /** What is kept is normal. */
  lemma KeptIsNormal(aliases: Aliases, item: Item)
    ensures forall i :: 0 <= i < |Kept(aliases, item)| ==> NormalItem(Kept(aliases, item)[i])
  {
    match T.Incoming(aliases, item) {
      case MessageItem(Speaker(_), content) =>
        if content.Parts? { AllNonEmpty(content.texts); }
      case FunctionCall(_, name, _, _) =>
        var cut := C.Trunc(name, NAME_LIMIT);
        TrimShortens(cut);
        TrimShortens(TrimLeft(cut));
        TrimExactly(cut);
        TrimExactly(TrimSpace(cut));
      case _ =>
    }
  }

  lemma {:induction false} AllExactly(aliases: Aliases, items: seq<Item>)
    requires T.PlainNames(aliases)
    ensures |KeptAll(aliases, items)| <= |items|
    ensures KeptAll(aliases, items) == items <==> forall i :: 0 <= i < |items| ==> NormalItem(items[i])
  {
    hide Kept, NormalItem;
    if items != [] {
      var init, item := items[..|items| - 1], items[|items| - 1];
      assert items == init + [item];
      AllExactly(aliases, init);
      ItemExactly(aliases, item);
      if KeptAll(aliases, items) == items {
        assert |Kept(aliases, item)| == 1;
        assert KeptAll(aliases, items)[..|KeptAll(aliases, init)|] == KeptAll(aliases, init);
        assert KeptAll(aliases, items)[|KeptAll(aliases, init)|] == Kept(aliases, item)[0];
      }
    }
  }

  /** Whatever the items, what comes back are the items that were kept, in order; it is the
      same items if and only if every one of them is normal. */
  lemma UnchangedExactly(aliases: Aliases, instructions: string, items: seq<Item>, listing: seq<string> -> string)
    requires T.PlainNames(aliases)
    ensures ItemsOfAll(Messages(aliases, Opening(instructions), items), listing) == KeptAll(aliases, items)
    ensures ItemsOfAll(Messages(aliases, Opening(instructions), items), listing) == items
            <==> forall i :: 0 <= i < |items| ==> NormalItem(items[i])
  {
    MessagesSay(aliases, Opening(instructions), items, listing);
    OpeningSays(instructions, listing);
    AllExactly(aliases, items);
    assert [] + KeptAll(aliases, items) == KeptAll(aliases, items);
  }

  lemma OpeningSays(instructions: string, listing: seq<string> -> string)
    ensures ItemsOfAll(Opening(instructions), listing) == []
  {
  }

  /** The text of the first system or developer item. */
  function FirstSystem(items: seq<Item>): Option<string> {
    if items == [] then None
    else
      var item := items[|items| - 1];
      if FirstSystem(items[..|items| - 1]).Some? then FirstSystem(items[..|items| - 1])
      else if item.MessageItem? && !item.role.Speaker? then Some(JoinText(ChatContent(item.content))) else None
  }

  /** The instructions survive if there are any; otherwise the first system or developer item
      takes their place. */
  lemma {:induction false} InstructionsSurvive(aliases: Aliases, instructions: string, items: seq<Item>)
    ensures instructions != "" ==> Instructions(Messages(aliases, Opening(instructions), items)) == Some(instructions)
    ensures instructions == "" ==> Instructions(Messages(aliases, Opening(instructions), items)) == FirstSystem(items)
    ensures
      instructions == "" && (forall i :: 0 <= i < |items| ==> items[i].MessageItem? ==> items[i].role.Speaker?) ==>
        Instructions(Messages(aliases, Opening(instructions), items)) == None
  {
    if items == [] {
      assert Opening(instructions) == [] || Opening(instructions)[..0] == [];
    } else {
      var init, item := items[..|items| - 1], items[|items| - 1];
      InstructionsSurvive(aliases, instructions, init);
      if MessageOf(aliases, item).Some? {
        var ms, m := Messages(aliases, Opening(instructions), init), MessageOf(aliases, item).value;
        InstructionsAdd(ms, m);
      }
    }
  }

  lemma InstructionsAdd(ms: seq<Message>, m: Message)
    ensures Instructions(AddMessage(ms, m)) ==
      if Instructions(ms).Some? then Instructions(ms) else if m.System? then Some(JoinText(m.content)) else None
  {
    assert (ms + [m])[..|ms|] == ms;
    if ms != [] && Calling(m) && Calling(ms[|ms| - 1]) {
      assert AddMessage(ms, m)[..|ms| - 1] == ms[..|ms| - 1];
    }
  }
}
