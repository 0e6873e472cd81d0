/** A Codex request built from a chat request: the items of the history on their way through
    the normal form, and the instructions beside them. A Responses request comes this way only
    without its original body, which is sent straight through the normal form otherwise. */
module CodexHistory {
  import opened Wrappers
  import opened Json
  import P = Pivot
  import I = ResponsesItems
  import T = ResponsesTools
  import H = ResponsesHistory
  import N = CodexNormalize

  // ---- Items as JSON ----

  function RoleName(role: I.ItemRole): string {
    match role
    case Speaker(UserRole) => "user"
    case Speaker(AssistantRole) => "assistant"
    case SystemRole => "system"
    case DeveloperRole => "developer"
  }

  function TextPart(assistant: bool, text: string): Value {
    Object([Member("type", String(if assistant then "output_text" else "input_text")), Member("text", String(text))])
  }

  function TextParts(assistant: bool, texts: seq<string>): (r: seq<Value>)
    ensures |r| == |texts| && forall i :: 0 <= i < |r| ==> r[i] == TextPart(assistant, texts[i])
  {
    seq(|texts|, i requires 0 <= i < |texts| => TextPart(assistant, texts[i]))
  }

  /** An item as it stands in the request. */
  function ValueOf(item: I.Item): Value {
    match item
    case MessageItem(role, content) =>
      Object([Member("type", String("message")), Member("role", String(RoleName(role))),
              Member("content", Array(TextParts(role == I.Speaker(P.AssistantRole), H.ContentParts(content))))])
    case FunctionCall(id, name, _, arguments) =>
      Object([Member("type", String("function_call")), Member("call_id", String(id)), Member("name", String(name)),
              Member("arguments", String(arguments))])
    case CallOutput(_, id, output) =>
      Object([Member("type", String("function_call_output")), Member("call_id", String(id)),
              Member("output", String(output))])
    case ReasoningItem(text) =>
      Object([Member("type", String("reasoning")),
              Member("summary",
                     Array([Object([Member("type", String("summary_text")), Member("text", String(text))])]))])
    case _ => Null
  }

  function Values(items: seq<I.Item>): (r: seq<Value>)
    ensures |r| == |items| && forall i :: 0 <= i < |r| ==> r[i] == ValueOf(items[i])
  {
    seq(|items|, i requires 0 <= i < |items| => ValueOf(items[i]))
  }

  // ---- What is sent of an item ----

  /** Call identifiers are cut, and arguments are made a JSON object. */
  function SentItem(item: I.Item, w: N.World): I.Item {
    match item
    case FunctionCall(id, name, ns, arguments) =>
      I.FunctionCall(N.CallId(String(id), w), name, ns, N.Arguments(String(arguments), w))
    case CallOutput(custom, id, output) => I.CallOutput(custom, N.CallId(String(id), w), output)
    case _ => item
  }

  function SentItems(items: seq<I.Item>, w: N.World): (r: seq<I.Item>)
    ensures |r| == |items| && forall i :: 0 <= i < |r| ==> r[i] == SentItem(items[i], w)
  {
    seq(|items|, i requires 0 <= i < |items| => SentItem(items[i], w))
  }

  const PLACEHOLDER := I.MessageItem(I.Speaker(P.UserRole), P.Parts(["..."]))

  /** The history as it is sent: never empty. */
  function Sent(items: seq<I.Item>, w: N.World): seq<I.Item> {
    if items == [] then [PLACEHOLDER] else SentItems(items, w)
  }

  /** The items that chat messages become. */
  predicate Converted(item: I.Item) {
    match item
    case MessageItem(role, content) => role.Speaker? && content.Parts?
    case FunctionCall(_, _, ns, _) => ns == ""
    case CallOutput(custom, _, _) => !custom
    case ReasoningItem(_) => true
    case _ => false
  }

  lemma CallFields(id: string, name: string, arguments: string, key: string)
    ensures Lookup(ValueOf(I.FunctionCall(id, name, "", arguments)).members, key) ==
      if key == "type" then String("function_call") else if key == "call_id" then String(id)
      else if key == "name" then String(name) else if key == "arguments" then String(arguments) else Null
  {
    var t, i := Member("type", String("function_call")), Member("call_id", String(id));
    var n, a := Member("name", String(name)), Member("arguments", String(arguments));
    LookupCons(a, [], key);
    LookupCons(n, [a], key);
    LookupCons(i, [n, a], key);
    LookupCons(t, [i, n, a], key);
    assert [a] + [] == [a] && [n] + [a] == [n, a] && [i] + [n, a] == [i, n, a] && [t] + [i, n, a] == [t, i, n, a];
  }

  lemma OutputFields(id: string, output: string, key: string)
    ensures Lookup(ValueOf(I.CallOutput(false, id, output)).members, key) ==
      if key == "type" then String("function_call_output") else if key == "call_id" then String(id)
      else if key == "output" then String(output) else Null
  {
    var t := Member("type", String("function_call_output"));
    var i := Member("call_id", String(id));
    var o := Member("output", String(output));
    LookupCons(o, [], key);
    LookupCons(i, [o], key);
    LookupCons(t, [i, o], key);
    assert [o] + [] == [o] && [i] + [o] == [i, o] && [t] + [i, o] == [t, i, o];
  }

  lemma MessageFields(role: I.ItemRole, content: P.Content, key: string)
    ensures Lookup(ValueOf(I.MessageItem(role, content)).members, key) ==
      if key == "type" then String("message") else if key == "role" then String(RoleName(role))
      else if key == "content" then Array(TextParts(role == I.Speaker(P.AssistantRole), H.ContentParts(content)))
      else Null
  {
    var c := Member("content", Array(TextParts(role == I.Speaker(P.AssistantRole), H.ContentParts(content))));
    var t, r := Member("type", String("message")), Member("role", String(RoleName(role)));
    LookupCons(c, [], key);
    LookupCons(r, [c], key);
    LookupCons(t, [r, c], key);
    assert [c] + [] == [c] && [r] + [c] == [r, c] && [t] + [r, c] == [t, r, c];
  }

  lemma ReasoningFields(text: string, key: string)
    requires key != "summary"
    ensures Lookup(ValueOf(I.ReasoningItem(text)).members, key) == if key == "type" then String("reasoning") else Null
  {
    var ms := ValueOf(I.ReasoningItem(text)).members;
    LookupCons(ms[1], [], key);
    LookupCons(ms[0], [ms[1]], key);
    assert [ms[1]] + [] == [ms[1]] && [ms[0]] + [ms[1]] == ms;
  }

  /** The parts of a message: output of the assistant, input of anybody else. */
  lemma PartFields(role: I.ItemRole, content: P.Content, k: nat)
    requires k < |H.ContentParts(content)|
    ensures
      var kind := if role == I.Speaker(P.AssistantRole) then "output_text" else "input_text";
      var parts := Lookup(ValueOf(I.MessageItem(role, content)).members, "content");
      && parts.Array? && |parts.items| == |H.ContentParts(content)| && parts.items[k].Object?
      && Lookup(parts.items[k].members, "type") == String(kind)
      && Lookup(parts.items[k].members, "text") == String(H.ContentParts(content)[k])
  {
    hide Lookup, H.ContentParts;
    var part := TextPart(role == I.Speaker(P.AssistantRole), H.ContentParts(content)[k]).members;
    assert "type"[1] == 'y' && "text"[1] == 'e';
    MessageFields(role, content, "content");
    LookupCons(part[1], [], "type");
    LookupCons(part[0], [part[1]], "type");
    LookupCons(part[1], [], "text");
    LookupCons(part[0], [part[1]], "text");
    assert [part[1]] + [] == [part[1]] && [part[0]] + [part[1]] == part;
  }

  /** Items without an identifier and without the system role keep their head. */
  lemma HeadStays(ms: seq<Member>)
    requires Lookup(ms, "id") == Null && Lookup(ms, "role") != String("system")
    ensures N.Unidentified(N.Roled(ms)) == ms
  {
    assert !N.ServerId("");
  }

  lemma CallIsSent(id: string, name: string, arguments: string, w: N.World)
    ensures N.NormalItem(ValueOf(I.FunctionCall(id, name, "", arguments)), w) ==
      Some(ValueOf(SentItem(I.FunctionCall(id, name, "", arguments), w)))
  {
    hide Lookup, N.CallId, N.Arguments;
    var ms := ValueOf(I.FunctionCall(id, name, "", arguments)).members;
    var id', arguments' := String(N.CallId(String(id), w)), String(N.Arguments(String(arguments), w));
    assert "type"[0] == 't' && "role"[0] == 'r' && "name"[0] == 'n' && "function_call" != "item_reference";
    CallFields(id, name, arguments, "type");
    CallFields(id, name, arguments, "role");
    CallFields(id, name, arguments, "id");
    CallFields(id, name, arguments, "call_id");
    CallFields(id, name, arguments, "arguments");
    HeadStays(ms);
    PutCall(ms, id', arguments');
  }

  lemma PutCall(ms: seq<Member>, id: Value, arguments: Value)
    requires |ms| == 4 && ms[0].key == "type" && ms[1].key == "call_id" && ms[2].key == "name"
    requires ms[3].key == "arguments"
    ensures Put(Put(ms, "call_id", id), "arguments", arguments) ==
      [ms[0], Member("call_id", id), ms[2], Member("arguments", arguments)]
  {
    assert "type"[0] == 't' && "name"[0] == 'n';
    var rest := ms[1..];
    assert Put(rest, "call_id", id) == [Member("call_id", id), ms[2], ms[3]];
    var placed := [ms[0], Member("call_id", id), ms[2], ms[3]];
    assert Put(ms, "call_id", id) == placed;
    assert placed[1..][1..][1..] == [ms[3]];
    assert Put(placed[1..][1..][1..], "arguments", arguments) == [Member("arguments", arguments)];
    assert Put(placed[1..][1..], "arguments", arguments) == [ms[2], Member("arguments", arguments)];
    assert Put(placed[1..], "arguments", arguments) == [Member("call_id", id), ms[2], Member("arguments", arguments)];
  }

  lemma OutputIsSent(id: string, output: string, w: N.World)
    ensures N.NormalItem(ValueOf(I.CallOutput(false, id, output)), w) ==
      Some(ValueOf(SentItem(I.CallOutput(false, id, output), w)))
  {
    hide Lookup, N.CallId;
    var ms := ValueOf(I.CallOutput(false, id, output)).members;
    assert "type"[0] == 't' && "role"[0] == 'r';
    OutputFields(id, output, "type");
    OutputFields(id, output, "role");
    OutputFields(id, output, "id");
    OutputFields(id, output, "call_id");
    HeadStays(ms);
    PutOutput(ms, String(N.CallId(String(id), w)), output);
  }

  lemma PutOutput(ms: seq<Member>, id: Value, output: string)
    requires |ms| == 3 && ms[0].key == "type" && ms[1].key == "call_id" && ms[2] == Member("output", String(output))
    ensures Put(Put(ms, "call_id", id), "output", String(output)) == [ms[0], Member("call_id", id), ms[2]]
    ensures Lookup(ms, "output") == String(output)
  {
    assert "type"[0] == 't';
    var placed := [ms[0], Member("call_id", id), ms[2]];
    LookupSkips(ms, "output");
    LookupSkips(ms[1..], "output");
    assert Put(ms[1..], "call_id", id) == [Member("call_id", id), ms[2]];
    assert Put(ms, "call_id", id) == placed;
    assert placed[1..][1..] == [ms[2]];
    assert Put(placed[1..][1..], "output", String(output)) == [ms[2]];
    assert Put(placed[1..], "output", String(output)) == [Member("call_id", id), ms[2]];
    assert ms[1..][1..] == [ms[2]];
  }

  lemma LookupSkips(ms: seq<Member>, key: string)
    requires ms != [] && ms[0].key != key
    ensures Lookup(ms, key) == Lookup(ms[1..], key)
  {
  }

  /** The normal form of an item is what is sent of it. */
  lemma ItemIsSent(item: I.Item, w: N.World)
    requires Converted(item)
    ensures N.NormalItem(ValueOf(item), w) == Some(ValueOf(SentItem(item, w)))
  {
    hide Lookup, N.Filled, N.Roled, N.Unidentified;
    match item {
      case FunctionCall(id, name, _, arguments) => CallIsSent(id, name, arguments, w);
      case CallOutput(_, id, output) => OutputIsSent(id, output, w);
      case MessageItem(role, content) => MessageIsSent(item, w);
      case ReasoningItem(text) => ReasoningIsSent(text, w);
    }
  }

  lemma MessageIsSent(item: I.Item, w: N.World)
    requires item.MessageItem? && Converted(item)
    ensures N.NormalItem(ValueOf(item), w) == Some(ValueOf(item))
  {
    hide Lookup;
    var ms := ValueOf(item).members;
    assert "type"[0] == 't' && "role"[0] == 'r' && "user"[0] == 'u' && "system"[0] == 's' && "message"[0] == 'm';
    MessageFields(item.role, item.content, "type");
    MessageFields(item.role, item.content, "role");
    MessageFields(item.role, item.content, "id");
    HeadStays(ms);
  }

  lemma ReasoningIsSent(text: string, w: N.World)
    ensures N.NormalItem(ValueOf(I.ReasoningItem(text)), w) == Some(ValueOf(I.ReasoningItem(text)))
  {
    hide Lookup;
    var ms := ValueOf(I.ReasoningItem(text)).members;
    ReasoningFields(text, "type");
    ReasoningFields(text, "role");
    ReasoningFields(text, "id");
    HeadStays(ms);
  }

  lemma {:induction false} ItemsAreSent(items: seq<I.Item>, w: N.World)
    requires forall i :: 0 <= i < |items| ==> Converted(items[i])
    ensures N.NormalItems(Values(items), w) == Values(SentItems(items, w))
  {
    hide N.NormalItem, ValueOf, SentItem, Converted;
    if items != [] {
      var n := |items| - 1;
      ItemsAreSent(items[..n], w);
      ItemIsSent(items[n], w);
      assert Values(items)[..n] == Values(items[..n]);
      assert Values(SentItems(items, w)) == Values(SentItems(items[..n], w)) + [ValueOf(SentItem(items[n], w))];
    }
  }

  lemma PlaceholderIsSent()
    ensures Values([PLACEHOLDER]) == [N.TextInput("...")]
  {
    assert TextParts(false, ["..."]) == [TextPart(false, "...")];
    assert ValueOf(PLACEHOLDER).members == N.TextInput("...").members;
  }

  /** The input field of the normal form holds the history as it is sent. */
  lemma InputIsSent(items: seq<I.Item>, w: N.World)
    requires forall i :: 0 <= i < |items| ==> Converted(items[i])
    ensures N.NormalInput(Array(Values(items)), w) == Values(Sent(items, w))
  {
    hide N.NormalItems, N.TextInput, ValueOf;
    ItemsAreSent(items, w);
    PlaceholderIsSent();
  }

  // ---- Messages become such items ----

  lemma {:induction false} CallsConvert(calls: seq<P.Call>)
    ensures forall i :: 0 <= i < |H.CallItems(calls)| ==> Converted(H.CallItems(calls)[i])
  {
    hide P.TrimSpace;
    if calls != [] {
      CallsConvert(calls[..|calls| - 1]);
    }
  }

  lemma MessageConverts(m: P.Message, listing: seq<string> -> string)
    ensures forall i :: 0 <= i < |H.ItemsOf(m, listing)| ==> Converted(H.ItemsOf(m, listing)[i])
  {
    hide H.CallItems, P.TrimSpace;
    if m.Spoken? {
      CallsConvert(m.calls);
    }
  }

  lemma {:induction false} MessagesConvert(ms: seq<P.Message>, listing: seq<string> -> string)
    ensures forall i :: 0 <= i < |H.ItemsOfAll(ms, listing)| ==> Converted(H.ItemsOfAll(ms, listing)[i])
  {
    hide H.ItemsOf, Converted;
    if ms != [] {
      MessagesConvert(ms[..|ms| - 1], listing);
      MessageConverts(ms[|ms| - 1], listing);
    }
  }

  // ---- The request ----

  function OwnInstructions(ms: seq<P.Message>): string {
    if H.Instructions(ms).Some? then H.Instructions(ms).value else ""
  }

  /** The instructions as they are sent: never blank. */
  function SentInstructions(ms: seq<P.Message>, w: N.World): string {
    if P.TrimSpace(OwnInstructions(ms)) == "" then w.instructions else OwnInstructions(ms)
  }

  /** The request before it is brought into normal form. */
  function Asked(ms: seq<P.Message>, rest: N.Body, listing: seq<string> -> string): N.Body {
    rest["input" := Array(Values(H.ItemsOfAll(ms, listing)))]["instructions" := String(OwnInstructions(ms))]
  }

  /** The request for a list of messages; `rest` are its other fields, already converted. */
  method BuildCodexRequest(ms: seq<P.Message>, rest: N.Body, listing: seq<string> -> string, w: N.World)
    returns (body: N.Body)
    ensures N.At(body, "input") == Array(Values(Sent(H.ItemsOfAll(ms, listing), w)))
    ensures N.At(body, "instructions") == String(SentInstructions(ms, w))
    ensures body == N.Normal(Asked(ms, rest, listing), w)
  {
    hide N.Normal, N.NormalInput, H.ItemsOfAll, H.Instructions, Sent;
    var instructions, input := H.MessagesToInput(ms, listing);
    var asked := rest["input" := Array(Values(input))]["instructions" := String(instructions)];
    assert asked == Asked(ms, rest, listing);
    body := N.NormalizeCodexRequest(asked, w);
    MessagesConvert(ms, listing);
    InputIsSent(input, w);
    N.AtNormal(asked, "input", w);
    N.AtNormal(asked, "instructions", w);
  }

  // ---- What comes back unchanged ----

  /** A text that is a JSON object, without spaces around it. */
  predicate ObjectText(s: string, w: N.World) {
    P.Trimmed(s) && var v := w.codec.parse(s); v.Some? && v.value.Object?
  }

  /** An item that is sent as it came: normal, with a call identifier of the right length and
      arguments that are a JSON object. */
  predicate Plain(item: I.Item, w: N.World) {
    H.NormalItem(item) && match item
      case FunctionCall(id, _, _, arguments) => |id| <= N.CALL_LIMIT && ObjectText(arguments, w)
      case CallOutput(_, id, _) => |id| <= N.CALL_LIMIT
      case _ => true
  }

  lemma ArgumentsExactly(s: string, w: N.World)
    requires Faithful(w.codec)
    ensures N.Arguments(String(s), w) == s <==> ObjectText(s, w)
  {
    P.TrimExactly(s);
    P.TrimExactly("{}");
    assert w.codec.parse(w.codec.marshal(EMPTY_OBJECT)) == Some(EMPTY_OBJECT);
  }

  lemma SentExactly(item: I.Item, w: N.World)
    requires N.Sane(w) && H.NormalItem(item)
    ensures SentItem(item, w) == item <==> Plain(item, w)
  {
    hide N.Arguments, ObjectText;
    if item.FunctionCall? {
      N.SaneCodec(w);
      ArgumentsExactly(item.arguments, w);
    }
  }

  /** Cutting identifiers and replacing arguments makes no item normal that was not. */
  lemma KeptSentExactly(aliases: H.Aliases, item: I.Item, w: N.World)
    requires N.Sane(w) && T.PlainNames(aliases)
    ensures |H.Kept(aliases, item)| <= 1
    ensures SentItems(H.Kept(aliases, item), w) == [item] <==> Plain(item, w)
  {
    hide N.Arguments, ObjectText, H.Kept, N.Sane;
    H.ItemExactly(aliases, item);
    if H.NormalItem(item) {
      SentExactly(item, w);
      assert SentItems([item], w)[0] == SentItem(item, w);
      assert SentItem(item, w) == item ==> SentItems([item], w) == [item];
    } else if SentItems(H.Kept(aliases, item), w) == [item] {
      assert SentItems(H.Kept(aliases, item), w)[0] == item;
      KeptThenSent(aliases, item, item, w);
      assert false;
    }
  }

  lemma KeptThenSent(aliases: H.Aliases, from: I.Item, item: I.Item, w: N.World)
    requires N.Sane(w) && H.Kept(aliases, from) != [] && SentItem(H.Kept(aliases, from)[0], w) == item
    ensures H.NormalItem(item)
  {
    hide N.Arguments, P.TrimSpace;
    H.KeptIsNormal(aliases, from);
  }

  lemma {:induction false} KeptAllSentExactly(aliases: H.Aliases, items: seq<I.Item>, w: N.World)
    requires N.Sane(w) && T.PlainNames(aliases)
    ensures |H.KeptAll(aliases, items)| <= |items|
    ensures SentItems(H.KeptAll(aliases, items), w) == items <==> forall i :: 0 <= i < |items| ==> Plain(items[i], w)
  {
    hide H.Kept, SentItem, Plain, N.Sane;
    if items != [] {
      var init, item := items[..|items| - 1], items[|items| - 1];
      var kept, last := H.KeptAll(aliases, init), H.Kept(aliases, item);
      assert items == init + [item];
      KeptAllSentExactly(aliases, init, w);
      KeptSentExactly(aliases, item, w);
      var sent := SentItems(H.KeptAll(aliases, items), w);
      assert sent == SentItems(kept, w) + SentItems(last, w);
      if sent == items {
        assert |kept| == |init| && |last| == 1;
        assert sent[..|init|] == SentItems(kept, w) && sent[|init|..] == SentItems(last, w);
        assert items[|init|..] == [item];
      }
    } else {
      assert SentItems(H.KeptAll(aliases, items), w) == items;
    }
  }

  lemma PlaceholderIsKept(aliases: H.Aliases)
    requires T.PlainNames(aliases)
    ensures H.KeptAll(aliases, [PLACEHOLDER]) != []
  {
    assert [PLACEHOLDER][..0] == [];
    H.ItemExactly(aliases, PLACEHOLDER);
  }

  /** A Responses request that goes to a Codex upstream by way of chat messages: what is sent
      of its history are the items that are kept, with their identifiers cut and their
      arguments made objects, or a placeholder. It is the same history if and only if there is
      one and every item of it is plain. */
  lemma HistorySurvivesExactly(aliases: H.Aliases, instructions: string, items: seq<I.Item>,
                               listing: seq<string> -> string, w: N.World)
    requires N.Sane(w) && T.PlainNames(aliases)
    ensures
      var sent := Sent(H.ItemsOfAll(H.Messages(aliases, H.Opening(instructions), items), listing), w);
      && sent == Sent(H.KeptAll(aliases, items), w) && sent != []
      && (sent == items <==> items != [] && forall i :: 0 <= i < |items| ==> Plain(items[i], w))
  {
    hide N.Sane, H.KeptAll, SentItem, Plain, H.ItemsOfAll, H.Messages;
    H.UnchangedExactly(aliases, instructions, items, listing);
    KeptAllSentExactly(aliases, items, w);
    PlaceholderIsKept(aliases);
    assert SentItems([], w) == [];
  }

  /** Arguments that are a JSON array become the empty object, and a namespace is dropped. */
  lemma ArgumentsAndNamespacesAreLost(listing: seq<string> -> string, w: N.World)
    requires N.Sane(w) && w.codec.parse("[1]").Some? && w.codec.parse("[1]").value.Array?
    ensures
      var listed, spaced := [I.FunctionCall("c", "f", "", "[1]")], [I.FunctionCall("c", "f", "n", "{}")];
      && Sent(H.ItemsOfAll(H.Messages(map[], [], listed), listing), w) == [I.FunctionCall("c", "f", "", "{}")]
      && Sent(H.ItemsOfAll(H.Messages(map[], [], spaced), listing), w) == [I.FunctionCall("c", "f", "", "{}")]
  {
    hide H.ItemsOfAll, H.Messages, H.KeptAll, SentItem, N.Sane, N.Arguments;
    var listed, spaced := I.FunctionCall("c", "f", "", "[1]"), I.FunctionCall("c", "f", "n", "{}");
    assert H.Opening("") == [];
    HistorySurvivesExactly(map[], "", [listed], listing, w);
    HistorySurvivesExactly(map[], "", [spaced], listing, w);
    OneIsKept(listed, w);
    OneIsKept(spaced, w);
    assert N.Arguments(String("[1]"), w) == "{}" by { ListIsNoObject(w); }
    assert N.Arguments(String("{}"), w) == "{}" by { EmptyStays(w); }
  }

  lemma OneIsKept(item: I.Item, w: N.World)
    requires item.FunctionCall? && item.callId == "c" && item.name == "f"
    ensures H.KeptAll(map[], [item]) == [I.FunctionCall("c", "f", "", item.arguments)]
    ensures SentItems(H.KeptAll(map[], [item]), w) ==
      [I.FunctionCall("c", "f", "", N.Arguments(String(item.arguments), w))]
  {
    hide N.Arguments, P.TrimSpace;
    assert [item][..0] == [];
    P.TrimExactly("f");
    assert "f"[0] == 'f';
  }

  lemma ListIsNoObject(w: N.World)
    requires w.codec.parse("[1]").Some? && w.codec.parse("[1]").value.Array?
    ensures N.Arguments(String("[1]"), w) == "{}"
  {
    hide P.TrimSpace;
    P.TrimExactly("[1]");
    assert "[1]"[0] == '[' && "[1]"[2] == ']';
  }

  lemma EmptyStays(w: N.World)
    requires N.Sane(w)
    ensures N.Arguments(String("{}"), w) == "{}"
  {
    hide P.TrimSpace;
    N.SaneCodec(w);
    P.TrimExactly("{}");
    assert "{}"[0] == '{' && "{}"[1] == '}';
  }

  /** A Responses request on its way to a Codex upstream: the tools are registered, the input
      becomes chat messages and these become the request. What is sent of the history is the
      history itself if and only if there is one and every item of it is plain. */
  method ResponsesToCodex(declared: seq<T.ToolDecl>, hash: (T.Identity, nat) -> string, decode: string -> string,
                          instructions: string, input: I.Input, rest: N.Body,
                          listing: seq<string> -> string, w: N.World)
    returns (body: N.Body, ghost sent: seq<I.Item>)
    requires T.Salted(hash) && N.Sane(w)
    ensures N.At(body, "input") == Array(Values(sent)) && sent != []
    ensures
      var items := I.ItemsIn(input);
      sent == items <==> items != [] && forall i :: 0 <= i < |items| ==> Plain(items[i], w)
  {
    hide N.Sane, Plain, Sent, T.Incoming, H.Messages, H.ItemsOfAll, SentInstructions, N.Normal, N.At, Values;
    var bridge := new T.ResponsesToolBridge(declared, hash, decode);
    T.ProperIsPlain(bridge.byIdentity, T.Names(declared), hash);
    var ms := H.ResponsesToPivot(bridge, instructions, input);
    body := BuildCodexRequest(ms, rest, listing, w);
    sent := Sent(H.ItemsOfAll(ms, listing), w);
    HistorySurvivesExactly(bridge.byIdentity, instructions, I.ItemsIn(input), listing, w);
  }

  /** The instructions of the request are sent if and only if they are not blank. Without any,
      the first system or developer item takes their place; what is sent is never blank. */
  lemma InstructionsSurviveExactly(aliases: H.Aliases, instructions: string, items: seq<I.Item>, w: N.World)
    requires N.Sane(w)
    ensures
      var sent := SentInstructions(H.Messages(aliases, H.Opening(instructions), items), w);
      && (sent == instructions <==> P.TrimSpace(instructions) != "")
      && P.TrimSpace(sent) != ""
      && (instructions == "" && H.FirstSystem(items).Some? && P.TrimSpace(H.FirstSystem(items).value) != "" ==>
            sent == H.FirstSystem(items).value)
  {
    hide P.TrimSpace, H.Messages;
    N.SaneInstructions(w);
    H.InstructionsSurvive(aliases, instructions, items);
    NothingIsBlank();
  }

  lemma NothingIsBlank()
    ensures P.TrimSpace("") == ""
  {
  }
}
