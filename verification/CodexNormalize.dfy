/** The normal form of a Codex request: what every request is brought into before it is sent. */
module CodexNormalize {
  import opened Wrappers
  import C = Chat
  import opened Json
  import P = Pivot
  import opened CodexTools

  /** What is taken from outside: the JSON codec, the digest of long session names, the
      identifier generated for a call that has none, and the default instructions. */
  datatype World = World(codec: Codec, digest: string -> string, callId: string, instructions: string)

  ghost predicate Sane(w: World) {
    && Faithful(w.codec)
    && w.callId != "" && |w.callId| <= CALL_LIMIT
    && P.TrimSpace(w.instructions) != ""
    && (forall s :: |w.digest(s)| == SESSION_LIMIT - 3)
    && forall s, i :: 0 <= i < |w.digest(s)| ==> 'a' <= w.digest(s)[i] <= 'f' || '0' <= w.digest(s)[i] <= '9'
  }

  const CALL_LIMIT := 64
  const SESSION_LIMIT := 64

  // ---- Input items ----

  function TextInput(text: string): (v: Value)
    ensures v.Object?
  {
    var content := Array([Object([Member("type", String("input_text")), Member("text", String(text))])]);
    Object([Member("type", String("message"))]
           + ([Member("role", String("user"))] + ([Member("content", content)] + [])))
  }

  function Stringify(v: Value, w: World): string {
    match v
    case String(s) => s
    case Null => ""
    case _ => w.codec.marshal(v)
  }

  function CallId(v: Value, w: World): string {
    C.Trunc(C.FirstNonEmpty(Text(v), w.callId), CALL_LIMIT)
  }

  /** Arguments that are a JSON object, the empty object otherwise. */
  function Arguments(v: Value, w: World): string {
    var s := P.TrimSpace(Stringify(v, w));
    if s == "" then "{}"
    else
      var parsed := w.codec.parse(s);
      if parsed.Some? && parsed.value.Object? then s else "{}"
  }

  predicate ServerId(id: string) {
    "rs_" <= id || "fc_" <= id || "msg_" <= id || "resp_" <= id
  }

  /** The system role of a message becomes the developer role. */
  function Roled(ms: seq<Member>): seq<Member> {
    var kind := Lookup(ms, "type");
    if Lookup(ms, "role") == String("system") && (kind == Null || kind == String("message"))
    then Put(ms, "role", String("developer"))
    else ms
  }

  function Unidentified(ms: seq<Member>): seq<Member> {
    if ServerId(Text(Lookup(ms, "id"))) then Drop(ms, "id") else ms
  }

  function Filled(ms: seq<Member>, w: World): seq<Member> {
    match Text(Lookup(ms, "type"))
    case "function_call" => CallFields(ms, w)
    case "function_call_output" => Output(ms, "output", w)
    case "custom_tool_call_output" => Output(ms, "output", w)
    case "custom_tool_call" => Output(ms, "input", w)
    case _ => ms
  }

  function CallFields(ms: seq<Member>, w: World): seq<Member> {
    Put(Put(ms, "call_id", String(CallId(Lookup(ms, "call_id"), w))), "arguments",
        String(Arguments(Lookup(ms, "arguments"), w)))
  }

  function Output(ms: seq<Member>, key: string, w: World): seq<Member> {
    Put(Put(ms, "call_id", String(CallId(Lookup(ms, "call_id"), w))), key, String(Stringify(Lookup(ms, key), w)))
  }

  /** An input item as it is sent; `None` if it is dropped. */
  function NormalItem(v: Value, w: World): Option<Value> {
    match v
    case String(s) => if P.TrimSpace(s) != "" then Some(TextInput(s)) else None
    case Object(ms) =>
      if Lookup(ms, "type") == String("item_reference") then None else Some(Object(Filled(Unidentified(Roled(ms)), w)))
    case _ => None
  }

  function NormalItems(vs: seq<Value>, w: World): seq<Value> {
    if vs == [] then []
    else NormalItems(vs[..|vs| - 1], w)
         + if NormalItem(vs[|vs| - 1], w).Some? then [NormalItem(vs[|vs| - 1], w).value] else []
  }

  function NormalInput(v: Value, w: World): seq<Value> {
    var items :=
      match v
      case String(s) => NormalItems([v], w)
      case Array(vs) => NormalItems(vs, w)
      case _ => [];
    if items == [] then [TextInput("...")] else items
  }

  lemma ArgumentsSettle(v: Value, w: World)
    requires Faithful(w.codec)
    ensures Arguments(String(Arguments(v, w)), w) == Arguments(v, w)
  {
    P.TrimExactly(Stringify(v, w));
    P.TrimExactly(P.TrimSpace(Stringify(v, w)));
    P.TrimExactly("{}");
    assert w.codec.parse(w.codec.marshal(EMPTY_OBJECT)) == Some(EMPTY_OBJECT);
  }

  lemma CallIdSettles(v: Value, w: World)
    requires Sane(w)
    ensures CallId(String(CallId(v, w)), w) == CallId(v, w)
  {
  }

  /** Dropped are blank texts, references to items the upstream does not know, and what is
      neither a text nor an object. */
  lemma ItemIsDropped(v: Value, w: World)
    ensures NormalItem(v, w).None? <==>
              || (v.String? && P.TrimSpace(v.s) == "")
              || (v.Object? && Lookup(v.members, "type") == String("item_reference"))
              || (!v.String? && !v.Object?)
  {
    hide Filled, Lookup, P.TrimSpace;
  }

  /** The kinds of items that belong to a call. */
  predicate OfCall(kind: string) {
    kind in ["function_call", "function_call_output", "custom_tool_call", "custom_tool_call_output"]
  }

  /** An object item as it is sent, field by field: the system role becomes the developer role
      on messages, identifiers given by a server go, call identifiers are cut, and payloads
      become texts; every other field stays. */
  lemma ItemIsSent(ms: seq<Member>, w: World, key: string)
    requires NormalItem(Object(ms), w).Some?
    ensures NormalItem(Object(ms), w).value.Object?
    ensures
      var sent := Lookup(NormalItem(Object(ms), w).value.members, key);
      var given, kind := Lookup(ms, key), Text(Lookup(ms, "type"));
      var id := if Text(given) != "" then Text(given) else w.callId;
      var text := if given.String? then given.s else if given.Null? then "" else w.codec.marshal(given);
      var trimmed := P.TrimSpace(text);
      if key == "role" && given == String("system") && (Lookup(ms, "type") == Null || kind == "message")
      then sent == String("developer")
      else if key == "id"
              && ("rs_" <= Text(given) || "fc_" <= Text(given) || "msg_" <= Text(given) || "resp_" <= Text(given))
      then sent == Null
      else if key == "call_id" && OfCall(kind) then sent == String(if |id| <= 64 then id else id[..64])
      else if key == "arguments" && kind == "function_call"
      then sent == String(if trimmed != "" && ReadsObject(w.codec, trimmed) then trimmed else "{}")
      else if key == "output" && (kind == "function_call_output" || kind == "custom_tool_call_output")
      then sent == String(text)
      else if key == "input" && kind == "custom_tool_call" then sent == String(text)
      else sent == given
  {
    hide Lookup, CallId, Arguments, Stringify, Filled, Roled, Unidentified, P.TrimSpace;
    PayloadIs(Lookup(ms, key), w);
    var roled := Roled(ms);
    var bare := Unidentified(roled);
    RoledField(ms, key);
    RoledField(ms, "type");
    UnidentifiedField(roled, key);
    UnidentifiedField(roled, "type");
    FilledField(bare, w, key);
    assert "type"[0] == 't' && "role"[0] == 'r';
  }

  lemma PayloadIs(v: Value, w: World)
    ensures
      var id := if Text(v) != "" then Text(v) else w.callId;
      CallId(v, w) == if |id| <= 64 then id else id[..64]
    ensures Stringify(v, w) == if v.String? then v.s else if v.Null? then "" else w.codec.marshal(v)
    ensures
      var trimmed := P.TrimSpace(Stringify(v, w));
      Arguments(v, w) == if trimmed != "" && ReadsObject(w.codec, trimmed) then trimmed else "{}"
  {
    hide P.TrimSpace;
  }

  lemma RoledField(ms: seq<Member>, key: string)
    ensures Lookup(Roled(ms), key) ==
      if key == "role" && Lookup(ms, "role") == String("system")
         && (Lookup(ms, "type") == Null || Lookup(ms, "type") == String("message"))
      then String("developer")
      else Lookup(ms, key)
  {
    hide Lookup;
    PutLookup(ms, "role", String("developer"));
  }

  lemma UnidentifiedField(ms: seq<Member>, key: string)
    ensures Lookup(Unidentified(ms), key) ==
      if key == "id" && ServerId(Text(Lookup(ms, "id"))) then Null else Lookup(ms, key)
  {
    hide Lookup;
    DropLookup(ms, "id");
  }

  lemma FilledField(ms: seq<Member>, w: World, key: string)
    ensures
      var sent, given, kind := Lookup(Filled(ms, w), key), Lookup(ms, key), Text(Lookup(ms, "type"));
      if key == "call_id" && OfCall(kind) then sent == String(CallId(given, w))
      else if key == "arguments" && kind == "function_call" then sent == String(Arguments(given, w))
      else if key == "output" && (kind == "function_call_output" || kind == "custom_tool_call_output")
      then sent == String(Stringify(given, w))
      else if key == "input" && kind == "custom_tool_call" then sent == String(Stringify(given, w))
      else sent == given
  {
    hide Lookup, CallId, Arguments, Stringify, CallFields, Output;
    CallField(ms, w, key);
    OutputField(ms, "output", w, key);
    OutputField(ms, "input", w, key);
  }

  lemma CallField(ms: seq<Member>, w: World, key: string)
    ensures Lookup(CallFields(ms, w), key) ==
      if key == "call_id" then String(CallId(Lookup(ms, key), w))
      else if key == "arguments" then String(Arguments(Lookup(ms, key), w))
      else Lookup(ms, key)
  {
    hide Lookup, CallId, Arguments;
    var id := String(CallId(Lookup(ms, "call_id"), w));
    PutLookup(ms, "call_id", id);
    PutLookup(Put(ms, "call_id", id), "arguments", String(Arguments(Lookup(ms, "arguments"), w)));
  }

  lemma OutputField(ms: seq<Member>, payload: string, w: World, key: string)
    requires payload in ["output", "input"]
    ensures Lookup(Output(ms, payload, w), key) ==
      if key == "call_id" then String(CallId(Lookup(ms, key), w))
      else if key == payload then String(Stringify(Lookup(ms, key), w))
      else Lookup(ms, key)
  {
    hide Lookup, CallId, Stringify;
    var id := String(CallId(Lookup(ms, "call_id"), w));
    PutLookup(ms, "call_id", id);
    PutLookup(Put(ms, "call_id", id), payload, String(Stringify(Lookup(ms, payload), w)));
  }

  /** The item is sent as it is. */
  predicate Settled(v: Value, w: World) {
    NormalItem(v, w) == Some(v)
  }

  lemma TextInputField(text: string, key: string)
    ensures Lookup(TextInput(text).members, key) ==
      if key == "type" then String("message") else if key == "role" then String("user")
      else if key == "content"
      then Array([Object([Member("type", String("input_text")), Member("text", String(text))])])
      else Null
  {
    var c := Member("content", Array([Object([Member("type", String("input_text")), Member("text", String(text))])]));
    var r, t := Member("role", String("user")), Member("type", String("message"));
    LookupCons(c, [], key);
    LookupCons(r, [c] + [], key);
    LookupCons(t, [r] + ([c] + []), key);
  }

  lemma TextInputSettles(text: string, w: World)
    ensures Settled(TextInput(text), w)
  {
    hide TextInput, Lookup;
    assert "type"[0] == 't' && "role"[0] == 'r' && "message"[0] == 'm' && "user"[0] == 'u' && "system"[0] == 's';
    TextInputField(text, "type");
    TextInputField(text, "role");
    TextInputField(text, "id");
  }

  lemma RoledKeeps(ms: seq<Member>)
    ensures Lookup(Roled(ms), "type") == Lookup(ms, "type") && Roled(Roled(ms)) == Roled(ms)
  {
    assert "type"[0] == 't' && "role"[0] == 'r' && "developer"[0] == 'd' && "system"[0] == 's';
    PutLookup(ms, "role", String("developer"));
  }

  lemma UnidentifiedKeeps(ms: seq<Member>)
    ensures Lookup(Unidentified(ms), "type") == Lookup(ms, "type")
    ensures Lookup(Unidentified(ms), "role") == Lookup(ms, "role")
    ensures Unidentified(Unidentified(ms)) == Unidentified(ms)
  {
    DropLookup(ms, "id");
  }

  lemma OutputKeeps(ms: seq<Member>, key: string, w: World)
    requires key in ["output", "input"] && Sane(w)
    ensures forall k :: k in ["type", "role", "id"] ==> Lookup(Output(ms, key, w), k) == Lookup(ms, k)
    ensures Output(Output(ms, key, w), key, w) == Output(ms, key, w)
  {
    var id := String(CallId(Lookup(ms, "call_id"), w));
    PutLookup(ms, "call_id", id);
    PutLookup(Put(ms, "call_id", id), key, String(Stringify(Lookup(ms, key), w)));
    CallIdSettles(Lookup(ms, "call_id"), w);
    PutSame(Output(ms, key, w), "call_id");
    PutSame(Output(ms, key, w), key);
  }

  lemma CallKeeps(ms: seq<Member>, w: World)
    requires Sane(w)
    ensures forall k :: k in ["type", "role", "id"] ==> Lookup(CallFields(ms, w), k) == Lookup(ms, k)
    ensures CallFields(CallFields(ms, w), w) == CallFields(ms, w)
  {
    hide CallId, Arguments, Sane;
    var id, arguments := String(CallId(Lookup(ms, "call_id"), w)), String(Arguments(Lookup(ms, "arguments"), w));
    var filled := CallFields(ms, w);
    PutLookup(ms, "call_id", id);
    PutLookup(Put(ms, "call_id", id), "arguments", arguments);
    CallIdSettles(Lookup(ms, "call_id"), w);
    assert Faithful(w.codec) by { SaneCodec(w); }
    ArgumentsSettle(Lookup(ms, "arguments"), w);
    PutSame(filled, "call_id");
    PutSame(filled, "arguments");
  }

  lemma FilledKeeps(ms: seq<Member>, w: World)
    requires Sane(w)
    ensures forall k :: k in ["type", "role", "id"] ==> Lookup(Filled(ms, w), k) == Lookup(ms, k)
    ensures Filled(Filled(ms, w), w) == Filled(ms, w)
  {
    hide CallFields, Output, Sane;
    var kind := Text(Lookup(ms, "type"));
    if kind == "function_call" {
      CallKeeps(ms, w);
    } else if kind == "function_call_output" || kind == "custom_tool_call_output" {
      OutputKeeps(ms, "output", w);
    } else if kind == "custom_tool_call" {
      OutputKeeps(ms, "input", w);
    }
  }

  lemma SaneCodec(w: World)
    requires Sane(w)
    ensures Faithful(w.codec)
  {
  }

  /** What is sent of an item is sent as it is the next time. */
  lemma ItemSettles(v: Value, w: World)
    requires Sane(w) && NormalItem(v, w).Some?
    ensures Settled(NormalItem(v, w).value, w)
  {
    hide Sane, Filled;
    if v.String? {
      TextInputSettles(v.s, w);
    } else {
      var a := Roled(v.members);
      var b := Unidentified(a);
      RoledKeeps(v.members);
      UnidentifiedKeeps(a);
      FilledKeeps(b, w);
      SameRole(a, Filled(b, w));
      SameId(b, Filled(b, w));
    }
  }

  lemma SameRole(ms: seq<Member>, ns: seq<Member>)
    requires Roled(ms) == ms && Lookup(ns, "type") == Lookup(ms, "type") && Lookup(ns, "role") == Lookup(ms, "role")
    ensures Roled(ns) == ns
  {
    assert "developer"[0] == 'd' && "system"[0] == 's';
    PutLookup(ms, "role", String("developer"));
  }

  lemma SameId(ms: seq<Member>, ns: seq<Member>)
    requires Unidentified(ms) == ms && Lookup(ns, "id") == Lookup(ms, "id")
    ensures Unidentified(ns) == ns
  {
    DropLookup(ms, "id");
  }

  lemma {:induction false} ItemsSettle(vs: seq<Value>, w: World)
    requires Sane(w)
    ensures forall i :: 0 <= i < |NormalItems(vs, w)| ==> Settled(NormalItems(vs, w)[i], w)
  {
    hide NormalItem, Sane, Settled;
    if vs != [] {
      ItemsSettle(vs[..|vs| - 1], w);
      if NormalItem(vs[|vs| - 1], w).Some? {
        ItemSettles(vs[|vs| - 1], w);
      }
    }
  }

  lemma {:induction false} SettledItems(vs: seq<Value>, w: World)
    requires forall i :: 0 <= i < |vs| ==> Settled(vs[i], w)
    ensures NormalItems(vs, w) == vs
  {
    hide NormalItem;
    if vs != [] {
      SettledItems(vs[..|vs| - 1], w);
      assert Settled(vs[|vs| - 1], w);
      assert vs == vs[..|vs| - 1] + [vs[|vs| - 1]];
    }
  }

  /** The input is never empty, and what is sent is sent as it is the next time. */
  lemma InputSettles(v: Value, w: World)
    requires Sane(w)
    ensures NormalInput(v, w) != [] && NormalInput(Array(NormalInput(v, w)), w) == NormalInput(v, w)
  {
    hide NormalItem, Sane, TextInput, Settled;
    if v.String? { ItemsSettle([v], w); } else if v.Array? { ItemsSettle(v.items, w); }
    TextInputSettles("...", w);
    SettledItems(NormalInput(v, w), w);
  }

  // ---- Lists of strings ----

  function Merged(v: Value, required: string): seq<string> {
    var own := if v.Array? then Strings(v.items) else [];
    if required != "" && required !in own then own + [required] else own
  }

  /** The strings of a list, each once, in the order of their first occurrence. */
  function Strings(vs: seq<Value>): seq<string> {
    if vs == [] then []
    else
      var rest, v := Strings(vs[..|vs| - 1]), vs[|vs| - 1];
      if v.String? && v.s !in rest then rest + [v.s] else rest
  }

  function StringValues(ss: seq<string>): (r: seq<Value>)
    ensures |r| == |ss| && forall i :: 0 <= i < |r| ==> r[i] == String(ss[i])
  {
    seq(|ss|, i requires 0 <= i < |ss| => String(ss[i]))
  }

  predicate Once(ss: seq<string>) {
    forall i, j :: 0 <= i < j < |ss| ==> ss[i] != ss[j]
  }

  lemma {:induction false} StringsOnce(vs: seq<Value>)
    ensures Once(Strings(vs))
    ensures forall s :: s in Strings(vs) <==> String(s) in vs
  {
    if vs != [] {
      var init, v := vs[..|vs| - 1], vs[|vs| - 1];
      StringsOnce(init);
      assert vs == init + [v];
    }
  }

  lemma {:induction false} OnceStays(ss: seq<string>)
    requires Once(ss)
    ensures Strings(StringValues(ss)) == ss
  {
    if ss != [] {
      var n := |ss| - 1;
      OnceStays(ss[..n]);
      assert StringValues(ss)[..n] == StringValues(ss[..n]);
      assert ss == ss[..n] + [ss[n]];
    }
  }

  /** Merging is stable, keeps every string once, and includes the required one. */
  lemma MergedSettles(v: Value, required: string)
    ensures Once(Merged(v, required)) && (required != "" ==> required in Merged(v, required))
    ensures Merged(Array(StringValues(Merged(v, required))), required) == Merged(v, required)
  {
    if v.Array? {
      StringsOnce(v.items);
    }
    OnceStays(Merged(v, required));
  }

  /** The strings of the list, and the required one, and no others. */
  lemma MergedHolds(v: Value, required: string, s: string)
    ensures s in Merged(v, required) <==> (v.Array? && String(s) in v.items) || (s == required && required != "")
  {
    if v.Array? {
      StringsOnce(v.items);
    }
  }

  // ---- The other fields ----

  /** The length of a text in UTF-8. */
  function Bytes(s: string): (n: nat)
    ensures |s| <= n
  {
    if s == "" then 0
    else
      var c := s[|s| - 1];
      Bytes(s[..|s| - 1]) + if c < '\U{80}' then 1 else if c < '\U{800}' then 2 else if c < '\U{10000}' then 3 else 4
  }

  lemma {:induction false} AsciiBytes(s: string)
    requires forall i :: 0 <= i < |s| ==> s[i] < '\U{80}'
    ensures Bytes(s) == |s|
  {
    if s != "" {
      AsciiBytes(s[..|s| - 1]);
    }
  }

  /** A session name that fits is kept; a longer one, or one with a line break, is digested. */
  function Bounded(name: string, w: World): string {
    var s := P.TrimSpace(name);
    if s == "" then ""
    else if Bytes(s) <= SESSION_LIMIT && '\r' !in s && '\n' !in s then s
    else "kg_" + w.digest(s)
  }

  lemma BoundedSettles(name: string, w: World)
    requires Sane(w)
    ensures Bounded(Bounded(name, w), w) == Bounded(name, w) && Bytes(Bounded(name, w)) <= SESSION_LIMIT
  {
    hide Bytes;
    assert Bytes("") == 0 by { AsciiBytes(""); }
    var s := P.TrimSpace(name);
    P.TrimExactly(name);
    P.TrimExactly(s);
    P.TrimExactly("kg_" + w.digest(s));
    var d := w.digest(s);
    assert "kg_"[0] == 'k' && "kg_"[1] == 'g' && "kg_"[2] == '_';
    forall i | 0 <= i < |"kg_" + d|
      ensures ("kg_" + d)[i] != '\r' && ("kg_" + d)[i] != '\n' && !P.IsSpace(("kg_" + d)[i])
      ensures ("kg_" + d)[i] < '\U{80}'
    {
      if i >= 3 {
        assert ("kg_" + d)[i] == d[i - 3];
      } else {
        assert ("kg_" + d)[i] == "kg_"[i];
      }
    }
    AsciiBytes("kg_" + d);
  }

  function OrElse(v: Value, default: string): string {
    var s := P.TrimSpace(Text(v));
    if s == "" then default else s
  }

  function Reasoning(v: Value): seq<Member> {
    var ms := if v.Object? then v.members else [];
    var effortful := Put(ms, "effort", String(OrElse(Lookup(ms, "effort"), "low")));
    Put(effortful, "summary", String(OrElse(Lookup(effortful, "summary"), "auto")))
  }

  lemma OrElseSettles(v: Value, default: string)
    requires default != "" && P.Trimmed(default)
    ensures OrElse(String(OrElse(v, default)), default) == OrElse(v, default) && OrElse(v, default) != ""
  {
    P.TrimExactly(Text(v));
    P.TrimExactly(OrElse(v, default));
  }

  lemma ReasoningSettles(v: Value)
    ensures Reasoning(Object(Reasoning(v))) == Reasoning(v)
  {
    hide OrElse;
    var ms := if v.Object? then v.members else [];
    var effort := OrElse(Lookup(ms, "effort"), "low");
    var effortful := Put(ms, "effort", String(effort));
    var summary := OrElse(Lookup(effortful, "summary"), "auto");
    PutLookup(ms, "effort", String(effort));
    PutLookup(effortful, "summary", String(summary));
    OrElseSettles(Lookup(ms, "effort"), "low");
    OrElseSettles(Lookup(effortful, "summary"), "auto");
    PutSame(Reasoning(v), "effort");
    PutSame(Reasoning(v), "summary");
  }

  // ---- The whole request ----

  const ALLOWED := {"model", "input", "instructions", "tools", "tool_choice", "stream", "store", "reasoning",
                    "service_tier", "include", "prompt_cache_key", "client_metadata", "text"}

  const ENCRYPTED := "reasoning.encrypted_content"

  type Body = map<string, Value>

  function At(b: Body, key: string): Value {
    if key in b then b[key] else Null
  }

  function Tools(b: Body): seq<Value> {
    NormalTools(ItemsIn(At(b, "tools")))
  }

  function Include(b: Body): seq<string> {
    Merged(At(b, "include"), if Text(Lookup(Reasoning(At(b, "reasoning")), "effort")) != "none" then ENCRYPTED else "")
  }

  /** What a field of the request is sent as; `None` if it is not sent. */
  function Field(b: Body, key: string, w: World): Option<Value> {
    match key
    case "stream" => Some(Bool(true))
    case "store" => Some(Bool(false))
    case "input" => Some(Array(NormalInput(At(b, "input"), w)))
    case "tools" => if Tools(b) == [] then None else Some(Array(Tools(b)))
    case "tool_choice" => NormalChoice(At(b, "tool_choice"), Tools(b))
    case "instructions" =>
      Some(if P.TrimSpace(Text(At(b, "instructions"))) == "" then String(w.instructions) else At(b, "instructions"))
    case "reasoning" => Some(Object(Reasoning(At(b, "reasoning"))))
    case "include" => if Include(b) == [] then None else Some(Array(StringValues(Include(b))))
    case "service_tier" =>
      if key !in b then None
      else if b[key] == String("fast") then Some(String("priority"))
      else if b[key] == Null || b[key] == String("priority") then Some(b[key])
      else None
    case "prompt_cache_key" =>
      var s := Bounded(Text(At(b, "prompt_cache_key")), w);
      if s == "" then None else Some(String(s))
    case other => if other in ALLOWED && other in b then Some(b[other]) else None
  }

  function Normal(b: Body, w: World): Body {
    map key | key in ALLOWED && Field(b, key, w).Some? :: Field(b, key, w).value
  }

  /** What can be found under a key of a normal request. */
  lemma AtNormal(b: Body, key: string, w: World)
    requires key in ALLOWED
    ensures key in Normal(b, w) <==> Field(b, key, w).Some?
    ensures At(Normal(b, w), key) == if Field(b, key, w).Some? then Field(b, key, w).value else Null
  {
    hide Field;
  }

  /** The fields that are copied, and the service tier: "fast" is called "priority" here, and no
      other tier is known. */
  lemma CopiesAreSent(b: Body, w: World)
    ensures forall key :: key in ["model", "client_metadata", "text"] ==>
              (key in Normal(b, w) <==> key in b) && At(Normal(b, w), key) == At(b, key)
    ensures "service_tier" in Normal(b, w) <==>
              "service_tier" in b && b["service_tier"] in [Null, String("fast"), String("priority")]
    ensures At(Normal(b, w), "service_tier") ==
      if At(b, "service_tier") == String("fast") || At(b, "service_tier") == String("priority")
      then String("priority")
      else Null
  {
    hide Normal, NormalInput, Tools, NormalChoice, Reasoning, Include, Bounded, P.TrimSpace;
    forall key | key in ["model", "client_metadata", "text", "service_tier"]
      ensures key in Normal(b, w) <==> Field(b, key, w).Some?
      ensures At(Normal(b, w), key) == if Field(b, key, w).Some? then Field(b, key, w).value else Null
    {
      AtNormal(b, key, w);
    }
  }

  /** Instructions that say something are sent as they are; so is a short session name without
      line breaks, but for spaces around it, and no name is sent only if there is none. */
  lemma TextsAreSent(b: Body, w: World)
    ensures At(Normal(b, w), "instructions") ==
      if P.TrimSpace(Text(At(b, "instructions"))) == "" then String(w.instructions) else At(b, "instructions")
    ensures
      var name := P.TrimSpace(Text(At(b, "prompt_cache_key")));
      && ("prompt_cache_key" in Normal(b, w) <==> name != "")
      && (name != "" ==>
            At(Normal(b, w), "prompt_cache_key") ==
            String(if Bytes(name) <= 64 && '\r' !in name && '\n' !in name then name else "kg_" + w.digest(name)))
  {
    hide Normal, P.TrimSpace, Bytes;
    AtNormal(b, "instructions", w);
    AtNormal(b, "prompt_cache_key", w);
  }

  /** Effort and summary are sent as given, "low" and "auto" if missing; every other setting of
      the reasoning stays, and encrypted reasoning is asked for unless the effort is "none". */
  lemma ReasoningIsSent(b: Body, w: World, key: string)
    ensures At(Normal(b, w), "reasoning").Object?
    ensures
      var given := At(b, "reasoning");
      var own := if given.Object? then given.members else [];
      var effort, summary := P.TrimSpace(Text(Lookup(own, "effort"))), P.TrimSpace(Text(Lookup(own, "summary")));
      Lookup(At(Normal(b, w), "reasoning").members, key) ==
      if key == "effort" then String(if effort == "" then "low" else effort)
      else if key == "summary" then String(if summary == "" then "auto" else summary)
      else Lookup(own, key)
    ensures
      var effort := Lookup(At(Normal(b, w), "reasoning").members, "effort");
      var asked := At(b, "include");
      String(key) in ItemsIn(At(Normal(b, w), "include")) <==>
        (asked.Array? && String(key) in asked.items)
        || (key == "reasoning.encrypted_content" && effort != String("none"))
  {
    hide Normal, P.TrimSpace, Lookup, Merged;
    AtNormal(b, "reasoning", w);
    AtNormal(b, "include", w);
    ReasoningFields(At(b, "reasoning"), key);
    ReasoningFields(At(b, "reasoning"), "effort");
    var required := if Text(Lookup(Reasoning(At(b, "reasoning")), "effort")) != "none" then ENCRYPTED else "";
    MergedHolds(At(b, "include"), required, key);
    assert String(key) in StringValues(Include(b)) <==> key in Include(b) by { AsValues(Include(b), key); }
  }

  lemma AsValues(ss: seq<string>, s: string)
    ensures String(s) in StringValues(ss) <==> s in ss
  {
    if s in ss {
      var i :| 0 <= i < |ss| && ss[i] == s;
      assert StringValues(ss)[i] == String(s);
    }
  }

  lemma ReasoningFields(v: Value, key: string)
    ensures
      var own := if v.Object? then v.members else [];
      Lookup(Reasoning(v), key) ==
      if key == "effort" then String(OrElse(Lookup(own, "effort"), "low"))
      else if key == "summary" then String(OrElse(Lookup(own, "summary"), "auto"))
      else Lookup(own, key)
  {
    hide Lookup, OrElse;
    var own := if v.Object? then v.members else [];
    var effort := String(OrElse(Lookup(own, "effort"), "low"));
    PutLookup(own, "effort", effort);
    var effortful := Put(own, "effort", effort);
    PutLookup(effortful, "summary", String(OrElse(Lookup(effortful, "summary"), "auto")));
  }

  lemma ToolsSettle(b: Body, w: World)
    requires AllSound(ItemsIn(At(b, "tools")))
    ensures Tools(Normal(b, w)) == Tools(b) && AllFit(Tools(b))
  {
    hide AllSound, AllFit, NormalTools;
    AtNormal(b, "tools", w);
    ToolsExactly(ItemsIn(At(b, "tools")));
    ToolsSettleExactly(ItemsIn(At(b, "tools")));
    assert NormalTools([]) == [] by { NoTools(); }
  }

  lemma NoTools()
    ensures NormalTools([]) == []
  {
  }

  /** The fields that depend on themselves alone settle. */
  lemma PlainFieldSettles(b: Body, key: string, w: World)
    requires Sane(w) && key in ALLOWED - {"tools", "tool_choice", "include"}
    ensures Field(Normal(b, w), key, w) == Field(b, key, w)
  {
    hide Sane, NormalInput, Reasoning, Bounded, P.TrimSpace;
    AtNormal(b, key, w);
    match key {
      case "input" => InputSettles(At(b, "input"), w);
      case "reasoning" => ReasoningSettles(At(b, "reasoning"));
      case "prompt_cache_key" =>
        BoundedSettles(Text(At(b, "prompt_cache_key")), w);
        assert Bounded("", w) == "" by { NothingBounded(w); }
      case "instructions" => assert P.TrimSpace(w.instructions) != "" by { SaneInstructions(w); }
      case _ =>
    }
  }

  lemma NothingBounded(w: World)
    ensures Bounded("", w) == ""
  {
  }

  lemma SaneInstructions(w: World)
    requires Sane(w)
    ensures P.TrimSpace(w.instructions) != ""
  {
    hide P.TrimSpace;
  }

  lemma IncludeSettles(b: Body, w: World)
    ensures Field(Normal(b, w), "include", w) == Field(b, "include", w)
  {
    hide Reasoning, Merged, Normal;
    AtNormal(b, "include", w);
    AtNormal(b, "reasoning", w);
    ReasoningSettles(At(b, "reasoning"));
    var required := if Text(Lookup(Reasoning(At(b, "reasoning")), "effort")) != "none" then ENCRYPTED else "";
    MergedSettles(At(b, "include"), required);
    assert StringValues([]) == [];
    assert Merged(Null, "") == [] by { NothingMerged(); }
  }

  lemma NothingMerged()
    ensures Merged(Null, "") == []
  {
  }

  lemma ChoiceSettles(b: Body, w: World)
    requires AllSound(ItemsIn(At(b, "tools")))
    ensures Field(Normal(b, w), "tool_choice", w) == Field(b, "tool_choice", w)
  {
    hide Tools, NormalChoice, AllSound, AllFit;
    AtNormal(b, "tool_choice", w);
    ToolsSettle(b, w);
    if NormalChoice(At(b, "tool_choice"), Tools(b)).Some? {
      ChoiceNamesATool(At(b, "tool_choice"), Tools(b));
    } else {
      NoChoice(Tools(b));
    }
  }

  lemma NoChoice(tools: seq<Value>)
    ensures NormalChoice(Null, tools) == None
  {
  }

  /** A normal request has only fields that are allowed, an input that is not empty, tools that
      fit if their names are sound, and a choice, if any, that names one of them. */
  lemma NormalForm(b: Body, w: World)
    requires Sane(w)
    ensures
      var n := Normal(b, w);
      && n.Keys <= ALLOWED
      && At(n, "stream") == Bool(true) && At(n, "store") == Bool(false)
      && At(n, "input").Array? && At(n, "input").items != []
      && ("tools" in n ==> At(n, "tools").Array? && At(n, "tools").items != [])
      && (AllSound(ItemsIn(At(b, "tools"))) ==>
            && AllFit(ItemsIn(At(n, "tools")))
            && (At(n, "tool_choice").Object? && TypeOf(At(n, "tool_choice")) in ["function", "custom"] ==>
                  Offers(ItemsIn(At(n, "tools")), TypeOf(At(n, "tool_choice")),
                         Text(Lookup(At(n, "tool_choice").members, "name"))))
            && (At(n, "tool_choice").Object? && TypeOf(At(n, "tool_choice")) !in ["function", "custom"] ==>
                  Offers(ItemsIn(At(n, "tools")), P.TrimSpace(TypeOf(At(n, "tool_choice"))), "")))
  {
    hide AllSound, AllFit, NormalTools, NormalChoice, Offers, NormalInput, Normal, Sane, P.TrimSpace;
    AtNormal(b, "stream", w);
    AtNormal(b, "store", w);
    AtNormal(b, "input", w);
    AtNormal(b, "tools", w);
    AtNormal(b, "tool_choice", w);
    InputSettles(At(b, "input"), w);
    assert Normal(b, w).Keys <= ALLOWED by { OnlyAllowed(b, w); }
    if AllSound(ItemsIn(At(b, "tools"))) {
      ToolsSettle(b, w);
      assert ItemsIn(At(Normal(b, w), "tools")) == Tools(b);
      if NormalChoice(At(b, "tool_choice"), Tools(b)).Some? {
        ChoiceNamesATool(At(b, "tool_choice"), Tools(b));
      }
    }
  }

  lemma OnlyAllowed(b: Body, w: World)
    ensures Normal(b, w).Keys <= ALLOWED
  {
    hide Field;
  }

  /** Normalizing a second time changes nothing, exactly if no name of a kept tool ends in a
      space where it was cut to size. */
  lemma NormalSettlesExactly(b: Body, w: World)
    requires Sane(w)
    ensures Normal(Normal(b, w), w) == Normal(b, w) <==> AllSound(ItemsIn(At(b, "tools")))
  {
    hide Field, Tools, AllSound, Sane;
    if AllSound(ItemsIn(At(b, "tools"))) {
      forall key | key in ALLOWED ensures Field(Normal(b, w), key, w) == Field(b, key, w) {
        if key == "tools" {
          ToolsSettle(b, w);
          SameTools(b, w);
        } else if key == "tool_choice" {
          ChoiceSettles(b, w);
        } else if key == "include" {
          IncludeSettles(b, w);
        } else {
          PlainFieldSettles(b, key, w);
        }
      }
    } else {
      ToolsDiffer(b, w);
    }
  }

  lemma SameTools(b: Body, w: World)
    requires Tools(Normal(b, w)) == Tools(b)
    ensures Field(Normal(b, w), "tools", w) == Field(b, "tools", w)
  {
  }

  lemma ToolsDiffer(b: Body, w: World)
    requires !AllSound(ItemsIn(At(b, "tools")))
    ensures Normal(Normal(b, w), w) != Normal(b, w)
  {
    hide AllSound, NormalTools;
    ToolsSettleExactly(ItemsIn(At(b, "tools")));
    AtNormal(b, "tools", w);
    AtNormal(Normal(b, w), "tools", w);
    assert NormalTools([]) == [] by { NoTools(); }
  }

  // ---- The normalization itself, in place and field by field ----

  method NormalizeInput(v: Value, w: World) returns (items: seq<Value>)
    ensures items == NormalInput(v, w)
  {
    hide NormalItem, TextInput;
    items := [];
    var raw := if v.Array? then v.items else if v.String? then [v] else [];
    for i := 0 to |raw|
      invariant items == NormalItems(raw[..i], w)
    {
      assert raw[..i + 1][..i] == raw[..i];
      var item := NormalItem(raw[i], w);
      if item.None? {
        continue;
      }
      items := items + [item.value];
    }
    assert raw[..|raw|] == raw;
    if |items| == 0 {
      items := [TextInput("...")];
    }
  }

  method NormalizeTools(v: Value) returns (tools: seq<Value>)
    ensures tools == NormalTools(ItemsIn(v))
  {
    hide NormalTool;
    tools := [];
    var raw := ItemsIn(v);
    for i := 0 to |raw|
      invariant tools == NormalTools(raw[..i])
    {
      assert raw[..i + 1][..i] == raw[..i];
      var tool := NormalTool(raw[i]);
      if tool.None? {
        continue;
      }
      tools := tools + [tool.value];
    }
    assert raw[..|raw|] == raw;
  }

  method MergeStringList(v: Value, required: string) returns (out: seq<string>)
    ensures out == Merged(v, required)
  {
    out := [];
    var seen: set<string> := {};
    var values := ItemsIn(v);
    for i := 0 to |values|
      invariant out == Strings(values[..i]) && forall s :: s in seen <==> s in out
    {
      assert values[..i + 1][..i] == values[..i];
      if !values[i].String? || values[i].s in seen {
        continue;
      }
      seen := seen + {values[i].s};
      out := out + [values[i].s];
    }
    assert values[..|values|] == values;
    if required != "" && required !in seen {
      out := out + [required];
    }
  }

  /** The first letters of field names of the same length tell them apart. */
  lemma KeysDiffer()
    ensures "input" != "store" && "input" != "tools" && "store" != "tools" && "instructions" != "service_tier"
  {
    assert "input"[0] == 'i' && "store"[0] == 's' && "tools"[0] == 't' && "instructions"[0] == 'i';
    assert "service_tier"[0] == 's';
  }

  function Set(b: Body, key: string, v: Option<Value>): Body {
    if v.Some? then b[key := v.value] else b - {key}
  }

  /** The fields `done` have been edited, the others are as they were. */
  ghost predicate Edited(b: Body, from: Body, done: seq<string>, w: World) {
    forall key :: if key in done
      then (if key in b then Some(b[key]) else None) == Field(from, key, w)
      else (if key in b then Some(b[key]) else None) == if key in from then Some(from[key]) else None
  }

  lemma EditOne(b: Body, from: Body, done: seq<string>, key: string, w: World)
    requires Edited(b, from, done, w) && key !in done
    ensures Edited(Set(b, key, Field(from, key, w)), from, done + [key], w)
    ensures At(b, key) == At(from, key) && (key in b <==> key in from)
  {
    hide Field;
    assert (if key in b then Some(b[key]) else None) == if key in from then Some(from[key]) else None;
  }

  method EditInput(b: Body, ghost body: Body, ghost done: seq<string>, w: World) returns (r: Body)
    requires Edited(b, body, done, w) && "input" !in done
    ensures Edited(r, body, done + ["input"], w)
  {
    hide Edited;
    EditOne(b, body, done, "input", w);
    var items := NormalizeInput(At(b, "input"), w);
    r := Set(b, "input", Some(Array(items)));
  }

  method EditTools(b: Body, ghost body: Body, ghost done: seq<string>, w: World) returns (r: Body)
    requires Edited(b, body, done, w) && "tools" !in done
    ensures Edited(r, body, done + ["tools"], w)
  {
    hide Edited, NormalTools;
    EditOne(b, body, done, "tools", w);
    var tools := NormalizeTools(At(b, "tools"));
    r := Set(b, "tools", if |tools| == 0 then None else Some(Array(tools)));
  }

  /** The choice is made among the tools that are sent. */
  method EditChoice(b: Body, ghost body: Body, ghost done: seq<string>, w: World) returns (r: Body)
    requires Edited(b, body, done, w) && "tool_choice" !in done && "tools" in done
    ensures Edited(r, body, done + ["tool_choice"], w)
  {
    hide Edited, NormalTools, NormalChoice;
    EditOne(b, body, done, "tool_choice", w);
    ToolsAreThere(b, body, done, w);
    r := Set(b, "tool_choice", NormalChoice(At(b, "tool_choice"), ItemsIn(At(b, "tools"))));
  }

  lemma ToolsAreThere(b: Body, body: Body, done: seq<string>, w: World)
    requires Edited(b, body, done, w) && "tools" in done
    ensures ItemsIn(At(b, "tools")) == Tools(body)
  {
    hide Tools;
    assert (if "tools" in b then Some(b["tools"]) else None) == Field(body, "tools", w);
  }

  method EditInstructions(b: Body, ghost body: Body, ghost done: seq<string>, w: World) returns (r: Body)
    requires Edited(b, body, done, w) && "instructions" !in done
    ensures Edited(r, body, done + ["instructions"], w)
  {
    hide Edited, P.TrimSpace;
    EditOne(b, body, done, "instructions", w);
    var own := At(b, "instructions");
    r := Set(b, "instructions", Some(if P.TrimSpace(Text(own)) == "" then String(w.instructions) else own));
  }

  method EditReasoning(b: Body, ghost body: Body, ghost done: seq<string>, w: World) returns (r: Body, effort: string)
    requires Edited(b, body, done, w) && "reasoning" !in done
    ensures Edited(r, body, done + ["reasoning"], w)
    ensures effort == Text(Lookup(Reasoning(At(body, "reasoning")), "effort"))
  {
    hide Edited, Reasoning;
    EditOne(b, body, done, "reasoning", w);
    var reasoning := Reasoning(At(b, "reasoning"));
    r, effort := Set(b, "reasoning", Some(Object(reasoning))), Text(Lookup(reasoning, "effort"));
  }

  method EditInclude(b: Body, ghost body: Body, ghost done: seq<string>, effort: string, w: World) returns (r: Body)
    requires Edited(b, body, done, w) && "include" !in done
    requires effort == Text(Lookup(Reasoning(At(body, "reasoning")), "effort"))
    ensures Edited(r, body, done + ["include"], w)
  {
    hide Edited, Reasoning, Merged;
    EditOne(b, body, done, "include", w);
    var list := MergeStringList(At(b, "include"), if effort != "none" then ENCRYPTED else "");
    r := Set(b, "include", if |list| == 0 then None else Some(Array(StringValues(list))));
  }

  method EditTier(b: Body, ghost body: Body, ghost done: seq<string>, w: World) returns (r: Body)
    requires Edited(b, body, done, w) && "service_tier" !in done
    ensures Edited(r, body, done + ["service_tier"], w)
  {
    hide Edited;
    EditOne(b, body, done, "service_tier", w);
    r := b;
    if At(b, "service_tier") == String("fast") {
      r := b["service_tier" := String("priority")];
    } else if At(b, "service_tier") != Null && At(b, "service_tier") != String("priority") {
      r := b - {"service_tier"};
    }
    assert At(body, "service_tier") == At(b, "service_tier");
    assert r == Set(b, "service_tier", Field(body, "service_tier", w));
  }

  method EditSession(b: Body, ghost body: Body, ghost done: seq<string>, w: World) returns (r: Body)
    requires Edited(b, body, done, w) && "prompt_cache_key" !in done
    ensures Edited(r, body, done + ["prompt_cache_key"], w)
  {
    hide Edited, Bounded;
    EditOne(b, body, done, "prompt_cache_key", w);
    var session := Bounded(Text(At(b, "prompt_cache_key")), w);
    r := Set(b, "prompt_cache_key", if session == "" then None else Some(String(session)));
  }

  const CONTENT := [] + ["stream"] + ["store"] + ["input"] + ["tools"] + ["tool_choice"]
  const EDITED := CONTENT + ["instructions"] + ["reasoning"] + ["include"] + ["service_tier"] + ["prompt_cache_key"]

  lemma ContentKeys()
    ensures "store" !in [] + ["stream"]
    ensures "input" !in [] + ["stream"] + ["store"]
    ensures "tools" !in [] + ["stream"] + ["store"] + ["input"]
    ensures "tool_choice" !in [] + ["stream"] + ["store"] + ["input"] + ["tools"]
  {
    KeysDiffer();
  }

  lemma SettingKeys()
    ensures "instructions" !in CONTENT
    ensures "reasoning" !in CONTENT + ["instructions"]
    ensures "include" !in CONTENT + ["instructions"] + ["reasoning"]
    ensures "service_tier" !in CONTENT + ["instructions"] + ["reasoning"] + ["include"]
    ensures "prompt_cache_key" !in CONTENT + ["instructions"] + ["reasoning"] + ["include"] + ["service_tier"]
  {
    KeysDiffer();
  }

  /** The flags, the input, the tools and the choice. */
  method NormalizeContent(body: Body, w: World) returns (b: Body)
    ensures Edited(b, body, CONTENT, w)
  {
    hide Edited, Field, Set;
    ContentKeys();
    NothingEdited(body, w);
    Flags(body, w);
    ghost var done: seq<string> := [];
    EditOne(body, body, done, "stream", w);
    b := Set(body, "stream", Some(Bool(true)));
    done := done + ["stream"];
    EditOne(b, body, done, "store", w);
    b := Set(b, "store", Some(Bool(false)));
    done := done + ["store"];
    b := EditInput(b, body, done, w);
    done := done + ["input"];
    b := EditTools(b, body, done, w);
    done := done + ["tools"];
    b := EditChoice(b, body, done, w);
  }

  /** Instructions, reasoning, include, tier and session. */
  method NormalizeSettings(content: Body, ghost body: Body, w: World) returns (b: Body)
    requires Edited(content, body, CONTENT, w)
    ensures Edited(b, body, EDITED, w)
  {
    hide Edited, Field, Set;
    SettingKeys();
    ghost var done := CONTENT;
    b := EditInstructions(content, body, done, w);
    done := done + ["instructions"];
    var effort;
    b, effort := EditReasoning(b, body, done, w);
    done := done + ["reasoning"];
    b := EditInclude(b, body, done, effort, w);
    done := done + ["include"];
    b := EditTier(b, body, done, w);
    done := done + ["service_tier"];
    b := EditSession(b, body, done, w);
  }

  /** Edits the request field by field and drops the fields that are not allowed. */
  method NormalizeCodexRequest(body: Body, w: World) returns (b: Body)
    ensures b == Normal(body, w)
  {
    hide Edited, Normal;
    b := NormalizeContent(body, w);
    b := NormalizeSettings(b, body, w);
    Filtered(b, body, w);
    b := map key | key in b && key in ALLOWED :: b[key];
  }

  lemma NothingEdited(body: Body, w: World)
    ensures Edited(body, body, [], w)
  {
  }

  lemma Flags(body: Body, w: World)
    ensures Field(body, "stream", w) == Some(Bool(true)) && Field(body, "store", w) == Some(Bool(false))
  {
  }

  lemma Filtered(b: Body, body: Body, w: World)
    requires Edited(b, body, EDITED, w)
    ensures (map key | key in b && key in ALLOWED :: b[key]) == Normal(body, w)
  {
    hide Field, Edited;
    forall key | key in ALLOWED ensures (if key in b then Some(b[key]) else None) == Field(body, key, w) {
      FieldIsThere(b, body, key, w);
    }
  }

  lemma FieldIsThere(b: Body, body: Body, key: string, w: World)
    requires Edited(b, body, EDITED, w) && key in ALLOWED
    ensures (if key in b then Some(b[key]) else None) == Field(body, key, w)
  {
    hide Field;
    if key !in EDITED {
      OthersStay(body, key, w);
    }
  }

  lemma OthersStay(body: Body, key: string, w: World)
    requires key in ALLOWED && key !in EDITED
    ensures Field(body, key, w) == if key in body then Some(body[key]) else None
  {
  }
}
