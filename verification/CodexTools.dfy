/** The tools and the tool choice of a Codex request. */
module CodexTools {
  import opened Wrappers
  import C = Chat
  import opened Json
  import opened CodexSchema
  import P = Pivot

  const HOSTED := ["image_generation", "web_search", "web_search_preview", "file_search",
                   "computer", "computer_use_preview",
                   "code_interpreter", "mcp", "local_shell", "tool_search"]

  function Cut(name: string): string {
    C.Trunc(P.TrimSpace(name), P.NAME_LIMIT)
  }

  function TypeOf(v: Value): string {
    if v.Object? then Text(Lookup(v.members, "type")) else ""
  }

  function NameIn(ms: seq<Member>): string {
    P.TrimSpace(Text(Lookup(ms, "name")))
  }

  /** The nested `function` object of a chat tool. */
  function Nested(ms: seq<Member>): seq<Member> {
    var fn := Lookup(ms, "function");
    if fn.Object? then fn.members else []
  }

  // ---- One tool ----

  function FunctionName(ms: seq<Member>): string {
    if NameIn(ms) != "" then NameIn(ms) else NameIn(Nested(ms))
  }

  function Description(ms: seq<Member>): string {
    C.FirstNonEmpty(Text(Lookup(ms, "description")), Text(Lookup(Nested(ms), "description")))
  }

  function Parameters(ms: seq<Member>): Value {
    if Lookup(ms, "parameters").Object? then Lookup(ms, "parameters") else Lookup(Nested(ms), "parameters")
  }

  function Strict(ms: seq<Member>): Value {
    if Lookup(ms, "strict").Bool? then Lookup(ms, "strict")
    else if Lookup(Nested(ms), "strict").Bool? then Lookup(Nested(ms), "strict") else Null
  }

  function FunctionTool(name: string, description: string, parameters: Value, strict: Value): seq<Member> {
    [Member("type", String("function"))] + ([Member("name", String(name))]
    + ((if description != "" then [Member("description", String(description))] else [])
    + ([Member("parameters", parameters)] + ((if strict.Bool? then [Member("strict", strict)] else []) + []))))
  }

  /** A function of a namespace. */
  function NormalChild(v: Value): Option<Value> {
    if TypeOf(v) != "function" || NameIn(v.members) == "" then None
    else
      var named := Put(v.members, "name", String(Cut(Text(Lookup(v.members, "name")))));
      Some(Object(Put(named, "parameters", Params(Lookup(named, "parameters")))))
  }

  function NormalChildren(vs: seq<Value>): seq<Value> {
    if vs == [] then []
    else NormalChildren(vs[..|vs| - 1])
         + if NormalChild(vs[|vs| - 1]).Some? then [NormalChild(vs[|vs| - 1]).value] else []
  }

  function ItemsIn(v: Value): seq<Value> {
    if v.Array? then v.items else []
  }

  /** A tool as it is sent; `None` if it is dropped. */
  function NormalTool(v: Value): Option<Value> {
    if !v.Object? then None
    else
      var ms := v.members;
      match TypeOf(v)
      case "function" =>
        if FunctionName(ms) == "" then None
        else Some(Object(FunctionTool(C.Trunc(FunctionName(ms), P.NAME_LIMIT), Description(ms), Params(Parameters(ms)),
                                      Strict(ms))))
      case "custom" =>
        if NameIn(ms) == "" then None else Some(Object(Put(ms, "name", String(Cut(Text(Lookup(ms, "name")))))))
      case "namespace" =>
        var children := NormalChildren(ItemsIn(Lookup(ms, "tools")));
        if NameIn(ms) == "" || children == [] then None
        else Some(Object(Put(Put(ms, "name", String(Cut(Text(Lookup(ms, "name"))))), "tools", Array(children))))
      case other => if other in HOSTED then Some(v) else None
  }

  /** A name that fits: something, without spaces around it, not too long. */
  predicate Fits(name: string) {
    name != "" && P.Trimmed(name) && |name| <= P.NAME_LIMIT
  }

  lemma CutExactly(name: string)
    requires P.TrimSpace(name) != ""
    ensures Cut(name) != "" && |Cut(name)| <= P.NAME_LIMIT
    ensures Cut(name) == name <==> Fits(name)
    ensures Fits(Cut(name)) <==> Cut(Cut(name)) == Cut(name)
  {
    P.TrimExactly(name);
    P.TrimShortens(name);
    P.TrimShortens(P.TrimLeft(name));
    P.TrimExactly(Cut(name));
    P.TrimShortens(Cut(name));
    P.TrimShortens(P.TrimLeft(Cut(name)));
  }

  // ---- Normal tools ----

  predicate FitChild(v: Value) {
    TypeOf(v) == "function" && Lookup(v.members, "name").String? && Fits(Lookup(v.members, "name").s)
    && IsObjectSchema(Lookup(v.members, "parameters")) && Cleaned(Lookup(v.members, "parameters"))
  }

  /** A flat function with nothing but its own fields. */
  predicate FitFunction(ms: seq<Member>) {
    var p := Lookup(ms, "parameters");
    && ms == FunctionTool(Text(Lookup(ms, "name")), Text(Lookup(ms, "description")), p, Lookup(ms, "strict"))
    && IsObjectSchema(p) && Cleaned(p)
  }

  /** A tool of a supported type whose names fit and whose schemas are clean object schemas. */
  predicate FitTool(v: Value) {
    && v.Object?
    && (TypeOf(v) in ["function", "custom", "namespace"] ==>
          Lookup(v.members, "name").String? && Fits(Lookup(v.members, "name").s))
    && (match TypeOf(v)
        case "function" => FitFunction(v.members)
        case "custom" => true
        case "namespace" =>
          Lookup(v.members, "tools").Array? && Lookup(v.members, "tools").items != []
          && forall i :: 0 <= i < |Lookup(v.members, "tools").items| ==> FitChild(Lookup(v.members, "tools").items[i])
        case other => other in HOSTED)
  }

  lemma {:induction false} ChildExactly(v: Value)
    ensures NormalChild(v) == Some(v) <==> FitChild(v)
    ensures NormalChild(v).Some? ==>
      var r := NormalChild(v).value;
      FitChild(r) <==> Fits(Cut(Text(Lookup(v.members, "name"))))
  {
    hide IsObjectSchema, Cleaned, Params, Fits, Cut, P.TrimSpace;
    if TypeOf(v) == "function" && NameIn(v.members) != "" {
      var ms, name := v.members, Text(Lookup(v.members, "name"));
      var named := Put(ms, "name", String(Cut(name)));
      PutLookup(ms, "name", String(Cut(name)));
      PutLookup(named, "parameters", Params(Lookup(named, "parameters")));
      ParamsExactly(Lookup(ms, "parameters"));
      CutExactly(name);
      if FitChild(v) {
        PutSame(ms, "name");
        PutSame(ms, "parameters");
      }
    } else if FitChild(v) {
      NamedFits(v.members);
    }
  }

  /** A name that fits is a name. */
  lemma NamedFits(ms: seq<Member>)
    requires Lookup(ms, "name").String? && Fits(Lookup(ms, "name").s)
    ensures NameIn(ms) == Lookup(ms, "name").s && Cut(Lookup(ms, "name").s) == Lookup(ms, "name").s && NameIn(ms) != ""
  {
    P.TrimExactly(Lookup(ms, "name").s);
  }

  lemma {:induction false} ChildrenExactly(vs: seq<Value>)
    ensures |NormalChildren(vs)| <= |vs|
    ensures NormalChildren(vs) == vs <==> forall i :: 0 <= i < |vs| ==> FitChild(vs[i])
  {
    hide FitChild, NormalChild;
    if vs != [] {
      var init, v := vs[..|vs| - 1], vs[|vs| - 1];
      assert vs == init + [v];
      ChildrenExactly(init);
      ChildExactly(v);
      if NormalChildren(vs) == vs {
        assert NormalChild(v).Some?;
        assert NormalChildren(vs)[..|NormalChildren(init)|] == NormalChildren(init);
        assert NormalChildren(vs)[|NormalChildren(init)|] == NormalChild(v).value;
      }
    }
  }

  /** The names that are sent fit: cutting one to size does not leave a space at its end. */
  predicate SoundNames(v: Value) {
    TypeOf(v) != "" ==>
      var ms := v.members;
      match TypeOf(v)
      case "function" => Fits(C.Trunc(FunctionName(ms), P.NAME_LIMIT))
      case "custom" => Fits(Cut(Text(Lookup(ms, "name"))))
      case "namespace" => Fits(Cut(Text(Lookup(ms, "name")))) && SoundChildren(ItemsIn(Lookup(ms, "tools")))
      case _ => true
  }

  predicate SoundChildren(vs: seq<Value>) {
    forall i :: 0 <= i < |vs| && NormalChild(vs[i]).Some? ==> Fits(Cut(Text(Lookup(vs[i].members, "name"))))
  }

  lemma {:induction false} ChildrenBecome(vs: seq<Value>)
    ensures (forall i :: 0 <= i < |NormalChildren(vs)| ==> FitChild(NormalChildren(vs)[i])) <==> SoundChildren(vs)
  {
    hide FitChild, NormalChild, Fits, Cut;
    if vs != [] {
      var init, v := vs[..|vs| - 1], vs[|vs| - 1];
      var rest := NormalChildren(init);
      assert vs == init + [v];
      ChildrenBecome(init);
      ChildExactly(v);
      assert forall i :: 0 <= i < |rest| ==> NormalChildren(vs)[i] == rest[i];
      assert forall i :: 0 <= i < |init| ==> vs[i] == init[i];
      if NormalChild(v).Some? {
        assert NormalChildren(vs)[|rest|] == NormalChild(v).value;
      }
    }
  }

  lemma FunctionField(name: string, description: string, parameters: Value, strict: Value, key: string)
    ensures Lookup(FunctionTool(name, description, parameters, strict), key) ==
      if key == "type" then String("function")
      else if key == "name" then String(name)
      else if key == "description" then (if description != "" then String(description) else Null)
      else if key == "parameters" then parameters
      else if key == "strict" && strict.Bool? then strict
      else Null
  {
    var t, n := Member("type", String("function")), Member("name", String(name));
    var d := Member("description", String(description));
    var p := Member("parameters", parameters);
    var s := Member("strict", strict);
    var ss := (if strict.Bool? then [s] else []) + [];
    var ds := (if description != "" then [d] else []) + ([p] + ss);
    LookupMaybe(s, strict.Bool?, [], key);
    LookupCons(p, ss, key);
    LookupMaybe(d, description != "", [p] + ss, key);
    LookupCons(n, ds, key);
    LookupCons(t, [n] + ds, key);
    assert FunctionTool(name, description, parameters, strict) == [t] + ([n] + ds);
  }

  /** The fields of a function tool, one by one. */
  lemma FunctionFields(name: string, description: string, parameters: Value, strict: Value)
    ensures
      var ms := FunctionTool(name, description, parameters, strict);
      && Text(Lookup(ms, "type")) == "function" && Lookup(ms, "name") == String(name)
      && Text(Lookup(ms, "description")) == description && Lookup(ms, "parameters") == parameters
      && (strict.Bool? ==> Lookup(ms, "strict") == strict) && (!strict.Bool? ==> Lookup(ms, "strict") == Null)
      && Lookup(ms, "function") == Null
  {
    hide FunctionTool, Lookup;
    assert "type"[0] == 't' && "name"[0] == 'n';
    FunctionField(name, description, parameters, strict, "type");
    FunctionField(name, description, parameters, strict, "name");
    FunctionField(name, description, parameters, strict, "description");
    FunctionField(name, description, parameters, strict, "parameters");
    FunctionField(name, description, parameters, strict, "strict");
    FunctionField(name, description, parameters, strict, "function");
  }

  /** A function tool is sent unchanged exactly if it fits; what is sent fits if its name does. */
  lemma FunctionExactly(v: Value)
    requires TypeOf(v) == "function"
    ensures NormalTool(v) == Some(v) <==> FitTool(v)
    ensures NormalTool(v).Some? ==> (FitTool(NormalTool(v).value) <==> SoundNames(v))
  {
    hide FunctionTool, IsObjectSchema, Cleaned, Params, Fits, P.TrimSpace;
    var ms := v.members;
    var name, d, p, s := C.Trunc(FunctionName(ms), P.NAME_LIMIT), Description(ms), Params(Parameters(ms)), Strict(ms);
    FunctionFields(name, d, p, s);
    ParamsExactly(Parameters(ms));
    ParamsExactly(Lookup(ms, "parameters"));
    if FitTool(v) {
      NamedFits(ms);
      FunctionFields(Text(Lookup(ms, "name")), Text(Lookup(ms, "description")), Lookup(ms, "parameters"),
                     Lookup(ms, "strict"));
      FitsIsShort(Lookup(ms, "name").s);
    } else if NormalTool(v) == Some(v) {
      NoName();
      CutExactly(name);
      assert false;
    }
  }

  lemma NoName()
    ensures NameIn([]) == ""
  {
  }

  lemma FitsIsShort(name: string)
    requires Fits(name)
    ensures C.Trunc(name, P.NAME_LIMIT) == name
  {
  }

  lemma CustomExactly(v: Value)
    requires TypeOf(v) == "custom"
    ensures NormalTool(v) == Some(v) <==> FitTool(v)
    ensures NormalTool(v).Some? ==> (FitTool(NormalTool(v).value) <==> SoundNames(v))
  {
    hide Fits, Cut, P.TrimSpace;
    var ms, name := v.members, Text(Lookup(v.members, "name"));
    PutLookup(ms, "name", String(Cut(name)));
    if NameIn(ms) != "" {
      CutExactly(name);
      if FitTool(v) {
        PutSame(ms, "name");
      }
    } else if FitTool(v) {
      NamedFits(ms);
    }
  }

  lemma NamespaceExactly(v: Value)
    requires TypeOf(v) == "namespace"
    ensures NormalTool(v) == Some(v) <==> FitTool(v)
    ensures NormalTool(v).Some? ==> (FitTool(NormalTool(v).value) <==> SoundNames(v))
  {
    hide Fits, Cut, P.TrimSpace, FitChild, NormalChildren, SoundChildren;
    var ms, name, children := v.members, Text(Lookup(v.members, "name")), ItemsIn(Lookup(v.members, "tools"));
    var named := Put(ms, "name", String(Cut(name)));
    PutLookup(ms, "name", String(Cut(name)));
    PutLookup(named, "tools", Array(NormalChildren(children)));
    ChildrenExactly(children);
    ChildrenBecome(children);
    if NameIn(ms) != "" {
      CutExactly(name);
      if FitTool(v) {
        PutSame(ms, "name");
        PutSame(ms, "tools");
      }
    } else if FitTool(v) {
      NamedFits(ms);
    }
  }

  /** A tool is sent unchanged exactly if it fits; what is sent of a tool fits exactly if its
      names do once they are trimmed and cut to size. */
  lemma ToolExactly(v: Value)
    ensures NormalTool(v) == Some(v) <==> FitTool(v)
    ensures NormalTool(v).Some? ==> (FitTool(NormalTool(v).value) <==> SoundNames(v))
  {
    if TypeOf(v) == "function" {
      FunctionExactly(v);
    } else if TypeOf(v) == "custom" {
      CustomExactly(v);
    } else if TypeOf(v) == "namespace" {
      NamespaceExactly(v);
    }
  }

  // ---- The list of tools ----

  function NormalTools(vs: seq<Value>): seq<Value> {
    if vs == [] then []
    else NormalTools(vs[..|vs| - 1]) + if NormalTool(vs[|vs| - 1]).Some? then [NormalTool(vs[|vs| - 1]).value] else []
  }

  predicate AllFit(vs: seq<Value>) {
    forall i :: 0 <= i < |vs| ==> FitTool(vs[i])
  }

  /** The tools that are kept have names that fit once they are cut to size. */
  predicate AllSound(vs: seq<Value>) {
    forall i :: 0 <= i < |vs| && NormalTool(vs[i]).Some? ==> SoundNames(vs[i])
  }

  lemma {:induction false} ToolsExactly(vs: seq<Value>)
    ensures |NormalTools(vs)| <= |vs|
    ensures NormalTools(vs) == vs <==> AllFit(vs)
    ensures AllFit(NormalTools(vs)) <==> AllSound(vs)
  {
    hide FitTool, NormalTool, SoundNames;
    if vs != [] {
      var init, v := vs[..|vs| - 1], vs[|vs| - 1];
      var rest := NormalTools(init);
      assert vs == init + [v];
      ToolsExactly(init);
      ToolExactly(v);
      assert forall i :: 0 <= i < |rest| ==> NormalTools(vs)[i] == rest[i];
      assert forall i :: 0 <= i < |init| ==> vs[i] == init[i];
      if NormalTool(v).Some? {
        assert NormalTools(vs)[|rest|] == NormalTool(v).value;
      }
      if NormalTools(vs) == vs {
        assert NormalTool(v).Some?;
        assert NormalTools(vs)[..|rest|] == rest;
      }
    }
  }

  /** Normalizing the tools a second time changes nothing, exactly if no kept name ends in a
      space where it was cut. */
  lemma ToolsSettleExactly(vs: seq<Value>)
    ensures NormalTools(NormalTools(vs)) == NormalTools(vs) <==> AllSound(vs)
  {
    ToolsExactly(vs);
    ToolsExactly(NormalTools(vs));
  }

  /** A function tool as it is sent, field by field. */
  lemma FunctionIsSent(v: Value)
    requires TypeOf(v) == "function" && NormalTool(v).Some?
    ensures NormalTool(v).value.Object?
    ensures
      var ms, sent := v.members, NormalTool(v).value.members;
      var own := Lookup(ms, "function");
      var nested := if own.Object? then own.members else [];
      var name := if P.TrimSpace(Text(Lookup(ms, "name"))) != "" then P.TrimSpace(Text(Lookup(ms, "name")))
                  else P.TrimSpace(Text(Lookup(nested, "name")));
      && name != "" && Lookup(sent, "name") == String(if |name| <= 128 then name else name[..128])
      && Lookup(sent, "type") == String("function")
      && Text(Lookup(sent, "description")) ==
           (if Text(Lookup(ms, "description")) != "" then Text(Lookup(ms, "description"))
            else Text(Lookup(nested, "description")))
      && Lookup(sent, "parameters") ==
           Params(if Lookup(ms, "parameters").Object? then Lookup(ms, "parameters") else Lookup(nested, "parameters"))
      && (if Lookup(ms, "strict").Bool? then Lookup(sent, "strict") == Lookup(ms, "strict")
          else if Lookup(nested, "strict").Bool? then Lookup(sent, "strict") == Lookup(nested, "strict")
          else Lookup(sent, "strict") == Null)
  {
    hide FunctionTool, Params, P.TrimSpace, Lookup;
    var ms := v.members;
    FunctionFields(C.Trunc(FunctionName(ms), P.NAME_LIMIT), Description(ms), Params(Parameters(ms)), Strict(ms));
    FunctionField(C.Trunc(FunctionName(ms), P.NAME_LIMIT), Description(ms), Params(Parameters(ms)), Strict(ms), "type");
  }

  /** A tool in the nested form of chat requests is sent as the flat tool with the same fields. */
  lemma NestedAsFlat(nested: seq<Member>, flat: seq<Member>)
    requires Lookup(flat, "type") == String("function") && Lookup(flat, "function") == Null
    requires forall key :: key in ["name", "description", "parameters", "strict"] ==>
               Lookup(flat, key) == Lookup(nested, key)
    ensures NormalTool(Object([Member("type", String("function")), Member("function", Object(nested))])) ==
      NormalTool(Object(flat))
  {
    hide FunctionTool, Params, P.TrimSpace, Lookup;
    var ms := [Member("type", String("function")), Member("function", Object(nested))];
    assert "type"[0] == 't' && "name"[0] == 'n';
    TwoMembers(ms[0], ms[1], "type");
    TwoMembers(ms[0], ms[1], "function");
    TwoMembers(ms[0], ms[1], "name");
    TwoMembers(ms[0], ms[1], "description");
    TwoMembers(ms[0], ms[1], "parameters");
    TwoMembers(ms[0], ms[1], "strict");
    NothingNested(flat);
    NoObject(Lookup(nested, "parameters"));
    NoName();
    assert FunctionName(ms) == FunctionName(flat) && Description(ms) == Description(flat) && Strict(ms) == Strict(flat);
    assert Params(Parameters(ms)) == Params(Parameters(flat));
  }

  lemma TwoMembers(a: Member, b: Member, key: string)
    ensures Lookup([a, b], key) == if a.key == key then a.value else if b.key == key then b.value else Null
  {
    LookupCons(b, [], key);
    LookupCons(a, [b], key);
    assert [b] + [] == [b] && [a] + [b] == [a, b];
  }

  /** Parameters that are no object count as missing. */
  lemma NoObject(v: Value)
    ensures !v.Object? ==> Params(v) == Params(Null)
  {
  }

  lemma NothingNested(flat: seq<Member>)
    requires Lookup(flat, "function") == Null
    ensures Nested(flat) == [] && P.TrimSpace("") == ""
    ensures forall key :: Lookup([], key) == Null
  {
  }

  const LONG_NAME: string := seq(127, _ => 'a')

  function CustomTool(name: string): Value {
    Object([Member("type", String("custom")), Member("name", String(name))])
  }

  /** A name of 127 letters, a space and one more letter is cut after the space; the second
      time, the space goes. */
  lemma CutBehindASpace()
    ensures
      var tools := [CustomTool(LONG_NAME + " b")];
      && NormalTools(tools) == [CustomTool(LONG_NAME + " ")]
      && NormalTools(NormalTools(tools)) != NormalTools(tools)
  {
    var tool, name, cut := CustomTool(LONG_NAME + " b"), LONG_NAME + " b", LONG_NAME + " ";
    assert "type"[0] == 't' && "name"[0] == 'n';
    assert Lookup(tool.members, "type") == String("custom");
    assert tool.members[1..] == [Member("name", String(name))];
    assert Lookup(tool.members, "name") == String(name);
    P.TrimExactly(name);
    assert P.TrimSpace(name) == name;
    assert Cut(name) == cut;
    assert NormalTool(tool) == Some(CustomTool(cut)) by {
      assert Put(tool.members[1..], "name", String(cut)) == [Member("name", String(cut))];
      assert Put(tool.members, "name", String(cut)) == CustomTool(cut).members;
    }
    assert [tool][..0] == [];
    assert NormalTools([tool]) == [CustomTool(cut)];
    assert !Fits(Cut(name)) by { assert cut[|cut| - 1] == ' '; }
    assert !SoundNames(tool);
    assert [tool][0] == tool;
    ToolsSettleExactly([tool]);
  }

  // ---- The tool choice ----

  predicate Offers(tools: seq<Value>, kind: string, name: string) {
    exists i :: 0 <= i < |tools| && tools[i].Object? && Lookup(tools[i].members, "type") == String(kind)
      && (name == "" || Lookup(tools[i].members, "name") == String(name))
  }

  /** The choice as it is sent with the given tools; `None` if it is dropped. */
  function NormalChoice(choice: Value, tools: seq<Value>): Option<Value> {
    match choice
    case String(s) => if s in ["auto", "none", "required"] then Some(choice) else None
    case Object(ms) =>
      var kind := P.TrimSpace(Text(Lookup(ms, "type")));
      if kind == "function" || kind == "custom" then
        var own := NameIn(ms);
        var name := C.Trunc(if own == "" && kind == "function" then NameIn(Nested(ms)) else own, P.NAME_LIMIT);
        if name == "" || !Offers(tools, kind, name) then None
        else Some(Object([Member("type", String(kind))] + [Member("name", String(name))]))
      else if kind !in HOSTED || !Offers(tools, kind, "") then None
      else Some(choice)
    case _ => None
  }

  /** A choice that can be met is sent: the three words, a function or custom tool that is
      offered under its cut name, and any other kind that is hosted and offered. */
  lemma ChoiceIsSent(choice: Value, tools: seq<Value>)
    ensures choice in [String("auto"), String("none"), String("required")] ==>
              NormalChoice(choice, tools) == Some(choice)
    ensures choice.Object? ==>
      var kind := P.TrimSpace(Text(Lookup(choice.members, "type")));
      var own := P.TrimSpace(Text(Lookup(choice.members, "name")));
      var nested := P.TrimSpace(Text(Lookup(Nested(choice.members), "name")));
      var name := C.Trunc(if own == "" && kind == "function" then nested else own, 128);
      && (kind in ["function", "custom"] && name != "" && Offers(tools, kind, name) ==>
            && NormalChoice(choice, tools).Some? && NormalChoice(choice, tools).value.Object?
            && Lookup(NormalChoice(choice, tools).value.members, "type") == String(kind)
            && Lookup(NormalChoice(choice, tools).value.members, "name") == String(name))
      && (kind !in ["function", "custom"] && kind in HOSTED && Offers(tools, kind, "") ==>
            NormalChoice(choice, tools) == Some(choice))
  {
    hide Offers, P.TrimSpace, Lookup;
    if choice.Object? {
      var kind := P.TrimSpace(Text(Lookup(choice.members, "type")));
      var own := NameIn(choice.members);
      var name := C.Trunc(if own == "" && kind == "function" then NameIn(Nested(choice.members)) else own, 128);
      assert "type"[0] == 't' && "name"[0] == 'n';
      TwoMembers(Member("type", String(kind)), Member("name", String(name)), "type");
      TwoMembers(Member("type", String(kind)), Member("name", String(name)), "name");
      var pair := [Member("type", String(kind))] + [Member("name", String(name))];
      assert pair == [Member("type", String(kind)), Member("name", String(name))];
    }
  }

  /** An object choice that is sent names a tool that is sent, by its type or, for functions
      and custom tools, by its name, and stays as it is. */
  lemma ChoiceNamesATool(choice: Value, tools: seq<Value>)
    requires NormalChoice(choice, tools).Some? && AllFit(tools)
    ensures
      var r := NormalChoice(choice, tools).value;
      && (r.Object? && TypeOf(r) in ["function", "custom"] ==>
            Lookup(r.members, "name").String? && Offers(tools, TypeOf(r), Lookup(r.members, "name").s))
      && (r.Object? && TypeOf(r) !in ["function", "custom"] ==>
            P.TrimSpace(TypeOf(r)) in HOSTED && Offers(tools, P.TrimSpace(TypeOf(r)), ""))
      && NormalChoice(r, tools) == Some(r)
  {
    hide AllFit, Offers, P.TrimSpace, Lookup;
    TrimmedKinds();
    var r := NormalChoice(choice, tools).value;
    if choice.Object? {
      var kind := P.TrimSpace(Text(Lookup(choice.members, "type")));
      if kind == "function" || kind == "custom" {
        var name := r.members[1].value.s;
        ChoiceFields(kind, name);
        FitNames(tools, kind, name);
      }
    }
  }

  lemma TrimmedKinds()
    ensures P.TrimSpace("function") == "function" && P.TrimSpace("custom") == "custom"
  {
    P.TrimExactly("function");
    P.TrimExactly("custom");
  }

  lemma ChoiceFields(kind: string, name: string)
    ensures
      var ms := [Member("type", String(kind))] + [Member("name", String(name))];
      Lookup(ms, "type") == String(kind) && Lookup(ms, "name") == String(name) && Lookup(ms, "function") == Null
  {
    assert "type"[0] == 't' && "name"[0] == 'n';
    var n := [Member("name", String(name))];
    LookupCons(Member("type", String(kind)), n, "type");
    LookupCons(Member("type", String(kind)), n, "name");
    LookupCons(Member("type", String(kind)), n, "function");
  }

  /** The names of fitting tools are trimmed and short. */
  lemma FitNames(tools: seq<Value>, kind: string, name: string)
    requires AllFit(tools) && kind in ["function", "custom"] && name != "" && Offers(tools, kind, name)
    ensures P.TrimSpace(name) == name && |name| <= P.NAME_LIMIT
  {
    var i :| 0 <= i < |tools| && tools[i].Object? && Lookup(tools[i].members, "type") == String(kind)
      && (name == "" || Lookup(tools[i].members, "name") == String(name));
    assert FitTool(tools[i]) && TypeOf(tools[i]) == kind;
    P.TrimExactly(name);
  }
}
