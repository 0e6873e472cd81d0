/** The per-request tool bridge: namespaced and free-text tools travel through the chat
    protocol as plain functions under an alias, and get their identity back on the way
    to the client. */
module ResponsesTools {
  import opened Wrappers
  import opened JsonString
  import opened ResponsesClient
  import I = ResponsesItems

  datatype Identity = Identity(name: string, namespace: string, custom: bool)

  /** What a declaration says beside its identity; schemas and the format are kept as text. */
  datatype ToolBody = ToolBody(schema: string, description: Option<string>, strict: Option<bool>,
                               format: Option<string>)

  datatype ToolDecl = NotAnObject | Decl(kind: string, name: string, children: seq<ToolDecl>, body: ToolBody)

  datatype FunctionTool = FunctionTool(name: string, schema: string, description: Option<string>, strict: Option<bool>)

  /** A declared tool: its identity and its body. */
  datatype Declaration = Declaration(id: Identity, body: ToolBody)

  const INPUT_SCHEMA :=
    "{\"type\":\"object\",\"properties\":{\"input\":{\"type\":\"string\","
    + "\"description\":\"The complete raw text input for this tool.\"}},"
    + "\"required\":[\"input\"],\"additionalProperties\":false}"
  const INPUT_HINT := "\nPass the complete raw tool input in the input string."
  const FORMAT_HINT := "\nInput format: "

  function Str(s: Option<string>): string {
    if s.Some? then s.value else ""
  }

  /** The chat function that stands for a tool. */
  function Definition(d: Declaration, alias: string): FunctionTool {
    var description :=
      if d.id.custom
      then Some(Str(d.body.description) + INPUT_HINT
                + if d.body.format.Some? then FORMAT_HINT + d.body.format.value else "")
      else d.body.description;
    FunctionTool(
      alias,
      if d.id.custom then INPUT_SCHEMA else d.body.schema,
      if alias != d.id.name then Some(d.id.namespace + "." + d.id.name + ": " + Str(description)) else description,
      d.body.strict)
  }

  // ---- What a nested list of declarations says ----

  /** Every name that occurs in the list, at any depth. */
  function Names(ds: seq<ToolDecl>): set<string> {
    if ds == [] then {}
    else
      var d := ds[|ds| - 1];
      Names(ds[..|ds| - 1]) + if d.Decl? then {d.name} + Names(d.children) else {""}
  }

  /** The tools of the list in order, namespaces flattened. */
  function Declared(ds: seq<ToolDecl>, ns: string): seq<Declaration>
    decreases ds
  {
    if ds == [] then [] else Declared(ds[..|ds| - 1], ns) + DeclaredOne(ds[|ds| - 1], ns)
  }

  function DeclaredOne(d: ToolDecl, ns: string): seq<Declaration>
    decreases d
  {
    if d.NotAnObject? then []
    else if d.kind == "namespace" then Declared(d.children, d.name)
    else if d.name == "" || (d.kind != "function" && d.kind != "custom") then []
    else [Declaration(Identity(d.name, ns, d.kind == "custom"), d.body)]
  }

  /** The identities in the order of their first declaration. */
  function Ids(ds: seq<Declaration>): seq<Identity> {
    if ds == [] then []
    else
      var ids, id := Ids(ds[..|ds| - 1]), ds[|ds| - 1].id;
      if id in ids then ids else ids + [id]
  }

  /** The body of the last declaration of an identity. */
  function LastBody(ds: seq<Declaration>, id: Identity): ToolBody
    requires id in Ids(ds)
  {
    var d := ds[|ds| - 1];
    if d.id == id then d.body else LastBody(ds[..|ds| - 1], id)
  }

  /** Tools that need no alias: plain functions outside any namespace. */
  predicate Plain(id: Identity) {
    id.namespace == "" && !id.custom
  }

  /** The hash gives distinct values on distinct salts. */
  ghost predicate Salted(hash: (Identity, nat) -> string) {
    forall id, a: nat, b: nat :: a != b ==> hash(id, a) != hash(id, b)
  }

  // ---- The registry a bridge is built into ----

  ghost predicate Inverse(byAlias: map<string, Identity>, byIdentity: map<Identity, string>) {
    && (forall id :: id in byIdentity ==> byIdentity[id] in byAlias && byAlias[byIdentity[id]] == id)
    && (forall a :: a in byAlias ==> byAlias[a] in byIdentity && byIdentity[byAlias[a]] == a)
  }

  /** A plain function keeps its name; any other tool gets a hash that no declaration uses as a name. */
  ghost predicate ProperAlias(id: Identity, alias: string, names: set<string>, hash: (Identity, nat) -> string) {
    if Plain(id) then alias == id.name else alias !in names && exists salt: nat :: alias == hash(id, salt)
  }

  ghost predicate ProperAliases(byIdentity: map<Identity, string>, names: set<string>, hash: (Identity, nat) -> string)
  {
    && (forall id :: id in byIdentity ==> ProperAlias(id, byIdentity[id], names, hash))
    && (forall id :: id in byIdentity ==> id.name in names)
  }

  /** One definition per identity, in the order of first declaration, with the last body. */
  ghost predicate Defined(ds: seq<Declaration>, byIdentity: map<Identity, string>, tools: seq<FunctionTool>) {
    var ids := Ids(ds);
    && (forall id :: id in ids <==> id in byIdentity)
    && |tools| == |ids|
    && forall i :: 0 <= i < |ids| ==> tools[i] == Definition(Declaration(ids[i], LastBody(ds, ids[i])),
                                                             byIdentity[ids[i]])
  }

  ghost predicate Indexed(ds: seq<Declaration>, indexes: map<Identity, nat>) {
    && (forall id :: id in Ids(ds) <==> id in indexes)
    && (forall id :: id in indexes ==> indexes[id] < |Ids(ds)| && Ids(ds)[indexes[id]] == id)
  }

  ghost predicate Reserving(reserved: set<string>, names: set<string>, byAlias: map<string, Identity>) {
    reserved == names + byAlias.Keys
  }

  lemma {:induction false} IdsDistinct(ds: seq<Declaration>)
    ensures forall i, j :: 0 <= i < j < |Ids(ds)| ==> Ids(ds)[i] != Ids(ds)[j]
  {
    if ds != [] {
      IdsDistinct(ds[..|ds| - 1]);
    }
  }

  lemma IdsSnoc(ds: seq<Declaration>, d: Declaration)
    ensures Ids(ds + [d]) == if d.id in Ids(ds) then Ids(ds) else Ids(ds) + [d.id]
    ensures forall id :: id in Ids(ds + [d]) ==>
              LastBody(ds + [d], id) == if id == d.id then d.body else LastBody(ds, id)
  {
    assert (ds + [d])[..|ds|] == ds;
  }

  /** The first `n` salts give `n` different hashes. */
  function Tried(hash: (Identity, nat) -> string, id: Identity, n: nat): set<string> {
    set s: nat | s < n :: hash(id, s)
  }

  lemma {:induction false} TriedSize(hash: (Identity, nat) -> string, id: Identity, n: nat)
    requires Salted(hash)
    ensures |Tried(hash, id, n)| == n
  {
    if n > 0 {
      TriedSize(hash, id, n - 1);
      assert Tried(hash, id, n) == Tried(hash, id, n - 1) + {hash(id, n - 1)};
      assert hash(id, n - 1) !in Tried(hash, id, n - 1);
    }
  }

  lemma {:induction false} SubsetSize<T>(a: set<T>, b: set<T>)
    requires a <= b
    ensures |a| <= |b|
  {
    if a != {} {
      var x :| x in a;
      SubsetSize(a - {x}, b - {x});
    }
  }

  /** The search for a free alias: the reserved names cannot hold all salted hashes. */
  method FreeAlias(id: Identity, reserved: set<string>, hash: (Identity, nat) -> string)
    returns (alias: string, ghost salt: nat)
    requires Salted(hash)
    ensures alias == hash(id, salt) && alias !in reserved
    ensures forall s: nat :: s < salt ==> hash(id, s) in reserved
  {
    var n := 0;
    alias := hash(id, n);
    while alias in reserved
      invariant alias == hash(id, n)
      invariant forall s: nat :: s < n ==> hash(id, s) in reserved
      decreases |reserved| - n
    {
      TriedSize(hash, id, n + 1);
      SubsetSize(Tried(hash, id, n + 1), reserved);
      n := n + 1;
      alias := hash(id, n);
    }
    salt := n;
  }

  /** Everything a prefix of a list, or the children of one of its tools, name is named by the list. */
  lemma {:induction false} NamesInside(ds: seq<ToolDecl>, i: nat)
    requires i < |ds|
    ensures Names(ds[..i]) <= Names(ds)
    ensures ds[i].Decl? ==> ds[i].name in Names(ds) && Names(ds[i].children) <= Names(ds)
  {
    var init := ds[..|ds| - 1];
    if i == |ds| - 1 {
      assert ds[..i] == init;
    } else {
      NamesInside(init, i);
      assert init[..i] == ds[..i];
    }
  }

  lemma DeclaredSnoc(ds: seq<ToolDecl>, i: nat, ns: string)
    requires i < |ds|
    ensures ds[..i + 1][..i] == ds[..i]
    ensures Names(ds[..i + 1]) == Names(ds[..i]) + if ds[i].Decl? then {ds[i].name} + Names(ds[i].children) else {""}
    ensures Declared(ds[..i + 1], ns) == Declared(ds[..i], ns) + DeclaredOne(ds[i], ns)
  {
    assert ds[..i + 1][..i] == ds[..i];
  }

  method Reserve(ds: seq<ToolDecl>, reserved: set<string>) returns (all: set<string>)
    ensures all == reserved + Names(ds)
    decreases ds
  {
    all := reserved;
    for i := 0 to |ds|
      invariant all == reserved + Names(ds[..i])
    {
      DeclaredSnoc(ds, i, "");
      match ds[i] {
        case NotAnObject =>
          all := all + {""};
        case Decl(_, name, children, _) =>
          all := Reserve(children, all + {name});
      }
    }
    assert ds[..|ds|] == ds;
  }

  /** The registry after one more declaration is registered under its alias. */
  lemma RegisterOne(ds: seq<Declaration>, d: Declaration, alias: string, names: set<string>,
                    hash: (Identity, nat) -> string,
                    byAlias: map<string, Identity>, byIdentity: map<Identity, string>,
                    indexes: map<Identity, nat>, tools: seq<FunctionTool>)
    requires Inverse(byAlias, byIdentity) && ProperAliases(byIdentity, names, hash)
    requires Defined(ds, byIdentity, tools) && Indexed(ds, indexes)
    requires d.id.name in names && ProperAlias(d.id, alias, names, hash)
    requires if d.id in byIdentity then alias == byIdentity[d.id] else Plain(d.id) || alias !in byAlias
    ensures
      var tool := Definition(d, alias);
      var n := |tools|;
      && Inverse(byAlias[alias := d.id], byIdentity[d.id := alias])
      && ProperAliases(byIdentity[d.id := alias], names, hash)
      && (d.id in indexes ==> indexes[d.id] < n)
      && Defined(ds + [d], byIdentity[d.id := alias],
                 if d.id in indexes then tools[indexes[d.id] := tool] else tools + [tool])
      && Indexed(ds + [d], if d.id in indexes then indexes else indexes[d.id := n])
  {
    AliasIsNew(d.id, alias, names, hash, byAlias, byIdentity);
    DefineOne(ds, d, alias, byIdentity, indexes, tools);
  }

  /** An identity registered for the first time takes an alias nobody holds. */
  lemma AliasIsNew(id: Identity, alias: string, names: set<string>, hash: (Identity, nat) -> string,
                   byAlias: map<string, Identity>, byIdentity: map<Identity, string>)
    requires Inverse(byAlias, byIdentity) && ProperAliases(byIdentity, names, hash)
    requires id.name in names && ProperAlias(id, alias, names, hash)
    requires if id in byIdentity then alias == byIdentity[id] else Plain(id) || alias !in byAlias
    ensures id !in byIdentity ==> alias !in byAlias
    ensures Inverse(byAlias[alias := id], byIdentity[id := alias])
    ensures ProperAliases(byIdentity[id := alias], names, hash)
  {
    assert forall a :: a in byAlias ==> ProperAlias(byAlias[a], a, names, hash);
  }

  lemma DefineOne(ds: seq<Declaration>, d: Declaration, alias: string, byIdentity: map<Identity, string>,
                  indexes: map<Identity, nat>, tools: seq<FunctionTool>)
    requires Defined(ds, byIdentity, tools) && Indexed(ds, indexes)
    requires d.id in byIdentity ==> alias == byIdentity[d.id]
    ensures
      var tool := Definition(d, alias);
      var n := |tools|;
      && (d.id in indexes ==> indexes[d.id] < n)
      && Defined(ds + [d], byIdentity[d.id := alias],
                 if d.id in indexes then tools[indexes[d.id] := tool] else tools + [tool])
      && Indexed(ds + [d], if d.id in indexes then indexes else indexes[d.id := n])
  {
    if d.id in indexes {
      RedefineKnown(ds, d, alias, byIdentity, indexes, tools);
    } else {
      DefineNew(ds, d, alias, byIdentity, indexes, tools);
    }
  }

  lemma RedefineKnown(ds: seq<Declaration>, d: Declaration, alias: string, byIdentity: map<Identity, string>,
                      indexes: map<Identity, nat>, tools: seq<FunctionTool>)
    requires Defined(ds, byIdentity, tools) && Indexed(ds, indexes)
    requires d.id in indexes && d.id in byIdentity && alias == byIdentity[d.id]
    ensures indexes[d.id] < |tools|
    ensures Defined(ds + [d], byIdentity, tools[indexes[d.id] := Definition(d, alias)])
    ensures Indexed(ds + [d], indexes) && byIdentity[d.id := alias] == byIdentity
  {
    hide Definition;
    IdsSnoc(ds, d);
    IdsDistinct(ds);
    var ids, at := Ids(ds), indexes[d.id];
    var tools' := tools[at := Definition(d, alias)];
    forall i | 0 <= i < |ids|
      ensures tools'[i] == Definition(Declaration(ids[i], LastBody(ds + [d], ids[i])), byIdentity[ids[i]])
    {
      assert ids[i] in Ids(ds + [d]);
      if i == at {
        assert Declaration(ids[i], d.body) == d;
      }
    }
  }

  lemma DefineNew(ds: seq<Declaration>, d: Declaration, alias: string, byIdentity: map<Identity, string>,
                  indexes: map<Identity, nat>, tools: seq<FunctionTool>)
    requires Defined(ds, byIdentity, tools) && Indexed(ds, indexes)
    requires d.id !in indexes
    ensures Defined(ds + [d], byIdentity[d.id := alias], tools + [Definition(d, alias)])
    ensures Indexed(ds + [d], indexes[d.id := |tools|])
  {
    hide Definition, LastBody, Ids;
    NewId(ds, d);
    var ids, byIdentity', tools' := Ids(ds), byIdentity[d.id := alias], tools + [Definition(d, alias)];
    forall i | 0 <= i < |ids| + 1
      ensures tools'[i] == Definition(Declaration(Ids(ds + [d])[i], LastBody(ds + [d], Ids(ds + [d])[i])),
                                      byIdentity'[Ids(ds + [d])[i]])
    {
      if i < |ids| {
        assert ids[i] in ids && Ids(ds + [d])[i] == ids[i];
      } else {
        assert Declaration(d.id, d.body) == d;
      }
    }
  }

  /** A new identity comes last and leaves the bodies of the others alone. */
  lemma NewId(ds: seq<Declaration>, d: Declaration)
    requires d.id !in Ids(ds)
    ensures Ids(ds + [d]) == Ids(ds) + [d.id]
    ensures LastBody(ds + [d], d.id) == d.body
    ensures forall id :: id in Ids(ds) ==> id in Ids(ds + [d]) && LastBody(ds + [d], id) == LastBody(ds, id)
  {
    IdsSnoc(ds, d);
  }

  // ---- Items in both directions ----

  /** What the decoding of a custom tool's arguments must do: undo the wrapper, and leave
      the empty text alone. */
  ghost predicate InputDecoder(decode: string -> string) {
    && decode("") == ""
    && forall s :: decode(WrapInput(s)) == s
  }

  /** The decoding itself; `other` is what the JSON decoder makes of arguments that are not
      exactly one wrapper (the text itself when it is not a JSON object of that type). */
  function CustomToolInput(args: string, other: string -> string): string {
    var input := UnwrapInput(args);
    if input.Some? then input.value else other(args)
  }

  lemma CustomToolInputDecodes(other: string -> string)
    requires other("") == ""
    ensures InputDecoder((args: string) => CustomToolInput(args, other))
  {
    forall s: string ensures CustomToolInput(WrapInput(s), other) == s {
      WrapRoundTrip(s);
    }
  }

  function AliasOf(byIdentity: map<Identity, string>, id: Identity): string {
    if id in byIdentity then byIdentity[id] else id.name
  }

  function IdentityOf(item: I.Item): Identity
    requires I.IsCall(item)
  {
    Identity(item.name, item.namespace, item.CustomCall?)
  }

  /** An item of the request history as the upstream sees it: tools go by their alias, and free
      text is wrapped. */
  function Incoming(byIdentity: map<Identity, string>, item: I.Item): I.Item {
    match item
    case FunctionCall(c, n, ns, arguments) =>
      I.FunctionCall(c, AliasOf(byIdentity, Identity(n, ns, false)), ns, arguments)
    case CustomCall(c, n, ns, input) =>
      I.FunctionCall(c, AliasOf(byIdentity, Identity(n, ns, true)), ns, WrapInput(input))
    case CallOutput(_, c, output) => I.CallOutput(false, c, output)
    case _ => item
  }

  /** A plain function goes by its own name. */
  ghost predicate PlainNames(byIdentity: map<Identity, string>) {
    forall id :: id in byIdentity && Plain(id) ==> byIdentity[id] == id.name
  }

  lemma ProperIsPlain(byIdentity: map<Identity, string>, names: set<string>, hash: (Identity, nat) -> string)
    requires ProperAliases(byIdentity, names, hash)
    ensures PlainNames(byIdentity)
  {
  }

  /** A call from the upstream as the client sees it. */
  function Restored(byAlias: map<string, Identity>, decode: string -> string, item: Item): Item {
    match item
    case FunctionCall(id, c, n, ns, args, done) =>
      if n !in byAlias then item
      else
        var t := byAlias[n];
        var ns' := if t.namespace != "" then t.namespace else ns;
        if t.custom then CustomCall(id, c, t.name, ns', decode(args), done)
        else FunctionCall(id, c, t.name, ns', args, done)
    case _ => item
  }

  /** The identities remembered by item, after an item is restored. */
  function Remembered(byAlias: map<string, Identity>, items: map<ItemId, Identity>, item: Item): map<ItemId, Identity> {
    if item.FunctionCall? && item.name in byAlias then items[item.id := byAlias[item.name]] else items
  }

  /** The item of a call in a reply. */
  function ReplyItem(id: ItemId, call: I.Item, completed: bool): Item
    requires I.IsCall(call)
  {
    match call
    case FunctionCall(c, n, ns, arguments) => FunctionCall(id, c, n, ns, arguments, completed)
    case CustomCall(c, n, ns, input) => CustomCall(id, c, n, ns, input, completed)
  }

  /** A declared tool's call survives the way up and back unchanged: when the upstream repeats
      what it was sent, which has no namespace, the client sees the call it made. */
  lemma CallRoundTrip(byAlias: map<string, Identity>, byIdentity: map<Identity, string>, decode: string -> string,
                      call: I.Item, id: ItemId, completed: bool)
    requires Inverse(byAlias, byIdentity) && InputDecoder(decode)
    requires I.IsCall(call) && IdentityOf(call) in byIdentity
    ensures
      var up := Incoming(byIdentity, call);
      && up.FunctionCall?
      && Restored(byAlias, decode, FunctionCall(id, up.callId, up.name, "", up.arguments, completed))
         == ReplyItem(id, call, completed)
  {
    var alias := byIdentity[IdentityOf(call)];
    assert alias in byAlias && byAlias[alias] == IdentityOf(call);
  }

  /** Restoring twice is restoring once: a restored name is a declared one, and the only
      alias that is a declared name belongs to the plain function of that name. */
  lemma RestoreIdempotent(byAlias: map<string, Identity>, byIdentity: map<Identity, string>, names: set<string>,
                          hash: (Identity, nat) -> string, decode: string -> string, item: Item)
    requires Inverse(byAlias, byIdentity) && ProperAliases(byIdentity, names, hash)
    ensures
      var once := Restored(byAlias, decode, item);
      Restored(byAlias, decode, once) == once
  {
    if item.FunctionCall? && item.name in byAlias {
      var t := byAlias[item.name];
      assert t in byIdentity && t.name in names;
      if t.name in byAlias {
        assert ProperAlias(byAlias[t.name], t.name, names, hash);
      }
    }
  }

  /** The upstream sees pairwise distinct function names. */
  lemma ToolNamesDistinct(ds: seq<Declaration>, byAlias: map<string, Identity>, byIdentity: map<Identity, string>,
                          tools: seq<FunctionTool>)
    requires Inverse(byAlias, byIdentity) && Defined(ds, byIdentity, tools)
    ensures forall i, j :: 0 <= i < j < |tools| ==> tools[i].name != tools[j].name
  {
    IdsDistinct(ds);
    var ids := Ids(ds);
    forall i, j | 0 <= i < j < |tools| ensures tools[i].name != tools[j].name {
      assert ids[i] in byIdentity && ids[j] in byIdentity;
      assert byAlias[byIdentity[ids[i]]] != byAlias[byIdentity[ids[j]]];
    }
  }

  /** The description of a tool that does not go by its own name: its full name, what it says
      itself, and for a custom tool how to call it. */
  function Described(id: Identity, own: ToolBody): string {
    id.namespace + "." + id.name + ": " + (if own.description.Some? then own.description.value else "")
    + if !id.custom then "" else INPUT_HINT + if own.format.Some? then FORMAT_HINT + own.format.value else ""
  }

  lemma DefinitionFields(d: Declaration, alias: string)
    requires alias == d.id.name <==> !d.id.custom && d.id.namespace == ""
    ensures
      var t := Definition(d, alias);
      && t.name == alias && t.strict == d.body.strict
      && t.schema == (if d.id.custom then INPUT_SCHEMA else d.body.schema)
      && t.description == if alias == d.id.name then d.body.description else Some(Described(d.id, d.body))
  {
    var prefix, own := d.id.namespace + "." + d.id.name + ": ", Str(d.body.description);
    Joined(prefix, own, INPUT_HINT, if d.body.format.Some? then FORMAT_HINT + d.body.format.value else "");
  }

  lemma Joined(a: string, b: string, c: string, d: string)
    ensures a + (b + c + d) == a + b + (c + d) && a + b + "" == a + b
  {
  }

  /** What a tool is offered as, field by field. The schema and the strictness of a function
      are its own; a custom tool takes one string. A plain function is described as declared,
      any other tool under its name in its namespace, and a custom one with a hint. */
  lemma OfferedFields(ds: seq<Declaration>, byIdentity: map<Identity, string>, tools: seq<FunctionTool>,
                      names: set<string>, hash: (Identity, nat) -> string, i: nat)
    requires Defined(ds, byIdentity, tools) && ProperAliases(byIdentity, names, hash)
    requires i < |Ids(ds)|
    ensures |tools| == |Ids(ds)|
    ensures
      var id, t := Ids(ds)[i], tools[i];
      var own := LastBody(ds, id);
      && id in byIdentity && t.name == byIdentity[id] && t.strict == own.strict
      && t.schema == (if id.custom then INPUT_SCHEMA else own.schema)
      && (!id.custom && id.namespace == "" ==> t.name == id.name && t.description == own.description)
      && (id.custom || id.namespace != "" ==> t.name != id.name && t.description == Some(Described(id, own)))
  {
    hide Definition, Ids, LastBody, Described;
    var id := Ids(ds)[i];
    assert id in Ids(ds);
    assert ProperAlias(id, byIdentity[id], names, hash);
    DefinitionFields(Declaration(id, LastBody(ds, id)), byIdentity[id]);
  }

  /** The body of a tool is that of its last declaration. */
  lemma {:induction false} LastBodyByIndex(ds: seq<Declaration>, i: nat)
    requires i < |ds| && forall j :: i < j < |ds| ==> ds[j].id != ds[i].id
    ensures ds[i].id in Ids(ds) && LastBody(ds, ds[i].id) == ds[i].body
  {
    var n := |ds| - 1;
    assert ds == ds[..n] + [ds[n]];
    IdsSnoc(ds[..n], ds[n]);
    if i < n {
      LastBodyByIndex(ds[..n], i);
    }
  }

  class ResponsesToolBridge {
    const hash: (Identity, nat) -> string
    const decode: string -> string
    var tools: seq<FunctionTool>
    var byAlias: map<string, Identity>
    var byIdentity: map<Identity, string>
    var items: map<ItemId, Identity>

    /** The bridge stands for the declarations `ds`, made in a list that uses the names `names`. */
    ghost predicate Built(ds: seq<Declaration>, names: set<string>)
      reads this
    {
      && Inverse(byAlias, byIdentity)
      && ProperAliases(byIdentity, names, hash)
      && Defined(ds, byIdentity, tools)
    }

    constructor (ds: seq<ToolDecl>, hash: (Identity, nat) -> string, decode: string -> string)
      requires Salted(hash)
      ensures this.hash == hash && this.decode == decode
      ensures Built(Declared(ds, ""), Names(ds)) && items == map[]
    {
      this.hash, this.decode := hash, decode;
      tools, byAlias, byIdentity, items := [], map[], map[], map[];
      new;
      var reserved := Reserve(ds, {});
      var _, _ := Add(ds, "", reserved, map[], [], Names(ds));
      assert [] + Declared(ds, "") == Declared(ds, "");
    }

    /** Registers a list of declarations, namespaces recursively. */
    method Add(ds: seq<ToolDecl>, ns: string, reserved: set<string>, indexes: map<Identity, nat>,
               ghost done: seq<Declaration>, ghost names: set<string>)
      returns (reserved': set<string>, indexes': map<Identity, nat>)
      requires Salted(hash) && Built(done, names)
      requires Names(ds) <= names && Reserving(reserved, names, byAlias) && Indexed(done, indexes)
      modifies this`tools, this`byAlias, this`byIdentity
      ensures Built(done + Declared(ds, ns), names)
      ensures Reserving(reserved', names, byAlias) && Indexed(done + Declared(ds, ns), indexes')
      decreases ds
    {
      reserved', indexes' := reserved, indexes;
      ghost var all := done;
      assert all == done + Declared(ds[..0], ns);
      hide Built, Indexed, Reserving, Declared, DeclaredOne, Names, Salted;
      for i := 0 to |ds|
        invariant all == done + Declared(ds[..i], ns)
        invariant Built(all, names) && Reserving(reserved', names, byAlias) && Indexed(all, indexes')
      {
        NamesInside(ds, i);
        DeclaredSnoc(ds, i, ns);
        reserved', indexes' := AddOne(ds[i], ns, reserved', indexes', all, names);
        all := all + DeclaredOne(ds[i], ns);
      }
      assert ds[..|ds|] == ds;
    }

    method AddOne(d: ToolDecl, ns: string, reserved: set<string>, indexes: map<Identity, nat>,
                  ghost done: seq<Declaration>, ghost names: set<string>)
      returns (reserved': set<string>, indexes': map<Identity, nat>)
      requires Salted(hash) && Built(done, names)
      requires d.Decl? ==> d.name in names && Names(d.children) <= names
      requires Reserving(reserved, names, byAlias) && Indexed(done, indexes)
      modifies this`tools, this`byAlias, this`byIdentity
      ensures Built(done + DeclaredOne(d, ns), names)
      ensures Reserving(reserved', names, byAlias) && Indexed(done + DeclaredOne(d, ns), indexes')
      decreases d
    {
      hide Built, Indexed, Reserving, Declared, Names, Salted;
      reserved', indexes' := reserved, indexes;
      if d.NotAnObject? {
        assert done + DeclaredOne(d, ns) == done;
        return;
      }
      if d.kind == "namespace" {
        reserved', indexes' := Add(d.children, d.name, reserved, indexes, done, names);
        return;
      }
      if d.name == "" || (d.kind != "function" && d.kind != "custom") {
        assert done + DeclaredOne(d, ns) == done;
        return;
      }
      var declaration := Declaration(Identity(d.name, ns, d.kind == "custom"), d.body);
      reserved', indexes' := Register(declaration, reserved, indexes, done, names);
    }

    method Register(d: Declaration, reserved: set<string>, indexes: map<Identity, nat>,
                    ghost done: seq<Declaration>, ghost names: set<string>)
      returns (reserved': set<string>, indexes': map<Identity, nat>)
      requires Salted(hash) && Built(done, names)
      requires d.id.name in names && Reserving(reserved, names, byAlias) && Indexed(done, indexes)
      modifies this`tools, this`byAlias, this`byIdentity
      ensures Built(done + [d], names)
      ensures Reserving(reserved', names, byAlias) && Indexed(done + [d], indexes')
    {
      hide Indexed, Defined, Inverse, Definition;
      var id := d.id;
      var alias := id.name;
      if id in byIdentity {
        alias := byIdentity[id];
      } else if id.namespace != "" || id.custom {
        var free, salt := FreeAlias(id, reserved, hash);
        alias := free;
      }
      RegisterOne(done, d, alias, names, hash, byAlias, byIdentity, indexes, tools);
      reserved' := reserved + {alias};
      byAlias, byIdentity := byAlias[alias := id], byIdentity[id := alias];
      if id in indexes {
        indexes' := indexes;
        tools := tools[indexes[id] := Definition(d, alias)];
      } else {
        indexes' := indexes[id := |tools|];
        tools := tools + [Definition(d, alias)];
      }
    }

    method InputItem(item: I.Item) returns (r: I.Item)
      ensures r == Incoming(byIdentity, item)
    {
      r := item;
      match item {
        case FunctionCall(c, n, ns, arguments) =>
          r := I.FunctionCall(c, AliasOf(byIdentity, Identity(n, ns, false)), ns, arguments);
        case CustomCall(c, n, ns, input) =>
          r := I.FunctionCall(c, AliasOf(byIdentity, Identity(n, ns, true)), ns, WrapInput(input));
        case CallOutput(_, c, output) =>
          r := I.CallOutput(false, c, output);
        case _ =>
      }
    }

    method RestoreItem(item: Item) returns (r: Item)
      modifies this`items
      ensures r == Restored(byAlias, decode, item)
      ensures items == Remembered(byAlias, old(items), item)
    {
      r := item;
      if !item.FunctionCall? || item.name !in byAlias {
        return;
      }
      var t := byAlias[item.name];
      items := items[item.id := t];
      var namespace := item.namespace;
      if t.namespace != "" {
        namespace := t.namespace;
      }
      if t.custom {
        r := CustomCall(item.id, item.callId, t.name, namespace, decode(item.arguments), item.completed);
      } else {
        r := FunctionCall(item.id, item.callId, t.name, namespace, item.arguments, item.completed);
      }
    }
  }
}
