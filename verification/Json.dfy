/** JSON values, with the members of an object in order, and what is assumed of the codec. */
module Json {
  import opened Wrappers

  datatype Value =
    | Null
    | Bool(b: bool)
    | Number(n: int)
    | String(s: string)
    | Array(items: seq<Value>)
    | Object(members: seq<Member>)

  datatype Member = Member(key: string, value: Value)

  const EMPTY_OBJECT := Object([])

  /** A reader and a printer of JSON. */
  datatype Codec = Codec(parse: string -> Option<Value>, marshal: Value -> string)

  /** An object that was read is printed as a text that reads as the same object: the printer
      may have an order of members of its own, which is then that of the reader, too. The empty
      text is no JSON. */
  ghost predicate Faithful(c: Codec) {
    && (forall s :: ReadsObject(c, s) ==> c.parse(c.marshal(c.parse(s).value)) == c.parse(s))
    && c.parse("{}") == Some(EMPTY_OBJECT) && c.marshal(EMPTY_OBJECT) == "{}"
    && c.parse("") == None
  }

  predicate ReadsObject(c: Codec, s: string) {
    c.parse(s).Some? && c.parse(s).value.Object?
  }

  // ---- Objects as tables ----

  function Text(v: Value): string {
    if v.String? then v.s else ""
  }

  /** The value of a key; `Null` if there is none. */
  function Lookup(ms: seq<Member>, key: string): Value {
    if ms == [] then Null else if ms[0].key == key then ms[0].value else Lookup(ms[1..], key)
  }

  function Put(ms: seq<Member>, key: string, v: Value): seq<Member> {
    if ms == [] then [Member(key, v)]
    else if ms[0].key == key then [Member(key, v)] + ms[1..]
    else [ms[0]] + Put(ms[1..], key, v)
  }

  function Drop(ms: seq<Member>, key: string): seq<Member> {
    if ms == [] then [] else if ms[0].key == key then Drop(ms[1..], key) else [ms[0]] + Drop(ms[1..], key)
  }

  lemma {:induction false} PutLookup(ms: seq<Member>, key: string, v: Value)
    ensures forall k :: Lookup(Put(ms, key, v), k) == if k == key then v else Lookup(ms, k)
    ensures Put(Put(ms, key, v), key, v) == Put(ms, key, v)
  {
    if ms != [] && ms[0].key != key {
      PutLookup(ms[1..], key, v);
      assert Put(ms, key, v)[1..] == Put(ms[1..], key, v);
    } else if ms != [] {
      assert Put(ms, key, v)[1..] == ms[1..];
    }
  }

  /** Putting what is there changes nothing. */
  lemma {:induction false} PutSame(ms: seq<Member>, key: string)
    requires Lookup(ms, key) != Null
    ensures Put(ms, key, Lookup(ms, key)) == ms
  {
    if ms[0].key != key {
      PutSame(ms[1..], key);
    }
  }

  lemma {:induction false} DropLookup(ms: seq<Member>, key: string)
    ensures forall k :: Lookup(Drop(ms, key), k) == if k == key then Null else Lookup(ms, k)
    ensures Drop(Drop(ms, key), key) == Drop(ms, key)
    ensures (forall i :: 0 <= i < |ms| ==> ms[i].key != key) ==> Drop(ms, key) == ms
  {
    if ms != [] {
      DropLookup(ms[1..], key);
    }
  }

  lemma LookupCons(m: Member, rest: seq<Member>, key: string)
    ensures Lookup([m] + rest, key) == if m.key == key then m.value else Lookup(rest, key)
  {
    assert ([m] + rest)[1..] == rest;
  }

  lemma LookupMaybe(m: Member, there: bool, rest: seq<Member>, key: string)
    ensures Lookup((if there then [m] else []) + rest, key) ==
      if there && m.key == key then m.value else Lookup(rest, key)
  {
    LookupCons(m, rest, key);
    assert [] + rest == rest;
  }
}
