/** The cleaning of tool schemas for Codex, which rejects patterns with `\p{...}`. */
module CodexSchema {
  import opened Json

  // ---- Patterns ----

  /** A backslash, a `p` and a brace at a place. */
  predicate PropertyAt(s: string, i: nat) {
    i + 2 < |s| && s[i] == '\\' && (s[i + 1] == 'p' || s[i + 1] == 'P') && s[i + 2] == '{'
  }

  /** Reading from the left, a backslash takes the next character with it: some such pair is a
      property escape. */
  predicate Escapes(s: string, k: nat)
    requires k <= |s|
    decreases |s| - k
  {
    if k == |s| then false
    else if s[k] != '\\' then Escapes(s, k + 1)
    else PropertyAt(s, k) || (k + 2 <= |s| && Escapes(s, k + 2))
  }

  /** The number of backslashes in a row that end before a place. */
  function RunBefore(s: string, i: nat): (n: nat)
    requires i <= |s|
    ensures n <= i && forall j :: i - n <= j < i ==> s[j] == '\\'
    ensures n < i ==> s[i - n - 1] != '\\'
  {
    if i == 0 || s[i - 1] != '\\' then 0 else RunBefore(s, i - 1) + 1
  }

  /** A property escape whose backslash is not itself escaped. */
  predicate OddAt(s: string, i: nat) {
    PropertyAt(s, i) && RunBefore(s, i) % 2 == 0
  }

  /** The test that counts backslashes to the left agrees with reading from the left. */
  lemma {:induction false} ParityIsLexing(s: string, k: nat)
    requires k <= |s| && RunBefore(s, k) % 2 == 0
    ensures Escapes(s, k) <==> exists i: nat :: k <= i < |s| && OddAt(s, i)
    decreases |s| - k
  {
    if k < |s| {
      if s[k] != '\\' {
        ParityIsLexing(s, k + 1);
      } else if OddAt(s, k) {
      } else if k + 2 <= |s| {
        assert RunBefore(s, k + 1) == RunBefore(s, k) + 1;
        assert !OddAt(s, k + 1);
        ParityIsLexing(s, k + 2);
      }
    }
  }

  /** Looks at every place, and counts backslashes to the left of each match. */
  method HasUnescapedPropertyEscape(pattern: string) returns (r: bool)
    ensures r == Escapes(pattern, 0)
  {
    ParityIsLexing(pattern, 0);
    var i := 0;
    while i + 2 < |pattern|
      invariant forall k: nat :: k < i && k < |pattern| ==> !OddAt(pattern, k)
    {
      if PropertyAt(pattern, i) {
        var backslashes := 1;
        var j := i - 1;
        while j >= 0 && pattern[j] == '\\'
          invariant -1 <= j < i && backslashes == i - j
          invariant forall k :: j < k < i ==> pattern[k] == '\\'
        {
          backslashes := backslashes + 1;
          j := j - 1;
        }
        assert RunBefore(pattern, i) == backslashes - 1;
        if backslashes % 2 == 1 {
          assert OddAt(pattern, i);
          return true;
        }
      }
      i := i + 1;
    }
    return false;
  }

  // ---- Schemas ----

  predicate BadPattern(m: Member) {
    m.key == "pattern" && m.value.String? && Escapes(m.value.s, 0)
  }

  function WithoutBad(ms: seq<Member>): (r: seq<Member>)
    ensures |r| <= |ms|
    ensures forall i :: 0 <= i < |r| ==> !BadPattern(r[i]) && r[i] in ms
    ensures (forall i :: 0 <= i < |ms| ==> !BadPattern(ms[i])) <==> r == ms
  {
    if ms == [] then []
    else
      var rest := WithoutBad(ms[1..]);
      assert ms == [ms[0]] + ms[1..];
      if BadPattern(ms[0]) then rest else [ms[0]] + rest
  }

  function Clean(v: Value): Value {
    match v
    case Array(items) => Array(seq(|items|, i requires 0 <= i < |items| => Clean(items[i])))
    case Object(members) =>
      var kept := WithoutBad(members);
      Object(seq(|kept|, i requires 0 <= i < |kept| => assert kept[i] in members; CleanMember(kept[i])))
    case _ => v
  }

  /** The members of `properties` are schemas whatever they are called. */
  function CleanMember(m: Member): Member {
    if m.key == "properties" && m.value.Object? then
      var ps := m.value.members;
      Member(m.key, Object(seq(|ps|, i requires 0 <= i < |ps| => Member(ps[i].key, Clean(ps[i].value)))))
    else Member(m.key, Clean(m.value))
  }

  /** No schema at any depth has a pattern that Codex rejects. */
  predicate Cleaned(v: Value) {
    match v
    case Array(items) => forall i :: 0 <= i < |items| ==> Cleaned(items[i])
    case Object(members) => forall i :: 0 <= i < |members| ==> !BadPattern(members[i]) && CleanedMember(members[i])
    case _ => true
  }

  predicate CleanedMember(m: Member) {
    if m.key == "properties" && m.value.Object?
    then forall i :: 0 <= i < |m.value.members| ==> Cleaned(m.value.members[i].value)
    else Cleaned(m.value)
  }

  /** Cleaning reaches the clean schemas and changes nothing else. */
  lemma {:induction false} CleanExactly(v: Value)
    ensures Cleaned(Clean(v))
    ensures Clean(v) == v <==> Cleaned(v)
    decreases v
  {
    match v {
      case Array(items) =>
        forall i | 0 <= i < |items|
          ensures Cleaned(Clean(items[i])) && (Clean(items[i]) == items[i] <==> Cleaned(items[i]))
        {
          CleanExactly(items[i]);
        }
        var cleaned := Clean(v).items;
        assert cleaned == items <==> forall i :: 0 <= i < |items| ==> cleaned[i] == items[i];
      case Object(members) => CleanObject(v);
      case _ =>
    }
  }

  lemma {:induction false} CleanObject(v: Value)
    requires v.Object?
    ensures Cleaned(Clean(v))
    ensures Clean(v) == v <==> Cleaned(v)
    decreases v, 0
  {
    var members, kept := v.members, WithoutBad(v.members);
    var cleaned := Clean(v).members;
    forall i | 0 <= i < |members|
      ensures CleanedMember(CleanMember(members[i]))
      ensures (CleanMember(members[i]) == members[i] <==> CleanedMember(members[i]))
      ensures !BadPattern(members[i]) ==> !BadPattern(CleanMember(members[i]))
    {
      MemberExactly(members[i]);
    }
    forall i | 0 <= i < |cleaned| ensures !BadPattern(cleaned[i]) && CleanedMember(cleaned[i]) {
      assert kept[i] in members;
      var j :| 0 <= j < |members| && members[j] == kept[i];
      assert cleaned[i] == CleanMember(members[j]);
    }
    if kept == members {
      assert cleaned == members <==> forall i :: 0 <= i < |members| ==> cleaned[i] == members[i];
    }
  }

  lemma {:induction false} MemberExactly(m: Member)
    ensures CleanedMember(CleanMember(m))
    ensures CleanMember(m) == m <==> CleanedMember(m)
    ensures !BadPattern(m) ==> !BadPattern(CleanMember(m))
    decreases m
  {
    if m.key == "properties" && m.value.Object? {
      var ps := m.value.members;
      forall i | 0 <= i < |ps|
        ensures Cleaned(Clean(ps[i].value)) && (Clean(ps[i].value) == ps[i].value <==> Cleaned(ps[i].value))
      {
        CleanExactly(ps[i].value);
      }
      var cleaned := CleanMember(m).value.members;
      assert cleaned == ps <==> forall i :: 0 <= i < |ps| ==> cleaned[i] == ps[i];
    } else {
      CleanExactly(m.value);
    }
  }

  // ---- Object schemas ----

  predicate IsObjectSchema(v: Value) {
    v.Object? && Text(Lookup(v.members, "type")) == "object" && Lookup(v.members, "properties").Object?
  }

  /** A parameter schema is an object schema with properties; what is missing is added. */
  function ObjectSchema(v: Value): Value {
    if !v.Object? then Object([Member("type", String("object")), Member("properties", EMPTY_OBJECT)])
    else if IsObjectSchema(v) then v
    else
      var typed := Put(v.members, "type", String("object"));
      if Lookup(typed, "properties").Object? then Object(typed) else Object(Put(typed, "properties", EMPTY_OBJECT))
  }

  lemma ObjectSchemaIs(v: Value)
    ensures IsObjectSchema(ObjectSchema(v))
  {
    if v.Object? {
      PutLookup(v.members, "type", String("object"));
      PutLookup(Put(v.members, "type", String("object")), "properties", EMPTY_OBJECT);
    }
  }

  lemma CleanIs(ms: seq<Member>)
    ensures Clean(Object(ms)).Object? && |Clean(Object(ms)).members| == |WithoutBad(ms)|
    ensures forall i :: 0 <= i < |WithoutBad(ms)| ==> Clean(Object(ms)).members[i] == CleanMember(WithoutBad(ms)[i])
  {
    hide CleanMember, WithoutBad;
  }

  lemma CleanKey(m: Member)
    ensures CleanMember(m).key == m.key && CleanMember(Member(m.key, Null)) == Member(m.key, Null)
  {
  }

  lemma {:induction false} LookupCleaned(kept: seq<Member>, cleaned: seq<Member>, key: string)
    requires |cleaned| == |kept| && forall i :: 0 <= i < |kept| ==> cleaned[i] == CleanMember(kept[i])
    ensures Lookup(cleaned, key) == CleanMember(Member(key, Lookup(kept, key))).value
  {
    hide CleanMember;
    CleanKey(Member(key, Null));
    if kept != [] {
      CleanKey(kept[0]);
      LookupCleaned(kept[1..], cleaned[1..], key);
      assert kept[0].key == key ==> kept[0] == Member(key, kept[0].value);
    }
  }

  lemma {:induction false} LookupKept(ms: seq<Member>, key: string)
    requires key != "pattern"
    ensures Lookup(WithoutBad(ms), key) == Lookup(ms, key)
  {
    if ms != [] {
      LookupKept(ms[1..], key);
      LookupCons(ms[0], WithoutBad(ms[1..]), key);
    }
  }

  /** Cleaning keeps every keyword but patterns. */
  lemma CleanLookup(ms: seq<Member>, key: string)
    requires key != "pattern"
    ensures
      var v, cleaned := Lookup(ms, key), Lookup(Clean(Object(ms)).members, key);
      cleaned == CleanMember(Member(key, v)).value
  {
    hide Clean, CleanMember, WithoutBad, Lookup;
    CleanIs(ms);
    LookupCleaned(WithoutBad(ms), Clean(Object(ms)).members, key);
    LookupKept(ms, key);
  }

  /** Cleaning goes through a list and through the properties of a schema one by one, and what
      is neither a list nor an object stays. */
  lemma CleanInside(v: Value, i: nat)
    ensures v.Array? ==> Clean(v).Array? && |Clean(v).items| == |v.items|
    ensures v.Array? && i < |v.items| ==> Clean(v).items[i] == Clean(v.items[i])
    ensures
      var m := CleanMember(Member("properties", v));
      v.Object? ==>
        && m.value.Object? && |m.value.members| == |v.members|
        && (i < |v.members| ==> m.value.members[i] == Member(v.members[i].key, Clean(v.members[i].value)))
    ensures !v.Array? && !v.Object? ==> Clean(v) == v
  {
  }

  /** The parameters of a tool as they are sent. */
  function Params(v: Value): Value {
    Clean(ObjectSchema(v))
  }

  /** Every keyword of the given parameters is sent, cleaned, but for the type, which becomes
      "object", properties that are no object, which become empty, and patterns. */
  lemma ParamsKeep(v: Value, key: string)
    requires v.Object? && key != "pattern" && key != "type" && key != "properties"
    ensures Params(v).Object?
    ensures Lookup(Params(v).members, key) == CleanMember(Member(key, Lookup(v.members, key))).value
    ensures
      var given := Lookup(v.members, "properties");
      Lookup(Params(v).members, "properties") ==
      CleanMember(Member("properties", if given.Object? then given else EMPTY_OBJECT)).value
    ensures Text(Lookup(Params(v).members, "type")) == "object"
  {
    hide Lookup, Clean, CleanMember;
    SchemaKeeps(v, key);
    var ms := ObjectSchema(v).members;
    CleanIs(ms);
    assert ObjectSchema(v) == Object(ms);
    CleanLookup(ms, key);
    CleanLookup(ms, "properties");
    CleanLookup(ms, "type");
    CleanText("type", Lookup(ms, "type"));
  }

  lemma SchemaKeeps(v: Value, key: string)
    requires v.Object? && key != "type" && key != "properties"
    ensures ObjectSchema(v).Object? && Lookup(ObjectSchema(v).members, key) == Lookup(v.members, key)
    ensures Text(Lookup(ObjectSchema(v).members, "type")) == "object"
    ensures Lookup(ObjectSchema(v).members, "properties") ==
      if Lookup(v.members, "properties").Object? then Lookup(v.members, "properties") else EMPTY_OBJECT
  {
    hide Lookup;
    PutLookup(v.members, "type", String("object"));
    PutLookup(Put(v.members, "type", String("object")), "properties", EMPTY_OBJECT);
  }

  lemma CleanText(key: string, v: Value)
    ensures Text(v) != "" ==> CleanMember(Member(key, v)).value == v
  {
  }

  /** They are a clean object schema, and such a schema is sent as it is. */
  lemma ParamsExactly(v: Value)
    ensures IsObjectSchema(Params(v)) && Cleaned(Params(v))
    ensures Params(v) == v <==> IsObjectSchema(v) && Cleaned(v)
  {
    ObjectSchemaIs(v);
    var ms := ObjectSchema(v).members;
    CleanLookup(ms, "type");
    CleanLookup(ms, "properties");
    CleanExactly(ObjectSchema(v));
    CleanExactly(v);
  }
}
