/** The channels that may serve a request, in the order in which they are tried. */
module Route {
  import opened Wrappers

  datatype Provider = Provider(id: int, enabled: bool, kind: string, priority: int, modelMap: map<string, string>)

  datatype Candidate = Candidate(provider: Provider, upModel: string)

  /** A channel serves a model it maps, or any model if it maps none. */
  predicate Serves(p: Provider, model: string) {
    p.modelMap == map[] || model in p.modelMap
  }

  predicate Eligible(p: Provider, model: string, allow: seq<int>) {
    && p.enabled && p.kind in ["api_key", "oauth"]
    && (allow == [] || p.id in allow)
    && Serves(p, model)
  }

  function CandidateOf(p: Provider, model: string): Candidate {
    Candidate(p, if model in p.modelMap then p.modelMap[model] else model)
  }

  /** The candidates in the order of the channels. */
  function Eligibles(ps: seq<Provider>, model: string, allow: seq<int>): seq<Candidate> {
    if ps == [] then []
    else
      var p := ps[|ps| - 1];
      Eligibles(ps[..|ps| - 1], model, allow) + if Eligible(p, model, allow) then [CandidateOf(p, model)] else []
  }

  function Group(cs: seq<Candidate>, priority: int): seq<Candidate> {
    if cs == [] then []
    else
      var c := cs[|cs| - 1];
      Group(cs[..|cs| - 1], priority) + if c.provider.priority == priority then [c] else []
  }

  lemma {:induction false} GroupCounts(cs: seq<Candidate>, priority: int, c: Candidate)
    ensures multiset(Group(cs, priority))[c] == if c.provider.priority == priority then multiset(cs)[c] else 0
  {
    if cs != [] {
      GroupCounts(cs[..|cs| - 1], priority, c);
      assert cs == cs[..|cs| - 1] + [cs[|cs| - 1]];
    }
  }

  lemma {:induction false} EligiblesAre(ps: seq<Provider>, model: string, allow: seq<int>)
    ensures forall c <- Eligibles(ps, model, allow) :: c.provider in ps && c == CandidateOf(c.provider, model)
    ensures forall c <- Eligibles(ps, model, allow) :: Eligible(c.provider, model, allow)
    ensures forall p <- ps :: Eligible(p, model, allow) ==> CandidateOf(p, model) in Eligibles(ps, model, allow)
  {
    if ps != [] {
      var init, p := ps[..|ps| - 1], ps[|ps| - 1];
      EligiblesAre(init, model, allow);
      assert ps == init + [p];
    }
  }

  /** The candidates are the enabled channels with a key or a login that are on the list, if
      there is one, and that map the model, if they map any; a channel that maps it is asked
      for the mapped model, any other for the model itself. */
  lemma CandidatesAre(ps: seq<Provider>, model: string, allow: seq<int>, cands: seq<Candidate>)
    requires multiset(cands) == multiset(Eligibles(ps, model, allow))
    ensures forall c <- cands ::
              && c.provider in ps && c.provider.enabled
              && (c.provider.kind == "api_key" || c.provider.kind == "oauth")
              && (|allow| > 0 ==> c.provider.id in allow)
              && (c.provider.modelMap.Keys != {} ==> model in c.provider.modelMap)
              && c.upModel == if model in c.provider.modelMap then c.provider.modelMap[model] else model
    ensures forall p <- ps ::
              && p.enabled && (p.kind == "api_key" || p.kind == "oauth") && (|allow| == 0 || p.id in allow)
              && (p.modelMap.Keys == {} || model in p.modelMap) ==>
                exists c <- cands :: c.provider == p
  {
    var es := Eligibles(ps, model, allow);
    EligiblesAre(ps, model, allow);
    forall c | c in cands ensures c in es {
      assert c in multiset(cands);
    }
    forall p | p in ps && p.enabled && (p.kind == "api_key" || p.kind == "oauth") && (|allow| == 0 || p.id in allow)
               && (p.modelMap.Keys == {} || model in p.modelMap)
      ensures exists c <- cands :: c.provider == p
    {
      assert p.modelMap.Keys == {} ==> p.modelMap == map[];
      var c := CandidateOf(p, model);
      assert c in es && c in multiset(es);
      assert c in cands && c.provider == p;
    }
  }

  /** A higher priority never comes after a lower one. */
  predicate Descending(cs: seq<Candidate>) {
    forall i, j :: 0 <= i < j < |cs| ==> cs[i].provider.priority >= cs[j].provider.priority
  }

  /** One pass of the sort: the largest of the elements from `i` on goes to place `i`. */
  method Settle(a: array<int>, i: nat)
    requires i < a.Length
    modifies a
    ensures a[..i] == old(a[..i])
    ensures multiset(a[i..]) == multiset(old(a[i..]))
    ensures forall l :: i <= l < a.Length ==> a[i] >= a[l]
  {
    for j := i + 1 to a.Length
      invariant a[..i] == old(a[..i])
      invariant multiset(a[i..]) == multiset(old(a[i..]))
      invariant forall l :: i <= l < j ==> a[i] >= a[l]
    {
      if a[j] > a[i] {
        ghost var rest := a[i..];
        a[i], a[j] := a[j], a[i];
        SwapKeeps(rest, j - i);
        assert a[i..] == Swapped(rest, j - i);
      }
    }
  }

  /** The first element changes places with another one. */
  function Swapped(s: seq<int>, k: nat): seq<int>
    requires k < |s|
  {
    s[0 := s[k]][k := s[0]]
  }

  lemma SwapKeeps(s: seq<int>, k: nat)
    requires k < |s|
    ensures multiset(Swapped(s, k)) == multiset(s)
  {
  }

  lemma Settled(before: seq<int>, after: seq<int>, i: nat)
    requires i < |before| == |after|
    requires before[..i] == after[..i] && multiset(before[i..]) == multiset(after[i..])
    requires forall k, l :: 0 <= k < i && k < l < |before| ==> before[k] >= before[l]
    requires forall l :: i <= l < |after| ==> after[i] >= after[l]
    ensures multiset(after) == multiset(before)
    ensures forall k, l :: 0 <= k < i + 1 && k < l < |after| ==> after[k] >= after[l]
  {
    assert before == before[..i] + before[i..] && after == after[..i] + after[i..];
    forall k, l | 0 <= k < i && k < l < |after| ensures after[k] >= after[l] {
      if l < i {
        assert after[l] == after[..i][l] == before[l] && after[k] == after[..i][k] == before[k];
      } else {
        assert after[l] == after[i..][l - i] && after[l] in multiset(after[i..]);
        assert after[l] in multiset(before[i..]);
        var m :| 0 <= m < |before| - i && before[i..][m] == after[l];
        assert before[k] >= before[i + m] && after[k] == after[..i][k] == before[k];
      }
    }
  }

  /** Sorts in place, by exchanges, in descending order. */
  method ExchangeSort(a: array<int>)
    modifies a
    ensures multiset(a[..]) == multiset(old(a[..]))
    ensures forall i, j :: 0 <= i < j < a.Length ==> a[i] >= a[j]
  {
    for i := 0 to a.Length
      invariant multiset(a[..]) == multiset(old(a[..]))
      invariant forall k, l :: 0 <= k < i && k < l < a.Length ==> a[..][k] >= a[..][l]
    {
      ghost var before := a[..];
      assert before[..i] == a[..i] && before[i..] == a[i..];
      Settle(a, i);
      assert a[..][..i] == a[..i] && a[..][i..] == a[i..];
      Settled(before, a[..], i);
    }
  }

  /** Shuffles in place; `pick(i)` is the random choice below `i + 1`. */
  method Shuffle(a: array<Candidate>, pick: nat -> nat)
    modifies a
    ensures multiset(a[..]) == multiset(old(a[..]))
  {
    var i := a.Length;
    while i > 1
      invariant 0 <= i <= a.Length
      invariant multiset(a[..]) == multiset(old(a[..]))
    {
      i := i - 1;
      var j := pick(i) % (i + 1);
      a[i], a[j] := a[j], a[i];
    }
  }

  method Admit(p: Provider, model: string, allow: seq<int>) returns (c: Option<Candidate>)
    ensures c == if Eligible(p, model, allow) then Some(CandidateOf(p, model)) else None
  {
    if !p.enabled || (p.kind != "api_key" && p.kind != "oauth") {
      return None;
    }
    if allow != [] && p.id !in allow {
      return None;
    }
    if p.modelMap != map[] {
      if model !in p.modelMap {
        return None;
      }
      return Some(Candidate(p, p.modelMap[model]));
    }
    return Some(Candidate(p, model));
  }

  lemma GroupSnoc(cs: seq<Candidate>, c: Candidate, priority: int)
    ensures Group(cs + [c], priority) == Group(cs, priority) + if c.provider.priority == priority then [c] else []
  {
    assert (cs + [c])[..|cs|] == cs;
  }

  /** The channels grouped by priority. */
  method ByPriority(ps: seq<Provider>, model: string, allow: seq<int>) returns (groups: map<int, seq<Candidate>>)
    ensures forall pr :: (if pr in groups then groups[pr] else []) == Group(Eligibles(ps, model, allow), pr)
  {
    hide Eligible, CandidateOf, Group;
    groups := map[];
    assert forall pr :: Group([], pr) == [] by { forall pr ensures Group([], pr) == [] { GroupOfNone(pr); } }
    for i := 0 to |ps|
      invariant forall pr :: (if pr in groups then groups[pr] else []) == Group(Eligibles(ps[..i], model, allow), pr)
    {
      assert ps[..i + 1][..i] == ps[..i];
      var c := Admit(ps[i], model, allow);
      ghost var before := Eligibles(ps[..i], model, allow);
      assert Eligibles(ps[..i + 1], model, allow) == before + if c.Some? then [c.value] else [];
      if c.None? {
        assert before + [] == before;
        continue;
      }
      forall pr { GroupSnoc(before, c.value, pr); }
      var priority := c.value.provider.priority;
      var group := if priority in groups then groups[priority] else [];
      groups := groups[priority := group + [c.value]];
    }
    assert ps[..|ps|] == ps;
  }

  lemma GroupOfNone(priority: int)
    ensures Group([], priority) == []
  {
  }

  /** The keys of a map in some order. */
  method KeysOf(groups: map<int, seq<Candidate>>) returns (keys: array<int>)
    ensures fresh(keys)
    ensures forall pr :: pr in keys[..] <==> pr in groups
    ensures forall i, j :: 0 <= i < j < keys.Length ==> keys[i] != keys[j]
  {
    var order: seq<int> := [];
    var todo := groups.Keys;
    while todo != {}
      invariant todo <= groups.Keys
      invariant forall pr :: pr in order <==> pr in groups && pr !in todo
      invariant forall i, j :: 0 <= i < j < |order| ==> order[i] != order[j]
      decreases todo
    {
      assert (forall pr :: pr !in todo) ==> todo == {};
      var pr :| pr in todo;
      todo := todo - {pr};
      order := order + [pr];
    }
    keys := new int[|order|](i requires 0 <= i < |order| => order[i]);
    assert keys[..] == order;
  }

  lemma {:induction false} InGroup(cs: seq<Candidate>, priority: int)
    ensures forall c <- Group(cs, priority) :: c.provider.priority == priority
  {
    if cs != [] {
      InGroup(cs[..|cs| - 1], priority);
    }
  }

  /** The candidates of the priorities `done`, from the highest to the lowest. */
  ghost predicate Collected(all: seq<Candidate>, done: seq<int>, cands: seq<Candidate>) {
    && Descending(cands)
    && (forall c <- cands :: c.provider.priority in done)
    && (forall c :: multiset(cands)[c] == if c.provider.priority in done then multiset(all)[c] else 0)
  }

  lemma CollectGroup(all: seq<Candidate>, done: seq<int>, cands: seq<Candidate>, pr: int, list: seq<Candidate>)
    requires Collected(all, done, cands)
    requires pr !in done && forall q <- done :: q >= pr
    requires multiset(list) == multiset(Group(all, pr))
    ensures Collected(all, done + [pr], cands + list)
  {
    hide Group;
    InGroup(all, pr);
    forall c | c in list ensures c.provider.priority == pr {
      assert c in multiset(list);
    }
    forall i, j | 0 <= i < j < |cands + list|
      ensures (cands + list)[i].provider.priority >= (cands + list)[j].provider.priority
    {
      assert i < |cands| ==> cands[i] in cands;
      assert j >= |cands| ==> list[j - |cands|] in list;
      assert i >= |cands| ==> list[i - |cands|] in list;
    }
    forall c: Candidate
      ensures multiset(cands + list)[c] == if c.provider.priority in done + [pr] then multiset(all)[c] else 0
    {
      GroupCounts(all, pr, c);
    }
  }

  lemma CollectAll(all: seq<Candidate>, done: seq<int>, cands: seq<Candidate>)
    requires Collected(all, done, cands)
    requires forall pr :: pr !in done ==> Group(all, pr) == []
    ensures multiset(cands) == multiset(all) && Descending(cands)
  {
    forall c: Candidate ensures multiset(cands)[c] == multiset(all)[c] {
      GroupCounts(all, c.provider.priority, c);
    }
  }

  /** Exactly the eligible channels, each as often as it is listed, from the highest priority
      to the lowest; within a priority the order is left to chance. */
  method BuildCandidates(ps: seq<Provider>, model: string, allow: seq<int>, pick: nat -> nat)
    returns (cands: seq<Candidate>)
    ensures multiset(cands) == multiset(Eligibles(ps, model, allow))
    ensures Descending(cands)
  {
    hide Eligibles, Group, Collected, Descending;
    ghost var all := Eligibles(ps, model, allow);
    var groups := ByPriority(ps, model, allow);
    var priorities := KeysOf(groups);
    ghost var unsorted := priorities[..];
    ExchangeSort(priorities);
    ghost var keys := priorities[..];
    SameKeys(unsorted, keys);
    cands := [];
    NoneCollected(all);
    for i := 0 to priorities.Length
      invariant priorities[..] == keys
      invariant Collected(all, keys[..i], cands)
    {
      ghost var pr := keys[i];
      var list := Shuffled(groups[priorities[i]], pick);
      CollectGroup(all, keys[..i], cands, pr, list);
      assert keys[..i + 1] == keys[..i] + [pr];
      cands := cands + list;
    }
    assert keys[..|keys|] == keys;
    CollectAll(all, keys, cands);
  }

  lemma NoneCollected(all: seq<Candidate>)
    ensures Collected(all, [], [])
  {
  }

  lemma {:induction false} OnceEach(a: seq<int>, x: int)
    requires forall i, j :: 0 <= i < j < |a| ==> a[i] != a[j]
    ensures multiset(a)[x] <= 1
  {
    if a != [] {
      var n := |a| - 1;
      OnceEach(a[..n], x);
      assert a == a[..n] + [a[n]];
      assert x == a[n] ==> x !in a[..n] && x !in multiset(a[..n]);
    }
  }

  lemma SameKeys(a: seq<int>, b: seq<int>)
    requires multiset(a) == multiset(b)
    requires forall i, j :: 0 <= i < j < |a| ==> a[i] != a[j]
    ensures forall pr :: pr in a <==> pr in b
    ensures forall i, j :: 0 <= i < j < |b| ==> b[i] != b[j]
  {
    forall pr ensures pr in a <==> pr in b {
      assert pr in a <==> pr in multiset(a);
      assert pr in b <==> pr in multiset(b);
    }
    forall i, j | 0 <= i < j < |b| ensures b[i] != b[j] {
      OnceEach(a, b[i]);
      assert b == b[..j] + [b[j]] + b[j + 1..];
      assert b[i] in b[..j] && b[i] in multiset(b[..j]);
    }
  }

  method Shuffled(list: seq<Candidate>, pick: nat -> nat) returns (r: seq<Candidate>)
    ensures multiset(r) == multiset(list)
  {
    var a := new Candidate[|list|](i requires 0 <= i < |list| => list[i]);
    assert a[..] == list;
    Shuffle(a, pick);
    return a[..];
  }
}
