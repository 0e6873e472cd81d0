/** The quota of an API key: a fast counter in Redis over the totals in the database, and
    every interleaving of requests that check it, requests that finish, the usage worker,
    and the losses on the way. */
module Quota {
  import opened Wrappers
  import opened Ledger

  // ---- The Redis commands ----

  function Incremented(counters: map<Key, nat>, k: Key, cost: nat): map<Key, nat> {
    counters[k := (if k in counters then counters[k] else 0) + cost]
  }

  function SetIfAbsent(counters: map<Key, nat>, k: Key, v: nat): map<Key, nat> {
    if k in counters then counters else counters[k := v]
  }

  /** The counters after a finished request; nothing happens without a cost. */
  function Added(counters: map<Key, nat>, k: Key, cost: nat, fails: bool): map<Key, nat> {
    if fails || cost == 0 then counters else Incremented(counters, k, cost)
  }

  // ---- One request on its own ----

  /** What fails on the way: reading the counter, understanding it as a number, reading the
      stored total, writing it back. */
  datatype Faults = Faults(get: bool, parse: bool, read: bool, fill: bool)

  function Stored(quotaUsed: map<Key, nat>, k: Key, faults: Faults): Option<nat> {
    if faults.read || k !in quotaUsed then None else Some(quotaUsed[k])
  }

  /** The value a check of the key compares, and the counters after it. */
  function Checked(counters: map<Key, nat>, quotaUsed: map<Key, nat>, k: Key, faults: Faults): (Option<nat>, map<Key,
                   nat>) {
    var stored := Stored(quotaUsed, k, faults);
    if faults.get then (stored, counters)
    else if k in counters then (if faults.parse then None else Some(counters[k]), counters)
    else if stored.None? || faults.fill then (None, counters)
    else (stored, SetIfAbsent(counters, k, stored.value))
  }

  class Redis {
    var counters: map<Key, nat>

    constructor ()
      ensures counters == map[]
    {
      counters := map[];
    }
  }

  class QuotaEnforcer {
    const enabled: bool
    const rdb: Redis?
    const db: Database

    constructor (rdb: Redis?, db: Database, enabled: bool)
      ensures this.rdb == rdb && this.db == db && this.enabled == enabled
    {
      this.rdb, this.db, this.enabled := rdb, db, enabled;
    }

    method DbUsed(k: Key, faults: Faults) returns (used: Option<nat>)
      ensures used == Stored(db.quotaUsed, k, faults)
    {
      if faults.read || k !in db.quotaUsed {
        return None;
      }
      return Some(db.quotaUsed[k]);
    }

    /** The counter decides while it is there, and if it is not a number nothing is known;
        otherwise the stored total does, and becomes the counter when the counter was missing
        and not merely unreadable. */
    method CurrentUsed(k: Key, faults: Faults) returns (used: Option<nat>)
      modifies rdb
      ensures rdb == null ==> used == Stored(db.quotaUsed, k, faults)
      ensures rdb != null ==> (used, rdb.counters) == Checked(old(rdb.counters), db.quotaUsed, k, faults)
      ensures used.Some? ==>
        || (rdb != null && !faults.get && k in old(rdb.counters) && used.value == old(rdb.counters)[k])
        || (k in db.quotaUsed && used.value == db.quotaUsed[k])
      ensures rdb != null ==>
                forall q :: q in rdb.counters && q !in old(rdb.counters) ==> q == k && used == Some(rdb.counters[q])
      ensures rdb != null ==>
                forall q :: q in old(rdb.counters) ==> q in rdb.counters && rdb.counters[q] == old(rdb.counters)[q]
    {
      if rdb != null {
        if !faults.get {
          if k in rdb.counters {
            return if faults.parse then None else Some(rdb.counters[k]);
          }
          used := DbUsed(k, faults);
          if used.None? {
            return;
          }
          if faults.fill {
            return None;
          }
          rdb.counters := SetIfAbsent(rdb.counters, k, used.value);
          return;
        }
      }
      used := DbUsed(k, faults);
    }

    /** A request is rejected exactly on a value that was read and has reached a positive limit:
        the counter if it is there and a number; the stored total if there is no counter and it
        could be written back, or if the counter could not be read. */
    method OverLimit(k: Key, limit: int, faults: Faults) returns (used: nat, over: bool)
      modifies rdb
      ensures over ==> enabled && limit > 0 && used >= limit
      ensures over ==>
        || (rdb != null && k in old(rdb.counters) && used == old(rdb.counters)[k])
        || (k in db.quotaUsed && used == db.quotaUsed[k])
      ensures !enabled || limit <= 0 ==> !over && used == 0
      ensures enabled && 0 < limit && rdb != null && !faults.get && k in old(rdb.counters) ==>
                && used == (if faults.parse then 0 else old(rdb.counters)[k])
                && (over <==> !faults.parse && old(rdb.counters)[k] >= limit)
      ensures enabled && 0 < limit && rdb != null && !faults.get && k !in old(rdb.counters) ==>
                if faults.read || faults.fill || k !in db.quotaUsed then !over && used == 0
                else used == db.quotaUsed[k] && (over <==> db.quotaUsed[k] >= limit)
      ensures enabled && 0 < limit && (rdb == null || faults.get) ==>
                if faults.read || k !in db.quotaUsed then !over && used == 0
                else used == db.quotaUsed[k] && (over <==> db.quotaUsed[k] >= limit)
    {
      if !enabled || limit <= 0 {
        return 0, false;
      }
      var current := CurrentUsed(k, faults);
      if current.None? {
        return 0, false;
      }
      return current.value, current.value >= limit;
    }

    method Add(k: Key, cost: nat, fails: bool)
      modifies rdb
      ensures rdb != null ==>
                rdb.counters == if enabled then Added(old(rdb.counters), k, cost, fails) else old(rdb.counters)
    {
      if !enabled || cost == 0 || rdb == null || fails {
        return;
      }
      rdb.counters := Incremented(rdb.counters, k, cost);
    }
  }

  // ---- Requests interleaved ----

  type Request = nat

  /** A quota check under way: the counter was missing; the counter could not be read; the
      stored total has been read and is about to be written back. */
  datatype Check = Missed(key: Key) | Degraded(key: Key) | Loaded(key: Key, value: nat)

  /** The books, the counters, the checks under way, the entries whose cost was added to the
      counter but which are not in the queue yet, and all entries of finished requests. */
  datatype World = World(
    books: Books, counters: map<Key, nat>, checks: map<Request, Check>,
    recording: multiset<Entry>, finished: seq<Entry>)

  /** What can happen; a counter that is read may be garbled, which ends the check. */
  datatype Step =
    | Get(r: Request, key: Key, fails: bool, garbled: bool)
    | Read(r: Request, fails: bool)
    | Fill(r: Request, fails: bool)
    | Finish(e: Entry, fails: bool)
    | Record(e: Entry)
    | Take
    | Flush(ok: bool)
    | Evict(key: Key)

  predicate Enabled(w: World, s: Step) {
    match s
    case Get(r, _, _, _) => r !in w.checks
    case Read(r, _) => r in w.checks && !w.checks[r].Loaded?
    case Fill(r, _) => r in w.checks && w.checks[r].Loaded?
    case Finish(e, _) => forall i :: 0 <= i < |w.finished| ==> w.finished[i].id != e.id
    case Record(e) => e in w.recording
    case Take => w.books.queue != []
    case Flush(_) => true
    case Evict(_) => true
  }

  /** The value a step compares with the limit of a key, if it completes a check. */
  function Compared(w: World, s: Step): Option<(Key, nat)>
    requires Enabled(w, s)
  {
    match s
    case Get(_, k, fails, garbled) => if !fails && !garbled && k in w.counters then Some((k, w.counters[k])) else None
    case Read(r, fails) =>
      var check := w.checks[r];
      if !fails && check.Degraded? && check.key in w.books.quotaUsed then Some((check.key,
                                                                                w.books.quotaUsed[check.key]))
      else None
    case Fill(r, fails) => if fails then None else Some((w.checks[r].key, w.checks[r].value))
    case _ => None
  }

  function ChecksAfter(w: World, s: Step): map<Request, Check>
    requires Enabled(w, s)
  {
    match s
    case Get(r, k, fails, _) =>
      if fails then w.checks[r := Degraded(k)] else if k in w.counters then w.checks else w.checks[r := Missed(k)]
    case Read(r, fails) =>
      var check := w.checks[r];
      if !fails && check.Missed? && check.key in w.books.quotaUsed
      then w.checks[r := Loaded(check.key, w.books.quotaUsed[check.key])]
      else w.checks - {r}
    case Fill(r, _) => w.checks - {r}
    case _ => w.checks
  }

  function CountersAfter(w: World, s: Step): map<Key, nat>
    requires Enabled(w, s)
  {
    match s
    case Fill(r, fails) => if fails then w.counters else SetIfAbsent(w.counters, w.checks[r].key, w.checks[r].value)
    case Finish(e, fails) => Added(w.counters, e.key, e.cost, fails)
    case Evict(k) => w.counters - {k}
    case _ => w.counters
  }

  function BooksAfter(b: Books, s: Step): Books
    requires s.Take? ==> b.queue != []
  {
    match s
    case Record(e) => Recorded(b, e)
    case Take => Taken(b)
    case Flush(ok) => Flushed(b, ok)
    case _ => b
  }

  function Next(w: World, s: Step): World
    requires Enabled(w, s)
  {
    World(
      BooksAfter(w.books, s), CountersAfter(w, s), ChecksAfter(w, s),
      match s
      case Finish(e, _) => w.recording + multiset{e}
      case Record(e) => w.recording - multiset{e}
      case _ => w.recording,
      if s.Finish? then w.finished + [s.e] else w.finished)
  }

  /** A new deployment: the keys of the database, nothing used. */
  function Start(keys: set<Key>): World {
    World(Books([], [], [], [], [], map k | k in keys :: 0), map[], map[], multiset{}, [])
  }

  /** The world after a sequence of steps; `None` if some step was not possible. */
  function Reach(keys: set<Key>, steps: seq<Step>): Option<World> {
    if steps == [] then Some(Start(keys))
    else
      var before, s := Reach(keys, steps[..|steps| - 1]), steps[|steps| - 1];
      if before.Some? && Enabled(before.value, s) then Some(Next(before.value, s)) else None
  }

  /** A check whose steps nobody comes between. */
  function RunCheck(w: World, r: Request, k: Key, faults: Faults): (Option<(Key, nat)>, World)
    requires r !in w.checks
  {
    var get := Get(r, k, faults.get, faults.parse);
    var w1 := Next(w, get);
    if r !in w1.checks then (Compared(w, get), w1)
    else
      var read := Read(r, faults.read);
      var w2 := Next(w1, read);
      if r !in w2.checks then (Compared(w1, read), w2)
      else (Compared(w2, Fill(r, faults.fill)), Next(w2, Fill(r, faults.fill)))
  }

  lemma ReadAlone(w: World, r: Request, check: Check, fails: bool)
    requires r !in w.checks && !check.Loaded?
    ensures
      var waiting := w.(checks := w.checks[r := check]);
      var stored := if fails || check.key !in w.books.quotaUsed then None else Some(w.books.quotaUsed[check.key]);
      && Enabled(waiting, Read(r, fails))
      && Next(waiting, Read(r, fails)) ==
           (if check.Missed? && stored.Some? then w.(checks := w.checks[r := Loaded(check.key, stored.value)]) else w)
      && Compared(waiting, Read(r, fails)) ==
           (if check.Degraded? && stored.Some? then Some((check.key, stored.value)) else None)
  {
    assert w.checks[r := check] - {r} == w.checks;
  }

  lemma FillAlone(w: World, r: Request, k: Key, v: nat, fails: bool)
    requires r !in w.checks
    ensures
      var loaded := w.(checks := w.checks[r := Loaded(k, v)]);
      && Enabled(loaded, Fill(r, fails))
      && Next(loaded, Fill(r, fails)) == w.(counters := if fails then w.counters else SetIfAbsent(w.counters, k, v))
      && Compared(loaded, Fill(r, fails)) == if fails then None else Some((k, v))
  {
    assert w.checks[r := Loaded(k, v)] - {r} == w.checks;
  }

  /** The steps of a check are those of `QuotaEnforcer.CurrentUsed`: alone they compare the
      value it returns and leave the counters it leaves, and nothing else changes. */
  lemma StepsAreTheCheck(w: World, r: Request, k: Key, faults: Faults)
    requires r !in w.checks
    ensures
      var (used, counters) := Checked(w.counters, w.books.quotaUsed, k, faults);
      RunCheck(w, r, k, faults) == (if used.Some? then Some((k, used.value)) else None, w.(counters := counters))
  {
    var w1 := Next(w, Get(r, k, faults.get, faults.parse));
    if faults.get || k !in w.counters {
      var check := if faults.get then Degraded(k) else Missed(k);
      assert w1 == w.(checks := w.checks[r := check]);
      ReadAlone(w, r, check, faults.read);
      if !faults.get && k in w.books.quotaUsed {
        FillAlone(w, r, k, w.books.quotaUsed[k], faults.fill);
      }
    }
  }

  // ---- Conservation ----

  predicate Unique(es: seq<Entry>) {
    forall i, j :: 0 <= i < j < |es| ==> es[i].id != es[j].id
  }

  ghost predicate Conserved(w: World) {
    && Unique(w.finished)
    && w.recording + Held(w.books) == multiset(w.finished)
    && Balanced(w.books)
    && |w.books.queue| <= CAPACITY
  }

  lemma FinishConserves(w: World, e: Entry, fails: bool)
    requires Conserved(w) && Enabled(w, Finish(e, fails))
    ensures Conserved(Next(w, Finish(e, fails)))
  {
    hide Held, Balanced;
  }

  lemma BooksConserve(w: World, s: Step)
    requires Conserved(w) && Enabled(w, s) && !s.Finish?
    requires Balanced(BooksAfter(w.books, s)) && |BooksAfter(w.books, s).queue| <= CAPACITY
    requires Held(BooksAfter(w.books, s)) == Held(w.books) + if s.Record? then multiset{s.e} else multiset{}
    ensures Conserved(Next(w, s))
  {
    hide Held, Balanced, Recorded, Taken, Flushed;
    if s.Record? {
      assert w.recording == w.recording - multiset{s.e} + multiset{s.e};
    }
  }

  lemma ConservedStep(w: World, s: Step)
    requires Conserved(w) && Enabled(w, s)
    ensures Conserved(Next(w, s))
  {
    hide Held, Balanced, Recorded, Taken, Flushed, Unique;
    match s {
      case Finish(e, fails) => FinishConserves(w, e, fails);
      case Record(e) =>
        RecordKeeps(w.books, e);
        BooksConserve(w, s);
      case Take =>
        TakeKeeps(w.books);
        TakenFields(w.books);
        BooksConserve(w, s);
      case Flush(ok) =>
        FlushKeeps(w.books, ok);
        FlushedFields(w.books, ok);
        BooksConserve(w, s);
      case _ =>
    }
  }

  /** In every interleaving each finished request is in exactly one place: about to be
      recorded, in the queue, in the batch, stored, dropped at a full queue, or lost with a
      failed flush; and the stored total of every key is the summed cost of its stored rows. */
  lemma {:induction false} Conservation(keys: set<Key>, steps: seq<Step>)
    requires Reach(keys, steps).Some?
    ensures Conserved(Reach(keys, steps).value)
  {
    if steps != [] {
      Conservation(keys, steps[..|steps| - 1]);
      ConservedStep(Reach(keys, steps[..|steps| - 1]).value, steps[|steps| - 1]);
    }
  }

  // ---- The compared value ----

  /** `v` is the cost of some of the key's finished requests, none counted twice. */
  ghost predicate Covered(finished: seq<Entry>, k: Key, v: nat) {
    exists es: seq<Entry> :: multiset(es) <= multiset(finished) && Spent(es, k) == v
  }

  lemma CoveredBy(finished: seq<Entry>, k: Key, es: seq<Entry>)
    requires multiset(es) <= multiset(finished)
    ensures Covered(finished, k, Spent(es, k))
  {
  }

  lemma CoveredLater(finished: seq<Entry>, e: Entry, k: Key, v: nat)
    requires Covered(finished, k, v)
    ensures Covered(finished + [e], k, v)
    ensures k == e.key ==> Covered(finished + [e], k, v + e.cost)
  {
    var es :| multiset(es) <= multiset(finished) && Spent(es, k) == v;
    CoveredBy(finished + [e], k, es);
    if k == e.key {
      assert (es + [e])[..|es|] == es;
      CoveredBy(finished + [e], k, es + [e]);
    }
  }

  function Without(es: seq<Entry>, i: nat): seq<Entry>
    requires i < |es|
  {
    es[..i] + es[i + 1..]
  }

  lemma WithoutOne(es: seq<Entry>, i: nat, k: Key)
    requires i < |es|
    ensures multiset(es) == multiset(Without(es, i)) + multiset{es[i]}
    ensures Spent(es, k) == Spent(Without(es, i), k) + Spent([es[i]], k)
  {
    var e := es[i];
    assert es == (es[..i] + [e]) + es[i + 1..];
    SpentConcat(es[..i] + [e], es[i + 1..], k);
    SpentConcat(es[..i], [e], k);
    SpentConcat(es[..i], es[i + 1..], k);
  }

  lemma CancelOne(a: multiset<Entry>, b: multiset<Entry>, e: Entry)
    requires a + multiset{e} <= b + multiset{e}
    ensures a <= b
  {
    forall x ensures a[x] <= b[x] {
      assert (a + multiset{e})[x] <= (b + multiset{e})[x];
    }
  }

  /** A duplicate-free part of the finished requests costs no more than all of them. */
  lemma {:induction false} PartCostsLess(finished: seq<Entry>, es: seq<Entry>, k: Key)
    requires multiset(es) <= multiset(finished)
    ensures Spent(es, k) <= Spent(finished, k)
  {
    hide Spent;
    if finished == [] {
      assert forall e :: e in es ==> e in multiset(es);
      assert es == [];
    } else {
      var n := |finished| - 1;
      var rest, e := finished[..n], finished[n];
      WithoutOne(finished, n, k);
      assert Without(finished, n) == rest;
      if e in es {
        var i :| 0 <= i < |es| && es[i] == e;
        WithoutOne(es, i, k);
        assert multiset(finished) == multiset(rest) + multiset{e};
        assert multiset(es) == multiset(Without(es, i)) + multiset{e};
        CancelOne(multiset(Without(es, i)), multiset(rest), e);
        PartCostsLess(rest, Without(es, i), k);
      } else {
        assert e !in multiset(es);
        PartCostsLess(rest, es, k);
      }
    }
  }

  lemma {:induction false} UniqueOnce(es: seq<Entry>, e: Entry)
    requires Unique(es)
    ensures multiset(es)[e] <= 1
  {
    if es != [] {
      var n := |es| - 1;
      UniqueOnce(es[..n], e);
      assert es == es[..n] + [es[n]];
      if es[n] == e {
        assert e !in es[..n];
        assert e !in multiset(es[..n]);
      }
    }
  }

  lemma NoneTwice(finished: seq<Entry>, es: seq<Entry>)
    requires Unique(finished) && multiset(es) <= multiset(finished)
    ensures forall i, j :: 0 <= i < j < |es| ==> es[i] != es[j]
  {
    hide Unique;
    forall i, j | 0 <= i < j < |es| ensures es[i] != es[j] {
      var e := es[i];
      UniqueOnce(finished, e);
      assert es == es[..j] + [es[j]] + es[j + 1..];
      assert e in es[..j] && e in multiset(es[..j]);
    }
  }

  ghost predicate AllCovered(w: World) {
    && (forall k :: k in w.counters ==> Covered(w.finished, k, w.counters[k]))
    && (forall r :: r in w.checks && w.checks[r].Loaded? ==> Covered(w.finished, w.checks[r].key, w.checks[r].value))
  }

  lemma StoredIsCovered(w: World, k: Key)
    requires Conserved(w) && k in w.books.quotaUsed
    ensures Covered(w.finished, k, w.books.quotaUsed[k])
  {
    CoveredBy(w.finished, k, w.books.stored);
  }

  lemma FinishKeepsCovered(w: World, e: Entry, fails: bool)
    requires AllCovered(w) && Enabled(w, Finish(e, fails))
    ensures AllCovered(Next(w, Finish(e, fails)))
  {
    hide Covered;
    var w' := Next(w, Finish(e, fails));
    forall k | k in w'.counters ensures Covered(w'.finished, k, w'.counters[k]) {
      if k in w.counters {
        CoveredLater(w.finished, e, k, w.counters[k]);
      } else {
        CoveredBy(w.finished, k, []);
        CoveredLater(w.finished, e, k, 0);
      }
    }
    forall r | r in w'.checks && w'.checks[r].Loaded? ensures Covered(w'.finished, w'.checks[r].key,
                                                                      w'.checks[r].value) {
      CoveredLater(w.finished, e, w.checks[r].key, w.checks[r].value);
    }
  }

  lemma CoveredStep(w: World, s: Step)
    requires Conserved(w) && AllCovered(w) && Enabled(w, s)
    ensures AllCovered(Next(w, s))
  {
    hide Covered, Conserved;
    if s.Finish? {
      FinishKeepsCovered(w, s.e, s.fails);
    } else if s.Read? && w.checks[s.r].key in w.books.quotaUsed {
      StoredIsCovered(w, w.checks[s.r].key);
    }
  }

  lemma {:induction false} AlwaysCovered(keys: set<Key>, steps: seq<Step>)
    requires Reach(keys, steps).Some?
    ensures AllCovered(Reach(keys, steps).value)
  {
    if steps != [] {
      AlwaysCovered(keys, steps[..|steps| - 1]);
      Conservation(keys, steps[..|steps| - 1]);
      CoveredStep(Reach(keys, steps[..|steps| - 1]).value, steps[|steps| - 1]);
    }
  }

  /** In every interleaving, with every loss and failure, the value a check compares with the
      limit is the cost of finished requests of that key, none counted twice. So no key is
      rejected while what it has really spent is below its limit. */
  lemma NeverRejectedEarly(keys: set<Key>, steps: seq<Step>, s: Step)
    requires Reach(keys, steps).Some? && Enabled(Reach(keys, steps).value, s)
    requires Compared(Reach(keys, steps).value, s).Some?
    ensures
      var (k, used) := Compared(Reach(keys, steps).value, s).value;
      var finished := Reach(keys, steps).value.finished;
      && used <= Spent(finished, k)
      && exists es: seq<Entry> ::
           && multiset(es) <= multiset(finished) && Spent(es, k) == used
           && forall i, j :: 0 <= i < j < |es| ==> es[i] != es[j]
  {
    var w := Reach(keys, steps).value;
    Conservation(keys, steps);
    AlwaysCovered(keys, steps);
    var (k, used) := Compared(w, s).value;
    if s.Read? {
      StoredIsCovered(w, k);
    }
    var es :| multiset(es) <= multiset(w.finished) && Spent(es, k) == used;
    PartCostsLess(w.finished, es, k);
    NoneTwice(w.finished, es);
  }

  // ---- When the counter is exact ----

  /** The step loses nothing of the counters. */
  predicate Lossless(s: Step) {
    !s.Evict? && !(s.Finish? && s.fails)
  }

  ghost predicate Exact(w: World) {
    forall k :: (if k in w.counters then w.counters[k] else 0) == Spent(w.finished, k)
  }

  lemma ExactFill(w: World, s: Step)
    requires AllCovered(w) && Exact(w) && s.Fill? && Enabled(w, s)
    ensures Exact(Next(w, s))
  {
    hide Spent;
    var check := w.checks[s.r];
    if check.key !in w.counters {
      var es :| multiset(es) <= multiset(w.finished) && Spent(es, check.key) == check.value;
      PartCostsLess(w.finished, es, check.key);
    }
  }

  lemma ExactFinish(w: World, s: Step)
    requires Exact(w) && s.Finish? && Enabled(w, s) && Lossless(s)
    ensures Exact(Next(w, s))
  {
    assert Next(w, s).finished[..|w.finished|] == w.finished;
  }

  /** While no counter is evicted and no increment fails, a counter that is read is exactly
      what the key has spent, whatever the queue drops and the database refuses: such a check
      rejects the key if and only if the limit is reached. */
  lemma {:induction false} CounterIsExact(keys: set<Key>, steps: seq<Step>)
    requires Reach(keys, steps).Some? && forall i :: 0 <= i < |steps| ==> Lossless(steps[i])
    ensures Exact(Reach(keys, steps).value)
  {
    if steps != [] {
      var before := steps[..|steps| - 1];
      CounterIsExact(keys, before);
      Conservation(keys, before);
      AlwaysCovered(keys, before);
      var w, s := Reach(keys, before).value, steps[|steps| - 1];
      hide AllCovered, Conserved;
      if s.Fill? { ExactFill(w, s); } else if s.Finish? { ExactFinish(w, s); }
    }
  }

  // ---- What a counter misses while it is there ----

  /** What the key has spent beyond its counter. */
  function Deficit(w: World, k: Key): int {
    Spent(w.finished, k) - if k in w.counters then w.counters[k] else 0
  }

  /** The request finishes without its cost being added. */
  predicate FailsIncrement(s: Step, k: Key) {
    s.Finish? && s.fails && s.e.key == k && s.e.cost > 0
  }

  function FailedIncrements(steps: seq<Step>, k: Key): nat {
    if steps == [] then 0
    else
      var s := steps[|steps| - 1];
      FailedIncrements(steps[..|steps| - 1], k) + if FailsIncrement(s, k) then s.e.cost else 0
  }

  lemma {:induction false} NoneFailed(steps: seq<Step>, k: Key)
    ensures FailedIncrements(steps, k) == 0 <==> forall i :: 0 <= i < |steps| ==> !FailsIncrement(steps[i], k)
  {
    if steps != [] {
      var init := steps[..|steps| - 1];
      NoneFailed(init, k);
      assert forall i :: 0 <= i < |init| ==> steps[i] == init[i];
    }
  }

  /** The run is possible and the counter is there after it. */
  predicate Present(keys: set<Key>, steps: seq<Step>, k: Key) {
    Reach(keys, steps).Some? && k in Reach(keys, steps).value.counters
  }

  lemma DeficitStep(w: World, s: Step, k: Key)
    requires Enabled(w, s) && k in w.counters && k in Next(w, s).counters
    ensures Deficit(Next(w, s), k) == Deficit(w, k) + if FailsIncrement(s, k) then s.e.cost else 0
  {
    hide Spent;
    if s.Finish? {
      SpentSnoc(w.finished, s.e, k);
    }
  }

  lemma SpentSnoc(es: seq<Entry>, e: Entry, k: Key)
    ensures Spent(es + [e], k) == Spent(es, k) + if e.key == k then e.cost else 0
  {
    assert (es + [e])[..|es|] == es;
  }

  /** While a counter is there, what it misses grows by the increments that fail and by
      nothing else, and never shrinks: no check and no flush repairs it. */
  lemma {:induction false} DeficitGrowsExactly(keys: set<Key>, steps: seq<Step>, n: nat, k: Key)
    requires n <= |steps| && forall m :: n <= m <= |steps| ==> Present(keys, steps[..m], k)
    ensures Present(keys, steps, k) && Present(keys, steps[..n], k)
    ensures Deficit(Reach(keys, steps).value, k) ==
      Deficit(Reach(keys, steps[..n]).value, k) + FailedIncrements(steps[n..], k)
  {
    hide Deficit, FailsIncrement, Next;
    assert steps[..|steps|] == steps;
    if n < |steps| {
      var init, s := steps[..|steps| - 1], steps[|steps| - 1];
      forall m | n <= m <= |init| ensures Present(keys, init[..m], k) {
        assert init[..m] == steps[..m];
      }
      DeficitGrowsExactly(keys, init, n, k);
      assert init[..n] == steps[..n];
      assert steps[n..][..|steps[n..]| - 1] == init[n..];
      DeficitStep(Reach(keys, init).value, s, k);
    }
  }

  lemma {:induction false} ReachPrefix(keys: set<Key>, steps: seq<Step>, n: nat)
    requires Reach(keys, steps).Some? && n <= |steps|
    ensures Reach(keys, steps[..n]).Some?
    ensures Reach(keys, steps[..n]).value.finished <= Reach(keys, steps).value.finished
  {
    hide Enabled, CountersAfter, ChecksAfter, BooksAfter;
    if n < |steps| {
      var init := steps[..|steps| - 1];
      ReachPrefix(keys, init, n);
      assert init[..n] == steps[..n];
    } else {
      assert steps[..n] == steps;
    }
  }

  /** The counter was made by the step before `n` and has been there ever since. */
  predicate MadeAt(keys: set<Key>, steps: seq<Step>, k: Key, n: nat) {
    0 < n <= |steps| && !Present(keys, steps[..n - 1], k) && forall m :: n <= m <= |steps| ==> Present(keys, steps[..m],
                                                                                                       k)
  }

  lemma {:induction false} MadeOnce(keys: set<Key>, steps: seq<Step>, k: Key)
    requires Present(keys, steps, k)
    ensures exists n: nat :: MadeAt(keys, steps, k, n)
  {
    assert steps != [] by { NoneAtStart(keys, k); }
    hide Present;
    var init := steps[..|steps| - 1];
    assert steps[..|steps|] == steps;
    if Present(keys, init, k) {
      MadeOnce(keys, init, k);
      var n: nat :| MadeAt(keys, init, k, n);
      assert forall m :: 0 <= m <= |init| ==> init[..m] == steps[..m];
      assert MadeAt(keys, steps, k, n);
    } else {
      assert MadeAt(keys, steps, k, |steps|);
    }
  }

  lemma NoneAtStart(keys: set<Key>, k: Key)
    ensures !Present(keys, [], k)
  {
  }

  lemma NeverAhead(keys: set<Key>, steps: seq<Step>, k: Key)
    requires Reach(keys, steps).Some?
    ensures Deficit(Reach(keys, steps).value, k) >= 0
  {
    var w := Reach(keys, steps).value;
    AlwaysCovered(keys, steps);
    if k in w.counters {
      var es :| multiset(es) <= multiset(w.finished) && Spent(es, k) == w.counters[k];
      PartCostsLess(w.finished, es, k);
    }
  }

  /** A counter that is there tells exactly what its key has spent if and only if it did when
      it was made and no increment of the key has failed since. */
  lemma ExactWhilePresent(keys: set<Key>, steps: seq<Step>, k: Key, n: nat)
    requires MadeAt(keys, steps, k, n)
    ensures Present(keys, steps, k) && Present(keys, steps[..n], k)
    ensures Deficit(Reach(keys, steps).value, k) == 0 <==>
              Deficit(Reach(keys, steps[..n]).value,
                      k) == 0 && forall i :: n <= i < |steps| ==> !FailsIncrement(steps[i], k)
  {
    hide Deficit, FailsIncrement, Reach;
    DeficitGrowsExactly(keys, steps, n, k);
    NeverAhead(keys, steps[..n], k);
    NoneFailed(steps[n..], k);
    assert forall i :: n <= i < |steps| ==> steps[n..][i - n] == steps[i];
    assert forall i :: 0 <= i < |steps[n..]| ==> steps[n..][i] == steps[n + i];
  }

  /** The part costs as much as the whole exactly if it holds everything that costs. */
  lemma {:induction false} PartCostsAll(finished: seq<Entry>, es: seq<Entry>, k: Key)
    requires Unique(finished) && multiset(es) <= multiset(finished)
    ensures Spent(es, k) == Spent(finished, k) <==> forall e <- finished :: e.key == k && e.cost > 0 ==> e in es
  {
    hide Spent, Without;
    if finished == [] {
      assert forall e :: e in es ==> e in multiset(es);
      assert es == [];
    } else {
      var n := |finished| - 1;
      var rest, e := finished[..n], finished[n];
      WithoutOne(finished, n, k);
      assert Without(finished, n) == rest by { WithoutLast(finished); }
      assert forall d :: d in finished <==> d in rest || d == e;
      OneCosts(e, k);
      if e in es {
        var i :| 0 <= i < |es| && es[i] == e;
        WithoutOne(es, i, k);
        assert multiset(finished) == multiset(rest) + multiset{e};
        assert multiset(es) == multiset(Without(es, i)) + multiset{e};
        CancelOne(multiset(Without(es, i)), multiset(rest), e);
        PartCostsAll(rest, Without(es, i), k);
        OthersStay(es, i);
      } else {
        assert e !in multiset(es);
        PartCostsLess(rest, es, k);
        PartCostsAll(rest, es, k);
      }
    }
  }

  lemma WithoutLast(es: seq<Entry>)
    requires es != []
    ensures Without(es, |es| - 1) == es[..|es| - 1]
  {
  }

  lemma OthersStay(es: seq<Entry>, i: nat)
    requires i < |es|
    ensures forall d :: d != es[i] ==> (d in es <==> d in Without(es, i))
  {
    assert es == es[..i] + [es[i]] + es[i + 1..];
  }

  lemma OneCosts(e: Entry, k: Key)
    ensures Spent([e], k) == if e.key == k then e.cost else 0
  {
  }

  /** The value a check has loaded is the stored total at the moment it read the database. */
  lemma {:induction false} LoadedWhenRead(keys: set<Key>, steps: seq<Step>, r: Request)
    requires Reach(keys, steps).Some? && r in Reach(keys, steps).value.checks
    requires Reach(keys, steps).value.checks[r].Loaded?
    ensures exists i :: 0 <= i < |steps| && steps[i] == Read(r, false)
                        && ReadAt(keys, steps, i, Reach(keys, steps).value.checks[r])
  {
    hide BooksAfter, CountersAfter, ReadAt;
    var init, s := steps[..|steps| - 1], steps[|steps| - 1];
    var before, check := Reach(keys, init).value, Reach(keys, steps).value.checks[r];
    if r in before.checks && before.checks[r] == check {
      LoadedWhenRead(keys, init, r);
      var i :| 0 <= i < |init| && init[i] == Read(r, false) && ReadAt(keys, init, i, check);
      assert steps[i] == init[i];
      ReadLater(keys, steps, i, check);
    } else {
      assert s == Read(r, false);
      assert ReadAt(keys, steps, |steps| - 1, check) by { JustRead(before, s, r); ReadNow(keys, steps, check); }
    }
  }

  lemma ReadLater(keys: set<Key>, steps: seq<Step>, i: nat, check: Check)
    requires i < |steps| && ReadAt(keys, steps[..|steps| - 1], i, check)
    ensures ReadAt(keys, steps, i, check)
  {
    assert steps[..|steps| - 1][..i] == steps[..i];
  }

  lemma JustRead(w: World, s: Step, r: Request)
    requires Enabled(w, s) && s == Read(r, false)
    requires r in Next(w, s).checks && Next(w, s).checks[r].Loaded?
    ensures
      var check := Next(w, s).checks[r];
      check.key in w.books.quotaUsed && w.books.quotaUsed[check.key] == check.value
  {
  }

  lemma ReadNow(keys: set<Key>, steps: seq<Step>, check: Check)
    requires steps != [] && check.Loaded? && Reach(keys, steps[..|steps| - 1]).Some?
    requires
      var used := Reach(keys, steps[..|steps| - 1]).value.books.quotaUsed;
      check.key in used && used[check.key] == check.value
    ensures ReadAt(keys, steps, |steps| - 1, check)
  {
  }

  predicate ReadAt(keys: set<Key>, steps: seq<Step>, i: nat, check: Check) {
    && i <= |steps| && check.Loaded? && Reach(keys, steps[..i]).Some?
    && var used := Reach(keys, steps[..i]).value.books.quotaUsed;
       check.key in used && used[check.key] == check.value
  }

  lemma MakersOnly(w: World, s: Step, k: Key)
    requires Enabled(w, s) && k !in w.counters && k in Next(w, s).counters
    ensures
      || (s.Fill? && !s.fails && w.checks[s.r].key == k && Deficit(Next(w, s), k) == Spent(w.finished,
                                                                                           k) - w.checks[s.r].value)
      || (s.Finish? && s.e.key == k && Deficit(Next(w, s), k) == Spent(w.finished, k))
  {
    if s.Finish? {
      assert (w.finished + [s.e])[..|w.finished|] == w.finished;
    }
  }

  /** Nothing the key has spent so far was missing from the database when it was read at `i`. */
  predicate AllStoredAt(keys: set<Key>, steps: seq<Step>, i: nat, k: Key)
    requires Reach(keys, steps).Some? && i <= |steps|
  {
    && Reach(keys, steps[..i]).Some?
    && forall e <- Reach(keys, steps).value.finished ::
         e.key == k && e.cost > 0 ==> e in Reach(keys, steps[..i]).value.books.stored
  }

  /** A counter made by a check is exact if and only if every cost of the key up to now was
      stored already when the check read the database; one made by an increment, if and only
      if the key had spent nothing before. */
  lemma MadeExactly(keys: set<Key>, steps: seq<Step>, s: Step, k: Key)
    requires Reach(keys, steps).Some? && Enabled(Reach(keys, steps).value, s) && Reach(keys, steps + [s]).Some?
    requires !Present(keys, steps, k) && Present(keys, steps + [s], k)
    ensures s.Fill? || s.Finish?
    ensures s.Finish? ==>
      (Deficit(Reach(keys, steps + [s]).value, k) == 0 <==> Spent(Reach(keys, steps).value.finished, k) == 0)
    ensures s.Fill? ==>
      (exists i :: 0 <= i < |steps| && steps[i] == Read(s.r, false)
         && ReadAt(keys, steps, i, Reach(keys, steps).value.checks[s.r])
         && (Deficit(Reach(keys, steps + [s]).value, k) == 0 <==> AllStoredAt(keys, steps, i, k)))
  {
    hide Enabled, Next, Spent, Deficit;
    var w := Reach(keys, steps).value;
    ReachStep(keys, steps, s);
    MakersOnly(w, s, k);
    if s.Fill? {
      FillerHasLoaded(w, s);
      LoadedWhenRead(keys, steps, s.r);
      var i :| 0 <= i < |steps| && steps[i] == Read(s.r, false) && ReadAt(keys, steps, i, w.checks[s.r]);
      StoredThenAll(keys, steps, i, k);
    }
  }

  lemma FillerHasLoaded(w: World, s: Step)
    requires s.Fill? && Enabled(w, s)
    ensures s.r in w.checks && w.checks[s.r].Loaded?
  {
  }

  lemma StoredThenAll(keys: set<Key>, steps: seq<Step>, i: nat, k: Key)
    requires Reach(keys, steps).Some? && i <= |steps| && Reach(keys, steps[..i]).Some?
    requires k in Reach(keys, steps[..i]).value.books.quotaUsed
    ensures Reach(keys, steps[..i]).value.books.quotaUsed[k] == Spent(Reach(keys, steps).value.finished, k)
            <==> AllStoredAt(keys, steps, i, k)
  {
    hide Reach, Spent;
    var early, late := Reach(keys, steps[..i]).value, Reach(keys, steps).value;
    ReachPrefix(keys, steps, i);
    Conservation(keys, steps);
    Conservation(keys, steps[..i]);
    assert late.finished == early.finished + late.finished[|early.finished|..];
    assert multiset(early.books.stored) <= multiset(early.finished) <= multiset(late.finished);
    PartCostsAll(late.finished, early.books.stored, k);
  }

  lemma ReachStep(keys: set<Key>, steps: seq<Step>, s: Step)
    requires Reach(keys, steps).Some? && Enabled(Reach(keys, steps).value, s)
    ensures Reach(keys, steps + [s]) == Some(Next(Reach(keys, steps).value, s))
  {
    assert (steps + [s])[..|steps|] == steps;
  }

  lemma EmptyRun(keys: set<Key>)
    ensures Reach(keys, []) == Some(Start(keys))
  {
  }

  lemma IncrementFromNothing(k: Key, cost: nat)
    ensures Incremented(map[], k, cost) == map[k := cost]
  {
  }

  /** A request of cost `e.cost` finishes and is stored. */
  function Storing(e: Entry): seq<Step> {
    [Finish(e, false), Record(e), Take, Flush(true)]
  }

  lemma StoreOne(keys: set<Key>, steps: seq<Step>, e: Entry)
    requires Reach(keys, steps).Some? && Enabled(Reach(keys, steps).value, Finish(e, false))
    requires var w := Reach(keys, steps).value;
      w.books.queue == [] && w.books.batch == [] && w.recording == multiset{} && w.checks == map[]
    requires e.cost > 0
    ensures
      var w := Reach(keys, steps).value;
      var b := w.books;
      Reach(keys, steps + Storing(e)) == Some(World(
        Books([], [], b.stored + [e], b.dropped, b.lost, Credited(b.quotaUsed, [e])),
        Incremented(w.counters, e.key, e.cost), map[], multiset{}, w.finished + [e]))
  {
    hide Reach, Credited;
    var w := Reach(keys, steps).value;
    ReachStep(keys, steps, Finish(e, false));
    ReachStep(keys, steps + [Finish(e, false)], Record(e));
    ReachStep(keys, steps + [Finish(e, false)] + [Record(e)], Take);
    ReachStep(keys, steps + [Finish(e, false)] + [Record(e)] + [Take], Flush(true));
    assert steps + [Finish(e, false)] + [Record(e)] + [Take] + [Flush(true)] == steps + Storing(e);
    assert [] + [e] == [e] && [e][1..] == [];
  }

  /** A counter that was evicted and is then incremented starts again from the increment:
      after this run the key has spent 105, all of it stored, and a check compares 5. */
  lemma EvictionForgets(k: Key)
    ensures
      var steps := Storing(Entry(1, k, 100)) + [Evict(k)] + Storing(Entry(2, k, 5));
      var reached := Reach({k}, steps);
      && reached.Some?
      && reached.value.books.quotaUsed == map[k := 105]
      && Enabled(reached.value, Get(0, k, false, false))
      && Compared(reached.value, Get(0, k, false, false)) == Some((k, 5))
  {
    hide Reach, Storing, Incremented;
    var a, b := Entry(1, k, 100), Entry(2, k, 5);
    EmptyRun({k});
    StoreOne({k}, [], a);
    assert [] + Storing(a) == Storing(a);
    var w := Reach({k}, Storing(a)).value;
    assert w.books.quotaUsed == map[k := 100] by { assert Spent([a], k) == 100; }
    ReachStep({k}, Storing(a), Evict(k));
    assert w.counters - {k} == map[] by {
      assert Incremented(map[], k, 100) == map[k := 100] by { IncrementFromNothing(k, 100); }
    }
    StoreOne({k}, Storing(a) + [Evict(k)], b);
    assert Credited(map[k := 100], [b]) == map[k := 105] by { assert Spent([b], k) == 5; }
    assert Incremented(map[], k, 5) == map[k := 5] by { IncrementFromNothing(k, 5); }
  }
}
