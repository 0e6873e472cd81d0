/** The usage ledger: a bounded queue, a worker that batches entries, and the transaction
    that stores a batch together with the per-key totals. Costs are exact integers. */
module Ledger {
  type Key = nat

  /** A billing entry; `id` tells requests apart. */
  datatype Entry = Entry(id: nat, key: Key, cost: nat)

  const CAPACITY := 4096

  /** The entries by where they are, and the stored total of every existing key. */
  datatype Books = Books(
    queue: seq<Entry>, batch: seq<Entry>, stored: seq<Entry>, dropped: seq<Entry>, lost: seq<Entry>,
    quotaUsed: map<Key, nat>)

  /** The summed cost of a key's entries. */
  function Spent(es: seq<Entry>, k: Key): nat {
    if es == [] then 0
    else Spent(es[..|es| - 1], k) + if es[|es| - 1].key == k then es[|es| - 1].cost else 0
  }

  function Credited(used: map<Key, nat>, es: seq<Entry>): map<Key, nat> {
    map k | k in used :: used[k] + Spent(es, k)
  }

  // ---- The operations on values ----

  function Recorded(b: Books, e: Entry): Books {
    if |b.queue| < CAPACITY then b.(queue := b.queue + [e]) else b.(dropped := b.dropped + [e])
  }

  function Taken(b: Books): Books
    requires b.queue != []
  {
    b.(queue := b.queue[1..], batch := b.batch + [b.queue[0]])
  }

  function Flushed(b: Books, ok: bool): Books {
    if ok
    then b.(batch := [], stored := b.stored + b.batch, quotaUsed := Credited(b.quotaUsed, b.batch))
    else b.(batch := [], lost := b.lost + b.batch)
  }

  lemma {:induction false} SpentConcat(a: seq<Entry>, b: seq<Entry>, k: Key)
    ensures Spent(a + b, k) == Spent(a, k) + Spent(b, k)
  {
    if b == [] {
      assert a + b == a;
    } else {
      assert (a + b)[..|a + b| - 1] == a + b[..|b| - 1];
      SpentConcat(a, b[..|b| - 1], k);
    }
  }

  // ---- What the operations keep ----

  /** Every entry the books hold, wherever it is. */
  function Held(b: Books): multiset<Entry> {
    multiset(b.queue) + multiset(b.batch) + multiset(b.stored) + multiset(b.dropped) + multiset(b.lost)
  }

  /** The stored totals are the totals of the stored rows. */
  ghost predicate Balanced(b: Books) {
    forall k :: k in b.quotaUsed ==> b.quotaUsed[k] == Spent(b.stored, k)
  }

  lemma RecordKeeps(b: Books, e: Entry)
    requires Balanced(b) && |b.queue| <= CAPACITY
    ensures Balanced(Recorded(b, e)) && |Recorded(b, e).queue| <= CAPACITY
    ensures Held(Recorded(b, e)) == Held(b) + multiset{e}
    ensures |b.queue| < CAPACITY ==> Recorded(b, e).dropped == b.dropped
  {
  }

  lemma TakeKeeps(b: Books)
    requires Balanced(b) && b.queue != []
    ensures Balanced(Taken(b)) && Held(Taken(b)) == Held(b)
  {
    assert b.queue == [b.queue[0]] + b.queue[1..];
  }

  lemma FlushKeeps(b: Books, ok: bool)
    requires Balanced(b)
    ensures Balanced(Flushed(b, ok)) && Held(Flushed(b, ok)) == Held(b)
  {
    forall k | k in b.quotaUsed ensures Spent(b.stored + b.batch, k) == Spent(b.stored, k) + Spent(b.batch, k) {
      SpentConcat(b.stored, b.batch, k);
    }
  }

  /** `b` comes from `a` by taking and flushing only. */
  predicate Drained(a: Books, b: Books) {
    && b.dropped == a.dropped
    && multiset(b.stored) + multiset(b.lost) + multiset(b.batch) + multiset(b.queue)
       == multiset(a.stored) + multiset(a.lost) + multiset(a.batch) + multiset(a.queue)
    && (b.lost == a.lost ==> b.stored + b.batch + b.queue == a.stored + a.batch + a.queue)
    && |b.lost| >= |a.lost|
  }

  lemma DrainsItself(b: Books)
    ensures Drained(b, b)
  {
  }

  lemma TakenFields(b: Books)
    requires b.queue != []
    ensures Taken(b).lost == b.lost && |Taken(b).queue| == |b.queue| - 1 && |Taken(b).batch| == |b.batch| + 1
  {
  }

  lemma FlushedFields(b: Books, ok: bool)
    ensures Flushed(b, ok).batch == [] && Flushed(b, ok).queue == b.queue
    ensures ok ==> Flushed(b, ok).lost == b.lost
  {
  }

  lemma FlushDrains(a: Books, b: Books, ok: bool)
    requires Drained(a, b)
    ensures Drained(a, Flushed(b, ok))
  {
    assert b.stored + b.batch + [] + b.queue == b.stored + b.batch + b.queue;
    if !ok && b.batch == [] {
      assert b.lost + b.batch == b.lost;
    }
  }

  lemma TakeDrains(a: Books, b: Books)
    requires Drained(a, b) && b.queue != []
    ensures Drained(a, Taken(b))
  {
    assert b.queue == [b.queue[0]] + b.queue[1..];
    assert b.stored + (b.batch + [b.queue[0]]) + b.queue[1..] == b.stored + b.batch + b.queue;
  }

  lemma DrainsOn(a: Books, b: Books, flushed: bool, ok: bool)
    requires Drained(a, b) && b.queue != []
    ensures Drained(a, if flushed then Flushed(Taken(b), ok) else Taken(b))
  {
    TakeDrains(a, b);
    FlushDrains(a, Taken(b), ok);
  }

  // ---- The database transaction ----

  /** The update statements of the transaction; `budget` is the number of statements that
      succeed before one fails. */
  method Credit(used: map<Key, nat>, deltas: map<Key, nat>, budget: nat) returns (ok: bool, credited: map<Key, nat>)
    ensures budget >= |deltas| ==> ok
    ensures ok ==> credited.Keys == used.Keys
    ensures ok ==> forall k :: k in used ==> credited[k] == used[k] + if k in deltas then deltas[k] else 0
  {
    ok, credited := true, used;
    var left, todo := budget, deltas.Keys;
    while todo != {}
      invariant todo <= deltas.Keys
      invariant credited.Keys == used.Keys
      invariant forall k :: k in used ==> credited[k] == used[k] + if k in deltas && k !in todo then deltas[k] else 0
      invariant budget >= |deltas| ==> left >= |todo|
      decreases todo
    {
      var k :| k in todo;
      todo := todo - {k};
      if deltas[k] == 0 {
        continue;
      }
      if left == 0 {
        return false, used;
      }
      left := left - 1;
      if k in credited {
        credited := credited[k := credited[k] + deltas[k]];
      }
    }
  }

  class Database {
    var rows: seq<Entry>
    var quotaUsed: map<Key, nat>

    constructor (keys: set<Key>)
      ensures rows == [] && quotaUsed == map k | k in keys :: 0
    {
      rows := [];
      quotaUsed := map k | k in keys :: 0;
    }

    /** Inserts the rows and credits every key with its total, all or nothing. */
    method FlushUsageBatch(logs: seq<Entry>, deltas: map<Key, nat>, budget: nat) returns (ok: bool)
      modifies this
      ensures budget > |deltas| ==> ok
      ensures !ok ==> rows == old(rows) && quotaUsed == old(quotaUsed)
      ensures ok ==> rows == old(rows) + logs && quotaUsed.Keys == old(quotaUsed.Keys)
      ensures ok ==>
                forall k :: k in quotaUsed ==> quotaUsed[k] == old(quotaUsed[k]) + if k in deltas then deltas[k] else 0
    {
      if logs == [] && deltas == map[] {
        return true;
      }
      var left := budget;
      if logs != [] {
        if left == 0 {
          return false;
        }
        left := left - 1;
      }
      var credited;
      ok, credited := Credit(quotaUsed, deltas, left);
      if ok {
        rows, quotaUsed := rows + logs, credited;
      }
    }
  }

  // ---- The asynchronous writer ----

  /** The totals of a batch, key by key. */
  method Totals(batch: seq<Entry>) returns (deltas: map<Key, nat>)
    ensures |deltas| <= |batch|
    ensures forall k :: Spent(batch, k) == if k in deltas then deltas[k] else 0
  {
    deltas := map[];
    for i := 0 to |batch|
      invariant |deltas| <= i
      invariant forall k :: Spent(batch[..i], k) == if k in deltas then deltas[k] else 0
    {
      assert batch[..i + 1][..i] == batch[..i];
      var e := batch[i];
      if e.cost != 0 {
        ghost var before := deltas;
        deltas := deltas[e.key := (if e.key in deltas then deltas[e.key] else 0) + e.cost];
        assert deltas.Keys == before.Keys + {e.key};
      }
    }
    assert batch[..|batch|] == batch;
  }

  class UsageWriter {
    const store: Database
    const batchSize: nat
    var ch: seq<Entry>
    var batch: seq<Entry>
    /** What was logged as dropped, and as lost with a failed batch. */
    ghost var dropped: seq<Entry>
    ghost var lost: seq<Entry>

    ghost function View(): Books
      reads this, store
    {
      Books(ch, batch, store.rows, dropped, lost, store.quotaUsed)
    }

    constructor (store: Database, batchSize: int)
      ensures this.store == store && this.batchSize == if batchSize <= 0 then 100 else batchSize
      ensures ch == [] && batch == [] && dropped == [] && lost == []
    {
      this.store := store;
      this.batchSize := if batchSize <= 0 then 100 else batchSize;
      ch, batch, dropped, lost := [], [], [], [];
    }

    /** Never blocks: a full queue drops the entry. */
    method Record(e: Entry)
      modifies this
      ensures View() == Recorded(old(View()), e)
    {
      if |ch| < CAPACITY {
        ch := ch + [e];
      } else {
        dropped := dropped + [e];
      }
    }

    /** Stores the batch with its totals, and empties it whatever the outcome. */
    method Flush(budget: nat) returns (ghost ok: bool)
      modifies this, store
      ensures View() == Flushed(old(View()), ok)
      ensures budget > |old(batch)| ==> ok
    {
      hide Spent;
      if |batch| == 0 {
        NothingSpent(store.quotaUsed, batch);
        return true;
      }
      var deltas := Totals(batch);
      var stored := store.FlushUsageBatch(batch, deltas, budget);
      ok := stored;
      if !stored {
        lost := lost + batch;
      }
      batch := [];
    }

    /** One turn of the worker that finds an entry in the queue. */
    method Take(budget: nat) returns (ghost flushed: bool, ghost ok: bool)
      requires ch != []
      modifies this, store
      ensures flushed == (|old(batch)| + 1 >= batchSize)
      ensures View() == if flushed then Flushed(Taken(old(View())), ok) else Taken(old(View()))
      ensures budget > |old(batch)| + 1 ==> ok
    {
      flushed, ok := false, true;
      batch := batch + [ch[0]];
      ch := ch[1..];
      if |batch| >= batchSize {
        flushed := true;
        ok := Flush(budget);
      }
    }

    /** Drains the closed queue and flushes what remains: nothing is left behind, and unless
        the store fails everything is stored, in the order it was recorded. */
    method Stop(budget: nat)
      modifies this, store
      ensures ch == [] && batch == []
      ensures Drained(old(View()), View())
      ensures budget > |old(batch)| + |old(ch)| ==> lost == old(lost)
    {
      hide Drained, Flushed, Taken;
      DrainsItself(View());
      while ch != []
        invariant Drained(old(View()), View())
        invariant budget > |old(batch)| + |old(ch)| ==> lost == old(lost)
        invariant |batch| + |ch| <= |old(batch)| + |old(ch)|
        decreases |ch|
      {
        ghost var before := View();
        ghost var flushed, ok := Take(budget);
        TakenFields(before);
        FlushedFields(Taken(before), ok);
        DrainsOn(old(View()), before, flushed, ok);
      }
      ghost var before := View();
      ghost var ok := Flush(budget);
      FlushedFields(before, ok);
      FlushDrains(old(View()), before, ok);
    }
  }

  lemma NothingSpent(used: map<Key, nat>, es: seq<Entry>)
    requires es == []
    ensures Credited(used, es) == used
  {
  }
}
