/** The circuit breaker of one channel: a sliding failure window, an open interval, and
    leased half-open probes. */
module Breaker {
  datatype Phase = Closed | Open | HalfOpen

  /** Tuning values as configured; a value that is not positive means the default. Times
      are in nanoseconds. */
  datatype Config = Config(threshold: int, window: int, openFor: int, lease: int)

  const SECOND := 1_000_000_000

  function FailWindow(c: Config): int { if c.window <= 0 then 30 * SECOND else c.window }

  function OpenDuration(c: Config): int { if c.openFor <= 0 then 30 * SECOND else c.openFor }

  function ProbeTimeout(c: Config): int { if c.lease <= 0 then 120 * SECOND else c.lease }

  /** The state of the breaker. Token 0 means that no probe is outstanding. */
  datatype Circuit = Circuit(
    phase: Phase, fails: seq<int>, openedAt: int,
    probeSeq: nat, probeToken: nat, probeAt: int)

  const FRESH := Circuit(Closed, [], 0, 0, 0, 0)

  /** What is not configured takes half a minute, and two minutes for the lease. */
  lemma Durations(c: Config)
    ensures FailWindow(c) > 0 && OpenDuration(c) > 0 && ProbeTimeout(c) > 0
    ensures if c.window > 0 then FailWindow(c) == c.window else FailWindow(c) == 30_000_000_000
    ensures if c.openFor > 0 then OpenDuration(c) == c.openFor else OpenDuration(c) == 30_000_000_000
    ensures if c.lease > 0 then ProbeTimeout(c) == c.lease else ProbeTimeout(c) == 120_000_000_000
  {
  }

  // ---- The operations on values ----

  function ClearProbe(s: Circuit): Circuit {
    s.(probeToken := 0, probeAt := 0)
  }

  function Trip(s: Circuit, now: int): Circuit {
    ClearProbe(s.(phase := Open, openedAt := now, fails := []))
  }

  /** Lazily moves on from an open interval that is over. */
  function Advance(c: Config, s: Circuit, now: int): Circuit {
    if s.phase == Open && now - s.openedAt >= OpenDuration(c) then ClearProbe(s.(phase := HalfOpen)) else s
  }

  /** The outstanding probe, if any, may still answer. */
  predicate Leased(c: Config, s: Circuit, now: int) {
    s.probeToken != 0 && now - s.probeAt < ProbeTimeout(c)
  }

  datatype Verdict = Verdict(allowed: bool, token: nat)

  /** `Allow` reads the clock up to three times. */
  function Allowing(c: Config, s: Circuit, t0: int, t1: int, t2: int): (Circuit, Verdict) {
    var a := Advance(c, s, t0);
    if a.phase == Closed then (a, Verdict(true, 0))
    else if a.phase == Open || Leased(c, a, t1) then (a, Verdict(false, 0))
    else (a.(probeSeq := a.probeSeq + 1, probeToken := a.probeSeq + 1, probeAt := t2), Verdict(true, a.probeSeq + 1))
  }

  function Releasing(s: Circuit, token: nat): Circuit {
    if token != 0 && s.probeToken == token then ClearProbe(s) else s
  }

  /** Success, and the administrator's reset. */
  function Healed(s: Circuit): Circuit {
    ClearProbe(s.(fails := [], phase := Closed))
  }

  /** Drops the leading entries before `cut`. */
  function Trimmed(fails: seq<int>, cut: int): seq<int> {
    if fails != [] && fails[0] < cut then Trimmed(fails[1..], cut) else fails
  }

  function Failing(c: Config, s: Circuit, now: int): Circuit {
    if s.phase == HalfOpen then Trip(s, now)
    else if s.phase == Open then s
    else
      var fails := Trimmed(s.fails + [now], now - FailWindow(c));
      if |fails| >= c.threshold then Trip(s, now) else s.(fails := fails)
  }

  /** Who is let through, and with a probe of his own: everybody while closed, nobody before the
      open interval is over, and then one at a time as long as the lease lasts. */
  lemma AllowsExactly(c: Config, s: Circuit, t0: int, t1: int, t2: int)
    ensures
      var v := Allowing(c, s, t0, t1, t2).1;
      && (v.allowed <==>
            || s.phase == Closed
            || (s.phase == Open && t0 - s.openedAt >= OpenDuration(c))
            || (s.phase == HalfOpen && (s.probeToken == 0 || t1 - s.probeAt >= ProbeTimeout(c))))
      && (v.token != 0 <==> v.allowed && s.phase != Closed)
      && (v.token != 0 ==> v.token == s.probeSeq + 1)
  {
  }

  class State {
    const config: Config
    var phase: Phase
    var fails: seq<int>
    var openedAt: int
    var probeSeq: nat
    var probeToken: nat
    var probeAt: int

    function View(): Circuit
      reads this
    {
      Circuit(phase, fails, openedAt, probeSeq, probeToken, probeAt)
    }

    constructor (config: Config)
      ensures this.config == config && View() == FRESH
    {
      this.config := config;
      phase, fails, openedAt := Closed, [], 0;
      probeSeq, probeToken, probeAt := 0, 0, 0;
    }

    method TransitionLocked(now: int) returns (p: Phase)
      modifies this
      ensures View() == Advance(config, old(View()), now) && p == phase
    {
      if phase == Open && now - openedAt >= OpenDuration(config) {
        phase := HalfOpen;
        ClearProbeLocked();
      }
      p := phase;
    }

    method Allow(t0: int, t1: int, t2: int) returns (allowed: bool, token: nat)
      modifies this
      ensures (View(), Verdict(allowed, token)) == Allowing(config, old(View()), t0, t1, t2)
    {
      var p := TransitionLocked(t0);
      match p {
        case Closed =>
          return true, 0;
        case HalfOpen =>
          if probeToken != 0 && t1 - probeAt < ProbeTimeout(config) {
            return false, 0;
          }
          probeSeq := probeSeq + 1;
          probeToken := probeSeq;
          probeAt := t2;
          return true, probeToken;
        case Open =>
          return false, 0;
      }
    }

    method ReleaseOne(token: nat)
      modifies this
      ensures View() == Releasing(old(View()), token)
    {
      if token == 0 {
        return;
      }
      if probeToken == token {
        ClearProbeLocked();
      }
    }

    method OnSuccess()
      modifies this
      ensures View() == Healed(old(View()))
    {
      fails := [];
      phase := Closed;
      ClearProbeLocked();
    }

    method OnFailure(now: int)
      modifies this
      ensures View() == Failing(config, old(View()), now)
    {
      if phase == HalfOpen {
        TripLocked(now);
        return;
      }
      if phase != Closed {
        return;
      }
      fails := fails + [now];
      TrimLocked(now);
      if |fails| >= config.threshold {
        TripLocked(now);
      }
    }

    method Reset()
      modifies this
      ensures View() == Healed(old(View()))
    {
      fails := [];
      phase := Closed;
      ClearProbeLocked();
    }

    /** Compacts the failure list to the window. */
    method TrimLocked(now: int)
      modifies this`fails
      ensures fails == Trimmed(old(fails), now - FailWindow(config))
    {
      var cut := now - FailWindow(config);
      var i := 0;
      while i < |fails| && fails[i] < cut
        invariant i <= |fails|
        invariant Trimmed(fails[i..], cut) == Trimmed(fails, cut)
      {
        i := i + 1;
      }
      if i > 0 {
        fails := fails[i..];
      }
    }

    method TripLocked(now: int)
      modifies this
      ensures View() == Trip(old(View()), now)
    {
      phase := Open;
      openedAt := now;
      fails := [];
      ClearProbeLocked();
    }

    method ClearProbeLocked()
      modifies this`probeToken, this`probeAt
      ensures probeToken == 0 && probeAt == 0
    {
      probeToken := 0;
      probeAt := 0;
    }

    method Snapshot(now: int) returns (p: Phase, failures: nat)
      modifies this
      ensures View() == Advance(config, old(View()), now) && p == phase && failures == |fails|
    {
      p := TransitionLocked(now);
      failures := |fails|;
    }
  }

  // ---- Runs: what the sliding window means ----

  datatype Op =
    | Allow(t0: int, t1: int, t2: int)
    | Success
    | Failure(now: int)
    | Release(token: nat)
    | Reset
    | Look(now: int)

  function Apply(c: Config, s: Circuit, op: Op): Circuit {
    match op
    case Allow(t0, t1, t2) => Allowing(c, s, t0, t1, t2).0
    case Success => Healed(s)
    case Failure(now) => Failing(c, s, now)
    case Release(token) => Releasing(s, token)
    case Reset => Healed(s)
    case Look(now) => Advance(c, s, now)
  }

  function Run(c: Config, ops: seq<Op>): Circuit {
    if ops == [] then FRESH else Apply(c, Run(c, ops[..|ops| - 1]), ops[|ops| - 1])
  }

  /** The last moment an operation speaks of. */
  function Moment(op: Op, before: int): int {
    match op
    case Allow(_, _, t2) => t2
    case Failure(now) => now
    case Look(now) => now
    case _ => before
  }

  /** The clock reading after a run that started at 0. */
  function Clock(ops: seq<Op>): int {
    if ops == [] then 0 else Moment(ops[|ops| - 1], Clock(ops[..|ops| - 1]))
  }

  predicate Later(op: Op, now: int) {
    match op
    case Allow(t0, t1, t2) => now <= t0 <= t1 <= t2
    case Failure(t) => now <= t
    case Look(t) => now <= t
    case _ => true
  }

  /** Every clock reading is at least the one before. */
  predicate Monotone(ops: seq<Op>) {
    ops == [] || (Monotone(ops[..|ops| - 1]) && Later(ops[|ops| - 1], Clock(ops[..|ops| - 1])))
  }

  /** The reference: a breaker that keeps every failure since it was last cleared. */
  datatype Reference = Reference(phase: Phase, openedAt: int, history: seq<int>)

  /** The entries not before `cut`. */
  function Since(history: seq<int>, cut: int): seq<int> {
    if history == [] then []
    else Since(history[..|history| - 1], cut) + if history[|history| - 1] >= cut then [history[|history| - 1]] else []
  }

  /** At least the threshold number of failures lies within the window that ends now. */
  predicate TooMany(c: Config, history: seq<int>, now: int) {
    |Since(history, now - FailWindow(c))| >= c.threshold
  }

  function Wakened(c: Config, r: Reference, now: int): Reference {
    if r.phase == Open && now - r.openedAt >= OpenDuration(c) then r.(phase := HalfOpen) else r
  }

  function ReferenceStep(c: Config, r: Reference, op: Op): Reference {
    match op
    case Allow(t0, _, _) => Wakened(c, r, t0)
    case Look(now) => Wakened(c, r, now)
    case Release(_) => r
    case Success => Reference(Closed, r.openedAt, [])
    case Reset => Reference(Closed, r.openedAt, [])
    case Failure(now) =>
      if r.phase == HalfOpen then Reference(Open, now, [])
      else if r.phase == Open then r
      else if TooMany(c, r.history + [now], now) then Reference(Open, now, [])
      else r.(history := r.history + [now])
  }

  function ReferenceRun(c: Config, ops: seq<Op>): Reference {
    if ops == [] then Reference(Closed, 0, []) else ReferenceStep(c, ReferenceRun(c, ops[..|ops| - 1]), ops[|ops| - 1])
  }

  predicate Ascending(s: seq<int>) {
    forall i, j :: 0 <= i < j < |s| ==> s[i] <= s[j]
  }

  predicate UpTo(s: seq<int>, now: int) {
    forall i :: 0 <= i < |s| ==> s[i] <= now
  }

  /** On an ascending list, dropping the head of old entries is dropping all old entries. */
  lemma {:induction false} TrimmedIsSince(s: seq<int>, cut: int)
    requires Ascending(s)
    ensures Trimmed(s, cut) == Since(s, cut)
  {
    if s != [] {
      var init, last := s[..|s| - 1], s[|s| - 1];
      TrimmedIsSince(init, cut);
      TrimmedSnoc(init, last, cut);
      assert init + [last] == s;
      if last < cut { AllOld(init, cut); }
    }
  }

  lemma {:induction false} TrimmedSnoc(s: seq<int>, x: int, cut: int)
    ensures Trimmed(s + [x], cut) == if Trimmed(s, cut) == [] && x < cut then [] else Trimmed(s, cut) + [x]
  {
    if s == [] {
      assert s + [x] == [x];
    } else {
      assert (s + [x])[1..] == s[1..] + [x];
      if s[0] < cut { TrimmedSnoc(s[1..], x, cut); }
    }
  }

  lemma {:induction false} AllOld(s: seq<int>, cut: int)
    requires UpTo(s, cut - 1)
    ensures Trimmed(s, cut) == []
  {
    if s != [] {
      AllOld(s[1..], cut);
    }
  }

  lemma {:induction false} SinceProperties(s: seq<int>, cut: int, now: int)
    requires Ascending(s) && UpTo(s, now)
    ensures Ascending(Since(s, cut)) && UpTo(Since(s, cut), now)
  {
    if s != [] {
      var init := s[..|s| - 1];
      SinceProperties(init, cut, s[|s| - 1]);
    }
  }

  /** Narrowing the window in two steps is narrowing it at once. */
  lemma {:induction false} SinceTwice(s: seq<int>, early: int, late: int)
    requires early <= late
    ensures Since(Since(s, early), late) == Since(s, late)
  {
    if s != [] {
      SinceTwice(s[..|s| - 1], early, late);
      var rest, x := Since(s[..|s| - 1], early), s[|s| - 1];
      SinceSnoc(rest, x, late);
      assert rest + [] == rest;
    }
  }

  lemma SinceSnoc(s: seq<int>, x: int, cut: int)
    ensures Since(s + [x], cut) == Since(s, cut) + if x >= cut then [x] else []
  {
    assert (s + [x])[..|s|] == s;
  }

  /** The trimmed list after one more failure holds the whole history filtered to the window. */
  lemma WindowSlides(c: Config, history: seq<int>, fails: seq<int>, cut: int, now: int)
    requires Ascending(history) && fails == Since(history, cut)
    requires cut <= now - FailWindow(c)
    requires UpTo(history, now)
    ensures Trimmed(fails + [now], now - FailWindow(c)) == Since(history + [now], now - FailWindow(c))
  {
    hide Trimmed, Since, FailWindow;
    var cut' := now - FailWindow(c);
    SinceProperties(history, cut, now);
    TrimmedIsSince(fails + [now], cut');
    SinceSnoc(fails, now, cut');
    SinceSnoc(history, now, cut');
    SinceTwice(history, cut, cut');
  }

  /** The breaker against the reference: same phase, and a failure list that is the full
      history filtered to some window no longer than the one of any later failure. */
  ghost predicate Refines(c: Config, s: Circuit, r: Reference, cut: int, now: int) {
    && s.phase == r.phase && s.openedAt == r.openedAt
    && Ascending(r.history) && UpTo(r.history, now)
    && cut <= now - FailWindow(c)
    && s.fails == Since(r.history, cut)
    && (s.phase != Closed ==> s.fails == [] && r.history == [])
  }

  lemma RefinesStep(c: Config, s: Circuit, r: Reference, cut: int, now: int, op: Op)
    requires Refines(c, s, r, cut, now) && Later(op, now)
    ensures Refines(c, Apply(c, s, op), ReferenceStep(c, r, op),
                    if op.Failure? then op.now - FailWindow(c) else cut, Moment(op, now))
  {
    if op.Failure? {
      RefinesFailure(c, s, r, cut, now, op.now);
    }
  }

  lemma RefinesFailure(c: Config, s: Circuit, r: Reference, cut: int, now: int, at: int)
    requires Refines(c, s, r, cut, now) && now <= at
    ensures Refines(c, Failing(c, s, at), ReferenceStep(c, r, Failure(at)), at - FailWindow(c), at)
  {
    if s.phase == Closed {
      WindowSlides(c, r.history, s.fails, cut, at);
      assert Ascending(r.history + [at]) && UpTo(r.history + [at], at);
    } else {
      assert Since([], at - FailWindow(c)) == [];
    }
  }

  /** The start of the window at the last failure of a run. */
  function LastCut(c: Config, ops: seq<Op>): int {
    if ops == [] then -FailWindow(c)
    else if ops[|ops| - 1].Failure? then ops[|ops| - 1].now - FailWindow(c)
    else LastCut(c, ops[..|ops| - 1])
  }

  /** For every run with a monotone clock: the breaker's phase is that of the reference, and
      its failure list is the reference's history filtered to the window of the last failure. */
  lemma {:induction false} WindowIsExact(c: Config, ops: seq<Op>)
    requires Monotone(ops)
    ensures Refines(c, Run(c, ops), ReferenceRun(c, ops), LastCut(c, ops), Clock(ops))
  {
    if ops != [] {
      var ops0, op := ops[..|ops| - 1], ops[|ops| - 1];
      WindowIsExact(c, ops0);
      var s, r := Run(c, ops0), ReferenceRun(c, ops0);
      RefinesStep(c, s, r, LastCut(c, ops0), Clock(ops0), op);
    }
  }

  lemma Until(s: seq<int>, early: int, late: int)
    requires UpTo(s, early) && early <= late
    ensures UpTo(s, late)
  {
  }

  lemma FailsAt(c: Config, s: Circuit, history: seq<int>, now: int)
    requires s.phase == Closed
    requires Trimmed(s.fails + [now], now - FailWindow(c)) == Since(history + [now], now - FailWindow(c))
    ensures Failing(c, s, now).phase == if TooMany(c, history + [now], now) then Open else Closed
  {
    hide Trimmed, Since, FailWindow;
  }

  /** What the reference knows about a breaker that is closed. */
  lemma ClosedWindow(c: Config, ops: seq<Op>, now: int)
    requires Monotone(ops) && Clock(ops) <= now
    ensures
      var s, history := Run(c, ops), ReferenceRun(c, ops).history;
      Trimmed(s.fails + [now], now - FailWindow(c)) == Since(history + [now], now - FailWindow(c))
  {
    hide Run, ReferenceRun, Trimmed, Since, FailWindow, Ascending, UpTo, LastCut;
    var s, r := Run(c, ops), ReferenceRun(c, ops);
    WindowIsExact(c, ops);
    assert UpTo(r.history, now) by { Until(r.history, Clock(ops), now); }
    WindowSlides(c, r.history, s.fails, LastCut(c, ops), now);
  }

  lemma RunSnoc(c: Config, ops: seq<Op>, op: Op)
    ensures Run(c, ops + [op]) == Apply(c, Run(c, ops), op)
  {
    assert (ops + [op])[..|ops|] == ops;
  }

  /** The closed breaker trips at a failure exactly when the window that ends there holds the
      threshold number of failures since it was last cleared. */
  lemma TripsExactly(c: Config, ops: seq<Op>, now: int)
    requires Monotone(ops) && Clock(ops) <= now && Run(c, ops).phase == Closed
    ensures Run(c, ops + [Failure(now)]).phase ==
      if TooMany(c, ReferenceRun(c, ops).history + [now], now) then Open else Closed
  {
    hide Run, ReferenceRun, Trimmed, Since, FailWindow, TooMany, Failing, Monotone, Clock;
    RunSnoc(c, ops, Failure(now));
    ClosedWindow(c, ops, now);
    FailsAt(c, Run(c, ops), ReferenceRun(c, ops).history, now);
  }
}
