/** Relay requests sharing the breaker of one channel: every interleaving of their checks,
    outcomes and departures. A request gives its probe token back when it returns, whatever
    path it returns by. */
module Probes {
  import opened Wrappers
  import opened Breaker
  import F = Failover

  type Request = nat

  datatype Grant = Grant(token: nat, at: int)

  /** The breaker, the clock, the token each live request holds (0 for none), and the probes
      granted since one was last given back or settled. */
  datatype World = World(circuit: Circuit, now: int, live: map<Request, nat>, unsettled: seq<Grant>)

  datatype Step =
    | Ask(r: Request, t0: int, t1: int, t2: int)
    | Succeed(r: Request)
    | Fail(r: Request, at: int)
    | Leave(r: Request)
    | AdminReset
    | Inspect(at: int)

  predicate Enabled(w: World, s: Step) {
    match s
    case Ask(r, t0, t1, t2) => r !in w.live && w.now <= t0 <= t1 <= t2
    case Succeed(r) => r in w.live
    case Fail(r, at) => r in w.live && w.now <= at
    case Leave(r) => r in w.live
    case AdminReset => true
    case Inspect(at) => w.now <= at
  }

  /** The operation of the breaker that a step performs. */
  function Operation(w: World, s: Step): Op
    requires Enabled(w, s)
  {
    match s
    case Ask(_, t0, t1, t2) => Allow(t0, t1, t2)
    case Succeed(_) => Success
    case Fail(_, at) => Failure(at)
    case Leave(r) => Release(w.live[r])
    case AdminReset => Reset
    case Inspect(at) => Look(at)
  }

  function Next(c: Config, w: World, s: Step): World
    requires Enabled(w, s)
  {
    var op := Operation(w, s);
    var after := Apply(c, w.circuit, op);
    World(
      after,
      Moment(op, w.now),
      match s
      case Ask(r, t0, t1, t2) => w.live[r := Allowing(c, w.circuit, t0, t1, t2).1.token]
      case Leave(r) => w.live - {r}
      case _ => w.live,
      if after.probeToken == 0 then []
      else if after.probeToken == w.circuit.probeToken then w.unsettled
      else w.unsettled + [Grant(after.probeToken, after.probeAt)])
  }

  const START := World(FRESH, 0, map[], [])

  /** The world after a sequence of steps; `None` if some step was not possible. */
  function Reach(c: Config, steps: seq<Step>): Option<World> {
    if steps == [] then Some(START)
    else
      var before, s := Reach(c, steps[..|steps| - 1]), steps[|steps| - 1];
      if before.Some? && Enabled(before.value, s) then Some(Next(c, before.value, s)) else None
  }

  ghost predicate Holds(w: World, r: Request, token: nat) {
    r in w.live && w.live[r] == token
  }

  predicate Spaced(c: Config, grants: seq<Grant>) {
    forall i, j :: 0 <= i < j < |grants| ==> grants[j].at - grants[i].at >= ProbeTimeout(c)
  }

  ghost predicate Inv(c: Config, w: World) {
    var s := w.circuit;
    && (s.phase != HalfOpen ==> s.probeToken == 0)
    && s.probeToken <= s.probeSeq
    && (s.phase == Open ==> s.openedAt <= w.now)
    && (s.probeToken != 0 ==> s.probeAt <= w.now)
    && (s.probeToken != 0 ==> exists r :: Holds(w, r, s.probeToken))
    && (forall r :: r in w.live ==> w.live[r] <= s.probeSeq)
    && (forall q, r :: q in w.live && r in w.live && q != r && w.live[q] != 0 ==> w.live[q] != w.live[r])
    && Spaced(c, w.unsettled)
    && (if s.probeToken == 0 then w.unsettled == []
        else w.unsettled != [] && w.unsettled[|w.unsettled| - 1] == Grant(s.probeToken, s.probeAt))
  }

  lemma AskKeeps(c: Config, w: World, s: Step)
    requires Inv(c, w) && s.Ask? && Enabled(w, s)
    ensures Inv(c, Next(c, w, s))
  {
    var w' := Next(c, w, s);
    var token := w'.circuit.probeToken;
    if token != 0 && token == w.circuit.probeToken {
      var r :| Holds(w, r, token);
      assert Holds(w', r, token);
    } else if token != 0 {
      assert Holds(w', s.r, token);
      var n := |w.unsettled|;
      forall i | 0 <= i < n ensures w'.unsettled[n].at - w'.unsettled[i].at >= ProbeTimeout(c) {
        assert w.unsettled[n - 1].at == w.circuit.probeAt;
      }
    }
  }

  lemma LeaveKeeps(c: Config, w: World, s: Step)
    requires Inv(c, w) && s.Leave? && Enabled(w, s)
    ensures Inv(c, Next(c, w, s))
  {
    var w' := Next(c, w, s);
    var token := w'.circuit.probeToken;
    if token != 0 {
      var r :| Holds(w, r, token);
      assert Holds(w', r, token);
    }
  }

  lemma OthersKeep(c: Config, w: World, s: Step)
    requires Inv(c, w) && !s.Ask? && !s.Leave? && Enabled(w, s)
    ensures Inv(c, Next(c, w, s))
  {
    var w' := Next(c, w, s);
    var token := w'.circuit.probeToken;
    if token != 0 {
      var r :| Holds(w, r, token);
      assert Holds(w', r, token);
    }
  }

  lemma {:induction false} Invariant(c: Config, steps: seq<Step>)
    requires Reach(c, steps).Some?
    ensures Inv(c, Reach(c, steps).value)
  {
    if steps != [] {
      var w, s := Reach(c, steps[..|steps| - 1]).value, steps[|steps| - 1];
      Invariant(c, steps[..|steps| - 1]);
      if s.Ask? { AskKeeps(c, w, s); } else if s.Leave? { LeaveKeeps(c, w, s); } else { OthersKeep(c, w, s); }
    }
  }

  /** In every interleaving an outstanding probe belongs to exactly one live request; when no
      request is live, the breaker waits for nobody. */
  lemma ProbeHasOneHolder(c: Config, steps: seq<Step>)
    requires Reach(c, steps).Some?
    ensures
      var w := Reach(c, steps).value;
      w.circuit.probeToken != 0 ==>
        && w.live != map[]
        && exists r :: Holds(w, r, w.circuit.probeToken) && forall q :: Holds(w, q, w.circuit.probeToken) ==> q == r
  {
    Invariant(c, steps);
  }

  /** Probes that nobody gave back or settled are granted at least the lease apart. */
  lemma UnsettledGrantsAreSpaced(c: Config, steps: seq<Step>)
    requires Reach(c, steps).Some?
    ensures Spaced(c, Reach(c, steps).value.unsettled)
    ensures
      var w := Reach(c, steps).value;
      w.circuit.probeToken != 0 ==>
        w.unsettled != [] && w.unsettled[|w.unsettled| - 1] == Grant(w.circuit.probeToken, w.circuit.probeAt)
  {
    Invariant(c, steps);
  }

  /** A request that returns clears its own probe and no other: a release that comes late
      leaves a newer probe outstanding and with its own holder. */
  lemma LateReleaseIsHarmless(c: Config, steps: seq<Step>, r: Request)
    requires Reach(c, steps).Some? && r in Reach(c, steps).value.live
    ensures
      var w := Reach(c, steps).value;
      var w' := Next(c, w, Leave(r));
      if w.circuit.probeToken == 0 || w.live[r] == w.circuit.probeToken then w'.circuit.probeToken == 0
      else w'.circuit == w.circuit && exists q :: q != r && Holds(w', q, w.circuit.probeToken)
  {
    Invariant(c, steps);
    var w := Reach(c, steps).value;
    if w.circuit.probeToken != 0 && w.live[r] != w.circuit.probeToken {
      var q :| Holds(w, q, w.circuit.probeToken);
      assert Holds(Next(c, w, Leave(r)), q, w.circuit.probeToken);
    }
  }

  function Max(a: int, b: int): int { if a >= b then a else b }

  /** No channel stays blocked: after the longer of the open interval and the lease without a
      step, the next request is let through, whatever the requests before it forgot to do. */
  lemma Recovers(c: Config, steps: seq<Step>, t0: int, t1: int, t2: int)
    requires Reach(c, steps).Some?
    requires Reach(c, steps).value.now + Max(OpenDuration(c), ProbeTimeout(c)) <= t0 <= t1 <= t2
    ensures Allowing(c, Reach(c, steps).value.circuit, t0, t1, t2).1.allowed
  {
    Invariant(c, steps);
  }

  // ---- When a probe is given back ----

  /** What the end of an attempt at the channel tells the breaker: success, failure, or
      nothing at all. */
  function AttemptEnds(c: Config, w: World, r: Request, a: F.Attempt, at: int): World
    requires r in w.live && w.now <= at
  {
    if F.Succeeded(a) then Next(c, w, Succeed(r)) else if F.Charges(a) then Next(c, w, Fail(r, at)) else w
  }

  /** The probe of an attempt stays outstanding when the attempt ends if and only if it
      neither succeeded nor counted against the channel. */
  lemma ProbeOutlivesAttempt(c: Config, steps: seq<Step>, r: Request, a: F.Attempt, at: int)
    requires Reach(c, steps).Some? && Reach(c, steps).value.circuit.probeToken != 0 && Reach(c, steps).value.now <= at
    requires Holds(Reach(c, steps).value, r, Reach(c, steps).value.circuit.probeToken)
    ensures
      var w := Reach(c, steps).value;
      AttemptEnds(c, w, r, a, at).circuit.probeToken == w.circuit.probeToken <==> !F.Succeeded(a) && !F.Charges(a)
  {
    Invariant(c, steps);
  }

  /** These are the attempts with a revoked credential, those given up because the client left
      or seemed to, and those refused with a status that is no fault of the channel. */
  lemma WhoSettlesNothing(a: F.Attempt)
    requires !a.CircuitOpen?
    ensures !F.Succeeded(a) && !F.Charges(a) <==>
              || a.Revoked? || F.ClientIsGone(a) || F.TakenForGone(a)
              || (a.Called? && a.outcome.err.Refused? && !F.ShouldFailover(a.outcome.err.status))
  {
  }

  /** The step takes the probe back: its holder returns, somebody settles the breaker, or
      somebody asks when the lease is over. */
  predicate TakesBack(c: Config, w: World, s: Step)
    requires Enabled(w, s)
  {
    match s
    case Ask(_, _, t1, _) => t1 - w.circuit.probeAt >= ProbeTimeout(c)
    case Leave(r) => w.live[r] == w.circuit.probeToken
    case Inspect(_) => false
    case _ => true
  }

  lemma TakenBackExactly(c: Config, w: World, s: Step)
    requires Inv(c, w) && Enabled(w, s) && w.circuit.probeToken != 0
    ensures Next(c, w, s).circuit.probeToken == w.circuit.probeToken <==> !TakesBack(c, w, s)
    ensures !TakesBack(c, w, s) ==> Next(c, w, s).circuit == w.circuit
    ensures w.circuit.probeSeq <= Next(c, w, s).circuit.probeSeq
    ensures !TakesBack(c, w, s) && s.Ask? ==>
              Next(c, w, s).live[s.r] == 0 && !Allowing(c, w.circuit, s.t0, s.t1, s.t2).1.allowed
  {
  }

  lemma NeverAgain(c: Config, w: World, s: Step, token: nat)
    requires Inv(c, w) && Enabled(w, s) && w.circuit.probeToken != token && 0 < token <= w.circuit.probeSeq
    ensures Next(c, w, s).circuit.probeToken != token && token <= Next(c, w, s).circuit.probeSeq
  {
  }

  /** Step `i` of the run takes the probe back. */
  predicate TakesBackAt(c: Config, steps: seq<Step>, i: nat) {
    && i < |steps| && Reach(c, steps[..i]).Some? && Enabled(Reach(c, steps[..i]).value, steps[i])
    && TakesBack(c, Reach(c, steps[..i]).value, steps[i])
  }

  /** A probe that is outstanding after `n` steps is outstanding after the whole run if and
      only if none of the steps between takes it back; until then every request that asks is
      turned away. */
  lemma {:induction false} OutstandingUntilTakenBack(c: Config, steps: seq<Step>, n: nat)
    requires Reach(c, steps).Some? && n <= |steps| && Reach(c, steps[..n]).Some?
    requires Reach(c, steps[..n]).value.circuit.probeToken != 0
    ensures
      var token := Reach(c, steps[..n]).value.circuit.probeToken;
      && token <= Reach(c, steps).value.circuit.probeSeq
      && (Reach(c, steps).value.circuit.probeToken == token <==> forall i :: n <= i < |steps| ==> !TakesBackAt(c, steps,
                                                                                                               i))
  {
    hide Next, TakesBack, Inv, Enabled;
    assert steps[..|steps|] == steps;
    if n < |steps| {
      var m := |steps| - 1;
      var init, s := steps[..m], steps[m];
      var token := Reach(c, steps[..n]).value.circuit.probeToken;
      assert init[..n] == steps[..n];
      OutstandingUntilTakenBack(c, init, n);
      Invariant(c, init);
      var w := Reach(c, init).value;
      assert forall i :: n <= i < m ==> init[..i] == steps[..i] && init[i] == steps[i];
      assert forall i :: n <= i < m ==> (TakesBackAt(c, init, i) <==> TakesBackAt(c, steps, i));
      if w.circuit.probeToken == token {
        TakenBackExactly(c, w, s);
        TokenGiven(c, init);
        assert TakesBackAt(c, steps, m) <==> TakesBack(c, w, s);
      } else {
        NeverAgain(c, w, s, token);
      }
    } else {
      TokenGiven(c, steps);
    }
  }

  lemma TokenGiven(c: Config, steps: seq<Step>)
    requires Reach(c, steps).Some?
    ensures Reach(c, steps).value.circuit.probeToken <= Reach(c, steps).value.circuit.probeSeq
  {
    Invariant(c, steps);
  }

  /** The channel opens after one failure and is probed after the open interval; the probe is
      refused as a bad request, which says nothing about the channel. While its request is
      busy with the next channel, the healthy channel turns everybody away. */
  lemma RefusedProbeBlocks(later: int)
    requires 30 * SECOND <= later < 150 * SECOND
    ensures
      var c, t := Config(1, 0, 0, 0), 30 * SECOND;
      var run := [Ask(1, 0, 0, 0), Fail(1, 0), Leave(1), Ask(2, t, t, t)];
      && Reach(c, run).Some? && Holds(Reach(c, run).value, 2, 1)
      && AttemptEnds(c, Reach(c, run).value, 2, F.Called(F.Outcome(400, F.Refused(400), false)), t) == Reach(c,
                                                                                                             run).value
      && !Allowing(c, Reach(c, run).value.circuit, later, later, later).1.allowed
  {
    var c, t := Config(1, 0, 0, 0), 30 * SECOND;
    var run := [Ask(1, 0, 0, 0), Fail(1, 0), Leave(1), Ask(2, t, t, t)];
    assert run[..3] == [Ask(1, 0, 0, 0), Fail(1, 0), Leave(1)];
    assert run[..3][..2] == [Ask(1, 0, 0, 0), Fail(1, 0)];
    assert run[..3][..2][..1] == [Ask(1, 0, 0, 0)];
    assert run[..3][..2][..1][..0] == [];
    var asked := Next(c, START, Ask(1, 0, 0, 0));
    assert Reach(c, run[..3][..2][..1]) == Some(asked);
    var failed := Next(c, asked, Fail(1, 0));
    assert failed.circuit == Circuit(Open, [], 0, 0, 0, 0);
    assert Reach(c, run[..3][..2]) == Some(failed);
    var left := Next(c, failed, Leave(1));
    assert left.circuit == failed.circuit && left.live == map[];
    assert Reach(c, run[..3]) == Some(left);
  }
}
