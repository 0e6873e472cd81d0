/** The relay of one request: the candidates are tried in order until one answers the
    client, and the breaker of each channel learns what it should. */
module Failover {
  import opened Route

  // ---- One upstream call ----

  /** Why a call failed: the client stopped reading; the request was cancelled; the upstream
      said no; or anything else, with its error text. */
  datatype CallError = NoError | ClientGone | Cancelled | Refused(status: int) | Broken(text: string)

  /** The status a call returns, its error, and whether it has written to the client. */
  datatype Outcome = Outcome(status: int, err: CallError, wrote: bool)

  const CANCELLED := "context canceled"

  /** The error text contains the words of a cancelled request, whoever wrote them. */
  predicate Mentions(text: string) {
    exists i :: 0 <= i <= |text| && CANCELLED <= text[i..]
  }

  /** What can happen on the way to an upstream and back: no response; a response that says
      no; an event stream that fails before it says anything; a stream that reaches its end,
      breaks off, or loses the client; a whole answer; a body that cannot be used. A failure
      may find the request cancelled; its text is the upstream's own message in many cases. */
  datatype Exchange =
    | NoResponse(cancelled: bool, text: string)
    | Refusal(status: int, cancelled: bool)
    | FailedEarly(status: int, cancelled: bool, text: string)
    | Streamed(status: int)
    | StreamCut(status: int, cancelled: bool, text: string)
    | ClientLeft(status: int)
    | Answered(status: int)
    | Unusable(status: int, cancelled: bool, text: string)

  predicate Possible(x: Exchange, stream: bool) {
    match x
    case NoResponse(_, _) => true
    case Refusal(status, _) => status >= 400
    case FailedEarly(status, _, _) => status == 502 || status == 503
    case Streamed(status) => stream && 0 < status < 400
    case StreamCut(status, _, _) => stream && 0 < status < 400
    case ClientLeft(status) => stream && 0 < status < 400
    case Answered(status) => !stream && 0 < status < 400
    case Unusable(status, _, _) => !stream && 0 <= status < 400
  }

  function OutcomeOf(x: Exchange): Outcome {
    match x
    case NoResponse(cancelled, text) => Outcome(0, if cancelled then Cancelled else Broken(text), false)
    case Refusal(status, cancelled) => Outcome(status, if cancelled then Cancelled else Refused(status), false)
    case FailedEarly(status, cancelled, text) => Outcome(status, if cancelled then Cancelled else Broken(text), false)
    case Streamed(status) => Outcome(status, NoError, true)
    case StreamCut(status, cancelled, text) => Outcome(status, if cancelled then Cancelled else Broken(text), true)
    case ClientLeft(status) => Outcome(status, ClientGone, true)
    case Answered(status) => Outcome(status, NoError, true)
    case Unusable(status, cancelled, text) => Outcome(status, if cancelled then Cancelled else Broken(text), false)
  }

  function ShouldFailover(status: int): bool {
    status == 429 || status >= 500
  }

  function ChannelFailure(err: CallError, status: int): bool {
    match err
    case NoError => ShouldFailover(status)
    case Refused(s) => ShouldFailover(s)
    case _ => true
  }

  // ---- One candidate ----

  /** What becomes of a candidate: its breaker is open, it cannot be called, its credential
      is revoked, or it is called. */
  datatype Attempt = CircuitOpen | Unready | Revoked | Called(outcome: Outcome)

  predicate ClientIsGone(a: Attempt) {
    a.Called? && (a.outcome.err == ClientGone || a.outcome.err == Cancelled)
  }

  /** The error text mentions a cancellation, so the relay takes the client for gone, though
      nobody cancelled the request. */
  predicate TakenForGone(a: Attempt) {
    a.Called? && a.outcome.err.Broken? && Mentions(a.outcome.err.text)
  }

  predicate Failed(a: Attempt) {
    a.Called? && !ClientIsGone(a) && !TakenForGone(a) && (a.outcome.err != NoError || ShouldFailover(a.outcome.status))
  }

  predicate Succeeded(a: Attempt) {
    a.Called? && a.outcome.err == NoError && !ShouldFailover(a.outcome.status)
  }

  /** No further candidate is tried after this one. */
  predicate Ends(a: Attempt, stream: bool) {
    || ClientIsGone(a)
    || TakenForGone(a)
    || Succeeded(a)
    || (Failed(a) && stream &&
        if a.outcome.err == NoError then a.outcome.status > 0 else 200 <= a.outcome.status < 300)
  }

  predicate Wrote(a: Attempt) {
    a.Called? && a.outcome.wrote
  }

  /** The attempt counts as a failure of the channel. */
  predicate Charges(a: Attempt) {
    a.Unready? || (Failed(a) && ChannelFailure(a.outcome.err, a.outcome.status))
  }

  /** What counts as a failure of the channel: a channel that cannot be called, a status 429
      or from 500 on, or any error that is no refusal and no sign of the client leaving. */
  lemma ChargesExactly(a: Attempt)
    ensures Charges(a) <==>
              a.Unready? || (a.Called? && match a.outcome.err
                case NoError => a.outcome.status == 429 || a.outcome.status >= 500
                case Refused(status) => status == 429 || status >= 500
                case Broken(text) => !Mentions(text)
                case _ => false)
  {
  }

  /** What ends the request: success, the client leaving or seeming to, and on a stream a
      failure after a status that may have been sent. */
  lemma EndsExactly(a: Attempt, stream: bool)
    ensures Ends(a, stream) <==>
              a.Called? && match a.outcome.err
              case NoError =>
                (a.outcome.status < 500 && a.outcome.status != 429) || (stream && a.outcome.status > 0)
              case Refused(_) => stream && 200 <= a.outcome.status < 300
              case Broken(text) => Mentions(text) || (stream && 200 <= a.outcome.status < 300)
              case _ => true
  {
  }

  // ---- The request ----

  datatype Response = Gateway(status: int) | Upstream(channel: int, status: int)

  datatype BreakerOp = OnFailure(channel: int) | OnSuccess(channel: int)

  datatype Try = Try(candidate: Candidate, attempt: Attempt)

  /** The responses the tried candidates wrote themselves. */
  function Written(tries: seq<Try>): seq<Response> {
    if tries == [] then []
    else
      var t := tries[|tries| - 1];
      Written(tries[..|tries| - 1])
      + if Wrote(t.attempt) then [Upstream(t.candidate.provider.id, t.attempt.outcome.status)] else []
  }

  /** The status of the last failed call, 503 if there is none. */
  function LastStatus(tries: seq<Try>): int {
    if tries == [] then 0
    else
      var t := tries[|tries| - 1];
      if Failed(t.attempt) then t.attempt.outcome.status else LastStatus(tries[..|tries| - 1])
  }

  function FinalStatus(tries: seq<Try>): int {
    if LastStatus(tries) == 0 then 503 else LastStatus(tries)
  }

  /** Every try but the last leads on to the next. */
  predicate InTurn(tries: seq<Try>, stream: bool) {
    forall i :: 0 <= i < |tries| - 1 ==> !Ends(tries[i].attempt, stream)
  }

  predicate Ended(tries: seq<Try>, stream: bool) {
    tries != [] && Ends(tries[|tries| - 1].attempt, stream)
  }

  function Candidates(tries: seq<Try>): (r: seq<Candidate>)
    ensures |r| == |tries| && forall i :: 0 <= i < |r| ==> r[i] == tries[i].candidate
  {
    seq(|tries|, i requires 0 <= i < |tries| => tries[i].candidate)
  }

  /** The breaker hears of every channel failure of a watched channel, once, and of nothing
      else but a success, which is the last thing it hears. */
  ghost predicate Reported(ops: seq<BreakerOp>, tries: seq<Try>, watched: int -> bool) {
    && (forall id :: OnFailure(id) in ops <==>
          watched(id) && exists t <- tries :: t.candidate.provider.id == id && Charges(t.attempt))
    && (forall id :: OnSuccess(id) in ops <==>
          watched(id) && exists t <- tries :: t.candidate.provider.id == id && Succeeded(t.attempt))
    && (forall i, j :: 0 <= i < j < |ops| ==> ops[i] != ops[j])
  }

  lemma WrittenSnoc(tries: seq<Try>, t: Try)
    ensures Written(tries + [t]) ==
      Written(tries) + if Wrote(t.attempt) then [Upstream(t.candidate.provider.id, t.attempt.outcome.status)] else []
    ensures LastStatus(tries + [t]) == if Failed(t.attempt) then t.attempt.outcome.status else LastStatus(tries)
  {
    assert (tries + [t])[..|tries|] == tries;
  }

  lemma NothingTried(stream: bool, watched: int -> bool)
    ensures Written([]) == [] && LastStatus([]) == 0 && Reported([], [], watched)
    ensures InTurn([], stream) && !Ended([], stream)
  {
  }

  /** What the breaker hears after one more try. */
  function Told(ops: seq<BreakerOp>, t: Try, watched: int -> bool): seq<BreakerOp> {
    var id := t.candidate.provider.id;
    if Charges(t.attempt) && watched(id) && OnFailure(id) !in ops then ops + [OnFailure(id)]
    else if Succeeded(t.attempt) && watched(id) then ops + [OnSuccess(id)]
    else ops
  }

  lemma ReportedSnoc(ops: seq<BreakerOp>, tries: seq<Try>, t: Try, watched: int -> bool)
    requires Reported(ops, tries, watched) && forall u <- tries :: !Succeeded(u.attempt)
    ensures Reported(Told(ops, t, watched), tries + [t], watched)
  {
    var all, told, id := tries + [t], Told(ops, t, watched), t.candidate.provider.id;
    assert forall u :: u in all <==> u in tries || u == t;
    assert OnSuccess(id) !in ops;
    assert forall op :: op in told <==>
      || op in ops
      || (op == OnFailure(id) && Charges(t.attempt) && watched(id))
      || (op == OnSuccess(id) && Succeeded(t.attempt) && watched(id));
  }

  lemma StillGoing(tries: seq<Try>, t: Try, stream: bool)
    requires forall u <- tries :: !Ends(u.attempt, stream)
    ensures InTurn(tries + [t], stream) && Ended(tries + [t], stream) == Ends(t.attempt, stream)
    ensures !Ends(t.attempt, stream) ==> forall u <- tries + [t] :: !Ends(u.attempt, stream)
    ensures Candidates(tries + [t]) == Candidates(tries) + [t.candidate]
  {
    forall i | 0 <= i < |tries| ensures !Ends((tries + [t])[i].attempt, stream) {
      assert tries[i] in tries;
    }
  }

  /** The first tries have been made and none of them ended the request. */
  ghost predicate Going(cands: seq<Candidate>, attempt: nat -> Attempt, watched: int -> bool, stream: bool,
                        tries: seq<Try>, ops: seq<BreakerOp>)
  {
    && |tries| <= |cands| && Candidates(tries) == cands[..|tries|]
    && (forall i :: 0 <= i < |tries| ==> tries[i].attempt == attempt(i))
    && (forall t <- tries :: !Ends(t.attempt, stream))
    && InTurn(tries, stream) && !Ended(tries, stream)
    && Reported(ops, tries, watched)
  }

  /** The tries of a request that is over, or of the first candidates. */
  ghost predicate Made(cands: seq<Candidate>, attempt: nat -> Attempt, watched: int -> bool, stream: bool,
                       tries: seq<Try>, ops: seq<BreakerOp>)
  {
    && Candidates(tries) <= cands
    && (forall i :: 0 <= i < |tries| ==> tries[i].attempt == attempt(i))
    && InTurn(tries, stream)
    && Reported(ops, tries, watched)
  }

  lemma StartGoing(cands: seq<Candidate>, attempt: nat -> Attempt, watched: int -> bool, stream: bool)
    ensures Going(cands, attempt, watched, stream, [], [])
    ensures Written([]) == [] && LastStatus([]) == 0
  {
    NothingTried(stream, watched);
  }

  lemma GoOn(cands: seq<Candidate>, attempt: nat -> Attempt, watched: int -> bool, stream: bool,
             tries: seq<Try>, ops: seq<BreakerOp>, t: Try)
    requires Going(cands, attempt, watched, stream, tries, ops)
    requires |tries| < |cands| && t == Try(cands[|tries|], attempt(|tries|))
    ensures Made(cands, attempt, watched, stream, tries + [t], Told(ops, t, watched))
    ensures Ended(tries + [t], stream) == Ends(t.attempt, stream)
    ensures !Ends(t.attempt, stream) ==> Going(cands, attempt, watched, stream, tries + [t], Told(ops, t, watched))
  {
    hide Reported, InTurn, Ended, Ends, Told;
    forall u | u in tries ensures !Succeeded(u.attempt) {
      SuccessEnds(u.attempt, stream);
    }
    ReportedSnoc(ops, tries, t, watched);
    StillGoing(tries, t, stream);
    assert cands[..|tries| + 1] == cands[..|tries|] + [t.candidate];
  }

  lemma MadeMeans(cands: seq<Candidate>, attempt: nat -> Attempt, watched: int -> bool, stream: bool,
                  tries: seq<Try>, ops: seq<BreakerOp>)
    requires Made(cands, attempt, watched, stream, tries, ops)
    ensures Candidates(tries) <= cands && forall i :: 0 <= i < |tries| ==> tries[i].attempt == attempt(i)
    ensures InTurn(tries, stream) && Reported(ops, tries, watched)
  {
  }

  lemma GoingMeans(cands: seq<Candidate>, attempt: nat -> Attempt, watched: int -> bool, stream: bool,
                   tries: seq<Try>, ops: seq<BreakerOp>)
    requires Going(cands, attempt, watched, stream, tries, ops)
    ensures Candidates(tries) <= cands && forall i :: 0 <= i < |tries| ==> tries[i].attempt == attempt(i)
    ensures InTurn(tries, stream) && !Ended(tries, stream) && Reported(ops, tries, watched)
  {
  }

  lemma SuccessEnds(a: Attempt, stream: bool)
    ensures Succeeded(a) ==> Ends(a, stream)
  {
  }

  /** Charges a watched channel, once. */
  method BreakerFail(id: int, watched: int -> bool, failed: set<int>, ops: seq<BreakerOp>)
    returns (failed': set<int>, ops': seq<BreakerOp>)
    requires forall q :: q in failed <==> OnFailure(q) in ops
    ensures forall q :: q in failed' <==> OnFailure(q) in ops'
    ensures ops' == if watched(id) && OnFailure(id) !in ops then ops + [OnFailure(id)] else ops
  {
    failed', ops' := failed, ops;
    if !watched(id) {
      return;
    }
    if id in failed {
      return;
    }
    failed', ops' := failed + {id}, ops + [OnFailure(id)];
  }

  /** Tries the candidates in order. `attempt` says what becomes of each try, `watched`
      which channels have their breaker switched on. */
  method TryInTurn(cands: seq<Candidate>, attempt: nat -> Attempt, watched: int -> bool, stream: bool)
    returns (responses: seq<Response>, ops: seq<BreakerOp>, tries: seq<Try>)
    ensures Candidates(tries) <= cands && forall i :: 0 <= i < |tries| ==> tries[i].attempt == attempt(i)
    ensures InTurn(tries, stream) && (Ended(tries, stream) || |tries| == |cands|)
    ensures responses == Written(tries) + if Ended(tries, stream) then [] else [Gateway(FinalStatus(tries))]
    ensures Reported(ops, tries, watched)
  {
    hide Written, LastStatus, Reported, InTurn, Ended, Going, Made, Mentions, ShouldFailover;
    var lastStatus := 0;
    var failedChannels: set<int> := {};
    responses, ops, tries := [], [], [];
    StartGoing(cands, attempt, watched, stream);
    for i := 0 to |cands|
      invariant |tries| == i && Going(cands, attempt, watched, stream, tries, ops)
      invariant responses == Written(tries) && lastStatus == LastStatus(tries)
      invariant forall id :: id in failedChannels <==> OnFailure(id) in ops
    {
      var cand := cands[i];
      var id, a := cand.provider.id, attempt(i);
      var t := Try(cand, a);
      WrittenSnoc(tries, t);
      GoOn(cands, attempt, watched, stream, tries, ops, t);
      MadeMeans(cands, attempt, watched, stream, tries + [t], Told(ops, t, watched));
      tries := tries + [t];
      if a.Unready? {
        failedChannels, ops := BreakerFail(id, watched, failedChannels, ops);
      }
      if !a.Called? {
        continue;
      }
      var o := a.outcome;
      if o.wrote {
        responses := responses + [Upstream(id, o.status)];
      }
      if o.err != NoError && o.err != ClientGone {
        if o.err == Cancelled || (o.err.Broken? && Mentions(o.err.text)) {
          return;
        }
        if ChannelFailure(o.err, o.status) {
          failedChannels, ops := BreakerFail(id, watched, failedChannels, ops);
        }
        lastStatus := o.status;
        if stream && 200 <= o.status < 300 {
          return;
        }
        continue;
      }
      if o.err == ClientGone {
        return;
      }
      if ShouldFailover(o.status) {
        failedChannels, ops := BreakerFail(id, watched, failedChannels, ops);
        lastStatus := o.status;
        if stream && o.status > 0 {
          return;
        }
        continue;
      }
      if watched(id) {
        ops := ops + [OnSuccess(id)];
      }
      return;
    }
    GoingMeans(cands, attempt, watched, stream, tries, ops);
    responses := responses + [Gateway(if lastStatus == 0 then 503 else lastStatus)];
  }

  // ---- Exactly one answer ----

  /** The attempt has written to the client and yet leads on to the next candidate. */
  predicate WroteAndWentOn(a: Attempt, stream: bool) {
    Wrote(a) && !Ends(a, stream)
  }

  function Doubled(tries: seq<Try>, stream: bool): nat {
    if tries == [] then 0
    else Doubled(tries[..|tries| - 1], stream) + if WroteAndWentOn(tries[|tries| - 1].attempt, stream) then 1 else 0
  }

  /** Every call is one the relay can make. */
  ghost predicate Real(tries: seq<Try>, stream: bool) {
    forall t <- tries :: t.attempt.Called? ==> exists x :: Possible(x, stream) && t.attempt.outcome == OutcomeOf(x)
  }

  /** The attempts that write and go on are the streams that break off after a status that is
      neither 2xx nor an error. The last attempt has written unless its failure was taken for
      the client leaving. */
  lemma WhoWritesAndGoesOn(x: Exchange, stream: bool)
    requires Possible(x, stream)
    ensures WroteAndWentOn(Called(OutcomeOf(x)), stream) <==>
              x.StreamCut? && !x.cancelled && !Mentions(x.text) && !(200 <= x.status < 300)
    ensures
      var a := Called(OutcomeOf(x));
      Ends(a, stream) && !ClientIsGone(a) && !TakenForGone(a) ==> Wrote(a)
  {
  }

  lemma {:induction false} AnswersWhileGoing(tries: seq<Try>, stream: bool)
    requires forall t <- tries :: !Ends(t.attempt, stream)
    ensures |Written(tries)| == Doubled(tries, stream)
  {
    if tries != [] {
      var init, t := tries[..|tries| - 1], tries[|tries| - 1];
      AnswersWhileGoing(init, stream);
      assert t in tries;
    }
  }

  predicate Left(tries: seq<Try>) {
    tries != [] && ClientIsGone(tries[|tries| - 1].attempt)
  }

  /** The last call failed before it wrote anything, with a text that mentions a cancellation:
      the relay stops without a word. */
  predicate SilentEnd(tries: seq<Try>) {
    tries != [] && TakenForGone(tries[|tries| - 1].attempt) && !Wrote(tries[|tries| - 1].attempt)
  }

  /** The number of responses: one unless the relay stops silently, and one more for every
      attempt that wrote and went on; if the client left, possibly none of the last attempt's
      own. */
  lemma AnswersCounted(tries: seq<Try>, stream: bool)
    requires InTurn(tries, stream) && Real(tries, stream)
    ensures
      var answers := |Written(tries)| + if Ended(tries, stream) then 0 else 1;
      if Left(tries) then answers == Doubled(tries, stream) + if Wrote(tries[|tries| - 1].attempt) then 1 else 0
      else answers == Doubled(tries, stream) + if SilentEnd(tries) then 0 else 1
  {
    if tries != [] {
      var init, t := tries[..|tries| - 1], tries[|tries| - 1];
      forall u | u in init ensures !Ends(u.attempt, stream) {
        var i :| 0 <= i < |init| && init[i] == u;
        assert tries[i] == u;
      }
      AnswersWhileGoing(init, stream);
      assert t in tries;
      if t.attempt.Called? {
        var x :| Possible(x, stream) && t.attempt.outcome == OutcomeOf(x);
        WhoWritesAndGoesOn(x, stream);
      }
    }
  }

  /** No stream broke off after a status other than 2xx. */
  ghost predicate CleanCuts(tries: seq<Try>, stream: bool) {
    forall t <- tries :: !WroteAndWentOn(t.attempt, stream)
  }

  lemma {:induction false} NoneDoubled(tries: seq<Try>, stream: bool)
    ensures Doubled(tries, stream) == 0 <==> CleanCuts(tries, stream)
  {
    if tries != [] {
      var init, t := tries[..|tries| - 1], tries[|tries| - 1];
      NoneDoubled(init, stream);
      assert tries == init + [t];
    }
  }

  /** A client that never left gets nothing: the upstream answers 200 with an error message of
      its own that mentions a cancellation. */
  lemma LiveClientUnanswered(c: Candidate)
    ensures
      var tries := [Try(c, Called(OutcomeOf(Unusable(200, false, "openai: " + CANCELLED))))];
      && Real(tries, false) && Ended(tries, false) && !Left(tries) && CleanCuts(tries, false)
      && SilentEnd(tries) && Written(tries) == []
  {
    var text := "openai: " + CANCELLED;
    var x := Unusable(200, false, text);
    var t := Try(c, Called(OutcomeOf(x)));
    assert text[8..] == CANCELLED;
    assert Mentions(text);
    WrittenSnoc([], t);
    assert [] + [t] == [t];
    assert Possible(x, false);
  }

  /** A stream that breaks off after a redirect is followed by a second response. */
  lemma AnsweredTwice(c: Candidate, d: Candidate)
    ensures
      var tries := [Try(c, Called(OutcomeOf(StreamCut(300, false, "")))), Try(d, Called(OutcomeOf(Streamed(200))))];
      && Real(tries, true) && InTurn(tries, true) && Ended(tries, true) && !Left(tries) && !SilentEnd(tries)
      && Written(tries) == [Upstream(c.provider.id, 300), Upstream(d.provider.id, 200)]
  {
    hide Written, LastStatus;
    var cut, whole := StreamCut(300, false, ""), Streamed(200);
    var t, u := Try(c, Called(OutcomeOf(cut))), Try(d, Called(OutcomeOf(whole)));
    NothingTried(true, _ => true);
    WrittenSnoc([], t);
    WrittenSnoc([t], u);
    assert [] + [t] == [t] && [t] + [u] == [t, u];
    CutGoesOn();
    assert Possible(cut, true) && Possible(whole, true);
  }

  lemma CutGoesOn()
    ensures WroteAndWentOn(Called(OutcomeOf(StreamCut(300, false, ""))), true)
  {
    assert !Mentions("");
  }

  // ---- The status of the final error ----

  /** A failed call that leaves a success status behind: its body could not be used, or its
      stream broke off after a status that is neither 2xx nor an error. */
  predicate KeepsSuccess(x: Exchange) {
    (x.Unusable? && 1 <= x.status < 400) || (x.StreamCut? && 1 <= x.status < 400 && !(200 <= x.status < 300))
  }

  /** The last call that failed is the one at `i`. */
  predicate LastFailure(tries: seq<Try>, i: nat) {
    i < |tries| && Failed(tries[i].attempt) && forall j :: i < j < |tries| ==> !Failed(tries[j].attempt)
  }

  lemma {:induction false} StatusOfLastFailure(tries: seq<Try>, i: nat)
    requires LastFailure(tries, i)
    ensures LastStatus(tries) == tries[i].attempt.outcome.status
  {
    var n := |tries| - 1;
    if i < n {
      StatusOfLastFailure(tries[..n], i);
    }
  }

  lemma {:induction false} SomeFailure(tries: seq<Try>)
    ensures LastStatus(tries) == 0 || exists i: nat :: LastFailure(tries, i)
  {
    if tries != [] {
      var n := |tries| - 1;
      if Failed(tries[n].attempt) {
        assert LastFailure(tries, n);
      } else {
        SomeFailure(tries[..n]);
        if LastStatus(tries) != 0 {
          var i: nat :| LastFailure(tries[..n], i);
          assert forall j :: i < j < n ==> tries[j] == tries[..n][j];
          assert LastFailure(tries, i);
        }
      }
    }
  }

  /** A failed call that leads on returns a status below 400 exactly if it reached the
      upstream and was a success by its status. */
  lemma FailureStatus(x: Exchange, stream: bool)
    requires Possible(x, stream) && Failed(Called(OutcomeOf(x))) && !Ends(Called(OutcomeOf(x)), stream)
    ensures 0 < OutcomeOf(x).status < 400 <==> KeepsSuccess(x)
    ensures OutcomeOf(x).status >= 0
  {
  }

  /** When no candidate ends the request, the client is told of a failure with a success
      status if and only if the last call that failed kept one. */
  lemma FinalStatusIsSuccessExactly(tries: seq<Try>, stream: bool)
    requires InTurn(tries, stream) && Real(tries, stream) && !Ended(tries, stream)
    ensures FinalStatus(tries) < 400 <==>
              exists i: nat, x: Exchange :: LastFailure(tries, i) && Possible(x, stream) && KeepsSuccess(x)
                                            && tries[i].attempt == Called(OutcomeOf(x))
  {
    SomeFailure(tries);
    forall i: nat | LastFailure(tries, i)
      ensures LastStatus(tries) == tries[i].attempt.outcome.status
      ensures !Ends(tries[i].attempt, stream)
      ensures exists x :: Possible(x, stream) && tries[i].attempt.outcome == OutcomeOf(x)
    {
      StatusOfLastFailure(tries, i);
      assert tries[i] in tries;
    }
    if i: nat :| LastFailure(tries, i) {
      var x :| Possible(x, stream) && tries[i].attempt.outcome == OutcomeOf(x);
      FailureStatus(x, stream);
      forall j: nat, y: Exchange | LastFailure(tries, j) && Possible(y, stream) && KeepsSuccess(y)
                                   && tries[j].attempt == Called(OutcomeOf(y))
        ensures FinalStatus(tries) < 400
      {
        FailureStatus(y, stream);
      }
    }
  }

  /** When the last call that failed had a body that could not be used, the error sent to the
      client carries the status of that body, which is a success. */
  lemma UnusableBodyKeepsItsStatus(c: Candidate, status: int)
    requires 0 < status < 400
    ensures
      var tries := [Try(c, Called(OutcomeOf(Unusable(status, false, ""))))];
      Real(tries, false) && !Ended(tries, false) && Written(tries) == [] && FinalStatus(tries) == status
  {
    var x := Unusable(status, false, "");
    var t := Try(c, Called(OutcomeOf(x)));
    WrittenSnoc([], t);
    assert [] + [t] == [t];
    assert !Mentions("");
    assert Possible(x, false);
  }

  // ---- The whole request ----

  /** What may answer a request before any channel is looked at. */
  datatype Gate = ModelForbidden | RateLimited | OverQuota | NoList | Passed(providers: seq<Provider>)

  /** One request. Unless the client leaves, the number of responses is one for every stream
      that broke off after a status other than 2xx, and one more unless the relay stopped
      silently. So it is answered exactly once if and only if there was no such cut, or one
      before a silent end; without a cut it is never answered twice, whoever leaves. The
      channels tried are the eligible ones, from the highest priority down, until one of them
      ends the request. */
  method RelayCore(gate: Gate, model: string, allow: seq<int>, attempt: nat -> Attempt, watched: int -> bool,
                   stream: bool, pick: nat -> nat)
    returns (responses: seq<Response>, ops: seq<BreakerOp>, cands: seq<Candidate>, tries: seq<Try>)
    ensures !gate.Passed? ==> tries == [] && ops == [] && responses == [Gateway(match gate
      case ModelForbidden => 403 case RateLimited => 429 case OverQuota => 402 case _ => 503)]
    ensures gate.Passed? && cands == [] ==> responses == [Gateway(if allow != [] then 403 else 503)]
    ensures gate.Passed? && cands != [] ==>
              responses == Written(tries) + if Ended(tries, stream) then [] else [Gateway(FinalStatus(tries))]
    ensures gate.Passed? ==> multiset(cands) == multiset(Eligibles(gate.providers, model, allow)) && Descending(cands)
    ensures Candidates(tries) <= cands && (Ended(tries, stream) || |tries| == |cands|)
    ensures forall i :: 0 <= i < |tries| ==> tries[i].attempt == attempt(i)
    ensures Reported(ops, tries, watched)
    ensures Real(tries, stream) && !Left(tries) ==>
              |responses| == Doubled(tries, stream) + if SilentEnd(tries) then 0 else 1
    ensures Real(tries, stream) && !Left(tries) && CleanCuts(tries, stream) ==>
              (|responses| == 1 <==> !SilentEnd(tries))
    ensures Real(tries, stream) && !Left(tries) && !SilentEnd(tries) ==>
              (|responses| == 1 <==> CleanCuts(tries, stream))
    ensures Real(tries, stream) && CleanCuts(tries, stream) ==> |responses| <= 1
  {
    hide Written, LastStatus, Reported, InTurn, Doubled, CleanCuts, Real, Eligibles, Descending;
    ops, cands, tries := [], [], [];
    NothingTried(stream, watched);
    NoneDoubled([], stream);
    assert CleanCuts([], stream) by { assert Doubled([], stream) == 0 by { NothingDoubled(stream); } }
    match gate {
      case ModelForbidden => return [Gateway(403)], ops, cands, tries;
      case RateLimited => return [Gateway(429)], ops, cands, tries;
      case OverQuota => return [Gateway(402)], ops, cands, tries;
      case NoList => return [Gateway(503)], ops, cands, tries;
      case Passed(providers) =>
        var found := BuildCandidates(providers, model, allow, pick);
        cands := found;
        if found == [] {
          return [Gateway(if allow != [] then 403 else 503)], ops, cands, tries;
        }
        responses, ops, tries := TryInTurn(found, attempt, watched, stream);
        NoneDoubled(tries, stream);
        if Real(tries, stream) {
          AnswersCounted(tries, stream);
        }
    }
  }

  lemma NothingDoubled(stream: bool)
    ensures Doubled([], stream) == 0
  {
  }

  /** If the channels have distinct identifiers, no channel is tried twice. */
  lemma EachChannelOnce(providers: seq<Provider>, model: string, allow: seq<int>, cands: seq<Candidate>,
                        tries: seq<Try>)
    requires forall i, j :: 0 <= i < j < |providers| ==> providers[i].id != providers[j].id
    requires multiset(cands) == multiset(Eligibles(providers, model, allow)) && Candidates(tries) <= cands
    ensures forall i, j :: 0 <= i < j < |tries| ==> tries[i].candidate.provider.id != tries[j].candidate.provider.id
  {
    hide Eligibles;
    EligiblesDistinct(providers, model, allow);
    ShuffledDistinct(Eligibles(providers, model, allow), cands);
    forall i | 0 <= i < |tries| ensures cands[i] == tries[i].candidate {
      assert Candidates(tries)[i] == tries[i].candidate;
    }
  }

  /** Distinct identifiers stay distinct in any order. */
  lemma ShuffledDistinct(es: seq<Candidate>, cands: seq<Candidate>)
    requires multiset(cands) == multiset(es)
    requires forall i, j :: 0 <= i < j < |es| ==> es[i].provider.id != es[j].provider.id
    ensures forall i, j :: 0 <= i < j < |cands| ==> cands[i].provider.id != cands[j].provider.id
  {
    forall i, j | 0 <= i < j < |cands| ensures cands[i].provider.id != cands[j].provider.id {
      var a, b := cands[i], cands[j];
      assert cands == cands[..j] + [b] + cands[j + 1..];
      assert a in cands[..j] && a in multiset(cands[..j]);
      CountOfOne(es, a);
      assert a in multiset(es) && b in multiset(es);
      assert a in es && b in es;
    }
  }

  lemma {:induction false} EligiblesDistinct(providers: seq<Provider>, model: string, allow: seq<int>)
    requires forall i, j :: 0 <= i < j < |providers| ==> providers[i].id != providers[j].id
    ensures forall c <- Eligibles(providers, model, allow) :: c.provider in providers
    ensures forall i, j :: 0 <= i < j < |Eligibles(providers, model, allow)| ==>
              Eligibles(providers, model, allow)[i].provider.id != Eligibles(providers, model, allow)[j].provider.id
  {
    if providers != [] {
      var init, p := providers[..|providers| - 1], providers[|providers| - 1];
      EligiblesDistinct(init, model, allow);
      assert providers == init + [p];
      var es := Eligibles(init, model, allow);
      forall i | 0 <= i < |es| ensures es[i].provider.id != p.id {
        assert es[i] in es && es[i].provider in init;
      }
    }
  }

  lemma {:induction false} CountOfOne(es: seq<Candidate>, c: Candidate)
    requires forall i, j :: 0 <= i < j < |es| ==> es[i].provider.id != es[j].provider.id
    ensures multiset(es)[c] <= 1
  {
    if es != [] {
      var n := |es| - 1;
      CountOfOne(es[..n], c);
      assert es == es[..n] + [es[n]];
      assert c == es[n] ==> c !in es[..n] && c !in multiset(es[..n]);
    }
  }
}
