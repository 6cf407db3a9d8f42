/**
 * What the request layer does achieve: requests are delivered, and an expired session or one
 * transient failure of an idempotent request costs them one more send and nothing else.
 */
module RecoveryProgress {
  import opened Wrappers
  import opened Recovery

  /** The request was first sent on its way in the session that the client is in now. */
  predicate SameSession(c: Client, q: Qid) {
    q in c.requests && c.requests[q].stamp.Some? && c.requests[q].stamp.value.generation == c.generation
  }

  /** A response is delivered exactly when it is a success and the session is still the request's own. */
  lemma DeliveredIff(c: Client, q: Qid, response: Response)
    requires Possible(c, Receive(q, response))
    ensures Next(c, Receive(q, response)).requests[q].phase == Delivered <==> SameSession(c, q) && response.Success?
  {
  }

  /** It is given up exactly when the session has changed or the response earns no further attempt. */
  lemma RejectedIff(c: Client, q: Qid, response: Response)
    requires Possible(c, Receive(q, response))
    ensures var r := c.requests[q];
            Next(c, Receive(q, response)).requests[q].phase == Rejected <==>
            || !SameSession(c, q)
            || response.Other?
            || (response.Expired? && (r.sessionCall || r.authRetried))
            || (response.Transient? && (!r.idempotent || r.transientRetried))
  {
  }

  /** No other step delivers anything. */
  lemma OnlyReceivingDelivers(c: Client, step: Step, q: Qid)
    requires Possible(c, step) && q in Next(c, step).requests && Next(c, step).requests[q].phase.Delivered?
    ensures (q in c.requests && c.requests[q].phase.Delivered?) || (step == Receive(q, Success) && SameSession(c, q))
  {
  }

  lemma Extend(steps: seq<Step>, step: Step) returns (longer: seq<Step>)
    requires RunFrom(INITIAL, steps).Some? && Possible(RunFrom(INITIAL, steps).value, step)
    ensures longer == steps + [step] && RunFrom(INITIAL, longer) == Some(Next(RunFrom(INITIAL, steps).value, step))
    ensures Inv(RunFrom(INITIAL, longer).value)
  {
    longer := steps + [step];
    assert longer[..|steps|] == steps;
    RunKeepsInv(longer);
  }

  /** How the client may change while `q` waits: only the recovery under way is over. */
  ghost predicate Awaited(c: Client, d: Client) {
    d.requests == c.requests && d.generation == c.generation && c.successes <= d.successes && d.recovery.None?
  }

  /** The recovery under way, if any, has not ended some other way. */
  ghost predicate MayEnd(c: Client, outcome: Outcome) {
    c.recovery.Some? && c.recovery.value in c.attempts && c.attempts[c.recovery.value].phase.Answered? ==>
      c.attempts[c.recovery.value].phase.outcome == outcome
  }

  /** The handler of the recovery under way answers, unless it has already, and its `finally` runs. */
  lemma EndRecovery(steps: seq<Step>, outcome: Outcome) returns (all: seq<Step>)
    requires RunFrom(INITIAL, steps).Some? && RunFrom(INITIAL, steps).value.recovery.Some?
    requires MayEnd(RunFrom(INITIAL, steps).value, outcome)
    ensures RunFrom(INITIAL, all).Some? && steps <= all && |all| <= |steps| + 2
    ensures var c, d := RunFrom(INITIAL, steps).value, RunFrom(INITIAL, all).value;
            && Awaited(c, d) && Inv(d) && IsFinished(d, c.recovery.value)
            && d.attempts[c.recovery.value].phase.outcome == outcome
  {
    RunKeepsInv(steps);
    var id := RunFrom(INITIAL, steps).value.recovery.value;
    all := steps;
    if RunFrom(INITIAL, steps).value.attempts[id].phase.Running? { all := Extend(all, HandlerAnswers(id, outcome)); }
    all := Extend(all, HandlerFinally(id));
  }

  /** The request would be stamped now, or has been in this session. */
  ghost predicate Fresh(c: Client, q: Qid) {
    q in c.requests && (c.requests[q].stamp.None? || SameSession(c, q))
  }

  /** What is about to start goes out once, after the recovery it has to wait for, and is delivered on success. */
  lemma {:induction false} StartDelivers(steps: seq<Step>, q: Qid) returns (all: seq<Step>)
    requires RunFrom(INITIAL, steps).Some? && Fresh(RunFrom(INITIAL, steps).value, q)
    requires RunFrom(INITIAL, steps).value.requests[q].phase.Starting?
    requires var c := RunFrom(INITIAL, steps).value;
             !c.requests[q].sessionCall ==> MayEnd(c, Recovered) || MayEnd(c, Denied)
    ensures RunFrom(INITIAL, all).Some? && steps <= all
    ensures Redelivered(RunFrom(INITIAL, steps).value, RunFrom(INITIAL, all).value, q)
  {
    RunKeepsInv(steps);
    all := PassInterceptor(steps, q);
    all := SendAndDeliver(all, q);
  }

  /** The request interceptor up to the point where it sends: it waits for a recovery under way. */
  lemma PassInterceptor(steps: seq<Step>, q: Qid) returns (all: seq<Step>)
    requires RunFrom(INITIAL, steps).Some? && Fresh(RunFrom(INITIAL, steps).value, q)
    requires RunFrom(INITIAL, steps).value.requests[q].phase.Starting?
    requires var c := RunFrom(INITIAL, steps).value;
             !c.requests[q].sessionCall ==> MayEnd(c, Recovered) || MayEnd(c, Denied)
    ensures RunFrom(INITIAL, all).Some? && steps <= all
    ensures var c, d := RunFrom(INITIAL, steps).value, RunFrom(INITIAL, all).value;
            && d.generation == c.generation && SameSession(d, q) && d.requests[q].phase == AtGate
            && d.requests[q].sent == c.requests[q].sent
  {
    var c := RunFrom(INITIAL, steps).value;
    RunKeepsInv(steps);
    all := Extend(steps, Enter(q));
    if c.recovery.Some? && !c.requests[q].sessionCall {
      all := EndRecovery(all, if MayEnd(c, Denied) then Denied else Recovered);
      all := Extend(all, GateOpens(q));
    }
  }

  lemma SendAndDeliver(steps: seq<Step>, q: Qid) returns (all: seq<Step>)
    requires RunFrom(INITIAL, steps).Some? && SameSession(RunFrom(INITIAL, steps).value, q)
    requires RunFrom(INITIAL, steps).value.requests[q].phase == AtGate
    ensures RunFrom(INITIAL, all).Some? && steps <= all
    ensures Redelivered(RunFrom(INITIAL, steps).value, RunFrom(INITIAL, all).value, q)
  {
    all := Extend(steps, Pass(q));
    all := Extend(all, Receive(q, Success));
  }

  /** The request has been sent once more and delivered; the session is the same. */
  ghost predicate Redelivered(c: Client, d: Client, q: Qid)
    requires q in c.requests
  {
    && d.generation == c.generation && q in d.requests
    && d.requests[q].phase.Delivered? && d.requests[q].sent == c.requests[q].sent + 1
  }

  /**
   * An ordinary request that finds the session expired waits for the recovery, which it starts if
   * need be, and if that succeeds is sent once more and delivered on success.
   */
  lemma {:induction false} RecoveredRequestDelivers(steps: seq<Step>, q: Qid) returns (all: seq<Step>)
    requires RunFrom(INITIAL, steps).Some? && Possible(RunFrom(INITIAL, steps).value, Receive(q, Expired))
    requires var c := RunFrom(INITIAL, steps).value;
             && SameSession(c, q) && !c.requests[q].sessionCall && !c.requests[q].authRetried && MayEnd(c, Recovered)
    ensures RunFrom(INITIAL, all).Some? && steps + [Receive(q, Expired)] <= all
    ensures Redelivered(RunFrom(INITIAL, steps).value, RunFrom(INITIAL, all).value, q)
  {
    RunKeepsInv(steps);
    all := AwaitRecovery(steps, q);
    all := StartDelivers(all, q);
  }

  lemma AwaitRecovery(steps: seq<Step>, q: Qid) returns (all: seq<Step>)
    requires RunFrom(INITIAL, steps).Some? && Possible(RunFrom(INITIAL, steps).value, Receive(q, Expired))
    requires var c := RunFrom(INITIAL, steps).value;
             && SameSession(c, q) && !c.requests[q].sessionCall && !c.requests[q].authRetried && MayEnd(c, Recovered)
    ensures RunFrom(INITIAL, all).Some? && steps + [Receive(q, Expired)] <= all
    ensures var c, d := RunFrom(INITIAL, steps).value, RunFrom(INITIAL, all).value;
            && d.generation == c.generation && d.recovery.None? && SameSession(d, q)
            && d.requests[q] == c.requests[q].(authRetried := true, phase := Starting)
  {
    RunKeepsInv(steps);
    all := Extend(steps, Receive(q, Expired));
    if RunFrom(INITIAL, all).value.recovery.Some? { all := EndRecovery(all, Recovered); }
    all := Extend(all, RecoveryAwaited(q));
  }

  /** One transient failure of an idempotent request costs one pause and one more send. */
  lemma {:induction false} TransientFailureDelivers(steps: seq<Step>, q: Qid) returns (all: seq<Step>)
    requires RunFrom(INITIAL, steps).Some? && Possible(RunFrom(INITIAL, steps).value, Receive(q, Transient))
    requires var c := RunFrom(INITIAL, steps).value;
             && SameSession(c, q) && c.requests[q].idempotent && !c.requests[q].transientRetried
             && (!c.requests[q].sessionCall ==> MayEnd(c, Recovered) || MayEnd(c, Denied))
    ensures RunFrom(INITIAL, all).Some? && steps + [Receive(q, Transient)] <= all
    ensures Redelivered(RunFrom(INITIAL, steps).value, RunFrom(INITIAL, all).value, q)
  {
    RunKeepsInv(steps);
    all := Extend(steps, Receive(q, Transient));
    all := Extend(all, PauseOver(q));
    all := StartDelivers(all, q);
  }

  /** A recovery that does not succeed ends the requests that waited for it. */
  lemma FailedRecoveryRejects(c: Client, q: Qid)
    requires Possible(c, RecoveryAwaited(q)) && c.requests[q].phase.AwaitingRecovery?
    requires c.attempts[c.requests[q].phase.recovery].phase.outcome != Recovered
    ensures Next(c, RecoveryAwaited(q)).requests[q] == c.requests[q].(phase := Rejected)
  {
  }

  /** A recovery that fails outright ends the requests held back by it; one that is merely denied lets them go out. */
  lemma GateAfterFailure(c: Client, q: Qid)
    requires Possible(c, GateOpens(q))
    ensures var outcome := c.attempts[c.requests[q].phase.recovery].phase.outcome;
            Next(c, GateOpens(q)).requests[q] == c.requests[q].(phase := if outcome.Failed? then Rejected else AtGate)
  {
  }

  /** The stamp says what the session was when the request was first sent on its way. */
  lemma {:induction false} StampKept(steps: seq<Step>, n: nat, q: Qid)
    requires RunFrom(INITIAL, steps).Some? && n < |steps| && steps[n] == Enter(q)
    requires RunFrom(INITIAL, steps[..n]).Some? && q in RunFrom(INITIAL, steps[..n]).value.requests
    requires RunFrom(INITIAL, steps[..n]).value.requests[q].stamp.None?
    ensures var c, d := RunFrom(INITIAL, steps[..n]).value, RunFrom(INITIAL, steps).value;
            q in d.requests && d.requests[q].stamp == Some(Stamp(c.generation, c.successes))
  {
    assert steps[..n + 1][..n] == steps[..n];
    RunMovesOn(steps, n + 1);
  }

  /**
   * An ordinary request that finds the session expired starts a recovery exactly when none is under
   * way and none has succeeded since the request was first sent on its way.
   */
  lemma {:induction false} RecoveryStartsIff(steps: seq<Step>, n: nat, q: Qid)
    requires RunFrom(INITIAL, steps).Some? && n < |steps| && steps[n] == Enter(q)
    requires RunFrom(INITIAL, steps[..n]).Some? && q in RunFrom(INITIAL, steps[..n]).value.requests
    requires RunFrom(INITIAL, steps[..n]).value.requests[q].stamp.None?
    requires var d := RunFrom(INITIAL, steps).value;
             && Possible(d, Receive(q, Expired)) && d.generation == RunFrom(INITIAL, steps[..n]).value.generation
             && !d.requests[q].sessionCall && !d.requests[q].authRetried
    ensures var c, d := RunFrom(INITIAL, steps[..n]).value, RunFrom(INITIAL, steps).value;
            var e := Next(d, Receive(q, Expired));
            && (e.attempts != d.attempts <==> d.recovery.None? && |Succeeded(d)| == |Succeeded(c)|)
            && (e.attempts != d.attempts ==>
                  && e.recovery == Some(d.nextAttempt)
                  && e.attempts == d.attempts[d.nextAttempt := Attempt(d.generation, Running)])
            && (d.recovery.Some? ==> e.requests[q].phase == AwaitingRecovery(d.recovery.value))
            && (d.recovery.None? && |Succeeded(d)| != |Succeeded(c)| ==> e.requests[q].phase == AlreadyRecovered)
  {
    StampKept(steps, n, q);
    RunKeepsInv(steps);
    RunKeepsInv(steps[..n]);
  }

  // ----- who may wait and retry -----

  /** Session calls wait for no recovery, or recoveries would wait for themselves; retries are for those entitled. */
  ghost predicate Entitled(r: Request) {
    && (r.sessionCall ==>
          !r.authRetried && !r.phase.AwaitingGate? && !r.phase.AwaitingRecovery? && !r.phase.AlreadyRecovered?)
    && (!r.idempotent ==> !r.transientRetried && !r.phase.AwaitingRetry?)
  }

  lemma StepKeepsEntitled(c: Client, step: Step, q: Qid)
    requires Possible(c, step) && q in Next(c, step).requests && (q in c.requests ==> Entitled(c.requests[q]))
    ensures Entitled(Next(c, step).requests[q])
    ensures q in c.requests && Next(c, step).requests[q] != c.requests[q] ==> Concerns(step, q)
  {
  }

  /** So a session call never waits and goes out at most twice, and so does a request that is not idempotent. */
  lemma {:induction false} RetriesAreEarned(steps: seq<Step>, q: Qid)
    requires RunFrom(INITIAL, steps).Some? && q in RunFrom(INITIAL, steps).value.requests
    ensures var r := RunFrom(INITIAL, steps).value.requests[q];
            && Entitled(r)
            && (r.sessionCall || !r.idempotent ==> r.sent <= 2) && (r.sessionCall && !r.idempotent ==> r.sent <= 1)
  {
    SentAtMostThrice(steps, q);
    RunKeepsInv(steps);
    assert RequestOk(RunFrom(INITIAL, steps).value, q);
    RunKeepsEntitled(steps, q);
  }

  lemma {:induction false} RunKeepsEntitled(steps: seq<Step>, q: Qid)
    requires RunFrom(INITIAL, steps).Some? && q in RunFrom(INITIAL, steps).value.requests
    ensures Entitled(RunFrom(INITIAL, steps).value.requests[q])
  {
    if steps != [] {
      var c, step := RunFrom(INITIAL, steps[..|steps| - 1]).value, steps[|steps| - 1];
      if q in c.requests { RunKeepsEntitled(steps[..|steps| - 1], q); }
      StepKeepsEntitled(c, step, q);
    }
  }
}
