/**
 * Session recovery in the front end's request layer.  Every request is stamped with the session
 * generation and the number of recoveries that had succeeded when it was first sent.  A request
 * rejected because the session expired starts one shared recovery, or joins the one under way, or
 * retries at once if a recovery has succeeded since it was stamped.  A turn is the code between two
 * awaits, a function of the client's value; the class `RequestLayer` runs the same turns on its fields.
 */
module Recovery {
  import opened Wrappers

  type Rid = nat
  type Qid = nat

  /** How the recovery handler ended; `Failed` is a rejected promise. */
  datatype Outcome = Recovered | Denied | Failed

  datatype RecoveryPhase = Running | Answered(outcome: Outcome) | Finished(outcome: Outcome)

  /** One call of the recovery handler, in the generation it was started for. */
  datatype Attempt = Attempt(generation: nat, phase: RecoveryPhase)

  datatype Phase =
    | Starting
    | AwaitingGate(recovery: Rid)
    | AtGate
    | InFlight
    | AwaitingRecovery(recovery: Rid)
    | AlreadyRecovered
    | AwaitingRetry
    | Delivered
    | Rejected

  /** `sessionCall`: a login, status, refresh or logout request, which never waits for a recovery. */
  datatype Request = Request(sessionCall: bool, idempotent: bool, stamp: Option<Stamp>, authRetried: bool,
                             transientRetried: bool, sent: nat, phase: Phase)

  datatype Stamp = Stamp(generation: nat, recoveries: nat)

  /** What comes back for a request; `Expired` is status 401 with the code for an expired session. */
  datatype Response = Success | Expired | Transient | Other

  datatype Client = Client(generation: nat, recovery: Option<Rid>, successes: nat, attempts: map<Rid, Attempt>,
                           nextAttempt: Rid, requests: map<Qid, Request>)

  const INITIAL := Client(0, None, 0, map[], 0, map[])

  // ----- turns -----

  function Invalidate(c: Client): Client {
    c.(generation := c.generation + 1, recovery := None, successes := 0)
  }

  function Set(c: Client, q: Qid, r: Request): Client {
    c.(requests := c.requests[q := r])
  }

  /** The request interceptor up to its await: stamp once, then wait for a running recovery. */
  function Intercept(c: Client, q: Qid): Client
    requires q in c.requests
  {
    var r := c.requests[q];
    var stamp := if r.stamp.Some? then r.stamp else Some(Stamp(c.generation, c.successes));
    var phase := if c.recovery.Some? && !r.sessionCall then AwaitingGate(c.recovery.value) else AtGate;
    Set(c, q, r.(stamp := stamp, phase := phase))
  }

  predicate Current(c: Client, q: Qid) {
    q in c.requests && c.requests[q].stamp.Some? && c.requests[q].stamp.value.generation == c.generation
  }

  function PassGate(c: Client, q: Qid): Client
    requires q in c.requests
  {
    var r := c.requests[q];
    Set(c, q, if Current(c, q) then r.(phase := InFlight, sent := r.sent + 1) else r.(phase := Rejected))
  }

  /** An expired session, first seen by an ordinary request of the current generation. */
  predicate NeedsRecovery(c: Client, q: Qid, response: Response) {
    Current(c, q) && response.Expired? && !c.requests[q].sessionCall && !c.requests[q].authRetried
  }

  predicate StartsRecovery(c: Client, q: Qid, response: Response) {
    NeedsRecovery(c, q, response) && c.recovery.None? && c.requests[q].stamp.value.recoveries == c.successes
  }

  function PhaseAfter(c: Client, q: Qid, response: Response): Phase
    requires q in c.requests
  {
    var r := c.requests[q];
    if !Current(c, q) then Rejected
    else if response.Success? then Delivered
    else if NeedsRecovery(c, q, response) then
      if c.recovery.Some? then AwaitingRecovery(c.recovery.value)
      else if StartsRecovery(c, q, response) then AwaitingRecovery(c.nextAttempt)
      else AlreadyRecovered
    else if response.Transient? && r.idempotent && !r.transientRetried then AwaitingRetry
    else Rejected
  }

  /** The response interceptors and `rejectRequest` up to the next await. */
  function Respond(c: Client, q: Qid, response: Response): Client
    requires q in c.requests
  {
    var d := Set(c, q, c.requests[q].(phase := PhaseAfter(c, q, response)));
    if !StartsRecovery(c, q, response) then d
    else d.(recovery := Some(c.nextAttempt), attempts := c.attempts[c.nextAttempt := Attempt(c.generation, Running)],
            nextAttempt := c.nextAttempt + 1)
  }

  /** After the await in `recoverSession`: retry if it worked and the session is still the same. */
  function AfterRecovery(c: Client, q: Qid, outcome: Outcome): Client
    requires q in c.requests
  {
    var r := c.requests[q];
    Set(c, q, if Current(c, q) && outcome.Recovered? then r.(authRetried := true, phase := Starting)
              else r.(phase := Rejected))
  }

  function AfterPause(c: Client, q: Qid): Client
    requires q in c.requests
  {
    var r := c.requests[q];
    Set(c, q, if Current(c, q) then r.(transientRetried := true, phase := Starting) else r.(phase := Rejected))
  }

  /** The `then` of a recovery: a success of the current generation is counted, a stale one denied. */
  function RecoveryAnswers(c: Client, id: Rid, outcome: Outcome): Client
    requires id in c.attempts
  {
    var a := c.attempts[id];
    var seen := if outcome.Failed? then Failed else if c.generation != a.generation then Denied else outcome;
    c.(attempts := c.attempts[id := a.(phase := Answered(seen))],
       successes := c.successes + if seen.Recovered? then 1 else 0)
  }

  function RecoveryFinally(c: Client, id: Rid): Client
    requires id in c.attempts && c.attempts[id].phase.Answered?
  {
    c.(attempts := c.attempts[id := c.attempts[id].(phase := Finished(c.attempts[id].phase.outcome))],
       recovery := if c.recovery == Some(id) then None else c.recovery)
  }

  // ----- runs -----

  datatype Step =
    | Issue(q: Qid, sessionCall: bool, idempotent: bool)
    | InvalidateAll
    | Enter(q: Qid)
    | GateOpens(q: Qid)
    | Pass(q: Qid)
    | Receive(q: Qid, response: Response)
    | RecoveryAwaited(q: Qid)
    | PauseOver(q: Qid)
    | Abort(q: Qid)
    | HandlerAnswers(id: Rid, outcome: Outcome)
    | HandlerFinally(id: Rid)

  predicate In(c: Client, q: Qid, phase: Phase) {
    q in c.requests && c.requests[q].phase == phase
  }

  predicate IsFinished(c: Client, id: Rid) {
    id in c.attempts && c.attempts[id].phase.Finished?
  }

  predicate Possible(c: Client, step: Step) {
    match step
    case Issue(q, _, _) => q !in c.requests
    case InvalidateAll => true
    case Enter(q) => In(c, q, Starting)
    case GateOpens(q) => q in c.requests && c.requests[q].phase.AwaitingGate?
      && IsFinished(c, c.requests[q].phase.recovery)
    case Pass(q) => In(c, q, AtGate)
    case Receive(q, _) => In(c, q, InFlight)
    case RecoveryAwaited(q) =>
      q in c.requests && (c.requests[q].phase.AlreadyRecovered?
                          || (c.requests[q].phase.AwaitingRecovery? && IsFinished(c, c.requests[q].phase.recovery)))
    case PauseOver(q) => In(c, q, AwaitingRetry)
    case Abort(q) => q in c.requests && !c.requests[q].phase.Delivered?
    case HandlerAnswers(id, _) => id in c.attempts && c.attempts[id].phase.Running?
    case HandlerFinally(id) => id in c.attempts && c.attempts[id].phase.Answered?
  }

  function Next(c: Client, step: Step): Client
    requires Possible(c, step)
  {
    match step
    case Issue(q, sessionCall, idempotent) =>
      Set(c, q, Request(sessionCall, idempotent, None, false, false, 0, Starting))
    case InvalidateAll => Invalidate(c)
    case Enter(q) => Intercept(c, q)
    case GateOpens(q) =>
      var failed := c.attempts[c.requests[q].phase.recovery].phase.outcome.Failed?;
      Set(c, q, c.requests[q].(phase := if failed then Rejected else AtGate))
    case Pass(q) => PassGate(c, q)
    case Receive(q, response) => Respond(c, q, response)
    case RecoveryAwaited(q) =>
      var phase := c.requests[q].phase;
      AfterRecovery(c, q, if phase.AlreadyRecovered? then Recovered else c.attempts[phase.recovery].phase.outcome)
    case PauseOver(q) => AfterPause(c, q)
    case Abort(q) => Set(c, q, c.requests[q].(phase := Rejected))
    case HandlerAnswers(id, outcome) => RecoveryAnswers(c, id, outcome)
    case HandlerFinally(id) => RecoveryFinally(c, id)
  }

  function RunFrom(c: Client, steps: seq<Step>): Option<Client> {
    if steps == [] then Some(c) else
      var before := RunFrom(c, steps[..|steps| - 1]);
      var step := steps[|steps| - 1];
      if before.Some? && Possible(before.value, step) then Some(Next(before.value, step)) else None
  }

  // ----- invariant -----

  /** The recovery variable names the one unfinished attempt of the current generation. */
  ghost predicate SingleFlight(c: Client) {
    && (forall id | id in c.attempts :: id < c.nextAttempt && c.attempts[id].generation <= c.generation)
    && forall id: Rid | id in c.attempts && !c.attempts[id].phase.Finished?
       && c.attempts[id].generation == c.generation ::
         c.recovery == Some(id)
  }

  ghost predicate RecoveryLive(c: Client) {
    c.recovery.Some? ==>
      && c.recovery.value in c.attempts
      && !c.attempts[c.recovery.value].phase.Finished? && c.attempts[c.recovery.value].generation == c.generation
  }

  /** Attempts of the current generation that recovered the session. */
  ghost function Succeeded(c: Client): set<Rid> {
    set id | id in c.attempts && c.attempts[id].generation == c.generation
             && !c.attempts[id].phase.Running? && c.attempts[id].phase.outcome.Recovered?
  }

  ghost predicate RequestOk(c: Client, q: Qid)
    requires q in c.requests
  {
    var r := c.requests[q];
    && (r.stamp.Some? ==> r.stamp.value.generation <= c.generation)
    && (Current(c, q) ==> r.stamp.value.recoveries <= c.successes)
    && (r.phase.InFlight? || r.phase.Delivered? || r.phase.AwaitingRecovery? || r.phase.AlreadyRecovered?
        || r.phase.AwaitingRetry? ==>
          r.stamp.Some?)
    && (r.phase.AwaitingRecovery? || r.phase.AlreadyRecovered? ==> !r.authRetried)
    && (r.phase.AwaitingRetry? ==> !r.transientRetried)
    && r.sent <= (if r.authRetried then 1 else 0) + (if r.transientRetried then 1 else 0)
                 + if r.phase.Starting? || r.phase.AwaitingGate? || r.phase.AtGate? then 0 else 1
  }

  ghost predicate Inv(c: Client) {
    SingleFlight(c) && RecoveryLive(c) && c.successes == |Succeeded(c)| && forall q | q in c.requests :: RequestOk(c, q)
  }

  predicate ChangesAttempts(c: Client, step: Step) {
    step.HandlerAnswers? || step.HandlerFinally? || step.InvalidateAll?
      || (step.Receive? && StartsRecovery(c, step.q, step.response))
  }

  /** The other steps touch the requests alone. */
  lemma OtherStepsTouchRequests(c: Client, step: Step)
    requires Possible(c, step) && !ChangesAttempts(c, step)
    ensures Next(c, step) == c.(requests := Next(c, step).requests)
  {
  }

  lemma StepKeepsFlight(c: Client, step: Step)
    requires Inv(c) && Possible(c, step)
    ensures SingleFlight(Next(c, step)) && RecoveryLive(Next(c, step))
  {
    if !ChangesAttempts(c, step) { OtherStepsTouchRequests(c, step); }
  }

  lemma StepKeepsCount(c: Client, step: Step)
    requires Inv(c) && Possible(c, step)
    ensures Next(c, step).successes == |Succeeded(Next(c, step))|
  {
    var d := Next(c, step);
    if !ChangesAttempts(c, step) {
      OtherStepsTouchRequests(c, step);
      assert Succeeded(d) == Succeeded(c);
    } else if step.InvalidateAll? {
      assert Succeeded(d) == {};
    } else if step.HandlerAnswers? {
      AnswerKeepsCount(c, step.id, step.outcome);
    } else {
      assert Succeeded(d) == Succeeded(c);
    }
  }

  lemma AnswerKeepsCount(c: Client, id: Rid, outcome: Outcome)
    requires Inv(c) && id in c.attempts && c.attempts[id].phase.Running?
    ensures var d := RecoveryAnswers(c, id, outcome); d.successes == |Succeeded(d)|
  {
    var d := RecoveryAnswers(c, id, outcome);
    assert Succeeded(d) == if d.attempts[id].phase.outcome.Recovered? then Succeeded(c) + {id} else Succeeded(c);
  }

  ghost predicate MovedOn(c: Client, d: Client) {
    && c.generation <= d.generation && (d.generation == c.generation ==> c.successes <= d.successes)
    && c.requests.Keys <= d.requests.Keys
    && forall q | q in c.requests && c.requests[q].stamp.Some? :: d.requests[q].stamp == c.requests[q].stamp
  }

  lemma StepMovesOn(c: Client, step: Step)
    requires Possible(c, step)
    ensures MovedOn(c, Next(c, step))
  {
    if step.Receive? { RespondMovesPhase(c, step.q, step.response); }
  }

  lemma SendingStepKeepsRequest(c: Client, step: Step)
    requires Inv(c) && Possible(c, step) && (step.Enter? || step.GateOpens? || step.Pass? || step.Issue?)
    ensures RequestOk(Next(c, step), step.q)
  {
    if step.q in c.requests { assert RequestOk(c, step.q); }
  }

  lemma ReceivingKeepsRequest(c: Client, step: Step)
    requires Inv(c) && Possible(c, step) && step.Receive?
    ensures RequestOk(Next(c, step), step.q)
  {
    assert RequestOk(c, step.q);
    RespondMovesPhase(c, step.q, step.response);
  }

  /** A response moves nothing of its request but the phase. */
  lemma RespondMovesPhase(c: Client, q: Qid, response: Response)
    requires q in c.requests
    ensures var d := Respond(c, q, response); var phase := d.requests[q].phase;
            && d.requests[q] == c.requests[q].(phase := phase)
            && d.generation == c.generation && d.successes == c.successes
            && (!Current(c, q) ==> phase.Rejected?)
            && (phase.AwaitingRecovery? || phase.AlreadyRecovered? ==> !c.requests[q].authRetried)
            && (phase.AwaitingRetry? ==> !c.requests[q].transientRetried)
            && !phase.Starting? && !phase.AwaitingGate? && !phase.AtGate?
  {
  }

  lemma AnsweringStepKeepsRequest(c: Client, step: Step)
    requires Inv(c) && Possible(c, step) && (step.RecoveryAwaited? || step.PauseOver? || step.Abort?)
    ensures RequestOk(Next(c, step), step.q)
  {
    assert RequestOk(c, step.q);
  }

  predicate Concerns(step: Step, q: Qid) {
    !step.InvalidateAll? && !step.HandlerAnswers? && !step.HandlerFinally? && step.q == q
  }

  lemma StepKeepsRequest(c: Client, step: Step, q: Qid)
    requires Inv(c) && Possible(c, step) && q in Next(c, step).requests
    ensures RequestOk(Next(c, step), q)
  {
    if !Concerns(step, q) {
      assert RequestOk(c, q);
      StepMovesOn(c, step);
      assert Next(c, step).requests[q] == c.requests[q];
    } else if step.Enter? || step.GateOpens? || step.Pass? || step.Issue? {
      SendingStepKeepsRequest(c, step);
    } else if step.Receive? {
      ReceivingKeepsRequest(c, step);
    } else {
      AnsweringStepKeepsRequest(c, step);
    }
  }

  lemma {:induction false} RunKeepsInv(steps: seq<Step>)
    requires RunFrom(INITIAL, steps).Some?
    ensures Inv(RunFrom(INITIAL, steps).value)
  {
    if steps == [] {
      assert Succeeded(INITIAL) == {};
    } else {
      var c, step := RunFrom(INITIAL, steps[..|steps| - 1]).value, steps[|steps| - 1];
      RunKeepsInv(steps[..|steps| - 1]);
      StepKeepsFlight(c, step);
      StepKeepsCount(c, step);
      forall q | q in Next(c, step).requests ensures RequestOk(Next(c, step), q) { StepKeepsRequest(c, step, q); }
    }
  }

  // ----- results over every run -----

  predicate UnderWay(c: Client, id: Rid) {
    id in c.attempts && c.attempts[id].generation == c.generation && !IsFinished(c, id)
  }

  /** Recoveries of one generation never overlap, and each success of it is counted exactly once. */
  lemma OneRecoveryInFlight(steps: seq<Step>, a: Rid, b: Rid)
    requires RunFrom(INITIAL, steps).Some?
    ensures var c := RunFrom(INITIAL, steps).value;
            && (UnderWay(c, a) && UnderWay(c, b) ==> a == b && c.recovery == Some(a))
            && c.successes == |Succeeded(c)|
  {
    RunKeepsInv(steps);
  }

  /** A recovery that outlived its generation changes neither the count nor a newer recovery. */
  lemma StaleRecoveryIsInert(steps: seq<Step>, step: Step)
    requires RunFrom(INITIAL, steps).Some? && Possible(RunFrom(INITIAL, steps).value, step)
    requires step.HandlerAnswers? || step.HandlerFinally?
    requires RunFrom(INITIAL, steps).value.attempts[step.id].generation != RunFrom(INITIAL, steps).value.generation
    ensures var c := RunFrom(INITIAL, steps).value; var d := Next(c, step);
            d.successes == c.successes && d.recovery == c.recovery && d.requests == c.requests
  {
    RunKeepsInv(steps);
  }

  lemma {:induction false} RunMovesOn(steps: seq<Step>, n: nat)
    requires RunFrom(INITIAL, steps).Some? && n <= |steps|
    ensures RunFrom(INITIAL, steps[..n]).Some?
    ensures MovedOn(RunFrom(INITIAL, steps[..n]).value, RunFrom(INITIAL, steps).value)
  {
    if n == |steps| { assert steps[..n] == steps; } else {
      var before := steps[..|steps| - 1];
      assert before[..n] == steps[..n];
      RunMovesOn(before, n);
      StepMovesOn(RunFrom(INITIAL, before).value, steps[|steps| - 1]);
    }
  }

  /** A request stamped before a recovery succeeded never causes another one in that generation. */
  lemma NoSecondRecovery(steps: seq<Step>, n: nat, q: Qid, response: Response)
    requires RunFrom(INITIAL, steps).Some? && n <= |steps| && RunFrom(INITIAL, steps[..n]).Some?
    requires var c, d := RunFrom(INITIAL, steps[..n]).value, RunFrom(INITIAL, steps).value;
             && q in c.requests && c.requests[q].stamp.Some?
             && c.successes < d.successes && c.generation == d.generation
             && Possible(d, Receive(q, response))
    ensures var d := RunFrom(INITIAL, steps).value; Next(d, Receive(q, response)).attempts == d.attempts
  {
    RunKeepsInv(steps[..n]);
    assert RequestOk(RunFrom(INITIAL, steps[..n]).value, q);
    RunMovesOn(steps, n);
  }

  /** Once the session has changed, a request stamped before is neither delivered nor sent again. */
  lemma {:induction false} StaleRequestsDie(steps: seq<Step>, n: nat, q: Qid)
    requires RunFrom(INITIAL, steps).Some? && n <= |steps| && RunFrom(INITIAL, steps[..n]).Some?
    requires var c := RunFrom(INITIAL, steps[..n]).value;
             && q in c.requests && c.requests[q].stamp.Some? && !c.requests[q].phase.Delivered?
             && c.requests[q].stamp.value.generation != c.generation
    ensures var c, d := RunFrom(INITIAL, steps[..n]).value, RunFrom(INITIAL, steps).value;
            q in d.requests && !d.requests[q].phase.Delivered? && d.requests[q].sent == c.requests[q].sent
  {
    if n == |steps| { assert steps[..n] == steps; } else {
      var before := steps[..|steps| - 1];
      assert before[..n] == steps[..n];
      StaleRequestsDie(before, n, q);
      RunMovesOn(before, n);
      RunKeepsInv(steps[..n]);
      assert RequestOk(RunFrom(INITIAL, steps[..n]).value, q);
      StaleStep(RunFrom(INITIAL, before).value, steps[|steps| - 1], q);
    }
  }

  lemma StaleStep(c: Client, step: Step, q: Qid)
    requires Possible(c, step) && q in c.requests && c.requests[q].stamp.Some? && !Current(c, q)
    ensures var d := Next(c, step);
            && d.requests[q].sent == c.requests[q].sent
            && (d.requests[q].phase.Delivered? ==> c.requests[q].phase.Delivered?)
  {
  }

  /** Each logical request goes out at most three times: itself, one session retry, one transient retry. */
  lemma SentAtMostThrice(steps: seq<Step>, q: Qid)
    requires RunFrom(INITIAL, steps).Some? && q in RunFrom(INITIAL, steps).value.requests
    ensures var r := RunFrom(INITIAL, steps).value.requests[q];
            r.sent <= 3 && (!r.authRetried ==> r.sent <= 2) && (!r.authRetried && !r.transientRetried ==> r.sent <= 1)
  {
    RunKeepsInv(steps);
    assert RequestOk(RunFrom(INITIAL, steps).value, q);
  }

  // ----- the module's variables -----

  class RequestLayer {
    var generation: nat
    var recovery: Option<Rid>
    var successfulRecoveries: nat
    var attempts: map<Rid, Attempt>
    var nextAttempt: Rid
    var requests: map<Qid, Request>

    function Contents(): Client
      reads this
    {
      Client(generation, recovery, successfulRecoveries, attempts, nextAttempt, requests)
    }

    constructor ()
      ensures Contents() == INITIAL
    {
      generation, recovery, successfulRecoveries := 0, None, 0;
      attempts, nextAttempt, requests := map[], 0, map[];
    }

    method InvalidatePendingRequests()
      modifies this
      ensures Contents() == Next(old(Contents()), InvalidateAll)
    {
      generation := generation + 1;
      recovery := None;
      successfulRecoveries := 0;
    }

    method InterceptRequest(q: Qid)
      requires Possible(Contents(), Enter(q))
      modifies this
      ensures Contents() == Next(old(Contents()), Enter(q))
    {
      var tracked := requests[q];
      if tracked.stamp.None? { tracked := tracked.(stamp := Some(Stamp(generation, successfulRecoveries))); }
      if recovery.Some? && !tracked.sessionCall {
        tracked := tracked.(phase := AwaitingGate(recovery.value));
      } else {
        tracked := tracked.(phase := AtGate);
      }
      requests := requests[q := tracked];
    }

    /** The part of `recoverSession` before its await: start, join, or find it already done. */
    method RecoverSession(expected: Stamp) returns (wait: Phase)
      modifies this`recovery, this`attempts, this`nextAttempt
      ensures old(recovery).Some? || expected.recoveries != successfulRecoveries ==>
                && unchanged(this)
                && wait == if recovery.Some? then AwaitingRecovery(recovery.value) else AlreadyRecovered
      ensures old(recovery).None? && expected.recoveries == successfulRecoveries ==>
                && wait == AwaitingRecovery(old(nextAttempt))
                && recovery == Some(old(nextAttempt)) && nextAttempt == old(nextAttempt) + 1
                && attempts == old(attempts)[old(nextAttempt) := Attempt(generation, Running)]
    {
      if recovery.None? && expected.recoveries == successfulRecoveries {
        attempts := attempts[nextAttempt := Attempt(generation, Running)];
        recovery := Some(nextAttempt);
        nextAttempt := nextAttempt + 1;
      }
      return if recovery.Some? then AwaitingRecovery(recovery.value) else AlreadyRecovered;
    }

    method InterceptResponse(q: Qid, response: Response)
      requires Possible(Contents(), Receive(q, response)) && requests[q].stamp.Some?
      modifies this
      ensures Contents() == Next(old(Contents()), Receive(q, response))
    {
      var r := requests[q];
      var phase := Rejected;
      if r.stamp.value.generation == generation {
        if response.Success? {
          phase := Delivered;
        } else if response.Expired? && !r.sessionCall && !r.authRetried {
          phase := RecoverSession(r.stamp.value);
        } else if response.Transient? && r.idempotent && !r.transientRetried {
          phase := AwaitingRetry;
        }
      }
      requests := requests[q := r.(phase := phase)];
    }

    /** The rest of the request interceptor, once the recovery it waited for is over. */
    method SendRequest(q: Qid)
      requires Possible(Contents(), Pass(q))
      modifies this`requests
      ensures Contents() == Next(old(Contents()), Pass(q))
    {
      var r := requests[q];
      if r.stamp.None? || r.stamp.value.generation != generation {
        requests := requests[q := r.(phase := Rejected)];
      } else {
        requests := requests[q := r.(phase := InFlight, sent := r.sent + 1)];
      }
    }

    /** `rejectRequest` after its wait for a recovery: `authenticated` is what the wait brought. */
    method RetryAuthenticated(q: Qid)
      requires Possible(Contents(), RecoveryAwaited(q))
      modifies this`requests
      ensures Contents() == Next(old(Contents()), RecoveryAwaited(q))
    {
      var r := requests[q];
      var authenticated := r.phase.AlreadyRecovered? || attempts[r.phase.recovery].phase.outcome.Recovered?;
      if authenticated && r.stamp.Some? && r.stamp.value.generation == generation {
        requests := requests[q := r.(authRetried := true, phase := Starting)];
      } else {
        requests := requests[q := r.(phase := Rejected)];
      }
    }

    method RetryTransient(q: Qid)
      requires Possible(Contents(), PauseOver(q))
      modifies this`requests
      ensures Contents() == Next(old(Contents()), PauseOver(q))
    {
      var r := requests[q];
      if r.stamp.Some? && r.stamp.value.generation == generation {
        requests := requests[q := r.(transientRetried := true, phase := Starting)];
      } else {
        requests := requests[q := r.(phase := Rejected)];
      }
    }

    method HandlerAnswered(id: Rid, outcome: Outcome)
      requires Possible(Contents(), HandlerAnswers(id, outcome))
      modifies this
      ensures Contents() == Next(old(Contents()), HandlerAnswers(id, outcome))
    {
      var seen := outcome;
      if !outcome.Failed? {
        if generation != attempts[id].generation { seen := Denied; }
        else if outcome.Recovered? { successfulRecoveries := successfulRecoveries + 1; }
      }
      attempts := attempts[id := attempts[id].(phase := Answered(seen))];
    }

    method HandlerEnded(id: Rid)
      requires Possible(Contents(), HandlerFinally(id))
      modifies this
      ensures Contents() == Next(old(Contents()), HandlerFinally(id))
    {
      if recovery == Some(id) { recovery := None; }
      attempts := attempts[id := attempts[id].(phase := Finished(attempts[id].phase.outcome))];
    }
  }
}
