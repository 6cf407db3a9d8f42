/**
 * Renewal of a request lease.  The loop keeps a local expiry that must never promise more than the
 * server's; it renews every third of the lease, retries after errors, and cancels the request when
 * the lease can no longer be trusted, unless the request's own deadline has passed already.
 * Times are milliseconds on one clock, timers are exact, and no time passes between two adjacent
 * statements of the loop.  A renewal may be processed by the server long after its caller gave up.
 */
module Lease {
  import opened Wrappers

  const TTL: nat := 600_000
  const RETRY: nat := 1_000

  type Time = int

  datatype Failure = Lost | RenewalTimedOut | Expired

  datatype Reason = Requested | LeaseFailed(failure: Failure)

  /** Time left before the explicit deadline, at most a full lease. */
  function Bounded(deadline: Option<Time>, now: Time): nat {
    if deadline.None? || deadline.value >= now + TTL then TTL
    else if deadline.value <= now then 0
    else deadline.value - now
  }

  predicate Elapsed(deadline: Option<Time>, now: Time) {
    deadline.Some? && deadline.value <= now
  }

  /** The expiry that a renewal started at `t` earns. */
  function Until(deadline: Option<Time>, t: Time): Time {
    t + Bounded(deadline, t)
  }

  lemma UntilIsMonotone(deadline: Option<Time>, a: Time, b: Time)
    requires a <= b
    ensures Until(deadline, a) <= Until(deadline, b) <= b + Bounded(deadline, a)
    ensures !Elapsed(deadline, a) && deadline.Some? ==> Until(deadline, a) <= deadline.value
  {
  }

  /** And it earns as much as it may: a full lease, or what is left before the deadline. */
  lemma UntilIsGreatest(deadline: Option<Time>, t: Time, x: Time)
    ensures !Elapsed(deadline, t) ==>
              (x <= Until(deadline, t) <==> x <= t + TTL && (deadline.Some? ==> x <= deadline.value))
    ensures Elapsed(deadline, t) ==> Until(deadline, t) == t
  {
  }

  // ----- interleavings -----

  /** A renewal request on its way to the server. */
  datatype Renewal = Renewal(start: Time, ttl: nat)

  datatype Phase =
    | Top
    | Renewing(renewal: Renewal, reply: Option<bool>)
    | Sleeping(wake: Time)
    | Done
    | Aborted

  /** `anchor`: when the renewal (or spawn) began that `expires` rests on.  `confirmed`: some renewal has succeeded. */
  datatype World = World(spawned: Time, now: Time, deadline: Option<Time>, expires: Time, anchor: Time,
                         confirmed: bool, phase: Phase, server: Time, onTheWay: set<Renewal>,
                         token: Option<Reason>, cancelledAt: Option<Time>)

  datatype Step =
    | Tick(delta: nat)
    | BeginRenewal
    | ServerProcesses(renewal: Renewal)
    | RenewalReturns
    | RenewalFails
    | RenewalTimesOut
    | SleepEnds
    | ExpiryFires
    | SeeCancelled
    | Cancel
    | Abort

  predicate Possible(w: World, step: Step) {
    match step
    case Tick(d) =>
      && !w.phase.Top?
      && (w.phase.Renewing? || w.phase.Sleeping? ==> w.now + d <= w.expires)
      && (w.phase.Sleeping? ==> w.now + d <= w.phase.wake)
    case BeginRenewal => w.phase.Top?
    case ServerProcesses(r) => r in w.onTheWay
    case RenewalReturns => w.phase.Renewing? && w.phase.reply.Some? && w.token.None?
    case RenewalFails => w.phase.Renewing? && w.token.None?
    case RenewalTimesOut => w.phase.Renewing? && w.token.None? && w.now >= w.expires
    case SleepEnds => w.phase.Sleeping? && w.token.None? && w.now >= w.phase.wake && w.now < w.expires
    case ExpiryFires => w.phase.Sleeping? && w.token.None? && w.now >= w.expires
    case SeeCancelled => w.token.Some? && (w.phase.Renewing? || w.phase.Sleeping?)
    case Cancel => true
    case Abort => !w.phase.Done?
  }

  /** `cancel_with_reason`: the first reason stays. */
  function SetReason(token: Option<Reason>, reason: Reason): Option<Reason> {
    if token.Some? then token else Some(reason)
  }

  /** After the loop: cancel, unless the deadline has passed and the core reports a timeout itself. */
  function End(w: World, failure: Failure): World {
    if Elapsed(w.deadline, w.now) then w.(phase := Done)
    else w.(phase := Done, token := SetReason(w.token, LeaseFailed(failure)), cancelledAt := Some(w.now))
  }

  function Next(w: World, step: Step): World
    requires Possible(w, step)
  {
    match step
    case Tick(d) => w.(now := w.now + d)
    case BeginRenewal =>
      var ttl := Bounded(w.deadline, w.now);
      if ttl == 0 then End(w, Expired) else
        var r := Renewal(w.now, ttl);
        w.(phase := Renewing(r, None), onTheWay := w.onTheWay + {r})
    case ServerProcesses(r) =>
      var live := w.server > w.now;
      w.(onTheWay := w.onTheWay - {r},
         server := if live then w.now + r.ttl else w.server,
         phase := if w.phase.Renewing? && w.phase.renewal == r then Renewing(r, Some(live)) else w.phase)
    case RenewalReturns =>
      if !w.phase.reply.value then End(w, Lost)
      else w.(expires := w.phase.renewal.start + w.phase.renewal.ttl, anchor := w.phase.renewal.start,
              confirmed := true, phase := Sleeping(w.now + TTL / 3))
    case RenewalFails => w.(phase := Sleeping(w.now + RETRY))
    case RenewalTimesOut => End(w, RenewalTimedOut)
    case SleepEnds => w.(phase := Top)
    case ExpiryFires => End(w, Expired)
    case SeeCancelled => w.(phase := Done)
    case Cancel => w.(token := SetReason(w.token, Requested))
    case Abort => w.(phase := Aborted)
  }

  /** Just spawned; the server's expiry is whatever the grant made it. */
  predicate Spawned(w: World) {
    && w.phase == Top && !w.confirmed && w.anchor == w.spawned == w.now && w.expires == Until(w.deadline, w.now)
    && w.onTheWay == {} && w.token.None? && w.cancelledAt.None?
  }

  function RunFrom(w: World, steps: seq<Step>): Option<World> {
    if steps == [] then Some(w) else
      var before := RunFrom(w, steps[..|steps| - 1]);
      var step := steps[|steps| - 1];
      if before.Some? && Possible(before.value, step) then Some(Next(before.value, step)) else None
  }

  // ----- invariant -----

  ghost predicate RenewalOk(w: World, r: Renewal) {
    w.anchor <= r.start <= w.now && r.ttl == Bounded(w.deadline, r.start) && !Elapsed(w.deadline, r.start)
  }

  ghost predicate Inv(w: World) {
    && w.anchor <= w.now
    && w.expires == Until(w.deadline, w.anchor)
    && (w.anchor == w.spawned || !Elapsed(w.deadline, w.anchor))
    && (w.confirmed ==> w.expires <= w.server)
    && (!w.phase.Done? && !w.phase.Aborted? ==> w.now <= w.expires)
    && (w.phase.Top? ==> w.now < w.expires || Elapsed(w.deadline, w.now))
    && (forall r | r in w.onTheWay :: r.start <= w.now && r.ttl == Bounded(w.deadline, r.start))
    && (w.phase.Renewing? ==> RenewalOk(w, w.phase.renewal)
                              && (w.phase.reply == Some(true) ==> Until(w.deadline, w.phase.renewal.start) <= w.server))
    && (w.phase.Done? ==> w.token.Some? || Elapsed(w.deadline, w.now))
    && (w.cancelledAt.Some? ==> !Elapsed(w.deadline, w.cancelledAt.value))
  }

  /** What a step leaves alone: clock and local expiry never fall, and the first reason stays. */
  predicate Onward(w: World, v: World) {
    && w.expires <= v.expires && w.deadline == v.deadline && w.spawned == v.spawned && w.now <= v.now
    && (w.token.Some? ==> v.token == w.token)
  }

  lemma StepKeepsInv(w: World, step: Step)
    requires Inv(w) && Possible(w, step)
    ensures Inv(Next(w, step)) && Onward(w, Next(w, step))
  {
    if step.ServerProcesses? { ProcessingKeepsInv(w, step.renewal); }
    else if step.RenewalReturns? { ReturnKeepsInv(w); }
    else if step.BeginRenewal? { BeginningKeepsInv(w); }
    else { OtherStepsKeepInv(w, step); }
  }

  lemma ProcessingKeepsInv(w: World, r: Renewal)
    requires Inv(w) && r in w.onTheWay
    ensures Inv(Next(w, ServerProcesses(r))) && Onward(w, Next(w, ServerProcesses(r)))
  {
    UntilIsMonotone(w.deadline, r.start, w.now);
    UntilIsMonotone(w.deadline, w.anchor, w.now);
    if w.phase.Renewing? { UntilIsMonotone(w.deadline, w.phase.renewal.start, w.now); }
  }

  lemma ReturnKeepsInv(w: World)
    requires Inv(w) && Possible(w, RenewalReturns)
    ensures Inv(Next(w, RenewalReturns)) && Onward(w, Next(w, RenewalReturns))
  {
  }

  lemma BeginningKeepsInv(w: World)
    requires Inv(w) && w.phase.Top?
    ensures Inv(Next(w, BeginRenewal)) && Onward(w, Next(w, BeginRenewal))
  {
  }

  lemma OtherStepsKeepInv(w: World, step: Step)
    requires Inv(w) && Possible(w, step) && !step.ServerProcesses? && !step.RenewalReturns? && !step.BeginRenewal?
    ensures Inv(Next(w, step)) && Onward(w, Next(w, step))
  {
  }

  lemma {:induction false} RunKeepsInv(w: World, steps: seq<Step>)
    requires Inv(w) && RunFrom(w, steps).Some?
    ensures Inv(RunFrom(w, steps).value) && Onward(w, RunFrom(w, steps).value)
  {
    if steps != [] {
      RunKeepsInv(w, steps[..|steps| - 1]);
      StepKeepsInv(RunFrom(w, steps[..|steps| - 1]).value, steps[|steps| - 1]);
    }
  }

  // ----- results over every run -----

  /** The step that ends the loop at its local expiry comes next, before any time passes. */
  predicate Expiring(w: World) {
    Possible(w, RenewalTimesOut) || Possible(w, ExpiryFires)
  }

  /** A request that still runs, short of its deadline, has a live lease or is being stopped at this instant. */
  predicate Guarded(w: World) {
    !w.phase.Aborted? && !Elapsed(w.deadline, w.now) && w.token.None? ==> w.now < w.server || Expiring(w)
  }

  lemma ConfirmedIsGuarded(w: World)
    requires Inv(w) && w.confirmed
    ensures Guarded(w)
    ensures !w.phase.Aborted? && !Elapsed(w.deadline, w.now) && w.token.None? ==> w.now <= w.expires <= w.server
  {
  }

  /** While the expiry step is due, time stands still. */
  lemma ExpiringStopsTime(w: World, delta: nat)
    requires Inv(w) && Expiring(w) && delta > 0
    ensures !Possible(w, Tick(delta))
  {
  }

  /**
   * Once a renewal has succeeded, the request runs under a live lease until its own deadline, or
   * has been cancelled: as long as its guard is held, time never gets past the server's expiry
   * unnoticed, and at that very instant the loop's own expiry is due, before time goes on.
   */
  lemma LeaseSafety(start: World, steps: seq<Step>)
    requires Spawned(start) && RunFrom(start, steps).Some?
    ensures var w := RunFrom(start, steps).value;
            && (w.confirmed ==> Guarded(w))
            && (w.confirmed && !w.phase.Aborted? && !Elapsed(w.deadline, w.now) && w.token.None? ==>
                  w.now <= w.expires <= w.server)
            && (Expiring(w) ==> forall delta: nat | delta > 0 :: !Possible(w, Tick(delta)))
  {
    RunKeepsInv(start, steps);
    var w := RunFrom(start, steps).value;
    if w.confirmed { ConfirmedIsGuarded(w); }
    if Expiring(w) {
      forall delta: nat | delta > 0 ensures !Possible(w, Tick(delta)) { ExpiringStopsTime(w, delta); }
    }
  }

  /** The same from the start when the grant reached at least as far as the loop assumes. */
  lemma LeaseSafetyFromGrant(start: World, steps: seq<Step>)
    requires Spawned(start) && start.expires <= start.server && RunFrom(start, steps).Some?
    ensures var w := RunFrom(start, steps).value;
            && Guarded(w)
            && (!w.phase.Aborted? && !Elapsed(w.deadline, w.now) && w.token.None? ==> w.now <= w.expires <= w.server)
  {
    GrantCounts(start, steps);
    RunKeepsInv(start.(confirmed := true), steps);
    ConfirmedIsGuarded(RunFrom(start, steps).value.(confirmed := true));
  }

  ghost predicate AlwaysGuarded(start: World) {
    forall steps | RunFrom(start, steps).Some? :: Guarded(RunFrom(start, steps).value)
  }

  /** And only then: every run is guarded exactly when the grant reaches that far or the deadline is over already. */
  lemma GrantDecidesSafety(start: World)
    requires Spawned(start)
    ensures AlwaysGuarded(start) <==>
            Until(start.deadline, start.spawned) <= start.server || Elapsed(start.deadline, start.spawned)
  {
    if Until(start.deadline, start.spawned) <= start.server {
      forall steps | RunFrom(start, steps).Some? ensures Guarded(RunFrom(start, steps).value) {
        LeaseSafetyFromGrant(start, steps);
      }
    } else if Elapsed(start.deadline, start.spawned) {
      forall steps | RunFrom(start, steps).Some? ensures Guarded(RunFrom(start, steps).value) {
        RunKeepsInv(start, steps);
      }
    } else {
      var steps := ShortGrant(start);
      assert !Guarded(RunFrom(start, steps).value);
    }
  }

  /** A grant that ends sooner than assumed runs out during the first renewal. */
  lemma ShortGrant(start: World) returns (steps: seq<Step>)
    requires Spawned(start) && start.server < start.expires && !Elapsed(start.deadline, start.now)
    ensures RunFrom(start, steps).Some? && !Guarded(RunFrom(start, steps).value)
  {
    steps := [];
    if start.server > start.now {
      var pause := Tick(start.server - start.now);
      steps := [BeginRenewal, pause];
      assert steps[..1] == [BeginRenewal] && [BeginRenewal][..0] == [];
      assert RunFrom(start, [BeginRenewal]) == Some(Next(start, BeginRenewal));
      assert RunFrom(start, steps) == Some(Next(Next(start, BeginRenewal), pause));
    }
  }

  /** Treating the grant as the first confirmation changes nothing else about a run. */
  lemma {:induction false} GrantCounts(start: World, steps: seq<Step>)
    requires RunFrom(start, steps).Some?
    ensures RunFrom(start.(confirmed := true), steps) == Some(RunFrom(start, steps).value.(confirmed := true))
  {
    if steps != [] {
      GrantCounts(start, steps[..|steps| - 1]);
      ConfirmationIsPassive(RunFrom(start, steps[..|steps| - 1]).value, steps[|steps| - 1]);
    }
  }

  lemma ConfirmationIsPassive(w: World, step: Step)
    requires Possible(w, step)
    ensures Possible(w.(confirmed := true), step)
    ensures Next(w.(confirmed := true), step) == Next(w, step).(confirmed := true)
  {
  }

  /** The local expiry only moves forward, and not past the explicit deadline of a running request. */
  lemma {:induction false} LocalExpiry(start: World, steps: seq<Step>, n: nat)
    requires Spawned(start) && RunFrom(start, steps).Some? && n <= |steps|
    ensures RunFrom(start, steps[..n]).Some?
    ensures RunFrom(start, steps[..n]).value.expires <= RunFrom(start, steps).value.expires
    ensures start.deadline.Some? && start.now <= start.deadline.value ==>
              RunFrom(start, steps).value.expires <= start.deadline.value
  {
    RunSplits(start, steps, n);
    RunKeepsInv(start, steps[..n]);
    RunKeepsInv(RunFrom(start, steps[..n]).value, steps[n..]);
    RunKeepsInv(start, steps);
    if start.deadline.Some? && start.now <= start.deadline.value { DeadlineHolds(RunFrom(start, steps).value); }
  }

  lemma DeadlineHolds(w: World)
    requires Inv(w) && w.deadline.Some? && w.spawned <= w.deadline.value
    ensures w.expires <= w.deadline.value
  {
  }

  lemma {:induction false} RunSplits(w: World, steps: seq<Step>, n: nat)
    requires n <= |steps| && RunFrom(w, steps).Some?
    ensures RunFrom(w, steps[..n]).Some? && RunFrom(RunFrom(w, steps[..n]).value, steps[n..]) == RunFrom(w, steps)
  {
    if n == |steps| { assert steps[..n] == steps; } else {
      var before := steps[..|steps| - 1];
      assert before[..n] == steps[..n] && steps[n..][..|steps| - n - 1] == before[n..];
      RunSplits(w, before, n);
    }
  }

  /** No lease failure is ever reported once the deadline has passed, and the first reason is final. */
  lemma CancellationIsTimely(start: World, steps: seq<Step>, n: nat)
    requires Spawned(start) && RunFrom(start, steps).Some? && n <= |steps|
    ensures RunFrom(start, steps[..n]).Some?
    ensures var w := RunFrom(start, steps).value; var earlier := RunFrom(start, steps[..n]).value;
            && (w.cancelledAt.Some? ==> !Elapsed(start.deadline, w.cancelledAt.value))
            && (earlier.token.Some? ==> w.token == earlier.token)
  {
    RunSplits(start, steps, n);
    RunKeepsInv(start, steps);
    RunKeepsInv(start, steps[..n]);
    RunKeepsInv(RunFrom(start, steps[..n]).value, steps[n..]);
  }

  // ----- no request is cancelled without need -----

  /** Why the loop has cancelled: its lease was found dead, or a full lease has gone by without a renewal. */
  ghost predicate Caused(w: World) {
    && (w.phase.Renewing? && w.phase.reply == Some(false) ==> w.server <= w.now)
    && (w.cancelledAt.Some? ==>
          && w.phase != Top && !w.phase.Renewing? && !w.phase.Sleeping?
          && match w.token
             case Some(LeaseFailed(Lost)) => w.server <= w.cancelledAt.value <= w.now
             case Some(LeaseFailed(_)) => w.anchor + TTL == w.cancelledAt.value <= w.now
             case _ => false)
  }

  lemma StepKeepsCaused(w: World, step: Step)
    requires Inv(w) && Caused(w) && Possible(w, step)
    ensures Caused(Next(w, step))
  {
    if step.RenewalTimesOut? || step.ExpiryFires? { UntilIsGreatest(w.deadline, w.anchor, w.anchor + TTL); }
  }

  lemma {:induction false} RunKeepsCaused(start: World, steps: seq<Step>)
    requires Spawned(start) && RunFrom(start, steps).Some?
    ensures Caused(RunFrom(start, steps).value)
  {
    if steps != [] {
      RunKeepsCaused(start, steps[..|steps| - 1]);
      RunKeepsInv(start, steps[..|steps| - 1]);
      StepKeepsCaused(RunFrom(start, steps[..|steps| - 1]).value, steps[|steps| - 1]);
    }
  }

  /**
   * The loop cancels a request as lost only when the server's lease is over, and as expired or timed
   * out only a whole lease after the last successful renewal, or the spawn, began.
   */
  lemma {:induction false} CancelledForCause(start: World, steps: seq<Step>)
    requires Spawned(start) && RunFrom(start, steps).Some? && RunFrom(start, steps).value.cancelledAt.Some?
    ensures var w := RunFrom(start, steps).value;
            && w.token.Some? && w.token.value.LeaseFailed?
            && (w.token.value.failure.Lost? ==> w.server <= w.cancelledAt.value)
            && (!w.token.value.failure.Lost? ==> w.cancelledAt.value == w.anchor + TTL)
  {
    RunKeepsCaused(start, steps);
  }

  // ----- the loop -----

  datatype Reply = Replied | Failed | Silent

  /**
   * What happens to one renewal: it travels to the server, which acts on it if `served` or if it
   * replies, and the reply or the failure arrives `back` later.
   */
  datatype Round = Round(travel: nat, back: nat, served: bool, reply: Reply)

  datatype Outcome = Renewed | Retry | Over(failure: Failure)

  function Start(deadline: Option<Time>, spawned: Time, grant: Time): World {
    World(spawned, spawned, deadline, Until(deadline, spawned), spawned, false, Top, grant, {}, None, None)
  }

  /** The run has come to this point, and nobody has cancelled the request. */
  ghost predicate At(start: World, steps: seq<Step>, now: Time, expires: Time, server: Time, confirmed: bool,
                     phase: Phase)
  {
    && RunFrom(start, steps).Some?
    && var w := RunFrom(start, steps).value;
       && w.now == now && w.expires == expires && w.server == server && w.confirmed == confirmed && w.phase == phase
       && w.token.None? && w.cancelledAt.None?
  }

  /** The run has ended, and the request is cancelled for this failure unless its deadline has passed. */
  ghost predicate EndedAt(start: World, steps: seq<Step>, now: Time, expires: Time, server: Time, confirmed: bool,
                          failure: Failure)
  {
    && RunFrom(start, steps).Some?
    && var w := RunFrom(start, steps).value;
       && w.now == now && w.expires == expires && w.server == server && w.confirmed == confirmed && w.phase.Done?
       && w.token == (if Elapsed(start.deadline, now) then None else Some(LeaseFailed(failure)))
       && w.cancelledAt == if Elapsed(start.deadline, now) then None else Some(now)
  }

  lemma Append(start: World, steps: seq<Step>, step: Step) returns (longer: seq<Step>)
    requires Spawned(start) && RunFrom(start, steps).Some? && Possible(RunFrom(start, steps).value, step)
    ensures longer == steps + [step] && RunFrom(start, longer) == Some(Next(RunFrom(start, steps).value, step))
    ensures Inv(RunFrom(start, longer).value) && RunFrom(start, longer).value.deadline == start.deadline
  {
    longer := steps + [step];
    assert longer[..|steps|] == steps;
    RunKeepsInv(start, longer);
  }

  lemma Begin(start: World, steps: seq<Step>, now: Time, expires: Time, server: Time, confirmed: bool)
    returns (longer: seq<Step>)
    requires Spawned(start) && At(start, steps, now, expires, server, confirmed, Top)
    requires Bounded(start.deadline, now) > 0
    ensures var r := Renewal(now, Bounded(start.deadline, now));
            && steps <= longer && At(start, longer, now, expires, server, confirmed, Renewing(r, None))
            && r in RunFrom(start, longer).value.onTheWay
  {
    RunKeepsInv(start, steps);
    longer := Append(start, steps, BeginRenewal);
  }

  /** The server acts on the renewal that is waited for; `server` is what it knew until then. */
  lemma Serve(start: World, steps: seq<Step>, now: Time, expires: Time, server: Time, confirmed: bool, r: Renewal)
    returns (longer: seq<Step>)
    requires Spawned(start) && At(start, steps, now, expires, server, confirmed, Renewing(r, None))
    requires r in RunFrom(start, steps).value.onTheWay
    ensures steps <= longer
    ensures At(start, longer, now, expires, if server > now then now + r.ttl else server, confirmed,
               Renewing(r, Some(server > now)))
  {
    longer := Append(start, steps, ServerProcesses(r));
  }

  /** The call of a renewal and what the server makes of it, if it arrives in time. */
  method Call(round: Round, ttl: nat, now: Time, expires: Time, server: Time, ghost confirmed: bool,
              ghost start: World, ghost steps: seq<Step>)
    returns (later: Time, granted: Time, live: Option<bool>, ghost longer: seq<Step>)
    requires Spawned(start) && ttl == Bounded(start.deadline, now) && ttl > 0
    requires At(start, steps, now, expires, server, confirmed, Top)
    ensures steps <= longer
    ensures At(start, longer, later, expires, granted, confirmed, Renewing(Renewal(now, ttl), live))
    ensures live.None? ==> later == now
    ensures live.Some? ==> later == now + round.travel <= expires && (live.value <==> server > later)
    ensures granted == if live == Some(true) then later + ttl else server
    ensures live.Some? <==> (round.served || round.reply.Replied?) && now + round.travel <= expires
  {
    longer := Begin(start, steps, now, expires, server, confirmed);
    later, granted, live := now, server, None;
    if (round.served || round.reply.Replied?) && now + round.travel <= expires {
      ghost var r := Renewal(now, ttl);
      longer := Wait(start, longer, round.travel, now, expires, server, confirmed, Renewing(r, None));
      later := now + round.travel;
      live := Some(granted > later);
      if granted > later { granted := later + ttl; }
      longer := Serve(start, longer, later, expires, server, confirmed, r);
    }
  }

  lemma Wait(start: World, steps: seq<Step>, delta: nat, now: Time, expires: Time, server: Time, confirmed: bool,
             phase: Phase)
    returns (longer: seq<Step>)
    requires Spawned(start) && At(start, steps, now, expires, server, confirmed, phase)
    requires phase.Renewing? && now + delta <= expires
    ensures steps <= longer && At(start, longer, now + delta, expires, server, confirmed, phase)
    ensures RunFrom(start, longer).value.onTheWay == RunFrom(start, steps).value.onTheWay
  {
    longer := Append(start, steps, Tick(delta));
  }

  /** The reply, a failure or the timeout takes the loop on. */
  lemma Conclude(start: World, steps: seq<Step>, step: Step, now: Time, expires: Time, server: Time, confirmed: bool,
                 r: Renewal, reply: Option<bool>)
    returns (longer: seq<Step>)
    requires Spawned(start) && At(start, steps, now, expires, server, confirmed, Renewing(r, reply))
    requires match step
             case RenewalTimesOut => now == expires
             case RenewalReturns => reply.Some?
             case RenewalFails => true
             case _ => false
    ensures steps <= longer
    ensures match step
            case RenewalTimesOut => EndedAt(start, longer, now, expires, server, confirmed, RenewalTimedOut)
            case RenewalReturns =>
              if reply.value then At(start, longer, now, r.start + r.ttl, server, true, Sleeping(now + TTL / 3))
              else EndedAt(start, longer, now, expires, server, confirmed, Lost)
            case _ => At(start, longer, now, expires, server, confirmed, Sleeping(now + RETRY))
  {
    RunKeepsInv(start, steps);
    longer := Append(start, steps, step);
  }

  /** One renewal, from its call to its outcome or to the local expiry. */
  method Renew(round: Round, ttl: nat, now: Time, expires: Time, server: Time, ghost confirmed: bool,
               ghost start: World, ghost steps: seq<Step>)
    returns (outcome: Outcome, later: Time, granted: Time, ghost longer: seq<Step>)
    requires Spawned(start) && ttl == Bounded(start.deadline, now) && ttl > 0
    requires At(start, steps, now, expires, server, confirmed, Top)
    ensures steps <= longer && now <= later <= expires
    ensures outcome.Renewed? ==> At(start, longer, later, now + ttl, granted, true, Sleeping(later + TTL / 3))
    ensures outcome.Retry? ==> At(start, longer, later, expires, granted, confirmed, Sleeping(later + RETRY))
    ensures outcome.Over? ==> EndedAt(start, longer, later, expires, granted, confirmed, outcome.failure)
    ensures outcome.Over? ==> if outcome.failure.Lost? then round.reply.Replied? && granted <= later
                              else outcome.failure.RenewalTimedOut? && later == expires
    ensures round.reply.Replied? && now + round.travel + round.back <= expires ==>
              && later == now + round.travel + round.back
              && if server > now + round.travel then outcome.Renewed? else outcome == Over(Lost)
    ensures round.reply.Replied? && now + round.travel + round.back > expires ==> outcome == Over(RenewalTimedOut)
    ensures round.reply.Failed? && now + round.travel + round.back <= expires ==>
              outcome == Retry && later == now + round.travel + round.back
  {
    RunKeepsInv(start, steps);
    var live;
    later, granted, live, longer := Call(round, ttl, now, expires, server, confirmed, start, steps);
    var arrival := now + round.travel + round.back;
    ghost var r := Renewal(now, ttl);
    if round.reply.Silent? || arrival > expires {
      longer := Wait(start, longer, expires - later, later, expires, granted, confirmed, Renewing(r, live));
      longer := Conclude(start, longer, RenewalTimesOut, expires, expires, granted, confirmed, r, live);
      return Over(RenewalTimedOut), expires, granted, longer;
    }
    longer := Wait(start, longer, arrival - later, later, expires, granted, confirmed, Renewing(r, live));
    later := arrival;
    if round.reply.Failed? {
      longer := Conclude(start, longer, RenewalFails, later, expires, granted, confirmed, r, live);
      return Retry, later, granted, longer;
    }
    longer := Conclude(start, longer, RenewalReturns, later, expires, granted, confirmed, r, live);
    outcome := if live.value then Renewed else Over(Lost);
  }

  /** The pause after a renewal, cut short by the local expiry. */
  method Pause(delay: nat, now: Time, expires: Time, ghost server: Time, ghost confirmed: bool,
               ghost start: World, ghost steps: seq<Step>)
    returns (over: bool, later: Time, ghost longer: seq<Step>)
    requires Spawned(start) && At(start, steps, now, expires, server, confirmed, Sleeping(now + delay))
    ensures steps <= longer && now <= later
    ensures over <==> now + delay >= expires
    ensures !over ==> later == now + delay
    ensures over ==> later == expires && EndedAt(start, longer, later, expires, server, confirmed, Expired)
    ensures !over ==> At(start, longer, later, expires, server, confirmed, Top)
  {
    RunKeepsInv(start, steps);
    over := now + delay >= expires;
    later := if over then expires else now + delay;
    longer := Append(start, steps, Tick(later - now));
    longer := Append(start, longer, if over then ExpiryFires else SleepEnds);
  }

  /** The server replies, in less than a third of a lease. */
  predicate Prompt(round: Round) {
    round.reply.Replied? && round.travel + round.back < TTL / 3
  }

  /** The server's lease covers the local expiry, which is the deadline or more than a third of a lease away. */
  predicate Steady(deadline: Option<Time>, now: Time, expires: Time, server: Time) {
    expires <= server && (Elapsed(deadline, now) || deadline == Some(expires) || expires - now > TTL / 3)
  }

  /** After a renewal that began at `start`, with the pause before the next one still to come. */
  lemma SteadyAgain(deadline: Option<Time>, start: Time, now: Time, server: Time)
    requires start <= now < start + TTL / 3 && !Elapsed(deadline, start) && Until(deadline, start) <= server
    ensures if now + TTL / 3 >= Until(deadline, start) then Elapsed(deadline, Until(deadline, start))
            else Steady(deadline, now + TTL / 3, Until(deadline, start), server)
  {
  }

  /** What a point inside the loop knows of its expiry. */
  lemma Facts(start: World, steps: seq<Step>, now: Time, expires: Time, server: Time, confirmed: bool, phase: Phase)
    requires Spawned(start) && At(start, steps, now, expires, server, confirmed, phase)
    requires !phase.Done? && !phase.Aborted?
    ensures now <= expires <= Until(start.deadline, now) && (confirmed ==> expires <= server)
  {
    RunKeepsInv(start, steps);
    UntilIsMonotone(start.deadline, RunFrom(start, steps).value.anchor, now);
  }

  lemma EndFacts(start: World, steps: seq<Step>, now: Time, expires: Time, server: Time, confirmed: bool,
                 failure: Failure)
    requires Spawned(start) && EndedAt(start, steps, now, expires, server, confirmed, failure)
    ensures confirmed ==> expires <= server
  {
    RunKeepsInv(start, steps);
  }

  /** Once around the loop: a renewal and the pause after it, unless one of them ends the loop. */
  method Around(round: Round, deadline: Option<Time>, now: Time, expires: Time, server: Time, confirmed: bool,
                ghost start: World, ghost steps: seq<Step>)
    returns (failure: Option<Failure>, later: Time, until: Time, granted: Time, sure: bool, ghost longer: seq<Step>)
    requires Spawned(start) && deadline == start.deadline && Bounded(deadline, now) > 0
    requires At(start, steps, now, expires, server, confirmed, Top)
    ensures steps <= longer && now <= later <= until && expires <= until
    ensures failure.None? ==> At(start, longer, later, until, granted, sure, Top)
    ensures failure.Some? ==> EndedAt(start, longer, later, until, granted, sure, failure.value)
    ensures (sure ==> until <= granted) && (!sure ==> !confirmed && until == expires)
    ensures failure == Some(Lost) ==> granted <= later && round.reply.Replied?
    ensures failure == Some(RenewalTimedOut) || failure == Some(Expired) ==> later == until
    ensures round.reply.Failed? && now + round.travel + round.back + RETRY < expires ==>
              failure.None? && later == now + round.travel + round.back + RETRY && until == expires
    ensures Prompt(round) && Steady(deadline, now, expires, server) ==>
              if failure.Some? then Elapsed(deadline, later) else Steady(deadline, later, until, granted)
  {
    Facts(start, steps, now, expires, server, confirmed, Top);
    var ttl := Bounded(deadline, now);
    var renewedUntil := now + ttl;
    var outcome;
    outcome, later, granted, longer := Renew(round, ttl, now, expires, server, confirmed, start, steps);
    until, sure := expires, confirmed;
    if outcome.Over? {
      EndFacts(start, longer, later, until, granted, sure, outcome.failure);
      return Some(outcome.failure), later, until, granted, sure, longer;
    }
    if outcome.Renewed? { until, sure := renewedUntil, true; }
    var over;
    var delay := if outcome.Renewed? then TTL / 3 else RETRY;
    Facts(start, longer, later, until, granted, sure, Sleeping(later + delay));
    if Prompt(round) && Steady(deadline, now, expires, server) { SteadyAgain(deadline, now, later, granted); }
    over, later, longer := Pause(delay, later, until, granted, sure, start, longer);
    failure := if over then Some(Expired) else None;
  }

  /**
   * The body of `LeaseRenewal::spawn` against a script of renewals, for a request nobody else
   * cancels and a lease granted up to `grant`.  It returns why the loop ended, or None when the
   * script ran out first.  What it does is the run `steps` of the machine above.  As long as the
   * server replies promptly, the request is not cancelled.
   */
  method RenewLoop(deadline: Option<Time>, spawned: Time, grant: Time, rounds: seq<Round>)
    returns (failure: Option<Failure>, now: Time, expires: Time, server: Time, confirmed: bool, cancel: bool,
             ghost steps: seq<Step>)
    ensures failure.None? ==> At(Start(deadline, spawned, grant), steps, now, expires, server, confirmed, Top)
    ensures failure.Some? ==> EndedAt(Start(deadline, spawned, grant), steps, now, expires, server, confirmed,
                                      failure.value)
    ensures spawned <= now <= expires && Until(deadline, spawned) <= expires
    ensures confirmed ==> expires <= server
    ensures !confirmed ==> expires == Until(deadline, spawned)
    ensures failure == Some(RenewalTimedOut) ==> now == expires
    ensures failure == Some(Expired) ==> now == expires || Elapsed(deadline, now)
    ensures failure == Some(Lost) ==> server <= now && exists i :: 0 <= i < |rounds| && rounds[i].reply.Replied?
    ensures cancel <==> failure.Some? && !Elapsed(deadline, now)
    ensures Until(deadline, spawned) <= grant && (forall i | 0 <= i < |rounds| :: Prompt(rounds[i])) ==> !cancel
  {
    ghost var prompt := Until(deadline, spawned) <= grant && forall i | 0 <= i < |rounds| :: Prompt(rounds[i]);
    ghost var start := Start(deadline, spawned, grant);
    now, server, confirmed, steps := spawned, grant, false, [];
    expires := now + Bounded(deadline, now);
    failure := None;
    var i := 0;
    while i < |rounds|
      invariant 0 <= i <= |rounds|
      invariant failure.None? && At(start, steps, now, expires, server, confirmed, Top)
      invariant spawned <= now <= expires && Until(deadline, spawned) <= expires
      invariant confirmed ==> expires <= server
      invariant !confirmed ==> expires == Until(deadline, spawned)
      invariant prompt ==> Steady(deadline, now, expires, server)
    {
      var round := rounds[i];
      i := i + 1;
      if Bounded(deadline, now) == 0 {
        failure := Some(Expired);
        RunKeepsInv(start, steps);
        steps := Append(start, steps, BeginRenewal);
        break;
      }
      failure, now, expires, server, confirmed, steps :=
        Around(round, deadline, now, expires, server, confirmed, start, steps);
      if failure.Some? { break; }
    }
    cancel := failure.Some? && !Elapsed(deadline, now);
  }
}
