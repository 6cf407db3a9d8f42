/**
 * When two calls that set the session cookie can be under way at once: never, as long as the session
 * is invalidated only while none of them is pending, and otherwise always possibly.
 */
module SessionOverlap {
  import opened Wrappers
  import opened Session

  ghost predicate Overlap(s: Store) {
    exists a, b :: a != b && SettingCookie(s, a) && SettingCookie(s, b)
  }

  ghost predicate NonePending(s: Store) {
    forall id | id in s.ops :: !Pending(s, id)
  }

  /** Every invalidation of the run finds nothing pending. */
  ghost predicate InvalidatesIdle(steps: seq<Step>)
    requires RunFrom(INITIAL, steps).Some?
  {
    steps == [] ||
    (InvalidatesIdle(steps[..|steps| - 1])
     && (steps[|steps| - 1].Invalidate? ==> NonePending(RunFrom(INITIAL, steps[..|steps| - 1]).value)))
  }

  ghost predicate Announced(s: Store, id: Id) {
    s.view.loading || (!IsChange(s, id) && s.pendingRefresh == Some(id))
  }

  /** Whatever is pending shows in `loading` or `pendingRefresh`, and nothing before a refresh is pending. */
  ghost predicate Exclusive(s: Store) {
    && (forall id | id in s.ops && Pending(s, id) :: Announced(s, id))
    && (forall a: Id, b: Id | a in s.ops && a < b && IsRefresh(s, b) :: !Pending(s, a))
  }

  /** A step makes nothing pending but the operation it begins. */
  lemma StepShrinksPending(s: Store, step: Step, id: Id)
    requires Fresh(s) && Possible(s, step) && id in s.ops && Pending(Next(s, step), id)
    ensures Pending(s, id)
  {
  }

  /** A refresh begins only when nothing is announced. */
  lemma BeginsUnannounced(s: Store, step: Step)
    requires Fresh(s) && Possible(s, step) && IsRefresh(Next(s, step), s.nextId)
    ensures !s.view.loading && s.pendingRefresh.None? && Next(s, step).pendingRefresh == Some(s.nextId)
  {
  }

  lemma StepKeepsOrder(s: Store, step: Step)
    requires Inv(s) && Exclusive(s) && Possible(s, step)
    ensures var t := Next(s, step); forall a: Id, b: Id | a in t.ops && a < b && IsRefresh(t, b) :: !Pending(t, a)
  {
    var t := Next(s, step);
    StepGrows(s, step);
    forall a: Id, b: Id | a in t.ops && a < b && IsRefresh(t, b) ensures !Pending(t, a) {
      assert b in s.ops || b == s.nextId;
      assert a in s.ops;
      if Pending(t, a) {
        StepShrinksPending(s, step, a);
        assert Announced(s, a) && (b in s.ops ==> IsRefresh(s, b));
        if b == s.nextId { BeginsUnannounced(s, step); }
      }
    }
  }

  /** When the newest change ends the loading state, nothing else is pending. */
  lemma LastChangeIsAlone(s: Store, step: Step, id: Id)
    requires Inv(s) && Possible(s, step) && step.FinishChange? && s.ops[step.id].revision == s.revision && id in s.ops
    ensures !Pending(Next(s, step), id)
  {
    assert EarlierSettled(s, step.id);
    assert id <= step.id;
  }

  lemma StepKeepsAnnounced(s: Store, step: Step, id: Id)
    requires Inv(s) && Exclusive(s) && Possible(s, step) && (step.Invalidate? ==> NonePending(s))
    requires Pending(Next(s, step), id)
    ensures Announced(Next(s, step), id)
  {
    if id !in s.ops {
      NewIsAnnounced(s, step, id);
    } else {
      StepShrinksPending(s, step, id);
      assert Announced(s, id);
      if step.FinishChange? { FinishKeepsAnnounced(s, step, id); } else { OldStaysAnnounced(s, step, id); }
    }
  }

  lemma NewIsAnnounced(s: Store, step: Step, id: Id)
    requires Fresh(s) && Possible(s, step) && id !in s.ops && Pending(Next(s, step), id)
    ensures Announced(Next(s, step), id)
  {
    StepGrows(s, step);
    if IsRefresh(Next(s, step), s.nextId) { BeginsUnannounced(s, step); }
  }

  lemma FinishKeepsAnnounced(s: Store, step: Step, id: Id)
    requires Inv(s) && Possible(s, step) && step.FinishChange? && id in s.ops && Announced(s, id)
    requires Pending(Next(s, step), id)
    ensures Announced(Next(s, step), id)
  {
    if s.ops[step.id].revision == s.revision { LastChangeIsAlone(s, step, id); }
  }

  lemma OldStaysAnnounced(s: Store, step: Step, id: Id)
    requires Fresh(s) && Possible(s, step) && !step.FinishChange? && (step.Invalidate? ==> NonePending(s))
    requires id in s.ops && Pending(s, id) && Pending(Next(s, step), id) && Announced(s, id)
    ensures Announced(Next(s, step), id)
  {
  }

  lemma {:induction false} IdleInvalidationsKeepExclusive(steps: seq<Step>)
    requires RunFrom(INITIAL, steps).Some? && InvalidatesIdle(steps)
    ensures Exclusive(RunFrom(INITIAL, steps).value)
  {
    if steps != [] {
      var before, step := steps[..|steps| - 1], steps[|steps| - 1];
      IdleInvalidationsKeepExclusive(before);
      RunKeepsInv(INITIAL, before);
      var s := RunFrom(INITIAL, before).value;
      StepKeepsOrder(s, step);
      forall id | id in Next(s, step).ops && Pending(Next(s, step), id) ensures Announced(Next(s, step), id) {
        StepKeepsAnnounced(s, step, id);
      }
    }
  }

  /**
   * As long as the session is invalidated only while nothing is pending, no two cookie-setting
   * calls are ever under way at once.
   */
  lemma {:induction false} IdleInvalidationsNeverOverlap(steps: seq<Step>)
    requires RunFrom(INITIAL, steps).Some? && InvalidatesIdle(steps)
    ensures !Overlap(RunFrom(INITIAL, steps).value)
  {
    var s := RunFrom(INITIAL, steps).value;
    IdleInvalidationsKeepExclusive(steps);
    forall a: Id, b: Id | a < b && SettingCookie(s, a) ensures !SettingCookie(s, b) {
      assert Pending(s, a) && (SettingCookie(s, b) && IsLoad(s, b) ==> IsRefresh(s, b));
      if IsChange(s, b) && SettingCookie(s, b) { CookieCallsAreSerial(steps, b, a); }
    }
  }

  /** The store right after an invalidation and a request to refresh. */
  function Renewed(s: Store): Store {
    RefreshSession(InvalidateSession(s))
  }

  /**
   * An invalidation is harmless only then.  In any reachable state it takes one invalidation, one
   * refresh and answers to what is under way to make two cookie-setting calls overlap, if and only
   * if something was pending.
   */
  lemma {:induction false} InvalidationOverlapsIffPending(steps: seq<Step>)
    requires RunFrom(INITIAL, steps).Some?
    ensures var s := RunFrom(INITIAL, steps).value;
            && RunFrom(INITIAL, steps + [Invalidate, DoRefresh]) == Some(Renewed(s))
            && (!NonePending(s) <==>
                exists more :: NothingOpens(more) && RunFrom(Renewed(s), more).Some?
                               && Overlap(RunFrom(Renewed(s), more).value))
  {
    var s := RunFrom(INITIAL, steps).value;
    RunKeepsInv(INITIAL, steps);
    InvalidateAndRefresh(steps);
    if NonePending(s) {
      forall more | NothingOpens(more) && RunFrom(Renewed(s), more).Some?
        ensures !Overlap(RunFrom(Renewed(s), more).value)
      {
        OnlyRefreshPending(s, more);
      }
    } else {
      var more := PendingOverlaps(steps);
      assert Overlap(RunFrom(Renewed(s), more).value);
    }
  }

  ghost predicate NothingOpens(more: seq<Step>) {
    forall i | 0 <= i < |more| :: !Opens(more[i])
  }

  lemma {:induction false} InvalidateAndRefresh(steps: seq<Step>)
    requires RunFrom(INITIAL, steps).Some?
    ensures RunFrom(INITIAL, steps + [Invalidate, DoRefresh]) == Some(Renewed(RunFrom(INITIAL, steps).value))
  {
    var s := RunFrom(INITIAL, steps).value;
    assert (steps + [Invalidate])[..|steps|] == steps;
    assert RunFrom(INITIAL, steps + [Invalidate]) == Some(InvalidateSession(s));
    assert (steps + [Invalidate, DoRefresh])[..|steps| + 1] == steps + [Invalidate];
  }

  /** With nothing pending before, only the refresh ever is, and everything older is superseded. */
  lemma {:induction false} OnlyRefreshPending(s: Store, more: seq<Step>)
    requires Inv(s) && NonePending(s) && NothingOpens(more) && RunFrom(Renewed(s), more).Some?
    ensures var t := RunFrom(Renewed(s), more).value;
            && IsRefresh(t, s.nextId) && !t.ops[s.nextId].load.Chained?
            && (forall id | id in t.ops && id != s.nextId :: Superseded(t, id) && !Pending(t, id))
  {
    if more != [] {
      var before, step := more[..|more| - 1], more[|more| - 1];
      OnlyRefreshPending(s, before);
      var u := RunFrom(Renewed(s), before).value;
      if step.id != s.nextId { SupersededTurn(u, step); }
      StayUnpending(u, step);
    }
  }

  lemma StayUnpending(u: Store, step: Step)
    requires Possible(u, step) && !Opens(step)
    requires step.Continue? ==> Superseded(u, step.id)
    ensures forall id | id in Next(u, step).ops && id in u.ops && !Pending(u, id) :: !Pending(Next(u, step), id)
  {
  }

  /** The least pending operation starts, if it has not yet, as soon as what has returned before it settles. */
  lemma {:induction false} PendingOverlaps(steps: seq<Step>) returns (more: seq<Step>)
    requires RunFrom(INITIAL, steps).Some? && !NonePending(RunFrom(INITIAL, steps).value)
    ensures var s := RunFrom(INITIAL, steps).value;
            && NothingOpens(more) && RunFrom(Renewed(s), more).Some? && Overlap(RunFrom(Renewed(s), more).value)
  {
    var s := RunFrom(INITIAL, steps).value;
    InvalidateAndRefresh(steps);
    RunKeepsInv(INITIAL, steps);
    RunKeepsInv(INITIAL, steps + [Invalidate, DoRefresh]);
    RenewedAddsRefresh(s);
    assert Inv(Renewed(s));
    var some :| some in s.ops && Pending(s, some);
    var first := LeastPending(s, some);
    if SettingCookie(Renewed(s), first) { return []; }
    more := StartLeast(Renewed(s), first, s.nextId);
  }

  lemma RenewedAddsRefresh(s: Store)
    requires Fresh(s)
    ensures var u := Renewed(s);
            && u.ops == s.ops[s.nextId := Load(Refresh, s.revision + 2, Loading)]
            && SettingCookie(u, s.nextId) && forall id: Id | id != s.nextId :: Pending(u, id) == Pending(s, id)
  {
  }

  lemma StartLeast(u: Store, first: Id, later: Id) returns (more: seq<Step>)
    requires Inv(u) && SettingCookie(u, later) && IsLoad(u, later) && first < later
    requires IsChange(u, first) && u.ops[first].phase.Waiting? && NonePendingBefore(u, first)
    ensures NothingOpens(more) && RunFrom(u, more).Some? && Overlap(RunFrom(u, more).value)
  {
    var before, t := SettleReturned(u, first);
    EarlierMeansPrior(t, first);
    var v := Next(t, StartCall(first));
    AnswerOne(t, StartCall(first));
    AnswersCompose(u, before, t, [StartCall(first)], v);
    more := before + [StartCall(first)];
    assert SettingCookie(v, first) && SettingCookie(v, later);
  }

  lemma LeastPending(s: Store, id: Id) returns (first: Id)
    requires Pending(s, id)
    ensures Pending(s, first) && forall other: Id | other < first :: !Pending(s, other)
  {
    first := id;
    if exists other: Id :: other < id && Pending(s, other) {
      var other: Id :| other < id && Pending(s, other);
      first := LeastPending(s, other);
    }
  }

  ghost predicate NonePendingBefore(s: Store, n: Id) {
    forall id: Id | id < n :: !Pending(s, id)
  }

  /** From operation `n` on nothing has changed. */
  ghost predicate SameFrom(s: Store, t: Store, n: Id) {
    forall id: Id | id >= n && id in s.ops :: id in t.ops && t.ops[id] == s.ops[id]
  }

  /** Settles, in order, whatever has returned before operation `n`. */
  lemma SettleReturned(s: Store, n: Id) returns (more: seq<Step>, t: Store)
    requires Inv(s) && NonePendingBefore(s, n)
    ensures Answers(s, more, t) && Inv(t) && EarlierSettled(t, n) && SameFrom(s, t, n)
  {
    if n == 0 { return [], s; }
    var before, u := SettleReturned(s, n - 1);
    assert !Pending(s, n - 1);
    var last;
    last, t := SettleNextReturned(u, n - 1);
    AnswersCompose(s, before, u, last, t);
    more := before + last;
  }

  lemma SettleNextReturned(s: Store, n: Id) returns (more: seq<Step>, t: Store)
    requires Inv(s) && EarlierSettled(s, n) && !Pending(s, n)
    ensures Answers(s, more, t) && Inv(t) && EarlierSettled(t, n + 1) && SameFrom(s, t, n + 1)
  {
    if n !in s.ops || !SetsCookie(s.ops[n]) || IsSettled(s, n) { return [], s; }
    var last := SettleOne(s, n);
    more, t := [last], Next(s, last);
    RunKeepsInv(s, more);
    EarlierAnswered(s, more, t, n);
  }

  lemma SettleOne(s: Store, id: Id) returns (last: Step)
    requires Fresh(s) && id in s.ops && SetsCookie(s.ops[id]) && !Pending(s, id) && !IsSettled(s, id)
    ensures Possible(s, last) && Answers(s, [last], Next(s, last)) && IsSettled(Next(s, last), id)
    ensures forall other | other in s.ops && other != id :: Next(s, last).ops[other] == s.ops[other]
  {
    last := if s.ops[id].Load? then FinishLoad(id) else FinishChange(id);
    AnswerOne(s, last);
  }

  /** So a login that still waits is sent although it has been superseded, beside a refresh begun after it. */
  lemma WaitingLoginOverlaps()
    ensures var s := RunFrom(INITIAL, [Begin(Login), Invalidate, DoRefresh, StartCall(0)]);
            s.Some? && Superseded(s.value, 0) && SettingCookie(s.value, 0) && SettingCookie(s.value, 1)
  {
    assert [Begin(Login)][..0] == [];
    InvalidateAndRefresh([Begin(Login)]);
    assert [Begin(Login)] + [Invalidate, DoRefresh] == [Begin(Login), Invalidate, DoRefresh];
    assert [Begin(Login), Invalidate, DoRefresh, StartCall(0)][..3] == [Begin(Login), Invalidate, DoRefresh];
  }

  /** A call that has started already is overlapped at once. */
  lemma {:induction false} InvalidationAllowsOverlap(steps: seq<Step>, earlier: Id)
    requires RunFrom(INITIAL, steps).Some? && SettingCookie(RunFrom(INITIAL, steps).value, earlier)
    ensures var t := RunFrom(INITIAL, steps + [Invalidate, DoRefresh]);
            var later := RunFrom(INITIAL, steps).value.nextId;
            t.Some? && earlier < later && SettingCookie(t.value, earlier) && SettingCookie(t.value, later)
  {
    RunKeepsInv(INITIAL, steps);
    InvalidateAndRefresh(steps);
  }
}
