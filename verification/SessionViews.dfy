/**
 * What the session store shows and does: the views say what the last verdict said that was still
 * current when it came, a check that found nobody logged in goes on to a refresh, and requests join
 * what is under way instead of starting it twice.
 */
module SessionViews {
  import opened Wrappers
  import opened Session

  // ----- which operation is current -----

  /** Nothing has been invalidated since the newest operation began. */
  ghost predicate Untouched(steps: seq<Step>)
    requires RunFrom(INITIAL, steps).Some?
  {
    steps != [] && !steps[|steps| - 1].Invalidate? &&
    (RunFrom(INITIAL, steps).value.nextId > RunFrom(INITIAL, steps[..|steps| - 1]).value.nextId
     || Untouched(steps[..|steps| - 1]))
  }

  /** The operation is the newest one, and nothing has been invalidated since it began. */
  ghost predicate IsCurrent(steps: seq<Step>, id: Id)
    requires RunFrom(INITIAL, steps).Some?
  {
    id + 1 == RunFrom(INITIAL, steps).value.nextId && Untouched(steps)
  }

  /** Ids and revisions advance together. */
  ghost predicate Newest(s: Store, untouched: bool) {
    && (forall id | id in s.ops :: id < s.nextId)
    && (s.nextId > 0 ==> s.nextId - 1 in s.ops)
    && (untouched ==> s.nextId > 0)
    && forall id | id in s.ops :: s.ops[id].revision == s.revision <==> id + 1 == s.nextId && untouched
  }

  lemma StepKeepsNewest(s: Store, step: Step, untouched: bool)
    requires Fresh(s) && Newest(s, untouched) && Possible(s, step)
    ensures Newest(Next(s, step), !step.Invalidate? && (Next(s, step).nextId > s.nextId || untouched))
  {
    StepGrows(s, step);
    if step.Invalidate? { assert Next(s, step).ops == s.ops && Next(s, step).revision == s.revision + 1; }
    if Next(s, step).nextId == s.nextId && !step.Invalidate? { SameRevision(s, step); }
  }

  /** Only an invalidation moves the revision without beginning anything. */
  lemma SameRevision(s: Store, step: Step)
    requires Fresh(s) && Possible(s, step) && !step.Invalidate? && Next(s, step).nextId == s.nextId
    ensures Next(s, step).revision == s.revision
  {
  }

  lemma {:induction false} CurrentIsNewest(steps: seq<Step>)
    requires RunFrom(INITIAL, steps).Some?
    ensures Newest(RunFrom(INITIAL, steps).value, Untouched(steps))
  {
    if steps != [] {
      CurrentIsNewest(steps[..|steps| - 1]);
      RunKeepsInv(INITIAL, steps[..|steps| - 1]);
      var before := steps[..|steps| - 1];
      StepKeepsNewest(RunFrom(INITIAL, before).value, steps[|steps| - 1], Untouched(before));
    }
  }

  // ----- what the views say -----

  /** Whether somebody is logged in, whether that is certain, and whether the last check failed. */
  datatype Saying = Saying(isAuthenticated: bool, sessionChecked: bool, checkFailed: bool)

  /** What a run has said: every verdict of an operation that was current when it came, and every invalidation. */
  ghost function Said(steps: seq<Step>): Saying
    requires RunFrom(INITIAL, steps).Some?
  {
    if steps == [] then Saying(false, false, false) else
      var before := steps[..|steps| - 1];
      var step := steps[|steps| - 1];
      Heard(Said(before), RunFrom(INITIAL, before).value, step, !Opens(step) && IsCurrent(before, step.id))
  }

  function Heard(said: Saying, s: Store, step: Step, current: bool): Saying
    requires Possible(s, step)
  {
    match step
    case Invalidate => Saying(false, true, false)
    case Begin(_) => said.(checkFailed := false)
    case Answer(_, reply) => if current then AfterReply(said, reply) else said
    case Return(id, ok) => if current then AfterChange(said, s.ops[id].change, ok) else said
    case _ => said
  }

  /** A status says who is logged in, a 401 that nobody is, and anything else only that it is not certain. */
  function AfterReply(said: Saying, reply: Reply): Saying {
    match reply
    case Status(authenticated) => Saying(authenticated, true, false)
    case Unauthorized => Saying(false, true, false)
    case Broken => Saying(said.isAuthenticated, false, true)
  }

  /** An accepted login logs in, a refused one leaves nobody logged in; a logout counts even if the server fails. */
  function AfterChange(said: Saying, change: ChangeKind, ok: bool): Saying {
    match change
    case Login => Saying(ok, ok || said.sessionChecked, said.checkFailed)
    case Logout => Saying(false, true, said.checkFailed)
  }

  function Shown(view: View): Saying {
    Saying(view.isAuthenticated, view.sessionChecked, view.checkFailed)
  }

  lemma TurnShowsVerdict(s: Store, step: Step)
    requires Possible(s, step)
    ensures var current := !Opens(step) && s.ops[step.id].revision == s.revision;
            Shown(Next(s, step).view) == Heard(Shown(s.view), s, step, current)
  {
  }

  /** In every reachable state the views say exactly what has been said. */
  lemma {:induction false} ViewsSayWhatWasSaid(steps: seq<Step>)
    requires RunFrom(INITIAL, steps).Some?
    ensures Shown(RunFrom(INITIAL, steps).value.view) == Said(steps)
  {
    if steps != [] {
      var before, step := steps[..|steps| - 1], steps[|steps| - 1];
      ViewsSayWhatWasSaid(before);
      CurrentIsNewest(before);
      TurnShowsVerdict(RunFrom(INITIAL, before).value, step);
    }
  }

  /** The same for the turn of one login or logout: it logs in exactly when it is an accepted login. */
  lemma CurrentChangeDecides(s: Store, id: Id, ok: bool)
    requires Possible(s, Return(id, ok)) && s.ops[id].revision == s.revision
    ensures Next(s, Return(id, ok)).view.isAuthenticated <==> s.ops[id].change.Login? && ok
  {
  }

  // ----- a check goes on to a refresh -----

  /** While a check is current nothing else is announced, and its answer agrees with the views. */
  ghost predicate ChecksAgree(s: Store) {
    forall id | IsLoad(s, id) && s.ops[id].kind.Check? && s.ops[id].revision == s.revision ::
      && !s.view.loading && s.pendingRefresh.None?
      && (s.ops[id].load.Answered? ==>
            (s.ops[id].load.result.Unauthenticated? <==> !s.view.isAuthenticated && s.view.sessionChecked))
  }

  lemma StepKeepsChecksAgree(s: Store, step: Step)
    requires Fresh(s) && ChecksAgree(s) && Possible(s, step)
    ensures ChecksAgree(Next(s, step))
  {
    if Opens(step) { OpeningKeepsChecksAgree(s, step); }
    else if s.ops[step.id].revision != s.revision { SupersededKeepsChecksAgree(s, step); }
    else { CurrentKeepsChecksAgree(s, step); }
  }

  lemma OpeningKeepsChecksAgree(s: Store, step: Step)
    requires Fresh(s) && ChecksAgree(s) && Opens(step)
    ensures ChecksAgree(Next(s, step))
  {
  }

  lemma SupersededKeepsChecksAgree(s: Store, step: Step)
    requires Fresh(s) && ChecksAgree(s) && Possible(s, step) && !Opens(step) && s.ops[step.id].revision != s.revision
    ensures ChecksAgree(Next(s, step))
  {
    SupersededTurn(s, step);
    var t := Next(s, step);
    assert t.pendingRefresh == s.pendingRefresh || t.pendingRefresh.None?;
    assert forall id | id in s.ops && id != step.id :: t.ops[id] == s.ops[id];
  }

  lemma CurrentKeepsChecksAgree(s: Store, step: Step)
    requires Fresh(s) && ChecksAgree(s) && Possible(s, step) && !Opens(step) && s.ops[step.id].revision == s.revision
    ensures ChecksAgree(Next(s, step))
  {
    assert forall id | id in s.ops && s.ops[id].revision == s.revision :: id == step.id;
  }

  lemma {:induction false} RunKeepsChecksAgree(steps: seq<Step>)
    requires RunFrom(INITIAL, steps).Some?
    ensures ChecksAgree(RunFrom(INITIAL, steps).value)
  {
    if steps != [] {
      RunKeepsChecksAgree(steps[..|steps| - 1]);
      RunKeepsInv(INITIAL, steps[..|steps| - 1]);
      StepKeepsChecksAgree(RunFrom(INITIAL, steps[..|steps| - 1]).value, steps[|steps| - 1]);
    }
  }

  /** A check that has been answered begins a refresh exactly when it is current and found nobody logged in. */
  lemma {:induction false} CheckGoesOn(steps: seq<Step>, id: Id)
    requires RunFrom(INITIAL, steps).Some? && Possible(RunFrom(INITIAL, steps).value, Continue(id))
    ensures var s := RunFrom(INITIAL, steps).value; var t := Next(s, Continue(id));
            && (IsCurrent(steps, id) && !s.view.isAuthenticated && s.view.sessionChecked ==>
                  BeginsLoad(s, t, Refresh) && t.ops[id].load == Chained(Some(s.nextId)))
            && (!(IsCurrent(steps, id) && !s.view.isAuthenticated && s.view.sessionChecked) ==>
                  t.ops == s.ops[id := s.ops[id].(load := Chained(None))])
  {
    CurrentIsNewest(steps);
    RunKeepsChecksAgree(steps);
  }

  /** Exactly one operation has been added, a load of this kind that has called the server. */
  ghost predicate BeginsLoad(s: Store, t: Store, kind: LoadKind) {
    && s.nextId !in s.ops && t.ops.Keys == s.ops.Keys + {s.nextId} && t.nextId == s.nextId + 1
    && t.ops[s.nextId] == Load(kind, t.revision, Loading)
  }

  // ----- requests join what is under way -----

  /** The first operation that could begin after the last login, logout or invalidation. */
  ghost function Since(steps: seq<Step>): Id
    requires RunFrom(INITIAL, steps).Some?
  {
    if steps == [] then 0
    else if steps[|steps| - 1].Begin? || steps[|steps| - 1].Invalidate? then RunFrom(INITIAL, steps).value.nextId
    else Since(steps[..|steps| - 1])
  }

  /** A load begun since then that has not settled. */
  ghost predicate UnderWay(s: Store, since: Id, kind: LoadKind, id: Id) {
    id >= since && IsLoad(s, id) && s.ops[id].kind == kind && !IsSettled(s, id)
  }

  ghost predicate Remembered(s: Store, since: Id) {
    && (forall id: Id :: UnderWay(s, since, Check, id) <==> s.pendingCheck == Some(id))
    && (forall id: Id :: UnderWay(s, since, Refresh, id) <==> s.pendingRefresh == Some(id))
  }

  ghost predicate Forgets(step: Step) {
    step.Begin? || step.Invalidate?
  }

  lemma StepKeepsRemembered(s: Store, step: Step, since: Id)
    requires Fresh(s) && Remembered(s, since) && Possible(s, step) && since <= s.nextId
    ensures Remembered(Next(s, step), if Forgets(step) then Next(s, step).nextId else since)
  {
    if Forgets(step) { ForgettingRemembers(s, step); }
    else if step.DoCheck? || step.DoRefresh? { RequestRemembers(s, step, since); }
    else if step.Continue? { ContinuationRemembers(s, step.id, since); }
    else { TurnRemembers(s, step, since); }
  }

  lemma ForgettingRemembers(s: Store, step: Step)
    requires Fresh(s) && Forgets(step)
    ensures Remembered(Next(s, step), Next(s, step).nextId)
  {
  }

  lemma RequestRemembers(s: Store, step: Step, since: Id)
    requires Fresh(s) && Remembered(s, since) && since <= s.nextId && (step.DoCheck? || step.DoRefresh?)
    ensures Remembered(Next(s, step), since)
  {
    OthersUnderWay(s, Next(s, step), since, s.nextId);
  }

  lemma ContinuationRemembers(s: Store, id: Id, since: Id)
    requires Fresh(s) && Remembered(s, since) && since <= s.nextId && Possible(s, Continue(id))
    ensures Remembered(Next(s, Continue(id)), since)
  {
    var t := Next(s, Continue(id));
    var u := if t.nextId == s.nextId then s else RefreshSession(s);
    RequestRemembers(s, DoRefresh, since);
    OthersUnderWay(u, t, since, id);
    assert UnderWay(u, since, Check, id) <==> UnderWay(t, since, Check, id);
  }

  lemma TurnRemembers(s: Store, step: Step, since: Id)
    requires Fresh(s) && Remembered(s, since) && Possible(s, step) && !Opens(step) && !step.Continue?
    ensures Remembered(Next(s, step), since)
  {
    var t := Next(s, step);
    if step.FinishLoad? {
      SettledForgotten(s, step.id, since);
    } else {
      TurnKeepsUnderWay(s, step, since);
      assert t.pendingCheck == s.pendingCheck && t.pendingRefresh == s.pendingRefresh;
      SameUnderWay(s, t, since);
    }
  }

  lemma TurnKeepsUnderWay(s: Store, step: Step, since: Id)
    requires Fresh(s) && Possible(s, step) && !Opens(step) && !step.Continue? && !step.FinishLoad?
    ensures forall id: Id, kind :: UnderWay(Next(s, step), since, kind, id) <==> UnderWay(s, since, kind, id)
  {
    OthersUnderWay(s, Next(s, step), since, step.id);
  }

  lemma SameUnderWay(s: Store, t: Store, since: Id)
    requires Remembered(s, since) && t.pendingCheck == s.pendingCheck && t.pendingRefresh == s.pendingRefresh
    requires forall id: Id, kind :: UnderWay(t, since, kind, id) <==> UnderWay(s, since, kind, id)
    ensures Remembered(t, since)
  {
  }

  lemma SettledForgotten(s: Store, id: Id, since: Id)
    requires Fresh(s) && Remembered(s, since) && Possible(s, FinishLoad(id))
    ensures Remembered(Next(s, FinishLoad(id)), since)
  {
    OthersUnderWay(s, Next(s, FinishLoad(id)), since, id);
    assert forall kind :: !UnderWay(Next(s, FinishLoad(id)), since, kind, id);
  }

  /** Operations other than the one that a turn moves are under way as before. */
  lemma OthersUnderWay(s: Store, t: Store, since: Id, id: Id)
    requires forall other: Id | other != id :: other in s.ops <==> other in t.ops
    requires forall other: Id | other != id && other in s.ops :: t.ops[other] == s.ops[other]
    ensures forall other: Id, kind | other != id :: UnderWay(t, since, kind, other) <==> UnderWay(s, since, kind, other)
  {
  }

  lemma {:induction false} RunRemembers(steps: seq<Step>)
    requires RunFrom(INITIAL, steps).Some?
    ensures Remembered(RunFrom(INITIAL, steps).value, Since(steps))
    ensures Since(steps) <= RunFrom(INITIAL, steps).value.nextId
  {
    if steps != [] {
      var s, step := RunFrom(INITIAL, steps[..|steps| - 1]).value, steps[|steps| - 1];
      RunRemembers(steps[..|steps| - 1]);
      RunKeepsInv(INITIAL, steps[..|steps| - 1]);
      StepGrows(s, step);
      StepKeepsRemembered(s, step, Since(steps[..|steps| - 1]));
    }
  }

  /**
   * A request to refresh calls the server exactly when nothing is loading and no refresh is under way,
   * a request to check when no check is either; otherwise it changes nothing.
   */
  lemma {:induction false} RequestsJoin(steps: seq<Step>)
    requires RunFrom(INITIAL, steps).Some?
    ensures var s := RunFrom(INITIAL, steps).value;
            var refreshing := exists id: Id :: UnderWay(s, Since(steps), Refresh, id);
            var checking := exists id: Id :: UnderWay(s, Since(steps), Check, id);
            && (if s.view.loading || refreshing then Next(s, DoRefresh) == s
                else BeginsLoad(s, Next(s, DoRefresh), Refresh))
            && (if s.view.loading || refreshing || checking then Next(s, DoCheck) == s
                else BeginsLoad(s, Next(s, DoCheck), Check))
  {
    RunKeepsInv(INITIAL, steps);
    RunRemembers(steps);
    var s := RunFrom(INITIAL, steps).value;
    RequestsAnswered(s);
    if s.pendingRefresh.Some? { assert UnderWay(s, Since(steps), Refresh, s.pendingRefresh.value); }
    if s.pendingCheck.Some? { assert UnderWay(s, Since(steps), Check, s.pendingCheck.value); }
  }

  lemma RequestsAnswered(s: Store)
    requires Fresh(s)
    ensures if s.view.loading || s.pendingRefresh.Some? then Next(s, DoRefresh) == s
            else BeginsLoad(s, Next(s, DoRefresh), Refresh)
    ensures if s.view.loading || s.pendingRefresh.Some? || s.pendingCheck.Some? then Next(s, DoCheck) == s
            else BeginsLoad(s, Next(s, DoCheck), Check)
  {
  }
}
