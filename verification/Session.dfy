/**
 * The admin session store of the front end.  Status checks, refreshes, logins and logouts are
 * promises that may complete in any order; between awaits the code runs undisturbed, so each such
 * stretch is one turn.  A turn is a function of the store's value; the class `SessionStore` runs
 * the same turns on its fields.
 */
module Session {
  import opened Wrappers

  type Id = nat

  datatype CheckResult = Authenticated | Unauthenticated | Unavailable

  /** What a status or refresh call brings back: a well-formed status, a 401, or anything else. */
  datatype Reply = Status(authenticated: bool) | Unauthorized | Broken

  datatype LoadKind = Check | Refresh

  datatype ChangeKind = Login | Logout

  /**
   * Load: `loadSession`, then for a check the continuation that may chain a refresh, then the
   * `finally`.  Change: a login or logout, which waits for the changes and refreshes before it.
   */
  datatype Op =
    | Load(kind: LoadKind, revision: nat, load: LoadPhase)
    | Change(change: ChangeKind, revision: nat, prior: Option<Id>, barrier: set<Id>, phase: ChangePhase)

  datatype LoadPhase = Loading | Answered(result: CheckResult) | Chained(next: Option<Id>) | LoadSettled

  datatype ChangePhase = Waiting | Calling | Returned | Settled

  /** The reactive state that the views read. */
  datatype View = View(isAuthenticated: bool, sessionChecked: bool, checkFailed: bool, loading: bool)

  datatype Store = Store(view: View, revision: nat, pendingCheck: Option<Id>, pendingRefresh: Option<Id>,
                         transition: Option<Id>, refreshBarrier: set<Id>, ops: map<Id, Op>, nextId: Id)

  const INITIAL := Store(View(false, false, false, false), 0, None, None, None, {}, map[], 0)

  function CurrentResult(view: View): CheckResult {
    if view.isAuthenticated then Authenticated else if view.sessionChecked then Unauthenticated else Unavailable
  }

  predicate IsSettled(s: Store, id: Id) {
    id in s.ops && match s.ops[id] case Load(_, _, p) => p.LoadSettled? case Change(_, _, _, _, p) => p.Settled?
  }

  // ----- turns -----

  function BeginLoad(s: Store, kind: LoadKind): Store {
    s.(revision := s.revision + 1, ops := s.ops[s.nextId := Load(kind, s.revision + 1, Loading)],
       nextId := s.nextId + 1)
  }

  function CheckAuth(s: Store): Store {
    if s.view.loading || s.pendingRefresh.Some? || s.pendingCheck.Some? then s
    else BeginLoad(s, Check).(pendingCheck := Some(s.nextId))
  }

  function RefreshSession(s: Store): Store {
    if s.view.loading || s.pendingRefresh.Some? then s
    else BeginLoad(s, Refresh).(pendingRefresh := Some(s.nextId), refreshBarrier := s.refreshBarrier + {s.nextId})
  }

  predicate IsLoad(s: Store, id: Id) {
    id in s.ops && s.ops[id].Load?
  }

  predicate IsRefresh(s: Store, id: Id) {
    IsLoad(s, id) && s.ops[id].kind.Refresh?
  }

  predicate IsChange(s: Store, id: Id) {
    id in s.ops && s.ops[id].Change?
  }

  function SetLoad(s: Store, id: Id, phase: LoadPhase): Store
    requires IsLoad(s, id)
  {
    s.(ops := s.ops[id := s.ops[id].(load := phase)])
  }

  function SetChange(s: Store, id: Id, phase: ChangePhase): Store
    requires IsChange(s, id)
  {
    s.(ops := s.ops[id := s.ops[id].(phase := phase)])
  }

  /** The code after `await load(...)`, success and error branch. */
  function LoadAnswers(s: Store, id: Id, reply: Reply): Store
    requires IsLoad(s, id)
  {
    if s.ops[id].revision != s.revision then SetLoad(s, id, Answered(CurrentResult(s.view)))
    else match reply
      case Status(authenticated) =>
        var view := s.view.(isAuthenticated := authenticated, sessionChecked := true, checkFailed := false);
        SetLoad(s.(view := view), id, Answered(CurrentResult(view)))
      case Unauthorized =>
        var view := s.view.(isAuthenticated := false, sessionChecked := true, checkFailed := false);
        SetLoad(s.(view := view), id, Answered(Unauthenticated))
      case Broken =>
        SetLoad(s.(view := s.view.(sessionChecked := false, checkFailed := true)), id, Answered(Unavailable))
  }

  /** A check that found nobody logged in tries a refresh, unless it has been superseded. */
  function CheckContinues(s: Store, id: Id): Store
    requires IsLoad(s, id) && s.ops[id].load.Answered?
  {
    if s.ops[id].load.result.Unauthenticated? && s.ops[id].revision == s.revision && !s.view.loading then
      var t := RefreshSession(s);
      SetLoad(t, id, Chained(t.pendingRefresh))
    else SetLoad(s, id, Chained(None))
  }

  function LoadFinally(s: Store, id: Id): Store
    requires IsLoad(s, id)
  {
    var t := SetLoad(s, id, LoadSettled);
    if s.ops[id].kind.Check? then t.(pendingCheck := if s.pendingCheck == Some(id) then None else s.pendingCheck)
    else t.(pendingRefresh := if s.pendingRefresh == Some(id) then None else s.pendingRefresh)
  }

  function WithoutPending(s: Store): Store {
    s.(revision := s.revision + 1, pendingCheck := None, pendingRefresh := None, view := s.view.(checkFailed := false))
  }

  function BeginTransition(s: Store, kind: ChangeKind): Store {
    var t := WithoutPending(s);
    t.(view := t.view.(loading := true),
       ops := s.ops[s.nextId := Change(kind, t.revision, s.transition, s.refreshBarrier, Waiting)],
       transition := Some(s.nextId), nextId := s.nextId + 1)
  }

  /** The server call of a login or logout may start: everything it waits for has settled. */
  predicate PriorSettled(s: Store, id: Id)
    requires IsChange(s, id)
  {
    && (s.ops[id].prior.Some? ==> IsSettled(s, s.ops[id].prior.value))
    && forall b | b in s.ops[id].barrier :: IsSettled(s, b)
  }

  function ChangeReturns(s: Store, id: Id, ok: bool): Store
    requires IsChange(s, id)
  {
    var t := SetChange(s, id, Returned);
    if s.ops[id].revision != s.revision then t
    else if s.ops[id].change.Logout? then t.(view := s.view.(isAuthenticated := false, sessionChecked := true))
    else if ok then t.(view := s.view.(isAuthenticated := true, sessionChecked := true))
    else t.(view := s.view.(isAuthenticated := false))
  }

  function ChangeFinally(s: Store, id: Id): Store
    requires IsChange(s, id)
  {
    var t := SetChange(s, id, Settled);
    if s.ops[id].revision == s.revision then t.(view := s.view.(loading := false)) else t
  }

  function InvalidateSession(s: Store): Store {
    var t := WithoutPending(s);
    t.(view := t.view.(isAuthenticated := false, sessionChecked := true, loading := false))
  }

  // ----- runs -----

  datatype Step =
    | DoCheck
    | DoRefresh
    | Begin(kind: ChangeKind)
    | Invalidate
    | Answer(id: Id, reply: Reply)
    | Continue(id: Id)
    | FinishLoad(id: Id)
    | StartCall(id: Id)
    | Return(id: Id, ok: bool)
    | FinishChange(id: Id)

  predicate Possible(s: Store, step: Step) {
    match step
    case Answer(id, _) => IsLoad(s, id) && s.ops[id].load.Loading?
    case Continue(id) => IsLoad(s, id) && s.ops[id].kind.Check? && s.ops[id].load.Answered?
    case FinishLoad(id) =>
      IsLoad(s, id) &&
      if s.ops[id].kind.Refresh? then s.ops[id].load.Answered?
      else s.ops[id].load.Chained? && (s.ops[id].load.next.Some? ==> IsSettled(s, s.ops[id].load.next.value))
    case StartCall(id) => IsChange(s, id) && s.ops[id].phase.Waiting? && PriorSettled(s, id)
    case Return(id, _) => IsChange(s, id) && s.ops[id].phase.Calling?
    case FinishChange(id) => IsChange(s, id) && s.ops[id].phase.Returned?
    case _ => true
  }

  function Next(s: Store, step: Step): Store
    requires Possible(s, step)
  {
    match step
    case DoCheck => CheckAuth(s)
    case DoRefresh => RefreshSession(s)
    case Begin(kind) => BeginTransition(s, kind)
    case Invalidate => InvalidateSession(s)
    case Answer(id, reply) => LoadAnswers(s, id, reply)
    case Continue(id) => CheckContinues(s, id)
    case FinishLoad(id) => LoadFinally(s, id)
    case StartCall(id) => SetChange(s, id, Calling)
    case Return(id, ok) => ChangeReturns(s, id, ok)
    case FinishChange(id) => ChangeFinally(s, id)
  }

  function RunFrom(s: Store, steps: seq<Step>): Option<Store> {
    if steps == [] then Some(s) else
      var before := RunFrom(s, steps[..|steps| - 1]);
      var step := steps[|steps| - 1];
      if before.Some? && Possible(before.value, step) then Some(Next(before.value, step)) else None
  }

  // ----- invariant -----

  /** Logins, logouts and refreshes: the calls that set cookies. */
  predicate SetsCookie(op: Op) {
    op.Change? || op.kind.Refresh?
  }

  /** Revisions identify operations, and the newest ones are the largest. */
  ghost predicate Fresh(s: Store) {
    && (forall id | id in s.ops :: id < s.nextId && s.ops[id].revision <= s.revision)
    && (forall a, b | a in s.ops && b in s.ops && a < b :: s.ops[a].revision < s.ops[b].revision)
    && (forall id | IsLoad(s, id) && s.ops[id].kind.Refresh? :: !s.ops[id].load.Chained?)
  }

  /** A change waits for the last change before it and for every refresh before it. */
  ghost predicate Linked(s: Store, id: Id, prior: Option<Id>, barrier: set<Id>) {
    && (prior.Some? ==> IsChange(s, prior.value) && prior.value < id)
    && (forall e: Id | e < id && e in s.ops ::
          match s.ops[e]
          case Load(kind, _, _) => kind.Refresh? <==> e in barrier
          case Change(_, _, _, _, _) => e !in barrier && prior.Some? && e <= prior.value)
    && (forall e | e in barrier :: e < id && e in s.ops)
  }

  ghost predicate Chain(s: Store) {
    && Linked(s, s.nextId, s.transition, s.refreshBarrier)
    && forall id: Id | IsChange(s, id) :: Linked(s, id, s.ops[id].prior, s.ops[id].barrier)
  }

  /** Once a change's server call has started, every earlier cookie-setting call is over. */
  ghost predicate Serial(s: Store) {
    forall id: Id | IsChange(s, id) && !s.ops[id].phase.Waiting? :: EarlierSettled(s, id)
  }

  ghost predicate EarlierSettled(s: Store, id: Id) {
    forall e: Id | e in s.ops && e < id && SetsCookie(s.ops[e]) :: IsSettled(s, e)
  }

  /** `loading` is on exactly while the newest change is unsettled and not superseded. */
  ghost predicate LoadingOwned(s: Store) {
    s.view.loading <==>
      s.transition.Some? && IsChange(s, s.transition.value)
      && s.ops[s.transition.value].revision == s.revision && !IsSettled(s, s.transition.value)
  }

  ghost predicate Inv(s: Store) {
    Fresh(s) && Chain(s) && Serial(s) && LoadingOwned(s)
  }

  predicate SameOp(a: Op, b: Op) {
    && a.Load? == b.Load? && a.revision == b.revision
    && (a.Load? ==> a.kind == b.kind)
    && (a.Change? ==> a.change == b.change && a.prior == b.prior && a.barrier == b.barrier)
  }

  predicate Started(op: Op) {
    op.Change? && !op.phase.Waiting?
  }

  predicate ChainedRefresh(op: Op) {
    op.Load? && op.kind.Refresh? && op.load.Chained?
  }

  /** Turns only add one operation at the end and move phases forward. */
  ghost predicate Grows(s: Store, t: Store) {
    && s.revision <= t.revision
    && (forall id | id in s.ops ::
          && id in t.ops && SameOp(s.ops[id], t.ops[id])
          && (IsSettled(s, id) ==> IsSettled(t, id)) && (Started(s.ops[id]) ==> Started(t.ops[id])))
    && (forall id | id in t.ops :: (id in s.ops || id == s.nextId) && !ChainedRefresh(t.ops[id]))
    && (if s.nextId in t.ops then Adds(s, t, t.ops[s.nextId]) else Keeps(s, t))
  }

  ghost predicate Keeps(s: Store, t: Store) {
    t.nextId == s.nextId && t.transition == s.transition && t.refreshBarrier == s.refreshBarrier
  }

  ghost predicate Adds(s: Store, t: Store, op: Op) {
    && t.nextId == s.nextId + 1 && op.revision == t.revision == s.revision + 1
    && match op
       case Load(kind, _, _) =>
         t.transition == s.transition && t.refreshBarrier == s.refreshBarrier + if kind.Refresh? then {s.nextId} else {}
       case Change(_, _, prior, barrier, phase) =>
         && t.transition == Some(s.nextId) && prior == s.transition && phase.Waiting?
         && t.refreshBarrier == barrier == s.refreshBarrier
  }

  predicate Opens(step: Step) {
    step.DoCheck? || step.DoRefresh? || step.Begin? || step.Invalidate?
  }

  lemma OpeningGrows(s: Store, step: Step)
    requires Fresh(s) && Opens(step)
    ensures Grows(s, Next(s, step))
  {
  }

  /** Moving one operation to a later phase. */
  lemma MoveGrows(s: Store, t: Store, id: Id, op: Op)
    requires Fresh(s) && id in s.ops && t.ops == s.ops[id := op] && t.revision == s.revision && Keeps(s, t)
    requires SameOp(s.ops[id], op) && !IsSettled(s, id) && (Started(s.ops[id]) ==> Started(op)) && !ChainedRefresh(op)
    ensures Grows(s, t)
  {
  }

  lemma StepGrows(s: Store, step: Step)
    requires Fresh(s) && Possible(s, step)
    ensures Grows(s, Next(s, step))
  {
    if Opens(step) {
      OpeningGrows(s, step);
    } else if step.Continue? {
      ContinueGrows(s, step);
    } else {
      MoveGrows(s, Next(s, step), step.id, Next(s, step).ops[step.id]);
    }
  }

  lemma ContinueGrows(s: Store, step: Step)
    requires Fresh(s) && Possible(s, step) && step.Continue?
    ensures Grows(s, Next(s, step))
  {
    var t := Next(s, step);
    var u := if t.nextId == s.nextId then s else RefreshSession(s);
    OpeningGrows(s, DoRefresh);
    if t.nextId == s.nextId { MoveGrows(s, t, step.id, t.ops[step.id]); }
    else { MoveKeepsGrowth(s, u, t, step.id, t.ops[step.id]); }
  }

  /** The same after something has been added. */
  lemma MoveKeepsGrowth(s: Store, u: Store, t: Store, id: Id, op: Op)
    requires Fresh(s) && Grows(s, u) && id in s.ops && t == u.(ops := u.ops[id := op]) && u.ops[id] == s.ops[id]
    requires SameOp(s.ops[id], op) && !IsSettled(s, id) && (Started(s.ops[id]) ==> Started(op)) && !ChainedRefresh(op)
    ensures Grows(s, t)
  {
  }

  lemma GrowthKeepsFresh(s: Store, t: Store)
    requires Fresh(s) && Grows(s, t)
    ensures Fresh(t)
  {
    forall a, b | a in t.ops && b in t.ops && a < b ensures t.ops[a].revision < t.ops[b].revision {
      assert a in s.ops;
    }
  }

  lemma GrowthKeepsLinked(s: Store, t: Store, id: Id, prior: Option<Id>, barrier: set<Id>)
    requires Fresh(s) && Grows(s, t) && id <= s.nextId && Linked(s, id, prior, barrier)
    ensures Linked(t, id, prior, barrier)
  {
  }

  lemma {:induction false} GrowthKeepsChain(s: Store, t: Store)
    requires Fresh(s) && Chain(s) && Grows(s, t)
    ensures Chain(t)
  {
    GrowthKeepsLinked(s, t, s.nextId, s.transition, s.refreshBarrier);
    forall id: Id | IsChange(t, id) ensures Linked(t, id, t.ops[id].prior, t.ops[id].barrier) {
      if id in s.ops { GrowthKeepsLinked(s, t, id, s.ops[id].prior, s.ops[id].barrier); }
    }
  }

  lemma {:induction false} PriorMeansEarlier(s: Store, id: Id)
    requires Fresh(s) && Chain(s) && Serial(s) && IsChange(s, id) && PriorSettled(s, id)
    ensures EarlierSettled(s, id)
  {
    var prior := s.ops[id].prior;
    assert Linked(s, id, prior, s.ops[id].barrier);
    if prior.Some? { assert EarlierSettled(s, prior.value); }
  }

  lemma StepStarts(s: Store, step: Step, id: Id)
    requires Fresh(s) && Possible(s, step) && id in Next(s, step).ops && Started(Next(s, step).ops[id])
    ensures id in s.ops && (Started(s.ops[id]) || step == StartCall(id))
  {
  }

  lemma {:induction false} StepKeepsSerial(s: Store, step: Step)
    requires Inv(s) && Possible(s, step) && Grows(s, Next(s, step))
    ensures Serial(Next(s, step))
  {
    var t := Next(s, step);
    forall id: Id | IsChange(t, id) && !t.ops[id].phase.Waiting? ensures EarlierSettled(t, id) {
      StepStarts(s, step, id);
      if step == StartCall(id) { PriorMeansEarlier(s, id); }
      EarlierStaysSettled(s, t, id);
    }
  }

  lemma EarlierStaysSettled(s: Store, t: Store, id: Id)
    requires Grows(s, t) && id in s.ops && id < s.nextId && EarlierSettled(s, id)
    ensures EarlierSettled(t, id)
  {
  }

  /** Only the newest change can hold the current revision. */
  lemma CurrentChangeIsNewest(s: Store, id: Id)
    requires Fresh(s) && Chain(s) && IsChange(s, id) && s.ops[id].revision == s.revision
    ensures s.transition == Some(id)
  {
  }

  lemma StepKeepsLoadingOwned(s: Store, step: Step)
    requires Inv(s) && Possible(s, step)
    ensures LoadingOwned(Next(s, step))
  {
    if step.StartCall? || step.Return? || step.FinishChange? {
      ChangeStepKeepsOwner(s, step);
    } else if !step.Begin? && !step.Invalidate? {
      LoadingStepKeepsOwner(s, step);
    }
  }

  lemma ChangeStepKeepsOwner(s: Store, step: Step)
    requires Inv(s) && Possible(s, step) && (step.StartCall? || step.Return? || step.FinishChange?)
    ensures LoadingOwned(Next(s, step))
  {
    if s.ops[step.id].revision == s.revision { CurrentChangeIsNewest(s, step.id); }
  }

  lemma LoadingStepKeepsOwner(s: Store, step: Step)
    requires Inv(s) && Possible(s, step)
    requires step.DoCheck? || step.DoRefresh? || step.Answer? || step.Continue? || step.FinishLoad?
    ensures LoadingOwned(Next(s, step))
  {
    LoadingStepSparesOwner(s, step);
  }

  lemma LoadingStepSparesOwner(s: Store, step: Step)
    requires Fresh(s) && Chain(s) && Possible(s, step)
    requires step.DoCheck? || step.DoRefresh? || step.Answer? || step.Continue? || step.FinishLoad?
    ensures var t := Next(s, step);
            && t.transition == s.transition && t.view.loading == s.view.loading
            && (t.revision == s.revision || (s.revision < t.revision && !s.view.loading))
            && (s.transition.Some? ==>
                  s.transition.value in t.ops && t.ops[s.transition.value] == s.ops[s.transition.value])
  {
    if step.Continue? { ContinuationSparesOwner(s, step.id); }
  }

  lemma ContinuationSparesOwner(s: Store, id: Id)
    requires Fresh(s) && Possible(s, Continue(id))
    ensures var t := Next(s, Continue(id));
            && t.transition == s.transition && t.view == s.view
            && (t.revision == s.revision || (s.revision < t.revision && !s.view.loading))
            && forall other | other in s.ops && other != id :: other in t.ops && t.ops[other] == s.ops[other]
  {
  }

  lemma {:induction false} RunKeepsInv(start: Store, steps: seq<Step>)
    requires Inv(start) && RunFrom(start, steps).Some?
    ensures Inv(RunFrom(start, steps).value)
  {
    if steps != [] {
      var s, step := RunFrom(start, steps[..|steps| - 1]).value, steps[|steps| - 1];
      RunKeepsInv(start, steps[..|steps| - 1]);
      StepGrows(s, step);
      GrowthKeepsFresh(s, Next(s, step));
      GrowthKeepsChain(s, Next(s, step));
      StepKeepsSerial(s, step);
      StepKeepsLoadingOwned(s, step);
    }
  }

  // ----- results over every run -----

  ghost predicate Superseded(s: Store, id: Id) {
    id in s.ops && s.ops[id].revision < s.revision
  }

  /** A turn of a superseded operation writes nothing that the views read and begins nothing new. */
  lemma SupersededTurn(s: Store, step: Step)
    requires Possible(s, step) && !Opens(step) && s.ops[step.id].revision != s.revision
    ensures var t := Next(s, step);
            t.view == s.view && t.revision == s.revision && t.ops.Keys == s.ops.Keys
            && forall id | id in s.ops :: SameOp(t.ops[id], s.ops[id])
  {
  }

  lemma {:induction false} StaysSuperseded(s: Store, more: seq<Step>, id: Id)
    requires Inv(s) && RunFrom(s, more).Some? && Superseded(s, id)
    ensures Superseded(RunFrom(s, more).value, id)
  {
    if more != [] {
      var before := more[..|more| - 1];
      StaysSuperseded(s, before, id);
      RunKeepsInv(s, before);
      StepGrows(RunFrom(s, before).value, more[|more| - 1]);
    }
  }

  /**
   * An operation that has been superseded never writes again, whatever happens in between, new
   * logins, checks and refreshes included: none of its later turns changes the views or the
   * revision, or begins another operation.
   */
  lemma {:induction false} SupersededForever(steps: seq<Step>, more: seq<Step>, step: Step)
    requires RunFrom(INITIAL, steps).Some? && RunFrom(RunFrom(INITIAL, steps).value, more).Some?
    requires !Opens(step) && Superseded(RunFrom(INITIAL, steps).value, step.id)
    requires Possible(RunFrom(RunFrom(INITIAL, steps).value, more).value, step)
    ensures var t := RunFrom(RunFrom(INITIAL, steps).value, more).value; var u := Next(t, step);
            u.view == t.view && u.revision == t.revision && u.ops.Keys == t.ops.Keys
  {
    RunKeepsInv(INITIAL, steps);
    StaysSuperseded(RunFrom(INITIAL, steps).value, more, step.id);
    SupersededTurn(RunFrom(RunFrom(INITIAL, steps).value, more).value, step);
  }

  ghost predicate AllSuperseded(s: Store) {
    forall id | id in s.ops :: Superseded(s, id)
  }

  /** So where every operation is superseded, no order of completions changes what the views read. */
  lemma {:induction false} SupersededRun(s: Store, more: seq<Step>)
    requires AllSuperseded(s) && RunFrom(s, more).Some?
    requires forall i | 0 <= i < |more| :: !Opens(more[i])
    ensures RunFrom(s, more).value.view == s.view && AllSuperseded(RunFrom(s, more).value)
  {
    if more != [] {
      SupersededRun(s, more[..|more| - 1]);
      SupersededTurn(RunFrom(s, more[..|more| - 1]).value, more[|more| - 1]);
    }
  }

  /**
   * After the session is invalidated, nothing that was in flight can log anybody in again, whatever
   * is begun later; and while nothing is begun the views stay logged out.
   */
  lemma {:induction false} InvalidationHolds(steps: seq<Step>, more: seq<Step>)
    requires RunFrom(INITIAL, steps + [Invalidate]).Some?
    requires RunFrom(RunFrom(INITIAL, steps + [Invalidate]).value, more).Some?
    ensures var s := RunFrom(INITIAL, steps + [Invalidate]).value; var t := RunFrom(s, more).value;
            && (forall step | Possible(t, step) && !Opens(step) && step.id in s.ops :: Next(t, step).view == t.view)
            && ((forall i | 0 <= i < |more| :: !Opens(more[i])) ==> t.view == View(false, true, false, false))
  {
    var s := RunFrom(INITIAL, steps + [Invalidate]).value;
    var t := RunFrom(s, more).value;
    assert (steps + [Invalidate])[..|steps|] == steps;
    RunKeepsInv(INITIAL, steps);
    assert AllSuperseded(s);
    forall step | Possible(t, step) && !Opens(step) && step.id in s.ops ensures Next(t, step).view == t.view {
      SupersededForever(steps + [Invalidate], more, step);
    }
    if forall i | 0 <= i < |more| :: !Opens(more[i]) { SupersededRun(s, more); }
  }

  /**
   * When a login or logout has called the server, every login, logout and refresh begun before it
   * is over; in particular no two logins or logouts overlap.
   */
  lemma CookieCallsAreSerial(steps: seq<Step>, id: Id, earlier: Id)
    requires RunFrom(INITIAL, steps).Some?
    requires var s := RunFrom(INITIAL, steps).value;
             && IsChange(s, id) && !s.ops[id].phase.Waiting?
             && earlier in s.ops && earlier < id && SetsCookie(s.ops[earlier])
    ensures match RunFrom(INITIAL, steps).value.ops[earlier]
            case Load(_, _, load) => load.LoadSettled?
            case Change(_, _, _, _, phase) => phase.Settled?
  {
    RunKeepsInv(INITIAL, steps);
    assert EarlierSettled(RunFrom(INITIAL, steps).value, id);
  }

  /** A login, logout or refresh whose server call has started and has not come back. */
  ghost predicate SettingCookie(s: Store, id: Id) {
    id in s.ops &&
    match s.ops[id]
    case Load(kind, _, load) => kind.Refresh? && load.Loading?
    case Change(_, _, _, _, phase) => phase.Calling?
  }

  /** Two cookie-setting calls overlap only when the later one is a refresh and the earlier one was superseded. */
  lemma OverlapIsSuperseded(steps: seq<Step>, earlier: Id, later: Id)
    requires RunFrom(INITIAL, steps).Some? && earlier < later
    requires SettingCookie(RunFrom(INITIAL, steps).value, earlier)
             && SettingCookie(RunFrom(INITIAL, steps).value, later)
    ensures RunFrom(INITIAL, steps).value.ops[later].Load? && Superseded(RunFrom(INITIAL, steps).value, earlier)
  {
    RunKeepsInv(INITIAL, steps);
    if IsChange(RunFrom(INITIAL, steps).value, later) { CookieCallsAreSerial(steps, later, earlier); }
  }

  /** A refresh of the current revision that is under way is the pending one. */
  ghost predicate RefreshPending(s: Store) {
    forall id | SettingCookie(s, id) && s.ops[id].Load? && s.ops[id].revision == s.revision ::
      s.pendingRefresh == Some(id)
  }

  lemma {:induction false} CurrentRefreshIsPending(steps: seq<Step>)
    requires RunFrom(INITIAL, steps).Some?
    ensures RefreshPending(RunFrom(INITIAL, steps).value)
  {
    if steps != [] {
      CurrentRefreshIsPending(steps[..|steps| - 1]);
      RunKeepsInv(INITIAL, steps[..|steps| - 1]);
      StepKeepsRefreshPending(RunFrom(INITIAL, steps[..|steps| - 1]).value, steps[|steps| - 1]);
    }
  }

  lemma StepKeepsRefreshPending(s: Store, step: Step)
    requires Fresh(s) && RefreshPending(s) && Possible(s, step)
    ensures RefreshPending(Next(s, step))
  {
    var t := Next(s, step);
    forall id | SettingCookie(t, id) && t.ops[id].Load? && t.ops[id].revision == t.revision
      ensures t.pendingRefresh == Some(id)
    {
      if id in s.ops { assert SettingCookie(s, id); }
    }
  }

  /** A login, logout or refresh that has not heard from the server yet, whether or not its call has started. */
  ghost predicate Pending(s: Store, id: Id) {
    id in s.ops &&
    match s.ops[id]
    case Load(kind, _, load) => kind.Refresh? && load.Loading?
    case Change(_, _, _, _, phase) => phase.Waiting? || phase.Calling?
  }

  /** An operation beside which a refresh begins has been superseded before, even if it still waits. */
  lemma {:induction false} RefreshBeginsPastSuperseded(steps: seq<Step>, step: Step, earlier: Id)
    requires RunFrom(INITIAL, steps).Some? && Possible(RunFrom(INITIAL, steps).value, step)
    requires Pending(RunFrom(INITIAL, steps).value, earlier)
    requires SettingCookie(Next(RunFrom(INITIAL, steps).value, step), RunFrom(INITIAL, steps).value.nextId)
    ensures Superseded(RunFrom(INITIAL, steps).value, earlier)
  {
    RunKeepsInv(INITIAL, steps);
    CurrentRefreshIsPending(steps);
    var s := RunFrom(INITIAL, steps).value;
    assert IsLoad(s, earlier) ==> SettingCookie(s, earlier);
    if s.ops[earlier].revision == s.revision && IsChange(s, earlier) { CurrentChangeIsNewest(s, earlier); }
  }

  // ----- loading -----

  /** While the views show "loading", the newest change holds the revision and is unsettled. */
  lemma LoadingIsOwned(steps: seq<Step>)
    requires RunFrom(INITIAL, steps).Some?
    ensures var s := RunFrom(INITIAL, steps).value;
            s.view.loading <==> exists id :: IsChange(s, id) && !IsSettled(s, id) && s.ops[id].revision == s.revision
  {
    RunKeepsInv(INITIAL, steps);
    var s := RunFrom(INITIAL, steps).value;
    forall id | IsChange(s, id) && !IsSettled(s, id) && s.ops[id].revision == s.revision ensures s.view.loading {
      CurrentChangeIsNewest(s, id);
    }
  }

  /** `t` is reached from `s` by answers to calls under way; the operations are the same ones. */
  ghost predicate Answers(s: Store, more: seq<Step>, t: Store) {
    && RunFrom(s, more) == Some(t) && (forall i | 0 <= i < |more| :: !Opens(more[i]))
    && t.revision == s.revision && t.transition == s.transition && t.ops.Keys == s.ops.Keys
    && forall id | id in s.ops :: SameOp(s.ops[id], t.ops[id]) && (IsSettled(s, id) ==> IsSettled(t, id))
  }

  lemma {:induction false} RunCompose(s: Store, a: seq<Step>, b: seq<Step>)
    requires RunFrom(s, a).Some?
    ensures RunFrom(s, a + b) == RunFrom(RunFrom(s, a).value, b)
  {
    if b == [] { assert a + b == a; } else {
      assert (a + b)[..|a + b| - 1] == a + b[..|b| - 1];
      RunCompose(s, a, b[..|b| - 1]);
    }
  }

  lemma AnswersCompose(s: Store, a: seq<Step>, t: Store, b: seq<Step>, u: Store)
    requires Answers(s, a, t) && Answers(t, b, u)
    ensures Answers(s, a + b, u)
  {
    RunCompose(s, a, b);
  }

  lemma AnswerOne(s: Store, step: Step)
    requires Possible(s, step) && !Opens(step) && !step.Continue? && !IsSettled(s, step.id)
    ensures Answers(s, [step], Next(s, step))
  {
    assert [step][..0] == [];
  }

  /** Takes one operation whose predecessors are over to its end. */
  lemma Drive(s: Store, id: Id) returns (more: seq<Step>, t: Store)
    requires Fresh(s) && Chain(s) && id in s.ops && SetsCookie(s.ops[id]) && !IsSettled(s, id) && EarlierSettled(s, id)
    requires s.ops[id].Load? ==> s.ops[id].revision != s.revision
    ensures Answers(s, more, t) && IsSettled(t, id)
    ensures if s.ops[id].revision != s.revision then t.view == s.view else !t.view.loading
  {
    var first := match s.ops[id]
      case Load(_, _, load) => if load.Loading? then Answer(id, Broken) else FinishLoad(id)
      case Change(_, _, _, _, phase) =>
        if phase.Waiting? then StartCall(id) else if phase.Calling? then Return(id, true) else FinishChange(id);
    if first.StartCall? { EarlierMeansPrior(s, id); }
    var u := Next(s, first);
    AnswerOne(s, first);
    if first.FinishLoad? || first.FinishChange? { return [first], u; }
    more, t := DriveOn(u, id);
    AnswersCompose(s, [first], u, more, t);
    more := [first] + more;
  }

  /** The same once the operation waits for nothing but answers. */
  lemma DriveOn(s: Store, id: Id) returns (more: seq<Step>, t: Store)
    requires id in s.ops && SetsCookie(s.ops[id]) && !IsSettled(s, id)
    requires match s.ops[id]
             case Load(_, r, load) => r != s.revision && load.Answered?
             case Change(_, _, _, _, phase) => !phase.Waiting?
    ensures Answers(s, more, t) && IsSettled(t, id)
    ensures if s.ops[id].revision != s.revision then t.view == s.view else !t.view.loading
    decreases if s.ops[id].Change? && s.ops[id].phase.Calling? then 1 else 0
  {
    var first := if s.ops[id].Load? then FinishLoad(id)
                 else if s.ops[id].phase.Calling? then Return(id, true)
                 else FinishChange(id);
    var u := Next(s, first);
    AnswerOne(s, first);
    if !first.Return? { return [first], u; }
    more, t := DriveOn(u, id);
    AnswersCompose(s, [first], u, more, t);
    more := [first] + more;
  }

  lemma EarlierMeansPrior(s: Store, id: Id)
    requires Chain(s) && IsChange(s, id) && EarlierSettled(s, id)
    ensures PriorSettled(s, id)
  {
  }

  lemma SettleBelow(s: Store, n: Id) returns (more: seq<Step>, t: Store)
    requires Inv(s) && s.view.loading && n <= s.transition.value
    ensures Answers(s, more, t) && Inv(t) && t.view.loading && EarlierSettled(t, n)
  {
    if n == 0 { return [], s; }
    more, t := SettleBelow(s, n - 1);
    var last, u := SettleNext(t, n - 1);
    AnswersCompose(s, more, t, last, u);
    more, t := more + last, u;
  }

  lemma SettleNext(s: Store, n: Id) returns (more: seq<Step>, t: Store)
    requires Inv(s) && s.view.loading && n < s.transition.value && EarlierSettled(s, n)
    ensures Answers(s, more, t) && Inv(t) && t.view.loading && EarlierSettled(t, n + 1)
  {
    if n !in s.ops || !SetsCookie(s.ops[n]) || IsSettled(s, n) { return [], s; }
    assert s.ops[n].revision < s.ops[s.transition.value].revision;
    more, t := Drive(s, n);
    RunKeepsInv(s, more);
    EarlierAnswered(s, more, t, n);
  }

  lemma EarlierAnswered(s: Store, more: seq<Step>, t: Store, n: Id)
    requires Answers(s, more, t) && EarlierSettled(s, n) && IsSettled(t, n)
    ensures EarlierSettled(t, n + 1)
  {
  }

  /** Answering the calls that are already under way always ends the loading state. */
  lemma LoadingEnds(steps: seq<Step>) returns (more: seq<Step>)
    requires RunFrom(INITIAL, steps).Some? && RunFrom(INITIAL, steps).value.view.loading
    ensures forall i | 0 <= i < |more| :: !Opens(more[i])
    ensures RunFrom(INITIAL, steps + more).Some? && !RunFrom(INITIAL, steps + more).value.view.loading
  {
    RunKeepsInv(INITIAL, steps);
    var s := RunFrom(INITIAL, steps).value;
    var first, t := SettleBelow(s, s.transition.value);
    var last, u := Drive(t, t.transition.value);
    AnswersCompose(s, first, t, last, u);
    more := first + last;
    RunCompose(INITIAL, steps, more);
  }

  // ----- loading never sticks -----

  /** How many turns an operation has before it settles. */
  function TurnsLeft(op: Op): nat {
    match op
    case Load(_, _, Loading) => 3
    case Load(_, _, Answered(_)) => 2
    case Load(_, _, Chained(_)) => 1
    case Load(_, _, LoadSettled) => 0
    case Change(_, _, _, _, Waiting) => 3
    case Change(_, _, _, _, Calling) => 2
    case Change(_, _, _, _, Returned) => 1
    case Change(_, _, _, _, Settled) => 0
  }

  function AllTurnsLeft(ops: map<Id, Op>, n: Id): nat {
    if n == 0 then 0 else AllTurnsLeft(ops, n - 1) + if n - 1 in ops then TurnsLeft(ops[n - 1]) else 0
  }

  lemma {:induction false} TurnTaken(ops: map<Id, Op>, id: Id, op: Op, n: Id)
    requires id in ops && TurnsLeft(op) < TurnsLeft(ops[id])
    ensures AllTurnsLeft(ops[id := op], n)
            == AllTurnsLeft(ops, n) - if id < n then TurnsLeft(ops[id]) - TurnsLeft(op) else 0
  {
    if n > 0 { TurnTaken(ops, id, op, n - 1); }
  }

  /** No check can chain a refresh any more. */
  ghost predicate ChecksSuperseded(s: Store) {
    forall id | IsLoad(s, id) :: s.ops[id].revision < s.revision
  }

  lemma AnswerTakesTurn(s: Store, step: Step)
    requires ChecksSuperseded(s) && Possible(s, step) && !Opens(step)
    ensures var t := Next(s, step);
            && ChecksSuperseded(t) && t.nextId == s.nextId
            && step.id in t.ops && TurnsLeft(t.ops[step.id]) < TurnsLeft(s.ops[step.id])
            && t.ops == s.ops[step.id := t.ops[step.id]]
  {
  }

  lemma {:induction false} AnswersRunOut(s: Store, more: seq<Step>)
    requires Fresh(s) && ChecksSuperseded(s) && RunFrom(s, more).Some?
    requires forall i | 0 <= i < |more| :: !Opens(more[i])
    ensures var t := RunFrom(s, more).value;
            && ChecksSuperseded(t) && t.nextId == s.nextId && t.ops.Keys == s.ops.Keys
            && |more| + AllTurnsLeft(t.ops, t.nextId) <= AllTurnsLeft(s.ops, s.nextId)
  {
    if more != [] {
      AnswersRunOut(s, more[..|more| - 1]);
      var u, step := RunFrom(s, more[..|more| - 1]).value, more[|more| - 1];
      AnswerTakesTurn(u, step);
      TurnTaken(u.ops, step.id, Next(u, step).ops[step.id], u.nextId);
    }
  }

  /** Only a new request of the user, or an invalidation, can still move the store. */
  ghost predicate Stuck(s: Store) {
    forall step | Possible(s, step) :: Opens(step)
  }

  lemma {:induction false} StuckMeansSettled(s: Store, n: Id)
    requires Inv(s) && Stuck(s)
    ensures EarlierSettled(s, n)
  {
    if n > 0 {
      StuckMeansSettled(s, n - 1);
      if n - 1 in s.ops && SetsCookie(s.ops[n - 1]) && !IsSettled(s, n - 1) { HasTurn(s, n - 1); }
    }
  }

  lemma HasTurn(s: Store, id: Id)
    requires Inv(s) && id in s.ops && SetsCookie(s.ops[id]) && !IsSettled(s, id) && EarlierSettled(s, id)
    ensures !Stuck(s)
  {
    var step := match s.ops[id]
      case Load(_, _, load) => if load.Loading? then Answer(id, Broken) else FinishLoad(id)
      case Change(_, _, _, _, phase) =>
        if phase.Waiting? then StartCall(id) else if phase.Calling? then Return(id, true) else FinishChange(id);
    if step.StartCall? { EarlierMeansPrior(s, id); }
    assert Possible(s, step) && !Opens(step);
  }

  /**
   * The loading state never sticks: however the calls under way are answered, only so many turns can
   * follow, and when none is left, loading is off.
   */
  lemma {:induction false} LoadingNeverSticks(steps: seq<Step>, more: seq<Step>)
    requires RunFrom(INITIAL, steps).Some? && RunFrom(INITIAL, steps).value.view.loading
    requires RunFrom(RunFrom(INITIAL, steps).value, more).Some? && forall i | 0 <= i < |more| :: !Opens(more[i])
    ensures var s := RunFrom(INITIAL, steps).value; var t := RunFrom(s, more).value;
            && |more| <= AllTurnsLeft(s.ops, s.nextId)
            && (Stuck(t) ==> !t.view.loading)
  {
    var s := RunFrom(INITIAL, steps).value;
    var t := RunFrom(s, more).value;
    RunKeepsInv(INITIAL, steps);
    AnswersRunOut(s, more);
    RunKeepsInv(s, more);
    if Stuck(t) && t.view.loading { StuckMeansSettled(t, t.transition.value + 1); }
  }

  // ----- the store object -----

  /** `useAuthStore`: every method runs from one await to the next. */
  class SessionStore {
    var isAuthenticated: bool
    var sessionChecked: bool
    var sessionCheckFailed: bool
    var loading: bool
    var revision: nat
    var pendingCheck: Option<Id>
    var pendingRefresh: Option<Id>
    var transition: Option<Id>
    var refreshBarrier: set<Id>
    var ops: map<Id, Op>
    var nextId: Id

    function Contents(): Store
      reads this
    {
      Store(View(isAuthenticated, sessionChecked, sessionCheckFailed, loading), revision, pendingCheck, pendingRefresh,
            transition, refreshBarrier, ops, nextId)
    }

    constructor ()
      ensures Contents() == INITIAL
    {
      isAuthenticated, sessionChecked, sessionCheckFailed, loading := false, false, false, false;
      revision, pendingCheck, pendingRefresh := 0, None, None;
      transition, refreshBarrier, ops, nextId := None, {}, map[], 0;
    }

    method LoadSession(kind: LoadKind) returns (id: Id)
      modifies this
      ensures id == old(nextId) && Contents() == BeginLoad(old(Contents()), kind)
    {
      revision := revision + 1;
      id := nextId;
      ops := ops[id := Load(kind, revision, Loading)];
      nextId := nextId + 1;
    }

    method CheckAuth()
      modifies this
      ensures Contents() == Next(old(Contents()), DoCheck)
    {
      if loading || pendingRefresh.Some? || pendingCheck.Some? { return; }
      var id := LoadSession(Check);
      pendingCheck := Some(id);
    }

    method RefreshSession()
      modifies this
      ensures Contents() == Next(old(Contents()), DoRefresh)
    {
      if loading || pendingRefresh.Some? { return; }
      var id := LoadSession(Refresh);
      pendingRefresh := Some(id);
      refreshBarrier := refreshBarrier + {id};
    }

    method LoadAnswers(id: Id, reply: Reply)
      requires Possible(Contents(), Answer(id, reply))
      modifies this
      ensures Contents() == Next(old(Contents()), Answer(id, reply))
    {
      var result;
      if ops[id].revision != revision {
        result := CurrentResult(Contents().view);
      } else {
        match reply {
          case Status(authenticated) =>
            isAuthenticated, sessionChecked, sessionCheckFailed := authenticated, true, false;
            result := CurrentResult(Contents().view);
          case Unauthorized =>
            isAuthenticated, sessionChecked, sessionCheckFailed := false, true, false;
            result := Unauthenticated;
          case Broken =>
            sessionChecked, sessionCheckFailed := false, true;
            result := Unavailable;
        }
      }
      ops := ops[id := ops[id].(load := Answered(result))];
    }

    method CheckContinues(id: Id)
      requires Possible(Contents(), Continue(id))
      modifies this
      ensures Contents() == Next(old(Contents()), Continue(id))
    {
      var next := None;
      if ops[id].load.result.Unauthenticated? && ops[id].revision == revision && !loading {
        RefreshSession();
        next := pendingRefresh;
      }
      ops := ops[id := ops[id].(load := Chained(next))];
    }

    method LoadFinally(id: Id)
      requires Possible(Contents(), FinishLoad(id))
      modifies this
      ensures Contents() == Next(old(Contents()), FinishLoad(id))
    {
      ops := ops[id := ops[id].(load := LoadSettled)];
      if ops[id].kind.Check? {
        if pendingCheck == Some(id) { pendingCheck := None; }
      } else {
        if pendingRefresh == Some(id) { pendingRefresh := None; }
      }
    }

    method InvalidatePendingCheck()
      modifies this
      ensures Contents() == WithoutPending(old(Contents()))
    {
      revision := revision + 1;
      pendingCheck, pendingRefresh := None, None;
      sessionCheckFailed := false;
    }

    method BeginTransition(kind: ChangeKind)
      modifies this
      ensures Contents() == Next(old(Contents()), Begin(kind))
    {
      var prior, barrier := transition, refreshBarrier;
      InvalidatePendingCheck();
      loading := true;
      ops := ops[nextId := Change(kind, revision, prior, barrier, Waiting)];
      transition := Some(nextId);
      nextId := nextId + 1;
    }

    method ChangeStarts(id: Id)
      requires Possible(Contents(), StartCall(id))
      modifies this
      ensures Contents() == Next(old(Contents()), StartCall(id))
    {
      ops := ops[id := ops[id].(phase := Calling)];
    }

    method ChangeReturns(id: Id, ok: bool)
      requires Possible(Contents(), Return(id, ok))
      modifies this
      ensures Contents() == Next(old(Contents()), Return(id, ok))
    {
      if revision == ops[id].revision {
        if ops[id].change.Login? {
          isAuthenticated := ok;
          if ok { sessionChecked := true; }
        } else {
          isAuthenticated, sessionChecked := false, true;
        }
      }
      ops := ops[id := ops[id].(phase := Returned)];
    }

    method ChangeFinally(id: Id)
      requires Possible(Contents(), FinishChange(id))
      modifies this
      ensures Contents() == Next(old(Contents()), FinishChange(id))
    {
      if revision == ops[id].revision { loading := false; }
      ops := ops[id := ops[id].(phase := Settled)];
    }

    method InvalidateSession()
      modifies this
      ensures Contents() == Next(old(Contents()), Invalidate)
    {
      InvalidatePendingCheck();
      isAuthenticated, sessionChecked, loading := false, true, false;
    }
  }
}
