/**
 * Backup scheduling: the binary search for the last cron firing, and the cursor protocol that turns
 * firings into scheduled records across crashes.  A parsed schedule is the set of minutes at which
 * it fires; all instants are minute indexes since the epoch.
 */
module Schedule {
  import opened Wrappers

  const MAX_BACKDATE_MINUTES: int := 40 * 366 * 24 * 60

  /** `r` is the first firing strictly after minute `u`, None if there is none. */
  ghost predicate IsFirstAfter(fires: int -> bool, u: int, r: Option<int>) {
    match r
    case None => forall m | m > u :: !fires(m)
    case Some(first) => first > u && fires(first) && forall m | u < m < first :: !fires(m)
  }

  /** `r` is the last firing in the window after `low` and up to `high`, None if there is none. */
  ghost predicate IsLastIn(fires: int -> bool, low: int, high: int, r: Option<int>) {
    match r
    case None => forall m | low < m <= high :: !fires(m)
    case Some(last) => low < last <= high && fires(last) && forall m | last < m <= high :: !fires(m)
  }

  /**
   * What the search answers for the window after `low` and up to `high`: the last firing in it, but
   * None when nothing fires from `high` on, even if the window holds a firing.
   */
  ghost predicate SearchAnswers(fires: int -> bool, low: int, high: int, r: Option<int>) {
    if exists m :: m >= high && fires(m) then IsLastIn(fires, low, high, r) else r.None?
  }

  // ----- the search -----

  /**
   * `last_firing_at_or_before` for the minute containing `at` (in seconds).  `after` stands for the
   * cron library's "next firing strictly after".  The answer is the last firing of the look-back
   * window in every case but one: nothing fires after the minute, the minute itself does not fire,
   * and the window does contain a firing.  Then, and only then, it wrongly answers None.
   */
  method LastFiringAtOrBefore(at: int, ghost fires: int -> bool, after: int -> Option<int>) returns (r: Option<int>)
    requires forall u :: IsFirstAfter(fires, u, after(u))
    ensures var high := at / 60; var low := high - MAX_BACKDATE_MINUTES;
            && (IsLastIn(fires, low, high, r) <==>
                after(high).Some? || fires(high) || forall m | low < m <= high :: !fires(m))
            && SearchAnswers(fires, low, high, r)
  {
    var high := at / 60;
    var low := high - MAX_BACKDATE_MINUTES;
    assert IsFirstAfter(fires, low, after(low));
    assert IsFirstAfter(fires, high, after(high));
    if after(low).None? || after(low).value > high { return None; }
    var lo, hi := low, high;
    while lo < hi
      invariant low <= lo <= hi <= high
      invariant hi < high ==> after(hi).Some? && after(hi).value > high
      invariant lo == low || after(lo - 1).None? || after(lo - 1).value <= high
    {
      var mid := lo + (hi - lo) / 2;
      if after(mid).Some? && after(mid).value > high { hi := mid; } else { lo := mid + 1; }
    }
    assert IsFirstAfter(fires, lo, after(lo));
    assert IsFirstAfter(fires, lo - 1, after(lo - 1));
    var firing := after(lo - 1);
    r := if firing.Some? && firing.value <= high then firing else None;
  }

  /** An example of the exception: the one firing lies a minute back and is the right answer. */
  lemma ExhaustedSchedule(fires: int -> bool)
    requires forall m :: fires(m) <==> m == 99
    ensures IsFirstAfter(fires, 100, None) && !fires(100) && IsLastIn(fires, 100 - MAX_BACKDATE_MINUTES, 100, Some(99))
    ensures !IsLastIn(fires, 100 - MAX_BACKDATE_MINUTES, 100, None)
  {
  }

  // ----- the cursor protocol -----

  /** Inserting: the conflict check and insert come next.  Moving: the cursor write comes next. */
  datatype Phase = Idle | Inserting(now: int, scheduled: int) | Moving(now: int) | Rest

  /**
   * `rows`: scheduled times of the records that exist (unique in the store).  `finished`: those that
   * have run and may be deleted.  `history`: scheduled times of all records ever inserted, in order.
   */
  datatype World = World(clock: int, cursor: Option<int>, rows: set<int>, finished: set<int>, history: seq<int>,
                         phase: Phase)

  datatype Step =
    | Tick(to: int)
    | Look(last: Option<int>)
    | InsertRecord(activeConflict: bool)
    | MoveCursor(next: Option<int>)
    | Process(scheduled: int)
    | Delete(scheduled: int)
    | EndCycle
    | Crash

  ghost predicate Possible(fires: int -> bool, w: World, step: Step) {
    match step
    case Tick(to) => w.clock <= to
    case Look(last) => w.phase.Idle? && SearchAnswers(fires, w.clock - MAX_BACKDATE_MINUTES, w.clock, last)
    case InsertRecord(_) => w.phase.Inserting?
    case MoveCursor(next) => w.phase.Moving? && IsFirstAfter(fires, w.phase.now, next)
    case Process(s) => w.phase.Rest? && s in w.rows
    case Delete(s) => s in w.finished
    case EndCycle => w.phase.Rest?
    case Crash => true
  }

  ghost function Next(w: World, step: Step): World {
    match step
    case Tick(to) => w.(clock := to)
    case Look(last) =>
      w.(phase := if w.cursor.Some? && w.cursor.value > w.clock then Rest
                  else if w.cursor.None? || last.None? then Moving(w.clock)
                  else Inserting(w.clock, last.value))
    case InsertRecord(activeConflict) =>
      if w.phase.Inserting? then
        var s := w.phase.scheduled;
        if activeConflict || s in w.rows then w.(phase := Moving(w.phase.now))
        else w.(rows := w.rows + {s}, history := w.history + [s], phase := Moving(w.phase.now))
      else w
    case MoveCursor(next) => w.(cursor := if next.Some? then next else w.cursor, phase := Rest)
    case Process(s) => w.(finished := w.finished + {s})
    case Delete(s) => w.(rows := w.rows - {s}, finished := w.finished - {s})
    case EndCycle => w.(phase := Idle)
    case Crash => w.(phase := Idle)
  }

  ghost function RunFrom(fires: int -> bool, w: World, steps: seq<Step>): Option<World> {
    if steps == [] then Some(w) else
      var before := RunFrom(fires, w, steps[..|steps| - 1]);
      var step := steps[|steps| - 1];
      if before.Some? && Possible(fires, before.value, step) then Some(Next(before.value, step)) else None
  }

  ghost predicate Initial(w: World) {
    w.cursor.None? && w.rows == {} && w.finished == {} && w.history == [] && w.phase.Idle?
  }

  /** An inserted time lies behind the cursor, or its record still exists and blocks a second one. */
  ghost predicate Settled(w: World, h: int) {
    w.cursor.Some? && (h < w.cursor.value || (h in w.rows && h !in w.finished && h <= w.clock))
  }

  ghost predicate Inv(fires: int -> bool, w: World) {
    && (w.cursor.Some? ==> fires(w.cursor.value))
    && (forall i | 0 <= i < |w.history| :: Settled(w, w.history[i]) && fires(w.history[i]))
    && (forall i, j | 0 <= i < j < |w.history| :: w.history[i] < w.history[j])
    && (forall s | s in w.rows :: s in w.history)
    && w.finished <= w.rows
    && PhaseOk(fires, w)
  }

  ghost predicate PhaseOk(fires: int -> bool, w: World) {
    && (w.phase.Rest? ==> w.cursor.Some? && forall i | 0 <= i < |w.history| :: w.history[i] < w.cursor.value)
    && (w.phase.Moving? ==> w.phase.now <= w.clock && forall i | 0 <= i < |w.history| :: w.history[i] <= w.phase.now)
    && (w.phase.Inserting? ==>
          && w.phase.scheduled <= w.phase.now <= w.clock && fires(w.phase.scheduled)
          && w.cursor.Some? && w.cursor.value <= w.phase.scheduled
          && forall i | 0 <= i < |w.history| :: w.history[i] <= w.phase.scheduled)
  }

  /** There is always a later firing. */
  ghost predicate Unending(fires: int -> bool) {
    forall u :: !IsFirstAfter(fires, u, None)
  }

  lemma StepKeepsSettled(fires: int -> bool, w: World, step: Step, i: nat)
    requires Inv(fires, w) && Possible(fires, w, step) && Unending(fires) && i < |Next(w, step).history|
    ensures Settled(Next(w, step), Next(w, step).history[i]) && fires(Next(w, step).history[i])
  {
  }

  lemma StepKeepsOrder(fires: int -> bool, w: World, step: Step)
    requires Inv(fires, w) && Possible(fires, w, step)
    ensures forall i, j | 0 <= i < j < |Next(w, step).history| :: Next(w, step).history[i] < Next(w, step).history[j]
    ensures forall s | s in Next(w, step).rows :: s in Next(w, step).history
    ensures Next(w, step).finished <= Next(w, step).rows
    ensures Next(w, step).cursor.Some? ==> fires(Next(w, step).cursor.value)
  {
  }

  /** When a cycle finds a firing due, everything inserted before is at most that firing. */
  lemma LookIsLatest(fires: int -> bool, w: World, last: int)
    requires Inv(fires, w) && IsLastIn(fires, w.clock - MAX_BACKDATE_MINUTES, w.clock, Some(last))
    requires w.cursor.Some? && w.cursor.value <= w.clock
    ensures w.cursor.value <= last && forall i | 0 <= i < |w.history| :: w.history[i] <= last
  {
  }

  lemma StepKeepsPhase(fires: int -> bool, w: World, step: Step)
    requires Inv(fires, w) && Possible(fires, w, step) && Unending(fires)
    ensures PhaseOk(fires, Next(w, step))
  {
    if step.Look? {
      if w.cursor.Some? && w.cursor.value <= w.clock && step.last.Some? { LookIsLatest(fires, w, step.last.value); }
      assert forall i | 0 <= i < |w.history| :: Settled(w, w.history[i]);
    }
  }

  lemma {:induction false} RunKeepsInv(fires: int -> bool, w: World, steps: seq<Step>)
    requires Inv(fires, w) && RunFrom(fires, w, steps).Some? && Unending(fires)
    ensures Inv(fires, RunFrom(fires, w, steps).value)
  {
    if steps != [] {
      var v, step := RunFrom(fires, w, steps[..|steps| - 1]).value, steps[|steps| - 1];
      RunKeepsInv(fires, w, steps[..|steps| - 1]);
      StepKeepsOrder(fires, v, step);
      StepKeepsPhase(fires, v, step);
      forall i | 0 <= i < |Next(v, step).history|
        ensures Settled(Next(v, step), Next(v, step).history[i]) && fires(Next(v, step).history[i])
      {
        StepKeepsSettled(fires, v, step, i);
      }
    }
  }

  ghost predicate Increasing(h: seq<int>) {
    forall i, j | 0 <= i < j < |h| :: h[i] < h[j]
  }

  ghost predicate NeverRepeats(fires: int -> bool) {
    forall start, steps | Initial(start) && RunFrom(fires, start, steps).Some? ::
      Increasing(RunFrom(fires, start, steps).value.history)
  }

  /**
   * However the worker crashes between insert and cursor move, and whatever finished records are
   * deleted, the scheduled times it inserts strictly increase (no firing is backed up twice),
   * exactly for the schedules that never run out, or never fire at all.
   */
  lemma ScheduledTimesIncrease(fires: int -> bool)
    ensures NeverRepeats(fires) <==> Unending(fires) || forall m :: !fires(m)
  {
    if Unending(fires) {
      forall start, steps | Initial(start) && RunFrom(fires, start, steps).Some?
        ensures Increasing(RunFrom(fires, start, steps).value.history)
      {
        RunKeepsInv(fires, start, steps);
      }
    } else if forall m :: !fires(m) {
      forall start, steps | Initial(start) && RunFrom(fires, start, steps).Some?
        ensures Increasing(RunFrom(fires, start, steps).value.history)
      {
        NothingInserted(fires, start, steps);
      }
    } else {
      var u :| IsFirstAfter(fires, u, None);
      var m :| fires(m);
      var last := LastFiring(fires, m, u);
      var start, steps := RepeatedBackup(fires, last);
      var history := RunFrom(fires, start, steps).value.history;
      assert history[0] == history[1];
    }
  }

  lemma {:induction false} NothingInserted(fires: int -> bool, start: World, steps: seq<Step>)
    requires Initial(start) && RunFrom(fires, start, steps).Some? && forall m :: !fires(m)
    ensures RunFrom(fires, start, steps).value.history == [] && !RunFrom(fires, start, steps).value.phase.Inserting?
  {
    if steps != [] { NothingInserted(fires, start, steps[..|steps| - 1]); }
  }

  lemma LastFiring(fires: int -> bool, m: int, u: int) returns (last: int)
    requires fires(m) && IsFirstAfter(fires, u, None)
    ensures fires(last) && IsFirstAfter(fires, last, None)
    decreases u - m
  {
    if exists n :: n > m && fires(n) {
      var n :| n > m && fires(n);
      last := LastFiring(fires, n, u);
    } else {
      last := m;
    }
  }

  /**
   * The last firing is inserted and run.  In the next cycle it is found due again, its record still
   * blocks a second one, and then that record is deleted; the cycle after that inserts it again.
   */
  lemma RepeatedBackup(fires: int -> bool, last: int) returns (start: World, steps: seq<Step>)
    requires fires(last) && IsFirstAfter(fires, last, None)
    ensures Initial(start) && RunFrom(fires, start, steps).Some?
            && RunFrom(fires, start, steps).value.history == [last, last]
  {
    start, steps := FirstBackup(fires, last);
    steps := Append(fires, start, steps, Process(last));
    steps := Append(fires, start, steps, EndCycle);
    steps := Append(fires, start, steps, Look(Some(last)));
    steps := Append(fires, start, steps, InsertRecord(false));
    steps := Append(fires, start, steps, MoveCursor(None));
    steps := Append(fires, start, steps, Delete(last));
    steps := Append(fires, start, steps, Crash);
    steps := Append(fires, start, steps, Look(Some(last)));
    steps := Append(fires, start, steps, InsertRecord(false));
  }

  /** The worker starts just before the last firing, backs it up, and finds no firing to move the cursor to. */
  lemma FirstBackup(fires: int -> bool, last: int) returns (start: World, steps: seq<Step>)
    requires fires(last) && IsFirstAfter(fires, last, None)
    ensures Initial(start) && RunFrom(fires, start, steps) == Some(World(last, Some(last), {last}, {}, [last], Rest))
  {
    start := World(last - 1, None, {}, {}, [], Idle);
    var before := LastBefore(fires, last - 1, MAX_BACKDATE_MINUTES);
    steps := Append(fires, start, [], Look(before));
    steps := Append(fires, start, steps, MoveCursor(Some(last)));
    steps := Append(fires, start, steps, EndCycle);
    steps := Append(fires, start, steps, Tick(last));
    steps := Append(fires, start, steps, Look(Some(last)));
    steps := Append(fires, start, steps, InsertRecord(false));
    steps := Append(fires, start, steps, MoveCursor(None));
    assert {} + {last} == {last} && [] + [last] == [last];
  }

  lemma LastBefore(fires: int -> bool, high: int, width: nat) returns (r: Option<int>)
    ensures IsLastIn(fires, high - width, high, r)
    decreases width
  {
    if width == 0 { r := None; }
    else if fires(high) { r := Some(high); }
    else { r := LastBefore(fires, high - 1, width - 1); }
  }

  lemma Append(fires: int -> bool, start: World, steps: seq<Step>, step: Step) returns (longer: seq<Step>)
    requires RunFrom(fires, start, steps).Some? && Possible(fires, RunFrom(fires, start, steps).value, step)
    ensures longer == steps + [step]
            && RunFrom(fires, start, longer) == Some(Next(RunFrom(fires, start, steps).value, step))
  {
    longer := steps + [step];
    assert longer[..|steps|] == steps;
  }

  // ----- a due firing is backed up -----

  /** A cycle that is due inserts the last firing, unless its record exists already, and moves the cursor on. */
  lemma DueCycle(fires: int -> bool, start: World, steps: seq<Step>, last: int, next: int) returns (all: seq<Step>)
    requires RunFrom(fires, start, steps).Some?
    requires var w := RunFrom(fires, start, steps).value;
             && w.phase.Idle? && w.cursor.Some? && w.cursor.value <= w.clock
             && IsLastIn(fires, w.clock - MAX_BACKDATE_MINUTES, w.clock, Some(last))
             && IsFirstAfter(fires, w.clock, Some(next))
    ensures all == steps + [Look(Some(last))] + [InsertRecord(false)] + [MoveCursor(Some(next))]
    ensures RunFrom(fires, start, all).Some?
    ensures var w, v := RunFrom(fires, start, steps).value, RunFrom(fires, start, all).value;
            && v.cursor == Some(next) && last in v.rows && v.clock == w.clock && v.phase.Rest?
            && v.history == if last in w.rows then w.history else w.history + [last]
  {
    assert fires(next);
    all := Append(fires, start, steps, Look(Some(last)));
    all := Append(fires, start, all, InsertRecord(false));
    all := Append(fires, start, all, MoveCursor(Some(next)));
  }

  /** Before the cursor nothing happens, and without one the cycle only sets it. */
  lemma IdleCycle(fires: int -> bool, w: World, last: Option<int>, next: Option<int>)
    requires Possible(fires, w, Look(last)) && IsFirstAfter(fires, w.clock, next)
    ensures w.cursor.Some? && w.cursor.value > w.clock ==> Next(w, Look(last)) == w.(phase := Rest)
    ensures w.cursor.None? ==>
              && Possible(fires, Next(w, Look(last)), MoveCursor(next))
              && Next(Next(w, Look(last)), MoveCursor(next)) == w.(cursor := next, phase := Rest)
  {
  }

  /** What is inserted is a firing that was due: not before the cursor, and not after the clock. */
  lemma {:induction false} InsertsAreDue(fires: int -> bool, start: World, steps: seq<Step>, activeConflict: bool)
    requires Unending(fires) && Initial(start) && RunFrom(fires, start, steps).Some?
    requires Possible(fires, RunFrom(fires, start, steps).value, InsertRecord(activeConflict))
    ensures var w := RunFrom(fires, start, steps).value; var v := Next(w, InsertRecord(activeConflict));
            && |v.history| <= |w.history| + 1
            && (v.history != w.history ==>
                  var s := v.history[|w.history|];
                  !activeConflict && fires(s) && w.cursor.Some? && w.cursor.value <= s <= w.clock && s !in w.rows)
  {
    RunKeepsInv(fires, start, steps);
  }
}
