/**
 * Connection registration and graceful drain of `gateway-host`: one atomic word holds the drain
 * bit and the number of live connections.  Registration is a compare-and-swap loop, dropping a
 * guard subtracts one, draining sets the bit, and whoever leaves the count at zero notifies the
 * waiters, after its atomic operation.  Atomic operations are sequentially consistent steps.
 */
module Drain {
  import opened Wrappers

  const DRAINING_BIT: nat := 0x8000_0000_0000_0000
  const ACTIVE_MASK: nat := DRAINING_BIT - 1

  type Word = w: nat | w < 2 * DRAINING_BIT

  type Tid = nat

  // ----- the packed word -----

  function Active(w: Word): nat {
    if w >= DRAINING_BIT then w - DRAINING_BIT else w
  }

  predicate Draining(w: Word) {
    w >= DRAINING_BIT
  }

  function FetchOr(w: Word): Word {
    if Draining(w) then w else w + DRAINING_BIT
  }

  /** Two's complement wrap-around on 64 bits, as the machine does it. */
  function WrappingAdd(w: Word, delta: int): Word {
    (w + delta) % (2 * DRAINING_BIT)
  }

  predicate Refuses(observed: Word) {
    Draining(observed) || Active(observed) == ACTIVE_MASK
  }

  /** The masks of the source, on a 64-bit word with and without the drain bit. */
  lemma BitIsTest(b: bv64)
    ensures b & 0x8000_0000_0000_0000 != 0 <==> b >= 0x8000_0000_0000_0000
  {
  }

  lemma BitOperationsOff(b: bv64)
    requires b < 0x8000_0000_0000_0000
    ensures b & 0x7FFF_FFFF_FFFF_FFFF == b && b | 0x8000_0000_0000_0000 == b + 0x8000_0000_0000_0000
  {
  }

  lemma BitOperationsOn(b: bv64)
    requires b >= 0x8000_0000_0000_0000
    ensures b & 0x7FFF_FFFF_FFFF_FFFF == b - 0x8000_0000_0000_0000 && b | 0x8000_0000_0000_0000 == b
  {
  }

  lemma WordRange(b: bv64)
    ensures b as nat < 2 * DRAINING_BIT
  {
  }

  lemma TopBitOff(b: bv64)
    requires b >= 0x8000_0000_0000_0000
    ensures (b - 0x8000_0000_0000_0000) as nat == (b as nat) - DRAINING_BIT
  {
  }

  lemma TopBitOn(b: bv64)
    requires b < 0x8000_0000_0000_0000
    ensures (b + 0x8000_0000_0000_0000) as nat == (b as nat) + DRAINING_BIT
  {
  }

  lemma WordBelow(b: bv64)
    requires b < 0x8000_0000_0000_0000
    ensures b as nat < DRAINING_BIT
  {
    TopBitOn(b);
    WordRange(b + 0x8000_0000_0000_0000);
  }

  lemma WordAbove(b: bv64)
    requires b >= 0x8000_0000_0000_0000
    ensures b as nat >= DRAINING_BIT
  {
    TopBitOff(b);
  }

  /** So on machine words the masks compute exactly the count, the drain test and the draining above. */
  lemma BitOperations(b: bv64)
    ensures b as nat < 2 * DRAINING_BIT
    ensures (b & 0x7FFF_FFFF_FFFF_FFFF) as nat == Active(b as nat)
    ensures b & 0x8000_0000_0000_0000 != 0 <==> Draining(b as nat)
    ensures (b | 0x8000_0000_0000_0000) as nat == FetchOr(b as nat)
  {
    WordRange(b);
    BitIsTest(b);
    if b < 0x8000_0000_0000_0000 {
      BitOperationsOff(b);
      TopBitOn(b);
      WordBelow(b);
    } else {
      BitOperationsOn(b);
      TopBitOff(b);
      WordAbove(b);
    }
  }

  // ----- interleavings -----

  /** Enabled: registered for notification, count not read yet.  Parked: read a non-zero count. */
  datatype Waiter = Enabled(notified: bool) | Parked(notified: bool)

  /**
   * `guards`: live registrations.  `registering`: the word each task inside `try_register` last
   * observed.  `notifying`: `notify_waiters` calls that are due but not made yet.
   */
  datatype World = World(word: Word, guards: set<nat>, nextGuard: nat, registering: map<Tid, Word>,
                         waiters: map<Tid, Waiter>, notifying: nat)

  datatype Step =
    | Load(task: Tid)
    | CompareExchange(task: Tid, spurious: bool)
    | BeginDraining
    | DropGuard(guard: nat)
    | NotifyWaiters
    | Enable(task: Tid)
    | ReadCount(task: Tid)
    | TimeOut(task: Tid)

  const INITIAL := World(0, {}, 0, map[], map[], 0)

  ghost predicate Possible(w: World, step: Step) {
    match step
    case Load(t) => t !in w.registering
    case CompareExchange(t, _) => t in w.registering
    case BeginDraining => true
    case DropGuard(g) => g in w.guards
    case NotifyWaiters => w.notifying > 0
    case Enable(t) => t in w.waiters ==> w.waiters[t] == Parked(true)
    case ReadCount(t) => t in w.waiters && w.waiters[t].Enabled?
    case TimeOut(t) => t in w.waiters
  }

  ghost predicate Registers(w: World, step: Step) {
    && step.CompareExchange? && !step.spurious && step.task in w.registering
    && !Refuses(w.registering[step.task]) && w.registering[step.task] == w.word
  }

  ghost function Next(w: World, step: Step): World
    requires Possible(w, step)
  {
    match step
    case Load(t) => w.(registering := w.registering[t := w.word])
    case CompareExchange(t, _) =>
      if Refuses(w.registering[t]) then w.(registering := w.registering - {t})
      else if Registers(w, step) then
        w.(word := WrappingAdd(w.word, 1), guards := w.guards + {w.nextGuard}, nextGuard := w.nextGuard + 1,
           registering := w.registering - {t})
      else w.(registering := w.registering[t := w.word])
    case BeginDraining =>
      w.(word := FetchOr(w.word), notifying := w.notifying + if Active(w.word) == 0 then 1 else 0)
    case DropGuard(g) =>
      w.(word := WrappingAdd(w.word, -1), guards := w.guards - {g},
         notifying := w.notifying + if Active(w.word) == 1 then 1 else 0)
    case NotifyWaiters =>
      w.(waiters := map t | t in w.waiters :: w.waiters[t].(notified := true), notifying := w.notifying - 1)
    case Enable(t) => w.(waiters := w.waiters[t := Waiter.Enabled(false)])
    case ReadCount(t) =>
      if Active(w.word) == 0 then w.(waiters := w.waiters - {t})
      else w.(waiters := w.waiters[t := Parked(w.waiters[t].notified)])
    case TimeOut(t) => w.(waiters := w.waiters - {t})
  }

  ghost function RunFrom(w: World, steps: seq<Step>): Option<World> {
    if steps == [] then Some(w) else
      var before := RunFrom(w, steps[..|steps| - 1]);
      var step := steps[|steps| - 1];
      if before.Some? && Possible(before.value, step) then Some(Next(before.value, step)) else None
  }

  // ----- invariant -----

  ghost predicate Heard(w: World, t: Tid)
    requires t in w.waiters
  {
    w.waiters[t] == Parked(false) ==> Active(w.word) > 0 || w.notifying > 0
  }

  ghost predicate Counted(w: World) {
    Active(w.word) == |w.guards| && forall g | g in w.guards :: g < w.nextGuard
  }

  ghost predicate AllHeard(w: World) {
    forall t | t in w.waiters :: Heard(w, t)
  }

  ghost predicate Inv(w: World) {
    Counted(w) && AllHeard(w)
  }

  /**
   * One step seen through the packing: the drain bit changes only by draining, the count only by
   * one registration or one drop, and neither operation spills into the bit.
   */
  ghost predicate Refined(w: World, step: Step, v: World) {
    && Counted(v)
    && (Draining(v.word) <==> Draining(w.word) || step.BeginDraining?)
    && v.guards == (if Registers(w, step) then w.guards + {w.nextGuard}
                    else if step.DropGuard? then w.guards - {step.guard} else w.guards)
    && (Registers(w, step) ==> !Draining(w.word) && w.nextGuard !in w.guards)
  }

  lemma StepRefines(w: World, step: Step)
    requires Counted(w) && Possible(w, step)
    ensures Refined(w, step, Next(w, step))
  {
    if Registers(w, step) { RegistrationRefines(w, step); }
    else if step.DropGuard? { DropRefines(w, step.guard); }
    else if step.BeginDraining? { DrainingRefines(w); }
    else { assert Next(w, step) == w.(registering := Next(w, step).registering, waiters := Next(w, step).waiters,
                                      notifying := Next(w, step).notifying); }
  }

  lemma RegistrationRefines(w: World, step: Step)
    requires Counted(w) && Registers(w, step)
    ensures Refined(w, step, Next(w, step))
  {
  }

  lemma DropRefines(w: World, guard: nat)
    requires Counted(w) && guard in w.guards
    ensures Refined(w, DropGuard(guard), Next(w, DropGuard(guard)))
  {
  }

  lemma DrainingRefines(w: World)
    requires Counted(w)
    ensures Refined(w, BeginDraining, Next(w, BeginDraining))
  {
  }

  lemma StepKeepsHeard(w: World, step: Step)
    requires Inv(w) && Possible(w, step)
    ensures AllHeard(Next(w, step))
  {
    var v := Next(w, step);
    StepRefines(w, step);
    forall t | t in v.waiters ensures Heard(v, t) {
      if t in w.waiters { assert Heard(w, t); }
    }
  }

  lemma {:induction false} RunKeepsInv(w: World, steps: seq<Step>)
    requires Inv(w) && RunFrom(w, steps).Some?
    ensures Inv(RunFrom(w, steps).value)
  {
    if steps != [] {
      RunKeepsInv(w, steps[..|steps| - 1]);
      StepRefines(RunFrom(w, steps[..|steps| - 1]).value, steps[|steps| - 1]);
      StepKeepsHeard(RunFrom(w, steps[..|steps| - 1]).value, steps[|steps| - 1]);
    }
  }

  // ----- results over every run -----

  /** The word is exactly the pair (draining, number of live guards), in every reachable state. */
  lemma {:induction false} PackedWord(steps: seq<Step>)
    requires RunFrom(INITIAL, steps).Some?
    ensures var w := RunFrom(INITIAL, steps).value;
            && |w.guards| <= ACTIVE_MASK
            && w.word == |w.guards| + if BeginDraining in steps then DRAINING_BIT else 0
  {
    RunKeepsInv(INITIAL, steps);
    DrainBit(steps);
  }

  /** Registration is refused only once draining has begun, or when the count has no room for one more guard. */
  lemma {:induction false} RefusedOnlyWhenDue(steps: seq<Step>)
    requires RunFrom(INITIAL, steps).Some?
    ensures var w := RunFrom(INITIAL, steps).value;
            Refuses(w.word) <==> BeginDraining in steps || |w.guards| == ACTIVE_MASK
  {
    PackedWord(steps);
    DrainBit(steps);
  }

  /** A task that sees the current word gets its guard, and the waiters' notifications are untouched. */
  lemma {:induction false} RegistrationSucceeds(steps: seq<Step>, task: Tid)
    requires RunFrom(INITIAL, steps).Some? && task !in RunFrom(INITIAL, steps).value.registering
    requires BeginDraining !in steps && |RunFrom(INITIAL, steps).value.guards| < ACTIVE_MASK
    ensures var w := RunFrom(INITIAL, steps).value;
            var v := RunFrom(INITIAL, steps + [Load(task)] + [CompareExchange(task, false)]);
            v.Some? && v.value.guards == w.guards + {w.nextGuard} && |v.value.guards| == |w.guards| + 1
            && v.value.notifying == w.notifying
  {
    RunKeepsInv(INITIAL, steps);
    RefusedOnlyWhenDue(steps);
    Extend(steps, Load(task));
    Extend(steps + [Load(task)], CompareExchange(task, false));
    StepRefines(RunFrom(INITIAL, steps + [Load(task)]).value, CompareExchange(task, false));
  }

  lemma {:induction false} DrainBit(steps: seq<Step>)
    requires RunFrom(INITIAL, steps).Some?
    ensures Draining(RunFrom(INITIAL, steps).value.word) <==> BeginDraining in steps
  {
    if steps != [] {
      var before, last := steps[..|steps| - 1], steps[|steps| - 1];
      assert steps == before + [last];
      DrainBit(before);
      RunKeepsInv(INITIAL, before);
      StepRefines(RunFrom(INITIAL, before).value, last);
    }
  }

  /** Once draining has begun nothing registers any more: the live guards only shrink. */
  lemma {:induction false} OnlyFallsAfterDrain(w: World, more: seq<Step>)
    requires Inv(w) && Draining(w.word) && RunFrom(w, more).Some?
    ensures var v := RunFrom(w, more).value;
            Draining(v.word) && v.guards <= w.guards && Active(v.word) <= Active(w.word)
  {
    if more != [] {
      var before := more[..|more| - 1];
      OnlyFallsAfterDrain(w, before);
      RunKeepsInv(w, before);
      StepRefines(RunFrom(w, before).value, more[|more| - 1]);
    }
    RunKeepsInv(w, more);
  }

  /** A drain waiter that is parked without a notification faces live guards or a notify still due. */
  lemma {:induction false} NoLostIdle(steps: seq<Step>, t: Tid)
    requires RunFrom(INITIAL, steps).Some?
    ensures var w := RunFrom(INITIAL, steps).value;
            t in w.waiters && w.waiters[t] == Parked(false) && w.guards == {} ==> w.notifying > 0
  {
    RunKeepsInv(INITIAL, steps);
    var w := RunFrom(INITIAL, steps).value;
    if t in w.waiters { assert Heard(w, t); }
  }

  /** ...and with the guards gone, making that notify and looping once lets the waiter return. */
  lemma IdleWaiterReturns(steps: seq<Step>, t: Tid)
    requires RunFrom(INITIAL, steps).Some?
    requires var w := RunFrom(INITIAL, steps).value; t in w.waiters && w.waiters[t].Parked? && w.guards == {}
    ensures var w := RunFrom(INITIAL, steps).value;
            var notify := if w.waiters[t].notified then [] else [NotifyWaiters];
            var v := RunFrom(INITIAL, steps + notify + [Enable(t)] + [ReadCount(t)]);
            v.Some? && t !in v.value.waiters && v.value.word == w.word
  {
    NoLostIdle(steps, t);
    RunKeepsInv(INITIAL, steps);
    var w := RunFrom(INITIAL, steps).value;
    var now := steps + if w.waiters[t].notified then [] else [NotifyWaiters];
    if w.waiters[t].notified { assert now == steps; } else { Extend(steps, NotifyWaiters); }
    Extend(now, Enable(t));
    Extend(now + [Enable(t)], ReadCount(t));
  }

  lemma Extend(steps: seq<Step>, step: Step)
    requires RunFrom(INITIAL, steps).Some? && Possible(RunFrom(INITIAL, steps).value, step)
    ensures RunFrom(INITIAL, steps + [step]) == Some(Next(RunFrom(INITIAL, steps).value, step))
  {
  }

  // ----- the tracker object -----

  /** `ConnectionTracker` and the `Drop` of its guards; `notifications` counts `notify_waiters` calls. */
  class ConnectionTracker {
    var value: Word
    var notifications: nat

    constructor ()
      ensures value == 0 && notifications == 0
    {
      value, notifications := 0, 0;
    }

    method BeginDraining()
      modifies this
      ensures Draining(value) && Active(value) == Active(old(value))
      ensures notifications == old(notifications) + if Active(old(value)) == 0 then 1 else 0
    {
      var previous := value;
      value := FetchOr(previous);
      if Active(previous) == 0 { notifications := notifications + 1; }
    }

    /**
     * The compare-and-swap loop while other tasks interfere: `writes[i]` is what the word holds
     * when swap number `i` is tried, and nobody writes after the last of them.  The outcome is
     * decided by one word that was really there, number `at`.
     */
    method TryRegister(writes: seq<Word>) returns (registered: bool, at: nat)
      modifies this
      ensures at <= |writes| && (registered ==> at >= |writes| || at > 0)
      ensures var seen := ([old(value)] + writes)[at];
              && registered == (!Draining(seen) && Active(seen) < ACTIVE_MASK)
              && Draining(value) == Draining(seen)
              && Active(value) == Active(seen) + if registered then 1 else 0
      ensures notifications == old(notifications)
    {
      var observed := value;
      at := 0;
      while !Refuses(observed)
        invariant at <= |writes| && observed == value == ([old(value)] + writes)[at]
        invariant notifications == old(notifications)
        decreases |writes| - at
      {
        if at == |writes| {
          value := WrappingAdd(observed, 1);
          return true, at;
        }
        value := writes[at];
        at := at + 1;
        if value == observed {
          value := WrappingAdd(observed, 1);
          return true, at;
        }
        observed := value;
      }
      return false, at;
    }

    method DropGuard()
      requires Active(value) > 0
      modifies this
      ensures Draining(value) == Draining(old(value)) && Active(value) == Active(old(value)) - 1
      ensures notifications == old(notifications) + if Active(value) == 0 then 1 else 0
    {
      var previous := value;
      value := WrappingAdd(previous, -1);
      if Active(previous) == 1 { notifications := notifications + 1; }
    }
  }
}
