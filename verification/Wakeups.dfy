/**
 * Interleavings of the wait queue: many request tasks poll `WaitTicket::turn` while others
 * enqueue and drop.  A poll registers its waker, and only then takes the lock to look whether it
 * is the head; a drop removes its waiter under the lock and calls the next waker after releasing
 * it.  Every such stretch is one step, and steps of different tasks mix freely.
 */
module Wakeups {
  import opened Wrappers
  import opened WaitQueue

  /** Idle: no poll outstanding.  Parked: the last poll returned pending. */
  datatype Phase = Idle | Polling | Registered | Parked | Ready

  /** `registered`: the atomic waker holds this task.  `notified`: the executor owes it a poll. */
  datatype Task = Task(phase: Phase, registered: bool, notified: bool)

  /** `waking`: wakers a finished drop has picked but not called yet. */
  datatype World = World(queue: State, tasks: map<Id, Task>, waking: multiset<Id>)

  datatype Step =
    | Enqueue(key: Key, priority: WaitPriority, maxWaiting: nat)
    | BeginPoll(id: Id)
    | Register(id: Id)
    | Check(id: Id)
    | Abandon(id: Id)
    | Drop(id: Id)
    | Wake(id: Id)

  const INITIAL := World(State(map[], 0, map[], 0), map[], multiset{})

  ghost predicate Enabled(w: World, step: Step) {
    match step
    case Enqueue(key, priority, maxWaiting) =>
      w.queue.total < MAX_TOTAL_WAITING && Admits(w.queue.queues, key, maxWaiting, priority)
    case BeginPoll(id) => id in w.tasks && w.tasks[id].phase in {Idle, Parked, Ready}
    case Register(id) => id in w.tasks && w.tasks[id].phase == Polling
    case Check(id) => id in w.tasks && w.tasks[id].phase == Registered && id in w.queue.tickets
    case Abandon(id) => id in w.tasks
    case Drop(id) => id in w.tasks && id in w.queue.tickets
    case Wake(id) => id in w.waking
  }

  ghost function Next(w: World, step: Step): World
    requires Enabled(w, step)
  {
    match step
    case Enqueue(key, priority, _) =>
      World(EnqueueAt(w.queue, key, priority), w.tasks[w.queue.nextId := Task(Idle, false, false)], w.waking)
    case BeginPoll(id) => w.(tasks := w.tasks[id := w.tasks[id].(phase := Polling, notified := false)])
    case Register(id) => w.(tasks := w.tasks[id := w.tasks[id].(phase := Registered, registered := true)])
    case Check(id) =>
      var phase := if IsHead(w.queue, w.queue.tickets[id], id) then Ready else Parked;
      w.(tasks := w.tasks[id := w.tasks[id].(phase := phase)])
    case Abandon(id) => w.(tasks := w.tasks[id := w.tasks[id].(phase := Idle)])
    case Drop(id) =>
      var next := WakeAfterDrop(w.queue, id);
      World(AfterDrop(w.queue, id), w.tasks - {id}, if next.Some? then w.waking + multiset{next.value} else w.waking)
    case Wake(id) =>
      var tasks := if id in w.tasks && w.tasks[id].registered
                   then w.tasks[id := w.tasks[id].(registered := false, notified := true)] else w.tasks;
      World(w.queue, tasks, w.waking - multiset{id})
  }

  /** The world after a run from the empty queue, unless some step of it was not possible. */
  ghost function Run(steps: seq<Step>): Option<World> {
    if steps == [] then Some(INITIAL) else
      var before := Run(steps[..|steps| - 1]);
      var step := steps[|steps| - 1];
      if before.Some? && Enabled(before.value, step) then Some(Next(before.value, step)) else None
  }

  // ----- invariant -----

  /** A waker that a task relies on is still registered unless it has already been used. */
  ghost predicate Armed(t: Task) {
    t.phase in {Registered, Parked} ==> t.registered || t.notified
  }

  ghost predicate HeadIsWoken(w: World, id: Id)
    requires id in w.tasks && id in w.queue.tickets
  {
    w.tasks[id].phase == Parked && IsHead(w.queue, w.queue.tickets[id], id) ==> w.tasks[id].notified || id in w.waking
  }

  ghost predicate Served(w: World) {
    && w.tasks.Keys == w.queue.tickets.Keys
    && forall id | id in w.tasks :: Armed(w.tasks[id]) && HeadIsWoken(w, id)
  }

  ghost predicate Sound(w: World) {
    Inv(w.queue) && Served(w)
  }

  /** Queueing never promotes anybody: a High arrival at the front only displaces the old head. */
  lemma EnqueuePromotesNobody(s: State, key: Key, priority: WaitPriority, k: Key, id: Id)
    requires Inv(s) && id != s.nextId && IsHead(EnqueueAt(s, key, priority), k, id)
    ensures IsHead(s, k, id)
  {
  }

  /** The one waiter a drop promotes is the one whose waker it picks, and it picks no other. */
  lemma DropPromotesOnlyTheWoken(s: State, dropped: Id, k: Key, id: Id)
    requires Inv(s) && dropped in s.tickets
    ensures IsHead(AfterDrop(s, dropped), k, id) ==> IsHead(s, k, id) || WakeAfterDrop(s, dropped) == Some(id)
    ensures WakeAfterDrop(s, dropped) == Some(id) ==>
              IsHead(AfterDrop(s, dropped), s.tickets[dropped], id) && !IsHead(s, s.tickets[dropped], id)
  {
  }

  lemma EnqueueKeepsServed(w: World, step: Step)
    requires Sound(w) && Enabled(w, step) && step.Enqueue?
    ensures Served(Next(w, step))
  {
    var v := Next(w, step);
    if w.queue.nextId in w.tasks { TicketIsOld(w.queue, w.queue.nextId); }
    forall id | id in v.tasks ensures Armed(v.tasks[id]) && HeadIsWoken(v, id) {
      if id != w.queue.nextId {
        assert Armed(w.tasks[id]) && HeadIsWoken(w, id);
        if IsHead(v.queue, v.queue.tickets[id], id) {
          EnqueuePromotesNobody(w.queue, step.key, step.priority, v.queue.tickets[id], id);
        }
      }
    }
  }

  lemma TicketIsOld(s: State, id: Id)
    requires Inv(s) && id in s.tickets
    ensures id < s.nextId
  {
  }

  lemma DropKeepsServed(w: World, step: Step)
    requires Sound(w) && Enabled(w, step) && step.Drop?
    ensures Served(Next(w, step))
  {
    var v := Next(w, step);
    forall id | id in v.tasks ensures Armed(v.tasks[id]) && HeadIsWoken(v, id) {
      assert Armed(w.tasks[id]) && HeadIsWoken(w, id);
      if IsHead(v.queue, v.queue.tickets[id], id) {
        DropPromotesOnlyTheWoken(w.queue, step.id, v.queue.tickets[id], id);
      }
    }
  }

  lemma PollOrWakeKeepsServed(w: World, step: Step)
    requires Sound(w) && Enabled(w, step) && !step.Enqueue? && !step.Drop?
    ensures Served(Next(w, step))
  {
    var v := Next(w, step);
    forall id | id in v.tasks ensures Armed(v.tasks[id]) && HeadIsWoken(v, id) {
      assert Armed(w.tasks[id]) && HeadIsWoken(w, id);
    }
  }

  lemma {:induction false} RunIsSound(steps: seq<Step>)
    requires Run(steps).Some?
    ensures Sound(Run(steps).value)
  {
    if steps == [] {
      assert SumLengths(map[]) == 0;
    } else {
      RunIsSound(steps[..|steps| - 1]);
      var w, step := Run(steps[..|steps| - 1]).value, steps[|steps| - 1];
      if step.Enqueue? {
        EnqueueKeepsInv(w.queue, step.key, step.priority);
        EnqueueKeepsServed(w, step);
      } else if step.Drop? {
        DropKeepsInv(w.queue, step.id);
        DropKeepsServed(w, step);
      } else {
        PollOrWakeKeepsServed(w, step);
      }
    }
  }

  // ----- results over every run -----

  /** A parked task that is the head of its queue has been notified, or its wake is on the way. */
  lemma {:induction false} NoLostWakeup(steps: seq<Step>, id: Id)
    requires Run(steps).Some?
    ensures var w := Run(steps).value;
            && (id in w.tasks <==> id in w.queue.tickets)
            && (id in w.tasks && w.tasks[id].phase == Parked && IsHead(w.queue, w.queue.tickets[id], id)
                ==> w.tasks[id].notified || id in w.waking)
  {
    RunIsSound(steps);
    var w := Run(steps).value;
    if id in w.tasks { assert HeadIsWoken(w, id); }
  }

  /**
   * A parked head needs nobody else to move: deliver the wake in flight unless it has been
   * delivered, poll again, and the check succeeds.
   */
  lemma {:induction false} ParkedHeadProceeds(steps: seq<Step>, id: Id)
    requires Run(steps).Some?
    requires var w := Run(steps).value;
             && id in w.tasks && w.tasks[id].phase == Parked && id in w.queue.tickets
             && IsHead(w.queue, w.queue.tickets[id], id)
    ensures var w := Run(steps).value;
            var wake := if w.tasks[id].notified then [] else [Wake(id)];
            var v := Run(steps + wake + [BeginPoll(id)] + [Register(id)] + [Check(id)]);
            v.Some? && v.value.tasks[id].phase == Ready && v.value.queue == w.queue
  {
    NoLostWakeup(steps, id);
    var w := Run(steps).value;
    var now := steps + if w.tasks[id].notified then [] else [Wake(id)];
    if w.tasks[id].notified { assert now == steps; } else { Extend(steps, Wake(id)); }
    Extend(now, BeginPoll(id));
    Extend(now + [BeginPoll(id)], Register(id));
    Extend(now + [BeginPoll(id)] + [Register(id)], Check(id));
  }

  lemma Extend(steps: seq<Step>, step: Step)
    requires Run(steps).Some? && Enabled(Run(steps).value, step)
    ensures Run(steps + [step]) == Some(Next(Run(steps).value, step))
  {
  }

  /** The queue invariant in full, in every reachable state. */
  lemma {:induction false} QueueInvariant(steps: seq<Step>)
    requires Run(steps).Some?
    ensures var s := Run(steps).value.queue;
            && s.total == SumLengths(s.queues) && s.total <= MAX_TOTAL_WAITING
            && (forall k | k in s.queues :: s.queues[k] != [] && Ordered(s.queues[k]))
            && forall k, id :: Waiting(s, k, id) <==> id in s.tickets && s.tickets[id] == k
  {
    RunIsSound(steps);
    var s := Run(steps).value.queue;
    forall k, id ensures Waiting(s, k, id) <==> id in s.tickets && s.tickets[id] == k {
      if Waiting(s, k, id) {
        var i :| 0 <= i < |s.queues[k]| && s.queues[k][i].id == id;
        assert OwnedBy(s, s.queues[k][i].id, k);
      }
    }
  }

  /** Under one fixed policy no queue ever holds more than `limit` Normal waiters. */
  lemma {:induction false} NormalsStayBounded(steps: seq<Step>, limit: nat)
    requires Run(steps).Some?
    requires forall i | 0 <= i < |steps| && steps[i].Enqueue? :: steps[i].maxWaiting == limit
    ensures NormalsBounded(Run(steps).value.queue, limit)
  {
    if steps != [] {
      var before, step := steps[..|steps| - 1], steps[|steps| - 1];
      NormalsStayBounded(before, limit);
      if step.Enqueue? { EnqueueKeepsLimit(Run(before).value.queue, step.key, step.priority, limit); }
      if step.Drop? { DropKeepsLimit(Run(before).value.queue, step.id, limit); }
    }
  }

  /** The limit does not bound the queue itself: a High arrival goes past it. */
  lemma HighExceedsLimit(key: Key)
    ensures var run := Run([Enqueue(key, Normal, 1), Enqueue(key, High, 1)]);
            run.Some? && key in run.value.queue.queues && |run.value.queue.queues[key]| == 2
  {
    assert Run([]) == Some(INITIAL);
    Extend([], Enqueue(key, Normal, 1));
    assert [] + [Enqueue(key, Normal, 1)] == [Enqueue(key, Normal, 1)];
    assert [Enqueue(key, Normal, 1)] + [Enqueue(key, High, 1)] == [Enqueue(key, Normal, 1), Enqueue(key, High, 1)];
    Extend([Enqueue(key, Normal, 1)], Enqueue(key, High, 1));
  }

  /** Without High arrivals it does bound the queue. */
  lemma {:induction false} QueuesStayBounded(steps: seq<Step>, limit: nat)
    requires Run(steps).Some?
    requires forall i | 0 <= i < |steps| && steps[i].Enqueue? ::
               steps[i].maxWaiting == limit && steps[i].priority.Normal?
    ensures forall k | k in Run(steps).value.queue.queues :: |Run(steps).value.queue.queues[k]| <= limit
  {
    if steps != [] { QueuesStayBounded(steps[..|steps| - 1], limit); }
  }

  /** Below the cap a queue that is shorter than the limit always takes one more Normal waiter, at its end. */
  lemma {:induction false} RoomIsUsable(steps: seq<Step>, key: Key, limit: nat)
    requires Run(steps).Some? && Run(steps).value.queue.total < MAX_TOTAL_WAITING
    requires |QueueOf(Run(steps).value.queue.queues, key)| < limit
    ensures var s := Run(steps).value.queue; var w := Run(steps + [Enqueue(key, Normal, limit)]);
            w.Some? && QueueOf(w.value.queue.queues, key) == QueueOf(s.queues, key) + [Waiter(s.nextId, Normal)]
  {
    AdmittedIffRoom(Run(steps).value.queue, key, Normal, limit);
    Extend(steps, Enqueue(key, Normal, limit));
  }

  /** A check finds the task ready exactly when its waiter is the first of its queue. */
  lemma CheckDecides(w: World, id: Id)
    requires Sound(w) && Enabled(w, Check(id))
    ensures var q := QueueOf(w.queue.queues, w.queue.tickets[id]);
            && q != [] && Next(w, Check(id)).tasks[id].phase == (if q[0].id == id then Ready else Parked)
            && Next(w, Check(id)).queue == w.queue
  {
    assert Waiting(w.queue, w.queue.tickets[id], id);
  }

  /**
   * Admission in any reachable state: of the ticket holders of a key exactly the head may try, and
   * nobody, ticket or not, passes a waiter of its own class that was queued there before.
   */
  lemma {:induction false} AdmissionInOrder(steps: seq<Step>, key: Key, ticket: Option<Id>, priority: WaitPriority,
                                            i: nat)
    requires Run(steps).Some?
    requires var s := Run(steps).value.queue;
             && i < |QueueOf(s.queues, key)| && QueueOf(s.queues, key)[i].priority == priority
             && (ticket.Some? ==> OwnPlace(s, key, ticket.value, priority))
             && CanTry(s, key, ticket, priority)
    ensures var s := Run(steps).value.queue; var q := QueueOf(s.queues, key);
            && ticket.Some? && s.tickets[ticket.value] == key && ticket.value <= q[i].id
            && (forall other | other in s.tickets && s.tickets[other] == key && CanTry(s, key, Some(other), priority) ::
                  other == ticket.value)
  {
    RunIsSound(steps);
    NoOvertaking(Run(steps).value.queue, key, ticket, priority, i);
  }
}
