/**
 * The bounded priority wait queue of `gateway-core`: keyed deques of waiters under one mutex,
 * a global cap, and tickets whose drop gives the place back.
 *
 * The state is first modelled as a value with one function per critical section; the invariant
 * and the admission rules are proved about those functions.  The class at the end is the mutable
 * object, each of whose methods is one critical section.  A waker is identified by a number that
 * is never reused, so "same `Arc`" is equality of numbers and the numbers follow arrival order.
 */
module WaitQueue {
  import opened Wrappers

  const MAX_TOTAL_WAITING: nat := 1024

  type Key = string
  type Id = nat

  datatype WaitPriority = Normal | High

  datatype Waiter = Waiter(id: Id, priority: WaitPriority)

  type Deque = seq<Waiter>

  datatype QueueRejection = Full | Timeout

  datatype WaitTicket = WaitTicket(key: Key, id: Id, deadline: int)

  /** The mutex contents, plus the tickets that are alive and the next fresh waker. */
  datatype State = State(queues: map<Key, Deque>, total: int, tickets: map<Id, Key>, nextId: Id)

  function QueueOf(queues: map<Key, Deque>, key: Key): Deque {
    if key in queues then queues[key] else []
  }

  // ----- choosing a queue -----

  predicate Admits(queues: map<Key, Deque>, key: Key, maxWaiting: nat, priority: WaitPriority) {
    maxWaiting > 0 && (priority.High? || |QueueOf(queues, key)| < maxWaiting)
  }

  /** Key number `i` is admitted, no admitted key scores higher, and no earlier one scores as high. */
  ghost predicate IsBest(queues: map<Key, Deque>, keys: seq<Key>, maxWaiting: nat, priority: WaitPriority,
                         score: (Key, nat) -> int, i: nat)
  {
    && i < |keys|
    && Admits(queues, keys[i], maxWaiting, priority)
    && var best := score(keys[i], |QueueOf(queues, keys[i])|);
       forall j | 0 <= j < |keys| && Admits(queues, keys[j], maxWaiting, priority) ::
         var other := score(keys[j], |QueueOf(queues, keys[j])|);
         other <= best && (j < i ==> other < best)
  }

  function SelectKey(queues: map<Key, Deque>, keys: seq<Key>, maxWaiting: nat, priority: WaitPriority,
                     score: (Key, nat) -> int): (r: Option<nat>)
    ensures r.None? <==> forall i | 0 <= i < |keys| :: !Admits(queues, keys[i], maxWaiting, priority)
    ensures r.Some? ==> IsBest(queues, keys, maxWaiting, priority, score, r.value)
  {
    if keys == [] then None else
      var last := |keys| - 1;
      var before := SelectKey(queues, keys[..last], maxWaiting, priority, score);
      if !Admits(queues, keys[last], maxWaiting, priority) then before
      else if before.None? then Some(last)
      else
        var incumbent := keys[before.value];
        if score(keys[last], |QueueOf(queues, keys[last])|) > score(incumbent, |QueueOf(queues, incumbent)|)
        then Some(last) else before
  }

  // ----- critical sections -----

  /** Index of the first Normal waiter, or the length. */
  function FirstNormal(q: Deque): (r: nat)
    ensures r <= |q|
    ensures forall j | 0 <= j < r :: q[j].priority.High?
    ensures r < |q| ==> q[r].priority.Normal?
  {
    if q == [] || q[0].priority.Normal? then 0 else 1 + FirstNormal(q[1..])
  }

  /** Index of the waiter with this waker, or the length. */
  function PositionOf(q: Deque, id: Id): (r: nat)
    ensures r <= |q|
    ensures forall j | 0 <= j < r :: q[j].id != id
    ensures r < |q| ==> q[r].id == id
  {
    if q == [] || q[0].id == id then 0 else 1 + PositionOf(q[1..], id)
  }

  function InsertPosition(q: Deque, priority: WaitPriority): (r: nat)
    ensures r <= |q|
  {
    if priority.Normal? then |q| else FirstNormal(q)
  }

  function Insert(q: Deque, w: Waiter): Deque {
    var position := InsertPosition(q, w.priority);
    q[..position] + [w] + q[position..]
  }

  function EnqueueAt(s: State, key: Key, priority: WaitPriority): State {
    var waiter := Waiter(s.nextId, priority);
    State(s.queues[key := Insert(QueueOf(s.queues, key), waiter)], s.total + 1, s.tickets[s.nextId := key],
      s.nextId + 1)
  }

  /** What `Drop` does under the lock; a key or waker that is not found leaves the queues alone. */
  function AfterDrop(s: State, id: Id): State
    requires id in s.tickets
  {
    var key := s.tickets[id];
    var q := QueueOf(s.queues, key);
    var i := PositionOf(q, id);
    if i == |q| then s.(tickets := s.tickets - {id}) else
      var rest := Without(q, i);
      State(if rest == [] then s.queues - {key} else s.queues[key := rest], s.total - 1, s.tickets - {id}, s.nextId)
  }

  function Without(q: Deque, i: nat): Deque
    requires i < |q|
  {
    q[..i] + q[i + 1..]
  }

  predicate IsHead(s: State, key: Key, id: Id) {
    key in s.queues && s.queues[key] != [] && s.queues[key][0].id == id
  }

  /** The waker that a drop must call after releasing the lock. */
  function WakeAfterDrop(s: State, id: Id): Option<Id>
    requires id in s.tickets
  {
    var key := s.tickets[id];
    var after := QueueOf(AfterDrop(s, id).queues, key);
    if IsHead(s, key, id) && after != [] then Some(after[0].id) else None
  }

  // ----- the invariant -----

  predicate Before(a: Waiter, b: Waiter) {
    if a.priority == b.priority then a.id < b.id else a.priority.High? && a.id != b.id
  }

  /** All High before all Normal, arrival order within a class, no waker twice. */
  ghost predicate Ordered(q: Deque) {
    forall i, j | 0 <= i < j < |q| :: Before(q[i], q[j])
  }

  ghost predicate Waiting(s: State, key: Key, id: Id) {
    key in s.queues && exists i :: 0 <= i < |s.queues[key]| && s.queues[key][i].id == id
  }

  ghost function Pick(m: map<Key, Deque>): (k: Key)
    requires m != map[]
    ensures k in m
  {
    assert m.Keys != {};
    var k :| k in m; k
  }

  ghost function SumLengths(m: map<Key, Deque>): nat
    decreases |m|
  {
    if m == map[] then 0 else
      var k := Pick(m);
      |m[k]| + SumLengths(m - {k})
  }

  ghost predicate Counted(s: State) {
    s.total == SumLengths(s.queues) && s.total <= MAX_TOTAL_WAITING
  }

  ghost predicate Arranged(s: State) {
    forall k | k in s.queues :: s.queues[k] != [] && Ordered(s.queues[k])
  }

  /** Every waiter belongs to a live ticket for the key it is queued under. */
  ghost predicate Owned(s: State) {
    forall k, i | k in s.queues && 0 <= i < |s.queues[k]| ::
      OwnedBy(s, s.queues[k][i].id, k)
  }

  ghost predicate OwnedBy(s: State, id: Id, k: Key) {
    id < s.nextId && id in s.tickets && s.tickets[id] == k
  }

  /** Every live ticket has a waiter under its key. */
  ghost predicate Placed(s: State) {
    forall id | id in s.tickets :: Waiting(s, s.tickets[id], id)
  }

  ghost predicate Inv(s: State) {
    Counted(s) && Arranged(s) && Owned(s) && Placed(s)
  }

  lemma {:induction false} SumRemove(m: map<Key, Deque>, k: Key)
    requires k in m
    ensures SumLengths(m) == |m[k]| + SumLengths(m - {k})
    decreases |m|
  {
    var p := Pick(m);
    if p != k {
      SumRemove(m - {p}, k);
      SumRemove(m - {k}, p);
      assert m - {p} - {k} == m - {k} - {p};
    }
  }

  lemma SumUpdate(m: map<Key, Deque>, k: Key, q: Deque)
    ensures SumLengths(m[k := q]) == SumLengths(m) - |QueueOf(m, k)| + |q|
  {
    SumRemove(m[k := q], k);
    assert m[k := q] - {k} == m - {k};
    if k in m { SumRemove(m, k); } else { assert m - {k} == m; }
  }

  lemma InsertOrdered(q: Deque, w: Waiter)
    requires Ordered(q)
    requires forall i | 0 <= i < |q| :: q[i].id < w.id
    ensures Ordered(Insert(q, w))
  {
  }

  /** Where old waiter `i` goes, and where waiter `j` of the new deque came from. */
  lemma InsertMember(q: Deque, w: Waiter, i: nat, j: nat)
    requires i < |q| && j <= |q|
    ensures var p, r := InsertPosition(q, w.priority), Insert(q, w);
            && r[if i < p then i else i + 1] == q[i]
            && r[j] == if j < p then q[j] else if j == p then w else q[j - 1]
  {
  }

  lemma WithoutOrdered(q: Deque, i: nat)
    requires Ordered(q) && i < |q|
    ensures Ordered(Without(q, i))
    ensures forall j | 0 <= j < |q| - 1 :: Without(q, i)[j] == q[if j < i then j else j + 1]
    ensures forall j | 0 <= j < |q| - 1 :: Without(q, i)[j].id != q[i].id
  {
  }

  lemma EnqueueKeepsInv(s: State, key: Key, priority: WaitPriority)
    requires Inv(s) && s.total < MAX_TOTAL_WAITING
    ensures Inv(EnqueueAt(s, key, priority))
  {
    var q := QueueOf(s.queues, key);
    var w := Waiter(s.nextId, priority);
    var t := EnqueueAt(s, key, priority);
    assert Counted(t) by { SumUpdate(s.queues, key, Insert(q, w)); }
    assert Arranged(t) by {
      forall i | 0 <= i < |q| ensures q[i].id < w.id { assert OwnedBy(s, q[i].id, key); }
      InsertOrdered(q, w);
    }
    EnqueueKeepsOwned(s, key, priority);
    EnqueueKeepsPlaced(s, key, priority);
  }

  lemma EnqueueKeepsOwned(s: State, key: Key, priority: WaitPriority)
    requires Inv(s)
    ensures Owned(EnqueueAt(s, key, priority))
  {
    var q := QueueOf(s.queues, key);
    var p := InsertPosition(q, priority);
    var t := EnqueueAt(s, key, priority);
    forall k, j | k in t.queues && 0 <= j < |t.queues[k]| ensures OwnedBy(t, t.queues[k][j].id, k) {
      if k != key {
        assert OwnedBy(s, s.queues[k][j].id, k);
      } else if q != [] {
        InsertMember(q, Waiter(s.nextId, priority), 0, j);
        assert j != p ==> OwnedBy(s, q[if j < p then j else j - 1].id, k);
      }
    }
  }

  lemma EnqueueKeepsPlaced(s: State, key: Key, priority: WaitPriority)
    requires Inv(s)
    ensures Placed(EnqueueAt(s, key, priority))
  {
    var q := QueueOf(s.queues, key);
    var p := InsertPosition(q, priority);
    var t := EnqueueAt(s, key, priority);
    var w := Waiter(s.nextId, priority);
    assert Insert(q, w)[p] == w;
    forall id | id in t.tickets ensures Waiting(t, t.tickets[id], id) {
      if id == s.nextId {
        assert t.queues[key][p].id == id;
      } else {
        assert Waiting(s, s.tickets[id], id);
        if s.tickets[id] == key {
          var i :| 0 <= i < |q| && q[i].id == id;
          InsertMember(q, w, i, 0);
        }
      }
    }
  }

  lemma DropKeepsInv(s: State, id: Id)
    requires Inv(s) && id in s.tickets
    ensures Inv(AfterDrop(s, id))
    ensures AfterDrop(s, id).total == s.total - 1
  {
    var key := s.tickets[id];
    assert Waiting(s, key, id);
    var q := s.queues[key];
    var i := PositionOf(q, id);
    var rest := Without(q, i);
    var t := AfterDrop(s, id);
    WithoutOrdered(q, i);
    assert Counted(t) by {
      SumRemove(s.queues, key);
      SumUpdate(s.queues, key, rest);
    }
    DropKeepsOwned(s, id);
    DropKeepsPlaced(s, id);
  }

  lemma DropKeepsOwned(s: State, id: Id)
    requires Inv(s) && id in s.tickets
    ensures Owned(AfterDrop(s, id))
  {
    var key, t := s.tickets[id], AfterDrop(s, id);
    assert Waiting(s, key, id);
    var i := PositionOf(s.queues[key], id);
    WithoutOrdered(s.queues[key], i);
    forall k, j | k in t.queues && 0 <= j < |t.queues[k]| ensures OwnedBy(t, t.queues[k][j].id, k) {
      assert OwnedBy(s, s.queues[k][if k != key || j < i then j else j + 1].id, k);
    }
  }

  lemma DropKeepsPlaced(s: State, id: Id)
    requires Inv(s) && id in s.tickets
    ensures Placed(AfterDrop(s, id))
  {
    var key, t := s.tickets[id], AfterDrop(s, id);
    assert Waiting(s, key, id);
    var q := s.queues[key];
    var i := PositionOf(q, id);
    WithoutOrdered(q, i);
    forall other | other in t.tickets ensures Waiting(t, t.tickets[other], other) {
      assert Waiting(s, s.tickets[other], other);
      if s.tickets[other] == key {
        var j :| 0 <= j < |q| && q[j].id == other;
        assert Without(q, i)[if j < i then j else j - 1] == q[j];
      }
    }
  }

  // ----- admission -----

  predicate HasWaitersAheadOf(s: State, key: Key, priority: WaitPriority) {
    exists i :: 0 <= i < |QueueOf(s.queues, key)|
      && (priority.Normal? || QueueOf(s.queues, key)[i].priority == priority)
  }

  predicate CanTry(s: State, key: Key, ticket: Option<Id>, priority: WaitPriority)
    requires ticket.Some? ==> ticket.value in s.tickets
  {
    if ticket.Some? && s.tickets[ticket.value] == key then IsHead(s, key, ticket.value)
    else !HasWaitersAheadOf(s, key, priority)
  }

  /** A request without a ticket may try exactly when queueing it now would make it the head. */
  lemma TicketlessAdmission(s: State, key: Key, priority: WaitPriority)
    requires Inv(s)
    ensures CanTry(s, key, None, priority) <==> IsHead(EnqueueAt(s, key, priority), key, s.nextId)
  {
  }

  /**
   * A ticket holder may try exactly when its waiter precedes every other one under the key, so at
   * most one holder passes; while anybody waits, one does.
   */
  lemma TicketAdmission(s: State, id: Id, priority: WaitPriority)
    requires Inv(s) && id in s.tickets
    ensures var key := s.tickets[id]; var q := QueueOf(s.queues, key);
            && CanTry(s, key, Some(q[0].id), priority)
            && (CanTry(s, key, Some(id), priority) <==> q[0].id == id)
            && (CanTry(s, key, Some(id), priority) <==>
                  forall i | 0 <= i < |q| && q[i].id != id :: Before(q[PositionOf(q, id)], q[i]))
  {
  }

  /** A ticket that `key` is asked about: if it is for that key, it is the place of this very request. */
  ghost predicate OwnPlace(s: State, key: Key, ticket: Id, priority: WaitPriority) {
    ticket in s.tickets && (s.tickets[ticket] == key ==> Waiter(ticket, priority) in QueueOf(s.queues, key))
  }

  /**
   * Whoever passes on a key overtakes no waiter of its own class: one that is still queued there
   * is the passing ticket itself or arrived after it.  A request without a place under the key,
   * be it ticketless or queued elsewhere, passes none at all.
   */
  lemma NoOvertaking(s: State, key: Key, ticket: Option<Id>, priority: WaitPriority, i: nat)
    requires Inv(s) && i < |QueueOf(s.queues, key)| && QueueOf(s.queues, key)[i].priority == priority
    requires ticket.Some? ==> OwnPlace(s, key, ticket.value, priority)
    requires CanTry(s, key, ticket, priority)
    ensures ticket.Some? && s.tickets[ticket.value] == key && ticket.value <= QueueOf(s.queues, key)[i].id
  {
  }

  // ----- the per-queue limit -----

  ghost function Normals(q: Deque): nat {
    if q == [] then 0 else Normals(q[1..]) + if q[0].priority.Normal? then 1 else 0
  }

  lemma {:induction false} NormalsConcat(a: Deque, b: Deque)
    ensures Normals(a + b) == Normals(a) + Normals(b)
    ensures Normals(a) <= |a|
  {
    if a == [] { assert a + b == b; } else {
      assert (a + b)[1..] == a[1..] + b;
      NormalsConcat(a[1..], b);
    }
  }

  ghost predicate NormalsBounded(s: State, limit: nat) {
    forall k | k in s.queues :: Normals(s.queues[k]) <= limit
  }

  /** An admitted arrival never takes the Normal waiters of a queue past the limit it was admitted under. */
  lemma EnqueueKeepsLimit(s: State, key: Key, priority: WaitPriority, limit: nat)
    requires NormalsBounded(s, limit) && Admits(s.queues, key, limit, priority)
    ensures NormalsBounded(EnqueueAt(s, key, priority), limit)
  {
    var q := QueueOf(s.queues, key);
    var w := Waiter(s.nextId, priority);
    var p := InsertPosition(q, priority);
    NormalsConcat(q[..p] + [w], q[p..]);
    NormalsConcat(q[..p], [w]);
    NormalsConcat(q[..p], q[p..]);
    assert q == q[..p] + q[p..];
    NormalsConcat(q, []);
  }

  /** An admitted arrival takes the queue past the limit exactly when it is High and the limit is reached already. */
  lemma LimitExceededIff(s: State, key: Key, priority: WaitPriority, limit: nat)
    requires Admits(s.queues, key, limit, priority)
    ensures |QueueOf(EnqueueAt(s, key, priority).queues, key)| > limit <==>
            priority.High? && |QueueOf(s.queues, key)| >= limit
  {
  }

  /** Queueing the request now would leave the queue within the limit, which binds Normal waiters only. */
  predicate RoomFor(s: State, key: Key, priority: WaitPriority, limit: nat) {
    limit > 0 && (priority.Normal? ==> |QueueOf(EnqueueAt(s, key, priority).queues, key)| <= limit)
  }

  /** A request is turned away from a key only when there is no room for it. */
  lemma AdmittedIffRoom(s: State, key: Key, priority: WaitPriority, limit: nat)
    ensures Admits(s.queues, key, limit, priority) <==> RoomFor(s, key, priority, limit)
    ensures RoomFor(s, key, priority, limit) <==>
            limit > 0 && (priority.High? || key !in s.queues || |s.queues[key]| < limit)
  {
  }

  predicate RoomNowhere(s: State, keys: seq<Key>, priority: WaitPriority, limit: nat) {
    forall i | 0 <= i < |keys| :: !RoomFor(s, keys[i], priority, limit)
  }

  /** The choice among the keys fails only when none of them has room, and finds one that has. */
  lemma ChoiceFindsRoom(s: State, keys: seq<Key>, limit: nat, priority: WaitPriority, score: (Key, nat) -> int)
    ensures var choice := SelectKey(s.queues, keys, limit, priority, score);
            && (choice.None? <==> RoomNowhere(s, keys, priority, limit))
            && (choice.Some? ==> RoomFor(s, keys[choice.value], priority, limit))
  {
    forall i | 0 <= i < |keys|
      ensures Admits(s.queues, keys[i], limit, priority) <==> RoomFor(s, keys[i], priority, limit)
    {
      AdmittedIffRoom(s, keys[i], priority, limit);
    }
  }

  lemma DropKeepsLimit(s: State, id: Id, limit: nat)
    requires NormalsBounded(s, limit) && id in s.tickets
    ensures NormalsBounded(AfterDrop(s, id), limit)
  {
    var q := QueueOf(s.queues, s.tickets[id]);
    var i := PositionOf(q, id);
    if i < |q| {
      assert q == q[..i] + ([q[i]] + q[i + 1..]);
      NormalsConcat(q[..i], [q[i]] + q[i + 1..]);
      NormalsConcat(q[..i], q[i + 1..]);
      NormalsConcat([q[i]], q[i + 1..]);
    }
  }

  // ----- the mutable queue -----

  /** `ConcurrencyWaitQueue`: every method is one stretch of code that holds the mutex. */
  class ConcurrencyWaitQueue {
    var queues: map<Key, Deque>
    var total: int
    var nextWaker: Id
    ghost var tickets: map<Id, Key>

    ghost function Contents(): State
      reads this
    {
      State(queues, total, tickets, nextWaker)
    }

    constructor ()
      ensures Contents() == State(map[], 0, map[], 0) && Inv(Contents())
    {
      queues, total, nextWaker, tickets := map[], 0, 0, map[];
    }

    /**
     * Refused for time first, then for the global cap, then because no key admits the request;
     * otherwise the best admitted key gets the waiter.
     */
    method EnqueueRanked(keys: seq<Key>, maxWaiting: nat, now: int, deadline: int, waiterPriority: WaitPriority,
                         score: (Key, nat) -> int)
      returns (r: Result<WaitTicket, QueueRejection>)
      requires Inv(Contents())
      modifies this
      ensures Inv(Contents())
      ensures r == Err(Timeout) <==> now >= deadline
      ensures r == Err(Full) <==> now < deadline &&
                                  (old(total) == MAX_TOTAL_WAITING
                                   || RoomNowhere(old(Contents()), keys, waiterPriority, maxWaiting))
      ensures r.Err? ==> Contents() == old(Contents())
      ensures r.Ok? ==>
                && r.value.id == old(nextWaker) && r.value.deadline == deadline
                && RoomFor(old(Contents()), r.value.key, waiterPriority, maxWaiting)
                && Contents() == EnqueueAt(old(Contents()), r.value.key, waiterPriority)
                && exists i: nat ::
                     IsBest(old(queues), keys, maxWaiting, waiterPriority, score, i) && keys[i] == r.value.key
    {
      if now >= deadline { return Err(Timeout); }
      if total >= MAX_TOTAL_WAITING { return Err(Full); }
      ChoiceFindsRoom(Contents(), keys, maxWaiting, waiterPriority, score);
      var choice := SelectKey(queues, keys, maxWaiting, waiterPriority, score);
      if choice.None? { return Err(Full); }
      var ticket := Place(keys[choice.value], waiterPriority, deadline);
      r := Ok(ticket);
    }

    /** The insertion itself, under the lock that the choice was made under. */
    method Place(key: Key, waiterPriority: WaitPriority, deadline: int) returns (ticket: WaitTicket)
      requires Inv(Contents()) && total < MAX_TOTAL_WAITING
      modifies this
      ensures Inv(Contents()) && Contents() == EnqueueAt(old(Contents()), key, waiterPriority)
      ensures ticket == WaitTicket(key, old(nextWaker), deadline)
    {
      EnqueueKeepsInv(Contents(), key, waiterPriority);
      var queue := QueueOf(queues, key);
      var position := match waiterPriority case Normal => |queue| case High => FirstNormal(queue);
      queue := queue[..position] + [Waiter(nextWaker, waiterPriority)] + queue[position..];
      ticket := WaitTicket(key, nextWaker, deadline);
      queues := queues[key := queue];
      total := total + 1;
      tickets := tickets[nextWaker := key];
      nextWaker := nextWaker + 1;
    }

    /** `WaitTicket::drop`; the caller wakes the returned waker after the lock is released. */
    method DropTicket(ticket: WaitTicket) returns (next: Option<Id>)
      requires Inv(Contents()) && ticket.id in tickets && tickets[ticket.id] == ticket.key
      modifies this
      ensures Inv(Contents())
      ensures Contents() == AfterDrop(old(Contents()), ticket.id)
      ensures next == WakeAfterDrop(old(Contents()), ticket.id)
    {
      DropKeepsInv(Contents(), ticket.id);
      assert Waiting(Contents(), ticket.key, ticket.id);
      tickets := tickets - {ticket.id};
      if ticket.key !in queues { return None; }
      var queue := queues[ticket.key];
      var index := PositionOf(queue, ticket.id);
      if index == |queue| { return None; }
      queue := queue[..index] + queue[index + 1..];
      next := if queue == [] then None else Some(queue[0].id);
      queues := if queue == [] then queues - {ticket.key} else queues[ticket.key := queue];
      total := total - 1;
      if index != 0 { next := None; }
    }
  }

  // ----- one request's wait -----

  function Min(a: int, b: int): (r: int)
    ensures IsEarlier(r, a, b)
  {
    if a < b then a else b
  }

  predicate IsEarlier(r: int, a: int, b: int) {
    (r == a || r == b) && r <= a && r <= b
  }

  /** `ConcurrencyWaitBudget`: set by the first wait and shared by every later one of the request. */
  class WaitBudget {
    var deadline: Option<int>

    constructor ()
      ensures deadline.None?
    {
      deadline := None;
    }

    method StartAt(now: int, timeout: nat) returns (at: int)
      modifies this
      ensures deadline == Some(at)
      ensures at == if old(deadline).Some? then old(deadline).value else now + timeout
    {
      if deadline.None? { deadline := Some(now + timeout); }
      at := deadline.value;
    }
  }

  /** `CapacityWait`: the request's place in some queue, kept while its key stays eligible. */
  class CapacityWait {
    const queue: ConcurrencyWaitQueue
    const budget: WaitBudget
    const maxWaiting: nat
    const timeout: nat
    const priority: WaitPriority
    var ticket: Option<WaitTicket>

    constructor (queue: ConcurrencyWaitQueue, budget: WaitBudget, maxWaiting: nat, timeout: nat, priority: WaitPriority)
      ensures this.queue == queue && this.budget == budget && ticket.None?
      ensures this.maxWaiting == maxWaiting && this.timeout == timeout && this.priority == priority
    {
      this.queue, this.budget := queue, budget;
      this.maxWaiting, this.timeout, this.priority := maxWaiting, timeout, priority;
      ticket := None;
    }

    ghost predicate Holds()
      reads this, queue
    {
      ticket.Some? ==> ticket.value.id in queue.tickets && queue.tickets[ticket.value.id] == ticket.value.key
    }

    /**
     * The part of `wait_with_priority` before it sleeps.  A place under a key that is still
     * eligible is kept as it is; otherwise the old place is given back first, and whether or not
     * a new one is found, the clock of the request keeps running from its first wait.  `remaining`
     * is the time left to the request itself, None when it has no deadline of its own.
     */
    method TakePlace(keys: seq<Key>, now: int, remaining: Option<nat>, score: (Key, nat) -> int)
      returns (r: Result<WaitTicket, QueueRejection>, woken: Option<Id>)
      requires Inv(queue.Contents()) && Holds()
      modifies this, queue, budget
      ensures Inv(queue.Contents()) && Holds()
      ensures budget.deadline == Some(if old(budget.deadline).Some? then old(budget.deadline).value else now + timeout)
      ensures if r.Ok? then ticket == Some(r.value) else ticket.None?
      ensures old(ticket).Some? && old(ticket).value.key in keys ==>
                ticket == old(ticket) && woken.None? && queue.Contents() == old(queue.Contents())
      ensures !(old(ticket).Some? && old(ticket).value.key in keys) ==>
                var before := old(queue.Contents());
                var freed := if old(ticket).Some? then AfterDrop(before, old(ticket).value.id) else before;
                && woken == (if old(ticket).Some? then WakeAfterDrop(before, old(ticket).value.id) else None)
                && (r.Err? ==> queue.Contents() == freed)
                && (r.Ok? ==>
                      && r.value.key in keys && queue.Contents() == EnqueueAt(freed, r.value.key, priority)
                      && IsEarlier(r.value.deadline, budget.deadline.value,
                                   now + if remaining.Some? then remaining.value else timeout)
                      && now < r.value.deadline)
    {
      var deadline := budget.StartAt(now, timeout);
      deadline := Min(deadline, now + if remaining.Some? then remaining.value else timeout);
      woken := None;
      if ticket.Some? && ticket.value.key !in keys {
        woken := queue.DropTicket(ticket.value);
        ticket := None;
      }
      if ticket.None? {
        r := queue.EnqueueRanked(keys, maxWaiting, now, deadline, priority, score);
        if r.Err? { return; }
        ticket := Some(r.value);
      }
      r := Ok(ticket.value);
    }
  }
}
