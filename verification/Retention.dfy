/**
 * Retention of scheduled backups: which completed records one pass decides to delete, reading the
 * newest-first list page by page and stopping at a batch limit.
 */
module Retention {
  import opened Wrappers

  const BATCH_SIZE: nat := 10
  const PAGE_SIZE: nat := 1000
  const DAY: int := 86_400

  datatype Record = Record(id: string, completed: bool, completedAt: Option<int>)

  datatype Reason = Days | Count

  datatype Decision = Decision(id: string, reason: Reason)

  /** `days` and `count` are the two thresholds; zero switches a rule off. */
  datatype Policy = Policy(days: nat, count: nat, now: int)

  predicate Expired(p: Policy, r: Record) {
    p.days > 0 && r.completedAt.Some? && r.completedAt.value <= p.now - p.days * DAY
  }

  /** The decision, if any, about the record at `position` of the whole list. */
  function Judge(p: Policy, position: nat, r: Record): seq<Decision> {
    if !r.completed || position == 0 then []
    else if Expired(p, r) then [Decision(r.id, Days)]
    else if p.count > 0 && position >= p.count then [Decision(r.id, Count)]
    else []
  }

  /** The decisions about positions `lo` to `hi` of the whole list. */
  function Decide(p: Policy, all: seq<Record>, lo: nat, hi: nat): seq<Decision>
    requires lo <= hi <= |all|
  {
    if lo == hi then [] else Decide(p, all, lo, hi - 1) + Judge(p, hi - 1, all[hi - 1])
  }

  function Take<T>(s: seq<T>, n: nat): seq<T> {
    if |s| <= n then s else s[..n]
  }

  /** `records` is the page of the whole list that starts at `offset`. */
  method DecideRetention(p: Policy, offset: nat, records: seq<Record>, ghost all: seq<Record>)
    returns (decisions: seq<Decision>)
    requires offset + |records| <= |all| && records == all[offset..offset + |records|]
    ensures decisions == Decide(p, all, offset, offset + |records|)
  {
    decisions := [];
    var index := 0;
    while index < |records|
      invariant 0 <= index <= |records|
      invariant decisions == Decide(p, all, offset, offset + index)
    {
      var record := records[index];
      var position := offset + index;
      index := index + 1;
      if !record.completed || position == 0 { continue; }
      var expired := p.days > 0 && record.completedAt.Some? && record.completedAt.value <= p.now - p.days * DAY;
      var exceeded := p.count > 0 && position >= p.count;
      if expired || exceeded {
        decisions := decisions + [Decision(record.id, if expired then Days else Count)];
      }
    }
  }

  /** What the repository answers: at most a page, and less only at the end of the list. */
  method ScheduledPage(all: seq<Record>, offset: nat) returns (records: seq<Record>)
    requires offset <= |all|
    ensures offset + |records| <= |all| && records == all[offset..offset + |records|]
    ensures |records| == PAGE_SIZE || (|records| < PAGE_SIZE && offset + |records| == |all|)
  {
    records := all[offset..if offset + PAGE_SIZE < |all| then offset + PAGE_SIZE else |all|];
  }

  /** The paging loop gets as far as reading the page at `offset`. */
  predicate Reaches(p: Policy, all: seq<Record>, offset: nat) {
    offset % PAGE_SIZE == 0 && offset <= |all| && |Decide(p, all, 0, offset)| < BATCH_SIZE
  }

  /** The pass is cancelled when the token says so before some page that it gets as far as reading. */
  ghost predicate CancelledOnTheWay(p: Policy, all: seq<Record>, cancelled: nat -> bool) {
    exists offset: nat :: Reaches(p, all, offset) && cancelled(offset)
  }

  ghost predicate QuietBefore(p: Policy, all: seq<Record>, cancelled: nat -> bool, offset: nat) {
    forall o: nat | o < offset && Reaches(p, all, o) :: !cancelled(o)
  }

  /** One page: its decisions are added as far as the batch has room for them. */
  method TakePage(p: Policy, all: seq<Record>, offset: nat, decisions: seq<Decision>)
    returns (longer: seq<Decision>, size: nat)
    requires Reaches(p, all, offset) && decisions == Decide(p, all, 0, offset)
    ensures offset + size <= |all| && (size == PAGE_SIZE || (size < PAGE_SIZE && offset + size == |all|))
    ensures |longer| <= BATCH_SIZE && (|longer| == BATCH_SIZE <==> |Decide(p, all, 0, offset + size)| >= BATCH_SIZE)
    ensures |longer| < BATCH_SIZE ==> longer == Decide(p, all, 0, offset + size)
    ensures |longer| == BATCH_SIZE || offset + size == |all| ==> longer == Take(Decide(p, all, 0, |all|), BATCH_SIZE)
  {
    var records := ScheduledPage(all, offset);
    size := |records|;
    var remaining := BATCH_SIZE - |decisions|;
    var found := DecideRetention(p, offset, records, all);
    PageShare(p, all, offset, offset + size);
    longer := decisions + Take(found, remaining);
  }

  /**
   * The paging loop over a list that does not change meanwhile; `cancelled(offset)` is what the
   * token says before the page at `offset` is read, and a cancelled pass decides nothing.
   */
  method RunRetention(p: Policy, all: seq<Record>, cancelled: nat -> bool) returns (decisions: seq<Decision>)
    ensures CancelledOnTheWay(p, all, cancelled) ==> decisions == []
    ensures !CancelledOnTheWay(p, all, cancelled) ==> decisions == Take(Decide(p, all, 0, |all|), BATCH_SIZE)
  {
    decisions := [];
    var offset := 0;
    while true
      invariant Reaches(p, all, offset) && decisions == Decide(p, all, 0, offset)
      invariant QuietBefore(p, all, cancelled, offset)
      decreases |all| - offset
    {
      if cancelled(offset) { return []; }
      var size;
      decisions, size := TakePage(p, all, offset, decisions);
      if |decisions| == BATCH_SIZE || size < PAGE_SIZE {
        LastPage(p, all, cancelled, offset, offset + size);
        return;
      }
      NextPage(p, all, cancelled, offset);
      offset := offset + size;
    }
  }

  lemma NextPage(p: Policy, all: seq<Record>, cancelled: nat -> bool, offset: nat)
    requires Reaches(p, all, offset) && !cancelled(offset) && QuietBefore(p, all, cancelled, offset)
    ensures QuietBefore(p, all, cancelled, offset + PAGE_SIZE)
    ensures offset + PAGE_SIZE <= |all| && |Decide(p, all, 0, offset + PAGE_SIZE)| < BATCH_SIZE ==>
              Reaches(p, all, offset + PAGE_SIZE)
  {
  }

  /** After the batch is full or the list at its end no page is read. */
  lemma LastPage(p: Policy, all: seq<Record>, cancelled: nat -> bool, offset: nat, end: nat)
    requires Reaches(p, all, offset) && !cancelled(offset) && QuietBefore(p, all, cancelled, offset)
    requires offset <= end <= |all| && (end == offset + PAGE_SIZE || end == |all| < offset + PAGE_SIZE)
    requires end == |all| < offset + PAGE_SIZE || |Decide(p, all, 0, end)| >= BATCH_SIZE
    ensures !CancelledOnTheWay(p, all, cancelled)
  {
    NextPage(p, all, cancelled, offset);
    forall o: nat | Reaches(p, all, o) ensures !cancelled(o) {
      if o >= offset + PAGE_SIZE && end == offset + PAGE_SIZE { DecideConcat(p, all, 0, end, o); }
    }
  }

  lemma {:induction false} DecideConcat(p: Policy, all: seq<Record>, lo: nat, mid: nat, hi: nat)
    requires lo <= mid <= hi <= |all|
    ensures Decide(p, all, lo, hi) == Decide(p, all, lo, mid) + Decide(p, all, mid, hi)
  {
    if mid < hi { DecideConcat(p, all, lo, mid, hi - 1); }
  }

  /** What is still missing from the batch is taken from the next page. */
  lemma {:induction false} PageShare(p: Policy, all: seq<Record>, offset: nat, end: nat)
    requires offset <= end <= |all| && |Decide(p, all, 0, offset)| < BATCH_SIZE
    ensures var before := Decide(p, all, 0, offset);
            var so := before + Take(Decide(p, all, offset, end), BATCH_SIZE - |before|);
            && |so| <= BATCH_SIZE
            && (|so| == BATCH_SIZE <==> |Decide(p, all, 0, end)| >= BATCH_SIZE)
            && (|so| < BATCH_SIZE ==> so == Decide(p, all, 0, end))
            && (|so| == BATCH_SIZE || end == |all| ==> so == Take(Decide(p, all, 0, |all|), BATCH_SIZE))
  {
    DecideConcat(p, all, 0, offset, end);
    DecideConcat(p, all, 0, end, |all|);
    TakeConcat(Decide(p, all, 0, offset), Decide(p, all, offset, end), Decide(p, all, end, |all|), BATCH_SIZE);
  }

  lemma TakeConcat<T>(x: seq<T>, y: seq<T>, z: seq<T>, n: nat)
    requires |x| < n
    ensures var so := x + Take(y, n - |x|);
            && |so| <= n
            && (|so| < n ==> so == x + y)
            && (|so| == n || z == [] ==> so == Take(x + y + z, n))
  {
  }

  // ----- what a decision means -----

  /** Completed a given number of whole days ago, or longer. */
  predicate OlderThan(r: Record, days: nat, now: int) {
    r.completedAt.Some? && now - r.completedAt.value >= days * DAY
  }

  /** A record goes exactly when it is completed, not the newest, and too old or too far down. */
  lemma {:induction false} DecidedExactly(p: Policy, all: seq<Record>, lo: nat, hi: nat, id: string)
    requires lo <= hi <= |all|
    ensures (exists d :: d in Decide(p, all, lo, hi) && d.id == id) <==>
            exists i :: lo <= i < hi && all[i].id == id && all[i].completed && i > 0
                        && ((p.days > 0 && OlderThan(all[i], p.days, p.now)) || (p.count > 0 && i >= p.count))
  {
    if lo < hi {
      DecidedExactly(p, all, lo, hi - 1, id);
      var before, last := Decide(p, all, lo, hi - 1), Judge(p, hi - 1, all[hi - 1]);
      assert forall d :: d in before + last <==> d in before || d in last;
      if last != [] { assert last[0] in before + last; }
    }
  }

  /** Age is the reason exactly for the records that are too old, whatever the count rule says. */
  lemma {:induction false} ReasonIsAge(p: Policy, all: seq<Record>, lo: nat, hi: nat, id: string)
    requires lo <= hi <= |all|
    ensures Decision(id, Days) in Decide(p, all, lo, hi) <==>
            exists i :: lo <= i < hi && all[i].id == id && all[i].completed && i > 0
                        && p.days > 0 && OlderThan(all[i], p.days, p.now)
  {
    if lo < hi { ReasonIsAge(p, all, lo, hi - 1, id); }
  }

  /** Under the day rule alone whatever is completed before a decided record goes too, but for the newest. */
  lemma OlderGoesFirst(p: Policy, all: seq<Record>, i: nat, j: nat)
    requires p.count == 0 && i < |all| && 0 < j < |all| && all[i].completed && all[j].completed
    requires all[i].completedAt.Some? && all[j].completedAt.Some?
    requires all[j].completedAt.value <= all[i].completedAt.value
    requires Judge(p, i, all[i]) != []
    ensures Judge(p, j, all[j]) == [Decision(all[j].id, Days)]
  {
  }

  ghost predicate DistinctIds(records: seq<Record>) {
    forall i, j | 0 <= i < j < |records| :: records[i].id != records[j].id
  }

  /** The newest scheduled backup survives every pass, whatever the thresholds. */
  lemma NewestIsKept(p: Policy, all: seq<Record>)
    requires DistinctIds(all) && all != []
    ensures forall d | d in Take(Decide(p, all, 0, |all|), BATCH_SIZE) :: d.id != all[0].id
  {
    DecidedExactly(p, all, 0, |all|, all[0].id);
  }

  // ----- repeated passes under a count rule -----

  ghost predicate AllCompleted(records: seq<Record>) {
    forall i | 0 <= i < |records| :: records[i].completed
  }

  /** With only a count rule, everything from position `count` on is decided, in order. */
  lemma {:induction false} CountRule(p: Policy, all: seq<Record>, hi: nat)
    requires p.days == 0 && p.count >= 1 && AllCompleted(all) && hi <= |all|
    ensures |Decide(p, all, 0, hi)| == if hi <= p.count then 0 else hi - p.count
    ensures forall i | 0 <= i < |Decide(p, all, 0, hi)| :: Decide(p, all, 0, hi)[i].id == all[p.count + i].id
  {
    if hi > 0 { CountRule(p, all, hi - 1); }
  }

  predicate Gone(gone: seq<Decision>, id: string) {
    exists j :: 0 <= j < |gone| && gone[j].id == id
  }

  /** The list after the decided records are deleted. */
  function Remaining(records: seq<Record>, gone: seq<Decision>): seq<Record> {
    if records == [] then [] else
      var last := |records| - 1;
      Remaining(records[..last], gone) + if Gone(gone, records[last].id) then [] else [records[last]]
  }

  /** The list without its positions `lo` to `hi`. */
  function Without(records: seq<Record>, lo: nat, hi: nat): seq<Record>
    requires lo <= hi
  {
    Take(records, lo) + if hi <= |records| then records[hi..] else []
  }

  lemma WithoutLast(records: seq<Record>, lo: nat, hi: nat)
    requires lo <= hi && records != []
    ensures var n := |records| - 1;
            Without(records, lo, hi) == Without(records[..n], lo, hi) + if lo <= n < hi then [] else [records[n]]
  {
  }

  /** Deleting the stretch from `lo` to `hi` by id leaves exactly the rest of the list. */
  lemma {:induction false} RemainingAround(records: seq<Record>, lo: nat, hi: nat, gone: seq<Decision>)
    requires lo <= hi
    requires forall i | 0 <= i < |records| :: lo <= i < hi <==> Gone(gone, records[i].id)
    ensures Remaining(records, gone) == Without(records, lo, hi)
  {
    if records != [] {
      var n := |records| - 1;
      RemainingAround(records[..n], lo, hi, gone);
      WithoutLast(records, lo, hi);
    }
  }

  function Pass(p: Policy, all: seq<Record>): seq<Record> {
    Remaining(all, Take(Decide(p, all, 0, |all|), BATCH_SIZE))
  }

  /** One pass removes the next ten records after the first `count`. */
  lemma PassRemoves(p: Policy, all: seq<Record>)
    requires p.days == 0 && p.count >= 1 && AllCompleted(all) && DistinctIds(all)
    ensures Pass(p, all) == Without(all, p.count, p.count + BATCH_SIZE)
  {
    var gone := Take(Decide(p, all, 0, |all|), BATCH_SIZE);
    CountRule(p, all, |all|);
    forall i | 0 <= i < |all|
      ensures p.count <= i < p.count + BATCH_SIZE <==> Gone(gone, all[i].id)
    {
      if p.count <= i < p.count + BATCH_SIZE { assert gone[i - p.count].id == all[i].id; }
    }
    RemainingAround(all, p.count, p.count + BATCH_SIZE, gone);
  }

  lemma PassKeepsHead(p: Policy, all: seq<Record>)
    requires p.days == 0 && p.count >= 1 && AllCompleted(all) && DistinctIds(all)
    ensures AllCompleted(Pass(p, all)) && DistinctIds(Pass(p, all)) && Take(Pass(p, all), p.count) == Take(all, p.count)
    ensures |Pass(p, all)| <= p.count || |Pass(p, all)| + BATCH_SIZE <= |all|
  {
    PassRemoves(p, all);
  }

  function Passes(p: Policy, all: seq<Record>, n: nat): seq<Record>
    decreases n
  {
    if n == 0 then all else Passes(p, Pass(p, all), n - 1)
  }

  /** Repeated passes settle on exactly the newest `count` records and then change nothing. */
  lemma {:induction false} PassesConverge(p: Policy, all: seq<Record>, n: nat)
    requires p.days == 0 && p.count >= 1 && AllCompleted(all) && DistinctIds(all) && |all| <= p.count + n * BATCH_SIZE
    ensures Passes(p, all, n) == Take(all, p.count)
    decreases n
  {
    if n > 0 {
      PassKeepsHead(p, all);
      PassesConverge(p, Pass(p, all), n - 1);
    }
  }
}
