/**
 * Publishing under the repository lock, with a crash possible between any two writes.  A pointer
 * release names the current version and at most one reserved (pending) snapshot; each version's
 * own release carries its sealed snapshot.  `Publisher` is the object of `published-channels.rb`;
 * the run model adds the surrounding job (upload the draft, make it public) and the crashes.
 * A digest stands for the snapshot it was taken of.
 */
module Publication {
  import opened Wrappers
  import opened Channels

  datatype Snapshot = Snapshot(version: Version, published: Document)

  datatype ReleasePage = ReleasePage(public: bool, snapshot: Option<Snapshot>)

  datatype Pointer = Pointer(current: Option<Version>, pending: Option<Snapshot>)

  /** What the hosting service stores.  `latest` is the release it calls the latest stable one. */
  datatype Store = Store(pointer: Pointer, releases: map<Version, ReleasePage>, latest: Option<Version>)

  datatype Refusal = NotPublic | BadSnapshot | NotReserved | AlreadyPublic | ConflictingRelease | TooLarge

  predicate IsPublic(s: Store, v: Version) {
    v in s.releases && s.releases[v].public
  }

  /** The public release of `v` with its sealed snapshot, as `verify_assets` and `read_snapshot` accept it. */
  function Sealed(s: Store, v: Version): Result<Snapshot, Refusal> {
    if !IsPublic(s, v) then Err(NotPublic)
    else if s.releases[v].snapshot.None? || s.releases[v].snapshot.value.version != v then Err(BadSnapshot)
    else Ok(s.releases[v].snapshot.value)
  }

  /** The table the next snapshot starts from. */
  function Previous(s: Store): Result<Document, Refusal> {
    if s.pointer.current.Some? then
      var sealed := Sealed(s, s.pointer.current.value);
      if sealed.Ok? then Ok(sealed.value.published) else Err(sealed.error)
    else if s.latest.Some? then
      if !IsPublic(s, s.latest.value) then Err(NotPublic)
      else if Advance(map[], s.latest.value).Some? then Ok(Advance(map[], s.latest.value).value)
      else Err(ConflictingRelease)
    else Ok(map[])
  }

  predicate CanFinish(s: Store, v: Version) {
    Sealed(s, v).Ok? && (s.pointer.current == Some(v) || s.pointer.pending == Some(Sealed(s, v).value))
  }

  function Finished(s: Store, v: Version): Store {
    if s.pointer.current == Some(v) then s else s.(pointer := Pointer(Some(v), None))
  }

  /** The reserved version has become public and has not been folded in yet. */
  predicate Owes(s: Store) {
    && s.pointer.pending.Some? && IsPublic(s, s.pointer.pending.value.version)
    && s.pointer.current != Some(s.pointer.pending.value.version)
  }

  predicate CanReserve(s: Store, v: Version) {
    && !Owes(s)
    && !IsPublic(s, v)
    && Previous(s).Ok? && Advance(Previous(s).value, v).Some?
  }

  function Reserved(s: Store, v: Version): Store
    requires CanReserve(s, v)
  {
    s.(pointer := s.pointer.(pending := Some(Snapshot(v, Advance(Previous(s).value, v).value))))
  }

  /** Each write of the pointer release is atomic; a crash leaves the store after some prefix of them. */
  class Publisher {
    var store: Store
    var state: Pointer

    ghost predicate Valid()
      reads this
    {
      state == store.pointer
    }

    constructor (store: Store)
      ensures Valid() && this.store == store
    {
      this.store := store;
      state := store.pointer;
    }

    method Save(current: Option<Version>, pending: Option<Snapshot>)
      modifies this
      ensures Valid() && store == old(store).(pointer := Pointer(current, pending))
    {
      store := store.(pointer := Pointer(current, pending));
      state := Pointer(current, pending);
    }

    method Finish(version: Version) returns (r: Result<(), Refusal>)
      requires Valid()
      modifies this
      ensures Valid()
      ensures r.Ok? <==> CanFinish(old(store), version)
      ensures store == if r.Ok? then Finished(old(store), version) else old(store)
    {
      var sealed := Sealed(store, version);
      if sealed.Err? { return Err(sealed.error); }
      if state.current == Some(version) { return Ok(()); }
      if state.pending != Some(sealed.value) { return Err(NotReserved); }
      Save(Some(version), None);
      return Ok(());
    }

    /**
     * A reservation that is already public is folded in first; only then may the new version take
     * the reservation.  `fits` is whether the client accepts the size of the new snapshot.
     */
    method Prepare(version: Version, fits: bool) returns (r: Result<Snapshot, Refusal>)
      requires Valid()
      modifies this
      ensures Valid()
      ensures var s := old(store);
              var owed := s.pointer.pending.Some? && IsPublic(s, s.pointer.pending.value.version);
              var mid := if owed then Finished(s, s.pointer.pending.value.version) else s;
              && (r.Ok? <==>
                    (owed ==> CanFinish(s, s.pointer.pending.value.version)) && CanReserve(mid, version) && fits)
              && (r.Ok? ==> store == Reserved(mid, version) && store.pointer.pending == Some(r.value))
              && (r.Err? ==> store == s || (owed && CanFinish(s, s.pointer.pending.value.version) && store == mid))
    {
      if state.pending.Some? && IsPublic(store, state.pending.value.version) {
        var done := Finish(state.pending.value.version);
        if done.Err? { return Err(done.error); }
      }
      if IsPublic(store, version) { return Err(AlreadyPublic); }
      var doc := Previous(store);
      if doc.Err? { return Err(doc.error); }
      var table := new ChannelDocument(doc.value);
      var advanced := table.Advance(version);
      if advanced.Err? { return Err(ConflictingRelease); }
      var snapshot := Snapshot(version, table.published);
      if !fits { return Err(TooLarge); }
      Save(state.current, Some(snapshot));
      return Ok(snapshot);
    }
  }

  // ----- runs of publication jobs with crashes -----

  /** How far the one job that holds the lock has come. */
  datatype Job = Idle | Reserving(version: Version) | Uploaded(version: Version) | Published(version: Version)

  /** `folded` records, in order, the versions that `current` has been moved to. */
  datatype World = World(store: Store, job: Job, folded: seq<Version>)

  datatype Step =
    | FinishOwed
    | Reserve(version: Version)
    | Upload
    | Publish(makeLatest: bool)
    | Finish
    | RecoverIndex(version: Version)
    | Crash

  ghost predicate Possible(w: World, step: Step) {
    match step
    case FinishOwed => w.job.Idle? && w.store.pointer.pending.Some?
      && CanFinish(w.store, w.store.pointer.pending.value.version)
    case Reserve(v) => w.job.Idle? && CanReserve(w.store, v)
    case Upload => w.job.Reserving?
    case Publish(_) => w.job.Uploaded?
    case Finish => w.job.Published? && CanFinish(w.store, w.job.version)
    case RecoverIndex(v) => w.job.Idle? && CanFinish(w.store, v)
    case Crash => true
  }

  /** Only called for a version whose finish is possible; a repeated finish folds nothing. */
  ghost function Fold(w: World, v: Version): World {
    World(Finished(w.store, v), Idle, if w.store.pointer.current == Some(v) then w.folded else w.folded + [v])
  }

  ghost function Next(w: World, step: Step): World
    requires Possible(w, step)
  {
    match step
    case FinishOwed => Fold(w, w.store.pointer.pending.value.version)
    case Reserve(v) => w.(store := Reserved(w.store, v), job := Reserving(v))
    case Upload =>
      w.(store := w.store.(releases := w.store.releases[w.job.version := ReleasePage(false, w.store.pointer.pending)]),
         job := Uploaded(w.job.version))
    case Publish(makeLatest) =>
      var v := w.job.version;
      var release := if v in w.store.releases then w.store.releases[v] else ReleasePage(false, None);
      w.(store := w.store.(releases := w.store.releases[v := release.(public := true)],
                           latest := if makeLatest then Some(v) else w.store.latest),
         job := Published(v))
    case Finish => Fold(w, w.job.version)
    case RecoverIndex(v) => Fold(w, v)
    case Crash => w.(job := Idle)
  }

  /** A repository before its first publication: some releases may be public, none has a snapshot. */
  ghost predicate Bootstrap(w: World) {
    && w.job.Idle? && w.folded == [] && w.store.pointer == Pointer(None, None)
    && (forall v | v in w.store.releases :: w.store.releases[v].public && w.store.releases[v].snapshot.None?)
    && (w.store.latest.Some? ==> w.store.latest.value in w.store.releases)
  }

  ghost function RunFrom(w: World, steps: seq<Step>): Option<World> {
    if steps == [] then Some(w) else
      var before := RunFrom(w, steps[..|steps| - 1]);
      var step := steps[|steps| - 1];
      if before.Some? && Possible(before.value, step) then Some(Next(before.value, step)) else None
  }

  ghost function BaseOf(start: World): Document {
    if start.store.latest.Some? && Advance(map[], start.store.latest.value).Some?
    then Advance(map[], start.store.latest.value).value else map[]
  }

  /** The snapshot `current` points at is the fold of everything finished so far. */
  ghost predicate CurrentIsFold(start: World, w: World) {
    && (w.store.pointer.current.None? <==> w.folded == [])
    && FoldFrom(BaseOf(start), w.folded).Some?
    && (w.folded != [] ==>
          && w.store.pointer.current == Some(w.folded[|w.folded| - 1])
          && Sealed(w.store, w.store.pointer.current.value)
             == Ok(Snapshot(w.store.pointer.current.value, FoldFrom(BaseOf(start), w.folded).value)))
  }

  /** The reserved snapshot is one step ahead of it. */
  ghost predicate PendingIsNext(start: World, w: World) {
    w.store.pointer.pending.Some? && FoldFrom(BaseOf(start), w.folded).Some? ==>
      var p := w.store.pointer.pending.value;
      Advance(FoldFrom(BaseOf(start), w.folded).value, p.version) == Some(p.published)
  }

  /** Whatever has become public was there at the start, is folded in, or still holds the reservation. */
  ghost predicate NothingDisplaced(start: World, w: World) {
    forall v | IsPublic(w.store, v) ::
      || v in start.store.releases
      || v in w.folded
      || (w.store.pointer.pending.Some? && w.store.pointer.pending.value.version == v
          && w.store.releases[v].snapshot == w.store.pointer.pending)
  }

  /** The job's own view: what it reserved is still reserved, and not public before its turn. */
  ghost predicate JobHolds(w: World) {
    w.job.Idle? ||
    (&& w.store.pointer.pending.Some? && w.store.pointer.pending.value.version == w.job.version
     && (w.job.Published? <==> IsPublic(w.store, w.job.version))
     && (!w.job.Reserving? ==> w.job.version in w.store.releases
                               && w.store.releases[w.job.version].snapshot == w.store.pointer.pending))
  }

  /** A reserved version that is public carries the reserved snapshot. */
  ghost predicate PendingIsSealed(w: World) {
    var pending := w.store.pointer.pending;
    pending.Some? && IsPublic(w.store, pending.value.version) ==>
      w.store.releases[pending.value.version].snapshot == pending
  }

  /** Until a first version is folded in, the base is still the release it was at the start. */
  ghost predicate BaseStands(start: World, w: World) {
    w.folded == [] ==>
      || (w.store.pointer.pending.Some? && IsPublic(w.store, w.store.pointer.pending.value.version))
      || w.store.latest == start.store.latest
  }

  ghost predicate Inv(start: World, w: World) {
    && CurrentIsFold(start, w) && PendingIsNext(start, w) && NothingDisplaced(start, w) && JobHolds(w)
    && PendingIsSealed(w) && BaseStands(start, w)
    && (forall v | v in start.store.releases :: v in w.store.releases && w.store.releases[v] == start.store.releases[v])
    && (w.store.latest.Some? ==> IsPublic(w.store, w.store.latest.value))
  }

  lemma PreviousIsFold(start: World, w: World)
    requires Bootstrap(start) && Inv(start, w) && !Owes(w.store)
    ensures Previous(w.store) == Ok(FoldFrom(BaseOf(start), w.folded).value)
  {
    if w.folded == [] && w.store.latest.Some? { AdvanceWrites(map[], w.store.latest.value); }
  }

  lemma FoldStep(start: World, w: World, v: Version)
    requires Bootstrap(start) && Inv(start, w) && CanFinish(w.store, v)
    requires w.job.Idle? || w.job == Published(v)
    ensures Inv(start, Fold(w, v))
  {
    Channels.Fold(BaseOf(start), w.folded, v);
  }

  lemma StepKeepsInv(start: World, w: World, step: Step)
    requires Bootstrap(start) && Inv(start, w) && Possible(w, step)
    ensures Inv(start, Next(w, step))
  {
    match step {
      case FinishOwed => FoldStep(start, w, w.store.pointer.pending.value.version);
      case Finish => FoldStep(start, w, w.job.version);
      case RecoverIndex(v) => FoldStep(start, w, v);
      case Reserve(v) => PreviousIsFold(start, w);
      case _ =>
    }
  }

  lemma {:induction false} RunKeepsInv(start: World, steps: seq<Step>)
    requires Bootstrap(start) && RunFrom(start, steps).Some?
    ensures Inv(start, RunFrom(start, steps).value)
  {
    if steps != [] {
      RunKeepsInv(start, steps[..|steps| - 1]);
      StepKeepsInv(start, RunFrom(start, steps[..|steps| - 1]).value, steps[|steps| - 1]);
    }
  }

  // ----- results over every crash-interrupted run -----

  /**
   * The snapshot that `current` names is the table of everything folded in so far, on top of the
   * bootstrap release; a reserved snapshot is that table advanced by its own version.
   */
  lemma {:induction false} CurrentSnapshot(start: World, steps: seq<Step>)
    requires Bootstrap(start) && RunFrom(start, steps).Some?
    ensures var w := RunFrom(start, steps).value;
            var table := FoldFrom(BaseOf(start), w.folded);
            && table.Some?
            && (w.folded != [] ==>
                  var v := w.folded[|w.folded| - 1];
                  w.store.pointer.current == Some(v) && Sealed(w.store, v) == Ok(Snapshot(v, table.value)))
            && (w.store.pointer.pending.Some? ==>
                  var p := w.store.pointer.pending.value; Advance(table.value, p.version) == Some(p.published))
  {
    RunKeepsInv(start, steps);
  }

  ghost function WithBase(start: World, folded: seq<Version>): seq<Version> {
    (if start.store.latest.Some? then [start.store.latest.value] else []) + folded
  }

  /** So each channel it lists is the maximum of the releases that reach that channel. */
  lemma CurrentHoldsMaxima(start: World, steps: seq<Step>)
    requires Bootstrap(start) && RunFrom(start, steps).Some?
    requires ConflictFree(WithBase(start, RunFrom(start, steps).value.folded))
    ensures var w := RunFrom(start, steps).value;
            w.store.pointer.current.Some? ==>
              var sealed := Sealed(w.store, w.store.pointer.current.value);
              sealed.Ok? && HoldsMaxima(sealed.value.published, WithBase(start, w.folded))
  {
    RunKeepsInv(start, steps);
    var w := RunFrom(start, steps).value;
    FoldHoldsMaxima(WithBase(start, w.folded));
    FoldOnBase(start, w.folded);
  }

  lemma {:induction false} FoldOnBase(start: World, folded: seq<Version>)
    ensures FoldFrom(map[], WithBase(start, folded)) == FoldFrom(BaseOf(start), folded)
  {
    if folded == [] {
      if start.store.latest.Some? {
        var v := start.store.latest.value;
        AdvanceWrites(map[], v);
        assert WithBase(start, []) == [] + [v];
        Channels.Fold(map[], [], v);
      }
    } else {
      var before, v := folded[..|folded| - 1], folded[|folded| - 1];
      FoldOnBase(start, before);
      assert WithBase(start, folded) == WithBase(start, before) + [v];
      Channels.Fold(map[], WithBase(start, before), v);
    }
  }

  /** A version made public while reserved keeps the reservation until it has been folded in. */
  lemma NeverDisplaced(start: World, steps: seq<Step>, n: nat, v: Version)
    requires Bootstrap(start) && RunFrom(start, steps).Some? && n <= |steps|
    requires RunFrom(start, steps[..n]).Some? && IsPublic(RunFrom(start, steps[..n]).value.store, v)
    requires v !in start.store.releases
    ensures var w := RunFrom(start, steps).value;
            IsPublic(w.store, v) &&
            (v in w.folded ||
             (w.store.pointer.pending.Some? && w.store.pointer.pending.value.version == v && CanFinish(w.store, v)))
  {
    PublicStays(start, steps, n, v);
    RunKeepsInv(start, steps);
  }

  lemma {:induction false} PublicStays(start: World, steps: seq<Step>, n: nat, v: Version)
    requires Bootstrap(start) && RunFrom(start, steps).Some? && n <= |steps|
    requires RunFrom(start, steps[..n]).Some? && IsPublic(RunFrom(start, steps[..n]).value.store, v)
    ensures IsPublic(RunFrom(start, steps).value.store, v)
  {
    if n == |steps| { assert steps[..n] == steps; } else {
      var before := steps[..|steps| - 1];
      assert before[..n] == steps[..n];
      PublicStays(start, before, n, v);
      RunKeepsInv(start, before);
      StepKeepsPublic(RunFrom(start, before).value, steps[|steps| - 1], v);
    }
  }

  lemma StepKeepsPublic(w: World, step: Step, v: Version)
    requires JobHolds(w) && Possible(w, step) && IsPublic(w.store, v)
    ensures IsPublic(Next(w, step).store, v)
  {
  }

  /** However a job crashed, the next `prepare` can fold in what is owed. */
  lemma {:induction false} OwedCanBeFinished(start: World, steps: seq<Step>)
    requires Bootstrap(start) && RunFrom(start, steps).Some? && Owes(RunFrom(start, steps).value.store)
    ensures var w := RunFrom(start, steps).value;
            && CanFinish(w.store, w.store.pointer.pending.value.version)
            && !Owes(Finished(w.store, w.store.pointer.pending.value.version))
            && Previous(Finished(w.store, w.store.pointer.pending.value.version))
               == Ok(w.store.pointer.pending.value.published)
  {
    RunKeepsInv(start, steps);
  }

  /** Only what is public is ever folded in, so current never names an unpublished version. */
  lemma {:induction false} FoldedIsPublic(start: World, steps: seq<Step>)
    requires Bootstrap(start) && RunFrom(start, steps).Some?
    ensures var w := RunFrom(start, steps).value;
            && (forall v | v in w.folded :: IsPublic(w.store, v))
            && (w.store.pointer.current.Some? ==> w.store.pointer.current.value in w.folded)
  {
    RunKeepsInv(start, steps);
    if steps != [] {
      var before, step := steps[..|steps| - 1], steps[|steps| - 1];
      FoldedIsPublic(start, before);
      RunKeepsInv(start, before);
      var w := RunFrom(start, before).value;
      forall v | v in w.folded ensures IsPublic(Next(w, step).store, v) { StepKeepsPublic(w, step, v); }
      FoldsPublic(w, step);
    }
  }

  lemma FoldsPublic(w: World, step: Step)
    requires Possible(w, step)
    ensures forall v | v in Next(w, step).folded :: v in w.folded || IsPublic(Next(w, step).store, v)
  {
  }

  // ----- publication never gets stuck -----

  /**
   * An idle job can reserve a version exactly when nothing is owed, the version is not public and does
   * not conflict with what is folded in; a reservation that never became public is no obstacle.
   */
  lemma {:induction false} ReservableIff(start: World, steps: seq<Step>, v: Version)
    requires Bootstrap(start) && RunFrom(start, steps).Some? && RunFrom(start, steps).value.job.Idle?
    ensures var w := RunFrom(start, steps).value; var table := FoldFrom(BaseOf(start), w.folded);
            table.Some? && (Possible(w, Reserve(v)) <==>
                            !Owes(w.store) && !IsPublic(w.store, v) && Advance(table.value, v).Some?)
  {
    RunKeepsInv(start, steps);
    if !Owes(RunFrom(start, steps).value.store) { PreviousIsFold(start, RunFrom(start, steps).value); }
  }

  lemma Extend(start: World, steps: seq<Step>, step: Step) returns (longer: seq<Step>)
    requires Bootstrap(start) && RunFrom(start, steps).Some? && Possible(RunFrom(start, steps).value, step)
    ensures longer == steps + [step] && RunFrom(start, longer) == Some(Next(RunFrom(start, steps).value, step))
    ensures Inv(start, RunFrom(start, longer).value)
  {
    longer := steps + [step];
    assert longer[..|steps|] == steps;
    RunKeepsInv(start, longer);
  }

  /** What has been folded in once the owed reservation is. */
  ghost function Settled(w: World): seq<Version> {
    if Owes(w.store) then w.folded + [w.store.pointer.pending.value.version] else w.folded
  }

  /** Wherever a job was when it crashed, the owed reservation can be folded in and the job then starts afresh. */
  lemma {:induction false} SettleAfterCrash(start: World, steps: seq<Step>) returns (all: seq<Step>)
    requires Bootstrap(start) && RunFrom(start, steps).Some?
    ensures RunFrom(start, all).Some? && steps + [Crash] <= all && |all| <= |steps| + 2
    ensures var w, v := RunFrom(start, steps).value, RunFrom(start, all).value;
            && v.job.Idle? && !Owes(v.store) && v.folded == Settled(w) && v.store.releases == w.store.releases
  {
    all := Extend(start, steps, Crash);
    if Owes(RunFrom(start, all).value.store) {
      OwedCanBeFinished(start, all);
      all := Extend(start, all, FinishOwed);
    }
  }

  /**
   * Publication never gets stuck: after any crash, a version that is not public and does not conflict
   * with what has been published can be reserved, uploaded, made public and folded in.
   */
  lemma {:induction false} PublicationGoesThrough(start: World, steps: seq<Step>, v: Version) returns (all: seq<Step>)
    requires Bootstrap(start) && RunFrom(start, steps).Some? && !IsPublic(RunFrom(start, steps).value.store, v)
    requires var table := FoldFrom(BaseOf(start), Settled(RunFrom(start, steps).value));
             table.Some? && Advance(table.value, v).Some?
    ensures RunFrom(start, all).Some? && steps + [Crash] <= all
    ensures var w, u := RunFrom(start, steps).value, RunFrom(start, all).value;
            && u.folded == Settled(w) + [v] && u.store.pointer == Pointer(Some(v), None) && u.job.Idle?
            && IsPublic(u.store, v)
  {
    all := SettleAfterCrash(start, steps);
    ReservableIff(start, all, v);
    RunKeepsInv(start, all);
    all := Extend(start, all, Reserve(v));
    all := CompleteJob(start, all);
  }

  /** From the reservation on nothing but a crash can keep the job from finishing. */
  lemma {:induction false} CompleteJob(start: World, steps: seq<Step>) returns (all: seq<Step>)
    requires Bootstrap(start) && RunFrom(start, steps).Some? && RunFrom(start, steps).value.job.Reserving?
    ensures RunFrom(start, all).Some? && steps <= all
    ensures var w, u := RunFrom(start, steps).value, RunFrom(start, all).value; var v := w.job.version;
            && u.folded == w.folded + [v] && u.store.pointer == Pointer(Some(v), None) && u.job.Idle?
            && IsPublic(u.store, v)
  {
    RunKeepsInv(start, steps);
    NewVersion(start, RunFrom(start, steps).value);
    all := Extend(start, steps, Upload);
    all := Extend(start, all, Publish(false));
    all := Extend(start, all, Finish);
  }

  /** What is folded in has been made public, so the job's version is a new one. */
  lemma NewVersion(start: World, w: World)
    requires Bootstrap(start) && Inv(start, w) && w.job.Reserving?
    ensures w.store.pointer.current != Some(w.job.version)
  {
  }
}
