/**
 * Crash safety of the backup worker.  The worker talks to three ports (record store, local staging
 * directory, object store); every port call is one step, its effect and its return are separate
 * where the effect may survive a lost return, uploads may store something else than was sent, any
 * call may fail, and the worker may crash between any two steps.  Administrators add records and
 * retire finished ones at any time.
 */
module Backup {
  import opened Wrappers

  type Id = nat
  type ObjectKey = string

  /** Size and sha256 of an archive, or what the object store reports for an object. */
  datatype Meta = Meta(size: nat, sha256: string)

  datatype Status = Queued | Dumping | Uploading | Completed | Failed | Deleting

  datatype Row = Row(status: Status, meta: Option<Meta>, key: ObjectKey)

  /** The next port call of the worker, with what its locals hold. */
  datatype Pc =
    | Idle
    | Dump(id: Id)
    | Archived(id: Id)
    | Persist(id: Id, meta: Meta)
    | Send(id: Id, meta: Meta)
    | Sent(id: Id, meta: Meta)
    | Verify(id: Id, meta: Meta)
    | Accept(id: Id)
    | Discard(id: Id)
    | Reject(id: Id, from: Status)
    | Cleanup(id: Id)
    | Remove(id: Id)
    | Erase(id: Id)

  /** `used`: every id that was ever given to a record; ids are not reused. */
  datatype World = World(rows: map<Id, Row>, objects: map<ObjectKey, Meta>, staging: map<Id, Meta>, used: set<Id>,
                         pc: Pc)

  /** What a HEAD request says about an object: it is there, it is not found (which may be stale), or nothing. */
  datatype Head = Seen | NotFound | Unknown

  datatype Step =
    | Insert(id: Id, key: ObjectKey)
    | Retire(id: Id)
    | Crash
    | Claim(id: Id)
    | RecoverDumping(id: Id)
    | RecoverUploading(id: Id, head: Head)
    | BeginRemoval(id: Id)
    | DumpWrites(archive: Meta)
    | DumpReturns(ok: bool)
    | PersistMeta
    | UploadWrites(stored: Meta)
    | UploadReturns(ok: bool)
    | HeadReturns(head: Head)
    | MarkCompleted
    | DeleteObject(applied: bool, ok: bool)
    | MarkFailed
    | CleanStaging(ok: bool)
    | DeleteRow

  const INITIAL := World(map[], map[], map[], {}, Idle)

  predicate HasStatus(w: World, id: Id, status: Status) {
    id in w.rows && w.rows[id].status == status
  }

  ghost predicate Possible(w: World, step: Step) {
    match step
    case Insert(id, key) => id !in w.used && forall other | other in w.rows :: w.rows[other].key != key
    case Retire(id) => HasStatus(w, id, Completed) || HasStatus(w, id, Failed)
    case Crash => true
    case Claim(id) => w.pc.Idle? && HasStatus(w, id, Queued)
    case RecoverDumping(id) => w.pc.Idle? && HasStatus(w, id, Dumping)
    case RecoverUploading(id, head) => w.pc.Idle? && HasStatus(w, id, Uploading) && !head.Unknown?
      && (head.Seen? ==> w.rows[id].key in w.objects)
    case BeginRemoval(id) => w.pc.Idle? && HasStatus(w, id, Deleting)
    case DumpWrites(_) => w.pc.Dump?
    case DumpReturns(ok) => (w.pc.Dump? && !ok) || (w.pc.Archived? && w.pc.id in w.staging)
    case PersistMeta => w.pc.Persist?
    case UploadWrites(_) => w.pc.Send? && w.pc.id in w.rows
    case UploadReturns(ok) => (w.pc.Send? && !ok) || w.pc.Sent?
    case HeadReturns(head) => w.pc.Verify? && w.pc.id in w.rows && (head.Seen? ==> w.rows[w.pc.id].key in w.objects)
    case MarkCompleted => w.pc.Accept?
    case DeleteObject(applied, ok) => (w.pc.Discard? || w.pc.Remove?) && w.pc.id in w.rows && (ok ==> applied)
    case MarkFailed => w.pc.Reject?
    case CleanStaging(_) => w.pc.Cleanup?
    case DeleteRow => w.pc.Erase?
  }

  /** `transition_status`: only from the expected status; what is not given keeps its value. */
  function Transition(w: World, id: Id, from: Status, to: Status, meta: Option<Meta>): World {
    if HasStatus(w, id, from)
    then w.(rows := w.rows[id := w.rows[id].(status := to, meta := if meta.Some? then meta else w.rows[id].meta)])
    else w
  }

  /** A record found in another status than expected is left alone; else its status and the given metadata change. */
  lemma TransitionIsCompareAndSet(w: World, id: Id, from: Status, to: Status, meta: Option<Meta>)
    ensures var v := Transition(w, id, from, to, meta);
            if id in w.rows && w.rows[id].status == from
            then
              && v.rows.Keys == w.rows.Keys
              && (forall other | other in w.rows && other != id :: v.rows[other] == w.rows[other])
              && v.rows[id].status == to && v.rows[id].key == w.rows[id].key
              && (meta.Some? ==> v.rows[id].meta == meta) && (meta.None? ==> v.rows[id].meta == w.rows[id].meta)
              && v == w.(rows := v.rows)
            else v == w
  {
  }

  ghost function Next(w: World, step: Step): World
    requires Possible(w, step)
  {
    match step
    case Insert(id, key) => w.(rows := w.rows[id := Row(Queued, None, key)], used := w.used + {id})
    case Retire(id) => Transition(w, id, w.rows[id].status, Deleting, None)
    case Crash => w.(pc := Idle)
    case Claim(id) => Transition(w, id, Queued, Dumping, None).(pc := Dump(id))
    case RecoverDumping(id) =>
      w.(pc := if id in w.staging then Persist(id, w.staging[id]) else Reject(id, Dumping))
    case RecoverUploading(id, head) =>
      var row := w.rows[id];
      w.(pc := if head.Seen? && row.meta == Some(w.objects[row.key]) then Accept(id)
               else if id in w.staging then Send(id, w.staging[id]) else Reject(id, Uploading))
    case BeginRemoval(id) => w.(pc := Remove(id))
    case DumpWrites(archive) => w.(staging := w.staging[w.pc.id := archive], pc := Archived(w.pc.id))
    case DumpReturns(ok) => w.(pc := if ok then Persist(w.pc.id, w.staging[w.pc.id]) else Reject(w.pc.id, Dumping))
    case PersistMeta =>
      var v := Transition(w, w.pc.id, Dumping, Uploading, Some(w.pc.meta));
      v.(pc := if HasStatus(w, w.pc.id, Dumping) then Send(w.pc.id, w.pc.meta) else Idle)
    case UploadWrites(stored) =>
      w.(objects := w.objects[w.rows[w.pc.id].key := stored], pc := Sent(w.pc.id, w.pc.meta))
    case UploadReturns(ok) => w.(pc := if ok then Verify(w.pc.id, w.pc.meta) else Discard(w.pc.id))
    case HeadReturns(head) =>
      var key := w.rows[w.pc.id].key;
      w.(pc := if head.Unknown? then Discard(w.pc.id)
               else if head.NotFound? then Reject(w.pc.id, Uploading)
               else if w.objects[key] == w.pc.meta then Accept(w.pc.id)
               else Discard(w.pc.id))
    case MarkCompleted =>
      var v := Transition(w, w.pc.id, Uploading, Completed, None);
      v.(pc := if HasStatus(w, w.pc.id, Uploading) then Cleanup(w.pc.id) else Idle)
    case DeleteObject(applied, ok) =>
      w.(objects := if applied then w.objects - {w.rows[w.pc.id].key} else w.objects,
         pc := if w.pc.Discard? then Reject(w.pc.id, Uploading) else if ok then Erase(w.pc.id) else Idle)
    case MarkFailed => Transition(w, w.pc.id, w.pc.from, Failed, None).(pc := Cleanup(w.pc.id))
    case CleanStaging(ok) => w.(staging := if ok then w.staging - {w.pc.id} else w.staging, pc := Idle)
    case DeleteRow => w.(rows := w.rows - {w.pc.id}, pc := Idle)
  }

  ghost function RunFrom(w: World, steps: seq<Step>): Option<World> {
    if steps == [] then Some(w) else
      var before := RunFrom(w, steps[..|steps| - 1]);
      var step := steps[|steps| - 1];
      if before.Some? && Possible(before.value, step) then Some(Next(before.value, step)) else None
  }

  // ----- invariant -----

  ghost predicate Owner(w: World, id: Id, key: ObjectKey) {
    id in w.rows && w.rows[id].key == key
  }

  /** Every object in the remote store can be found from a record. */
  ghost predicate NoOrphans(w: World) {
    forall key | key in w.objects :: exists id :: Owner(w, id, key)
  }

  /** What a record says about its archive, by status. */
  ghost predicate RowOk(w: World, id: Id)
    requires id in w.rows
  {
    var row := w.rows[id];
    match row.status
    case Queued => id !in w.staging
    case Uploading => row.meta.Some? && (id in w.staging ==> w.staging[id] == row.meta.value)
    case Completed => row.meta.Some? && row.key in w.objects && w.objects[row.key] == row.meta.value
    case _ => true
  }

  ghost predicate Keyed(w: World) {
    && w.rows.Keys <= w.used && w.staging.Keys <= w.used
    && forall a, b | a in w.rows && b in w.rows && w.rows[a].key == w.rows[b].key :: a == b
  }

  /** What the worker may rely on between two of its calls. */
  ghost predicate PcOk(w: World) {
    var pc := w.pc;
    match pc
    case Idle => true
    case Dump(id) => HasStatus(w, id, Dumping) && id !in w.staging
    case Archived(id) => HasStatus(w, id, Dumping) && id in w.staging
    case Persist(id, meta) => HasStatus(w, id, Dumping) && id in w.staging && w.staging[id] == meta
    case Send(id, meta) => HasStatus(w, id, Uploading) && w.rows[id].meta == Some(meta)
    case Sent(id, meta) => HasStatus(w, id, Uploading) && w.rows[id].meta == Some(meta)
    case Verify(id, meta) => HasStatus(w, id, Uploading) && w.rows[id].meta == Some(meta)
    case Accept(id) => HasStatus(w, id, Uploading) && w.rows[id].key in w.objects
      && Some(w.objects[w.rows[id].key]) == w.rows[id].meta
    case Discard(id) => HasStatus(w, id, Uploading)
    case Reject(id, from) => HasStatus(w, id, from) && (from == Dumping || from == Uploading)
    case Cleanup(id) => id in w.rows && w.rows[id].status in {Completed, Failed, Deleting}
    case Remove(id) => HasStatus(w, id, Deleting)
    case Erase(id) => HasStatus(w, id, Deleting) && w.rows[id].key !in w.objects
  }

  ghost predicate RowsOk(w: World) {
    forall id | id in w.rows :: RowOk(w, id)
  }

  ghost predicate Inv(w: World) {
    Keyed(w) && RowsOk(w) && PcOk(w) && NoOrphans(w)
  }

  lemma StepKeepsKeyed(w: World, step: Step)
    requires Inv(w) && Possible(w, step)
    ensures Keyed(Next(w, step))
  {
    if step.Insert? || step.DumpWrites? { GrowthKeepsKeyed(w, step); } else { ShrinkageKeepsKeyed(w, step); }
  }

  lemma GrowthKeepsKeyed(w: World, step: Step)
    requires Inv(w) && Possible(w, step) && (step.Insert? || step.DumpWrites?)
    ensures Keyed(Next(w, step))
  {
  }

  /** The other steps add no record and no staged archive, and change no key. */
  lemma ShrinkageKeepsKeyed(w: World, step: Step)
    requires Inv(w) && Possible(w, step) && !step.Insert? && !step.DumpWrites?
    ensures Keyed(Next(w, step))
  {
    OnlyShrinks(w, step);
  }

  ghost predicate Shrunk(w: World, v: World) {
    && v.rows.Keys <= w.rows.Keys && v.staging.Keys <= w.staging.Keys && v.used == w.used
    && forall id | id in v.rows :: v.rows[id].key == w.rows[id].key
  }

  lemma OnlyShrinks(w: World, step: Step)
    requires Possible(w, step) && !step.Insert? && !step.DumpWrites?
    ensures Shrunk(w, Next(w, step))
  {
  }

  lemma StepKeepsRow(w: World, step: Step, id: Id)
    requires Inv(w) && Possible(w, step) && id in Next(w, step).rows
    ensures RowOk(Next(w, step), id)
  {
    if id in w.rows { assert RowOk(w, id); }
    if step.UploadWrites? || step.DeleteObject? { ObjectStepKeepsRow(w, step, id); }
    else if ChangesRow(step) { RowStepKeepsRow(w, step, id); }
    else { assert Next(w, step).rows == w.rows && Next(w, step).objects == w.objects; }
  }

  predicate ChangesRow(step: Step) {
    || step.Insert? || step.Retire? || step.Claim? || step.PersistMeta?
    || step.MarkCompleted? || step.MarkFailed? || step.DeleteRow?
  }

  lemma RowStepKeepsRow(w: World, step: Step, id: Id)
    requires Inv(w) && Possible(w, step) && ChangesRow(step) && id in Next(w, step).rows
    ensures RowOk(Next(w, step), id)
  {
    if id in w.rows { assert RowOk(w, id); }
  }

  lemma ObjectStepKeepsRow(w: World, step: Step, id: Id)
    requires Inv(w) && Possible(w, step) && id in w.rows && (step.UploadWrites? || step.DeleteObject?)
    ensures RowOk(Next(w, step), id)
  {
    assert RowOk(w, id);
    assert w.rows[id].key == w.rows[w.pc.id].key ==> id == w.pc.id;
  }

  lemma StepKeepsPc(w: World, step: Step)
    requires Inv(w) && Possible(w, step)
    ensures PcOk(Next(w, step))
  {
    if step.Claim? || step.RecoverUploading? { assert RowOk(w, step.id); }
  }

  lemma StepKeepsOwners(w: World, step: Step)
    requires Inv(w) && Possible(w, step)
    ensures NoOrphans(Next(w, step))
  {
    var v := Next(w, step);
    forall key | key in v.objects ensures exists id :: Owner(v, id, key) {
      if key in w.objects {
        var id :| Owner(w, id, key);
        assert Owner(v, id, key);
      } else {
        assert Owner(v, w.pc.id, key);
      }
    }
  }

  lemma StepKeepsInv(w: World, step: Step)
    requires Inv(w) && Possible(w, step)
    ensures Inv(Next(w, step))
  {
    StepKeepsKeyed(w, step);
    forall id | id in Next(w, step).rows ensures RowOk(Next(w, step), id) { StepKeepsRow(w, step, id); }
    StepKeepsPc(w, step);
    StepKeepsOwners(w, step);
  }

  lemma {:induction false} RunKeepsInv(steps: seq<Step>)
    requires RunFrom(INITIAL, steps).Some?
    ensures Inv(RunFrom(INITIAL, steps).value)
  {
    if steps != [] {
      RunKeepsInv(steps[..|steps| - 1]);
      StepKeepsInv(RunFrom(INITIAL, steps[..|steps| - 1]).value, steps[|steps| - 1]);
    }
  }

  // ----- results over every crash-interrupted run -----

  /** Each object's key belongs to exactly one record, and a completed record's object is the persisted one. */
  ghost predicate Safe(w: World) {
    && (forall key | key in w.objects :: exists id :: Owner(w, id, key))
    && (forall id | HasStatus(w, id, Completed) ::
          var row := w.rows[id]; row.key in w.objects && row.meta == Some(w.objects[row.key]))
    && (forall a, b, key | Owner(w, a, key) && Owner(w, b, key) :: a == b)
  }

  lemma {:induction false} CrashSafety(steps: seq<Step>)
    requires RunFrom(INITIAL, steps).Some?
    ensures Safe(RunFrom(INITIAL, steps).value)
  {
    RunKeepsInv(steps);
    var w := RunFrom(INITIAL, steps).value;
    forall id | HasStatus(w, id, Completed)
      ensures w.rows[id].key in w.objects && w.rows[id].meta == Some(w.objects[w.rows[id].key])
    {
      assert RowOk(w, id);
    }
  }

  /** The record's archive survived somewhere: complete in staging, or uploaded as persisted. */
  predicate Salvageable(w: World, id: Id)
    requires id in w.rows
  {
    || id in w.staging
    || (w.rows[id].status.Uploading? && w.rows[id].key in w.objects
        && w.rows[id].meta == Some(w.objects[w.rows[id].key]))
  }

  /**
   * Wherever a crash left a record, the next cycle alone, if no port fails, finishes it: as
   * Completed when the archive survived and as Failed otherwise.
   */
  lemma {:induction false} RecoveryFinishes(steps: seq<Step>, id: Id) returns (all: seq<Step>)
    requires RunFrom(INITIAL, steps).Some?
    requires var w := RunFrom(INITIAL, steps).value;
             w.pc.Idle? && (HasStatus(w, id, Dumping) || HasStatus(w, id, Uploading))
    ensures |all| <= |steps| + 6 && steps <= all
    ensures var w := RunFrom(INITIAL, steps).value; var v := RunFrom(INITIAL, all);
            v.Some? && HasStatus(v.value, id, if Salvageable(w, id) then Completed else Failed)
  {
    RunKeepsInv(steps);
    var w := RunFrom(INITIAL, steps).value;
    assert RowOk(w, id);
    all := Append(steps, if w.rows[id].status.Dumping? then RecoverDumping(id)
                         else RecoverUploading(id, if w.rows[id].key in w.objects then Seen else NotFound));
    if !Salvageable(w, id) {
      all := Append(all, MarkFailed);
    } else if RunFrom(INITIAL, all).value.pc.Accept? {
      all := Append(all, MarkCompleted);
    } else {
      all := Resend(all, id);
    }
  }

  lemma {:induction false} Resend(steps: seq<Step>, id: Id) returns (all: seq<Step>)
    requires RunFrom(INITIAL, steps).Some? && PcOk(RunFrom(INITIAL, steps).value)
    requires var pc := RunFrom(INITIAL, steps).value.pc; (pc.Persist? || pc.Send?) && pc.id == id
    ensures |all| <= |steps| + 5 && steps <= all
    ensures RunFrom(INITIAL, all).Some? && HasStatus(RunFrom(INITIAL, all).value, id, Completed)
  {
    all := steps;
    var meta := RunFrom(INITIAL, steps).value.pc.meta;
    if RunFrom(INITIAL, steps).value.pc.Persist? { all := Append(all, PersistMeta); }
    all := UploadAgain(all, id, meta);
  }

  lemma UploadAgain(steps: seq<Step>, id: Id, meta: Meta) returns (all: seq<Step>)
    requires RunFrom(INITIAL, steps).Some? && RunFrom(INITIAL, steps).value.pc == Send(id, meta)
    requires HasStatus(RunFrom(INITIAL, steps).value, id, Uploading)
    ensures |all| == |steps| + 4 && steps <= all
    ensures RunFrom(INITIAL, all).Some? && HasStatus(RunFrom(INITIAL, all).value, id, Completed)
    ensures var w, v := RunFrom(INITIAL, steps).value, RunFrom(INITIAL, all).value;
            && v.pc == Cleanup(id) && v.rows[id].meta == w.rows[id].meta
            && v.objects == w.objects[w.rows[id].key := meta]
  {
    all := Append(steps, UploadWrites(meta));
    all := Append(all, UploadReturns(true));
    all := Append(all, HeadReturns(Seen));
    all := Append(all, MarkCompleted);
  }

  /** A queued record goes through to completion if no port fails, and nothing stays behind in staging. */
  lemma {:induction false} QueuedCompletes(steps: seq<Step>, id: Id, meta: Meta) returns (all: seq<Step>)
    requires RunFrom(INITIAL, steps).Some?
    requires var w := RunFrom(INITIAL, steps).value; w.pc.Idle? && HasStatus(w, id, Queued)
    ensures RunFrom(INITIAL, all).Some? && steps <= all
    ensures var w, v := RunFrom(INITIAL, steps).value, RunFrom(INITIAL, all).value;
            && v.pc.Idle? && HasStatus(v, id, Completed) && v.rows[id].meta == Some(meta)
            && v.objects == w.objects[w.rows[id].key := meta] && id !in v.staging
  {
    all := Append(steps, Claim(id));
    all := Append(all, DumpWrites(meta));
    all := Append(all, DumpReturns(true));
    all := Append(all, PersistMeta);
    all := UploadCleanly(all, id, meta);
  }

  lemma UploadCleanly(steps: seq<Step>, id: Id, meta: Meta) returns (all: seq<Step>)
    requires RunFrom(INITIAL, steps).Some? && RunFrom(INITIAL, steps).value.pc == Send(id, meta)
    requires var w := RunFrom(INITIAL, steps).value; HasStatus(w, id, Uploading) && w.rows[id].meta == Some(meta)
    ensures RunFrom(INITIAL, all).Some? && steps <= all
    ensures var w, v := RunFrom(INITIAL, steps).value, RunFrom(INITIAL, all).value;
            && v.pc.Idle? && HasStatus(v, id, Completed) && v.rows[id].meta == Some(meta)
            && v.objects == w.objects[w.rows[id].key := meta] && id !in v.staging
  {
    all := UploadAgain(steps, id, meta);
    all := Append(all, CleanStaging(true));
  }

  /** A record to be deleted goes with its object. */
  lemma {:induction false} DeletionCompletes(steps: seq<Step>, id: Id) returns (all: seq<Step>)
    requires RunFrom(INITIAL, steps).Some?
    requires var w := RunFrom(INITIAL, steps).value; w.pc.Idle? && HasStatus(w, id, Deleting)
    ensures RunFrom(INITIAL, all).Some? && steps <= all
    ensures var w, v := RunFrom(INITIAL, steps).value, RunFrom(INITIAL, all).value;
            v.pc.Idle? && v.rows == w.rows - {id} && v.objects == w.objects - {w.rows[id].key}
  {
    all := Append(steps, BeginRemoval(id));
    all := Append(all, DeleteObject(true, true));
    all := Append(all, DeleteRow);
  }

  lemma Append(steps: seq<Step>, step: Step) returns (longer: seq<Step>)
    requires RunFrom(INITIAL, steps).Some? && Possible(RunFrom(INITIAL, steps).value, step)
    ensures longer == steps + [step] && RunFrom(INITIAL, longer) == Some(Next(RunFrom(INITIAL, steps).value, step))
  {
    longer := steps + [step];
    assert longer[..|steps|] == steps;
  }
}
