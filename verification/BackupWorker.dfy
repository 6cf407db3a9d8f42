/**
 * The worker's own code for one record, against a script of what its ports do.  Every port call is
 * written down in `steps`, so that a call that runs to its end is a run of the machine in `Backup`,
 * and a crash during it is that run cut short.
 */
module BackupWorker {
  import opened Wrappers
  import opened Backup

  /** The archive may be complete in staging although the dump reports an error. */
  datatype Export = Archive(meta: Meta, ok: bool) | NoArchive

  /** An upload that reports an error may have stored something; nobody promises that it stored what was sent. */
  datatype Upload = Written(stored: Meta, ok: bool) | NotWritten

  /** A deletion that reports success has happened. */
  datatype Deletion = Deleted(ok: bool) | Kept

  datatype Ports = Ports(dump: Export, upload: Upload, head: Head, deletion: Deletion, cleaned: bool)

  predicate Uploaded(ports: Ports) {
    ports.upload.Written? && ports.upload.ok
  }

  /** The upload is accepted: what the store shows is what was sent. */
  predicate Verified(ports: Ports, meta: Meta) {
    Uploaded(ports) && ports.head.Seen? && ports.upload.stored == meta
  }

  function Stored(objects: map<ObjectKey, Meta>, key: ObjectKey, upload: Upload): map<ObjectKey, Meta> {
    if upload.Written? then objects[key := upload.stored] else objects
  }

  function AfterDeletion(objects: map<ObjectKey, Meta>, key: ObjectKey, deletion: Deletion): map<ObjectKey, Meta> {
    if deletion.Deleted? then objects - {key} else objects
  }

  /** What an upload attempt leaves: it cleans up after itself unless it succeeded or found nothing to clean. */
  function Attempted(objects: map<ObjectKey, Meta>, key: ObjectKey, meta: Meta, ports: Ports): map<ObjectKey, Meta> {
    var after := Stored(objects, key, ports.upload);
    if Verified(ports, meta) || (Uploaded(ports) && ports.head.NotFound?) then after
    else AfterDeletion(after, key, ports.deletion)
  }

  function Ended(rows: map<Id, Row>, id: Id, completed: bool, meta: Option<Meta>): map<Id, Row>
    requires id in rows
  {
    rows[id := Row(if completed then Completed else Failed, meta, rows[id].key)]
  }

  function Exported(staging: map<Id, Meta>, id: Id, ports: Ports): map<Id, Meta> {
    if ports.dump.Archive? then staging[id := ports.dump.meta] else staging
  }

  function Cleaned(staging: map<Id, Meta>, id: Id, ports: Ports): map<Id, Meta> {
    if ports.cleaned then staging - {id} else staging
  }

  /** What is left under the record's key after an attempt, and that nothing else is touched. */
  lemma AttemptOutcome(objects: map<ObjectKey, Meta>, key: ObjectKey, meta: Meta, ports: Ports)
    ensures var after := Attempted(objects, key, meta, ports);
            && after - {key} == objects - {key}
            && (Verified(ports, meta) ==> key in after && after[key] == meta)
            && (!Verified(ports, meta) && ports.deletion.Deleted? && !(Uploaded(ports) && ports.head.NotFound?) ==>
                  key !in after)
            && (Uploaded(ports) && ports.head.NotFound? ==> key in after)
            && (key in after ==>
                  if ports.upload.Written? then after[key] == ports.upload.stored
                  else key in objects && after[key] == objects[key])
            && (key !in after ==> ports.deletion.Deleted? || (ports.upload.NotWritten? && key !in objects))
  {
  }

  /** Staging holds the archive of a dump that wrote one, until it is cleaned; other archives stay. */
  lemma StagingOutcome(staging: map<Id, Meta>, id: Id, ports: Ports)
    ensures Exported(staging, id, ports) - {id} == staging - {id}
    ensures Cleaned(staging, id, ports) - {id} == staging - {id}
    ensures ports.dump.Archive? ==>
              id in Exported(staging, id, ports) && Exported(staging, id, ports)[id] == ports.dump.meta
    ensures ports.dump.NoArchive? ==> Exported(staging, id, ports) == staging
    ensures id in Cleaned(staging, id, ports) <==> id in staging && !ports.cleaned
    ensures !ports.cleaned ==> Cleaned(staging, id, ports) == staging
  {
  }

  lemma EndedOutcome(rows: map<Id, Row>, id: Id, completed: bool, meta: Option<Meta>)
    requires id in rows
    ensures var after := Ended(rows, id, completed, meta);
            && after.Keys == rows.Keys && (forall other | other in rows && other != id :: after[other] == rows[other])
            && after[id].key == rows[id].key && after[id].meta == meta
            && (after[id].status == Completed <==> completed) && (after[id].status == Failed <==> !completed)
  {
  }

  class BackupTaskWorker {
    var rows: map<Id, Row>
    var objects: map<ObjectKey, Meta>
    var staging: map<Id, Meta>
    ghost var used: set<Id>
    ghost var pc: Pc
    ghost var steps: seq<Step>

    ghost function Contents(): World
      reads this
    {
      World(rows, objects, staging, used, pc)
    }

    ghost predicate Valid()
      reads this
    {
      RunFrom(INITIAL, steps) == Some(Contents())
    }

    predicate Has(id: Id, status: Status)
      reads this
    {
      id in rows && rows[id].status == status
    }

    /** A worker process starts on whatever the ports hold after a run that ended idle, say in a crash. */
    constructor (rows: map<Id, Row>, objects: map<ObjectKey, Meta>, staging: map<Id, Meta>, ghost used: set<Id>,
                 ghost steps: seq<Step>)
      requires RunFrom(INITIAL, steps) == Some(World(rows, objects, staging, used, Idle))
      ensures Valid() && pc == Idle && this.steps == steps
      ensures this.rows == rows && this.objects == objects && this.staging == staging
    {
      this.rows, this.objects, this.staging := rows, objects, staging;
      this.used, this.pc, this.steps := used, Idle, steps;
    }

    ghost method Made(step: Step, before: World)
      requires RunFrom(INITIAL, steps) == Some(before) && Possible(before, step)
      requires Next(before, step) == Contents().(pc := Next(before, step).pc)
      modifies this`steps, this`pc
      ensures Valid() && steps == old(steps) + [step] && pc == Next(before, step).pc
    {
      pc := Next(before, step).pc;
      steps := Append(steps, step);
    }

    // ----- port calls -----

    method TransitionStatus(id: Id, from: Status, to: Status, meta: Option<Meta>) returns (moved: bool)
      modifies this`rows
      ensures moved == HasStatus(old(Contents()), id, from)
      ensures Contents() == Transition(old(Contents()), id, from, to, meta)
    {
      moved := id in rows && rows[id].status == from;
      if moved { rows := rows[id := rows[id].(status := to, meta := if meta.Some? then meta else rows[id].meta)]; }
    }

    method Dump(id: Id, ports: Ports) returns (artifact: Option<Meta>)
      requires Valid() && pc == Pc.Dump(id)
      modifies this`staging, this`steps, this`pc
      ensures Valid() && old(steps) <= steps
      ensures artifact == if ports.dump.Archive? && ports.dump.ok then Some(ports.dump.meta) else None
      ensures pc == if artifact.Some? then Persist(id, artifact.value) else Reject(id, Dumping)
      ensures staging == Exported(old(staging), id, ports)
    {
      ghost var w := Contents();
      if ports.dump.Archive? {
        staging := staging[id := ports.dump.meta];
        Made(DumpWrites(ports.dump.meta), w);
        w := Contents();
      }
      artifact := if ports.dump.Archive? && ports.dump.ok then Some(ports.dump.meta) else None;
      Made(DumpReturns(artifact.Some?), w);
    }

    method UploadFile(id: Id, meta: Meta, ports: Ports) returns (ok: bool)
      requires Valid() && pc == Send(id, meta) && id in rows
      modifies this`objects, this`steps, this`pc
      ensures Valid() && old(steps) <= steps && ok == Uploaded(ports)
      ensures pc == if ok then Verify(id, meta) else Discard(id)
      ensures objects == Stored(old(objects), rows[id].key, ports.upload)
    {
      ghost var w := Contents();
      ok := Uploaded(ports);
      if ports.upload.Written? {
        objects := objects[rows[id].key := ports.upload.stored];
        Made(UploadWrites(ports.upload.stored), w);
        w := Contents();
      }
      Made(UploadReturns(ok), w);
    }

    method HeadObject(id: Id, meta: Meta, ports: Ports) returns (remote: Option<Meta>)
      requires Valid() && pc == Verify(id, meta) && id in rows && rows[id].key in objects
      modifies this`steps, this`pc
      ensures Valid() && old(steps) <= steps
      ensures remote == if ports.head.Seen? then Some(objects[rows[id].key]) else None
      ensures pc == if remote == Some(meta) then Accept(id)
                    else if ports.head.NotFound? then Reject(id, Uploading)
                    else Discard(id)
    {
      ghost var w := Contents();
      remote := if ports.head.Seen? then Some(objects[rows[id].key]) else None;
      Made(HeadReturns(ports.head), w);
    }

    method DeleteRemote(id: Id, ports: Ports) returns (ok: bool)
      requires Valid() && (pc == Discard(id) || pc == Remove(id)) && id in rows
      modifies this`objects, this`steps, this`pc
      ensures Valid() && old(steps) <= steps && ok == (ports.deletion.Deleted? && ports.deletion.ok)
      ensures pc == if old(pc).Discard? then Reject(id, Uploading) else if ok then Erase(id) else Idle
      ensures objects == AfterDeletion(old(objects), rows[id].key, ports.deletion)
    {
      ghost var w := Contents();
      ok := ports.deletion.Deleted? && ports.deletion.ok;
      if ports.deletion.Deleted? { objects := objects - {rows[id].key}; }
      Made(DeleteObject(ports.deletion.Deleted?, ok), w);
    }

    // ----- the worker's functions -----

    method CleanupStaging(id: Id, ports: Ports)
      requires Valid() && pc == Pc.Cleanup(id)
      modifies this`staging, this`steps, this`pc
      ensures Valid() && old(steps) <= steps && pc == Idle
      ensures staging == Cleaned(old(staging), id, ports)
    {
      ghost var w := Contents();
      if ports.cleaned { staging := staging - {id}; }
      Made(CleanStaging(ports.cleaned), w);
    }

    method FailTask(id: Id, from: Status, ports: Ports)
      requires Valid() && pc == Reject(id, from) && Has(id, from)
      modifies this`rows, this`staging, this`steps, this`pc
      ensures Valid() && old(steps) <= steps && pc == Idle
      ensures rows == Ended(old(rows), id, false, old(rows)[id].meta)
      ensures staging == Cleaned(old(staging), id, ports)
    {
      ghost var w := Contents();
      var _ := TransitionStatus(id, from, Failed, None);
      Made(MarkFailed, w);
      CleanupStaging(id, ports);
    }

    method FailUploadedTask(id: Id, ports: Ports)
      requires Valid() && pc == Discard(id) && Has(id, Uploading)
      modifies this
      ensures Valid() && old(steps) <= steps && pc == Idle
      ensures rows == Ended(old(rows), id, false, old(rows)[id].meta)
      ensures objects == AfterDeletion(old(objects), old(rows)[id].key, ports.deletion)
      ensures staging == Cleaned(old(staging), id, ports)
    {
      var _ := DeleteRemote(id, ports);
      FailTask(id, Uploading, ports);
    }

    /** Completes the record and only then drops the staged archive. */
    method Complete(id: Id, ports: Ports)
      requires Valid() && pc == Accept(id) && Has(id, Uploading)
      modifies this`rows, this`staging, this`steps, this`pc
      ensures Valid() && old(steps) <= steps && pc == Idle
      ensures rows == Ended(old(rows), id, true, old(rows)[id].meta)
      ensures staging == Cleaned(old(staging), id, ports)
    {
      ghost var w := Contents();
      var moved := TransitionStatus(id, Uploading, Completed, None);
      Made(MarkCompleted, w);
      if moved { CleanupStaging(id, ports); }
    }

    method UploadAndVerify(id: Id, meta: Meta, ports: Ports)
      requires Valid() && pc == Send(id, meta) && Has(id, Uploading)
      modifies this
      ensures Valid() && old(steps) <= steps && pc == Idle
      ensures rows == Ended(old(rows), id, Verified(ports, meta), old(rows)[id].meta)
      ensures objects == Attempted(old(objects), old(rows)[id].key, meta, ports)
      ensures staging == Cleaned(old(staging), id, ports)
    {
      var ok := UploadFile(id, meta, ports);
      if !ok {
        FailUploadedTask(id, ports);
        return;
      }
      VerifyUpload(id, meta, ports);
    }

    /** The second half of `upload_and_verify`: what the store shows decides the outcome. */
    method VerifyUpload(id: Id, meta: Meta, ports: Ports)
      requires Valid() && pc == Verify(id, meta) && Has(id, Uploading) && rows[id].key in objects
      modifies this
      ensures Valid() && old(steps) <= steps && pc == Idle
      ensures var matches := ports.head.Seen? && old(objects)[old(rows)[id].key] == meta;
              && rows == Ended(old(rows), id, matches, old(rows)[id].meta)
              && objects == (if matches || ports.head.NotFound? then old(objects)
                             else AfterDeletion(old(objects), old(rows)[id].key, ports.deletion))
      ensures staging == Cleaned(old(staging), id, ports)
    {
      var remote := HeadObject(id, meta, ports);
      match ports.head {
        case Seen => if remote == Some(meta) { Complete(id, ports); } else { FailUploadedTask(id, ports); }
        case NotFound => FailTask(id, Uploading, ports);
        case Unknown => FailUploadedTask(id, ports);
      }
    }

    /** From a complete archive on: persist its size and hash, then upload. */
    method PersistAndUpload(id: Id, meta: Meta, ports: Ports)
      requires Valid() && pc == Persist(id, meta) && Has(id, Dumping)
      modifies this
      ensures Valid() && old(steps) <= steps && pc == Idle
      ensures rows == Ended(old(rows), id, Verified(ports, meta), Some(meta))
      ensures objects == Attempted(old(objects), old(rows)[id].key, meta, ports)
      ensures staging == Cleaned(old(staging), id, ports)
    {
      ghost var w := Contents();
      var moved := TransitionStatus(id, Dumping, Uploading, Some(meta));
      Made(PersistMeta, w);
      if moved { UploadAndVerify(id, meta, ports); }
    }

    method RecoverDumping(id: Id, ports: Ports)
      requires Valid() && pc == Idle && Has(id, Dumping)
      modifies this
      ensures Valid() && old(steps) <= steps && pc == Idle
      ensures if id in old(staging)
              then rows == Ended(old(rows), id, Verified(ports, old(staging)[id]), Some(old(staging)[id]))
                   && objects == Attempted(old(objects), old(rows)[id].key, old(staging)[id], ports)
              else rows == Ended(old(rows), id, false, old(rows)[id].meta) && objects == old(objects)
      ensures staging == Cleaned(old(staging), id, ports)
    {
      Made(Step.RecoverDumping(id), Contents());
      if id in staging { PersistAndUpload(id, staging[id], ports); } else { FailTask(id, Dumping, ports); }
    }

    /** `head`: what the store answers before anything is uploaded again. */
    method RecoverUploading(id: Id, head: Head, ports: Ports)
      requires Valid() && pc == Idle && Has(id, Uploading) && !head.Unknown? && (head.Seen? ==> rows[id].key in objects)
      modifies this
      ensures Valid() && old(steps) <= steps && pc == Idle
      ensures var row := old(rows)[id];
              if head.Seen? && row.meta == Some(old(objects)[row.key])
              then rows == Ended(old(rows), id, true, row.meta) && objects == old(objects)
              else if id in old(staging)
              then rows == Ended(old(rows), id, Verified(ports, old(staging)[id]), row.meta)
                   && row.meta == Some(old(staging)[id])
                   && objects == Attempted(old(objects), row.key, old(staging)[id], ports)
              else rows == Ended(old(rows), id, false, row.meta) && objects == old(objects)
      ensures staging == Cleaned(old(staging), id, ports)
    {
      RunKeepsInv(steps);
      assert RowOk(Contents(), id);
      Made(Step.RecoverUploading(id, head), Contents());
      var row := rows[id];
      if head.Seen? && row.meta == Some(objects[row.key]) {
        Complete(id, ports);
      } else if id in staging {
        UploadAndVerify(id, staging[id], ports);
      } else {
        FailTask(id, Uploading, ports);
      }
    }

    method ClaimQueued(id: Id)
      requires Valid() && pc == Idle && Has(id, Queued)
      modifies this`rows, this`steps, this`pc
      ensures Valid() && old(steps) <= steps && pc == Pc.Dump(id)
      ensures rows == old(rows)[id := old(rows)[id].(status := Dumping)]
    {
      ghost var w := Contents();
      var _ := TransitionStatus(id, Queued, Dumping, None);
      Made(Claim(id), w);
    }

    /** Claims a queued record and carries it through to the end. */
    method ProcessTask(id: Id, ports: Ports)
      requires Valid() && pc == Idle && Has(id, Queued)
      modifies this
      ensures Valid() && old(steps) <= steps && pc == Idle
      ensures if ports.dump.Archive? && ports.dump.ok
              then rows == Ended(old(rows), id, Verified(ports, ports.dump.meta), Some(ports.dump.meta))
                   && objects == Attempted(old(objects), old(rows)[id].key, ports.dump.meta, ports)
              else rows == Ended(old(rows), id, false, old(rows)[id].meta) && objects == old(objects)
      ensures staging == Cleaned(Exported(old(staging), id, ports), id, ports)
    {
      ClaimQueued(id);
      var artifact := Dump(id, ports);
      if artifact.Some? { PersistAndUpload(id, artifact.value, ports); } else { FailTask(id, Dumping, ports); }
    }

    /** The object goes first; the record stays until the deletion is known to have happened. */
    method FinalizeDeletion(id: Id, ports: Ports)
      requires Valid() && pc == Idle && Has(id, Deleting)
      modifies this
      ensures Valid() && old(steps) <= steps && pc == Idle && staging == old(staging)
      ensures objects == AfterDeletion(old(objects), old(rows)[id].key, ports.deletion)
      ensures rows == if ports.deletion.Deleted? && ports.deletion.ok then old(rows) - {id} else old(rows)
    {
      Made(BeginRemoval(id), Contents());
      var ok := DeleteRemote(id, ports);
      if ok {
        ghost var w := Contents();
        rows := rows - {id};
        Made(DeleteRow, w);
      }
    }
  }

  /**
   * Whatever the worker was doing, a crash after any of the written-down port calls leaves a safe
   * state in which a new worker can start: what it finds is a run of the machine, cut short.
   */
  lemma {:induction false} CrashAnywhere(steps: seq<Step>, n: nat)
    requires RunFrom(INITIAL, steps).Some? && n <= |steps|
    ensures RunFrom(INITIAL, steps[..n]).Some?
    ensures var w := RunFrom(INITIAL, steps[..n] + [Crash]);
            && w == Some(RunFrom(INITIAL, steps[..n]).value.(pc := Idle))
            && Safe(w.value)
    decreases |steps|
  {
    if n == |steps| {
      assert steps[..n] == steps;
      var crashed := Append(steps, Crash);
      CrashSafety(crashed);
    } else {
      assert steps[..|steps| - 1][..n] == steps[..n];
      CrashAnywhere(steps[..|steps| - 1], n);
    }
  }
}
