/** What a runner relies on when it is restarted and drives its phase again: a phase that was
    acknowledged is answered the same way without doing anything twice. And what a snapshot says. */
module WorkerRetries {
  import opened Prelude
  import opened Artifacts
  import opened Worker
  import E = Epochs

  /** The calls of the phases that change something at a worker. */
  predicate Retriable(op: Op) {
    || (op.PrepareOp? && op.preparation.prestage) || op.PauseMigrationOp? || op.SnapshotMigrationOp?
    || op.TransferOp? || op.LoadOp? || op.ResumeMigrationOp? || op.FenceAndCleanupOp?
  }

  /** The worker did what it was asked for and is asked again. */
  ghost predicate AnsweredAgain(c: Cell, here: Wid, id: Sid, op: Op, f: Faults, again: Faults) {
    var first := Exec(c, here, id, op, f);
    var second := Exec(first.cell, here, id, op, again);
    second.cell == first.cell && second.calls == [] && second.reply == first.reply
  }

  lemma PrepareAgain(c: Cell, here: Wid, id: Sid, op: Op, f: Faults, again: Faults)
    requires op.PrepareOp? && op.preparation.prestage
    requires !Exec(c, here, id, op, f).reply.Refused?
    ensures AnsweredAgain(c, here, id, op, f, again)
  {
    var p := op.preparation;
    var first := Exec(c, here, id, op, f);
    assert p.m in first.cell.reservations && first.cell.reservations[p.m].prepared;
    assert Admitted(first.cell, op.epoch, p) == Some(first.cell.reservations[p.m]);
    assert WithReservation(first.cell, p.m, first.cell.reservations[p.m]) == first.cell;
  }

  lemma SnapshotAgain(c: Cell, here: Wid, id: Sid, op: Op, f: Faults, again: Faults)
    requires op.SnapshotMigrationOp?
    requires !Exec(c, here, id, op, f).reply.Refused?
    ensures AnsweredAgain(c, here, id, op, f, again)
  {
  }

  /** What an acknowledged transfer leaves. */
  lemma TransferLeaves(c: Cell, id: Sid, epoch: nat, m: Mid, manifest: Manifest, f: Faults)
    requires Transfer(c, id, epoch, m, manifest, f).reply.Done?
    ensures var later := Transfer(c, id, epoch, m, manifest, f).cell;
            && manifest.migrationId == m && IsComplete(later, id, epoch, manifest)
  {
    var g := MutableRecord(c, epoch, Some(Booting), f);
    assert g.passed && g.cell.record.value.state.Booting?;
    assert g.cell.record == c.record && g.cell.accepted == epoch <= E.MaxSafeInteger;
    if !AllRegistered(g.cell.record.value, manifest) {
      PulledIsRegistered(g.cell.record.value, manifest, f);
    }
  }

  lemma PulledIsRegistered(record: Record, manifest: Manifest, f: Faults)
    requires Committed(manifest, f) == AllKinds
    ensures AllRegistered(Pulled(record, manifest, f), manifest)
  {
  }

  predicate IsComplete(c: Cell, id: Sid, epoch: nat, manifest: Manifest) {
    && c.record.Some? && c.accepted == epoch <= E.MaxSafeInteger
    && c.record.value.state.Booting? && c.record.value.epoch <= epoch
    && (manifest.sandboxId == id ==> manifest.machine == c.record.value.machine)
    && AllRegistered(c.record.value, manifest)
  }

  lemma CompleteIsAnswered(c: Cell, id: Sid, epoch: nat, m: Mid, manifest: Manifest, again: Faults)
    requires manifest.migrationId == m && IsComplete(c, id, epoch, manifest)
    requires again.compatible && again.peer && again.guest
    ensures Transfer(c, id, epoch, m, manifest, again) == Outcome(c, Done, [])
  {
    assert MutableRecord(c, epoch, Some(Booting), again) == Gate(c, true, []);
  }

  lemma TransferAgain(c: Cell, here: Wid, id: Sid, op: Op, f: Faults, again: Faults)
    requires op.TransferOp? && again.compatible && again.peer && again.guest
    requires !Exec(c, here, id, op, f).reply.Refused?
    ensures AnsweredAgain(c, here, id, op, f, again)
  {
    assert Exec(c, here, id, op, f) == Transfer(c, id, op.epoch, op.m, op.manifest, f);
    TransferLeaves(c, id, op.epoch, op.m, op.manifest, f);
    CompleteIsAnswered(Exec(c, here, id, op, f).cell, id, op.epoch, op.m, op.manifest, again);
  }

  lemma PauseAgain(c: Cell, here: Wid, id: Sid, op: Op, f: Faults, again: Faults)
    requires op.PauseMigrationOp? && !Exec(c, here, id, op, f).reply.Refused?
    ensures AnsweredAgain(c, here, id, op, f, again)
  {
  }

  lemma LoadAgain(c: Cell, here: Wid, id: Sid, op: Op, f: Faults, again: Faults)
    requires op.LoadOp? && again.compatible && !Exec(c, here, id, op, f).reply.Refused?
    ensures AnsweredAgain(c, here, id, op, f, again)
  {
  }

  lemma ResumeAgain(c: Cell, here: Wid, id: Sid, op: Op, f: Faults, again: Faults)
    requires op.ResumeMigrationOp? && !Exec(c, here, id, op, f).reply.Refused?
    ensures AnsweredAgain(c, here, id, op, f, again)
  {
  }

  lemma CleanupAgain(c: Cell, here: Wid, id: Sid, op: Op, f: Faults, again: Faults)
    requires op.FenceAndCleanupOp? && !Exec(c, here, id, op, f).reply.Refused?
    ensures AnsweredAgain(c, here, id, op, f, again)
  {
  }

  /** A phase that was acknowledged and is driven again, with any other failures than those that
      keep it from answering, changes nothing, reaches Firecracker with no call, and gives the
      same reply. */
  lemma RetriesHaveNoEffect(c: Cell, here: Wid, id: Sid, op: Op, f: Faults, again: Faults)
    requires Retriable(op) && again.compatible && again.peer && again.guest
    requires !Exec(c, here, id, op, f).reply.Refused?
    ensures AnsweredAgain(c, here, id, op, f, again)
  {
    match op
    case PrepareOp(_, _) => PrepareAgain(c, here, id, op, f, again);
    case PauseMigrationOp(_) => PauseAgain(c, here, id, op, f, again);
    case SnapshotMigrationOp(_, _) => SnapshotAgain(c, here, id, op, f, again);
    case TransferOp(_, _, _) => TransferAgain(c, here, id, op, f, again);
    case LoadOp(_, _) => LoadAgain(c, here, id, op, f, again);
    case ResumeMigrationOp(_) => ResumeAgain(c, here, id, op, f, again);
    case FenceAndCleanupOp(_, _) => CleanupAgain(c, here, id, op, f, again);
  }

  // ---- Snapshots ----

  function SnapshotsIn(calls: seq<Call>): nat {
    if calls == [] then 0
    else SnapshotsIn(calls[..|calls| - 1]) + if calls[|calls| - 1].SnapshotCall? then 1 else 0
  }

  /** A snapshot that is taken describes exactly the files it left on disk, carries the epoch of the
      request and the sandbox's machine, and is of a paused record; one that is repeated from an
      earlier request is of the same sandbox and epoch. */
  lemma SnapshotDescribesItsFiles(c: Cell, id: Sid, epoch: nat, m: Mid, f: Faults)
    requires SnapshotMigration(c, id, epoch, m, f).reply.Snapshotted?
    ensures var o := SnapshotMigration(c, id, epoch, m, f);
            var manifest := o.reply.manifest;
            && manifest.sandboxId == id && manifest.sourceEpoch == epoch
            && m in o.cell.manifests && o.cell.manifests[m] == manifest
            && (m !in c.manifests ==>
                  && manifest.migrationId == m && o.cell.record.Some?
                  && o.cell.record.value.state.Paused?
                  && manifest.machine == o.cell.record.value.machine
                  && AllOnDisk(o.cell.record.value.files, manifest)
                  && AllRegistered(o.cell.record.value, manifest))
  {
    if m !in c.manifests {
      var g := MutableRecord(c, epoch, Some(Paused), f);
      assert g.cell.record.value.state.Paused?;
    }
  }

  /** As long as a record stays, its generation counts the snapshots that were asked for, so no
      snapshot, not even one after a failed one, is written to the paths of another. */
  lemma GenerationsCountSnapshots(c: Cell, here: Wid, id: Sid, op: Op, f: Faults)
    requires c.record.Some?
    ensures var o := Exec(c, here, id, op, f);
            && o.cell.record.Some?
            && o.cell.record.value.generation == c.record.value.generation + SnapshotsIn(o.calls)
  {
    var o := Exec(c, here, id, op, f);
    if op.SnapshotOp? || op.SnapshotMigrationOp? {
      SnapshotCounts(c, id, op.epoch, op.m, f);
    } else {
      OthersTakeNone(c, here, id, op, f);
    }
  }

  lemma SnapshotCounts(c: Cell, id: Sid, epoch: nat, m: Mid, f: Faults)
    requires c.record.Some?
    ensures var o := Snapshot(c, id, epoch, m, f);
            && o.cell.record.Some?
            && o.cell.record.value.generation == c.record.value.generation + SnapshotsIn(o.calls)
  {
    assert [SnapshotCall][..0] == [] && [PauseCall][..0] == [];
    assert SnapshotsIn([SnapshotCall]) == 1 && SnapshotsIn([PauseCall]) == 0;
  }

  /** The record keeps its generation and no snapshot is asked for. */
  ghost predicate TakesNone(c: Cell, o: Outcome) {
    && c.record.Some? && o.cell.record.Some?
    && o.cell.record.value.generation == c.record.value.generation
    && (o.calls == [] || (|o.calls| == 1 && !o.calls[0].SnapshotCall?))
  }

  lemma TakingNoneCountsNone(calls: seq<Call>)
    requires calls == [] || (|calls| == 1 && !calls[0].SnapshotCall?)
    ensures SnapshotsIn(calls) == 0
  {
    if calls != [] {
      assert calls[..0] == [];
    }
  }

  lemma GateTakesNone(c: Cell, epoch: nat, expected: Option<RecordState>, f: Faults)
    requires c.record.Some?
    ensures var g := MutableRecord(c, epoch, expected, f);
            TakesNone(c, Refuse(g)) && (g.passed ==> g.calls == [] && g.cell.record == c.record)
  {
  }

  lemma PauseTakesNone(c: Cell, epoch: nat, f: Faults)
    requires c.record.Some?
    ensures TakesNone(c, Pause(c, epoch, f))
  {
    GateTakesNone(c, epoch, None, f);
  }

  lemma LoadTakesNone(c: Cell, id: Sid, epoch: nat, manifest: Manifest, f: Faults)
    requires c.record.Some?
    ensures TakesNone(c, Load(c, id, epoch, manifest, f))
  {
    GateTakesNone(c, epoch, Some(Booting), f);
  }

  lemma ResumeTakesNone(c: Cell, epoch: nat, f: Faults)
    requires c.record.Some?
    ensures TakesNone(c, Resume(c, epoch, f))
  {
    GateTakesNone(c, epoch, Some(Paused), f);
  }

  lemma LifecycleTakesNone(c: Cell, here: Wid, id: Sid, op: Op, f: Faults)
    requires c.record.Some?
    requires op.PauseMigrationOp? || op.PauseOp? || op.LoadOp? || op.ResumeMigrationOp? || op.ResumeOp? || op.RollbackOp?
    ensures TakesNone(c, Exec(c, here, id, op, f))
  {
    if op.LoadOp? {
      LoadTakesNone(c, id, op.epoch, op.manifest, f);
    } else if op.PauseMigrationOp? || op.PauseOp? {
      PauseTakesNone(c, op.epoch, f);
    } else {
      ResumeTakesNone(c, op.epoch, f);
    }
  }

  lemma FenceTakesNone(c: Cell, epoch: nat, f: Faults)
    requires c.record.Some?
    ensures TakesNone(c, Fence(c, epoch, f))
  {
  }

  lemma QuarantineTakesNone(c: Cell, epoch: nat, m: Mid, f: Faults)
    requires c.record.Some?
    ensures TakesNone(c, Quarantine(c, epoch, m, f)) && Quarantine(c, epoch, m, f).calls == []
  {
  }

  lemma CleanupTakesNone(c: Cell, epoch: nat, m: Mid, f: Faults)
    requires c.record.Some?
    ensures TakesNone(c, FenceAndCleanup(c, epoch, m, f))
  {
    FenceTakesNone(c, epoch, f);
    QuarantineTakesNone(Fence(c, epoch, f).cell, epoch, m, f);
  }

  lemma RetiringTakesNone(c: Cell, here: Wid, id: Sid, op: Op, f: Faults)
    requires c.record.Some?
    requires op.FenceOp? || op.QuarantineOp? || op.FenceAndCleanupOp?
    ensures TakesNone(c, Exec(c, here, id, op, f))
  {
    match op
    case FenceOp(epoch) => FenceTakesNone(c, epoch, f);
    case QuarantineOp(epoch, m) => QuarantineTakesNone(c, epoch, m, f);
    case FenceAndCleanupOp(epoch, m) => CleanupTakesNone(c, epoch, m, f);
  }

  lemma GuestTakesNone(c: Cell, here: Wid, id: Sid, op: Op, f: Faults)
    requires c.record.Some?
    requires op.ProbeOp? || op.PrecopyOp? || op.VerifyOp? || op.GuestOp? || op.TransferOp?
    ensures TakesNone(c, Exec(c, here, id, op, f))
  {
    GateTakesNone(c, op.epoch, if op.TransferOp? then Some(Booting) else if op.GuestOp? then None else Some(Running), f);
  }

  lemma OthersTakeNone(c: Cell, here: Wid, id: Sid, op: Op, f: Faults)
    requires c.record.Some? && !op.SnapshotOp? && !op.SnapshotMigrationOp?
    ensures var o := Exec(c, here, id, op, f);
            && o.cell.record.Some?
            && o.cell.record.value.generation == c.record.value.generation && SnapshotsIn(o.calls) == 0
  {
    if op.CreateOp? || op.PrepareOp? {
    } else if op.FenceOp? || op.QuarantineOp? || op.FenceAndCleanupOp? {
      RetiringTakesNone(c, here, id, op, f);
    } else if op.ProbeOp? || op.PrecopyOp? || op.VerifyOp? || op.GuestOp? || op.TransferOp? {
      GuestTakesNone(c, here, id, op, f);
    } else {
      LifecycleTakesNone(c, here, id, op, f);
    }
    TakingNoneCountsNone(Exec(c, here, id, op, f).calls);
  }
}
