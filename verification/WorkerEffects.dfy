/** The nine things an operation can do to a sandbox. Every proof about the worker splits on
    these instead of on the operations. */
module WorkerEffects {
  import opened Prelude
  import opened Artifacts
  import opened Worker
  import E = Epochs

  predicate Kept(c: Cell, later: Cell) {
    later.claimed == c.claimed && later.consumed == c.consumed && later.manifests == c.manifests
  }

  /** Nothing but bookkeeping; a newer epoch is accepted silently only before the VM has run. */
  predicate Unchanged(c: Cell, op: Op, o: Outcome) {
    && o.calls == [] && o.cell.record == c.record && o.cell.vm == c.vm
    && o.cell.consumed == c.consumed && o.cell.manifests == c.manifests
    && (c.claimed ==> o.cell.claimed)
    && (o.cell.accepted == c.accepted
        || (o.cell.accepted == op.epoch > c.accepted
            && (c.record.None? || c.record.value.state.Booting? || op.QuarantineOp?)))
  }

  predicate Stops(before: Vm, after: Vm) {
    after == before || after.Absent? || (before.Executing? && after.Halted?)
  }

  /** The record is fenced, or fenced and quarantined. A VM that was running is asked to pause, but
      for the direct quarantine, which kills its process. */
  predicate Retiring(c: Cell, op: Op, o: Outcome) {
    && c.record.Some? && o.cell.record.Some?
    && o.cell.accepted == op.epoch >= c.accepted
    && o.cell.consumed == c.consumed && o.cell.manifests == c.manifests
    && var record := o.cell.record.value;
    && (record.state.Fenced? || (record.state.Quarantined? && o.cell.vm.Absent?))
    && record.epoch == op.epoch && record.loaded == c.record.value.loaded
    && Stops(c.vm, o.cell.vm)
    && (o.cell.claimed == c.claimed || o.cell.vm.Absent?)
    && (op.QuarantineOp? ==> record.state.Quarantined?)
    && o.calls == if c.record.value.state.Running? && !op.QuarantineOp? then [PauseCall] else []
  }

  /** The process is killed but the quarantine did not complete. */
  predicate Stopping(c: Cell, op: Op, o: Outcome) {
    && op.QuarantineOp? && c.record.Some? && o.calls == [] && o.reply.Refused?
    && Kept(c, o.cell) && o.cell.record == c.record && o.cell.vm.Absent?
    && o.cell.accepted == op.epoch >= c.accepted && op.epoch >= c.record.value.epoch
  }

  predicate Usable(c: Cell, op: Op) {
    && c.record.Some? && op.epoch >= c.accepted && op.epoch >= c.record.value.epoch
    && !c.record.value.state.Fenced?
    && (op.epoch == c.accepted || c.record.value.state.Booting?)
  }

  predicate Pausing(c: Cell, op: Op, o: Outcome) {
    && Usable(c, op) && o.calls == [PauseCall]
    && Kept(c, o.cell) && o.cell.accepted == op.epoch
    && if o.reply.Done?
       then (c.vm.Executing? || c.vm.Halted?) && o.cell.vm.Halted?
            && o.cell.record == Some(c.record.value.(state := Paused))
       else o.reply.Refused? && Stops(c.vm, o.cell.vm) && o.cell.record == c.record
  }

  predicate Loading(c: Cell, id: Sid, op: Op, o: Outcome) {
    && op.LoadOp? && Usable(c, op) && c.record.value.state.Booting?
    && op.epoch == op.manifest.sourceEpoch + 1 && op.manifest.sandboxId == id
    && op.manifest.migrationId !in c.consumed && AllRegistered(c.record.value, op.manifest)
    && o.calls == [LoadCall(op.manifest, c.record.value.files)]
    && Kept(c, o.cell) && o.cell.accepted == op.epoch
    && (o.cell.vm == c.vm || (c.vm.Unbooted? && o.cell.vm.Halted?))
    && (o.reply.Done? ==> o.cell.vm.Halted?)
    && o.cell.record == if o.reply.Done?
         then Some(c.record.value.(loaded := Some(op.manifest.migrationId), state := Paused))
         else c.record
  }

  predicate Resuming(c: Cell, op: Op, o: Outcome) {
    && (op.ResumeOp? || op.ResumeMigrationOp? || op.RollbackOp?)
    && Usable(c, op) && c.record.value.state.Paused?
    && var loaded := c.record.value.loaded;
    && (op.RollbackOp? ==> loaded.None?)
    && (loaded.Some? ==> loaded.value !in c.consumed)
    && o.calls == [ResumeCall(loaded)]
    && o.cell.accepted == op.epoch && o.cell.claimed == c.claimed && o.cell.manifests == c.manifests
    && o.cell.consumed == c.consumed + (if loaded.Some? then {loaded.value} else {})
    && (o.cell.vm == c.vm || (c.vm.Halted? && o.cell.vm.Executing?))
    && (o.cell.record == c.record
        || (o.cell.vm.Executing? && o.cell.record == Some(c.record.value.(state := Running, epoch := op.epoch))))
  }

  predicate SameButFiles(before: Record, after: Record) {
    && after.state == before.state && after.epoch == before.epoch && after.machine == before.machine
    && after.loaded == before.loaded && after.quarantine == before.quarantine
  }

  predicate Snapshotting(c: Cell, op: Op, o: Outcome) {
    && (op.SnapshotOp? || op.SnapshotMigrationOp?)
    && Usable(c, op) && c.record.value.state.Paused? && o.cell.record.Some?
    && o.calls == [SnapshotCall]
    && SameButFiles(c.record.value, o.cell.record.value)
    && o.cell.accepted == op.epoch && o.cell.vm == c.vm
    && o.cell.claimed == c.claimed && o.cell.consumed == c.consumed
    && (o.reply.Snapshotted? ==> o.reply.manifest.migrationId == op.m)
    && (o.cell.manifests == c.manifests
        || (o.reply.Snapshotted? && o.cell.manifests == c.manifests[op.m := o.reply.manifest]))
  }

  predicate Transferring(c: Cell, op: Op, o: Outcome) {
    && op.TransferOp? && Usable(c, op) && c.record.value.state.Booting? && o.cell.record.Some?
    && o.calls == []
    && SameButFiles(c.record.value, o.cell.record.value)
    && o.cell.accepted == op.epoch && o.cell.vm == c.vm && Kept(c, o.cell)
  }

  predicate Creating(c: Cell, op: Op, o: Outcome) {
    && (op.CreateOp? || op.PrepareOp?)
    && c.record.None? && !c.claimed && o.cell.accepted == op.epoch >= c.accepted
    && o.cell.consumed == c.consumed && o.cell.manifests == c.manifests
    && (o.calls == [] || (o.calls == [BootCall] && op.CreateOp? && op.boot))
    && (o.cell.record.None? ==> o.cell.vm.Absent?)
    && (o.cell.record.Some? ==>
          && o.cell.claimed
          && var record := o.cell.record.value;
          && record == NewRecord(op.epoch, record.machine, record.state, record.files)
          && (if record.state.Running? then o.cell.vm.Executing? && op.CreateOp? && op.boot
              else record.state.Booting? && !o.cell.vm.Executing? && !o.cell.vm.Halted?))
  }

  predicate Effect(c: Cell, id: Sid, op: Op, o: Outcome) {
    || Unchanged(c, op, o) || Retiring(c, op, o) || Stopping(c, op, o) || Pausing(c, op, o)
    || Loading(c, id, op, o) || Resuming(c, op, o) || Snapshotting(c, op, o)
    || Transferring(c, op, o) || Creating(c, op, o)
  }

  /** What the choke point does, and that what it lets through may be used. */
  lemma GateEffect(c: Cell, op: Op, expected: Option<RecordState>, f: Faults)
    requires !op.QuarantineOp?
    ensures var g := MutableRecord(c, op.epoch, expected, f);
            if g.passed then
              && Usable(c, op) && g.cell == c.(accepted := op.epoch) && g.calls == []
              && (expected.Some? ==> c.record.value.state == expected.value)
            else
              Unchanged(c, op, Refuse(g)) || Retiring(c, op, Refuse(g))
  {
  }

  lemma PauseEffect(c: Cell, id: Sid, op: Op, f: Faults)
    requires !op.QuarantineOp?
    ensures var o := Pause(c, op.epoch, f);
            Unchanged(c, op, o) || Retiring(c, op, o) || Pausing(c, op, o)
  {
    GateEffect(c, op, None, f);
  }

  lemma LoadEffect(c: Cell, id: Sid, op: Op, f: Faults)
    requires op.LoadOp?
    ensures var o := Load(c, id, op.epoch, op.manifest, f);
            Unchanged(c, op, o) || Retiring(c, op, o) || Loading(c, id, op, o)
  {
    GateEffect(c, op, Some(Booting), f);
  }

  lemma ResumeEffect(c: Cell, op: Op, f: Faults)
    requires op.ResumeOp? || op.ResumeMigrationOp? || (op.RollbackOp? && c.record.Some? && c.record.value.loaded.None?)
    ensures var o := Resume(c, op.epoch, f);
            Unchanged(c, op, o) || Retiring(c, op, o) || Resuming(c, op, o)
  {
    GateEffect(c, op, Some(Paused), f);
    if MutableRecord(c, op.epoch, Some(Paused), f).passed {
      PassedResumeEffect(c, op, f);
    }
  }

  lemma PassedResumeEffect(c: Cell, op: Op, f: Faults)
    requires op.ResumeOp? || op.ResumeMigrationOp? || (op.RollbackOp? && c.record.Some? && c.record.value.loaded.None?)
    requires Usable(c, op) && c.record.value.state.Paused?
    ensures var o := ResumeRecord(c.(accepted := op.epoch), op.epoch, f);
            Resuming(c, op, o) || (Unchanged(c, op, o.(cell := o.cell.(accepted := c.accepted))) && o.cell.accepted == op.epoch)
  {
  }

  lemma RollbackEffect(c: Cell, op: Op, f: Faults)
    requires op.RollbackOp?
    ensures var o := Rollback(c, op.epoch, op.repairClock, f);
            Unchanged(c, op, o) || Retiring(c, op, o) || Resuming(c, op, o)
  {
    if c.record.Some? && c.record.value.loaded.None? {
      ResumeEffect(c, op, f);
    }
  }

  lemma SnapshotEffect(c: Cell, id: Sid, op: Op, f: Faults)
    requires op.SnapshotOp? || op.SnapshotMigrationOp?
    ensures var o := Exec(c, 0, id, op, f);
            Unchanged(c, op, o) || Retiring(c, op, o) || Snapshotting(c, op, o)
  {
    GateEffect(c, op, Some(Paused), f);
  }

  lemma TransferEffect(c: Cell, id: Sid, op: Op, f: Faults)
    requires op.TransferOp?
    ensures var o := Transfer(c, id, op.epoch, op.m, op.manifest, f);
            Unchanged(c, op, o) || Retiring(c, op, o) || Transferring(c, op, o)
  {
    GateEffect(c, op, Some(Booting), f);
  }

  lemma CreateEffect(c: Cell, op: Op, machine: Machine, boot: bool, f: Faults)
    requires op.CreateOp? || op.PrepareOp?
    requires boot ==> op.CreateOp? && op.boot
    requires c.record.None? && !c.claimed ==> c.vm.Absent?
    ensures var o := Create(c, op.epoch, machine, boot, f);
            Unchanged(c, op, o) || Creating(c, op, o)
  {
  }

  lemma PrepareEffect(c: Cell, here: Wid, id: Sid, op: Op, f: Faults)
    requires op.PrepareOp?
    requires c.record.None? && !c.claimed ==> c.vm.Absent?
    ensures var o := Prepare(c, here, op.epoch, op.preparation, f);
            Unchanged(c, op, o) || Creating(c, op, o)
  {
    var p := op.preparation;
    var reservation := Admitted(c, op.epoch, p);
    if reservation.Some? {
      CreateEffect(WithReservation(c, p.m, reservation.value), op, p.machine, false, f);
    }
  }

  lemma FenceEffect(c: Cell, op: Op, f: Faults)
    requires !op.QuarantineOp?
    ensures var o := Fence(c, op.epoch, f);
            Unchanged(c, op, o) || Retiring(c, op, o)
    ensures var o := Fence(c, op.epoch, f);
            o.reply.Done? ==> Retiring(c, op, o) && o.cell.record.value.state.Fenced?
                              && op.epoch <= E.MaxSafeInteger
                              && o.cell == c.(accepted := op.epoch, record := o.cell.record, vm := o.cell.vm)
  {
  }

  lemma QuarantineEffect(c: Cell, op: Op, f: Faults)
    requires op.QuarantineOp?
    ensures var o := Quarantine(c, op.epoch, op.m, f);
            Unchanged(c, op, o) || Retiring(c, op, o) || Stopping(c, op, o)
  {
  }

  lemma GuestEffect(c: Cell, op: Op, expected: Option<RecordState>, f: Faults)
    requires !op.QuarantineOp?
    ensures var o := GuestCall(c, op.epoch, expected, f);
            Unchanged(c, op, o) || Retiring(c, op, o)
    ensures var o := Precopy(c, op.epoch, f);
            Unchanged(c, op, o) || Retiring(c, op, o)
  {
    GateEffect(c, op, expected, f);
    GateEffect(c, op, Some(Running), f);
  }

  /** Quarantining what has just been fenced. */
  lemma QuarantineAfterFence(c: Cell, epoch: nat, m: Mid, f: Faults)
    requires c.record.Some? && c.record.value.state.Fenced?
    requires c.accepted == epoch == c.record.value.epoch <= E.MaxSafeInteger
    ensures var o := Quarantine(c, epoch, m, f);
            && o.calls == [] && o.cell.vm.Absent? && o.cell.accepted == epoch && o.cell.consumed == c.consumed
            && o.cell.record.Some?
            && var record := o.cell.record.value;
            && record.epoch == epoch && record.loaded == c.record.value.loaded
            && (if o.reply.Done? then record.state.Quarantined? else o.reply.Refused? && record.state.Fenced?)
  {
  }

  lemma FenceAndCleanupEffect(c: Cell, op: Op, m: Mid, f: Faults)
    requires !op.QuarantineOp?
    ensures var o := FenceAndCleanup(c, op.epoch, m, f);
            Unchanged(c, op, o) || Retiring(c, op, o)
    ensures var o := FenceAndCleanup(c, op.epoch, m, f);
            o.reply.Done? ==> o.cell.record.Some? && o.cell.record.value.state.Quarantined?
  {
    if !FenceAndCleanupIsDone(c) {
      if Fence(c, op.epoch, f).reply.Done? {
        CleanupEffect(c, op, m, f);
      } else {
        FenceEffect(c, op, f);
        FenceMayEndIt(c, op, m, f);
      }
    }
  }

  lemma FenceMayEndIt(c: Cell, op: Op, m: Mid, f: Faults)
    requires !Fence(c, op.epoch, f).reply.Done? && !FenceAndCleanupIsDone(c)
    ensures FenceAndCleanup(c, op.epoch, m, f) == Fence(c, op.epoch, f) && Fence(c, op.epoch, f).reply.Refused?
  {
  }

  predicate FenceAndCleanupIsDone(c: Cell) {
    c.record.Some? && c.record.value.state.Quarantined? && c.record.value.quarantine.Some?
  }

  lemma CleanupEffect(c: Cell, op: Op, m: Mid, f: Faults)
    requires !op.QuarantineOp?
    requires Fence(c, op.epoch, f).reply.Done? && !FenceAndCleanupIsDone(c)
    ensures var o := FenceAndCleanup(c, op.epoch, m, f);
            Retiring(c, op, o) && (o.reply.Done? ==> o.cell.record.value.state.Quarantined?)
  {
    QuarantineAfterFence(Fence(c, op.epoch, f).cell, op.epoch, m, f);
  }

  /** A worker never has a process for a sandbox whose directory it does not hold. */
  predicate ProcessNeedsClaim(c: Cell) {
    !c.claimed ==> c.vm.Absent?
  }

  predicate Direct(op: Op) {
    op.PauseOp? || op.SnapshotOp? || op.ResumeOp? || op.FenceOp? || op.QuarantineOp?
  }

  lemma DirectEffect(c: Cell, here: Wid, id: Sid, op: Op, f: Faults)
    requires Direct(op)
    ensures Effect(c, id, op, Exec(c, here, id, op, f))
  {
    match op
    case PauseOp(epoch) => PauseEffect(c, id, op, f);
    case SnapshotOp(epoch, m) => SnapshotEffect(c, id, op, f);
    case ResumeOp(epoch) => ResumeEffect(c, op, f);
    case FenceOp(epoch) => FenceEffect(c, op, f);
    case QuarantineOp(epoch, m) => QuarantineEffect(c, op, f);
    case _ =>
  }

  lemma PhaseEffect(c: Cell, here: Wid, id: Sid, op: Op, f: Faults)
    requires !Direct(op) && !op.CreateOp? && !op.PrepareOp?
    ensures Effect(c, id, op, Exec(c, here, id, op, f))
  {
    match op
    case PauseMigrationOp(epoch) => PauseEffect(c, id, op, f);
    case SnapshotMigrationOp(epoch, m) => SnapshotEffect(c, id, op, f);
    case TransferOp(epoch, m, manifest) => TransferEffect(c, id, op, f);
    case LoadOp(epoch, manifest) => LoadEffect(c, id, op, f);
    case ResumeMigrationOp(epoch) => ResumeEffect(c, op, f);
    case RollbackOp(epoch, repairClock) => RollbackEffect(c, op, f);
    case FenceAndCleanupOp(epoch, m) => FenceAndCleanupEffect(c, op, m, f);
    case GuestOp(epoch) => GuestEffect(c, op, None, f);
    case _ => GuestEffect(c, op, Some(Running), f);
  }

  /** Every operation has one of the nine effects. */
  lemma ExecEffect(c: Cell, here: Wid, id: Sid, op: Op, f: Faults)
    requires ProcessNeedsClaim(c)
    ensures Effect(c, id, op, Exec(c, here, id, op, f))
  {
    if Direct(op) {
      DirectEffect(c, here, id, op, f);
    } else if op.CreateOp? {
      CreateEffect(c, op, op.machine, op.boot, f);
    } else if op.PrepareOp? {
      PrepareEffect(c, here, id, op, f);
    } else {
      PhaseEffect(c, here, id, op, f);
    }
  }
}
