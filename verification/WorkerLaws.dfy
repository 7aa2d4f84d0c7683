/** What each request owes its caller: exactly when it is answered, what an answer means, and that
    a VM which loses its record is stopped. Said of records, VMs and calls, and of every request. */
module WorkerLaws {
  import opened Prelude
  import opened Artifacts
  import opened Worker
  import opened WorkerEffects
  import E = Epochs

  // ---- A VM that is fenced is stopped ----

  predicate RunsItsVm(c: Cell) {
    c.record.Some? && c.record.value.state.Running? && c.vm.Executing?
  }

  predicate IsRetired(c: Cell) {
    c.record.Some? && (c.record.value.state.Fenced? || c.record.value.state.Quarantined?)
  }

  /** If the record of a running VM is taken away, Firecracker is asked to pause it or its process is
      killed, and the VM goes on only if that pause fails without effect. */
  predicate StopsIfRetired(o: Outcome, f: Faults) {
    IsRetired(o.cell) ==>
      && (PauseCall in o.calls || o.cell.vm.Absent?)
      && (o.cell.vm.Executing? <==> o.cell.record.value.state.Fenced? && f.fencePause.FailsClean?)
  }

  lemma GateStops(c: Cell, epoch: nat, expected: Option<RecordState>, f: Faults)
    requires RunsItsVm(c)
    ensures var g := MutableRecord(c, epoch, expected, f);
            && StopsIfRetired(Refuse(g), f)
            && (g.passed ==> g.cell == c.(accepted := epoch) && (expected.Some? ==> expected.value == Running))
  {
  }

  lemma FenceStops(c: Cell, epoch: nat, f: Faults)
    requires RunsItsVm(c)
    ensures var o := Fence(c, epoch, f);
            && StopsIfRetired(o, f)
            && (o.reply.Done? ==> IsRetired(o.cell) && o.cell.record.value.state.Fenced?)
  {
  }

  lemma FenceAndCleanupStops(c: Cell, epoch: nat, m: Mid, f: Faults)
    requires RunsItsVm(c)
    ensures StopsIfRetired(FenceAndCleanup(c, epoch, m, f), f)
  {
    FenceStops(c, epoch, f);
    var fenced := Fence(c, epoch, f);
    if fenced.reply.Done? {
      assert PauseCall in fenced.calls || fenced.cell.vm.Absent?;
      assert Quarantine(fenced.cell, epoch, m, f).cell.vm.Absent? || Quarantine(fenced.cell, epoch, m, f).cell == fenced.cell;
    }
  }

  lemma QuarantineStops(c: Cell, epoch: nat, m: Mid, f: Faults)
    requires RunsItsVm(c)
    ensures StopsIfRetired(Quarantine(c, epoch, m, f), f)
  {
  }

  lemma PausingStops(c: Cell, here: Wid, id: Sid, op: Op, f: Faults)
    requires RunsItsVm(c) && (op.PauseOp? || op.PauseMigrationOp?)
    ensures StopsIfRetired(Exec(c, here, id, op, f), f)
  {
    GateStops(c, op.epoch, None, f);
  }

  lemma RestoringStops(c: Cell, here: Wid, id: Sid, op: Op, f: Faults)
    requires RunsItsVm(c) && (op.LoadOp? || op.TransferOp? || op.ResumeOp? || op.ResumeMigrationOp? || op.RollbackOp?)
    ensures StopsIfRetired(Exec(c, here, id, op, f), f)
  {
    GateStops(c, op.epoch, Some(Booting), f);
    GateStops(c, op.epoch, Some(Paused), f);
  }

  lemma SnapshottingStops(c: Cell, here: Wid, id: Sid, op: Op, f: Faults)
    requires RunsItsVm(c) && (op.SnapshotOp? || op.SnapshotMigrationOp?)
    ensures StopsIfRetired(Exec(c, here, id, op, f), f)
  {
    GateStops(c, op.epoch, Some(Paused), f);
  }

  lemma GuestCallStops(c: Cell, here: Wid, id: Sid, op: Op, f: Faults)
    requires RunsItsVm(c) && (op.ProbeOp? || op.PrecopyOp? || op.VerifyOp? || op.GuestOp?)
    ensures StopsIfRetired(Exec(c, here, id, op, f), f)
  {
    GateStops(c, op.epoch, None, f);
    GateStops(c, op.epoch, Some(Running), f);
  }

  lemma CreatingStops(c: Cell, here: Wid, id: Sid, op: Op, f: Faults)
    requires RunsItsVm(c) && (op.CreateOp? || op.PrepareOp?)
    ensures StopsIfRetired(Exec(c, here, id, op, f), f)
  {
  }

  /** Whichever request it is. */
  lemma AFencedVmIsStopped(c: Cell, here: Wid, id: Sid, op: Op, f: Faults)
    requires RunsItsVm(c)
    ensures StopsIfRetired(Exec(c, here, id, op, f), f)
  {
    match op
    case FenceOp(epoch) => FenceStops(c, epoch, f);
    case QuarantineOp(epoch, m) => QuarantineStops(c, epoch, m, f);
    case FenceAndCleanupOp(epoch, m) => FenceAndCleanupStops(c, epoch, m, f);
    case PauseOp(_) => PausingStops(c, here, id, op, f);
    case PauseMigrationOp(_) => PausingStops(c, here, id, op, f);
    case CreateOp(_, _, _) => CreatingStops(c, here, id, op, f);
    case PrepareOp(_, _) => CreatingStops(c, here, id, op, f);
    case SnapshotOp(_, _) => SnapshottingStops(c, here, id, op, f);
    case SnapshotMigrationOp(_, _) => SnapshottingStops(c, here, id, op, f);
    case ProbeOp(_) => GuestCallStops(c, here, id, op, f);
    case PrecopyOp(_) => GuestCallStops(c, here, id, op, f);
    case VerifyOp(_) => GuestCallStops(c, here, id, op, f);
    case GuestOp(_) => GuestCallStops(c, here, id, op, f);
    case _ => RestoringStops(c, here, id, op, f);
  }

  /** Nobody goes on under an old epoch: a request that takes no shortcut and carries a newer one
      retires every record that has run. */
  lemma ANewerEpochRetires(c: Cell, here: Wid, id: Sid, op: Op, f: Faults)
    requires op.ProbeOp? || op.PrecopyOp? || op.VerifyOp? || op.GuestOp? || op.PauseOp? || op.SnapshotOp? || op.ResumeOp?
          || op.FenceOp?
    requires c.record.Some? && !c.record.value.state.Booting?
    requires c.accepted < op.epoch <= E.MaxSafeInteger && f.persist.NoFault?
    ensures IsRetiredAt(c, op, Exec(c, here, id, op, f))
  {
    ANewerEpochFailsTheGate(c, op, None, f);
    ANewerEpochFailsTheGate(c, op, Some(Running), f);
    ANewerEpochFailsTheGate(c, op, Some(Paused), f);
  }

  predicate IsRetiredAt(c: Cell, op: Op, o: Outcome)
    requires c.record.Some?
  {
    && o.cell.record == Some(c.record.value.(state := Fenced, epoch := op.epoch))
    && o.cell.accepted == op.epoch && (op.FenceOp? || o.reply.Refused?)
  }

  lemma ANewerEpochFailsTheGate(c: Cell, op: Op, expected: Option<RecordState>, f: Faults)
    requires c.record.Some? && !c.record.value.state.Booting?
    requires c.accepted < op.epoch <= E.MaxSafeInteger && f.persist.NoFault?
    ensures var g := MutableRecord(c, op.epoch, expected, f); !g.passed && IsRetiredAt(c, op, Refuse(g))
  {
    assert MutableRecord(c, op.epoch, expected, f)
        == FenceQuietly(c.(accepted := op.epoch), c.record.value, op.epoch, f);
  }

  // ---- When a request is answered ----

  /** A request with this epoch may use the record. */
  predicate Admits(c: Cell, epoch: nat, f: Faults) {
    && c.record.Some? && !c.record.value.state.Fenced? && c.record.value.epoch <= epoch
    && c.accepted <= epoch <= E.MaxSafeInteger
    && (c.accepted < epoch ==> c.record.value.state.Booting? && f.persist.NoFault?)
  }

  predicate AdmitsIn(c: Cell, state: RecordState, epoch: nat, f: Faults) {
    Admits(c, epoch, f) && c.record.value.state == state
  }

  /** The process can be paused, resumed or snapshotted. */
  predicate HasVcpus(c: Cell) {
    c.vm.Executing? || c.vm.Halted?
  }

  predicate CanResume(c: Cell, epoch: nat, f: Faults) {
    && AdmitsIn(c, Paused, epoch, f) && HasVcpus(c) && f.firecracker.Works? && f.guest
    && (c.record.value.loaded.Some? ==> c.record.value.loaded.value !in c.consumed)
  }

  predicate CanSnapshot(c: Cell, epoch: nat, f: Faults) {
    AdmitsIn(c, Paused, epoch, f) && HasVcpus(c) && f.firecracker.Works? && f.files
  }

  predicate CanLoad(c: Cell, id: Sid, epoch: nat, manifest: Manifest, f: Faults) {
    && c.record.Some? && f.compatible && manifest.machine == c.record.value.machine
    && manifest.sandboxId == id && epoch == manifest.sourceEpoch + 1 && manifest.migrationId !in c.consumed
    && ((c.record.value.loaded == Some(manifest.migrationId) && c.record.value.state.Paused?)
        || (AdmitsIn(c, Booting, epoch, f) && AllRegistered(c.record.value, manifest)
            && c.vm.Unbooted? && f.firecracker.Works?))
  }

  predicate CanTransfer(c: Cell, id: Sid, op: Op, f: Faults)
    requires op.TransferOp?
  {
    && AdmitsIn(c, Booting, op.epoch, f) && op.manifest.migrationId == op.m && f.compatible && f.peer && f.guest
    && (op.manifest.sandboxId == id ==> op.manifest.machine == c.record.value.machine)
    && (AllRegistered(c.record.value, op.manifest)
        || forall kind | kind in AllKinds ::
             kind in op.manifest.artifacts && kind in f.bytes && kind !in f.unsynced
             && |f.bytes[kind]| == op.manifest.artifacts[kind].size
             && Sha256(f.bytes[kind]) == op.manifest.artifacts[kind].sha256)
  }

  predicate CanCreate(c: Cell, epoch: nat, machine: Machine, boot: bool, f: Faults) {
    && c.record.None? && !c.claimed && 1 <= machine.cpu <= 32 && 128 <= machine.memoryMb <= 262_144
    && c.accepted <= epoch <= E.MaxSafeInteger && (c.accepted < epoch ==> f.persist.NoFault?)
    && (f.stage.NoStageFails? || (f.stage.BootFails? && !boot))
  }

  predicate CanAccept(c: Cell, epoch: nat, f: Faults) {
    c.record.Some? && c.accepted <= epoch <= E.MaxSafeInteger && (c.accepted < epoch ==> f.persist.NoFault?)
  }

  predicate IsInQuarantine(c: Cell) {
    c.record.Some? && c.record.value.state.Quarantined? && c.record.value.quarantine.Some?
  }

  predicate CanPrepare(c: Cell, here: Wid, epoch: nat, p: Preparation, f: Faults) {
    && p.destination == here
    && (p.m in c.reservations ==>
          var r := c.reservations[p.m];
          r.epoch == epoch && r.source == p.source && r.destination == p.destination && r.machine == p.machine)
    && (p.prestage && !(p.m in c.reservations && c.reservations[p.m].prepared) ==>
          if c.record.None? then CanCreate(c, epoch, p.machine, false, f)
          else c.record.value.epoch == epoch && c.record.value.machine == p.machine)
  }

  /** What has to hold for the request not to be refused. */
  predicate Answerable(c: Cell, here: Wid, id: Sid, op: Op, f: Faults) {
    match op
    case CreateOp(epoch, machine, boot) => CanCreate(c, epoch, machine, boot, f)
    case PrepareOp(epoch, preparation) => CanPrepare(c, here, epoch, preparation, f)
    case ProbeOp(epoch) => AdmitsIn(c, Running, epoch, f) && f.guest
    case PrecopyOp(epoch) => AdmitsIn(c, Running, epoch, f)
    case VerifyOp(epoch) => AdmitsIn(c, Running, epoch, f) && f.guest
    case GuestOp(epoch) => Admits(c, epoch, f) && f.guest
    case PauseOp(epoch) => Admits(c, epoch, f) && HasVcpus(c) && f.firecracker.Works?
    case PauseMigrationOp(epoch) =>
      (c.record.Some? && c.record.value.state.Paused?) || (Admits(c, epoch, f) && HasVcpus(c) && f.firecracker.Works?)
    case SnapshotOp(epoch, _) => CanSnapshot(c, epoch, f)
    case SnapshotMigrationOp(epoch, m) =>
      if m in c.manifests then c.manifests[m].sandboxId == id && c.manifests[m].sourceEpoch == epoch
      else CanSnapshot(c, epoch, f)
    case TransferOp(_, _, _) => CanTransfer(c, id, op, f)
    case LoadOp(epoch, manifest) => CanLoad(c, id, epoch, manifest, f)
    case ResumeOp(epoch) => CanResume(c, epoch, f)
    case ResumeMigrationOp(epoch) => (c.record.Some? && c.record.value.state.Running?) || CanResume(c, epoch, f)
    case RollbackOp(epoch, repairClock) =>
      && c.record.Some? && c.record.value.loaded.None?
      && ((c.record.value.state.Running? && (repairClock ==> f.guest)) || CanResume(c, epoch, f))
    case FenceOp(epoch) =>
      CanAccept(c, epoch, f) && f.veth && (c.record.value.state.Running? ==> HasVcpus(c) && f.fencePause.Works?)
    case QuarantineOp(epoch, _) =>
      IsInQuarantine(c) || (CanAccept(c, epoch, f) && c.record.value.epoch <= epoch && f.files)
    case FenceAndCleanupOp(epoch, _) =>
      IsInQuarantine(c)
      || (CanAccept(c, epoch, f) && f.veth && f.files
          && (c.record.value.state.Running? ==> HasVcpus(c) && f.fencePause.Works?))
  }

  lemma GateAdmits(c: Cell, epoch: nat, expected: Option<RecordState>, f: Faults)
    ensures MutableRecord(c, epoch, expected, f).passed
       <==> Admits(c, epoch, f) && (expected.Some? ==> c.record.value.state == expected.value)
    ensures MutableRecord(c, epoch, expected, f).passed ==>
              MutableRecord(c, epoch, expected, f).cell == c.(accepted := epoch)
  {
  }

  predicate IsExact(c: Cell, here: Wid, id: Sid, op: Op, f: Faults) {
    Exec(c, here, id, op, f).reply.Refused? <==> !Answerable(c, here, id, op, f)
  }

  lemma GuestIsExact(c: Cell, here: Wid, id: Sid, op: Op, f: Faults)
    requires op.ProbeOp? || op.PrecopyOp? || op.VerifyOp? || op.GuestOp?
    ensures IsExact(c, here, id, op, f)
  {
    GateAdmits(c, op.epoch, None, f);
    GateAdmits(c, op.epoch, Some(Running), f);
  }

  lemma PauseIsExact(c: Cell, here: Wid, id: Sid, op: Op, f: Faults)
    requires op.PauseOp? || op.PauseMigrationOp?
    ensures IsExact(c, here, id, op, f)
  {
    GateAdmits(c, op.epoch, None, f);
  }

  lemma SnapshotIsExact(c: Cell, here: Wid, id: Sid, op: Op, f: Faults)
    requires op.SnapshotOp? || op.SnapshotMigrationOp?
    ensures IsExact(c, here, id, op, f)
  {
    GateAdmits(c, op.epoch, Some(Paused), f);
  }

  lemma ResumeIsExact(c: Cell, here: Wid, id: Sid, op: Op, f: Faults)
    requires op.ResumeOp? || op.ResumeMigrationOp? || op.RollbackOp?
    ensures IsExact(c, here, id, op, f)
  {
    GateAdmits(c, op.epoch, Some(Paused), f);
  }

  lemma LoadIsExact(c: Cell, here: Wid, id: Sid, op: Op, f: Faults)
    requires op.LoadOp?
    ensures IsExact(c, here, id, op, f)
  {
    GateAdmits(c, op.epoch, Some(Booting), f);
  }

  lemma TransferIsExact(c: Cell, here: Wid, id: Sid, op: Op, f: Faults)
    requires op.TransferOp?
    ensures IsExact(c, here, id, op, f)
  {
    GateAdmits(c, op.epoch, Some(Booting), f);
    EverythingCommits(op.manifest, f);
  }

  lemma EverythingCommits(manifest: Manifest, f: Faults)
    ensures Committed(manifest, f) == AllKinds
       <==> forall kind | kind in AllKinds ::
              kind in manifest.artifacts && kind in f.bytes && kind !in f.unsynced
              && |f.bytes[kind]| == manifest.artifacts[kind].size
              && Sha256(f.bytes[kind]) == manifest.artifacts[kind].sha256
  {
    forall kind | kind in AllKinds
      ensures kind in Committed(manifest, f)
         <==> kind in manifest.artifacts && kind in f.bytes && kind !in f.unsynced
              && Matches(f.bytes[kind], manifest.artifacts[kind])
    {
    }
  }

  lemma CreateIsExact(c: Cell, epoch: nat, machine: Machine, boot: bool, f: Faults)
    ensures Create(c, epoch, machine, boot, f).reply.Refused? <==> !CanCreate(c, epoch, machine, boot, f)
  {
  }

  lemma PrepareIsExact(c: Cell, here: Wid, id: Sid, op: Op, f: Faults)
    requires op.PrepareOp?
    ensures IsExact(c, here, id, op, f)
  {
    var p := op.preparation;
    var reservation := Admitted(c, op.epoch, p);
    if reservation.Some? {
      CreateIsExact(WithReservation(c, p.m, reservation.value), op.epoch, p.machine, false, f);
    }
  }

  lemma FenceIsExact(c: Cell, here: Wid, id: Sid, op: Op, f: Faults)
    requires op.FenceOp? || op.QuarantineOp?
    ensures IsExact(c, here, id, op, f)
  {
  }

  lemma FenceAndCleanupIsExact(c: Cell, here: Wid, id: Sid, op: Op, f: Faults)
    requires op.FenceAndCleanupOp?
    ensures IsExact(c, here, id, op, f)
  {
    FenceIsExact(c, here, id, FenceOp(op.epoch), f);
    var fenced := Fence(c, op.epoch, f);
    if fenced.reply.Done? {
      FenceIsExact(fenced.cell, here, id, QuarantineOp(op.epoch, op.m), f);
    }
  }

  /** Every request is refused exactly if it is not answerable. */
  lemma AnsweredExactlyIfAnswerable(c: Cell, here: Wid, id: Sid, op: Op, f: Faults)
    ensures IsExact(c, here, id, op, f)
  {
    match op
    case CreateOp(epoch, machine, boot) => CreateIsExact(c, epoch, machine, boot, f);
    case PrepareOp(_, _) => PrepareIsExact(c, here, id, op, f);
    case PauseOp(_) => PauseIsExact(c, here, id, op, f);
    case PauseMigrationOp(_) => PauseIsExact(c, here, id, op, f);
    case SnapshotOp(_, _) => SnapshotIsExact(c, here, id, op, f);
    case SnapshotMigrationOp(_, _) => SnapshotIsExact(c, here, id, op, f);
    case TransferOp(_, _, _) => TransferIsExact(c, here, id, op, f);
    case LoadOp(_, _) => LoadIsExact(c, here, id, op, f);
    case ResumeOp(_) => ResumeIsExact(c, here, id, op, f);
    case ResumeMigrationOp(_) => ResumeIsExact(c, here, id, op, f);
    case RollbackOp(_, _) => ResumeIsExact(c, here, id, op, f);
    case FenceOp(_) => FenceIsExact(c, here, id, op, f);
    case QuarantineOp(_, _) => FenceIsExact(c, here, id, op, f);
    case FenceAndCleanupOp(_, _) => FenceAndCleanupIsExact(c, here, id, op, f);
    case _ => GuestIsExact(c, here, id, op, f);
  }

  // ---- What an answer means ----

  /** The cell with the epoch accepted, this record and this process. */
  function Now(c: Cell, epoch: nat, record: Record, vm: Vm): Cell {
    c.(accepted := epoch, record := Some(record), vm := vm)
  }

  predicate IsCreated(c: Cell, epoch: nat, machine: Machine, boot: bool, f: Faults, o: Outcome) {
    && o.cell.record.Some? && o.calls == (if boot then [BootCall] else [])
    && var record := o.cell.record.value;
    && o.cell == Now(c.(claimed := true), epoch, record, if boot then Executing else Unbooted)
    && record.(files := map[])
       == Record(if boot then Running else Booting, epoch, machine, 0, None, None, map[], map[])
    && (forall kind :: kind in record.files <==> boot && kind.DiskFile? && kind in f.bytes)
    && (DiskFile in record.files ==> record.files[DiskFile] == f.bytes[DiskFile])
  }

  predicate IsPrepared(c: Cell, epoch: nat, p: Preparation, f: Faults, o: Outcome) {
    var prepared := p.prestage || (p.m in c.reservations && c.reservations[p.m].prepared);
    && o.cell.reservations == c.reservations[p.m := Reservation(epoch, p.source, p.destination, p.machine, prepared)]
    && o.reply == Prepared(prepared && o.cell.record.Some? && !o.cell.vm.Absent?)
    && var other := o.cell.(reservations := c.reservations);
       if p.prestage && !(p.m in c.reservations && c.reservations[p.m].prepared) && c.record.None?
       then IsCreated(c, epoch, p.machine, false, f, Outcome(other, Done, o.calls))
       else other == c && o.calls == []
  }

  predicate IsPaused(c: Cell, epoch: nat, o: Outcome) {
    && c.record.Some? && o.reply.Done?
    && o.cell == Now(c, epoch, c.record.value.(state := Paused), Halted) && o.calls == [PauseCall]
  }

  predicate IsResumed(c: Cell, epoch: nat, o: Outcome) {
    && c.record.Some? && o.reply.Done?
    && var record := c.record.value;
    && o.cell == Now(c.(consumed := c.consumed + (if record.loaded.Some? then {record.loaded.value} else {})),
                     epoch, record.(state := Running, epoch := epoch), Executing)
    && o.calls == [ResumeCall(record.loaded)]
  }

  predicate IsSnapshotted(c: Cell, id: Sid, epoch: nat, m: Mid, f: Faults, o: Outcome) {
    && c.record.Some? && o.cell.record.Some? && o.reply.Snapshotted? && o.calls == [SnapshotCall]
    && var before, after := c.record.value, o.cell.record.value;
    && after == before.(generation := before.generation + 1, files := after.files, registered := after.registered)
    && (forall kind :: kind in after.files && kind in after.registered
          && after.files[kind] == WrittenBySnapshot(before, f, kind) && Matches(after.files[kind], after.registered[kind]))
    && o.reply.manifest == Manifest(m, id, epoch, before.machine, after.registered)
  }

  /** The snapshot writes state and memory; the disk is as the VM left it. */
  function WrittenBySnapshot(before: Record, f: Faults, kind: Kind): Bytes {
    var content := if kind.DiskFile? then before.files else f.bytes;
    if kind in content then content[kind] else []
  }

  predicate IsTransferred(c: Cell, op: Op, f: Faults, o: Outcome)
    requires op.TransferOp?
  {
    && c.record.Some? && o.cell.record.Some? && o.calls == [] && o.reply.Done?
    && var before, after := c.record.value, o.cell.record.value;
    && o.cell == Now(c, op.epoch, after, c.vm)
    && after == before.(files := after.files, registered := after.registered)
    && AllRegistered(after, op.manifest)
    && (if AllRegistered(before, op.manifest) then after == before
        else forall kind :: kind in f.bytes && kind in after.files && after.files[kind] == f.bytes[kind])
  }

  predicate IsLoaded(c: Cell, op: Op, o: Outcome)
    requires op.LoadOp?
  {
    && c.record.Some? && o.reply.Done?
    && var record := c.record.value;
       if record.loaded == Some(op.manifest.migrationId) && record.state.Paused? then o.cell == c && o.calls == []
       else
         && o.cell == Now(c, op.epoch, record.(loaded := Some(op.manifest.migrationId), state := Paused), Halted)
         && o.calls == [LoadCall(op.manifest, record.files)]
  }

  predicate IsFenced(c: Cell, epoch: nat, o: Outcome) {
    && c.record.Some? && o.reply.Done?
    && var wasRunning := c.record.value.state.Running?;
    && o.cell == Now(c, epoch, c.record.value.(state := Fenced, epoch := epoch), if wasRunning then Halted else c.vm)
    && o.calls == if wasRunning then [PauseCall] else []
  }

  predicate IsMovedToQuarantine(c: Cell, epoch: nat, m: Mid, o: Outcome) {
    && c.record.Some? && o.reply.Done?
    && if IsInQuarantine(c) then o.cell == c
       else o.cell == Now(c.(claimed := false), epoch,
                          c.record.value.(state := Quarantined, epoch := epoch, quarantine := Some(m)), Absent)
  }

  /** What the answer to a request stands for. */
  predicate Leaves(c: Cell, id: Sid, op: Op, f: Faults, o: Outcome) {
    match op
    case CreateOp(epoch, machine, boot) => IsCreated(c, epoch, machine, boot, f, o) && o.reply.Done?
    case PrepareOp(epoch, preparation) => IsPrepared(c, epoch, preparation, f, o)
    case PauseOp(epoch) => IsPaused(c, epoch, o)
    case PauseMigrationOp(epoch) =>
      if c.record.Some? && c.record.value.state.Paused? then o == Outcome(c, Done, []) else IsPaused(c, epoch, o)
    case SnapshotOp(epoch, m) =>
      && IsSnapshotted(c, id, epoch, m, f, o) && o.cell == Now(c, epoch, o.cell.record.value, c.vm)
    case SnapshotMigrationOp(epoch, m) =>
      if m in c.manifests then o == Outcome(c, Snapshotted(c.manifests[m]), [])
      else
        && IsSnapshotted(c, id, epoch, m, f, o)
        && o.cell == Now(c.(manifests := c.manifests[m := o.reply.manifest]), epoch, o.cell.record.value, c.vm)
    case TransferOp(_, _, _) => IsTransferred(c, op, f, o)
    case LoadOp(_, _) => IsLoaded(c, op, o)
    case ResumeOp(epoch) => IsResumed(c, epoch, o)
    case ResumeMigrationOp(epoch) =>
      if c.record.Some? && c.record.value.state.Running? then o == Outcome(c, Done, []) else IsResumed(c, epoch, o)
    case RollbackOp(epoch, _) =>
      if c.record.Some? && c.record.value.state.Running? then o == Outcome(c, Done, []) else IsResumed(c, epoch, o)
    case FenceOp(epoch) => IsFenced(c, epoch, o)
    case QuarantineOp(epoch, m) => IsMovedToQuarantine(c, epoch, m, o) && o.calls == []
    case FenceAndCleanupOp(epoch, m) =>
      && IsMovedToQuarantine(c, epoch, m, o)
      && o.calls == if c.record.value.state.Running? then [PauseCall] else []
    case _ => o == Outcome(c.(accepted := op.epoch), Done, [])
  }

  predicate LeavesIfAnswered(c: Cell, here: Wid, id: Sid, op: Op, f: Faults) {
    var o := Exec(c, here, id, op, f);
    o.reply.Refused? || Leaves(c, id, op, f, o)
  }

  lemma GuestLeaves(c: Cell, here: Wid, id: Sid, op: Op, f: Faults)
    requires op.ProbeOp? || op.PrecopyOp? || op.VerifyOp? || op.GuestOp?
    ensures LeavesIfAnswered(c, here, id, op, f)
  {
    GateLeaves(c, op.epoch, None, f);
    GateLeaves(c, op.epoch, Some(Running), f);
  }

  lemma GateLeaves(c: Cell, epoch: nat, expected: Option<RecordState>, f: Faults)
    ensures var g := MutableRecord(c, epoch, expected, f);
            g.passed ==>
              && g == Gate(c.(accepted := epoch), true, []) && c.record.Some?
              && (expected.Some? ==> c.record.value.state == expected.value)
  {
  }

  lemma PauseLeaves(c: Cell, here: Wid, id: Sid, op: Op, f: Faults)
    requires op.PauseOp? || op.PauseMigrationOp?
    ensures LeavesIfAnswered(c, here, id, op, f)
  {
    GateLeaves(c, op.epoch, None, f);
  }

  lemma SnapshotLeaves(c: Cell, here: Wid, id: Sid, op: Op, f: Faults)
    requires op.SnapshotOp? || op.SnapshotMigrationOp?
    ensures LeavesIfAnswered(c, here, id, op, f)
  {
    GateLeaves(c, op.epoch, Some(Paused), f);
    if MutableRecord(c, op.epoch, Some(Paused), f).passed {
      TakenLeaves(c, id, op.epoch, op.m, f);
    }
  }

  lemma TakenLeaves(c: Cell, id: Sid, epoch: nat, m: Mid, f: Faults)
    requires c.record.Some?
    ensures var o := SnapshotRecord(c.(accepted := epoch), id, epoch, m, f);
            if o.reply.Refused? then true
            else IsSnapshotted(c, id, epoch, m, f, o) && o.cell == Now(c, epoch, o.cell.record.value, c.vm)
  {
    var files := SnapshotFiles(c.record.value.(generation := c.record.value.generation + 1), f);
    forall kind: Kind
      ensures kind in files && files[kind] == WrittenBySnapshot(c.record.value, f, kind)
      ensures kind in DescribeAll(files) && Matches(files[kind], DescribeAll(files)[kind])
    {
      match kind case StateFile => case MemoryFile => case DiskFile =>
    }
  }

  lemma TransferLeaves(c: Cell, here: Wid, id: Sid, op: Op, f: Faults)
    requires op.TransferOp?
    ensures LeavesIfAnswered(c, here, id, op, f)
  {
    GateLeaves(c, op.epoch, Some(Booting), f);
    if AdmitTransfer(c, id, op.epoch, op.m, op.manifest, f).passed {
      PulledLeaves(c.record.value, op.manifest, f);
    }
  }

  lemma PulledLeaves(record: Record, manifest: Manifest, f: Faults)
    ensures var pulled := Pulled(record, manifest, f);
            && pulled == record.(files := pulled.files, registered := pulled.registered)
            && (Committed(manifest, f) == AllKinds ==>
                  && AllRegistered(pulled, manifest)
                  && forall kind: Kind :: kind in f.bytes && kind in pulled.files && pulled.files[kind] == f.bytes[kind])
  {
    if Committed(manifest, f) == AllKinds {
      var pulled := Pulled(record, manifest, f);
      forall kind: Kind ensures kind in f.bytes && kind in pulled.files && pulled.files[kind] == f.bytes[kind] {
        assert kind in AllKinds by {
          match kind case StateFile => case MemoryFile => case DiskFile =>
        }
        assert kind in Committed(manifest, f);
      }
    }
  }

  lemma LoadLeaves(c: Cell, here: Wid, id: Sid, op: Op, f: Faults)
    requires op.LoadOp?
    ensures LeavesIfAnswered(c, here, id, op, f)
  {
    GateLeaves(c, op.epoch, Some(Booting), f);
  }

  lemma ResumeLeaves(c: Cell, here: Wid, id: Sid, op: Op, f: Faults)
    requires op.ResumeOp? || op.ResumeMigrationOp? || op.RollbackOp?
    ensures LeavesIfAnswered(c, here, id, op, f)
  {
    GateLeaves(c, op.epoch, Some(Paused), f);
  }

  lemma CreateLeaves(c: Cell, epoch: nat, machine: Machine, boot: bool, f: Faults)
    ensures var o := Create(c, epoch, machine, boot, f);
            o.reply.Refused? || (o.reply.Done? && IsCreated(c, epoch, machine, boot, f, o))
  {
  }

  lemma PrepareLeaves(c: Cell, here: Wid, id: Sid, op: Op, f: Faults)
    requires op.PrepareOp?
    ensures LeavesIfAnswered(c, here, id, op, f)
  {
    var p := op.preparation;
    var reservation := Admitted(c, op.epoch, p);
    if reservation.Some? {
      CreateLeaves(WithReservation(c, p.m, reservation.value), op.epoch, p.machine, false, f);
    }
  }

  lemma RetiringLeaves(c: Cell, here: Wid, id: Sid, op: Op, f: Faults)
    requires op.FenceOp? || op.QuarantineOp?
    ensures LeavesIfAnswered(c, here, id, op, f)
  {
  }

  lemma FenceAndCleanupLeaves(c: Cell, here: Wid, id: Sid, op: Op, f: Faults)
    requires op.FenceAndCleanupOp?
    ensures LeavesIfAnswered(c, here, id, op, f)
  {
    RetiringLeaves(c, here, id, FenceOp(op.epoch), f);
    var fenced := Fence(c, op.epoch, f);
    if fenced.reply.Done? && !IsInQuarantine(c) {
      FencedMovesToQuarantine(c, op.epoch, op.m, f, fenced);
    }
  }

  lemma FencedMovesToQuarantine(c: Cell, epoch: nat, m: Mid, f: Faults, fenced: Outcome)
    requires IsFenced(c, epoch, fenced) && !IsInQuarantine(c)
    ensures var o := Quarantine(fenced.cell, epoch, m, f);
            o.reply.Refused? || (IsMovedToQuarantine(c, epoch, m, o) && o.calls == [])
  {
  }

  /** An answer always stands for what the request asked for. */
  lemma AnAnswerMeansItIsDone(c: Cell, here: Wid, id: Sid, op: Op, f: Faults)
    ensures LeavesIfAnswered(c, here, id, op, f)
  {
    match op
    case CreateOp(epoch, machine, boot) => CreateLeaves(c, epoch, machine, boot, f);
    case PrepareOp(_, _) => PrepareLeaves(c, here, id, op, f);
    case PauseOp(_) => PauseLeaves(c, here, id, op, f);
    case PauseMigrationOp(_) => PauseLeaves(c, here, id, op, f);
    case SnapshotOp(_, _) => SnapshotLeaves(c, here, id, op, f);
    case SnapshotMigrationOp(_, _) => SnapshotLeaves(c, here, id, op, f);
    case TransferOp(_, _, _) => TransferLeaves(c, here, id, op, f);
    case LoadOp(_, _) => LoadLeaves(c, here, id, op, f);
    case ResumeOp(_) => ResumeLeaves(c, here, id, op, f);
    case ResumeMigrationOp(_) => ResumeLeaves(c, here, id, op, f);
    case RollbackOp(_, _) => ResumeLeaves(c, here, id, op, f);
    case FenceOp(_) => RetiringLeaves(c, here, id, op, f);
    case QuarantineOp(_, _) => RetiringLeaves(c, here, id, op, f);
    case FenceAndCleanupOp(_, _) => FenceAndCleanupLeaves(c, here, id, op, f);
    case _ => GuestLeaves(c, here, id, op, f);
  }
}
