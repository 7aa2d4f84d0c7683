/** What a worker guarantees for a sandbox under any sequence of operations, with any epochs and
    any failures, whoever sends them. */
module WorkerSafety {
  import opened Prelude
  import opened Artifacts
  import opened Worker
  import opened WorkerEffects

  // ---- Stale requests ----

  lemma StaleIsStopped(c: Cell, epoch: nat, expected: Option<RecordState>, f: Faults)
    requires epoch < c.accepted
    ensures MutableRecord(c, epoch, expected, f) == Gate(c, false, [])
  {
  }

  /** What a stale operation leaves. */
  predicate DoesNothing(c: Cell, op: Op, o: Outcome) {
    o.calls == [] && o.cell == (if op.PrepareOp? then c.(reservations := o.cell.reservations) else c)
  }

  lemma StaleLifecycleDoesNothing(c: Cell, here: Wid, id: Sid, op: Op, f: Faults)
    requires op.epoch < c.accepted
    requires op.PauseOp? || op.PauseMigrationOp? || op.LoadOp? || op.ResumeOp? || op.ResumeMigrationOp? || op.RollbackOp?
             || op.FenceOp? || op.QuarantineOp? || op.FenceAndCleanupOp?
    ensures DoesNothing(c, op, Exec(c, here, id, op, f))
  {
    StaleIsStopped(c, op.epoch, None, f);
    StaleIsStopped(c, op.epoch, Some(Booting), f);
    StaleIsStopped(c, op.epoch, Some(Paused), f);
  }

  /** An operation whose epoch is below the accepted one changes neither the record nor the VM,
      and reaches Firecracker with no call. Only `prepare` leaves a trace, its reservation. */
  lemma StaleEpochsDoNothing(c: Cell, here: Wid, id: Sid, op: Op, f: Faults)
    requires op.epoch < c.accepted
    ensures DoesNothing(c, op, Exec(c, here, id, op, f))
  {
    if op.CreateOp? || op.PrepareOp? {
    } else if op.SnapshotOp? || op.SnapshotMigrationOp? || op.TransferOp? {
      StaleIsStopped(c, op.epoch, Some(Paused), f);
      StaleIsStopped(c, op.epoch, Some(Booting), f);
    } else if op.ProbeOp? || op.PrecopyOp? || op.VerifyOp? || op.GuestOp? {
      StaleIsStopped(c, op.epoch, Some(Running), f);
      StaleIsStopped(c, op.epoch, None, f);
    } else {
      StaleLifecycleDoesNothing(c, here, id, op, f);
    }
  }

  /** Accepted epochs never drop, and whatever the choke point lets through carries exactly the
      accepted epoch. */
  lemma AcceptedNeverDrops(c: Cell, here: Wid, id: Sid, op: Op, f: Faults)
    requires ProcessNeedsClaim(c)
    ensures var o := Exec(c, here, id, op, f);
            && o.cell.accepted >= c.accepted
            && (o.calls != [] ==> o.cell.accepted == op.epoch)
            && (o.cell.record != c.record ==> o.cell.accepted == op.epoch)
  {
    ExecEffect(c, here, id, op, f);
    EffectAccepts(c, id, op, Exec(c, here, id, op, f));
  }

  lemma EffectAccepts(c: Cell, id: Sid, op: Op, o: Outcome)
    requires Effect(c, id, op, o)
    ensures o.cell.accepted >= c.accepted
    ensures o.calls != [] || o.cell.record != c.record ==> o.cell.accepted == op.epoch
  {
  }

  // ---- Runs ----

  datatype Happening =
    | Request(op: Op, faults: Faults)
    | GuestWrite(content: Bytes)
    | Restart(reloaded: nat, vmSurvives: bool)

  /** A sandbox at a worker with the Firecracker calls made for it so far. */
  datatype Life = Life(cell: Cell, calls: seq<Call>)

  function After(life: Life, here: Wid, id: Sid, e: Happening): Life {
    match e
    case Request(op, f) =>
      var o := Exec(life.cell, here, id, op, f);
      Life(o.cell, life.calls + o.calls)
    case GuestWrite(content) => life.(cell := GuestWrites(life.cell, content))
    case Restart(reloaded, vmSurvives) => life.(cell := Restarted(life.cell, reloaded, vmSurvives))
  }

  function Play(life: Life, here: Wid, id: Sid, run: seq<Happening>): Life {
    if run == [] then life
    else After(Play(life, here, id, run[..|run| - 1]), here, id, run[|run| - 1])
  }

  const Beginning := Life(Vacant, [])

  /** A restarted worker reloads at least the epoch it had accepted, which is what the epoch
      store promises. */
  predicate RestartsRemember(here: Wid, id: Sid, run: seq<Happening>) {
    run == []
    || (RestartsRemember(here, id, run[..|run| - 1])
        && (run[|run| - 1].Restart? ==>
              run[|run| - 1].reloaded >= Play(Beginning, here, id, run[..|run| - 1]).cell.accepted))
  }

  lemma {:induction false} AcceptedGrows(here: Wid, id: Sid, run: seq<Happening>, i: nat)
    requires RestartsRemember(here, id, run) && i <= |run|
    ensures Play(Beginning, here, id, run[..i]).cell.accepted <= Play(Beginning, here, id, run).cell.accepted
  {
    if i == |run| {
      assert run[..i] == run;
    } else {
      var earlier := run[..|run| - 1];
      assert earlier[..i] == run[..i];
      AcceptedGrows(here, id, earlier, i);
      ProcessesNeedClaims(here, id, earlier);
      match run[|run| - 1]
      case Request(op, f) => AcceptedNeverDrops(Play(Beginning, here, id, earlier).cell, here, id, op, f);
      case _ =>
    }
  }

  /** Once the worker has accepted an epoch, no request below it ever again changes the record or
      the VM or reaches Firecracker, whatever happens in between. */
  lemma StaleForEver(here: Wid, id: Sid, run: seq<Happening>, i: nat, op: Op, f: Faults)
    requires RestartsRemember(here, id, run) && i <= |run|
    requires op.epoch < Play(Beginning, here, id, run[..i]).cell.accepted
    ensures var c := Play(Beginning, here, id, run).cell;
            var o := Exec(c, here, id, op, f);
            o.calls == [] && o.cell.record == c.record && o.cell.vm == c.vm && o.cell.accepted == c.accepted
  {
    AcceptedGrows(here, id, run, i);
    StaleEpochsDoNothing(Play(Beginning, here, id, run).cell, here, id, op, f);
  }

  // ---- Bookkeeping of processes ----

  lemma ExecKeepsClaim(c: Cell, here: Wid, id: Sid, op: Op, f: Faults)
    requires ProcessNeedsClaim(c)
    ensures ProcessNeedsClaim(Exec(c, here, id, op, f).cell)
  {
    ExecEffect(c, here, id, op, f);
    EffectKeepsClaim(c, id, op, Exec(c, here, id, op, f));
  }

  lemma EffectKeepsClaim(c: Cell, id: Sid, op: Op, o: Outcome)
    requires Effect(c, id, op, o) && ProcessNeedsClaim(c)
    ensures ProcessNeedsClaim(o.cell)
  {
  }

  lemma {:induction false} ProcessesNeedClaims(here: Wid, id: Sid, run: seq<Happening>)
    ensures ProcessNeedsClaim(Play(Beginning, here, id, run).cell)
  {
    if run != [] {
      ProcessesNeedClaims(here, id, run[..|run| - 1]);
      match run[|run| - 1]
      case Request(op, f) => ExecKeepsClaim(Play(Beginning, here, id, run[..|run| - 1]).cell, here, id, op, f);
      case _ =>
    }
  }

  // ---- Retired records ----

  predicate Retired(c: Cell) {
    c.record.Some? && (c.record.value.state.Fenced? || c.record.value.state.Quarantined?)
  }

  /** A quarantined sandbox has no Firecracker process. */
  predicate QuarantinedIsStopped(c: Cell) {
    c.record.Some? && c.record.value.state.Quarantined? ==> c.vm.Absent?
  }

  lemma ExecKeepsRetired(c: Cell, here: Wid, id: Sid, op: Op, f: Faults)
    requires ProcessNeedsClaim(c) && QuarantinedIsStopped(c)
    ensures var later := Exec(c, here, id, op, f).cell;
            QuarantinedIsStopped(later) && (Retired(c) ==> Retired(later))
  {
    ExecEffect(c, here, id, op, f);
    EffectKeepsRetired(c, id, op, Exec(c, here, id, op, f));
  }

  lemma EffectKeepsRetired(c: Cell, id: Sid, op: Op, o: Outcome)
    requires Effect(c, id, op, o) && QuarantinedIsStopped(c)
    ensures QuarantinedIsStopped(o.cell) && (Retired(c) ==> Retired(o.cell))
  {
  }

  lemma {:induction false} QuarantinedStaysStopped(here: Wid, id: Sid, run: seq<Happening>)
    ensures QuarantinedIsStopped(Play(Beginning, here, id, run).cell)
  {
    if run != [] {
      QuarantinedStaysStopped(here, id, run[..|run| - 1]);
      ProcessesNeedClaims(here, id, run[..|run| - 1]);
      var before := Play(Beginning, here, id, run[..|run| - 1]);
      match run[|run| - 1]
      case Request(op, f) => ExecKeepsRetired(before.cell, here, id, op, f);
      case _ =>
    }
  }

  /** Fenced and Quarantined are final: from the moment a record is in one of them, no request
      with any epoch brings it back, as long as the process keeps the record. */
  lemma {:induction false} RetiredForGood(here: Wid, id: Sid, past: seq<Happening>, future: seq<Happening>)
    requires Retired(Play(Beginning, here, id, past).cell)
    requires forall e | e in future :: !e.Restart?
    ensures Retired(Play(Play(Beginning, here, id, past), here, id, future).cell)
    ensures QuarantinedIsStopped(Play(Play(Beginning, here, id, past), here, id, future).cell)
    ensures ProcessNeedsClaim(Play(Play(Beginning, here, id, past), here, id, future).cell)
  {
    if future == [] {
      ProcessesNeedClaims(here, id, past);
      QuarantinedStaysStopped(here, id, past);
    } else {
      var last := future[|future| - 1];
      RetiredForGood(here, id, past, future[..|future| - 1]);
      var before := Play(Play(Beginning, here, id, past), here, id, future[..|future| - 1]);
      assert last in future;
      match last
      case Request(op, f) =>
        ExecKeepsRetired(before.cell, here, id, op, f);
        ExecKeepsClaim(before.cell, here, id, op, f);
      case GuestWrite(content) =>
    }
  }

  // ---- The epoch of a running record ----

  predicate EpochsAgree(c: Cell) {
    c.record.Some? ==>
      && c.record.value.epoch <= c.accepted
      && (c.record.value.state.Running? ==> c.record.value.epoch == c.accepted)
  }

  /** The one way to leave a running record behind the accepted epoch: the direct quarantine
      route with a newer epoch whose rename fails after the VM was stopped. */
  predicate HalfQuarantined(c: Cell, op: Op, f: Faults) {
    op.QuarantineOp? && c.record.Some? && c.record.value.state.Running?
    && op.epoch > c.accepted && Accepts(c, op.epoch, f) && !f.files
  }

  lemma EpochsAgreeUnlessHalfQuarantined(c: Cell, here: Wid, id: Sid, op: Op, f: Faults)
    requires ProcessNeedsClaim(c) && EpochsAgree(c)
    ensures EpochsAgree(Exec(c, here, id, op, f).cell) <==> !HalfQuarantined(c, op, f)
  {
    if !op.QuarantineOp? {
      ExecEffect(c, here, id, op, f);
      EffectKeepsEpochs(c, id, op, Exec(c, here, id, op, f));
    }
  }

  lemma StoppingKeepsEpochs(c: Cell, op: Op, o: Outcome)
    requires EpochsAgree(c) && !op.QuarantineOp?
    requires Unchanged(c, op, o) || Retiring(c, op, o) || Stopping(c, op, o) || Pausing(c, op, o)
    ensures EpochsAgree(o.cell)
  {
  }

  lemma StartingKeepsEpochs(c: Cell, id: Sid, op: Op, o: Outcome)
    requires EpochsAgree(c)
    requires Loading(c, id, op, o) || Resuming(c, op, o) || Snapshotting(c, op, o) || Transferring(c, op, o)
             || Creating(c, op, o)
    ensures EpochsAgree(o.cell)
  {
  }

  lemma EffectKeepsEpochs(c: Cell, id: Sid, op: Op, o: Outcome)
    requires Effect(c, id, op, o) && EpochsAgree(c) && !op.QuarantineOp?
    ensures EpochsAgree(o.cell)
  {
    if Unchanged(c, op, o) || Retiring(c, op, o) || Stopping(c, op, o) || Pausing(c, op, o) {
      StoppingKeepsEpochs(c, op, o);
    } else {
      StartingKeepsEpochs(c, id, op, o);
    }
  }

  /** Without that route a Running record always carries exactly the highest epoch the worker
      has accepted. */
  lemma {:induction false} RunningCarriesTheAcceptedEpoch(here: Wid, id: Sid, run: seq<Happening>)
    requires forall e | e in run :: e.Request? ==> !e.op.QuarantineOp?
    ensures EpochsAgree(Play(Beginning, here, id, run).cell)
  {
    if run != [] {
      var last := run[|run| - 1];
      RunningCarriesTheAcceptedEpoch(here, id, run[..|run| - 1]);
      ProcessesNeedClaims(here, id, run[..|run| - 1]);
      var before := Play(Beginning, here, id, run[..|run| - 1]);
      assert last in run;
      match last
      case Request(op, f) => EpochsAgreeUnlessHalfQuarantined(before.cell, here, id, op, f);
      case _ =>
    }
  }

  /** Such a run: a sandbox is booted at epoch 1, and a quarantine at epoch 2 stops its VM and then
      fails to rename its directory. The record is left Running at epoch 1 of an accepted 2. */
  lemma HalfQuarantineLeavesTheEpochBehind(here: Wid, id: Sid, machine: Machine, m: Mid, f: Faults)
    requires ValidMachine(machine) && f.persist.NoFault? && f.stage.NoStageFails? && !f.files
    ensures var run := [Request(CreateOp(1, machine, true), f), Request(QuarantineOp(2, m), f)];
            var c := Play(Beginning, here, id, run).cell;
            && !EpochsAgree(c) && c.accepted == 2 && c.record.Some? && c.record.value.epoch == 1
            && c.record.value.state.Running? && c.vm.Absent?
  {
    var run := [Request(CreateOp(1, machine, true), f), Request(QuarantineOp(2, m), f)];
    assert run[..1] == [run[0]] && run[..1][..0] == [];
    assert Play(Beginning, here, id, []) == Beginning;
    var booted := Play(Beginning, here, id, run[..1]);
    assert booted == After(Beginning, here, id, run[0]);
    assert booted.cell.accepted == 1 && booted.cell.record.Some?;
    assert Play(Beginning, here, id, run) == After(booted, here, id, run[1]);
  }

  // ---- Single use of a snapshot ----

  function ResumesOf(calls: seq<Call>, m: Mid): nat {
    if calls == [] then 0
    else ResumesOf(calls[..|calls| - 1], m) + (if calls[|calls| - 1] == ResumeCall(Some(m)) then 1 else 0)
  }

  lemma {:induction false} ResumesAdd(a: seq<Call>, b: seq<Call>, m: Mid)
    ensures ResumesOf(a + b, m) == ResumesOf(a, m) + ResumesOf(b, m)
  {
    if b == [] {
      assert a + b == a;
    } else {
      assert (a + b)[..|a + b| - 1] == a + b[..|b| - 1];
      ResumesAdd(a, b[..|b| - 1], m);
    }
  }

  lemma ExecResumesUnconsumed(c: Cell, here: Wid, id: Sid, op: Op, f: Faults, m: Mid)
    requires ProcessNeedsClaim(c)
    ensures var o := Exec(c, here, id, op, f);
            ResumesOf(o.calls, m) == if m in o.cell.consumed && m !in c.consumed then 1 else 0
    ensures c.consumed <= Exec(c, here, id, op, f).cell.consumed
  {
    ExecEffect(c, here, id, op, f);
    EffectResumesUnconsumed(c, id, op, Exec(c, here, id, op, f), m);
  }

  lemma EffectResumesUnconsumed(c: Cell, id: Sid, op: Op, o: Outcome, m: Mid)
    requires Effect(c, id, op, o)
    ensures ResumesOf(o.calls, m) == if m in o.cell.consumed && m !in c.consumed then 1 else 0
    ensures c.consumed <= o.cell.consumed
  {
    assert |o.calls| <= 1;
    if |o.calls| == 1 {
      assert o.calls[..0] == [];
    }
  }

  /** Within the life of a worker process Firecracker is asked at most once to resume the
      snapshot of a migration, even if that call fails; the set of consumed snapshots is exactly
      the set of those it was asked for. */
  lemma {:induction false} SnapshotsAreResumedOnce(start: Cell, here: Wid, id: Sid, run: seq<Happening>, m: Mid)
    requires start.consumed == {} && ProcessNeedsClaim(start) && forall e | e in run :: !e.Restart?
    ensures var life := Play(Life(start, []), here, id, run);
            ResumesOf(life.calls, m) == if m in life.cell.consumed then 1 else 0
    ensures ProcessNeedsClaim(Play(Life(start, []), here, id, run).cell)
  {
    if run != [] {
      var last := run[|run| - 1];
      SnapshotsAreResumedOnce(start, here, id, run[..|run| - 1], m);
      var before := Play(Life(start, []), here, id, run[..|run| - 1]);
      assert last in run;
      match last
      case Request(op, f) =>
        ExecResumesUnconsumed(before.cell, here, id, op, f, m);
        ExecKeepsClaim(before.cell, here, id, op, f);
        ResumesAdd(before.calls, Exec(before.cell, here, id, op, f).calls, m);
      case GuestWrite(content) =>
    }
  }

  // ---- Creation ----

  /** A create that got as far as claiming the directory and whose cleanup fails. */
  predicate CleanupFails(c: Cell, epoch: nat, machine: Machine, f: Faults) {
    Claim(c, epoch, machine, f).1 && !f.cleanup
  }

  /** A refused create leaves everything but the accepted epoch as it was, unless the removal of
      the claimed directory fails too; and the accepted epoch never drops. */
  lemma CreateIsAllOrNothing(c: Cell, epoch: nat, machine: Machine, boot: bool, f: Faults)
    requires ProcessNeedsClaim(c) && Create(c, epoch, machine, boot, f).reply.Refused?
    ensures var later := Create(c, epoch, machine, boot, f).cell;
            && (later == c.(accepted := later.accepted) <==> !CleanupFails(c, epoch, machine, f))
            && later.accepted >= c.accepted
            && (PassesChecks(c, epoch, machine, f) ==> later.accepted == epoch)
  {
  }
}
