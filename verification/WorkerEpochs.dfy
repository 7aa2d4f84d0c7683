/** A sandbox at a worker together with the epoch store that its requests write and its restarts
    read: what the store promises is what the fencing of stale requests needs. */
module WorkerEpochs {
  import opened Prelude
  import opened Artifacts
  import opened Worker
  import opened WorkerEffects
  import opened WorkerSafety
  import E = Epochs

  /** `Attempt` is an acceptance for another sandbox, or one for this sandbox whose write fails: it
      may leave its traces on disk but not in the register. */
  datatype Event =
    | Serve(op: Op, faults: Faults)
    | WriteDisk(content: Bytes)
    | Attempt(other: Sid, requested: int, fault: E.Fault)
    | RestartProcess(vmSurvives: bool)
    | LosePower(survivor: Option<E.Document>)

  datatype Joint = Joint(cell: Cell, store: E.History)

  const Start := Joint(Vacant, E.Start)

  function Step(j: Joint, here: Wid, id: Sid, e: Event): Joint {
    match e
    case Serve(op, f) =>
      var cell := Exec(j.cell, here, id, op, f).cell;
      Joint(cell, if cell.accepted == j.cell.accepted then j.store
                  else E.After(j.store, E.Request(id, op.epoch, f.persist)))
    case WriteDisk(content) => j.(cell := GuestWrites(j.cell, content))
    case Attempt(other, requested, fault) =>
      if other == id && fault.NoFault? then j
      else j.(store := E.After(j.store, E.Request(other, requested, fault)))
    case RestartProcess(vmSurvives) =>
      var store := E.After(j.store, E.ProcessRestart);
      Joint(Restarted(j.cell, E.Get(store.store.memory, id), vmSurvives), store)
    case LosePower(survivor) =>
      if survivor !in j.store.store.lossy then j
      else
        var store := E.After(j.store, E.PowerFailure(survivor));
        Joint(Restarted(j.cell, E.Get(store.store.memory, id), false), store)
  }

  function PlayJoint(here: Wid, id: Sid, run: seq<Event>): Joint {
    if run == [] then Start else Step(PlayJoint(here, id, run[..|run| - 1]), here, id, run[|run| - 1])
  }

  /** The process is restarted only when no rename is waiting to become durable. */
  ghost predicate SettledRestarts(here: Wid, id: Sid, run: seq<Event>) {
    run == []
    || (SettledRestarts(here, id, run[..|run| - 1])
        && (run[|run| - 1].RestartProcess? ==> E.Settled(PlayJoint(here, id, run[..|run| - 1]).store.store)))
  }

  /** The register holds what the worker accepted. */
  ghost predicate Tied(j: Joint, id: Sid) {
    j.cell.accepted == E.Get(j.store.store.memory, id) && E.Inv(j.store) && ProcessNeedsClaim(j.cell)
  }

  /** The accepted epoch only moves to that of the request, and only when its write succeeds. */
  predicate MovesByAccepting(c: Cell, epoch: nat, f: Faults, later: Cell) {
    later.accepted == c.accepted || (later.accepted == epoch && Accepts(c, epoch, f))
  }

  lemma GateMoves(c: Cell, epoch: nat, expected: Option<RecordState>, f: Faults)
    ensures MovesByAccepting(c, epoch, f, MutableRecord(c, epoch, expected, f).cell)
  {
  }

  lemma PausingMoves(c: Cell, here: Wid, id: Sid, op: Op, f: Faults)
    requires op.PauseMigrationOp? || op.PauseOp?
    ensures MovesByAccepting(c, op.epoch, f, Exec(c, here, id, op, f).cell)
  {
    GateMoves(c, op.epoch, None, f);
  }

  lemma LoadMoves(c: Cell, here: Wid, id: Sid, op: Op, f: Faults)
    requires op.LoadOp?
    ensures MovesByAccepting(c, op.epoch, f, Exec(c, here, id, op, f).cell)
  {
    GateMoves(c, op.epoch, Some(Booting), f);
  }

  lemma ResumeMoves(c: Cell, epoch: nat, f: Faults)
    ensures MovesByAccepting(c, epoch, f, Resume(c, epoch, f).cell)
  {
    GateMoves(c, epoch, Some(Paused), f);
  }

  lemma ResumingMoves(c: Cell, here: Wid, id: Sid, op: Op, f: Faults)
    requires op.ResumeMigrationOp? || op.ResumeOp? || op.RollbackOp?
    ensures MovesByAccepting(c, op.epoch, f, Exec(c, here, id, op, f).cell)
  {
    ResumeMoves(c, op.epoch, f);
  }

  lemma SnapshotMoves(c: Cell, here: Wid, id: Sid, op: Op, f: Faults)
    requires op.SnapshotOp? || op.SnapshotMigrationOp?
    ensures MovesByAccepting(c, op.epoch, f, Exec(c, here, id, op, f).cell)
  {
    GateMoves(c, op.epoch, Some(Paused), f);
  }

  lemma TransferMoves(c: Cell, here: Wid, id: Sid, op: Op, f: Faults)
    requires op.TransferOp?
    ensures MovesByAccepting(c, op.epoch, f, Exec(c, here, id, op, f).cell)
  {
    GateMoves(c, op.epoch, Some(Booting), f);
  }

  lemma RetiringMoves(c: Cell, here: Wid, id: Sid, op: Op, f: Faults)
    requires op.FenceOp? || op.QuarantineOp? || op.FenceAndCleanupOp?
    ensures MovesByAccepting(c, op.epoch, f, Exec(c, here, id, op, f).cell)
  {
  }

  lemma CreatingMoves(c: Cell, here: Wid, id: Sid, op: Op, f: Faults)
    requires op.CreateOp? || op.PrepareOp?
    ensures MovesByAccepting(c, op.epoch, f, Exec(c, here, id, op, f).cell)
  {
  }

  lemma RequestsMoveByAccepting(c: Cell, here: Wid, id: Sid, op: Op, f: Faults)
    ensures MovesByAccepting(c, op.epoch, f, Exec(c, here, id, op, f).cell)
  {
    if op.FenceOp? || op.QuarantineOp? || op.FenceAndCleanupOp? {
      RetiringMoves(c, here, id, op, f);
    } else if op.CreateOp? || op.PrepareOp? {
      CreatingMoves(c, here, id, op, f);
    } else if op.ProbeOp? || op.PrecopyOp? || op.VerifyOp? || op.GuestOp? {
    } else if op.SnapshotOp? || op.SnapshotMigrationOp? {
      SnapshotMoves(c, here, id, op, f);
    } else if op.TransferOp? {
      TransferMoves(c, here, id, op, f);
    } else if op.ResumeMigrationOp? || op.ResumeOp? || op.RollbackOp? {
      ResumingMoves(c, here, id, op, f);
    } else if op.LoadOp? {
      LoadMoves(c, here, id, op, f);
    } else {
      PausingMoves(c, here, id, op, f);
    }
  }

  lemma ServeKeepsTied(j: Joint, here: Wid, id: Sid, op: Op, f: Faults)
    requires Tied(j, id)
    ensures var later := Step(j, here, id, Serve(op, f));
            Tied(later, id) && j.cell.accepted <= later.cell.accepted
  {
    RequestsMoveByAccepting(j.cell, here, id, op, f);
    ExecKeepsClaim(j.cell, here, id, op, f);
    var later := Step(j, here, id, Serve(op, f));
    if later.cell.accepted != j.cell.accepted {
      E.AcceptKeepsInv(j.store, id, op.epoch, f.persist);
      E.AcceptIsMonotone(j.store.store, id, op.epoch, f.persist, id);
    }
  }

  lemma AttemptKeepsTied(j: Joint, here: Wid, id: Sid, other: Sid, requested: int, fault: E.Fault)
    requires Tied(j, id)
    ensures var later := Step(j, here, id, Attempt(other, requested, fault));
            Tied(later, id) && j.cell.accepted == later.cell.accepted
  {
    E.AcceptKeepsInv(j.store, other, requested, fault);
    E.AcceptIsMonotone(j.store.store, other, requested, fault, id);
  }

  lemma StepKeepsTied(j: Joint, here: Wid, id: Sid, e: Event)
    requires Tied(j, id) && (e.RestartProcess? ==> E.Settled(j.store.store))
    ensures var later := Step(j, here, id, e);
            Tied(later, id) && j.cell.accepted <= later.cell.accepted
  {
    match e
    case Serve(op, f) => ServeKeepsTied(j, here, id, op, f);
    case WriteDisk(content) =>
    case Attempt(other, requested, fault) => AttemptKeepsTied(j, here, id, other, requested, fault);
    case RestartProcess(vmSurvives) =>
      E.HappeningKeepsInv(j.store, E.ProcessRestart);
      assert E.Dominates(E.Read(j.store.store.file), j.store.store.memory);
    case LosePower(survivor) =>
      if survivor in j.store.store.lossy {
        E.HappeningKeepsInv(j.store, E.PowerFailure(survivor));
        assert E.Dominates(E.Read(survivor), j.store.store.memory);
      }
  }

  lemma {:induction false} RunsAreTied(here: Wid, id: Sid, run: seq<Event>)
    requires SettledRestarts(here, id, run)
    ensures Tied(PlayJoint(here, id, run), id)
  {
    if run != [] {
      RunsAreTied(here, id, run[..|run| - 1]);
      StepKeepsTied(PlayJoint(here, id, run[..|run| - 1]), here, id, run[|run| - 1]);
    }
  }

  lemma {:induction false} AcceptedNeverForgotten(here: Wid, id: Sid, run: seq<Event>, i: nat)
    requires SettledRestarts(here, id, run) && i <= |run|
    ensures PlayJoint(here, id, run[..i]).cell.accepted <= PlayJoint(here, id, run).cell.accepted
  {
    if i == |run| {
      assert run[..i] == run;
    } else {
      var earlier := run[..|run| - 1];
      assert earlier[..i] == run[..i];
      AcceptedNeverForgotten(here, id, earlier, i);
      RunsAreTied(here, id, earlier);
      StepKeepsTied(PlayJoint(here, id, earlier), here, id, run[|run| - 1]);
    }
  }

  /** Over the life of a worker machine, with requests for any sandboxes, failed writes, power losses
      and restarts of a settled store: once an epoch was accepted, no request below it ever again
      changes the record or the VM or reaches Firecracker. */
  lemma StaleAcrossCrashes(here: Wid, id: Sid, run: seq<Event>, i: nat, op: Op, f: Faults)
    requires SettledRestarts(here, id, run) && i <= |run|
    requires op.epoch < PlayJoint(here, id, run[..i]).cell.accepted
    ensures var c := PlayJoint(here, id, run).cell;
            var o := Exec(c, here, id, op, f);
            o.calls == [] && o.cell.record == c.record && o.cell.vm == c.vm && o.cell.accepted == c.accepted
  {
    AcceptedNeverForgotten(here, id, run, i);
    StaleEpochsDoNothing(PlayJoint(here, id, run).cell, here, id, op, f);
  }

  /** Without the proviso it fails: the directory sync of epoch 5 fails, the restarted process accepts
      5 for a create that is undone, a power loss brings back the missing file, and a create at
      epoch 4 boots. */
  lemma UnsettledRestartLetsStaleIn(here: Wid, id: Sid, machine: Machine, undone: Faults, boots: Faults)
    requires ValidMachine(machine)
    requires undone.persist.NoFault? && undone.stage.LaunchFails? && undone.cleanup
    requires boots.persist.NoFault? && boots.stage.NoStageFails?
    ensures var run := [Attempt(id, 5, E.DirectorySyncFails), RestartProcess(false),
                        Serve(CreateOp(5, machine, true), undone), LosePower(None)];
            && PlayJoint(here, id, run[..3]).cell.accepted == 5
            && Exec(PlayJoint(here, id, run).cell, here, id, CreateOp(4, machine, true), boots).cell.vm.Executing?
  {
    var run := [Attempt(id, 5, E.DirectorySyncFails), RestartProcess(false),
                Serve(CreateOp(5, machine, true), undone), LosePower(None)];
    assert run[..3][..2] == run[..2] && run[..2][..1] == run[..1] && run[..1][..0] == [];
    var attempted := Step(Start, here, id, run[0]);
    assert attempted == PlayJoint(here, id, run[..1]);
    assert attempted.store.store.file == Some(map[id := 5]) && None in attempted.store.store.lossy;
    var restarted := Step(attempted, here, id, run[1]);
    assert restarted == PlayJoint(here, id, run[..2]);
    assert restarted.cell == Vacant.(accepted := 5);
    var served := Step(restarted, here, id, run[2]);
    assert served == PlayJoint(here, id, run[..3]);
    assert served.cell == Vacant.(accepted := 5) && None in served.store.store.lossy;
    assert PlayJoint(here, id, run) == Step(served, here, id, run[3]);
    assert PlayJoint(here, id, run).cell == Vacant;
  }
}
