/** A VM that came from a migration cannot be resumed once it is paused again: its snapshot counts as
    consumed for ever. So the next migration of its sandbox can go forward, but never back. */
module WorkerStranded {
  import opened Prelude
  import opened Artifacts
  import opened Worker
  import opened WorkerEffects
  import opened WorkerSafety
  import opened WorkerLaws
  import WD = WorkerDisk
  import E = Epochs

  /** The record was loaded from a snapshot whose resume was asked for, and its VM is stopped. */
  predicate Stranded(c: Cell) {
    && c.record.Some? && c.record.value.loaded.Some? && c.record.value.loaded.value in c.consumed
    && !c.record.value.state.Running? && !c.record.value.state.Booting? && !c.vm.Executing?
  }

  lemma EffectKeepsStranded(c: Cell, id: Sid, op: Op, o: Outcome)
    requires Effect(c, id, op, o) && Stranded(c)
    ensures Stranded(o.cell) && forall call | call in o.calls :: !call.ResumeCall?
  {
  }

  /** A pause of a VM that came from a migration strands it, whoever asked for the pause. */
  lemma PausingStrands(c: Cell, here: Wid, id: Sid, op: Op, f: Faults)
    requires op.PauseOp? || op.PauseMigrationOp?
    requires c.record.Some? && c.record.value.state.Running?
    requires c.record.value.loaded.Some? && c.record.value.loaded.value in c.consumed
    ensures !Exec(c, here, id, op, f).reply.Refused? ==> Stranded(Exec(c, here, id, op, f).cell)
  {
    AnAnswerMeansItIsDone(c, here, id, op, f);
  }

  /** And nothing brings it back: no request with any epoch lets it execute again, as long as the
      process keeps the record; every resume and every rollback is refused. */
  lemma {:induction false} StrandedForGood(here: Wid, id: Sid, past: seq<Happening>, future: seq<Happening>, op: Op, f: Faults)
    requires Stranded(Play(Beginning, here, id, past).cell)
    requires forall e | e in future :: !e.Restart?
    ensures var c := Play(Play(Beginning, here, id, past), here, id, future).cell;
            && Stranded(c) && ProcessNeedsClaim(c)
            && (op.ResumeOp? || op.ResumeMigrationOp? || op.RollbackOp? ==> Exec(c, here, id, op, f).reply.Refused?)
  {
    if future == [] {
      ProcessesNeedClaims(here, id, past);
    } else {
      var last := future[|future| - 1];
      StrandedForGood(here, id, past, future[..|future| - 1], op, f);
      var before := Play(Play(Beginning, here, id, past), here, id, future[..|future| - 1]);
      assert last in future;
      match last
      case Request(request, faults) =>
        ExecEffect(before.cell, here, id, request, faults);
        EffectKeepsStranded(before.cell, id, request, Exec(before.cell, here, id, request, faults));
        ExecKeepsClaim(before.cell, here, id, request, faults);
      case GuestWrite(content) =>
    }
    StrandedRefuses(Play(Play(Beginning, here, id, past), here, id, future).cell, here, id, op, f);
  }

  lemma StrandedRefuses(c: Cell, here: Wid, id: Sid, op: Op, f: Faults)
    requires Stranded(c)
    ensures op.ResumeOp? || op.ResumeMigrationOp? || op.RollbackOp? ==> Exec(c, here, id, op, f).reply.Refused?
  {
    AnsweredExactlyIfAnswerable(c, here, id, op, f);
  }

  // ---- Such a run ----

  function MigratedAndPaused(a: Manifest, f: Faults): seq<Happening> {
    var epoch := a.sourceEpoch + 1;
    [Request(CreateOp(epoch, a.machine, false), f), Request(TransferOp(epoch, a.migrationId, a), f),
     Request(LoadOp(epoch, a), f), Request(ResumeMigrationOp(epoch), f), Request(PauseMigrationOp(epoch), f)]
  }

  /** A sandbox arrives, runs, and is paused to be migrated on, and nothing fails: now a rollback is
      refused, with any epoch and any luck. */
  lemma AMigratedSandboxIsNotRolledBack(here: Wid, id: Sid, a: Manifest, state: Bytes, memory: Bytes, disk: Bytes, f: Faults,
                                        epoch: nat, repairClock: bool, g: Faults)
    requires ValidMachine(a.machine) && a.sandboxId == id && a.sourceEpoch < E.MaxSafeInteger
    requires WD.Works(f) && f.bytes == WD.Three(state, memory, disk) && f.unsynced == {}
    requires a.artifacts == DescribeAll(f.bytes)
    ensures var c := Play(Beginning, here, id, MigratedAndPaused(a, f)).cell;
            && c.accepted == a.sourceEpoch + 1 && c.record.Some? && c.record.value.state.Paused? && c.vm.Halted?
            && Stranded(c)
            && Exec(c, here, id, RollbackOp(epoch, repairClock), g).reply.Refused?
  {
    var run := MigratedAndPaused(a, f);
    WD.FirstIsPulled(here, id, a, state, memory, disk, f);
    assert run[..2] == [run[0], run[1]];
    Arrives(Play(Beginning, here, id, run[..2]).cell, here, id, a, f);
    LastThree(here, id, run);
    StrandedRefuses(Play(Beginning, here, id, run).cell, here, id, RollbackOp(epoch, repairClock), g);
  }

  lemma LastThree(here: Wid, id: Sid, run: seq<Happening>)
    requires |run| == 5 && run[2].Request? && run[3].Request? && run[4].Request?
    ensures var two := Play(Beginning, here, id, run[..2]).cell;
            var three := Exec(two, here, id, run[2].op, run[2].faults).cell;
            var four := Exec(three, here, id, run[3].op, run[3].faults).cell;
            Play(Beginning, here, id, run).cell == Exec(four, here, id, run[4].op, run[4].faults).cell
  {
    assert run[..3][..2] == run[..2] && run[..4][..3] == run[..3] && run[..5][..4] == run[..4] && run[..5] == run;
    assert Play(Beginning, here, id, run[..3]) == After(Play(Beginning, here, id, run[..2]), here, id, run[2]);
    assert Play(Beginning, here, id, run[..4]) == After(Play(Beginning, here, id, run[..3]), here, id, run[3]);
    assert Play(Beginning, here, id, run) == After(Play(Beginning, here, id, run[..4]), here, id, run[4]);
  }

  lemma Arrives(c: Cell, here: Wid, id: Sid, a: Manifest, f: Faults)
    requires WD.Works(f) && a.sandboxId == id && a.sourceEpoch < E.MaxSafeInteger
    requires c.record.Some? && c.accepted == c.record.value.epoch == a.sourceEpoch + 1 && c.consumed == {}
    requires c.record.value.state.Booting? && c.record.value.machine == a.machine && c.record.value.loaded.None?
    requires c.vm.Unbooted? && AllRegistered(c.record.value, a)
    ensures var epoch := a.sourceEpoch + 1;
            var loaded := Exec(c, here, id, LoadOp(epoch, a), f).cell;
            var resumed := Exec(loaded, here, id, ResumeMigrationOp(epoch), f).cell;
            var paused := Exec(resumed, here, id, PauseMigrationOp(epoch), f).cell;
            paused == c.(consumed := {a.migrationId}, vm := Halted,
                         record := Some(c.record.value.(loaded := Some(a.migrationId), state := Paused)))
  {
    var epoch := a.sourceEpoch + 1;
    IsDone(c, here, id, LoadOp(epoch, a), f);
    var loaded := Exec(c, here, id, LoadOp(epoch, a), f).cell;
    IsDone(loaded, here, id, ResumeMigrationOp(epoch), f);
    var resumed := Exec(loaded, here, id, ResumeMigrationOp(epoch), f).cell;
    IsDone(resumed, here, id, PauseMigrationOp(epoch), f);
  }

  lemma IsDone(c: Cell, here: Wid, id: Sid, op: Op, f: Faults)
    requires Answerable(c, here, id, op, f)
    ensures Leaves(c, id, op, f, Exec(c, here, id, op, f))
  {
    AnsweredExactlyIfAnswerable(c, here, id, op, f);
    AnAnswerMeansItIsDone(c, here, id, op, f);
  }
}
