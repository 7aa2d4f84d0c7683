/** What becomes of a migration that fails: which way it is recovered from each phase, that a rollback
    returns the VM to its source, and when it does not. */
module ProtocolRollback {
  import opened Prelude
  import opened Artifacts
  import P = Phases
  import C = Coordinator
  import CI = CoordinatorInvariants
  import CP = CoordinatorProofs
  import W = Worker
  import WL = WorkerLaws
  import E = Epochs
  import opened Protocol
  import opened ProtocolSafety
  import PP = ProtocolProofs
  import PR = ProtocolProgress

  /** How a migration that fails in this phase goes on. */
  function AfterFailure(p: P.Phase): P.Phase {
    match p
    case Pausing => P.RollingBackSource
    case Snapshotting => P.RollingBackSource
    case Transferring => P.RollingBackSource
    case Loading => P.RollingBackSource
    case Resuming => P.OrphanedAmbiguous
    case Verifying => P.OrphanedAmbiguous
    case Cutover => P.OrphanedAmbiguous
    case Cleanup => P.OrphanedAmbiguous
    case _ => P.Failed
  }

  function StateAfterFailure(p: P.Phase): C.SandboxState {
    if AfterFailure(p).RollingBackSource? then C.SandboxMigrating
    else if AfterFailure(p).OrphanedAmbiguous? then C.SandboxOrphaned else C.SandboxRunning
  }

  /** The migration is in this phase, its sandbox in this state at the same worker and epoch. */
  ghost predicate Written(db: C.Db, later: C.Db, m: Mid, next: P.Phase, state: C.SandboxState)
    requires m in db.migrations
  {
    var row := db.migrations[m];
    && m in later.migrations && row.sandbox in db.sandboxes && row.sandbox in later.sandboxes
    && later.migrations[m] == row.(phase := next, error := later.migrations[m].error)
    && later.sandboxes[row.sandbox]
       == db.sandboxes[row.sandbox].(state := state, active := if P.Terminal(next) then None else Some(m))
  }

  lemma TransitionWrites(db: C.Db, m: Mid, next: P.Phase, attrs: C.Attrs)
    requires m in db.migrations && db.migrations[m].sandbox in db.sandboxes
    requires P.CanMove(db.migrations[m].phase, next) && attrs.bytes.None? && attrs.manifest.None?
    requires db.sandboxes[db.migrations[m].sandbox].active == Some(m)
    ensures C.Transition(db, m, next, attrs).Ok?
    ensures Written(db, C.Transition(db, m, next, attrs).value, m, next,
                    if next.OrphanedAmbiguous? then C.SandboxOrphaned
                    else if P.Terminal(next) then C.SandboxRunning else db.sandboxes[db.migrations[m].sandbox].state)
    ensures attrs.error.Some? ==> C.Transition(db, m, next, attrs).value.migrations[m].error == attrs.error
  {
  }

  // ---- Failures ----

  lemma FailureStep(db: C.Db, m: Mid, row: C.MigrationRow)
    requires m in db.migrations && db.migrations[m] == row && !P.Terminal(row.phase)
    requires row.resumeIssued == P.AfterResume(row.phase) && row.sandbox in db.sandboxes
    requires db.sandboxes[row.sandbox].active == Some(m) && db.sandboxes[row.sandbox].state == CI.ActiveState(row.phase)
    ensures var later := CI.Apply(db, RecoveryStep(m, row));
            && Written(db, later, m, AfterFailure(row.phase), StateAfterFailure(row.phase))
            && later.migrations[m].error.Some?
  {
    var failure := C.Attrs(None, None, Some("failed"));
    if AfterFailure(row.phase).RollingBackSource? {
      TransitionWrites(db, m, P.RollingBackSource, failure);
    } else {
      TransitionWrites(db, m, AfterFailure(row.phase), failure);
    }
  }

  /** Every failure of an unfinished migration is recorded, in one way for each phase, and without a
      call to a worker. */
  lemma EveryFailureIsRecovered(sys: System, m: Mid)
    requires Inv(sys) && MayRecover(sys, m) && !P.Terminal(sys.db.migrations[m].phase)
    ensures var p := sys.db.migrations[m].phase; var later := Recover(sys, m);
            && Inv(later) && later.cells == sys.cells && RunnerOf(later, m).Idle?
            && Written(sys.db, later.db, m, AfterFailure(p), StateAfterFailure(p))
            && later.db.migrations[m].error.Some?
  {
    PP.RecoverKeepsInv(sys, m);
    CP.RunningFacts(sys.db, m);
    FailureStep(sys.db, m, sys.db.migrations[m]);
  }

  // ---- Rollback ----

  /** The source as the phases before the resume leave it: paused, or not paused yet. */
  predicate AtTheSource(row: C.MigrationRow, c: W.Cell) {
    && c.record.Some? && c.accepted == c.record.value.epoch == row.epochBefore <= E.MaxSafeInteger
    && if c.record.value.state.Paused? then c.vm.Halted? else c.record.value.state.Running? && c.vm.Executing?
  }

  /** The migration is rolled back, the sandbox is free again, and its VM executes at the source and
      nowhere else, at the epoch it had. */
  ghost predicate Returned(sys: System, end: System, m: Mid)
    requires m in sys.db.migrations
  {
    var row := sys.db.migrations[m];
    var c, later := CellAt(sys, row.source, row.sandbox), CellAt(end, row.source, row.sandbox);
    && Written(sys.db, end.db, m, P.RolledBack, C.SandboxRunning)
    && end.db.sandboxes[row.sandbox].worker == row.source && end.db.sandboxes[row.sandbox].epoch == row.epochBefore
    && c.record.Some? && later.record == Some(c.record.value.(state := W.Running))
    && Executes(end, row.source, row.sandbox) && OnlyAt(end, row.sandbox, row.source)
  }

  /** The rollback was refused: the source is as it was, and the next recovery ends in FAILED, with
      a sandbox that is said to run. */
  ghost predicate GivenUp(sys: System, end: System, m: Mid)
    requires m in sys.db.migrations
  {
    var row := sys.db.migrations[m];
    && CellAt(end, row.source, row.sandbox) == CellAt(sys, row.source, row.sandbox)
    && MayRecover(end, m)
    && var failed := Recover(end, m);
    && failed.cells == end.cells && Written(sys.db, failed.db, m, P.Failed, C.SandboxRunning)
    && OnlyAt(failed, row.sandbox, row.source)
    && (CellAt(sys, row.source, row.sandbox).vm.Halted? ==> forall w :: !Executes(failed, w, row.sandbox))
  }

  lemma RollbackIsAnswered(row: C.MigrationRow, c: W.Cell, here: Wid, s: Sid, f: W.Faults)
    requires AtTheSource(row, c) && f.firecracker.Works? && f.guest
    ensures var o := W.Exec(c, here, s, W.RollbackOp(row.epochBefore, true), f);
            if c.record.value.loaded.None? then
              && o.reply.Done? && o.cell == c.(vm := W.Executing, record := Some(c.record.value.(state := W.Running)))
              && o.calls == if c.record.value.state.Paused? then [W.ResumeCall(None)] else []
            else o == W.Outcome(c, W.Refused, [])
  {
    var op := W.RollbackOp(row.epochBefore, true);
    WL.AnsweredExactlyIfAnswerable(c, here, s, op, f);
    WL.AnAnswerMeansItIsDone(c, here, s, op, f);
  }

  lemma RollbackCall(mid: System, m: Mid, f: W.Faults)
    requires MayCall(mid, m) && mid.db.migrations[m].phase.RollingBackSource?
    requires f.firecracker.Works? && f.guest
    requires var row := mid.db.migrations[m]; AtTheSource(row, CellAt(mid, row.source, row.sandbox))
    ensures var row := mid.db.migrations[m]; var called := Issue(mid, m, f, Answered);
            var c, later := CellAt(mid, row.source, row.sandbox), CellAt(called, row.source, row.sandbox);
            && called.db == mid.db
            && if c.record.value.loaded.None? then
                 && RunnerOf(called, m) == Acknowledged(None)
                 && later == c.(vm := W.Executing, record := Some(c.record.value.(state := W.Running)))
               else RunnerOf(called, m).Errored? && later == c
  {
    var row := mid.db.migrations[m];
    RollbackIsAnswered(row, CellAt(mid, row.source, row.sandbox), row.source, row.sandbox, f);
  }

  lemma RollbackCommits(called: System, m: Mid)
    requires Inv(called) && m in called.db.migrations && called.db.migrations[m].phase.RollingBackSource?
    requires RunnerOf(called, m) == Acknowledged(None)
    ensures var end := Commit(called, m, None);
            && Inv(end) && end.cells == called.cells && Written(called.db, end.db, m, P.RolledBack, C.SandboxRunning)
  {
    PP.CommitKeepsInv(called, m, None);
    CP.RunningFacts(called.db, m);
    TransitionWrites(called.db, m, P.RolledBack, C.NoAttrs);
  }

  /** A migration that fails between PAUSING and LOADING gives the VM back to its source in one
      answered call, exactly if the source itself did not come from a migration. A source that did
      refuses, stays halted if it was paused, and nobody executes the VM of a sandbox that is said
      to run. */
  lemma ARollbackReturnsTheVm(sys: System, m: Mid, f: W.Faults)
    requires Inv(sys) && MayRecover(sys, m) && P.RollbackPhase(sys.db.migrations[m].phase)
    requires f.firecracker.Works? && f.guest
    requires var row := sys.db.migrations[m]; AtTheSource(row, CellAt(sys, row.source, row.sandbox))
    ensures var row := sys.db.migrations[m]; var end := PR.Round(Recover(sys, m), m, f);
            if CellAt(sys, row.source, row.sandbox).record.value.loaded.None? then Returned(sys, end, m)
            else GivenUp(sys, end, m)
  {
    var row := sys.db.migrations[m];
    EveryFailureIsRecovered(sys, m);
    CP.RunningFacts(sys.db, m);
    var mid := Recover(sys, m);
    RollbackCall(mid, m, f);
    PP.IssueKeepsInv(mid, m, f, Answered);
    var called := Issue(mid, m, f, Answered);
    if RunnerOf(called, m).Acknowledged? {
      RollbackCommits(called, m);
      ReturnedAtLast(sys, mid, Commit(called, m, None), m);
    } else {
      assert Commit(called, m, None) == called;
      GivenUpAtLast(sys, mid, called, m);
    }
  }

  lemma ReturnedAtLast(sys: System, mid: System, end: System, m: Mid)
    requires Inv(sys) && Inv(end) && m in sys.db.migrations && P.RollbackPhase(sys.db.migrations[m].phase)
    requires Written(sys.db, mid.db, m, P.RollingBackSource, C.SandboxMigrating)
    requires m in mid.db.migrations && Written(mid.db, end.db, m, P.RolledBack, C.SandboxRunning)
    requires var row := sys.db.migrations[m];
             var c, later := CellAt(sys, row.source, row.sandbox), CellAt(end, row.source, row.sandbox);
             c.record.Some? && later.record == Some(c.record.value.(state := W.Running)) && later.vm.Executing?
    ensures Returned(sys, end, m)
  {
    var row := sys.db.migrations[m];
    CP.RunningFacts(sys.db, m);
    assert SandboxInv(end, row.sandbox);
  }

  lemma GivenUpAtLast(sys: System, mid: System, end: System, m: Mid)
    requires Inv(sys) && Inv(end) && m in sys.db.migrations && P.RollbackPhase(sys.db.migrations[m].phase)
    requires Written(sys.db, mid.db, m, P.RollingBackSource, C.SandboxMigrating) && mid.db == end.db
    requires RunnerOf(end, m).Errored?
    requires var row := sys.db.migrations[m];
             CellAt(end, row.source, row.sandbox) == CellAt(sys, row.source, row.sandbox)
    ensures GivenUp(sys, end, m)
  {
    var row := sys.db.migrations[m];
    CP.RunningFacts(sys.db, m);
    EveryFailureIsRecovered(end, m);
    assert SandboxInv(Recover(end, m), row.sandbox);
  }

  /** A migration that went well until its call in such a phase was lost is rolled back. */
  lemma ALostCallIsRolledBack(sys: System, m: Mid, f: W.Faults)
    requires PR.Smooth(f) && PR.Underway(sys, m, f) && P.RollbackPhase(sys.db.migrations[m].phase)
    requires var row := sys.db.migrations[m]; CellAt(sys, row.source, row.sandbox).record.value.loaded.None?
    ensures var lost := Issue(sys, m, f, LostRequest);
            Returned(sys, PR.Round(Recover(lost, m), m, f), m)
  {
    var lost := Issue(sys, m, f, LostRequest);
    PP.IssueKeepsInv(sys, m, f, LostRequest);
    assert lost.db == sys.db && lost.cells == sys.cells && RunnerOf(lost, m).Errored?;
    ARollbackReturnsTheVm(lost, m, f);
  }

  // ---- What a runner learns ----

  /** Whether the runner goes on after this reply. */
  predicate IsSuccess(p: P.Phase, reply: W.Reply) {
    match reply
    case Refused => false
    case Prepared(ready) => !p.Snapshotting? && (p.Prestaging? ==> ready)
    case Snapshotted(_) => !p.Prestaging?
    case Done => !p.Prestaging? && !p.Snapshotting?
  }

  /** A call runs once at its worker unless it is lost on the way; a runner that gets no answer, or the
      wrong one, has failed; one that crashes calls again. */
  lemma CallsAreLearnt(sys: System, m: Mid, f: W.Faults, fate: Fate, w: Wid, op: W.Op)
    requires MayCall(sys, m) && !fate.NothingExposed?
    requires var row := sys.db.migrations[m]; CallOf(m, row, sys.db.sandboxes[row.sandbox].machine) == CallTo(w, op)
    ensures var row := sys.db.migrations[m]; var later := Issue(sys, m, f, fate);
            var o := W.Exec(CellAt(sys, w, row.sandbox), w, row.sandbox, op, f);
            && later.db == sys.db
            && CellAt(later, w, row.sandbox) == (if fate.LostRequest? then CellAt(sys, w, row.sandbox) else o.cell)
            && (forall v, s | v != w || s != row.sandbox :: CellAt(later, v, s) == CellAt(sys, v, s))
            && match RunnerOf(later, m)
               case Idle => fate.RunnerCrash?
               case Errored => fate.LostRequest? || fate.LostReply? || (fate.Answered? && !IsSuccess(row.phase, o.reply))
               case Acknowledged(manifest) =>
                 && fate.Answered? && IsSuccess(row.phase, o.reply)
                 && manifest == (if row.phase.Snapshotting? then Some(o.reply.manifest) else None)
               case ResumeDue => false
  {
  }

  /** A runner that is restarted in RESUMING never calls the destination again: the migration is
      orphaned. */
  lemma ARestartInResumingOrphans(sys: System, m: Mid)
    requires Inv(sys) && m in sys.db.migrations && sys.db.migrations[m].phase.Resuming?
    ensures var restarted := Take(sys, CrashRunner(m));
            && !MayCall(restarted, m)
            && Recover(restarted, m).db.migrations.Keys >= {m}
            && Written(sys.db, Recover(restarted, m).db, m, P.OrphanedAmbiguous, C.SandboxOrphaned)
  {
    PP.TakeKeepsInv(sys, CrashRunner(m));
    EveryFailureIsRecovered(Take(sys, CrashRunner(m)), m);
  }
}
