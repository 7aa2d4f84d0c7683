/** What the migration protocol promises in every run: one VM at a time, started only by who may
    start it, and every snapshot resumed at most once. */
module ProtocolPromises {
  import opened Prelude
  import opened Artifacts
  import P = Phases
  import C = Coordinator
  import CI = CoordinatorInvariants
  import CP = CoordinatorProofs
  import W = Worker
  import WE = WorkerEffects
  import opened Protocol
  import opened ProtocolSafety
  import PP = ProtocolProofs

  // ---- One VM at a time ----

  /** In every run, over any number of workers and any chain of migrations, with lost calls, lost
      replies and crashes of runners and workers, whatever epochs a restarted worker reloads, at most
      one worker executes a sandbox's VM. */
  lemma AtMostOneVm(sys: System, s: Sid, v: Wid, w: Wid)
    requires Reachable(sys) && Executes(sys, v, s) && Executes(sys, w, s)
    ensures v == w
  {
    PP.ReachableInv(sys);
    assert SandboxInv(sys, s);
  }

  /** The VM that executes is the one the coordinator's rows name: the source until the resume is
      recorded, the destination from then on, and the sandbox's worker when none is active. */
  lemma TheRowsNameTheVm(sys: System, s: Sid, w: Wid)
    requires Reachable(sys) && Executes(sys, w, s)
    ensures s in sys.db.sandboxes
    ensures match sys.db.sandboxes[s].active
            case Some(m) =>
              && m in sys.db.migrations
              && var row := sys.db.migrations[m];
                 w == (if row.resumeIssued then row.destination else row.source)
            case None => sys.db.sandboxes[s].state.SandboxOrphaned? || w == sys.db.sandboxes[s].worker
  {
    PP.ReachableInv(sys);
    assert SandboxInv(sys, s);
    if s in sys.db.sandboxes && sys.db.sandboxes[s].active.Some? {
      assert CI.GoodSandbox(sys.db, s);
      CI.IssuedMeansAfterResume(sys.db, sys.db.sandboxes[s].active.value);
    }
  }

  // ---- Who may start a VM ----

  /** The three ways a VM comes to execute: the first boot, a rollback of a source whose resume
      was never recorded, and the resume of a destination whose resume was. */
  predicate Authorised(sys: System, step: Step, w: Wid, s: Sid) {
    match step
    case BootCall(t, _) =>
      && t == s && s in sys.db.sandboxes && w == sys.db.sandboxes[s].worker
      && sys.db.sandboxes[s].state.SandboxBooting?
    case Call(m, _, _) =>
      && m in sys.db.migrations
      && var row := sys.db.migrations[m];
      && row.sandbox == s
      && if row.resumeIssued
         then w == row.destination && row.phase.Resuming? && row.consumed
         else w == row.source && row.phase.RollingBackSource?
    case _ => false
  }

  lemma OnlyTheAuthorisedStart(sys: System, step: Step, w: Wid, s: Sid)
    requires Reachable(sys) && !Executes(sys, w, s) && Executes(Take(sys, step), w, s)
    ensures Authorised(sys, step, w, s)
  {
    PP.ReachableInv(sys);
    match step
    case Call(m, f, fate) =>
      if MayCall(sys, m) {
        var row := sys.db.migrations[m];
        match CallOf(m, row, sys.db.sandboxes[row.sandbox].machine)
        case NoCall =>
        case CallTo(v, op) => OnlyTheAuthorisedCall(sys, m, v, op, f, w, s);
      }
    case GuestRequest(v, t, epoch, f) =>
      assert CellInv(CellAt(sys, v, t));
      GuestRequestIsHarmless(CellAt(sys, v, t), v, t, epoch, f);
    case _ =>
  }

  lemma OnlyTheAuthorisedCall(sys: System, m: Mid, v: Wid, op: W.Op, f: W.Faults, w: Wid, s: Sid)
    requires Inv(sys) && MayCall(sys, m)
    requires var row := sys.db.migrations[m];
             && CallOf(m, row, sys.db.sandboxes[row.sandbox].machine) == CallTo(v, op)
             && !Executes(sys, w, s) && Executes(At(sys, v, row.sandbox, op, f).0, w, s)
    ensures var row := sys.db.migrations[m];
            && row.sandbox == s && w == v
            && if row.resumeIssued
               then w == row.destination && row.phase.Resuming? && row.consumed
               else w == row.source && row.phase.RollingBackSource?
  {
    assert CI.GoodMigration(sys.db, m);
    CI.IssuedMeansAfterResume(sys.db, m);
    var row := sys.db.migrations[m];
    var c := CellAt(sys, v, row.sandbox);
    assert CellInv(c);
    OpEffects(c, v, row.sandbox, op, f);
    assert w == v && s == row.sandbox;
    assert W.Exec(c, v, row.sandbox, op, f).cell.vm.Executing?;
    StartingCalls(m, row, sys.db.sandboxes[row.sandbox].machine, v, op);
  }

  lemma StartingCalls(m: Mid, row: C.MigrationRow, machine: Machine, w: Wid, op: W.Op)
    requires CallOf(m, row, machine) == CallTo(w, op) && MayStart(op)
    ensures (row.phase.Resuming? && w == row.destination && op.ResumeMigrationOp?)
            || (row.phase.RollingBackSource? && w == row.source && op.RollbackOp?)
  {
  }

  // ---- Snapshots are resumed once ----

  ghost predicate ResumesInv(sys: System) {
    && (forall i, j | 0 <= i < j < |sys.resumes| :: sys.resumes[i] != sys.resumes[j])
    && forall m | m in sys.resumes ::
         && m in sys.db.migrations && sys.db.migrations[m].resumeIssued
         && !RunnerOf(sys, m).ResumeDue?
  }

  lemma ResumeLoads(c: W.Cell, s: Sid, op: W.Op, o: W.Outcome, m: Mid)
    requires WE.Effect(c, s, op, o)
    ensures !op.ResumeMigrationOp? && !op.ResumeOp? ==> ResumedSnapshots(o.calls) == []
    ensures op.ResumeMigrationOp? && PausedIsLoaded(c, m)
            ==> ResumedSnapshots(o.calls) == [] || ResumedSnapshots(o.calls) == [m]
  {
    assert |o.calls| <= 1;
    if |o.calls| == 1 {
      assert o.calls[..0] == [];
    }
  }

  /** What a step adds to the snapshots that were resumed. */
  lemma StepResumes(sys: System, step: Step)
    requires Inv(sys)
    ensures var later := Take(sys, step);
            || later.resumes == sys.resumes
            || (&& step.Call? && later.resumes == sys.resumes + [step.m]
                && step.m in sys.db.migrations && sys.db.migrations[step.m].phase.Resuming?
                && RunnerOf(sys, step.m).ResumeDue? && !RunnerOf(later, step.m).ResumeDue?)
  {
    match step
    case Call(m, f, fate) =>
      if MayCall(sys, m) {
        var row := sys.db.migrations[m];
        match CallOf(m, row, sys.db.sandboxes[row.sandbox].machine)
        case NoCall =>
        case CallTo(w, op) => CallResumes(sys, m, w, op, f);
      }
    case GuestRequest(w, s, epoch, f) =>
      assert CellInv(CellAt(sys, w, s));
      GuestRequestIsHarmless(CellAt(sys, w, s), w, s, epoch, f);
    case BootCall(s, f) =>
      if s in sys.db.sandboxes && sys.db.sandboxes[s].state.SandboxBooting? {
        var row := sys.db.sandboxes[s];
        BootResumes(CellAt(sys, row.worker, s), row.worker, s, W.CreateOp(row.epoch, row.machine, true), f);
      }
    case _ =>
  }

  lemma CallResumes(sys: System, m: Mid, w: Wid, op: W.Op, f: W.Faults)
    requires Inv(sys) && MayCall(sys, m)
    requires var row := sys.db.migrations[m];
             CallOf(m, row, sys.db.sandboxes[row.sandbox].machine) == CallTo(w, op)
    ensures var row := sys.db.migrations[m];
            var resumed := ResumedSnapshots(W.Exec(CellAt(sys, w, row.sandbox), w, row.sandbox, op, f).calls);
            resumed == [] || (resumed == [m] && row.phase.Resuming?)
  {
    var row := sys.db.migrations[m];
    var c := CellAt(sys, w, row.sandbox);
    PP.ActivePhaseInv(sys, m);
    assert CellInv(c);
    WE.ExecEffect(c, w, row.sandbox, op, f);
    ResumeLoads(c, row.sandbox, op, W.Exec(c, w, row.sandbox, op, f), m);
    if MayStart(op) {
      StartingCalls(m, row, sys.db.sandboxes[row.sandbox].machine, w, op);
    }
  }

  lemma BootResumes(c: W.Cell, w: Wid, s: Sid, op: W.Op, f: W.Faults)
    requires op.CreateOp? && WE.ProcessNeedsClaim(c)
    ensures ResumedSnapshots(W.Exec(c, w, s, op, f).calls) == []
  {
    WE.ExecEffect(c, w, s, op, f);
    ResumeLoads(c, s, op, W.Exec(c, w, s, op, f), 0);
  }

  /** Rows that recorded a resume keep it, and only a new record makes a runner due to resume. */
  ghost predicate IssuesKept(sys: System, later: System, m: Mid) {
    && (m in sys.db.migrations && sys.db.migrations[m].resumeIssued
        ==> m in later.db.migrations && later.db.migrations[m].resumeIssued)
    && (RunnerOf(later, m).ResumeDue? && !RunnerOf(sys, m).ResumeDue?
        ==> m in sys.db.migrations && !sys.db.migrations[m].resumeIssued)
  }

  lemma StepIssues(sys: System, step: Step, m: Mid)
    requires Inv(sys)
    ensures IssuesKept(sys, Take(sys, step), m)
  {
    match step
    case Api(s) => if FromApi(s) { RecordedResumesStay(sys.db, s, m); }
    case CommitAcknowledged(n, bytes) => CommitIssues(sys, n, bytes, m);
    case RecoverFailed(n) => RecoverIssues(sys, n, m);
    case Call(n, f, fate) => CallIssues(sys, n, f, fate, m);
    case _ =>
  }

  lemma CallIssues(sys: System, n: Mid, f: W.Faults, fate: Fate, m: Mid)
    ensures IssuesKept(sys, Issue(sys, n, f, fate), m)
  {
  }

  lemma RecoverIssues(sys: System, n: Mid, m: Mid)
    ensures IssuesKept(sys, Recover(sys, n), m)
  {
    if MayRecover(sys, n) {
      RecordedResumesStay(sys.db, RecoveryStep(n, sys.db.migrations[n]), m);
    }
  }

  lemma RecordedResumesStay(db: C.Db, step: CI.Step, m: Mid)
    ensures m in db.migrations && db.migrations[m].resumeIssued
            ==> m in CI.Apply(db, step).migrations && CI.Apply(db, step).migrations[m].resumeIssued
  {
  }

  lemma CommitIssues(sys: System, n: Mid, bytes: Option<nat>, m: Mid)
    requires Inv(sys)
    ensures IssuesKept(sys, Commit(sys, n, bytes), m)
  {
    if n in sys.db.migrations && RunnerOf(sys, n).Acknowledged? {
      var step := CommitStep(n, sys.db.migrations[n], RunnerOf(sys, n).manifest, bytes);
      RecordedResumesStay(sys.db, step, m);
      assert CI.GoodMigration(sys.db, n);
      CI.IssuedMeansAfterResume(sys.db, n);
    }
  }

  lemma StepKeepsResumes(sys: System, step: Step)
    requires Inv(sys) && ResumesInv(sys)
    ensures ResumesInv(Take(sys, step))
  {
    var later := Take(sys, step);
    StepResumes(sys, step);
    forall m | m in later.resumes
      ensures m in later.db.migrations && later.db.migrations[m].resumeIssued && !RunnerOf(later, m).ResumeDue?
    {
      StepIssues(sys, step, m);
      if m !in sys.resumes {
        assert CI.GoodMigration(sys.db, m);
        CI.IssuedMeansAfterResume(sys.db, m);
      }
    }
  }

  lemma {:induction false} RunKeepsResumes(steps: seq<Step>)
    ensures ResumesInv(Run(steps))
  {
    if steps != [] {
      PP.RunKeepsInv(steps[..|steps| - 1]);
      RunKeepsResumes(steps[..|steps| - 1]);
      StepKeepsResumes(Run(steps[..|steps| - 1]), steps[|steps| - 1]);
    }
  }

  /** Over all workers, with any crashes of workers and runners, Firecracker is asked at most once
      to resume the snapshot of a migration, and only after that migration recorded it. */
  lemma EachSnapshotIsResumedAtMostOnce(sys: System)
    requires Reachable(sys)
    ensures forall i, j | 0 <= i < j < |sys.resumes| :: sys.resumes[i] != sys.resumes[j]
    ensures forall m | m in sys.resumes ::
              m in sys.db.migrations && sys.db.migrations[m].resumeIssued && sys.db.migrations[m].consumed
  {
    PP.ReachableInv(sys);
    var steps :| Run(steps) == sys;
    RunKeepsResumes(steps);
    forall m | m in sys.resumes ensures sys.db.migrations[m].consumed {
      assert CI.GoodMigration(sys.db, m);
    }
  }

  /** A resume asked for in a step is that of the active migration's own snapshot, at its
      destination, in RESUMING, and it was never asked for before. */
  lemma AResumeIsTheActiveMigrations(sys: System, step: Step)
    requires Reachable(sys) && Take(sys, step).resumes != sys.resumes
    ensures step.Call? && Take(sys, step).resumes == sys.resumes + [step.m] && step.m !in sys.resumes
    ensures step.m in sys.db.migrations
    ensures var row := sys.db.migrations[step.m];
            && row.phase.Resuming? && row.sandbox in sys.db.sandboxes
            && sys.db.sandboxes[row.sandbox].active == Some(step.m)
  {
    PP.ReachableInv(sys);
    StepResumes(sys, step);
    var steps :| Run(steps) == sys;
    RunKeepsResumes(steps);
    assert CI.GoodMigration(sys.db, step.m);
  }
}
