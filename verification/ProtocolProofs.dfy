/** Every step of the system keeps the invariant of ProtocolSafety; the promises follow. */
module ProtocolProofs {
  import opened Prelude
  import opened Artifacts
  import P = Phases
  import C = Coordinator
  import CI = CoordinatorInvariants
  import CP = CoordinatorProofs
  import W = Worker
  import WE = WorkerEffects
  import WS = WorkerSafety
  import opened Protocol
  import opened ProtocolSafety

  // ---- Transactions of a runner ----

  /** The transaction `step` of migration `m` moved it to `next`. */
  ghost predicate DbMoved(db: C.Db, later: C.Db, m: Mid, next: P.Phase) {
    && m in db.migrations && m in later.migrations
    && var row := db.migrations[m]; var row' := later.migrations[m];
    && row'.phase == next && row'.sandbox == row.sandbox
    && row'.source == row.source && row'.destination == row.destination
    && row'.epochBefore == row.epochBefore && row'.epochAfter == row.epochAfter
    && row.sandbox in db.sandboxes && row.sandbox in later.sandboxes
    && var prior := db.sandboxes[row.sandbox]; var sandbox := later.sandboxes[row.sandbox];
    && prior.active == Some(m)
    && prior.worker == (if row.phase.Cleanup? then row.destination else row.source)
    && sandbox.active == (if P.Terminal(next) then None else Some(m))
    && sandbox.worker == (if next.Cleanup? then row.destination else prior.worker)
    && (P.Terminal(next) ==> sandbox.state == C.TerminalState(next))
    && (forall n | n != m :: (n in later.migrations <==> n in db.migrations)
                             && (n in db.migrations ==> later.migrations[n] == db.migrations[n]))
    && (forall s | s != row.sandbox :: (s in later.sandboxes <==> s in db.sandboxes)
                             && (s in db.sandboxes ==> later.sandboxes[s] == db.sandboxes[s]))
  }

  function MigrationOf(step: CI.Step): Mid
    requires step.AdvanceStep? || step.IssueResumeStep? || step.CutoverStep? || step.RollbackStep?
  {
    match step
    case AdvanceStep(m, _, _) => m
    case IssueResumeStep(m) => m
    case CutoverStep(m) => m
    case RollbackStep(m, _) => m
  }

  function Target(step: CI.Step): P.Phase
    requires step.AdvanceStep? || step.IssueResumeStep? || step.CutoverStep? || step.RollbackStep?
  {
    match step
    case AdvanceStep(_, next, _) => next
    case IssueResumeStep(_) => P.Resuming
    case CutoverStep(_) => P.Cleanup
    case RollbackStep(_, _) => P.RollingBackSource
  }

  predicate OfMigration(step: CI.Step) {
    step.AdvanceStep? || step.IssueResumeStep? || step.CutoverStep? || step.RollbackStep?
  }

  lemma AdvanceMoves(db: C.Db, m: Mid, next: P.Phase, attrs: C.Attrs)
    requires CI.Valid(db) && next != P.Cleanup && C.Transition(db, m, next, attrs).Ok?
    ensures var later := C.Transition(db, m, next, attrs).value;
            && DbMoved(db, later, m, next) && P.CanMove(db.migrations[m].phase, next)
            && later.migrations[m].manifest ==
                 (if attrs.manifest.Some? then attrs.manifest else db.migrations[m].manifest)
  {
    CP.RunningFacts(db, m);
  }

  lemma IssueMoves(db: C.Db, m: Mid)
    requires CI.Valid(db) && C.IssueResume(db, m).Ok?
    ensures var later := C.IssueResume(db, m).value;
            && DbMoved(db, later, m, P.Resuming) && P.CanMove(db.migrations[m].phase, P.Resuming)
            && later.migrations[m].manifest == db.migrations[m].manifest
  {
    CP.RunningFacts(db, m);
  }

  lemma CutoverMoves(db: C.Db, m: Mid)
    requires CI.Valid(db) && C.CompleteCutover(db, m).Ok?
    ensures var later := C.CompleteCutover(db, m).value;
            && DbMoved(db, later, m, P.Cleanup) && P.CanMove(db.migrations[m].phase, P.Cleanup)
            && later.migrations[m].manifest == db.migrations[m].manifest
  {
    CP.RunningFacts(db, m);
  }

  /** A transaction of a runner either fails and changes nothing or moves its migration. */
  ghost predicate TransactionOutcome(db: C.Db, later: C.Db, step: CI.Step)
    requires OfMigration(step)
  {
    var m := MigrationOf(step);
    || later == db
    || (&& DbMoved(db, later, m, Target(step)) && P.CanMove(db.migrations[m].phase, Target(step))
        && (later.migrations[m].manifest == db.migrations[m].manifest
            || (step.AdvanceStep? && later.migrations[m].manifest == step.attrs.manifest)))
  }

  lemma TransactionMoves(db: C.Db, step: CI.Step)
    requires CI.Valid(db) && OfMigration(step) && CI.Disciplined(step)
    ensures CI.Valid(CI.Apply(db, step)) && TransactionOutcome(db, CI.Apply(db, step), step)
  {
    CP.StepKeepsValid(db, step);
    match step
    case AdvanceStep(m, next, attrs) =>
      if C.Transition(db, m, next, attrs).Ok? { AdvanceMoves(db, m, next, attrs); }
    case IssueResumeStep(m) =>
      if C.IssueResume(db, m).Ok? { IssueMoves(db, m); }
    case CutoverStep(m) =>
      if C.CompleteCutover(db, m).Ok? { CutoverMoves(db, m); }
    case RollbackStep(m, reason) =>
      var attrs := C.NoAttrs.(error := Some(reason));
      if C.BeginRollback(db, m, reason).Ok? { AdvanceMoves(db, m, P.RollingBackSource, attrs); }
    case _ =>
  }

  // ---- Commit and recovery ----

  lemma MovedSandboxInv(sys: System, later: System, m: Mid, next: P.Phase)
    requires m in sys.db.migrations && PhaseInv(sys, sys.db.migrations[m].sandbox, m)
    requires DbMoved(sys.db, later.db, m, next) && P.CanMove(sys.db.migrations[m].phase, next)
    requires later.cells == sys.cells
    requires !P.Terminal(next) ==> PhaseInv(later, sys.db.migrations[m].sandbox, m)
    ensures SandboxInv(later, sys.db.migrations[m].sandbox)
  {
    var s := sys.db.migrations[m].sandbox;
    if P.Terminal(next) {
      assert forall v :: Executes(later, v, s) == Executes(sys, v, s);
    }
  }

  /** The sandboxes that the transaction is not about. */
  lemma UnmovedSandboxInv(sys: System, later: System, m: Mid, next: P.Phase, s: Sid)
    requires CI.Valid(sys.db) && SandboxInv(sys, s)
    requires DbMoved(sys.db, later.db, m, next) && later.cells == sys.cells
    requires s != sys.db.migrations[m].sandbox
    requires forall n | n != m :: RunnerOf(later, n) == RunnerOf(sys, n)
    ensures SandboxInv(later, s)
  {
    if s in sys.db.sandboxes {
      assert CI.GoodSandbox(sys.db, s);
    }
    assert SameFor(sys, later, s);
    SandboxInvFrame(sys, later, s);
  }

  /** The facts of a phase after an acknowledged step to the next one. */
  ghost predicate Committed(sys: System, later: System, m: Mid, next: P.Phase, manifest: Option<Manifest>) {
    && m in sys.db.migrations && PhaseInv(sys, sys.db.migrations[m].sandbox, m)
    && RunnerOf(sys, m) == Acknowledged(manifest)
    && DbMoved(sys.db, later.db, m, next) && P.CanMove(sys.db.migrations[m].phase, next)
    && (next == NextPhase(sys.db.migrations[m].phase) || next.Resuming? || next.Cleanup?)
    && later.cells == sys.cells
    && RunnerOf(later, m) == (if next.Resuming? then ResumeDue else Idle)
    && (later.db.migrations[m].manifest == sys.db.migrations[m].manifest
        || later.db.migrations[m].manifest == manifest)
  }

  lemma PlacesAfterCommit(sys: System, later: System, m: Mid, next: P.Phase, manifest: Option<Manifest>)
    requires Committed(sys, later, m, next, manifest)
    ensures var row := later.db.migrations[m];
            OnlyAt(later, row.sandbox, if P.AfterResume(next) then row.destination else row.source)
  {
    var s := sys.db.migrations[m].sandbox;
    assert forall v :: Executes(later, v, s) == Executes(sys, v, s);
  }

  lemma StopAfterCommit(sys: System, later: System, m: Mid, next: P.Phase, manifest: Option<Manifest>)
    requires Committed(sys, later, m, next, manifest)
    ensures var row := later.db.migrations[m];
            && (Stopped(next, RunnerOf(later, m)) ==> !Executes(later, row.source, row.sandbox))
            && OwnManifest(m, row.manifest)
  {
    var row := sys.db.migrations[m];
    assert Executes(later, row.source, row.sandbox) == Executes(sys, row.source, row.sandbox);
  }

  lemma PauseAfterCommit(sys: System, later: System, m: Mid, next: P.Phase, manifest: Option<Manifest>)
    requires Committed(sys, later, m, next, manifest)
    ensures var s := sys.db.migrations[m].sandbox; var row := later.db.migrations[m];
            && (Probed(next, RunnerOf(later, m)) ==> PausedIsHalted(CellAt(later, row.source, s)))
            && (LoadedAndWaiting(next, RunnerOf(later, m)) ==> PausedIsLoaded(CellAt(later, row.destination, s), m))
  {
    var row := sys.db.migrations[m];
    assert CellAt(later, row.source, row.sandbox) == CellAt(sys, row.source, row.sandbox);
    assert CellAt(later, row.destination, row.sandbox) == CellAt(sys, row.destination, row.sandbox);
  }

  lemma PhaseInvAfterCommit(sys: System, later: System, m: Mid, next: P.Phase, manifest: Option<Manifest>)
    requires Committed(sys, later, m, next, manifest)
    ensures PhaseInv(later, sys.db.migrations[m].sandbox, m)
  {
    PlacesAfterCommit(sys, later, m, next, manifest);
    StopAfterCommit(sys, later, m, next, manifest);
    PauseAfterCommit(sys, later, m, next, manifest);
  }

  lemma PhaseInvAfterRollback(sys: System, later: System, m: Mid)
    requires m in sys.db.migrations && PhaseInv(sys, sys.db.migrations[m].sandbox, m)
    requires DbMoved(sys.db, later.db, m, P.RollingBackSource)
    requires P.CanMove(sys.db.migrations[m].phase, P.RollingBackSource)
    requires later.cells == sys.cells && RunnerOf(later, m) == Idle
    requires later.db.migrations[m].manifest == sys.db.migrations[m].manifest
    ensures PhaseInv(later, sys.db.migrations[m].sandbox, m)
  {
    var s := sys.db.migrations[m].sandbox;
    assert forall v :: Executes(later, v, s) == Executes(sys, v, s);
  }

  /** What a runner's transaction keeps, given the facts of the phase it moves to. */
  lemma TransactionKeepsInv(sys: System, later: System, m: Mid, next: P.Phase)
    requires Inv(sys) && CI.Valid(later.db)
    requires DbMoved(sys.db, later.db, m, next) && P.CanMove(sys.db.migrations[m].phase, next)
    requires later.cells == sys.cells
    requires forall n | n != m :: RunnerOf(later, n) == RunnerOf(sys, n)
    requires !P.Terminal(next) ==> PhaseInv(later, sys.db.migrations[m].sandbox, m)
    ensures Inv(later)
  {
    var s := sys.db.migrations[m].sandbox;
    assert SandboxInv(sys, s);
    assert forall v, t :: CellAt(later, v, t) == CellAt(sys, v, t);
    forall t ensures SandboxInv(later, t) {
      assert SandboxInv(sys, t);
      if t == s {
        MovedSandboxInv(sys, later, m, next);
      } else {
        UnmovedSandboxInv(sys, later, m, next, t);
      }
    }
  }

  /** A runner that only changes what it knows of a migration that is not running. */
  lemma RunnerStep(sys: System, m: Mid, progress: Progress)
    requires Inv(sys)
    requires progress.Idle? || m in sys.db.migrations
    requires m in sys.db.migrations && !P.Terminal(sys.db.migrations[m].phase)
             ==> PhaseInv(WithRunner(sys, m, progress), sys.db.migrations[m].sandbox, m)
    ensures Inv(WithRunner(sys, m, progress))
  {
    var later := WithRunner(sys, m, progress);
    assert forall v, t :: CellAt(later, v, t) == CellAt(sys, v, t);
    assert forall n | n != m :: RunnerOf(later, n) == RunnerOf(sys, n);
    forall t ensures SandboxInv(later, t) {
      assert SandboxInv(sys, t);
      if t in sys.db.sandboxes && sys.db.sandboxes[t].active == Some(m) {
        assert CI.GoodSandbox(sys.db, t);
        assert CI.GoodMigration(sys.db, m);
      } else {
        assert SameFor(sys, later, t);
        SandboxInvFrame(sys, later, t);
      }
    }
  }

  lemma ActivePhaseInv(sys: System, m: Mid)
    requires Inv(sys) && m in sys.db.migrations && !P.Terminal(sys.db.migrations[m].phase)
    ensures PhaseInv(sys, sys.db.migrations[m].sandbox, m)
  {
    assert CI.GoodMigration(sys.db, m);
    assert SandboxInv(sys, sys.db.migrations[m].sandbox);
  }

  /** Forgetting what a runner knew is always harmless. */
  lemma RunnerForgets(sys: System, m: Mid, progress: Progress)
    requires Inv(sys) && (progress.Idle? || (progress.Errored? && m in sys.db.migrations))
    ensures Inv(WithRunner(sys, m, progress))
  {
    if m in sys.db.migrations && !P.Terminal(sys.db.migrations[m].phase) {
      ActivePhaseInv(sys, m);
      var later := WithRunner(sys, m, progress);
      var s := sys.db.migrations[m].sandbox;
      assert forall v :: Executes(later, v, s) == Executes(sys, v, s);
    }
    RunnerStep(sys, m, progress);
  }

  /** A commit whose transaction moved the migration. */
  lemma MovingCommitKeepsInv(sys: System, later: System, m: Mid, step: CI.Step, manifest: Option<Manifest>)
    requires Inv(sys) && m in sys.db.migrations && RunnerOf(sys, m) == Acknowledged(manifest)
    requires OfMigration(step) && MigrationOf(step) == m && CI.Valid(later.db)
    requires DbMoved(sys.db, later.db, m, Target(step)) && P.CanMove(sys.db.migrations[m].phase, Target(step))
    requires Target(step) == NextPhase(sys.db.migrations[m].phase) || Target(step).Resuming? || Target(step).Cleanup?
    requires later.cells == sys.cells && forall n | n != m :: RunnerOf(later, n) == RunnerOf(sys, n)
    requires RunnerOf(later, m) == (if Target(step).Resuming? then ResumeDue else Idle)
    requires later.db.migrations[m].manifest == sys.db.migrations[m].manifest
             || later.db.migrations[m].manifest == manifest
    ensures Inv(later)
  {
    Unfinished(sys.db.migrations[m].phase, Target(step));
    ActivePhaseInv(sys, m);
    assert Committed(sys, later, m, Target(step), manifest);
    PhaseInvAfterCommit(sys, later, m, Target(step), manifest);
    TransactionKeepsInv(sys, later, m, Target(step));
  }

  lemma Unfinished(p: P.Phase, next: P.Phase)
    requires P.CanMove(p, next)
    ensures !P.Terminal(p)
  {
  }

  lemma CommitKeepsInv(sys: System, m: Mid, bytes: Option<nat>)
    requires Inv(sys)
    ensures Inv(Commit(sys, m, bytes))
  {
    if m in sys.db.migrations && RunnerOf(sys, m).Acknowledged? {
      var manifest := RunnerOf(sys, m).manifest;
      var step := CommitStep(m, sys.db.migrations[m], manifest, bytes);
      var later := Commit(sys, m, bytes);
      TransactionMoves(sys.db, step);
      if later.db == sys.db {
        RunnerForgets(sys, m, RunnerOf(later, m));
      } else {
        MovingCommitKeepsInv(sys, later, m, step, manifest);
      }
    }
  }

  lemma RecoveryIsDisciplined(m: Mid, row: C.MigrationRow)
    ensures var step := RecoveryStep(m, row);
            && OfMigration(step) && CI.Disciplined(step) && MigrationOf(step) == m
            && (step.RollbackStep? || (step.AdvanceStep? && P.Terminal(Target(step)) && step.attrs.manifest.None?))
  {
  }

  lemma RecoverKeepsInv(sys: System, m: Mid)
    requires Inv(sys)
    ensures Inv(Recover(sys, m))
  {
    if MayRecover(sys, m) {
      RecoveryIsDisciplined(m, sys.db.migrations[m]);
      RecoveryKeepsInv(sys, m, RecoveryStep(m, sys.db.migrations[m]));
    }
  }

  lemma MovingRecoveryKeepsInv(sys: System, later: System, m: Mid, step: CI.Step)
    requires Inv(sys) && m in sys.db.migrations && CI.Valid(later.db)
    requires OfMigration(step) && MigrationOf(step) == m && (step.RollbackStep? || P.Terminal(Target(step)))
    requires DbMoved(sys.db, later.db, m, Target(step)) && P.CanMove(sys.db.migrations[m].phase, Target(step))
    requires later.cells == sys.cells && forall n | n != m :: RunnerOf(later, n) == RunnerOf(sys, n)
    requires RunnerOf(later, m) == Idle && later.db.migrations[m].manifest == sys.db.migrations[m].manifest
    ensures Inv(later)
  {
    ActivePhaseInv(sys, m);
    if step.RollbackStep? {
      PhaseInvAfterRollback(sys, later, m);
    }
    TransactionKeepsInv(sys, later, m, Target(step));
  }

  lemma RecoveryManifest(db: C.Db, step: CI.Step)
    requires step.RollbackStep? || (step.AdvanceStep? && step.attrs.manifest.None?)
    ensures forall m | m in db.migrations && m in CI.Apply(db, step).migrations ::
              CI.Apply(db, step).migrations[m].manifest == db.migrations[m].manifest
  {
  }

  lemma RecoveryKeepsInv(sys: System, m: Mid, step: CI.Step)
    requires Inv(sys) && m in sys.db.migrations
    requires OfMigration(step) && CI.Disciplined(step) && MigrationOf(step) == m
    requires step.RollbackStep? || (step.AdvanceStep? && P.Terminal(Target(step)) && step.attrs.manifest.None?)
    ensures Inv(WithRunner(sys.(db := CI.Apply(sys.db, step)), m, Idle))
  {
    var later := WithRunner(sys.(db := CI.Apply(sys.db, step)), m, Idle);
    TransactionMoves(sys.db, step);
    if later.db == sys.db {
      RunnerForgets(sys, m, Idle);
    } else {
      RecoveryManifest(sys.db, step);
      MovingRecoveryKeepsInv(sys, later, m, step);
    }
  }

  // ---- Calls ----

  /** What is known after a call was answered, for the phase it was made in. */
  ghost predicate CallOutcome(row: C.MigrationRow, m: Mid, c: W.Cell, o: W.Outcome) {
    match row.phase
    case Probing => !o.reply.Refused? ==> PausedIsHalted(o.cell)
    case Pausing => PausedIsHalted(c) && !o.reply.Refused? ==> !o.cell.vm.Executing?
    case Snapshotting => o.reply.Snapshotted? ==> o.reply.manifest.migrationId == m
    case Loading => !o.reply.Refused? && OwnManifest(m, row.manifest) ==> PausedIsLoaded(o.cell, m)
    case _ => true
  }

  lemma ProbeOutcome(c: W.Cell, epoch: nat, f: W.Faults)
    ensures var o := W.GuestCall(c, epoch, Some(W.Running), f);
            !o.reply.Refused? ==> PausedIsHalted(o.cell)
  {
  }

  lemma PauseOutcome(c: W.Cell, epoch: nat, f: W.Faults)
    requires PausedIsHalted(c)
    ensures var o := W.PauseMigration(c, epoch, f);
            !o.reply.Refused? ==> !o.cell.vm.Executing?
  {
  }

  lemma LoadOutcome(c: W.Cell, s: Sid, epoch: nat, manifest: Manifest, f: W.Faults)
    ensures var o := W.Load(c, s, epoch, manifest, f);
            !o.reply.Refused? ==> PausedIsLoaded(o.cell, manifest.migrationId)
  {
  }

  lemma CallHasOutcome(m: Mid, row: C.MigrationRow, machine: Machine, c: W.Cell, w: Wid, s: Sid, op: W.Op, f: W.Faults)
    requires CellInv(c) && CallOf(m, row, machine) == CallTo(w, op)
    ensures CallOutcome(row, m, c, W.Exec(c, w, s, op, f))
  {
    match row.phase
    case Probing => ProbeOutcome(c, row.epochBefore, f);
    case Pausing => if PausedIsHalted(c) { PauseOutcome(c, row.epochBefore, f); }
    case Snapshotting => SnapshotReply(c, s, row.epochBefore, m, f);
    case Loading => LoadOutcome(c, s, row.epochAfter, row.manifest.value, f);
    case _ =>
  }

  /** The call of the phase ran at its worker, and its runner learnt what the fate lets it. */
  ghost predicate Ran(sys: System, later: System, m: Mid, w: Wid, op: W.Op, o: W.Outcome, machine: Machine, fate: Fate) {
    && m in sys.db.migrations && !P.Terminal(sys.db.migrations[m].phase)
    && var row := sys.db.migrations[m];
    && CallOf(m, row, machine) == CallTo(w, op)
    && CallOutcome(row, m, CellAt(sys, w, row.sandbox), o)
    && (!MayStart(op) ==>
          && (o.cell.vm.Executing? ==> Executes(sys, w, row.sandbox))
          && (PausedIsHalted(CellAt(sys, w, row.sandbox)) ==> PausedIsHalted(o.cell)))
    && later.db == sys.db && later.cells == sys.cells[(w, row.sandbox) := o.cell]
    && RunnerOf(later, m) == Learnt(row.phase, o.reply, fate)
  }

  lemma PlacesAfterCall(sys: System, later: System, m: Mid, w: Wid, op: W.Op, o: W.Outcome, machine: Machine, fate: Fate)
    requires Ran(sys, later, m, w, op, o, machine, fate) && PhaseInv(sys, sys.db.migrations[m].sandbox, m)
    ensures var row := sys.db.migrations[m];
            OnlyAt(later, row.sandbox, if P.AfterResume(row.phase) then row.destination else row.source)
  {
    var s := sys.db.migrations[m].sandbox;
    assert forall v :: CellAt(later, v, s) == if v == w then o.cell else CellAt(sys, v, s);
    assert forall v | v != w :: Executes(later, v, s) == Executes(sys, v, s);
  }

  lemma SourceAfterCall(sys: System, later: System, m: Mid, w: Wid, op: W.Op, o: W.Outcome, machine: Machine, fate: Fate)
    requires Ran(sys, later, m, w, op, o, machine, fate) && PhaseInv(sys, sys.db.migrations[m].sandbox, m)
    ensures var row := sys.db.migrations[m];
            && (Stopped(row.phase, RunnerOf(later, m)) ==> !Executes(later, row.source, row.sandbox))
            && (Probed(row.phase, RunnerOf(later, m)) ==> PausedIsHalted(CellAt(later, row.source, row.sandbox)))
  {
    var row := sys.db.migrations[m];
    assert CellAt(later, row.source, row.sandbox)
        == (if row.source == w then o.cell else CellAt(sys, row.source, row.sandbox));
  }

  lemma DestinationAfterCall(sys: System, later: System, m: Mid, w: Wid, op: W.Op, o: W.Outcome, machine: Machine, fate: Fate)
    requires Ran(sys, later, m, w, op, o, machine, fate) && PhaseInv(sys, sys.db.migrations[m].sandbox, m)
    ensures var row := sys.db.migrations[m];
            && (LoadedAndWaiting(row.phase, RunnerOf(later, m)) ==> PausedIsLoaded(CellAt(later, row.destination, row.sandbox), m))
            && OwnManifest(m, row.manifest)
            && (RunnerOf(later, m).Acknowledged? ==> OwnManifest(m, RunnerOf(later, m).manifest))
  {
    var row := sys.db.migrations[m];
    assert CellAt(later, row.destination, row.sandbox)
        == (if row.destination == w then o.cell else CellAt(sys, row.destination, row.sandbox));
  }

  /** The facts of the phase after its call ran at the worker, whatever its runner learnt. */
  lemma PhaseInvAfterCall(sys: System, later: System, m: Mid, w: Wid, op: W.Op, o: W.Outcome,
                          machine: Machine, fate: Fate)
    requires Ran(sys, later, m, w, op, o, machine, fate) && PhaseInv(sys, sys.db.migrations[m].sandbox, m)
    ensures PhaseInv(later, sys.db.migrations[m].sandbox, m)
  {
    PlacesAfterCall(sys, later, m, w, op, o, machine, fate);
    SourceAfterCall(sys, later, m, w, op, o, machine, fate);
    DestinationAfterCall(sys, later, m, w, op, o, machine, fate);
  }

  /** What a call changes outside its own sandbox: nothing. */
  ghost predicate OnlyThisCall(sys: System, later: System, m: Mid, w: Wid, c: W.Cell)
    requires m in sys.db.migrations
  {
    && later.db == sys.db && later.cells == sys.cells[(w, sys.db.migrations[m].sandbox) := c]
    && later.runners == sys.runners[m := RunnerOf(later, m)]
  }

  lemma CallKeepsOthers(sys: System, later: System, m: Mid, w: Wid, c: W.Cell, t: Sid)
    requires Inv(sys) && m in sys.db.migrations && OnlyThisCall(sys, later, m, w, c)
    requires t != sys.db.migrations[m].sandbox
    ensures SandboxInv(later, t)
  {
    assert SandboxInv(sys, t);
    if t in sys.db.sandboxes && sys.db.sandboxes[t].active.Some? {
      assert CI.GoodSandbox(sys.db, t);
    }
    assert SameFor(sys, later, t);
    SandboxInvFrame(sys, later, t);
  }

  lemma CallKeepsCells(sys: System, later: System, m: Mid, w: Wid, c: W.Cell)
    requires Inv(sys) && m in sys.db.migrations && OnlyThisCall(sys, later, m, w, c) && CellInv(c)
    ensures CellsInv(later) && RunnersKnown(later)
  {
    var s := sys.db.migrations[m].sandbox;
    assert forall v, t :: CellAt(later, v, t) == if v == w && t == s then c else CellAt(sys, v, t);
    assert forall n | n != m :: RunnerOf(later, n) == RunnerOf(sys, n);
  }

  lemma CallKeepsInv(sys: System, later: System, m: Mid, w: Wid, c: W.Cell)
    requires Inv(sys) && m in sys.db.migrations && !P.Terminal(sys.db.migrations[m].phase)
    requires OnlyThisCall(sys, later, m, w, c) && CellInv(c)
    requires PhaseInv(later, sys.db.migrations[m].sandbox, m)
    ensures Inv(later)
  {
    CallKeepsCells(sys, later, m, w, c);
    assert CI.GoodMigration(sys.db, m);
    forall t ensures SandboxInv(later, t) {
      if t != sys.db.migrations[m].sandbox {
        CallKeepsOthers(sys, later, m, w, c, t);
      }
    }
  }

  lemma AnsweredCallKeepsInv(sys: System, m: Mid, w: Wid, op: W.Op, f: W.Faults, fate: Fate)
    requires Inv(sys) && MayCall(sys, m)
    requires var row := sys.db.migrations[m];
             CallOf(m, row, sys.db.sandboxes[row.sandbox].machine) == CallTo(w, op)
    ensures var row := sys.db.migrations[m];
            var (called, reply) := At(sys, w, row.sandbox, op, f);
            Inv(WithRunner(called, m, Learnt(row.phase, reply, fate)))
  {
    var row := sys.db.migrations[m];
    var machine := sys.db.sandboxes[row.sandbox].machine;
    var c := CellAt(sys, w, row.sandbox);
    var o := W.Exec(c, w, row.sandbox, op, f);
    var later := WithRunner(At(sys, w, row.sandbox, op, f).0, m, Learnt(row.phase, o.reply, fate));
    ActivePhaseInv(sys, m);
    assert CellInv(c);
    OpEffects(c, w, row.sandbox, op, f);
    CallHasOutcome(m, row, machine, c, w, row.sandbox, op, f);
    PhaseInvAfterCall(sys, later, m, w, op, o, machine, fate);
    CallKeepsInv(sys, later, m, w, o.cell);
  }

  /** A call that is not made: PREPARING has none, CUTOVER may have none. */
  lemma NoCallKeepsInv(sys: System, m: Mid)
    requires Inv(sys) && MayCall(sys, m)
    requires sys.db.migrations[m].phase.Preparing? || sys.db.migrations[m].phase.Cutover?
    ensures Inv(WithRunner(sys, m, Acknowledged(None)))
  {
    ActivePhaseInv(sys, m);
    var later := WithRunner(sys, m, Acknowledged(None));
    assert forall v :: CellAt(later, v, sys.db.migrations[m].sandbox) == CellAt(sys, v, sys.db.migrations[m].sandbox);
    assert forall v :: Executes(later, v, sys.db.migrations[m].sandbox) == Executes(sys, v, sys.db.migrations[m].sandbox);
    RunnerStep(sys, m, Acknowledged(None));
  }

  lemma IssueKeepsInv(sys: System, m: Mid, f: W.Faults, fate: Fate)
    requires Inv(sys)
    ensures Inv(Issue(sys, m, f, fate))
  {
    if MayCall(sys, m) {
      var row := sys.db.migrations[m];
      match CallOf(m, row, sys.db.sandboxes[row.sandbox].machine)
      case NoCall =>
        if row.phase.Preparing? { NoCallKeepsInv(sys, m); } else { RunnerForgets(sys, m, Errored); }
      case CallTo(w, op) =>
        if fate.LostRequest? {
          RunnerForgets(sys, m, Errored);
        } else if fate.NothingExposed? {
          if row.phase.Cutover? { NoCallKeepsInv(sys, m); }
        } else {
          AnsweredCallKeepsInv(sys, m, w, op, f, fate);
        }
    }
  }

  // ---- The API ----

  lemma BootCallKeepsInv(sys: System, s: Sid, f: W.Faults)
    requires Inv(sys)
    ensures Inv(Take(sys, BootCall(s, f)))
  {
    if s in sys.db.sandboxes && sys.db.sandboxes[s].state.SandboxBooting? {
      var row := sys.db.sandboxes[s];
      var op := W.CreateOp(row.epoch, row.machine, true);
      var later := At(sys, row.worker, s, op, f).0;
      assert CellInv(CellAt(sys, row.worker, s));
      OpEffects(CellAt(sys, row.worker, s), row.worker, s, op, f);
      BootingIsIdle(sys, s);
      BootedKeepsInv(sys, later, s, W.Exec(CellAt(sys, row.worker, s), row.worker, s, op, f).cell);
    }
  }

  lemma BootingIsIdle(sys: System, s: Sid)
    requires Inv(sys) && s in sys.db.sandboxes && sys.db.sandboxes[s].state.SandboxBooting?
    ensures sys.db.sandboxes[s].active.None?
  {
    assert CI.GoodSandbox(sys.db, s);
  }

  lemma BootedKeepsInv(sys: System, later: System, s: Sid, c: W.Cell)
    requires Inv(sys) && CellInv(c) && s in sys.db.sandboxes
    requires sys.db.sandboxes[s].active.None? && sys.db.sandboxes[s].state.SandboxBooting?
    requires later.db == sys.db && later.runners == sys.runners
    requires later.cells == sys.cells[(sys.db.sandboxes[s].worker, s) := c]
    ensures Inv(later)
  {
    var w := sys.db.sandboxes[s].worker;
    assert forall v, t :: CellAt(later, v, t) == if v == w && t == s then c else CellAt(sys, v, t);
    assert forall m :: RunnerOf(later, m) == RunnerOf(sys, m);
    forall t ensures SandboxInv(later, t) {
      assert SandboxInv(sys, t);
      if t != s {
        SandboxInvFrame(sys, later, t);
      } else {
        assert forall v | v != w :: Executes(later, v, s) == Executes(sys, v, s);
      }
    }
  }

  /** What a start that creates a migration does to the two tables. */
  ghost predicate Begun(db: C.Db, later: C.Db, id: Mid, s: Sid, to: Wid, key: Key, hash: RequestHash) {
    && s in db.sandboxes && db.sandboxes[s].active.None? && db.sandboxes[s].state.SandboxRunning?
    && id !in db.migrations
    && later.migrations == db.migrations[id := C.NewMigration(s, db.sandboxes[s], to, key, hash)]
    && later.sandboxes == db.sandboxes[s := db.sandboxes[s].(active := Some(id), state := C.SandboxMigrating)]
  }

  lemma StartBegins(db: C.Db, id: Mid, s: Sid, to: Option<Wid>, key: Option<Key>, hash: RequestHash)
    ensures var later := CI.Apply(db, CI.StartStep(id, s, to, key, hash));
            later == db || (to.Some? && key.Some? && Begun(db, later, id, s, to.value, key.value, hash))
  {
  }

  lemma BegunSandboxInv(sys: System, later: System, id: Mid, s: Sid, to: Wid, key: Key, hash: RequestHash, t: Sid)
    requires Inv(sys) && later.cells == sys.cells && later.runners == sys.runners
    requires Begun(sys.db, later.db, id, s, to, key, hash)
    ensures SandboxInv(later, t)
  {
    assert SandboxInv(sys, t);
    if t == s {
      StartedPhaseInv(sys, later, id, s, to, key, hash);
    } else {
      if t in sys.db.sandboxes {
        assert CI.GoodSandbox(sys.db, t);
      }
      assert SameFor(sys, later, t);
      SandboxInvFrame(sys, later, t);
    }
  }

  /** A start leaves what is known of every sandbox alone: its migration begins at PREPARING. */
  lemma StartSandboxInv(sys: System, id: Mid, s: Sid, to: Option<Wid>, key: Option<Key>, hash: RequestHash, t: Sid)
    requires Inv(sys)
    ensures SandboxInv(sys.(db := CI.Apply(sys.db, CI.StartStep(id, s, to, key, hash))), t)
  {
    var later := sys.(db := CI.Apply(sys.db, CI.StartStep(id, s, to, key, hash)));
    StartBegins(sys.db, id, s, to, key, hash);
    if later.db == sys.db {
      assert SandboxInv(sys, t);
      assert later == sys;
    } else {
      BegunSandboxInv(sys, later, id, s, to.value, key.value, hash, t);
    }
  }

  lemma StartedPhaseInv(sys: System, later: System, id: Mid, s: Sid, to: Wid, key: Key, hash: RequestHash)
    requires RunnersKnown(sys) && later.cells == sys.cells && later.runners == sys.runners
    requires id !in sys.db.migrations && id in later.db.migrations
    requires s in sys.db.sandboxes && OnlyAt(sys, s, sys.db.sandboxes[s].worker)
    requires later.db.migrations[id] == C.NewMigration(s, sys.db.sandboxes[s], to, key, hash)
    ensures PhaseInv(later, s, id)
  {
    assert RunnerOf(later, id).Idle?;
    assert forall v :: Executes(later, v, s) == Executes(sys, v, s);
  }

  lemma SandboxStepInv(sys: System, step: CI.Step, t: Sid)
    requires Inv(sys) && (step.NewSandboxStep? || step.MarkBootStep?)
    ensures SandboxInv(sys.(db := CI.Apply(sys.db, step)), t)
  {
    var later := sys.(db := CI.Apply(sys.db, step));
    assert SandboxInv(sys, t);
    assert forall v :: Executes(later, v, t) == Executes(sys, v, t);
    if t in sys.db.sandboxes {
      assert CI.GoodSandbox(sys.db, t);
      if later.db.sandboxes[t] == sys.db.sandboxes[t] {
        SandboxInvFrame(sys, later, t);
      }
    }
  }

  lemma ApiKeepsInv(sys: System, step: CI.Step)
    requires Inv(sys) && FromApi(step)
    ensures Inv(sys.(db := CI.Apply(sys.db, step)))
  {
    var later := sys.(db := CI.Apply(sys.db, step));
    CP.StepKeepsValid(sys.db, step);
    assert forall v, t :: CellAt(later, v, t) == CellAt(sys, v, t);
    MigrationsStay(sys.db, step);
    forall t ensures SandboxInv(later, t) {
      if step.StartStep? {
        StartSandboxInv(sys, step.id, step.s, step.to, step.key, step.hash, t);
      } else {
        SandboxStepInv(sys, step, t);
      }
    }
  }

  lemma MigrationsStay(db: C.Db, step: CI.Step)
    requires FromApi(step)
    ensures db.migrations.Keys <= CI.Apply(db, step).migrations.Keys
  {
  }

  // ---- Every step ----

  lemma RestartIsHarmless(c: W.Cell, reloaded: nat, vmSurvives: bool)
    requires CellInv(c)
    ensures Harmless(c, W.Restarted(c, reloaded, vmSurvives))
  {
  }

  lemma GuestWriteIsHarmless(c: W.Cell, content: Bytes)
    requires CellInv(c)
    ensures Harmless(c, W.GuestWrites(c, content))
  {
  }

  lemma TakeKeepsInv(sys: System, step: Step)
    requires Inv(sys)
    ensures Inv(Take(sys, step))
  {
    match step
    case Api(s) => if FromApi(s) { ApiKeepsInv(sys, s); }
    case BootCall(s, f) => BootCallKeepsInv(sys, s, f);
    case Call(m, f, fate) => IssueKeepsInv(sys, m, f, fate);
    case CommitAcknowledged(m, bytes) => CommitKeepsInv(sys, m, bytes);
    case RecoverFailed(m) => RecoverKeepsInv(sys, m);
    case CrashRunner(m) => RunnerForgets(sys, m, Idle);
    case _ => WorkerStepKeepsInv(sys, step);
  }

  lemma WorkerStepKeepsInv(sys: System, step: Step)
    requires Inv(sys)
    requires step.GuestRequest? || step.RestartWorker? || step.GuestWrite? || step.Elsewhere?
    ensures Inv(Take(sys, step))
  {
    var c := CellAt(sys, step.w, step.s);
    assert CellInv(c);
    var later := Take(sys, step);
    if later != sys {
      match step
      case GuestRequest(w, s, epoch, f) =>
        GuestRequestIsHarmless(c, w, s, epoch, f);
        HarmlessStep(sys, later, w, s, W.Exec(c, w, s, W.GuestOp(epoch), f).cell);
      case RestartWorker(w, s, reloaded, vmSurvives) =>
        RestartIsHarmless(c, reloaded, vmSurvives);
        HarmlessStep(sys, later, w, s, W.Restarted(c, reloaded, vmSurvives));
      case GuestWrite(w, s, content) =>
        GuestWriteIsHarmless(c, content);
        HarmlessStep(sys, later, w, s, W.GuestWrites(c, content));
      case Elsewhere(w, s, consumed, manifests) =>
        HarmlessStep(sys, later, w, s, c.(consumed := c.consumed + consumed, manifests := manifests + c.manifests));
    }
  }

  lemma InitialInv()
    ensures Inv(Initial)
  {
    assert forall w, s :: CellAt(Initial, w, s) == W.Vacant;
  }

  lemma {:induction false} RunKeepsInv(steps: seq<Step>)
    ensures Inv(Run(steps))
  {
    if steps == [] {
      InitialInv();
    } else {
      RunKeepsInv(steps[..|steps| - 1]);
      TakeKeepsInv(Run(steps[..|steps| - 1]), steps[|steps| - 1]);
    }
  }

  lemma ReachableInv(sys: System)
    requires Reachable(sys)
    ensures Inv(sys)
  {
    var steps :| Run(steps) == sys;
    RunKeepsInv(steps);
  }
}
