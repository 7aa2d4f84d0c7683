/** At most one VM of a sandbox executes, in every run of the whole system. */
module ProtocolSafety {
  import opened Prelude
  import opened Artifacts
  import P = Phases
  import C = Coordinator
  import CI = CoordinatorInvariants
  import CP = CoordinatorProofs
  import W = Worker
  import WE = WorkerEffects
  import WS = WorkerSafety
  import opened Protocol

  // ---- The invariant ----

  predicate Executes(sys: System, w: Wid, s: Sid) {
    CellAt(sys, w, s).vm.Executing?
  }

  /** No worker but `w` executes a VM of the sandbox. */
  ghost predicate OnlyAt(sys: System, s: Sid, w: Wid) {
    forall v | v != w :: !Executes(sys, v, s)
  }

  ghost predicate AtMostOne(sys: System, s: Sid) {
    forall v, w | Executes(sys, v, s) && Executes(sys, w, s) :: v == w
  }

  predicate PausedIsHalted(c: W.Cell) {
    c.record.Some? && c.record.value.state.Paused? ==> !c.vm.Executing?
  }

  predicate PausedIsLoaded(c: W.Cell, m: Mid) {
    c.record.Some? && c.record.value.state.Paused? ==> c.record.value.loaded == Some(m)
  }

  /** The phases in which the source was acknowledged to be paused and nothing was resumed. */
  predicate Stopped(p: P.Phase, progress: Progress) {
    p.Snapshotting? || p.Transferring? || p.Loading? || (p.Pausing? && progress.Acknowledged?)
  }

  /** The source was acknowledged to be running, so it can only be paused by a successful pause. */
  predicate Probed(p: P.Phase, progress: Progress) {
    p.Precopying? || p.Pausing? || (p.Probing? && progress.Acknowledged?)
  }

  /** The destination was acknowledged to have loaded the snapshot and was not yet resumed. */
  predicate LoadedAndWaiting(p: P.Phase, progress: Progress) {
    (p.Loading? && progress.Acknowledged?) || (p.Resuming? && progress.ResumeDue?)
  }

  predicate OwnManifest(m: Mid, manifest: Option<Manifest>) {
    manifest.Some? ==> manifest.value.migrationId == m
  }

  ghost predicate PhaseInv(sys: System, s: Sid, m: Mid)
    requires m in sys.db.migrations
  {
    var row := sys.db.migrations[m];
    var progress := RunnerOf(sys, m);
    && OnlyAt(sys, s, if P.AfterResume(row.phase) then row.destination else row.source)
    && (Stopped(row.phase, progress) ==> !Executes(sys, row.source, s))
    && (Probed(row.phase, progress) ==> PausedIsHalted(CellAt(sys, row.source, s)))
    && (LoadedAndWaiting(row.phase, progress) ==> PausedIsLoaded(CellAt(sys, row.destination, s), m))
    && OwnManifest(m, row.manifest)
    && (progress.Acknowledged? ==> OwnManifest(m, progress.manifest))
  }

  ghost predicate SandboxInv(sys: System, s: Sid) {
    if s !in sys.db.sandboxes then forall w :: !Executes(sys, w, s)
    else
      var row := sys.db.sandboxes[s];
      match row.active
      case Some(m) => m in sys.db.migrations && PhaseInv(sys, s, m)
      case None => if row.state.SandboxOrphaned? then AtMostOne(sys, s) else OnlyAt(sys, s, row.worker)
  }

  predicate CellInv(c: W.Cell) {
    WE.ProcessNeedsClaim(c) && forall k | k in c.manifests :: c.manifests[k].migrationId == k
  }

  ghost predicate CellsInv(sys: System) {
    forall w, s :: CellInv(CellAt(sys, w, s))
  }

  ghost predicate RunnersKnown(sys: System) {
    forall m | m !in sys.db.migrations :: RunnerOf(sys, m).Idle?
  }

  ghost predicate Inv(sys: System) {
    && CI.Valid(sys.db)
    && CellsInv(sys)
    && RunnersKnown(sys)
    && forall s :: SandboxInv(sys, s)
  }

  // ---- Frames ----

  /** Nothing that the invariant of sandbox `s` speaks of has changed. */
  ghost predicate SameFor(sys: System, later: System, s: Sid) {
    && (forall w :: CellAt(later, w, s) == CellAt(sys, w, s))
    && (s in later.db.sandboxes <==> s in sys.db.sandboxes)
    && (s in sys.db.sandboxes ==>
          && later.db.sandboxes[s] == sys.db.sandboxes[s]
          && var active := sys.db.sandboxes[s].active;
             active.Some? ==>
               && active.value in sys.db.migrations && active.value in later.db.migrations
               && later.db.migrations[active.value] == sys.db.migrations[active.value]
               && RunnerOf(later, active.value) == RunnerOf(sys, active.value))
  }

  lemma SandboxInvFrame(sys: System, later: System, s: Sid)
    requires SandboxInv(sys, s) && SameFor(sys, later, s)
    ensures SandboxInv(later, s)
  {
    assert forall w :: Executes(later, w, s) == Executes(sys, w, s);
  }

  // ---- What single operations do ----

  /** Only a boot, a resume and a rollback can start a VM. */
  predicate MayStart(op: W.Op) {
    op.CreateOp? || op.ResumeOp? || op.ResumeMigrationOp? || op.RollbackOp?
  }

  lemma OpEffects(c: W.Cell, w: Wid, s: Sid, op: W.Op, f: W.Faults)
    requires CellInv(c)
    ensures var o := W.Exec(c, w, s, op, f);
            && CellInv(o.cell)
            && (!MayStart(op) && o.cell.vm.Executing? ==> c.vm.Executing?)
            && (!MayStart(op) && PausedIsHalted(c) ==> PausedIsHalted(o.cell))
            && (!MayStart(op) ==> ResumedSnapshots(o.calls) == [])
  {
    var o := W.Exec(c, w, s, op, f);
    WE.ExecEffect(c, w, s, op, f);
    WS.EffectKeepsClaim(c, s, op, o);
    EffectKeepsManifests(c, s, op, o);
    if !MayStart(op) {
      EffectKeepsHalted(c, s, op, o);
    }
  }

  lemma EffectKeepsHalted(c: W.Cell, s: Sid, op: W.Op, o: W.Outcome)
    requires WE.Effect(c, s, op, o) && !MayStart(op)
    ensures o.cell.vm.Executing? ==> c.vm.Executing?
    ensures PausedIsHalted(c) ==> PausedIsHalted(o.cell)
    ensures ResumedSnapshots(o.calls) == []
  {
  }

  lemma EffectKeepsManifests(c: W.Cell, s: Sid, op: W.Op, o: W.Outcome)
    requires WE.Effect(c, s, op, o) && CellInv(c)
    ensures forall k | k in o.cell.manifests :: o.cell.manifests[k].migrationId == k
  {
  }

  lemma SnapshotReply(c: W.Cell, s: Sid, epoch: nat, m: Mid, f: W.Faults)
    requires CellInv(c)
    ensures var o := W.SnapshotMigration(c, s, epoch, m, f);
            o.reply.Snapshotted? ==> o.reply.manifest.migrationId == m
  {
  }

  // ---- Steps at a worker that start nothing ----

  /** A change of one cell that can only stop VMs and retire records. */
  ghost predicate Harmless(c: W.Cell, later: W.Cell) {
    && CellInv(later)
    && (later.vm.Executing? ==> c.vm.Executing?)
    && (PausedIsHalted(c) ==> PausedIsHalted(later))
    && forall m :: PausedIsLoaded(c, m) ==> PausedIsLoaded(later, m)
  }

  lemma HarmlessStep(sys: System, later: System, w: Wid, s: Sid, c: W.Cell)
    requires Inv(sys) && Harmless(CellAt(sys, w, s), c)
    requires later.db == sys.db && later.runners == sys.runners && later.cells == sys.cells[(w, s) := c]
    ensures Inv(later)
  {
    assert forall v, t :: CellAt(later, v, t) == if v == w && t == s then c else CellAt(sys, v, t);
    assert forall m :: RunnerOf(later, m) == RunnerOf(sys, m);
    forall t ensures SandboxInv(later, t) {
      assert SandboxInv(sys, t);
      if t != s {
        SandboxInvFrame(sys, later, t);
      } else {
        assert forall v :: Executes(later, v, s) ==> Executes(sys, v, s);
      }
    }
  }

  lemma GuestRequestIsHarmless(c: W.Cell, w: Wid, s: Sid, epoch: nat, f: W.Faults)
    requires CellInv(c)
    ensures Harmless(c, W.Exec(c, w, s, W.GuestOp(epoch), f).cell)
    ensures ResumedSnapshots(W.Exec(c, w, s, W.GuestOp(epoch), f).calls) == []
  {
    OpEffects(c, w, s, W.GuestOp(epoch), f);
    WE.GuestEffect(c, W.GuestOp(epoch), None, f);
  }
}
