/** The whole system: the coordinator's database, one runner per migration, and any number of
    workers, with calls that are lost, replies that are lost, and processes that crash at any
    point. A call runs as one step at its worker; the runner commits what it learnt in a later
    step, so that anything may happen in between. */
module Protocol {
  import opened Prelude
  import opened Artifacts
  import P = Phases
  import C = Coordinator
  import CI = CoordinatorInvariants
  import W = Worker

  /** What a runner knows between two of its steps. `ResumeDue` is the moment after the resume
      was recorded and before the destination is called, which no restarted runner is in. */
  datatype Progress = Idle | Acknowledged(manifest: Option<Manifest>) | Errored | ResumeDue

  datatype System = System(
    db: C.Db,
    cells: map<(Wid, Sid), W.Cell>,
    runners: map<Mid, Progress>,
    resumes: seq<Mid>)  // snapshots whose resume reached Firecracker, by migration

  const Initial := System(C.EmptyDb, map[], map[], [])

  function CellAt(sys: System, w: Wid, s: Sid): W.Cell {
    if (w, s) in sys.cells then sys.cells[(w, s)] else W.Vacant
  }

  function RunnerOf(sys: System, m: Mid): Progress {
    if m in sys.runners then sys.runners[m] else Idle
  }

  // ---- The call of each phase ----

  datatype WorkerCall = NoCall | CallTo(worker: Wid, op: W.Op)

  function PrepareCall(m: Mid, row: C.MigrationRow, machine: Machine, prestage: bool): WorkerCall {
    CallTo(row.destination,
           W.PrepareOp(row.epochAfter, W.Preparation(m, prestage, row.source, row.destination, machine)))
  }

  /** The call that the runner makes in the phase of a migration, with the epoch it carries. */
  function CallOf(m: Mid, row: C.MigrationRow, machine: Machine): WorkerCall {
    match row.phase
    case Reserving => PrepareCall(m, row, machine, false)
    case Prestaging => PrepareCall(m, row, machine, true)
    case Probing => CallTo(row.source, W.ProbeOp(row.epochBefore))
    case Precopying => CallTo(row.source, W.PrecopyOp(row.epochBefore))
    case Pausing => CallTo(row.source, W.PauseMigrationOp(row.epochBefore))
    case Snapshotting => CallTo(row.source, W.SnapshotMigrationOp(row.epochBefore, m))
    case Transferring =>
      if row.manifest.None? then NoCall
      else CallTo(row.destination, W.TransferOp(row.epochAfter, m, row.manifest.value))
    case Loading =>
      if row.manifest.None? then NoCall
      else CallTo(row.destination, W.LoadOp(row.epochAfter, row.manifest.value))
    case Resuming => CallTo(row.destination, W.ResumeMigrationOp(row.epochAfter))
    case Verifying => CallTo(row.destination, W.VerifyOp(row.epochAfter))
    case Cutover => CallTo(row.destination, W.GuestOp(row.epochAfter))
    case Cleanup => CallTo(row.source, W.FenceAndCleanupOp(row.epochAfter, m))
    case RollingBackSource => CallTo(row.source, W.RollbackOp(row.epochBefore, true))
    case _ => NoCall
  }

  /** Whether the runner takes a reply for success. */
  predicate Satisfies(phase: P.Phase, reply: W.Reply) {
    match phase
    case Prestaging => reply.Prepared? && reply.ready
    case Snapshotting => reply.Snapshotted?
    case _ => !reply.Refused?
  }

  /** What becomes of a call: it never arrives, its reply never arrives, the runner crashes
      while it is out, or it is answered. A runner that gets no answer takes it for an error. The
      call of CUTOVER is not made for a sandbox without an exposed port. */
  datatype Fate = LostRequest | LostReply | RunnerCrash | Answered | NothingExposed

  function Learnt(phase: P.Phase, reply: W.Reply, fate: Fate): Progress {
    match fate
    case RunnerCrash => Idle
    case Answered =>
      if !Satisfies(phase, reply) then Errored
      else Acknowledged(if phase.Snapshotting? && reply.Snapshotted? then Some(reply.manifest) else None)
    case _ => Errored
  }

  function ResumedSnapshots(calls: seq<W.Call>): seq<Mid> {
    if calls == [] then []
    else
      var rest := ResumedSnapshots(calls[..|calls| - 1]);
      match calls[|calls| - 1]
      case ResumeCall(Some(m)) => rest + [m]
      case _ => rest
  }

  /** One operation at one worker. */
  function At(sys: System, w: Wid, s: Sid, op: W.Op, f: W.Faults): (System, W.Reply) {
    var o := W.Exec(CellAt(sys, w, s), w, s, op, f);
    (sys.(cells := sys.cells[(w, s) := o.cell], resumes := sys.resumes + ResumedSnapshots(o.calls)), o.reply)
  }

  function WithRunner(sys: System, m: Mid, progress: Progress): System {
    sys.(runners := sys.runners[m := progress])
  }

  // ---- The steps of a runner ----

  /** A runner may call when it is idle; in RESUMING only if it recorded the resume itself. */
  predicate MayCall(sys: System, m: Mid) {
    && m in sys.db.migrations && sys.db.migrations[m].sandbox in sys.db.sandboxes
    && !P.Terminal(sys.db.migrations[m].phase)
    && RunnerOf(sys, m) == (if sys.db.migrations[m].phase.Resuming? then ResumeDue else Idle)
  }

  function Issue(sys: System, m: Mid, f: W.Faults, fate: Fate): System {
    if !MayCall(sys, m) then sys
    else
      var row := sys.db.migrations[m];
      match CallOf(m, row, sys.db.sandboxes[row.sandbox].machine)
      case NoCall => WithRunner(sys, m, if row.phase.Preparing? then Acknowledged(None) else Errored)
      case CallTo(w, op) =>
        if fate.LostRequest? then WithRunner(sys, m, Errored)
        else if fate.NothingExposed? then
          if row.phase.Cutover? then WithRunner(sys, m, Acknowledged(None)) else sys
        else
          var (called, reply) := At(sys, w, row.sandbox, op, f);
          WithRunner(called, m, Learnt(row.phase, reply, fate))
  }

  function NextPhase(p: P.Phase): P.Phase {
    match p
    case Preparing => P.Reserving
    case Reserving => P.Prestaging
    case Prestaging => P.Probing
    case Probing => P.Precopying
    case Precopying => P.Pausing
    case Pausing => P.Snapshotting
    case Snapshotting => P.Transferring
    case Transferring => P.Loading
    case Resuming => P.Verifying
    case Verifying => P.Cutover
    case Cleanup => P.Done
    case RollingBackSource => P.RolledBack
    case _ => p
  }

  /** The transaction of an acknowledged phase. */
  function CommitStep(m: Mid, row: C.MigrationRow, manifest: Option<Manifest>, bytes: Option<nat>): CI.Step {
    match row.phase
    case Loading => CI.IssueResumeStep(m)
    case Cutover => CI.CutoverStep(m)
    case _ => CI.AdvanceStep(m, NextPhase(row.phase), C.Attrs(bytes, manifest, None))
  }

  function Commit(sys: System, m: Mid, bytes: Option<nat>): System {
    if m !in sys.db.migrations || !RunnerOf(sys, m).Acknowledged? then sys
    else
      var row := sys.db.migrations[m];
      var db := CI.Apply(sys.db, CommitStep(m, row, RunnerOf(sys, m).manifest, bytes));
      WithRunner(sys.(db := db), m,
                 if !row.phase.Loading? then Idle
                 else if m in db.migrations && db.migrations[m].phase.Resuming? then ResumeDue
                 else Errored)
  }

  /** The transaction of a failed phase; a resume that was not acknowledged is ambiguous. */
  function RecoveryStep(m: Mid, row: C.MigrationRow): CI.Step {
    var failure := C.Attrs(None, None, Some("failed"));
    if row.phase.RollingBackSource? then CI.AdvanceStep(m, P.Failed, failure)
    else
      match P.FailureActionFor(row.resumeIssued, row.phase)
      case Orphan => CI.AdvanceStep(m, P.OrphanedAmbiguous, failure)
      case Rollback => CI.RollbackStep(m, "failed")
      case Fail => CI.AdvanceStep(m, P.Failed, failure)
  }

  predicate MayRecover(sys: System, m: Mid) {
    && m in sys.db.migrations
    && (RunnerOf(sys, m).Errored? || (sys.db.migrations[m].phase.Resuming? && RunnerOf(sys, m).Idle?))
  }

  function Recover(sys: System, m: Mid): System {
    if !MayRecover(sys, m) then sys
    else WithRunner(sys.(db := CI.Apply(sys.db, RecoveryStep(m, sys.db.migrations[m]))), m, Idle)
  }

  // ---- All steps ----

  datatype Step =
    | Api(step: CI.Step)
    | BootCall(s: Sid, faults: W.Faults)
    | Call(m: Mid, faults: W.Faults, fate: Fate)
    | CommitAcknowledged(m: Mid, bytes: Option<nat>)
    | RecoverFailed(m: Mid)
    | CrashRunner(m: Mid)
    | GuestRequest(w: Wid, s: Sid, epoch: nat, faults: W.Faults)
    | RestartWorker(w: Wid, s: Sid, reloaded: nat, vmSurvives: bool)
    | GuestWrite(w: Wid, s: Sid, content: Bytes)
    | Elsewhere(w: Wid, s: Sid, consumed: set<Mid>, manifests: map<Mid, Manifest>)

  /** The transactions that the API makes without a runner. */
  predicate FromApi(step: CI.Step) {
    step.NewSandboxStep? || step.MarkBootStep? || step.StartStep?
  }

  function WithCell(sys: System, w: Wid, s: Sid, c: W.Cell): System {
    sys.(cells := sys.cells[(w, s) := c])
  }

  /** A step whose guard does not hold changes nothing. A restarted worker may reload any epoch, also
      one below what it had accepted. `Elsewhere` is what operations on other sandboxes add to the
      tables that a worker keeps for all of them. */
  function Take(sys: System, step: Step): System {
    match step
    case Api(s) => if FromApi(s) then sys.(db := CI.Apply(sys.db, s)) else sys
    case BootCall(s, f) =>
      if s !in sys.db.sandboxes || !sys.db.sandboxes[s].state.SandboxBooting? then sys
      else
        var row := sys.db.sandboxes[s];
        At(sys, row.worker, s, W.CreateOp(row.epoch, row.machine, true), f).0
    case Call(m, f, fate) => Issue(sys, m, f, fate)
    case CommitAcknowledged(m, bytes) => Commit(sys, m, bytes)
    case RecoverFailed(m) => Recover(sys, m)
    case CrashRunner(m) => WithRunner(sys, m, Idle)
    case GuestRequest(w, s, epoch, f) => At(sys, w, s, W.GuestOp(epoch), f).0
    case RestartWorker(w, s, reloaded, vmSurvives) =>
      WithCell(sys, w, s, W.Restarted(CellAt(sys, w, s), reloaded, vmSurvives))
    case GuestWrite(w, s, content) => WithCell(sys, w, s, W.GuestWrites(CellAt(sys, w, s), content))
    case Elsewhere(w, s, consumed, manifests) =>
      var c := CellAt(sys, w, s);
      if exists k :: k in manifests && (manifests[k].migrationId != k || manifests[k].sandboxId == s) then sys
      else WithCell(sys, w, s, c.(consumed := c.consumed + consumed, manifests := manifests + c.manifests))
  }

  function Run(steps: seq<Step>): System {
    if steps == [] then Initial else Take(Run(steps[..|steps| - 1]), steps[|steps| - 1])
  }

  ghost predicate Reachable(sys: System) {
    exists steps :: Run(steps) == sys
  }
}
