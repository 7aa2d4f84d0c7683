/** What a destination loads is what the source's snapshot wrote: the content of a VM over a whole
    migration, and that each migration takes its snapshot at most once. */
module ProtocolContent {
  import opened Prelude
  import opened Artifacts
  import P = Phases
  import C = Coordinator
  import CI = CoordinatorInvariants
  import W = Worker
  import WE = WorkerEffects
  import WD = WorkerDisk
  import opened Protocol
  import opened ProtocolSafety
  import PP = ProtocolProofs

  // ---- What runs in a step ----

  /** The operation that a step runs at a worker, if it does. */
  datatype Execution = Execution(w: Wid, s: Sid, op: W.Op, f: W.Faults)

  function Executed(sys: System, step: Step): Option<Execution> {
    match step
    case Call(m, f, fate) =>
      if !MayCall(sys, m) || fate.LostRequest? || fate.NothingExposed? then None
      else
        var row := sys.db.migrations[m];
        (match CallOf(m, row, sys.db.sandboxes[row.sandbox].machine)
         case NoCall => None
         case CallTo(w, op) => Some(Execution(w, row.sandbox, op, f)))
    case BootCall(s, f) =>
      if s !in sys.db.sandboxes || !sys.db.sandboxes[s].state.SandboxBooting? then None
      else
        var row := sys.db.sandboxes[s];
        Some(Execution(row.worker, s, W.CreateOp(row.epoch, row.machine, true), f))
    case GuestRequest(w, s, epoch, f) => Some(Execution(w, s, W.GuestOp(epoch), f))
    case _ => None
  }

  function OutcomeOf(sys: System, e: Execution): W.Outcome {
    W.Exec(CellAt(sys, e.w, e.s), e.w, e.s, e.op, e.f)
  }

  // ---- History ----

  /** A snapshot that the source of a migration took, with the files it left. */
  datatype Snapshot = Snapshot(m: Mid, files: map<Kind, Bytes>)

  predicate TakesSnapshot(e: Execution, o: W.Outcome) {
    e.op.SnapshotMigrationOp? && o.calls == [W.SnapshotCall] && o.reply.Snapshotted? && o.cell.record.Some?
  }

  function TakenBy(sys: System, step: Step): set<Snapshot> {
    match Executed(sys, step)
    case None => {}
    case Some(e) =>
      var o := OutcomeOf(sys, e);
      if TakesSnapshot(e, o) then {Snapshot(e.op.m, o.cell.record.value.files)} else {}
  }

  function Taken(steps: seq<Step>): set<Snapshot> {
    if steps == [] then {}
    else Taken(steps[..|steps| - 1]) + TakenBy(Run(steps[..|steps| - 1]), steps[|steps| - 1])
  }

  /** No pull of the run renames over a registered artifact and then fails to sync its directory. */
  predicate Overwriting(sys: System, step: Step) {
    match Executed(sys, step)
    case None => false
    case Some(e) => WD.Overwrites(CellAt(sys, e.w, e.s), e.s, e.op, e.f)
  }

  predicate NeverOverwrites(steps: seq<Step>) {
    steps == []
    || (NeverOverwrites(steps[..|steps| - 1]) && !Overwriting(Run(steps[..|steps| - 1]), steps[|steps| - 1]))
  }

  // ---- The invariant ----

  /** The manifest describes the files of a snapshot that was taken for its migration. */
  predicate Describes(manifest: Manifest, snapshot: Snapshot) {
    && snapshot.m == manifest.migrationId
    && StateFile in snapshot.files && MemoryFile in snapshot.files && DiskFile in snapshot.files
    && manifest.artifacts == W.DescribeAll(snapshot.files)
  }

  predicate Backed(taken: set<Snapshot>, manifest: Manifest) {
    exists snapshot :: snapshot in taken && Describes(manifest, snapshot)
  }

  /** At one worker: what it says it took for this sandbox was taken, and what it registered is on
      its disk. */
  predicate CellBacked(taken: set<Snapshot>, c: W.Cell, s: Sid) {
    && (forall k | k in c.manifests && c.manifests[k].sandboxId == s :: Backed(taken, c.manifests[k]))
    && WD.RegisteredIsOnDisk(c)
  }

  predicate Backs(taken: set<Snapshot>, manifest: Option<Manifest>) {
    manifest.Some? ==> Backed(taken, manifest.value)
  }

  ghost predicate RowBacked(taken: set<Snapshot>, sys: System, m: Mid) {
    && (m in sys.db.migrations ==> Backs(taken, sys.db.migrations[m].manifest))
    && (RunnerOf(sys, m).Acknowledged? ==> Backs(taken, RunnerOf(sys, m).manifest))
  }

  ghost predicate Content(sys: System, taken: set<Snapshot>) {
    && (forall w, s :: CellBacked(taken, CellAt(sys, w, s), s))
    && (forall m :: RowBacked(taken, sys, m))
  }

  lemma BackedStays(taken: set<Snapshot>, more: set<Snapshot>, manifest: Manifest)
    requires Backed(taken, manifest)
    ensures Backed(taken + more, manifest)
  {
    var snapshot :| snapshot in taken && Describes(manifest, snapshot);
    assert snapshot in taken + more;
  }

  // ---- One operation ----

  lemma ExecutionKeepsBacked(taken: set<Snapshot>, c: W.Cell, e: Execution)
    requires CellInv(c) && CellBacked(taken, c, e.s) && !WD.Overwrites(c, e.s, e.op, e.f)
    ensures var o := W.Exec(c, e.w, e.s, e.op, e.f);
            var more := if TakesSnapshot(e, o) then {Snapshot(e.op.m, o.cell.record.value.files)} else {};
            && CellBacked(taken + more, o.cell, e.s)
            && (e.op.SnapshotMigrationOp? && o.reply.Snapshotted? ==> Backed(taken + more, o.reply.manifest))
  {
    var o := W.Exec(c, e.w, e.s, e.op, e.f);
    var more := if TakesSnapshot(e, o) then {Snapshot(e.op.m, o.cell.record.value.files)} else {};
    WD.DiskIsKeptUnlessOverwritten(c, e.w, e.s, e.op, e.f);
    forall k | k in c.manifests && c.manifests[k].sandboxId == e.s ensures Backed(taken + more, c.manifests[k]) {
      BackedStays(taken, more, c.manifests[k]);
    }
    if e.op.SnapshotMigrationOp? {
      SnapshotIsTaken(c, e.s, e.op.epoch, e.op.m, e.f);
      if o.reply.Snapshotted? && e.op.m !in c.manifests {
        var snapshot := Snapshot(e.op.m, o.cell.record.value.files);
        assert snapshot in taken + more && Describes(o.reply.manifest, snapshot);
      }
    } else if e.op.SnapshotOp? {
      DirectSnapshotKeepsManifests(c, e.s, e.op.epoch, e.op.m, e.f);
    } else {
      WE.ExecEffect(c, e.w, e.s, e.op, e.f);
      ManifestsStay(c, e.s, e.op, o);
    }
  }

  lemma DirectSnapshotKeepsManifests(c: W.Cell, s: Sid, epoch: nat, m: Mid, f: W.Faults)
    ensures W.Snapshot(c, s, epoch, m, f).cell.manifests == c.manifests
  {
  }

  lemma ManifestsStay(c: W.Cell, s: Sid, op: W.Op, o: W.Outcome)
    requires WE.Effect(c, s, op, o) && !op.SnapshotMigrationOp? && !op.SnapshotOp?
    ensures o.cell.manifests == c.manifests
  {
  }

  /** A snapshot that is acknowledged was taken now, or is remembered. */
  lemma SnapshotIsTaken(c: W.Cell, s: Sid, epoch: nat, m: Mid, f: W.Faults)
    ensures var o := W.SnapshotMigration(c, s, epoch, m, f);
            if o.reply.Snapshotted? then
              if m in c.manifests then
                o.cell == c && o.reply.manifest == c.manifests[m] && c.manifests[m].sandboxId == s && o.calls == []
              else
                && o.calls == [W.SnapshotCall] && o.cell.record.Some?
                && o.cell.manifests == c.manifests[m := o.reply.manifest]
                && Describes(o.reply.manifest, Snapshot(m, o.cell.record.value.files))
            else o.cell.manifests == c.manifests
  {
    if m !in c.manifests {
      NewSnapshot(c, s, epoch, m, f);
    }
  }

  lemma NewSnapshot(c: W.Cell, s: Sid, epoch: nat, m: Mid, f: W.Faults)
    ensures var o := W.Snapshot(c, s, epoch, m, f);
            && o.cell.manifests == c.manifests
            && (o.reply.Snapshotted? ==>
                  && o.calls == [W.SnapshotCall] && o.cell.record.Some?
                  && Describes(o.reply.manifest, Snapshot(m, o.cell.record.value.files)))
  {
    var g := W.MutableRecord(c, epoch, Some(W.Paused), f);
    assert g.cell.manifests == c.manifests;
  }

  // ---- The cells after a step ----

  ghost predicate CellStep(sys: System, step: Step, w: Wid, s: Sid, later: W.Cell) {
    var c := CellAt(sys, w, s);
    || later == c
    || (exists op, f :: Executed(sys, step) == Some(Execution(w, s, op, f)) && later == W.Exec(c, w, s, op, f).cell)
    || (step.RestartWorker? && later == W.Restarted(c, step.reloaded, step.vmSurvives))
    || (step.GuestWrite? && later == W.GuestWrites(c, step.content))
    || (step.Elsewhere? && (forall k | k in step.manifests :: step.manifests[k].sandboxId != s)
        && later == c.(consumed := c.consumed + step.consumed, manifests := step.manifests + c.manifests))
  }

  lemma ExecutedCells(sys: System, step: Step, w: Wid, s: Sid)
    requires step.Call? || step.BootCall? || step.GuestRequest?
    ensures CellStep(sys, step, w, s, CellAt(Take(sys, step), w, s))
  {
    if Executed(sys, step).Some? {
      var e := Executed(sys, step).value;
      assert CellAt(Take(sys, step), w, s)
          == if w == e.w && s == e.s then W.Exec(CellAt(sys, w, s), w, s, e.op, e.f).cell else CellAt(sys, w, s);
      assert e == Execution(e.w, e.s, e.op, e.f);
    }
  }

  lemma OtherCells(sys: System, step: Step, w: Wid, s: Sid)
    requires !step.Call? && !step.BootCall? && !step.GuestRequest?
    ensures CellStep(sys, step, w, s, CellAt(Take(sys, step), w, s))
  {
  }

  lemma CellsAfter(sys: System, step: Step, w: Wid, s: Sid)
    ensures CellStep(sys, step, w, s, CellAt(Take(sys, step), w, s))
  {
    if step.Call? || step.BootCall? || step.GuestRequest? {
      ExecutedCells(sys, step, w, s);
    } else {
      OtherCells(sys, step, w, s);
    }
  }

  lemma CellStaysBacked(sys: System, step: Step, taken: set<Snapshot>, w: Wid, s: Sid)
    requires Inv(sys) && CellBacked(taken, CellAt(sys, w, s), s) && !Overwriting(sys, step)
    ensures CellBacked(taken + TakenBy(sys, step), CellAt(Take(sys, step), w, s), s)
  {
    var c, later := CellAt(sys, w, s), CellAt(Take(sys, step), w, s);
    assert CellInv(c);
    CellsAfter(sys, step, w, s);
    if op, f :| Executed(sys, step) == Some(Execution(w, s, op, f)) && later == W.Exec(c, w, s, op, f).cell {
      ExecutionKeepsBacked(taken, c, Execution(w, s, op, f));
    } else {
      UnexecutedStaysBacked(sys, step, taken, w, s, later);
    }
  }

  lemma UnexecutedStaysBacked(sys: System, step: Step, taken: set<Snapshot>, w: Wid, s: Sid, later: W.Cell)
    requires CellStep(sys, step, w, s, later) && CellBacked(taken, CellAt(sys, w, s), s)
    requires !exists op, f :: Executed(sys, step) == Some(Execution(w, s, op, f))
                              && later == W.Exec(CellAt(sys, w, s), w, s, op, f).cell
    ensures CellBacked(taken + TakenBy(sys, step), later, s)
  {
    var c := CellAt(sys, w, s);
    forall k | k in c.manifests && c.manifests[k].sandboxId == s
      ensures Backed(taken + TakenBy(sys, step), c.manifests[k])
    {
      BackedStays(taken, TakenBy(sys, step), c.manifests[k]);
    }
  }

  // ---- Rows and runners after a step ----

  lemma BacksStay(taken: set<Snapshot>, more: set<Snapshot>, manifest: Option<Manifest>)
    requires Backs(taken, manifest)
    ensures Backs(taken + more, manifest)
  {
    if manifest.Some? {
      BackedStays(taken, more, manifest.value);
    }
  }

  /** Where a step takes the manifest of a row or of a runner from. */
  lemma ManifestsAfter(sys: System, step: Step, m: Mid)
    requires Inv(sys)
    ensures var later := Take(sys, step);
            && (m in later.db.migrations && later.db.migrations[m].manifest.Some? ==>
                  || (m in sys.db.migrations && later.db.migrations[m].manifest == sys.db.migrations[m].manifest)
                  || (RunnerOf(sys, m).Acknowledged? && later.db.migrations[m].manifest == RunnerOf(sys, m).manifest))
            && (RunnerOf(later, m).Acknowledged? && RunnerOf(later, m).manifest.Some? ==>
                  || RunnerOf(later, m) == RunnerOf(sys, m)
                  || (Executed(sys, step).Some? && Executed(sys, step).value.op.SnapshotMigrationOp?
                      && OutcomeOf(sys, Executed(sys, step).value).reply == W.Snapshotted(RunnerOf(later, m).manifest.value)))
  {
    match step
    case Call(n, f, fate) => CallManifests(sys, n, f, fate, m);
    case CommitAcknowledged(n, bytes) => CommitManifests(sys, n, bytes, m);
    case RecoverFailed(n) => RecoverManifests(sys, n, m);
    case _ =>
  }

  lemma CallManifests(sys: System, n: Mid, f: W.Faults, fate: Fate, m: Mid)
    ensures var later := Issue(sys, n, f, fate);
            && later.db == sys.db
            && (RunnerOf(later, m).Acknowledged? && RunnerOf(later, m).manifest.Some? ==>
                  || RunnerOf(later, m) == RunnerOf(sys, m)
                  || (Executed(sys, Call(n, f, fate)).Some? && Executed(sys, Call(n, f, fate)).value.op.SnapshotMigrationOp?
                      && OutcomeOf(sys, Executed(sys, Call(n, f, fate)).value).reply
                         == W.Snapshotted(RunnerOf(later, m).manifest.value)))
  {
  }

  lemma CommitManifests(sys: System, n: Mid, bytes: Option<nat>, m: Mid)
    requires Inv(sys)
    ensures var later := Commit(sys, n, bytes);
            && (m in later.db.migrations ==>
                  m in sys.db.migrations
                  && (later.db.migrations[m].manifest == sys.db.migrations[m].manifest
                      || (RunnerOf(sys, m).Acknowledged? && later.db.migrations[m].manifest == RunnerOf(sys, m).manifest)))
            && (RunnerOf(later, m).Acknowledged? ==> RunnerOf(later, m) == RunnerOf(sys, m))
  {
    if n in sys.db.migrations && RunnerOf(sys, n).Acknowledged? {
      PP.TransactionMoves(sys.db, CommitStep(n, sys.db.migrations[n], RunnerOf(sys, n).manifest, bytes));
    }
  }

  lemma RecoverManifests(sys: System, n: Mid, m: Mid)
    requires Inv(sys)
    ensures var later := Recover(sys, n);
            && (m in later.db.migrations ==>
                  m in sys.db.migrations && later.db.migrations[m].manifest == sys.db.migrations[m].manifest)
            && (RunnerOf(later, m).Acknowledged? ==> RunnerOf(later, m) == RunnerOf(sys, m))
  {
    if MayRecover(sys, n) {
      var step := RecoveryStep(n, sys.db.migrations[n]);
      PP.RecoveryIsDisciplined(n, sys.db.migrations[n]);
      RecoveryKeepsManifests(sys.db, step, m);
    }
  }

  lemma RecoveryKeepsManifests(db: C.Db, step: CI.Step, m: Mid)
    requires step.RollbackStep? || (step.AdvanceStep? && step.attrs.manifest.None?)
    ensures var later := CI.Apply(db, step);
            m in later.migrations ==> m in db.migrations && later.migrations[m].manifest == db.migrations[m].manifest
  {
  }

  lemma RowStaysBacked(sys: System, step: Step, taken: set<Snapshot>, m: Mid)
    requires Inv(sys) && Content(sys, taken) && !Overwriting(sys, step)
    ensures RowBacked(taken + TakenBy(sys, step), Take(sys, step), m)
  {
    var more := TakenBy(sys, step);
    ManifestsAfter(sys, step, m);
    assert RowBacked(taken, sys, m);
    if m in sys.db.migrations {
      BacksStay(taken, more, sys.db.migrations[m].manifest);
    }
    if RunnerOf(sys, m).Acknowledged? {
      BacksStay(taken, more, RunnerOf(sys, m).manifest);
    }
    if Executed(sys, step).Some? {
      var e := Executed(sys, step).value;
      assert CellInv(CellAt(sys, e.w, e.s)) && CellBacked(taken, CellAt(sys, e.w, e.s), e.s);
      ExecutionKeepsBacked(taken, CellAt(sys, e.w, e.s), e);
    }
  }

  lemma InitialContent()
    ensures Content(Initial, {})
  {
    assert forall w, s :: CellAt(Initial, w, s) == W.Vacant;
  }

  lemma {:induction false} RunsKeepContent(steps: seq<Step>)
    requires NeverOverwrites(steps)
    ensures Content(Run(steps), Taken(steps))
  {
    if steps == [] {
      InitialContent();
    } else {
      var earlier, last := steps[..|steps| - 1], steps[|steps| - 1];
      RunsKeepContent(earlier);
      PP.RunKeepsInv(earlier);
      var sys, taken := Run(earlier), Taken(earlier);
      forall w, s ensures CellBacked(Taken(steps), CellAt(Run(steps), w, s), s) {
        assert CellBacked(taken, CellAt(sys, w, s), s);
        CellStaysBacked(sys, last, taken, w, s);
      }
      forall m ensures RowBacked(Taken(steps), Run(steps), m) {
        RowStaysBacked(sys, last, taken, m);
      }
    }
  }

  // ---- What is loaded ----

  lemma LoadIsOfTheRow(sys: System, step: Step, e: Execution, manifest: Manifest, files: map<Kind, Bytes>)
    requires Inv(sys) && Executed(sys, step) == Some(e)
    requires W.LoadCall(manifest, files) in OutcomeOf(sys, e).calls
    ensures step.Call? && step.m in sys.db.migrations
    ensures sys.db.migrations[step.m].manifest == Some(manifest) && sys.db.migrations[step.m].phase.Loading?
    ensures e.w == sys.db.migrations[step.m].destination && e.s == sys.db.migrations[step.m].sandbox
    ensures var c := CellAt(sys, e.w, e.s);
            c.record.Some? && c.record.value.state.Booting? && files == c.record.value.files
            && W.AllRegistered(c.record.value, manifest)
  {
    var c := CellAt(sys, e.w, e.s);
    assert CellInv(c);
    WE.ExecEffect(c, e.w, e.s, e.op, e.f);
    LoadEffect(c, e.s, e.op, OutcomeOf(sys, e), manifest, files);
  }

  lemma LoadEffect(c: W.Cell, s: Sid, op: W.Op, o: W.Outcome, manifest: Manifest, files: map<Kind, Bytes>)
    requires WE.Effect(c, s, op, o) && W.LoadCall(manifest, files) in o.calls
    ensures op.LoadOp? && op.manifest == manifest
    ensures c.record.Some? && c.record.value.state.Booting? && files == c.record.value.files
            && W.AllRegistered(c.record.value, manifest)
  {
  }

  lemma SameDigestSameBytes(files: map<Kind, Bytes>, manifest: Manifest, snapshot: Snapshot, kind: Kind)
    requires AllOnDisk(files, manifest) && Describes(manifest, snapshot)
    ensures kind in files && kind in snapshot.files && files[kind] == snapshot.files[kind]
  {
    assert kind in AllKinds by {
      match kind case StateFile => case MemoryFile => case DiskFile =>
    }
    assert Matches(files[kind], Describe(snapshot.files[kind]));
  }

  /** In every run in which no pull is overwritten: when a destination's Firecracker is asked to load,
      it is for the active migration's own manifest, and the files it reads are, byte for byte, those
      that a snapshot of that migration left at its source. */
  lemma LoadedIsWhatWasSnapshotted(steps: seq<Step>, step: Step, manifest: Manifest, files: map<Kind, Bytes>)
    returns (snapshot: Snapshot)
    requires NeverOverwrites(steps)
    requires var e := Executed(Run(steps), step);
             e.Some? && W.LoadCall(manifest, files) in OutcomeOf(Run(steps), e.value).calls
    ensures step.Call? && step.m == manifest.migrationId && step.m in Run(steps).db.migrations
    ensures Executed(Run(steps), step).value.w == Run(steps).db.migrations[step.m].destination
    ensures snapshot in Taken(steps) && snapshot.m == step.m
    ensures forall kind: Kind :: kind in files && kind in snapshot.files && files[kind] == snapshot.files[kind]
  {
    var sys := Run(steps);
    var e := Executed(sys, step).value;
    PP.RunKeepsInv(steps);
    RunsKeepContent(steps);
    LoadIsOfTheRow(sys, step, e, manifest, files);
    PP.ActivePhaseInv(sys, step.m);
    assert RowBacked(Taken(steps), sys, step.m);
    snapshot :| snapshot in Taken(steps) && Describes(manifest, snapshot);
    assert CellBacked(Taken(steps), CellAt(sys, e.w, e.s), e.s);
    forall kind: Kind ensures kind in files && kind in snapshot.files && files[kind] == snapshot.files[kind] {
      SameDigestSameBytes(files, manifest, snapshot, kind);
    }
  }

  // ---- One snapshot per migration ----

  predicate BeforeSnapshot(p: P.Phase) {
    p.Preparing? || p.Reserving? || p.Prestaging? || p.Probing? || p.Precopying? || p.Pausing?
  }

  /** The source will not take another snapshot for the migration. */
  predicate WillNotSnapshot(c: W.Cell, m: Mid) {
    m in c.manifests || c.record.None?
  }

  /** The migration took its snapshot, and is past it or its source remembers or is gone. */
  ghost predicate Past(sys: System, m: Mid) {
    && m in sys.db.migrations
    && var row := sys.db.migrations[m];
    && !BeforeSnapshot(row.phase)
    && (row.phase.Snapshotting? ==> WillNotSnapshot(CellAt(sys, row.source, row.sandbox), m))
  }

  ghost predicate OncePerMigration(sys: System, taken: set<Snapshot>) {
    && (forall snapshot | snapshot in taken :: Past(sys, snapshot.m))
    && (forall a, b | a in taken && b in taken && a.m == b.m :: a == b)
  }

  lemma WillNotSnapshotStays(c: W.Cell, w: Wid, s: Sid, op: W.Op, f: W.Faults, m: Mid)
    requires CellInv(c) && WillNotSnapshot(c, m) && !op.CreateOp? && !op.PrepareOp?
    ensures WillNotSnapshot(W.Exec(c, w, s, op, f).cell, m)
  {
    WE.ExecEffect(c, w, s, op, f);
    EffectWillNot(c, s, op, W.Exec(c, w, s, op, f), m);
  }

  lemma EffectWillNot(c: W.Cell, s: Sid, op: W.Op, o: W.Outcome, m: Mid)
    requires WE.Effect(c, s, op, o) && WillNotSnapshot(c, m) && !op.CreateOp? && !op.PrepareOp?
    ensures WillNotSnapshot(o.cell, m)
  {
  }

  /** What runs at the source of a migration in SNAPSHOTTING is only its snapshot and guest calls. */
  lemma OnlySnapshotsRun(sys: System, step: Step, m: Mid, op: W.Op, f: W.Faults)
    requires Inv(sys) && m in sys.db.migrations && sys.db.migrations[m].phase.Snapshotting?
    requires var row := sys.db.migrations[m]; Executed(sys, step) == Some(Execution(row.source, row.sandbox, op, f))
    ensures (op.SnapshotMigrationOp? && op.m == m) || op.GuestOp?
  {
    TheActiveOne(sys.db, m);
    match step
    case Call(n, _, _) => TheActiveOne(sys.db, n);
    case _ =>
  }

  /** An unfinished migration is the active one of its sandbox, which is not booting. */
  lemma TheActiveOne(db: C.Db, m: Mid)
    requires CI.Valid(db) && m in db.migrations && !P.Terminal(db.migrations[m].phase)
    ensures var s := db.migrations[m].sandbox;
            s in db.sandboxes && db.sandboxes[s].active == Some(m) && !db.sandboxes[s].state.SandboxBooting?
  {
    assert CI.GoodMigration(db, m);
    assert CI.GoodSandbox(db, db.migrations[m].sandbox);
  }

  lemma SourceStaysPast(sys: System, step: Step, m: Mid)
    requires Inv(sys) && Past(sys, m) && sys.db.migrations[m].phase.Snapshotting?
    ensures var row := sys.db.migrations[m];
            WillNotSnapshot(CellAt(Take(sys, step), row.source, row.sandbox), m)
  {
    var row := sys.db.migrations[m];
    var c, later := CellAt(sys, row.source, row.sandbox), CellAt(Take(sys, step), row.source, row.sandbox);
    assert CellInv(c);
    CellsAfter(sys, step, row.source, row.sandbox);
    if op, f :| Executed(sys, step) == Some(Execution(row.source, row.sandbox, op, f))
                && later == W.Exec(c, row.source, row.sandbox, op, f).cell {
      OnlySnapshotsRun(sys, step, m, op, f);
      WillNotSnapshotStays(c, row.source, row.sandbox, op, f, m);
    }
  }

  /** The row keeps its source and sandbox and stays in its phase or moves on. */
  ghost predicate MovesOn(db: C.Db, later: C.Db, m: Mid) {
    && m in db.migrations && m in later.migrations
    && later.migrations[m].source == db.migrations[m].source
    && later.migrations[m].sandbox == db.migrations[m].sandbox
    && (later.migrations[m].phase == db.migrations[m].phase
        || P.CanMove(db.migrations[m].phase, later.migrations[m].phase))
  }

  lemma RowsMoveOn(sys: System, step: Step, m: Mid)
    requires Inv(sys) && m in sys.db.migrations
    ensures MovesOn(sys.db, Take(sys, step).db, m)
  {
    match step
    case Api(s) => if FromApi(s) { ApiKeepsRows(sys.db, s, m); }
    case CommitAcknowledged(n, bytes) => CommitMovesOn(sys, n, bytes, m);
    case RecoverFailed(n) => RecoverMovesOn(sys, n, m);
    case _ => assert Take(sys, step).db == sys.db;
  }

  lemma CommitMovesOn(sys: System, n: Mid, bytes: Option<nat>, m: Mid)
    requires Inv(sys) && m in sys.db.migrations
    ensures MovesOn(sys.db, Commit(sys, n, bytes).db, m)
  {
    if n in sys.db.migrations && RunnerOf(sys, n).Acknowledged? {
      PP.TransactionMoves(sys.db, CommitStep(n, sys.db.migrations[n], RunnerOf(sys, n).manifest, bytes));
    }
  }

  lemma RecoverMovesOn(sys: System, n: Mid, m: Mid)
    requires Inv(sys) && m in sys.db.migrations
    ensures MovesOn(sys.db, Recover(sys, n).db, m)
  {
    if MayRecover(sys, n) {
      PP.RecoveryIsDisciplined(n, sys.db.migrations[n]);
      PP.TransactionMoves(sys.db, RecoveryStep(n, sys.db.migrations[n]));
    }
  }

  lemma ApiKeepsRows(db: C.Db, step: CI.Step, m: Mid)
    requires FromApi(step) && m in db.migrations
    ensures m in CI.Apply(db, step).migrations && CI.Apply(db, step).migrations[m] == db.migrations[m]
  {
  }

  lemma NoWayBack(p: P.Phase, next: P.Phase)
    requires !BeforeSnapshot(p) && (next == p || P.CanMove(p, next))
    ensures !BeforeSnapshot(next) && (next.Snapshotting? ==> p.Snapshotting?)
  {
  }

  lemma StaysPast(sys: System, step: Step, m: Mid)
    requires Inv(sys) && Past(sys, m)
    ensures Past(Take(sys, step), m)
  {
    var later := Take(sys, step);
    RowsMoveOn(sys, step, m);
    NoWayBack(sys.db.migrations[m].phase, later.db.migrations[m].phase);
    if later.db.migrations[m].phase.Snapshotting? {
      SourceStaysPast(sys, step, m);
    }
  }

  /** A snapshot is taken by the migration in SNAPSHOTTING at its source, which then remembers it. */
  lemma TakenIsPast(sys: System, step: Step, snapshot: Snapshot)
    requires Inv(sys) && snapshot in TakenBy(sys, step)
    ensures TakenBy(sys, step) == {snapshot}
    ensures !Past(sys, snapshot.m) && Past(Take(sys, step), snapshot.m)
  {
    var e := Executed(sys, step).value;
    var c, o := CellAt(sys, e.w, e.s), OutcomeOf(sys, e);
    SnapshotIsOfTheRow(sys, step, e);
    SnapshotIsTaken(c, e.s, e.op.epoch, e.op.m, e.f);
    SnapshotNeedsRecord(c, e.s, e.op.epoch, e.op.m, e.f);
  }

  lemma SnapshotIsOfTheRow(sys: System, step: Step, e: Execution)
    requires Executed(sys, step) == Some(e) && e.op.SnapshotMigrationOp?
    ensures step.Call? && step.m in sys.db.migrations && e.op.m == step.m
    ensures var row := sys.db.migrations[step.m];
            row.phase.Snapshotting? && e.w == row.source && e.s == row.sandbox
    ensures Take(sys, step).db == sys.db && CellAt(Take(sys, step), e.w, e.s) == OutcomeOf(sys, e).cell
  {
  }

  lemma SnapshotNeedsRecord(c: W.Cell, s: Sid, epoch: nat, m: Mid, f: W.Faults)
    requires W.SnapshotMigration(c, s, epoch, m, f).calls == [W.SnapshotCall]
    ensures c.record.Some? && m !in c.manifests
  {
  }

  lemma {:induction false} RunsTakeOnce(steps: seq<Step>)
    ensures OncePerMigration(Run(steps), Taken(steps))
  {
    if steps != [] {
      var earlier, last := steps[..|steps| - 1], steps[|steps| - 1];
      RunsTakeOnce(earlier);
      PP.RunKeepsInv(earlier);
      var sys, taken := Run(earlier), Taken(earlier);
      forall snapshot | snapshot in Taken(steps) ensures Past(Run(steps), snapshot.m) {
        if snapshot in taken {
          StaysPast(sys, last, snapshot.m);
        } else {
          TakenIsPast(sys, last, snapshot);
        }
      }
      forall a, b | a in Taken(steps) && b in Taken(steps) && a.m == b.m ensures a == b {
        if a !in taken {
          TakenIsPast(sys, last, a);
        }
        if b !in taken {
          TakenIsPast(sys, last, b);
        }
      }
    }
  }

  /** Over all crashes, retries and lost replies, no migration takes two snapshots; so the snapshot
      whose files are loaded is the only one there is. */
  lemma SnapshotsAreTakenOnce(steps: seq<Step>, a: Snapshot, b: Snapshot)
    requires a in Taken(steps) && b in Taken(steps) && a.m == b.m
    ensures a == b
  {
    RunsTakeOnce(steps);
  }
}
