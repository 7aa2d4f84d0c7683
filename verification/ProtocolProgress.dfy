/** The calls of the phases fit together: a migration in which nothing fails runs from PREPARING to
    DONE, and moves the VM. */
module ProtocolProgress {
  import opened Prelude
  import opened Artifacts
  import P = Phases
  import C = Coordinator
  import CI = CoordinatorInvariants
  import CP = CoordinatorProofs
  import W = Worker
  import E = Epochs
  import opened Protocol
  import opened ProtocolSafety
  import PP = ProtocolProofs

  /** A call that is answered and the commit that follows. */
  function Round(sys: System, m: Mid, f: W.Faults): System {
    Commit(Issue(sys, m, f, Answered), m, None)
  }

  function Rounds(sys: System, m: Mid, f: W.Faults, n: nat): System
    decreases n
  {
    if n == 0 then sys else Rounds(Round(sys, m, f), m, f, n - 1)
  }

  /** Nothing fails; what the snapshot writes and the pulls fetch is `f.bytes`. */
  predicate Smooth(f: W.Faults) {
    && f.persist.NoFault? && f.compatible && f.peer && f.firecracker.Works? && f.fencePause.Works?
    && f.veth && f.guest && f.files && f.stage.NoStageFails? && f.unsynced == {}
    && StateFile in f.bytes && MemoryFile in f.bytes && DiskFile in f.bytes
  }

  // ---- Where both workers are in each phase ----

  predicate BeforePause(p: P.Phase) {
    p.Preparing? || p.Reserving? || p.Prestaging? || p.Probing? || p.Precopying? || p.Pausing?
  }

  predicate SourceAt(p: P.Phase, m: Mid, row: C.MigrationRow, machine: Machine, c: W.Cell, disk: Bytes) {
    && c.record.Some? && c.accepted == row.epochBefore && c.record.value.epoch == row.epochBefore
    && c.record.value.machine == machine && c.record.value.quarantine.None?
    && (BeforePause(p) || p.Snapshotting? ==> m !in c.manifests && W.ContentOf(c.record.value.files, DiskFile) == disk)
    && (BeforePause(p) ==> c.record.value.state.Running? && c.vm.Executing?)
    && (!BeforePause(p) ==> c.record.value.state.Paused? && c.vm.Halted?)
  }

  predicate Vacated(m: Mid, row: C.MigrationRow, c: W.Cell) {
    c.record.Some? && c.record.value.state.Quarantined? && c.record.value.quarantine == Some(m) && c.vm.Absent?
    && c.accepted == row.epochAfter
  }

  predicate Unclaimed(row: C.MigrationRow, d: W.Cell) {
    d.record.None? && !d.claimed && d.vm.Absent? && d.accepted <= row.epochAfter
  }

  predicate Reserved(row: C.MigrationRow, machine: Machine, d: W.Cell, state: W.RecordState) {
    && d.record.Some? && d.accepted == row.epochAfter && d.record.value.epoch == row.epochAfter
    && d.record.value.machine == machine && d.record.value.state == state
  }

  predicate DestinationAt(p: P.Phase, m: Mid, row: C.MigrationRow, machine: Machine, d: W.Cell) {
    match p
    case Preparing => Unclaimed(row, d) && m !in d.reservations && m !in d.consumed
    case Reserving => Unclaimed(row, d) && m !in d.reservations && m !in d.consumed
    case Prestaging =>
      && Unclaimed(row, d) && m !in d.consumed && m in d.reservations
      && d.reservations[m] == W.Reservation(row.epochAfter, row.source, row.destination, machine, false)
    case Loading =>
      && Reserved(row, machine, d, W.Booting) && d.vm.Unbooted? && m !in d.consumed && row.manifest.Some?
      && W.AllRegistered(d.record.value, row.manifest.value)
    case Resuming =>
      Reserved(row, machine, d, W.Paused) && d.vm.Halted? && m !in d.consumed && d.record.value.loaded == Some(m)
    case _ =>
      if p.Verifying? || p.Cutover? || p.Cleanup? || p.Done? then Reserved(row, machine, d, W.Running) && d.vm.Executing?
      else Reserved(row, machine, d, W.Booting) && d.vm.Unbooted? && m !in d.consumed
  }

  predicate ManifestAt(p: P.Phase, m: Mid, row: C.MigrationRow, machine: Machine, bytes: map<Kind, Bytes>)
    requires StateFile in bytes && MemoryFile in bytes && DiskFile in bytes
  {
    p.Transferring? || p.Loading? ==>
      row.manifest == Some(Manifest(m, row.sandbox, row.epochBefore, machine, W.DescribeAll(Kept(bytes))))
  }

  /** The three artifacts alone. */
  function Kept(bytes: map<Kind, Bytes>): map<Kind, Bytes>
    requires StateFile in bytes && MemoryFile in bytes && DiskFile in bytes
  {
    map[StateFile := bytes[StateFile], MemoryFile := bytes[MemoryFile], DiskFile := bytes[DiskFile]]
  }

  predicate OnTrack(p: P.Phase, m: Mid, row: C.MigrationRow, machine: Machine, c: W.Cell, d: W.Cell, f: W.Faults)
    requires Smooth(f)
  {
    && row.epochAfter == row.epochBefore + 1 <= E.MaxSafeInteger && W.ValidMachine(machine)
    && (if p.Done? then Vacated(m, row, c) else SourceAt(p, m, row, machine, c, f.bytes[DiskFile]))
    && DestinationAt(p, m, row, machine, d)
    && ManifestAt(p, m, row, machine, f.bytes)
  }

  // ---- Each call succeeds and leads on ----

  /** Both cells after the call of the phase. */
  ghost predicate LeadsOn(m: Mid, row: C.MigrationRow, machine: Machine, c: W.Cell, d: W.Cell, f: W.Faults,
                          w: Wid, op: W.Op, o: W.Outcome)
    requires Smooth(f)
  {
    && Satisfies(row.phase, o.reply)
    && (w == row.source || w == row.destination)
    && var next := Following(row.phase);
       var later := row.(phase := next, manifest := ManifestAfter(row, o.reply));
       OnTrack(next, m, later, machine, if w == row.source then o.cell else c,
               if w == row.source then d else o.cell, f)
  }

  function Following(p: P.Phase): P.Phase {
    if p.Loading? then P.Resuming else if p.Cutover? then P.Cleanup else NextPhase(p)
  }

  function ManifestAfter(row: C.MigrationRow, reply: W.Reply): Option<Manifest> {
    if row.phase.Snapshotting? && reply.Snapshotted? then Some(reply.manifest) else row.manifest
  }

  lemma PreparationLeadsOn(m: Mid, row: C.MigrationRow, machine: Machine, c: W.Cell, d: W.Cell, f: W.Faults,
                           w: Wid, op: W.Op)
    requires Smooth(f) && row.source != row.destination && OnTrack(row.phase, m, row, machine, c, d, f)
    requires row.phase.Reserving? || row.phase.Prestaging?
    requires CallOf(m, row, machine) == CallTo(w, op)
    ensures LeadsOn(m, row, machine, c, d, f, w, op, W.Exec(if w == row.source then c else d, w, row.sandbox, op, f))
  {
  }

  /** A record at exactly the epoch of the call passes the choke point. */
  lemma AtEpochPasses(c: W.Cell, epoch: nat, state: W.RecordState, f: W.Faults)
    requires c.record.Some? && c.accepted == epoch == c.record.value.epoch <= E.MaxSafeInteger
    requires c.record.value.state == state && !state.Fenced?
    ensures W.MutableRecord(c, epoch, Some(state), f) == W.Gate(c, true, [])
    ensures W.MutableRecord(c, epoch, None, f) == W.Gate(c, true, [])
  {
  }

  lemma ProbeLeadsOn(m: Mid, row: C.MigrationRow, machine: Machine, c: W.Cell, d: W.Cell, f: W.Faults,
           w: Wid, op: W.Op)
    requires Smooth(f) && row.source != row.destination && OnTrack(row.phase, m, row, machine, c, d, f)
    requires (row.phase.Probing? || row.phase.Precopying?) && CallOf(m, row, machine) == CallTo(w, op)
    ensures LeadsOn(m, row, machine, c, d, f, w, op, W.Exec(if w == row.source then c else d, w, row.sandbox, op, f))
  {
    AtEpochPasses(c, row.epochBefore, W.Running, f);
  }

  lemma PauseLeadsOn(m: Mid, row: C.MigrationRow, machine: Machine, c: W.Cell, d: W.Cell, f: W.Faults,
           w: Wid, op: W.Op)
    requires Smooth(f) && row.source != row.destination && OnTrack(row.phase, m, row, machine, c, d, f)
    requires row.phase.Pausing? && CallOf(m, row, machine) == CallTo(w, op)
    ensures LeadsOn(m, row, machine, c, d, f, w, op, W.Exec(if w == row.source then c else d, w, row.sandbox, op, f))
  {
    AtEpochPasses(c, row.epochBefore, W.Running, f);
  }

  lemma SnapshotLeadsOn(m: Mid, row: C.MigrationRow, machine: Machine, c: W.Cell, d: W.Cell, f: W.Faults,
                        w: Wid, op: W.Op)
    requires Smooth(f) && row.source != row.destination && OnTrack(row.phase, m, row, machine, c, d, f)
    requires row.phase.Snapshotting?
    requires CallOf(m, row, machine) == CallTo(w, op)
    ensures LeadsOn(m, row, machine, c, d, f, w, op, W.Exec(if w == row.source then c else d, w, row.sandbox, op, f))
  {
    assert W.SnapshotFiles(c.record.value, f) == Kept(f.bytes);
  }

  lemma TransferLeadsOn(m: Mid, row: C.MigrationRow, machine: Machine, c: W.Cell, d: W.Cell, f: W.Faults,
                        w: Wid, op: W.Op)
    requires Smooth(f) && row.source != row.destination && OnTrack(row.phase, m, row, machine, c, d, f)
    requires row.phase.Transferring?
    requires CallOf(m, row, machine) == CallTo(w, op)
    ensures LeadsOn(m, row, machine, c, d, f, w, op, W.Exec(if w == row.source then c else d, w, row.sandbox, op, f))
  {
    SmoothTransfer(d, row.sandbox, row.epochAfter, m, row.manifest.value, f);
  }

  lemma SmoothTransfer(d: W.Cell, id: Sid, epoch: nat, m: Mid, manifest: Manifest, f: W.Faults)
    requires Smooth(f) && manifest.artifacts == W.DescribeAll(Kept(f.bytes)) && manifest.migrationId == m
    requires d.record.Some? && d.record.value.state.Booting? && epoch == d.accepted == d.record.value.epoch
    requires epoch <= E.MaxSafeInteger && manifest.machine == d.record.value.machine
    ensures var o := W.Transfer(d, id, epoch, m, manifest, f);
            && o.reply.Done? && o.cell == d.(record := o.cell.record) && o.cell.record.Some?
            && W.AllRegistered(o.cell.record.value, manifest)
            && o.cell.record.value.state == d.record.value.state
            && o.cell.record.value.epoch == d.record.value.epoch
            && o.cell.record.value.machine == d.record.value.machine
  {
    AtEpochPasses(d, epoch, W.Booting, f);
    assert W.AdmitTransfer(d, id, epoch, m, manifest, f) == W.Gate(d, true, []);
    EverythingIsPulled(d.record.value, manifest, f);
  }

  lemma EverythingIsPulled(record: W.Record, manifest: Manifest, f: W.Faults)
    requires Smooth(f) && manifest.artifacts == W.DescribeAll(Kept(f.bytes))
    ensures W.Committed(manifest, f) == AllKinds
    ensures W.AllRegistered(W.Pulled(record, manifest, f), manifest)
    ensures var pulled := W.Pulled(record, manifest, f);
            pulled.state == record.state && pulled.epoch == record.epoch && pulled.machine == record.machine
  {
    assert forall kind | kind in AllKinds :: Matches(f.bytes[kind], manifest.artifacts[kind]);
  }

  lemma LoadLeadsOn(m: Mid, row: C.MigrationRow, machine: Machine, c: W.Cell, d: W.Cell, f: W.Faults,
           w: Wid, op: W.Op)
    requires Smooth(f) && row.source != row.destination && OnTrack(row.phase, m, row, machine, c, d, f)
    requires row.phase.Loading? && CallOf(m, row, machine) == CallTo(w, op)
    ensures LeadsOn(m, row, machine, c, d, f, w, op, W.Exec(if w == row.source then c else d, w, row.sandbox, op, f))
  {
    AtEpochPasses(d, row.epochAfter, W.Booting, f);
  }

  lemma ResumeLeadsOn(m: Mid, row: C.MigrationRow, machine: Machine, c: W.Cell, d: W.Cell, f: W.Faults,
           w: Wid, op: W.Op)
    requires Smooth(f) && row.source != row.destination && OnTrack(row.phase, m, row, machine, c, d, f)
    requires row.phase.Resuming? && CallOf(m, row, machine) == CallTo(w, op)
    ensures LeadsOn(m, row, machine, c, d, f, w, op, W.Exec(if w == row.source then c else d, w, row.sandbox, op, f))
  {
    AtEpochPasses(d, row.epochAfter, W.Paused, f);
  }

  lemma HandoverLeadsOn(m: Mid, row: C.MigrationRow, machine: Machine, c: W.Cell, d: W.Cell, f: W.Faults,
                        w: Wid, op: W.Op)
    requires Smooth(f) && row.source != row.destination && OnTrack(row.phase, m, row, machine, c, d, f)
    requires row.phase.Verifying? || row.phase.Cutover? || row.phase.Cleanup?
    requires CallOf(m, row, machine) == CallTo(w, op)
    ensures LeadsOn(m, row, machine, c, d, f, w, op, W.Exec(if w == row.source then c else d, w, row.sandbox, op, f))
  {
  }

  predicate OnTheWay(p: P.Phase) {
    !P.Terminal(p) && !p.RollingBackSource?
  }

  lemma CallLeadsOn(m: Mid, row: C.MigrationRow, machine: Machine, c: W.Cell, d: W.Cell, f: W.Faults,
                    w: Wid, op: W.Op)
    requires Smooth(f) && row.source != row.destination && OnTrack(row.phase, m, row, machine, c, d, f)
    requires OnTheWay(row.phase) && CallOf(m, row, machine) == CallTo(w, op)
    ensures LeadsOn(m, row, machine, c, d, f, w, op, W.Exec(if w == row.source then c else d, w, row.sandbox, op, f))
  {
    match row.phase
    case Reserving => PreparationLeadsOn(m, row, machine, c, d, f, w, op);
    case Prestaging => PreparationLeadsOn(m, row, machine, c, d, f, w, op);
    case Probing => ProbeLeadsOn(m, row, machine, c, d, f, w, op);
    case Precopying => ProbeLeadsOn(m, row, machine, c, d, f, w, op);
    case Pausing => PauseLeadsOn(m, row, machine, c, d, f, w, op);
    case Snapshotting => SnapshotLeadsOn(m, row, machine, c, d, f, w, op);
    case Transferring => TransferLeadsOn(m, row, machine, c, d, f, w, op);
    case Loading => LoadLeadsOn(m, row, machine, c, d, f, w, op);
    case Resuming => ResumeLeadsOn(m, row, machine, c, d, f, w, op);
    case Verifying => HandoverLeadsOn(m, row, machine, c, d, f, w, op);
    case Cutover => HandoverLeadsOn(m, row, machine, c, d, f, w, op);
    case Cleanup => HandoverLeadsOn(m, row, machine, c, d, f, w, op);
  }

  // ---- A round ----

  /** The migration is at a phase, its runner about to call, and both workers are where they
      should be. */
  ghost predicate Underway(sys: System, m: Mid, f: W.Faults)
    requires Smooth(f)
  {
    && Inv(sys) && MayCall(sys, m) && OnTheWay(sys.db.migrations[m].phase)
    && var row := sys.db.migrations[m];
    && OnTrack(row.phase, m, row, sys.db.sandboxes[row.sandbox].machine,
               CellAt(sys, row.source, row.sandbox), CellAt(sys, row.destination, row.sandbox), f)
  }

  lemma SourceIsNotDestination(db: C.Db, m: Mid)
    requires CI.Valid(db) && m in db.migrations
    ensures db.migrations[m].source != db.migrations[m].destination
  {
    assert CI.GoodMigration(db, m);
  }

  /** The transaction came to the next phase, and to this manifest. */
  ghost predicate WentThrough(db: C.Db, later: C.Db, m: Mid, manifest: Option<Manifest>)
    requires m in db.migrations
  {
    var row := db.migrations[m];
    && PP.DbMoved(db, later, m, Following(row.phase))
    && later.migrations[m].manifest == manifest
    && later.sandboxes[row.sandbox].machine == db.sandboxes[row.sandbox].machine
  }

  lemma IssueGoesThrough(db: C.Db, m: Mid)
    requires CI.Valid(db) && m in db.migrations && db.migrations[m].phase.Loading?
    ensures WentThrough(db, CI.Apply(db, CI.IssueResumeStep(m)), m, db.migrations[m].manifest)
  {
    assert CI.GoodMigration(db, m);
    CI.IssuedMeansAfterResume(db, m);
    PP.IssueMoves(db, m);
  }

  lemma CutoverGoesThrough(db: C.Db, m: Mid)
    requires CI.Valid(db) && m in db.migrations && db.migrations[m].phase.Cutover?
    ensures WentThrough(db, CI.Apply(db, CI.CutoverStep(m)), m, db.migrations[m].manifest)
  {
    assert CI.GoodMigration(db, m);
    PP.CutoverMoves(db, m);
  }

  lemma AdvanceGoesThrough(db: C.Db, m: Mid, attrs: C.Attrs)
    requires CI.Valid(db) && m in db.migrations && OnTheWay(db.migrations[m].phase)
    requires !db.migrations[m].phase.Loading? && !db.migrations[m].phase.Cutover?
    ensures WentThrough(db, CI.Apply(db, CI.AdvanceStep(m, NextPhase(db.migrations[m].phase), attrs)), m,
                        if attrs.manifest.Some? then attrs.manifest else db.migrations[m].manifest)
  {
    assert CI.GoodMigration(db, m);
    PP.AdvanceMoves(db, m, NextPhase(db.migrations[m].phase), attrs);
  }

  /** The transaction of an acknowledged phase goes through. */
  lemma CommitGoesThrough(db: C.Db, m: Mid, manifest: Option<Manifest>)
    requires CI.Valid(db) && m in db.migrations && OnTheWay(db.migrations[m].phase)
    ensures var row := db.migrations[m];
            WentThrough(db, CI.Apply(db, CommitStep(m, row, manifest, None)), m,
                        if manifest.Some? && !row.phase.Loading? && !row.phase.Cutover? then manifest else row.manifest)
  {
    if db.migrations[m].phase.Loading? {
      IssueGoesThrough(db, m);
    } else if db.migrations[m].phase.Cutover? {
      CutoverGoesThrough(db, m);
    } else {
      AdvanceGoesThrough(db, m, C.Attrs(None, manifest, None));
    }
  }

  /** What a round leaves: the next phase, and both workers where that phase expects them. */
  ghost predicate RoundDone(sys: System, later: System, m: Mid, f: W.Faults)
    requires Smooth(f) && m in sys.db.migrations
  {
    && Inv(later) && m in later.db.migrations
    && var row := sys.db.migrations[m]; var row' := later.db.migrations[m];
    && row'.phase == Following(row.phase) && row'.sandbox == row.sandbox
    && row'.source == row.source && row'.destination == row.destination
    && row'.sandbox in later.db.sandboxes
    && OnTrack(row'.phase, m, row', later.db.sandboxes[row.sandbox].machine,
               CellAt(later, row.source, row.sandbox), CellAt(later, row.destination, row.sandbox), f)
    && row'.epochAfter == row.epochAfter
    && RunnerOf(later, m) == (if row'.phase.Resuming? then ResumeDue else Idle)
    && (row'.phase.Done? ==> later.db.sandboxes[row.sandbox].active.None?
                             && later.db.sandboxes[row.sandbox].worker == row.destination)
  }

  /** OnTrack looks at no other column of the row. */
  lemma OnTrackFrame(p: P.Phase, m: Mid, row: C.MigrationRow, later: C.MigrationRow, machine: Machine,
                     c: W.Cell, d: W.Cell, f: W.Faults)
    requires Smooth(f) && OnTrack(p, m, row, machine, c, d, f)
    requires later.sandbox == row.sandbox && later.source == row.source && later.destination == row.destination
    requires later.epochBefore == row.epochBefore && later.epochAfter == row.epochAfter
    requires later.manifest == row.manifest
    ensures OnTrack(p, m, later, machine, c, d, f)
  {
  }

  lemma CommitShape(called: System, m: Mid, manifest: Option<Manifest>)
    requires Inv(called) && m in called.db.migrations && OnTheWay(called.db.migrations[m].phase)
    requires RunnerOf(called, m) == Acknowledged(manifest)
    ensures var row := called.db.migrations[m];
            var later := Commit(called, m, None);
            && later.cells == called.cells
            && later.db == CI.Apply(called.db, CommitStep(m, row, manifest, None))
            && RunnerOf(later, m) == (if Following(row.phase).Resuming? then ResumeDue else Idle)
  {
    CommitGoesThrough(called.db, m, manifest);
  }

  lemma CommittedRound(sys: System, called: System, m: Mid, f: W.Faults, c: W.Cell, d: W.Cell, manifest: Option<Manifest>)
    requires Smooth(f) && Inv(called) && m in sys.db.migrations && OnTheWay(sys.db.migrations[m].phase)
    requires called.db == sys.db && RunnerOf(called, m) == Acknowledged(manifest)
    requires manifest.Some? ==> sys.db.migrations[m].phase.Snapshotting?
    requires var row := sys.db.migrations[m];
             && row.sandbox in sys.db.sandboxes
             && CellAt(called, row.source, row.sandbox) == c && CellAt(called, row.destination, row.sandbox) == d
             && OnTrack(Following(row.phase), m,
                        row.(phase := Following(row.phase), manifest := if manifest.Some? then manifest else row.manifest),
                        sys.db.sandboxes[row.sandbox].machine, c, d, f)
    ensures RoundDone(sys, Commit(called, m, None), m, f)
  {
    var row := sys.db.migrations[m];
    var later := Commit(called, m, None);
    PP.CommitKeepsInv(called, m, None);
    CommitShape(called, m, manifest);
    CommitGoesThrough(sys.db, m, manifest);
    assert CellAt(later, row.source, row.sandbox) == c && CellAt(later, row.destination, row.sandbox) == d;
    RoundIsDone(sys, later, m, f, c, d, if manifest.Some? then manifest else row.manifest);
  }

  lemma RoundIsDone(sys: System, later: System, m: Mid, f: W.Faults, c: W.Cell, d: W.Cell, manifest: Option<Manifest>)
    requires Smooth(f) && Inv(later) && m in sys.db.migrations && WentThrough(sys.db, later.db, m, manifest)
    requires var row := sys.db.migrations[m]; var next := Following(row.phase);
             && row.sandbox in sys.db.sandboxes
             && CellAt(later, row.source, row.sandbox) == c && CellAt(later, row.destination, row.sandbox) == d
             && RunnerOf(later, m) == (if next.Resuming? then ResumeDue else Idle)
             && OnTrack(next, m, row.(phase := next, manifest := manifest), sys.db.sandboxes[row.sandbox].machine, c, d, f)
    requires var row := sys.db.migrations[m];
             Following(row.phase).Done? ==> row.phase.Cleanup?
    ensures RoundDone(sys, later, m, f)
  {
    var row := sys.db.migrations[m];
    OnTrackFrame(Following(row.phase), m, row.(phase := Following(row.phase), manifest := manifest),
                 later.db.migrations[m], sys.db.sandboxes[row.sandbox].machine, c, d, f);
  }

  lemma CalledRound(sys: System, m: Mid, f: W.Faults, w: Wid, op: W.Op)
    requires Smooth(f) && Underway(sys, m, f)
    requires var row := sys.db.migrations[m];
             CallOf(m, row, sys.db.sandboxes[row.sandbox].machine) == CallTo(w, op)
    ensures RoundDone(sys, Round(sys, m, f), m, f)
  {
    var row := sys.db.migrations[m];
    var machine := sys.db.sandboxes[row.sandbox].machine;
    var c, d := CellAt(sys, row.source, row.sandbox), CellAt(sys, row.destination, row.sandbox);
    var o := W.Exec(if w == row.source then c else d, w, row.sandbox, op, f);
    SourceIsNotDestination(sys.db, m);
    CallLeadsOn(m, row, machine, c, d, f, w, op);
    var c', d' := if w == row.source then o.cell else c, if w == row.source then d else o.cell;
    var manifest := if row.phase.Snapshotting? && o.reply.Snapshotted? then Some(o.reply.manifest) else None;
    PP.IssueKeepsInv(sys, m, f, Answered);
    CalledCells(sys, m, f, w, op, o);
    CommittedRound(sys, Issue(sys, m, f, Answered), m, f, c', d', manifest);
  }

  /** What an answered call leaves for the commit. */
  lemma CalledCells(sys: System, m: Mid, f: W.Faults, w: Wid, op: W.Op, o: W.Outcome)
    requires MayCall(sys, m)
    requires var row := sys.db.migrations[m];
             && row.source != row.destination && (w == row.source || w == row.destination)
             && CallOf(m, row, sys.db.sandboxes[row.sandbox].machine) == CallTo(w, op)
             && o == W.Exec(CellAt(sys, w, row.sandbox), w, row.sandbox, op, f) && Satisfies(row.phase, o.reply)
    ensures var row := sys.db.migrations[m]; var called := Issue(sys, m, f, Answered);
            && called.db == sys.db
            && RunnerOf(called, m)
                 == Acknowledged(if row.phase.Snapshotting? && o.reply.Snapshotted? then Some(o.reply.manifest) else None)
            && CellAt(called, row.source, row.sandbox)
                 == (if w == row.source then o.cell else CellAt(sys, row.source, row.sandbox))
            && CellAt(called, row.destination, row.sandbox)
                 == (if w == row.source then CellAt(sys, row.destination, row.sandbox) else o.cell)
  {
  }

  lemma PreparingRound(sys: System, m: Mid, f: W.Faults)
    requires Smooth(f) && Underway(sys, m, f) && sys.db.migrations[m].phase.Preparing?
    ensures RoundDone(sys, Round(sys, m, f), m, f)
  {
    var row := sys.db.migrations[m];
    var called := Issue(sys, m, f, Answered);
    PP.IssueKeepsInv(sys, m, f, Answered);
    assert called == WithRunner(sys, m, Acknowledged(None));
    CommittedRound(sys, called, m, f, CellAt(sys, row.source, row.sandbox), CellAt(sys, row.destination, row.sandbox), None);
  }

  lemma RoundLeadsOn(sys: System, m: Mid, f: W.Faults)
    requires Smooth(f) && Underway(sys, m, f)
    ensures RoundDone(sys, Round(sys, m, f), m, f)
  {
    var row := sys.db.migrations[m];
    match CallOf(m, row, sys.db.sandboxes[row.sandbox].machine)
    case NoCall => PreparingRound(sys, m, f);
    case CallTo(w, op) => CalledRound(sys, m, f, w, op);
  }

  // ---- All rounds ----

  function RoundsLeft(p: P.Phase): nat {
    if OnTheWay(p) then P.Remaining(p) else 0
  }

  /** The migration is DONE, the source is in quarantine without a process, the destination runs,
      and the sandbox belongs to the destination. */
  ghost predicate Completed(end: System, m: Mid, row: C.MigrationRow) {
    && m in end.db.migrations && end.db.migrations[m].phase.Done?
    && Vacated(m, row, CellAt(end, row.source, row.sandbox))
    && Executes(end, row.destination, row.sandbox)
    && row.sandbox in end.db.sandboxes
    && end.db.sandboxes[row.sandbox].active.None?
    && end.db.sandboxes[row.sandbox].worker == row.destination
  }

  lemma LastRoundCompletes(sys: System, later: System, m: Mid, f: W.Faults)
    requires Smooth(f) && m in sys.db.migrations && RoundDone(sys, later, m, f)
    requires later.db.migrations[m].phase.Done?
    ensures Completed(later, m, sys.db.migrations[m])
  {
  }

  lemma StillUnderway(sys: System, later: System, m: Mid, f: W.Faults)
    requires Smooth(f) && Underway(sys, m, f) && RoundDone(sys, later, m, f)
    requires !later.db.migrations[m].phase.Done?
    ensures Underway(later, m, f)
    ensures RoundsLeft(sys.db.migrations[m].phase) == RoundsLeft(later.db.migrations[m].phase) + 1
  {
  }

  lemma CompletedIsOfTheRoute(end: System, m: Mid, row: C.MigrationRow, other: C.MigrationRow)
    requires Completed(end, m, row)
    requires other.source == row.source && other.destination == row.destination
    requires other.sandbox == row.sandbox && other.epochAfter == row.epochAfter
    ensures Completed(end, m, other)
  {
  }

  /** If nothing fails, a migration that is on its way is completed after exactly the rounds that
      are left. */
  lemma {:induction false} AnUndisturbedMigrationCompletes(sys: System, m: Mid, f: W.Faults)
    requires Smooth(f) && Underway(sys, m, f)
    ensures Completed(Rounds(sys, m, f, RoundsLeft(sys.db.migrations[m].phase)), m, sys.db.migrations[m])
    decreases RoundsLeft(sys.db.migrations[m].phase)
  {
    var later := Round(sys, m, f);
    RoundLeadsOn(sys, m, f);
    if later.db.migrations[m].phase.Done? {
      LastRoundCompletes(sys, later, m, f);
      assert Rounds(sys, m, f, 1) == Rounds(later, m, f, 0) == later;
    } else {
      StillUnderway(sys, later, m, f);
      AnUndisturbedMigrationCompletes(later, m, f);
      var n := RoundsLeft(later.db.migrations[m].phase);
      CompletedIsOfTheRoute(Rounds(later, m, f, n), m, later.db.migrations[m], sys.db.migrations[m]);
    }
  }

  // ---- From the beginning ----

  /** A sandbox is created and booted at `w`, and a migration to `v` is started. */
  function Beginning(s: Sid, w: Wid, v: Wid, machine: Machine, m: Mid, key: Key, hash: RequestHash, f: W.Faults)
    : seq<Step>
  {
    [Api(CI.NewSandboxStep(s, w, machine)), BootCall(s, f), Api(CI.MarkBootStep(s, true)),
     Api(CI.StartStep(m, s, Some(v), Some(key), hash))]
  }

  lemma RunOfFour(a: Step, b: Step, c: Step, d: Step)
    ensures Run([a, b, c, d]) == Take(Take(Take(Take(Initial, a), b), c), d)
  {
    assert [a, b, c, d][..3] == [a, b, c] && [a, b, c][..2] == [a, b] && [a, b][..1] == [a] && [a][..0] == [];
    assert Run([]) == Initial;
    assert Run([a]) == Take(Initial, a);
    assert Run([a, b]) == Take(Run([a]), b);
    assert Run([a, b, c]) == Take(Run([a, b]), c);
  }

  lemma BootWorks(c: W.Cell, epoch: nat, machine: Machine, f: W.Faults)
    requires Smooth(f) && c == W.Vacant && W.ValidMachine(machine) && epoch == 1
    ensures W.Create(c, epoch, machine, true, f).cell
         == W.Vacant.(accepted := 1, record := Some(W.NewRecord(1, machine, W.Running, W.BootDisk(f))),
                       vm := W.Executing, claimed := true)
  {
  }

  /** Such a migration is on its way, so by the theorem above it can complete. */
  lemma TheBeginningIsUnderway(s: Sid, w: Wid, v: Wid, machine: Machine, m: Mid, key: Key, hash: RequestHash, f: W.Faults)
    requires Smooth(f) && w != v && W.ValidMachine(machine)
    ensures Underway(Run(Beginning(s, w, v, machine, m, key, hash, f)), m, f)
    ensures var row := Run(Beginning(s, w, v, machine, m, key, hash, f)).db.migrations[m];
            row.phase.Preparing? && row.source == w && row.destination == v && row.sandbox == s
  {
    var steps := Beginning(s, w, v, machine, m, key, hash, f);
    RunOfFour(steps[0], steps[1], steps[2], steps[3]);
    PP.RunKeepsInv(steps);
    BeginningDb(s, w, v, machine, m, key, hash, f);
    BeginningCells(s, w, v, machine, m, key, hash, f);
  }

  lemma BeginningDb(s: Sid, w: Wid, v: Wid, machine: Machine, m: Mid, key: Key, hash: RequestHash, f: W.Faults)
    requires w != v
    ensures var steps := Beginning(s, w, v, machine, m, key, hash, f);
            var db := Take(Take(Take(Take(Initial, steps[0]), steps[1]), steps[2]), steps[3]).db;
            && m in db.migrations && s in db.sandboxes && db.sandboxes[s].machine == machine
            && db.migrations[m] == C.NewMigration(s, C.SandboxRow(1, 1, C.SandboxRunning, w, w, machine, None), v, key, hash)
  {
    var steps := Beginning(s, w, v, machine, m, key, hash, f);
    var row := C.SandboxRow(1, 1, C.SandboxBooting, w, w, machine, None);
    var created := Take(Initial, steps[0]);
    assert created.db == C.EmptyDb.(sandboxes := map[s := row]);
    var booted := Take(created, steps[1]);
    assert booted.db == created.db;
    var marked := Take(booted, steps[2]);
    assert marked.db == C.EmptyDb.(sandboxes := map[s := row.(state := C.SandboxRunning)]);
  }

  lemma BeginningCells(s: Sid, w: Wid, v: Wid, machine: Machine, m: Mid, key: Key, hash: RequestHash, f: W.Faults)
    requires Smooth(f) && w != v && W.ValidMachine(machine)
    ensures var steps := Beginning(s, w, v, machine, m, key, hash, f);
            var sys := Take(Take(Take(Take(Initial, steps[0]), steps[1]), steps[2]), steps[3]);
            && CellAt(sys, v, s) == W.Vacant && RunnerOf(sys, m).Idle?
            && CellAt(sys, w, s)
                 == W.Vacant.(accepted := 1, record := Some(W.NewRecord(1, machine, W.Running, W.BootDisk(f))),
                              vm := W.Executing, claimed := true)
  {
    var steps := Beginning(s, w, v, machine, m, key, hash, f);
    var created := Take(Initial, steps[0]);
    assert s in created.db.sandboxes && created.db.sandboxes[s] == C.SandboxRow(1, 1, C.SandboxBooting, w, w, machine, None);
    BootWorks(W.Vacant, 1, machine, f);
    var booted := Take(created, steps[1]);
    assert CellAt(booted, v, s) == W.Vacant;
  }
}
