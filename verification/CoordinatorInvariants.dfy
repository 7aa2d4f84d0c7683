/** What every transaction of the coordinator keeps, and what therefore holds after every
    sequence of transactions. */
module CoordinatorInvariants {
  import opened Prelude
  import opened Artifacts
  import opened Phases
  import opened Coordinator

  // ---- What the tables mean ----

  predicate Logged(log: seq<Event>, p: Phase) {
    exists i :: 0 <= i < |log| && log[i].phase == p
  }

  /** Migrations of a sandbox whose destination resume was issued. */
  function Resumed(db: Db, s: Sid): set<Mid> {
    set m | m in db.migrations && db.migrations[m].sandbox == s && db.migrations[m].resumeIssued
  }

  /** Migrations of a sandbox that took the cutover step. */
  function CutOver(db: Db, s: Sid): set<Mid> {
    set m | m in db.migrations && db.migrations[m].sandbox == s && Logged(LogOf(db, m), Cleanup)
  }

  function OfSandbox(db: Db, s: Sid): set<Mid> {
    set m | m in db.migrations && db.migrations[m].sandbox == s
  }

  /** Migrations of a sandbox that ended in doubt. */
  function Orphans(db: Db, s: Sid): set<Mid> {
    set m | m in db.migrations && db.migrations[m].sandbox == s && db.migrations[m].phase.OrphanedAmbiguous?
  }

  function PhasesOf(log: seq<Event>): seq<Phase> {
    seq(|log|, i requires 0 <= i < |log| => log[i].phase)
  }

  function ActiveState(p: Phase): SandboxState {
    if p.Resuming? || p.Verifying? || p.Cutover? then SandboxResuming
    else if p.Cleanup? then SandboxRunning
    else SandboxMigrating
  }

  // ---- The invariant, per migration and per sandbox ----

  ghost predicate GoodLog(log: seq<Event>, row: MigrationRow) {
    && |log| > 0
    && (forall i | 0 <= i < |log| :: log[i].seqNo == i + 1)
    && LegalPath(PhasesOf(log))
    && log[|log| - 1].phase == row.phase && log[|log| - 1].bytes == row.bytesTransferred
  }

  /** What a migration row says about itself, given its log. */
  ghost predicate GoodRow(row: MigrationRow, log: seq<Event>) {
    && row.source != row.destination
    && row.epochAfter == row.epochBefore + 1
    && GoodLog(log, row)
    && row.consumed == row.resumeIssued == Logged(log, Resuming)
  }

  /** How a migration row and the row of its sandbox agree. */
  predicate Linked(m: Mid, row: MigrationRow, sandbox: SandboxRow) {
    && (!Terminal(row.phase) <==> sandbox.active == Some(m))
    && (row.resumeIssued ==> row.epochAfter <= sandbox.epoch)
    && (!Terminal(row.phase) ==>
          && sandbox.worker == (if row.phase == Cleanup then row.destination else row.source)
          && sandbox.epoch == (if row.resumeIssued then row.epochAfter else row.epochBefore))
  }

  ghost predicate GoodMigration(db: Db, m: Mid)
    requires m in db.migrations
  {
    var row := db.migrations[m];
    && row.sandbox in db.sandboxes
    && row.idempotencyKey in db.byKey && db.byKey[row.idempotencyKey] == m
    && GoodRow(row, LogOf(db, m))
    && Linked(m, row, db.sandboxes[row.sandbox])
  }

  predicate DistinctEpochs(db: Db, s: Sid) {
    forall m, n | m in Resumed(db, s) && n in Resumed(db, s) && m != n ::
      db.migrations[m].epochAfter != db.migrations[n].epochAfter
  }

  /** How a sandbox row agrees with the numbers of its resumed and cut-over migrations. */
  predicate Counted(row: SandboxRow, resumed: nat, cutOver: nat) {
    && row.epoch == 1 + resumed
    && row.generation == 1 + cutOver
    && cutOver <= resumed <= cutOver + 1
    && (row.state.SandboxResuming? ==> resumed == cutOver + 1)
    && (!row.state.SandboxResuming? && !row.state.SandboxOrphaned? ==> resumed == cutOver)
  }

  /** A sandbox is orphaned exactly if one of its migrations is; a finished one leaves it running. */
  predicate Settled(row: SandboxRow, migrations: set<Mid>, orphans: set<Mid>) {
    && (row.state.SandboxOrphaned? <==> orphans != {})
    && (row.active.None? && migrations != {} && orphans == {} ==> row.state.SandboxRunning?)
  }

  predicate GoodSandbox(db: Db, s: Sid)
    requires s in db.sandboxes
  {
    var row := db.sandboxes[s];
    && (row.active.Some? ==>
          && row.active.value in db.migrations
          && db.migrations[row.active.value].sandbox == s
          && row.state == ActiveState(db.migrations[row.active.value].phase))
    && (row.active.None? ==> !row.state.SandboxMigrating? && !row.state.SandboxResuming?)
    && Settled(row, OfSandbox(db, s), Orphans(db, s))
    && Counted(row, |Resumed(db, s)|, |CutOver(db, s)|)
    && CutOver(db, s) <= Resumed(db, s)
    && DistinctEpochs(db, s)
  }

  predicate GoodKeys(db: Db) {
    forall key | key in db.byKey ::
      db.byKey[key] in db.migrations && db.migrations[db.byKey[key]].idempotencyKey == key
  }

  ghost predicate Valid(db: Db) {
    && GoodKeys(db)
    && (forall m {:trigger GoodMigration(db, m)} | m in db.migrations :: GoodMigration(db, m))
    && db.events.Keys <= db.migrations.Keys
    && (forall s {:trigger GoodSandbox(db, s)} | s in db.sandboxes :: GoodSandbox(db, s))
  }

  // ---- The steps of the coordinator ----

  datatype Step =
    | NewSandboxStep(s: Sid, worker: Wid, machine: Machine)
    | MarkBootStep(s: Sid, booted: bool)
    | StartStep(id: Mid, s: Sid, to: Option<Wid>, key: Option<Key>, hash: RequestHash)
    | AdvanceStep(m: Mid, next: Phase, attrs: Attrs)
    | IssueResumeStep(m: Mid)
    | CutoverStep(m: Mid)
    | RollbackStep(m: Mid, reason: string)

  /** The runner reaches RESUMING only through IssueResume and CLEANUP only through
      CompleteCutover. */
  predicate Disciplined(step: Step) {
    step.AdvanceStep? ==> step.next != Resuming && step.next != Cleanup
  }

  function OrSame(db: Db, outcome: Result<Db, DbError>): Db {
    if outcome.Ok? then outcome.value else db
  }

  function Apply(db: Db, step: Step): Db {
    match step
    case NewSandboxStep(s, worker, machine) => NewSandbox(db, s, worker, machine)
    case MarkBootStep(s, booted) => MarkBoot(db, s, booted)
    case StartStep(id, s, to, key, hash) =>
      var outcome := Start(db, id, s, to, key, hash);
      if outcome.Ok? then outcome.value.db else db
    case AdvanceStep(m, next, attrs) => OrSame(db, Transition(db, m, next, attrs))
    case IssueResumeStep(m) => OrSame(db, IssueResume(db, m))
    case CutoverStep(m) => OrSame(db, CompleteCutover(db, m))
    case RollbackStep(m, reason) => OrSame(db, BeginRollback(db, m, reason))
  }

  function Run(db: Db, steps: seq<Step>): Db {
    if steps == [] then db else Apply(Run(db, steps[..|steps| - 1]), steps[|steps| - 1])
  }

  /** `later` is what some sequence of transactions makes of `db`. */
  ghost predicate LeadsTo(db: Db, later: Db) {
    exists steps: seq<Step> ::
      (forall step | step in steps :: Disciplined(step)) && Run(db, steps) == later
  }

  /** A database that the coordinator can be in. */
  ghost predicate Reachable(db: Db) {
    LeadsTo(EmptyDb, db)
  }

  // ---- Lemmas about logs ----

  lemma {:induction false} MaxSeqOfNumbered(log: seq<Event>)
    requires forall i | 0 <= i < |log| :: log[i].seqNo == i + 1
    ensures MaxSeq(log) == |log|
  {
    if log != [] {
      MaxSeqOfNumbered(log[..|log| - 1]);
    }
  }

  /** Appending the event of a legal next phase keeps the log numbered and the path legal. */
  lemma LogGrows(log: seq<Event>, row: MigrationRow, updated: MigrationRow)
    requires GoodLog(log, row)
    requires CanMove(row.phase, updated.phase)
    ensures var event := Event(MaxSeq(log) + 1, updated.phase, updated.bytesTransferred);
            && GoodLog(log + [event], updated)
            && forall p :: Logged(log + [event], p) <==> Logged(log, p) || p == updated.phase
  {
    MaxSeqOfNumbered(log);
    var event := Event(MaxSeq(log) + 1, updated.phase, updated.bytesTransferred);
    var grown := log + [event];
    assert PhasesOf(grown)[..|log|] == PhasesOf(log);
    forall i, j | 0 <= i < j < |grown| && j == i + 1
      ensures CanMove(PhasesOf(grown)[i], PhasesOf(grown)[j])
    {
      if j < |log| {
        assert CanMove(PhasesOf(log)[i], PhasesOf(log)[j]);
      }
    }
    assert PhasesOf(log)[0] == Preparing;
    forall p ensures Logged(grown, p) <==> Logged(log, p) || p == updated.phase {
      if Logged(log, p) {
        var i :| 0 <= i < |log| && log[i].phase == p;
        assert grown[i].phase == p;
      }
      if p == updated.phase {
        assert grown[|log|].phase == p;
      }
    }
  }

  /** A resume was issued exactly if the phase is past the point of no return. */
  lemma IssuedMeansAfterResume(db: Db, m: Mid)
    requires m in db.migrations && GoodMigration(db, m)
    ensures db.migrations[m].resumeIssued <==> AfterResume(db.migrations[m].phase)
    ensures !Terminal(db.migrations[m].phase) && !db.migrations[m].phase.Cleanup?
            ==> !Logged(LogOf(db, m), Cleanup)
  {
    var log := LogOf(db, m);
    var path := PhasesOf(log);
    var last := |path| - 1;
    PointOfNoReturn(path, last, last);
    assert path[..last + 1] == path;
    if Logged(log, Resuming) {
      var i :| 0 <= i < |log| && log[i].phase == Resuming;
      PointOfNoReturn(path, i, last);
    }
    if AfterResume(path[last]) {
      var i :| 0 <= i < |path| && path[i] == Resuming;
      assert log[i].phase == Resuming;
    }
    if Logged(log, Cleanup) {
      var i :| 0 <= i < |log| && log[i].phase == Cleanup;
      RemainingDrops(path, i, last);
      PointOfNoReturn(path, i, i);
      var j :| 0 <= j < i + 1 && path[j] == Resuming;
      PointOfNoReturn(path, j, last);
    }
  }
}
