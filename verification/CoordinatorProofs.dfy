/** Every transaction keeps the coordinator's invariant, so it holds after every run. */
module CoordinatorProofs {
  import opened Prelude
  import opened Artifacts
  import opened Phases
  import opened Coordinator
  import opened CoordinatorInvariants

  /** The shape all migration transactions share: one migration row, its sandbox row, one event. */
  function Move(db: Db, m: Mid, row: MigrationRow, sandbox: SandboxRow): Db {
    InsertEvent(
      db.(migrations := db.migrations[m := row],
          sandboxes := db.sandboxes[row.sandbox := sandbox]), m)
  }

  /** `row` is the row of `m` after a legal transition, everything but the progress kept. */
  predicate LegalMove(db: Db, m: Mid, row: MigrationRow) {
    && m in db.migrations
    && var prior := db.migrations[m];
    && CanMove(prior.phase, row.phase)
    && row.sandbox == prior.sandbox && row.source == prior.source && row.destination == prior.destination
    && row.idempotencyKey == prior.idempotencyKey
    && row.epochBefore == prior.epochBefore && row.epochAfter == prior.epochAfter
    && row.consumed == row.resumeIssued == (prior.resumeIssued || row.phase == Resuming)
  }

  /** `later` is `db` with the row of `m`, its sandbox row and its log moved on. */
  ghost predicate Moved(db: Db, later: Db, m: Mid, row: MigrationRow, sandbox: SandboxRow) {
    && m in db.migrations && row.sandbox == db.migrations[m].sandbox
    && (db.migrations[m].resumeIssued ==> row.resumeIssued)
    && row.epochAfter == db.migrations[m].epochAfter
    && row.idempotencyKey == db.migrations[m].idempotencyKey
    && later.migrations == db.migrations[m := row]
    && later.sandboxes == db.sandboxes[row.sandbox := sandbox]
    && later.byKey == db.byKey
    && later.events.Keys <= later.migrations.Keys
    && (forall n | n != m :: LogOf(later, n) == LogOf(db, n))
    && (Logged(LogOf(later, m), Cleanup) <==> Logged(LogOf(db, m), Cleanup) || row.phase == Cleanup)
  }

  lemma MoveIsMoved(db: Db, m: Mid, row: MigrationRow, sandbox: SandboxRow)
    requires Valid(db) && LegalMove(db, m, row)
    ensures var later := Move(db, m, row, sandbox);
            Moved(db, later, m, row, sandbox) && GoodRow(row, LogOf(later, m))
    ensures row.sandbox in db.sandboxes && db.sandboxes[row.sandbox].active == Some(m)
  {
    assert GoodMigration(db, m);
    LogGrows(LogOf(db, m), db.migrations[m], row);
  }

  predicate NewlyResumed(db: Db, m: Mid, row: MigrationRow)
    requires m in db.migrations
  {
    row.resumeIssued && !db.migrations[m].resumeIssued
  }

  predicate NewlyCutOver(db: Db, m: Mid, row: MigrationRow) {
    row.phase.Cleanup? && !Logged(LogOf(db, m), Cleanup)
  }

  lemma SetsAfterMove(db: Db, later: Db, m: Mid, row: MigrationRow, sandbox: SandboxRow, s: Sid)
    requires Moved(db, later, m, row, sandbox)
    ensures Resumed(later, s) ==
            if s == row.sandbox && NewlyResumed(db, m, row) then Resumed(db, s) + {m} else Resumed(db, s)
    ensures CutOver(later, s) ==
            if s == row.sandbox && NewlyCutOver(db, m, row) then CutOver(db, s) + {m} else CutOver(db, s)
  {
  }

  lemma OrphansAfterMove(db: Db, later: Db, m: Mid, row: MigrationRow, sandbox: SandboxRow, s: Sid)
    requires Moved(db, later, m, row, sandbox) && !db.migrations[m].phase.OrphanedAmbiguous?
    ensures OfSandbox(later, s) == OfSandbox(db, s)
    ensures Orphans(later, s) ==
            if s == row.sandbox && row.phase.OrphanedAmbiguous? then Orphans(db, s) + {m} else Orphans(db, s)
  {
  }

  lemma CountsAfterMove(db: Db, later: Db, m: Mid, row: MigrationRow, sandbox: SandboxRow)
    requires Moved(db, later, m, row, sandbox)
    ensures var s := row.sandbox;
            && |Resumed(later, s)| == |Resumed(db, s)| + (if NewlyResumed(db, m, row) then 1 else 0)
            && |CutOver(later, s)| == |CutOver(db, s)| + (if NewlyCutOver(db, m, row) then 1 else 0)
  {
    SetsAfterMove(db, later, m, row, sandbox, row.sandbox);
    if NewlyResumed(db, m, row) {
      assert m !in Resumed(db, row.sandbox);
    }
    if NewlyCutOver(db, m, row) {
      assert m !in CutOver(db, row.sandbox);
    }
  }

  /** The finished migrations of the sandbox and those of other sandboxes stay good. */
  lemma MigrationKept(db: Db, later: Db, m: Mid, row: MigrationRow, sandbox: SandboxRow, n: Mid)
    requires Moved(db, later, m, row, sandbox)
    requires row.sandbox in db.sandboxes && db.sandboxes[row.sandbox].active == Some(m)
    requires (sandbox.active == None || sandbox.active == Some(m)) && db.sandboxes[row.sandbox].epoch <= sandbox.epoch
    requires n in db.migrations && n != m && GoodMigration(db, n)
    ensures GoodMigration(later, n)
  {
  }

  lemma SandboxKept(db: Db, later: Db, m: Mid, row: MigrationRow, sandbox: SandboxRow, s: Sid)
    requires Moved(db, later, m, row, sandbox)
    requires s in db.sandboxes && s != row.sandbox && GoodSandbox(db, s)
    requires !db.migrations[m].phase.OrphanedAmbiguous?
    ensures GoodSandbox(later, s)
  {
    SetsAfterMove(db, later, m, row, sandbox, s);
    OrphansAfterMove(db, later, m, row, sandbox, s);
  }

  lemma MoveKeepsDistinct(db: Db, later: Db, m: Mid, row: MigrationRow, sandbox: SandboxRow)
    requires Moved(db, later, m, row, sandbox)
    requires DistinctEpochs(db, row.sandbox)
    requires row.sandbox in db.sandboxes
    requires NewlyResumed(db, m, row) ==> db.sandboxes[row.sandbox].epoch < row.epochAfter
    requires forall n | n in Resumed(db, row.sandbox) ::
               db.migrations[n].epochAfter <= db.sandboxes[row.sandbox].epoch
    ensures DistinctEpochs(later, row.sandbox)
  {
    var s := row.sandbox;
    SetsAfterMove(db, later, m, row, sandbox, s);
    forall a, b | a in Resumed(later, s) && b in Resumed(later, s) && a != b
      ensures later.migrations[a].epochAfter != later.migrations[b].epochAfter
    {
      assert a != m ==> a in Resumed(db, s);
      assert b != m ==> b in Resumed(db, s);
    }
  }

  /** What is left to show for a transaction: the moved row and its sandbox row agree. */
  ghost predicate Fits(db: Db, m: Mid, row: MigrationRow, sandbox: SandboxRow) {
    && m in db.migrations && !Terminal(db.migrations[m].phase)
    && row.sandbox in db.sandboxes && db.sandboxes[row.sandbox].epoch <= sandbox.epoch
    && sandbox.active == (if Terminal(row.phase) then None else Some(m))
    && Linked(m, row, sandbox)
    && !db.sandboxes[row.sandbox].state.SandboxOrphaned?
    && sandbox.state == (if row.phase.OrphanedAmbiguous? then SandboxOrphaned
                         else if Terminal(row.phase) then SandboxRunning else ActiveState(row.phase))
    && (row.phase.Cleanup? ==> row.resumeIssued)
    && (NewlyResumed(db, m, row) ==> db.sandboxes[row.sandbox].epoch < row.epochAfter)
    && Counted(sandbox,
         |Resumed(db, row.sandbox)| + (if NewlyResumed(db, m, row) then 1 else 0),
         |CutOver(db, row.sandbox)| + (if NewlyCutOver(db, m, row) then 1 else 0))
  }

  lemma MovedSandboxIsSettled(db: Db, later: Db, m: Mid, row: MigrationRow, sandbox: SandboxRow)
    requires Moved(db, later, m, row, sandbox) && Fits(db, m, row, sandbox)
    requires Settled(db.sandboxes[row.sandbox], OfSandbox(db, row.sandbox), Orphans(db, row.sandbox))
    ensures Settled(sandbox, OfSandbox(later, row.sandbox), Orphans(later, row.sandbox))
  {
    OrphansAfterMove(db, later, m, row, sandbox, row.sandbox);
  }

  lemma MovedSandboxIsGood(db: Db, later: Db, m: Mid, row: MigrationRow, sandbox: SandboxRow)
    requires Valid(db) && Moved(db, later, m, row, sandbox) && Fits(db, m, row, sandbox)
    ensures GoodSandbox(later, row.sandbox)
  {
    assert GoodSandbox(db, row.sandbox);
    forall n | n in Resumed(db, row.sandbox)
      ensures db.migrations[n].epochAfter <= db.sandboxes[row.sandbox].epoch
    {
      assert GoodMigration(db, n);
    }
    MoveKeepsDistinct(db, later, m, row, sandbox);
    SetsAfterMove(db, later, m, row, sandbox, row.sandbox);
    MovedSandboxIsSettled(db, later, m, row, sandbox);
    CountsAfterMove(db, later, m, row, sandbox);
  }

  lemma MovedMigrationsAreGood(db: Db, later: Db, m: Mid, row: MigrationRow, sandbox: SandboxRow, n: Mid)
    requires Valid(db) && Moved(db, later, m, row, sandbox) && Fits(db, m, row, sandbox)
    requires GoodRow(row, LogOf(later, m))
    requires n in later.migrations && db.sandboxes[row.sandbox].active == Some(m)
    ensures GoodMigration(later, n)
  {
    assert GoodMigration(db, n);
    if n != m {
      MigrationKept(db, later, m, row, sandbox, n);
    }
  }

  lemma MovedSandboxesAreGood(db: Db, later: Db, m: Mid, row: MigrationRow, sandbox: SandboxRow, s: Sid)
    requires Valid(db) && Moved(db, later, m, row, sandbox) && Fits(db, m, row, sandbox)
    requires s in later.sandboxes
    ensures GoodSandbox(later, s)
  {
    if s == row.sandbox {
      MovedSandboxIsGood(db, later, m, row, sandbox);
    } else {
      assert GoodSandbox(db, s);
      SandboxKept(db, later, m, row, sandbox, s);
    }
  }

  lemma MovedIsValid(db: Db, later: Db, m: Mid, row: MigrationRow, sandbox: SandboxRow)
    requires Valid(db) && Moved(db, later, m, row, sandbox) && Fits(db, m, row, sandbox)
    requires GoodRow(row, LogOf(later, m)) && db.sandboxes[row.sandbox].active == Some(m)
    ensures Valid(later)
  {
    forall n {:trigger GoodMigration(later, n)} | n in later.migrations ensures GoodMigration(later, n) {
      MovedMigrationsAreGood(db, later, m, row, sandbox, n);
    }
    forall s {:trigger GoodSandbox(later, s)} | s in later.sandboxes ensures GoodSandbox(later, s) {
      MovedSandboxesAreGood(db, later, m, row, sandbox, s);
    }
    assert GoodKeys(later);
  }

  lemma MoveKeepsValid(db: Db, m: Mid, row: MigrationRow, sandbox: SandboxRow)
    requires Valid(db) && LegalMove(db, m, row) && Fits(db, m, row, sandbox)
    ensures Valid(Move(db, m, row, sandbox))
  {
    MoveIsMoved(db, m, row, sandbox);
    MovedIsValid(db, Move(db, m, row, sandbox), m, row, sandbox);
  }

  function Released(prior: SandboxRow, next: Phase): SandboxRow {
    if Terminal(next) then prior.(active := None, state := TerminalState(next)) else prior
  }

  /** A step other than RESUMING and CLEANUP keeps a sandbox row in agreement with its phase and
      its counts, because the window between resume and cutover ends only in an orphan. */
  lemma RowsAfterAdvance(m: Mid, row: MigrationRow, next: MigrationRow, prior: SandboxRow,
                         resumed: nat, cutOver: nat)
    requires Linked(m, row, prior) && Counted(prior, resumed, cutOver)
    requires prior.state == ActiveState(row.phase)
    requires row.resumeIssued == next.resumeIssued == AfterResume(row.phase)
    requires row.source == next.source && row.destination == next.destination
    requires row.epochBefore == next.epochBefore && row.epochAfter == next.epochAfter
    requires CanMove(row.phase, next.phase) && next.phase != Resuming && next.phase != Cleanup
    ensures Linked(m, next, Released(prior, next.phase))
    ensures Counted(Released(prior, next.phase), resumed, cutOver)
    ensures Released(prior, next.phase).state
         == if next.phase.OrphanedAmbiguous? then SandboxOrphaned
            else if Terminal(next.phase) then SandboxRunning else ActiveState(next.phase)
  {
  }

  /** The facts about a running migration that a transaction needs. */
  lemma RunningFacts(db: Db, m: Mid)
    requires Valid(db) && m in db.migrations && !Terminal(db.migrations[m].phase)
    ensures var row := db.migrations[m];
            && row.sandbox in db.sandboxes
            && row.epochAfter == row.epochBefore + 1
            && row.consumed == row.resumeIssued == AfterResume(row.phase)
            && (!row.phase.Cleanup? ==> !Logged(LogOf(db, m), Cleanup))
            && var sandbox := db.sandboxes[row.sandbox];
            && sandbox.active == Some(m)
            && sandbox.state == ActiveState(row.phase)
            && Linked(m, row, sandbox)
            && Counted(sandbox, |Resumed(db, row.sandbox)|, |CutOver(db, row.sandbox)|)
  {
    assert GoodMigration(db, m) && GoodSandbox(db, db.migrations[m].sandbox);
    IssuedMeansAfterResume(db, m);
  }

  lemma AdvanceFits(db: Db, m: Mid, row: MigrationRow)
    requires Valid(db) && LegalMove(db, m, row)
    requires row.phase != Resuming && row.phase != Cleanup
    ensures row.sandbox in db.sandboxes
    ensures Fits(db, m, row, Released(db.sandboxes[row.sandbox], row.phase))
  {
    RunningFacts(db, m);
    RowsAfterAdvance(m, db.migrations[m], row, db.sandboxes[row.sandbox],
                     |Resumed(db, row.sandbox)|, |CutOver(db, row.sandbox)|);
  }

  lemma AdvanceKeepsValid(db: Db, m: Mid, next: Phase, attrs: Attrs)
    requires Valid(db) && next != Resuming && next != Cleanup
    ensures Valid(OrSame(db, Transition(db, m, next, attrs)))
  {
    if Transition(db, m, next, attrs).Ok? {
      var row := UpdateRow(db.migrations[m], next, attrs);
      assert GoodMigration(db, m);
      AdvanceFits(db, m, row);
      var prior := db.sandboxes[row.sandbox];
      assert db.sandboxes[row.sandbox := prior] == db.sandboxes;
      MoveKeepsValid(db, m, row, Released(prior, next));
    }
  }

  lemma IssueFits(db: Db, m: Mid, row: MigrationRow)
    requires Valid(db) && LegalMove(db, m, row) && row.phase == Resuming
    ensures row.sandbox in db.sandboxes
    ensures Fits(db, m, row, db.sandboxes[row.sandbox].(epoch := row.epochAfter, state := SandboxResuming))
  {
    RunningFacts(db, m);
  }

  lemma IssueResumeKeepsValid(db: Db, m: Mid)
    requires Valid(db)
    ensures Valid(OrSame(db, IssueResume(db, m)))
  {
    if IssueResume(db, m).Ok? {
      var row := db.migrations[m].(phase := Resuming, consumed := true, resumeIssued := true);
      assert GoodMigration(db, m);
      IssueFits(db, m, row);
      MoveKeepsValid(db, m, row, db.sandboxes[row.sandbox].(epoch := row.epochAfter, state := SandboxResuming));
    }
  }

  function HandedOver(row: MigrationRow, prior: SandboxRow): SandboxRow {
    prior.(worker := row.destination, region := row.destination,
           generation := prior.generation + 1, state := SandboxRunning)
  }

  lemma CutoverFits(db: Db, m: Mid, row: MigrationRow)
    requires Valid(db) && LegalMove(db, m, row) && row.phase == Cleanup
    ensures row.sandbox in db.sandboxes
    ensures Fits(db, m, row, HandedOver(row, db.sandboxes[row.sandbox]))
  {
    RunningFacts(db, m);
  }

  lemma CutoverKeepsValid(db: Db, m: Mid)
    requires Valid(db)
    ensures Valid(OrSame(db, CompleteCutover(db, m)))
  {
    if CompleteCutover(db, m).Ok? {
      var row := UpdateRow(db.migrations[m], Cleanup, NoAttrs);
      assert GoodMigration(db, m);
      CutoverFits(db, m, row);
      MoveKeepsValid(db, m, row, HandedOver(row, db.sandboxes[row.sandbox]));
    }
  }

  // ---- Transactions that add rows ----

  /** Rows that were there before, with their logs, are still there and count the same. */
  ghost predicate Extends(db: Db, later: Db) {
    && (forall n | n in db.migrations :: n in later.migrations && later.migrations[n] == db.migrations[n])
    && (forall n | n in db.migrations :: LogOf(later, n) == LogOf(db, n))
    && (forall n | n in later.migrations && n !in db.migrations ::
          !later.migrations[n].resumeIssued && !Logged(LogOf(later, n), Cleanup)
          && !later.migrations[n].phase.OrphanedAmbiguous?)
  }

  lemma ExtensionCountsTheSame(db: Db, later: Db, s: Sid)
    requires Extends(db, later)
    ensures Resumed(later, s) == Resumed(db, s) && CutOver(later, s) == CutOver(db, s)
    ensures Orphans(later, s) == Orphans(db, s)
    ensures (forall n | n in later.migrations && n !in db.migrations :: later.migrations[n].sandbox != s)
            ==> OfSandbox(later, s) == OfSandbox(db, s)
  {
  }

  lemma SandboxRowKept(db: Db, later: Db, s: Sid)
    requires Extends(db, later)
    requires s in db.sandboxes && s in later.sandboxes && db.sandboxes[s] == later.sandboxes[s]
    requires GoodSandbox(db, s)
    requires forall n | n in later.migrations && n !in db.migrations :: later.migrations[n].sandbox != s
    ensures GoodSandbox(later, s)
  {
    ExtensionCountsTheSame(db, later, s);
  }

  lemma StartKeepsValid(db: Db, id: Mid, s: Sid, to: Option<Wid>, key: Option<Key>, hash: RequestHash)
    requires Valid(db)
    ensures Valid(Apply(db, StartStep(id, s, to, key, hash)))
  {
    var outcome := Start(db, id, s, to, key, hash);
    if outcome.Ok? && outcome.value.disposition.Created? {
      StartedIsValid(db, outcome.value.db, id, s, to.value, key.value, hash);
    }
  }

  lemma FirstEvent(row: MigrationRow, log: seq<Event>)
    requires row.phase == Preparing && row.bytesTransferred == 0 && log == [Event(1, Preparing, 0)]
    ensures GoodLog(log, row)
    ensures forall p :: Logged(log, p) <==> p == Preparing
  {
    assert PhasesOf(log) == [Preparing];
    assert log[0].phase == Preparing;
  }

  lemma StartedMigrationsAreGood(db: Db, later: Db, id: Mid, s: Sid, destination: Wid, key: Key,
                                 hash: RequestHash, n: Mid)
    requires Valid(db)
    requires Start(db, id, s, Some(destination), Some(key), hash) == Ok(Started(later, Created(id)))
    requires n in later.migrations
    ensures GoodMigration(later, n)
  {
    assert id !in db.events;
    if n == id {
      FirstEvent(later.migrations[id], LogOf(later, id));
    } else {
      assert GoodMigration(db, n);
    }
  }

  lemma StartedExtends(db: Db, later: Db, id: Mid, s: Sid, destination: Wid, key: Key, hash: RequestHash)
    requires Valid(db)
    requires Start(db, id, s, Some(destination), Some(key), hash) == Ok(Started(later, Created(id)))
    ensures Extends(db, later)
  {
    assert id !in db.events;
    FirstEvent(later.migrations[id], LogOf(later, id));
  }

  lemma StartedSandboxesAreGood(db: Db, later: Db, id: Mid, s: Sid, destination: Wid, key: Key,
                                hash: RequestHash, t: Sid)
    requires Valid(db)
    requires Start(db, id, s, Some(destination), Some(key), hash) == Ok(Started(later, Created(id)))
    requires t in later.sandboxes
    ensures GoodSandbox(later, t)
  {
    StartedExtends(db, later, id, s, destination, key, hash);
    assert GoodSandbox(db, t);
    if t != s {
      SandboxRowKept(db, later, t);
    } else {
      ExtensionCountsTheSame(db, later, s);
    }
  }

  lemma StartedIsValid(db: Db, later: Db, id: Mid, s: Sid, destination: Wid, key: Key, hash: RequestHash)
    requires Valid(db)
    requires Start(db, id, s, Some(destination), Some(key), hash) == Ok(Started(later, Created(id)))
    ensures Valid(later)
  {
    forall n {:trigger GoodMigration(later, n)} | n in later.migrations ensures GoodMigration(later, n) {
      StartedMigrationsAreGood(db, later, id, s, destination, key, hash, n);
    }
    forall t {:trigger GoodSandbox(later, t)} | t in later.sandboxes ensures GoodSandbox(later, t) {
      StartedSandboxesAreGood(db, later, id, s, destination, key, hash, t);
    }
    assert GoodKeys(later);
  }

  /** A sandbox row is added, or one without a migration changes only its state between boot,
      running and failed. */
  ghost predicate OnlyBoots(db: Db, later: Db) {
    && later.migrations == db.migrations && later.events == db.events && later.byKey == db.byKey
    && (forall t | t in db.sandboxes :: t in later.sandboxes && later.sandboxes[t].active == db.sandboxes[t].active
          && later.sandboxes[t].epoch == db.sandboxes[t].epoch && later.sandboxes[t].generation == db.sandboxes[t].generation
          && later.sandboxes[t].worker == db.sandboxes[t].worker
          && (later.sandboxes[t].state == db.sandboxes[t].state
              || (db.sandboxes[t].state.SandboxBooting?
                  && (later.sandboxes[t].state.SandboxRunning? || later.sandboxes[t].state.SandboxFailed?))))
    && (forall t | t in later.sandboxes && t !in db.sandboxes ::
          later.sandboxes[t].active.None? && later.sandboxes[t].epoch == later.sandboxes[t].generation == 1
          && later.sandboxes[t].state.SandboxBooting?)
  }

  lemma SandboxStepsOnlyBoot(db: Db, step: Step)
    requires step.NewSandboxStep? || step.MarkBootStep?
    ensures OnlyBoots(db, Apply(db, step))
  {
  }

  lemma BootedSandboxIsGood(db: Db, later: Db, t: Sid)
    requires Valid(db) && OnlyBoots(db, later) && t in later.sandboxes
    ensures GoodSandbox(later, t)
  {
    assert Extends(db, later);
    ExtensionCountsTheSame(db, later, t);
    if t in db.sandboxes {
      assert GoodSandbox(db, t);
    } else {
      NoMigrationsYet(db, t);
    }
  }

  lemma SandboxStepsKeepValid(db: Db, step: Step)
    requires Valid(db) && (step.NewSandboxStep? || step.MarkBootStep?)
    ensures Valid(Apply(db, step))
  {
    SandboxStepsOnlyBoot(db, step);
    OnlyBootsKeepsValid(db, Apply(db, step));
  }

  lemma OnlyBootsKeepsValid(db: Db, later: Db)
    requires Valid(db) && OnlyBoots(db, later)
    ensures Valid(later)
  {
    forall n {:trigger GoodMigration(later, n)} | n in later.migrations ensures GoodMigration(later, n) {
      assert GoodMigration(db, n);
    }
    forall t {:trigger GoodSandbox(later, t)} | t in later.sandboxes ensures GoodSandbox(later, t) {
      BootedSandboxIsGood(db, later, t);
    }
    assert GoodKeys(later);
  }

  lemma NoMigrationsYet(db: Db, s: Sid)
    requires Valid(db) && s !in db.sandboxes
    ensures Resumed(db, s) == {} && CutOver(db, s) == {} && OfSandbox(db, s) == {} && Orphans(db, s) == {}
  {
    forall n | n in db.migrations ensures db.migrations[n].sandbox != s {
      assert GoodMigration(db, n);
    }
  }

  /** Every transaction the runner and the API perform keeps the invariant. */
  lemma StepKeepsValid(db: Db, step: Step)
    requires Valid(db) && Disciplined(step)
    ensures Valid(Apply(db, step))
  {
    match step
    case StartStep(id, s, to, key, hash) => StartKeepsValid(db, id, s, to, key, hash);
    case AdvanceStep(m, next, attrs) => AdvanceKeepsValid(db, m, next, attrs);
    case IssueResumeStep(m) => IssueResumeKeepsValid(db, m);
    case CutoverStep(m) => CutoverKeepsValid(db, m);
    case RollbackStep(m, reason) =>
      AdvanceKeepsValid(db, m, RollingBackSource, NoAttrs.(error := Some(reason)));
    case _ => SandboxStepsKeepValid(db, step);
  }

  lemma {:induction false} RunKeepsValid(db: Db, steps: seq<Step>)
    requires Valid(db) && forall step | step in steps :: Disciplined(step)
    ensures Valid(Run(db, steps))
  {
    if steps != [] {
      RunKeepsValid(db, steps[..|steps| - 1]);
      StepKeepsValid(Run(db, steps[..|steps| - 1]), steps[|steps| - 1]);
    }
  }

  lemma ReachableIsValid(db: Db)
    requires Reachable(db)
    ensures Valid(db)
  {
    var steps :| (forall step | step in steps :: Disciplined(step)) && Run(EmptyDb, steps) == db;
    RunKeepsValid(EmptyDb, steps);
  }

  // ---- The promises ----

  /** The epoch counts the issued resumes and the generation the cutovers; they never differ by
      more than one, and no two resumed migrations of a sandbox hold the same epoch. */
  lemma EpochsCountOwnership(db: Db, s: Sid)
    requires Reachable(db) && s in db.sandboxes
    ensures var row := db.sandboxes[s];
            && row.epoch == 1 + |Resumed(db, s)|
            && row.generation == 1 + |CutOver(db, s)|
            && 0 <= row.epoch - row.generation <= 1
            && (row.epoch == row.generation <==> Resumed(db, s) == CutOver(db, s))
    ensures DistinctEpochs(db, s)
  {
    ReachableIsValid(db);
    assert GoodSandbox(db, s);
    SubsetOfSameSize(CutOver(db, s), Resumed(db, s));
  }

  lemma {:induction false} SubsetOfSameSize<T>(a: set<T>, b: set<T>)
    requires a <= b
    ensures |a| <= |b| && (|a| == |b| ==> a == b)
  {
    assert b == a + (b - a);
  }

  /** The active migration is the only one of its sandbox that is not finished; the state of a
      migrating sandbox is decided by its phase; and the worker of the row is the source until
      the cutover and the destination after it. */
  lemma ActiveIsTheOnlyUnfinished(db: Db, s: Sid)
    requires Reachable(db) && s in db.sandboxes
    ensures forall m | m in db.migrations && db.migrations[m].sandbox == s ::
              !Terminal(db.migrations[m].phase) <==> db.sandboxes[s].active == Some(m)
    ensures var row := db.sandboxes[s];
            match row.active
            case None => !row.state.SandboxMigrating? && !row.state.SandboxResuming?
            case Some(m) =>
              && m in db.migrations && db.migrations[m].sandbox == s
              && row.state == ActiveState(db.migrations[m].phase)
              && row.worker == (if db.migrations[m].phase == Cleanup
                                then db.migrations[m].destination else db.migrations[m].source)
  {
    ReachableIsValid(db);
    assert GoodSandbox(db, s);
    forall m | m in db.migrations && db.migrations[m].sandbox == s
      ensures !Terminal(db.migrations[m].phase) <==> db.sandboxes[s].active == Some(m)
    {
      assert GoodMigration(db, m);
    }
    if db.sandboxes[s].active.Some? {
      assert GoodMigration(db, db.sandboxes[s].active.value);
    }
  }

  /** Between migrations a sandbox is orphaned if one of them ended in doubt, and otherwise runs,
      whether the last one moved it, failed or was rolled back. */
  lemma TheStateTellsTheOutcome(db: Db, s: Sid)
    requires Reachable(db) && s in db.sandboxes
    ensures db.sandboxes[s].state.SandboxOrphaned? <==> exists m :: m in Orphans(db, s)
    ensures OfSandbox(db, s) != {} && (forall m | m in OfSandbox(db, s) :: IsFinished(db.migrations[m].phase))
            ==> db.sandboxes[s].state.SandboxRunning? && db.sandboxes[s].active.None?
  {
    ReachableIsValid(db);
    ActiveIsTheOnlyUnfinished(db, s);
    assert GoodSandbox(db, s);
    var row := db.sandboxes[s];
    assert row.active.Some? ==> row.active.value in OfSandbox(db, s);
    assert forall m | m in Orphans(db, s) :: m in OfSandbox(db, s) && !IsFinished(db.migrations[m].phase);
  }

  predicate IsFinished(p: Phase) {
    p.Done? || p.RolledBack? || p.Failed?
  }

  /** The log of a migration is numbered 1..n without a gap, is a legal path of the state
      machine from PREPARING on, and ends in the phase the row shows. */
  lemma LogsAreLegalPaths(db: Db, m: Mid)
    requires Reachable(db) && m in db.migrations
    ensures GoodLog(LogOf(db, m), db.migrations[m])
    ensures |LogOf(db, m)| <= 14
    ensures db.migrations[m].resumeIssued <==> AfterResume(db.migrations[m].phase)
  {
    ReachableIsValid(db);
    assert GoodMigration(db, m);
    IssuedMeansAfterResume(db, m);
    PathsAreSimpleAndShort(PhasesOf(LogOf(db, m)));
  }

  /** After a start was answered, the same request with the same key creates nothing and names
      the same migration, whatever happened in between and whichever identifier is offered;
      the key with another request is refused. */
  lemma ReplayCreatesNothing(db: Db, first: Started, later: Db, id: Mid, id': Mid, s: Sid, s': Sid,
                             to: Option<Wid>, to': Option<Wid>, key: Option<Key>,
                             hash: RequestHash, hash': RequestHash)
    requires Reachable(db)
    requires Start(db, id, s, to, key, hash) == Ok(first)
    requires LeadsTo(first.db, later)
    requires to'.Some?
    ensures Start(later, id', s', to', key, hash')
         == if hash' == hash then Ok(Started(later, Replay(first.disposition.id)))
            else Err(IdempotencyConflict)
  {
    ReachableIsValid(db);
    assert first.db == Apply(db, StartStep(id, s, to, key, hash));
    StartKeepsValid(db, id, s, to, key, hash);
    var steps :| (forall step | step in steps :: Disciplined(step)) && Run(first.db, steps) == later;
    KeysPersist(first.db, steps, key.value);
  }

  /** The key names the same migration with the same request. */
  predicate KeyNamesTheSame(db: Db, later: Db, key: Key)
    requires key in db.byKey
  {
    && key in later.byKey && later.byKey[key] == db.byKey[key]
    && db.byKey[key] in db.migrations && db.byKey[key] in later.migrations
    && later.migrations[db.byKey[key]].requestHash == db.migrations[db.byKey[key]].requestHash
  }

  lemma StartKeepsKey(db: Db, step: Step, key: Key)
    requires GoodKeys(db) && step.StartStep? && key in db.byKey
    ensures KeyNamesTheSame(db, Apply(db, step), key)
  {
  }

  lemma OthersKeepKey(db: Db, step: Step, key: Key)
    requires GoodKeys(db) && !step.StartStep? && key in db.byKey
    ensures KeyNamesTheSame(db, Apply(db, step), key)
  {
  }

  lemma KeyKept(db: Db, step: Step, key: Key)
    requires GoodKeys(db) && key in db.byKey
    ensures KeyNamesTheSame(db, Apply(db, step), key)
  {
    if step.StartStep? {
      StartKeepsKey(db, step, key);
    } else {
      OthersKeepKey(db, step, key);
    }
  }

  lemma {:induction false} KeysPersist(db: Db, steps: seq<Step>, key: Key)
    requires Valid(db) && forall step | step in steps :: Disciplined(step)
    requires key in db.byKey
    ensures var later := Run(db, steps);
            && key in later.byKey && later.byKey[key] == db.byKey[key]
            && db.byKey[key] in db.migrations && db.byKey[key] in later.migrations
            && later.migrations[db.byKey[key]].requestHash == db.migrations[db.byKey[key]].requestHash
  {
    if steps != [] {
      var before := Run(db, steps[..|steps| - 1]);
      RunKeepsValid(db, steps[..|steps| - 1]);
      KeysPersist(db, steps[..|steps| - 1], key);
      KeyKept(before, steps[|steps| - 1], key);
    }
  }

  /** The general transition function would also accept RESUMING and CLEANUP, and then the
      counts break: it keeps the invariant exactly when it is not used for these two. */
  lemma OnlyTheAtomicStepsMoveOwnership(db: Db, m: Mid, next: Phase, attrs: Attrs)
    requires Valid(db) && Transition(db, m, next, attrs).Ok?
    ensures Valid(Transition(db, m, next, attrs).value) <==> next != Resuming && next != Cleanup
  {
    var db' := Transition(db, m, next, attrs).value;
    if next != Resuming && next != Cleanup {
      AdvanceKeepsValid(db, m, next, attrs);
    } else if Valid(db') {
      assert GoodMigration(db, m);
      assert GoodMigration(db', m);
      IssuedMeansAfterResume(db, m);
      IssuedMeansAfterResume(db', m);
      assert false;
    }
  }
}
