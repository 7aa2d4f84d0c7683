/** When each transaction of the coordinator is taken, and all that it writes. */
module CoordinatorLaws {
  import opened Prelude
  import opened Artifacts
  import opened Phases
  import opened Coordinator
  import opened CoordinatorInvariants
  import CP = CoordinatorProofs

  /** `later` is `db` with this row, this sandbox row and one more event that tells the row's phase and
      progress. */
  ghost predicate Wrote(db: Db, later: Db, m: Mid, row: MigrationRow, sandbox: SandboxRow) {
    && later.migrations == db.migrations[m := row] && later.sandboxes == db.sandboxes[row.sandbox := sandbox]
    && later.byKey == db.byKey
    && LogOf(later, m) == LogOf(db, m) + [Event(|LogOf(db, m)| + 1, row.phase, row.bytesTransferred)]
    && (forall n | n != m :: LogOf(later, n) == LogOf(db, n))
  }

  lemma EventIsNumbered(db: Db, m: Mid)
    requires Valid(db) && m in db.migrations
    ensures MaxSeq(LogOf(db, m)) == |LogOf(db, m)|
    ensures db.migrations[m].sandbox in db.sandboxes
  {
    assert GoodMigration(db, m);
    MaxSeqOfNumbered(LogOf(db, m));
  }

  function Updated(row: MigrationRow, next: Phase, attrs: Attrs): MigrationRow {
    row.(phase := next,
         bytesTransferred := if attrs.bytes == None then row.bytesTransferred else attrs.bytes.value,
         manifest := if attrs.manifest == None then row.manifest else attrs.manifest,
         error := if attrs.error == None then row.error else attrs.error)
  }

  function Freed(sandbox: SandboxRow, next: Phase): SandboxRow {
    if !Terminal(next) then sandbox
    else sandbox.(active := None, state := if next.OrphanedAmbiguous? then SandboxOrphaned else SandboxRunning)
  }

  lemma TransitionWrites(db: Db, m: Mid, next: Phase, attrs: Attrs)
    requires m in db.migrations && db.migrations[m].sandbox in db.sandboxes
    requires MaxSeq(LogOf(db, m)) == |LogOf(db, m)| && CanMove(db.migrations[m].phase, next)
    ensures Transition(db, m, next, attrs).Ok?
    ensures var row := db.migrations[m];
            Wrote(db, Transition(db, m, next, attrs).value, m, Updated(row, next, attrs),
                  Freed(db.sandboxes[row.sandbox], next))
  {
  }

  /** A transition is taken exactly if the state machine has it. It sets the phase and what else it is
      given; the end of a migration frees its sandbox. */
  lemma TransitionsAreExact(db: Db, m: Mid, next: Phase, attrs: Attrs)
    requires Valid(db)
    ensures Transition(db, m, next, attrs).Ok? <==> m in db.migrations && CanMove(db.migrations[m].phase, next)
    ensures Transition(db, m, next, attrs).Ok? ==>
              var row := db.migrations[m];
              && row.sandbox in db.sandboxes
              && Wrote(db, Transition(db, m, next, attrs).value, m, Updated(row, next, attrs),
                       Freed(db.sandboxes[row.sandbox], next))
    ensures Transition(db, m, next, attrs).Err? ==>
              Transition(db, m, next, attrs).error == if m in db.migrations then InvalidTransition else NotFound
  {
    if m in db.migrations {
      EventIsNumbered(db, m);
      if CanMove(db.migrations[m].phase, next) {
        TransitionWrites(db, m, next, attrs);
      }
    }
  }

  lemma ResumeWrites(db: Db, m: Mid)
    requires m in db.migrations && db.migrations[m].sandbox in db.sandboxes
    requires MaxSeq(LogOf(db, m)) == |LogOf(db, m)| && db.migrations[m].phase.Loading? && !db.migrations[m].consumed
    requires db.migrations[m].epochAfter == db.sandboxes[db.migrations[m].sandbox].epoch + 1
    ensures IssueResume(db, m).Ok?
    ensures var row := db.migrations[m]; var sandbox := db.sandboxes[row.sandbox];
            Wrote(db, IssueResume(db, m).value, m, row.(phase := Resuming, consumed := true, resumeIssued := true),
                  sandbox.(epoch := sandbox.epoch + 1, state := SandboxResuming))
  {
  }

  /** The resume of a migration is issued once, from LOADING. */
  lemma ResumesAreExact(db: Db, m: Mid)
    requires Valid(db)
    ensures IssueResume(db, m).Ok? <==> m in db.migrations && db.migrations[m].phase.Loading?
    ensures IssueResume(db, m).Ok? ==>
              var row := db.migrations[m];
              && row.sandbox in db.sandboxes
              && Wrote(db, IssueResume(db, m).value, m, row.(phase := Resuming, consumed := true, resumeIssued := true),
                       db.sandboxes[row.sandbox].(epoch := db.sandboxes[row.sandbox].epoch + 1, state := SandboxResuming))
  {
    if m in db.migrations {
      EventIsNumbered(db, m);
      if db.migrations[m].phase.Loading? {
        CP.RunningFacts(db, m);
        ResumeWrites(db, m);
      }
    }
  }

  /** Ownership is handed over from CUTOVER. */
  lemma CutoversAreExact(db: Db, m: Mid)
    requires Valid(db)
    ensures CompleteCutover(db, m).Ok? <==> m in db.migrations && db.migrations[m].phase.Cutover?
    ensures CompleteCutover(db, m).Ok? ==>
              var row := db.migrations[m];
              && row.sandbox in db.sandboxes
              && var sandbox := db.sandboxes[row.sandbox];
              Wrote(db, CompleteCutover(db, m).value, m, row.(phase := Cleanup),
                    sandbox.(worker := row.destination, region := row.destination, generation := sandbox.generation + 1,
                             state := SandboxRunning))
  {
    if m in db.migrations {
      EventIsNumbered(db, m);
    }
  }

  /** A rollback begins from PAUSING, SNAPSHOTTING, TRANSFERRING and LOADING only. */
  lemma RollbacksAreExact(db: Db, m: Mid, reason: string)
    requires Valid(db)
    ensures var outcome := BeginRollback(db, m, reason);
            if m !in db.migrations then outcome == Err(NotFound)
            else if db.migrations[m].phase in {Pausing, Snapshotting, Transferring, Loading} then
              outcome == Transition(db, m, RollingBackSource, Attrs(None, None, Some(reason))) && outcome.Ok?
            else outcome == Err(RollbackForbidden)
  {
    if m in db.migrations {
      EventIsNumbered(db, m);
      IssuedMeansAfterResume(db, m);
    }
  }

  // ---- Starting ----

  predicate CanStart(db: Db, id: Mid, s: Sid, destination: Wid, key: Key) {
    && key !in db.byKey && id !in db.migrations && s in db.sandboxes
    && db.sandboxes[s].state.SandboxRunning? && db.sandboxes[s].active.None? && db.sandboxes[s].worker != destination
  }

  /** A migration is created exactly for an idle running sandbox that is somewhere else, under a new
      key; it begins in PREPARING at the sandbox's worker, one epoch on. */
  lemma StartsAreExact(db: Db, id: Mid, s: Sid, destination: Wid, key: Key, hash: RequestHash)
    requires Valid(db)
    ensures var outcome := Start(db, id, s, Some(destination), Some(key), hash);
            && (outcome.Ok? && outcome.value.disposition.Created? <==> CanStart(db, id, s, destination, key))
            && (outcome.Ok? && outcome.value.disposition.Replay? <==>
                  key in db.byKey && db.migrations[db.byKey[key]].requestHash == hash)
            && (outcome.Ok? && outcome.value.disposition.Replay? ==>
                  outcome.value.db == db && outcome.value.disposition.id == db.byKey[key])
    ensures var outcome := Start(db, id, s, Some(destination), Some(key), hash);
            outcome.Ok? && outcome.value.disposition.Created? ==>
              var sandbox := db.sandboxes[s]; var later := outcome.value.db;
              && outcome.value.disposition.id == id
              && Wrote(db, later.(byKey := db.byKey), id,
                       MigrationRow(s, sandbox.worker, destination, key, hash, Preparing, sandbox.epoch, sandbox.epoch + 1,
                                    0, None, false, false, None),
                       sandbox.(active := Some(id), state := SandboxMigrating))
              && later.byKey == db.byKey[key := id]
  {
    assert id !in db.migrations ==> id !in db.events;
  }

  /** A refusal names something that is the case. */
  lemma RefusalsAreTrue(db: Db, id: Mid, s: Sid, to: Option<Wid>, key: Option<Key>, hash: RequestHash)
    requires Valid(db) && Start(db, id, s, to, key, hash).Err?
    ensures match Start(db, id, s, to, key, hash).error
            case KeyRequired => key == None
            case DestinationRequired => to == None
            case IdempotencyConflict => key.Some? && key.value in db.byKey && db.migrations[db.byKey[key.value]].requestHash != hash
            case SandboxNotFound => s !in db.sandboxes
            case SandboxNotRunning => s in db.sandboxes && !db.sandboxes[s].state.SandboxRunning?
            case DestinationIsSource => s in db.sandboxes && to == Some(db.sandboxes[s].worker)
            case MigrationInProgress =>
              && s in db.sandboxes && db.sandboxes[s].active.Some? && db.sandboxes[s].active.value in db.migrations
              && db.migrations[db.sandboxes[s].active.value].phase.Cleanup?
            case IdTaken => id in db.migrations
            case _ => false
  {
    if s in db.sandboxes {
      assert GoodSandbox(db, s);
    }
  }

  /** A sandbox is inserted once, booting at its first epoch, and its boot is recorded once: it runs, or
      failed and never migrates. */
  lemma BootsAreExact(db: Db, s: Sid, worker: Wid, machine: Machine, booted: bool)
    ensures s in db.sandboxes ==> NewSandbox(db, s, worker, machine) == db
    ensures s !in db.sandboxes ==>
              var later := MarkBoot(NewSandbox(db, s, worker, machine), s, booted);
              && later.migrations == db.migrations && later.events == db.events && later.byKey == db.byKey
              && later.sandboxes == db.sandboxes[s := SandboxRow(1, 1, if booted then SandboxRunning else SandboxFailed,
                                                                 worker, worker, machine, None)]
              && MarkBoot(later, s, !booted) == later
  {
  }
}
