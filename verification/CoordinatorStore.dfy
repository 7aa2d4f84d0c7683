/** The coordinator's store as it runs: each operation is one transaction that updates the
    tables row by row and leaves them as they were when it fails. */
module CoordinatorStore {
  import opened Prelude
  import opened Artifacts
  import opened Phases
  import C = Coordinator
  import CI = CoordinatorInvariants
  import CP = CoordinatorProofs

  class Store {
    var sandboxes: map<Sid, C.SandboxRow>
    var migrations: map<Mid, C.MigrationRow>
    var events: map<Mid, seq<C.Event>>
    var byKey: map<Key, Mid>

    ghost function Tables(): C.Db
      reads this
    {
      C.Db(sandboxes, migrations, events, byKey)
    }

    constructor ()
      ensures Tables() == C.EmptyDb && CI.Valid(Tables())
    {
      sandboxes, migrations, events, byKey := map[], map[], map[], map[];
    }

    /** Every disciplined transaction keeps consistent tables consistent. */
    lemma KeepsValid(step: CI.Step)
      ensures CI.Valid(Tables()) && CI.Disciplined(step) ==> CI.Valid(CI.Apply(Tables(), step))
    {
      if CI.Valid(Tables()) && CI.Disciplined(step) {
        CP.StepKeepsValid(Tables(), step);
      }
    }

    /** One more than the highest sequence number of the migration's events, by a scan. */
    method NextSequence(m: Mid) returns (next: nat)
      ensures next == C.MaxSeq(C.LogOf(Tables(), m)) + 1
    {
      var log := if m in events then events[m] else [];
      var highest := 0;
      for i := 0 to |log|
        invariant highest == C.MaxSeq(log[..i])
      {
        assert log[..i + 1][..i] == log[..i];
        if highest < log[i].seqNo {
          highest := log[i].seqNo;
        }
      }
      assert log[..|log|] == log;
      next := highest + 1;
    }

    method InsertEvent(m: Mid)
      requires m in migrations
      modifies this
      ensures Tables() == C.InsertEvent(old(Tables()), m)
    {
      var next := NextSequence(m);
      var log := if m in events then events[m] else [];
      var row := migrations[m];
      events := events[m := log + [C.Event(next, row.phase, row.bytesTransferred)]];
    }

    method PersistTransition(m: Mid, next: Phase, attrs: C.Attrs) returns (r: Result<(), C.DbError>)
      requires m in migrations
      modifies this
      ensures match C.PersistTransition(old(Tables()), m, next, attrs)
              case Ok(db) => r == Ok(()) && Tables() == db
              case Err(e) => r == Err(e) && Tables() == old(Tables())
    {
      var before := migrations;
      migrations := migrations[m := C.UpdateRow(migrations[m], next, attrs)];
      if Terminal(next) {
        var s := migrations[m].sandbox;
        if s !in sandboxes {
          migrations := before;
          return Err(C.NotFound);
        }
        sandboxes := sandboxes[s := sandboxes[s].(active := None, state := C.TerminalState(next))];
      }
      InsertEvent(m);
      r := Ok(());
    }

    method Transition(m: Mid, next: Phase, attrs: C.Attrs) returns (r: Result<(), C.DbError>)
      modifies this
      ensures match C.Transition(old(Tables()), m, next, attrs)
              case Ok(db) => r == Ok(()) && Tables() == db
              case Err(e) => r == Err(e) && Tables() == old(Tables())
      ensures old(CI.Valid(Tables())) && next != Resuming && next != Cleanup ==> CI.Valid(Tables())
    {
      KeepsValid(CI.AdvanceStep(m, next, attrs));
      if m !in migrations {
        return Err(C.NotFound);
      }
      if !CanMove(migrations[m].phase, next) {
        return Err(C.InvalidTransition);
      }
      r := PersistTransition(m, next, attrs);
    }

    method IssueResume(m: Mid) returns (r: Result<(), C.DbError>)
      modifies this
      ensures match C.IssueResume(old(Tables()), m)
              case Ok(db) => r == Ok(()) && Tables() == db
              case Err(e) => r == Err(e) && Tables() == old(Tables())
      ensures old(CI.Valid(Tables())) ==> CI.Valid(Tables())
    {
      KeepsValid(CI.IssueResumeStep(m));
      if m !in migrations {
        return Err(C.NotFound);
      }
      if !CanMove(migrations[m].phase, Resuming) {
        return Err(C.InvalidTransition);
      }
      if migrations[m].consumed {
        return Err(C.SnapshotConsumed);
      }
      var before := migrations;
      migrations := migrations[m := migrations[m].(phase := Resuming, consumed := true, resumeIssued := true)];
      var s := migrations[m].sandbox;
      if s !in sandboxes {
        migrations := before;
        return Err(C.NotFound);
      }
      sandboxes := sandboxes[s := sandboxes[s].(epoch := migrations[m].epochAfter, state := C.SandboxResuming)];
      InsertEvent(m);
      r := Ok(());
    }

    method CompleteCutover(m: Mid) returns (r: Result<(), C.DbError>)
      modifies this
      ensures match C.CompleteCutover(old(Tables()), m)
              case Ok(db) => r == Ok(()) && Tables() == db
              case Err(e) => r == Err(e) && Tables() == old(Tables())
      ensures old(CI.Valid(Tables())) ==> CI.Valid(Tables())
    {
      KeepsValid(CI.CutoverStep(m));
      if m !in migrations {
        return Err(C.NotFound);
      }
      var row := migrations[m];
      if !CanMove(row.phase, Cleanup) {
        return Err(C.InvalidTransition);
      }
      if row.sandbox !in sandboxes {
        return Err(C.NotFound);
      }
      var sandbox := sandboxes[row.sandbox];
      sandboxes := sandboxes[row.sandbox := sandbox.(
        worker := row.destination,
        region := row.destination,
        generation := sandbox.generation + 1,
        state := C.SandboxRunning)];
      r := PersistTransition(m, Cleanup, C.NoAttrs);
    }

    method BeginRollback(m: Mid, reason: string) returns (r: Result<(), C.DbError>)
      modifies this
      ensures match C.BeginRollback(old(Tables()), m, reason)
              case Ok(db) => r == Ok(()) && Tables() == db
              case Err(e) => r == Err(e) && Tables() == old(Tables())
      ensures old(CI.Valid(Tables())) ==> CI.Valid(Tables())
    {
      KeepsValid(CI.RollbackStep(m, reason));
      if m !in migrations {
        return Err(C.NotFound);
      }
      if !RollbackAllowed(migrations[m].resumeIssued, migrations[m].phase) {
        return Err(C.RollbackForbidden);
      }
      r := Transition(m, RollingBackSource, C.NoAttrs.(error := Some(reason)));
    }

    method Start(id: Mid, s: Sid, to: Option<Wid>, key: Option<Key>, hash: RequestHash)
      returns (r: Result<C.Disposition, C.DbError>)
      modifies this
      ensures match C.Start(old(Tables()), id, s, to, key, hash)
              case Ok(started) => r == Ok(started.disposition) && Tables() == started.db
              case Err(e) => r == Err(e) && Tables() == old(Tables())
      ensures old(CI.Valid(Tables())) ==> CI.Valid(Tables())
    {
      KeepsValid(CI.StartStep(id, s, to, key, hash));
      if key.None? {
        return Err(C.KeyRequired);
      }
      if to.None? {
        return Err(C.DestinationRequired);
      }
      if key.value in byKey {
        var existing := byKey[key.value];
        if existing in migrations && migrations[existing].requestHash == hash {
          return Ok(C.Replay(existing));
        }
        return Err(C.IdempotencyConflict);
      }
      if s !in sandboxes {
        return Err(C.SandboxNotFound);
      }
      var sandbox := sandboxes[s];
      if sandbox.state != C.SandboxRunning {
        return Err(C.SandboxNotRunning);
      }
      if sandbox.worker == to.value {
        return Err(C.DestinationIsSource);
      }
      if sandbox.active.Some? {
        return Err(C.MigrationInProgress);
      }
      if id in migrations {
        return Err(C.IdTaken);
      }
      migrations := migrations[id := C.NewMigration(s, sandbox, to.value, key.value, hash)];
      byKey := byKey[key.value := id];
      sandboxes := sandboxes[s := sandbox.(active := Some(id), state := C.SandboxMigrating)];
      InsertEvent(id);
      r := Ok(C.Created(id));
    }
  }
}
