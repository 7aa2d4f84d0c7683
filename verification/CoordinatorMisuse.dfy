/** What the general transition breaks when it is used for the two phases that have transactions of
    their own, in databases that the coordinator reaches. */
module CoordinatorMisuse {
  import opened Prelude
  import opened Artifacts
  import opened Phases
  import opened Coordinator
  import opened CoordinatorInvariants
  import opened CoordinatorProofs

  /** In any reachable database a general transition to CLEANUP adds a cutover that the generation
      does not count, and leaves the sandbox with its source. */
  lemma GeneralCutoverIsNotCounted(db: Db, m: Mid, attrs: Attrs)
    requires Reachable(db) && m in db.migrations && db.migrations[m].phase == Cutover
    ensures Transition(db, m, Cleanup, attrs).Ok?
    ensures var later := Transition(db, m, Cleanup, attrs).value; var s := db.migrations[m].sandbox;
            && s in later.sandboxes && m in later.migrations && later.migrations[m].phase == Cleanup
            && later.sandboxes[s].generation == |CutOver(later, s)|
            && later.sandboxes[s].worker == db.migrations[m].source
  {
    ReachableIsValid(db);
    assert GoodMigration(db, m);
    IssuedMeansAfterResume(db, m);
    var later := Transition(db, m, Cleanup, attrs).value;
    var s := db.migrations[m].sandbox;
    EpochsCountOwnership(db, s);
    LogAfterTransition(db, m, Cleanup, attrs);
    OneMoreCutover(db, later, m, s);
  }

  lemma LogAfterTransition(db: Db, m: Mid, next: Phase, attrs: Attrs)
    requires Transition(db, m, next, attrs).Ok?
    ensures var later := Transition(db, m, next, attrs).value;
            && m in later.migrations && later.migrations.Keys == db.migrations.Keys
            && (forall p :: Logged(LogOf(later, m), p) <==> Logged(LogOf(db, m), p) || p == next)
            && (forall n | n != m :: LogOf(later, n) == LogOf(db, n))
            && (forall n | n in db.migrations :: later.migrations[n].sandbox == db.migrations[n].sandbox)
  {
    var later := Transition(db, m, next, attrs).value;
    var event := Event(MaxSeq(LogOf(db, m)) + 1, next, later.migrations[m].bytesTransferred);
    assert LogOf(later, m) == LogOf(db, m) + [event];
    EventsAdd(LogOf(db, m), event);
  }

  lemma OneMoreCutover(db: Db, later: Db, m: Mid, s: Sid)
    requires m in db.migrations && later.migrations.Keys == db.migrations.Keys && db.migrations[m].sandbox == s
    requires forall n | n in db.migrations :: later.migrations[n].sandbox == db.migrations[n].sandbox
    requires forall n | n != m :: LogOf(later, n) == LogOf(db, n)
    requires Logged(LogOf(later, m), Cleanup) && !Logged(LogOf(db, m), Cleanup)
    ensures |CutOver(later, s)| == |CutOver(db, s)| + 1
  {
    assert CutOver(later, s) == CutOver(db, s) + {m};
  }

  lemma EventsAdd(log: seq<Event>, event: Event)
    ensures forall p :: Logged(log + [event], p) <==> Logged(log, p) || p == event.phase
  {
    forall p ensures Logged(log + [event], p) <==> Logged(log, p) || p == event.phase {
      if Logged(log, p) {
        var i :| 0 <= i < |log| && log[i].phase == p;
        assert (log + [event])[i].phase == p;
      }
      if p == event.phase {
        assert (log + [event])[|log|].phase == p;
      }
    }
  }

  /** And one to RESUMING logs a resume that no column records and no epoch counts. */
  lemma GeneralResumeIsNotCounted(db: Db, m: Mid, attrs: Attrs)
    requires Reachable(db) && m in db.migrations && db.migrations[m].phase == Loading
    ensures Transition(db, m, Resuming, attrs).Ok?
    ensures var later := Transition(db, m, Resuming, attrs).value; var s := db.migrations[m].sandbox;
            && s in later.sandboxes && m in later.migrations && later.migrations[m].phase == Resuming
            && Logged(LogOf(later, m), Resuming)
            && !later.migrations[m].resumeIssued && !later.migrations[m].consumed
            && later.sandboxes[s].epoch == later.migrations[m].epochBefore
  {
    ReachableIsValid(db);
    assert GoodMigration(db, m);
    IssuedMeansAfterResume(db, m);
    LogAfterTransition(db, m, Resuming, attrs);
  }

  /** The database after the migration took one more disciplined step. */
  lemma OneMoreStep(db: Db, step: Step)
    requires Reachable(db) && Disciplined(step)
    ensures Reachable(Apply(db, step))
  {
    var steps :| (forall step | step in steps :: Disciplined(step)) && Run(EmptyDb, steps) == db;
    var longer := steps + [step];
    assert longer[..|longer| - 1] == steps;
    assert Run(EmptyDb, longer) == Apply(db, step);
  }

  ghost predicate IsAt(db: Db, m: Mid, p: Phase) {
    Reachable(db) && m in db.migrations && db.migrations[m].phase == p
  }

  lemma AdvanceTo(db: Db, m: Mid, p: Phase, next: Phase) returns (later: Db)
    requires IsAt(db, m, p) && CanMove(p, next) && !Terminal(next) && next != Resuming && next != Cleanup
    ensures IsAt(later, m, next)
  {
    later := Apply(db, AdvanceStep(m, next, NoAttrs));
    OneMoreStep(db, AdvanceStep(m, next, NoAttrs));
  }

  /** There are such databases: one in which a migration is in LOADING, and one in CUTOVER. */
  lemma BothPhasesAreReached(s: Sid, w: Wid, v: Wid, machine: Machine, m: Mid, key: Key, hash: RequestHash)
    returns (loading: Db, cutover: Db)
    requires w != v
    ensures IsAt(loading, m, Loading) && IsAt(cutover, m, Cutover)
  {
    var db := StartedDb(s, w, v, machine, m, key, hash);
    db := AdvanceTo(db, m, Preparing, Reserving);
    db := AdvanceTo(db, m, Reserving, Prestaging);
    db := AdvanceTo(db, m, Prestaging, Probing);
    db := AdvanceTo(db, m, Probing, Precopying);
    db := AdvanceTo(db, m, Precopying, Pausing);
    db := AdvanceTo(db, m, Pausing, Snapshotting);
    db := AdvanceTo(db, m, Snapshotting, Transferring);
    loading := AdvanceTo(db, m, Transferring, Loading);
    var resuming := IssueAt(loading, m);
    var verifying := AdvanceTo(resuming, m, Resuming, Verifying);
    cutover := AdvanceTo(verifying, m, Verifying, Cutover);
  }

  lemma IssueAt(db: Db, m: Mid) returns (later: Db)
    requires IsAt(db, m, Loading)
    ensures IsAt(later, m, Resuming)
  {
    ReachableIsValid(db);
    assert GoodMigration(db, m);
    IssuedMeansAfterResume(db, m);
    later := Apply(db, IssueResumeStep(m));
    OneMoreStep(db, IssueResumeStep(m));
  }

  lemma StartedDb(s: Sid, w: Wid, v: Wid, machine: Machine, m: Mid, key: Key, hash: RequestHash)
    returns (db: Db)
    requires w != v
    ensures IsAt(db, m, Preparing)
  {
    assert Run(EmptyDb, []) == EmptyDb;
    var created := Apply(EmptyDb, NewSandboxStep(s, w, machine));
    OneMoreStep(EmptyDb, NewSandboxStep(s, w, machine));
    var booted := Apply(created, MarkBootStep(s, true));
    OneMoreStep(created, MarkBootStep(s, true));
    db := Apply(booted, StartStep(m, s, Some(v), Some(key), hash));
    OneMoreStep(booted, StartStep(m, s, Some(v), Some(key), hash));
  }
}
