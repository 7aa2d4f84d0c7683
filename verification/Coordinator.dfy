/** The coordinator's tables and its transactions, each as a function on the whole database.
    A transaction that fails leaves the database alone. */
module Coordinator {
  import opened Prelude
  import opened Artifacts
  import opened Phases

  datatype SandboxState =
    | SandboxBooting | SandboxRunning | SandboxFailed | SandboxMigrating | SandboxResuming
    | SandboxOrphaned

  datatype SandboxRow = SandboxRow(
    epoch: nat,
    generation: nat,
    state: SandboxState,
    worker: Wid,
    region: Wid,
    machine: Machine,
    active: Option<Mid>)

  datatype MigrationRow = MigrationRow(
    sandbox: Sid,
    source: Wid,
    destination: Wid,
    idempotencyKey: Key,
    requestHash: RequestHash,
    phase: Phase,
    epochBefore: nat,
    epochAfter: nat,
    bytesTransferred: nat,
    manifest: Option<Manifest>,
    consumed: bool,
    resumeIssued: bool,
    error: Option<string>)

  datatype Event = Event(seqNo: nat, phase: Phase, bytes: nat)

  datatype Db = Db(
    sandboxes: map<Sid, SandboxRow>,
    migrations: map<Mid, MigrationRow>,
    events: map<Mid, seq<Event>>,
    byKey: map<Key, Mid>)

  const EmptyDb := Db(map[], map[], map[], map[])

  /** The columns a transition may set besides the phase. */
  datatype Attrs = Attrs(bytes: Option<nat>, manifest: Option<Manifest>, error: Option<string>)

  const NoAttrs := Attrs(None, None, None)

  datatype DbError =
    | NotFound | InvalidTransition | SnapshotConsumed | RollbackForbidden | SandboxNotFound
    | SandboxNotRunning | DestinationIsSource | MigrationInProgress | IdempotencyConflict
    | KeyRequired | DestinationRequired | IdTaken

  datatype Disposition = Created(id: Mid) | Replay(id: Mid)

  datatype Started = Started(db: Db, disposition: Disposition)

  function MaxSeq(log: seq<Event>): nat {
    if log == [] then 0
    else
      var rest := MaxSeq(log[..|log| - 1]);
      if rest < log[|log| - 1].seqNo then log[|log| - 1].seqNo else rest
  }

  function LogOf(db: Db, m: Mid): seq<Event> {
    if m in db.events then db.events[m] else []
  }

  function InsertEvent(db: Db, m: Mid): Db
    requires m in db.migrations
  {
    var row := db.migrations[m];
    var event := Event(MaxSeq(LogOf(db, m)) + 1, row.phase, row.bytesTransferred);
    db.(events := db.events[m := LogOf(db, m) + [event]])
  }

  function TerminalState(p: Phase): SandboxState {
    if p == OrphanedAmbiguous then SandboxOrphaned else SandboxRunning
  }

  function UpdateRow(row: MigrationRow, next: Phase, attrs: Attrs): MigrationRow {
    row.(
      phase := next,
      bytesTransferred := if attrs.bytes.Some? then attrs.bytes.value else row.bytesTransferred,
      manifest := if attrs.manifest.Some? then attrs.manifest else row.manifest,
      error := if attrs.error.Some? then attrs.error else row.error)
  }

  /** Updates the row, releases the sandbox when the phase is terminal, appends the event. */
  function PersistTransition(db: Db, m: Mid, next: Phase, attrs: Attrs): Result<Db, DbError>
    requires m in db.migrations
  {
    var row := UpdateRow(db.migrations[m], next, attrs);
    var updated := db.(migrations := db.migrations[m := row]);
    if Terminal(next) then
      if row.sandbox !in db.sandboxes then Err(NotFound)
      else
        var sandbox := db.sandboxes[row.sandbox].(active := None, state := TerminalState(next));
        Ok(InsertEvent(updated.(sandboxes := db.sandboxes[row.sandbox := sandbox]), m))
    else
      Ok(InsertEvent(updated, m))
  }

  function Transition(db: Db, m: Mid, next: Phase, attrs: Attrs): Result<Db, DbError> {
    if m !in db.migrations then Err(NotFound)
    else if !CanMove(db.migrations[m].phase, next) then Err(InvalidTransition)
    else PersistTransition(db, m, next, attrs)
  }

  /** The point of no return: consumes the snapshot, records the resume, takes the new epoch. */
  function IssueResume(db: Db, m: Mid): Result<Db, DbError> {
    if m !in db.migrations then Err(NotFound)
    else
      var row := db.migrations[m];
      if !CanMove(row.phase, Resuming) then Err(InvalidTransition)
      else if row.consumed then Err(SnapshotConsumed)
      else if row.sandbox !in db.sandboxes then Err(NotFound)
      else
        var updated := row.(phase := Resuming, consumed := true, resumeIssued := true);
        var sandbox := db.sandboxes[row.sandbox].(epoch := row.epochAfter, state := SandboxResuming);
        Ok(InsertEvent(
             db.(migrations := db.migrations[m := updated],
                 sandboxes := db.sandboxes[row.sandbox := sandbox]), m))
  }

  /** Hands the sandbox to the destination. */
  function CompleteCutover(db: Db, m: Mid): Result<Db, DbError> {
    if m !in db.migrations then Err(NotFound)
    else
      var row := db.migrations[m];
      if !CanMove(row.phase, Cleanup) then Err(InvalidTransition)
      else if row.sandbox !in db.sandboxes then Err(NotFound)
      else
        var sandbox := db.sandboxes[row.sandbox];
        var moved := sandbox.(
          worker := row.destination,
          region := row.destination,
          generation := sandbox.generation + 1,
          state := SandboxRunning);
        PersistTransition(
          db.(sandboxes := db.sandboxes[row.sandbox := moved]), m, Cleanup, NoAttrs)
  }

  function BeginRollback(db: Db, m: Mid, reason: string): Result<Db, DbError> {
    if m !in db.migrations then Err(NotFound)
    else if !RollbackAllowed(db.migrations[m].resumeIssued, db.migrations[m].phase) then
      Err(RollbackForbidden)
    else
      Transition(db, m, RollingBackSource, NoAttrs.(error := Some(reason)))
  }

  function NewMigration(s: Sid, sandbox: SandboxRow, destination: Wid, key: Key, hash: RequestHash)
    : MigrationRow
  {
    MigrationRow(
      s, sandbox.worker, destination, key, hash, Preparing, sandbox.epoch, sandbox.epoch + 1,
      0, None, false, false, None)
  }

  /** Starts a migration under the identifier `id`, or answers with the one that the key
      already names. A missing or empty key or destination is None. */
  function Start(db: Db, id: Mid, s: Sid, to: Option<Wid>, suppliedKey: Option<Key>, hash: RequestHash)
    : Result<Started, DbError>
  {
    if suppliedKey.None? then Err(KeyRequired)
    else if to.None? then Err(DestinationRequired)
    else if suppliedKey.value in db.byKey then
      var existing := db.byKey[suppliedKey.value];
      if existing in db.migrations && db.migrations[existing].requestHash == hash
      then Ok(Started(db, Replay(existing)))
      else Err(IdempotencyConflict)
    else if s !in db.sandboxes then Err(SandboxNotFound)
    else
      var sandbox := db.sandboxes[s];
      var destination := to.value;
      var key := suppliedKey.value;
      if sandbox.state != SandboxRunning then Err(SandboxNotRunning)
      else if sandbox.worker == destination then Err(DestinationIsSource)
      else if sandbox.active.Some? then Err(MigrationInProgress)
      else if id in db.migrations then Err(IdTaken)
      else
        var row := NewMigration(s, sandbox, destination, key, hash);
        var busy := sandbox.(active := Some(id), state := SandboxMigrating);
        Ok(Started(
             InsertEvent(
               db.(migrations := db.migrations[id := row],
                   sandboxes := db.sandboxes[s := busy],
                   byKey := db.byKey[key := id]), id),
             Created(id)))
  }

  /** A sandbox row as `Sandboxes.create` inserts it, before its worker was called. */
  function NewSandbox(db: Db, s: Sid, worker: Wid, machine: Machine): Db {
    if s in db.sandboxes then db
    else db.(sandboxes := db.sandboxes[s := SandboxRow(1, 1, SandboxBooting, worker, worker, machine, None)])
  }

  /** The outcome of the boot call, written once. */
  function MarkBoot(db: Db, s: Sid, booted: bool): Db {
    if s !in db.sandboxes || db.sandboxes[s].state != SandboxBooting then db
    else
      var state := if booted then SandboxRunning else SandboxFailed;
      db.(sandboxes := db.sandboxes[s := db.sandboxes[s].(state := state)])
  }
}
