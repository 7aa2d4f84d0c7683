/** One sandbox as one worker sees it, and every worker operation as a function on that view.
    An operation is one atomic step whose awaits succeed or fail as its faults say. */
module Worker {
  import opened Prelude
  import opened Artifacts
  import E = Epochs

  datatype RecordState = Booting | Running | Paused | Fenced | Quarantined

  /** The Firecracker process and its vCPUs, whatever the record says about them. */
  datatype Vm = Absent | Unbooted | Executing | Halted

  /** A sandbox record. `quarantine` is the migration whose quarantine directory it was moved to,
      `files` the bytes at the paths of its artifacts. */
  datatype Record = Record(
    state: RecordState,
    epoch: nat,
    machine: Machine,
    generation: nat,
    loaded: Option<Mid>,
    quarantine: Option<Mid>,
    registered: map<Kind, Descriptor>,
    files: map<Kind, Bytes>)

  datatype Reservation = Reservation(
    epoch: nat, source: Wid, destination: Wid, machine: Machine, prepared: bool)

  /** Everything a worker keeps about one sandbox. `claimed` says that its physical directory
      exists. Migrations and manifests are those of this sandbox. */
  datatype Cell = Cell(
    accepted: nat,
    record: Option<Record>,
    vm: Vm,
    claimed: bool,
    consumed: set<Mid>,
    manifests: map<Mid, Manifest>,
    reservations: map<Mid, Reservation>)

  const Vacant := Cell(0, None, Absent, false, {}, map[], map[])

  /** How a Firecracker call ends: `FailsLate` is an error after the call took effect. */
  datatype Fc = Works | FailsClean | FailsLate

  /** Where createSandbox fails, if it does. */
  datatype CreateStage = ClaimFails | NetworkFails | LaunchFails | BootFails | NoStageFails

  datatype Faults = Faults(
    persist: E.Fault,       // where the epoch store fails to write its file
    compatible: bool,       // the manifest fits this host
    peer: bool,             // the source has a URL
    firecracker: Fc,        // the operation's own Firecracker call
    fencePause: Fc,         // the pause that a fence adds
    veth: bool,             // the host veth goes down
    guest: bool,            // the guest answers
    files: bool,            // directories are made, synced and renamed
    bytes: map<Kind, Bytes>,// what a pull commits, a snapshot writes, a boot copies
    unsynced: set<Kind>,    // pulls whose directory is not synced after the rename
    stage: CreateStage,
    cleanup: bool)          // a failed create removes its directory

  /** Calls that reach Firecracker. */
  datatype Call =
    | PauseCall | ResumeCall(loaded: Option<Mid>) | LoadCall(manifest: Manifest, files: map<Kind, Bytes>)
    | SnapshotCall | BootCall

  datatype Reply = Done | Refused | Snapshotted(manifest: Manifest) | Prepared(ready: bool)

  datatype Outcome = Outcome(cell: Cell, reply: Reply, calls: seq<Call>)

  // ---- Firecracker ----

  function FcPause(vm: Vm, fc: Fc): (Vm, bool) {
    match vm
    case Executing => (if fc.FailsClean? then Executing else Halted, fc.Works?)
    case Halted => (Halted, fc.Works?)
    case _ => (vm, false)
  }

  function FcResume(vm: Vm, fc: Fc): (Vm, bool) {
    match vm
    case Halted => (if fc.FailsClean? then Halted else Executing, fc.Works?)
    case Executing => (Executing, fc.Works?)
    case _ => (vm, false)
  }

  function FcLoad(vm: Vm, fc: Fc): (Vm, bool) {
    match vm
    case Unbooted => (if fc.FailsClean? then Unbooted else Halted, fc.Works?)
    case _ => (vm, false)
  }

  // ---- The choke point ----

  /** The result of passing the fencing check: the record may be used if `passed`. */
  datatype Gate = Gate(cell: Cell, passed: bool, calls: seq<Call>)

  function FenceQuietly(c: Cell, record: Record, epoch: nat, f: Faults): Gate {
    var fenced := record.(state := Fenced, epoch := epoch);
    if record.state.Running?
    then Gate(c.(record := Some(fenced), vm := FcPause(c.vm, f.fencePause).0), false, [PauseCall])
    else Gate(c.(record := Some(fenced)), false, [])
  }

  predicate Accepts(c: Cell, epoch: nat, f: Faults) {
    c.accepted <= epoch <= E.MaxSafeInteger && (epoch == c.accepted || f.persist.NoFault?)
  }

  function MutableRecord(c: Cell, epoch: nat, expected: Option<RecordState>, f: Faults): (g: Gate)
    ensures g.passed ==> g.cell.record.Some?
  {
    if c.record.None? || !Accepts(c, epoch, f) then Gate(c, false, [])
    else
      var record := c.record.value;
      var accepted := c.(accepted := epoch);
      if epoch > c.accepted && !record.state.Booting? then FenceQuietly(accepted, record, epoch, f)
      else if record.state.Fenced? || epoch < record.epoch then Gate(accepted, false, [])
      else if expected.Some? && record.state != expected.value then Gate(accepted, false, [])
      else Gate(accepted, true, [])
  }

  function Refuse(g: Gate): Outcome {
    Outcome(g.cell, Refused, g.calls)
  }

  function WithRecord(c: Cell, record: Record): Cell {
    c.(record := Some(record))
  }

  // ---- Lifecycle ----

  function Pause(c: Cell, epoch: nat, f: Faults): Outcome {
    var g := MutableRecord(c, epoch, None, f);
    if !g.passed then Refuse(g)
    else
      var (vm, ok) := FcPause(g.cell.vm, f.firecracker);
      var halted := g.cell.(vm := vm);
      if !ok then Outcome(halted, Refused, [PauseCall])
      else Outcome(WithRecord(halted, g.cell.record.value.(state := Paused)), Done, [PauseCall])
  }

  predicate FitsReservation(c: Cell, id: Sid, manifest: Manifest, f: Faults) {
    f.compatible
    && (c.record.Some? && manifest.sandboxId == id ==> manifest.machine == c.record.value.machine)
  }

  predicate AllRegistered(record: Record, manifest: Manifest) {
    forall kind | kind in AllKinds ::
      kind in record.registered && kind in manifest.artifacts
      && record.registered[kind] == manifest.artifacts[kind]
  }

  function Load(c: Cell, id: Sid, epoch: nat, manifest: Manifest, f: Faults): Outcome {
    if !FitsReservation(c, id, manifest, f) || manifest.sandboxId != id
       || epoch != manifest.sourceEpoch + 1 || manifest.migrationId in c.consumed || c.record.None?
    then Outcome(c, Refused, [])
    else if c.record.value.loaded == Some(manifest.migrationId) && c.record.value.state.Paused?
    then Outcome(c, Done, [])
    else
      var g := MutableRecord(c, epoch, Some(Booting), f);
      if !g.passed then Refuse(g)
      else
        if !AllRegistered(g.cell.record.value, manifest) then Refuse(g) else LoadInto(g.cell, manifest, f)
  }

  function LoadInto(c: Cell, manifest: Manifest, f: Faults): Outcome
    requires c.record.Some?
  {
    var record := c.record.value;
    var (vm, ok) := FcLoad(c.vm, f.firecracker);
    var calls := [LoadCall(manifest, record.files)];
    if !ok then Outcome(c.(vm := vm), Refused, calls)
    else
      Outcome(WithRecord(c.(vm := vm), record.(loaded := Some(manifest.migrationId), state := Paused)),
              Done, calls)
  }

  function Resume(c: Cell, epoch: nat, f: Faults): Outcome {
    var g := MutableRecord(c, epoch, Some(Paused), f);
    if !g.passed then Refuse(g) else ResumeRecord(g.cell, epoch, f)
  }

  function ResumeRecord(c: Cell, epoch: nat, f: Faults): Outcome
    requires c.record.Some?
  {
    var record := c.record.value;
    if record.loaded.Some? && record.loaded.value in c.consumed then Outcome(c, Refused, [])
    else
      var consumed := if record.loaded.Some? then c.consumed + {record.loaded.value} else c.consumed;
      var (vm, ok) := FcResume(c.vm, f.firecracker);
      var resumed := c.(vm := vm, consumed := consumed);
      var calls := [ResumeCall(record.loaded)];
      if !ok then Outcome(resumed, Refused, calls)
      else
        Outcome(WithRecord(resumed, record.(state := Running, epoch := epoch)),
                if f.guest then Done else Refused, calls)
  }

  function Fence(c: Cell, epoch: nat, f: Faults): Outcome {
    if c.record.None? || !Accepts(c, epoch, f) then Outcome(c, Refused, [])
    else
      var record := c.record.value;
      var fenced := WithRecord(c.(accepted := epoch), record.(state := Fenced, epoch := epoch));
      if record.state.Running? then
        var (vm, ok) := FcPause(c.vm, f.fencePause);
        Outcome(fenced.(vm := vm), if f.veth && ok then Done else Refused, [PauseCall])
      else
        Outcome(fenced, if f.veth then Done else Refused, [])
  }

  function Quarantine(c: Cell, epoch: nat, m: Mid, f: Faults): Outcome {
    if c.record.None? then Outcome(c, Refused, [])
    else if c.record.value.state.Quarantined? && c.record.value.quarantine.Some? then Outcome(c, Done, [])
    else if !Accepts(c, epoch, f) then Outcome(c, Refused, [])
    else
      var record := c.record.value;
      var accepted := c.(accepted := epoch);
      if epoch < record.epoch then Outcome(accepted, Refused, [])
      else if !f.files then Outcome(accepted.(vm := Absent), Refused, [])
      else
        Outcome(WithRecord(accepted.(vm := Absent, claimed := false),
                           record.(state := Quarantined, epoch := epoch, quarantine := Some(m))),
                Done, [])
  }

  // ---- Snapshots ----

  function ContentOf(files: map<Kind, Bytes>, kind: Kind): Bytes {
    if kind in files then files[kind] else []
  }

  /** The files of a new snapshot generation beside the disk as it is. */
  function SnapshotFiles(record: Record, f: Faults): map<Kind, Bytes> {
    map[StateFile := ContentOf(f.bytes, StateFile),
        MemoryFile := ContentOf(f.bytes, MemoryFile),
        DiskFile := ContentOf(record.files, DiskFile)]
  }

  function DescribeAll(files: map<Kind, Bytes>): map<Kind, Descriptor> {
    map kind | kind in files :: Describe(files[kind])
  }

  function Snapshot(c: Cell, id: Sid, epoch: nat, m: Mid, f: Faults): Outcome {
    var g := MutableRecord(c, epoch, Some(Paused), f);
    if !g.passed then Refuse(g) else SnapshotRecord(g.cell, id, epoch, m, f)
  }

  /** The generation is counted up before the snapshot is taken, so no attempt reuses a path. */
  function SnapshotRecord(c: Cell, id: Sid, epoch: nat, m: Mid, f: Faults): Outcome
    requires c.record.Some?
  {
    var record := c.record.value.(generation := c.record.value.generation + 1);
    var taken := f.firecracker.Works? && (c.vm.Halted? || c.vm.Executing?);
    if !taken || !f.files then Outcome(WithRecord(c, record), Refused, [SnapshotCall])
    else
      var files := SnapshotFiles(record, f);
      var artifacts := DescribeAll(files);
      Outcome(WithRecord(c, record.(files := files, registered := artifacts)),
              Snapshotted(Manifest(m, id, epoch, record.machine, artifacts)), [SnapshotCall])
  }

  function SnapshotMigration(c: Cell, id: Sid, epoch: nat, m: Mid, f: Faults): Outcome {
    if m in c.manifests then
      var cached := c.manifests[m];
      if cached.sandboxId != id || cached.sourceEpoch != epoch then Outcome(c, Refused, [])
      else Outcome(c, Snapshotted(cached), [])
    else
      var o := Snapshot(c, id, epoch, m, f);
      if o.reply.Snapshotted?
      then o.(cell := o.cell.(manifests := o.cell.manifests[m := o.reply.manifest]))
      else o
  }

  /** The kinds whose pull was renamed into place, which it is only if it matches the descriptor. */
  function Renamed(manifest: Manifest, f: Faults): set<Kind> {
    set kind | kind in AllKinds && kind in f.bytes && kind in manifest.artifacts
               && Matches(f.bytes[kind], manifest.artifacts[kind])
  }

  /** Those whose pull also succeeded, so that they are registered. */
  function Committed(manifest: Manifest, f: Faults): set<Kind> {
    Renamed(manifest, f) - f.unsynced
  }

  /** A transfer goes on only for this migration, on a fitting host, through the choke point, and
      with a source to pull from. */
  function AdmitTransfer(c: Cell, id: Sid, epoch: nat, m: Mid, manifest: Manifest, f: Faults): (g: Gate)
    ensures g.passed ==> g.cell.record.Some?
  {
    if manifest.migrationId != m || !FitsReservation(c, id, manifest, f) then Gate(c, false, [])
    else
      var g := MutableRecord(c, epoch, Some(Booting), f);
      Gate(g.cell, g.passed && f.peer, g.calls)
  }

  function Transfer(c: Cell, id: Sid, epoch: nat, m: Mid, manifest: Manifest, f: Faults): Outcome {
    var g := AdmitTransfer(c, id, epoch, m, manifest, f);
    if g.passed then TransferRecord(g.cell, manifest, f) else Refuse(g)
  }

  function Pulled(record: Record, manifest: Manifest, f: Faults): Record {
    var renamed, committed := Renamed(manifest, f), Committed(manifest, f);
    record.(files := record.files + map kind | kind in renamed :: f.bytes[kind],
            registered := record.registered + map kind | kind in committed :: manifest.artifacts[kind])
  }

  function TransferRecord(c: Cell, manifest: Manifest, f: Faults): Outcome
    requires c.record.Some?
  {
    if AllRegistered(c.record.value, manifest) then Outcome(c, if f.guest then Done else Refused, [])
    else
      Outcome(WithRecord(c, Pulled(c.record.value, manifest, f)),
              if Committed(manifest, f) == AllKinds && f.guest then Done else Refused, [])
  }

  // ---- Creation ----

  predicate ValidMachine(machine: Machine) {
    1 <= machine.cpu <= 32 && 128 <= machine.memoryMb <= 262_144
  }

  function NewRecord(epoch: nat, machine: Machine, state: RecordState, files: map<Kind, Bytes>): Record {
    Record(state, epoch, machine, 0, None, None, map[], files)
  }

  /** The root file system that a boot copies into place. */
  function BootDisk(f: Faults): map<Kind, Bytes> {
    if DiskFile in f.bytes then map[DiskFile := f.bytes[DiskFile]] else map[]
  }

  predicate PassesChecks(c: Cell, epoch: nat, machine: Machine, f: Faults) {
    c.record.None? && ValidMachine(machine) && Accepts(c, epoch, f)
  }

  /** The cell once a create was admitted and its directory claimed. */
  function Claim(c: Cell, epoch: nat, machine: Machine, f: Faults): (Cell, bool) {
    if !PassesChecks(c, epoch, machine, f) then (c, false)
    else if c.claimed || f.stage.ClaimFails? then (c.(accepted := epoch), false)
    else (c.(accepted := epoch, claimed := true), true)
  }

  function Create(c: Cell, epoch: nat, machine: Machine, boot: bool, f: Faults): Outcome {
    var (cell, claimed) := Claim(c, epoch, machine, f);
    if claimed then CreateStages(cell, epoch, machine, boot, f) else Outcome(cell, Refused, [])
  }

  /** What follows once the directory is claimed. */
  function CreateStages(c: Cell, epoch: nat, machine: Machine, boot: bool, f: Faults): Outcome {
    if f.stage.NetworkFails? || f.stage.LaunchFails? then Outcome(c.(claimed := !f.cleanup), Refused, [])
    else LaunchedStages(c, epoch, machine, boot, f)
  }

  function LaunchedStages(c: Cell, epoch: nat, machine: Machine, boot: bool, f: Faults): Outcome {
    if !boot then
      Outcome(WithRecord(c.(vm := Unbooted), NewRecord(epoch, machine, Booting, map[])), Done, [])
    else if f.stage.BootFails? then
      var stopped := c.(vm := Absent, claimed := !f.cleanup);
      Outcome(if f.cleanup then stopped else WithRecord(stopped, NewRecord(epoch, machine, Booting, BootDisk(f))),
              Refused, [BootCall])
    else
      Outcome(WithRecord(c.(vm := Executing), NewRecord(epoch, machine, Running, BootDisk(f))), Done, [BootCall])
  }

  // ---- Migration phases ----

  datatype Preparation = Preparation(
    m: Mid, prestage: bool, source: Wid, destination: Wid, machine: Machine)

  /** The reservation that a request asks for, unless an earlier one with other terms stands. */
  function Admitted(c: Cell, epoch: nat, p: Preparation): Option<Reservation> {
    var fitting := Reservation(epoch, p.source, p.destination, p.machine, false);
    if p.m !in c.reservations then Some(fitting)
    else if c.reservations[p.m].(prepared := false) == fitting then Some(c.reservations[p.m])
    else None
  }

  function WithReservation(c: Cell, m: Mid, reservation: Reservation): Cell {
    c.(reservations := c.reservations[m := reservation])
  }

  function Prepare(c: Cell, here: Wid, epoch: nat, p: Preparation, f: Faults): Outcome {
    var reservation := Admitted(c, epoch, p);
    if p.destination != here || reservation.None? then Outcome(c, Refused, [])
    else PrepareReserved(WithReservation(c, p.m, reservation.value), epoch, p, reservation.value, f)
  }

  function PrepareReserved(c: Cell, epoch: nat, p: Preparation, reservation: Reservation, f: Faults): Outcome {
    if !p.prestage || reservation.prepared then
      Outcome(c, Prepared(reservation.prepared && IsRunning(c)), [])
    else
      var o := EnsureReservation(c, epoch, p, f);
      if o.reply.Refused? then o
      else
        var prepared := WithReservation(o.cell, p.m, reservation.(prepared := true));
        Outcome(prepared, Prepared(IsRunning(prepared)), o.calls)
  }

  /** Whether the process table of the worker holds a Firecracker for the sandbox. */
  predicate IsRunning(c: Cell) {
    c.record.Some? && !c.vm.Absent?
  }

  function EnsureReservation(c: Cell, epoch: nat, p: Preparation, f: Faults): Outcome {
    if c.record.None? then Create(c, epoch, p.machine, false, f)
    else if c.record.value.epoch != epoch || c.record.value.machine != p.machine
    then Outcome(c, Refused, [])
    else Outcome(c, Done, [])
  }

  function GuestCall(c: Cell, epoch: nat, expected: Option<RecordState>, f: Faults): Outcome {
    var g := MutableRecord(c, epoch, expected, f);
    if g.passed && f.guest then Outcome(g.cell, Done, g.calls) else Refuse(g)
  }

  function Precopy(c: Cell, epoch: nat, f: Faults): Outcome {
    var g := MutableRecord(c, epoch, Some(Running), f);
    if g.passed then Outcome(g.cell, Done, g.calls) else Refuse(g)
  }

  function PauseMigration(c: Cell, epoch: nat, f: Faults): Outcome {
    if c.record.Some? && c.record.value.state.Paused? then Outcome(c, Done, []) else Pause(c, epoch, f)
  }

  function ResumeMigration(c: Cell, epoch: nat, f: Faults): Outcome {
    if c.record.Some? && c.record.value.state.Running? then Outcome(c, Done, []) else Resume(c, epoch, f)
  }

  function Rollback(c: Cell, epoch: nat, repairClock: bool, f: Faults): Outcome {
    if c.record.None? || c.record.value.loaded.Some? then Outcome(c, Refused, [])
    else if c.record.value.state.Paused? then Resume(c, epoch, f)
    else if c.record.value.state.Running? && (repairClock ==> f.guest) then Outcome(c, Done, [])
    else Outcome(c, Refused, [])
  }

  function FenceAndCleanup(c: Cell, epoch: nat, m: Mid, f: Faults): Outcome {
    if c.record.Some? && c.record.value.state.Quarantined? && c.record.value.quarantine.Some?
    then Outcome(c, Done, [])
    else
      var o := Fence(c, epoch, f);
      if o.reply.Refused? then o
      else
        var q := Quarantine(o.cell, epoch, m, f);
        q.(calls := o.calls + q.calls)
  }

  // ---- All operations ----

  /** The routes of a worker. The last five are the direct routes the coordinator does not use. */
  datatype Op =
    | CreateOp(epoch: nat, machine: Machine, boot: bool)
    | PrepareOp(epoch: nat, preparation: Preparation)
    | ProbeOp(epoch: nat)
    | PrecopyOp(epoch: nat)
    | PauseMigrationOp(epoch: nat)
    | SnapshotMigrationOp(epoch: nat, m: Mid)
    | TransferOp(epoch: nat, m: Mid, manifest: Manifest)
    | LoadOp(epoch: nat, manifest: Manifest)
    | ResumeMigrationOp(epoch: nat)
    | VerifyOp(epoch: nat)
    | RollbackOp(epoch: nat, repairClock: bool)
    | FenceAndCleanupOp(epoch: nat, m: Mid)
    | GuestOp(epoch: nat)
    | PauseOp(epoch: nat)
    | SnapshotOp(epoch: nat, m: Mid)
    | ResumeOp(epoch: nat)
    | FenceOp(epoch: nat)
    | QuarantineOp(epoch: nat, m: Mid)

  function Exec(c: Cell, here: Wid, id: Sid, op: Op, f: Faults): Outcome {
    match op
    case CreateOp(epoch, machine, boot) => Create(c, epoch, machine, boot, f)
    case PrepareOp(epoch, preparation) => Prepare(c, here, epoch, preparation, f)
    case ProbeOp(epoch) => GuestCall(c, epoch, Some(Running), f)
    case PrecopyOp(epoch) => Precopy(c, epoch, f)
    case PauseMigrationOp(epoch) => PauseMigration(c, epoch, f)
    case SnapshotMigrationOp(epoch, m) => SnapshotMigration(c, id, epoch, m, f)
    case TransferOp(epoch, m, manifest) => Transfer(c, id, epoch, m, manifest, f)
    case LoadOp(epoch, manifest) => Load(c, id, epoch, manifest, f)
    case ResumeMigrationOp(epoch) => ResumeMigration(c, epoch, f)
    case VerifyOp(epoch) => GuestCall(c, epoch, Some(Running), f)
    case RollbackOp(epoch, repairClock) => Rollback(c, epoch, repairClock, f)
    case FenceAndCleanupOp(epoch, m) => FenceAndCleanup(c, epoch, m, f)
    case GuestOp(epoch) => GuestCall(c, epoch, None, f)
    case PauseOp(epoch) => Pause(c, epoch, f)
    case SnapshotOp(epoch, m) => Snapshot(c, id, epoch, m, f)
    case ResumeOp(epoch) => Resume(c, epoch, f)
    case FenceOp(epoch) => Fence(c, epoch, f)
    case QuarantineOp(epoch, m) => Quarantine(c, epoch, m, f)
  }

  // ---- What happens to a worker from outside ----

  /** The worker process is replaced: what it kept in memory is gone, its directories and files
      stay, the epoch is what the epoch store reloads, and the VM may or may not outlive it. */
  function Restarted(c: Cell, reloaded: nat, vmSurvives: bool): Cell {
    Cell(reloaded, None, if vmSurvives then c.vm else Absent, c.claimed, {}, map[], map[])
  }

  /** A guest that executes writes to its disk. */
  function GuestWrites(c: Cell, content: Bytes): Cell {
    if c.vm.Executing? && c.record.Some?
    then WithRecord(c, c.record.value.(files := c.record.value.files[DiskFile := content]))
    else c
  }
}
