/** The worker as it runs: maps of records, processes, directories and reservations, changed in
    place by operations that all pass one choke point. Each operation is proved to do to its
    sandbox what the function of module Worker says, and nothing to any other. */
module WorkerCore {
  import opened Prelude
  import opened Artifacts
  import opened Worker
  import E = Epochs
  import ES = EpochStore
  import N = Network
  import A = Allocation
  import AL = Allocator
  import T = Transfer
  import AP = ArtifactPull
  import WP = WorkerPulls

  class Core {
    const here: Wid
    const epochs: ES.Store
    const allocator: AL.ResourceAllocator
    var sandboxes: map<Sid, Record>
    var networkKeys: map<Sid, N.Keys>
    var processes: map<Sid, Vm>
    var directories: set<Sid>
    var consumedSnapshots: set<Mid>
    var manifests: map<Mid, Manifest>
    var migrations: map<Sid, map<Mid, Reservation>>
    /** The partial files in the directory of each sandbox. */
    var partials: map<Sid, WP.Partials>
    /** What reached Firecracker so far. */
    ghost var calls: seq<Call>
    /** Records that a failed create left behind without their network keys. */
    ghost var unkeyed: set<Sid>
    /** Records whose create pinned nothing, so that their keys were derived. */
    ghost var derived: set<Sid>

    constructor (here: Wid, epochs: ES.Store, allocator: AL.ResourceAllocator)
      requires allocator.ShortNames() && allocator.networkOwners == map[]
      ensures Valid() && this.here == here && this.epochs == epochs && this.allocator == allocator
      ensures forall id :: CellOf(id) == Vacant.(accepted := epochs.Get(id))
      ensures calls == [] && unkeyed == {} && derived == {}
    {
      this.here := here;
      this.epochs := epochs;
      this.allocator := allocator;
      sandboxes := map[];
      networkKeys := map[];
      processes := map[];
      directories := {};
      consumedSnapshots := {};
      manifests := map[];
      migrations := map[];
      partials := map[];
      calls := [];
      unkeyed := {};
      derived := {};
    }

    /** What this worker keeps about one sandbox. */
    function CellOf(id: Sid): Cell
      reads this, epochs
    {
      Cell(epochs.Get(id), RecordOf(id), ProcessOf(id), id in directories, consumedSnapshots, manifests,
           ReservationsOf(id))
    }

    function RecordOf(id: Sid): Option<Record>
      reads this`sandboxes
    {
      if id in sandboxes then Some(sandboxes[id]) else None
    }

    function ProcessOf(id: Sid): Vm
      reads this`processes
    {
      if id in processes then processes[id] else Absent
    }

    function ReservationsOf(id: Sid): map<Mid, Reservation>
      reads this`migrations
    {
      if id in migrations then migrations[id] else map[]
    }

    function PartialsOf(id: Sid): WP.Partials
      reads this`partials
    {
      if id in partials then partials[id] else map[]
    }

    function FilesOf(id: Sid): map<Kind, Bytes>
      reads this`sandboxes
    {
      if id in sandboxes then sandboxes[id].files else map[]
    }

    /** The records that should hold network keys: all that were not moved to quarantine, except
        what a failed create left behind. */
    ghost function LiveKeys(): map<Sid, N.Keys>
      reads this
    {
      map id | id in networkKeys && id in sandboxes && sandboxes[id].quarantine.None? && id !in unkeyed
        :: networkKeys[id]
    }

    ghost predicate Valid()
      reads this, allocator
    {
      && allocator.ShortNames()
      && networkKeys.Keys == sandboxes.Keys && unkeyed <= sandboxes.Keys
      && A.Agree(allocator.networkOwners, LiveKeys())
      && DerivedKeys()
    }

    ghost predicate DerivedKeys()
      reads this
    {
      forall id | id in derived :: id in networkKeys && allocator.IsAttempt(id, networkKeys[id])
    }

    /** Records in quarantine and those that a failed create left behind hold no keys. */
    lemma DeadRecordsHoldNothing(id: Sid)
      requires Valid() && id !in LiveKeys()
      ensures A.HoldsNothing(allocator.networkOwners, id)
    {
      A.DeadHoldNothing(allocator.networkOwners, LiveKeys(), id);
    }

    /** Live sandboxes that pinned nothing have disjoint subnets. */
    lemma LiveSubnetsAreDisjoint(a: Sid, b: Sid) returns (digestA: N.Digest, digestB: N.Digest)
      requires Valid() && allocator.Derives()
      requires a in LiveKeys() && b in LiveKeys() && a in derived && b in derived && a != b
      ensures networkKeys[a] == N.KeysOf(N.Derived(digestA)) && networkKeys[b] == N.KeysOf(N.Derived(digestB))
      ensures forall address ::
                !(N.InBlock(address, N.BlockOf(digestA)) && N.InBlock(address, N.BlockOf(digestB)))
    {
      digestA := DigestOf(a);
      digestB := DigestOf(b);
      forall address: nat
        ensures !(N.InBlock(address, N.BlockOf(digestA)) && N.InBlock(address, N.BlockOf(digestB)))
      {
        A.LiveSubnetsAreDisjoint(allocator.networkOwners, LiveKeys(), a, b, digestA, digestB, address);
      }
    }

    lemma DigestOf(id: Sid) returns (digest: N.Digest)
      requires DerivedKeys() && allocator.Derives() && id in derived
      ensures id in networkKeys && networkKeys[id] == N.KeysOf(N.Derived(digest))
    {
      var attempt: nat :| networkKeys[id] == N.KeysOf(allocator.derive(id, attempt));
      assert N.IsDerived(allocator.derive(id, attempt));
      digest :| allocator.derive(id, attempt) == N.Derived(digest);
    }

    /** Nothing is known of other sandboxes that was not known before, but for the tables that
        all sandboxes of a worker share. */
    twostate predicate OthersKept(id: Sid)
      reads this, epochs
    {
      forall other | other != id ::
        && epochs.Get(other) == old(epochs.Get(other)) && RecordOf(other) == old(RecordOf(other))
        && ProcessOf(other) == old(ProcessOf(other)) && (other in directories <==> other in old(directories))
        && ReservationsOf(other) == old(ReservationsOf(other))
    }

    /** The operation on `id` came to `outcome`. */
    twostate predicate Became(id: Sid, outcome: Outcome, reply: Reply)
      reads this, epochs
    {
      && CellOf(id) == outcome.cell && reply == outcome.reply
      && calls == old(calls) + outcome.calls
      && OthersKept(id)
    }

    /** The record neither comes nor goes nor moves to quarantine. */
    twostate predicate RecordStays(id: Sid)
      reads this
    {
      (id in sandboxes <==> id in old(sandboxes))
      && (id in sandboxes ==> sandboxes[id].quarantine == old(sandboxes[id]).quarantine)
    }

    twostate lemma SameRecords(id: Sid)
      requires OthersKept(id) && (id in sandboxes <==> id in old(sandboxes))
      ensures sandboxes.Keys == old(sandboxes).Keys
      ensures forall other | other in sandboxes && other != id :: sandboxes[other] == old(sandboxes)[other]
    {
      forall other ensures other in sandboxes <==> other in old(sandboxes)
                   ensures other in sandboxes && other != id ==> sandboxes[other] == old(sandboxes)[other]
      {
        if other != id {
          assert RecordOf(other) == old(RecordOf(other));
        }
      }
    }

    /** Operations that leave the records where they are keep the keys in agreement with them. */
    twostate lemma StayingIsValid(id: Sid)
      requires old(Valid()) && RecordStays(id) && OthersKept(id)
      requires networkKeys == old(networkKeys) && unkeyed == old(unkeyed) && derived == old(derived)
      requires allocator.networkOwners == old(allocator.networkOwners)
      ensures Valid()
    {
      SameRecords(id);
      assert LiveKeys() == old(LiveKeys());
    }

    // ---- Firecracker ----

    method FirecrackerPause(id: Sid, fc: Fc) returns (ok: bool)
      modifies this`processes, this`calls
      ensures (ProcessOf(id), ok) == FcPause(old(ProcessOf(id)), fc)
      ensures forall other | other != id :: ProcessOf(other) == old(ProcessOf(other))
      ensures calls == old(calls) + [PauseCall]
    {
      calls := calls + [PauseCall];
      var (vm, works) := FcPause(ProcessOf(id), fc);
      processes := processes[id := vm];
      ok := works;
    }

    method FirecrackerResume(id: Sid, fc: Fc, loaded: Option<Mid>) returns (ok: bool)
      modifies this`processes, this`calls
      ensures (ProcessOf(id), ok) == FcResume(old(ProcessOf(id)), fc)
      ensures forall other | other != id :: ProcessOf(other) == old(ProcessOf(other))
      ensures calls == old(calls) + [ResumeCall(loaded)]
    {
      calls := calls + [ResumeCall(loaded)];
      var (vm, works) := FcResume(ProcessOf(id), fc);
      processes := processes[id := vm];
      ok := works;
    }

    method FirecrackerLoad(id: Sid, fc: Fc, manifest: Manifest, files: map<Kind, Bytes>) returns (ok: bool)
      modifies this`processes, this`calls
      ensures (ProcessOf(id), ok) == FcLoad(old(ProcessOf(id)), fc)
      ensures forall other | other != id :: ProcessOf(other) == old(ProcessOf(other))
      ensures calls == old(calls) + [LoadCall(manifest, files)]
    {
      calls := calls + [LoadCall(manifest, files)];
      var (vm, works) := FcLoad(ProcessOf(id), fc);
      processes := processes[id := vm];
      ok := works;
    }

    // ---- The choke point ----

    method AcceptEpoch(id: Sid, epoch: nat, f: Faults) returns (accepted: bool, advanced: bool)
      modifies epochs
      ensures accepted <==> Accepts(old(CellOf(id)), epoch, f)
      ensures advanced <==> accepted && epoch > old(epochs.Get(id))
      ensures epochs.Get(id) == if accepted then epoch else old(epochs.Get(id))
      ensures forall other | other != id :: epochs.Get(other) == old(epochs.Get(other))
    {
      var answer := epochs.Accept(id, epoch, f.persist);
      accepted := answer.Accepted?;
      advanced := accepted && answer.advanced;
    }

    method MutableRecord(id: Sid, epoch: nat, expected: Option<RecordState>, f: Faults) returns (passed: bool)
      modifies this`sandboxes, this`processes, this`calls, epochs
      ensures passed ==> id in sandboxes
      ensures var g := Worker.MutableRecord(old(CellOf(id)), epoch, expected, f);
              CellOf(id) == g.cell && passed == g.passed && calls == old(calls) + g.calls
      ensures OthersKept(id) && RecordStays(id)
    {
      if id !in sandboxes {
        return false;
      }
      var accepted, advanced := AcceptEpoch(id, epoch, f);
      if !accepted {
        return false;
      }
      if advanced && !sandboxes[id].state.Booting? {
        FenceQuietly(id, epoch, f);
        return false;
      }
      if sandboxes[id].state.Fenced? || epoch < sandboxes[id].epoch {
        return false;
      }
      passed := expected.None? || sandboxes[id].state == expected.value;
    }

    method FenceQuietly(id: Sid, epoch: nat, f: Faults)
      requires id in sandboxes
      modifies this`sandboxes, this`processes, this`calls
      ensures var g := Worker.FenceQuietly(old(CellOf(id)), old(sandboxes[id]), epoch, f);
              CellOf(id) == g.cell && calls == old(calls) + g.calls
      ensures OthersKept(id) && RecordStays(id)
    {
      var wasRunning := sandboxes[id].state.Running?;
      sandboxes := sandboxes[id := sandboxes[id].(state := Fenced, epoch := epoch)];
      if wasRunning {
        var _ := FirecrackerPause(id, f.fencePause);
      }
    }

    // ---- Lifecycle ----

    method PauseSandbox(id: Sid, epoch: nat, f: Faults) returns (reply: Reply)
      modifies this`sandboxes, this`processes, this`calls, epochs
      ensures RecordStays(id) && Became(id, Pause(old(CellOf(id)), epoch, f), reply)
    {
      var passed := MutableRecord(id, epoch, None, f);
      if !passed {
        return Refused;
      }
      var ok := FirecrackerPause(id, f.firecracker);
      if ok {
        sandboxes := sandboxes[id := sandboxes[id].(state := Paused)];
      }
      reply := if ok then Done else Refused;
    }

    method LoadSnapshot(id: Sid, epoch: nat, manifest: Manifest, f: Faults) returns (reply: Reply)
      modifies this`sandboxes, this`processes, this`calls, epochs
      ensures RecordStays(id) && Became(id, Load(old(CellOf(id)), id, epoch, manifest, f), reply)
    {
      if !FitsReservation(CellOf(id), id, manifest, f) || manifest.sandboxId != id
         || epoch != manifest.sourceEpoch + 1 || manifest.migrationId in consumedSnapshots
         || id !in sandboxes {
        return Refused;
      }
      if sandboxes[id].loaded == Some(manifest.migrationId) && sandboxes[id].state.Paused? {
        return Done;
      }
      var passed := MutableRecord(id, epoch, Some(Booting), f);
      if !passed || !AllRegistered(sandboxes[id], manifest) {
        return Refused;
      }
      reply := LoadInto(id, manifest, f);
    }

    method LoadInto(id: Sid, manifest: Manifest, f: Faults) returns (reply: Reply)
      requires id in sandboxes
      modifies this`sandboxes, this`processes, this`calls
      ensures RecordStays(id) && Became(id, Worker.LoadInto(old(CellOf(id)), manifest, f), reply)
    {
      var ok := FirecrackerLoad(id, f.firecracker, manifest, sandboxes[id].files);
      if ok {
        sandboxes := sandboxes[id := sandboxes[id].(loaded := Some(manifest.migrationId))];
        sandboxes := sandboxes[id := sandboxes[id].(state := Paused)];
      }
      reply := if ok then Done else Refused;
    }

    method ResumeSandbox(id: Sid, epoch: nat, f: Faults) returns (reply: Reply)
      modifies this`sandboxes, this`processes, this`calls, this`consumedSnapshots, epochs
      ensures RecordStays(id) && Became(id, Resume(old(CellOf(id)), epoch, f), reply)
    {
      var passed := MutableRecord(id, epoch, Some(Paused), f);
      if !passed {
        return Refused;
      }
      reply := ResumeRecord(id, epoch, f);
    }

    method ResumeRecord(id: Sid, epoch: nat, f: Faults) returns (reply: Reply)
      requires id in sandboxes
      modifies this`sandboxes, this`processes, this`calls, this`consumedSnapshots
      ensures RecordStays(id) && Became(id, Worker.ResumeRecord(old(CellOf(id)), epoch, f), reply)
    {
      var loaded := sandboxes[id].loaded;
      if loaded.Some? {
        if loaded.value in consumedSnapshots {
            return Refused;
        }
        consumedSnapshots := consumedSnapshots + {loaded.value};
      }
      var ok := FirecrackerResume(id, f.firecracker, loaded);
      if ok {
        sandboxes := sandboxes[id := sandboxes[id].(state := Running, epoch := epoch)];
      }
      reply := if ok && f.guest then Done else Refused;
    }

    method FenceSandbox(id: Sid, epoch: nat, f: Faults) returns (reply: Reply)
      modifies this`sandboxes, this`processes, this`calls, epochs
      ensures RecordStays(id) && Became(id, Fence(old(CellOf(id)), epoch, f), reply)
    {
      if id !in sandboxes {
        return Refused;
      }
      var accepted, _ := AcceptEpoch(id, epoch, f);
      if !accepted {
        return Refused;
      }
      var wasRunning := sandboxes[id].state.Running?;
      sandboxes := sandboxes[id := sandboxes[id].(state := Fenced, epoch := epoch)];
      var ok := f.veth;
      if wasRunning {
        var paused := FirecrackerPause(id, f.fencePause);
        ok := ok && paused;
      }
      reply := if ok then Done else Refused;
    }

    method QuarantineSandbox(id: Sid, epoch: nat, m: Mid, f: Faults) returns (reply: Reply)
      requires networkKeys.Keys == sandboxes.Keys
      modifies this`sandboxes, this`processes, this`directories, epochs,
               allocator`networkOwners, allocator`portOwners
      ensures KeysFollow(id) && Became(id, Quarantine(old(CellOf(id)), epoch, m, f), reply)
    {
      if id !in sandboxes {
        return Refused;
      }
      if sandboxes[id].state.Quarantined? && sandboxes[id].quarantine.Some? {
        return Done;
      }
      var accepted, _ := AcceptEpoch(id, epoch, f);
      if !accepted || epoch < sandboxes[id].epoch {
        return Refused;
      }
      processes := processes[id := Absent];
      if !f.files {
        return Refused;
      }
      MoveToQuarantine(id, epoch, m);
      reply := Done;
    }

    method MoveToQuarantine(id: Sid, epoch: nat, m: Mid)
      requires id in sandboxes && id in networkKeys
      modifies this`sandboxes, this`directories, allocator`networkOwners, allocator`portOwners
      ensures RecordOf(id) == Some(old(sandboxes)[id].(state := Quarantined, epoch := epoch, quarantine := Some(m)))
      ensures id !in directories && OthersKept(id) && Released(id)
    {
      directories := directories - {id};
      sandboxes := sandboxes[id := sandboxes[id].(state := Quarantined, epoch := epoch)];
      sandboxes := sandboxes[id := sandboxes[id].(quarantine := Some(m))];
      allocator.ReleaseNetwork(id, networkKeys[id]);
      allocator.ReleasePorts(id);
    }

    /** The record is in quarantine and its keys and ports are released. */
    twostate predicate Released(id: Sid)
      reads this, allocator
    {
      && id in sandboxes && sandboxes[id].quarantine.Some? && id in networkKeys && id in old(sandboxes)
      && allocator.networkOwners == A.Released(old(allocator.networkOwners), id, networkKeys[id])
      && allocator.portOwners == A.PortsReleased(old(allocator.portOwners), allocator.name(id))
    }

    /** Keys and ports are released exactly when the record moves to quarantine. */
    twostate predicate KeysFollow(id: Sid)
      reads this, allocator
    {
      if MovesToQuarantine(old(RecordOf(id)), RecordOf(id)) then Released(id)
      else
        && RecordStays(id) && allocator.networkOwners == old(allocator.networkOwners)
        && allocator.portOwners == old(allocator.portOwners)
    }

    twostate lemma QuarantinedIsNotLive(id: Sid)
      requires old(Valid()) && OthersKept(id) && Released(id)
      requires networkKeys == old(networkKeys) && unkeyed == old(unkeyed)
      ensures sandboxes.Keys == old(sandboxes).Keys && LiveKeys() == old(LiveKeys()) - {id}
    {
      SameRecords(id);
    }

    twostate lemma QuarantiningIsValid(id: Sid)
      requires old(Valid()) && OthersKept(id) && Released(id)
      requires networkKeys == old(networkKeys) && unkeyed == old(unkeyed) && derived == old(derived)
      ensures Valid()
    {
      var live := old(LiveKeys());
      QuarantinedIsNotLive(id);
      if id in live {
        A.ReleaseAgrees(old(allocator.networkOwners), live, id);
      } else {
        A.NothingToRelease(old(allocator.networkOwners), live, id, networkKeys[id]);
      }
    }

    method FenceAndCleanup(id: Sid, epoch: nat, m: Mid, f: Faults) returns (reply: Reply)
      requires networkKeys.Keys == sandboxes.Keys
      modifies this`sandboxes, this`processes, this`directories, this`calls, epochs,
               allocator`networkOwners, allocator`portOwners
      ensures KeysFollow(id) && Became(id, Worker.FenceAndCleanup(old(CellOf(id)), epoch, m, f), reply)
    {
      if id in sandboxes && sandboxes[id].state.Quarantined? && sandboxes[id].quarantine.Some? {
        return Done;
      }
      reply := FenceSandbox(id, epoch, f);
      if reply.Refused? {
        return;
      }
      SameRecords(id);
      reply := QuarantineSandbox(id, epoch, m, f);
    }

    // ---- Guest calls and idempotent phases ----

    method GuestCall(id: Sid, epoch: nat, expected: Option<RecordState>, f: Faults) returns (reply: Reply)
      modifies this`sandboxes, this`processes, this`calls, epochs
      ensures RecordStays(id) && Became(id, Worker.GuestCall(old(CellOf(id)), epoch, expected, f), reply)
    {
      var passed := MutableRecord(id, epoch, expected, f);
      reply := if passed && f.guest then Done else Refused;
    }

    method Precopy(id: Sid, epoch: nat, f: Faults) returns (reply: Reply)
      modifies this`sandboxes, this`processes, this`calls, epochs
      ensures RecordStays(id) && Became(id, Worker.Precopy(old(CellOf(id)), epoch, f), reply)
    {
      var passed := MutableRecord(id, epoch, Some(Running), f);
      reply := if passed then Done else Refused;
    }

    method PauseMigration(id: Sid, epoch: nat, f: Faults) returns (reply: Reply)
      modifies this`sandboxes, this`processes, this`calls, epochs
      ensures RecordStays(id) && Became(id, Worker.PauseMigration(old(CellOf(id)), epoch, f), reply)
    {
      if id in sandboxes && sandboxes[id].state.Paused? {
        return Done;
      }
      reply := PauseSandbox(id, epoch, f);
    }

    method ResumeMigration(id: Sid, epoch: nat, f: Faults) returns (reply: Reply)
      modifies this`sandboxes, this`processes, this`calls, this`consumedSnapshots, epochs
      ensures RecordStays(id) && Became(id, Worker.ResumeMigration(old(CellOf(id)), epoch, f), reply)
    {
      if id in sandboxes && sandboxes[id].state.Running? {
        return Done;
      }
      reply := ResumeSandbox(id, epoch, f);
    }

    method Rollback(id: Sid, epoch: nat, repairClock: bool, f: Faults) returns (reply: Reply)
      modifies this`sandboxes, this`processes, this`calls, this`consumedSnapshots, epochs
      ensures RecordStays(id) && Became(id, Worker.Rollback(old(CellOf(id)), epoch, repairClock, f), reply)
    {
      if id !in sandboxes || sandboxes[id].loaded.Some? {
        return Refused;
      }
      if sandboxes[id].state.Paused? {
        reply := ResumeSandbox(id, epoch, f);
        return;
      }
      if !sandboxes[id].state.Running? || (repairClock && !f.guest) {
        return Refused;
      }
      reply := Done;
    }

    // ---- Snapshots and transfers ----

    method CreateSnapshot(id: Sid, epoch: nat, m: Mid, f: Faults) returns (reply: Reply)
      modifies this`sandboxes, this`processes, this`calls, epochs
      ensures RecordStays(id) && Became(id, Snapshot(old(CellOf(id)), id, epoch, m, f), reply)
    {
      var passed := MutableRecord(id, epoch, Some(Paused), f);
      if !passed {
        return Refused;
      }
      reply := SnapshotRecord(id, epoch, m, f);
    }

    method SnapshotRecord(id: Sid, epoch: nat, m: Mid, f: Faults) returns (reply: Reply)
      requires id in sandboxes
      modifies this`sandboxes, this`calls
      ensures RecordStays(id) && Became(id, Worker.SnapshotRecord(old(CellOf(id)), id, epoch, m, f), reply)
    {
      sandboxes := sandboxes[id := sandboxes[id].(generation := sandboxes[id].generation + 1)];
      calls := calls + [SnapshotCall];
      if !f.firecracker.Works? || !(ProcessOf(id).Halted? || ProcessOf(id).Executing?) || !f.files {
        return Refused;
      }
      var files := SnapshotFiles(sandboxes[id], f);
      sandboxes := sandboxes[id := sandboxes[id].(files := files)];
      sandboxes := sandboxes[id := sandboxes[id].(registered := DescribeAll(files))];
      reply := Snapshotted(Manifest(m, id, epoch, sandboxes[id].machine, sandboxes[id].registered));
    }

    method SnapshotMigration(id: Sid, epoch: nat, m: Mid, f: Faults) returns (reply: Reply)
      modifies this`sandboxes, this`processes, this`calls, this`manifests, epochs
      ensures RecordStays(id) && Became(id, Worker.SnapshotMigration(old(CellOf(id)), id, epoch, m, f), reply)
    {
      if m in manifests {
        var cached := manifests[m];
        if cached.sandboxId != id || cached.sourceEpoch != epoch {
          return Refused;
        }
        return Snapshotted(cached);
      }
      reply := CreateSnapshot(id, epoch, m, f);
      if reply.Snapshotted? {
        manifests := manifests[m := reply.manifest];
      }
    }

    /** Registers the artifacts whose pulls succeed, unless all of them are registered already. */
    method TransferMigration(id: Sid, epoch: nat, m: Mid, manifest: Manifest, pulls: WP.Pulls, f: Faults)
      returns (reply: Reply)
      requires WP.Tells(PartialsOf(id), FilesOf(id), manifest, pulls, f)
      modifies this`sandboxes, this`partials, this`processes, this`calls, epochs
      ensures RecordStays(id) && Became(id, Transfer(old(CellOf(id)), id, epoch, m, manifest, f), reply)
    {
      var admitted := AdmitTransfer(id, epoch, m, manifest, f);
      if !admitted {
        return Refused;
      }
      reply := TransferRecord(id, manifest, pulls, f);
    }

    method AdmitTransfer(id: Sid, epoch: nat, m: Mid, manifest: Manifest, f: Faults) returns (admitted: bool)
      modifies this`sandboxes, this`processes, this`calls, epochs
      ensures var g := Worker.AdmitTransfer(old(CellOf(id)), id, epoch, m, manifest, f);
              CellOf(id) == g.cell && admitted == g.passed && calls == old(calls) + g.calls
      ensures OthersKept(id) && RecordStays(id)
      ensures admitted ==> id in sandboxes && FilesOf(id) == old(FilesOf(id))
    {
      if manifest.migrationId != m || !FitsReservation(CellOf(id), id, manifest, f) {
        return false;
      }
      var passed := MutableRecord(id, epoch, Some(Booting), f);
      admitted := passed && f.peer;
    }

    method TransferRecord(id: Sid, manifest: Manifest, pulls: WP.Pulls, f: Faults) returns (reply: Reply)
      requires id in sandboxes && WP.Tells(PartialsOf(id), FilesOf(id), manifest, pulls, f)
      modifies this`sandboxes, this`partials
      ensures RecordStays(id) && Became(id, Worker.TransferRecord(old(CellOf(id)), manifest, f), reply)
    {
      if AllRegistered(sandboxes[id], manifest) {
        return if f.guest then Done else Refused;
      }
      var complete := PullArtifacts(id, manifest, pulls, f);
      reply := if complete && f.guest then Done else Refused;
    }

    method PullArtifacts(id: Sid, manifest: Manifest, pulls: WP.Pulls, ghost f: Faults) returns (complete: bool)
      requires id in sandboxes && WP.Tells(PartialsOf(id), FilesOf(id), manifest, pulls, f)
      modifies this`sandboxes, this`partials
      ensures complete <==> Committed(manifest, f) == AllKinds
      ensures sandboxes == old(sandboxes)[id := Pulled(old(sandboxes[id]), manifest, f)]
    {
      complete := PullOneByOne(id, manifest, pulls, f);
      WP.PulledOneByOne(old(sandboxes[id]), manifest, f);
      WP.AllThree(Committed(manifest, f));
    }

    method PullOneByOne(id: Sid, manifest: Manifest, pulls: WP.Pulls, ghost f: Faults) returns (complete: bool)
      requires id in sandboxes && WP.Tells(PartialsOf(id), FilesOf(id), manifest, pulls, f)
      modifies this`sandboxes, this`partials
      ensures complete <==> WP.AllUpTo(3, Committed(manifest, f))
      ensures sandboxes == old(sandboxes)[id := WP.PulledUpTo(old(sandboxes[id]), 3, manifest, f)]
    {
      complete := true;
      for i := 0 to 3
        invariant sandboxes == old(sandboxes)[id := WP.PulledUpTo(old(sandboxes[id]), i, manifest, f)]
        invariant forall j | i <= j < |WP.KindOrder| ::
                    && WP.EntryOf(PartialsOf(id), WP.KindOrder[j]) == WP.EntryOf(old(PartialsOf(id)), WP.KindOrder[j])
                    && WP.FileOf(FilesOf(id), WP.KindOrder[j]) == WP.FileOf(old(FilesOf(id)), WP.KindOrder[j])
        invariant complete <==> WP.AllUpTo(i, Committed(manifest, f))
      {
        var ok := PullArtifact(id, WP.KindOrder[i], manifest, pulls, f);
        complete := complete && ok;
      }
    }

    /** Registers an artifact once its pull has renamed verified bytes into place and made that
        durable. The pull of one kind leaves the files of the others alone. */
    method PullArtifact(id: Sid, kind: Kind, manifest: Manifest, pulls: WP.Pulls, ghost f: Faults) returns (ok: bool)
      requires id in sandboxes
      requires WP.SaysOf(WP.EntryOf(PartialsOf(id), kind), WP.FileOf(FilesOf(id), kind), manifest, pulls, f, kind)
      modifies this`sandboxes, this`partials
      ensures ok <==> kind in Committed(manifest, f)
      ensures sandboxes == old(sandboxes)[id := WP.PulledOne(old(sandboxes[id]), kind, manifest, f)]
      ensures forall other | other != kind ::
                && WP.EntryOf(PartialsOf(id), other) == WP.EntryOf(old(PartialsOf(id)), other)
                && WP.FileOf(FilesOf(id), other) == WP.FileOf(old(FilesOf(id)), other)
    {
      if kind !in pulls || kind !in manifest.artifacts {
        return false;
      }
      var record := sandboxes[id];
      var puller := new AP.Puller(manifest.artifacts[kind], WP.EntryOf(PartialsOf(id), kind), WP.FileOf(record.files, kind));
      var outcome := puller.PullArtifact(pulls[kind]);
      KeepPartial(id, kind, puller.partial);
      ok := outcome.Committed?;
      var files := if puller.destination.Some? then record.files[kind := puller.destination.value] else record.files;
      var registered := if ok then record.registered[kind := manifest.artifacts[kind]] else record.registered;
      assert kind !in Renamed(manifest, f) ==> files == record.files;
      sandboxes := sandboxes[id := record.(files := files, registered := registered)];
    }

    method KeepPartial(id: Sid, kind: Kind, partial: Option<T.Entry>)
      modifies this`partials
      ensures WP.EntryOf(PartialsOf(id), kind) == partial
      ensures forall other | other != kind :: WP.EntryOf(PartialsOf(id), other) == WP.EntryOf(old(PartialsOf(id)), other)
    {
      var mine := if partial.Some? then PartialsOf(id)[kind := partial.value] else PartialsOf(id) - {kind};
      partials := partials[id := mine];
    }

    // ---- Creation ----

    /** Creates a sandbox in stages and undoes them when one fails. */
    method CreateSandbox(id: Sid, epoch: nat, machine: Machine, boot: bool, pins: N.Pins, f: Faults)
      returns (reply: Reply)
      requires allocator.ShortNames() && networkKeys.Keys == sandboxes.Keys
      requires id !in sandboxes ==> A.HoldsNothing(allocator.networkOwners, id)
      modifies this`sandboxes, this`networkKeys, this`processes, this`directories, this`calls, this`unkeyed, this`derived,
               this`partials, epochs, allocator`networkOwners
      ensures Became(id, Create(old(CellOf(id)), epoch, machine, boot,
                                WithNetwork(allocator.CanAllocate(old(allocator.networkOwners), id, pins), f)), reply)
      ensures if reply.Done? then KeysGained(id) else KeysKept(id) || LeftBehind(id)
      ensures DerivedFollows(id)
      ensures reply.Done? && pins == N.Unpinned ==> id in derived
    {
      ghost var available := allocator.CanAllocate(allocator.networkOwners, id, pins);
      CreateInStages(CellOf(id), epoch, machine, boot, available, f);
      var claimed := ClaimDirectory(id, epoch, machine, f);
      if !claimed {
        return Refused;
      }
      reply := CreateClaimed(id, epoch, machine, boot, pins, f);
      if reply.Done? && pins == N.Unpinned {
        derived := derived + {id};
      }
    }

    /** A claimed directory is new, so there are no partial files in it. */
    method ClaimDirectory(id: Sid, epoch: nat, machine: Machine, f: Faults) returns (claimed: bool)
      modifies this`directories, this`partials, epochs
      ensures (CellOf(id), claimed) == Claim(old(CellOf(id)), epoch, machine, f)
      ensures claimed ==> id !in sandboxes && id in directories && !f.stage.ClaimFails?
      ensures OthersKept(id)
    {
      if id in sandboxes || !ValidMachine(machine) {
        return false;
      }
      var accepted, _ := AcceptEpoch(id, epoch, f);
      if !accepted || id in directories || f.stage.ClaimFails? {
        return false;
      }
      directories := directories + {id};
      partials := partials - {id};
      claimed := true;
    }

    /** The stages after the directory was claimed. */
    method CreateClaimed(id: Sid, epoch: nat, machine: Machine, boot: bool, pins: N.Pins, f: Faults)
      returns (reply: Reply)
      requires id !in sandboxes && id in directories && networkKeys.Keys == sandboxes.Keys && !f.stage.ClaimFails?
      requires allocator.ShortNames() && A.HoldsNothing(allocator.networkOwners, id)
      modifies this`sandboxes, this`networkKeys, this`processes, this`directories, this`calls, this`unkeyed,
               allocator`networkOwners
      ensures Became(id, CreateStages(old(CellOf(id)), epoch, machine, boot,
                                      WithNetwork(allocator.CanAllocate(old(allocator.networkOwners), id, pins), f)),
                     reply)
      ensures if reply.Done? then KeysGained(id) else KeysKept(id) || LeftBehind(id)
      ensures reply.Done? && pins == N.Unpinned ==> allocator.IsAttempt(id, networkKeys[id])
    {
      var network := allocator.AllocateNetwork(id, pins);
      if network.Err? {
        RemoveDirectory(id, f.cleanup);
        return Refused;
      }
      var keys := N.KeysOf(network.value);
      A.ReleaseUndoesClaim(old(allocator.networkOwners), id, keys);
      reply := CreateNetworked(id, epoch, machine, boot, keys, f, old(allocator.networkOwners));
    }

    /** The stages after the network was allocated. */
    method CreateNetworked(id: Sid, epoch: nat, machine: Machine, boot: bool, keys: N.Keys, f: Faults,
                           ghost owners: A.NetworkOwners)
      returns (reply: Reply)
      requires id !in sandboxes && id in directories && networkKeys.Keys == sandboxes.Keys && !f.stage.ClaimFails?
      requires A.Released(allocator.networkOwners, id, keys) == owners
      modifies this`sandboxes, this`networkKeys, this`processes, this`directories, this`calls, this`unkeyed,
               allocator`networkOwners
      ensures Became(id, CreateStages(old(CellOf(id)), epoch, machine, boot, f), reply)
      ensures if reply.Done? then Recorded(id) && networkKeys[id] == keys && unkeyed == old(unkeyed)
                                  && allocator.networkOwners == old(allocator.networkOwners)
              else allocator.networkOwners == owners
                   && ((RecordStays(id) && networkKeys == old(networkKeys) && unkeyed == old(unkeyed))
                       || (Recorded(id) && unkeyed == old(unkeyed) + {id}))
    {
      if f.stage.NetworkFails? || f.stage.LaunchFails? {
        Undo(id, keys, f.cleanup);
        return Refused;
      }
      reply := CreateLaunched(id, epoch, machine, boot, keys, f);
    }

    /** The stages after Firecracker was launched. */
    method CreateLaunched(id: Sid, epoch: nat, machine: Machine, boot: bool, keys: N.Keys, f: Faults)
      returns (reply: Reply)
      requires id !in sandboxes && id in directories && networkKeys.Keys == sandboxes.Keys
      modifies this`sandboxes, this`networkKeys, this`processes, this`directories, this`calls, this`unkeyed,
               allocator`networkOwners
      ensures Became(id, LaunchedStages(old(CellOf(id)), epoch, machine, boot, f), reply)
      ensures if reply.Done? then Recorded(id) && networkKeys[id] == keys && unkeyed == old(unkeyed)
                                  && allocator.networkOwners == old(allocator.networkOwners)
              else allocator.networkOwners == A.Released(old(allocator.networkOwners), id, keys)
                   && ((RecordStays(id) && networkKeys == old(networkKeys) && unkeyed == old(unkeyed))
                       || (Recorded(id) && unkeyed == old(unkeyed) + {id}))
    {
      if boot && f.stage.BootFails? {
        reply := UndoneBoot(id, epoch, machine, keys, f);
      } else {
        reply := Launched(id, epoch, machine, boot, keys, f);
      }
    }

    method Launched(id: Sid, epoch: nat, machine: Machine, boot: bool, keys: N.Keys, f: Faults) returns (reply: Reply)
      requires id !in sandboxes && id in directories && !(boot && f.stage.BootFails?)
      modifies this`sandboxes, this`networkKeys, this`processes, this`calls
      ensures reply == Done && Became(id, LaunchedStages(old(CellOf(id)), epoch, machine, boot, f), reply)
      ensures Recorded(id) && networkKeys[id] == keys
    {
      var booted := Register(id, epoch, machine, boot, keys, f);
      reply := Done;
    }

    method UndoneBoot(id: Sid, epoch: nat, machine: Machine, keys: N.Keys, f: Faults) returns (reply: Reply)
      requires id !in sandboxes && id in directories && networkKeys.Keys == sandboxes.Keys && f.stage.BootFails?
      modifies this`sandboxes, this`networkKeys, this`processes, this`directories, this`calls, this`unkeyed,
               allocator`networkOwners
      ensures reply == Refused && Became(id, LaunchedStages(old(CellOf(id)), epoch, machine, true, f), reply)
      ensures allocator.networkOwners == A.Released(old(allocator.networkOwners), id, keys)
      ensures if f.cleanup then RecordStays(id) && networkKeys == old(networkKeys) && unkeyed == old(unkeyed)
              else Recorded(id) && unkeyed == old(unkeyed) + {id}
    {
      var booted := Register(id, epoch, machine, true, keys, f);
      Abandon(id, keys, f.cleanup);
      reply := Refused;
    }

    /** Undoes a registered create; the record stays if its directory cannot be removed. */
    method Abandon(id: Sid, keys: N.Keys, works: bool)
      modifies this`sandboxes, this`networkKeys, this`directories, this`unkeyed, allocator`networkOwners
      ensures directories == if works then old(directories) - {id} else old(directories)
      ensures sandboxes == if works then old(sandboxes) - {id} else old(sandboxes)
      ensures networkKeys == if works then old(networkKeys) - {id} else old(networkKeys)
      ensures unkeyed == if works then old(unkeyed) else old(unkeyed) + {id}
      ensures allocator.networkOwners == A.Released(old(allocator.networkOwners), id, keys)
    {
      Undo(id, keys, works);
      if works {
        sandboxes := sandboxes - {id};
        networkKeys := networkKeys - {id};
      } else {
        unkeyed := unkeyed + {id};
      }
    }

    method Undo(id: Sid, keys: N.Keys, works: bool)
      modifies this`directories, allocator`networkOwners
      ensures directories == if works then old(directories) - {id} else old(directories)
      ensures allocator.networkOwners == A.Released(old(allocator.networkOwners), id, keys)
    {
      allocator.ReleaseNetwork(id, keys);
      RemoveDirectory(id, works);
    }

    method RemoveDirectory(id: Sid, works: bool)
      modifies this`directories
      ensures directories == if works then old(directories) - {id} else old(directories)
    {
      if works {
        directories := directories - {id};
      }
    }

    method Register(id: Sid, epoch: nat, machine: Machine, boot: bool, keys: N.Keys, f: Faults)
      returns (booted: bool)
      modifies this`sandboxes, this`networkKeys, this`processes, this`calls
      ensures booted <==> !(boot && f.stage.BootFails?)
      ensures networkKeys == old(networkKeys)[id := keys]
      ensures sandboxes == old(sandboxes)[id := NewRecord(epoch, machine, if boot && booted then Running else Booting,
                                                          if boot then BootDisk(f) else map[])]
      ensures processes == old(processes)[id := if !booted then Absent else if boot then Executing else Unbooted]
      ensures calls == old(calls) + if boot then [BootCall] else []
    {
      processes := processes[id := Unbooted];
      sandboxes := sandboxes[id := NewRecord(epoch, machine, Booting, if boot then BootDisk(f) else map[])];
      networkKeys := networkKeys[id := keys];
      booted := true;
      if boot {
        calls := calls + [BootCall];
        booted := !f.stage.BootFails?;
        processes := processes[id := if booted then Executing else Absent];
        if booted {
          sandboxes := sandboxes[id := sandboxes[id].(state := Running)];
        }
      }
    }

    /** A create brings a record with its keys, or leaves a record without any, or changes nothing
        about records and keys. */
    twostate predicate KeysCreated(id: Sid)
      reads this, allocator
    {
      KeysKept(id) || KeysGained(id) || LeftBehind(id)
    }

    /** Only a record with derived keys is added to those. */
    twostate predicate DerivedFollows(id: Sid)
      reads this
    {
      || derived == old(derived)
      || (derived == old(derived) + {id} && id in networkKeys && allocator.IsAttempt(id, networkKeys[id]))
    }

    twostate predicate KeysKept(id: Sid)
      reads this, allocator
    {
      && RecordStays(id) && networkKeys == old(networkKeys) && unkeyed == old(unkeyed)
      && allocator.networkOwners == old(allocator.networkOwners)
    }

    twostate predicate Recorded(id: Sid)
      reads this
    {
      && id in sandboxes && id !in old(sandboxes) && sandboxes[id].quarantine.None?
      && id in networkKeys && networkKeys == old(networkKeys)[id := networkKeys[id]]
    }

    twostate predicate KeysGained(id: Sid)
      reads this, allocator
    {
      && Recorded(id) && unkeyed == old(unkeyed)
      && A.IsFree(old(allocator.networkOwners), id, networkKeys[id])
      && allocator.networkOwners == A.Claimed(old(allocator.networkOwners), id, networkKeys[id])
    }

    twostate predicate LeftBehind(id: Sid)
      reads this, allocator
    {
      && Recorded(id) && unkeyed == old(unkeyed) + {id}
      && allocator.networkOwners == old(allocator.networkOwners)
    }

    twostate lemma CreatingIsValid(id: Sid)
      requires old(Valid()) && OthersKept(id) && KeysCreated(id) && DerivedFollows(id)
      ensures Valid()
    {
      var live := old(LiveKeys());
      if KeysKept(id) {
        SameRecords(id);
        assert LiveKeys() == live;
      } else {
        RecordedKeys(id);
        if KeysGained(id) {
          A.ClaimAgrees(old(allocator.networkOwners), live, id, networkKeys[id]);
        }
      }
    }

    twostate lemma RecordedKeys(id: Sid)
      requires old(Valid()) && OthersKept(id) && Recorded(id)
      ensures networkKeys.Keys == sandboxes.Keys && old(sandboxes).Keys + {id} == sandboxes.Keys && id !in old(LiveKeys())
      ensures unkeyed == old(unkeyed) ==> LiveKeys() == old(LiveKeys())[id := networkKeys[id]]
      ensures unkeyed == old(unkeyed) + {id} ==> LiveKeys() == old(LiveKeys())
    {
      OneMoreRecord(id);
    }

    twostate lemma OneMoreRecord(id: Sid)
      requires OthersKept(id) && id in sandboxes && id !in old(sandboxes)
      ensures forall other :: other in sandboxes <==> other in old(sandboxes) || other == id
      ensures forall other | other in old(sandboxes) :: sandboxes[other] == old(sandboxes)[other]
    {
      forall other ensures other in sandboxes <==> other in old(sandboxes) || other == id
                   ensures other in old(sandboxes) ==> other in sandboxes && sandboxes[other] == old(sandboxes)[other]
      {
        if other != id {
          assert RecordOf(other) == old(RecordOf(other));
        }
      }
    }

    // ---- Reservations ----

    method PrepareMigration(id: Sid, epoch: nat, p: Preparation, f: Faults) returns (reply: Reply)
      requires allocator.ShortNames() && networkKeys.Keys == sandboxes.Keys
      requires id !in sandboxes ==> A.HoldsNothing(allocator.networkOwners, id)
      modifies this`sandboxes, this`networkKeys, this`processes, this`directories, this`calls, this`unkeyed, this`derived,
               this`partials, this`migrations, epochs, allocator`networkOwners
      ensures Became(id, Prepare(old(CellOf(id)), here, epoch, p,
                                 WithNetwork(allocator.CanAllocate(old(allocator.networkOwners), id, N.Unpinned), f)), reply)
      ensures KeysCreated(id) && DerivedFollows(id)
    {
      var reservation := Admitted(CellOf(id), epoch, p);
      if p.destination != here || reservation.None? {
        return Refused;
      }
      Reserve(id, p.m, reservation.value);
      reply := PrepareReserved(id, epoch, p, reservation.value, f);
    }

    method PrepareReserved(id: Sid, epoch: nat, p: Preparation, reservation: Reservation, f: Faults)
      returns (reply: Reply)
      requires allocator.ShortNames() && networkKeys.Keys == sandboxes.Keys
      requires id !in sandboxes ==> A.HoldsNothing(allocator.networkOwners, id)
      modifies this`sandboxes, this`networkKeys, this`processes, this`directories, this`calls, this`unkeyed, this`derived,
               this`partials, this`migrations, epochs, allocator`networkOwners
      ensures Became(id, Worker.PrepareReserved(old(CellOf(id)), epoch, p, reservation,
                           WithNetwork(allocator.CanAllocate(old(allocator.networkOwners), id, N.Unpinned), f)), reply)
      ensures KeysCreated(id) && DerivedFollows(id)
    {
      if !p.prestage || reservation.prepared {
        return Prepared(reservation.prepared && IsRunning(CellOf(id)));
      }
      reply := EnsureDestination(id, epoch, p, f);
      if !reply.Refused? {
        Reserve(id, p.m, reservation.(prepared := true));
        reply := Prepared(IsRunning(CellOf(id)));
      }
    }

    method Reserve(id: Sid, m: Mid, reservation: Reservation)
      modifies this`migrations
      ensures ReservationsOf(id) == old(ReservationsOf(id))[m := reservation]
      ensures forall other | other != id :: ReservationsOf(other) == old(ReservationsOf(other))
    {
      migrations := migrations[id := ReservationsOf(id)[m := reservation]];
    }

    method EnsureDestination(id: Sid, epoch: nat, p: Preparation, f: Faults) returns (reply: Reply)
      requires allocator.ShortNames() && networkKeys.Keys == sandboxes.Keys
      requires id !in sandboxes ==> A.HoldsNothing(allocator.networkOwners, id)
      modifies this`sandboxes, this`networkKeys, this`processes, this`directories, this`calls, this`unkeyed, this`derived,
               this`partials, epochs, allocator`networkOwners
      ensures Became(id, EnsureReservation(old(CellOf(id)), epoch, p,
                           WithNetwork(allocator.CanAllocate(old(allocator.networkOwners), id, N.Unpinned), f)), reply)
      ensures KeysCreated(id) && DerivedFollows(id)
    {
      if id !in sandboxes {
        reply := CreateSandbox(id, epoch, p.machine, false, N.Unpinned, f);
        return;
      }
      if sandboxes[id].epoch != epoch || sandboxes[id].machine != p.machine {
        return Refused;
      }
      reply := Done;
    }

    // ---- All routes ----

    /** Operations that neither add a record nor move one to quarantine. */
    method PerformInPlace(id: Sid, op: Op, f: Faults) returns (reply: Reply)
      requires !op.CreateOp? && !op.PrepareOp? && !op.QuarantineOp? && !op.FenceAndCleanupOp? && !op.TransferOp?
      modifies this`sandboxes, this`processes, this`calls, this`consumedSnapshots, this`manifests, epochs
      ensures RecordStays(id) && Became(id, Exec(old(CellOf(id)), here, id, op, f), reply)
    {
      if op.ProbeOp? || op.PrecopyOp? || op.VerifyOp? || op.GuestOp? {
        reply := PerformGuest(id, op, f);
      } else if op.ResumeMigrationOp? || op.ResumeOp? || op.RollbackOp? || op.LoadOp? {
        reply := PerformRestore(id, op, f);
      } else {
        reply := PerformStop(id, op, f);
      }
    }

    method PerformGuest(id: Sid, op: Op, f: Faults) returns (reply: Reply)
      requires op.ProbeOp? || op.PrecopyOp? || op.VerifyOp? || op.GuestOp?
      modifies this`sandboxes, this`processes, this`calls, epochs
      ensures RecordStays(id) && Became(id, Exec(old(CellOf(id)), here, id, op, f), reply)
    {
      match op
      case ProbeOp(epoch) => reply := GuestCall(id, epoch, Some(Running), f);
      case PrecopyOp(epoch) => reply := Precopy(id, epoch, f);
      case VerifyOp(epoch) => reply := GuestCall(id, epoch, Some(Running), f);
      case GuestOp(epoch) => reply := GuestCall(id, epoch, None, f);
    }

    method PerformRestore(id: Sid, op: Op, f: Faults) returns (reply: Reply)
      requires op.ResumeMigrationOp? || op.ResumeOp? || op.RollbackOp? || op.LoadOp?
      modifies this`sandboxes, this`processes, this`calls, this`consumedSnapshots, epochs
      ensures RecordStays(id) && Became(id, Exec(old(CellOf(id)), here, id, op, f), reply)
    {
      match op
      case LoadOp(epoch, manifest) => reply := LoadSnapshot(id, epoch, manifest, f);
      case ResumeMigrationOp(epoch) => reply := ResumeMigration(id, epoch, f);
      case ResumeOp(epoch) => reply := ResumeSandbox(id, epoch, f);
      case RollbackOp(epoch, repairClock) => reply := Rollback(id, epoch, repairClock, f);
    }

    method PerformStop(id: Sid, op: Op, f: Faults) returns (reply: Reply)
      requires op.PauseMigrationOp? || op.PauseOp? || op.SnapshotMigrationOp? || op.SnapshotOp? || op.FenceOp?
      modifies this`sandboxes, this`processes, this`calls, this`manifests, epochs
      ensures RecordStays(id) && Became(id, Exec(old(CellOf(id)), here, id, op, f), reply)
    {
      match op
      case PauseMigrationOp(epoch) => reply := PauseMigration(id, epoch, f);
      case PauseOp(epoch) => reply := PauseSandbox(id, epoch, f);
      case SnapshotMigrationOp(epoch, m) => reply := SnapshotMigration(id, epoch, m, f);
      case SnapshotOp(epoch, m) => reply := CreateSnapshot(id, epoch, m, f);
      case FenceOp(epoch) => reply := FenceSandbox(id, epoch, f);
    }

    /** Every route does to its sandbox what Exec says and nothing to any other, and at every
        boundary between operations the allocator's keys agree with the records. */
    method Perform(id: Sid, op: Op, pins: N.Pins, pulls: WP.Pulls, f: Faults) returns (reply: Reply)
      requires Valid()
      modifies this, epochs, allocator`networkOwners, allocator`portOwners
      ensures Valid()
      ensures Became(id, Exec(old(CellOf(id)), here, id, op,
                              Happened(op, allocator.CanAllocate(old(allocator.networkOwners), id, PinsOf(op, pins)),
                                       old(PartialsOf(id)), old(FilesOf(id)), pulls, f)), reply)
    {
      if op.CreateOp? || op.PrepareOp? {
        reply := CreateValidly(id, op, pins, f);
      } else if op.TransferOp? {
        reply := TransferValidly(id, op, pulls, f);
      } else {
        reply := ServeValidly(id, op, f);
      }
    }

    method CreateValidly(id: Sid, op: Op, pins: N.Pins, f: Faults) returns (reply: Reply)
      requires Valid() && (op.CreateOp? || op.PrepareOp?)
      modifies this, epochs, allocator`networkOwners
      ensures Valid()
      ensures Became(id, Exec(old(CellOf(id)), here, id, op,
                              WithNetwork(allocator.CanAllocate(old(allocator.networkOwners), id, PinsOf(op, pins)), f)), reply)
    {
      if id !in sandboxes {
        A.DeadHoldNothing(allocator.networkOwners, LiveKeys(), id);
      }
      reply := PerformCreating(id, op, pins, f);
      CreatingIsValid(id);
    }

    method TransferValidly(id: Sid, op: Op, pulls: WP.Pulls, f: Faults) returns (reply: Reply)
      requires Valid() && op.TransferOp?
      modifies this`sandboxes, this`partials, this`processes, this`calls, epochs
      ensures Valid() && RecordStays(id)
      ensures Became(id, Exec(old(CellOf(id)), here, id, op,
                              WP.WithPulls(old(PartialsOf(id)), old(FilesOf(id)), op.manifest, pulls, f)), reply)
    {
      reply := PerformTransfer(id, op, pulls, f);
      StayingIsValid(id);
    }

    method ServeValidly(id: Sid, op: Op, f: Faults) returns (reply: Reply)
      requires Valid() && !op.CreateOp? && !op.PrepareOp? && !op.TransferOp?
      modifies this, epochs, allocator`networkOwners, allocator`portOwners
      ensures Valid() && Became(id, Exec(old(CellOf(id)), here, id, op, f), reply)
    {
      if op.QuarantineOp? || op.FenceAndCleanupOp? {
        reply := PerformRetiring(id, op, f);
        FollowingIsValid(id);
      } else {
        reply := PerformInPlace(id, op, f);
        StayingIsValid(id);
      }
    }

    method PerformTransfer(id: Sid, op: Op, pulls: WP.Pulls, f: Faults) returns (reply: Reply)
      requires op.TransferOp?
      modifies this`sandboxes, this`partials, this`processes, this`calls, epochs
      ensures RecordStays(id)
      ensures Became(id, Exec(old(CellOf(id)), here, id, op,
                              WP.WithPulls(old(PartialsOf(id)), old(FilesOf(id)), op.manifest, pulls, f)), reply)
    {
      WP.WithPullsTells(PartialsOf(id), FilesOf(id), op.manifest, pulls, f);
      var g := WP.WithPulls(PartialsOf(id), FilesOf(id), op.manifest, pulls, f);
      reply := TransferMigration(id, op.epoch, op.m, op.manifest, pulls, g);
    }

    method PerformCreating(id: Sid, op: Op, pins: N.Pins, f: Faults) returns (reply: Reply)
      requires op.CreateOp? || op.PrepareOp?
      requires allocator.ShortNames() && networkKeys.Keys == sandboxes.Keys
      requires id !in sandboxes ==> A.HoldsNothing(allocator.networkOwners, id)
      modifies this`sandboxes, this`networkKeys, this`processes, this`directories, this`calls, this`unkeyed, this`derived,
               this`partials, this`migrations, epochs, allocator`networkOwners
      ensures KeysCreated(id) && DerivedFollows(id)
      ensures Became(id, Exec(old(CellOf(id)), here, id, op,
                              WithNetwork(allocator.CanAllocate(old(allocator.networkOwners), id, PinsOf(op, pins)), f)), reply)
    {
      match op
      case CreateOp(epoch, machine, boot) => reply := CreateSandbox(id, epoch, machine, boot, pins, f);
      case PrepareOp(epoch, preparation) => reply := PrepareMigration(id, epoch, preparation, f);
    }

    method PerformRetiring(id: Sid, op: Op, f: Faults) returns (reply: Reply)
      requires op.QuarantineOp? || op.FenceAndCleanupOp?
      requires networkKeys.Keys == sandboxes.Keys
      modifies this`sandboxes, this`processes, this`directories, this`calls, epochs,
               allocator`networkOwners, allocator`portOwners
      ensures KeysFollow(id) && Became(id, Exec(old(CellOf(id)), here, id, op, f), reply)
    {
      match op
      case QuarantineOp(epoch, m) => reply := QuarantineSandbox(id, epoch, m, f);
      case FenceAndCleanupOp(epoch, m) => reply := FenceAndCleanup(id, epoch, m, f);
    }

    twostate lemma FollowingIsValid(id: Sid)
      requires old(Valid()) && OthersKept(id) && KeysFollow(id)
      requires networkKeys == old(networkKeys) && unkeyed == old(unkeyed) && derived == old(derived)
      ensures Valid()
    {
      if MovesToQuarantine(old(RecordOf(id)), RecordOf(id)) {
        QuarantiningIsValid(id);
      } else {
        StayingIsValid(id);
      }
    }
  }

  predicate MovesToQuarantine(before: Option<Record>, after: Option<Record>) {
    && after.Some? && after.value.state.Quarantined? && after.value.quarantine.Some?
    && before.Some? && !(before.value.state.Quarantined? && before.value.quarantine.Some?)
  }

  /** A destination is reserved without pins. */
  function PinsOf(op: Op, pins: N.Pins): N.Pins {
    if op.CreateOp? then pins else N.Unpinned
  }

  /** The faults of a create in which the allocator may have no network to give. */
  function WithNetwork(available: bool, f: Faults): Faults {
    if available || f.stage.ClaimFails? then f else f.(stage := NetworkFails)
  }

  /** The faults of an operation, in which the allocator decides whether there is a network and the
      pulls which artifacts arrive. */
  function Happened(op: Op, available: bool, partials: WP.Partials, files: map<Kind, Bytes>, pulls: WP.Pulls, f: Faults)
    : Faults
  {
    if op.CreateOp? || op.PrepareOp? then WithNetwork(available, f)
    else if op.TransferOp? then WP.WithPulls(partials, files, op.manifest, pulls, f)
    else f
  }

  lemma CreateInStages(c: Cell, epoch: nat, machine: Machine, boot: bool, available: bool, f: Faults)
    ensures var (cell, claimed) := Claim(c, epoch, machine, f);
            Create(c, epoch, machine, boot, WithNetwork(available, f))
              == if claimed then CreateStages(cell, epoch, machine, boot, WithNetwork(available, f))
                 else Outcome(cell, Refused, [])
  {
    var g := WithNetwork(available, f);
    assert g.stage.ClaimFails? <==> f.stage.ClaimFails?;
    assert PassesChecks(c, epoch, machine, g) <==> PassesChecks(c, epoch, machine, f);
    assert Claim(c, epoch, machine, g) == Claim(c, epoch, machine, f);
  }
}
