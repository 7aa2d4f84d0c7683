/** What is on disk when a snapshot is loaded. */
module WorkerDisk {
  import opened Prelude
  import opened Artifacts
  import opened Worker
  import opened WorkerEffects
  import opened WorkerSafety
  import E = Epochs

  /** Until a sandbox is booted or loaded, every registered artifact is on disk as described. */
  predicate RegisteredIsOnDisk(c: Cell) {
    c.record.Some? && c.record.value.state.Booting? ==>
      && !c.vm.Executing?
      && forall kind | kind in c.record.value.registered ::
           kind in c.record.value.files && Matches(c.record.value.files[kind], c.record.value.registered[kind])
  }

  // ---- The one way to break it ----

  /** The transfer comes to pull artifacts. */
  predicate ComesToPull(c: Cell, id: Sid, op: Op, f: Faults) {
    && op.TransferOp? && AdmitTransfer(c, id, op.epoch, op.m, op.manifest, f).passed
    && c.record.Some? && !AllRegistered(c.record.value, op.manifest)
  }

  predicate OverwritesKind(record: Record, manifest: Manifest, f: Faults, kind: Kind) {
    && kind in Renamed(manifest, f) && kind in f.unsynced
    && kind in record.registered && record.registered[kind] != manifest.artifacts[kind]
  }

  /** A transfer renames an artifact over one that is registered with another digest, and then
      cannot sync the directory: the pull fails, so the old registration stays with the new file. */
  predicate Overwrites(c: Cell, id: Sid, op: Op, f: Faults) {
    ComesToPull(c, id, op, f)
    && (OverwritesKind(c.record.value, op.manifest, f, StateFile)
        || OverwritesKind(c.record.value, op.manifest, f, MemoryFile)
        || OverwritesKind(c.record.value, op.manifest, f, DiskFile))
  }

  predicate OnDisk(record: Record, kind: Kind) {
    kind in record.registered ==>
      kind in record.files && Matches(record.files[kind], record.registered[kind])
  }

  lemma PulledOnDisk(record: Record, manifest: Manifest, f: Faults, kind: Kind)
    requires OnDisk(record, kind)
    ensures OnDisk(Pulled(record, manifest, f), kind) <==> !OverwritesKind(record, manifest, f, kind)
  {
  }

  lemma TransferKeepsDisk(c: Cell, id: Sid, op: Op, f: Faults)
    requires op.TransferOp? && RegisteredIsOnDisk(c)
    ensures RegisteredIsOnDisk(Transfer(c, id, op.epoch, op.m, op.manifest, f).cell) <==> !Overwrites(c, id, op, f)
  {
    if ComesToPull(c, id, op, f) {
      AdmissionKeepsDisk(c, id, op, f);
      var record := c.record.value;
      var later := Transfer(c, id, op.epoch, op.m, op.manifest, f).cell;
      assert record.state.Booting? && later.record == Some(Pulled(record, op.manifest, f));
      forall kind: Kind
        ensures OnDisk(Pulled(record, op.manifest, f), kind) <==> !OverwritesKind(record, op.manifest, f, kind)
      {
        assert OnDisk(record, kind);
        PulledOnDisk(record, op.manifest, f, kind);
      }
      OnDiskByKind(later.record.value);
    } else {
      TransferElseKeepsDisk(c, id, op, f);
    }
  }

  lemma OnDiskByKind(record: Record)
    ensures (forall kind | kind in record.registered ::
               kind in record.files && Matches(record.files[kind], record.registered[kind]))
       <==> OnDisk(record, StateFile) && OnDisk(record, MemoryFile) && OnDisk(record, DiskFile)
  {
    if OnDisk(record, StateFile) && OnDisk(record, MemoryFile) && OnDisk(record, DiskFile) {
      forall kind | kind in record.registered
        ensures kind in record.files && Matches(record.files[kind], record.registered[kind])
      {
        assert OnDisk(record, kind) by {
          match kind case StateFile => case MemoryFile => case DiskFile =>
        }
      }
    }
  }

  lemma AdmissionKeepsDisk(c: Cell, id: Sid, op: Op, f: Faults)
    requires op.TransferOp? && RegisteredIsOnDisk(c)
    ensures var g := AdmitTransfer(c, id, op.epoch, op.m, op.manifest, f);
            && RegisteredIsOnDisk(g.cell)
            && (g.passed ==> g.cell.record == c.record && c.record.Some? && c.record.value.state.Booting?)
  {
  }

  lemma TransferElseKeepsDisk(c: Cell, id: Sid, op: Op, f: Faults)
    requires op.TransferOp? && RegisteredIsOnDisk(c) && !ComesToPull(c, id, op, f)
    ensures RegisteredIsOnDisk(Transfer(c, id, op.epoch, op.m, op.manifest, f).cell)
  {
    AdmissionKeepsDisk(c, id, op, f);
  }

  lemma EffectKeepsDisk(c: Cell, id: Sid, op: Op, o: Outcome)
    requires Effect(c, id, op, o) && RegisteredIsOnDisk(c) && !op.TransferOp?
    ensures RegisteredIsOnDisk(o.cell)
  {
  }

  /** An operation keeps every registered artifact on disk exactly if it is not such a transfer. */
  lemma DiskIsKeptUnlessOverwritten(c: Cell, here: Wid, id: Sid, op: Op, f: Faults)
    requires ProcessNeedsClaim(c) && RegisteredIsOnDisk(c)
    ensures RegisteredIsOnDisk(Exec(c, here, id, op, f).cell) <==> !Overwrites(c, id, op, f)
  {
    if op.TransferOp? {
      TransferKeepsDisk(c, id, op, f);
    } else {
      ExecEffect(c, here, id, op, f);
      EffectKeepsDisk(c, id, op, Exec(c, here, id, op, f));
    }
  }

  // ---- Runs ----

  /** No request of the run is such a transfer. */
  predicate NeverOverwrites(here: Wid, id: Sid, run: seq<Happening>) {
    run == []
    || (NeverOverwrites(here, id, run[..|run| - 1])
        && (run[|run| - 1].Request? ==>
              !Overwrites(Play(Beginning, here, id, run[..|run| - 1]).cell, id, run[|run| - 1].op, run[|run| - 1].faults)))
  }

  lemma {:induction false} DiskIsVerified(here: Wid, id: Sid, run: seq<Happening>)
    requires NeverOverwrites(here, id, run)
    ensures RegisteredIsOnDisk(Play(Beginning, here, id, run).cell)
  {
    if run != [] {
      DiskIsVerified(here, id, run[..|run| - 1]);
      ProcessesNeedClaims(here, id, run[..|run| - 1]);
      var before := Play(Beginning, here, id, run[..|run| - 1]);
      match run[|run| - 1]
      case Request(op, f) => DiskIsKeptUnlessOverwritten(before.cell, here, id, op, f);
      case _ =>
    }
  }

  lemma VerifiedLoad(c: Cell, id: Sid, op: Op, o: Outcome, i: nat)
    requires Effect(c, id, op, o) && RegisteredIsOnDisk(c)
    requires i < |o.calls| && o.calls[i].LoadCall?
    ensures var call := o.calls[i];
            && op == LoadOp(call.manifest.sourceEpoch + 1, call.manifest)
            && call.manifest.sandboxId == id
            && call.manifest.migrationId !in c.consumed
            && c.record.Some? && call.files == c.record.value.files
            && AllOnDisk(call.files, call.manifest)
  {
    assert WorkerEffects.Loading(c, id, op, o);
  }

  /** Firecracker is asked to load only what passed verification: in every run without such a
      transfer, a load call is made by a load request with exactly the epoch after the snapshot's,
      and at that moment all three artifacts are on disk with the manifest's sizes and digests. */
  lemma LoadsAreVerified(here: Wid, id: Sid, run: seq<Happening>, op: Op, f: Faults, i: nat)
    requires NeverOverwrites(here, id, run)
    requires var o := Exec(Play(Beginning, here, id, run).cell, here, id, op, f);
             i < |o.calls| && o.calls[i].LoadCall?
    ensures var c := Play(Beginning, here, id, run).cell;
            var call := Exec(c, here, id, op, f).calls[i];
            && op == LoadOp(call.manifest.sourceEpoch + 1, call.manifest)
            && call.manifest.sandboxId == id
            && call.manifest.migrationId !in c.consumed
            && c.record.Some? && call.files == c.record.value.files
            && AllOnDisk(call.files, call.manifest)
  {
    DiskIsVerified(here, id, run);
    ProcessesNeedClaims(here, id, run);
    var c := Play(Beginning, here, id, run).cell;
    ExecEffect(c, here, id, op, f);
    VerifiedLoad(c, id, op, Exec(c, here, id, op, f), i);
  }

  // ---- A run that loads something else ----

  predicate Works(f: Faults) {
    && f.persist.NoFault? && f.compatible && f.peer && f.guest && f.firecracker.Works? && f.stage.NoStageFails?
  }

  function Three(state: Bytes, memory: Bytes, disk: Bytes): map<Kind, Bytes> {
    map[StateFile := state, MemoryFile := memory, DiskFile := disk]
  }

  /** A destination that was prepared and has pulled manifest `a`. */
  lemma FirstIsPulled(here: Wid, id: Sid, a: Manifest, state: Bytes, memory: Bytes, disk: Bytes, f: Faults)
    requires ValidMachine(a.machine) && a.sandboxId == id && a.sourceEpoch < E.MaxSafeInteger
    requires Works(f) && f.bytes == Three(state, memory, disk) && f.unsynced == {}
    requires a.artifacts == DescribeAll(f.bytes)
    ensures var epoch := a.sourceEpoch + 1;
            var run := [Request(CreateOp(epoch, a.machine, false), f), Request(TransferOp(epoch, a.migrationId, a), f)];
            Play(Beginning, here, id, run).cell
              == Vacant.(accepted := epoch, vm := Unbooted, claimed := true,
                         record := Some(NewRecord(epoch, a.machine, Booting, f.bytes).(registered := a.artifacts)))
  {
    var epoch := a.sourceEpoch + 1;
    var run := [Request(CreateOp(epoch, a.machine, false), f), Request(TransferOp(epoch, a.migrationId, a), f)];
    assert run[..1] == [run[0]] && run[..1][..0] == [];
    assert Play(Beginning, here, id, []) == Beginning;
    BlankIsCreated(a.machine, epoch, f);
    var blank := Vacant.(accepted := epoch, vm := Unbooted, claimed := true,
                         record := Some(NewRecord(epoch, a.machine, Booting, map[])));
    assert Play(Beginning, here, id, run[..1]) == Life(blank, []);
    AllIsPulled(blank, id, a, f);
    assert Play(Beginning, here, id, run) == After(Life(blank, []), here, id, run[1]);
  }

  lemma BlankIsCreated(machine: Machine, epoch: nat, f: Faults)
    requires ValidMachine(machine) && Works(f) && 0 < epoch <= E.MaxSafeInteger
    ensures Create(Vacant, epoch, machine, false, f)
         == Outcome(Vacant.(accepted := epoch, vm := Unbooted, claimed := true,
                            record := Some(NewRecord(epoch, machine, Booting, map[]))), Done, [])
  {
  }

  lemma AllIsPulled(c: Cell, id: Sid, a: Manifest, f: Faults)
    requires Works(f) && f.unsynced == {} && a.sandboxId == id && a.sourceEpoch < E.MaxSafeInteger
    requires StateFile in f.bytes && MemoryFile in f.bytes && DiskFile in f.bytes && a.artifacts == DescribeAll(f.bytes)
    requires c.record == Some(NewRecord(a.sourceEpoch + 1, a.machine, Booting, map[])) && c.accepted == a.sourceEpoch + 1
    ensures Transfer(c, id, a.sourceEpoch + 1, a.migrationId, a, f)
         == Outcome(c.(record := Some(c.record.value.(files := f.bytes, registered := a.artifacts))), Done, [])
  {
    assert MutableRecord(c, a.sourceEpoch + 1, Some(Booting), f) == Gate(c, true, []);
    assert Renamed(a, f) == AllKinds && Committed(a, f) == AllKinds;
    var pulled := Pulled(c.record.value, a, f);
    EveryKind();
    assert pulled.files == f.bytes && pulled.registered == a.artifacts;
  }

  lemma EveryKind()
    ensures forall kind: Kind :: kind in AllKinds
  {
    forall kind: Kind ensures kind in AllKinds {
      match kind case StateFile => case MemoryFile => case DiskFile =>
    }
  }

  /** The first migration was rolled back before its load, the second has the same epoch: of its
      pulls only that of the disk gets as far as the rename, and its directory is not synced. A load
      of the first manifest then passes every check and reads the second one's disk. */
  lemma OverwrittenDiskIsLoaded(here: Wid, id: Sid, a: Manifest, b: Manifest, state: Bytes, memory: Bytes,
                                disk: Bytes, other: Bytes, f: Faults, g: Faults)
    requires ValidMachine(a.machine) && a.sandboxId == id && a.sourceEpoch < E.MaxSafeInteger
    requires b.sandboxId == id && b.machine == a.machine && b.sourceEpoch == a.sourceEpoch
    requires b.migrationId != a.migrationId
    requires DiskFile in b.artifacts && b.artifacts[DiskFile] == Describe(other) && other != disk
    requires Works(f) && f.bytes == Three(state, memory, disk) && f.unsynced == {}
    requires Works(g) && g.bytes == map[DiskFile := other] && g.unsynced == {DiskFile}
    requires a.artifacts == DescribeAll(f.bytes)
    ensures var epoch := a.sourceEpoch + 1;
            var run := [Request(CreateOp(epoch, a.machine, false), f), Request(TransferOp(epoch, a.migrationId, a), f),
                        Request(TransferOp(epoch, b.migrationId, b), g)];
            var o := Exec(Play(Beginning, here, id, run).cell, here, id, LoadOp(epoch, a), f);
            && o.reply.Done? && o.calls == [LoadCall(a, Three(state, memory, other))]
            && !AllOnDisk(Three(state, memory, other), a)
  {
    var epoch := a.sourceEpoch + 1;
    var run := [Request(CreateOp(epoch, a.machine, false), f), Request(TransferOp(epoch, a.migrationId, a), f),
                Request(TransferOp(epoch, b.migrationId, b), g)];
    FirstIsPulled(here, id, a, state, memory, disk, f);
    assert run[..2] == [run[0], run[1]];
    var pulled := Play(Beginning, here, id, run[..2]);
    var record := pulled.cell.record.value;
    assert record.registered[DiskFile] == Describe(disk) != b.artifacts[DiskFile];
    DiskIsOverwritten(pulled.cell, id, b, other, g);
    assert Three(state, memory, disk)[DiskFile := other] == Three(state, memory, other);
    assert Play(Beginning, here, id, run) == After(pulled, here, id, run[2]);
    var c := Play(Beginning, here, id, run).cell;
    assert c == pulled.cell.(record := Some(record.(files := Three(state, memory, other))));
    LoadsWhatIsRegistered(c, here, id, a, f);
    assert !Matches(other, a.artifacts[DiskFile]);
  }

  lemma DiskIsOverwritten(c: Cell, id: Sid, b: Manifest, other: Bytes, g: Faults)
    requires Works(g) && g.bytes == map[DiskFile := other] && g.unsynced == {DiskFile}
    requires c.record.Some? && c.record.value.state.Booting? && c.record.value.machine == b.machine
    requires b.sourceEpoch < E.MaxSafeInteger && c.accepted == c.record.value.epoch <= E.MaxSafeInteger
    requires DiskFile in b.artifacts && b.artifacts[DiskFile] == Describe(other)
    requires DiskFile in c.record.value.registered && c.record.value.registered[DiskFile] != Describe(other)
    ensures Transfer(c, id, c.accepted, b.migrationId, b, g).cell
         == c.(record := Some(c.record.value.(files := c.record.value.files[DiskFile := other])))
  {
    var record := c.record.value;
    assert MutableRecord(c, c.accepted, Some(Booting), g) == Gate(c, true, []);
    assert DiskFile in AllKinds && !AllRegistered(record, b);
    assert Renamed(b, g) == {DiskFile} && Committed(b, g) == {};
    assert Pulled(record, b, g).files == record.files[DiskFile := other];
    assert Pulled(record, b, g).registered == record.registered;
  }

  lemma LoadsWhatIsRegistered(c: Cell, here: Wid, id: Sid, a: Manifest, f: Faults)
    requires Works(f) && a.sandboxId == id && a.sourceEpoch < E.MaxSafeInteger && a.migrationId !in c.consumed
    requires c.record.Some? && c.accepted == c.record.value.epoch == a.sourceEpoch + 1 && c.vm.Unbooted?
    requires c.record.value.state.Booting? && c.record.value.machine == a.machine && AllRegistered(c.record.value, a)
    ensures var o := Exec(c, here, id, LoadOp(a.sourceEpoch + 1, a), f);
            o.reply.Done? && o.calls == [LoadCall(a, c.record.value.files)]
  {
    assert MutableRecord(c, a.sourceEpoch + 1, Some(Booting), f) == Gate(c, true, []);
  }
}
