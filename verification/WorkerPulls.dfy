/** A transfer's pulls as the artifact pulls they are: which bytes end up in place and which kinds
    are registered, for whatever partial files they find and however each of them fails. */
module WorkerPulls {
  import opened Prelude
  import opened Artifacts
  import opened Worker
  import T = Transfer

  /** The partial files in a sandbox's directory, and what happens to the pull of each kind; one
      that is not named was aborted before it began. */
  type Partials = map<Kind, T.Entry>
  type Pulls = map<Kind, T.Environment>

  function EntryOf(partials: Partials, kind: Kind): Option<T.Entry> {
    if kind in partials then Some(partials[kind]) else None
  }

  function FileOf(files: map<Kind, Bytes>, kind: Kind): Option<Bytes> {
    if kind in files then Some(files[kind]) else None
  }

  predicate Attempted(manifest: Manifest, pulls: Pulls, kind: Kind) {
    kind in pulls && kind in manifest.artifacts
  }

  function PullOf(partial: Option<T.Entry>, file: Option<Bytes>, manifest: Manifest, pulls: Pulls, kind: Kind): T.Pulled
    requires Attempted(manifest, pulls, kind)
  {
    T.Pull(T.Files(partial, file), manifest.artifacts[kind], pulls[kind])
  }

  predicate Replaces(partials: Partials, files: map<Kind, Bytes>, manifest: Manifest, pulls: Pulls, kind: Kind) {
    Attempted(manifest, pulls, kind)
    && var pulled := PullOf(EntryOf(partials, kind), FileOf(files, kind), manifest, pulls, kind);
       T.Renamed(pulled.outcome) && pulled.files.destination.Some?
  }

  /** The faults of a transfer whose pulls come to this. */
  function WithPulls(partials: Partials, files: map<Kind, Bytes>, manifest: Manifest, pulls: Pulls, f: Faults): Faults {
    f.(bytes := map kind | kind in pulls && Replaces(partials, files, manifest, pulls, kind) ::
                  PullOf(EntryOf(partials, kind), FileOf(files, kind), manifest, pulls, kind).files.destination.value,
       unsynced := set kind | kind in pulls && Attempted(manifest, pulls, kind)
                     && PullOf(EntryOf(partials, kind), FileOf(files, kind), manifest, pulls, kind).outcome.Unsynced?)
  }

  /** The faults say of a kind what its pull does. */
  predicate SaysOf(partial: Option<T.Entry>, file: Option<Bytes>, manifest: Manifest, pulls: Pulls, f: Faults, kind: Kind) {
    if !Attempted(manifest, pulls, kind) then kind !in Renamed(manifest, f)
    else
      var pulled := PullOf(partial, file, manifest, pulls, kind);
      && (kind in Renamed(manifest, f) <==> T.Renamed(pulled.outcome))
      && (kind in Committed(manifest, f) <==> pulled.outcome.Committed?)
      && pulled.files.destination == (if kind in Renamed(manifest, f) then Some(f.bytes[kind]) else file)
  }

  ghost predicate Tells(partials: Partials, files: map<Kind, Bytes>, manifest: Manifest, pulls: Pulls, f: Faults) {
    forall kind: Kind :: SaysOf(EntryOf(partials, kind), FileOf(files, kind), manifest, pulls, f, kind)
  }

  lemma PullSaysOf(partials: Partials, files: map<Kind, Bytes>, manifest: Manifest, pulls: Pulls, f: Faults, kind: Kind)
    requires Attempted(manifest, pulls, kind)
    ensures SaysOf(EntryOf(partials, kind), FileOf(files, kind), manifest, pulls,
                   WithPulls(partials, files, manifest, pulls, f), kind)
  {
    InAllKinds(kind);
    T.DestinationIsVerified(T.Files(EntryOf(partials, kind), FileOf(files, kind)), manifest.artifacts[kind], pulls[kind]);
  }

  /** For all pulls there are such faults. */
  lemma WithPullsTells(partials: Partials, files: map<Kind, Bytes>, manifest: Manifest, pulls: Pulls, f: Faults)
    ensures Tells(partials, files, manifest, pulls, WithPulls(partials, files, manifest, pulls, f))
  {
    forall kind: Kind
      ensures SaysOf(EntryOf(partials, kind), FileOf(files, kind), manifest, pulls,
                     WithPulls(partials, files, manifest, pulls, f), kind)
    {
      if Attempted(manifest, pulls, kind) {
        PullSaysOf(partials, files, manifest, pulls, f, kind);
      }
    }
  }

  lemma InAllKinds(kind: Kind)
    ensures kind in AllKinds
  {
    match kind case StateFile => case MemoryFile => case DiskFile =>
  }

  // ---- One kind after the other ----

  function PulledOne(record: Record, kind: Kind, manifest: Manifest, f: Faults): Record {
    record.(files := if kind in Renamed(manifest, f) then record.files[kind := f.bytes[kind]] else record.files,
            registered := if kind in Committed(manifest, f) then record.registered[kind := manifest.artifacts[kind]]
                          else record.registered)
  }

  const KindOrder: seq<Kind> := [StateFile, MemoryFile, DiskFile]

  function PulledUpTo(record: Record, n: nat, manifest: Manifest, f: Faults): Record
    requires n <= |KindOrder|
  {
    if n == 0 then record else PulledOne(PulledUpTo(record, n - 1, manifest, f), KindOrder[n - 1], manifest, f)
  }

  /** Pulling the three artifacts one by one is pulling those that match. */
  lemma PulledOneByOne(record: Record, manifest: Manifest, f: Faults)
    ensures PulledUpTo(record, 3, manifest, f) == Pulled(record, manifest, f)
  {
    var renamed, committed := Renamed(manifest, f), Committed(manifest, f);
    var one := PulledUpTo(record, 1, manifest, f);
    var two := PulledUpTo(record, 2, manifest, f);
    var three := PulledUpTo(record, 3, manifest, f);
    assert PulledUpTo(record, 0, manifest, f) == record;
    OverlayOneByOne(record.files, map kind | kind in renamed :: f.bytes[kind], one.files, two.files, three.files);
    OverlayOneByOne(record.registered, map kind | kind in committed :: manifest.artifacts[kind],
                    one.registered, two.registered, three.registered);
  }

  predicate AllUpTo(n: nat, kinds: set<Kind>)
    requires n <= |KindOrder|
  {
    n == 0 || (AllUpTo(n - 1, kinds) && KindOrder[n - 1] in kinds)
  }

  lemma AllThree(kinds: set<Kind>)
    ensures AllUpTo(3, kinds) <==> kinds == AllKinds
  {
    forall kind | kind in kinds ensures kind in AllKinds {
      InAllKinds(kind);
    }
    assert AllUpTo(3, kinds) <==> KindOrder[0] in kinds && KindOrder[1] in kinds && KindOrder[2] in kinds by {
      assert AllUpTo(1, kinds) <==> AllUpTo(0, kinds) && KindOrder[0] in kinds;
      assert AllUpTo(2, kinds) <==> AllUpTo(1, kinds) && KindOrder[1] in kinds;
    }
  }

  lemma OverlayOneByOne<X>(base: map<Kind, X>, over: map<Kind, X>, one: map<Kind, X>, two: map<Kind, X>, three: map<Kind, X>)
    requires one == if StateFile in over then base[StateFile := over[StateFile]] else base
    requires two == if MemoryFile in over then one[MemoryFile := over[MemoryFile]] else one
    requires three == if DiskFile in over then two[DiskFile := over[DiskFile]] else two
    ensures three == base + over
  {
    forall kind: Kind ensures kind in three <==> kind in base + over {
      match kind case StateFile => case MemoryFile => case DiskFile =>
    }
    forall kind | kind in three ensures three[kind] == (base + over)[kind] {
      match kind case StateFile => case MemoryFile => case DiskFile =>
    }
  }
}
