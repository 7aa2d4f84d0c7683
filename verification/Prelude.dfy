/** Types shared by the whole project: optional values, outcomes, and the identifiers and
    artifact descriptions that the coordinator and the workers exchange. */
module Prelude {

  datatype Option<+T> = None | Some(value: T)

  datatype Result<+T, +E> = Ok(value: T) | Err(error: E)

  /** Sandboxes, migrations, workers, idempotency keys and request hashes are only ever compared
      for equality, so each is modelled by a number. */
  type Sid = nat
  type Mid = nat
  type Wid = nat
  type Key = nat
  type RequestHash = nat

  type Bytes = seq<bv8>
}

/** Snapshot artifacts. A digest is a free constructor over the bytes, which is what an
    uninterpreted hash function without collisions is. */
module Artifacts {
  import opened Prelude

  datatype Digest = Sha256(preimage: Bytes)

  datatype Kind = StateFile | MemoryFile | DiskFile

  const AllKinds: set<Kind> := {StateFile, MemoryFile, DiskFile}

  datatype Descriptor = Descriptor(size: nat, sha256: Digest)

  datatype Machine = Machine(cpu: int, memoryMb: int)

  datatype Manifest = Manifest(
    migrationId: Mid,
    sandboxId: Sid,
    sourceEpoch: nat,
    machine: Machine,
    artifacts: map<Kind, Descriptor>)

  function Describe(content: Bytes): Descriptor {
    Descriptor(|content|, Sha256(content))
  }

  predicate Matches(content: Bytes, descriptor: Descriptor) {
    |content| == descriptor.size && Sha256(content) == descriptor.sha256
  }

  /** Every artifact the manifest names is on disk with the declared size and digest. */
  predicate AllOnDisk(files: map<Kind, Bytes>, manifest: Manifest) {
    forall kind | kind in AllKinds ::
      kind in files && kind in manifest.artifacts && Matches(files[kind], manifest.artifacts[kind])
  }
}
