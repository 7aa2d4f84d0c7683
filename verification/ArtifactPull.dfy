/** The pull as it runs: a running hash fed chunk by chunk beside the partial file, over a file
    system and a source that may fail at every call. */
module ArtifactPull {
  import opened Prelude
  import opened Artifacts
  import R = ArtifactRange
  import T = Transfer

  const ReadChunk := 65536

  /** What verification came to; a partial file that cannot be removed is stuck. */
  datatype Verdict = Verified | Discarded | Stuck

  class Hash {
    var preimage: Bytes

    constructor ()
      ensures preimage == []
    {
      preimage := [];
    }

    method Update(chunk: Bytes)
      modifies this
      ensures preimage == old(preimage) + chunk
    {
      preimage := preimage + chunk;
    }

    function Digest(): Artifacts.Digest
      reads this
    {
      Sha256(preimage)
    }
  }

  class Puller {
    const descriptor: Descriptor
    var partial: Option<T.Entry>
    var destination: Option<Bytes>
    /** Body bytes that arrived, and those of them that no write left in the file. */
    ghost var fetched: nat
    ghost var lost: nat

    constructor (descriptor: Descriptor, partial: Option<T.Entry>, destination: Option<Bytes>)
      ensures this.descriptor == descriptor && Files() == T.Files(partial, destination)
      ensures fetched == 0 && lost == 0
    {
      this.descriptor := descriptor;
      this.partial := partial;
      this.destination := destination;
      fetched := 0;
      lost := 0;
    }

    function Files(): T.Files
      reads this
    {
      T.Files(partial, destination)
    }

    method PullArtifact(env: T.Environment) returns (outcome: T.Outcome)
      modifies this
      ensures var pulled := T.Pull(old(Files()), descriptor, env);
              && Files() == pulled.files && outcome == pulled.outcome
              && fetched == old(fetched) + pulled.fetched && lost == old(lost) + pulled.lost
    {
      if !env.mkdir {
        return T.Failed;
      }
      var hash := new Hash();
      var resumedAt := ResumeFromPartial(hash, env);
      if resumedAt.None? {
        return T.Failed;
      }
      if resumedAt.value < descriptor.size {
        var downloaded := DownloadRemainder(hash, resumedAt.value, env);
        if downloaded.None? {
          return T.Failed;
        }
        outcome := Finish(hash, resumedAt.value, downloaded.value, env);
      } else {
        outcome := Finish(hash, resumedAt.value, resumedAt.value, env);
      }
    }

    /** Verifies and commits what was received. */
    method Finish(hash: Hash, resumedAt: nat, received: nat, env: T.Environment) returns (outcome: T.Outcome)
      requires resumedAt <= received == |hash.preimage|
      requires partial.Some? ==> partial == Some(T.File(hash.preimage))
      modifies this`partial, this`destination
      ensures (Files(), outcome) == T.Commit(old(Files()), descriptor, hash.preimage, resumedAt, env)
    {
      var verdict := VerifyOrDiscard(received, hash, env);
      if !verdict.Verified? {
        return if verdict.Discarded? then T.Mismatch else T.Failed;
      }
      var renamed, synced := CommitArtifact(env);
      outcome := if !renamed then T.Failed else if !synced then T.Unsynced
                 else T.Committed(resumedAt, received - resumedAt);
    }

    /** Hashes what an earlier attempt left, or removes it. */
    method ResumeFromPartial(hash: Hash, env: T.Environment) returns (resumedAt: Option<nat>)
      requires hash.preimage == []
      modifies this`partial, hash
      ensures var resumption := T.ResumeFromPartial(old(partial), descriptor.size, env);
              && partial == resumption.partial
              && (resumedAt.Some? <==> resumption.hashed.Some?)
              && (resumedAt.Some? ==> hash.preimage == resumption.hashed.value && resumedAt.value == |hash.preimage|)
    {
      if !env.stat {
        return None;
      }
      if partial.None? {
        return Some(0);
      }
      if partial.value.NotAFile? || |partial.value.content| > descriptor.size {
        if !env.remove {
          return None;
        }
        partial := None;
        return Some(0);
      }
      if !env.read {
        return None;
      }
      Rehash(partial.value.content, hash);
      resumedAt := Some(|partial.value.content|);
    }

    method Rehash(content: Bytes, hash: Hash)
      requires hash.preimage == []
      modifies hash
      ensures hash.preimage == content
    {
      var read := 0;
      while read < |content|
        invariant read <= |content| && hash.preimage == content[..read]
      {
        var next := T.Min(read + ReadChunk, |content|);
        hash.Update(content[read..next]);
        read := next;
      }
    }

    method DownloadRemainder(hash: Hash, resumedAt: nat, env: T.Environment) returns (received: Option<nat>)
      requires resumedAt == |hash.preimage| < descriptor.size
      requires resumedAt > 0 ==> partial == Some(T.File(hash.preimage))
      modifies this`partial, this`fetched, this`lost, hash
      ensures var written := Downloaded(old(hash.preimage), env);
              if written.None? then partial == old(partial) && received.None? && fetched == old(fetched) && lost == old(lost)
              else
                && partial == Some(T.File(written.value.content))
                && fetched == old(fetched) + written.value.received && lost == old(lost) + written.value.lost
                && (received.Some? <==> written.value.ok && env.sync)
                && (received.Some? ==> hash.preimage == written.value.content && received.value == |hash.preimage|)
    {
      if env.response.None? {
        return None;
      }
      var response := env.response.value;
      var requiredStatus := if resumedAt == 0 then 200 else 206;
      if response.status != requiredStatus || response.body.None? {
        return None;
      }
      if response.sha256.Some? && response.sha256.value != descriptor.sha256 {
        return None;
      }
      received := WriteBody(hash, resumedAt, response.body.value, env);
    }

    /** What the body leaves in the partial file, if it comes to be written. */
    ghost function Downloaded(hashed: Bytes, env: T.Environment): Option<T.Written> {
      if !T.Acceptable(env.response, descriptor, |hashed|) || !env.open then None
      else Some(T.WriteBody(hashed, env.response.value.body.value, descriptor.size, env.write))
    }

    ghost function Remaining(fault: T.WriteFault, chunks: nat): T.WriteFault {
      if fault.FailsAt? && fault.chunk >= chunks then T.FailsAt(fault.chunk - chunks, fault.kept) else T.AllWritten
    }

    /** At every turn the running hash covers exactly the bytes of the partial file. */
    method WriteBody(hash: Hash, resumedAt: nat, body: T.Body, env: T.Environment) returns (received: Option<nat>)
      requires resumedAt == |hash.preimage|
      requires resumedAt > 0 ==> partial == Some(T.File(hash.preimage))
      modifies this`partial, this`fetched, this`lost, hash
      ensures if !env.open then partial == old(partial) && received.None? && fetched == old(fetched) && lost == old(lost)
              else
                var written := T.WriteBody(old(hash.preimage), body, descriptor.size, env.write);
                && partial == Some(T.File(written.content))
                && fetched == old(fetched) + written.received && lost == old(lost) + written.lost
                && (received.Some? <==> written.ok && env.sync)
                && (received.Some? ==> hash.preimage == written.content && received.value == |hash.preimage|)
    {
      if !env.open {
        return None;
      }
      if resumedAt == 0 {
        partial := Some(T.File([]));
      }
      var offset := resumedAt;
      for i := 0 to |body.chunks|
        invariant partial == Some(T.File(hash.preimage)) && offset == |hash.preimage|
        invariant lost == old(lost) && fetched + resumedAt == old(fetched) + offset
        invariant Catches(old(hash.preimage), hash.preimage, body, i, env.write)
      {
        var chunk := body.chunks[i];
        Turn(old(hash.preimage), hash.preimage, body, i, env.write);
        var written := WriteChunk(hash, chunk, i, env);
        if !written {
          return None;
        }
        offset := offset + |chunk|;
        if offset > descriptor.size {
          return None;
        }
      }
      received := if body.complete && env.sync then Some(offset) else None;
    }

    /** Hashes a chunk and appends it to the partial file; a write that fails keeps a part of it. */
    method WriteChunk(hash: Hash, chunk: Bytes, i: nat, env: T.Environment) returns (written: bool)
      requires partial == Some(T.File(hash.preimage))
      modifies this`partial, this`fetched, this`lost, hash
      ensures hash.preimage == old(hash.preimage) + chunk && fetched == old(fetched) + |chunk|
      ensures written <==> !(env.write.FailsAt? && env.write.chunk == i)
      ensures written ==> partial == Some(T.File(hash.preimage)) && lost == old(lost)
      ensures !written ==> var kept := T.Min(env.write.kept, |chunk|);
                           && partial == Some(T.File(old(hash.preimage) + chunk[..kept]))
                           && lost == old(lost) + |chunk| - kept
    {
      var before := hash.preimage;
      hash.Update(chunk);
      fetched := fetched + |chunk|;
      if env.write.FailsAt? && env.write.chunk == i {
        var kept := T.Min(env.write.kept, |chunk|);
        partial := Some(T.File(before + chunk[..kept]));
        lost := lost + |chunk| - kept;
        return false;
      }
      partial := Some(T.File(before + chunk));
      written := true;
    }

    /** What is still to come gives the same end from `now` as the whole body from `start`. */
    ghost predicate Catches(start: Bytes, now: Bytes, body: T.Body, i: nat, fault: T.WriteFault)
    {
      && i <= |body.chunks| && |start| <= |now|
      && var rest := T.WriteBody(now, body.(chunks := body.chunks[i..]), descriptor.size, Remaining(fault, i));
         T.WriteBody(start, body, descriptor.size, fault) == rest.(received := |now| - |start| + rest.received)
    }

    lemma Turn(start: Bytes, now: Bytes, body: T.Body, i: nat, fault: T.WriteFault)
      requires i < |body.chunks| && Catches(start, now, body, i, fault)
      ensures var chunk := body.chunks[i];
              var end := T.WriteBody(start, body, descriptor.size, fault);
              if fault.FailsAt? && fault.chunk == i then
                var kept := T.Min(fault.kept, |chunk|);
                end == T.Written(now + chunk[..kept], false, |now| - |start| + |chunk|, |chunk| - kept)
              else if |now + chunk| > descriptor.size then
                end == T.Written(now + chunk, false, |now| - |start| + |chunk|, 0)
              else Catches(start, now + chunk, body, i + 1, fault)
    {
      var rest := body.(chunks := body.chunks[i..]);
      assert rest.chunks[0] == body.chunks[i] && rest.chunks[1..] == body.chunks[i + 1..];
      assert T.NextChunk(Remaining(fault, i)) == Remaining(fault, i + 1);
    }

    /** Lets only what matches the descriptor pass. */
    method VerifyOrDiscard(received: nat, hash: Hash, env: T.Environment) returns (verdict: Verdict)
      requires received == |hash.preimage|
      modifies this`partial
      ensures if Matches(hash.preimage, descriptor) then partial == old(partial) && verdict == Verified
              else if env.remove then partial == None && verdict == Discarded
              else partial == old(partial) && verdict == Stuck
    {
      if received == descriptor.size && hash.Digest() == descriptor.sha256 {
        return Verified;
      }
      if !env.remove {
        return Stuck;
      }
      partial := None;
      verdict := Discarded;
    }

    /** Renames into place; a directory that cannot be synced does not undo that. */
    method CommitArtifact(env: T.Environment) returns (renamed: bool, synced: bool)
      modifies this`partial, this`destination
      ensures renamed <==> env.rename && old(partial).Some? && old(partial).value.File?
      ensures synced <==> renamed && env.syncDirectory
      ensures Files() == if renamed then T.Files(None, Some(old(partial).value.content)) else old(Files())
    {
      if !env.rename || partial.None? || !partial.value.File? {
        return false, false;
      }
      destination := Some(partial.value.content);
      partial := None;
      renamed, synced := true, env.syncDirectory;
    }
  }
}
