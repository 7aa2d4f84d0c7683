/** One pull of an artifact as a function of the files it finds and of what fails on the way, and
    what therefore holds however a transfer is cut and retried. */
module Transfer {
  import opened Prelude
  import opened Artifacts
  import R = ArtifactRange

  datatype Entry = File(content: Bytes) | NotAFile

  /** The partial file and the destination. */
  datatype Files = Files(partial: Option<Entry>, destination: Option<Bytes>)

  /** A body is delivered in chunks; one that is not `complete` ends in an error. */
  datatype Body = Body(chunks: seq<Bytes>, complete: bool)

  datatype Response = Response(status: nat, sha256: Option<Digest>, body: Option<Body>)

  /** A write that fails leaves some of its chunk in the file. */
  datatype WriteFault = AllWritten | FailsAt(chunk: nat, kept: nat)

  /** What the environment does in one attempt; a bool is true if the call succeeds. */
  datatype Environment = Environment(
    mkdir: bool, stat: bool, read: bool, response: Option<Response>, open: bool, write: WriteFault,
    sync: bool, remove: bool, rename: bool, syncDirectory: bool)

  /** `Unsynced` is the error of a pull that renamed its file and could not sync the directory. */
  datatype Outcome = Committed(resumedAt: nat, bytesWritten: nat) | Unsynced | Mismatch | Failed

  /** `fetched` counts the body bytes that arrived, `lost` those of them that a failed write did
      not leave in the file. */
  datatype Pulled = Pulled(files: Files, outcome: Outcome, fetched: nat, lost: nat)

  function Min(a: nat, b: nat): nat {
    if a <= b then a else b
  }

  // ---- One attempt ----

  datatype Resumption = Resumption(partial: Option<Entry>, hashed: Option<Bytes>)

  /** What is left of an existing partial file, and the bytes that were hashed. */
  function ResumeFromPartial(partial: Option<Entry>, size: nat, env: Environment): Resumption {
    if !env.stat then Resumption(partial, None)
    else
      match partial
      case None => Resumption(None, Some([]))
      case Some(entry) =>
        if entry.NotAFile? || |entry.content| > size
        then if env.remove then Resumption(None, Some([])) else Resumption(partial, None)
        else Resumption(partial, if env.read then Some(entry.content) else None)
  }

  datatype Written = Written(content: Bytes, ok: bool, received: nat, lost: nat)

  function NextChunk(fault: WriteFault): WriteFault {
    if fault.FailsAt? && fault.chunk > 0 then FailsAt(fault.chunk - 1, fault.kept) else AllWritten
  }

  /** Appends the chunks of a body until one is too many, a write fails, or the body ends. */
  function WriteBody(content: Bytes, body: Body, size: nat, fault: WriteFault): (written: Written)
    ensures |written.content| + written.lost == |content| + written.received
    ensures written.lost > 0 ==> fault.FailsAt? && !written.ok
    ensures |content| <= |written.content|
    decreases body.chunks
  {
    if body.chunks == [] then Written(content, body.complete, 0, 0)
    else
      var chunk := body.chunks[0];
      if fault.FailsAt? && fault.chunk == 0 then
        var kept := Min(fault.kept, |chunk|);
        Written(content + chunk[..kept], false, |chunk|, |chunk| - kept)
      else if |content + chunk| > size then Written(content + chunk, false, |chunk|, 0)
      else
        var rest := WriteBody(content + chunk, body.(chunks := body.chunks[1..]), size, NextChunk(fault));
        rest.(received := |chunk| + rest.received)
  }

  /** The response is the one that the request calls for. */
  predicate Acceptable(response: Option<Response>, d: Descriptor, resumedAt: nat) {
    && response.Some? && response.value.body.Some?
    && response.value.status == (if resumedAt == 0 then 200 else 206)
    && (response.value.sha256.Some? ==> response.value.sha256.value == d.sha256)
  }

  /** Verifies what was received and renames it into place, or discards it. */
  function Commit(files: Files, d: Descriptor, content: Bytes, resumedAt: nat, env: Environment): (Files, Outcome)
    requires resumedAt <= |content|
  {
    if !Matches(content, d) then
      if env.remove then (files.(partial := None), Mismatch) else (files, Failed)
    else if !env.rename || files.partial.None? then (files, Failed)
    else
      (Files(None, Some(content)),
       if env.syncDirectory then Outcome.Committed(resumedAt, |content| - resumedAt) else Unsynced)
  }

  predicate Renamed(outcome: Outcome) {
    outcome.Committed? || outcome.Unsynced?
  }

  function Pull(files: Files, d: Descriptor, env: Environment): Pulled {
    if !env.mkdir then Pulled(files, Failed, 0, 0)
    else
      var resumption := ResumeFromPartial(files.partial, d.size, env);
      var ready := files.(partial := resumption.partial);
      if resumption.hashed.None? then Pulled(ready, Failed, 0, 0)
      else
        var hashed := resumption.hashed.value;
        if |hashed| >= d.size then
          var (later, outcome) := Commit(ready, d, hashed, |hashed|, env);
          Pulled(later, outcome, 0, 0)
        else Download(ready, d, hashed, env)
  }

  function Download(files: Files, d: Descriptor, hashed: Bytes, env: Environment): Pulled {
    if !Acceptable(env.response, d, |hashed|) || !env.open then Pulled(files, Failed, 0, 0)
    else
      var written := WriteBody(hashed, env.response.value.body.value, d.size, env.write);
      var downloaded := files.(partial := Some(File(written.content)));
      var (later, outcome) :=
        if written.ok && env.sync then Commit(downloaded, d, written.content, |hashed|, env)
        else (downloaded, Failed);
      Pulled(later, outcome, written.received, written.lost)
  }

  // ---- Whatever the source sends ----

  /** Whatever the partial file was, whatever the source sends and whatever fails, the destination
      is only ever replaced by bytes of the declared size and digest; a commit replaces it and
      reports exactly what was there before and what arrived; a mismatch leaves no partial file. */
  lemma DestinationIsVerified(files: Files, d: Descriptor, env: Environment)
    ensures var pulled := Pull(files, d, env);
            && (pulled.files.destination != files.destination ==> Renamed(pulled.outcome))
            && (Renamed(pulled.outcome) ==>
                  && pulled.files.destination.Some? && Matches(pulled.files.destination.value, d)
                  && pulled.files.partial.None?)
            && (pulled.outcome.Committed? ==>
                  && pulled.outcome.resumedAt + pulled.outcome.bytesWritten == d.size
                  && pulled.outcome.bytesWritten == pulled.fetched)
            && (pulled.outcome.Mismatch? ==> pulled.files == files.(partial := None))
  {
  }

  /** What an attempt goes on from: a partial file that is read in full, or nothing, if there is none
      or if an unusable one could be removed. */
  lemma WhatIsResumed(partial: Option<Entry>, size: nat, env: Environment)
    ensures var usable := partial.Some? && partial.value.File? && |partial.value.content| <= size;
            ResumeFromPartial(partial, size, env)
              == if !env.stat then Resumption(partial, None)
                 else if usable then Resumption(partial, if env.read then Some(partial.value.content) else None)
                 else if partial.None? || env.remove then Resumption(None, Some([]))
                 else Resumption(partial, None)
  {
  }

  /** The response does not answer a request for what is missing behind `n` bytes. */
  predicate AnswersSomethingElse(response: Option<Response>, d: Descriptor, n: nat) {
    || response.None? || response.value.body.None?
    || (n == 0 && response.value.status != 200) || (n > 0 && response.value.status != 206)
    || (response.value.sha256.Some? && response.value.sha256.value != d.sha256)
  }

  /** Whatever such a source sends, above all the whole artifact to one who asked for the rest,
      nothing of it is written: the files are as resumption left them. */
  lemma AWrongAnswerIsNotWritten(files: Files, d: Descriptor, env: Environment)
    requires var hashed := ResumeFromPartial(files.partial, d.size, env).hashed;
             hashed.Some? && |hashed.value| < d.size && AnswersSomethingElse(env.response, d, |hashed.value|)
    ensures Pull(files, d, env)
         == Pulled(if env.mkdir then files.(partial := ResumeFromPartial(files.partial, d.size, env).partial) else files,
                   Failed, 0, 0)
  {
  }

  /** Any other body is appended: what was hashed, and the bytes that arrived and were not lost, are
      what the partial file holds afterwards, or what was verified and took the place of the
      destination, or what was discarded because it is something else. */
  lemma ARightAnswerIsAppended(files: Files, d: Descriptor, env: Environment)
    requires env.mkdir && env.open
    requires var hashed := ResumeFromPartial(files.partial, d.size, env).hashed;
             hashed.Some? && |hashed.value| < d.size && !AnswersSomethingElse(env.response, d, |hashed.value|)
    ensures var hashed := ResumeFromPartial(files.partial, d.size, env).hashed.value;
            var sent := Concat(env.response.value.body.value.chunks);
            var pulled := Pull(files, d, env);
            && pulled.lost <= pulled.fetched <= |sent|
            && var content := hashed + sent[..pulled.fetched - pulled.lost];
            match pulled.outcome
            case Failed => pulled.files == files.(partial := Some(File(content)))
            case Mismatch => pulled.files == files.(partial := None) && !Matches(content, d)
            case _ => pulled.files == Files(None, Some(content)) && Matches(content, d)
  {
    var hashed := ResumeFromPartial(files.partial, d.size, env).hashed.value;
    BodyIsAppended(hashed, env.response.value.body.value, d.size, env.write);
  }

  lemma {:induction false} BodyIsAppended(content: Bytes, body: Body, size: nat, fault: WriteFault)
    requires |content| <= size
    ensures var written := WriteBody(content, body, size, fault); var sent := Concat(body.chunks);
            && written.lost <= written.received <= |sent|
            && written.content == content + sent[..written.received - written.lost]
            && (written.ok <==> body.complete && |content| + |sent| <= size && HasNoFault(body, fault))
    decreases body.chunks
  {
    if body.chunks == [] {
    } else if fault.FailsAt? && fault.chunk == 0 {
    } else if |content + body.chunks[0]| > size {
    } else {
      var chunk, rest := body.chunks[0], body.(chunks := body.chunks[1..]);
      SentOneByOne(chunk, Concat(rest.chunks), content);
      BodyIsAppended(content + chunk, rest, size, NextChunk(fault));
    }
  }

  lemma SentOneByOne(chunk: Bytes, rest: Bytes, content: Bytes)
    ensures forall n: nat | n <= |rest| :: content + (chunk + rest)[..|chunk| + n] == (content + chunk) + rest[..n]
  {
    forall n: nat | n <= |rest| ensures content + (chunk + rest)[..|chunk| + n] == (content + chunk) + rest[..n] {
      assert (chunk + rest)[..|chunk| + n] == chunk + rest[..n];
    }
  }

  /** No write of one of its chunks fails. */
  predicate HasNoFault(body: Body, fault: WriteFault) {
    fault.AllWritten? || |body.chunks| <= fault.chunk
  }

  /** An attempt ends in an error only for a reason: it commits, or discards what is something else,
      exactly if all calls work and the body is complete and not too long. */
  lemma AnAttemptEndsWell(files: Files, d: Descriptor, env: Environment)
    requires env.mkdir && env.open
    requires var hashed := ResumeFromPartial(files.partial, d.size, env).hashed;
             hashed.Some? && |hashed.value| < d.size && !AnswersSomethingElse(env.response, d, |hashed.value|)
    ensures var hashed := ResumeFromPartial(files.partial, d.size, env).hashed.value;
            var body := env.response.value.body.value; var whole := hashed + Concat(body.chunks);
            var received := body.complete && |whole| <= d.size && HasNoFault(body, env.write) && env.sync;
            var outcome := Pull(files, d, env).outcome;
            && (outcome.Mismatch? <==> received && !Matches(whole, d) && env.remove)
            && (Renamed(outcome) <==> received && Matches(whole, d) && env.rename)
            && (outcome.Committed? <==> Renamed(outcome) && env.syncDirectory)
  {
    var hashed := ResumeFromPartial(files.partial, d.size, env).hashed.value;
    var body := env.response.value.body.value;
    BodyIsAppended(hashed, body, d.size, env.write);
    if WriteBody(hashed, body, d.size, env.write).ok {
      AllIsReceived(hashed, body, d.size, env.write);
    }
  }

  /** Nothing is fetched for a partial file that is complete, or before there is something to go on
      from; a complete one is verified as it is. */
  lemma NothingIsFetchedInVain(files: Files, d: Descriptor, env: Environment)
    ensures var resumption := ResumeFromPartial(files.partial, d.size, env);
            var pulled := Pull(files, d, env);
            var complete := env.mkdir && resumption.hashed.Some? && |resumption.hashed.value| >= d.size;
            && (!env.mkdir ==> pulled == Pulled(files, Failed, 0, 0))
            && (env.mkdir && resumption.hashed.None?
                ==> pulled == Pulled(files.(partial := resumption.partial), Failed, 0, 0))
            && (complete ==>
                  && pulled.fetched == pulled.lost == 0
                  && (pulled.outcome.Mismatch? <==> !Matches(resumption.hashed.value, d) && env.remove)
                  && (Renamed(pulled.outcome)
                      <==> Matches(resumption.hashed.value, d) && env.rename && resumption.partial.Some?)
                  && (pulled.outcome.Committed? <==> Renamed(pulled.outcome) && env.syncDirectory))
  {
  }

  lemma {:induction false} AllIsReceived(content: Bytes, body: Body, size: nat, fault: WriteFault)
    requires WriteBody(content, body, size, fault).ok
    ensures WriteBody(content, body, size, fault).content == content + Concat(body.chunks)
    decreases body.chunks
  {
    if body.chunks != [] {
      var chunk, rest := body.chunks[0], body.(chunks := body.chunks[1..]);
      assert Concat(body.chunks) == chunk + Concat(rest.chunks);
      AllIsReceived(content + chunk, rest, size, NextChunk(fault));
    }
  }

  // ---- An honest source ----

  function Concat(chunks: seq<Bytes>): Bytes {
    if chunks == [] then [] else chunks[0] + Concat(chunks[1..])
  }

  predicate IsPrefix(a: Bytes, b: Bytes) {
    |a| <= |b| && a == b[..|a|]
  }

  /** The source answers a request for the rest of `content` with what it serves for it, in any
      chunks, cut anywhere. */
  predicate HonestResponse(content: Bytes, resumedAt: nat, response: Response) {
    match R.OpenArtifactRange(content, Describe(content), R.ResumeHeader(resumedAt))
    case Err(_) => false
    case Ok(served) =>
      && response.status == served.status && response.sha256 == Some(served.sha256)
      && response.body.Some?
      && IsPrefix(Concat(response.body.value.chunks), served.content)
      && (response.body.value.complete ==> Concat(response.body.value.chunks) == served.content)
  }

  predicate Honest(content: Bytes, files: Files, env: Environment) {
    var hashed := ResumeFromPartial(files.partial, |content|, env).hashed;
    (hashed.Some? && |hashed.value| < |content| && env.response.Some?
     ==> HonestResponse(content, |hashed.value|, env.response.value))
  }

  /** The partial file is missing or the beginning of the content. */
  predicate IsBeginning(content: Bytes, partial: Option<Entry>) {
    partial.Some? ==> partial.value.File? && IsPrefix(partial.value.content, content)
  }

  function SizeOf(partial: Option<Entry>): nat {
    if partial.Some? && partial.value.File? then |partial.value.content| else 0
  }

  lemma {:induction false} HonestBodyIsWritten(content: Bytes, start: Bytes, body: Body, fault: WriteFault)
    requires IsPrefix(start + Concat(body.chunks), content)
    requires body.complete ==> start + Concat(body.chunks) == content
    ensures var written := WriteBody(start, body, |content|, fault);
            && IsPrefix(written.content, content)
            && (written.ok ==> written.content == content)
            && (body.complete && fault.AllWritten? ==> written.ok)
    decreases body.chunks
  {
    if body.chunks != [] {
      var chunk := body.chunks[0];
      var rest := body.(chunks := body.chunks[1..]);
      assert start + Concat(body.chunks) == (start + chunk) + Concat(rest.chunks);
      assert IsPrefix(start + chunk, content);
      HonestBodyIsWritten(content, start + chunk, rest, NextChunk(fault));
    } else {
      assert start + Concat(body.chunks) == start;
    }
  }

  /** An attempt against an honest source that finds a beginning of the content leaves a longer
      beginning or commits it, and accounts for every byte. */
  lemma HonestAttempt(content: Bytes, files: Files, env: Environment)
    requires |content| <= R.MaxSafeInteger
    requires IsBeginning(content, files.partial) && Honest(content, files, env)
    ensures var pulled := Pull(files, Describe(content), env);
            && !pulled.outcome.Mismatch?
            && (if Renamed(pulled.outcome)
                then pulled.files == Files(None, Some(content))
                     && SizeOf(files.partial) + pulled.fetched == |content| && pulled.lost == 0
                else pulled.files.destination == files.destination
                     && IsBeginning(content, pulled.files.partial)
                     && SizeOf(files.partial) + pulled.fetched == SizeOf(pulled.files.partial) + pulled.lost)
  {
    var hashed := ResumeFromPartial(files.partial, |content|, env).hashed;
    if hashed.Some? {
      assert IsPrefix(hashed.value, content);
      if |hashed.value| < |content| {
        if env.response.Some? {
          HonestDownload(content, hashed.value, env);
        }
      } else {
        assert hashed.value == content;
      }
    }
  }

  lemma HonestDownload(content: Bytes, hashed: Bytes, env: Environment)
    requires |hashed| < |content| <= R.MaxSafeInteger && IsPrefix(hashed, content)
    requires env.response.Some? && HonestResponse(content, |hashed|, env.response.value)
    ensures Acceptable(env.response, Describe(content), |hashed|)
    ensures var body := env.response.value.body.value;
            var written := WriteBody(hashed, body, |content|, env.write);
            && IsPrefix(written.content, content)
            && (written.ok ==> written.content == content)
            && (body.complete && env.write.AllWritten? ==> written.ok)
  {
    R.ResumeIsServedTheRest(content, |hashed|);
    var body := env.response.value.body.value;
    BeginningAndRest(content, hashed, Concat(body.chunks));
    HonestBodyIsWritten(content, hashed, body, env.write);
  }

  lemma BeginningAndRest(content: Bytes, start: Bytes, next: Bytes)
    requires IsPrefix(start, content) && IsPrefix(next, content[|start|..])
    ensures IsPrefix(start + next, content)
    ensures next == content[|start|..] ==> start + next == content
  {
    var rest := content[|start|..];
    assert content == start + rest;
    assert (start + rest)[..|start| + |next|] == start + rest[..|next|];
  }

  // ---- Attempts in a row ----

  /** Attempts are made until one commits. `renames` counts those that replaced the destination. */
  datatype History = History(
    files: Files, committed: bool, renames: nat, fetched: nat, lost: nat, mismatches: nat)

  function Retry(h: History, d: Descriptor, env: Environment): History {
    if h.committed then h
    else
      var pulled := Pull(h.files, d, env);
      History(pulled.files, pulled.outcome.Committed?,
              h.renames + (if Renamed(pulled.outcome) then 1 else 0),
              h.fetched + pulled.fetched, h.lost + pulled.lost,
              h.mismatches + if pulled.outcome.Mismatch? then 1 else 0)
  }

  function Attempts(files: Files, d: Descriptor, envs: seq<Environment>): History {
    if envs == [] then History(files, false, 0, 0, 0, 0)
    else Retry(Attempts(files, d, envs[..|envs| - 1]), d, envs[|envs| - 1])
  }

  /** Every attempt of the row meets an honest source. */
  predicate AllHonest(content: Bytes, files: Files, envs: seq<Environment>) {
    envs == []
    || (AllHonest(content, files, envs[..|envs| - 1])
        && Honest(content, Attempts(files, Describe(content), envs[..|envs| - 1]).files, envs[|envs| - 1]))
  }

  /** What is known after any attempts with an honest source that began without a partial file. */
  predicate Accounted(h: History, content: Bytes, destination: Option<Bytes>) {
    && h.mismatches == 0
    && IsBeginning(content, h.files.partial)
    && h.files.destination == (if h.renames == 0 then destination else Some(content))
    && (h.committed ==> h.renames > 0 && h.files.partial.None?)
    && h.fetched == h.renames * |content| + SizeOf(h.files.partial) + h.lost
  }

  /** With an honest source and no partial file to begin with, however often the transfer is cut
      and retried, no byte is fetched twice: for each time the destination was replaced the whole
      artifact was fetched once, and beside that just what the partial file holds and what failed
      writes lost. It is replaced a second time only if the directory could not be synced. */
  lemma {:induction false} NoByteIsFetchedTwice(content: Bytes, destination: Option<Bytes>, envs: seq<Environment>)
    requires |content| <= R.MaxSafeInteger && AllHonest(content, Files(None, destination), envs)
    ensures Accounted(Attempts(Files(None, destination), Describe(content), envs), content, destination)
  {
    if envs != [] {
      NoByteIsFetchedTwice(content, destination, envs[..|envs| - 1]);
      var before := Attempts(Files(None, destination), Describe(content), envs[..|envs| - 1]);
      if !before.committed {
        AccountedRetry(before, content, destination, envs[|envs| - 1]);
      }
    }
  }

  lemma AccountedRetry(h: History, content: Bytes, destination: Option<Bytes>, env: Environment)
    requires |content| <= R.MaxSafeInteger && !h.committed && Accounted(h, content, destination)
    requires Honest(content, h.files, env)
    ensures Accounted(Retry(h, Describe(content), env), content, destination)
  {
    HonestAttempt(content, h.files, env);
    assert (h.renames + 1) * |content| == h.renames * |content| + |content|;
  }

  /** Without failed writes and directory syncs the bytes fetched over all attempts sum to exactly
      the artifact. */
  lemma FetchedBytesSumToTheArtifact(content: Bytes, destination: Option<Bytes>, envs: seq<Environment>)
    requires |content| <= R.MaxSafeInteger && AllHonest(content, Files(None, destination), envs)
    requires forall env | env in envs :: env.write.AllWritten? && env.syncDirectory
    ensures var h := Attempts(Files(None, destination), Describe(content), envs);
            h.fetched == if h.committed then |content| else SizeOf(h.files.partial)
  {
    NoByteIsFetchedTwice(content, destination, envs);
    NothingIsLostWithoutFaults(Files(None, destination), Describe(content), envs);
  }

  lemma {:induction false} NothingIsLostWithoutFaults(files: Files, d: Descriptor, envs: seq<Environment>)
    requires forall env | env in envs :: env.write.AllWritten? && env.syncDirectory
    ensures var h := Attempts(files, d, envs);
            h.lost == 0 && h.renames == if h.committed then 1 else 0
  {
    if envs != [] {
      NothingIsLostWithoutFaults(files, d, envs[..|envs| - 1]);
      var last := envs[|envs| - 1];
      assert last in envs;
    }
  }

  /** Whatever the partial file holds at first, corrupt or not a file at all, an honest source
      costs at most one failed verification; after it every partial file is a beginning. */
  lemma {:induction false} CorruptPartialCostsOneMismatch(content: Bytes, files: Files, envs: seq<Environment>)
    requires |content| <= R.MaxSafeInteger && AllHonest(content, files, envs)
    ensures var h := Attempts(files, Describe(content), envs);
            && h.mismatches <= 1
            && (h.mismatches == 1 && !h.committed ==> IsBeginning(content, h.files.partial))
  {
    if envs != [] {
      CorruptPartialCostsOneMismatch(content, files, envs[..|envs| - 1]);
      var before := Attempts(files, Describe(content), envs[..|envs| - 1]);
      DestinationIsVerified(before.files, Describe(content), envs[|envs| - 1]);
      if !before.committed && before.mismatches == 1 {
        HonestAttempt(content, before.files, envs[|envs| - 1]);
      }
    }
  }

  // ---- Progress ----

  predicate Faultless(env: Environment) {
    && env.mkdir && env.stat && env.read && env.open && env.sync && env.remove && env.rename
    && env.syncDirectory
    && env.write.AllWritten?
    && env.response.Some? && (env.response.value.body.Some? ==> env.response.value.body.value.complete)
  }

  /** One attempt without faults commits a beginning of a non-empty artifact, and fetches just
      what is missing. */
  lemma FaultlessAttemptCommits(content: Bytes, files: Files, env: Environment)
    requires 0 < |content| <= R.MaxSafeInteger
    requires IsBeginning(content, files.partial) && Honest(content, files, env) && Faultless(env)
    ensures Pull(files, Describe(content), env)
         == Pulled(Files(None, Some(content)),
                   Outcome.Committed(SizeOf(files.partial), |content| - SizeOf(files.partial)),
                   |content| - SizeOf(files.partial), 0)
  {
    var hashed := ResumeFromPartial(files.partial, |content|, env).hashed.value;
    assert IsPrefix(hashed, content);
    if |hashed| < |content| {
      HonestDownload(content, hashed, env);
    } else {
      assert hashed == content;
    }
  }

  /** From any partial file two attempts without faults suffice. */
  lemma TwoAttemptsSuffice(content: Bytes, files: Files, first: Environment, second: Environment)
    requires 0 < |content| <= R.MaxSafeInteger && Faultless(first) && Faultless(second)
    requires Honest(content, files, first)
    requires Honest(content, Pull(files, Describe(content), first).files, second)
    ensures var pulled := Pull(files, Describe(content), first);
            || (pulled.outcome.Committed? && pulled.files == Files(None, Some(content)))
            || (pulled.outcome.Mismatch?
                && Pull(pulled.files, Describe(content), second).files == Files(None, Some(content)))
  {
    var pulled := Pull(files, Describe(content), first);
    DestinationIsVerified(files, Describe(content), first);
    if pulled.outcome.Mismatch? {
      FaultlessAttemptCommits(content, pulled.files, second);
    } else {
      FaultlessAttemptsEndVerified(content, files, first);
    }
  }

  lemma FaultlessAttemptsEndVerified(content: Bytes, files: Files, env: Environment)
    requires 0 < |content| <= R.MaxSafeInteger && Faultless(env) && Honest(content, files, env)
    ensures !Pull(files, Describe(content), env).outcome.Failed?
    ensures !Pull(files, Describe(content), env).outcome.Unsynced?
  {
    var hashed := ResumeFromPartial(files.partial, |content|, env).hashed.value;
    if |hashed| < |content| {
      R.ResumeIsServedTheRest(content, |hashed|);
      FaultlessBodyIsWritten(hashed, env.response.value.body.value, |content|);
    }
  }

  lemma {:induction false} FaultlessBodyIsWritten(start: Bytes, body: Body, size: nat)
    requires body.complete && |start| + |Concat(body.chunks)| <= size
    ensures WriteBody(start, body, size, AllWritten).ok
    decreases body.chunks
  {
    if body.chunks != [] {
      FaultlessBodyIsWritten(start + body.chunks[0], body.(chunks := body.chunks[1..]), size);
    }
  }

  /** An empty artifact is never downloaded, so a partial file is never made for it: an attempt
      without faults commits exactly if an empty partial file is already there, and one that
      finds none changes nothing. */
  lemma EmptyArtifactNeedsAPartialFile(files: Files, env: Environment)
    requires Faultless(env)
    ensures Pull(files, Describe([]), env).outcome.Committed? <==> files.partial == Some(File([]))
    ensures files.partial.None? ==> Pull(files, Describe([]), env).files == files
  {
  }
}
