/** The worker's epoch store: one monotone register per sandbox, kept in memory and in a file
    that is replaced as a whole through a temporary file, a rename and a directory sync. */
module Epochs {
  import opened Prelude

  const MaxSafeInteger: int := 9007199254740991

  type Document = map<Sid, nat>

  /** Where persisting fails, in the order of its steps. */
  datatype Fault =
    | NoFault | MkdirFails | OpenFails | WriteFails | SyncFails | CloseFails | RenameFails
    | DirectoryOpenFails | DirectorySyncFails | DirectoryCloseFails

  /** `file` is what a reader sees now; `lossy` are the contents a power loss may leave, several
      as long as a rename has not been made durable by syncing the directory. */
  datatype State = State(memory: Document, file: Option<Document>, lossy: set<Option<Document>>)

  datatype Answer = Accepted(previous: nat, advanced: bool) | Stale(previous: nat) | Invalid | NotPersisted

  function Get(document: Document, id: Sid): nat {
    if id in document then document[id] else 0
  }

  function Read(file: Option<Document>): Document {
    if file.Some? then file.value else map[]
  }

  predicate Renamed(fault: Fault) {
    fault.NoFault? || fault.DirectoryOpenFails? || fault.DirectorySyncFails? || fault.DirectoryCloseFails?
  }

  predicate DirectorySynced(fault: Fault) {
    fault.NoFault? || fault.DirectoryCloseFails?
  }

  function Persist(s: State, fault: Fault): State {
    if !Renamed(fault) then s
    else
      var written := Some(s.memory);
      s.(file := written, lossy := if DirectorySynced(fault) then {written} else s.lossy + {written})
  }

  function Restore(memory: Document, id: Sid, previous: nat): Document {
    if previous == 0 then memory - {id} else memory[id := previous]
  }

  function Accept(s: State, id: Sid, requested: int, fault: Fault): (State, Answer) {
    if requested < 0 || requested > MaxSafeInteger then (s, Invalid)
    else
      var previous := Get(s.memory, id);
      if requested < previous then (s, Stale(previous))
      else if requested == previous then (s, Accepted(previous, false))
      else
        var persisted := Persist(s.(memory := s.memory[id := requested]), fault);
        if fault.NoFault? then (persisted, Accepted(previous, true))
        else (persisted.(memory := Restore(persisted.memory, id, previous)), NotPersisted)
  }

  /** The worker process is started again on what the file shows. */
  function Restart(s: State): State {
    s.(memory := Read(s.file))
  }

  /** The machine loses power and comes back with one of the contents the disk may hold. */
  function PowerLoss(s: State, survivor: Option<Document>): State {
    State(Read(survivor), survivor, {survivor})
  }

  const Fresh := State(map[], None, {None})

  // ---- Runs, with the epochs acknowledged so far ----

  datatype Happening =
    | Request(id: Sid, requested: int, fault: Fault)
    | ProcessRestart
    | PowerFailure(survivor: Option<Document>)

  datatype History = History(store: State, acknowledged: Document)

  function After(h: History, e: Happening): History {
    match e
    case Request(id, requested, fault) =>
      var (store, answer) := Accept(h.store, id, requested, fault);
      if answer.Accepted?
      then History(store, h.acknowledged[id := Max(Get(h.acknowledged, id), requested)])
      else History(store, h.acknowledged)
    case ProcessRestart => History(Restart(h.store), h.acknowledged)
    case PowerFailure(survivor) =>
      if survivor in h.store.lossy then History(PowerLoss(h.store, survivor), h.acknowledged) else h
  }

  function Max(a: nat, b: int): (r: nat)
    ensures r >= a && r >= b && (r == a || r == b)
  {
    if b <= a then a else b
  }

  function Play(h: History, run: seq<Happening>): History {
    if run == [] then h else After(Play(h, run[..|run| - 1]), run[|run| - 1])
  }

  const Start := History(Fresh, map[])

  ghost predicate Dominates(a: Document, b: Document) {
    forall id {:trigger Get(a, id)} {:trigger Get(b, id)} :: Get(a, id) >= Get(b, id)
  }

  /** Nothing that a power loss may leave is behind what a reader sees. */
  ghost predicate Settled(s: State) {
    forall d | d in s.lossy :: Dominates(Read(d), Read(s.file))
  }

  /** No power loss and no restart would forget an acknowledged epoch. */
  ghost predicate NothingForgotten(h: History) {
    && (forall d | d in h.store.lossy :: Dominates(Read(d), h.acknowledged))
    && Dominates(Read(h.store.file), h.acknowledged)
    && Dominates(h.store.memory, h.acknowledged)
  }

  ghost predicate Inv(h: History) {
    && h.store.file in h.store.lossy
    && (forall d | d in h.store.lossy :: Dominates(Read(d), h.store.memory))
    && Dominates(h.store.memory, h.acknowledged)
    && Bounded(h.store.memory)
    && (forall d | d in h.store.lossy :: Bounded(Read(d)))
  }

  /** Every epoch passes the check that `load` makes on a document. */
  ghost predicate Bounded(document: Document) {
    forall id :: Get(document, id) <= MaxSafeInteger
  }

  // ---- Memory ----

  /** No request lowers a register; one that is not acknowledged changes none; one that is
      acknowledged leaves exactly the requested epoch and touches no other register. */
  lemma AcceptIsMonotone(s: State, id: Sid, requested: int, fault: Fault, other: Sid)
    ensures var (later, answer) := Accept(s, id, requested, fault);
            && Get(later.memory, other) >= Get(s.memory, other)
            && (!answer.Accepted? ==> Get(later.memory, other) == Get(s.memory, other))
            && (answer.Accepted? ==>
                  Get(later.memory, other) == if other == id then requested else Get(s.memory, other))
            && (answer.Accepted? ==> answer.previous == Get(s.memory, id)
                                     && (answer.advanced <==> requested > answer.previous))
  {
  }

  /** Every request gets exactly one of four answers, and one that is not persisted leaves no trace in
      memory. Only a register that was set is ever in memory. */
  lemma RequestsAreAnsweredExactly(s: State, id: Sid, requested: int, fault: Fault)
    ensures var (later, answer) := Accept(s, id, requested, fault); var register := Get(s.memory, id);
            && (answer.Invalid? <==> requested < 0 || requested > 9007199254740991)
            && (answer.Stale? <==> 0 <= requested < register && !answer.Invalid?)
            && (answer.Accepted? <==> !answer.Invalid? && (requested == register || (requested > register && fault == NoFault)))
            && (!answer.Accepted? && (id in s.memory ==> s.memory[id] > 0) ==> later.memory == s.memory)
            && (answer.Stale? || answer.Invalid? || requested == register ==> later == s)
  {
  }

  /** What an acknowledged write leaves is what every later process reads, whether the process is
      restarted or the machine loses power. */
  lemma AcknowledgedIsReloaded(s: State, id: Sid, requested: int, fault: Fault, survivor: Option<Document>)
    ensures var (later, answer) := Accept(s, id, requested, fault);
            answer.Accepted? && answer.advanced ==>
              && Restart(later) == later && Get(later.memory, id) == requested
              && (survivor in later.lossy ==> PowerLoss(later, survivor) == later)
  {
  }

  /** What a failing write may leave on disk: nothing before the rename, and after it either content
      until the directory is synced. */
  lemma FailedWritesLeave(s: State, id: Sid, requested: int, fault: Fault)
    requires Get(s.memory, id) < requested <= MaxSafeInteger && fault != NoFault
    ensures var later := Accept(s, id, requested, fault).0; var written := Some(s.memory[id := requested]);
            match fault
            case DirectoryOpenFails => later.file == written && later.lossy == s.lossy + {written}
            case DirectorySyncFails => later.file == written && later.lossy == s.lossy + {written}
            case DirectoryCloseFails => later.file == written && later.lossy == {written}
            case _ => later.file == s.file && later.lossy == s.lossy
  {
  }

  // ---- Crashes ----

  lemma AcceptKeepsInv(h: History, id: Sid, requested: int, fault: Fault)
    requires Inv(h)
    ensures Inv(After(h, Request(id, requested, fault)))
  {
    var (later, answer) := Accept(h.store, id, requested, fault);
    var h' := After(h, Request(id, requested, fault));
    forall other ensures Get(later.memory, other) >= Get(h'.acknowledged, other) {
      AcceptIsMonotone(h.store, id, requested, fault, other);
      assert Get(h.store.memory, other) >= Get(h.acknowledged, other);
    }
    forall d, other | d in later.lossy ensures Get(Read(d), other) >= Get(later.memory, other) {
      AcceptIsMonotone(h.store, id, requested, fault, other);
      if d in h.store.lossy && !answer.Accepted? {
        assert Dominates(Read(d), h.store.memory);
      }
    }
    AcceptKeepsBounds(h.store, id, requested, fault);
  }

  lemma AcceptKeepsBounds(s: State, id: Sid, requested: int, fault: Fault)
    requires Bounded(s.memory) && forall d | d in s.lossy :: Bounded(Read(d))
    ensures var later := Accept(s, id, requested, fault).0;
            Bounded(later.memory) && forall d | d in later.lossy :: Bounded(Read(d))
  {
    var later := Accept(s, id, requested, fault).0;
    forall other ensures Get(later.memory, other) <= MaxSafeInteger {
      assert Get(s.memory, other) <= MaxSafeInteger;
    }
    if 0 <= requested <= MaxSafeInteger {
      var written := s.memory[id := requested];
      forall other ensures Get(written, other) <= MaxSafeInteger {
        assert Get(s.memory, other) <= MaxSafeInteger;
      }
      assert forall d | d in later.lossy :: d in s.lossy || d == Some(written);
    }
  }

  /** In any run in which the process is restarted only on a settled store, whatever fails and
      wherever power is lost, no acknowledged epoch is ever forgotten. */
  lemma {:induction false} AcknowledgedEpochsSurvive(run: seq<Happening>)
    requires forall i | 0 <= i < |run| && run[i].ProcessRestart? :: Settled(Play(Start, run[..i]).store)
    ensures Inv(Play(Start, run)) && NothingForgotten(Play(Start, run))
  {
    if run != [] {
      var earlier := run[..|run| - 1];
      forall i | 0 <= i < |earlier| && earlier[i].ProcessRestart? ensures Settled(Play(Start, earlier[..i]).store) {
        assert earlier[..i] == run[..i] && run[i].ProcessRestart?;
      }
      AcknowledgedEpochsSurvive(earlier);
      HappeningKeepsInv(Play(Start, earlier), run[|run| - 1]);
    }
    InvForgetsNothing(Play(Start, run));
  }

  lemma HappeningKeepsInv(h: History, e: Happening)
    requires Inv(h) && (e.ProcessRestart? ==> Settled(h.store))
    ensures Inv(After(h, e))
  {
    match e
    case Request(id, requested, fault) => AcceptKeepsInv(h, id, requested, fault);
    case ProcessRestart =>
      assert Dominates(Read(h.store.file), h.store.memory);
    case PowerFailure(survivor) =>
      if survivor in h.store.lossy {
        assert Dominates(Read(survivor), h.store.memory);
      }
  }

  lemma InvForgetsNothing(h: History)
    requires Inv(h)
    ensures NothingForgotten(h)
  {
    forall d, id | d in h.store.lossy ensures Get(Read(d), id) >= Get(h.acknowledged, id) {
      assert Dominates(Read(d), h.store.memory);
      assert Get(h.store.memory, id) >= Get(h.acknowledged, id);
    }
  }

  /** A run of requests followed by one crash of either kind never needs the proviso. */
  lemma OneCrashForgetsNothing(run: seq<Happening>, crash: Happening)
    requires forall e | e in run :: e.Request?
    requires crash.ProcessRestart? || (crash.PowerFailure? && crash.survivor in Play(Start, run).store.lossy)
    ensures var h := Play(Start, run);
            Dominates(After(h, crash).store.memory, h.acknowledged)
  {
    forall i | 0 <= i < |run| ensures run[i].Request? {
      assert run[i] in run;
    }
    AcknowledgedEpochsSurvive(run);
  }

  /** The store is settled whenever the last request that wrote was acknowledged. */
  lemma AcknowledgedWriteSettles(s: State, id: Sid, requested: int, fault: Fault)
    ensures var (later, answer) := Accept(s, id, requested, fault);
            answer.Accepted? && answer.advanced ==> later.lossy == {later.file} && Settled(later)
  {
  }

  /** Restarting the process on a given store is safe for all futures of requests exactly if
      the store is settled: load does not sync the directory, so an epoch it reads from a rename
      that is not yet durable is acknowledged again without being written. */
  lemma RestartIsSafeIffSettled(h: History)
    requires Inv(h)
    ensures Settled(h.store)
       <==> forall future: seq<Happening> | (forall e | e in future :: e.Request?) ::
              NothingForgotten(Play(After(h, ProcessRestart), future))
  {
    var restarted := After(h, ProcessRestart);
    if Settled(h.store) {
      HappeningKeepsInv(h, ProcessRestart);
      forall future: seq<Happening> | (forall e | e in future :: e.Request?)
        ensures NothingForgotten(Play(restarted, future))
      {
        RequestsKeepInv(restarted, future);
        InvForgetsNothing(Play(restarted, future));
      }
    } else {
      var future := ForgettingFuture(h);
      assert !NothingForgotten(Play(restarted, future));
    }
  }

  lemma ForgettingFuture(h: History) returns (future: seq<Happening>)
    requires Inv(h) && !Settled(h.store)
    ensures forall e | e in future :: e.Request?
    ensures !NothingForgotten(Play(After(h, ProcessRestart), future))
  {
    var d :| d in h.store.lossy && !Dominates(Read(d), Read(h.store.file));
    var id: Sid :| Get(Read(d), id) < Get(Read(h.store.file), id);
    var epoch := Get(Read(h.store.file), id);
    assert Bounded(Read(h.store.file));
    var restarted := After(h, ProcessRestart);
    future := [Request(id, epoch, NoFault)];
    assert future[..0] == [];
    var later := Play(restarted, future);
    assert later == After(Play(restarted, []), future[0]) == After(restarted, future[0]);
    assert Get(later.acknowledged, id) >= epoch;
    assert d in later.store.lossy;
    assert !Dominates(Read(d), later.acknowledged);
  }

  /** A run that forgets: the directory sync of epoch 5 fails, the process is restarted, 5 is
      acknowledged without a write, and the power loss brings back the missing file. */
  lemma UnsettledRestartForgets()
    ensures exists run: seq<Happening> :: !NothingForgotten(Play(Start, run))
  {
    var run := [Request(1, 5, DirectorySyncFails), ProcessRestart, Request(1, 5, NoFault)];
    assert run[..2] == [Request(1, 5, DirectorySyncFails), ProcessRestart];
    assert run[..2][..1] == [Request(1, 5, DirectorySyncFails)];
    assert run[..2][..1][..0] == [];
    var afterFault := After(Start, run[0]);
    assert afterFault == Play(Start, run[..2][..1]);
    assert afterFault.store.lossy == {None, Some(map[1 := 5])};
    var last := After(After(afterFault, ProcessRestart), run[2]);
    assert last == Play(Start, run);
    assert Get(last.acknowledged, 1) == 5 && Get(Read(None), 1) == 0;
    assert None in last.store.lossy;
    assert !Dominates(Read(None), last.acknowledged);
  }

  lemma {:induction false} RequestsKeepInv(h: History, future: seq<Happening>)
    requires Inv(h) && forall e | e in future :: e.Request?
    ensures Inv(Play(h, future))
  {
    if future != [] {
      var last := future[|future| - 1];
      assert last in future;
      RequestsKeepInv(h, future[..|future| - 1]);
      HappeningKeepsInv(Play(h, future[..|future| - 1]), last);
    }
  }
}
