/** The epoch store as it runs, step by step over a file system that may fail at each step. */
module EpochStore {
  import opened Prelude
  import E = Epochs

  class Store {
    var epochs: E.Document
    var file: Option<E.Document>
    /** What a power loss may leave of the file. */
    ghost var lossy: set<Option<E.Document>>

    ghost function State(): E.State
      reads this
    {
      E.State(epochs, file, lossy)
    }

    /** Opens the store over what is on disk. */
    constructor (onDisk: Option<E.Document>)
      ensures State() == E.State(E.Read(onDisk), onDisk, {onDisk})
    {
      epochs := if onDisk.Some? then onDisk.value else map[];
      file := onDisk;
      lossy := {onDisk};
    }

    function Get(id: Sid): (epoch: nat)
      reads this
    {
      E.Get(epochs, id)
    }

    /** Reads the file into a new process. */
    method Load()
      modifies this
      ensures State() == E.Restart(old(State()))
    {
      epochs := map[];
      if file.Some? {
        epochs := file.value;
      }
    }

    method Persist(fault: E.Fault) returns (ok: bool)
      modifies this
      ensures State() == E.Persist(old(State()), fault)
      ensures ok == fault.NoFault?
    {
      if fault.MkdirFails? || fault.OpenFails? {
        return false;
      }
      var temporary := epochs;
      if fault.WriteFails? || fault.SyncFails? || fault.CloseFails? || fault.RenameFails? {
        return false;
      }
      file := Some(temporary);
      lossy := lossy + {file};
      if fault.DirectoryOpenFails? || fault.DirectorySyncFails? {
        return false;
      }
      lossy := {file};
      ok := !fault.DirectoryCloseFails?;
    }

    method Accept(id: Sid, requested: int, fault: E.Fault) returns (answer: E.Answer)
      modifies this
      ensures (State(), answer) == E.Accept(old(State()), id, requested, fault)
      ensures answer.Accepted? ==> Get(id) == requested
      ensures forall other :: other != id || !answer.Accepted? ==> Get(other) == old(Get(other))
    {
      if requested < 0 || requested > E.MaxSafeInteger {
        return E.Invalid;
      }
      var previous := Get(id);
      if requested < previous {
        return E.Stale(previous);
      }
      if requested > previous {
        epochs := epochs[id := requested];
        var ok := Persist(fault);
        if !ok {
          if previous == 0 {
            epochs := epochs - {id};
          } else {
            epochs := epochs[id := previous];
          }
          return E.NotPersisted;
        }
      }
      answer := E.Accepted(previous, requested > previous);
    }
  }
}
