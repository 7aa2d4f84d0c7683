/** The worker with its exposed guest ports: exposures and relays change with the routes of
    WorkerCore and the port table of the allocator, and stay in order with it. */
module WorkerPorts {
  import opened Prelude
  import opened Artifacts
  import W = Worker
  import WC = WorkerCore
  import WP = WorkerPulls
  import N = Network
  import A = Allocation
  import E = Epochs
  import opened GuestPorts

  /** What happens to an exposure that is not there yet. */
  datatype Fate = Works | PlansFail | RelayFails

  class Exposer {
    const core: WC.Core
    /** The ports that the record of each sandbox names. */
    var exposures: map<Sid, seq<Exposure>>
    /** The relays that run for a sandbox: the host port of each guest port. */
    var relays: map<Sid, map<nat, nat>>

    constructor (core: WC.Core)
      requires core.Valid() && core.allocator.Valid() && core.allocator.portOwners == map[]
      ensures Valid() && this.core == core && exposures == map[] && relays == map[]
    {
      this.core := core;
      exposures := map[];
      relays := map[];
    }

    function ExposedAt(id: Sid): seq<Exposure>
      reads this`exposures
    {
      if id in exposures then exposures[id] else []
    }

    function RelaysOf(id: Sid): map<nat, nat>
      reads this`relays
    {
      if id in relays then relays[id] else map[]
    }

    predicate Retired(id: Sid)
      reads core`sandboxes
    {
      var record := core.RecordOf(id);
      record.Some? && record.value.quarantine.Some?
    }

    ghost predicate IsInOrder(id: Sid)
      reads this, core, core.allocator
    {
      InOrder(core.allocator.portOwners, core.allocator.name(id), ExposedAt(id), RelaysOf(id), Retired(id))
    }

    ghost predicate Valid()
      reads this, core, core.allocator
    {
      core.Valid() && core.allocator.Valid() && forall id :: IsInOrder(id)
    }

    // ---- Relays and exposures ----

    method StopRelays(id: Sid)
      modifies this`relays
      ensures RelaysOf(id) == map[] && forall other | other != id :: RelaysOf(other) == old(RelaysOf(other))
    {
      relays := relays - {id};
    }

    method StartRelay(id: Sid, guestPort: nat, port: nat, fate: Fate) returns (ok: bool)
      modifies this`relays
      ensures ok <==> guestPort in old(RelaysOf(id)) || !fate.RelayFails?
      ensures RelaysOf(id) == if ok && guestPort !in old(RelaysOf(id)) then old(RelaysOf(id))[guestPort := port]
                              else old(RelaysOf(id))
      ensures forall other | other != id :: RelaysOf(other) == old(RelaysOf(other))
      ensures !ok ==> relays == old(relays)
    {
      if guestPort in RelaysOf(id) {
        return true;
      }
      ok := !fate.RelayFails?;
      if ok {
        relays := relays[id := RelaysOf(id)[guestPort := port]];
      }
    }

    method Find(id: Sid, guestPort: int) returns (port: Option<nat>)
      ensures port.Some? <==> Exposes(ExposedAt(id), guestPort)
      ensures port.Some? ==> guestPort >= 0 && Exposure(guestPort, port.value) in ExposedAt(id)
    {
      var list := ExposedAt(id);
      for i := 0 to |list|
        invariant forall j | 0 <= j < i :: list[j].guestPort != guestPort
      {
        if list[i].guestPort == guestPort {
          return Some(list[i].port);
        }
      }
      port := None;
    }

    // ---- Exposing a port ----

    /** An exposure that is not there yet can be made: nothing fails and some port of the range is free. */
    predicate CanExpose(guestPort: int, fate: Fate)
      reads core.allocator
    {
      fate.Works? && 1 <= guestPort <= 65535 && HasFreePort(core.allocator.portOwners, core.allocator.portBase)
    }

    /** Everything about other sandboxes and about this one's ports is as before. */
    twostate predicate PortsStay()
      reads this, core.allocator
    {
      && exposures == old(exposures) && relays == old(relays)
      && core.allocator.portOwners == old(core.allocator.portOwners)
    }

    twostate predicate OthersStay(id: Sid)
      reads this
    {
      forall other | other != id :: ExposedAt(other) == old(ExposedAt(other)) && RelaysOf(other) == old(RelaysOf(other))
    }

    /** The sandbox has one more exposure, with its relay, at a host port that nobody owned. */
    twostate predicate Gained(id: Sid, e: Exposure)
      reads this, core.allocator
    {
      && e.port !in old(core.allocator.portOwners)
      && core.allocator.portOwners
         == old(core.allocator.portOwners)[e.port := A.OwnerOf(core.allocator.name(id), e.guestPort)]
      && ExposedAt(id) == old(ExposedAt(id)) + [e]
      && RelaysOf(id) == old(RelaysOf(id))[e.guestPort := e.port]
      && OthersStay(id)
    }

    /** The allocator gives a guest port that has no exposure a host port that nobody owns. */
    method AllocateUnexposed(id: Sid, guestPort: int) returns (port: Option<nat>)
      requires core.allocator.Valid() && IsInOrder(id) && !Exposes(ExposedAt(id), guestPort)
      modifies core.allocator`portOwners
      ensures port.Some? <==> old(CanExpose(guestPort, Fate.Works))
      ensures port.None? ==> core.allocator.portOwners == old(core.allocator.portOwners)
      ensures port.Some? ==>
                && guestPort >= 0 && guestPort !in RelaysOf(id) && port.value !in old(core.allocator.portOwners)
                && core.allocator.portOwners
                   == old(core.allocator.portOwners)[port.value := A.OwnerOf(core.allocator.name(id), guestPort)]
    {
      var found := core.allocator.AllocatePort(id, guestPort);
      if found.Err? {
        if 1 <= guestPort <= 65535 {
          forall port | core.allocator.portBase <= port < A.PortEnd ensures port in core.allocator.portOwners {
            assert A.HeldByOther(core.allocator.portOwners, A.OwnerOf(core.allocator.name(id), guestPort), port);
          }
        }
        return None;
      }
      UnexposedGetsAFreePort(old(core.allocator.portOwners), core.allocator.name(id), ExposedAt(id), RelaysOf(id),
                             Retired(id), guestPort, core.allocator.portBase,
                             core.allocator.Preferred(id, guestPort), found.value);
      port := Some(found.value);
    }

    /** Gives a guest port that has no exposure a host port and a relay. A relay that does not start
        gives its host port back. */
    method Expose(id: Sid, guestPort: int, fate: Fate) returns (port: Option<nat>)
      requires core.allocator.Valid() && (forall other :: IsInOrder(other)) && !Exposes(ExposedAt(id), guestPort)
      modifies this, core.allocator`portOwners
      ensures port.Some? <==> old(CanExpose(guestPort, fate))
      ensures port.None? ==> PortsStay()
      ensures port.Some? ==> guestPort >= 0 && Gained(id, Exposure(guestPort, port.value))
      ensures forall other :: IsInOrder(other)
    {
      if fate.PlansFail? {
        return None;
      }
      assert IsInOrder(id);
      port := AllocateUnexposed(id, guestPort);
      if port.None? {
        return;
      }
      var started := StartRelay(id, guestPort, port.value, fate);
      if !started {
        core.allocator.ReleasePort(port.value);
        assert core.allocator.portOwners == old(core.allocator.portOwners);
        return None;
      }
      exposures := exposures[id := ExposedAt(id) + [Exposure(guestPort, port.value)]];
      forall other ensures IsInOrder(other) {
        assert old(IsInOrder(other));
        if other == id {
          ExposingStaysInOrder(old(core.allocator.portOwners), core.allocator.name(id), old(ExposedAt(id)),
                               old(RelaysOf(id)), Retired(id), guestPort, port.value);
        } else {
          OthersStayInOrder(old(core.allocator.portOwners), core.allocator.name(other), ExposedAt(other),
                            RelaysOf(other), Retired(other), core.allocator.name(id), guestPort, port.value);
        }
      }
    }

    /** Relays of the sandbox may have stopped; nothing else about ports has changed. */
    twostate predicate OnlyStopped(id: Sid)
      reads this, core.allocator
    {
      && exposures == old(exposures) && core.allocator.portOwners == old(core.allocator.portOwners)
      && (RelaysOf(id) == old(RelaysOf(id)) || RelaysOf(id) == map[])
      && OthersStay(id)
    }

    twostate lemma RetiredStays(id: Sid)
      requires core.OthersKept(id) && core.RecordStays(id)
      ensures forall other :: Retired(other) == old(Retired(other))
    {
      forall other ensures Retired(other) == old(Retired(other)) {
        if other != id {
          assert core.RecordOf(other) == old(core.RecordOf(other));
        }
      }
    }

    twostate lemma StoppingIsInOrder(id: Sid)
      requires (forall other :: old(IsInOrder(other))) && OnlyStopped(id)
      requires forall other | other != id :: Retired(other) == old(Retired(other))
      requires old(Retired(id)) ==> Retired(id)
      ensures forall other :: IsInOrder(other)
    {
      forall other ensures IsInOrder(other) {
        assert old(IsInOrder(other));
      }
    }

    /** What an exposure answers: nothing, a port that was exposed before, or a new one. */
    twostate predicate Answered(id: Sid, guestPort: int, new port: Option<nat>)
      reads this, core.allocator
    {
      match port
      case None => OnlyStopped(id)
      case Some(p) =>
        && guestPort >= 0
        && (if Exposes(old(ExposedAt(id)), guestPort) then PortsStay() && Exposure(guestPort, p) in ExposedAt(id)
            else Gained(id, Exposure(guestPort, p)))
    }

    method FindOrExpose(id: Sid, guestPort: int, fate: Fate) returns (port: Option<nat>)
      requires core.allocator.Valid() && forall other :: IsInOrder(other)
      modifies this, core.allocator`portOwners
      ensures Answered(id, guestPort, port) && forall other :: IsInOrder(other)
      ensures port.Some? <==> old(Exposes(ExposedAt(id), guestPort) || CanExpose(guestPort, fate))
    {
      port := Find(id, guestPort);
      if port.None? {
        port := Expose(id, guestPort, fate);
      }
    }

    /** Passes the choke point, which stops the relays of a record that it fences. */
    method Admit(id: Sid, epoch: nat, f: W.Faults) returns (passed: bool)
      requires Valid()
      modifies this`relays, core`sandboxes, core`processes, core`calls, core.epochs
      ensures Valid() && OnlyStopped(id) && (passed ==> relays == old(relays))
      ensures core.RecordStays(id) && core.OthersKept(id)
      ensures var g := W.MutableRecord(old(core.CellOf(id)), epoch, None, f);
              core.CellOf(id) == g.cell && passed == g.passed && core.calls == old(core.calls) + g.calls
    {
      passed := core.MutableRecord(id, epoch, None, f);
      core.StayingIsValid(id);
      RetiredStays(id);
      if !passed {
        StopIfFenced(id);
      }
      StoppingIsInOrder(id);
    }

    /** The route that exposes a guest port: to the record it does what every guest call does. */
    method ExposeGuestPort(id: Sid, epoch: nat, guestPort: int, fate: Fate, f: W.Faults) returns (port: Option<nat>)
      requires Valid()
      modifies this, core`sandboxes, core`processes, core`calls, core.epochs, core.allocator`portOwners
      ensures Valid() && Answered(id, guestPort, port)
      ensures port.Some? <==> W.MutableRecord(old(core.CellOf(id)), epoch, None, f).passed
                              && old(Exposes(ExposedAt(id), guestPort) || CanExpose(guestPort, fate))
      ensures core.RecordStays(id)
      ensures core.Became(id, W.GuestCall(old(core.CellOf(id)), epoch, None, f.(guest := port.Some?)),
                          if port.Some? then W.Done else W.Refused)
    {
      ghost var c := core.CellOf(id);
      var passed := Admit(id, epoch, f);
      if passed {
        port := FindOrExpose(id, guestPort, fate);
      } else {
        port := None;
      }
      GuestCallAnswers(c, epoch, port.Some?, f);
    }

    // ---- The ports of a manifest ----

    /** Exposes the ports one after the other and gives up at the first that fails. */
    method ExposeAll(id: Sid, epoch: nat, ports: seq<int>, fates: nat -> Fate, f: W.Faults) returns (ok: bool)
      requires Valid() && PassesAgain(core.CellOf(id), epoch)
      modifies this, core`sandboxes, core`processes, core`calls, core.epochs, core.allocator`portOwners
      ensures Valid()
      ensures core.CellOf(id) == old(core.CellOf(id)) && core.calls == old(core.calls)
      ensures core.OthersKept(id) && core.RecordStays(id)
      ensures Kept(old(ExposedAt(id)), ExposedAt(id))
      ensures ok <==> forall port | port in ports :: Exposes(ExposedAt(id), port)
    {
      ghost var c := core.CellOf(id);
      for i := 0 to |ports|
        invariant Valid() && core.OthersKept(id) && core.RecordStays(id)
        invariant core.CellOf(id) == c && core.calls == old(core.calls)
        invariant Kept(old(ExposedAt(id)), ExposedAt(id)) && ExposesFirst(ExposedAt(id), ports, i)
      {
        ghost var list := ExposedAt(id);
        var port := ExposeOneMore(id, epoch, ports[i], fates(i), f);
        KeptOn(old(ExposedAt(id)), list, ExposedAt(id), ports, i);
        if port.None? {
          assert ports[i] in ports;
          return false;
        }
        ExposesOneMore(ExposedAt(id), ports, i);
      }
      ok := true;
    }

    method ExposeOneMore(id: Sid, epoch: nat, guestPort: int, fate: Fate, f: W.Faults) returns (port: Option<nat>)
      requires Valid() && PassesAgain(core.CellOf(id), epoch)
      modifies this, core`sandboxes, core`processes, core`calls, core.epochs, core.allocator`portOwners
      ensures Valid()
      ensures core.CellOf(id) == old(core.CellOf(id)) && core.calls == old(core.calls)
      ensures core.OthersKept(id) && core.RecordStays(id)
      ensures Kept(old(ExposedAt(id)), ExposedAt(id))
      ensures port.Some? <==> Exposes(ExposedAt(id), guestPort)
      ensures port.Some? <==> old(Exposes(ExposedAt(id), guestPort) || CanExpose(guestPort, fate))
    {
      PassingAgain(core.CellOf(id), epoch, f);
      port := ExposeGuestPort(id, epoch, guestPort, fate, f);
    }

    /** A transfer whose manifest exposes ports: once its artifacts are there it exposes them too. */
    method TransferMigration(id: Sid, op: W.Op, ports: seq<int>, fates: nat -> Fate, pulls: WP.Pulls, f: W.Faults)
      returns (reply: W.Reply, exposed: bool)
      requires Valid() && op.TransferOp?
      modifies this, core`sandboxes, core`partials, core`processes, core`calls, core.epochs, core.allocator`portOwners
      ensures Valid()
      ensures core.Became(id, W.Exec(old(core.CellOf(id)), core.here, id, op,
                                     WP.WithPulls(old(core.PartialsOf(id)), old(core.FilesOf(id)), op.manifest, pulls,
                                                  f.(guest := exposed))), reply)
      ensures Kept(old(ExposedAt(id)), ExposedAt(id))
      ensures reply.Done? ==> forall port | port in ports :: Exposes(ExposedAt(id), port)
    {
      ghost var c := core.CellOf(id);
      reply := PullAll(id, op, pulls, f);
      exposed := false;
      if reply.Done? {
        exposed := ExposeAll(id, op.epoch, ports, fates, f);
        reply := if exposed then W.Done else W.Refused;
      }
      PullsAnswer(c, core.here, id, op, exposed, old(core.PartialsOf(id)), old(core.FilesOf(id)), pulls, f);
    }

    method PullAll(id: Sid, op: W.Op, pulls: WP.Pulls, f: W.Faults) returns (reply: W.Reply)
      requires Valid() && op.TransferOp?
      modifies this`relays, core`sandboxes, core`partials, core`processes, core`calls, core.epochs
      ensures Valid() && OnlyStopped(id)
      ensures core.Became(id, W.Exec(old(core.CellOf(id)), core.here, id, op,
                                     WP.WithPulls(old(core.PartialsOf(id)), old(core.FilesOf(id)), op.manifest, pulls,
                                                  f.(guest := true))), reply)
      ensures reply.Refused? || (reply.Done? && PassesAgain(core.CellOf(id), op.epoch))
    {
      ghost var g := WP.WithPulls(core.PartialsOf(id), core.FilesOf(id), op.manifest, pulls, f.(guest := true));
      TransferredPassesAgain(core.CellOf(id), core.here, id, op, g);
      reply := core.TransferValidly(id, op, pulls, f.(guest := true));
      RetiredStays(id);
      StopIfFenced(id);
      StoppingIsInOrder(id);
    }

    method StopIfFenced(id: Sid)
      modifies this`relays
      ensures OnlyStopped(id)
    {
      if id in core.sandboxes && core.sandboxes[id].state.Fenced? {
        StopRelays(id);
      }
    }

    // ---- All other routes ----

    method Create(id: Sid, op: W.Op, pins: N.Pins, f: W.Faults) returns (reply: W.Reply)
      requires Valid() && (op.CreateOp? || op.PrepareOp?)
      modifies core, core.epochs, core.allocator`networkOwners
      ensures Valid()
      ensures core.Became(id, W.Exec(old(core.CellOf(id)), core.here, id, op,
                                     WC.WithNetwork(core.allocator.CanAllocate(old(core.allocator.networkOwners), id,
                                                                               WC.PinsOf(op, pins)), f)), reply)
    {
      ghost var c := core.CellOf(id);
      ghost var available := core.allocator.CanAllocate(core.allocator.networkOwners, id, WC.PinsOf(op, pins));
      reply := core.CreateValidly(id, op, pins, f);
      CreateKeepsQuarantine(c, core.here, id, op, WC.WithNetwork(available, f));
      OthersAreAsRetired(id);
      StoppingIsInOrder(id);
    }

    twostate lemma OthersAreAsRetired(id: Sid)
      requires core.OthersKept(id)
      ensures forall other | other != id :: Retired(other) == old(Retired(other))
    {
      forall other | other != id ensures Retired(other) == old(Retired(other)) {
        assert core.RecordOf(other) == old(core.RecordOf(other));
      }
    }

    /** A record that moves to quarantine gives all its ports back and has no relays. */
    method Retire(id: Sid, op: W.Op, f: W.Faults) returns (reply: W.Reply)
      requires Valid() && (op.QuarantineOp? || op.FenceAndCleanupOp?)
      modifies this`relays, core, core.epochs, core.allocator`networkOwners, core.allocator`portOwners
      ensures Valid()
      ensures core.Became(id, W.Exec(old(core.CellOf(id)), core.here, id, op, f), reply)
      ensures WC.MovesToQuarantine(old(core.RecordOf(id)), core.RecordOf(id)) ==>
                RelaysOf(id) == map[]
                && core.allocator.portOwners == A.PortsReleased(old(core.allocator.portOwners), core.allocator.name(id))
    {
      var stops := StopsRelays(core.CellOf(id), op, f);
      var before := core.RecordOf(id);
      reply := core.PerformRetiring(id, op, f);
      core.FollowingIsValid(id);
      OthersAreAsRetired(id);
      StopRetiring(id, stops || WC.MovesToQuarantine(before, core.RecordOf(id)));
      RetiringIsInOrder(id);
    }

    method StopRetiring(id: Sid, stops: bool)
      modifies this`relays
      ensures exposures == old(exposures) && OthersStay(id)
      ensures RelaysOf(id) == map[] || (!stops && RelaysOf(id) == old(RelaysOf(id)))
    {
      if stops {
        StopRelays(id);
      }
      StopIfFenced(id);
    }

    twostate lemma RetiringIsInOrder(id: Sid)
      requires core.allocator.Valid() && (forall other :: old(IsInOrder(other)))
      requires core.KeysFollow(id) && exposures == old(exposures) && OthersStay(id)
      requires RelaysOf(id) == map[]
            || (!WC.MovesToQuarantine(old(core.RecordOf(id)), core.RecordOf(id)) && RelaysOf(id) == old(RelaysOf(id)))
      requires forall other | other != id :: Retired(other) == old(Retired(other))
      ensures forall other :: IsInOrder(other)
    {
      if WC.MovesToQuarantine(old(core.RecordOf(id)), core.RecordOf(id)) {
        ReleasingIsInOrder(id);
      } else {
        StoppingIsInOrder(id);
      }
    }

    twostate lemma ReleasingIsInOrder(id: Sid)
      requires core.allocator.Valid() && (forall other :: old(IsInOrder(other)))
      requires core.allocator.portOwners == A.PortsReleased(old(core.allocator.portOwners), core.allocator.name(id))
      requires RelaysOf(id) == map[] && Retired(id) && exposures == old(exposures) && OthersStay(id)
      requires forall other | other != id :: Retired(other) == old(Retired(other))
      ensures forall other :: IsInOrder(other)
    {
      forall other ensures IsInOrder(other) {
        assert old(IsInOrder(other));
        ReleasingStaysInOrder(old(core.allocator.portOwners), core.allocator.name(other), old(ExposedAt(other)),
                              old(RelaysOf(other)), old(Retired(other)), core.allocator.name(id));
      }
    }

    method Serve(id: Sid, op: W.Op, f: W.Faults) returns (reply: W.Reply)
      requires Valid() && !op.CreateOp? && !op.PrepareOp? && !op.QuarantineOp? && !op.FenceAndCleanupOp? && !op.TransferOp?
      modifies this`relays, core`sandboxes, core`processes, core`calls, core`consumedSnapshots, core`manifests, core.epochs
      ensures Valid()
      ensures core.Became(id, W.Exec(old(core.CellOf(id)), core.here, id, op, f), reply)
    {
      reply := core.PerformInPlace(id, op, f);
      core.StayingIsValid(id);
      RetiredStays(id);
      StopIfFenced(id);
      StoppingIsInOrder(id);
    }

    /** Every route keeps exposures, relays and the port table in order, and does to its sandbox what
        the worker's function says. */
    method Perform(id: Sid, op: W.Op, pins: N.Pins, ports: seq<int>, fates: nat -> Fate, pulls: WP.Pulls, f: W.Faults)
      returns (reply: W.Reply, exposed: bool)
      requires Valid()
      modifies this, core, core.epochs, core.allocator`networkOwners, core.allocator`portOwners
      ensures Valid()
      ensures core.Became(id, W.Exec(old(core.CellOf(id)), core.here, id, op,
                                     WC.Happened(op, core.allocator.CanAllocate(old(core.allocator.networkOwners), id,
                                                                                WC.PinsOf(op, pins)),
                                                 old(core.PartialsOf(id)), old(core.FilesOf(id)), pulls,
                                                 if op.TransferOp? then f.(guest := exposed) else f)), reply)
    {
      exposed := false;
      if op.CreateOp? || op.PrepareOp? {
        reply := Create(id, op, pins, f);
      } else if op.TransferOp? {
        reply, exposed := TransferMigration(id, op, ports, fates, pulls, f);
      } else if op.QuarantineOp? || op.FenceAndCleanupOp? {
        reply := Retire(id, op, f);
      } else {
        reply := Serve(id, op, f);
      }
    }
  }

  /** Creating a sandbox neither puts its record in quarantine nor takes it out. */
  lemma CreateKeepsQuarantine(c: W.Cell, here: Wid, id: Sid, op: W.Op, f: W.Faults)
    requires op.CreateOp? || op.PrepareOp?
    ensures InQuarantine(W.Exec(c, here, id, op, f).cell) == InQuarantine(c)
  {
  }

  predicate InQuarantine(c: W.Cell) {
    c.record.Some? && c.record.value.quarantine.Some?
  }

  predicate HasFreePort(owners: A.PortOwners, base: int) {
    exists port | base <= port < A.PortEnd :: port !in owners
  }

  /** A direct quarantine stops the relays once its epoch is accepted. */
  predicate StopsRelays(c: W.Cell, op: W.Op, f: W.Faults) {
    && op.QuarantineOp? && c.record.Some? && !(c.record.value.state.Quarantined? && c.record.value.quarantine.Some?)
    && W.Accepts(c, op.epoch, f) && c.record.value.epoch <= op.epoch
  }

  predicate ExposesFirst(list: seq<Exposure>, ports: seq<int>, n: nat) {
    forall i | 0 <= i < n && i < |ports| :: Exposes(list, ports[i])
  }

  lemma ExposesOneMore(list: seq<Exposure>, ports: seq<int>, n: nat)
    requires n < |ports| && ExposesFirst(list, ports, n) && Exposes(list, ports[n])
    ensures ExposesFirst(list, ports, n + 1)
  {
  }

  lemma KeptOn(first: seq<Exposure>, list: seq<Exposure>, later: seq<Exposure>, ports: seq<int>, n: nat)
    requires Kept(first, list) && Kept(list, later) && ExposesFirst(list, ports, n)
    ensures Kept(first, later) && ExposesFirst(later, ports, n)
  {
  }

  predicate Kept(list: seq<Exposure>, later: seq<Exposure>) {
    forall e | e in list :: e in later
  }

  /** A request at the accepted epoch of a record that is not fenced passes without a trace. */
  predicate PassesAgain(c: W.Cell, epoch: nat) {
    && c.record.Some? && !c.record.value.state.Fenced?
    && c.record.value.epoch <= epoch == c.accepted && epoch <= E.MaxSafeInteger
  }

  lemma PassingAgain(c: W.Cell, epoch: nat, f: W.Faults)
    requires PassesAgain(c, epoch)
    ensures W.MutableRecord(c, epoch, None, f) == W.Gate(c, true, [])
    ensures forall ok :: W.GuestCall(c, epoch, None, f.(guest := ok)) == W.Outcome(c, if ok then W.Done else W.Refused, [])
  {
    forall ok ensures W.GuestCall(c, epoch, None, f.(guest := ok)) == W.Outcome(c, if ok then W.Done else W.Refused, []) {
      GuestCallAnswers(c, epoch, ok, f);
    }
  }

  lemma TransferredPassesAgain(c: W.Cell, here: Wid, id: Sid, op: W.Op, g: W.Faults)
    requires op.TransferOp?
    ensures var o := W.Exec(c, here, id, op, g);
            o.reply.Refused? || (o.reply.Done? && PassesAgain(o.cell, op.epoch))
  {
    var admitted := W.AdmitTransfer(c, id, op.epoch, op.m, op.manifest, g);
    if admitted.passed {
      AdmittedPassesAgain(c, id, op, g);
      RecordPassesAgain(admitted.cell, op.epoch, op.manifest, g);
    }
  }

  lemma AdmittedPassesAgain(c: W.Cell, id: Sid, op: W.Op, g: W.Faults)
    requires op.TransferOp? && W.AdmitTransfer(c, id, op.epoch, op.m, op.manifest, g).passed
    ensures PassesAgain(W.AdmitTransfer(c, id, op.epoch, op.m, op.manifest, g).cell, op.epoch)
  {
  }

  lemma RecordPassesAgain(c: W.Cell, epoch: nat, manifest: Manifest, g: W.Faults)
    requires PassesAgain(c, epoch)
    ensures var o := W.TransferRecord(c, manifest, g);
            (o.reply.Refused? || o.reply.Done?) && PassesAgain(o.cell, epoch)
  {
  }

  /** Whether the ports were exposed decides only the answer. */
  lemma TransferAnswers(c: W.Cell, here: Wid, id: Sid, op: W.Op, ok: bool, g: W.Faults)
    requires op.TransferOp?
    ensures var o := W.Exec(c, here, id, op, g.(guest := true));
            W.Exec(c, here, id, op, g.(guest := ok)) == o.(reply := if ok then o.reply else W.Refused)
  {
    AdmissionIsTheSame(c, id, op, ok, g);
    var admitted := W.AdmitTransfer(c, id, op.epoch, op.m, op.manifest, g.(guest := true));
    if admitted.passed {
      RecordAnswers(admitted.cell, op.manifest, ok, g);
    }
  }

  lemma AdmissionIsTheSame(c: W.Cell, id: Sid, op: W.Op, ok: bool, g: W.Faults)
    requires op.TransferOp?
    ensures W.AdmitTransfer(c, id, op.epoch, op.m, op.manifest, g.(guest := ok))
         == W.AdmitTransfer(c, id, op.epoch, op.m, op.manifest, g.(guest := true))
  {
  }

  lemma RecordAnswers(c: W.Cell, manifest: Manifest, ok: bool, g: W.Faults)
    requires c.record.Some?
    ensures var o := W.TransferRecord(c, manifest, g.(guest := true));
            W.TransferRecord(c, manifest, g.(guest := ok)) == o.(reply := if ok then o.reply else W.Refused)
  {
    assert W.Renamed(manifest, g.(guest := ok)) == W.Renamed(manifest, g.(guest := true));
    assert W.Committed(manifest, g.(guest := ok)) == W.Committed(manifest, g.(guest := true));
  }

  lemma PullsAnswer(c: W.Cell, here: Wid, id: Sid, op: W.Op, ok: bool, partials: WP.Partials, files: map<Kind, Bytes>,
                    pulls: WP.Pulls, f: W.Faults)
    requires op.TransferOp?
    ensures var o := W.Exec(c, here, id, op, WP.WithPulls(partials, files, op.manifest, pulls, f.(guest := true)));
            W.Exec(c, here, id, op, WP.WithPulls(partials, files, op.manifest, pulls, f.(guest := ok)))
              == o.(reply := if ok then o.reply else W.Refused)
  {
    PullsKeepGuest(partials, files, op.manifest, pulls, f, ok);
    PullsKeepGuest(partials, files, op.manifest, pulls, f, true);
    TransferAnswers(c, here, id, op, ok, WP.WithPulls(partials, files, op.manifest, pulls, f));
  }

  lemma PullsKeepGuest(partials: WP.Partials, files: map<Kind, Bytes>, manifest: Manifest, pulls: WP.Pulls,
                       f: W.Faults, ok: bool)
    ensures WP.WithPulls(partials, files, manifest, pulls, f.(guest := ok))
         == WP.WithPulls(partials, files, manifest, pulls, f).(guest := ok)
  {
  }

  lemma GuestCallAnswers(c: W.Cell, epoch: nat, ok: bool, f: W.Faults)
    ensures var g := W.MutableRecord(c, epoch, None, f);
            W.GuestCall(c, epoch, None, f.(guest := ok))
              == W.Outcome(g.cell, if g.passed && ok then W.Done else W.Refused, g.calls)
  {
    assert W.MutableRecord(c, epoch, None, f.(guest := ok)) == W.MutableRecord(c, epoch, None, f);
  }
}
