/** Guest ports that a worker exposes on its host: how what each record says, the relays that run
    and the allocator's port table agree. */
module GuestPorts {
  import opened Allocation

  datatype Exposure = Exposure(guestPort: nat, port: nat)

  predicate Owned(owners: PortOwners, name: string, e: Exposure) {
    e.port in owners && owners[e.port] == OwnerOf(name, e.guestPort)
  }

  predicate OnePortEach(list: seq<Exposure>) {
    forall i, j | 0 <= i < |list| && 0 <= j < |list| && list[i].guestPort == list[j].guestPort :: i == j
  }

  predicate Exposes(list: seq<Exposure>, guestPort: int) {
    exists e :: e in list && e.guestPort == guestPort
  }

  /** For one sandbox: it owns only ports it exposes, all of them until it moves to quarantine, and
      every relay that runs listens at a port it owns. */
  ghost predicate InOrder(owners: PortOwners, name: string, list: seq<Exposure>, relays: map<nat, nat>, retired: bool) {
    && OnePortEach(list)
    && (forall e | Owned(owners, name, e) :: e in list)
    && (!retired ==> forall e | e in list :: Owned(owners, name, e))
    && (forall guestPort | guestPort in relays :: Owned(owners, name, Exposure(guestPort, relays[guestPort])))
  }

  // ---- What agreement means ----

  /** An owner never holds two ports, so the allocator is never asked for one that has one. */
  lemma OneHostPortPerGuestPort(owners: PortOwners, name: string, list: seq<Exposure>, relays: map<nat, nat>, retired: bool,
                                guestPort: nat, p: nat, q: nat)
    requires InOrder(owners, name, list, relays, retired)
    requires Owned(owners, name, Exposure(guestPort, p)) && Owned(owners, name, Exposure(guestPort, q))
    ensures p == q
  {
    var i :| 0 <= i < |list| && list[i] == Exposure(guestPort, p);
    var j :| 0 <= j < |list| && list[j] == Exposure(guestPort, q);
  }

  /** No two relays of a worker listen at the same host port, so a host port leads to one guest
      port of one sandbox. */
  lemma HostPortsLeadToOneSandbox(owners: PortOwners, a: string, listA: seq<Exposure>, relaysA: map<nat, nat>, retiredA: bool,
                                  b: string, listB: seq<Exposure>, relaysB: map<nat, nat>, retiredB: bool, p: nat, q: nat)
    requires IsIdentifier(a) && IsIdentifier(b)
    requires InOrder(owners, a, listA, relaysA, retiredA) && InOrder(owners, b, listB, relaysB, retiredB)
    requires p in relaysA && q in relaysB && relaysA[p] == relaysB[q]
    ensures a == b && p == q
  {
    OwnersAreDistinct(a, p, b, q);
  }

  /** The same of what two records say, as long as neither is in quarantine. */
  lemma LiveExposuresAreDistinct(owners: PortOwners, a: string, listA: seq<Exposure>, relaysA: map<nat, nat>,
                                 b: string, listB: seq<Exposure>, relaysB: map<nat, nat>, e: Exposure, f: Exposure)
    requires IsIdentifier(a) && IsIdentifier(b)
    requires InOrder(owners, a, listA, relaysA, false) && InOrder(owners, b, listB, relaysB, false)
    requires e in listA && f in listB && e.port == f.port
    ensures a == b && e.guestPort == f.guestPort
  {
    OwnersAreDistinct(a, e.guestPort, b, f.guestPort);
  }

  /** A record in quarantine keeps its exposures, and the port it names may by then be another
      sandbox's: the same port is exposed, released and given away. */
  lemma RetiredExposureNamesAnothersPort(a: string, b: string, guestPort: nat, base: int, preferred: int)
    requires IsIdentifier(a) && IsIdentifier(b) && a != b && IsBase(base) && base <= preferred < PortEnd
    ensures var e := Exposure(guestPort, preferred);
            var first: PortOwners := map[preferred := OwnerOf(a, guestPort)];
            var later: PortOwners := map[preferred := OwnerOf(b, guestPort)];
            && Allocates(map[], first, base, PortRequest(OwnerOf(a, guestPort), preferred), preferred)
            && Allocates(PortsReleased(first, a), later, base, PortRequest(OwnerOf(b, guestPort), preferred), preferred)
            && InOrder(later, a, [e], map[], true) && InOrder(later, b, [e], map[guestPort := preferred], false)
  {
    var first: PortOwners := map[preferred := OwnerOf(a, guestPort)];
    var later: PortOwners := map[preferred := OwnerOf(b, guestPort)];
    PreferredIsFound(OwnerOf(a, guestPort), base, preferred);
    PreferredIsFound(OwnerOf(b, guestPort), base, preferred);
    ReleaseIsExact(first, a, preferred, a, guestPort);
    assert PortsReleased(first, a) == map[];
    forall e | Owned(later, a, e) ensures false {
      OwnersAreDistinct(a, e.guestPort, b, guestPort);
    }
    forall e | Owned(later, b, e) ensures e == Exposure(guestPort, preferred) {
      OwnersAreDistinct(b, e.guestPort, b, guestPort);
    }
  }

  lemma PreferredIsFound(owner: string, base: int, preferred: int)
    requires IsBase(base) && base <= preferred < PortEnd
    ensures Found(map[], owner, base, preferred, preferred)
  {
    assert PortAt(base, preferred, 0) == preferred;
    assert FoundAfter(map[], owner, base, preferred, 0);
  }

  // ---- What each change keeps ----

  /** A guest port without an exposure is given a port that nobody had. */
  lemma UnexposedGetsAFreePort(owners: PortOwners, name: string, list: seq<Exposure>, relays: map<nat, nat>, retired: bool,
                               guestPort: nat, base: int, preferred: int, port: nat)
    requires IsBase(base) && InOrder(owners, name, list, relays, retired) && !Exposes(list, guestPort)
    requires Found(owners, OwnerOf(name, guestPort), base, preferred, port)
    ensures port !in owners && guestPort !in relays
  {
    if port in owners {
      assert Owned(owners, name, Exposure(guestPort, port));
    }
  }

  lemma ExposingStaysInOrder(owners: PortOwners, name: string, list: seq<Exposure>, relays: map<nat, nat>, retired: bool,
                             guestPort: nat, port: nat)
    requires IsIdentifier(name) && InOrder(owners, name, list, relays, retired)
    requires !Exposes(list, guestPort) && port !in owners
    ensures InOrder(owners[port := OwnerOf(name, guestPort)], name, list + [Exposure(guestPort, port)],
                    relays[guestPort := port], retired)
  {
    var later, longer := owners[port := OwnerOf(name, guestPort)], list + [Exposure(guestPort, port)];
    forall e | Owned(later, name, e) ensures e in longer {
      if e.port == port {
        OwnersAreDistinct(name, e.guestPort, name, guestPort);
      } else {
        assert Owned(owners, name, e);
      }
    }
    forall i | 0 <= i < |list| ensures list[i].guestPort != guestPort {
      assert list[i] in list;
    }
  }

  lemma OthersStayInOrder(owners: PortOwners, name: string, list: seq<Exposure>, relays: map<nat, nat>, retired: bool,
                          other: string, guestPort: nat, port: nat)
    requires IsIdentifier(name) && IsIdentifier(other) && name != other && port !in owners
    requires InOrder(owners, name, list, relays, retired)
    ensures InOrder(owners[port := OwnerOf(other, guestPort)], name, list, relays, retired)
  {
    var later := owners[port := OwnerOf(other, guestPort)];
    forall e ensures Owned(later, name, e) <==> Owned(owners, name, e) {
      if e.port == port && OwnerOf(other, guestPort) == OwnerOf(name, e.guestPort) {
        OwnersAreDistinct(name, e.guestPort, other, guestPort);
      }
    }
  }

  lemma StoppedStaysInOrder(owners: PortOwners, name: string, list: seq<Exposure>, relays: map<nat, nat>, retired: bool)
    requires InOrder(owners, name, list, relays, retired)
    ensures InOrder(owners, name, list, map[], retired)
  {
  }

  lemma ReleasingStaysInOrder(owners: PortOwners, name: string, list: seq<Exposure>, relays: map<nat, nat>, retired: bool,
                              other: string)
    requires IsIdentifier(name) && IsIdentifier(other) && InOrder(owners, name, list, relays, retired)
    ensures name != other ==> InOrder(PortsReleased(owners, other), name, list, relays, retired)
    ensures name == other ==> InOrder(PortsReleased(owners, other), name, list, map[], true)
  {
    forall e ensures Owned(PortsReleased(owners, other), name, e) <==> Owned(owners, name, e) && name != other {
      if Owned(owners, name, e) {
        ReleaseIsExact(owners, other, e.port, name, e.guestPort);
      }
    }
  }
}
