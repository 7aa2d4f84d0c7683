/** The resource allocator as it runs: two maps changed in place by probing loops. */
module Allocator {
  import opened Prelude
  import opened Decimal
  import opened Network
  import opened Allocation

  datatype AllocationError = NameTooLong | Collision | NoCapacity | InvalidGuestPort

  class ResourceAllocator {
    const worker: string
    const portBase: int
    /** The identifier of a sandbox, SHA-256, and the network derived for an attempt. */
    const name: Sid -> string
    const sha256: string -> Digest
    const derive: (Sid, nat) -> Identity
    var networkOwners: NetworkOwners
    var portOwners: PortOwners

    ghost predicate Valid() {
      && IsBase(portBase)
      && (forall id :: IsIdentifier(name(id)))
      && (forall a, b :: name(a) == name(b) ==> a == b)
      && Derives() && ShortNames()
    }

    ghost predicate ShortNames() {
      forall id, attempt :: NamesFit(derive(id, attempt))
    }

    ghost predicate Derives() {
      forall id, attempt :: IsDerived(derive(id, attempt))
    }

    constructor (worker: string, portBase: int, name: Sid -> string, sha256: string -> Digest)
      requires IsBase(portBase)
      requires forall id :: IsIdentifier(name(id))
      requires forall a, b :: name(a) == name(b) ==> a == b
      ensures Valid() && networkOwners == map[] && portOwners == map[]
      ensures this.worker == worker && this.portBase == portBase && this.name == name && this.sha256 == sha256
      ensures forall id, attempt: nat :: derive(id, attempt) == Derived(sha256(Preimage(worker, name(id), attempt)))
    {
      this.worker := worker;
      this.portBase := portBase;
      this.name := name;
      this.sha256 := sha256;
      derive := (id: Sid, attempt: nat) => Derived(sha256(Preimage(worker, name(id), attempt)));
      networkOwners := map[];
      portOwners := map[];
      new;
      forall id, attempt: nat ensures IsDerived(derive(id, attempt)) && NamesFit(derive(id, attempt)) {
        assert derive(id, attempt) == Derived(sha256(Preimage(worker, name(id), attempt)));
        DerivedNamesFit(derive(id, attempt));
      }
    }

    // ---- Networks ----

    function Candidate(id: Sid, pins: Pins, attempt: nat): Identity {
      Pinned(pins, derive(id, attempt))
    }

    predicate Free(owners: NetworkOwners, id: Sid, pins: Pins, attempt: nat) {
      IsFree(owners, id, KeysOf(Candidate(id, pins, attempt)))
    }

    predicate NoneFree(owners: NetworkOwners, id: Sid, pins: Pins, attempts: nat) {
      attempts == 0 || (NoneFree(owners, id, pins, attempts - 1) && !Free(owners, id, pins, attempts - 1))
    }

    lemma {:induction false} NoneFreeMeansNone(owners: NetworkOwners, id: Sid, pins: Pins, attempts: nat)
      ensures NoneFree(owners, id, pins, attempts)
         <==> forall attempt | 0 <= attempt < attempts :: !Free(owners, id, pins, attempt)
    {
      if attempts > 0 {
        NoneFreeMeansNone(owners, id, pins, attempts - 1);
      }
    }

    /** A request that pins anything has one attempt. */
    function Attempts(pins: Pins): nat {
      if pins == Unpinned then MaxAttempts else 1
    }

    ghost predicate CanAllocate(owners: NetworkOwners, id: Sid, pins: Pins) {
      PinsFit(pins) && !NoneFree(owners, id, pins, Attempts(pins))
    }

    /** There is a network exactly if the pins are short enough and one of 1024 attempts, or the only
        attempt if anything is pinned, is free. */
    lemma AllocationIsExact(owners: NetworkOwners, id: Sid, pins: Pins)
      ensures CanAllocate(owners, id, pins)
         <==> PinsFit(pins)
              && exists attempt: nat :: (attempt == 0 || (pins == Unpinned && attempt < 1024)) && Free(owners, id, pins, attempt)
    {
      NoneFreeMeansNone(owners, id, pins, Attempts(pins));
    }

    /** What was pinned is taken as it is. */
    predicate KeepsPins(pins: Pins, identity: Identity) {
      && (pins.netns.Some? ==> identity.netns == pins.netns.value)
      && (pins.hostVeth.Some? ==> identity.hostVeth == pins.hostVeth.value)
      && (pins.hostAddress.Some? ==> identity.hostAddress == pins.hostAddress.value)
      && (pins.namespaceAddress.Some? ==> identity.namespaceAddress == pins.namespaceAddress.value)
    }

    /** The first attempt whose keys no other sandbox holds. */
    ghost predicate IsFirstFree(owners: NetworkOwners, id: Sid, pins: Pins, attempt: nat) {
      attempt < Attempts(pins) && Free(owners, id, pins, attempt) && NoneFree(owners, id, pins, attempt)
    }

    /** The keys of a network derived for the sandbox in some attempt. */
    ghost predicate IsAttempt(id: Sid, keys: Keys) {
      exists attempt: nat :: keys == KeysOf(derive(id, attempt))
    }

    method AllocateNetwork(id: Sid, pins: Pins) returns (outcome: Result<Identity, AllocationError>)
      requires ShortNames()
      modifies this`networkOwners
      ensures match outcome
              case Ok(identity) =>
                && (pins == Unpinned ==> IsAttempt(id, KeysOf(identity)))
                && KeepsPins(pins, identity) && NamesFit(identity) && CanAllocate(old(networkOwners), id, pins)
                && (exists attempt ::
                      IsFirstFree(old(networkOwners), id, pins, attempt) && identity == Candidate(id, pins, attempt))
                && networkOwners == Claimed(old(networkOwners), id, KeysOf(identity))
              case Err(error) =>
                && networkOwners == old(networkOwners) && !CanAllocate(networkOwners, id, pins)
                && match error
                   case NameTooLong => !PinsFit(pins)
                   case Collision => pins != Unpinned && NoneFree(networkOwners, id, pins, Attempts(pins))
                   case NoCapacity => pins == Unpinned && NoneFree(networkOwners, id, pins, Attempts(pins))
                   case InvalidGuestPort => false
    {
      var pinned := pins != Unpinned;
      for attempt := 0 to MaxAttempts
        invariant networkOwners == old(networkOwners)
        invariant pinned ==> attempt == 0
        invariant attempt > 0 ==> PinsFit(pins)
        invariant NoneFree(networkOwners, id, pins, attempt)
      {
        var network, fits, collision := Try(id, pins, attempt);
        if !fits {
          return Err(NameTooLong);
        }
        if collision && !pinned {
          continue;
        }
        if collision {
          return Err(Collision);
        }
        NoneFreeMeansNone(networkOwners, id, pins, Attempts(pins));
        networkOwners := Claimed(networkOwners, id, KeysOf(network));
        return Ok(network);
      }
      outcome := Err(NoCapacity);
    }

    method Try(id: Sid, pins: Pins, attempt: nat) returns (network: Identity, fits: bool, collision: bool)
      requires ShortNames()
      ensures network == Candidate(id, pins, attempt)
      ensures fits == PinsFit(pins) == NamesFit(network)
      ensures collision <==> !Free(networkOwners, id, pins, attempt)
    {
      network := Candidate(id, pins, attempt);
      CandidateNamesFit(id, pins, attempt);
      fits := NamesFit(network);
      collision := Collides(id, KeysOf(network));
    }

    /** Derived names always fit, so only pinned ones can be too long. */
    lemma CandidateNamesFit(id: Sid, pins: Pins, attempt: nat)
      requires ShortNames()
      ensures NamesFit(Candidate(id, pins, attempt)) <==> PinsFit(pins)
    {
    }

    predicate Collides(id: Sid, keys: Keys): (collides: bool)
      reads this`networkOwners
      ensures collides <==> !IsFree(networkOwners, id, keys)
    {
      CollidesAt(id, keys.netns) || CollidesAt(id, keys.veth) || CollidesAt(id, keys.subnet)
    }

    predicate CollidesAt(id: Sid, key: Resource)
      reads this`networkOwners
    {
      key in networkOwners && networkOwners[key] != id
    }

    method ReleaseNetwork(id: Sid, keys: Keys)
      modifies this`networkOwners
      ensures networkOwners == Released(old(networkOwners), id, keys)
    {
      ReleaseKey(id, keys.netns);
      ReleaseKey(id, keys.veth);
      ReleaseKey(id, keys.subnet);
    }

    method ReleaseKey(id: Sid, key: Resource)
      modifies this`networkOwners
      ensures networkOwners == map k | k in old(networkOwners) && !(k == key && old(networkOwners)[k] == id)
                                 :: old(networkOwners)[k]
    {
      if key in networkOwners && networkOwners[key] == id {
        networkOwners := networkOwners - {key};
      }
    }

    // ---- Ports ----

    /** The host port that the digest of a guest port prefers. */
    function Preferred(id: Sid, guestPort: nat): (port: nat)
      requires IsBase(portBase)
      ensures portBase <= port < PortEnd
    {
      PreferredPort(portBase, sha256(Preimage(worker, name(id), guestPort)))
    }

    /** Gives the guest port a host port; it fails only if other owners hold the whole range. */
    method AllocatePort(id: Sid, guestPort: int) returns (outcome: Result<nat, AllocationError>)
      requires Valid()
      modifies this`portOwners
      ensures match outcome
              case Ok(port) =>
                && 1 <= guestPort <= 65535 && portBase <= port < PortEnd
                && Allocates(old(portOwners), portOwners, portBase,
                             PortRequest(OwnerOf(name(id), guestPort), Preferred(id, guestPort)), port)
                && (port in old(portOwners) ==> portOwners == old(portOwners))
              case Err(error) =>
                && portOwners == old(portOwners)
                && match error
                   case InvalidGuestPort => !(1 <= guestPort <= 65535)
                   case NoCapacity =>
                     && 1 <= guestPort <= 65535
                     && forall port | portBase <= port < PortEnd ::
                          HeldByOther(portOwners, OwnerOf(name(id), guestPort), port)
                   case _ => false
    {
      if guestPort < 1 || guestPort > 65535 {
        return Err(InvalidGuestPort);
      }
      var preferred := Preferred(id, guestPort);
      var owner := OwnerOf(name(id), guestPort);
      var available := PortEnd - portBase;
      for offset := 0 to available
        invariant portOwners == old(portOwners)
        invariant forall earlier: nat | earlier < offset ::
                    HeldByOther(portOwners, owner, PortAt(portBase, preferred, earlier))
      {
        var port := portBase + (preferred - portBase + offset) % available;
        assert port == PortAt(portBase, preferred, offset);
        if port !in portOwners || portOwners[port] == owner {
          assert FoundAfter(portOwners, owner, portBase, preferred, offset);
          portOwners := portOwners[port := owner];
          return Ok(port);
        }
      }
      forall port | portBase <= port < PortEnd ensures HeldByOther(portOwners, owner, port) {
        var offset := ProbeVisitsEveryPortOnce(portBase, preferred, port);
      }
      outcome := Err(NoCapacity);
    }

    method ReleasePort(port: nat)
      modifies this`portOwners
      ensures portOwners == old(portOwners) - {port}
    {
      portOwners := portOwners - {port};
    }

    /** Frees the ports of one sandbox, walking the table while it shrinks. */
    method ReleasePorts(id: Sid)
      modifies this`portOwners
      ensures portOwners == PortsReleased(old(portOwners), name(id))
    {
      var prefix := name(id) + ":";
      var rest: set<nat> := portOwners.Keys;
      while rest != {}
        invariant rest <= portOwners.Keys
        invariant portOwners == map port | port in old(portOwners)
                                  && (port in rest || !StartsWith(old(portOwners)[port], prefix))
                                  :: old(portOwners)[port]
      {
        var port :| port in rest;
        rest := rest - {port};
        if StartsWith(portOwners[port], prefix) {
          portOwners := portOwners - {port};
        }
      }
    }
  }
}
