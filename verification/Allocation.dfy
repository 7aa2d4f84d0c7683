/** What the resource allocator decides, as relations between its tables, and what they keep. */
module Allocation {
  import opened Prelude
  import opened Decimal
  import opened Network

  // ---- Network keys ----

  type NetworkOwners = map<Resource, Sid>

  const MaxAttempts := 1024

  /** No other sandbox holds one of the keys. */
  predicate IsFree(owners: NetworkOwners, id: Sid, keys: Keys) {
    forall key | key in owners && Among(key, keys) :: owners[key] == id
  }

  function Claimed(owners: NetworkOwners, id: Sid, keys: Keys): NetworkOwners {
    owners[keys.netns := id][keys.veth := id][keys.subnet := id]
  }

  function Released(owners: NetworkOwners, id: Sid, keys: Keys): NetworkOwners {
    map key | key in owners && !(Among(key, keys) && owners[key] == id) :: owners[key]
  }

  /** The sandboxes that should hold keys own all of theirs, and nobody owns any other key. */
  ghost predicate Agree(owners: NetworkOwners, live: map<Sid, Keys>) {
    && (forall id, key | id in live && Among(key, live[id]) :: key in owners && owners[key] == id)
    && (forall key | key in owners :: owners[key] in live && Among(key, live[owners[key]]))
  }

  lemma ClaimedKeys(owners: NetworkOwners, id: Sid, keys: Keys)
    ensures var later := Claimed(owners, id, keys);
            forall key :: if Among(key, keys) then key in later && later[key] == id
                          else (key in later <==> key in owners) && (key in owners ==> later[key] == owners[key])
  {
  }

  lemma ClaimAgrees(owners: NetworkOwners, live: map<Sid, Keys>, id: Sid, keys: Keys)
    requires Agree(owners, live) && id !in live && IsFree(owners, id, keys)
    ensures Agree(Claimed(owners, id, keys), live[id := keys])
  {
    var later, lives := Claimed(owners, id, keys), live[id := keys];
    ClaimedKeys(owners, id, keys);
    forall other, key | other in lives && Among(key, lives[other]) ensures key in later && later[key] == other {
      if other != id {
        assert Among(key, live[other]);
        assert owners[key] == other;
      }
    }
  }

  lemma ReleaseAgrees(owners: NetworkOwners, live: map<Sid, Keys>, id: Sid)
    requires Agree(owners, live) && id in live
    ensures Agree(Released(owners, id, live[id]), live - {id})
  {
  }

  lemma NothingToRelease(owners: NetworkOwners, live: map<Sid, Keys>, id: Sid, keys: Keys)
    requires Agree(owners, live) && id !in live
    ensures Released(owners, id, keys) == owners
  {
  }

  predicate HoldsNothing(owners: NetworkOwners, id: Sid) {
    id !in owners.Values
  }

  lemma DeadHoldNothing(owners: NetworkOwners, live: map<Sid, Keys>, id: Sid)
    requires Agree(owners, live) && id !in live
    ensures HoldsNothing(owners, id)
  {
  }

  /** A claim that is released at once leaves no trace. */
  lemma ReleaseUndoesClaim(owners: NetworkOwners, id: Sid, keys: Keys)
    requires HoldsNothing(owners, id) && IsFree(owners, id, keys)
    ensures Released(Claimed(owners, id, keys), id, keys) == owners
  {
    assert forall key | key in owners :: owners[key] != id && !Among(key, keys);
  }

  lemma KeysHaveOneOwner(owners: NetworkOwners, live: map<Sid, Keys>, a: Sid, b: Sid, key: Resource)
    requires Agree(owners, live) && a in live && b in live
    requires Among(key, live[a]) && Among(key, live[b])
    ensures a == b
  {
    assert owners[key] == a;
  }

  /** Live sandboxes whose addresses were derived have disjoint subnets. */
  lemma LiveSubnetsAreDisjoint(owners: NetworkOwners, live: map<Sid, Keys>, a: Sid, b: Sid,
                               digestA: Digest, digestB: Digest, address: nat)
    requires Agree(owners, live) && a in live && b in live && a != b
    requires live[a] == KeysOf(Derived(digestA)) && live[b] == KeysOf(Derived(digestB))
    ensures !(InBlock(address, BlockOf(digestA)) && InBlock(address, BlockOf(digestB)))
  {
    if InBlock(address, BlockOf(digestA)) && InBlock(address, BlockOf(digestB)) {
      OverlapMeansSameKey(digestA, digestB, address);
      KeysHaveOneOwner(owners, live, a, b, live[a].subnet);
    }
  }

  // ---- Ports ----

  type PortOwners = map<nat, string>

  const PortEnd := 65536

  predicate IsBase(base: int) {
    1 <= base < PortEnd
  }

  /** The port that a probe beginning at `preferred` visits after `offset` steps. */
  function PortAt(base: int, preferred: int, offset: nat): nat
    requires IsBase(base)
  {
    base + (preferred - base + offset) % (PortEnd - base)
  }

  function BigEndian(a: int, b: int, c: int, d: int): int {
    a * 0x100_0000 + b * 0x1_0000 + c * 0x100 + d
  }

  /** The port that a digest prefers. */
  function PreferredPort(base: int, digest: Digest): (port: nat)
    requires IsBase(base)
    ensures base <= port < PortEnd
  {
    base + BigEndian(digest[0], digest[1], digest[2], digest[3]) % (PortEnd - base)
  }

  /** Every port of the range is preferred by some digest, so the whole range is used. */
  lemma EveryPortIsPreferred(base: int, port: nat) returns (digest: Digest)
    requires IsBase(base) && base <= port < PortEnd
    ensures PreferredPort(base, digest) == port
  {
    var high: Byte, low: Byte := (port - base) / 0x100, (port - base) % 0x100;
    digest := [0, 0, high, low] + seq(28, _ => 0);
    SmallModulo(port - base, PortEnd - base);
    assert digest[0] == digest[1] == 0 && digest[2] == high && digest[3] == low;
  }

  lemma SmallModulo(x: int, n: int)
    requires 0 <= x < n
    ensures x % n == x
  {
  }

  predicate HeldByOther(owners: PortOwners, owner: string, port: nat) {
    port in owners && owners[port] != owner
  }

  /** `port` is the first on the way that is free or already the owner's. */
  ghost predicate Found(owners: PortOwners, owner: string, base: int, preferred: int, port: nat)
    requires IsBase(base)
  {
    exists offset: nat :: FoundAfter(owners, owner, base, preferred, offset) && port == PortAt(base, preferred, offset)
  }

  ghost predicate FoundAfter(owners: PortOwners, owner: string, base: int, preferred: int, offset: nat)
    requires IsBase(base)
  {
    && offset < PortEnd - base
    && !HeldByOther(owners, owner, PortAt(base, preferred, offset))
    && forall earlier: nat | earlier < offset :: HeldByOther(owners, owner, PortAt(base, preferred, earlier))
  }

  /** A probe visits every port of the range, and each once. */
  lemma ProbeVisitsEveryPortOnce(base: int, preferred: int, port: nat) returns (offset: nat)
    requires IsBase(base) && base <= port < PortEnd
    ensures offset < PortEnd - base && PortAt(base, preferred, offset) == port
    ensures forall other: nat | other < PortEnd - base && PortAt(base, preferred, other) == port :: other == offset
  {
    var n := PortEnd - base;
    offset := (port - preferred) % n;
    ReachesOffset(preferred - base, port - base, n);
    forall other: nat | other < n && PortAt(base, preferred, other) == port ensures other == offset {
      SameRemainder(preferred - base + offset, preferred - base + other, n);
    }
  }

  lemma ReachesOffset(from: int, to: nat, n: nat)
    requires to < n
    ensures (from + (to - from) % n) % n == to
  {
    ModuloOfSum(from, to - from, n);
    QuotientIsUnique(to, 0, to, n);
  }

  lemma ModuloOfSum(a: int, b: int, n: int)
    requires n > 0
    ensures (a + b % n) % n == (a + b) % n
  {
    SameQuotient(a + b % n, b / n, n);
    assert a + b == a + b % n + b / n * n;
  }

  lemma SameQuotient(x: int, k: int, n: int)
    requires n > 0
    ensures (x + k * n) % n == x % n
  {
    var q, r := x / n, x % n;
    assert x + k * n == (q + k) * n + r;
    QuotientIsUnique(x + k * n, q + k, r, n);
  }

  lemma Multiples(d: int, n: int)
    requires n > 0
    ensures d >= 1 ==> d * n >= n
    ensures d <= -1 ==> d * n <= -n
  {
    if d >= 1 {
      assert (d - 1) * n >= 0;
    } else if d <= -1 {
      assert (-1 - d) * n >= 0;
    }
  }

  lemma QuotientIsUnique(x: int, q: int, r: int, n: int)
    requires n > 0 && 0 <= r < n && x == q * n + r
    ensures x / n == q && x % n == r
  {
    var d := x / n - q;
    assert d * n == r - x % n;
    assert -n < d * n < n;
    Multiples(d, n);
  }

  lemma SameRemainder(x: int, y: int, n: int)
    requires n > 0 && x % n == y % n && -n < x - y < n
    ensures x == y
  {
    var d := x / n - y / n;
    assert d * n == x - y;
    Multiples(d, n);
  }

  /** A probe ends nowhere exactly if other owners hold every port of the range. */
  lemma ProbeFailsOnlyWhenFull(owners: PortOwners, owner: string, base: int, preferred: int)
    requires IsBase(base)
    ensures (forall port :: !Found(owners, owner, base, preferred, port))
       <==> forall port | base <= port < PortEnd :: HeldByOther(owners, owner, port)
  {
    if forall port | base <= port < PortEnd :: HeldByOther(owners, owner, port) {
      forall port ensures !Found(owners, owner, base, preferred, port) {
      }
    } else {
      var port :| base <= port < PortEnd && !HeldByOther(owners, owner, port);
      var offset := ProbeVisitsEveryPortOnce(base, preferred, port);
      var first := FirstNotHeld(owners, owner, base, preferred, offset);
      assert Found(owners, owner, base, preferred, PortAt(base, preferred, first));
    }
  }

  lemma {:induction false} FirstNotHeld(owners: PortOwners, owner: string, base: int, preferred: int, offset: nat)
    returns (first: nat)
    requires IsBase(base) && offset < PortEnd - base
    requires !HeldByOther(owners, owner, PortAt(base, preferred, offset))
    ensures first <= offset && FoundAfter(owners, owner, base, preferred, first)
  {
    if earlier: nat :| earlier < offset && !HeldByOther(owners, owner, PortAt(base, preferred, earlier)) {
      first := FirstNotHeld(owners, owner, base, preferred, earlier);
    } else {
      first := offset;
    }
  }

  lemma FoundIsUnique(owners: PortOwners, owner: string, base: int, preferred: int, p: nat, q: nat)
    requires IsBase(base)
    requires Found(owners, owner, base, preferred, p) && Found(owners, owner, base, preferred, q)
    ensures p == q
  {
    var i: nat :| FoundAfter(owners, owner, base, preferred, i) && p == PortAt(base, preferred, i);
    var j: nat :| FoundAfter(owners, owner, base, preferred, j) && q == PortAt(base, preferred, j);
  }

  /** A request for a host port, with what the digest prefers. */
  datatype PortRequest = PortRequest(owner: string, preferred: int)

  ghost predicate Allocates(owners: PortOwners, later: PortOwners, base: int, request: PortRequest, port: nat)
    requires IsBase(base)
  {
    Found(owners, request.owner, base, request.preferred, port) && later == owners[port := request.owner]
  }

  /** A later allocation leaves the way to a port that was found before as it is. */
  lemma AllocationKeepsFound(owners: PortOwners, later: PortOwners, base: int, mine: PortRequest, p: nat,
                             theirs: PortRequest, q: nat)
    requires IsBase(base)
    requires p in owners && owners[p] == mine.owner && Found(owners, mine.owner, base, mine.preferred, p)
    requires Allocates(owners, later, base, theirs, q)
    requires theirs.owner == mine.owner ==> theirs == mine
    ensures p in later && later[p] == mine.owner && Found(later, mine.owner, base, mine.preferred, p)
  {
    if theirs == mine {
      FoundIsUnique(owners, mine.owner, base, mine.preferred, p, q);
      assert later == owners;
    } else {
      var i: nat :| FoundAfter(owners, mine.owner, base, mine.preferred, i) && p == PortAt(base, mine.preferred, i);
      assert !HeldByOther(owners, theirs.owner, q);
      assert q != p;
      forall earlier: nat | earlier < i
        ensures HeldByOther(later, mine.owner, PortAt(base, mine.preferred, earlier))
      {
        assert HeldByOther(owners, mine.owner, PortAt(base, mine.preferred, earlier));
      }
      assert FoundAfter(later, mine.owner, base, mine.preferred, i);
    }
  }

  /** A history of allocations without a release: table `i + 1` is made by request `i`. */
  ghost predicate OnlyAllocations(base: int, tables: seq<PortOwners>, requests: seq<PortRequest>, ports: seq<nat>)
    requires IsBase(base)
  {
    && |tables| == |requests| + 1 && |ports| == |requests|
    && (forall i | 0 <= i < |requests| :: Allocates(tables[i], tables[i + 1], base, requests[i], ports[i]))
    && forall i, j | 0 <= i < |requests| && 0 <= j < |requests| && requests[i].owner == requests[j].owner ::
         requests[i] == requests[j]
  }

  lemma {:induction false} FoundStays(base: int, tables: seq<PortOwners>, requests: seq<PortRequest>, ports: seq<nat>,
                                      i: nat, j: nat)
    requires IsBase(base) && OnlyAllocations(base, tables, requests, ports) && i < j <= |requests|
    ensures ports[i] in tables[j] && tables[j][ports[i]] == requests[i].owner
    ensures Found(tables[j], requests[i].owner, base, requests[i].preferred, ports[i])
    decreases j
  {
    assert Allocates(tables[j - 1], tables[j - 1 + 1], base, requests[j - 1], ports[j - 1]);
    if i < j - 1 {
      FoundStays(base, tables, requests, ports, i, j - 1);
      AllocationKeepsFound(tables[j - 1], tables[j], base, requests[i], ports[i], requests[j - 1], ports[j - 1]);
    } else {
      var offset: nat :| FoundAfter(tables[i], requests[i].owner, base, requests[i].preferred, offset)
                         && ports[i] == PortAt(base, requests[i].preferred, offset);
      forall earlier: nat | earlier < offset
        ensures HeldByOther(tables[j], requests[i].owner, PortAt(base, requests[i].preferred, earlier))
      {
        assert HeldByOther(tables[i], requests[i].owner, PortAt(base, requests[i].preferred, earlier));
      }
      assert FoundAfter(tables[j], requests[i].owner, base, requests[i].preferred, offset);
    }
  }

  /** With no release in between, asking again gives the same port, however many other
      allocations were made; and two owners are never given the same port. */
  lemma RepeatedAllocationsAgree(base: int, tables: seq<PortOwners>, requests: seq<PortRequest>, ports: seq<nat>,
                                 i: nat, j: nat)
    requires IsBase(base) && OnlyAllocations(base, tables, requests, ports) && i < j < |requests|
    ensures ports[i] == ports[j] <==> requests[i].owner == requests[j].owner
  {
    FoundStays(base, tables, requests, ports, i, j);
    assert Allocates(tables[j], tables[j + 1], base, requests[j], ports[j]);
    if requests[i].owner == requests[j].owner {
      FoundIsUnique(tables[j], requests[i].owner, base, requests[i].preferred, ports[i], ports[j]);
    }
  }

  /** After ports were released, an owner that still holds its port is given it again exactly if
      none of the released ports came before it on the way; otherwise it is given a second one. */
  lemma ReleaseMayMoveAnOwner(owners: PortOwners, owner: string, base: int, preferred: int, offset: nat,
                              released: set<nat>, again: nat)
    requires IsBase(base) && FoundAfter(owners, owner, base, preferred, offset)
    requires var port := PortAt(base, preferred, offset); port in owners && port !in released
    requires Found(owners - released, owner, base, preferred, again)
    ensures again == PortAt(base, preferred, offset)
       <==> forall earlier: nat | earlier < offset :: PortAt(base, preferred, earlier) !in released
  {
    var port := PortAt(base, preferred, offset);
    if forall earlier: nat | earlier < offset :: PortAt(base, preferred, earlier) !in released {
      forall earlier: nat | earlier < offset
        ensures HeldByOther(owners - released, owner, PortAt(base, preferred, earlier))
      {
        assert HeldByOther(owners, owner, PortAt(base, preferred, earlier));
      }
      assert FoundAfter(owners - released, owner, base, preferred, offset);
      FoundIsUnique(owners - released, owner, base, preferred, port, again);
    } else {
      var earlier: nat :| earlier < offset && PortAt(base, preferred, earlier) in released;
      assert base <= port < PortEnd;
      var only := ProbeVisitsEveryPortOnce(base, preferred, port);
      var n: nat :| FoundAfter(owners - released, owner, base, preferred, n) && again == PortAt(base, preferred, n);
      assert n <= earlier;
      assert offset == only;
    }
  }

  /** Such a table: two owners prefer the first of two ports, the first comer releases it, and the
      other, which holds the second port, is given the first one as well. */
  lemma ReleaseGivesASecondPort(first: string, second: string)
    requires first != second
    ensures var full: PortOwners := map[65534 := first, 65535 := second];
            var later := (full - {65534})[65534 := second];
            && Allocates(map[], map[65534 := first], 65534, PortRequest(first, 65534), 65534)
            && Allocates(map[65534 := first], full, 65534, PortRequest(second, 65534), 65535)
            && Allocates(full - {65534}, later, 65534, PortRequest(second, 65534), 65534)
            && later[65534] == second && later[65535] == second
  {
    var full: PortOwners := map[65534 := first, 65535 := second];
    assert PortAt(65534, 65534, 0) == 65534 && PortAt(65534, 65534, 1) == 65535;
    assert FoundAfter(map[], first, 65534, 65534, 0);
    assert FoundAfter(map[65534 := first], second, 65534, 65534, 1);
    assert FoundAfter(full - {65534}, second, 65534, 65534, 0);
  }

  // ---- Owners of ports ----

  /** A sandbox identifier as the paths allow it. */
  predicate IsIdentifier(id: string) {
    && 1 <= |id| <= 128 && IsLetterOrDigit(id[0])
    && forall i | 0 <= i < |id| :: IsLetterOrDigit(id[i]) || id[i] == '_' || id[i] == '-'
  }

  predicate IsLetterOrDigit(c: char) {
    'a' <= c <= 'z' || 'A' <= c <= 'Z' || '0' <= c <= '9'
  }

  function OwnerOf(id: string, guestPort: nat): string {
    id + ":" + Print(guestPort)
  }

  predicate StartsWith(text: string, prefix: string) {
    |prefix| <= |text| && text[..|prefix|] == prefix
  }

  function PortsReleased(owners: PortOwners, id: string): PortOwners {
    map port | port in owners && !StartsWith(owners[port], id + ":") :: owners[port]
  }

  /** An owner's text begins with an identifier and a colon only if it is of that identifier. */
  lemma PrefixNamesTheOwner(id: string, other: string, guestPort: nat)
    requires IsIdentifier(id) && IsIdentifier(other)
    ensures StartsWith(OwnerOf(other, guestPort), id + ":") <==> id == other
  {
    var text := OwnerOf(other, guestPort);
    assert text[..|other|] == other && text[|other|] == ':';
    assert forall i | 0 <= i < |other| :: text[i] == other[i] != ':';
    if StartsWith(text, id + ":") {
      var prefix := text[..|id + ":"|];
      assert prefix[|id|] == ':' && prefix[..|id|] == id;
      assert text[|id|] == ':';
      assert forall i | 0 <= i < |id| :: text[i] == id[i] != ':';
    }
    if id == other {
      assert text[..|other| + 1] == other + ":";
    }
  }

  /** Two owners have the same text only if they are the same guest port of the same sandbox. */
  lemma OwnersAreDistinct(a: string, p: nat, b: string, q: nat)
    requires IsIdentifier(a) && IsIdentifier(b) && OwnerOf(a, p) == OwnerOf(b, q)
    ensures a == b && p == q
  {
    PrefixNamesTheOwner(a, a, p);
    PrefixNamesTheOwner(a, b, q);
    assert OwnerOf(a, p)[|a| + 1..] == Print(p);
    assert OwnerOf(b, q)[|b| + 1..] == Print(q);
    PrintIsInjective(p, q);
  }

  /** Releasing by prefix frees exactly the ports of that sandbox. */
  lemma ReleaseIsExact(owners: PortOwners, id: string, port: nat, other: string, guestPort: nat)
    requires IsIdentifier(id) && IsIdentifier(other)
    requires port in owners && owners[port] == OwnerOf(other, guestPort)
    ensures port in PortsReleased(owners, id) <==> other != id
  {
    PrefixNamesTheOwner(id, other, guestPort);
  }
}
