/** Network identities of sandboxes: names and addresses read off a digest, and the keys under
    which the allocator reserves them. */
module Network {
  import opened Prelude
  import opened Decimal

  type Byte = b: int | 0 <= b < 256

  /** A SHA-256 digest, of which only the length is known. */
  type Digest = d: seq<Byte> | |d| == 32 witness seq(32, _ => 0)

  const MaxInterfaceName := 15

  datatype Identity = Identity(
    netns: string, hostVeth: string, hostAddress: string, namespaceAddress: string)

  /** The names and addresses a request may pin. */
  datatype Pins = Pins(
    netns: Option<string>, hostVeth: Option<string>,
    hostAddress: Option<string>, namespaceAddress: Option<string>)

  const Unpinned := Pins(None, None, None, None)

  function HexDigit(n: int): char
    requires 0 <= n < 16
  {
    "0123456789abcdef"[n]
  }

  function {:tailrecursion false} Hex(bytes: seq<Byte>): (text: string)
    ensures |text| == 2 * |bytes|
  {
    if bytes == [] then ""
    else [HexDigit(bytes[0] / 16), HexDigit(bytes[0] % 16)] + Hex(bytes[1..])
  }

  // ---- The /30 block of a digest ----

  datatype Block = Block(second: nat, third: nat, fourth: nat)

  function BlockOf(digest: Digest): Block {
    Block(64 + digest[6] % 64, digest[7], digest[8] % 64 * 4)
  }

  function Address(block: Block, host: nat): string {
    "10." + Print(block.second) + "." + Print(block.third) + "." + Print(block.fourth + host)
  }

  function Derived(digest: Digest): Identity {
    var name := Hex(digest)[..11];
    var block := BlockOf(digest);
    Identity("fmn" + name, "fmv" + name, Address(block, 1) + "/30", Address(block, 2) + "/30")
  }

  function Or(pin: Option<string>, derived: string): string {
    if pin.Some? then pin.value else derived
  }

  function Pinned(pins: Pins, derived: Identity): Identity {
    Identity(Or(pins.netns, derived.netns), Or(pins.hostVeth, derived.hostVeth),
             Or(pins.hostAddress, derived.hostAddress),
             Or(pins.namespaceAddress, derived.namespaceAddress))
  }

  predicate NamesFit(identity: Identity) {
    |identity.netns| <= MaxInterfaceName && |identity.hostVeth| <= MaxInterfaceName
  }

  predicate PinsFit(pins: Pins) {
    && (pins.netns.Some? ==> |pins.netns.value| <= MaxInterfaceName)
    && (pins.hostVeth.Some? ==> |pins.hostVeth.value| <= MaxInterfaceName)
  }

  /** The text before the first slash. */
  function BeforeSlash(text: string): string {
    if text == "" || text[0] == '/' then "" else [text[0]] + BeforeSlash(text[1..])
  }

  /** A key of the allocator: the prefix is the constructor, the rest its arguments. */
  datatype Resource = NetnsName(name: string) | VethName(name: string) | Subnet(host: string, inner: string)

  datatype Keys = Keys(netns: Resource, veth: Resource, subnet: Resource)

  function KeysOf(identity: Identity): Keys {
    Keys(NetnsName(identity.netns), VethName(identity.hostVeth),
         Subnet(BeforeSlash(identity.hostAddress), BeforeSlash(identity.namespaceAddress)))
  }

  predicate Among(key: Resource, keys: Keys) {
    key == keys.netns || key == keys.veth || key == keys.subnet
  }

  // ---- Addresses as numbers ----

  /** The first of the four addresses of a block, as a 32-bit number. */
  function FirstAddress(block: Block): nat {
    10 * 0x100_0000 + block.second * 0x1_0000 + block.third * 0x100 + block.fourth
  }

  predicate InBlock(address: nat, block: Block) {
    FirstAddress(block) <= address < FirstAddress(block) + 4
  }

  /** What is hashed for a sandbox and an attempt or a guest port. */
  function Preimage(worker: string, id: string, number: nat): string {
    worker + "\0" + id + "\0" + Print(number)
  }

  ghost predicate IsDerived(identity: Identity) {
    exists digest: Digest :: identity == Derived(digest)
  }

  /** Derived names are short enough for an interface, whatever the digest. */
  lemma DerivedNamesFit(identity: Identity)
    requires IsDerived(identity)
    ensures NamesFit(identity)
  {
  }

  /** Every derived block lies in 10.64.0.0/10. */
  lemma BlocksAreInTheirRange(digest: Digest, address: nat)
    requires InBlock(address, BlockOf(digest))
    ensures 10 * 0x100_0000 + 64 * 0x1_0000 <= address < 10 * 0x100_0000 + 128 * 0x1_0000
  {
    assert 0 <= digest[6] % 64 < 64 && 0 <= digest[8] % 64 < 64;
  }

  /** Two derived blocks that share an address have the same subnet key, so that sandboxes with
      different keys have disjoint subnets. */
  lemma OverlapMeansSameKey(a: Digest, b: Digest, address: nat)
    requires InBlock(address, BlockOf(a)) && InBlock(address, BlockOf(b))
    ensures BlockOf(a) == BlockOf(b)
    ensures KeysOf(Derived(a)).subnet == KeysOf(Derived(b)).subnet
  {
    Aligned(a);
    Aligned(b);
    BlocksOverlapOnlyIfEqual(BlockOf(a), BlockOf(b), address);
  }

  /** Two digests give the same names exactly if their first eleven hexadecimal digits agree. */
  lemma NamesTellDigestsApart(a: Digest, b: Digest)
    ensures Derived(a).netns == Derived(b).netns <==> a[..5] == b[..5] && a[5] / 16 == b[5] / 16
    ensures Derived(a).hostVeth == Derived(b).hostVeth <==> Derived(a).netns == Derived(b).netns
    ensures Derived(a).netns != Derived(b).hostVeth
  {
    var m, n := Hex(a)[..11], Hex(b)[..11];
    PrefixedDiffer("fmn", m, n);
    PrefixedDiffer("fmv", m, n);
    assert ("fmn" + m)[2] == 'n' && ("fmv" + n)[2] == 'v';
    HexTellsBytesApart(a, b);
  }

  lemma PrefixedDiffer(prefix: string, m: string, n: string)
    ensures prefix + m == prefix + n <==> m == n
  {
    assert (prefix + m)[|prefix|..] == m && (prefix + n)[|prefix|..] == n;
  }

  lemma HexTellsBytesApart(a: Digest, b: Digest)
    ensures Hex(a)[..11] == Hex(b)[..11] <==> a[..5] == b[..5] && a[5] / 16 == b[5] / 16
  {
    var m, n := Hex(a)[..11], Hex(b)[..11];
    if m == n {
      forall i: nat | i < 6 ensures a[i] / 16 == b[i] / 16 && (i < 5 ==> a[i] == b[i]) {
        HexAt(a, i);
        HexAt(b, i);
        assert m[2 * i] == n[2 * i] && (i < 5 ==> m[2 * i + 1] == n[2 * i + 1]);
        HexDigitsDiffer(a[i] / 16, b[i] / 16);
        if i < 5 {
          HexDigitsDiffer(a[i] % 16, b[i] % 16);
        }
      }
    }
    if a[..5] == b[..5] && a[5] / 16 == b[5] / 16 {
      forall k: nat | k < 11 ensures m[k] == n[k] {
        HexAt(a, k / 2);
        HexAt(b, k / 2);
        assert k < 10 ==> a[..5][k / 2] == b[..5][k / 2];
      }
    }
  }

  lemma HexDigitsDiffer(m: int, n: int)
    requires 0 <= m < 16 && 0 <= n < 16 && HexDigit(m) == HexDigit(n)
    ensures m == n
  {
  }

  lemma {:induction false} HexAt(bytes: seq<Byte>, i: nat)
    requires i < |bytes|
    ensures Hex(bytes)[2 * i] == HexDigit(bytes[i] / 16) && Hex(bytes)[2 * i + 1] == HexDigit(bytes[i] % 16)
  {
    if i > 0 {
      HexAt(bytes[1..], i - 1);
      assert Hex(bytes)[2 * i] == Hex(bytes[1..])[2 * (i - 1)];
      assert Hex(bytes)[2 * i + 1] == Hex(bytes[1..])[2 * (i - 1) + 1];
    }
  }

  /** Twenty bits of the digest choose the block, each of them. */
  lemma BlocksTellDigestsApart(a: Digest, b: Digest)
    ensures BlockOf(a) == BlockOf(b) <==> a[6] % 64 == b[6] % 64 && a[7] == b[7] && a[8] % 64 == b[8] % 64
  {
  }

  /** What is hashed differs for every other sandbox of the worker and for every other attempt. */
  lemma PreimagesAreDistinct(worker: string, a: string, m: nat, b: string, n: nat)
    requires (forall i | 0 <= i < |a| :: a[i] != '\0') && (forall i | 0 <= i < |b| :: b[i] != '\0')
    requires Preimage(worker, a, m) == Preimage(worker, b, n)
    ensures a == b && m == n
  {
    var p, q := a + "\0" + Print(m), b + "\0" + Print(n);
    assert Preimage(worker, a, m) == worker + "\0" + p && Preimage(worker, b, n) == worker + "\0" + q;
    assert (worker + "\0" + p)[|worker| + 1..] == p && (worker + "\0" + q)[|worker| + 1..] == q;
    assert p[|a|] == '\0' && q[|b|] == '\0';
    assert forall i | 0 <= i < |a| :: p[i] == a[i];
    assert forall i | 0 <= i < |b| :: q[i] == b[i];
    assert |a| == |b|;
    assert p[..|a|] == a && q[..|b|] == b;
    assert p[|a| + 1..] == Print(m) && q[|b| + 1..] == Print(n);
    PrintIsInjective(m, n);
  }

  /** The subnet key says the block, so that the allocator never takes two different ones for the same. */
  lemma SameKeyMeansSameBlock(a: Digest, b: Digest)
    ensures KeysOf(Derived(a)).subnet == KeysOf(Derived(b)).subnet <==> BlockOf(a) == BlockOf(b)
    ensures Derived(a).hostAddress != Derived(a).namespaceAddress
  {
    var p, q := BlockOf(a), BlockOf(b);
    AddressIsBeforeSlash(p, 1);
    AddressIsBeforeSlash(p, 2);
    AddressIsBeforeSlash(q, 1);
    if Address(p, 1) == Address(q, 1) {
      AddressIsInjective(p, 1, q, 1);
    }
    if Address(p, 1) == Address(p, 2) {
      AddressIsInjective(p, 1, p, 2);
    }
  }

  lemma AddressIsBeforeSlash(block: Block, host: nat)
    ensures BeforeSlash(Address(block, host) + "/30") == Address(block, host)
  {
    var text := Address(block, host);
    assert forall i | 0 <= i < |text| :: text[i] == '.' || IsDigit(text[i]) by {
      assert "10."[0] == '1' && "10."[1] == '0' && "10."[2] == '.';
    }
    StopsAtSlash(text);
  }

  lemma {:induction false} StopsAtSlash(text: string)
    requires forall i | 0 <= i < |text| :: text[i] != '/'
    ensures BeforeSlash(text + "/30") == text
  {
    if text != "" {
      StopsAtSlash(text[1..]);
      assert (text + "/30")[1..] == text[1..] + "/30";
    }
  }

  lemma DottedIsInjective(a: string, x: string, b: string, y: string)
    requires AllDigits(a) && AllDigits(b) && a + "." + x == b + "." + y
    ensures a == b && x == y
  {
    var text := a + "." + x;
    assert text[|a|] == '.' && text[|b|] == '.';
    assert forall i | 0 <= i < |a| :: text[i] == a[i];
    assert forall i | 0 <= i < |b| :: text[i] == b[i];
    assert |a| == |b|;
    assert text[..|a|] == a && text[..|b|] == b && text[|a| + 1..] == x && text[|b| + 1..] == y;
  }

  function Dotted(a: string, b: string, c: string): string {
    "10." + a + "." + b + "." + c
  }

  lemma DottedThreeAreInjective(a: string, b: string, c: string, x: string, y: string, z: string)
    requires AllDigits(a) && AllDigits(b) && AllDigits(x) && AllDigits(y)
    requires Dotted(a, b, c) == Dotted(x, y, z)
    ensures a == x && b == y && c == z
  {
    var p, q := a + "." + (b + "." + c), x + "." + (y + "." + z);
    assert Dotted(a, b, c) == "10." + p && Dotted(x, y, z) == "10." + q;
    assert ("10." + p)[3..] == p && ("10." + q)[3..] == q;
    DottedIsInjective(a, b + "." + c, x, y + "." + z);
    DottedIsInjective(b, c, y, z);
  }

  lemma AddressIsInjective(p: Block, m: nat, q: Block, n: nat)
    requires Address(p, m) == Address(q, n)
    ensures p.second == q.second && p.third == q.third && p.fourth + m == q.fourth + n
  {
    DottedThreeAreInjective(Print(p.second), Print(p.third), Print(p.fourth + m),
                            Print(q.second), Print(q.third), Print(q.fourth + n));
    PrintIsInjective(p.second, q.second);
    PrintIsInjective(p.third, q.third);
    PrintIsInjective(p.fourth + m, q.fourth + n);
  }

  /** A /30 block begins at a multiple of four and stays in its last octet. */
  predicate IsAligned(block: Block) {
    block.third < 256 && block.fourth <= 252 && block.fourth % 4 == 0
  }

  lemma Aligned(digest: Digest)
    ensures IsAligned(BlockOf(digest))
  {
    var last := digest[8] % 64;
    assert 0 <= last < 64 && last * 4 % 4 == 0;
  }

  lemma BlocksOverlapOnlyIfEqual(p: Block, q: Block, address: nat)
    requires IsAligned(p) && IsAligned(q) && InBlock(address, p) && InBlock(address, q)
    ensures p == q
  {
    var P := 256 * p.second + p.third;
    var Q := 256 * q.second + q.third;
    assert -3 <= 256 * (P - Q) + (p.fourth - q.fourth) <= 3;
    assert P == Q;
    assert p.fourth == q.fourth by {
      assert p.fourth == 4 * (p.fourth / 4) && q.fourth == 4 * (q.fourth / 4);
    }
    assert p.second == q.second;
  }
}
