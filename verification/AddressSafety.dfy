/** What the address plan guarantees: disjoint networks, distinct hosts inside their own
    networks, links that are shared with no other link, and agreement with the addresses the
    installer computes for itself. */
module AddressSafety {
  import opened AddressPlan

  /** a belongs to the network of n. */
  predicate InNet(a: nat, n: Net)
    requires n.prefix <= 32
  {
    a / Pow2(32 - n.prefix) == n.ip / Pow2(32 - n.prefix)
  }

  datatype Host = OfTor | OfBoot | OfCs(i: nat) | OfSs(i: nat)

  /** The host exists in network k of a rack; switches have no address in network 0. */
  predicate IsHost(m: RackMenu, k: nat, h: Host) {
    k < 3 && match h
             case OfTor => k > 0
             case OfBoot => true
             case OfCs(i) => i < m.cs
             case OfSs(i) => i < m.ss
  }

  function Pick(n: Node, k: nat): Net {
    if k == 0 then n.node0 else if k == 1 then n.node1 else n.node2
  }

  /** The address a laid-out rack gives a host in network k. */
  function AddressOf(rack: Rack, k: nat, h: Host): Net
    requires match h case OfCs(i) => i < |rack.cs| case OfSs(i) => i < |rack.ss| case _ => true
  {
    match h
    case OfTor => if k == 1 then rack.tor1.nodeAddress else rack.tor2.nodeAddress
    case OfBoot => Pick(rack.boot, k)
    case OfCs(i) => Pick(rack.cs[i], k)
    case OfSs(i) => Pick(rack.ss[i], k)
  }

  function Offset(m: RackMenu, h: Host): nat {
    match h
    case OfTor => OFFSET_TOR
    case OfBoot => OFFSET_BOOT
    case OfCs(i) => OFFSET_SERVERS + i
    case OfSs(i) => OFFSET_SERVERS + i + m.cs
  }

  /** The racks and their servers fit: aligned base, prefix matching the range size, room for
      every server, and the last network still below 2^32. */
  ghost predicate Fits(c: Config, menus: seq<RackMenu>) {
    && c.rangeSize <= 32 && c.rangeMask == 32 - c.rangeSize
    && c.nodeBase % Pow2(c.rangeSize) == 0
    && (forall r | 0 <= r < |menus| :: OFFSET_SERVERS + menus[r].cs + menus[r].ss <= Pow2(c.rangeSize))
    && c.nodeBase + Pow2(c.rangeSize) * (3 * |menus|) <= 0x1_0000_0000
  }

  ghost predicate Laid(c: Config, menus: seq<RackMenu>, racks: seq<Rack>) {
    |racks| == |menus| && forall r | 0 <= r < |menus| :: LaidRack(c, r, menus[r], racks[r])
  }

  lemma MulStep(w: nat, x: nat, y: nat)
    ensures x < y ==> w * x + w <= w * y
  {
    if x < y {
      assert w * y == w * (x + 1) + w * (y - x - 1);
    }
  }

  lemma DivUnique(a: nat, w: nat, x: nat)
    requires w > 0 && w * x <= a < w * x + w
    ensures a / w == x
  {
    MulStep(w, a / w, x);
    MulStep(w, x, a / w);
  }

  /** Block number of the address at an offset in the b-th network. */
  lemma BlockOf(c: Config, menus: seq<RackMenu>, b: nat, offset: nat)
    requires Fits(c, menus)
    ensures var w := Pow2(c.rangeSize);
            offset < w ==> (NodeNetwork(c, b).ip + offset) / w == c.nodeBase / w + b
  {
    var w := Pow2(c.rangeSize);
    var q := c.nodeBase / w;
    assert c.nodeBase == w * q;
    assert w * q + w * b == w * (q + b);
    if offset < w {
      DivUnique(NodeNetwork(c, b).ip + offset, w, q + b);
    }
  }

  lemma InBlock(c: Config, menus: seq<RackMenu>, b: nat, offset: nat, b': nat)
    requires Fits(c, menus) && offset < Pow2(c.rangeSize)
    ensures InNet(NodeNetwork(c, b).ip + offset, NodeNetwork(c, b')) <==> b == b'
  {
    BlockOf(c, menus, b, offset);
    BlockOf(c, menus, b', 0);
  }

  /** Networks of all racks are disjoint: no address is in two of them. */
  lemma NetworksDisjoint(c: Config, menus: seq<RackMenu>, racks: seq<Rack>, a: nat, r: nat, k: nat, r': nat, k': nat)
    requires Fits(c, menus) && Laid(c, menus, racks)
    requires r < |racks| && r' < |racks| && k < 3 && k' < 3
    ensures InNet(a, racks[r].networks[k]) && InNet(a, racks[r'].networks[k']) ==> r == r' && k == k'
  {
    assert LaidRack(c, r, menus[r], racks[r]) && LaidRack(c, r', menus[r'], racks[r']);
    BlockOf(c, menus, 3 * r + k, 0);
    BlockOf(c, menus, 3 * r' + k', 0);
  }

  lemma AddressIs(c: Config, r: nat, m: RackMenu, rack: Rack, k: nat, h: Host)
    requires LaidRack(c, r, m, rack) && IsHost(m, k, h)
    ensures AddressOf(rack, k, h).ip == NodeNetwork(c, 3 * r + k).ip + Offset(m, h)
  {
  }

  /** Every host address lies in its own network and in no other. */
  lemma HostInOwnNetwork(c: Config, menus: seq<RackMenu>, racks: seq<Rack>, r: nat, k: nat, h: Host, r': nat, k': nat)
    requires Fits(c, menus) && Laid(c, menus, racks)
    requires r < |racks| && r' < |racks| && k' < 3 && IsHost(menus[r], k, h)
    ensures InNet(AddressOf(racks[r], k, h).ip, racks[r'].networks[k']) <==> r == r' && k == k'
  {
    assert LaidRack(c, r, menus[r], racks[r]) && LaidRack(c, r', menus[r'], racks[r']);
    AddressIs(c, r, menus[r], racks[r], k, h);
    assert racks[r'].networks[k'] == NodeNetwork(c, 3 * r' + k');
    InBlock(c, menus, 3 * r + k, Offset(menus[r], h), 3 * r' + k');
  }

  /** No host address overflows. */
  lemma HostFits(c: Config, menus: seq<RackMenu>, racks: seq<Rack>, r: nat, k: nat, h: Host)
    requires Fits(c, menus) && Laid(c, menus, racks) && r < |racks| && IsHost(menus[r], k, h)
    ensures AddressOf(racks[r], k, h).ip < 0x1_0000_0000
  {
    assert LaidRack(c, r, menus[r], racks[r]);
    AddressIs(c, r, menus[r], racks[r], k, h);
    BelowTop(c, menus, r, k, Offset(menus[r], h));
  }

  lemma BelowTop(c: Config, menus: seq<RackMenu>, r: nat, k: nat, offset: nat)
    requires Fits(c, menus) && r < |menus| && k < 3 && offset < Pow2(c.rangeSize)
    ensures NodeNetwork(c, 3 * r + k).ip + offset < 0x1_0000_0000
  {
    MulStep(Pow2(c.rangeSize), 3 * r + k, 3 * |menus|);
  }

  lemma SameHost(c: Config, r: nat, m: RackMenu, rack: Rack, k: nat, h: Host, h': Host)
    requires LaidRack(c, r, m, rack) && IsHost(m, k, h) && IsHost(m, k, h')
    requires AddressOf(rack, k, h).ip == AddressOf(rack, k, h').ip
    ensures h == h'
  {
    AddressIs(c, r, m, rack, k, h);
    AddressIs(c, r, m, rack, k, h');
  }

  /** No two hosts of the cluster share an address. */
  lemma HostsDistinct(c: Config, menus: seq<RackMenu>, racks: seq<Rack>,
                      r: nat, k: nat, h: Host, r': nat, k': nat, h': Host)
    requires Fits(c, menus) && Laid(c, menus, racks)
    requires r < |racks| && r' < |racks| && IsHost(menus[r], k, h) && IsHost(menus[r'], k', h')
    ensures AddressOf(racks[r], k, h).ip == AddressOf(racks[r'], k', h').ip <==> r == r' && k == k' && h == h'
  {
    if AddressOf(racks[r], k, h).ip == AddressOf(racks[r'], k', h').ip {
      HostInOwnNetwork(c, menus, racks, r, k, h, r', k');
      HostInOwnNetwork(c, menus, racks, r', k', h', r', k');
      assert LaidRack(c, r, menus[r], racks[r]);
      SameHost(c, r, menus[r], racks[r], k, h, h');
    }
  }

  /** Link numbers are unique. */
  lemma LinkNoUnique(s: nat, t: nat, s': nat, t': nat, tors: nat)
    requires t < tors && t' < tors
    ensures LinkNo(s, t, tors) == LinkNo(s', t', tors) ==> s == s' && t == t'
  {
    if s < s' {
      assert (s + 1) * tors <= s' * tors;
    } else if s' < s {
      assert (s' + 1) * tors <= s * tors;
    }
  }

  /** Both ends of link n are in the link's network, and of no other. */
  lemma LinkBlock(c: Config, n: nat, m: nat)
    requires c.spineTor % 2 == 0
    ensures InNet(LinkAt(c, n).ip, LinkAt(c, m)) <==> n == m
    ensures InNet(Add(LinkAt(c, n), 1).ip, LinkAt(c, m)) <==> n == m
  {
    assert Pow2(1) == 2;
  }

  /** For every spine and rack, the spine's address for each switch and that switch's address
      for the spine are the two ends of one 31-bit network. */
  lemma LinkPaired(c: Config, racks: seq<Rack>, spines: seq<Spine>, s: nat, r: nat)
    requires c.spineTor % 2 == 0 && s < |spines| && r < |racks|
    requires LaidSpine(c, s, 2 * |racks|, spines[s])
    requires Linked(c, 2 * r, 2 * |racks|, |spines|, racks[r].tor1)
    requires Linked(c, 2 * r + 1, 2 * |racks|, |spines|, racks[r].tor2)
    ensures var a, b := spines[s].Tor1Address(r), racks[r].tor1.spineAddresses[s];
            a.prefix == b.prefix == 31 && b.ip == a.ip + 1 && InNet(b.ip, a)
    ensures var a, b := spines[s].Tor2Address(r), racks[r].tor2.spineAddresses[s];
            a.prefix == b.prefix == 31 && b.ip == a.ip + 1 && InNet(b.ip, a)
  {
    LinkBlock(c, LinkNo(s, 2 * r, 2 * |racks|), LinkNo(s, 2 * r, 2 * |racks|));
    LinkBlock(c, LinkNo(s, 2 * r + 1, 2 * |racks|), LinkNo(s, 2 * r + 1, 2 * |racks|));
  }

  /** The network of a link contains no end of another link. */
  lemma LinkUnshared(c: Config, tors: nat, spines: seq<Spine>, s: nat, t: nat, s': nat, t': nat)
    requires c.spineTor % 2 == 0 && s < |spines| && s' < |spines| && t < tors && t' < tors
    requires LaidSpine(c, s, tors, spines[s]) && LaidSpine(c, s', tors, spines[s'])
    ensures var a, b := spines[s].torAddresses[t], spines[s'].torAddresses[t'];
            && a.prefix == b.prefix == 31
            && (InNet(a.ip, b) <==> s == s' && t == t') && (InNet(a.ip + 1, b) <==> s == s' && t == t')
  {
    LinkNoUnique(s, t, s', t', tors);
    LinkBlock(c, LinkNo(s, t, tors), LinkNo(s', t', tors));
  }

  /** The link between the core switch and a spine: for an even base, the core's address and the
      spine's are the two ends of one pair, and no end of it is an end of another spine's link. */
  lemma CoreLinks(c: Config, tors: nat, spines: seq<Spine>, s: nat, s': nat)
    requires c.coreSpine.ip % 2 == 0 && s < |spines| && s' < |spines|
    requires LaidSpine(c, s, tors, spines[s]) && LaidSpine(c, s', tors, spines[s'])
    ensures var a, b := spines[s].core, spines[s].coreAddress;
            a.prefix == b.prefix == c.coreSpine.prefix && a.ip != b.ip && a.ip / 2 == b.ip / 2
    ensures spines[s].core.ip / 2 == spines[s'].core.ip / 2 <==> s == s'
  {
  }

  /** In each network of a rack the hosts stand in a row: the switch of the network at the first
      address, the boot server at the third, then all servers of the first kind and all of the second
      without a gap. */
  lemma HostsInRow(c: Config, r: nat, m: RackMenu, rack: Rack, k: nat, i: nat)
    requires LaidRack(c, r, m, rack) && k < 3 && i < m.cs + m.ss
    ensures k > 0 ==> AddressOf(rack, k, OfTor).ip == rack.networks[k].ip + 1
    ensures AddressOf(rack, k, OfBoot).ip == rack.networks[k].ip + 3
    ensures AddressOf(rack, k, if i < m.cs then OfCs(i) else OfSs(i - m.cs)).ip == AddressOf(rack, k, OfBoot).ip + 1 + i
  {
  }

  /** Every node of a rack has a plain address of its own in network 0 and one in each of the two
      others, with their prefixes, and looks to the two switches of its own rack. */
  lemma NodesFaceSwitches(c: Config, r: nat, m: RackMenu, rack: Rack, n: Node)
    requires LaidRack(c, r, m, rack) && (n == rack.boot || n in rack.cs || n in rack.ss)
    ensures n.node0.prefix == 32
    ensures n.node1.prefix == rack.networks[1].prefix && n.node2.prefix == rack.networks[2].prefix
    ensures n.tor1 == rack.tor1.nodeAddress && n.tor2 == rack.tor2.nodeAddress
    ensures rack.tor1.nodeAddress.prefix == rack.networks[1].prefix
    ensures rack.tor2.nodeAddress.prefix == rack.networks[2].prefix
    ensures forall k | 0 <= k < 3 :: rack.networks[k].prefix == c.rangeMask
  {
  }

  /** The links between switches, core links and bastion addresses fit below 2^32. */
  predicate LinksFit(c: Config, racks: nat, spines: nat) {
    && c.spineTor + 2 * (spines * (2 * racks)) <= 0x1_0000_0000
    && c.coreSpine.ip + 2 * spines <= 0x1_0000_0000
    && c.bastion + racks <= 0x1_0000_0000
  }

  /** Both ends of every link, both ends of every core link, and every bastion address stay below
      2^32. */
  lemma LinkFits(c: Config, menus: seq<RackMenu>, racks: seq<Rack>, spines: seq<Spine>, s: nat, t: nat, r: nat)
    requires LinksFit(c, |racks|, |spines|) && Laid(c, menus, racks) && r < |racks|
    requires s < |spines| && t < 2 * |racks| && LaidSpine(c, s, 2 * |racks|, spines[s])
    ensures spines[s].torAddresses[t].ip + 1 < 0x1_0000_0000
    ensures spines[s].core.ip < 0x1_0000_0000 && spines[s].coreAddress.ip < 0x1_0000_0000
    ensures racks[r].bastion.ip < 0x1_0000_0000
  {
    LinkNoBound(s, t, 2 * |racks|, |spines|);
    assert LaidRack(c, r, menus[r], racks[r]);
  }

  lemma LinkNoBound(s: nat, t: nat, tors: nat, spines: nat)
    requires s < spines && t < tors
    ensures LinkNo(s, t, tors) + 1 <= spines * tors
  {
    MulStep(tors, s, spines);
    assert s * tors == tors * s && spines * tors == tors * spines;
  }

  const BASE_NODE0 := 0x0A45_0000        // 10.69.0.0
  const NODE_MASK_BITS := 26

  function BootNode0IP(lrn: nat): nat {
    BASE_NODE0 + (192 * lrn + 3)
  }

  /** The installer's own addresses: node0, node1, node2 and the bastion. */
  function NodeAddresses(lrn: nat, bastionBase: nat): (nat, nat, nat, nat) {
    var node0 := BootNode0IP(lrn);
    (node0, node0 + 64, node0 + 128, bastionBase + lrn)
  }

  /** The address masked to the node network, plus one. */
  function TorIP(nodeIP: nat): int {
    nodeIP - nodeIP % Pow2(32 - NODE_MASK_BITS) + 1
  }

  /** The installer on rack r and the cluster plan give the boot server and its switches the
      same addresses. */
  lemma PlansAgree(c: Config, menus: seq<RackMenu>, racks: seq<Rack>, r: nat)
    requires c.nodeBase == BASE_NODE0 && c.rangeSize == 6 && c.rangeMask == NODE_MASK_BITS
    requires Laid(c, menus, racks) && r < |racks|
    ensures var (node0, node1, node2, bastion) := NodeAddresses(r, c.bastion);
            var rack := racks[r];
            && node0 == rack.boot.node0.ip && node1 == rack.boot.node1.ip && node2 == rack.boot.node2.ip
            && bastion == rack.bastion.ip
            && TorIP(node1) == rack.tor1.nodeAddress.ip && TorIP(node2) == rack.tor2.nodeAddress.ip
  {
    assert LaidRack(c, r, menus[r], racks[r]);
    SixBits();
    TorOf(r);
  }

  lemma SixBits()
    ensures Pow2(6) == 64
  {
    assert Pow2(2) == 4 && Pow2(4) == 16;
  }

  lemma TorOf(r: nat)
    ensures TorIP(BootNode0IP(r) + 64) == BASE_NODE0 + 192 * r + 65
    ensures TorIP(BootNode0IP(r) + 128) == BASE_NODE0 + 192 * r + 129
  {
    SixBits();
  }

  /** The block of rack r. */
  predicate Owns(r: nat, a: int) {
    BASE_NODE0 + 192 * r <= a < BASE_NODE0 + 192 * r + 192
  }

  /** Racks own disjoint blocks of 192 addresses that hold everything the installer computes. */
  lemma InstallerBlocks(r: nat, r': nat, bastionBase: nat)
    ensures var (node0, node1, node2, _) := NodeAddresses(r, bastionBase);
            && (Owns(r', node0) <==> r == r') && (Owns(r', node1) <==> r == r') && (Owns(r', node2) <==> r == r')
            && (Owns(r', TorIP(node1)) <==> r == r') && (Owns(r', TorIP(node2)) <==> r == r')
  {
    TorOf(r);
  }
}
