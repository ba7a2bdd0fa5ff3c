/** The address plan of a cluster: node networks of each rack, and point-to-point links between
    spines and top-of-rack switches.  Addresses are integers. */
module AddressPlan {

  const OFFSET_TOR := 1
  const OFFSET_BOOT := 3
  const OFFSET_SERVERS := 4

  /** An address with the length of its network prefix. */
  datatype Net = Net(ip: nat, prefix: nat)

  datatype Config = Config(nodeBase: nat, rangeSize: nat, rangeMask: nat, spineTor: nat, coreSpine: Net, bastion: nat)

  datatype RackMenu = RackMenu(cs: nat, ss: nat)

  datatype Node = Node(node0: Net, node1: Net, node2: Net, tor1: Net, tor2: Net)

  class Tor {
    const nodeAddress: Net
    var spineAddresses: seq<Net>

    constructor (nodeAddress: Net)
      ensures this.nodeAddress == nodeAddress && spineAddresses == []
    {
      this.nodeAddress := nodeAddress;
      spineAddresses := [];
    }
  }

  datatype Rack = Rack(networks: seq<Net>, boot: Node, bastion: Net, cs: seq<Node>, ss: seq<Node>, tor1: Tor, tor2: Tor)

  /** `core` is the address of the core switch on the link to this spine. */
  datatype Spine = Spine(core: Net, coreAddress: Net, torAddresses: seq<Net>) {
    function Tor1Address(rackIdx: nat): Net
      requires 2 * rackIdx < |torAddresses|
    {
      torAddresses[2 * rackIdx]
    }

    function Tor2Address(rackIdx: nat): Net
      requires 2 * rackIdx + 1 < |torAddresses|
    {
      torAddresses[2 * rackIdx + 1]
    }
  }

  function Pow2(n: nat): (w: nat)
    ensures w > 0
  {
    if n == 0 then 1 else 2 * Pow2(n - 1)
  }

  function Add(n: Net, offset: nat): Net {
    n.(ip := n.ip + offset)
  }

  function NodeNetwork(c: Config, nodeIdx: nat): Net {
    Net(c.nodeBase + Pow2(c.rangeSize) * nodeIdx, c.rangeMask)
  }

  /** A node at the given offset in the three networks of rack r. */
  function NodeAt(c: Config, r: nat, offset: nat): Node {
    Node(Net(NodeNetwork(c, 3 * r).ip + offset, 32),
         Add(NodeNetwork(c, 3 * r + 1), offset), Add(NodeNetwork(c, 3 * r + 2), offset),
         Add(NodeNetwork(c, 3 * r + 1), OFFSET_TOR), Add(NodeNetwork(c, 3 * r + 2), OFFSET_TOR))
  }

  /** What a rack looks like once it is laid out. */
  ghost predicate LaidRack(c: Config, r: nat, m: RackMenu, rack: Rack) {
    && rack.networks == [NodeNetwork(c, 3 * r), NodeNetwork(c, 3 * r + 1), NodeNetwork(c, 3 * r + 2)]
    && rack.boot == NodeAt(c, r, OFFSET_BOOT)
    && rack.bastion == Net(c.bastion + r, 32)
    && |rack.cs| == m.cs && (forall i | 0 <= i < m.cs :: rack.cs[i] == NodeAt(c, r, OFFSET_SERVERS + i))
    && |rack.ss| == m.ss && (forall i | 0 <= i < m.ss :: rack.ss[i] == NodeAt(c, r, OFFSET_SERVERS + i + m.cs))
    && rack.tor1.nodeAddress == rack.boot.tor1 && rack.tor2.nodeAddress == rack.boot.tor2
  }

  /** The spine's end of link n; the switch has the next address. */
  function LinkAt(c: Config, n: nat): Net {
    Net(c.spineTor + 2 * n, 31)
  }

  /** The number of the link between spine s and the t-th of `tors` switches. */
  function LinkNo(s: nat, t: nat, tors: nat): nat {
    s * tors + t
  }

  ghost predicate LaidSpine(c: Config, s: nat, tors: nat, spine: Spine) {
    && spine.core == Add(c.coreSpine, 2 * s) && spine.coreAddress == Add(c.coreSpine, 2 * s + 1)
    && |spine.torAddresses| == tors
    && forall t | 0 <= t < tors :: spine.torAddresses[t] == LinkAt(c, LinkNo(s, t, tors))
  }

  /** The switch has its address on the links to the first n spines. */
  ghost predicate Linked(c: Config, t: nat, tors: nat, n: nat, tor: Tor)
    reads tor
  {
    && |tor.spineAddresses| == n
    && forall s | 0 <= s < n :: tor.spineAddresses[s] == Add(LinkAt(c, LinkNo(s, t, tors)), 1)
  }

  method LayRack(c: Config, r: nat, m: RackMenu) returns (rack: Rack)
    ensures LaidRack(c, r, m, rack)
    ensures fresh(rack.tor1) && fresh(rack.tor2) && rack.tor1 != rack.tor2
    ensures rack.tor1.spineAddresses == [] && rack.tor2.spineAddresses == []
  {
    var node0, node1, node2 := NodeNetwork(c, 3 * r), NodeNetwork(c, 3 * r + 1), NodeNetwork(c, 3 * r + 2);
    var tor1, tor2 := Add(node1, OFFSET_TOR), Add(node2, OFFSET_TOR);
    var boot := Node(Net(node0.ip + OFFSET_BOOT, 32), Add(node1, OFFSET_BOOT), Add(node2, OFFSET_BOOT), tor1, tor2);
    var cs, ss := [], [];
    for i := 0 to m.cs
      invariant |cs| == i && forall j | 0 <= j < i :: cs[j] == NodeAt(c, r, OFFSET_SERVERS + j)
    {
      var offset := OFFSET_SERVERS + i;
      cs := cs + [Node(Net(node0.ip + offset, 32), Add(node1, offset), Add(node2, offset), boot.tor1, boot.tor2)];
    }
    for i := 0 to m.ss
      invariant |ss| == i && forall j | 0 <= j < i :: ss[j] == NodeAt(c, r, OFFSET_SERVERS + j + m.cs)
    {
      var offset := OFFSET_SERVERS + i + m.cs;
      ss := ss + [Node(Net(node0.ip + offset, 32), Add(node1, offset), Add(node2, offset), boot.tor1, boot.tor2)];
    }
    var t1 := new Tor(tor1);
    var t2 := new Tor(tor2);
    rack := Rack([node0, node1, node2], boot, Net(c.bastion + r, 32), cs, ss, t1, t2);
  }

  /** The switches of all racks, two per rack in order, are these distinct objects. */
  ghost predicate TorsOf(racks: seq<Rack>, tors: seq<Tor>) {
    && |tors| == 2 * |racks|
    && (forall r | 0 <= r < |racks| :: tors[2 * r] == racks[r].tor1 && tors[2 * r + 1] == racks[r].tor2)
    && forall i, j | 0 <= i < j < |tors| :: tors[i] != tors[j]
  }

  method LayRacks(c: Config, menus: seq<RackMenu>) returns (racks: seq<Rack>, tors: seq<Tor>)
    ensures |racks| == |menus| && (forall r | 0 <= r < |menus| :: LaidRack(c, r, menus[r], racks[r]))
    ensures TorsOf(racks, tors)
    ensures forall t | 0 <= t < |tors| :: fresh(tors[t]) && tors[t].spineAddresses == []
  {
    racks, tors := [], [];
    for i := 0 to |menus|
      invariant |racks| == i && (forall r | 0 <= r < i :: LaidRack(c, r, menus[r], racks[r]))
      invariant TorsOf(racks, tors)
      invariant forall t | 0 <= t < |tors| :: fresh(tors[t]) && tors[t].spineAddresses == []
    {
      var rack := LayRack(c, i, menus[i]);
      tors := tors + [rack.tor1] + [rack.tor2];
      racks := racks + [rack];
    }
  }

  /** One spine with its links, numbered from s * |tors|. */
  method LaySpine(c: Config, s: nat, tors: seq<Tor>, coreBase: Net, base: Net) returns (spine: Spine, next: Net)
    requires forall i, j | 0 <= i < j < |tors| :: tors[i] != tors[j]
    requires forall t | 0 <= t < |tors| :: Linked(c, t, |tors|, s, tors[t])
    requires coreBase == Add(c.coreSpine, 2 * s) && base == LinkAt(c, LinkNo(s, 0, |tors|))
    modifies tors
    ensures LaidSpine(c, s, |tors|, spine)
    ensures next == LinkAt(c, LinkNo(s, |tors|, |tors|))
    ensures forall t | 0 <= t < |tors| :: Linked(c, t, |tors|, s + 1, tors[t])
  {
    var addresses := [];
    next := base;
    for k := 0 to |tors|
      invariant next == LinkAt(c, LinkNo(s, k, |tors|))
      invariant |addresses| == k && forall t | 0 <= t < k :: addresses[t] == LinkAt(c, LinkNo(s, t, |tors|))
      invariant forall t | 0 <= t < |tors| :: Linked(c, t, |tors|, if t < k then s + 1 else s, tors[t])
    {
      addresses := addresses + [next];
      next := Add(next, 1);
      tors[k].spineAddresses := tors[k].spineAddresses + [next];
      next := Add(next, 1);
    }
    spine := Spine(coreBase, Add(coreBase, 1), addresses);
  }

  /** The allocation loops of a cluster, with running base addresses. */
  method NewCluster(c: Config, menus: seq<RackMenu>, spineCount: nat) returns (racks: seq<Rack>, spines: seq<Spine>)
    ensures |racks| == |menus| && (forall r | 0 <= r < |menus| :: LaidRack(c, r, menus[r], racks[r]))
    ensures |spines| == spineCount && (forall s | 0 <= s < spineCount :: LaidSpine(c, s, 2 * |menus|, spines[s]))
    ensures forall r | 0 <= r < |racks| ::
              && Linked(c, 2 * r, 2 * |menus|, spineCount, racks[r].tor1)
              && Linked(c, 2 * r + 1, 2 * |menus|, spineCount, racks[r].tor2)
  {
    var tors;
    racks, tors := LayRacks(c, menus);
    spines := [];
    var coreBase := c.coreSpine;
    var base := Net(c.spineTor, 31);
    for s := 0 to spineCount
      invariant coreBase == Add(c.coreSpine, 2 * s) && base == LinkAt(c, LinkNo(s, 0, |tors|))
      invariant |spines| == s && forall k | 0 <= k < s :: LaidSpine(c, k, |tors|, spines[k])
      invariant forall t | 0 <= t < |tors| :: Linked(c, t, |tors|, s, tors[t])
    {
      var spine, next := LaySpine(c, s, tors, coreBase, base);
      assert LinkNo(s, |tors|, |tors|) == LinkNo(s + 1, 0, |tors|);
      coreBase, base := Add(coreBase, 2), next;
      spines := spines + [spine];
    }
  }
}
