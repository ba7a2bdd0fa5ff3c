/** The DHCP server address of a boot server: chosen by its rank among the racks that are
    members of the etcd cluster. */
module BootRank {
  import opened Common

  const DHCP_SERVERS: seq<string> := ["10.71.255.1", "10.71.255.2", "10.71.255.3", "10.71.255.4", "10.71.255.5"]
  const ACTIVE_BOOT_SERVER := "10.71.255.6"
  const MEMBER_PREFIX := "boot-"

  function Address(rank: nat): string {
    DHCP_SERVERS[rank % |DHCP_SERVERS|]
  }

  datatype Choice = Failed | Nothing | Chosen(address: string)

  /** Decimal digits, at least one, without sign. */
  function Digits(s: string): Option<nat> {
    if s == [] || !('0' <= s[|s| - 1] <= '9') then None
    else
      var d := s[|s| - 1] as int - '0' as int;
      if |s| == 1 then Some(d)
      else
        var high := Digits(s[..|s| - 1]);
        if high.None? then None else Some(10 * high.value + d)
  }

  /** A signed 64-bit decimal number. */
  function Atoi(s: string): Option<int> {
    var negative := s != [] && s[0] == '-';
    var n: Option<nat> := Digits(if s != [] && (s[0] == '-' || s[0] == '+') then s[1..] else s);
    if n.None? then None
    else if negative && n.value <= 0x8000_0000_0000_0000 then Some(0 as int - n.value)
    else if !negative && n.value < 0x8000_0000_0000_0000 then Some(n.value as int)
    else None
  }

  function RackOf(member: string): Option<int> {
    if MEMBER_PREFIX <= member then Atoi(member[|MEMBER_PREFIX|..]) else None
  }

  /** The racks of all members; none when a name is malformed. */
  function RacksOf(members: seq<string>): Option<seq<int>> {
    if members == [] then Some([])
    else
      var r := RackOf(members[0]);
      var rest := RacksOf(members[1..]);
      if r.None? || rest.None? then None else Some([r.value] + rest.value)
  }

  /** How many racks are below r. */
  function Rank(racks: seq<int>, r: int): nat {
    if racks == [] then 0 else (if racks[0] < r then 1 else 0) + Rank(racks[1..], r)
  }

  /** The address by rank, for a member. */
  function ByRank(members: seq<string>, rack: int): Choice {
    var racks := RacksOf(members);
    if rack < 0 || racks.None? then Failed
    else if rack in racks.value then Chosen(Address(Rank(racks.value, rack)))
    else Nothing
  }

  lemma {:induction false} RankConcat(a: seq<int>, b: seq<int>, r: int)
    ensures Rank(a + b, r) == Rank(a, r) + Rank(b, r)
  {
    if a == [] {
      assert a + b == b;
    } else {
      RankConcat(a[1..], b, r);
      assert (a + b)[1..] == a[1..] + b;
    }
  }

  lemma PermutedRest<T>(a: seq<T>, b: seq<T>, i: nat)
    requires a != [] && i < |b| && b[i] == a[0] && multiset(a) == multiset(b)
    ensures multiset(a[1..]) == multiset(b[..i] + b[i + 1..])
  {
    TakenOut(a, 0);
    TakenOut(b, i);
    assert a[..0] + a[1..] == a[1..];
  }

  lemma TakenOut<T>(b: seq<T>, i: nat)
    requires i < |b|
    ensures multiset(b[..i] + b[i + 1..]) == multiset(b) - multiset{b[i]}
  {
    assert b == b[..i] + [b[i]] + b[i + 1..];
  }

  /** The rank does not depend on the order of the list. */
  lemma {:induction false} RankPermuted(a: seq<int>, b: seq<int>, r: int)
    requires multiset(a) == multiset(b)
    ensures Rank(a, r) == Rank(b, r)
    decreases |a|
  {
    if a == [] {
      assert |multiset(b)| == 0;
    } else {
      assert a[0] in multiset(b);
      var i :| 0 <= i < |b| && b[i] == a[0];
      PermutedRest(a, b, i);
      assert b == b[..i] + [b[i]] + b[i + 1..];
      RankPermuted(a[1..], b[..i] + b[i + 1..], r);
      RankConcat(b[..i], b[i + 1..], r);
      RankConcat(b[..i] + [b[i]], b[i + 1..], r);
      RankConcat(b[..i], [b[i]], r);
    }
  }

  /** Ranks of members grow strictly with the rack and stay below the number of members. */
  lemma {:induction false} RankGrows(racks: seq<int>, r: int, r': int)
    requires r <= r'
    ensures Rank(racks, r) <= Rank(racks, r') <= |racks|
    ensures r in racks && r < r' ==> Rank(racks, r) < Rank(racks, r')
    ensures r' in racks ==> Rank(racks, r') < |racks|
  {
    if racks != [] {
      RankGrows(racks[1..], r, r');
    }
  }

  predicate Sorted(s: seq<int>) {
    forall i, j | 0 <= i < j < |s| :: s[i] <= s[j]
  }

  lemma InsertedSorted(a: seq<int>, x: int, b: seq<int>)
    requires Sorted(a + b) && (forall y | y in a :: y <= x) && (forall y | y in b :: x <= y)
    ensures Sorted(a + [x] + b)
  {
    var t, u := a + b, a + [x] + b;
    forall i, j | 0 <= i < j < |u|
      ensures u[i] <= u[j]
    {
      if i != |a| && j != |a| {
        assert u[i] == t[if i < |a| then i else i - 1] && u[j] == t[if j < |a| then j else j - 1];
      } else if i == |a| {
        assert u[j] in b;
      } else {
        assert u[i] in a;
      }
    }
  }

  method Insert(t: seq<int>, x: int) returns (u: seq<int>)
    requires Sorted(t)
    ensures Sorted(u) && multiset(u) == multiset(t) + multiset{x}
  {
    var k := |t|;
    while k > 0 && t[k - 1] > x
      invariant 0 <= k <= |t| && forall j | k <= j < |t| :: t[j] > x
    {
      k := k - 1;
    }
    var a, b := t[..k], t[k..];
    assert t == a + b;
    assert k > 0 ==> forall j | 0 <= j < k :: t[j] <= t[k - 1];
    InsertedSorted(a, x, b);
    u := a + [x] + b;
  }

  method Sort(s: seq<int>) returns (t: seq<int>)
    ensures Sorted(t) && multiset(t) == multiset(s)
  {
    t := [];
    for i := 0 to |s|
      invariant Sorted(t) && multiset(t) == multiset(s[..i])
    {
      assert s[..i + 1] == s[..i] + [s[i]];
      t := Insert(t, s[i]);
    }
    assert s[..|s|] == s;
  }

  lemma {:induction false} RankInSorted(s: seq<int>, n: nat, r: int)
    requires n <= |s| && (forall i | 0 <= i < n :: s[i] < r) && (forall i | n <= i < |s| :: s[i] >= r)
    ensures Rank(s, r) == n
  {
    if s != [] {
      RankInSorted(s[1..], if n == 0 then 0 else n - 1, r);
    }
  }

  /** The leftmost position whose element is not below r, and whether it is r. */
  method BinarySearch(s: seq<int>, r: int) returns (n: nat, found: bool)
    requires Sorted(s)
    ensures n == Rank(s, r) && (found <==> r in s)
  {
    n := 0;
    var j := |s|;
    while n < j
      invariant 0 <= n <= j <= |s|
      invariant (forall i | 0 <= i < n :: s[i] < r) && (forall i | j <= i < |s| :: s[i] >= r)
    {
      var h := (n + j) / 2;
      if s[h] < r {
        n := h + 1;
      } else {
        j := h;
      }
    }
    RankInSorted(s, n, r);
    found := n < |s| && s[n] == r;
  }

  lemma {:induction false} RacksAppend(members: seq<string>, m: string)
    ensures RacksOf(members + [m]) ==
            if RacksOf(members).None? || RackOf(m).None? then None else Some(RacksOf(members).value + [RackOf(m).value])
  {
    if members == [] {
      assert members + [m] == [m] && [m][1..] == [];
      if RackOf(m).Some? {
        var r := [RackOf(m).value];
        assert r + [] == r && RacksOf(members).value + r == r;
      }
    } else {
      RacksAppend(members[1..], m);
      assert (members + [m])[1..] == members[1..] + [m];
      var r, rest := RackOf(members[0]), RacksOf(members[1..]);
      if r.Some? && rest.Some? && RackOf(m).Some? {
        assert [r.value] + (rest.value + [RackOf(m).value]) == ([r.value] + rest.value) + [RackOf(m).value];
      }
    }
  }

  lemma {:induction false} MalformedFails(members: seq<string>, i: nat)
    requires i < |members| && RackOf(members[i]).None?
    ensures RacksOf(members) == None
  {
    if i > 0 {
      assert members[1..][i - 1] == members[i];
      MalformedFails(members[1..], i - 1);
    }
  }

  /** Parsing, sorting and searching give the address by rank. */
  method SelectDHCPServerAddr(members: seq<string>, rack: int) returns (c: Choice)
    ensures c == ByRank(members, rack)
  {
    if rack < 0 {
      return Failed;
    }
    var racks := [];
    for i := 0 to |members|
      invariant RacksOf(members[..i]) == Some(racks)
    {
      var r := RackOf(members[i]);
      if r.None? {
        MalformedFails(members, i);
        return Failed;
      }
      RacksAppend(members[..i], members[i]);
      assert members[..i + 1] == members[..i] + [members[i]];
      racks := racks + [r.value];
    }
    assert members[..|members|] == members;
    var sorted := Sort(racks);
    var n, found := BinarySearch(sorted, rack);
    RankPermuted(sorted, racks, rack);
    assert rack in sorted <==> rack in multiset(sorted);
    assert rack in racks <==> rack in multiset(racks);
    if found {
      return Chosen(Address(n));
    }
    return Nothing;
  }

  lemma {:induction false} RacksPermuted(a: seq<string>, b: seq<string>)
    requires multiset(a) == multiset(b)
    ensures RacksOf(a).Some? <==> RacksOf(b).Some?
    ensures RacksOf(a).Some? ==> multiset(RacksOf(a).value) == multiset(RacksOf(b).value)
    decreases |a|
  {
    if a == [] {
      assert |multiset(b)| == 0;
    } else {
      assert a[0] in multiset(b);
      var i :| 0 <= i < |b| && b[i] == a[0];
      PermutedRest(a, b, i);
      RacksPermuted(a[1..], b[..i] + b[i + 1..]);
      RacksExtract(b, i);
    }
  }

  /** Taking one member out takes its rack out. */
  lemma {:induction false} RacksExtract(b: seq<string>, i: nat)
    requires i < |b|
    ensures var rest := b[..i] + b[i + 1..];
            && (RacksOf(b).Some? <==> RackOf(b[i]).Some? && RacksOf(rest).Some?)
            && (RacksOf(b).Some? ==>
                  multiset(RacksOf(b).value) == multiset{RackOf(b[i]).value} + multiset(RacksOf(rest).value))
    decreases i
  {
    var rest := b[..i] + b[i + 1..];
    if i == 0 {
      assert rest == b[1..];
    } else {
      RacksExtract(b[1..], i - 1);
      assert rest[0] == b[0] && rest[1..] == b[1..][..i - 1] + b[1..][i..];
    }
  }

  /** The choice does not depend on the order in which etcd lists its members. */
  lemma OrderIrrelevant(a: seq<string>, b: seq<string>, rack: int)
    requires multiset(a) == multiset(b)
    ensures ByRank(a, rack) == ByRank(b, rack)
  {
    RacksPermuted(a, b);
    if RacksOf(a).Some? {
      var x, y := RacksOf(a).value, RacksOf(b).value;
      RankPermuted(x, y, rack);
      assert rack in x <==> rack in multiset(x);
      assert rack in y <==> rack in multiset(y);
    }
  }

  /** Two members collide exactly when their ranks agree modulo five; among at most five members
      no two do.  A non-member gets no address. */
  lemma CollideExactly(members: seq<string>, r: int, r': int)
    requires RacksOf(members).Some? && 0 <= r < r'
    requires r in RacksOf(members).value && r' in RacksOf(members).value
    ensures var racks := RacksOf(members).value;
            && (ByRank(members, r) == ByRank(members, r') <==> Rank(racks, r) % 5 == Rank(racks, r') % 5)
            && (|members| <= 5 ==> ByRank(members, r) != ByRank(members, r'))
  {
    RacksLength(members);
    RanksCollide(RacksOf(members).value, r, r');
  }

  lemma RanksCollide(racks: seq<int>, r: int, r': int)
    requires r < r' && r in racks && r' in racks
    ensures Address(Rank(racks, r)) == Address(Rank(racks, r')) <==> Rank(racks, r) % 5 == Rank(racks, r') % 5
    ensures |racks| <= 5 ==> Address(Rank(racks, r)) != Address(Rank(racks, r'))
  {
    RankGrows(racks, r, r');
    AddressesDiffer(Rank(racks, r), Rank(racks, r'));
  }

  lemma {:induction false} RacksLength(members: seq<string>)
    requires RacksOf(members).Some?
    ensures |RacksOf(members).value| == |members|
  {
    if members != [] {
      RacksLength(members[1..]);
    }
  }

  /** Addresses repeat exactly every five ranks and never are the one of the active boot
      server. */
  lemma AddressesDiffer(i: nat, j: nat)
    ensures Address(i) == Address(j) <==> i % 5 == j % 5
    ensures Address(i) != ACTIVE_BOOT_SERVER
  {
  }

  // ---- The choice, from the names ---------------------------------------------------

  /** The positions among the first n with a smaller rack. */
  ghost function Below(racks: seq<int>, n: nat, r: int): set<int>
    requires n <= |racks|
  {
    set i | 0 <= i < n && racks[i] < r
  }

  lemma {:induction false} RankCounts(racks: seq<int>, n: nat, r: int)
    requires n <= |racks|
    ensures Rank(racks[..n], r) == |Below(racks, n, r)|
    decreases n
  {
    if n == 0 {
      assert racks[..n] == [] && Below(racks, n, r) == {};
    } else {
      RankCounts(racks, n - 1, r);
      RankConcat(racks[..n - 1], [racks[n - 1]], r);
      assert racks[..n] == racks[..n - 1] + [racks[n - 1]];
      var m := n - 1;
      assert Below(racks, n, r) == Below(racks, m, r) + if racks[m] < r then {m} else {};
    }
  }

  lemma {:induction false} RacksAre(members: seq<string>)
    ensures RacksOf(members).None? <==> exists i | 0 <= i < |members| :: RackOf(members[i]).None?
    ensures RacksOf(members).Some? ==>
              && |RacksOf(members).value| == |members|
              && forall i | 0 <= i < |members| :: RackOf(members[i]) == Some(RacksOf(members).value[i])
  {
    if members != [] {
      RacksAre(members[1..]);
      if RacksOf(members[1..]).None? {
        var i :| 0 <= i < |members[1..]| && RackOf(members[1..][i]).None?;
        assert RackOf(members[i + 1]).None?;
      }
      forall i | 0 < i < |members|
        ensures members[i] == members[1..][i - 1]
      {
      }
    }
  }

  /** The choice, exactly: it fails for a negative rack or any malformed name; a rack without a member
      gets nothing; any other rack gets an address. */
  lemma ChoiceExactly(members: seq<string>, rack: int)
    ensures ByRank(members, rack) == Failed <==>
            rack < 0 || exists i | 0 <= i < |members| :: RackOf(members[i]).None?
    ensures ByRank(members, rack) == Nothing <==>
            && rack >= 0
            && forall i | 0 <= i < |members| :: RackOf(members[i]).Some? && RackOf(members[i]) != Some(rack)
  {
    RacksAre(members);
  }

  /** The positions of the members with a smaller rack. */
  ghost function Smaller(members: seq<string>, rack: int): set<int> {
    set i | 0 <= i < |members| && RackOf(members[i]).Some? && RackOf(members[i]).value < rack
  }

  /** A member's address is as many places down the list, going round, as there are members with a
      smaller rack. */
  lemma ChosenExactly(members: seq<string>, rack: int)
    requires ByRank(members, rack).Chosen?
    ensures ByRank(members, rack).address == Numbered(|Smaller(members, rack)| % 5)
  {
    RacksAre(members);
    var racks := RacksOf(members).value;
    assert Smaller(members, rack) == Below(racks, |racks|, rack);
    RankCounts(racks, |racks|, rack);
    assert racks[..|racks|] == racks;
    AddressIs(Rank(racks, rack));
  }

  function Numbered(n: nat): string
    requires n < 5
  {
    "10.71.255." + [(('1' as int) + n) as char]
  }

  lemma AddressIs(rank: nat)
    ensures Address(rank) == Numbered(rank % 5)
  {
  }

  // ---- The numbers in the names -----------------------------------------------------

  function Decimal(n: nat): string {
    var d := [(('0' as int) + n % 10) as char];
    if n < 10 then d else Decimal(n / 10) + d
  }

  lemma {:induction false} DigitsExactly(s: string)
    ensures Digits(s).Some? <==> s != [] && forall i | 0 <= i < |s| :: '0' <= s[i] <= '9'
  {
    if |s| > 1 {
      var n := |s| - 1;
      DigitsExactly(s[..n]);
      assert forall i | 0 <= i < n :: s[..n][i] == s[i];
    }
  }

  lemma {:induction false} DigitsDecimal(n: nat)
    ensures Decimal(n) != [] && Digits(Decimal(n)) == Some(n)
  {
    if n >= 10 {
      DigitsDecimal(n / 10);
      var s := Decimal(n);
      assert s[..|s| - 1] == Decimal(n / 10);
    }
  }

  lemma {:induction false} LeadingZero(s: string)
    requires s != []
    ensures Digits("0" + s) == Digits(s)
  {
    var z, n := "0" + s, |s| - 1;
    assert z[|z| - 1] == s[n] && z[..|z| - 1] == "0" + s[..n];
    if n > 0 {
      LeadingZero(s[..n]);
    } else {
      assert "0" + s[..n] == "0";
    }
  }

  lemma {:induction false} LeadingZeros(n: nat, zeros: nat)
    ensures var d := Zeros(zeros) + Decimal(n); d != [] && '0' <= d[0] <= '9' && Digits(d) == Some(n)
    decreases zeros
  {
    var d := Zeros(zeros) + Decimal(n);
    DigitsDecimal(n);
    if zeros == 0 {
      assert d == Decimal(n);
    } else {
      var rest := Zeros(zeros - 1) + Decimal(n);
      LeadingZeros(n, zeros - 1);
      assert d == "0" + rest;
      LeadingZero(rest);
    }
    DigitsExactly(d);
  }

  function Zeros(n: nat): string {
    if n == 0 then "" else "0" + Zeros(n - 1)
  }

  lemma RackOfName(t: string)
    ensures RackOf("boot-" + t) == Atoi(t)
  {
    assert ("boot-" + t)[|MEMBER_PREFIX|..] == t;
  }

  lemma AtoiDigits(d: string, n: nat)
    requires d != [] && '0' <= d[0] <= '9' && Digits(d) == Some(n)
    ensures Atoi(d) == Atoi("+" + d) == if n < 0x8000_0000_0000_0000 then Some(n) else None
    ensures Atoi("-" + d) == if n <= 0x8000_0000_0000_0000 then Some(0 as int - n) else None
  {
    assert ("+" + d)[1..] == d && ("-" + d)[1..] == d;
  }

  /** Names, exactly: a number in a name, with or without a sign and leading zeros, is the rack if it
      fits in 64 bits; with anything else in its place there is none. */
  lemma NamesExactly(n: nat, zeros: nat)
    ensures var d := Zeros(zeros) + Decimal(n);
            && RackOf("boot-" + d) == RackOf("boot-" + ("+" + d))
            && RackOf("boot-" + d) == (if n < 0x8000_0000_0000_0000 then Some(n) else None)
            && RackOf("boot-" + ("-" + d)) == (if n <= 0x8000_0000_0000_0000 then Some(0 as int - n) else None)
  {
    var d := Zeros(zeros) + Decimal(n);
    LeadingZeros(n, zeros);
    AtoiDigits(d, n);
    RackOfName(d);
    RackOfName("+" + d);
    RackOfName("-" + d);
  }

  lemma NamesOnly(name: string) returns (sign: string, d: string)
    requires RackOf(name).Some?
    ensures name == "boot-" + (sign + d) && (sign == "" || sign == "+" || sign == "-")
    ensures d != [] && forall i | 0 <= i < |d| :: '0' <= d[i] <= '9'
  {
    var t := name[|MEMBER_PREFIX|..];
    assert name == "boot-" + t;
    var n := if t != [] && (t[0] == '-' || t[0] == '+') then 1 else 0;
    sign, d := t[..n], t[n..];
    assert t == sign + d;
    DigitsExactly(d);
  }
}
