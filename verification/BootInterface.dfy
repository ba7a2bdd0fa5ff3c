/** boot-ip-setter's plan and execute pair: the operations decided from the addresses an
    interface has and should have, and what running them does, with faults at any operation. */
module BootInterface {
  import opened Common

  datatype Op = Up | Down | Add(address: string) | Delete(address: string) | DeleteAll

  datatype Link = Link(up: bool, addrs: set<string>)

  /** Adding a present address or deleting an absent one is an error. */
  function Step(l: Link, op: Op): Option<Link> {
    match op
    case Up => Some(l.(up := true))
    case Down => Some(l.(up := false))
    case Add(a) => if a in l.addrs then None else Some(l.(addrs := l.addrs + {a}))
    case Delete(a) => if a in l.addrs then Some(l.(addrs := l.addrs - {a})) else None
    case DeleteAll => Some(l.(addrs := {}))
  }

  /** All operations in order; none of them is an error. */
  ghost predicate Runs(l: Link, ops: seq<Op>)
    decreases |ops|
  {
    ops == [] || (Step(l, ops[0]).Some? && Runs(Step(l, ops[0]).value, ops[1..]))
  }

  ghost function Result(l: Link, ops: seq<Op>): Link
    requires Runs(l, ops)
    decreases |ops|
  {
    if ops == [] then l else Result(Step(l, ops[0]).value, ops[1..])
  }

  /** One operation for each address of the list that is not in the other one. */
  function Missing(list: seq<string>, other: set<string>, add: bool): seq<Op> {
    if list == [] then []
    else (if list[0] in other then [] else [if add then Add(list[0]) else Delete(list[0])]) +
         Missing(list[1..], other, add)
  }

  function SetOf(s: seq<string>): set<string> {
    set a | a in s
  }

  function Plan(current: seq<string>, next: seq<string>): seq<Op> {
    if next == [] then [DeleteAll, Down]
    else [Up] + (Missing(next, SetOf(current), true) + Missing(current, SetOf(next), false))
  }

  lemma {:induction false} MissingAppend(s: seq<string>, a: string, other: set<string>, add: bool)
    ensures Missing(s + [a], other, add) ==
            Missing(s, other, add) + if a in other then [] else [if add then Add(a) else Delete(a)]
  {
    if s == [] {
      assert s + [a] == [a] && [a][1..] == [];
    } else {
      MissingAppend(s[1..], a, other, add);
      assert (s + [a])[1..] == s[1..] + [a];
    }
  }

  method DecideOps(current: seq<string>, next: seq<string>) returns (ops: seq<Op>)
    ensures ops == Plan(current, next)
  {
    if |next| == 0 {
      return [DeleteAll, Down];
    }
    var currentMap, nextMap := {}, {};
    for i := 0 to |current|
      invariant currentMap == SetOf(current[..i])
    {
      currentMap := currentMap + {current[i]};
    }
    for i := 0 to |next|
      invariant nextMap == SetOf(next[..i])
    {
      nextMap := nextMap + {next[i]};
    }
    assert current[..|current|] == current && next[..|next|] == next;
    ops := [Up];
    for i := 0 to |next|
      invariant ops == [Up] + Missing(next[..i], SetOf(current), true)
    {
      MissingAppend(next[..i], next[i], SetOf(current), true);
      assert next[..i] + [next[i]] == next[..i + 1];
      if next[i] !in currentMap {
        ops := ops + [Add(next[i])];
      }
    }
    ghost var added := ops;
    for i := 0 to |current|
      invariant ops == added + Missing(current[..i], SetOf(next), false)
    {
      MissingAppend(current[..i], current[i], SetOf(next), false);
      assert current[..i] + [current[i]] == current[..i + 1];
      if current[i] !in nextMap {
        ops := ops + [Delete(current[i])];
      }
    }
  }

  lemma {:induction false} RunsConcat(l: Link, a: seq<Op>, b: seq<Op>)
    requires Runs(l, a) && Runs(Result(l, a), b)
    ensures Runs(l, a + b) && Result(l, a + b) == Result(Result(l, a), b)
    decreases |a|
  {
    if a == [] {
      assert a + b == b;
    } else {
      RunsConcat(Step(l, a[0]).value, a[1..], b);
      assert (a + b)[1..] == a[1..] + b;
    }
  }

  /** Adding what is missing, starting from addresses that include the present ones but none of
      the others in the list. */
  lemma {:induction false} AddsRun(l: Link, list: seq<string>, present: set<string>)
    requires Distinct(list) && forall a | a in list :: (a in l.addrs <==> a in present)
    ensures Runs(l, Missing(list, present, true))
    ensures Result(l, Missing(list, present, true)) == l.(addrs := l.addrs + SetOf(list))
    decreases |list|
  {
    if list != [] {
      var l' := if list[0] in present then l else l.(addrs := l.addrs + {list[0]});
      assert list[0] !in list[1..];
      AddsRun(l', list[1..], present);
      assert l'.addrs + SetOf(list[1..]) == l.addrs + SetOf(list);
      var ops := Missing(list, present, true);
      if list[0] !in present {
        assert ops[0] == Add(list[0]) && ops[1..] == Missing(list[1..], present, true);
      } else {
        assert ops == Missing(list[1..], present, true);
      }
    }
  }

  /** Deleting what is not wanted. */
  lemma {:induction false} DeletesRun(l: Link, list: seq<string>, wanted: set<string>)
    requires Distinct(list) && SetOf(list) <= l.addrs
    ensures Runs(l, Missing(list, wanted, false))
    ensures Result(l, Missing(list, wanted, false)) == l.(addrs := l.addrs - (SetOf(list) - wanted))
    decreases |list|
  {
    if list != [] {
      var l' := if list[0] in wanted then l else l.(addrs := l.addrs - {list[0]});
      assert list[0] !in list[1..] && list[0] in SetOf(list);
      assert SetOf(list[1..]) <= l'.addrs;
      DeletesRun(l', list[1..], wanted);
      assert l'.addrs - (SetOf(list[1..]) - wanted) == l.addrs - (SetOf(list) - wanted);
      var ops := Missing(list, wanted, false);
      if list[0] !in wanted {
        assert ops[0] == Delete(list[0]) && ops[1..] == Missing(list[1..], wanted, false);
      } else {
        assert ops == Missing(list[1..], wanted, false);
      }
    }
  }

  lemma TearDown(l: Link)
    ensures Runs(l, [DeleteAll, Down]) && Result(l, [DeleteAll, Down]) == Link(false, {})
  {
    var l1 := Link(l.up, {});
    assert Runs(Link(false, {}), []) && [Down][1..] == [] && [DeleteAll][1..] == [];
    assert Runs(l1, [Down]) && Result(l1, [Down]) == Link(false, {});
    assert Runs(l1, []) && Runs(l, [DeleteAll]) && Result(l, [DeleteAll]) == l1;
    RunsConcat(l, [DeleteAll], [Down]);
    assert [DeleteAll] + [Down] == [DeleteAll, Down];
  }

  lemma FirstUp(l: Link, rest: seq<Op>)
    requires Runs(l.(up := true), rest)
    ensures Runs(l, [Up] + rest) && Result(l, [Up] + rest) == Result(l.(up := true), rest)
  {
    assert ([Up] + rest)[1..] == rest;
  }

  lemma BringUp(l: Link, current: seq<string>, next: seq<string>)
    requires Distinct(current) && Distinct(next) && SetOf(current) == l.addrs
    ensures var ops := Missing(next, SetOf(current), true) + Missing(current, SetOf(next), false);
            Runs(l, ops) && Result(l, ops) == l.(addrs := SetOf(next))
  {
    var adds, dels := Missing(next, SetOf(current), true), Missing(current, SetOf(next), false);
    AddsRun(l, next, SetOf(current));
    var l' := Result(l, adds);
    DeletesRun(l', current, SetOf(next));
    RunsConcat(l, adds, dels);
    assert l'.addrs - (SetOf(current) - SetOf(next)) == SetOf(next);
  }

  /** Convergence: the plan for an interface runs without any error and ends with exactly the
      wanted addresses, or with none and the interface down when none is wanted. */
  lemma PlanConverges(l: Link, current: seq<string>, next: seq<string>)
    requires Distinct(current) && Distinct(next) && SetOf(current) == l.addrs
    ensures Runs(l, Plan(current, next))
    ensures Result(l, Plan(current, next)) == Link(next != [], SetOf(next))
  {
    if next == [] {
      assert SetOf(next) == {};
      TearDown(l);
    } else {
      BringUp(l.(up := true), current, next);
      FirstUp(l, Missing(next, SetOf(current), true) + Missing(current, SetOf(next), false));
    }
  }

  /** An operation that touches no address of `keep` and adds only addresses of `may`. */
  predicate Gentle(op: Op, keep: set<string>, may: set<string>) {
    match op
    case Add(a) => a in may
    case Delete(a) => a !in keep
    case DeleteAll => keep == {}
    case _ => true
  }

  lemma {:induction false} MissingGentle(list: seq<string>, other: set<string>, add: bool,
                                         keep: set<string>, may: set<string>)
    requires add ==> SetOf(list) <= may
    requires !add ==> keep <= other
    ensures forall op | op in Missing(list, other, add) :: Gentle(op, keep, may)
  {
    if list != [] {
      assert list[0] in SetOf(list) && SetOf(list[1..]) <= SetOf(list);
      MissingGentle(list[1..], other, add, keep, may);
    }
  }

  lemma PlanGentle(current: seq<string>, next: seq<string>)
    ensures forall op | op in Plan(current, next) :: Gentle(op, SetOf(current) * SetOf(next), SetOf(next))
  {
    if next == [] {
      assert SetOf(next) == {};
    } else {
      MissingGentle(next, SetOf(current), true, SetOf(current) * SetOf(next), SetOf(next));
      MissingGentle(current, SetOf(next), false, SetOf(current) * SetOf(next), SetOf(next));
    }
  }

  lemma OneMore(l: Link, ops: seq<Op>, i: nat)
    requires i < |ops| && Runs(l, ops[..i]) && Step(Result(l, ops[..i]), ops[i]).Some?
    ensures Runs(l, ops[..i + 1]) && Result(l, ops[..i + 1]) == Step(Result(l, ops[..i]), ops[i]).value
  {
    var m := Result(l, ops[..i]);
    assert [ops[i]][1..] == [] && Runs(Step(m, ops[i]).value, []) && Runs(m, [ops[i]]);
    RunsConcat(l, ops[..i], [ops[i]]);
    assert ops[..i] + [ops[i]] == ops[..i + 1];
  }

  lemma {:induction false} RunsSplit(l: Link, a: seq<Op>, b: seq<Op>)
    requires Runs(l, a + b)
    ensures Runs(l, a) && Runs(Result(l, a), b) && Result(l, a + b) == Result(Result(l, a), b)
    decreases |a|
  {
    if a == [] {
      assert a + b == b;
    } else {
      assert (a + b)[1..] == a[1..] + b;
      RunsSplit(Step(l, a[0]).value, a[1..], b);
    }
  }

  /** Operations of one kind, adding or deleting outside `wanted`. */
  predicate Only(ops: seq<Op>, add: bool, wanted: set<string>) {
    forall op | op in ops :: if add then op.Add? else op.Delete? && op.address !in wanted
  }

  lemma {:induction false} MissingOnly(list: seq<string>, other: set<string>, add: bool)
    ensures Only(Missing(list, other, add), add, other)
  {
    if list != [] {
      MissingOnly(list[1..], other, add);
    }
  }

  lemma {:induction false} OnlyRun(l: Link, ops: seq<Op>, add: bool, wanted: set<string>)
    requires Runs(l, ops) && Only(ops, add, wanted) && (!add ==> wanted <= l.addrs)
    ensures var r := Result(l, ops); r.up == l.up && if add then l.addrs <= r.addrs else wanted <= r.addrs
    decreases |ops|
  {
    if ops != [] {
      assert ops[0] in ops && Only(ops[1..], add, wanted);
      OnlyRun(Step(l, ops[0]).value, ops[1..], add, wanted);
    }
  }

  /** Make before break: part of the way, nothing has been deleted or everything wanted is there. */
  lemma PartWay(l: Link, current: seq<string>, next: seq<string>, n: nat)
    requires Distinct(current) && Distinct(next) && SetOf(current) == l.addrs && n <= |Plan(current, next)|
    requires Runs(l, Plan(current, next)[..n])
    ensures var r := Result(l, Plan(current, next)[..n]);
            if next == [] then r == (if n == 0 then l else if n == 1 then l.(addrs := {}) else Link(false, {}))
            else
              && r.up == (n > 0 || l.up)
              && (l.addrs <= r.addrs || SetOf(next) <= r.addrs)
              && (n == 0 ==> r == l)
  {
    var ops := Plan(current, next)[..n];
    if next == [] {
      TornDown(l, ops);
    } else if n > 0 {
      var adds, dels := Missing(next, SetOf(current), true), Missing(current, SetOf(next), false);
      assert ops == [Up] + (adds + dels)[..n - 1];
      assert ops[1..] == (adds + dels)[..n - 1];
      MissingOnly(current, SetOf(next), false);
      AddsFirst(l.(up := true), next, SetOf(current), dels, SetOf(next), n - 1);
    }
  }

  lemma DeletesSingly(current: seq<string>, next: seq<string>)
    ensures next != [] ==> DeleteAll !in Plan(current, next)
  {
    MissingOnly(next, SetOf(current), true);
    MissingOnly(current, SetOf(next), false);
  }

  lemma TornDown(l: Link, ops: seq<Op>)
    requires ops <= [DeleteAll, Down] && Runs(l, ops)
    ensures Result(l, ops) ==
            if |ops| == 0 then l else if |ops| == 1 then l.(addrs := {}) else Link(false, {})
  {
    if |ops| == 1 {
      assert ops[1..] == [];
    } else if |ops| == 2 {
      assert ops == [DeleteAll, Down];
      TearDown(l);
    }
  }

  lemma AddsFirst(l: Link, next: seq<string>, present: set<string>, dels: seq<Op>, wanted: set<string>, n: nat)
    requires Distinct(next) && present == l.addrs && wanted == SetOf(next) && Only(dels, false, wanted)
    requires var adds := Missing(next, present, true); n <= |adds + dels| && Runs(l, (adds + dels)[..n])
    ensures var r := Result(l, (Missing(next, present, true) + dels)[..n]);
            r.up == l.up && (l.addrs <= r.addrs || wanted <= r.addrs)
  {
    var adds := Missing(next, present, true);
    MissingOnly(next, present, true);
    if n <= |adds| {
      assert (adds + dels)[..n] == adds[..n];
      OnlyRun(l, adds[..n], true, present);
    } else {
      var some := dels[..n - |adds|];
      assert (adds + dels)[..n] == adds + some;
      AddsRun(l, next, present);
      RunsSplit(l, adds, some);
      OnlyRun(Result(l, adds), some, false, wanted);
    }
  }

  /** An interface that may fail: at operation number `fault`, with the addresses in `left`
      surviving if that operation deletes all of them. */
  class NetworkInterface {
    var link: Link

    constructor (link: Link)
      ensures this.link == link
    {
      this.link := link;
    }

    /** `n` operations have been carried out when it ends; a failing DeleteAll may delete some. */
    method RunOps(ops: seq<Op>, fault: Option<nat>, left: set<string>, ghost keep: set<string>, ghost may: set<string>)
      returns (ok: bool, ghost n: nat)
      requires keep <= link.addrs && forall op | op in ops :: Gentle(op, keep, may)
      modifies this
      ensures Runs(old(link), ops) ==> (ok <==> fault == None || fault.value >= |ops|)
      ensures n <= |ops| && (ok <==> n == |ops|) && Runs(old(link), ops[..n])
      ensures var l := Result(old(link), ops[..n]);
              link == if !ok && fault == Some(n) && ops[n].DeleteAll? then l.(addrs := l.addrs * left) else l
      ensures keep <= link.addrs <= old(link).addrs + may
    {
      n := 0;
      for i := 0 to |ops|
        invariant n == i && (fault.Some? ==> i <= fault.value)
        invariant Runs(old(link), ops[..i]) && link == Result(old(link), ops[..i])
        invariant Runs(old(link), ops) ==> Runs(link, ops[i..])
        invariant keep <= link.addrs <= old(link).addrs + may
      {
        assert Gentle(ops[i], keep, may) && ops[i..][1..] == ops[i + 1..];
        if fault == Some(i) {
          if ops[i].DeleteAll? {
            link := link.(addrs := link.addrs * left);
          }
          return false, i;
        }
        var s := Step(link, ops[i]);
        if s.None? {
          return false, i;
        }
        OneMore(old(link), ops, i);
        link := s.value;
        n := i + 1;
      }
      assert ops[..|ops|] == ops;
      ok := true;
    }

    /** One pass towards the wanted addresses.  Wherever it fails, nothing that is present and wanted
        has gone and nothing foreign has come; nothing has been deleted unless all that is wanted is
        there; and the interface is up with new addresses, down only without any. */
    method RunOnce(current: seq<string>, next: seq<string>, fault: Option<nat>, left: set<string>) returns (ok: bool)
      requires Distinct(current) && Distinct(next) && SetOf(current) == link.addrs
      modifies this
      ensures fault == None ==> ok && link == Link(next != [], SetOf(next))
      ensures old(link).addrs * SetOf(next) <= link.addrs <= old(link).addrs + SetOf(next)
      ensures next != [] ==> old(link).addrs <= link.addrs || SetOf(next) <= link.addrs
      ensures next != [] ==> link.up || link == old(link)
      ensures next == [] ==> link.up == old(link).up || link == Link(false, {})
    {
      var ops := DecideOps(current, next);
      PlanConverges(link, current, next);
      PlanGentle(current, next);
      ghost var n;
      ok, n := RunOps(ops, fault, left, SetOf(current) * SetOf(next), SetOf(next));
      assert ops[..|ops|] == ops;
      PartWay(old(link), current, next, n);
      DeletesSingly(current, next);
    }

    /** Passes with faults anywhere, then one without: after each of them the addresses that
        were present and wanted at the start are still there and nothing foreign has been added,
        and the last pass converges. */
    method RunPasses(next: seq<string>, faults: seq<nat>, left: set<string>) returns (trace: seq<Link>)
      requires Distinct(next)
      modifies this
      ensures |trace| == |faults|
      ensures forall k | 0 <= k < |trace| ::
                old(link).addrs * SetOf(next) <= trace[k].addrs <= old(link).addrs + SetOf(next)
      ensures link == Link(next != [], SetOf(next))
    {
      var ok;
      trace := [];
      for k := 0 to |faults|
        invariant |trace| == k
        invariant forall j | 0 <= j < k ::
                    old(link).addrs * SetOf(next) <= trace[j].addrs <= old(link).addrs + SetOf(next)
        invariant old(link).addrs * SetOf(next) <= link.addrs <= old(link).addrs + SetOf(next)
      {
        var current := ListAddrs(link.addrs);
        ok := RunOnce(current, next, Some(faults[k]), left);
        trace := trace + [link];
      }
      var current := ListAddrs(link.addrs);
      ok := RunOnce(current, next, None, left);
    }
  }

  /** The addresses in some order, without repetition. */
  method ListAddrs(addrs: set<string>) returns (list: seq<string>)
    ensures Distinct(list) && SetOf(list) == addrs
  {
    list := [];
    var rest := addrs;
    while rest != {}
      invariant rest <= addrs && Distinct(list) && SetOf(list) == addrs - rest
      decreases |rest|
    {
      var a :| a in rest;
      assert a !in SetOf(list);
      assert SetOf(list + [a]) == SetOf(list) + {a};
      list := list + [a];
      rest := rest - {a};
    }
  }
}
