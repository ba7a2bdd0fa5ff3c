/** How long the value of a reboot list entry lasts: an update in flight writes the value it was
    given at the start, whatever has been stored since. */
module RebootValues {
  import opened Common
  import opened RebootIndex

  lemma RunOne(s: State, a: Action, rest: seq<Action>)
    requires Enabled(s, a) && IsRun(Apply(s, a), rest)
    ensures IsRun(s, [a] + rest) && After(s, [a] + rest) == After(Apply(s, a), rest)
  {
    assert ([a] + rest)[1..] == rest;
  }

  lemma {:induction false} RunConcat(s: State, a: seq<Action>, b: seq<Action>)
    requires IsRun(s, a) && IsRun(After(s, a), b)
    ensures IsRun(s, a + b) && After(s, a + b) == After(After(s, a), b)
    decreases |a|
  {
    if a == [] {
      assert a + b == b;
    } else {
      RunConcat(Apply(s, a[0]), a[1..], b);
      assert (a + b)[1..] == a[1..] + b;
    }
  }

  /** The stored value of entry i, if it is stored. */
  function Stored(s: State, i: int): Option<Entry> {
    if i in s.list then Some(s.list[i].value) else None
  }

  predicate Updates(c: Client, i: int) {
    c.Updater? && c.entry.index == i
  }

  /** An updater that is left alone writes its own value, at once or after one failure. */
  lemma AloneWrites(s: State, p: int) returns (acts: seq<Action>)
    requires p in s.clients && s.clients[p].Updater? && s.clients[p].entry.index in s.list
    ensures forall a | a in acts :: a == Get(p) || a == Commit(p)
    ensures IsRun(s, acts) && Stored(After(s, acts), s.clients[p].entry.index) == Some(s.clients[p].entry)
  {
    if s.clients[p].revision.None? {
      acts := RetryWrites(s, p);
    } else {
      var t := Apply(s, Commit(p));
      acts := [];
      if p in t.clients {
        acts := RetryWrites(t, p);
      }
      RunOne(s, Commit(p), acts);
      acts := [Commit(p)] + acts;
    }
  }

  lemma RetryWrites(s: State, p: int) returns (acts: seq<Action>)
    requires Enabled(s, Get(p)) && s.clients[p].Updater? && s.clients[p].entry.index in s.list
    ensures acts == [Get(p)] + ([Commit(p)] + [])
    ensures IsRun(s, acts) && Stored(After(s, acts), s.clients[p].entry.index) == Some(s.clients[p].entry)
  {
    var t := Apply(s, Get(p));
    RunOne(t, Commit(p), []);
    RunOne(s, Get(p), [Commit(p)] + []);
    acts := [Get(p)] + ([Commit(p)] + []);
  }

  /** Nobody begins another update of i. */
  ghost predicate NoNewUpdate(acts: seq<Action>, i: int) {
    forall a | a in acts && a.BeginUpdate? :: a.entry.index != i
  }

  /** Every update of i in flight carries the value v. */
  ghost predicate AllCarry(s: State, i: int, v: Entry) {
    forall p | p in s.clients && Updates(s.clients[p], i) :: s.clients[p].entry == v
  }

  /** The value v of i, or its absence after a removal, outlasts one action. */
  lemma ValueStays(s: State, a: Action, i: int, v: Entry)
    requires Inv(s) && Enabled(s, a) && NoNewUpdate([a], i)
    requires Registered(i) in s.log && (i in s.list ==> s.list[i].value == v) && AllCarry(s, i, v)
    ensures var t := Apply(s, a);
            Registered(i) in t.log && (i in t.list ==> t.list[i].value == v) && AllCarry(t, i, v)
  {
    assert a in [a];
    assert Registered(i).i < NextIndex(s);
    if a.Commit? {
      assert ClientOk(s, s.clients[a.p]);
    }
  }

  lemma {:induction false} ValueLasts(s: State, acts: seq<Action>, i: int, v: Entry)
    requires Inv(s) && IsRun(s, acts) && NoNewUpdate(acts, i)
    requires Registered(i) in s.log && (i in s.list ==> s.list[i].value == v) && AllCarry(s, i, v)
    ensures var t := After(s, acts); i in t.list ==> t.list[i].value == v
    decreases |acts|
  {
    if acts != [] {
      assert acts[0] in acts;
      assert NoNewUpdate([acts[0]], i) && NoNewUpdate(acts[1..], i);
      ValueStays(s, acts[0], i, v);
      NextInv(s, acts[0]);
      ValueLasts(Apply(s, acts[0]), acts[1..], i, v);
    }
  }

  /** In every continuation without a new update of i, its present value stays until removal. */
  ghost predicate Lasts(s: State, i: int)
    requires i in s.list
  {
    forall acts | IsRun(s, acts) && NoNewUpdate(acts, i) ::
      Stored(After(s, acts), i) in {None, Some(s.list[i].value)}
  }

  /** Exactly when a stored value, such as a cancellation, cannot be lost: every update of the
      entry that is already in flight carries that same value. */
  lemma LastsExactly(s: State, i: int)
    requires Reachable(s) && i in s.list
    ensures Lasts(s, i) <==> AllCarry(s, i, s.list[i].value)
  {
    ReachableInv(s);
    var v := s.list[i].value;
    if AllCarry(s, i, v) {
      forall acts | IsRun(s, acts) && NoNewUpdate(acts, i)
        ensures Stored(After(s, acts), i) in {None, Some(v)}
      {
        ValueLasts(s, acts, i, v);
      }
    } else {
      var p :| p in s.clients && Updates(s.clients[p], i) && s.clients[p].entry != v;
      var acts := AloneWrites(s, p);
      assert NoNewUpdate(acts, i);
    }
  }

  /** The run up to a stored entry. */
  lemma FirstEntry(s: State, body: string) returns (acts: seq<Action>)
    requires Init(s)
    ensures IsRun(s, acts)
    ensures After(s, acts) == s.(log := [Registered(0)], write := Some(Cell(1, s.base + 1)),
                                 list := map[0 := Cell(Entry(0, body), s.base + 1)])
  {
    var s1 := Apply(s, BeginRegister(0, body));
    var s2 := Apply(s1, Get(0));
    RunOne(s2, Commit(0), []);
    RunOne(s1, Get(0), [Commit(0)] + []);
    acts := [BeginRegister(0, body)] + ([Get(0)] + ([Commit(0)] + []));
    RunOne(s, BeginRegister(0, body), [Get(0)] + ([Commit(0)] + []));
    assert Apply(s2, Commit(0)).clients == s.clients;
  }

  /** The run of an update that nobody disturbs, made by client p. */
  lemma UpdateRun(s: State, p: int, e: Entry) returns (acts: seq<Action>)
    requires p !in s.clients && e.index in s.list
    ensures IsRun(s, acts)
    ensures After(s, acts) == s.(log := s.log + [Updated(e.index)],
                                 list := s.list[e.index := Cell(e, Revision(s) + 1)])
  {
    var s1 := Apply(s, BeginUpdate(p, e));
    var s2 := Apply(s1, Get(p));
    RunOne(s2, Commit(p), []);
    RunOne(s1, Get(p), [Commit(p)] + []);
    acts := [BeginUpdate(p, e)] + ([Get(p)] + ([Commit(p)] + []));
    RunOne(s, BeginUpdate(p, e), [Get(p)] + ([Commit(p)] + []));
    assert Apply(s2, Commit(p)).clients == s.clients;
  }

  /** A lost cancellation: an update with value q reads the entry; the cancellation c is stored
      completely; the update's transaction fails, and its retry stores q over c. */
  lemma CancellationLost(s0: State, body: string, q: Entry, c: Entry) returns (before: seq<Action>, after: seq<Action>)
    requires Init(s0) && q.index == c.index == 0 && q != c
    ensures IsRun(s0, before) && Stored(After(s0, before), 0) == Some(c)
    ensures after == [Commit(1), Get(1), Commit(1)] && IsRun(s0, before + after)
    ensures Stored(After(s0, before + after), 0) == Some(q)
  {
    var first := FirstEntry(s0, body);
    var s1 := After(s0, first);
    var s2 := Apply(s1, BeginUpdate(1, q));
    var s3 := Apply(s2, Get(1));
    var cancel := UpdateRun(s3, 2, c);
    RunOne(s2, Get(1), cancel);
    RunOne(s1, BeginUpdate(1, q), [Get(1)] + cancel);
    before := first + ([BeginUpdate(1, q)] + ([Get(1)] + cancel));
    RunConcat(s0, first, [BeginUpdate(1, q)] + ([Get(1)] + cancel));
    var s4 := After(s0, before);
    assert s4 == After(s3, cancel);
    var retry := RetryWrites(Apply(s4, Commit(1)), 1);
    RunOne(s4, Commit(1), retry);
    after := [Commit(1)] + retry;
    RunConcat(s0, before, after);
  }
}
