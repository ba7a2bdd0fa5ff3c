/** Every step of neco-rebooter keeps the invariant; what follows for every run. */
module RebooterRuns {
  import opened RebooterPlan
  import opened RebooterProtocol
  import opened RebooterSafety
  import opened RebooterDecide

  /** The stores stay sound when a pass ends early, is not at work, or goes on to its next task. */
  lemma SameStores(s: State, t: State)
    requires StoreInv(s) && t.list == s.list && t.queue == s.queue && t.group == s.group
    requires t.nextList == s.nextList && t.nextQueue == s.nextQueue && t.life == s.life
    ensures StoreInv(t)
  {
    assert forall k | k in t.queue :: ItemOk(s, k) ==> ItemOk(t, k);
  }

  /** What must be shown when the first task is done and the rest remains. */
  lemma PopOk(s: State, t: State, tasks: seq<Task>)
    requires tasks != [] && (forall a, b | a in tasks && b in tasks :: Compatible(a, b))
    requires forall x | x in tasks[1..] :: TaskOk(t, x)
    requires forall n: nat | 0 < n < |tasks| :: PlaceAfter(t, tasks, n)
    ensures TasksOk(t, tasks[1..], false)
  {
    var rest := tasks[1..];
    forall n: nat | n < |rest|
      ensures PlaceOk(t, rest, false, n)
    {
      assert PlaceAfter(t, tasks, n + 1);
      assert tasks[1..n + 1] == rest[..n] && rest[n] == tasks[n + 1];
    }
  }

  /** Place n of the plan, seen after the first task has been done. */
  ghost predicate PlaceAfter(t: State, tasks: seq<Task>, n: nat)
    requires 0 < n < |tasks|
  {
    && (tasks[n].Enqueue? ==> EnqueueOk(t, tasks[n].e, tasks[1..n], false))
    && (tasks[n].Move? ==> MoveOk(t, tasks[1..n]))
  }

  // ---- Withdrawing a queue entry ---------------------------------------------------

  lemma WithdrawTask(s: State, k: int, x: Task)
    requires TaskOk(s, x)
    ensures TaskOk(Withdraw(s, k), x)
  {
    var t := Withdraw(s, k);
    assert forall m | Live(t, m) :: Live(s, m);
  }

  lemma WithdrawStores(s: State, k: int)
    requires StoreInv(s) && Safe(s, k)
    ensures StoreInv(Withdraw(s, k))
  {
    var t := Withdraw(s, k);
    forall m | m in t.queue
      ensures ItemOk(t, m)
    {
      assert ItemOk(s, m);
    }
    assert forall m | Live(t, m) :: Live(s, m);
    forall i | i in t.list && t.list[i].status == Queued
      ensures Registered(t, i)
    {
      assert Registered(s, i);
    }
  }

  /** Once k is withdrawn and its owner demoted, later places no longer wait for it. */
  lemma WithdrawPlace(s: State, tasks: seq<Task>, half: bool, k: int, n: nat)
    requires 0 < n < |tasks| && PlaceOk(s, tasks, half, n) && !tasks[0].Move? && !tasks[0].Enqueue?
    requires tasks[0].Dequeue? ==>
               && tasks[0].q.index == k
               && (tasks[0].e.index in s.list ==> s.list[tasks[0].e.index].status != Queued)
    ensures PlaceAfter(Withdraw(s, k), tasks, n)
  {
    var t := Withdraw(s, k);
    assert tasks[..n] == [tasks[0]] + tasks[1..n];
    assert forall m | Live(t, m) :: Live(s, m) && m != k;
    if tasks[n].Enqueue? {
      forall m | Live(t, m)
        ensures t.queue[m].owner in t.list && Settled(t, m, tasks[n].e, tasks[1..n], false)
      {
        assert Settled(s, m, tasks[n].e, tasks[..n], half);
        if Dequeues(tasks[..n], m) {
          var x :| x in tasks[..n] && x.Dequeue? && x.q.index == m;
          assert x in tasks[1..n];
        }
      }
    }
    if tasks[n].Move? {
      forall m | Live(t, m) && t.queue[m].owner in t.list && t.list[t.queue[m].owner].status == Queued
        ensures Demotes(tasks[1..n], t.queue[m].owner)
      {
        var x :| x in tasks[..n] && x.Dequeue? && x.e.index == s.queue[m].owner;
        assert x in tasks[1..n];
      }
    }
  }

  /** Second write of a dequeue, or the write of an orphan. */
  lemma WithdrawPops(s: State, tasks: seq<Task>, half: bool, k: int)
    requires StoreInv(s) && tasks != [] && TasksOk(s, tasks, half) && Safe(s, k)
    requires (tasks[0].Orphan? && tasks[0].q.index == k) || (tasks[0].Dequeue? && half && tasks[0].q.index == k)
    ensures StoreInv(Withdraw(s, k)) && TasksOk(Withdraw(s, k), tasks[1..], false)
  {
    WithdrawStores(s, k);
    forall x | x in tasks[1..]
      ensures TaskOk(Withdraw(s, k), x)
    {
      assert x in tasks;
      WithdrawTask(s, k, x);
    }
    forall n: nat | 0 < n < |tasks|
      ensures PlaceAfter(Withdraw(s, k), tasks, n)
    {
      assert PlaceOk(s, tasks, half, n);
      WithdrawPlace(s, tasks, half, k, n);
    }
    PopOk(s, Withdraw(s, k), tasks);
  }

  /** First write of a drop. */
  lemma WithdrawDropped(s: State, tasks: seq<Task>, k: int)
    requires StoreInv(s) && tasks != [] && TasksOk(s, tasks, false)
    requires tasks[0].Drop? && tasks[0].found.Some? && tasks[0].found.value.index == k
    ensures StoreInv(Withdraw(s, k)) && TasksOk(Withdraw(s, k), tasks, true)
  {
    var t := Withdraw(s, k);
    assert TaskOk(s, tasks[0]);
    WithdrawStores(s, k);
    assert forall m | Live(t, m) :: Live(s, m) && m != k;
    forall x | x in tasks
      ensures TaskOk(t, x)
    {
      WithdrawTask(s, k, x);
    }
    forall n: nat | n < |tasks|
      ensures PlaceOk(t, tasks, true, n)
    {
      assert PlaceOk(s, tasks, false, n);
      assert Compatible(tasks[n], tasks[0]);
    }
  }

  // ---- Removing a list entry -------------------------------------------------------

  lemma RemovePops(s: State, tasks: seq<Task>, half: bool)
    requires StoreInv(s) && tasks != [] && TasksOk(s, tasks, half)
    requires (tasks[0].Drop? && (half || tasks[0].found.None?)) || tasks[0].Finish?
    ensures var t := s.(list := s.list - {tasks[0].e.index});
            StoreInv(t) && TasksOk(t, tasks[1..], false)
  {
    var i := tasks[0].e.index;
    var t := s.(list := s.list - {i});
    assert TaskOk(s, tasks[0]);
    assert Unowned(s, i);
    forall k | k in t.queue
      ensures ItemOk(t, k)
    {
      assert ItemOk(s, k);
    }
    forall j | j in t.list && t.list[j].status == Queued
      ensures Registered(t, j)
    {
      assert Registered(s, j);
    }
    forall x | x in tasks[1..]
      ensures TaskOk(t, x)
    {
      assert x in tasks && TaskOk(s, x) && Compatible(tasks[0], x) && Compatible(x, tasks[0]);
    }
    forall n: nat | 0 < n < |tasks|
      ensures PlaceAfter(t, tasks, n)
    {
      RemovePlace(s, t, tasks, half, i, n);
    }
    PopOk(s, t, tasks);
  }

  lemma RemovePlace(s: State, t: State, tasks: seq<Task>, half: bool, i: int, n: nat)
    requires 0 < n < |tasks| && PlaceOk(s, tasks, half, n) && t == s.(list := s.list - {i}) && Unowned(s, i)
    requires tasks[0].Drop? || tasks[0].Finish?
    ensures PlaceAfter(t, tasks, n)
  {
    assert tasks[..n] == [tasks[0]] + tasks[1..n];
    if tasks[n].Enqueue? {
      forall m | Live(t, m)
        ensures t.queue[m].owner in t.list && Settled(t, m, tasks[n].e, tasks[1..n], false)
      {
        assert Live(s, m) && Settled(s, m, tasks[n].e, tasks[..n], half);
      }
    }
    if tasks[n].Move? {
      forall m | Live(t, m) && t.queue[m].owner in t.list && t.list[t.queue[m].owner].status == Queued
        ensures Demotes(tasks[1..n], t.queue[m].owner)
      {
        assert Live(s, m);
        var x :| x in tasks[..n] && x.Dequeue? && x.e.index == s.queue[m].owner;
        assert x in tasks[1..n];
      }
    }
  }

  // ---- Dequeueing ------------------------------------------------------------------

  /** First write of a dequeue. */
  lemma DemoteKeeps(s: State, tasks: seq<Task>)
    requires StoreInv(s) && tasks != [] && TasksOk(s, tasks, false) && tasks[0].Dequeue?
    ensures var t := SetList(s, tasks[0].e.(status := Pending));
            StoreInv(t) && TasksOk(t, tasks, true)
  {
    var e, q := tasks[0].e, tasks[0].q;
    var t := SetList(s, e.(status := Pending));
    assert TaskOk(s, tasks[0]);
    forall x | x in tasks
      ensures TaskOk(t, x)
    {
      assert TaskOk(s, x) && Compatible(x, tasks[0]);
    }
    forall n: nat | n < |tasks|
      ensures PlaceOk(t, tasks, true, n)
    {
      assert PlaceOk(s, tasks, false, n);
    }
  }

  // ---- Enqueueing ------------------------------------------------------------------

  /** Nothing is registered while a live entry is pending in the list or of another group. */
  lemma FirstEnqueue(s: State, tasks: seq<Task>)
    requires tasks != [] && TasksOk(s, tasks, false) && tasks[0].Enqueue?
    ensures var e := tasks[0].e;
            && e.index in s.list && Same(s.list[e.index], e) && e.group == s.group
            && (forall k | k in s.queue :: s.queue[k].node != e.node)
            && (forall k | Live(s, k) ::
                  && s.queue[k].owner in s.list && s.queue[k].group == e.group
                  && s.list[s.queue[k].owner].status != Pending)
  {
    assert TaskOk(s, tasks[0]) && PlaceOk(s, tasks, false, 0);
    assert tasks[..0] == [];
  }

  lemma EnlistStores(s: State, e: Entry)
    requires StoreInv(s) && e.index in s.list && Same(s.list[e.index], e) && e.group == s.group
    requires forall k | k in s.queue :: s.queue[k].node != e.node
    requires forall k | Live(s, k) :: s.queue[k].group == e.group
    ensures StoreInv(Enlist(s, e))
  {
    var t := Enlist(s, e);
    forall k | k in t.queue
      ensures ItemOk(t, k)
    {
      if k != s.nextQueue {
        assert ItemOk(s, k);
      }
    }
    assert forall k | k in s.queue :: ItemOk(s, k);
    assert forall k | Live(t, k) && k != s.nextQueue :: Live(s, k);
    forall i | i in t.list && t.list[i].status == Queued
      ensures Registered(t, i)
    {
      assert Registered(s, i);
    }
  }

  lemma NoLaterMove(s: State, tasks: seq<Task>, n: nat)
    requires TasksOk(s, tasks, false) && 0 < n < |tasks| && tasks[0].Enqueue?
    ensures !tasks[n].Move? && forall x | x in tasks[..n] :: !x.Move?
  {
    forall m: nat | m < |tasks|
      ensures !tasks[m].Move?
    {
      assert PlaceOk(s, tasks, false, m);
      if m > 0 {
        assert tasks[0] in tasks[..m];
      }
    }
  }

  lemma EnlistPlace(s: State, tasks: seq<Task>, n: nat)
    requires StoreInv(s) && TasksOk(s, tasks, false) && n < |tasks| && tasks[0].Enqueue?
    ensures PlaceOk(Enlist(s, tasks[0].e), tasks, true, n)
  {
    var t := Enlist(s, tasks[0].e);
    FirstEnqueue(s, tasks);
    if n > 0 {
      NoLaterMove(s, tasks, n);
      if tasks[n].Enqueue? {
        assert PlaceOk(s, tasks, false, n);
        assert tasks[0] in tasks[..n];
        forall m | Live(t, m)
          ensures t.queue[m].owner in t.list && Settled(t, m, tasks[n].e, tasks[..n], true)
        {
          if m != s.nextQueue {
            assert Live(s, m) && Settled(s, m, tasks[n].e, tasks[..n], false);
          }
        }
      }
    }
  }

  /** First write of an enqueue. */
  lemma EnlistKeeps(s: State, tasks: seq<Task>)
    requires StoreInv(s) && tasks != [] && TasksOk(s, tasks, false) && tasks[0].Enqueue?
    ensures StoreInv(Enlist(s, tasks[0].e)) && TasksOk(Enlist(s, tasks[0].e), tasks, true)
  {
    var e := tasks[0].e;
    var t := Enlist(s, e);
    FirstEnqueue(s, tasks);
    EnlistStores(s, e);
    forall x | x in tasks
      ensures TaskOk(t, x)
    {
      assert Compatible(tasks[0], x) && Compatible(x, tasks[0]);
    }
    forall n: nat | n < |tasks|
      ensures PlaceOk(t, tasks, true, n)
    {
      EnlistPlace(s, tasks, n);
    }
  }

  /** Second write of an enqueue. */
  lemma PromotePops(s: State, tasks: seq<Task>)
    requires StoreInv(s) && tasks != [] && TasksOk(s, tasks, true) && tasks[0].Enqueue?
    ensures var t := SetList(s, tasks[0].e.(status := Queued));
            StoreInv(t) && TasksOk(t, tasks[1..], false)
  {
    var e := tasks[0].e;
    var t := SetList(s, e.(status := Queued));
    assert TaskOk(s, tasks[0]);
    forall x | x in tasks[1..]
      ensures TaskOk(t, x)
    {
      assert x in tasks && TaskOk(s, x) && Compatible(tasks[0], x);
    }
    forall n: nat | 0 < n < |tasks|
      ensures PlaceAfter(t, tasks, n)
    {
      assert PlaceOk(s, tasks, true, n);
    }
    PopOk(s, t, tasks);
  }

  // ---- Moving to another group -----------------------------------------------------

  lemma MovePops(s: State, tasks: seq<Task>)
    requires StoreInv(s) && tasks != [] && TasksOk(s, tasks, false) && tasks[0].Move?
    ensures var t := s.(group := tasks[0].group);
            StoreInv(t) && TasksOk(t, tasks[1..], false)
  {
    var t := s.(group := tasks[0].group);
    assert PlaceOk(s, tasks, false, 0) && tasks[..0] == [];
    forall k | k in t.queue
      ensures ItemOk(t, k)
    {
      assert ItemOk(s, k);
    }
    forall i | i in t.list && t.list[i].status == Queued
      ensures Registered(t, i)
    {
      assert Registered(s, i);
    }
    forall x | x in tasks[1..]
      ensures TaskOk(t, x)
    {
      assert x in tasks && TaskOk(s, x);
    }
    forall n: nat | 0 < n < |tasks|
      ensures PlaceAfter(t, tasks, n)
    {
      assert PlaceOk(s, tasks, false, n);
    }
    PopOk(s, t, tasks);
  }

  // ---- Every run -------------------------------------------------------------------

  /** The stores are as in u, where the remaining tasks are sound. */
  lemma WrittenKeeps(u: State, t: State)
    requires StoreInv(u) && t == u.(ctl := t.ctl) && (t.ctl.Resting? || t.ctl.Working?)
    requires t.ctl.Working? ==> TasksOk(u, t.ctl.tasks, t.ctl.half)
    ensures Inv(t)
  {
    SameStores(u, t);
    Relabel(u, t);
  }

  lemma DequeueKeeps(s: State)
    requires Inv(s) && Enabled(s, Write) && (s.ctl.tasks[0].Dequeue? || s.ctl.tasks[0].Orphan?)
    ensures Inv(WriteStep(s))
  {
    var tasks, half := s.ctl.tasks, s.ctl.half;
    var x := tasks[0];
    assert TaskOk(s, x);
    if x.Dequeue? && !half {
      DemoteKeeps(s, tasks);
      WrittenKeeps(SetList(s, x.e.(status := Pending)), WriteStep(s));
    } else if x.q.index in s.queue {
      WithdrawPops(s, tasks, half, x.q.index);
      WrittenKeeps(Withdraw(s, x.q.index), WriteStep(s));
    } else {
      WrittenKeeps(s, WriteStep(s));
    }
  }

  lemma DropKeeps(s: State)
    requires Inv(s) && Enabled(s, Write) && (s.ctl.tasks[0].Drop? || s.ctl.tasks[0].Finish?)
    ensures Inv(WriteStep(s))
  {
    var tasks, half := s.ctl.tasks, s.ctl.half;
    var x := tasks[0];
    assert TaskOk(s, x);
    if x.Finish? || x.found.None? || half {
      RemovePops(s, tasks, half);
      WrittenKeeps(s.(list := s.list - {x.e.index}), WriteStep(s));
    } else if x.found.value.index in s.queue {
      WithdrawDropped(s, tasks, x.found.value.index);
      WrittenKeeps(Withdraw(s, x.found.value.index), WriteStep(s));
    } else {
      WrittenKeeps(s, WriteStep(s));
    }
  }

  lemma EnqueueKeeps(s: State)
    requires Inv(s) && Enabled(s, Write) && s.ctl.tasks[0].Enqueue?
    ensures Inv(WriteStep(s))
  {
    var tasks := s.ctl.tasks;
    var e := tasks[0].e;
    assert TaskOk(s, tasks[0]);
    if s.ctl.half {
      PromotePops(s, tasks);
      WrittenKeeps(SetList(s, e.(status := Queued)), WriteStep(s));
    } else {
      EnlistKeeps(s, tasks);
      WrittenKeeps(Enlist(s, e), WriteStep(s));
    }
  }

  lemma WriteKeeps(s: State)
    requires Inv(s) && Enabled(s, Write)
    ensures Inv(WriteStep(s))
  {
    match s.ctl.tasks[0]
    case Dequeue(_, _) => DequeueKeeps(s);
    case Orphan(_) => DequeueKeeps(s);
    case Drop(_, _) => DropKeeps(s);
    case Finish(_) => DropKeeps(s);
    case Enqueue(_) => EnqueueKeeps(s);
    case Move(g) =>
      MovePops(s, s.ctl.tasks);
      WrittenKeeps(s.(group := g), WriteStep(s));
  }

  /** The plan's soundness does not depend on the controller field. */
  lemma Relabel(u: State, t: State)
    requires t == u.(ctl := t.ctl)
    ensures t.ctl.Working? && TasksOk(u, t.ctl.tasks, t.ctl.half) ==> TasksOk(t, t.ctl.tasks, t.ctl.half)
  {
    if t.ctl.Working? && TasksOk(u, t.ctl.tasks, t.ctl.half) {
      var tasks, half := t.ctl.tasks, t.ctl.half;
      forall x | x in tasks
        ensures TaskOk(t, x)
      {
        assert TaskOk(u, x);
      }
      forall n: nat | n < |tasks|
        ensures PlaceOk(t, tasks, half, n)
      {
        assert PlaceOk(u, tasks, half, n);
        if tasks[n].Enqueue? && !(half && n == 0) {
          forall k | Live(t, k)
            ensures t.queue[k].owner in t.list && Settled(t, k, tasks[n].e, tasks[..n], half)
          {
            assert Live(u, k);
          }
        }
      }
    }
  }

  lemma DecideKeeps(s: State, enabled: bool, candidates: seq<string>, ok: set<int>)
    requires Inv(s) && Enabled(s, Decide(enabled, candidates, ok))
    ensures Inv(Apply(s, Decide(enabled, candidates, ok)))
  {
    var t := Apply(s, Decide(enabled, candidates, ok));
    PlanIsOk(s, View(s.ctl.list, s.ctl.queue, s.group, ok), enabled, candidates);
    SameStores(s, t);
    Relabel(s, t);
  }

  lemma NextInv(s: State, a: Action)
    requires Inv(s) && Enabled(s, a)
    ensures Inv(Apply(s, a))
  {
    match a
    case ReadList(l) => ReadListKeeps(s, l);
    case ReadQueue(q) => ReadQueueKeeps(s, q);
    case Decide(enabled, candidates, ok) => DecideKeeps(s, enabled, candidates, ok);
    case Write => WriteKeeps(s);
    case Crash => SameStores(s, Apply(s, a));
    case Add(_, _, _) => EnvironmentKeeps(s, a);
    case Cancel(_) => EnvironmentKeeps(s, a);
    case Advance(_, _, _) => EnvironmentKeeps(s, a);
    case Remove(_) => EnvironmentKeeps(s, a);
  }

  lemma {:induction false} RunInv(s: State, acts: seq<Action>)
    requires Inv(s) && IsRun(s, acts)
    ensures Inv(After(s, acts))
    decreases |acts|
  {
    if acts != [] {
      NextInv(s, acts[0]);
      RunInv(Apply(s, acts[0]), acts[1..]);
    }
  }

  lemma ReachableInv(s: State)
    requires Reachable(s)
    ensures Inv(s)
  {
    var s0, acts :| Init(s0) && IsRun(s0, acts) && After(s0, acts) == s;
    RunInv(s0, acts);
  }

  /** One group at a time: in every reachable state all queue entries that are not withdrawn
      belong to one group, each to a list entry of that node and group, and no node has two
      queue entries. */
  lemma OneGroupAtATime(s: State)
    requires Reachable(s)
    ensures forall k, m | Live(s, k) && Live(s, m) :: s.queue[k].group == s.queue[m].group
    ensures forall k, m | k in s.queue && m in s.queue && k != m :: s.queue[k].node != s.queue[m].node
    ensures forall k | Live(s, k) ::
              && s.queue[k].owner in s.list
              && s.list[s.queue[k].owner].node == s.queue[k].node
              && s.list[s.queue[k].owner].group == s.queue[k].group
  {
    ReachableInv(s);
    assert forall k | k in s.queue :: ItemOk(s, k);
  }

  /** Completion is sound: an entry is about to be removed as rebooted only if the controller
      registered it and CKE took that queue entry away without the controller having withdrawn
      it; and an entry the list holds as queued has never been withdrawn. */
  lemma CompletionSound(s: State)
    requires Reachable(s)
    ensures s.ctl.Working? && s.ctl.tasks != [] && s.ctl.tasks[0].Finish? ==>
              var i := s.ctl.tasks[0].e.index;
              i in s.life && s.life[i] == Served && Unowned(s, i)
    ensures forall i | i in s.list && s.list[i].status == Queued :: i in s.life && s.life[i] != TakenBack
  {
    ReachableInv(s);
    if s.ctl.Working? && s.ctl.tasks != [] {
      assert TaskOk(s, s.ctl.tasks[0]);
    }
    forall i | i in s.list && s.list[i].status == Queued
      ensures i in s.life && s.life[i] != TakenBack
    {
      assert Registered(s, i);
    }
  }

  /** Leftovers first: when the controller is about to register a node, no half-done enqueue or
      dequeue is left over.  Every live queue entry is of the node's group and its list entry is
      not pending, and the node has no queue entry. */
  lemma LeftoversFirst(s: State)
    requires Reachable(s) && s.ctl.Working? && s.ctl.tasks != [] && s.ctl.tasks[0].Enqueue? && !s.ctl.half
    ensures var e := s.ctl.tasks[0].e;
            && e.group == s.group
            && (forall k | k in s.queue :: s.queue[k].node != e.node)
            && (forall k | Live(s, k) ::
                  && s.queue[k].owner in s.list && s.list[s.queue[k].owner].status != Pending
                  && s.queue[k].group == e.group)
  {
    ReachableInv(s);
    FirstEnqueue(s, s.ctl.tasks);
  }
}
