/** A pass's plan is sound with respect to the stores as they are when it is made. */
module RebooterDecide {
  import opened Common
  import opened RebooterPlan
  import opened RebooterProtocol
  import opened RebooterSafety

  ghost predicate OnePerNode(queue: seq<QueueEntry>) {
    forall x, y | x in queue && y in queue && x.node == y.node :: x == y
  }

  lemma {:induction false} FindWithdrawn(v: View, qs: seq<QueueEntry>, ws: seq<QueueEntry>, node: string)
    requires |qs| == |ws| && forall j | 0 <= j < |qs| :: ws[j] == WithdrawEntry(v, qs[j])
    ensures FindQueue(ws, node) ==
            match FindQueue(qs, node) case None => None case Some(q) => Some(WithdrawEntry(v, q))
  {
    if qs != [] {
      FindWithdrawn(v, qs[1..], ws[1..], node);
    }
  }

  lemma {:induction false} FindDemoted(v: View, es: seq<Entry>, ds: seq<Entry>, node: string)
    requires |es| == |ds| && forall j | 0 <= j < |es| :: ds[j] == DemoteEntry(v, es[j])
    ensures FindList(ds, node) ==
            match FindList(es, node) case None => None case Some(e) => Some(DemoteEntry(v, e))
  {
    if es != [] {
      FindDemoted(v, es[1..], ds[1..], node);
    }
  }

  /** The pass's copies when the rest of the plan is made: demoted if the queue was stuck. */
  ghost predicate Derived(v: View, w: View, stuck: bool) {
    && w.ok == v.ok
    && w.list == (if stuck then Demoted(v) else v).list
    && w.queue == (if stuck then Demoted(v) else v).queue
  }

  /** Looking up in the derived copies is looking up in the original ones. */
  lemma DerivedFind(v: View, w: View, stuck: bool, node: string)
    requires Derived(v, w, stuck)
    ensures FindQueue(w.queue, node).Some? == FindQueue(v.queue, node).Some?
    ensures FindQueue(v.queue, node).Some? ==>
              var q := FindQueue(v.queue, node).value;
              FindQueue(w.queue, node).value == if stuck then WithdrawEntry(v, q) else q
    ensures FindList(w.list, node).Some? == FindList(v.list, node).Some?
    ensures FindList(v.list, node).Some? ==>
              var e := FindList(v.list, node).value;
              FindList(w.list, node).value == if stuck then DemoteEntry(v, e) else e
  {
    if stuck {
      FindWithdrawn(v, v.queue, w.queue, node);
      FindDemoted(v, v.list, w.list, node);
    }
  }

  /** A derived list entry that is not pending was copied unchanged. */
  lemma DerivedEntry(v: View, w: View, stuck: bool, d: Entry)
    requires Derived(v, w, stuck) && d in w.list
    ensures d in v.list || (stuck && d.status == Pending && FindQueue(w.queue, d.node).Some?)
    ensures stuck && d.status == Queued ==> FindQueue(v.queue, d.node).None?
  {
    if stuck {
      var j :| 0 <= j < |w.list| && w.list[j] == d;
      assert d == DemoteEntry(v, v.list[j]);
      DerivedFind(v, w, stuck, d.node);
    }
  }

  lemma PickJustified(v: View, w: View, stuck: bool, kind: Kind, t: Task)
    requires Derived(v, w, stuck) && ForEntry(t) && t.e in w.list && Pick(kind, t.e, w) == Some(t)
    ensures Justified(v, t)
  {
    DerivedFind(v, w, stuck, t.e.node);
    DerivedEntry(v, w, stuck, t.e);
  }

  lemma OrphanJustified(v: View, w: View, stuck: bool, q: QueueEntry)
    requires Derived(v, w, stuck) && OnePerNode(v.queue) && q in w.queue && IsOrphan(q, w.list)
    ensures q in v.queue && IsOrphan(q, v.list)
  {
    if stuck {
      var j :| 0 <= j < |w.queue| && w.queue[j] == q;
      assert q == WithdrawEntry(v, v.queue[j]);
      DerivedFind(v, w, stuck, q.node);
      if FindList(v.list, q.node).Some? {
        var e := FindList(v.list, q.node).value;
        assert FindQueue(v.queue, e.node).Some? && FindQueue(v.queue, e.node).value == q;
        assert e.status == Queued ==> Pick(KQueued, e, v) == Some(Dequeue(e, q));
      }
    }
  }

  lemma RestKind(w: View, enabled: bool, t: Task) returns (kind: Kind)
    requires t in Rest(w, enabled) && t !in Orphans(w.queue, w.list)
    ensures t in Collect(kind, w.list, w)
  {
    if t in Collect(KDropped, w.list, w) {
      kind := KDropped;
    } else if t in Collect(KFinished, w.list, w) {
      kind := KFinished;
    } else if !enabled {
      kind := KQueued;
    } else {
      kind := if t in Collect(KNew, w.list, w) then KNew else KTimedOut;
    }
  }

  lemma RestJustified(v: View, w: View, stuck: bool, enabled: bool, t: Task)
    requires Derived(v, w, stuck) && OnePerNode(v.queue) && t in Rest(w, enabled)
    ensures Justified(v, t) && !t.Move?
  {
    if t in Orphans(w.queue, w.list) {
      OrphansExactly(w.queue, w.list);
      OrphanJustified(v, w, stuck, t.q);
    } else {
      var kind := RestKind(w, enabled, t);
      CollectExactly(kind, w.list, w);
      PickJustified(v, w, stuck, kind, t);
    }
  }

  /** The three parts of a plan. */
  lemma PlanParts(v: View, enabled: bool, candidates: seq<string>)
    returns (stuck: bool, w: View, a: seq<Task>, b: seq<Task>)
    ensures Plan(v, enabled, candidates) == a + b + Rest(w, enabled)
    ensures Derived(v, w, stuck)
    ensures a == if stuck then Collect(KQueued, v.list, v) else []
    ensures b == if w.group != v.group then [Move(w.group)] else []
    ensures w.group != v.group ==> stuck || v.queue == []
    ensures stuck <==> candidates != [] && enabled && Stuck(v.queue)
    ensures w.group == if candidates != [] && enabled && (v.queue == [] || stuck) then NextGroup(candidates, v.group)
                       else v.group
  {
    stuck := candidates != [] && enabled && Stuck(v.queue);
    var moves := candidates != [] && enabled && (v.queue == [] || stuck);
    var group := if moves then NextGroup(candidates, v.group) else v.group;
    w := (if stuck then Demoted(v) else v).(group := group);
    a := if stuck then Collect(KQueued, v.list, v) else [];
    b := if group != v.group then [Move(group)] else [];
  }

  lemma PlanJustified(v: View, enabled: bool, candidates: seq<string>, t: Task)
    requires OnePerNode(v.queue) && t in Plan(v, enabled, candidates)
    ensures Justified(v, t)
  {
    var stuck, w, a, b := PlanParts(v, enabled, candidates);
    assert t in a || t in b || t in Rest(w, enabled);
    if t in Rest(w, enabled) {
      RestJustified(v, w, stuck, enabled, t);
    } else if t in a {
      QueuedJustified(v, t);
    }
  }

  lemma QueuedJustified(v: View, t: Task)
    requires t in Collect(KQueued, v.list, v)
    ensures Justified(v, t)
  {
    CollectExactly(KQueued, v.list, v);
  }

  lemma NoEnqueue(kind: Kind, w: View, i: nat)
    requires i < |Collect(kind, w.list, w)|
    ensures var t := Collect(kind, w.list, w)[i]; ForEntry(t) && (kind != KNew ==> !t.Enqueue?)
  {
    CollectExactly(kind, w.list, w);
    assert Collect(kind, w.list, w)[i] in Collect(kind, w.list, w);
  }

  lemma OrphansOnly(w: View, i: nat)
    requires i < |Orphans(w.queue, w.list)|
    ensures Orphans(w.queue, w.list)[i].Orphan?
  {
    OrphansExactly(w.queue, w.list);
    assert Orphans(w.queue, w.list)[i] in Orphans(w.queue, w.list);
  }

  /** Enqueueing happens only when nothing is dropped and nothing is orphaned. */
  lemma EnqueueRest(w: View, enabled: bool, n: nat)
    requires n < |Rest(w, enabled)| && Rest(w, enabled)[n].Enqueue?
    ensures Collect(KDropped, w.list, w) == [] && Orphans(w.queue, w.list) == [] && enabled
    ensures var f := Collect(KFinished, w.list, w); var x := Collect(KNew, w.list, w);
            && |f| <= n < |f| + |x| && Rest(w, enabled)[n] == x[n - |f|]
            && Rest(w, enabled)[..n] == f + x[..n - |f|]
  {
    var r := Rest(w, enabled);
    if Collect(KDropped, w.list, w) != [] {
      NoEnqueue(KDropped, w, n);
    } else if Orphans(w.queue, w.list) != [] {
      OrphansOnly(w, n);
    } else {
      var f, x := Collect(KFinished, w.list, w), Collect(KNew, w.list, w);
      if n < |f| {
        NoEnqueue(KFinished, w, n);
      } else if !enabled {
        NoEnqueue(KQueued, w, n - |f|);
      } else if n >= |f| + |x| {
        NoEnqueue(KTimedOut, w, n - |f| - |x|);
      }
    }
  }

  lemma {:induction false} CollectOrdered(kind: Kind, list: seq<Entry>, v: View, i: nat, j: nat)
    requires forall a, b | 0 <= a < b < |list| :: list[a].index < list[b].index
    requires i < j < |Collect(kind, list, v)|
    ensures ForEntry(Collect(kind, list, v)[i]) && ForEntry(Collect(kind, list, v)[j])
    ensures Collect(kind, list, v)[i].e.index < Collect(kind, list, v)[j].e.index
  {
    var n := |list| - 1;
    var front := Collect(kind, list[..n], v);
    CollectExactly(kind, list[..n], v);
    if j < |front| {
      CollectOrdered(kind, list[..n], v, i, j);
    } else {
      assert front[i] in front;
    }
  }

  lemma ParallelTasks(s: State, v: View, enabled: bool, candidates: seq<string>, x: Task, y: Task)
    requires ViewOk(s, v) && x in Plan(v, enabled, candidates) && y in Plan(v, enabled, candidates)
    ensures Compatible(x, y)
  {
    PlanJustified(v, enabled, candidates, x);
    PlanJustified(v, enabled, candidates, y);
    if x.Enqueue? && (y.Drop? || y.Orphan?) {
      NoMixture(v, enabled, candidates, x, y);
    } else if ForEntry(x) && ForEntry(y) && x.e.index == y.e.index {
      SameEntry(s, v, x.e, y.e);
    }
  }

  lemma SameEntry(s: State, v: View, e: Entry, d: Entry)
    requires ViewOk(s, v) && e in v.list && d in v.list && e.index == d.index
    ensures e == d
  {
  }

  /** The rest of a plan is all drops, all orphans, or neither. */
  lemma RestKinds(w: View, enabled: bool, t: Task)
    requires t in Rest(w, enabled)
    ensures if Collect(KDropped, w.list, w) != [] then t.Drop?
            else if Orphans(w.queue, w.list) != [] then t.Orphan?
            else ForEntry(t) && !t.Drop?
  {
    if Collect(KDropped, w.list, w) != [] {
      CollectExactly(KDropped, w.list, w);
    } else if Orphans(w.queue, w.list) != [] {
      OrphansExactly(w.queue, w.list);
    } else {
      CollectExactly(KFinished, w.list, w);
      CollectExactly(KNew, w.list, w);
      CollectExactly(KTimedOut, w.list, w);
      CollectExactly(KQueued, w.list, w);
    }
  }

  /** Membership of a plan by parts. */
  lemma PlanMember(v: View, enabled: bool, a: seq<Task>, b: seq<Task>, r: seq<Task>, candidates: seq<string>, t: Task)
    requires Plan(v, enabled, candidates) == a + b + r && t in Plan(v, enabled, candidates)
    requires a == [] || a == Collect(KQueued, v.list, v)
    requires forall x | x in b :: x.Move?
    ensures t in r || t.Dequeue? || t.Move?
  {
    if t in a {
      CollectExactly(KQueued, v.list, v);
    }
  }

  lemma NoMixture(v: View, enabled: bool, candidates: seq<string>, x: Task, y: Task)
    requires x in Plan(v, enabled, candidates) && x.Enqueue?
    requires y in Plan(v, enabled, candidates)
    ensures !y.Drop? && !y.Orphan?
  {
    var stuck, w, a, b := PlanParts(v, enabled, candidates);
    var r := Rest(w, enabled);
    PlanMember(v, enabled, a, b, r, candidates, x);
    PlanMember(v, enabled, a, b, r, candidates, y);
    RestKinds(w, enabled, x);
    if y in r {
      RestKinds(w, enabled, y);
    }
  }

  // ---- Places in the plan --------------------------------------------------------

  /** The group changes right after the dequeues of a stuck queue. */
  lemma MovePlace(v: View, w: View, enabled: bool, a: seq<Task>, b: seq<Task>, n: nat)
    requires a == [] || a == Collect(KQueued, v.list, v)
    requires |b| <= 1 && n < |a + b + Rest(w, enabled)| && (a + b + Rest(w, enabled))[n].Move?
    ensures (a + b + Rest(w, enabled))[..n] == a && b != []
  {
    var r := Rest(w, enabled);
    if n < |a| {
      NoEnqueue(KQueued, v, n);
    } else if n >= |a| + |b| {
      assert r[n - |a| - |b|] in r;
      RestKinds(w, enabled, r[n - |a| - |b|]);
    }
  }

  /** Whatever is live and queued in the list is demoted before the group changes. */
  lemma MoveIsOk(s: State, v: View, enabled: bool, candidates: seq<string>, n: nat)
    requires ViewOk(s, v) && n < |Plan(v, enabled, candidates)| && Plan(v, enabled, candidates)[n].Move?
    ensures MoveOk(s, Plan(v, enabled, candidates)[..n])
  {
    var stuck, w, a, b := PlanParts(v, enabled, candidates);
    MovePlace(v, w, enabled, a, b, n);
    CollectExactly(KQueued, v.list, v);
    forall k | Live(s, k) && s.queue[k].owner in s.list && s.list[s.queue[k].owner].status == Queued
      ensures Demotes(a, s.queue[k].owner)
    {
    }
  }

  /** Everything before an enqueue: the dequeues, the move, the finished, earlier enqueues. */
  lemma EnqueuePlace(v: View, w: View, enabled: bool, a: seq<Task>, b: seq<Task>, n: nat)
    returns (f: seq<Task>, x: seq<Task>, i: nat)
    requires a == [] || a == Collect(KQueued, v.list, v)
    requires |b| <= 1 && (b != [] ==> b[0].Move?)
    requires n < |a + b + Rest(w, enabled)| && (a + b + Rest(w, enabled))[n].Enqueue?
    ensures f == Collect(KFinished, w.list, w) && x == Collect(KNew, w.list, w) && i < |x|
    ensures (a + b + Rest(w, enabled))[n] == x[i] && (a + b + Rest(w, enabled))[..n] == a + b + f + x[..i]
    ensures Collect(KDropped, w.list, w) == [] && Orphans(w.queue, w.list) == [] && enabled
  {
    var r := Rest(w, enabled);
    if n < |a| {
      NoEnqueue(KQueued, v, n);
      assert false;
    } else if n < |a| + |b| {
      assert false;
    }
    var m := n - |a| - |b|;
    assert (a + b + r)[n] == r[m];
    EnqueueRest(w, enabled, m);
    f, x := Collect(KFinished, w.list, w), Collect(KNew, w.list, w);
    i := m - |f|;
    assert (a + b + r)[..n] == a + b + r[..m];
  }

  /** A live queue entry that is not about to be dequeued is queued in the current group. */
  lemma LiveIsSettled(s: State, v: View, w: View, stuck: bool, k: int, e: Entry, before: seq<Task>)
    requires ViewOk(s, v) && Derived(v, w, stuck) && Live(s, k) && e.group == w.group
    requires w.group != v.group ==> stuck || v.queue == []
    requires Collect(KDropped, w.list, w) == [] && Orphans(w.queue, w.list) == []
    requires stuck ==> forall t | t in Collect(KQueued, v.list, v) :: t in before
    ensures s.queue[k].owner in s.list && Settled(s, k, e, before, false)
  {
    assert ItemOk(s, k);
    var o :| o in v.list && o.index == s.queue[k].owner;
    assert CopyOk(s, o);
    var q := FindQueue(v.queue, o.node).value;
    if stuck && o.status == Queued {
      CollectExactly(KQueued, v.list, v);
      assert Dequeue(o, q) in before;
    } else {
      NotOrphanNotDropped(s, v, w, stuck, o, q);
      assert o.status == Queued && !stuck;
      assert s.life[o.index] == InQueue(k);
    }
  }

  lemma NothingDropped(w: View, o: Entry)
    requires Collect(KDropped, w.list, w) == [] && o in w.list
    ensures o.status != Cancelled
  {
    CollectExactly(KDropped, w.list, w);
    assert o.status == Cancelled <==> Pick(KDropped, o, w).Some?;
  }

  lemma NothingOrphaned(w: View, q: QueueEntry)
    requires Orphans(w.queue, w.list) == [] && q in w.queue
    ensures !IsOrphan(q, w.list)
  {
    OrphansExactly(w.queue, w.list);
  }

  /** An owner that is not dequeued, in a view without drops and orphans, is queued. */
  lemma NotOrphanNotDropped(s: State, v: View, w: View, stuck: bool, o: Entry, q: QueueEntry)
    requires ViewOk(s, v) && Derived(v, w, stuck) && o in v.list && !(stuck && o.status == Queued)
    requires FindQueue(v.queue, o.node) == Some(q) && q.status != Withdrawn
    requires Collect(KDropped, w.list, w) == [] && Orphans(w.queue, w.list) == []
    ensures o.status == Queued
  {
    FirstCopy(s, v, o);
    OneOfEach(s, v);
    OwnerIsQueued(v, w, stuck, o, q);
  }

  lemma OneOfEach(s: State, v: View)
    requires ViewOk(s, v)
    ensures OnePerNode(v.queue) && OneCopyPerNode(v.list)
  {
    forall e, f | e in v.list && f in v.list && e.node == f.node
      ensures e == f
    {
      FirstCopy(s, v, e);
      FirstCopy(s, v, f);
    }
  }

  lemma OwnerIsQueued(v: View, w: View, stuck: bool, o: Entry, q: QueueEntry)
    requires Derived(v, w, stuck) && o in v.list && !(stuck && o.status == Queued)
    requires OnePerNode(v.queue) && OneCopyPerNode(v.list) && FindList(v.list, o.node) == Some(o)
    requires FindQueue(v.queue, o.node) == Some(q) && q.status != Withdrawn
    requires Collect(KDropped, w.list, w) == [] && Orphans(w.queue, w.list) == []
    ensures o.status == Queued
  {
    InDerived(v, w, stuck, o, q);
    NothingDropped(w, o);
    NothingOrphaned(w, q);
    NotPending(v, w, stuck, o, q);
  }

  /** A node's list entry is found by its node. */
  lemma FirstCopy(s: State, v: View, o: Entry)
    requires ViewOk(s, v) && o in v.list
    ensures FindList(v.list, o.node) == Some(o)
  {
  }

  lemma NotPending(v: View, w: View, stuck: bool, o: Entry, q: QueueEntry)
    requires Derived(v, w, stuck) && FindList(v.list, q.node) == Some(o) && !(stuck && o.status == Queued)
    requires q.status != Withdrawn && !IsOrphan(q, w.list)
    ensures o.status != Pending
  {
    DerivedFind(v, w, stuck, q.node);
  }

  lemma InDerived(v: View, w: View, stuck: bool, o: Entry, q: QueueEntry)
    requires Derived(v, w, stuck) && o in v.list && !(stuck && o.status == Queued)
    requires OnePerNode(v.queue) && OneCopyPerNode(v.list) && FindQueue(v.queue, o.node) == Some(q)
    ensures o in w.list && q in w.queue
  {
    if stuck {
      var i :| 0 <= i < |v.list| && v.list[i] == o;
      assert w.list[i] == DemoteEntry(v, o) == o;
      var j :| 0 <= j < |v.queue| && v.queue[j] == q;
      assert w.queue[j] == WithdrawEntry(v, q);
      assert !Claimed(v, q);
    }
  }

  ghost predicate OneCopyPerNode(l: seq<Entry>) {
    forall e, f | e in l && f in l && e.node == f.node :: e == f
  }

  /** The tasks before an enqueue lead to its group. */
  lemma GroupBefore(s: State, v: View, w: View, a: seq<Task>, b: seq<Task>, f: seq<Task>, c: seq<Task>)
    requires v.group == s.group && b == if w.group != v.group then [Move(w.group)] else []
    requires forall t | t in a + f + c :: !t.Move?
    ensures GroupWillBe(s, a + b + f + c, w.group)
  {
    var before := a + b + f + c;
    forall t | t in before && t.Move?
      ensures t.group == w.group
    {
      assert t in b || t in a + f + c;
    }
    if b != [] {
      assert b[0] in before;
    }
  }

  /** Earlier enqueues are of other nodes. */
  lemma OtherNodes(s: State, v: View, w: View, stuck: bool, i: nat, t: Task)
    requires ViewOk(s, v) && Derived(v, w, stuck)
    requires i < |Collect(KNew, w.list, w)| && t in Collect(KNew, w.list, w)[..i]
    ensures ForEntry(t) && ForEntry(Collect(KNew, w.list, w)[i])
    ensures t.e.node != Collect(KNew, w.list, w)[i].e.node
  {
    var x := Collect(KNew, w.list, w);
    var j :| 0 <= j < i && x[j] == t;
    forall c, d | 0 <= c < d < |w.list|
      ensures w.list[c].index < w.list[d].index
    {
      assert w.list[c].index == v.list[c].index && w.list[d].index == v.list[d].index;
    }
    CollectOrdered(KNew, w.list, w, j, i);
    CollectExactly(KNew, w.list, w);
    assert x[j] in x && x[i] in x;
    PickJustified(v, w, stuck, KNew, x[j]);
    PickJustified(v, w, stuck, KNew, x[i]);
    assert CopyOk(s, x[j].e) && CopyOk(s, x[i].e);
  }

  lemma NotMoves(v: View, w: View, a: seq<Task>, i: nat, t: Task)
    requires a == [] || a == Collect(KQueued, v.list, v)
    requires i <= |Collect(KNew, w.list, w)|
    requires t in a + Collect(KFinished, w.list, w) + Collect(KNew, w.list, w)[..i]
    ensures !t.Move? && (t.Enqueue? ==> t in Collect(KNew, w.list, w)[..i])
  {
    CollectExactly(KQueued, v.list, v);
    CollectExactly(KFinished, w.list, w);
    CollectExactly(KNew, w.list, w);
  }

  lemma BeforeEnqueue(s: State, v: View, w: View, stuck: bool, a: seq<Task>, b: seq<Task>, i: nat)
    requires ViewOk(s, v) && Derived(v, w, stuck) && (a == [] || a == Collect(KQueued, v.list, v))
    requires b == if w.group != v.group then [Move(w.group)] else []
    requires i < |Collect(KNew, w.list, w)|
    ensures var f, x := Collect(KFinished, w.list, w), Collect(KNew, w.list, w);
            var before := a + b + f + x[..i];
            && GroupWillBe(s, before, w.group)
            && forall t | t in before && t.Enqueue? :: t in x[..i]
  {
    var f, x := Collect(KFinished, w.list, w), Collect(KNew, w.list, w);
    forall t | t in a + f + x[..i]
      ensures !t.Move? && (t.Enqueue? ==> t in x[..i])
    {
      NotMoves(v, w, a, i, t);
    }
    GroupBefore(s, v, w, a, b, f, x[..i]);
    assert forall t | t in a + b + f + x[..i] :: t in a + f + x[..i] || t in b;
  }

  lemma EnqueueIsOk(s: State, v: View, enabled: bool, candidates: seq<string>, n: nat)
    requires ViewOk(s, v) && n < |Plan(v, enabled, candidates)| && Plan(v, enabled, candidates)[n].Enqueue?
    ensures EnqueueOk(s, Plan(v, enabled, candidates)[n].e, Plan(v, enabled, candidates)[..n], false)
  {
    var stuck, w, a, b := PlanParts(v, enabled, candidates);
    var f, x, i := EnqueuePlace(v, w, enabled, a, b, n);
    PlacedEnqueueIsOk(s, v, w, stuck, a, b, i);
  }

  /** Every live queue entry is settled for an enqueue of group w.group. */
  lemma AllSettled(s: State, v: View, w: View, stuck: bool, e: Entry, before: seq<Task>)
    requires ViewOk(s, v) && Derived(v, w, stuck) && e.group == w.group
    requires w.group != v.group ==> stuck || v.queue == []
    requires Collect(KDropped, w.list, w) == [] && Orphans(w.queue, w.list) == []
    requires stuck ==> forall t | t in Collect(KQueued, v.list, v) :: t in before
    ensures forall k | Live(s, k) :: s.queue[k].owner in s.list && Settled(s, k, e, before, false)
  {
    forall k | Live(s, k)
      ensures s.queue[k].owner in s.list && Settled(s, k, e, before, false)
    {
      LiveIsSettled(s, v, w, stuck, k, e, before);
    }
  }

  lemma PlacedEnqueueIsOk(s: State, v: View, w: View, stuck: bool, a: seq<Task>, b: seq<Task>, i: nat)
    requires ViewOk(s, v) && Derived(v, w, stuck) && a == (if stuck then Collect(KQueued, v.list, v) else [])
    requires b == if w.group != v.group then [Move(w.group)] else []
    requires w.group != v.group ==> stuck || v.queue == []
    requires i < |Collect(KNew, w.list, w)| && Collect(KNew, w.list, w)[i].Enqueue?
    requires Collect(KDropped, w.list, w) == [] && Orphans(w.queue, w.list) == []
    ensures EnqueueOk(s, Collect(KNew, w.list, w)[i].e,
                      a + b + Collect(KFinished, w.list, w) + Collect(KNew, w.list, w)[..i], false)
  {
    var x := Collect(KNew, w.list, w);
    var before := a + b + Collect(KFinished, w.list, w) + x[..i];
    NewEntry(v, w, stuck, i);
    BeforeEnqueue(s, v, w, stuck, a, b, i);
    forall t | t in before && t.Enqueue?
      ensures t.e.node != x[i].e.node
    {
      OtherNodes(s, v, w, stuck, i, t);
    }
    AllSettled(s, v, w, stuck, x[i].e, before);
  }

  /** What a registration is made for: an entry of the group whose node is not queued. */
  lemma NewEntry(v: View, w: View, stuck: bool, i: nat)
    requires Derived(v, w, stuck) && i < |Collect(KNew, w.list, w)|
    ensures var t := Collect(KNew, w.list, w)[i];
            t.Enqueue? && t.e.group == w.group && FindQueue(v.queue, t.e.node).None?
  {
    var x := Collect(KNew, w.list, w);
    CollectExactly(KNew, w.list, w);
    assert x[i] in x;
    PickJustified(v, w, stuck, KNew, x[i]);
  }

  lemma JustifiedIsOk(s: State, v: View, t: Task)
    requires ViewOk(s, v) && Justified(v, t)
    ensures TaskOk(s, t)
  {
  }

  lemma PlanIsOk(s: State, v: View, enabled: bool, candidates: seq<string>)
    requires ViewOk(s, v)
    ensures TasksOk(s, Plan(v, enabled, candidates), false)
  {
    var tasks := Plan(v, enabled, candidates);
    forall t | t in tasks
      ensures TaskOk(s, t)
    {
      PlanJustified(v, enabled, candidates, t);
      JustifiedIsOk(s, v, t);
    }
    forall x, y | x in tasks && y in tasks
      ensures Compatible(x, y)
    {
      ParallelTasks(s, v, enabled, candidates, x, y);
    }
    forall n: nat | n < |tasks|
      ensures PlaceOk(s, tasks, false, n)
    {
      if tasks[n].Move? {
        MoveIsOk(s, v, enabled, candidates, n);
      } else if tasks[n].Enqueue? {
        EnqueueIsOk(s, v, enabled, candidates, n);
      }
    }
  }
}
