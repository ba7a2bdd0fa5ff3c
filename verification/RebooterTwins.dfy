/** What a pass does when the reboot list, as the command line allows, holds two entries of one
    node: exactly when it registers the node twice. */
module RebooterTwins {
  import opened Common
  import opened RebooterPlan
  import opened RebooterDecide

  /** The groups with an entry whose reboot time is now.  The pass reads the clock for each of its
      tests, so the times here and those of the collections may differ. */
  ghost predicate Offered(list: seq<Entry>, times: set<int>, candidates: seq<string>) {
    forall c :: c in candidates <==> exists e | e in list :: e.group == c && e.index in times
  }

  ghost predicate EnqueuesTwice(tasks: seq<Task>) {
    exists m, n | 0 <= m < n < |tasks| :: tasks[m].Enqueue? && tasks[n].Enqueue? && tasks[m].e.node == tasks[n].e.node
  }

  /** Some choice of processing group, reboot times and candidates makes the pass register a
      node twice. */
  ghost predicate CanEnqueueTwice(list: seq<Entry>, queue: seq<QueueEntry>) {
    exists group, times, ok, enabled, candidates ::
      Offered(list, times, candidates) && EnqueuesTwice(Plan(View(list, queue, group, ok), enabled, candidates))
  }

  ghost predicate Twins(list: seq<Entry>, queue: seq<QueueEntry>, i: nat, j: nat)
    requires i < j < |list|
  {
    && list[i].status == list[j].status == Pending
    && list[i].node == list[j].node && list[i].group == list[j].group
    && FindQueue(queue, list[i].node).None?
  }

  ghost predicate HasTwins(list: seq<Entry>, queue: seq<QueueEntry>) {
    exists i: nat, j: nat | i < j < |list| :: Twins(list, queue, i, j)
  }

  ghost predicate NoneCancelled(list: seq<Entry>) {
    forall e | e in list :: e.status != Cancelled
  }

  /** No queue entry is orphaned, in the copies as read or after a stuck queue has been dequeued. */
  ghost predicate NoOrphans(list: seq<Entry>, queue: seq<QueueEntry>, dequeued: bool) {
    var v := View(list, queue, "", {});
    var w := if dequeued then Demoted(v) else v;
    forall q | q in w.queue :: !IsOrphan(q, w.list)
  }

  /** The pass can get past its orphans: there are none, or none once a stuck queue is dequeued. */
  ghost predicate PastOrphans(list: seq<Entry>, queue: seq<QueueEntry>) {
    NoOrphans(list, queue, false) || (Stuck(queue) && NoOrphans(list, queue, true))
  }

  // ---- Places in a collection ------------------------------------------------------

  lemma {:induction false} PlaceInList(kind: Kind, list: seq<Entry>, v: View, p: nat, q: nat) returns (i: nat, j: nat)
    requires p < q < |Collect(kind, list, v)|
    ensures i < j < |list| && Pick(kind, list[i], v) == Some(Collect(kind, list, v)[p])
    ensures Pick(kind, list[j], v) == Some(Collect(kind, list, v)[q])
  {
    var n := |list| - 1;
    var front := Collect(kind, list[..n], v);
    if q < |front| {
      i, j := PlaceInList(kind, list[..n], v, p, q);
    } else {
      i := OnePlace(kind, list[..n], v, p);
      j := n;
    }
  }

  lemma {:induction false} OnePlace(kind: Kind, list: seq<Entry>, v: View, p: nat) returns (i: nat)
    requires p < |Collect(kind, list, v)|
    ensures i < |list| && Pick(kind, list[i], v) == Some(Collect(kind, list, v)[p])
  {
    var n := |list| - 1;
    if p < |Collect(kind, list[..n], v)| {
      i := OnePlace(kind, list[..n], v, p);
    } else {
      i := n;
    }
  }

  lemma {:induction false} OneCollected(kind: Kind, list: seq<Entry>, v: View, i: nat) returns (p: nat)
    requires i < |list| && Pick(kind, list[i], v).Some?
    ensures p < |Collect(kind, list, v)| && Pick(kind, list[i], v) == Some(Collect(kind, list, v)[p])
  {
    var n := |list| - 1;
    if i < n {
      p := OneCollected(kind, list[..n], v, i);
    } else {
      p := |Collect(kind, list[..n], v)|;
    }
  }

  lemma {:induction false} PlaceCollected(kind: Kind, list: seq<Entry>, v: View, i: nat, j: nat)
    returns (p: nat, q: nat)
    requires i < j < |list| && Pick(kind, list[i], v).Some? && Pick(kind, list[j], v).Some?
    ensures p < q < |Collect(kind, list, v)|
    ensures Pick(kind, list[i], v) == Some(Collect(kind, list, v)[p])
    ensures Pick(kind, list[j], v) == Some(Collect(kind, list, v)[q])
  {
    var n := |list| - 1;
    if j < n {
      p, q := PlaceCollected(kind, list[..n], v, i, j);
    } else {
      p := OneCollected(kind, list[..n], v, i);
      q := |Collect(kind, list[..n], v)|;
    }
  }

  // ---- From two registrations to twins ---------------------------------------------

  /** A pending entry without a queue entry in the derived copies was so in the ones read. */
  lemma DerivedPending(v: View, w: View, stuck: bool, i: nat)
    requires Derived(v, w, stuck) && i < |w.list| && Pick(KNew, w.list[i], w).Some?
    ensures |w.list| == |v.list| && w.list[i] == v.list[i]
    ensures v.list[i].status == Pending && FindQueue(v.queue, v.list[i].node).None?
  {
    DerivedFind(v, w, stuck, w.list[i].node);
    assert stuck ==> w.list[i] == DemoteEntry(v, v.list[i]);
  }

  lemma DerivedNoneCancelled(v: View, w: View, stuck: bool)
    requires Derived(v, w, stuck)
    ensures NoneCancelled(v.list) <==> Collect(KDropped, w.list, w) == []
  {
    CollectExactly(KDropped, w.list, w);
    assert |w.list| == |v.list|;
    forall i | 0 <= i < |v.list|
      ensures v.list[i].status == Cancelled <==> w.list[i].status == Cancelled
      ensures w.list[i].status == Cancelled <==> Pick(KDropped, w.list[i], w).Some?
      ensures v.list[i] in v.list && w.list[i] in w.list
    {
      assert stuck ==> w.list[i] == DemoteEntry(v, v.list[i]);
    }
    if Collect(KDropped, w.list, w) != [] {
      var t := Collect(KDropped, w.list, w)[0];
      assert t in Collect(KDropped, w.list, w);
    }
  }

  lemma DerivedNoOrphans(v: View, w: View, stuck: bool)
    requires Derived(v, w, stuck)
    ensures NoOrphans(v.list, v.queue, stuck) <==> Orphans(w.queue, w.list) == []
  {
    var v0 := View(v.list, v.queue, "", {});
    DemotedSame(v, v0);
    OrphansExactly(w.queue, w.list);
    if Orphans(w.queue, w.list) != [] {
      var t := Orphans(w.queue, w.list)[0];
      assert t in Orphans(w.queue, w.list);
    }
  }

  lemma DemotedSame(v: View, u: View)
    requires v.list == u.list && v.queue == u.queue
    ensures Demoted(v).list == Demoted(u).list && Demoted(v).queue == Demoted(u).queue
  {
    forall q
      ensures Claimed(v, q) <==> Claimed(u, q)
    {
      assert forall e | e in v.list :: Pick(KQueued, e, v) == Pick(KQueued, e, u);
    }
  }

  /** The list places behind two registrations, in the derived copies. */
  lemma EnqueuePlaces(v: View, enabled: bool, candidates: seq<string>, m: nat, n: nat)
    returns (stuck: bool, w: View, i: nat, j: nat)
    requires var tasks := Plan(v, enabled, candidates); m < n < |tasks| && tasks[m].Enqueue? && tasks[n].Enqueue?
    ensures Derived(v, w, stuck) && (stuck <==> candidates != [] && enabled && Stuck(v.queue)) && enabled
    ensures Collect(KDropped, w.list, w) == [] && Orphans(w.queue, w.list) == []
    ensures i < j < |w.list| && Pick(KNew, w.list[i], w) == Some(Plan(v, enabled, candidates)[m])
    ensures Pick(KNew, w.list[j], w) == Some(Plan(v, enabled, candidates)[n])
  {
    var tasks := Plan(v, enabled, candidates);
    var a, b;
    stuck, w, a, b := PlanParts(v, enabled, candidates);
    var f, x, p := EnqueuePlace(v, w, enabled, a, b, m);
    var f', x', q := EnqueuePlace(v, w, enabled, a, b, n);
    assert |tasks[..m]| == m && |tasks[..n]| == n;
    i, j := PlaceInList(KNew, w.list, w, p, q);
  }

  lemma TwiceIsTwins(v: View, enabled: bool, candidates: seq<string>)
    requires EnqueuesTwice(Plan(v, enabled, candidates))
    ensures HasTwins(v.list, v.queue) && NoneCancelled(v.list) && PastOrphans(v.list, v.queue)
  {
    var tasks := Plan(v, enabled, candidates);
    var m, n :| 0 <= m < n < |tasks| && tasks[m].Enqueue? && tasks[n].Enqueue? && tasks[m].e.node == tasks[n].e.node;
    var stuck, w, i, j := EnqueuePlaces(v, enabled, candidates, m, n);
    DerivedPending(v, w, stuck, i);
    DerivedPending(v, w, stuck, j);
    assert Twins(v.list, v.queue, i, j);
    DerivedNoneCancelled(v, w, stuck);
    DerivedNoOrphans(v, w, stuck);
  }

  // ---- From twins to two registrations ---------------------------------------------

  lemma OffersExist(list: seq<Entry>, times: set<int>) returns (candidates: seq<string>)
    ensures Offered(list, times, candidates)
  {
    candidates := Groups(list, times);
    forall c
      ensures c in candidates <==> exists e | e in list :: e.group == c && e.index in times
    {
      GroupsExactly(list, times, c);
    }
  }

  function Groups(list: seq<Entry>, ok: set<int>): seq<string> {
    if list == [] then [] else (if list[0].index in ok then [list[0].group] else []) + Groups(list[1..], ok)
  }

  lemma {:induction false} GroupsExactly(list: seq<Entry>, ok: set<int>, c: string)
    ensures c in Groups(list, ok) <==> exists e | e in list :: e.group == c && e.index in ok
  {
    if list != [] {
      GroupsExactly(list[1..], ok, c);
      assert forall e | e in list :: e == list[0] || e in list[1..];
      assert list[0] in list && forall e | e in list[1..] :: e in list;
    }
  }

  /** Twins stay pending and unqueued in the derived copies. */
  lemma TwinPicked(v: View, w: View, stuck: bool, i: nat)
    requires Derived(v, w, stuck) && i < |v.list| && v.list[i].status == Pending
    requires FindQueue(v.queue, v.list[i].node).None? && w.group == v.list[i].group && v.list[i].index in v.ok
    ensures i < |w.list| && Pick(KNew, w.list[i], w) == Some(Enqueue(v.list[i]))
  {
    DerivedFind(v, w, stuck, v.list[i].node);
    assert stuck ==> w.list[i] == DemoteEntry(v, v.list[i]);
  }

  /** The registrations of a plan follow its dequeues, its move and the finished entries. */
  lemma NewInPlan(v: View, w: View, a: seq<Task>, b: seq<Task>, p: nat, q: nat)
    requires Collect(KDropped, w.list, w) == [] && Orphans(w.queue, w.list) == []
    requires p < q < |Collect(KNew, w.list, w)|
    requires var x := Collect(KNew, w.list, w); x[p].Enqueue? && x[q].Enqueue? && x[p].e.node == x[q].e.node
    ensures EnqueuesTwice(a + b + Rest(w, true))
  {
    var f, x := Collect(KFinished, w.list, w), Collect(KNew, w.list, w);
    var tasks := a + b + Rest(w, true);
    var d := |a| + |b| + |f|;
    assert tasks[d + p] == x[p] && tasks[d + q] == x[q];
  }

  /** With only the twins' times now, their group is the only candidate. */
  lemma OnlyTheirGroup(list: seq<Entry>, candidates: seq<string>, i: nat, j: nat)
    requires i < j < |list| && list[i].group == list[j].group
    requires Offered(list, {list[i].index, list[j].index}, candidates)
    requires forall a, b | 0 <= a < b < |list| :: list[a].index < list[b].index
    ensures candidates != [] && NextGroup(candidates, list[i].group) == list[i].group
  {
    NextGroupMoves(candidates, list[i].group);
    assert list[i] in list && list[i].group in candidates;
    forall c | c in candidates
      ensures c == list[i].group
    {
      var e :| e in list && e.group == c && e.index in {list[i].index, list[j].index};
      var k :| 0 <= k < |list| && list[k] == e;
      assert k == i || k == j;
    }
  }

  /** Candidates that keep the pass in its group: none, or nothing else. */
  lemma PlanTwice(v: View, candidates: seq<string>, i: nat, j: nat)
    requires i < j < |v.list| && Twins(v.list, v.queue, i, j) && v.group == v.list[i].group
    requires v.list[i].index in v.ok && v.list[j].index in v.ok && NextGroup(candidates, v.group) == v.group
    requires NoneCancelled(v.list) && NoOrphans(v.list, v.queue, candidates != [] && Stuck(v.queue))
    ensures EnqueuesTwice(Plan(v, true, candidates))
  {
    var stuck, w, a, b := PlanParts(v, true, candidates);
    DerivedNoneCancelled(v, w, stuck);
    DerivedNoOrphans(v, w, stuck);
    TwinPicked(v, w, stuck, i);
    TwinPicked(v, w, stuck, j);
    var p, q := PlaceCollected(KNew, w.list, w, i, j);
    NewInPlan(v, w, a, b, p, q);
  }

  lemma TwinsAreTwice(list: seq<Entry>, queue: seq<QueueEntry>)
    requires forall a, b | 0 <= a < b < |list| :: list[a].index < list[b].index
    requires HasTwins(list, queue) && NoneCancelled(list) && PastOrphans(list, queue)
    ensures CanEnqueueTwice(list, queue)
  {
    var i: nat, j: nat :| i < j < |list| && Twins(list, queue, i, j);
    var ok := {list[i].index, list[j].index};
    var v := View(list, queue, list[i].group, ok);
    var times, candidates := {}, [];
    if NoOrphans(list, queue, false) {
      assert Offered(list, times, candidates);
    } else {
      times := ok;
      candidates := OffersExist(list, times);
      OnlyTheirGroup(list, candidates, i, j);
    }
    PlanTwice(v, candidates, i, j);
    assert EnqueuesTwice(Plan(View(list, queue, v.group, v.ok), true, candidates));
  }

  /** Exactly when a pass can register a node twice, over all lists and queues as read: two
      pending entries share node and group, the node is not queued, nothing in the list is
      cancelled and the pass can get past its orphans. */
  lemma RegisteredTwiceExactly(list: seq<Entry>, queue: seq<QueueEntry>)
    requires forall a, b | 0 <= a < b < |list| :: list[a].index < list[b].index
    ensures CanEnqueueTwice(list, queue) <==>
            HasTwins(list, queue) && NoneCancelled(list) && PastOrphans(list, queue)
  {
    if CanEnqueueTwice(list, queue) {
      var group, times, ok, enabled, candidates :|
        Offered(list, times, candidates) && EnqueuesTwice(Plan(View(list, queue, group, ok), enabled, candidates));
      TwiceIsTwins(View(list, queue, group, ok), enabled, candidates);
    } else if HasTwins(list, queue) && NoneCancelled(list) && PastOrphans(list, queue) {
      TwinsAreTwice(list, queue);
    }
  }

  /** With an empty queue: no pass registers a node twice if and only if something in the list is
      cancelled or no two pending entries share node and group. */
  lemma RegisteredOnceExactly(list: seq<Entry>)
    requires forall a, b | 0 <= a < b < |list| :: list[a].index < list[b].index
    ensures !CanEnqueueTwice(list, []) <==>
            || (exists e | e in list :: e.status == Cancelled)
            || (forall i, j | 0 <= i < j < |list| && list[i].status == list[j].status == Pending ::
                  list[i].node != list[j].node || list[i].group != list[j].group)
  {
    RegisteredTwiceExactly(list, []);
    assert NoOrphans(list, [], false);
    forall i: nat, j: nat | i < j < |list|
      ensures Twins(list, [], i, j) <==>
              && list[i].status == list[j].status == Pending
              && list[i].node == list[j].node && list[i].group == list[j].group
    {
    }
  }

  /** The shortest such list: one pass registers the node for both entries. */
  lemma RegisteredTwice(a: Entry, b: Entry)
    requires a.node == b.node && a.group == b.group && a.status == b.status == Pending && a.index != b.index
    ensures Plan(View([a, b], [], a.group, {a.index, b.index}), true, [a.group]) == [Enqueue(a), Enqueue(b)]
  {
    var v := View([a, b], [], a.group, {a.index, b.index});
    assert [a, b][..1] == [a] && [a][..0] == [];
    NextGroupMoves([a.group], a.group);
    forall kind: Kind
      ensures Collect(kind, v.list, v) == if kind == KNew then [Enqueue(a), Enqueue(b)] else []
    {
      assert Collect(kind, [a], v) == if kind == KNew then [Enqueue(a)] else [];
    }
  }
}
