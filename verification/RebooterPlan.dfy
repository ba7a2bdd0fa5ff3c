/** One pass of neco-rebooter: from what it has read of the reboot list and of CKE's reboot
    queue it derives the storage writes it is going to make, in order. */
module RebooterPlan {
  import opened Common

  datatype ListStatus = Pending | Queued | Cancelled

  /** Status of a queue entry; Withdrawn is what CKE calls "cancelled". */
  datatype QueueStatus = Waiting | Draining | Rebooting | Withdrawn

  datatype Entry = Entry(index: int, node: string, group: string, time: string, status: ListStatus)

  datatype QueueEntry = QueueEntry(index: int, node: string, status: QueueStatus, backoff: nat)

  /** One entry's share of the work; two-write tasks are done in the order stated. */
  datatype Task =
    | Dequeue(e: Entry, q: QueueEntry)          // list entry to Pending, then withdraw
    | Drop(e: Entry, found: Option<QueueEntry>) // withdraw if queued, then remove from the list
    | Finish(e: Entry)                          // remove from the list as rebooted
    | Enqueue(e: Entry)                         // register with CKE, then list entry to Queued
    | Orphan(q: QueueEntry)                     // withdraw
    | Move(group: string)                       // change the processing group

  function FindQueue(queue: seq<QueueEntry>, node: string): (r: Option<QueueEntry>)
    ensures r.Some? ==> r.value in queue && r.value.node == node
    ensures r.None? ==> forall q | q in queue :: q.node != node
  {
    if queue == [] then None
    else if queue[0].node == node then Some(queue[0])
    else FindQueue(queue[1..], node)
  }

  function FindList(list: seq<Entry>, node: string): (r: Option<Entry>)
    ensures r.Some? ==> r.value in list && r.value.node == node
    ensures r.None? ==> forall e | e in list :: e.node != node
  {
    if list == [] then None
    else if list[0].node == node then Some(list[0])
    else FindList(list[1..], node)
  }

  /** What one pass looks at: both stores as read, the processing group, and the list indices
      whose reboot time is now. */
  datatype View = View(list: seq<Entry>, queue: seq<QueueEntry>, group: string, ok: set<int>)

  datatype Kind = KDropped | KFinished | KQueued | KTimedOut | KNew

  /** The task a list entry gives rise to in a collection, if it belongs there. */
  function Pick(kind: Kind, e: Entry, v: View): Option<Task> {
    var found := FindQueue(v.queue, e.node);
    match kind
    case KDropped => if e.status == Cancelled then Some(Drop(e, found)) else None
    case KFinished => if e.status == Queued && found.None? then Some(Finish(e)) else None
    case KQueued => if e.status == Queued && found.Some? then Some(Dequeue(e, found.value)) else None
    case KTimedOut =>
      if e.status == Queued && found.Some? && e.index !in v.ok && found.value.status != Rebooting
      then Some(Dequeue(e, found.value)) else None
    case KNew =>
      if e.status == Pending && found.None? && e.group == v.group && e.index in v.ok
      then Some(Enqueue(e)) else None
  }

  predicate ForEntry(t: Task) {
    t.Dequeue? || t.Drop? || t.Finish? || t.Enqueue?
  }

  /** All tasks of one collection, in list order. */
  function Collect(kind: Kind, list: seq<Entry>, v: View): seq<Task> {
    if list == [] then [] else
    var n := |list| - 1;
    var front := Collect(kind, list[..n], v);
    match Pick(kind, list[n], v)
    case Some(t) => front + [t]
    case None => front
  }

  lemma {:induction false} CollectExactly(kind: Kind, list: seq<Entry>, v: View)
    ensures forall t | t in Collect(kind, list, v) :: ForEntry(t) && t.e in list && Pick(kind, t.e, v) == Some(t)
    ensures forall e | e in list && Pick(kind, e, v).Some? :: Pick(kind, e, v).value in Collect(kind, list, v)
  {
    if list != [] {
      var n := |list| - 1;
      CollectExactly(kind, list[..n], v);
      forall e | e in list && Pick(kind, e, v).Some?
        ensures Pick(kind, e, v).value in Collect(kind, list, v)
      {
        if e != list[n] {
          assert e in list[..n];
        }
      }
    }
  }

  lemma CollectNext(kind: Kind, v: View, i: nat)
    requires i < |v.list|
    ensures Collect(kind, v.list[..i + 1], v) ==
            Collect(kind, v.list[..i], v) + match Pick(kind, v.list[i], v) case Some(t) => [t] case None => []
  {
    assert v.list[..i + 1][..i] == v.list[..i];
  }

  predicate IsOrphan(q: QueueEntry, list: seq<Entry>) {
    && q.status != Withdrawn
    && (FindList(list, q.node).None? || FindList(list, q.node).value.status == Pending)
  }

  /** Live queue entries that the list does not hold as queued. */
  function Orphans(queue: seq<QueueEntry>, list: seq<Entry>): seq<Task> {
    if queue == [] then [] else
    var n := |queue| - 1;
    var front := Orphans(queue[..n], list);
    if IsOrphan(queue[n], list) then front + [Orphan(queue[n])] else front
  }

  lemma {:induction false} OrphansExactly(queue: seq<QueueEntry>, list: seq<Entry>)
    ensures forall t | t in Orphans(queue, list) :: t.Orphan? && t.q in queue && IsOrphan(t.q, list)
    ensures forall q | q in queue && IsOrphan(q, list) :: Orphan(q) in Orphans(queue, list)
  {
    if queue != [] {
      var n := |queue| - 1;
      OrphansExactly(queue[..n], list);
      forall q | q in queue && IsOrphan(q, list)
        ensures Orphan(q) in Orphans(queue, list)
      {
        if q != queue[n] {
          assert q in queue[..n];
        }
      }
    }
  }

  /** Nothing in the queue is rebooting or has yet to be tried. */
  predicate Stuck(queue: seq<QueueEntry>) {
    queue != [] && forall q | q in queue :: q.status != Rebooting && q.backoff != 0
  }

  /** First candidate other than the current group; the current group if there is none. */
  function NextGroup<T(==)>(candidates: seq<T>, group: T): T {
    if candidates == [] then group
    else if candidates[0] != group then candidates[0]
    else NextGroup(candidates[1..], group)
  }

  lemma {:induction false} NextGroupMoves<T>(candidates: seq<T>, group: T)
    ensures var g := NextGroup(candidates, group);
            if g == group then forall c | c in candidates :: c == group else g in candidates
  {
    if candidates != [] && candidates[0] == group {
      NextGroupMoves(candidates[1..], group);
      assert forall c | c in candidates :: c == candidates[0] || c in candidates[1..];
    }
  }

  function DemoteEntry(v: View, e: Entry): Entry {
    if Pick(KQueued, e, v).Some? then e.(status := Pending) else e
  }

  function WithdrawEntry(v: View, q: QueueEntry): QueueEntry {
    if Claimed(v, q) then q.(status := Withdrawn) else q
  }

  /** The pass's own copies after it has dequeued everything that was queued. */
  function Demoted(v: View): View {
    v.(list := seq(|v.list|, i requires 0 <= i < |v.list| => DemoteEntry(v, v.list[i])),
       queue := seq(|v.queue|, j requires 0 <= j < |v.queue| => WithdrawEntry(v, v.queue[j])))
  }

  /** Some queued list entry has this queue entry. */
  predicate Claimed(v: View, q: QueueEntry) {
    exists e | e in v.list :: Pick(KQueued, e, v) == Some(Dequeue(e, q))
  }

  /** The part of a pass after the processing group is settled. */
  function Rest(v: View, enabled: bool): seq<Task> {
    var dropped := Collect(KDropped, v.list, v);
    if dropped != [] then dropped else
    var orphans := Orphans(v.queue, v.list);
    if orphans != [] then orphans else
    Collect(KFinished, v.list, v) +
    (if enabled then Collect(KNew, v.list, v) + Collect(KTimedOut, v.list, v)
     else Collect(KQueued, v.list, v))
  }

  /** Everything one pass writes. */
  function Plan(v: View, enabled: bool, candidates: seq<string>): seq<Task> {
    var stuck := candidates != [] && enabled && Stuck(v.queue);
    var moves := candidates != [] && enabled && (v.queue == [] || stuck);
    var group := if moves then NextGroup(candidates, v.group) else v.group;
    (if stuck then Collect(KQueued, v.list, v) else []) +
    (if group != v.group then [Move(group)] else []) +
    Rest((if stuck then Demoted(v) else v).(group := group), enabled)
  }

  // ---- The pass as it is programmed --------------------------------------------

  method CollectEntries(v: View)
    returns (finished: seq<Task>, timedOut: seq<Task>, newEntries: seq<Task>,
             dropped: seq<Task>, queued: seq<Task>, orphans: seq<Task>)
    ensures finished == Collect(KFinished, v.list, v) && timedOut == Collect(KTimedOut, v.list, v)
    ensures newEntries == Collect(KNew, v.list, v) && dropped == Collect(KDropped, v.list, v)
    ensures queued == Collect(KQueued, v.list, v) && orphans == Orphans(v.queue, v.list)
  {
    finished, timedOut, newEntries, dropped, queued, orphans := [], [], [], [], [], [];
    for i := 0 to |v.list|
      invariant finished == Collect(KFinished, v.list[..i], v) && timedOut == Collect(KTimedOut, v.list[..i], v)
      invariant newEntries == Collect(KNew, v.list[..i], v) && dropped == Collect(KDropped, v.list[..i], v)
      invariant queued == Collect(KQueued, v.list[..i], v)
    {
      var e := v.list[i];
      var found := FindQueue(v.queue, e.node);
      CollectNext(KFinished, v, i);
      CollectNext(KTimedOut, v, i);
      CollectNext(KNew, v, i);
      CollectNext(KDropped, v, i);
      CollectNext(KQueued, v, i);
      match e.status {
        case Cancelled =>
          dropped := dropped + [Drop(e, found)];
        case Pending =>
          if found.None? && e.group == v.group && e.index in v.ok {
            newEntries := newEntries + [Enqueue(e)];
          }
        case Queued =>
          if found.None? {
            finished := finished + [Finish(e)];
          } else {
            queued := queued + [Dequeue(e, found.value)];
            if e.index !in v.ok && found.value.status != Rebooting {
              timedOut := timedOut + [Dequeue(e, found.value)];
            }
          }
      }
    }
    assert v.list[..|v.list|] == v.list;
    for j := 0 to |v.queue|
      invariant orphans == Orphans(v.queue[..j], v.list)
    {
      var q := v.queue[j];
      assert v.queue[..j + 1][..j] == v.queue[..j];
      if q.status != Withdrawn {
        var entry := FindList(v.list, q.node);
        if entry.None? || entry.value.status == Pending {
          orphans := orphans + [Orphan(q)];
        }
      }
    }
    assert v.queue[..|v.queue|] == v.queue;
  }

  /** Change the pass's own copies of the dequeued entries. */
  method DemoteCopies(v: View, queued: seq<Task>) returns (w: View)
    requires queued == Collect(KQueued, v.list, v)
    ensures w == Demoted(v)
  {
    var list := [];
    for i := 0 to |v.list|
      invariant list == Demoted(v).list[..i]
    {
      var e := v.list[i];
      list := list + [if Pick(KQueued, e, v).Some? then e.(status := Pending) else e];
    }
    CollectExactly(KQueued, v.list, v);
    var queue := [];
    for j := 0 to |v.queue|
      invariant queue == Demoted(v).queue[..j]
    {
      var q := v.queue[j];
      var claimed := exists t | t in queued :: t.Dequeue? && t.q == q;
      assert claimed <==> Claimed(v, q);
      queue := queue + [if claimed then q.(status := Withdrawn) else q];
    }
    w := v.(list := list, queue := queue);
  }

  method RunRest(w: View, enabled: bool) returns (tasks: seq<Task>)
    ensures tasks == Rest(w, enabled)
  {
    var finished, timedOut, newEntries, dropped, queued, orphans := CollectEntries(w);
    if dropped != [] { return dropped; }
    if orphans != [] { return orphans; }
    if enabled {
      tasks := finished + (newEntries + timedOut);
    } else {
      tasks := finished + queued;
    }
  }

  method RunOnce(v: View, enabled: bool, candidates: seq<string>) returns (tasks: seq<Task>)
    ensures tasks == Plan(v, enabled, candidates)
  {
    tasks := [];
    var w := v;
    if candidates != [] && enabled {
      if v.queue != [] {
        if Stuck(v.queue) {
          var _, _, _, _, queued, _ := CollectEntries(v);
          tasks := queued;
          w := DemoteCopies(v, queued);
          w := w.(group := NextGroup(candidates, v.group));
        }
      } else {
        w := w.(group := NextGroup(candidates, v.group));
      }
    }
    if w.group != v.group {
      tasks := tasks + [Move(w.group)];
    }
    var rest := RunRest(w, enabled);
    tasks := tasks + rest;
  }
}
