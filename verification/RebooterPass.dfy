/** What a pass of neco-rebooter does, told from the list, the queue, the processing group and the
    times it has read, without the collections it goes through. */
module RebooterPass {
  import opened Common
  import opened RebooterPlan
  import opened RebooterProtocol
  import opened RebooterSafety
  import opened RebooterDecide
  import opened RebooterTwins
  import opened RebooterDanger

  /** The queue is not empty, and everything in it has failed to drain and none is rebooting. */
  ghost predicate AllBackedOff(queue: seq<QueueEntry>) {
    queue != [] && forall q | q in queue :: q.backoff != 0 && q.status in {Waiting, Draining, Withdrawn}
  }

  /** The first queue entry of its node, which is the one the pass finds. */
  ghost predicate Earliest(queue: seq<QueueEntry>, q: QueueEntry) {
    exists k | 0 <= k < |queue| :: queue[k] == q && forall j | 0 <= j < k :: queue[j].node != q.node
  }

  /** The first list entry of its node. */
  ghost predicate Foremost(list: seq<Entry>, e: Entry) {
    exists k | 0 <= k < |list| :: list[k] == e && forall j | 0 <= j < k :: list[j].node != e.node
  }

  ghost predicate Enqueued(v: View, node: string) {
    exists q | q in v.queue :: q.node == node
  }

  /** The pass withdraws everything that is queued, before the rest. */
  ghost predicate GivesUp(v: View, enabled: bool, candidates: seq<string>) {
    enabled && candidates != [] && AllBackedOff(v.queue)
  }

  /** Giving up withdraws this queue entry. */
  ghost predicate Owned(v: View, q: QueueEntry) {
    Earliest(v.queue, q) && exists e | e in v.list :: e.node == q.node && e.status == Queued
  }

  /** A live queue entry whose node is not listed, or first listed as pending; when the pass has
      given up, which takes queued entries back to pending, one that was not withdrawn. */
  ghost predicate Stray(v: View, gaveUp: bool, q: QueueEntry) {
    && q in v.queue && q.status in {Waiting, Draining, Rebooting} && !(gaveUp && Owned(v, q))
    && forall e | Foremost(v.list, e) && e.node == q.node :: e.status == Pending || (gaveUp && e.status == Queued)
  }

  ghost predicate AnyCancelled(v: View) {
    exists e | e in v.list :: e.status == Cancelled
  }

  /** A cancelled entry or a stray queue entry is all the pass deals with. */
  ghost predicate CleansUp(v: View, gaveUp: bool) {
    AnyCancelled(v) || exists q :: Stray(v, gaveUp, q)
  }

  /** The queue entry as the pass holds it. */
  ghost function Held(v: View, gaveUp: bool, q: QueueEntry): QueueEntry {
    if gaveUp && Owned(v, q) then q.(status := Withdrawn) else q
  }

  /** The queue entry of a node as the pass finds it. */
  ghost predicate Finds(v: View, gaveUp: bool, node: string, found: Option<QueueEntry>) {
    if found.None? then !Enqueued(v, node)
    else exists q :: Earliest(v.queue, q) && q.node == node && found.value == Held(v, gaveUp, q)
  }

  /** The first candidate other than the processing group. */
  ghost predicate IsNext(candidates: seq<string>, group: string, g: string) {
    && g != group
    && exists k | 0 <= k < |candidates| :: candidates[k] == g && forall j | 0 <= j < k :: candidates[j] == group
  }

  /** The pass moves to g: it is enabled, and nothing in the queue makes progress. */
  ghost predicate MovesTo(v: View, enabled: bool, candidates: seq<string>, g: string) {
    enabled && (v.queue == [] || AllBackedOff(v.queue)) && IsNext(candidates, v.group, g)
  }

  /** The group in which the pass enqueues. */
  ghost predicate InTurn(v: View, candidates: seq<string>, g: string) {
    MovesTo(v, true, candidates, g) || (g == v.group && forall h :: !MovesTo(v, true, candidates, h))
  }

  /** What a pass has to do. */
  ghost predicate Due(v: View, enabled: bool, candidates: seq<string>, t: Task) {
    var gaveUp := GivesUp(v, enabled, candidates);
    match t
    case Move(g) => MovesTo(v, enabled, candidates, g)
    case Drop(e, found) => e in v.list && e.status == Cancelled && Finds(v, gaveUp, e.node, found)
    case Orphan(q) => Stray(v, gaveUp, q) && !AnyCancelled(v)
    case Finish(e) => !CleansUp(v, gaveUp) && e in v.list && e.status == Queued && !Enqueued(v, e.node)
    case Enqueue(e) =>
      && enabled && !CleansUp(v, gaveUp) && e in v.list && e.status == Pending && !Enqueued(v, e.node)
      && e.index in v.ok && InTurn(v, candidates, e.group)
    case Dequeue(e, q) =>
      && e in v.list && e.status == Queued && Earliest(v.queue, q) && q.node == e.node
      && (|| gaveUp
          || (!CleansUp(v, gaveUp)
              && (enabled ==> e.index !in v.ok && q.status in {Waiting, Draining, Withdrawn})))
  }

  // ---- Any view ------------------------------------------------------------------

  lemma {:induction false} NextIs(candidates: seq<string>, group: string, g: string)
    ensures IsNext(candidates, group, g) <==> g == NextGroup(candidates, group) && g != group
  {
    if candidates != [] {
      var rest := candidates[1..];
      NextIs(rest, group, g);
      if candidates[0] == group {
        if IsNext(rest, group, g) {
          var k :| 0 <= k < |rest| && rest[k] == g && forall j | 0 <= j < k :: rest[j] == group;
          assert candidates[k + 1] == g;
        }
        if IsNext(candidates, group, g) {
          var k :| 0 <= k < |candidates| && candidates[k] == g && forall j | 0 <= j < k :: candidates[j] == group;
          assert rest[k - 1] == g;
        }
      }
    }
  }

  /** A move, exactly: whatever has been read, the pass moves to g if and only if it is enabled, g is
      the first candidate that is not the processing group, and the queue was read empty or with
      every entry backed off and none rebooting. */
  lemma MovesExactly(v: View, enabled: bool, candidates: seq<string>, g: string)
    ensures Move(g) in Plan(v, enabled, candidates) <==> MovesTo(v, enabled, candidates, g)
  {
    var stuck, w, a, b := PlanParts(v, enabled, candidates);
    NextIs(candidates, v.group, g);
    RestMovesNot(w, enabled, g);
    CollectExactly(KQueued, v.list, v);
    assert Move(g) in Plan(v, enabled, candidates) <==> Move(g) in a || Move(g) in b || Move(g) in Rest(w, enabled);
  }

  lemma RestMovesNot(w: View, enabled: bool, g: string)
    ensures Move(g) !in Rest(w, enabled)
  {
    if Move(g) in Rest(w, enabled) {
      RestKinds(w, enabled, Move(g));
    }
  }

  // ---- Everything a pass does --------------------------------------------------------

  lemma {:induction false} EarliestIs(queue: seq<QueueEntry>, node: string, q: QueueEntry)
    ensures FindQueue(queue, node) == Some(q) <==> Earliest(queue, q) && q.node == node
  {
    if queue != [] && queue[0].node != node {
      EarliestIs(queue[1..], node, q);
      if q.node == node {
        EarliestNext(queue, q);
      }
    }
  }

  /** The first entry is of another node. */
  lemma EarliestNext(queue: seq<QueueEntry>, q: QueueEntry)
    requires queue != [] && queue[0].node != q.node
    ensures Earliest(queue, q) <==> Earliest(queue[1..], q)
  {
    var rest := queue[1..];
    assert forall k | 0 <= k < |rest| :: rest[k] == queue[k + 1];
    if Earliest(rest, q) {
      var k :| 0 <= k < |rest| && rest[k] == q && forall j | 0 <= j < k :: rest[j].node != q.node;
      assert forall j | 0 < j < k + 1 :: queue[j] == rest[j - 1];
      assert queue[k + 1] == q;
    }
    if Earliest(queue, q) {
      var k :| 0 <= k < |queue| && queue[k] == q && forall j | 0 <= j < k :: queue[j].node != q.node;
      assert rest[k - 1] == q;
    }
  }

  lemma {:induction false} ForemostIs(list: seq<Entry>, node: string, e: Entry)
    ensures FindList(list, node) == Some(e) <==> Foremost(list, e) && e.node == node
  {
    if list != [] && list[0].node != node {
      ForemostIs(list[1..], node, e);
      if e.node == node {
        ForemostNext(list, e);
      }
    }
  }

  lemma ForemostNext(list: seq<Entry>, e: Entry)
    requires list != [] && list[0].node != e.node
    ensures Foremost(list, e) <==> Foremost(list[1..], e)
  {
    var rest := list[1..];
    assert forall k | 0 <= k < |rest| :: rest[k] == list[k + 1];
    if Foremost(rest, e) {
      var k :| 0 <= k < |rest| && rest[k] == e && forall j | 0 <= j < k :: rest[j].node != e.node;
      assert forall j | 0 < j < k + 1 :: list[j] == rest[j - 1];
      assert list[k + 1] == e;
    }
    if Foremost(list, e) {
      var k :| 0 <= k < |list| && list[k] == e && forall j | 0 <= j < k :: list[j].node != e.node;
      assert rest[k - 1] == e;
    }
  }

  lemma OwnedIs(v: View, q: QueueEntry)
    ensures Claimed(v, q) <==> Owned(v, q)
  {
    EarliestIs(v.queue, q.node, q);
    forall e | e in v.list
      ensures Pick(KQueued, e, v) == Some(Dequeue(e, q)) <==>
              Earliest(v.queue, q) && e.node == q.node && e.status == Queued
    {
      EarliestIs(v.queue, e.node, q);
    }
  }

  lemma HeldIs(v: View, q: QueueEntry)
    ensures WithdrawEntry(v, q) == Held(v, true, q)
  {
    OwnedIs(v, q);
  }

  /** The strays are the orphans of the pass's copies. */
  lemma StrayIs(v: View, w: View, stuck: bool, q: QueueEntry)
    requires Derived(v, w, stuck)
    ensures Stray(v, stuck, q) <==> q in w.queue && IsOrphan(q, w.list)
  {
    DerivedFind(v, w, stuck, q.node);
    OwnedIs(v, q);
    if q.status != Withdrawn {
      StrayThere(v, w, stuck, q);
    }
    forall e
      ensures FindList(v.list, q.node) == Some(e) <==> Foremost(v.list, e) && e.node == q.node
    {
      ForemostIs(v.list, q.node, e);
    }
  }

  lemma StrayThere(v: View, w: View, stuck: bool, q: QueueEntry)
    requires Derived(v, w, stuck) && q.status != Withdrawn
    ensures q in w.queue <==> q in v.queue && !(stuck && Claimed(v, q))
  {
    if stuck {
      if q in w.queue {
        var j :| 0 <= j < |w.queue| && w.queue[j] == q;
        assert q == WithdrawEntry(v, v.queue[j]);
      }
      if q in v.queue && !Claimed(v, q) {
        var j :| 0 <= j < |v.queue| && v.queue[j] == q;
        assert w.queue[j] == q;
      }
    }
  }

  /** Cleaning up is what the pass finds in its copies. */
  lemma CleansUpIs(v: View, w: View, stuck: bool)
    requires Derived(v, w, stuck)
    ensures AnyCancelled(v) <==> Collect(KDropped, w.list, w) != []
    ensures CleansUp(v, stuck) <==> Collect(KDropped, w.list, w) != [] || Orphans(w.queue, w.list) != []
  {
    DerivedNoneCancelled(v, w, stuck);
    OrphansExactly(w.queue, w.list);
    forall q
      ensures Stray(v, stuck, q) <==> q in w.queue && IsOrphan(q, w.list)
    {
      StrayIs(v, w, stuck, q);
    }
    if Orphans(w.queue, w.list) != [] {
      assert Orphans(w.queue, w.list)[0] in Orphans(w.queue, w.list);
    }
  }

  /** A copy that is not pending, and a pending one whose node is not queued, is what was read. */
  lemma CopyIs(v: View, w: View, stuck: bool, e: Entry)
    requires Derived(v, w, stuck)
    requires e.status == Cancelled || (e.status != Pending && !stuck) || FindQueue(v.queue, e.node).None?
    ensures e in w.list <==> e in v.list
  {
    if stuck {
      if e in w.list {
        var j :| 0 <= j < |w.list| && w.list[j] == e;
        assert e == DemoteEntry(v, v.list[j]);
      }
      if e in v.list {
        var j :| 0 <= j < |v.list| && v.list[j] == e;
        assert w.list[j] == DemoteEntry(v, e);
      }
    }
  }

  lemma Picked(kind: Kind, w: View, t: Task)
    ensures t in Collect(kind, w.list, w) <==> ForEntry(t) && t.e in w.list && Pick(kind, t.e, w) == Some(t)
  {
    CollectExactly(kind, w.list, w);
  }

  /** The rest of a plan, kind by kind. */
  ghost predicate InRest(w: View, enabled: bool, t: Task) {
    var dropped, orphans := Collect(KDropped, w.list, w), Orphans(w.queue, w.list);
    match t
    case Drop(_, _) => t in dropped
    case Orphan(_) => dropped == [] && t in orphans
    case Finish(_) => dropped == [] && orphans == [] && t in Collect(KFinished, w.list, w)
    case Enqueue(_) => dropped == [] && orphans == [] && enabled && t in Collect(KNew, w.list, w)
    case Dequeue(_, _) =>
      dropped == [] && orphans == [] && t in Collect(if enabled then KTimedOut else KQueued, w.list, w)
    case Move(_) => false
  }

  lemma RestIs(w: View, enabled: bool, t: Task)
    ensures t in Rest(w, enabled) <==> InRest(w, enabled, t)
  {
    Picked(KDropped, w, t);
    Picked(KFinished, w, t);
    Picked(KNew, w, t);
    Picked(KTimedOut, w, t);
    Picked(KQueued, w, t);
    OrphansExactly(w.queue, w.list);
  }

  lemma FoundIs(v: View, w: View, stuck: bool, node: string, found: Option<QueueEntry>)
    requires Derived(v, w, stuck)
    ensures FindQueue(w.queue, node) == found <==> Finds(v, stuck, node, found)
  {
    DerivedFind(v, w, stuck, node);
    if FindQueue(v.queue, node).Some? {
      var q := FindQueue(v.queue, node).value;
      EarliestIs(v.queue, node, q);
      HeldIs(v, q);
      forall r | Earliest(v.queue, r) && r.node == node
        ensures r == q
      {
        EarliestIs(v.queue, node, r);
      }
    } else {
      forall r | Earliest(v.queue, r)
        ensures r in v.queue
      {
      }
    }
  }

  lemma DropDue(v: View, w: View, stuck: bool, t: Task)
    requires Derived(v, w, stuck) && t.Drop?
    ensures t in Collect(KDropped, w.list, w) <==>
            t.e in v.list && t.e.status == Cancelled && Finds(v, stuck, t.e.node, t.found)
  {
    Picked(KDropped, w, t);
    FoundIs(v, w, stuck, t.e.node, t.found);
    if t.e.status == Cancelled {
      CopyIs(v, w, stuck, t.e);
    }
  }

  lemma DequeueDue(v: View, w: View, stuck: bool, enabled: bool, t: Task)
    requires Derived(v, w, stuck) && t.Dequeue?
    ensures t in Collect(KQueued, v.list, v) <==>
            t.e in v.list && t.e.status == Queued && Earliest(v.queue, t.q) && t.q.node == t.e.node
    ensures t in Collect(if enabled then KTimedOut else KQueued, w.list, w) <==>
            && !stuck && t in Collect(KQueued, v.list, v)
            && (enabled ==> t.e.index !in v.ok && t.q.status != Rebooting)
  {
    Picked(KQueued, v, t);
    Picked(if enabled then KTimedOut else KQueued, w, t);
    EarliestIs(v.queue, t.e.node, t.q);
    if t in Collect(if enabled then KTimedOut else KQueued, w.list, w) {
      NotDemoted(v, w, stuck, if enabled then KTimedOut else KQueued, t);
    }
  }

  lemma GroupInTurn(v: View, candidates: seq<string>, w: View, g: string)
    requires w.group == if candidates != [] && (v.queue == [] || Stuck(v.queue)) then NextGroup(candidates, v.group)
                        else v.group
    ensures w.group == g <==> InTurn(v, candidates, g)
  {
    forall h
      ensures IsNext(candidates, v.group, h) <==> h == NextGroup(candidates, v.group) && h != v.group
    {
      NextIs(candidates, v.group, h);
    }
    var n := NextGroup(candidates, v.group);
    assert MovesTo(v, true, candidates, n) <==> (v.queue == [] || Stuck(v.queue)) && n != v.group;
  }

  lemma EntryDue(v: View, w: View, stuck: bool, t: Task)
    requires Derived(v, w, stuck) && (t.Finish? || t.Enqueue?)
    ensures t in Collect(if t.Finish? then KFinished else KNew, w.list, w) <==>
            && t.e in v.list && !Enqueued(v, t.e.node)
            && (if t.Finish? then t.e.status == Queued
                else t.e.status == Pending && t.e.group == w.group && t.e.index in v.ok)
  {
    Picked(if t.Finish? then KFinished else KNew, w, t);
    DerivedFind(v, w, stuck, t.e.node);
    if FindQueue(v.queue, t.e.node).None? {
      CopyIs(v, w, stuck, t.e);
    }
  }

  /** A pass, exactly: whatever has been read, also with several entries of a node, a task is planned
      if and only if it is due. */
  lemma PassExactly(v: View, enabled: bool, candidates: seq<string>, t: Task)
    ensures t in Plan(v, enabled, candidates) <==> Due(v, enabled, candidates, t)
  {
    if t.Move? {
      MovesExactly(v, enabled, candidates, t.group);
    } else {
      var stuck, w, a, b := PlanParts(v, enabled, candidates);
      assert t in Plan(v, enabled, candidates) <==> t in a || t in Rest(w, enabled);
      assert stuck == GivesUp(v, enabled, candidates);
      CleansUpIs(v, w, stuck);
      RestIs(w, enabled, t);
      PartDue(v, w, stuck, enabled, candidates, a, t);
    }
  }

  lemma PartDue(v: View, w: View, stuck: bool, enabled: bool, candidates: seq<string>, a: seq<Task>, t: Task)
    requires Derived(v, w, stuck) && !t.Move? && stuck == GivesUp(v, enabled, candidates)
    requires a == if stuck then Collect(KQueued, v.list, v) else []
    requires w.group == if candidates != [] && enabled && (v.queue == [] || stuck) then NextGroup(candidates, v.group)
                        else v.group
    requires AnyCancelled(v) <==> Collect(KDropped, w.list, w) != []
    requires CleansUp(v, stuck) <==> Collect(KDropped, w.list, w) != [] || Orphans(w.queue, w.list) != []
    ensures Due(v, enabled, candidates, t) <==> t in a || InRest(w, enabled, t)
  {
    Picked(KQueued, v, t);
    match t {
      case Drop(_, _) => DropDue(v, w, stuck, t);
      case Orphan(q) => OrphansExactly(w.queue, w.list); StrayIs(v, w, stuck, q);
      case Finish(_) => EntryDue(v, w, stuck, t);
      case Enqueue(e) =>
        EntryDue(v, w, stuck, t);
        if enabled { GroupInTurn(v, candidates, w, e.group); }
      case Dequeue(_, _) => DequeueDue(v, w, stuck, enabled, t);
    }
  }

  /** What is rebooting is left alone: whatever has been read, an enabled pass dequeues nothing that
      is rebooting. */
  lemma SparesRebooting(v: View, candidates: seq<string>, e: Entry, q: QueueEntry)
    requires Dequeue(e, q) in Plan(v, true, candidates)
    ensures q in v.queue && q.status != Rebooting && e in v.list && e.status == Queued
  {
    PassExactly(v, true, candidates, Dequeue(e, q));
  }

  // ---- In which order ------------------------------------------------------------------

  function Stage(t: Task, gaveUp: bool): nat {
    match t
    case Dequeue(_, _) => if gaveUp then 0 else 4
    case Move(_) => 1
    case Drop(_, _) => 2
    case Orphan(_) => 2
    case Finish(_) => 2
    case Enqueue(_) => 3
  }

  function Place(t: Task): int {
    match t
    case Move(_) => 0
    case Orphan(q) => q.index
    case _ => t.e.index
  }

  /** By stage, and within a stage by index. */
  ghost predicate InOrder(tasks: seq<Task>, gaveUp: bool) {
    forall m, n | 0 <= m < n < |tasks| ::
      || Stage(tasks[m], gaveUp) < Stage(tasks[n], gaveUp)
      || (Stage(tasks[m], gaveUp) == Stage(tasks[n], gaveUp) && Place(tasks[m]) < Place(tasks[n]))
  }

  ghost predicate AllAt(tasks: seq<Task>, gaveUp: bool, lo: nat, hi: nat) {
    forall m | 0 <= m < |tasks| :: lo <= Stage(tasks[m], gaveUp) < hi
  }

  lemma Joined(a: seq<Task>, b: seq<Task>, gaveUp: bool, lo: nat, mid: nat, hi: nat)
    requires InOrder(a, gaveUp) && InOrder(b, gaveUp) && lo <= mid <= hi
    requires AllAt(a, gaveUp, lo, mid) && AllAt(b, gaveUp, mid, hi)
    ensures InOrder(a + b, gaveUp) && AllAt(a + b, gaveUp, lo, hi)
  {
    var s := a + b;
    assert forall m | 0 <= m < |s| :: s[m] == if m < |a| then a[m] else b[m - |a|];
  }

  function KindStage(kind: Kind, gaveUp: bool): nat {
    match kind
    case KDropped => 2
    case KFinished => 2
    case KNew => 3
    case _ => if gaveUp then 0 else 4
  }

  lemma CollectInOrder(kind: Kind, w: View, gaveUp: bool)
    requires Ascending(w.list)
    ensures var x, at := Collect(kind, w.list, w), KindStage(kind, gaveUp);
            InOrder(x, gaveUp) && AllAt(x, gaveUp, at, at + 1)
  {
    var x := Collect(kind, w.list, w);
    CollectExactly(kind, w.list, w);
    forall m | 0 <= m < |x|
      ensures Stage(x[m], gaveUp) == KindStage(kind, gaveUp) && ForEntry(x[m])
    {
      assert x[m] in x;
    }
    forall m, n | 0 <= m < n < |x|
      ensures Place(x[m]) < Place(x[n])
    {
      CollectOrdered(kind, w.list, w, m, n);
    }
  }

  ghost predicate Rising(queue: seq<QueueEntry>) {
    forall a, b | 0 <= a < b < |queue| :: queue[a].index < queue[b].index
  }

  lemma Appended(front: seq<Task>, q: QueueEntry, gaveUp: bool)
    requires InOrder(front, gaveUp) && forall m | 0 <= m < |front| :: front[m].Orphan? && front[m].q.index < q.index
    ensures InOrder(front + [Orphan(q)], gaveUp) && AllAt(front + [Orphan(q)], gaveUp, 2, 3)
  {
    var x := front + [Orphan(q)];
    assert forall m | 0 <= m < |x| :: x[m] == if m < |front| then front[m] else Orphan(q);
  }

  lemma {:induction false} OrphansInOrder(queue: seq<QueueEntry>, list: seq<Entry>, gaveUp: bool)
    requires Rising(queue)
    ensures var x := Orphans(queue, list); InOrder(x, gaveUp) && AllAt(x, gaveUp, 2, 3)
  {
    if queue != [] {
      var n := |queue| - 1;
      var front := Orphans(queue[..n], list);
      OrphansInOrder(queue[..n], list, gaveUp);
      OrphansBelow(queue[..n], list, queue[n].index);
      if IsOrphan(queue[n], list) {
        Appended(front, queue[n], gaveUp);
      }
    }
  }

  lemma OrphansBelow(queue: seq<QueueEntry>, list: seq<Entry>, bound: int)
    requires forall q | q in queue :: q.index < bound
    ensures var x := Orphans(queue, list); forall m | 0 <= m < |x| :: x[m].Orphan? && x[m].q.index < bound
  {
    var x := Orphans(queue, list);
    OrphansExactly(queue, list);
    forall m | 0 <= m < |x|
      ensures x[m].Orphan? && x[m].q.index < bound
    {
      assert x[m] in x;
    }
  }

  lemma RestInOrder(w: View, enabled: bool, gaveUp: bool)
    requires Ascending(w.list) && Rising(w.queue) && (gaveUp ==> Collect(KTimedOut, w.list, w) == [] && enabled)
    ensures InOrder(Rest(w, enabled), gaveUp) && AllAt(Rest(w, enabled), gaveUp, 2, 5)
  {
    var dropped, orphans := Collect(KDropped, w.list, w), Orphans(w.queue, w.list);
    if dropped != [] {
      CollectInOrder(KDropped, w, gaveUp);
    } else if orphans != [] {
      OrphansInOrder(w.queue, w.list, gaveUp);
    } else {
      UsualInOrder(w, enabled, gaveUp);
    }
  }

  /** A pass that has nothing to clean up. */
  lemma UsualInOrder(w: View, enabled: bool, gaveUp: bool)
    requires Ascending(w.list) && (gaveUp ==> Collect(KTimedOut, w.list, w) == [] && enabled)
    ensures var r := Collect(KFinished, w.list, w) +
                     (if enabled then Collect(KNew, w.list, w) + Collect(KTimedOut, w.list, w)
                      else Collect(KQueued, w.list, w));
            InOrder(r, gaveUp) && AllAt(r, gaveUp, 2, 5)
  {
    var kind := if enabled then KTimedOut else KQueued;
    var f, x, y := Collect(KFinished, w.list, w), Collect(KNew, w.list, w), Collect(kind, w.list, w);
    CollectInOrder(KFinished, w, gaveUp);
    if enabled {
      CollectInOrder(KNew, w, gaveUp);
      CollectInOrder(kind, w, gaveUp);
      Joined(x, y, gaveUp, 3, 4, 5);
      Joined(f, x + y, gaveUp, 2, 3, 5);
    } else {
      CollectInOrder(kind, w, gaveUp);
      Joined(f, y, gaveUp, 2, 4, 5);
    }
  }

  lemma DerivedInOrder(v: View, w: View, stuck: bool)
    requires Derived(v, w, stuck) && Ascending(v.list) && Rising(v.queue)
    ensures Ascending(w.list) && Rising(w.queue)
    ensures stuck ==> Collect(KTimedOut, w.list, w) == []
  {
    assert |w.list| == |v.list| && |w.queue| == |v.queue|;
    assert forall j | 0 <= j < |w.list| :: w.list[j].index == v.list[j].index;
    assert forall j | 0 <= j < |w.queue| :: w.queue[j].index == v.queue[j].index;
    var x := Collect(KTimedOut, w.list, w);
    if stuck && x != [] {
      assert x[0] in x;
      TimedOutStatus(v, w, stuck, x[0]);
      NotDemoted(v, w, stuck, KTimedOut, x[0]);
    }
  }

  /** A pass in order: with both stores read in order of index, what a pass that gives up dequeues
      comes first, then the move; then what it cleans up or finishes, then what it enqueues, then
      what it dequeues; each in order of index, and nothing twice. */
  lemma PassInOrder(v: View, enabled: bool, candidates: seq<string>)
    requires Ascending(v.list) && Rising(v.queue)
    ensures InOrder(Plan(v, enabled, candidates), GivesUp(v, enabled, candidates))
  {
    var stuck, w, a, b := PlanParts(v, enabled, candidates);
    assert stuck == GivesUp(v, enabled, candidates);
    DerivedInOrder(v, w, stuck);
    if stuck {
      CollectInOrder(KQueued, v, stuck);
    }
    RestInOrder(w, enabled, stuck);
    ThreeParts(a, b, Rest(w, enabled), stuck);
  }

  lemma ThreeParts(a: seq<Task>, b: seq<Task>, r: seq<Task>, gaveUp: bool)
    requires InOrder(a, gaveUp) && AllAt(a, gaveUp, 0, 1) && InOrder(r, gaveUp) && AllAt(r, gaveUp, 2, 5)
    requires b == [] || (|b| == 1 && b[0].Move?)
    ensures InOrder(a + b + r, gaveUp)
  {
    Joined(a, b, gaveUp, 0, 1, 2);
    Joined(a + b, r, gaveUp, 0, 2, 5);
  }
}
