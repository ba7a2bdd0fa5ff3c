/** What every step of neco-rebooter keeps, across crashes and interference: one group in the
    queue at a time, one queue entry per node, and sound completion. */
module RebooterSafety {
  import opened Common
  import opened RebooterPlan
  import opened RebooterProtocol

  ghost predicate Same(a: Entry, b: Entry) {
    a.index == b.index && a.node == b.node && a.group == b.group
  }

  ghost predicate HasIndex(l: seq<Entry>, i: int) {
    exists e | e in l :: e.index == i
  }

  ghost predicate ListOk(s: State) {
    && (forall i | i in s.list :: s.list[i].index == i < s.nextList)
    && (forall i, j | i in s.list && j in s.list && s.list[i].node == s.list[j].node :: i == j)
  }

  ghost predicate ItemOk(s: State, k: int)
    requires k in s.queue
  {
    var x := s.queue[k];
    && k < s.nextQueue && x.owner < s.nextList
    && (x.owner in s.list ==> s.list[x.owner].node == x.node && s.list[x.owner].group == x.group)
    && (x.status != Withdrawn ==> x.owner in s.list && x.owner in s.life && s.life[x.owner] == InQueue(k))
    && (x.status != Withdrawn && s.list[x.owner].status == Queued ==> x.group == s.group)
  }

  ghost predicate OneNode(s: State) {
    forall k, m | k in s.queue && m in s.queue && s.queue[k].node == s.queue[m].node :: k == m
  }

  ghost predicate OneGroup(s: State) {
    forall k, m | Live(s, k) && Live(s, m) :: s.queue[k].group == s.queue[m].group
  }

  /** The entry's registration has not been withdrawn. */
  ghost predicate Registered(s: State, i: int) {
    && i in s.life
    && (s.life[i] == Served ||
        (s.life[i].InQueue? && s.life[i].k in s.queue && s.queue[s.life[i].k].owner == i))
  }

  /** No live queue entry belongs to list entry i. */
  ghost predicate Unowned(s: State, i: int) {
    forall k | Live(s, k) :: s.queue[k].owner != i
  }

  /** Withdrawing k takes nothing back from an entry the list holds as queued. */
  ghost predicate Safe(s: State, k: int) {
    k in s.queue && s.queue[k].owner in s.list ==> s.list[s.queue[k].owner].status != Queued
  }

  // ---- The controller's copies and its plan ------------------------------------

  /** A copy of a list entry: only its status may be out of date, and only by a cancellation. */
  ghost predicate CopyOk(s: State, e: Entry) {
    && e.index in s.list && Same(s.list[e.index], e)
    && (s.list[e.index].status == e.status || s.list[e.index].status == Cancelled)
    && (e.status == Queued ==> Registered(s, e.index))
    && (e.status == Queued && s.life[e.index].InQueue? && Live(s, s.life[e.index].k) ==> e.group == s.group)
  }

  ghost predicate CopiesOk(s: State, l: seq<Entry>) {
    && (forall e | e in l :: CopyOk(s, e))
    && (forall i | i in s.list && s.list[i].status == Queued :: HasIndex(l, i))
    && (forall k | Live(s, k) :: HasIndex(l, s.queue[k].owner))
    && (forall a, b | 0 <= a < b < |l| :: l[a].index < l[b].index)
  }

  ghost predicate QueueCopyOk(s: State, q: QueueEntry) {
    && q.index < s.nextQueue
    && (q.index in s.queue ==>
          s.queue[q.index].node == q.node && (s.queue[q.index].status != Withdrawn ==> q.status != Withdrawn))
  }

  ghost predicate QueueCopiesOk(s: State, q: seq<QueueEntry>) {
    && (forall x | x in q :: QueueCopyOk(s, x))
    && (forall k | k in s.queue :: exists x | x in q :: x.index == k)
    && (forall x, y | x in q && y in q && x.node == y.node :: x == y)
  }

  /** What holds of each task of a plan until its turn, whatever its place. */
  ghost predicate TaskOk(s: State, t: Task) {
    match t
    case Dequeue(e, q) =>
      && e.index in s.list && Same(s.list[e.index], e) && q.index < s.nextQueue
      && (q.index in s.queue ==> s.queue[q.index].owner == e.index || s.queue[q.index].owner !in s.list)
      && (forall k | Live(s, k) && s.queue[k].owner == e.index :: q.index == k)
    case Drop(e, found) =>
      && e.index < s.nextList
      && (e.index in s.list ==> s.list[e.index].status == Cancelled)
      && (forall k | Live(s, k) && s.queue[k].owner == e.index :: found.Some? && found.value.index == k)
      && (found.Some? ==> Safe(s, found.value.index) && found.value.index < s.nextQueue)
    case Finish(e) => e.index in s.life && s.life[e.index] == Served && Unowned(s, e.index)
    case Enqueue(e) => e.index in s.list && Same(s.list[e.index], e)
    case Orphan(q) => Safe(s, q.index) && q.index < s.nextQueue
    case Move(_) => true
  }

  ghost predicate Dequeues(ts: seq<Task>, k: int) {
    exists t | t in ts :: t.Dequeue? && t.q.index == k
  }

  ghost predicate Demotes(ts: seq<Task>, i: int) {
    exists t | t in ts :: t.Dequeue? && t.e.index == i
  }

  /** The group the controller will be working on once the tasks before have been done. */
  ghost predicate GroupWillBe(s: State, before: seq<Task>, g: string) {
    && (forall t | t in before && t.Move? :: t.group == g)
    && ((forall t | t in before :: !t.Move?) ==> s.group == g)
  }

  /** A live queue entry that is no obstacle to enqueueing e once `before` has been done. */
  ghost predicate Settled(s: State, k: int, e: Entry, before: seq<Task>, half: bool)
    requires k in s.queue && s.queue[k].owner in s.list
  {
    || (s.queue[k].group == e.group && s.list[s.queue[k].owner].status != Pending)
    || Dequeues(before, k)
    || (half && before != [] && before[0].Enqueue? && s.queue[k].owner == before[0].e.index &&
        s.queue[k].group == e.group)
  }

  ghost predicate EnqueueOk(s: State, e: Entry, before: seq<Task>, half: bool) {
    && (forall k | k in s.queue :: s.queue[k].node != e.node)
    && GroupWillBe(s, before, e.group)
    && (forall k | Live(s, k) :: s.queue[k].owner in s.list && Settled(s, k, e, before, half))
    && (forall t | t in before && t.Enqueue? :: t.e.node != e.node)
  }

  ghost predicate MoveOk(s: State, before: seq<Task>) {
    && (forall k | Live(s, k) && s.queue[k].owner in s.list && s.list[s.queue[k].owner].status == Queued ::
          Demotes(before, s.queue[k].owner))
    && (forall t | t in before :: !t.Enqueue?)
  }

  ghost predicate PlaceOk(s: State, tasks: seq<Task>, half: bool, n: nat)
    requires n < |tasks|
  {
    && (tasks[n].Enqueue? && !(half && n == 0) ==> EnqueueOk(s, tasks[n].e, tasks[..n], half))
    && (tasks[n].Move? ==> MoveOk(s, tasks[..n]))
  }

  /** Which tasks exclude each other within a plan. */
  ghost predicate Compatible(a: Task, b: Task) {
    && (a.Enqueue? ==> !b.Drop? && !b.Orphan?)
    && (a.Drop? && b.Dequeue? ==> a.e.index != b.e.index)
    && (a.Finish? && (b.Enqueue? || b.Dequeue?) ==> a.e.index != b.e.index)
    && (a.Enqueue? && b.Dequeue? ==> a.e.index != b.e.index)
  }

  /** What the first write of the first task has established. */
  ghost predicate HalfOk(s: State, t: Task) {
    match t
    case Dequeue(e, q) => Safe(s, q.index) && (e.index in s.list ==> s.list[e.index].status != Queued)
    case Drop(e, _) => Unowned(s, e.index)
    case Enqueue(e) =>
      && Registered(s, e.index) && e.group == s.group
      && (forall k | Live(s, k) && s.queue[k].owner == e.index :: s.queue[k].group == s.group)
    case _ => false
  }

  ghost predicate TasksOk(s: State, tasks: seq<Task>, half: bool) {
    && (forall t | t in tasks :: TaskOk(s, t))
    && (forall a, b | a in tasks && b in tasks :: Compatible(a, b))
    && (forall n: nat | n < |tasks| :: PlaceOk(s, tasks, half, n))
    && (half ==> tasks != [] && HalfOk(s, tasks[0]))
  }

  ghost predicate ControlOk(s: State) {
    match s.ctl
    case Resting => true
    case HasList(l) => CopiesOk(s, l)
    case HasBoth(l, q) => CopiesOk(s, l) && QueueCopiesOk(s, q)
    case Working(tasks, half) => TasksOk(s, tasks, half)
  }

  ghost predicate StoreInv(s: State) {
    && ListOk(s)
    && (forall k | k in s.queue :: ItemOk(s, k))
    && OneNode(s) && OneGroup(s)
    && (forall i | i in s.list && s.list[i].status == Queued :: Registered(s, i))
  }

  ghost predicate Inv(s: State) {
    StoreInv(s) && ControlOk(s)
  }

  // ---- Interference --------------------------------------------------------------

  /** What the command line and CKE can do between two steps of the controller. */
  ghost predicate Interferes(s: State, t: State) {
    && t.ctl == s.ctl && t.group == s.group && s.nextList <= t.nextList && s.nextQueue <= t.nextQueue
    && (forall i | i in s.list ::
          i in t.list && Same(s.list[i], t.list[i]) &&
          (t.list[i].status == s.list[i].status || t.list[i].status == Cancelled))
    && (forall i | i in t.list && i !in s.list :: t.list[i].status == Pending && i >= s.nextList)
    && (forall k | k in t.queue ::
          && k in s.queue && t.queue[k].node == s.queue[k].node && t.queue[k].owner == s.queue[k].owner
          && t.queue[k].group == s.queue[k].group
          && (t.queue[k].status != Withdrawn ==> s.queue[k].status != Withdrawn))
    && (forall i | i in s.life ::
          i in t.life &&
          (t.life[i] == s.life[i] || (t.life[i] == Served && s.life[i].InQueue? && s.life[i].k !in t.queue)))
    && (forall i | i in s.life && s.life[i].InQueue? && s.life[i].k in s.queue && s.queue[s.life[i].k].owner == i ::
          t.life[i] == Served || s.life[i].k in t.queue)
  }

  lemma PlaceStays(s: State, t: State, tasks: seq<Task>, half: bool, n: nat)
    requires Interferes(s, t) && StoreInv(s) && n < |tasks| && PlaceOk(s, tasks, half, n)
    ensures PlaceOk(t, tasks, half, n)
  {
    if tasks[n].Enqueue? && !(half && n == 0) {
      var e, before := tasks[n].e, tasks[..n];
      forall k | Live(t, k)
        ensures t.queue[k].owner in t.list && Settled(t, k, e, before, half)
      {
        assert Live(s, k) && Settled(s, k, e, before, half);
      }
    }
    if tasks[n].Move? {
      forall k | Live(t, k) && t.queue[k].owner in t.list && t.list[t.queue[k].owner].status == Queued
        ensures Demotes(tasks[..n], t.queue[k].owner)
      {
        assert Live(s, k) && ItemOk(s, k);
      }
    }
  }

  lemma TasksStay(s: State, t: State, tasks: seq<Task>, half: bool)
    requires Interferes(s, t) && StoreInv(s) && TasksOk(s, tasks, half)
    ensures TasksOk(t, tasks, half)
  {
    forall x | x in tasks
      ensures TaskOk(t, x)
    {
      assert forall k | k in s.queue :: ItemOk(s, k);
    }
    forall n: nat | n < |tasks|
      ensures PlaceOk(t, tasks, half, n)
    {
      PlaceStays(s, t, tasks, half, n);
    }
  }

  lemma CopiesStay(s: State, t: State, l: seq<Entry>)
    requires Interferes(s, t) && StoreInv(s) && CopiesOk(s, l)
    ensures CopiesOk(t, l)
  {
    forall e | e in l
      ensures CopyOk(t, e)
    {
      assert CopyOk(s, e);
    }
  }

  lemma QueueCopiesStay(s: State, t: State, q: seq<QueueEntry>)
    requires Interferes(s, t) && QueueCopiesOk(s, q)
    ensures QueueCopiesOk(t, q)
  {
    forall x | x in q
      ensures QueueCopyOk(t, x)
    {
      assert QueueCopyOk(s, x);
    }
  }

  lemma InterferenceKeeps(s: State, t: State)
    requires Inv(s) && Interferes(s, t) && ListOk(t)
    ensures Inv(t)
  {
    match s.ctl
    case Resting =>
    case HasList(l) => CopiesStay(s, t, l);
    case HasBoth(l, q) => CopiesStay(s, t, l); QueueCopiesStay(s, t, q);
    case Working(tasks, half) => TasksStay(s, t, tasks, half);
  }

  lemma EnvironmentKeeps(s: State, a: Action)
    requires Inv(s) && Enabled(s, a) && (a.Add? || a.Cancel? || a.Advance? || a.Remove?)
    ensures Inv(Apply(s, a))
  {
    if a.Add? || a.Cancel? {
      CommandInterferes(s, a);
    } else {
      CKEInterferes(s, a);
    }
    InterferenceKeeps(s, Apply(s, a));
  }

  lemma CommandInterferes(s: State, a: Action)
    requires StoreInv(s) && Enabled(s, a) && (a.Add? || a.Cancel?)
    ensures Interferes(s, Apply(s, a)) && ListOk(Apply(s, a))
  {
  }

  lemma CKEInterferes(s: State, a: Action)
    requires StoreInv(s) && Enabled(s, a) && (a.Advance? || a.Remove?)
    ensures Interferes(s, Apply(s, a)) && ListOk(Apply(s, a))
  {
  }

  // ---- Reading and deciding ------------------------------------------------------

  lemma ReadListKeeps(s: State, l: seq<Entry>)
    requires Inv(s) && Enabled(s, ReadList(l))
    ensures Inv(Apply(s, ReadList(l)))
  {
    var t := Apply(s, ReadList(l));
    forall k | k in t.queue
      ensures ItemOk(t, k)
    {
      assert ItemOk(s, k);
    }
    forall e | e in l
      ensures CopyOk(t, e)
    {
      if e.status == Queued && t.life[e.index].InQueue? && Live(t, t.life[e.index].k) {
        assert ItemOk(s, t.life[e.index].k);
      }
    }
    forall i | i in t.list
      ensures HasIndex(l, i)
    {
      assert s.list[i] in l;
    }
  }

  lemma ReadQueueKeeps(s: State, q: seq<QueueEntry>)
    requires Inv(s) && Enabled(s, ReadQueue(q))
    ensures Inv(Apply(s, ReadQueue(q)))
  {
    var t := Apply(s, ReadQueue(q));
    forall k | k in t.queue
      ensures ItemOk(t, k)
    {
      assert ItemOk(s, k);
    }
    assert CopiesOk(t, s.ctl.list) by {
      assert CopiesOk(s, s.ctl.list);
      forall e | e in s.ctl.list
        ensures CopyOk(t, e)
      {
        assert CopyOk(s, e);
      }
    }
  }

  /** Copies taken of both stores. */
  ghost predicate ViewOk(s: State, v: View) {
    StoreInv(s) && CopiesOk(s, v.list) && QueueCopiesOk(s, v.queue) && v.group == s.group
  }

  /** A task that a pass may derive from what it has read. */
  ghost predicate Justified(v: View, t: Task) {
    match t
    case Dequeue(e, q) => e in v.list && e.status == Queued && FindQueue(v.queue, e.node) == Some(q)
    case Drop(e, found) =>
      && e in v.list && e.status == Cancelled
      && found.Some? == FindQueue(v.queue, e.node).Some?
      && (found.Some? ==> found.value.index == FindQueue(v.queue, e.node).value.index)
    case Finish(e) => e in v.list && e.status == Queued && FindQueue(v.queue, e.node).None?
    case Enqueue(e) => e in v.list && e.status == Pending && FindQueue(v.queue, e.node).None?
    case Orphan(q) => q in v.queue && IsOrphan(q, v.list)
    case Move(_) => true
  }

}
