/** Exactly when a cancellation in the reboot list cannot be lost, told from what the controller has
    read and planned and from the queue as it is. */
module RebooterDanger {
  import opened Common
  import opened RebooterPlan
  import opened RebooterProtocol
  import opened RebooterSafety
  import opened RebooterDecide
  import opened RebooterRuns
  import opened RebooterTwins
  import opened RebooterCancel

  /** Every queue entry to be withdrawn for a queued copy below index i is still there: dequeueing
      in list order gets as far as i. */
  ghost predicate Passable(s: State, i: int)
    requires s.ctl.HasBoth?
  {
    forall d | d in s.ctl.list && d.status == Queued && d.index < i && FindQueue(s.ctl.queue, d.node).Some? ::
      FindQueue(s.ctl.queue, d.node).value.index in s.queue
  }

  /** Nothing that was read makes the pass stop short: no cancelled entry and no orphan. */
  ghost predicate NothingFirst(s: State)
    requires s.ctl.HasBoth?
  {
    NoneCancelled(s.ctl.list) && forall q | q in s.ctl.queue :: !IsOrphan(q, s.ctl.list)
  }

  /** The pass may write the copy e over what is stored by now.  A pending copy whose node was not
      queued may be enqueued, in its own group or after a move, which takes an empty queue or a
      stuck one that can be dequeued.  A queued copy may be dequeued: with a stuck queue; or
      because its time is over, unless its node is rebooting; or because the rebooter has been
      disabled. */
  ghost predicate MayWriteBoth(s: State, e: Entry)
    requires s.ctl.HasBoth?
  {
    var queue := s.ctl.queue;
    var found := FindQueue(queue, e.node);
    match e.status
    case Cancelled => false
    case Pending =>
      && found.None? && NothingFirst(s)
      && (e.group == s.group || queue == [] || (Stuck(queue) && forall i :: Passable(s, i)))
    case Queued =>
      && found.Some?
      && (|| (Stuck(queue) && Passable(s, e.index))
          || (NothingFirst(s) && (found.value.status != Rebooting || Passable(s, e.index))))
  }

  /** The cancellation of entry i is in danger. */
  ghost predicate Endangered(s: State, i: int) {
    match s.ctl
    case Resting => false
    case HasList(l) => exists e | e in l :: e.index == i && MayWriteCopy(s, e)
    case HasBoth(l, _) => exists e | e in l :: e.index == i && MayWriteBoth(s, e)
    case Working(_, _) => WillWrite(s, i)
  }

  // ---- From a decision to the copies -----------------------------------------------

  /** Copies as they are read: one per node in each store, the list in order of index. */
  ghost predicate Tidy(v: View) {
    && (forall q | q in v.queue :: FindQueue(v.queue, q.node) == Some(q))
    && (forall e | e in v.list :: FindList(v.list, e.node) == Some(e))
    && forall a, b | 0 <= a < b < |v.list| :: v.list[a].index < v.list[b].index
  }

  lemma ReadIsTidy(s: State)
    requires Inv(s) && s.ctl.HasBoth?
    ensures Tidy(Seen(s, {}))
  {
    var v := Seen(s, {});
    forall e | e in v.list
      ensures FindList(v.list, e.node) == Some(e)
    {
      FirstCopy(s, v, e);
    }
  }

  lemma TidyOnePerNode(v: View)
    requires Tidy(v)
    ensures OnePerNode(v.queue)
  {
  }

  lemma TidyJustified(v: View, enabled: bool, candidates: seq<string>, n: nat)
    requires Tidy(v) && n < |Plan(v, enabled, candidates)|
    ensures Justified(v, Plan(v, enabled, candidates)[n])
  {
    TidyOnePerNode(v);
    PlanJustified(v, enabled, candidates, Plan(v, enabled, candidates)[n]);
  }

  /** Orphans of the derived copies are those of the copies read. */
  lemma SameOrphans(v: View, w: View, stuck: bool)
    requires Tidy(v) && Derived(v, w, stuck)
    ensures Orphans(w.queue, w.list) == [] <==> forall q | q in v.queue :: !IsOrphan(q, v.list)
  {
    OrphansExactly(w.queue, w.list);
    if Orphans(w.queue, w.list) == [] {
      forall q | q in v.queue
        ensures !IsOrphan(q, v.list)
      {
        if IsOrphan(q, v.list) {
          OrphanStays(v, w, stuck, q);
        }
      }
    } else {
      var t := Orphans(w.queue, w.list)[0];
      assert t in Orphans(w.queue, w.list);
      TidyOnePerNode(v);
      OrphanJustified(v, w, stuck, t.q);
    }
  }

  lemma OrphanStays(v: View, w: View, stuck: bool, q: QueueEntry)
    requires Tidy(v) && Derived(v, w, stuck) && q in v.queue && IsOrphan(q, v.list)
    ensures q in w.queue && IsOrphan(q, w.list)
  {
    DerivedFind(v, w, stuck, q.node);
    if stuck {
      OrphanUnclaimed(v, q);
      var j :| 0 <= j < |v.queue| && v.queue[j] == q;
      assert w.queue[j] == WithdrawEntry(v, q);
    }
  }

  /** A live orphan is claimed by no queued entry: the only entry of its node is pending. */
  lemma OrphanUnclaimed(v: View, q: QueueEntry)
    requires Tidy(v) && IsOrphan(q, v.list)
    ensures !Claimed(v, q)
  {
    forall e | e in v.list
      ensures Pick(KQueued, e, v) != Some(Dequeue(e, q))
    {
      assert FindList(v.list, e.node) == Some(e);
    }
  }

  /** Nothing comes first in the derived copies, so nothing came first in those read. */
  lemma NothingCameFirst(s: State, v: View, w: View, stuck: bool)
    requires s.ctl.HasBoth? && v == Seen(s, v.ok) && Tidy(v) && Derived(v, w, stuck)
    ensures NothingFirst(s) <==> Collect(KDropped, w.list, w) == [] && Orphans(w.queue, w.list) == []
  {
    DerivedNoneCancelled(v, w, stuck);
    SameOrphans(v, w, stuck);
  }

  /** The view that a decision is made on. */
  function Seen(s: State, ok: set<int>): View
    requires s.ctl.HasBoth?
  {
    View(s.ctl.list, s.ctl.queue, s.group, ok)
  }

  ghost predicate Ascending(list: seq<Entry>) {
    forall a, b | 0 <= a < b < |list| :: list[a].index < list[b].index
  }

  /** Before place p of the dequeues everything is there. */
  ghost predicate AllThere(s: State, x: seq<Task>, p: nat) {
    forall m | 0 <= m < p && m < |x| && x[m].Dequeue? :: x[m].q.index in s.queue
  }

  /** Everything with a lower index than the entry at place p is there, too. */
  lemma UpToIsPassable(s: State, v: View, x: seq<Task>, p: nat, i: int)
    requires s.ctl.HasBoth? && v == Seen(s, v.ok) && Ascending(v.list) && x == Collect(KQueued, v.list, v)
    requires p <= |x| && AllThere(s, x, p) && (p == |x| || (ForEntry(x[p]) && i == x[p].e.index))
    ensures Passable(s, i)
  {
    forall d | d in v.list && d.status == Queued && d.index < i && FindQueue(v.queue, d.node).Some?
      ensures FindQueue(v.queue, d.node).value.index in s.queue
    {
      var q := FindQueue(v.queue, d.node).value;
      var m := PlaceOf(v, x, d, q);
      if p < m {
        CollectOrdered(KQueued, v.list, v, p, m);
      }
    }
  }

  lemma PlaceOf(v: View, x: seq<Task>, d: Entry, q: QueueEntry) returns (m: nat)
    requires x == Collect(KQueued, v.list, v)
    requires d in v.list && d.status == Queued && FindQueue(v.queue, d.node) == Some(q)
    ensures m < |x| && x[m] == Dequeue(d, q)
  {
    CollectExactly(KQueued, v.list, v);
    assert Pick(KQueued, d, v) == Some(Dequeue(d, q));
    m :| 0 <= m < |x| && x[m] == Dequeue(d, q);
  }

  /** The parts of a plan on what has been read. */
  ghost predicate Parts(s: State, v: View, w: View, stuck: bool, a: seq<Task>, b: seq<Task>) {
    && s.ctl.HasBoth? && v == Seen(s, v.ok) && Tidy(v) && Derived(v, w, stuck) && (stuck ==> Stuck(v.queue))
    && a == (if stuck then Collect(KQueued, v.list, v) else [])
    && b == (if w.group != v.group then [Move(w.group)] else [])
    && (w.group != v.group ==> stuck || v.queue == [])
  }

  ghost predicate NoneBlocked(s: State, tasks: seq<Task>, n: nat) {
    forall m: nat | m < n && m < |tasks| :: !Blocked(s, tasks, false, m)
  }

  lemma PrefixThere(s: State, a: seq<Task>, rest: seq<Task>, n: nat)
    requires n <= |a + rest| && NoneBlocked(s, a + rest, n)
    ensures AllThere(s, a, n)
  {
    forall m | 0 <= m < n && m < |a| && a[m].Dequeue?
      ensures a[m].q.index in s.queue
    {
      assert (a + rest)[m] == a[m] && !Blocked(s, a + rest, false, m);
    }
  }

  lemma EnqueueIsDanger(s: State, v: View, w: View, stuck: bool, a: seq<Task>, b: seq<Task>, enabled: bool, n: nat)
    requires Parts(s, v, w, stuck, a, b)
    requires var tasks := a + b + Rest(w, enabled);
             n < |tasks| && tasks[n].Enqueue? && Justified(v, tasks[n]) && NoneBlocked(s, tasks, n)
    ensures MayWriteBoth(s, (a + b + Rest(w, enabled))[n].e)
  {
    var f, x, p := EnqueuePlace(v, w, enabled, a, b, n);
    NothingCameFirst(s, v, w, stuck);
    NewEntry(v, w, stuck, p);
    MoveIsPassable(s, v, w, stuck, a, b, Rest(w, enabled), f, x[..p], n);
  }

  /** An enqueue after a move comes after all the dequeues of a stuck queue. */
  lemma MoveIsPassable(s: State, v: View, w: View, stuck: bool, a: seq<Task>, b: seq<Task>, r: seq<Task>,
                       f: seq<Task>, x: seq<Task>, n: nat)
    requires Parts(s, v, w, stuck, a, b) && n <= |a + b + r| && (a + b + r)[..n] == a + b + f + x
    requires NoneBlocked(s, a + b + r, n)
    ensures w.group == s.group || s.ctl.queue == [] || (Stuck(s.ctl.queue) && forall i :: Passable(s, i))
  {
    if w.group != v.group && v.queue != [] {
      Associative(a, b, r);
      assert |a| <= |(a + b + r)[..n]| == n;
      PrefixThere(s, a, b + r, n);
      AllPassable(s, v, a);
    }
  }

  lemma AllPassable(s: State, v: View, a: seq<Task>)
    requires s.ctl.HasBoth? && v == Seen(s, v.ok) && Ascending(v.list) && a == Collect(KQueued, v.list, v)
    requires AllThere(s, a, |a|)
    ensures forall i :: Passable(s, i)
  {
    forall i
      ensures Passable(s, i)
    {
      UpToIsPassable(s, v, a, |a|, i);
    }
  }

  lemma DequeueIsDanger(s: State, v: View, w: View, stuck: bool, a: seq<Task>, b: seq<Task>, enabled: bool, n: nat)
    requires Parts(s, v, w, stuck, a, b)
    requires var tasks := a + b + Rest(w, enabled);
             n < |tasks| && tasks[n].Dequeue? && Justified(v, tasks[n]) && NoneBlocked(s, tasks, n)
    ensures MayWriteBoth(s, (a + b + Rest(w, enabled))[n].e)
  {
    if n < |a| {
      assert (a + b + Rest(w, enabled))[n] == a[n];
      StuckDequeue(s, v, a, b, Rest(w, enabled), n);
    } else {
      LaterDequeue(s, v, w, stuck, a + b, enabled, Rest(w, enabled), n);
    }
  }

  lemma LaterDequeue(s: State, v: View, w: View, stuck: bool, h: seq<Task>, enabled: bool, r: seq<Task>, n: nat)
    requires s.ctl.HasBoth? && v == Seen(s, v.ok) && Tidy(v) && Derived(v, w, stuck) && r == Rest(w, enabled)
    requires |h| <= n < |h + r| && (h + r)[n].Dequeue? && Justified(v, (h + r)[n]) && NoneBlocked(s, h + r, n)
    ensures MayWriteBoth(s, (h + r)[n].e)
  {
    SplitReached(s, h, r, n);
    RestDequeue(s, v, w, stuck, enabled, r, n - |h|);
  }

  lemma StuckDequeue(s: State, v: View, a: seq<Task>, b: seq<Task>, r: seq<Task>, n: nat)
    requires s.ctl.HasBoth? && v == Seen(s, v.ok) && Ascending(v.list) && Stuck(v.queue)
    requires a == Collect(KQueued, v.list, v) && n < |a| && NoneBlocked(s, a + b + r, n)
    requires a[n].Dequeue? && Justified(v, a[n])
    ensures (a + b + r)[n] == a[n] && MayWriteBoth(s, a[n].e)
  {
    Associative(a, b, r);
    FirstDequeue(s, v, a, b + r, n);
  }

  lemma FirstDequeue(s: State, v: View, a: seq<Task>, rest: seq<Task>, n: nat)
    requires s.ctl.HasBoth? && v == Seen(s, v.ok) && Ascending(v.list) && a == Collect(KQueued, v.list, v)
    requires n < |a| && a[n].Dequeue? && NoneBlocked(s, a + rest, n)
    ensures Passable(s, a[n].e.index)
  {
    PrefixThere(s, a, rest, n);
    UpToIsPassable(s, v, a, n, a[n].e.index);
  }

  lemma SplitReached(s: State, h: seq<Task>, r: seq<Task>, n: nat)
    requires |h| <= n < |h + r| && NoneBlocked(s, h + r, n)
    ensures (h + r)[n] == r[n - |h|] && NoneBlocked(s, r, n - |h|)
  {
    forall m: nat | m < n - |h| && m < |r|
      ensures !Blocked(s, r, false, m)
    {
      assert (h + r)[|h| + m] == r[m] && !Blocked(s, h + r, false, |h| + m);
    }
  }

  /** A dequeue after the group is settled: nothing comes first, and either the time of the entry
      is over or the rebooter is disabled. */
  lemma RestDequeue(s: State, v: View, w: View, stuck: bool, enabled: bool, r: seq<Task>, n: nat)
    requires s.ctl.HasBoth? && v == Seen(s, v.ok) && Tidy(v) && Derived(v, w, stuck) && r == Rest(w, enabled)
    requires n < |r| && r[n].Dequeue? && Justified(v, r[n]) && NoneBlocked(s, r, n)
    ensures MayWriteBoth(s, r[n].e)
  {
    RestPlace(w, enabled, r, n);
    NothingCameFirst(s, v, w, stuck);
    if enabled {
      TimedOutStatus(v, w, stuck, r[n]);
    } else {
      DisabledDequeue(s, v, w, stuck, Collect(KFinished, w.list, w), Collect(KQueued, w.list, w), n);
    }
  }

  /** Where a dequeue stands in the rest of a plan. */
  lemma RestPlace(w: View, enabled: bool, r: seq<Task>, n: nat)
    requires r == Rest(w, enabled) && n < |r| && r[n].Dequeue?
    ensures Collect(KDropped, w.list, w) == [] && Orphans(w.queue, w.list) == []
    ensures enabled ==> r[n] in Collect(KTimedOut, w.list, w)
    ensures var f := Collect(KFinished, w.list, w); !enabled ==> r == f + Collect(KQueued, w.list, w) && |f| <= n
  {
    assert r[n] in r;
    RestKinds(w, enabled, r[n]);
    var f, x := Collect(KFinished, w.list, w), Collect(KNew, w.list, w);
    if n < |f| {
      NotDequeue(KFinished, w, n);
    } else if enabled && n < |f| + |x| {
      NotDequeue(KNew, w, n - |f|);
    }
  }

  lemma DisabledDequeue(s: State, v: View, w: View, stuck: bool, f: seq<Task>, x: seq<Task>, n: nat)
    requires s.ctl.HasBoth? && v == Seen(s, v.ok) && Ascending(v.list) && Derived(v, w, stuck)
    requires x == Collect(KQueued, w.list, w) && |f| <= n < |f + x| && (f + x)[n].Dequeue? && NoneBlocked(s, f + x, n)
    ensures Passable(s, (f + x)[n].e.index)
  {
    var p := n - |f|;
    assert (f + x)[n] == x[p] && x[p] in x;
    NotDemoted(v, w, stuck, KQueued, x[p]);
    SameCollect(KQueued, v.list, v, w);
    forall m | 0 <= m < p && m < |x| && x[m].Dequeue?
      ensures x[m].q.index in s.queue
    {
      assert (f + x)[|f| + m] == x[m] && !Blocked(s, f + x, false, |f| + m);
    }
    UpToIsPassable(s, v, x, p, x[p].e.index);
  }

  lemma NotDequeue(kind: Kind, w: View, n: nat)
    requires n < |Collect(kind, w.list, w)| && (kind == KFinished || kind == KNew)
    ensures !Collect(kind, w.list, w)[n].Dequeue?
  {
    CollectExactly(kind, w.list, w);
    assert Collect(kind, w.list, w)[n] in Collect(kind, w.list, w);
  }

  /** Once a stuck queue has been dequeued, no queued copy has a queue entry. */
  lemma NotDemoted(v: View, w: View, stuck: bool, kind: Kind, t: Task)
    requires Derived(v, w, stuck) && (kind == KQueued || kind == KTimedOut)
    requires t.Dequeue? && t in Collect(kind, w.list, w)
    ensures !stuck && w.list == v.list && w.queue == v.queue
  {
    CollectExactly(kind, w.list, w);
    DerivedEntry(v, w, stuck, t.e);
    DerivedFind(v, w, stuck, t.e.node);
  }

  lemma TimedOutStatus(v: View, w: View, stuck: bool, t: Task)
    requires Derived(v, w, stuck) && t in Collect(KTimedOut, w.list, w)
    ensures t.Dequeue? && FindQueue(v.queue, t.e.node) == Some(t.q) && t.q.status != Rebooting
  {
    CollectExactly(KTimedOut, w.list, w);
    NotDemoted(v, w, stuck, KTimedOut, t);
  }

  /** Which queued entries there are does not depend on group and times. */
  lemma {:induction false} SameCollect(kind: Kind, list: seq<Entry>, v: View, w: View)
    requires kind == KQueued && v.queue == w.queue
    ensures Collect(kind, list, v) == Collect(kind, list, w)
  {
    if list != [] {
      SameCollect(kind, list[..|list| - 1], v, w);
    }
  }

  lemma PlanIsDanger(s: State, enabled: bool, candidates: seq<string>, ok: set<int>, n: nat, i: int)
    requires s.ctl.HasBoth? && Tidy(Seen(s, ok))
    requires var tasks := Plan(Seen(s, ok), enabled, candidates);
             n < |tasks| && StillWrites(tasks, false, n, i) && NoneBlocked(s, tasks, n)
    ensures Endangered(s, i)
  {
    var v := Seen(s, ok);
    TidyJustified(v, enabled, candidates, n);
    var stuck, w, a, b := PlanParts(v, enabled, candidates);
    if Plan(v, enabled, candidates)[n].Enqueue? {
      EnqueueIsDanger(s, v, w, stuck, a, b, enabled, n);
    } else {
      DequeueIsDanger(s, v, w, stuck, a, b, enabled, n);
    }
  }

  lemma DecisionIsDanger(s: State, i: int)
    requires s.ctl.HasBoth? && Tidy(Seen(s, {})) && MayDecide(s, i)
    ensures Endangered(s, i)
  {
    var enabled, candidates, ok :| WillWrite(Apply(s, Decide(enabled, candidates, ok)), i);
    var n := DecidedTask(s, enabled, candidates, ok, i);
    TidyAnyTime(s, ok);
    PlanIsDanger(s, enabled, candidates, ok, n, i);
  }

  lemma TidyAnyTime(s: State, ok: set<int>)
    requires s.ctl.HasBoth? && Tidy(Seen(s, {}))
    ensures Tidy(Seen(s, ok))
  {
  }

  lemma DecidedTask(s: State, enabled: bool, candidates: seq<string>, ok: set<int>, i: int) returns (n: nat)
    requires s.ctl.HasBoth? && WillWrite(Apply(s, Decide(enabled, candidates, ok)), i)
    ensures var tasks := Plan(Seen(s, ok), enabled, candidates);
            n < |tasks| && StillWrites(tasks, false, n, i) && NoneBlocked(s, tasks, n)
  {
    var t := Apply(s, Decide(enabled, candidates, ok));
    n :| n < |t.ctl.tasks| && StillWrites(t.ctl.tasks, t.ctl.half, n, i) && Clear(t, n);
    SameBlocked(s, t, n);
  }

  lemma SameBlocked(s: State, t: State, n: nat)
    requires t.ctl.Working? && !t.ctl.half && n <= |t.ctl.tasks| && t.queue == s.queue && Clear(t, n)
    ensures NoneBlocked(s, t.ctl.tasks, n)
  {
    forall m: nat | m < n
      ensures !Blocked(s, t.ctl.tasks, false, m)
    {
      assert !Blocked(t, t.ctl.tasks, t.ctl.half, m);
    }
  }

  // ---- From the copies to a decision -----------------------------------------------

  /** A decision whose n-th task writes entry i and is reached. */
  lemma Decides(s: State, enabled: bool, candidates: seq<string>, ok: set<int>, tasks: seq<Task>, n: nat, i: int)
    requires s.ctl.HasBoth? && tasks == Plan(Seen(s, ok), enabled, candidates)
    requires n < |tasks| && StillWrites(tasks, false, n, i) && NoneBlocked(s, tasks, n)
    ensures MayDecide(s, i)
  {
    var t := Apply(s, Decide(enabled, candidates, ok));
    assert t.ctl == Working(tasks, false);
    forall m: nat | m < n
      ensures !Blocked(t, tasks, false, m)
    {
      assert !Blocked(s, tasks, false, m);
    }
    assert Clear(t, n);
    assert WillWrite(t, i);
  }

  /** The place of an entry among the dequeues; those before it are not blocked if its index is
      passable. */
  lemma DequeuePlace(s: State, v: View, x: seq<Task>, e: Entry, q: QueueEntry) returns (p: nat)
    requires s.ctl.HasBoth? && v == Seen(s, v.ok) && Ascending(v.list) && x == Collect(KQueued, v.list, v)
    requires e in v.list && e.status == Queued && FindQueue(v.queue, e.node) == Some(q) && Passable(s, e.index)
    ensures p < |x| && x[p] == Dequeue(e, q) && NoneBlocked(s, x, p)
  {
    p := PlaceOf(v, x, e, q);
    forall m: nat | m < p && m < |x|
      ensures !Blocked(s, x, false, m)
    {
      CollectOrdered(KQueued, v.list, v, m, p);
      PassableDequeue(s, v, x, m, e.index);
    }
  }

  lemma PassableDequeue(s: State, v: View, x: seq<Task>, m: nat, i: int)
    requires s.ctl.HasBoth? && v == Seen(s, v.ok) && m < |x| && x == Collect(KQueued, v.list, v)
    requires Passable(s, i) && (ForEntry(x[m]) ==> x[m].e.index < i)
    ensures !Blocked(s, x, false, m)
  {
    CollectExactly(KQueued, v.list, v);
    assert x[m] in x;
  }

  /** What comes first is never blocked: registrations, removals of finished entries, a move. */
  ghost predicate Harmless(f: seq<Task>) {
    forall m | 0 <= m < |f| :: f[m].Finish? || f[m].Enqueue? || f[m].Move?
  }

  lemma CollectHarmless(kind: Kind, w: View)
    requires kind == KFinished || kind == KNew
    ensures Harmless(Collect(kind, w.list, w))
  {
    CollectExactly(kind, w.list, w);
    forall m | 0 <= m < |Collect(kind, w.list, w)|
      ensures Collect(kind, w.list, w)[m].Finish? || Collect(kind, w.list, w)[m].Enqueue?
    {
      assert Collect(kind, w.list, w)[m] in Collect(kind, w.list, w);
    }
  }

  /** After harmless tasks, a task is reached if it is among those that follow. */
  lemma ReachedAfter(s: State, f: seq<Task>, x: seq<Task>, p: nat)
    requires Harmless(f) && p < |x| && NoneBlocked(s, x, p)
    ensures (f + x)[|f| + p] == x[p] && NoneBlocked(s, f + x, |f| + p)
  {
    forall m: nat | m < |f| + p
      ensures !Blocked(s, f + x, false, m)
    {
      if m < |f| {
        assert (f + x)[m] == f[m];
      } else {
        assert (f + x)[m] == x[m - |f|] && !Blocked(s, x, false, m - |f|);
      }
    }
  }

  lemma Associative<T>(a: seq<T>, b: seq<T>, r: seq<T>)
    ensures a + b + r == a + (b + r)
  {
  }

  lemma StuckPlan(v: View, g: string) returns (rest: seq<Task>)
    requires Stuck(v.queue)
    ensures Plan(v, true, [g]) == Collect(KQueued, v.list, v) + rest
  {
    var stuck, w, a, b := PlanParts(v, true, [g]);
    rest := b + Rest(w, true);
    Associative(a, b, Rest(w, true));
  }

  lemma StuckDanger(s: State, e: Entry, q: QueueEntry)
    requires s.ctl.HasBoth? && Ascending(s.ctl.list) && e in s.ctl.list && e.status == Queued
    requires FindQueue(s.ctl.queue, e.node) == Some(q) && Stuck(s.ctl.queue) && Passable(s, e.index)
    ensures MayDecide(s, e.index)
  {
    var v := Seen(s, {});
    var a := Collect(KQueued, v.list, v);
    var p := DequeuePlace(s, v, a, e, q);
    var rest := StuckPlan(v, e.group);
    ReachedAt(s, a, rest, p);
    Decides(s, true, [e.group], {}, a + rest, p, e.index);
  }

  lemma ReachedAt(s: State, x: seq<Task>, rest: seq<Task>, p: nat)
    requires p < |x| && NoneBlocked(s, x, p)
    ensures (x + rest)[p] == x[p] && NoneBlocked(s, x + rest, p)
  {
    forall m: nat | m < p
      ensures !Blocked(s, x + rest, false, m)
    {
      assert (x + rest)[m] == x[m] && !Blocked(s, x, false, m);
    }
  }

  /** The plan when nothing comes first and there are no candidates. */
  lemma PlainPlan(s: State, v: View, enabled: bool)
    requires s.ctl.HasBoth? && v == Seen(s, v.ok) && Tidy(v) && NothingFirst(s)
    ensures Plan(v, enabled, []) == Collect(KFinished, v.list, v) +
              (if enabled then Collect(KNew, v.list, v) + Collect(KTimedOut, v.list, v)
               else Collect(KQueued, v.list, v))
  {
    var stuck, w, a, b := PlanParts(v, enabled, []);
    assert w == v && Plan(v, enabled, []) == Rest(v, enabled);
    NothingCameFirst(s, v, v, false);
  }

  lemma DisabledDanger(s: State, e: Entry, q: QueueEntry)
    requires s.ctl.HasBoth? && Tidy(Seen(s, {})) && e in s.ctl.list && e.status == Queued && NothingFirst(s)
    requires FindQueue(s.ctl.queue, e.node) == Some(q) && Passable(s, e.index)
    ensures MayDecide(s, e.index)
  {
    var v := Seen(s, {});
    PlainPlan(s, v, false);
    var f, x := Collect(KFinished, v.list, v), Collect(KQueued, v.list, v);
    CollectHarmless(KFinished, v);
    var p := DequeuePlace(s, v, x, e, q);
    ReachedAfter(s, f, x, p);
    Decides(s, false, [], {}, f + x, |f| + p, e.index);
  }

  /** Everybody's time is now, except that of e. */
  function OthersNow(list: seq<Entry>, e: Entry): set<int> {
    (set d | d in list :: d.index) - {e.index}
  }

  lemma OnlyTimedOut(v: View, e: Entry, q: QueueEntry)
    requires e in v.list && e.status == Queued && FindQueue(v.queue, e.node) == Some(q) && q.status != Rebooting
    requires Ascending(v.list) && v.ok == OthersNow(v.list, e)
    ensures var x := Collect(KTimedOut, v.list, v); x != [] && x[0] == Dequeue(e, q)
  {
    var x := Collect(KTimedOut, v.list, v);
    CollectExactly(KTimedOut, v.list, v);
    assert Pick(KTimedOut, e, v) == Some(Dequeue(e, q)) && Dequeue(e, q) in x;
    assert x[0] in x && x[0].e.index !in v.ok && x[0].e in v.list;
    assert x[0].e.index == e.index;
    var a :| 0 <= a < |v.list| && v.list[a] == e;
    var b :| 0 <= b < |v.list| && v.list[b] == x[0].e;
    assert a == b;
  }

  lemma TimedOutDanger(s: State, e: Entry, q: QueueEntry)
    requires s.ctl.HasBoth? && Tidy(Seen(s, {})) && e in s.ctl.list && e.status == Queued && NothingFirst(s)
    requires FindQueue(s.ctl.queue, e.node) == Some(q) && q.status != Rebooting
    ensures MayDecide(s, e.index)
  {
    var v := Seen(s, OthersNow(s.ctl.list, e));
    assert Tidy(v);
    PlainPlan(s, v, true);
    OnlyTimedOut(v, e, q);
    var f, n, x := Collect(KFinished, v.list, v), Collect(KNew, v.list, v), Collect(KTimedOut, v.list, v);
    CollectHarmless(KFinished, v);
    CollectHarmless(KNew, v);
    ReachedAfter(s, n, x, 0);
    ReachedAfter(s, f, n + x, |n|);
    Decides(s, true, [], v.ok, f + (n + x), |f| + |n|, e.index);
  }

  /** Dequeues of a stuck queue that all can be done, then harmless tasks. */
  lemma ReachesNew(s: State, a: seq<Task>, b: seq<Task>, f: seq<Task>, x: seq<Task>, z: seq<Task>, p: nat)
    requires NoneBlocked(s, a, |a|) && Harmless(b) && Harmless(f) && Harmless(x) && p < |x|
    ensures var tasks := a + b + (f + (x + z)); var n := |a| + |b| + |f| + p;
            n < |tasks| && tasks[n] == x[p] && NoneBlocked(s, tasks, n)
  {
    var tasks := a + b + (f + (x + z));
    forall m: nat | m < |a| + |b| + |f| + p
      ensures !Blocked(s, tasks, false, m)
    {
      if m < |a| {
        assert tasks[m] == a[m] && !Blocked(s, a, false, m);
      } else if m < |a| + |b| {
        assert tasks[m] == b[m - |a|];
      } else if m < |a| + |b| + |f| {
        assert tasks[m] == f[m - |a| - |b|];
      } else {
        assert tasks[m] == x[m - |a| - |b| - |f|];
      }
    }
  }

  lemma AllDequeues(s: State, v: View, a: seq<Task>)
    requires s.ctl.HasBoth? && v == Seen(s, v.ok) && a == Collect(KQueued, v.list, v) && forall i :: Passable(s, i)
    ensures NoneBlocked(s, a, |a|)
  {
    CollectExactly(KQueued, v.list, v);
    forall m: nat | m < |a|
      ensures !Blocked(s, a, false, m)
    {
      assert a[m] in a;
      PassableDequeue(s, v, a, m, a[m].e.index + 1);
    }
  }

  /** The parts of a plan that goes to the group of e. */
  lemma PendingParts(v: View, e: Entry, candidates: seq<string>)
    returns (stuck: bool, w: View, a: seq<Task>, b: seq<Task>)
    requires candidates == [e.group] || (candidates == [] && e.group == v.group)
    requires candidates != [] ==> v.queue == [] || Stuck(v.queue)
    ensures Plan(v, true, candidates) == a + b + Rest(w, true) && Derived(v, w, stuck)
    ensures a == if stuck then Collect(KQueued, v.list, v) else []
    ensures w.group == e.group && Harmless(b) && (stuck ==> candidates != [] && v.queue != [])
  {
    stuck, w, a, b := PlanParts(v, true, candidates);
    NextGroupMoves(candidates, v.group);
    assert candidates != [] ==> candidates[0] in candidates;
  }

  lemma PendingDanger(s: State, e: Entry, candidates: seq<string>)
    requires s.ctl.HasBoth? && Tidy(Seen(s, {})) && e in s.ctl.list && e.status == Pending && NothingFirst(s)
    requires FindQueue(s.ctl.queue, e.node).None?
    requires candidates == [e.group] || (candidates == [] && e.group == s.group)
    requires candidates != [] ==> s.ctl.queue == [] || (Stuck(s.ctl.queue) && forall i :: Passable(s, i))
    ensures MayDecide(s, e.index)
  {
    var v := Seen(s, {e.index});
    TidyAnyTime(s, {e.index});
    var stuck, w, a, b := PendingParts(v, e, candidates);
    NothingCameFirst(s, v, w, stuck);
    if stuck {
      AllDequeues(s, v, a);
    }
    PendingReached(s, v, w, stuck, a, b, candidates, e);
  }

  lemma PendingReached(s: State, v: View, w: View, stuck: bool, a: seq<Task>, b: seq<Task>,
                       candidates: seq<string>, e: Entry)
    requires s.ctl.HasBoth? && v == Seen(s, {e.index}) && Derived(v, w, stuck) && w.group == e.group
    requires Plan(v, true, candidates) == a + b + Rest(w, true) && NoneBlocked(s, a, |a|) && Harmless(b)
    requires e in v.list && e.status == Pending && FindQueue(v.queue, e.node).None?
    requires Collect(KDropped, w.list, w) == [] && Orphans(w.queue, w.list) == []
    ensures MayDecide(s, e.index)
  {
    var n := NewReached(s, v, w, stuck, a, b, e);
    Decides(s, true, candidates, {e.index}, a + b + Rest(w, true), n, e.index);
  }

  lemma NewReached(s: State, v: View, w: View, stuck: bool, a: seq<Task>, b: seq<Task>, e: Entry) returns (n: nat)
    requires Derived(v, w, stuck) && w.group == e.group && e.index in v.ok && NoneBlocked(s, a, |a|) && Harmless(b)
    requires e in v.list && e.status == Pending && FindQueue(v.queue, e.node).None?
    requires Collect(KDropped, w.list, w) == [] && Orphans(w.queue, w.list) == []
    ensures var tasks := a + b + Rest(w, true); n < |tasks| && tasks[n] == Enqueue(e) && NoneBlocked(s, tasks, n)
  {
    var j :| 0 <= j < |v.list| && v.list[j] == e;
    TwinPicked(v, w, stuck, j);
    var p := OneCollected(KNew, w.list, w, j);
    var f, x, z := Collect(KFinished, w.list, w), Collect(KNew, w.list, w), Collect(KTimedOut, w.list, w);
    CollectHarmless(KFinished, w);
    CollectHarmless(KNew, w);
    ReachesNew(s, a, b, f, x, z, p);
    n := |a| + |b| + |f| + p;
  }

  lemma DangerIsDecision(s: State, e: Entry)
    requires s.ctl.HasBoth? && Tidy(Seen(s, {})) && e in s.ctl.list && MayWriteBoth(s, e)
    ensures MayDecide(s, e.index)
  {
    if e.status == Pending {
      PendingDanger(s, e, if e.group == s.group then [] else [e.group]);
    } else {
      var q := FindQueue(s.ctl.queue, e.node).value;
      if Stuck(s.ctl.queue) && Passable(s, e.index) {
        StuckDanger(s, e, q);
      } else if q.status != Rebooting {
        TimedOutDanger(s, e, q);
      } else {
        DisabledDanger(s, e, q);
      }
    }
  }

  lemma DangerIs(s: State, i: int)
    requires Inv(s)
    ensures Endangered(s, i) <==> MayWrite(s, i)
  {
    if s.ctl.HasBoth? {
      ReadIsTidy(s);
      if MayDecide(s, i) {
        DecisionIsDanger(s, i);
      }
      if Endangered(s, i) {
        var e :| e in s.ctl.list && e.index == i && MayWriteBoth(s, e);
        DangerIsDecision(s, e);
      }
    }
  }

  /** Exactly when a cancellation cannot be lost: in every reachable state, the entry stays
      cancelled until it is removed, in every continuation, if and only if what the controller has
      read and planned does not endanger it. */
  lemma CancellationLastsExactly(s: State, i: int)
    requires Reachable(s) && CancelledIn(s, i)
    ensures Lasts(s, i) <==> !Endangered(s, i)
  {
    ReachableInv(s);
    CancellationLasts(s, i);
    DangerIs(s, i);
  }
}
