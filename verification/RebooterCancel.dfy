/** How long a cancellation in the reboot list lasts: a list write that the controller still has
    before it overwrites it, and nothing else does. */
module RebooterCancel {
  import opened Common
  import opened RebooterPlan
  import opened RebooterProtocol
  import opened RebooterSafety
  import opened RebooterDecide
  import opened RebooterRuns
  import opened RebooterTwins

  /** The n-th task has a write of list entry i before it; the first write of the first task
      may be done. */
  predicate StillWrites(tasks: seq<Task>, half: bool, n: nat, i: int)
    requires n < |tasks|
  {
    match tasks[n]
    case Enqueue(e) => e.index == i
    case Dequeue(e, _) => e.index == i && !(half && n == 0)
    case _ => false
  }

  /** The task will end the pass, because the queue entry it has to withdraw is gone. */
  predicate Blocked(s: State, tasks: seq<Task>, half: bool, n: nat)
    requires n < |tasks|
  {
    match tasks[n]
    case Dequeue(_, q) => q.index !in s.queue
    case Drop(_, found) => found.Some? && !(half && n == 0) && found.value.index !in s.queue
    case Orphan(q) => q.index !in s.queue
    case _ => false
  }

  /** The controller has a write of list entry i before it, and no task before that is blocked. */
  ghost predicate WillWrite(s: State, i: int) {
    s.ctl.Working? &&
    exists n: nat :: n < |s.ctl.tasks| && StillWrites(s.ctl.tasks, s.ctl.half, n, i) && Clear(s, n)
  }

  ghost predicate Clear(s: State, n: nat)
    requires s.ctl.Working? && n <= |s.ctl.tasks|
  {
    forall m: nat | m < n :: !Blocked(s, s.ctl.tasks, s.ctl.half, m)
  }

  /** A decision on the copies it has read, for some schedule and some candidates, makes the
      controller write list entry i. */
  ghost predicate MayDecide(s: State, i: int)
    requires s.ctl.HasBoth?
  {
    exists enabled, candidates, ok :: WillWrite(Apply(s, Decide(enabled, candidates, ok)), i)
  }

  /** The copy of i that it has read, together with the queue it has yet to read, may. */
  ghost predicate MayRead(s: State, i: int)
    requires s.ctl.HasList?
  {
    exists e | e in s.ctl.list :: e.index == i && MayWriteCopy(s, e)
  }

  /** A pending copy, if nothing it has read is cancelled; a queued copy, if its queue entry is
      there and can be dequeued: it is live, or drained before, or again nothing is cancelled. */
  ghost predicate MayWriteCopy(s: State, e: Entry)
    requires s.ctl.HasList?
  {
    || (e.status == Pending && NoneCancelled(s.ctl.list))
    || (e.status == Queued && exists k | k in s.queue ::
          s.queue[k].node == e.node && (Live(s, k) || s.queue[k].backoff != 0 || NoneCancelled(s.ctl.list)))
  }

  /** The controller may still write list entry i on the strength of what it knows. */
  ghost predicate MayWrite(s: State, i: int) {
    match s.ctl
    case Resting => false
    case HasList(_) => MayRead(s, i)
    case HasBoth(_, _) => MayDecide(s, i)
    case Working(_, _) => WillWrite(s, i)
  }

  predicate CancelledIn(s: State, i: int) {
    i in s.list && s.list[i].status == Cancelled
  }

  /** In every continuation the entry stays cancelled until it is removed. */
  ghost predicate Lasts(s: State, i: int) {
    forall acts | IsRun(s, acts) :: i in After(s, acts).list ==> CancelledIn(After(s, acts), i)
  }

  // ---- A write that is going to happen ---------------------------------------------

  /** One write brings the overwriting nearer, or is it. */
  lemma NearerWrite(s: State, i: int)
    requires Inv(s) && WillWrite(s, i) && i in s.list
    ensures Enabled(s, Write)
    ensures var t := Apply(s, Write);
            && i in t.list
            && (!CancelledIn(t, i) ||
                (WillWrite(t, i) &&
                 (|t.ctl.tasks| < |s.ctl.tasks| || (t.ctl.tasks == s.ctl.tasks && t.ctl.half && !s.ctl.half))))
  {
    var n: nat :| n < |s.ctl.tasks| && StillWrites(s.ctl.tasks, s.ctl.half, n, i) && Clear(s, n);
    if n == 0 {
      FirstWrites(s, i);
    } else {
      assert !Blocked(s, s.ctl.tasks, s.ctl.half, 0);
      OtherKeepsListed(s, i, n);
      OtherWrites(s, i, n);
    }
  }

  lemma FirstWrites(s: State, i: int)
    requires Inv(s) && s.ctl.Working? && s.ctl.tasks != [] && StillWrites(s.ctl.tasks, s.ctl.half, 0, i) && i in s.list
    ensures var t := Apply(s, Write);
            && i in t.list
            && (!CancelledIn(t, i) ||
                (WillWrite(t, i) && t.ctl.tasks == s.ctl.tasks && t.ctl.half && !s.ctl.half))
  {
    var t := Apply(s, Write);
    if s.ctl.tasks[0].Enqueue? && !s.ctl.half {
      assert StillWrites(t.ctl.tasks, true, 0, i) && Clear(t, 0);
    }
  }

  /** What a write does to the controller and to the keys of the queue: if the pass goes on to its
      next task, the first one was not blocked. */
  lemma WriteEffect(s: State)
    requires Inv(s) && s.ctl.Working? && s.ctl.tasks != []
    ensures var t := Apply(s, Write);
            && (forall k | k < s.nextQueue :: k in t.queue <==> k in s.queue)
            && (t.ctl.Working? ==>
                  || (t.ctl == Working(s.ctl.tasks[1..], false) && !Blocked(s, s.ctl.tasks, s.ctl.half, 0))
                  || (t.ctl == Working(s.ctl.tasks, true) && !s.ctl.half))
  {
    assert TaskOk(s, s.ctl.tasks[0]);
  }

  /** An unblocked first task goes on, unless it was the last write of the pass. */
  lemma WriteGoesOn(s: State)
    requires Inv(s) && s.ctl.Working? && |s.ctl.tasks| > 1 && !Blocked(s, s.ctl.tasks, s.ctl.half, 0)
    ensures Apply(s, Write).ctl.Working?
  {
    assert TaskOk(s, s.ctl.tasks[0]);
  }

  /** Later tasks are blocked after a write of the first one exactly if they were before. */
  lemma BlockedStays(s: State, m: nat)
    requires Inv(s) && s.ctl.Working? && m < |s.ctl.tasks| && Apply(s, Write).ctl.Working?
    ensures var t := Apply(s, Write);
            && (t.ctl == Working(s.ctl.tasks, true) ==>
                  (Blocked(t, t.ctl.tasks, true, m) <==> Blocked(s, s.ctl.tasks, s.ctl.half, m)))
            && (t.ctl == Working(s.ctl.tasks[1..], false) && m > 0 ==>
                  (Blocked(t, t.ctl.tasks, false, m - 1) <==> Blocked(s, s.ctl.tasks, s.ctl.half, m)))
  {
    WriteEffect(s);
    assert TaskOk(s, s.ctl.tasks[m]);
  }

  /** A write of the first task leaves the later tasks of the pass unblocked. */
  lemma OtherWrites(s: State, i: int, n: nat)
    requires Inv(s) && s.ctl.Working? && 0 < n < |s.ctl.tasks|
    requires StillWrites(s.ctl.tasks, s.ctl.half, n, i) && Clear(s, n)
    ensures var t := Apply(s, Write);
            && WillWrite(t, i)
            && (|t.ctl.tasks| < |s.ctl.tasks| || (t.ctl.tasks == s.ctl.tasks && t.ctl.half && !s.ctl.half))
  {
    var t := Apply(s, Write);
    WriteGoesOn(s);
    WriteEffect(s);
    if t.ctl.half {
      forall m: nat | m < n
        ensures !Blocked(t, t.ctl.tasks, true, m)
      {
        BlockedStays(s, m);
      }
      assert StillWrites(t.ctl.tasks, true, n, i) && Clear(t, n);
    } else {
      forall m: nat | m < n - 1
        ensures !Blocked(t, t.ctl.tasks, false, m)
      {
        BlockedStays(s, m + 1);
      }
      assert StillWrites(t.ctl.tasks, false, n - 1, i) && Clear(t, n - 1);
    }
  }

  /** The first task does not remove an entry that a later one writes. */
  lemma OtherKeepsListed(s: State, i: int, n: nat)
    requires Inv(s) && s.ctl.Working? && 0 < n < |s.ctl.tasks| && i in s.list
    requires StillWrites(s.ctl.tasks, s.ctl.half, n, i)
    ensures i in Apply(s, Write).list
  {
    var x, y := s.ctl.tasks[0], s.ctl.tasks[n];
    assert Compatible(x, y) && Compatible(y, x);
  }

  lemma {:induction false} WritesOver(s: State, i: int) returns (acts: seq<Action>)
    requires Inv(s) && WillWrite(s, i) && i in s.list
    ensures IsRun(s, acts) && i in After(s, acts).list && !CancelledIn(After(s, acts), i)
    ensures forall a | a in acts :: a == Write
    decreases |s.ctl.tasks|, !s.ctl.half
  {
    NearerWrite(s, i);
    NextInv(s, Write);
    var t := Apply(s, Write);
    var rest := [];
    if CancelledIn(t, i) {
      rest := WritesOver(t, i);
    }
    acts := [Write] + rest;
    assert acts[1..] == rest;
  }

  // ---- No such write ---------------------------------------------------------------

  /** The entry is cancelled or gone for good, and the controller will not write it. */
  ghost predicate Kept(s: State, i: int) {
    i < s.nextList && (i in s.list ==> s.list[i].status == Cancelled && !MayWrite(s, i))
  }

  /** What others do never unblocks a task. */
  lemma StillNoWrite(s: State, t: State, i: int)
    requires t.ctl == s.ctl && t.queue.Keys <= s.queue.Keys && !WillWrite(s, i)
    ensures !WillWrite(t, i)
  {
    if WillWrite(t, i) {
      var n: nat :| n < |t.ctl.tasks| && StillWrites(t.ctl.tasks, t.ctl.half, n, i) && Clear(t, n);
      forall m: nat | m < n
        ensures !Blocked(s, s.ctl.tasks, s.ctl.half, m)
      {
        assert !Blocked(t, t.ctl.tasks, t.ctl.half, m);
      }
      assert Clear(s, n);
    }
  }

  lemma EnvironmentLeaves(s: State, a: Action, i: int)
    requires Inv(s) && Enabled(s, a) && (a.Add? || a.Cancel? || a.Advance? || a.Remove?) && Kept(s, i)
    ensures Kept(Apply(s, a), i)
  {
    var t := Apply(s, a);
    if i in s.list && s.ctl.Working? {
      StillNoWrite(s, t, i);
    } else if i in s.list && s.ctl.HasBoth? {
      StillNoDecision(s, t, i);
    } else if i in s.list && s.ctl.HasList? {
      StillNoRead(s, a, i);
    }
  }

  lemma StillNoDecision(s: State, t: State, i: int)
    requires s.ctl.HasBoth? && t.ctl == s.ctl && t.group == s.group && t.queue.Keys <= s.queue.Keys
    requires !MayDecide(s, i)
    ensures !MayDecide(t, i)
  {
    forall enabled, candidates, ok
      ensures !WillWrite(Apply(t, Decide(enabled, candidates, ok)), i)
    {
      var d := Decide(enabled, candidates, ok);
      assert !WillWrite(Apply(s, d), i);
      StillNoWrite(Apply(s, d), Apply(t, d), i);
    }
  }

  lemma StillNoRead(s: State, a: Action, i: int)
    requires Enabled(s, a) && (a.Add? || a.Cancel? || a.Advance? || a.Remove?)
    requires s.ctl.HasList? && !MayRead(s, i)
    ensures !MayRead(Apply(s, a), i)
  {
    var t := Apply(s, a);
    forall e | e in s.ctl.list && e.index == i
      ensures !MayWriteCopy(t, e)
    {
      assert !MayWriteCopy(s, e);
      forall k | k in t.queue
        ensures k in s.queue && s.queue[k].node == t.queue[k].node
        ensures Live(s, k) || t.queue[k] == s.queue[k]
      {
      }
    }
  }

  /** A task that writes entry i was planned from the copy of i. */
  lemma PlannedFromCopy(s: State, enabled: bool, candidates: seq<string>, ok: set<int>, i: int) returns (x: Task)
    requires Inv(s) && s.ctl.HasBoth? && WillWrite(Apply(s, Decide(enabled, candidates, ok)), i)
    ensures x in Plan(View(s.ctl.list, s.ctl.queue, s.group, ok), enabled, candidates)
    ensures (x.Enqueue? || x.Dequeue?) && x.e.index == i
    ensures Justified(View(s.ctl.list, s.ctl.queue, s.group, ok), x)
  {
    var v := View(s.ctl.list, s.ctl.queue, s.group, ok);
    var t := Apply(s, Decide(enabled, candidates, ok));
    var n: nat :| n < |t.ctl.tasks| && StillWrites(t.ctl.tasks, t.ctl.half, n, i) && Clear(t, n);
    x := t.ctl.tasks[n];
    PlanJustified(v, enabled, candidates, x);
  }

  /** Nothing is enqueued from copies of which one is cancelled. */
  lemma EnqueueNeedsNone(v: View, enabled: bool, candidates: seq<string>, x: Task)
    requires x in Plan(v, enabled, candidates) && x.Enqueue?
    ensures NoneCancelled(v.list)
  {
    var stuck, w, a, b := PlanParts(v, enabled, candidates);
    var tasks := a + b + Rest(w, enabled);
    var n :| 0 <= n < |tasks| && tasks[n] == x;
    var f, y, p := EnqueuePlace(v, w, enabled, a, b, n);
    DerivedNoneCancelled(v, w, stuck);
  }

  /** Nothing is dequeued from such copies unless the queue is stuck. */
  lemma DequeueNeedsNone(v: View, enabled: bool, candidates: seq<string>, x: Task)
    requires x in Plan(v, enabled, candidates) && x.Dequeue? && !Stuck(v.queue)
    ensures NoneCancelled(v.list)
  {
    var stuck, w, a, b := PlanParts(v, enabled, candidates);
    assert x in Rest(w, enabled);
    RestKinds(w, enabled, x);
    DerivedNoneCancelled(v, w, stuck);
  }

  /** Reading the queue adds no danger that was not there. */
  lemma ReadQueueLeaves(s: State, q: seq<QueueEntry>, i: int)
    requires Inv(s) && Enabled(s, ReadQueue(q)) && i in s.list && !MayRead(s, i)
    ensures !MayDecide(Apply(s, ReadQueue(q)), i)
  {
    var t := Apply(s, ReadQueue(q));
    NextInv(s, ReadQueue(q));
    forall enabled, candidates, ok
      ensures !WillWrite(Apply(t, Decide(enabled, candidates, ok)), i)
    {
      if WillWrite(Apply(t, Decide(enabled, candidates, ok)), i) {
        var v := View(s.ctl.list, q, t.group, ok);
        var x := PlannedFromCopy(t, enabled, candidates, ok, i);
        PlanNeeds(s, v, enabled, candidates, x);
      }
    }
  }

  lemma PlanNeeds(s: State, v: View, enabled: bool, candidates: seq<string>, x: Task)
    requires s.ctl.HasList? && v.list == s.ctl.list && QueuesAll(s, v.queue)
    requires x in Plan(v, enabled, candidates) && (x.Enqueue? || x.Dequeue?) && Justified(v, x)
    ensures MayRead(s, x.e.index)
  {
    if x.Enqueue? {
      EnqueueNeedsNone(v, enabled, candidates, x);
    } else {
      var k := x.q.index;
      assert k in s.queue && AsRead(k, s.queue[k]) == x.q && s.queue[k].node == x.e.node;
      if !Live(s, k) && s.queue[k].backoff == 0 {
        DequeueNeedsNone(v, enabled, candidates, x);
      }
    }
    assert MayWriteCopy(s, x.e);
  }

  /** No write of another task touches the entry or unblocks a task. */
  lemma WriteLeaves(s: State, i: int)
    requires Inv(s) && Enabled(s, Write) && Kept(s, i)
    ensures Kept(Apply(s, Write), i)
  {
    var t := Apply(s, Write);
    if i in s.list {
      assert TaskOk(s, s.ctl.tasks[0]);
      assert StillWrites(s.ctl.tasks, s.ctl.half, 0, i) ==> Clear(s, 0);
      if t.ctl.Working? && WillWrite(t, i) {
        WroteStill(s, i);
      }
    }
  }

  /** A write that is going to happen after a step was going to happen before it. */
  lemma WroteStill(s: State, i: int)
    requires Inv(s) && Enabled(s, Write) && WillWrite(Apply(s, Write), i)
    ensures WillWrite(s, i)
  {
    var t := Apply(s, Write);
    WriteEffect(s);
    var n: nat :| n < |t.ctl.tasks| && StillWrites(t.ctl.tasks, t.ctl.half, n, i) && Clear(t, n);
    var d: nat := if t.ctl.half then 0 else 1;
    forall m: nat | m < n + d
      ensures !Blocked(s, s.ctl.tasks, s.ctl.half, m)
    {
      BlockedStays(s, m);
      assert m >= d ==> !Blocked(t, t.ctl.tasks, t.ctl.half, m - d);
    }
    assert Clear(s, n + d) && StillWrites(s.ctl.tasks, s.ctl.half, n + d, i);
  }

  lemma ReadListLeaves(s: State, l: seq<Entry>, i: int)
    requires Enabled(s, ReadList(l)) && CancelledIn(s, i) && Inv(s)
    ensures !MayRead(Apply(s, ReadList(l)), i)
  {
  }

  lemma NextKept(s: State, a: Action, i: int)
    requires Inv(s) && Enabled(s, a) && Kept(s, i)
    ensures Kept(Apply(s, a), i)
  {
    match a
    case ReadList(l) => if i in s.list { ReadListLeaves(s, l, i); }
    case ReadQueue(q) => if i in s.list { ReadQueueLeaves(s, q, i); }
    case Decide(enabled, candidates, ok) =>
    case Write => WriteLeaves(s, i);
    case Crash =>
    case Add(_, _, _) => EnvironmentLeaves(s, a, i);
    case Cancel(_) => EnvironmentLeaves(s, a, i);
    case Advance(_, _, _) => EnvironmentLeaves(s, a, i);
    case Remove(_) => EnvironmentLeaves(s, a, i);
  }

  lemma {:induction false} RunKept(s: State, acts: seq<Action>, i: int)
    requires Inv(s) && IsRun(s, acts) && Kept(s, i)
    ensures Kept(After(s, acts), i)
    decreases |acts|
  {
    if acts != [] {
      NextKept(s, acts[0], i);
      NextInv(s, acts[0]);
      RunKept(Apply(s, acts[0]), acts[1..], i);
    }
  }

  lemma KeptLasts(s: State, i: int)
    requires Inv(s) && Kept(s, i)
    ensures Lasts(s, i)
  {
    forall acts | IsRun(s, acts)
      ensures i in After(s, acts).list ==> CancelledIn(After(s, acts), i)
    {
      RunKept(s, acts, i);
    }
  }

  // ---- From what may be written to a run that writes it ----------------------------

  lemma RunOne(s: State, a: Action, rest: seq<Action>)
    requires Enabled(s, a) && IsRun(Apply(s, a), rest)
    ensures IsRun(s, [a] + rest) && After(s, [a] + rest) == After(Apply(s, a), rest)
  {
    assert ([a] + rest)[1..] == rest;
  }

  /** A continuation after which the entry is there and not cancelled. */
  ghost predicate Loses(s: State, acts: seq<Action>, i: int) {
    IsRun(s, acts) && i in After(s, acts).list && !CancelledIn(After(s, acts), i)
  }

  lemma LosesAfter(s: State, a: Action, rest: seq<Action>, i: int)
    requires Enabled(s, a) && Loses(Apply(s, a), rest, i)
    ensures Loses(s, [a] + rest, i)
  {
    RunOne(s, a, rest);
  }

  lemma DecidesOver(s: State, i: int) returns (acts: seq<Action>)
    requires Inv(s) && s.ctl.HasBoth? && MayDecide(s, i) && i in s.list
    ensures Loses(s, acts, i)
  {
    var enabled, candidates, ok :| WillWrite(Apply(s, Decide(enabled, candidates, ok)), i);
    var d := Decide(enabled, candidates, ok);
    NextInv(s, d);
    var rest := WritesOver(Apply(s, d), i);
    LosesAfter(s, d, rest, i);
    acts := [d] + rest;
  }

  /** No task planned from a queue that is still as it was read is blocked. */
  lemma ReadIsUnblocked(s: State, v: View, enabled: bool, candidates: seq<string>, i: int, x: Task)
    requires Inv(s) && s.ctl.HasBoth? && QueuesAll(s, s.ctl.queue)
    requires v.list == s.ctl.list && v.queue == s.ctl.queue && v.group == s.group
    requires x in Plan(v, enabled, candidates) && (x.Enqueue? || x.Dequeue?) && x.e.index == i
    ensures MayDecide(s, i)
  {
    var d := Decide(enabled, candidates, v.ok);
    var t := Apply(s, d);
    var tasks := Plan(v, enabled, candidates);
    assert v == View(s.ctl.list, s.ctl.queue, s.group, v.ok);
    var n: nat :| n < |tasks| && tasks[n] == x;
    assert t.ctl == Working(tasks, false);
    forall m: nat | m < n
      ensures !Blocked(t, tasks, false, m)
    {
      PlanJustified(v, enabled, candidates, tasks[m]);
      JustifiedPresent(s, v, tasks, m);
    }
    assert StillWrites(tasks, false, n, i) && Clear(t, n);
    assert WillWrite(t, i);
  }

  lemma JustifiedPresent(s: State, v: View, tasks: seq<Task>, m: nat)
    requires m < |tasks| && Justified(v, tasks[m]) && QueuesAll(s, v.queue)
    ensures !Blocked(s, tasks, false, m)
  {
    match tasks[m]
    case Dequeue(_, q) => assert q in v.queue;
    case Drop(e, found) => if found.Some? { assert FindQueue(v.queue, e.node).value in v.queue; }
    case Orphan(q) => assert q in v.queue;
    case _ =>
  }

  /** CKE removes every queue entry but those in keep. */
  lemma {:induction false} RemoveOthers(s: State, keep: set<int>) returns (acts: seq<Action>, t: State)
    ensures IsRun(s, acts) && After(s, acts) == t
    ensures t.list == s.list && t.ctl == s.ctl && t.group == s.group && t.queue.Keys == s.queue.Keys * keep
    ensures forall k | k in t.queue :: t.queue[k] == s.queue[k]
    decreases |s.queue.Keys - keep|
  {
    var others := s.queue.Keys - keep;
    if others == {} {
      acts, t := [], s;
    } else {
      var k := Element(others);
      assert k in s.queue && k !in keep;
      var m := Apply(s, Remove(k));
      assert m.queue.Keys - keep == others - {k};
      var rest;
      rest, t := RemoveOthers(m, keep);
      RunOne(s, Remove(k), rest);
      acts := [Remove(k)] + rest;
    }
  }

  /** With an empty queue, a pending copy is enqueued. */
  lemma EmptyQueueEnqueues(l: seq<Entry>, group: string, e: Entry)
    requires e in l && e.status == Pending && NoneCancelled(l)
    ensures Enqueue(e) in Plan(View(l, [], group, {e.index}), true, [e.group])
  {
    var v := View(l, [], group, {e.index});
    var stuck, w, a, b := PlanParts(v, true, [e.group]);
    NextGroupMoves([e.group], group);
    assert e.group in [e.group];
    DerivedNoneCancelled(v, w, stuck);
    assert Pick(KNew, e, w) == Some(Enqueue(e));
    CollectExactly(KNew, w.list, w);
    assert Enqueue(e) in Rest(w, true);
  }

  /** A stuck queue makes the pass dequeue a queued copy whose entry is there. */
  lemma StuckDequeues(v: View, e: Entry, q: QueueEntry)
    requires e in v.list && e.status == Queued && FindQueue(v.queue, e.node) == Some(q) && Stuck(v.queue)
    ensures Dequeue(e, q) in Plan(v, true, [e.group])
  {
    CollectExactly(KQueued, v.list, v);
    assert Pick(KQueued, e, v) == Some(Dequeue(e, q));
    var stuck, w, a, b := PlanParts(v, true, [e.group]);
    assert Dequeue(e, q) in a;
  }

  lemma {:induction false} NoOrphanTasks(queue: seq<QueueEntry>, list: seq<Entry>)
    requires forall q | q in queue :: !IsOrphan(q, list)
    ensures Orphans(queue, list) == []
  {
    if queue != [] {
      NoOrphanTasks(queue[..|queue| - 1], list);
    }
  }

  /** A disabled rebooter dequeues it too, if nothing is cancelled and nothing is orphaned. */
  lemma DisabledDequeues(v: View, e: Entry, q: QueueEntry)
    requires e in v.list && e.status == Queued && v.queue == [q] && q.node == e.node && q.status == Withdrawn
    requires NoneCancelled(v.list)
    ensures Dequeue(e, q) in Plan(v, false, [])
  {
    var stuck, w, a, b := PlanParts(v, false, []);
    DerivedNoneCancelled(v, w, stuck);
    NoOrphanTasks(w.queue, w.list);
    CollectExactly(KQueued, w.list, w);
    assert Pick(KQueued, e, w) == Some(Dequeue(e, q));
    assert Dequeue(e, q) in Rest(w, false);
  }

  /** The queue is read as it is, and decided on. */
  lemma ReadsOver(s: State, q: seq<QueueEntry>, enabled: bool, candidates: seq<string>, ok: set<int>, x: Task)
    returns (acts: seq<Action>)
    requires Inv(s) && s.ctl.HasList? && QueuesAll(s, q) && (x.Enqueue? || x.Dequeue?) && x.e.index in s.list
    requires x in Plan(View(s.ctl.list, q, s.group, ok), enabled, candidates)
    ensures Loses(s, acts, x.e.index)
  {
    NextInv(s, ReadQueue(q));
    var t := Apply(s, ReadQueue(q));
    ReadIsUnblocked(t, View(s.ctl.list, q, s.group, ok), enabled, candidates, x.e.index, x);
    var rest := DecidesOver(t, x.e.index);
    LosesAfter(s, ReadQueue(q), rest, x.e.index);
    acts := [ReadQueue(q)] + rest;
  }

  lemma {:induction false} LosesLater(s: State, acts: seq<Action>, rest: seq<Action>, i: int)
    requires IsRun(s, acts) && Loses(After(s, acts), rest, i)
    ensures Loses(s, acts + rest, i)
    decreases |acts|
  {
    if acts == [] {
      assert acts + rest == rest;
    } else {
      LosesLater(Apply(s, acts[0]), acts[1..], rest, i);
      assert acts + rest == [acts[0]] + (acts[1..] + rest);
      LosesAfter(s, acts[0], acts[1..] + rest, i);
    }
  }

  lemma PendingLost(s: State, e: Entry) returns (acts: seq<Action>)
    requires Inv(s) && s.ctl.HasList? && e in s.ctl.list && e.index in s.list
    requires e.status == Pending && NoneCancelled(s.ctl.list)
    ensures Loses(s, acts, e.index)
  {
    var before, t := RemoveOthers(s, {});
    RunInv(s, before);
    assert t.queue.Keys == {};
    EmptyQueueEnqueues(s.ctl.list, s.group, e);
    var rest := ReadsOver(t, [], true, [e.group], {e.index}, Enqueue(e));
    LosesLater(s, before, rest, e.index);
    acts := before + rest;
  }

  /** The queue holds nothing but the entry k. */
  lemma OnlyEntry(s: State, k: int) returns (q: QueueEntry)
    requires s.queue.Keys == {k}
    ensures q == AsRead(k, s.queue[k]) && QueuesAll(s, [q]) && FindQueue([q], s.queue[k].node) == Some(q)
  {
    q := AsRead(k, s.queue[k]);
    assert k in s.queue.Keys;
    assert forall m | m in s.queue :: m in s.queue.Keys && m == k;
  }

  /** A queued copy is lost once its entry is the only one and has been drained before, or
      is cancelled by CKE with nothing cancelled in the list. */
  lemma QueuedLostAlone(s: State, e: Entry, k: int) returns (acts: seq<Action>)
    requires Inv(s) && s.ctl.HasList? && e in s.ctl.list && e.index in s.list && e.status == Queued
    requires s.queue.Keys == {k} && s.queue[k].node == e.node
    requires (s.queue[k].status != Rebooting && s.queue[k].backoff != 0) ||
             (s.queue[k].status == Withdrawn && NoneCancelled(s.ctl.list))
    ensures Loses(s, acts, e.index)
  {
    var q := OnlyEntry(s, k);
    var v := View(s.ctl.list, [q], s.group, {});
    if q.status != Rebooting && q.backoff != 0 {
      StuckDequeues(v, e, q);
      acts := ReadsOver(s, [q], true, [e.group], {}, Dequeue(e, q));
    } else {
      DisabledDequeues(v, e, q);
      acts := ReadsOver(s, [q], false, [], {}, Dequeue(e, q));
    }
  }

  lemma QueuedLost(s: State, e: Entry, k: int) returns (acts: seq<Action>)
    requires Inv(s) && s.ctl.HasList? && e in s.ctl.list && e.index in s.list && e.status == Queued
    requires k in s.queue && s.queue[k].node == e.node
    requires Live(s, k) || s.queue[k].backoff != 0 || NoneCancelled(s.ctl.list)
    ensures Loses(s, acts, e.index)
  {
    var before, t := RemoveOthers(s, {k});
    RunInv(s, before);
    assert k in s.queue.Keys && t.queue.Keys == {k};
    assert k in t.queue;
    var rest;
    if Live(s, k) {
      var a := Advance(k, Waiting, 1);
      NextInv(t, a);
      var u := Apply(t, a);
      assert u.queue.Keys == {k};
      rest := QueuedLostAlone(u, e, k);
      LosesAfter(t, a, rest, e.index);
      rest := [a] + rest;
    } else {
      rest := QueuedLostAlone(t, e, k);
    }
    LosesLater(s, before, rest, e.index);
    acts := before + rest;
  }

  lemma ReadLost(s: State, i: int) returns (acts: seq<Action>)
    requires Inv(s) && s.ctl.HasList? && MayRead(s, i) && i in s.list
    ensures Loses(s, acts, i)
  {
    var e :| e in s.ctl.list && e.index == i && MayWriteCopy(s, e);
    if e.status == Pending {
      acts := PendingLost(s, e);
    } else {
      var k :| k in s.queue && s.queue[k].node == e.node
               && (Live(s, k) || s.queue[k].backoff != 0 || NoneCancelled(s.ctl.list));
      acts := QueuedLost(s, e, k);
    }
  }

  /** In every reachable state, the entry stays cancelled until it is removed, in every
      continuation, if and only if the controller may not write it on the strength of what it has
      read or planned. */
  lemma CancellationLasts(s: State, i: int)
    requires Reachable(s) && CancelledIn(s, i)
    ensures Lasts(s, i) <==> !MayWrite(s, i)
  {
    ReachableInv(s);
    if MayWrite(s, i) {
      var acts;
      match s.ctl
      case HasList(_) => acts := ReadLost(s, i);
      case HasBoth(_, _) => acts := DecidesOver(s, i);
      case Working(_, _) => acts := WritesOver(s, i);
      assert Loses(s, acts, i);
    } else {
      KeptLasts(s, i);
    }
  }

  /** A cancellation that arrives between the two writes of an enqueue is lost; HalfEnqueued
      reaches such a state. */
  lemma CancelledWhileEnqueued(s: State, e: Entry, rest: seq<Task>)
    requires s.ctl == Working([Enqueue(e)] + rest, true) && e.index in s.list
    ensures var t := Apply(s, Cancel(e.index));
            && CancelledIn(t, e.index) && Enabled(t, Write)
            && e.index in Apply(t, Write).list && Apply(t, Write).list[e.index].status == Queued
  {
  }

  /** The plan for a single pending entry whose time is now. */
  lemma SinglePlan(e: Entry)
    requires e.status == Pending
    ensures Plan(View([e], [], e.group, {e.index}), true, [e.group]) == [Enqueue(e)]
  {
    var v := View([e], [], e.group, {e.index});
    assert [e][..0] == [];
    NextGroupMoves([e.group], e.group);
    forall kind: Kind
      ensures Collect(kind, v.list, v) == if kind == KNew then [Enqueue(e)] else []
    {
    }
  }

  /** A reachable state between the two writes of an enqueue. */
  lemma HalfEnqueued(s: State, node: string, time: string) returns (acts: seq<Action>, e: Entry)
    requires Init(s)
    ensures IsRun(s, acts) && e.index == s.nextList && e.index in After(s, acts).list
    ensures After(s, acts).ctl == Working([Enqueue(e)], true)
  {
    e := Entry(s.nextList, node, s.group, time, Pending);
    var s1 := Apply(s, Add(node, s.group, time));
    var s2 := Apply(s1, ReadList([e]));
    var s3 := Apply(s2, ReadQueue([]));
    var d := Decide(true, [s.group], {e.index});
    SinglePlan(e);
    var s4 := Apply(s3, d);
    RunOne(s4, Write, []);
    RunOne(s3, d, [Write] + []);
    RunOne(s2, ReadQueue([]), [d] + ([Write] + []));
    RunOne(s1, ReadList([e]), [ReadQueue([])] + ([d] + ([Write] + [])));
    acts := [ReadList([e])] + ([ReadQueue([])] + ([d] + ([Write] + [])));
    RunOne(s, Add(node, s.group, time), acts);
    acts := [Add(node, s.group, time)] + acts;
  }
}
