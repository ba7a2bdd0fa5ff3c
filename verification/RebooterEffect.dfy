/** What an undisturbed pass of neco-rebooter leaves in its two stores: everything that was due, and
    nothing else. */
module RebooterEffect {
  import opened Common
  import opened RebooterPlan
  import opened RebooterProtocol
  import opened RebooterSafety
  import opened RebooterDecide
  import opened RebooterRuns
  import opened RebooterDanger
  import opened RebooterPass

  /** The task takes entry i off the list. */
  predicate Takes(x: Task, i: int) {
    (x.Drop? || x.Finish?) && x.e.index == i
  }

  /** The task withdraws queue entry k. */
  predicate Withdraws(x: Task, k: int) {
    match x
    case Dequeue(_, q) => q.index == k
    case Orphan(q) => q.index == k
    case Drop(_, found) => found.Some? && found.value.index == k
    case _ => false
  }

  predicate Touches(x: Task, i: int) {
    ForEntry(x) && x.e.index == i
  }

  /** The list: what is dropped or finished is gone, what is dequeued is pending, what is enqueued is
      queued, and everything else is as it was. */
  ghost predicate ListEffect(s: State, todo: iset<Task>, t: State) {
    && (forall i :: i in t.list <==> i in s.list && forall x | x in todo :: !Takes(x, i))
    && (forall x | x in todo && x.Dequeue? :: x.e.index in t.list && t.list[x.e.index] == x.e.(status := Pending))
    && (forall x | x in todo && x.Enqueue? :: x.e.index in t.list && t.list[x.e.index] == x.e.(status := Queued))
    && (forall i | i in t.list && forall x | x in todo :: !Touches(x, i) :: t.list[i] == s.list[i])
  }

  function Fresh(e: Entry): Item {
    Item(e.node, Waiting, 0, e.index, e.group)
  }

  /** What is in the queue stays there, withdrawn if it is to be. */
  ghost predicate QueueKept(s: State, todo: iset<Task>, t: State) {
    forall k | k in s.queue ::
      && k in t.queue
      && ((exists x | x in todo :: Withdraws(x, k)) ==> t.queue[k] == s.queue[k].(status := Withdrawn))
      && ((forall x | x in todo :: !Withdraws(x, k)) ==> t.queue[k] == s.queue[k])
  }

  /** Key k is new in the queue. */
  ghost predicate New(s: State, t: State, k: int) {
    k in t.queue && k !in s.queue
  }

  ghost predicate Registers(todo: iset<Task>, x: Item) {
    exists y | y in todo :: y.Enqueue? && x == Fresh(y.e)
  }

  /** A fresh queue entry is added for each entry that is enqueued, once, and no other. */
  ghost predicate QueueAdded(s: State, todo: iset<Task>, t: State) {
    && s.nextQueue <= t.nextQueue
    && (forall k | New(s, t, k) :: s.nextQueue <= k < t.nextQueue && Registers(todo, t.queue[k]))
    && (forall x | x in todo && x.Enqueue? :: exists k :: New(s, t, k) && t.queue[k] == Fresh(x.e))
    && (forall k, k' | New(s, t, k) && New(s, t, k') :: t.queue[k].owner == t.queue[k'].owner ==> k == k')
  }

  ghost predicate GroupEffect(s: State, todo: iset<Task>, t: State) {
    && (forall x | x in todo && x.Move? :: t.group == x.group)
    && ((forall x | x in todo :: !x.Move?) ==> t.group == s.group)
  }

  ghost predicate Effect(s: State, todo: iset<Task>, t: State) {
    ListEffect(s, todo, t) && QueueKept(s, todo, t) && QueueAdded(s, todo, t) && GroupEffect(s, todo, t)
  }

  ghost function All(tasks: seq<Task>): iset<Task> {
    iset x | x in tasks
  }

  /** No entry has two tasks, and there is one move at most. */
  ghost predicate Once(tasks: seq<Task>) {
    forall m, n | 0 <= m < n < |tasks| ::
      && (ForEntry(tasks[m]) && ForEntry(tasks[n]) ==> tasks[m].e.index != tasks[n].e.index)
      && !(tasks[m].Move? && tasks[n].Move?)
  }

  /** What is to be written over is there. */
  ghost predicate Doable(s: State, tasks: seq<Task>) {
    && (forall x | x in tasks && (x.Dequeue? || x.Enqueue?) :: x.e.index in s.list)
    && (forall x, k | x in tasks && Withdraws(x, k) :: k in s.queue)
    && (forall k | k in s.queue :: k < s.nextQueue)
  }

  function Writes(x: Task): nat {
    if x.Dequeue? || x.Enqueue? || (x.Drop? && x.found.Some?) then 2 else 1
  }

  // ---- One task ------------------------------------------------------------------

  lemma OneWrite(s: State)
    requires Enabled(s, Write)
    ensures IsRun(s, [Write]) && After(s, [Write]) == WriteStep(s)
  {
    assert [Write][1..] == [];
  }

  lemma TwoWrites(s: State)
    requires Enabled(s, Write) && Enabled(WriteStep(s), Write)
    ensures IsRun(s, [Write, Write]) && After(s, [Write, Write]) == WriteStep(WriteStep(s))
  {
    OneWrite(WriteStep(s));
    assert [Write, Write][1..] == [Write];
  }

  /** A task is carried out by one write or two. */
  lemma TaskRun(s: State, x: Task, rest: seq<Task>) returns (acts: seq<Action>, t: State)
    requires s.ctl == Working([x] + rest, false) && Doable(s, [x] + rest)
    ensures IsRun(s, acts) && After(s, acts) == t && forall a | a in acts :: a == Write
    ensures t.ctl == if rest == [] then Resting else Working(rest, false)
    ensures Effect(s, All([x]), t) && forall k | k in t.queue :: k < t.nextQueue
  {
    assert ([x] + rest)[0] == x && ([x] + rest)[1..] == rest && x in [x] + rest;
    if Writes(x) == 2 {
      TwoWrites(s);
      acts, t := [Write, Write], WriteStep(WriteStep(s));
    } else {
      OneWrite(s);
      acts, t := [Write], WriteStep(s);
    }
    TaskCarried(s, x, rest, t);
    TaskEffect(s, x, t);
  }

  function Marked(s: State, x: Task): map<int, Item> {
    map k | k in s.queue :: if Withdraws(x, k) then s.queue[k].(status := Withdrawn) else s.queue[k]
  }

  /** The stores after a task. */
  ghost predicate Carried(s: State, x: Task, t: State) {
    && t.list == (if x.Drop? || x.Finish? then s.list - {x.e.index}
                  else if x.Dequeue? then s.list[x.e.index := x.e.(status := Pending)]
                  else if x.Enqueue? then s.list[x.e.index := x.e.(status := Queued)]
                  else s.list)
    && t.queue == (if x.Enqueue? then s.queue[s.nextQueue := Fresh(x.e)] else Marked(s, x))
    && t.nextQueue == (if x.Enqueue? then s.nextQueue + 1 else s.nextQueue)
    && t.group == (if x.Move? then x.group else s.group)
  }

  lemma TaskCarried(s: State, x: Task, rest: seq<Task>, t: State)
    requires s.ctl == Working([x] + rest, false) && Doable(s, [x] + rest)
    requires Enabled(s, Write) && (Writes(x) == 2 ==> Enabled(WriteStep(s), Write))
    requires t == if Writes(x) == 2 then WriteStep(WriteStep(s)) else WriteStep(s)
    ensures Carried(s, x, t)
  {
    assert ([x] + rest)[0] == x && ([x] + rest)[1..] == rest && x in [x] + rest;
  }

  lemma TaskEffect(s: State, x: Task, t: State)
    requires Carried(s, x, t) && (x.Dequeue? || x.Enqueue? ==> x.e.index in s.list)
    requires forall k | k in s.queue :: k < s.nextQueue
    ensures Effect(s, All([x]), t)
  {
    TaskOnList(s, x, All([x]), t);
    TaskOnQueue(s, x, All([x]), t);
    TaskAdds(s, x, All([x]), t);
    assert x in All([x]);
  }

  lemma TaskOnList(s: State, x: Task, todo: iset<Task>, t: State)
    requires Carried(s, x, t) && (x.Dequeue? || x.Enqueue? ==> x.e.index in s.list)
    requires forall y :: y in todo <==> y == x
    ensures ListEffect(s, todo, t)
  {
    assert x in todo;
    assert forall i :: (forall y | y in todo :: !Takes(y, i)) <==> !Takes(x, i);
    assert forall i :: (forall y | y in todo :: !Touches(y, i)) <==> !Touches(x, i);
  }

  lemma TaskOnQueue(s: State, x: Task, todo: iset<Task>, t: State)
    requires Carried(s, x, t) && (forall k | k in s.queue :: k < s.nextQueue) && forall y :: y in todo <==> y == x
    ensures QueueKept(s, todo, t)
  {
    assert x in todo;
  }

  lemma TaskAdds(s: State, x: Task, todo: iset<Task>, t: State)
    requires Carried(s, x, t) && (forall k | k in s.queue :: k < s.nextQueue) && forall y :: y in todo <==> y == x
    ensures QueueAdded(s, todo, t)
  {
    assert x in todo;
    assert forall k :: New(s, t, k) <==> x.Enqueue? && k == s.nextQueue;
    if x.Enqueue? {
      assert Registers(todo, Fresh(x.e)) && New(s, t, s.nextQueue) && t.queue[s.nextQueue] == Fresh(x.e);
    }
  }

  // ---- One after the other ---------------------------------------------------------

  /** What the first task has done, the others do not undo. */
  lemma ListChains(s: State, x: Task, m: State, rest: seq<Task>, t: State)
    requires ListEffect(s, All([x]), m) && ListEffect(m, All(rest), t) && Once([x] + rest)
    ensures ListEffect(s, All([x] + rest), t)
  {
    var a, b, c := All([x]), All(rest), All([x] + rest);
    assert x in a && x in c && forall y :: y in c <==> y == x || y in b;
    assert forall i :: (forall y | y in c :: !Takes(y, i)) <==> !Takes(x, i) && forall y | y in b :: !Takes(y, i);
    assert forall i :: (forall y | y in c :: !Touches(y, i)) <==> !Touches(x, i) && forall y | y in b :: !Touches(y, i);
    if ForEntry(x) {
      FirstAlone(x, rest);
    }
  }

  lemma FirstAlone(x: Task, rest: seq<Task>)
    requires Once([x] + rest) && ForEntry(x)
    ensures forall y | y in rest :: !Touches(y, x.e.index)
  {
    var all := [x] + rest;
    forall y | y in rest
      ensures !Touches(y, x.e.index)
    {
      var n :| 0 <= n < |rest| && rest[n] == y;
      assert all[0] == x && all[n + 1] == y;
    }
  }

  lemma KeptChains(s: State, x: Task, m: State, rest: seq<Task>, t: State)
    requires QueueKept(s, All([x]), m) && QueueKept(m, All(rest), t)
    ensures QueueKept(s, All([x] + rest), t)
  {
    var a, b, c := All([x]), All(rest), All([x] + rest);
    assert x in a && x in c && forall y :: y in c <==> y == x || y in b;
  }

  /** What is new was added by the first task, and stays as it is, or by another. */
  lemma NewFrom(s: State, x: Task, m: State, rest: seq<Task>, t: State, k: int)
    requires QueueKept(s, All([x]), m) && QueueKept(m, All(rest), t)
    requires QueueAdded(s, All([x]), m) && QueueAdded(m, All(rest), t)
    requires forall y, j | y in rest && Withdraws(y, j) :: j in s.queue
    ensures New(s, t, k) <==> New(s, m, k) || New(m, t, k)
    ensures New(s, m, k) ==> x.Enqueue? && t.queue[k] == m.queue[k] == Fresh(x.e)
    ensures New(m, t, k) ==> exists y | y in rest :: y.Enqueue? && t.queue[k] == Fresh(y.e)
  {
    if New(s, m, k) {
      assert Registers(All([x]), m.queue[k]);
    }
    if New(m, t, k) {
      assert Registers(All(rest), t.queue[k]);
      var y :| y in All(rest) && y.Enqueue? && t.queue[k] == Fresh(y.e);
      assert y in rest;
    }
  }

  lemma AddedChains(s: State, x: Task, m: State, rest: seq<Task>, t: State)
    requires QueueKept(s, All([x]), m) && QueueKept(m, All(rest), t)
    requires QueueAdded(s, All([x]), m) && QueueAdded(m, All(rest), t) && Once([x] + rest)
    requires forall y, j | y in rest && Withdraws(y, j) :: j in s.queue
    ensures QueueAdded(s, All([x] + rest), t)
  {
    var c := All([x] + rest);
    forall k | New(s, t, k)
      ensures s.nextQueue <= k < t.nextQueue && Registers(c, t.queue[k])
    {
      NewFrom(s, x, m, rest, t, k);
      assert x in c && forall y | y in rest :: y in c;
    }
    forall y | y in c && y.Enqueue?
      ensures exists k :: New(s, t, k) && t.queue[k] == Fresh(y.e)
    {
      var k := Added(s, x, m, rest, t, y);
      NewFrom(s, x, m, rest, t, k);
    }
    forall k, k' | New(s, t, k) && New(s, t, k') && t.queue[k].owner == t.queue[k'].owner
      ensures k == k'
    {
      NewFrom(s, x, m, rest, t, k);
      NewFrom(s, x, m, rest, t, k');
      if New(s, m, k) != New(s, m, k') {
        FirstAlone(x, rest);
      }
    }
  }

  lemma Added(s: State, x: Task, m: State, rest: seq<Task>, t: State, y: Task) returns (k: int)
    requires QueueAdded(s, All([x]), m) && QueueAdded(m, All(rest), t) && y.Enqueue? && y in [x] + rest
    requires QueueKept(m, All(rest), t) && forall z, j | z in rest && Withdraws(z, j) :: j in s.queue
    ensures (New(s, m, k) || New(m, t, k)) && k in t.queue && t.queue[k] == Fresh(y.e)
  {
    if y == x {
      assert x in All([x]);
      k :| New(s, m, k) && m.queue[k] == Fresh(x.e);
    } else {
      assert y in All(rest);
      k :| New(m, t, k) && t.queue[k] == Fresh(y.e);
    }
  }

  lemma GroupChains(s: State, x: Task, m: State, rest: seq<Task>, t: State)
    requires GroupEffect(s, All([x]), m) && GroupEffect(m, All(rest), t) && Once([x] + rest)
    ensures GroupEffect(s, All([x] + rest), t)
  {
    var a, b, c := All([x]), All(rest), All([x] + rest);
    assert x in a && x in c && forall y :: y in c <==> y == x || y in b;
    if x.Move? {
      forall y | y in rest
        ensures !y.Move?
      {
        var n :| 0 <= n < |rest| && rest[n] == y;
        assert ([x] + rest)[0] == x && ([x] + rest)[n + 1] == y;
      }
    }
  }

  /** After a task, the others are still doable. */
  lemma DoableAfter(s: State, x: Task, m: State, rest: seq<Task>)
    requires Effect(s, All([x]), m) && Doable(s, [x] + rest) && Once([x] + rest)
    requires forall k | k in m.queue :: k < m.nextQueue
    ensures Doable(m, rest) && Once(rest)
  {
    var all := [x] + rest;
    assert forall y | y in rest :: y in all;
    assert forall n | 0 <= n < |rest| :: rest[n] == all[n + 1];
    forall y | y in rest && (y.Dequeue? || y.Enqueue?)
      ensures y.e.index in m.list
    {
      if ForEntry(x) {
        FirstAlone(x, rest);
      }
      assert forall z | z in All([x]) :: !Takes(z, y.e.index);
    }
  }

  /** All tasks: the pass carries them out, write by write, and comes to rest. */
  lemma {:induction false} TasksRun(s: State, tasks: seq<Task>) returns (acts: seq<Action>, t: State)
    requires s.ctl == Working(tasks, false) && tasks != [] && Doable(s, tasks) && Once(tasks)
    ensures IsRun(s, acts) && After(s, acts) == t && forall a | a in acts :: a == Write
    ensures t.ctl == Resting && Effect(s, All(tasks), t)
    decreases |tasks|
  {
    var x, rest := tasks[0], tasks[1..];
    assert tasks == [x] + rest;
    var m;
    acts, m := TaskRun(s, x, rest);
    t := m;
    if rest != [] {
      DoableAfter(s, x, m, rest);
      var more;
      more, t := TasksRun(m, rest);
      RunsOn(s, acts, more);
      acts := acts + more;
      Chains(s, x, m, rest, t);
    } else {
      assert tasks == [x];
    }
  }

  lemma Chains(s: State, x: Task, m: State, rest: seq<Task>, t: State)
    requires Effect(s, All([x]), m) && Effect(m, All(rest), t) && Once([x] + rest) && Doable(s, [x] + rest)
    ensures Effect(s, All([x] + rest), t)
  {
    assert forall y | y in rest :: y in [x] + rest;
    ListChains(s, x, m, rest, t);
    KeptChains(s, x, m, rest, t);
    AddedChains(s, x, m, rest, t);
    GroupChains(s, x, m, rest, t);
  }

  lemma {:induction false} RunsOn(s: State, a: seq<Action>, b: seq<Action>)
    requires IsRun(s, a) && IsRun(After(s, a), b)
    ensures IsRun(s, a + b) && After(s, a + b) == After(After(s, a), b)
    decreases |a|
  {
    if a == [] {
      assert a + b == b;
    } else {
      RunsOn(Apply(s, a[0]), a[1..], b);
      assert (a + b)[1..] == a[1..] + b;
    }
  }

  // ---- A whole pass ----------------------------------------------------------------

  /** What was read in order of index has one task per entry. */
  lemma PlanOnce(v: View, enabled: bool, candidates: seq<string>)
    requires Ascending(v.list) && Rising(v.queue)
    ensures Once(Plan(v, enabled, candidates))
  {
    var tasks := Plan(v, enabled, candidates);
    PassInOrder(v, enabled, candidates);
    forall m, n | 0 <= m < n < |tasks| && ForEntry(tasks[m]) && ForEntry(tasks[n])
      ensures tasks[m].e.index != tasks[n].e.index
    {
      if tasks[m].e.index == tasks[n].e.index {
        PassExactly(v, enabled, candidates, tasks[m]);
        PassExactly(v, enabled, candidates, tasks[n]);
        OneKind(v, enabled, candidates, tasks[m], tasks[n]);
      }
    }
  }

  /** What is due for an entry is of one kind. */
  lemma OneKind(v: View, enabled: bool, candidates: seq<string>, x: Task, y: Task)
    requires Ascending(v.list) && ForEntry(x) && ForEntry(y) && x.e.index == y.e.index
    requires Due(v, enabled, candidates, x) && Due(v, enabled, candidates, y)
    ensures x.e == y.e && forall gaveUp :: Stage(x, gaveUp) == Stage(y, gaveUp)
  {
    var a :| 0 <= a < |v.list| && v.list[a] == x.e;
    var b :| 0 <= b < |v.list| && v.list[b] == y.e;
    assert a == b;
    assert x.Dequeue? ==> Enqueued(v, x.e.node);
    assert y.Dequeue? ==> Enqueued(v, y.e.node);
  }

  lemma PlanDoable(s: State, v: View, enabled: bool, candidates: seq<string>)
    requires ListsAll(s, v.list) && QueuesAll(s, v.queue) && forall k | k in s.queue :: k < s.nextQueue
    ensures Doable(s, Plan(v, enabled, candidates))
  {
    forall x | x in Plan(v, enabled, candidates)
      ensures x.Dequeue? || x.Enqueue? ==> x.e.index in s.list
      ensures forall k | Withdraws(x, k) :: k in s.queue
    {
      PassExactly(v, enabled, candidates, x);
    }
  }

  lemma FirstThen(s: State, a: Action, rest: seq<Action>)
    requires Enabled(s, a) && IsRun(Apply(s, a), rest)
    ensures IsRun(s, [a] + rest) && After(s, [a] + rest) == After(Apply(s, a), rest)
  {
    assert ([a] + rest)[0] == a && ([a] + rest)[1..] == rest;
  }

  lemma PassReads(s: State, l: seq<Entry>, q: seq<QueueEntry>, d: Action, u: State, acts: seq<Action>)
    requires Enabled(s, ReadList(l)) && QueuesAll(s, q) && d.Decide?
    requires u == Apply(s.(ctl := HasBoth(l, q)), d) && IsRun(u, acts)
    ensures IsRun(s, [ReadList(l)] + ([ReadQueue(q)] + ([d] + acts)))
    ensures After(s, [ReadList(l)] + ([ReadQueue(q)] + ([d] + acts))) == After(u, acts)
  {
    var s1 := Apply(s, ReadList(l));
    var s2 := s.(ctl := HasBoth(l, q));
    assert Enabled(s1, ReadQueue(q)) && Apply(s1, ReadQueue(q)) == s2;
    FirstThen(s2, d, acts);
    FirstThen(s1, ReadQueue(q), [d] + acts);
    FirstThen(s, ReadList(l), [ReadQueue(q)] + ([d] + acts));
  }

  ghost function AllDue(v: View, enabled: bool, candidates: seq<string>): iset<Task> {
    iset x | Due(v, enabled, candidates, x)
  }

  /** An undisturbed pass: from every reachable state, once the controller has read both stores and
      nobody interferes, it carries out in single writes exactly what is due, and comes to rest. */
  lemma PassDoesWhatIsDue(s: State, l: seq<Entry>, q: seq<QueueEntry>,
                          enabled: bool, candidates: seq<string>, ok: set<int>)
    returns (acts: seq<Action>, t: State)
    requires Reachable(s) && s.ctl == Resting && ListsAll(s, l) && QueuesAll(s, q)
    ensures forall a | a in acts :: a == Write
    ensures var all := [ReadList(l)] + ([ReadQueue(q)] + ([Decide(enabled, candidates, ok)] + acts));
            IsRun(s, all) && After(s, all) == t
    ensures t.ctl == Resting && Effect(s, AllDue(View(l, q, s.group, ok), enabled, candidates), t)
  {
    ReachableInv(s);
    assert forall k | k in s.queue :: ItemOk(s, k) && k < s.nextQueue;
    var v, d := View(l, q, s.group, ok), Decide(enabled, candidates, ok);
    var u := Apply(s.(ctl := HasBoth(l, q)), d);
    acts, t := Decided(s, v, enabled, candidates, u);
    PassReads(s, l, q, d, u, acts);
  }

  lemma Decided(s: State, v: View, enabled: bool, candidates: seq<string>, u: State)
    returns (acts: seq<Action>, t: State)
    requires ListsAll(s, v.list) && QueuesAll(s, v.queue) && forall k | k in s.queue :: k < s.nextQueue
    requires u == Next(s.(ctl := u.ctl), Plan(v, enabled, candidates))
    ensures IsRun(u, acts) && After(u, acts) == t && forall a | a in acts :: a == Write
    ensures t.ctl == Resting && Effect(s, AllDue(v, enabled, candidates), t)
  {
    var tasks := Plan(v, enabled, candidates);
    PlanDoable(s, v, enabled, candidates);
    PlanOnce(v, enabled, candidates);
    AllTasksDue(v, enabled, candidates);
    acts, t := [], u;
    if tasks != [] {
      acts, t := TasksRun(u, tasks);
    }
    SameEffect(s, u, All(tasks), t);
  }

  lemma SameEffect(s: State, u: State, todo: iset<Task>, t: State)
    requires Effect(u, todo, t) || (t == u && todo == iset{})
    requires u.list == s.list && u.queue == s.queue && u.group == s.group && u.nextQueue == s.nextQueue
    ensures Effect(s, todo, t)
  {
  }

  lemma AllTasksDue(v: View, enabled: bool, candidates: seq<string>)
    ensures All(Plan(v, enabled, candidates)) == AllDue(v, enabled, candidates)
  {
    forall x
      ensures x in Plan(v, enabled, candidates) <==> Due(v, enabled, candidates, x)
    {
      PassExactly(v, enabled, candidates, x);
    }
  }

  // ---- Where a pass stops ----------------------------------------------------------

  /** What the next write is to change is gone; removals are never in vain. */
  ghost predicate Gone(s: State)
    requires Enabled(s, Write)
  {
    var half := s.ctl.half;
    match s.ctl.tasks[0]
    case Dequeue(e, q) => if half then q.index !in s.queue else e.index !in s.list
    case Drop(_, found) => !half && found.Some? && found.value.index !in s.queue
    case Orphan(q) => q.index !in s.queue
    case Enqueue(e) => half && e.index !in s.list
    case _ => false
  }

  /** Writes that are left of a pass. */
  function Remaining(tasks: seq<Task>): nat {
    if tasks == [] then 0 else Writes(tasks[0]) + Remaining(tasks[1..])
  }

  ghost function Left(ctl: Control): int {
    if ctl.Working? then Remaining(ctl.tasks) - (if ctl.half then 1 else 0) else 0
  }

  /** Only a task of two writes is half done. */
  ghost predicate HalfDone(s: State) {
    s.ctl.Working? && s.ctl.half ==> s.ctl.tasks != [] && Writes(s.ctl.tasks[0]) == 2
  }

  lemma HalfNext(s: State, a: Action)
    requires HalfDone(s) && Enabled(s, a)
    ensures HalfDone(Apply(s, a))
  {
  }

  lemma {:induction false} HalfRun(s: State, acts: seq<Action>)
    requires HalfDone(s) && IsRun(s, acts)
    ensures HalfDone(After(s, acts))
    decreases |acts|
  {
    if acts != [] {
      HalfNext(s, acts[0]);
      HalfRun(Apply(s, acts[0]), acts[1..]);
    }
  }

  /** A pass stops where something is gone, with the stores as they are, and nowhere else before all
      its writes are done. */
  lemma StopsWhereGone(s: State)
    requires Reachable(s) && Enabled(s, Write)
    ensures Gone(s) ==> Apply(s, Write) == s.(ctl := Resting)
    ensures !Gone(s) ==> Left(Apply(s, Write).ctl) == Left(s.ctl) - 1
  {
    var s0, acts :| Init(s0) && IsRun(s0, acts) && After(s0, acts) == s;
    HalfRun(s0, acts);
    StopsOrGoesOn(s, s.ctl.tasks[0], s.ctl.tasks[1..]);
  }

  lemma StopsOrGoesOn(s: State, x: Task, rest: seq<Task>)
    requires Enabled(s, Write) && HalfDone(s) && x == s.ctl.tasks[0] && rest == s.ctl.tasks[1..]
    ensures Gone(s) ==> WriteStep(s) == s.(ctl := Resting)
    ensures !Gone(s) ==> Left(WriteStep(s).ctl) == Left(s.ctl) - 1
  {
    assert Remaining(s.ctl.tasks) == Writes(x) + Remaining(rest);
  }
}
