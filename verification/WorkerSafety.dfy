/** Safety of the worker protocol over every run, with crashes, restarts, failing
    steps and stray statuses: lockstep, abort containment, one run of steps each. */
module WorkerSafety {
  import opened UpdateTypes
  import opened WorkerProtocol

  /** Restarted workers can be told apart from fresh ones: with a single step, a peer
      still at step 1 looks as if the update had not begun. */
  ghost predicate Distinguishable(c: Epoch) {
    c.final >= 2 || |Members(c)| <= 1
  }

  ghost predicate CountsUp(t: seq<int>) {
    forall k | 0 <= k < |t| :: t[k] == k + 1
  }

  /** Number of running statuses server j has posted in this epoch. */
  ghost function Posted(c: Epoch, s: State, j: int): nat {
    |Steps(c.version, s.log, j)|
  }

  ghost predicate AllPosted(c: Epoch, s: State, k: int) {
    forall j | j in Members(c) :: k in Steps(c.version, s.log, j)
  }

  ghost predicate StoreOk(c: Epoch, s: State, j: int) {
    var m := Posted(c, s, j);
    if m == 0 then
      j in s.store ==> s.store[j].version != c.version
    else
      && j in s.store
      && s.store[j].version == c.version
      && match s.store[j].cond
         case Abort => true
         case Running => s.store[j].step == m
         case Complete => s.store[j].step == m == c.final && (j, c.final) in s.done
         case NotRunning => false
  }

  ghost predicate BarrierOk(c: Epoch, s: State, l: Local) {
    && l.barrier <= Members(c)
    && forall j | j in Members(c) && j !in l.barrier :: l.step in Steps(c.version, s.log, j)
  }

  ghost predicate PhaseOk(c: Epoch, s: State, j: int)
    requires j in s.procs
  {
    var m := Posted(c, s, j);
    match s.procs[j]
    case Down => true
    case Idle => true
    case Rejecting(own) => j in s.store && s.store[j] == own
    case Joining => m == 0
    case Watching(l) => 1 <= l.step == m && BarrierOk(c, s, l)
    case Executing(l) => 1 <= l.step == m && (j, l.step) in s.begun
    case Posting(l, st) =>
      if st.cond == Complete then
        st == Status(c.version, c.final, Complete) && m == c.final && (j, c.final) in s.done
      else
        && st == Status(c.version, l.step, Running)
        && 1 <= m == l.step - 1 < c.final
        && (j, m) in s.done
        && l.barrier == Members(c)
    case Failing(l) => m >= 1
    case Finished(l) => m >= 1
  }

  ghost predicate ProcOk(c: Epoch, s: State, j: int)
    requires j in s.procs
  {
    && CountsUp(Steps(c.version, s.log, j))
    && Posted(c, s, j) <= c.final
    && (forall k | 1 <= k < Posted(c, s, j) :: (j, k) in s.done)
    && StoreOk(c, s, j)
    && PhaseOk(c, s, j)
  }

  ghost predicate EventOk(c: Epoch, s: State, e: Event) {
    e.st.cond != NotRunning && (e.st.version == c.version ==> Posted(c, s, e.lrn) >= 1)
  }

  ghost predicate Inv(c: Epoch, s: State) {
    && s.procs.Keys == Members(c)
    && (forall e | e in s.log && e.lrn in Members(c) :: EventOk(c, s, e))
    && (forall p | p in s.begun :: AllPosted(c, s, p.1))
    && (forall p | p in s.done :: p in s.begun)
    && (forall j | j in s.procs :: ProcOk(c, s, j))
  }

  /** `t` extends `s` by what server `i` did; the log grew by at most one put of `i`. */
  ghost predicate Grows(c: Epoch, s: State, t: State, i: int) {
    && s.begun <= t.begun && s.done <= t.done
    && (t.log == s.log || (|t.log| == |s.log| + 1 && t.log[..|s.log|] == s.log && t.log[|s.log|].lrn == i))
    && (forall j | j != i :: (j in t.store <==> j in s.store) && (j in s.store ==> t.store[j] == s.store[j]))
    && (forall j | j != i :: (j in t.procs <==> j in s.procs) && (j in s.procs ==> t.procs[j] == s.procs[j]))
  }

  lemma StepsGrow(c: Epoch, s: State, t: State, i: int, j: int)
    requires Grows(c, s, t, i)
    ensures Steps(c.version, s.log, j) <= Steps(c.version, t.log, j)
    ensures j != i ==> Steps(c.version, s.log, j) == Steps(c.version, t.log, j)
  {
    if t.log != s.log {
      StepsPut(c.version, s.log, t.log[|s.log|], j);
      assert t.log == s.log + [t.log[|s.log|]];
    }
  }

  /** Everything but the acting server's own facts is kept by a step. */
  lemma StepKeeps(c: Epoch, s: State, t: State, i: int)
    requires Inv(c, s) && Grows(c, s, t, i) && t.procs.Keys == Members(c)
    requires t.log != s.log ==> i in Members(c) ==> EventOk(c, t, t.log[|s.log|])
    requires forall p | p in t.begun && p !in s.begun :: AllPosted(c, t, p.1)
    requires forall p | p in t.done && p !in s.done :: p in t.begun
    requires i in t.procs ==> ProcOk(c, t, i)
    ensures Inv(c, t)
  {
    forall p | p in t.begun
      ensures AllPosted(c, t, p.1)
    {
    }
    forall j | j in t.procs
      ensures ProcOk(c, t, j)
    {
    }
    forall e | e in t.log && e.lrn in Members(c)
      ensures EventOk(c, t, e)
    {
      var n :| 0 <= n < |t.log| && t.log[n] == e;
      if n < |s.log| {
        assert s.log[n] == e;
        StepsGrow(c, s, t, i, e.lrn);
      }
    }
  }

  /** A server that has posted all its steps has a status that is neither old nor step 1. */
  lemma CompletePeers(c: Epoch, s: State, i: int, j: int)
    requires ValidEpoch(c) && Inv(c, s) && i in s.procs && j in s.procs
    requires Posted(c, s, i) >= 1 && s.store[i].cond == Complete
    ensures j in s.store && s.store[j].version == c.version
    ensures Posted(c, s, j) == c.final
    ensures s.store[j].cond == Running ==> s.store[j].step == c.final
  {
    assert AllPosted(c, s, c.final) by {
      assert (i, c.final) in s.begun;
    }
    assert c.final in Steps(c.version, s.log, j);
    assert ProcOk(c, s, j);
  }

  /** A server that has posted anything in this epoch is never admitted again. */
  lemma NoReadmission(c: Epoch, s: State, i: int)
    requires ValidEpoch(c) && Distinguishable(c) && Inv(c, s) && i in s.procs
    requires Posted(c, s, i) >= 1
    ensures !Admission(c, i, s.store).Joining?
  {
    assert ProcOk(c, s, i);
    if s.store[i].cond != Complete {
      assert Blocks(c.version, i, i, s.store[i]);
    } else if !UpdateAborted(c.version, i, s.store) {
      forall lrn | lrn in c.servers
        ensures lrn in s.store && s.store[lrn].version == c.version && s.store[lrn].cond == Complete
      {
        CompletePeers(c, s, i, lrn);
        if s.store[lrn].cond != Complete {
          assert !Blocks(c.version, i, lrn, s.store[lrn]);
          assert c.final == 1 && lrn != i;
          assert {i, lrn} <= Members(c);
          SubsetSize({i, lrn}, Members(c));
          assert false;
        }
      }
    }
  }

  lemma {:induction false} SubsetSize<T>(a: set<T>, b: set<T>)
    requires a <= b
    ensures |a| <= |b|
  {
    if a != {} {
      var x :| x in a;
      SubsetSize(a - {x}, b - {x});
    }
  }

  lemma ReadKeeps(c: Epoch, s: State, i: int)
    requires ValidEpoch(c) && Inv(c, s) && Enabled(c, s, Read(i))
    requires Distinguishable(c) || Posted(c, s, i) == 0
    ensures Inv(c, Apply(c, s, Read(i)))
  {
    assert ProcOk(c, s, i);
    if Posted(c, s, i) >= 1 {
      NoReadmission(c, s, i);
    }
    StepKeeps(c, s, Apply(c, s, Read(i)), i);
  }

  lemma RunningPutKeeps(c: Epoch, s: State, a: Action)
    requires ValidEpoch(c) && Inv(c, s) && Enabled(c, s, a) && (a.Join? || a.Post?)
    ensures Inv(c, Apply(c, s, a))
  {
    var t := Apply(c, s, a);
    assert ProcOk(c, s, a.i);
    if t.procs[a.i].Watching? {
      var l := t.procs[a.i].l;
      assert l.barrier == Members(c);
    }
    StepKeeps(c, s, t, a.i);
  }

  lemma PutsKeep(c: Epoch, s: State, a: Action)
    requires ValidEpoch(c) && Inv(c, s) && Enabled(c, s, a)
    requires a.Reject? || a.Join? || a.Post? || a.PostAbort?
    ensures Inv(c, Apply(c, s, a))
  {
    if a.Join? || a.Post? {
      RunningPutKeeps(c, s, a);
    } else {
      var t := Apply(c, s, a);
      assert ProcOk(c, s, a.i);
      StepKeeps(c, s, t, a.i);
    }
  }

  /** An event that passes every test of the handler is a running status of this step. */
  lemma CountedEvent(c: Epoch, s: State, l: Local)
    requires Inv(c, s) && l.cursor < |s.log|
    requires React(c, l, s.log[l.cursor]).Wait? || React(c, l, s.log[l.cursor]).Fire?
    ensures l.step in Steps(c.version, s.log, s.log[l.cursor].lrn)
  {
    assert s.log[l.cursor] in s.log;
    StepsMember(c.version, s.log, l.cursor);
  }

  lemma DeliverKeeps(c: Epoch, s: State, i: int)
    requires ValidEpoch(c) && Inv(c, s) && Enabled(c, s, Deliver(i))
    ensures Inv(c, Apply(c, s, Deliver(i)))
  {
    var l := s.procs[i].l;
    var t := Apply(c, s, Deliver(i));
    var v := React(c, l, s.log[l.cursor]);
    assert ProcOk(c, s, i);
    if v.Wait? || v.Fire? {
      CountedEvent(c, s, l);
    }
    if v.Fire? {
      forall j | j in Members(c)
        ensures l.step in Steps(c.version, t.log, j)
      {
        assert j !in l.barrier - {s.log[l.cursor].lrn};
      }
    }
    StepKeeps(c, s, t, i);
  }

  lemma LocalKeeps(c: Epoch, s: State, a: Action)
    requires ValidEpoch(c) && Inv(c, s) && Enabled(c, s, a)
    requires a.Succeed? || a.Fault? || a.Crash?
    ensures Inv(c, Apply(c, s, a))
  {
    assert ProcOk(c, s, a.i);
    StepKeeps(c, s, Apply(c, s, a), a.i);
  }

  lemma StrayKeeps(c: Epoch, s: State, a: Action)
    requires Inv(c, s) && Enabled(c, s, a) && a.Stray?
    ensures Inv(c, Apply(c, s, a))
  {
    StepKeeps(c, s, Apply(c, s, a), a.i);
  }

  lemma NextInv(c: Epoch, s: State, a: Action)
    requires ValidEpoch(c) && Inv(c, s) && Enabled(c, s, a)
    requires Distinguishable(c) || (a.Read? ==> Posted(c, s, a.i) == 0)
    ensures Inv(c, Apply(c, s, a))
  {
    match a
    case Read(i) => ReadKeeps(c, s, i);
    case Deliver(i) => DeliverKeeps(c, s, i);
    case Stray(_, _) => StrayKeeps(c, s, a);
    case Reject(_) => PutsKeep(c, s, a);
    case Join(_) => PutsKeep(c, s, a);
    case Post(_) => PutsKeep(c, s, a);
    case PostAbort(_) => PutsKeep(c, s, a);
    case Succeed(_) => LocalKeeps(c, s, a);
    case Fault(_) => LocalKeeps(c, s, a);
    case Crash(_) => LocalKeeps(c, s, a);
  }

  lemma {:induction false} RunInv(c: Epoch, s: State, acts: seq<Action>)
    requires ValidEpoch(c) && Distinguishable(c) && Inv(c, s) && IsRun(c, s, acts)
    ensures Inv(c, After(c, s, acts))
    decreases |acts|
  {
    if acts != [] {
      NextInv(c, s, acts[0]);
      RunInv(c, Apply(c, s, acts[0]), acts[1..]);
    }
  }

  /** Every state reached from the start of an epoch. */
  ghost predicate Reachable(c: Epoch, s: State) {
    exists s0, acts :: Init(c, s0) && IsRun(c, s0, acts) && After(c, s0, acts) == s
  }

  lemma ReachableInv(c: Epoch, s: State)
    requires ValidEpoch(c) && Distinguishable(c) && Reachable(c, s)
    ensures Inv(c, s)
  {
    var s0, acts :| Init(c, s0) && IsRun(c, s0, acts) && After(c, s0, acts) == s;
    RunInv(c, s0, acts);
  }

  /** Lockstep: a server enters step k only when every member has posted step k, which for
      k >= 2 it does only after its own RunStep(k - 1) has succeeded. */
  lemma Lockstep(c: Epoch, s: State, a: Action, i: int, k: int)
    requires ValidEpoch(c) && Distinguishable(c) && Reachable(c, s) && Enabled(c, s, a)
    requires (i, k) in Apply(c, s, a).begun && (i, k) !in s.begun
    ensures i in Members(c) && 1 <= k <= c.final
    ensures forall j | j in Members(c) :: k in Steps(c.version, s.log, j)
    ensures forall j | j in Members(c) :: forall n | 1 <= n < k :: (j, n) in s.done && (j, n) in s.begun
  {
    ReachableInv(c, s);
    Begins(c, s, a, i, k);
    forall j | j in Members(c)
      ensures k in Steps(c.version, s.log, j)
      ensures forall n | 1 <= n < k :: (j, n) in s.done && (j, n) in s.begun
    {
      PostedSteps(c, s, j, k);
    }
  }

  /** A step begins by a delivery, when everybody has posted it. */
  lemma Begins(c: Epoch, s: State, a: Action, i: int, k: int)
    requires ValidEpoch(c) && Inv(c, s) && Enabled(c, s, a)
    requires (i, k) in Apply(c, s, a).begun && (i, k) !in s.begun
    ensures i in Members(c) && 1 <= k <= c.final && AllPosted(c, s, k)
  {
    BeginsAt(c, s, a, i, k);
    DeliverKeeps(c, s, i);
    assert ProcOk(c, s, i) && AllPosted(c, Apply(c, s, a), (i, k).1);
  }

  lemma BeginsAt(c: Epoch, s: State, a: Action, i: int, k: int)
    requires Enabled(c, s, a) && (i, k) in Apply(c, s, a).begun && (i, k) !in s.begun
    ensures a == Deliver(i) && i in s.procs && s.procs[i].Watching? && s.procs[i].l.step == k
    ensures Apply(c, s, a).log == s.log
  {
  }

  /** Whoever has posted step k has posted it in its turn, after running the steps below. */
  lemma PostedSteps(c: Epoch, s: State, j: int, k: int)
    requires Inv(c, s) && j in Members(c) && k in Steps(c.version, s.log, j)
    ensures forall n | 1 <= n < k :: (j, n) in s.done && (j, n) in s.begun
  {
    assert ProcOk(c, s, j);
  }

  /** Out of the update: crashed, restarted without being admitted, or failing. */
  ghost predicate Out(p: Phase) {
    p.Down? || p.Rejecting? || p.Idle? || p.Failing?
  }

  lemma OutStays(c: Epoch, s: State, a: Action, j: int)
    requires ValidEpoch(c) && Distinguishable(c) && Inv(c, s) && Enabled(c, s, a)
    requires j in s.procs && Out(s.procs[j]) && Posted(c, s, j) >= 1
    ensures var t := Apply(c, s, a);
            j in t.procs && Out(t.procs[j]) && Posted(c, t, j) == Posted(c, s, j)
  {
    if a.i == j {
      OutOwnStep(c, s, a);
    } else {
      OthersStep(c, s, a, j);
    }
  }

  /** What others do changes neither where a member stands nor what it has posted. */
  lemma OthersStep(c: Epoch, s: State, a: Action, j: int)
    requires Enabled(c, s, a) && a.i != j && j in s.procs
    ensures var t := Apply(c, s, a); j in t.procs && t.procs[j] == s.procs[j] && Posted(c, t, j) == Posted(c, s, j)
  {
    var t := Apply(c, s, a);
    if t.log != s.log {
      StepsPut(c.version, s.log, t.log[|s.log|], j);
    }
  }

  lemma OutOwnStep(c: Epoch, s: State, a: Action)
    requires ValidEpoch(c) && Distinguishable(c) && Inv(c, s) && Enabled(c, s, a)
    requires a.i in s.procs && Out(s.procs[a.i]) && Posted(c, s, a.i) >= 1
    ensures var t := Apply(c, s, a);
            a.i in t.procs && Out(t.procs[a.i]) && Posted(c, t, a.i) == Posted(c, s, a.i)
  {
    var t := Apply(c, s, a);
    assert ProcOk(c, s, a.i);
    NoReadmission(c, s, a.i);
    if t.log != s.log {
      StepsPut(c.version, s.log, t.log[|s.log|], a.i);
    }
  }

  lemma {:induction false} OutForever(c: Epoch, s: State, acts: seq<Action>, j: int)
    requires ValidEpoch(c) && Distinguishable(c) && Inv(c, s) && IsRun(c, s, acts)
    requires j in s.procs && Out(s.procs[j]) && Posted(c, s, j) >= 1
    ensures Posted(c, After(c, s, acts), j) == Posted(c, s, j)
    decreases |acts|
  {
    if acts != [] {
      NextInv(c, s, acts[0]);
      OutStays(c, s, acts[0], j);
      OutForever(c, Apply(c, s, acts[0]), acts[1..], j);
    }
  }

  /** Abort containment: once a member has dropped out with k as its last posted running step,
      no continuation of the run lets it post again or lets any member enter a later step. */
  lemma AbortContainment(c: Epoch, s: State, acts: seq<Action>, j: int)
    requires ValidEpoch(c) && Distinguishable(c) && Reachable(c, s) && IsRun(c, s, acts)
    requires j in s.procs && Out(s.procs[j]) && Posted(c, s, j) >= 1
    ensures var t := After(c, s, acts); var k := Posted(c, s, j);
            && Steps(c.version, t.log, j) == Steps(c.version, s.log, j)
            && forall p | p in t.begun :: p.1 <= k
  {
    ReachableInv(c, s);
    RunInv(c, s, acts);
    OutForever(c, s, acts, j);
    var t := After(c, s, acts);
    assert ProcOk(c, s, j) && ProcOk(c, t, j);
    forall p | p in t.begun
      ensures p.1 <= Posted(c, s, j)
    {
      assert AllPosted(c, t, p.1);
    }
  }

  /** Across all its restarts each member posts the running steps 1, 2, ..., m once each. */
  lemma SingleRun(c: Epoch, s: State, j: int)
    requires ValidEpoch(c) && Distinguishable(c) && Reachable(c, s) && j in Members(c)
    ensures CountsUp(Steps(c.version, s.log, j)) && |Steps(c.version, s.log, j)| <= c.final
  {
    ReachableInv(c, s);
    assert ProcOk(c, s, j);
  }
}
