/** Runs of the worker protocol without failures, crashes or stray statuses: no worker
    raises a false alarm, no late starter is turned away, and every such run is bounded
    and can only stop with all members complete. */
module WorkerProgress {
  import opened Common
  import opened UpdateTypes
  import opened WorkerProtocol
  import opened WorkerSafety

  ghost predicate Calm(a: Action) {
    a.Read? || a.Join? || a.Deliver? || a.Succeed? || a.Post?
  }

  ghost predicate AllCalm(acts: seq<Action>) {
    forall n | 0 <= n < |acts| :: Calm(acts[n])
  }

  /** Running statuses of server j among the first n log entries. */
  ghost function Count(c: Epoch, log: seq<Event>, n: nat, j: int): nat
    requires n <= |log|
  {
    |Steps(c.version, log[..n], j)|
  }

  lemma {:induction false} PrefixSteps(c: Epoch, log: seq<Event>, n: nat, m: nat, j: int)
    requires n <= m <= |log|
    ensures Steps(c.version, log[..n], j) <= Steps(c.version, log[..m], j)
  {
    if n < m {
      PrefixSteps(c, log, n, m - 1, j);
      StepsPut(c.version, log[..m - 1], log[m - 1], j);
      assert log[..m] == log[..m - 1] + [log[m - 1]];
    }
  }

  lemma CountNext(c: Epoch, log: seq<Event>, n: nat, j: int)
    requires n < |log|
    ensures Count(c, log, n + 1, j) ==
            Count(c, log, n, j) +
            if log[n].lrn == j && log[n].st.version == c.version && log[n].st.cond == Running then 1 else 0
  {
    StepsPut(c.version, log[..n], log[n], j);
    assert log[..n + 1] == log[..n] + [log[n]];
  }

  /** A server's n-th running status is for step n. */
  lemma StepIsCount(c: Epoch, s: State, n: nat)
    requires n < |s.log| && s.log[n].st.version == c.version && s.log[n].st.cond == Running
    requires CountsUp(Steps(c.version, s.log, s.log[n].lrn))
    ensures s.log[n].st.step == Count(c, s.log, n, s.log[n].lrn) + 1
  {
    var j := s.log[n].lrn;
    StepsPut(c.version, s.log[..n], s.log[n], j);
    assert s.log[..n + 1] == s.log[..n] + [s.log[n]];
    PrefixSteps(c, s.log, n + 1, |s.log|, j);
    assert s.log[..|s.log|] == s.log;
    var k := Count(c, s.log, n, j);
    assert Steps(c.version, s.log[..n + 1], j)[k] == Steps(c.version, s.log, j)[k];
  }

  /** Every member had posted step k before position n. */
  ghost predicate Reached(c: Epoch, log: seq<Event>, n: nat, k: int)
    requires n <= |log|
  {
    forall i | i in Members(c) :: Count(c, log, n, i) >= k
  }

  ghost predicate Causal(c: Epoch, log: seq<Event>, n: nat)
    requires n < |log|
  {
    var e := log[n];
    && e.lrn in Members(c)
    && e.st.version == c.version
    && (e.st.cond == Running || (e.st.cond == Complete && e.st.step == c.final))
    && Reached(c, log, n, if e.st.cond == Running then e.st.step - 1 else c.final)
  }

  /** What a reader at its cursor has seen, exactly. */
  ghost predicate Seen(c: Epoch, log: seq<Event>, l: Local, ahead: set<int>, k: int) {
    && l.cursor <= |log|
    && forall j | j in Members(c) :: Count(c, log, l.cursor, j) == if j in ahead then k - 1 else k
  }

  ghost predicate CalmPhase(c: Epoch, s: State, i: int)
    requires i in s.procs
  {
    match s.procs[i]
    case Down => Posted(c, s, i) == 0
    case Joining => true
    case Watching(l) => l.barrier != {} && Seen(c, s.log, l, l.barrier, l.step)
    case Executing(l) => l.barrier == {} && Seen(c, s.log, l, {}, l.step)
    case Posting(l, st) => Seen(c, s.log, l, {}, if st.cond == Complete then c.final else l.step - 1)
    case Finished(l) => true
    case Rejecting(_) => false
    case Idle => false
    case Failing(_) => false
  }

  /** Finished workers, and only those, have the completion status stored. */
  ghost predicate FinishedIsComplete(c: Epoch, s: State, i: int)
    requires i in s.procs
  {
    s.procs[i].Finished? <==> i in s.store && s.store[i] == Status(c.version, c.final, Complete)
  }

  ghost predicate CalmInv(c: Epoch, s: State) {
    && Inv(c, s)
    && (forall n | 0 <= n < |s.log| :: Causal(c, s.log, n))
    && (forall j | j in s.store && s.store[j].version == c.version ::
          j in Members(c) && s.store[j].cond != Abort)
    && (forall i | i in s.procs :: CalmPhase(c, s, i))
    && (forall i | i in s.procs :: FinishedIsComplete(c, s, i))
  }

  lemma InitCalm(c: Epoch, s: State)
    requires ValidEpoch(c) && Init(c, s)
    ensures CalmInv(c, s)
  {
  }

  /** The next event of a reader is always one its barrier waits for. */
  lemma NextEventExpected(c: Epoch, s: State, i: int)
    requires CalmInv(c, s) && Enabled(c, s, Deliver(i))
    ensures var l := s.procs[i].l; var e := s.log[l.cursor];
            && e.lrn in l.barrier
            && e.st == Status(c.version, l.step, Running)
            && var b := l.barrier - {e.lrn};
               React(c, l, e) == if b == {} then Fire else Wait(b)
  {
    var l := s.procs[i].l;
    var e := s.log[l.cursor];
    assert Causal(c, s.log, l.cursor) && CalmPhase(c, s, i) && ProcOk(c, s, i);
    assert s.procs[i] == Watching(l) && l.barrier != {};
    var w := Element(l.barrier);
    assert w in Members(c);
    assert Count(c, s.log, l.cursor, w) == l.step - 1;
    if e.st.cond == Running {
      assert ProcOk(c, s, e.lrn);
      StepIsCount(c, s, l.cursor);
      assert Count(c, s.log, l.cursor, w) >= e.st.step - 1;
    }
  }

  lemma SeenGrows(c: Epoch, s: State, t: State, l: Local, ahead: set<int>, k: int)
    requires s.log <= t.log && Seen(c, s.log, l, ahead, k)
    ensures Seen(c, t.log, l, ahead, k)
  {
    assert t.log[..l.cursor] == s.log[..l.cursor];
  }

  lemma CausalGrows(c: Epoch, s: State, t: State, n: nat)
    requires s.log <= t.log && n < |s.log| && Causal(c, s.log, n)
    ensures Causal(c, t.log, n)
  {
    assert t.log[..n] == s.log[..n];
  }

  lemma PhaseGrows(c: Epoch, s: State, t: State, i: int, j: int)
    requires Grows(c, s, t, i) && s.log <= t.log && i != j && j in s.procs && CalmPhase(c, s, j)
    ensures j in t.procs && CalmPhase(c, t, j)
  {
    match s.procs[j]
    case Down => StepsGrow(c, s, t, i, j);
    case Watching(l) => SeenGrows(c, s, t, l, l.barrier, l.step);
    case Executing(l) => SeenGrows(c, s, t, l, {}, l.step);
    case Posting(l, st) => SeenGrows(c, s, t, l, {}, if st.cond == Complete then c.final else l.step - 1);
    case Joining =>
    case Finished(_) =>
  }

  /** A calm step needs to be checked only for the acting server and the event it adds. */
  lemma CalmStep(c: Epoch, s: State, t: State, i: int)
    requires CalmInv(c, s) && Inv(c, t) && Grows(c, s, t, i) && s.log <= t.log
    requires i in t.procs && CalmPhase(c, t, i)
    requires t.log != s.log ==> Causal(c, t.log, |s.log|)
    requires i in t.store && t.store[i].version == c.version ==> t.store[i].cond != Abort
    requires FinishedIsComplete(c, t, i)
    ensures CalmInv(c, t)
  {
    forall n | 0 <= n < |t.log|
      ensures Causal(c, t.log, n)
    {
      if n < |s.log| {
        CausalGrows(c, s, t, n);
      }
    }
    forall j | j in t.procs
      ensures CalmPhase(c, t, j)
    {
      if i != j {
        PhaseGrows(c, s, t, i, j);
      }
    }
  }

  /** A worker that reads the statuses late is admitted: peers are at step 1 at most. */
  lemma LateStarterAdmitted(c: Epoch, s: State, i: int)
    requires ValidEpoch(c) && CalmInv(c, s) && i in s.procs && Posted(c, s, i) == 0
    ensures Admission(c, i, s.store) == Joining
  {
    assert ProcOk(c, s, i);
    forall j | j in s.store
      ensures !Blocks(c.version, i, j, s.store[j])
    {
      if s.store[j].version == c.version && s.store[j].cond != Complete {
        assert ProcOk(c, s, j);
        OwnStepReached(c, s, i, j);
      }
    }
    assert i in c.servers;
  }

  /** No member is more than one step ahead of another. */
  lemma OwnStepReached(c: Epoch, s: State, i: int, j: int)
    requires CalmInv(c, s) && i in s.procs && j in s.procs
    ensures Posted(c, s, j) <= Posted(c, s, i) + 1
  {
    var m := Posted(c, s, j);
    if m >= 2 {
      assert ProcOk(c, s, j);
      assert Steps(c.version, s.log, j)[m - 1] == m;
      var n := StepsWitness(c, s.log, j, m);
      assert Causal(c, s.log, n);
      assert Count(c, s.log, n, i) >= m - 1;
      PrefixSteps(c, s.log, n, |s.log|, i);
      assert s.log[..|s.log|] == s.log;
    }
  }

  lemma {:induction false} StepsWitness(c: Epoch, log: seq<Event>, j: int, k: int) returns (n: nat)
    requires k in Steps(c.version, log, j)
    ensures n < |log| && log[n] == Event(j, Status(c.version, k, Running))
  {
    var e := log[|log| - 1];
    if e == Event(j, Status(c.version, k, Running)) {
      n := |log| - 1;
    } else {
      n := StepsWitness(c, log[..|log| - 1], j, k);
    }
  }

  lemma CalmRead(c: Epoch, s: State, i: int)
    requires ValidEpoch(c) && CalmInv(c, s) && Enabled(c, s, Read(i))
    ensures CalmInv(c, Apply(c, s, Read(i)))
  {
    assert CalmPhase(c, s, i);
    LateStarterAdmitted(c, s, i);
    NextInv(c, s, Read(i));
    CalmStep(c, s, Apply(c, s, Read(i)), i);
  }

  /** Reading an expected event moves its sender out of the set still awaited. */
  lemma SeenNext(c: Epoch, log: seq<Event>, l: Local, j: int)
    requires l.cursor < |log| && Seen(c, log, l, l.barrier, l.step)
    requires j in l.barrier && log[l.cursor] == Event(j, Status(c.version, l.step, Running))
    ensures Seen(c, log, l.(cursor := l.cursor + 1), l.barrier - {j}, l.step)
  {
    forall i | i in Members(c)
      ensures Count(c, log, l.cursor + 1, i) == if i in l.barrier - {j} then l.step - 1 else l.step
    {
      CountNext(c, log, l.cursor, i);
    }
  }

  lemma DeliverPhase(c: Epoch, s: State, i: int)
    requires CalmInv(c, s) && Enabled(c, s, Deliver(i))
    ensures var t := Apply(c, s, Deliver(i));
            && Grows(c, s, t, i) && t.log == s.log && t.store == s.store
            && i in t.procs && (t.procs[i].Watching? || t.procs[i].Executing?) && CalmPhase(c, t, i)
  {
    var l := s.procs[i].l;
    assert CalmPhase(c, s, i);
    NextEventExpected(c, s, i);
    var j := s.log[l.cursor].lrn;
    SeenNext(c, s.log, l, j);
    DeliveredPhase(c, s, i, l, j);
  }

  lemma DeliveredPhase(c: Epoch, s: State, i: int, l: Local, j: int)
    requires i in s.procs && s.procs[i] == Watching(l) && l.cursor < |s.log|
    requires var b := l.barrier - {j}; React(c, l, s.log[l.cursor]) == if b == {} then Fire else Wait(b)
    requires Seen(c, s.log, l.(cursor := l.cursor + 1), l.barrier - {j}, l.step)
    ensures var t := Apply(c, s, Deliver(i));
            && Grows(c, s, t, i) && t.log == s.log && t.store == s.store
            && i in t.procs && (t.procs[i].Watching? || t.procs[i].Executing?) && CalmPhase(c, t, i)
  {
  }

  lemma CalmDeliver(c: Epoch, s: State, i: int)
    requires ValidEpoch(c) && CalmInv(c, s) && Enabled(c, s, Deliver(i))
    ensures CalmInv(c, Apply(c, s, Deliver(i)))
  {
    var t := Apply(c, s, Deliver(i));
    DeliverPhase(c, s, i);
    NextInv(c, s, Deliver(i));
    assert FinishedIsComplete(c, s, i);
    CalmStep(c, s, t, i);
  }

  lemma CalmLocal(c: Epoch, s: State, a: Action)
    requires ValidEpoch(c) && CalmInv(c, s) && Enabled(c, s, a) && (a.Succeed? || a.Join?)
    ensures CalmInv(c, Apply(c, s, a))
  {
    assert CalmPhase(c, s, a.i);
    NextInv(c, s, a);
    CalmStep(c, s, Apply(c, s, a), a.i);
  }

  lemma PostCausal(c: Epoch, s: State, i: int)
    requires ValidEpoch(c) && CalmInv(c, s) && Enabled(c, s, Post(i))
    ensures var t := Apply(c, s, Post(i));
            && t.log == s.log + [Event(i, s.procs[i].st)] && Causal(c, t.log, |s.log|)
            && i in t.procs && CalmPhase(c, t, i)
  {
    var t := Apply(c, s, Post(i));
    var l := s.procs[i].l;
    assert CalmPhase(c, s, i) && ProcOk(c, s, i);
    forall j | j in Members(c)
      ensures Count(c, t.log, |s.log|, j) >= Count(c, s.log, l.cursor, j)
    {
      PrefixSteps(c, s.log, l.cursor, |s.log|, j);
      assert s.log[..|s.log|] == s.log == t.log[..|s.log|];
    }
    assert t.log[..l.cursor] == s.log[..l.cursor];
  }

  lemma CalmPost(c: Epoch, s: State, i: int)
    requires ValidEpoch(c) && CalmInv(c, s) && Enabled(c, s, Post(i))
    ensures CalmInv(c, Apply(c, s, Post(i)))
  {
    var t := Apply(c, s, Post(i));
    assert CalmPhase(c, s, i) && ProcOk(c, s, i);
    PostCausal(c, s, i);
    NextInv(c, s, Post(i));
    CalmStep(c, s, t, i);
  }

  lemma NextCalm(c: Epoch, s: State, a: Action)
    requires ValidEpoch(c) && CalmInv(c, s) && Enabled(c, s, a) && Calm(a)
    ensures CalmInv(c, Apply(c, s, a))
  {
    match a
    case Read(i) => CalmRead(c, s, i);
    case Deliver(i) => CalmDeliver(c, s, i);
    case Post(i) => CalmPost(c, s, i);
    case Join(_) => CalmLocal(c, s, a);
    case Succeed(_) => CalmLocal(c, s, a);
  }

  lemma {:induction false} RunCalm(c: Epoch, s: State, acts: seq<Action>)
    requires ValidEpoch(c) && CalmInv(c, s) && IsRun(c, s, acts) && AllCalm(acts)
    ensures CalmInv(c, After(c, s, acts))
    decreases |acts|
  {
    if acts != [] {
      NextCalm(c, s, acts[0]);
      RunCalm(c, Apply(c, s, acts[0]), acts[1..]);
    }
  }

  /** No false alarms: in a run without failures, crashes or strays, however far the workers
      lag on the log, the next event never sends a worker down an error branch, nobody has
      failed or been turned away, and a member that has yet to read the statuses is admitted. */
  lemma NoFalseAlarms(c: Epoch, s0: State, acts: seq<Action>, i: int)
    requires ValidEpoch(c) && Init(c, s0) && IsRun(c, s0, acts) && AllCalm(acts) && i in Members(c)
    ensures var s := After(c, s0, acts);
            && i in s.procs
            && !s.procs[i].Failing? && !s.procs[i].Rejecting? && !s.procs[i].Idle?
            && (s.procs[i].Down? ==> Admission(c, i, s.store) == Joining)
            && (Enabled(c, s, Deliver(i)) ==>
                  var v := React(c, s.procs[i].l, s.log[s.procs[i].l.cursor]); v.Wait? || v.Fire?)
  {
    InitCalm(c, s0);
    RunCalm(c, s0, acts);
    var s := After(c, s0, acts);
    assert CalmPhase(c, s, i);
    if s.procs[i].Down? {
      LateStarterAdmitted(c, s, i);
    }
    if Enabled(c, s, Deliver(i)) {
      NextEventExpected(c, s, i);
    }
  }

  /** Nothing can move without a failure. */
  ghost predicate Stuck(c: Epoch, s: State) {
    forall a :: Calm(a) ==> !Enabled(c, s, a)
  }

  /** A stuck worker has read the whole log, or has finished. */
  lemma StuckPhase(c: Epoch, s: State, i: int)
    requires CalmInv(c, s) && Stuck(c, s) && i in s.procs
    ensures s.procs[i].Finished? || (s.procs[i].Watching? && s.procs[i].l.cursor == |s.log|)
  {
    assert CalmPhase(c, s, i);
    assert !Enabled(c, s, Read(i)) && !Enabled(c, s, Join(i)) && !Enabled(c, s, Deliver(i));
    assert !Enabled(c, s, Succeed(i)) && !Enabled(c, s, Post(i));
  }

  /** A watcher at the end of the log knows every member's progress exactly. */
  lemma WatcherKnows(c: Epoch, s: State, i: int, j: int)
    requires CalmInv(c, s) && i in s.procs && j in s.procs
    requires s.procs[i].Watching? && s.procs[i].l.cursor == |s.log|
    ensures var l := s.procs[i].l;
            Posted(c, s, j) == if j in l.barrier then l.step - 1 else l.step
    ensures s.procs[i].l.barrier != {} && s.procs[i].l.barrier <= Members(c)
  {
    assert CalmPhase(c, s, i) && ProcOk(c, s, i);
    assert s.log[..|s.log|] == s.log;
  }

  /** A watcher at the end of the log waits for somebody one step behind, and nobody is further. */
  lemma Laggard(c: Epoch, s: State, i: int) returns (j: int)
    requires CalmInv(c, s) && i in s.procs
    requires s.procs[i].Watching? && s.procs[i].l.cursor == |s.log|
    ensures j in s.procs && Posted(c, s, j) == s.procs[i].l.step - 1 < c.final
    ensures forall k | k in s.procs :: Posted(c, s, k) >= s.procs[i].l.step - 1
    ensures s.procs[i].l.step == Posted(c, s, i)
  {
    WatcherKnows(c, s, i, i);
    j := Element(s.procs[i].l.barrier);
    assert ProcOk(c, s, i);
    forall k | k in s.procs
      ensures Posted(c, s, k) == if k in s.procs[i].l.barrier then s.procs[i].l.step - 1 else s.procs[i].l.step
    {
      WatcherKnows(c, s, i, k);
    }
  }

  lemma StuckFinished(c: Epoch, s: State, i: int)
    requires CalmInv(c, s) && Stuck(c, s) && i in s.procs
    ensures s.procs[i].Finished?
  {
    StuckPhase(c, s, i);
    if !s.procs[i].Finished? {
      var j := Laggard(c, s, i);
      StuckPhase(c, s, j);
      if s.procs[j].Watching? {
        var k := Laggard(c, s, j);
        assert false;
      } else {
        assert false;
      }
    }
  }

  /** A calm run can stop only when every member has reported completion. */
  lemma StopsComplete(c: Epoch, s0: State, acts: seq<Action>)
    requires ValidEpoch(c) && Init(c, s0) && IsRun(c, s0, acts) && AllCalm(acts)
    requires Stuck(c, After(c, s0, acts))
    ensures UpdateCompleted(c.version, c.servers, After(c, s0, acts).store)
  {
    InitCalm(c, s0);
    RunCalm(c, s0, acts);
    var s := After(c, s0, acts);
    forall lrn | lrn in c.servers
      ensures lrn in s.store && s.store[lrn].version == c.version && s.store[lrn].cond == Complete
    {
      assert lrn in s.procs;
      StuckFinished(c, s, lrn);
    }
  }

  /** Moves of one worker up to step k: per step a reading of each member's status, the
      execution, and two posts. */
  ghost function Moves(n: nat, k: int): nat {
    if k <= 0 then 0 else Moves(n, k - 1) + n + 3
  }

  lemma {:induction false} MovesValue(n: nat, k: nat)
    ensures Moves(n, k) == k * (n + 3)
  {
    if k > 0 {
      MovesValue(n, k - 1);
      assert k * (n + 3) == (k - 1) * (n + 3) + (n + 3);
    }
  }

  lemma {:induction false} MovesMonotone(n: nat, a: int, b: int)
    requires a <= b
    ensures Moves(n, a) <= Moves(n, b)
    decreases b - a
  {
    if a < b {
      MovesMonotone(n, a, b - 1);
    }
  }

  /** How far a worker has come; every calm step moves one worker up. */
  ghost function Rank(c: Epoch, p: Phase): int {
    var n := |Members(c)|;
    match p
    case Down => 0
    case Joining => 1
    case Watching(l) => 2 + Moves(n, l.step) + n - |l.barrier|
    case Executing(l) => 2 + Moves(n, l.step) + n
    case Posting(l, st) => 3 + Moves(n, if st.cond == Complete then c.final else l.step - 1) + n
    case Finished(_) => 4 + Moves(n, c.final) + n
    case Rejecting(_) => 0
    case Idle => 0
    case Failing(_) => 0
  }

  lemma DeliverRises(c: Epoch, s: State, i: int)
    requires ValidEpoch(c) && CalmInv(c, s) && Enabled(c, s, Deliver(i))
    ensures Rank(c, Apply(c, s, Deliver(i)).procs[i]) > Rank(c, s.procs[i])
  {
    var l := s.procs[i].l;
    NextEventExpected(c, s, i);
    assert |l.barrier - {s.log[l.cursor].lrn}| == |l.barrier| - 1;
  }

  lemma RankRises(c: Epoch, s: State, a: Action)
    requires ValidEpoch(c) && CalmInv(c, s) && Enabled(c, s, a) && Calm(a)
    ensures Rank(c, Apply(c, s, a).procs[a.i]) > Rank(c, s.procs[a.i])
  {
    assert CalmPhase(c, s, a.i) && ProcOk(c, s, a.i);
    match a
    case Read(i) => LateStarterAdmitted(c, s, i);
    case Deliver(i) => DeliverRises(c, s, i);
    case Post(_) =>
    case Join(_) =>
    case Succeed(_) =>
  }

  ghost function MaxRank(c: Epoch): int {
    4 + c.final * (|Members(c)| + 3) + |Members(c)|
  }

  lemma RankBound(c: Epoch, s: State, i: int)
    requires ValidEpoch(c) && CalmInv(c, s) && i in s.procs
    ensures 0 <= Rank(c, s.procs[i]) <= MaxRank(c)
  {
    assert CalmPhase(c, s, i) && ProcOk(c, s, i);
    var p := s.procs[i];
    MovesValue(|Members(c)|, c.final);
    if p.Watching? {
      SubsetSize(p.l.barrier, Members(c));
    }
    if p.Watching? || p.Executing? {
      MovesMonotone(|Members(c)|, p.l.step, c.final);
    } else if p.Posting? && p.st.cond != Complete {
      MovesMonotone(|Members(c)|, p.l.step - 1, c.final);
    }
  }

  ghost function Total(c: Epoch, servers: seq<int>, procs: map<int, Phase>): int
    requires forall n | 0 <= n < |servers| :: servers[n] in procs
  {
    if servers == [] then 0 else Rank(c, procs[servers[0]]) + Total(c, servers[1..], procs)
  }

  /** n times b, by addition. */
  ghost function Cap(n: nat, b: int): int {
    if n == 0 then 0 else b + Cap(n - 1, b)
  }

  lemma {:induction false} CapValue(n: nat, b: int)
    ensures Cap(n, b) == n * b
  {
    if n > 0 {
      CapValue(n - 1, b);
      assert n * b == (n - 1) * b + b;
    }
  }

  lemma {:induction false} TotalRises(c: Epoch, servers: seq<int>, p: map<int, Phase>, i: int, x: Phase)
    requires forall n | 0 <= n < |servers| :: servers[n] in p
    requires i in p && Rank(c, x) > Rank(c, p[i])
    ensures Total(c, servers, p[i := x]) >= Total(c, servers, p) + if i in servers then 1 else 0
  {
    if servers != [] {
      TotalRises(c, servers[1..], p, i, x);
    }
  }

  lemma {:induction false} TotalBound(c: Epoch, servers: seq<int>, procs: map<int, Phase>, b: int)
    requires forall n | 0 <= n < |servers| :: servers[n] in procs && 0 <= Rank(c, procs[servers[n]]) <= b
    ensures 0 <= Total(c, servers, procs) <= Cap(|servers|, b)
  {
    if servers != [] {
      TotalBound(c, servers[1..], procs, b);
    }
  }

  ghost predicate Tracks(c: Epoch, s: State) {
    s.procs.Keys == Members(c)
  }

  lemma StepRises(c: Epoch, s: State, a: Action)
    requires ValidEpoch(c) && CalmInv(c, s) && Enabled(c, s, a) && Calm(a)
    ensures Tracks(c, s) && Tracks(c, Apply(c, s, a))
    ensures Total(c, c.servers, Apply(c, s, a).procs) >= Total(c, c.servers, s.procs) + 1
  {
    var t := Apply(c, s, a);
    RankRises(c, s, a);
    assert t.procs == s.procs[a.i := t.procs[a.i]];
    assert a.i in c.servers;
    TotalRises(c, c.servers, s.procs, a.i, t.procs[a.i]);
  }

  lemma {:induction false} RunRises(c: Epoch, s: State, acts: seq<Action>)
    requires ValidEpoch(c) && CalmInv(c, s) && IsRun(c, s, acts) && AllCalm(acts)
    ensures Tracks(c, s) && Tracks(c, After(c, s, acts))
    ensures Total(c, c.servers, After(c, s, acts).procs) >= Total(c, c.servers, s.procs) + |acts|
    decreases |acts|
  {
    if acts != [] {
      NextCalm(c, s, acts[0]);
      StepRises(c, s, acts[0]);
      RunRises(c, Apply(c, s, acts[0]), acts[1..]);
    }
  }

  lemma TotalRange(c: Epoch, s: State)
    requires ValidEpoch(c) && CalmInv(c, s)
    ensures Tracks(c, s) && 0 <= Total(c, c.servers, s.procs) <= Cap(|c.servers|, MaxRank(c))
  {
    forall n | 0 <= n < |c.servers|
      ensures c.servers[n] in s.procs && 0 <= Rank(c, s.procs[c.servers[n]]) <= MaxRank(c)
    {
      RankBound(c, s, c.servers[n]);
    }
    TotalBound(c, c.servers, s.procs, MaxRank(c));
  }

  lemma CalmRunLength(c: Epoch, s: State, acts: seq<Action>)
    requires ValidEpoch(c) && CalmInv(c, s) && IsRun(c, s, acts) && AllCalm(acts)
    ensures |acts| <= Cap(|c.servers|, MaxRank(c))
  {
    RunCalm(c, s, acts);
    RunRises(c, s, acts);
    TotalRange(c, s);
    TotalRange(c, After(c, s, acts));
  }

  /** Calm runs are bounded in the number of members and steps.  With StopsComplete: whatever
      the order of steps, a failure-free update ends, and it ends with all members complete. */
  lemma CalmRunsBounded(c: Epoch, s0: State, acts: seq<Action>)
    requires ValidEpoch(c) && Init(c, s0) && IsRun(c, s0, acts) && AllCalm(acts)
    ensures |acts| <= |c.servers| * MaxRank(c)
  {
    InitCalm(c, s0);
    CalmRunLength(c, s0, acts);
    CapValue(|c.servers|, MaxRank(c));
  }
}
