/** Where the worker protocol's guarantees end: the planned exit after completion is
    itself a restart, and a restarted worker judges the update by the stored statuses. */
module WorkerLimits {
  import opened Common
  import opened UpdateTypes
  import opened WorkerProtocol
  import opened WorkerSafety
  import opened WorkerProgress

  ghost predicate NoneFinished(c: Epoch, s: State) {
    forall i | i in s.procs :: !s.procs[i].Finished?
  }

  ghost predicate OnlyFinished(c: Epoch, s: State, i: int) {
    i in s.procs && forall j | j in s.procs :: s.procs[j].Finished? <==> j == i
  }

  /** Calm moves left before every worker has finished. */
  ghost function Left(c: Epoch, s: State): int
    requires Tracks(c, s)
  {
    Cap(|c.servers|, MaxRank(c)) - Total(c, c.servers, s.procs)
  }

  lemma LeftFalls(c: Epoch, s: State, a: Action)
    requires ValidEpoch(c) && CalmInv(c, s) && Enabled(c, s, a) && Calm(a)
    ensures Tracks(c, s) && Tracks(c, Apply(c, s, a)) && 0 <= Left(c, Apply(c, s, a)) < Left(c, s)
  {
    NextCalm(c, s, a);
    StepRises(c, s, a);
    TotalRange(c, Apply(c, s, a));
  }

  /** After a calm move from a state without completions, at most the mover has completed. */
  lemma MoverOnly(c: Epoch, s: State, a: Action)
    requires NoneFinished(c, s) && Enabled(c, s, a) && Calm(a)
    ensures var t := Apply(c, s, a);
            a.i in t.procs && if t.procs[a.i].Finished? then OnlyFinished(c, t, a.i) else NoneFinished(c, t)
  {
  }

  lemma OneMove(c: Epoch, s: State, a: Action, rest: seq<Action>)
    requires Enabled(c, s, a) && IsRun(c, Apply(c, s, a), rest)
    ensures IsRun(c, s, [a] + rest) && After(c, s, [a] + rest) == After(c, Apply(c, s, a), rest)
  {
    assert ([a] + rest)[1..] == rest;
  }

  lemma CalmMove(c: Epoch, s: State) returns (a: Action, t: State)
    requires ValidEpoch(c) && CalmInv(c, s) && NoneFinished(c, s) && Members(c) != {}
    ensures Calm(a) && Enabled(c, s, a) && t == Apply(c, s, a) && CalmInv(c, t)
    ensures Tracks(c, s) && Tracks(c, t) && 0 <= Left(c, t) < Left(c, s)
    ensures NoneFinished(c, t) || OnlyFinished(c, t, a.i)
  {
    a := SomeCalmAction(c, s);
    t := Apply(c, s, a);
    NextCalm(c, s, a);
    LeftFalls(c, s, a);
    MoverOnly(c, s, a);
  }

  /** A failure-free run leads to a state u where exactly one member has completed. */
  lemma {:induction false} FirstFinisher(c: Epoch, s: State, left: int) returns (acts: seq<Action>, i: int, u: State)
    requires ValidEpoch(c) && CalmInv(c, s) && NoneFinished(c, s) && Members(c) != {}
    requires Tracks(c, s) && left == Left(c, s)
    ensures AllCalm(acts) && IsRun(c, s, acts) && After(c, s, acts) == u
    ensures CalmInv(c, u) && OnlyFinished(c, u, i)
    decreases left
  {
    var a, t := CalmMove(c, s);
    var rest := [];
    i, u := a.i, t;
    if NoneFinished(c, t) {
      rest, i, u := FirstFinisher(c, t, Left(c, t));
    }
    acts := PrependCalm(c, s, a, rest);
  }

  lemma PrependCalm(c: Epoch, s: State, a: Action, rest: seq<Action>) returns (acts: seq<Action>)
    requires Calm(a) && AllCalm(rest) && Enabled(c, s, a) && IsRun(c, Apply(c, s, a), rest)
    ensures AllCalm(acts) && IsRun(c, s, acts) && After(c, s, acts) == After(c, Apply(c, s, a), rest)
  {
    acts := [a] + rest;
    OneMove(c, s, a, rest);
  }

  lemma SomeCalmAction(c: Epoch, s: State) returns (a: Action)
    requires CalmInv(c, s) && NoneFinished(c, s) && Members(c) != {}
    ensures Calm(a) && Enabled(c, s, a)
  {
    if Stuck(c, s) {
      var i := Element(Members(c));
      StuckFinished(c, s, i);
      assert false;
    }
    a :| Calm(a) && Enabled(c, s, a);
  }

  /** The two moves of a planned restart: the process exits and reads the statuses again. */
  lemma Restart(c: Epoch, s: State, i: int) returns (t: State)
    requires i in s.procs
    ensures IsRun(c, s, [Crash(i), Read(i)]) && After(c, s, [Crash(i), Read(i)]) == t
    ensures t == s.(procs := s.procs[i := Admission(c, i, s.store)])
  {
    var u := Apply(c, s, Crash(i));
    OneMove(c, u, Read(i), []);
    OneMove(c, s, Crash(i), [Read(i)]);
    assert [Crash(i)] + [Read(i)] == [Crash(i), Read(i)] && [Read(i)] + [] == [Read(i)];
    t := Apply(c, u, Read(i));
    assert t.procs == s.procs[i := Admission(c, i, s.store)];
  }

  /** Completion is not stable.  For every request with two or more members and at least two
      steps there is a run without any failure in which the first member to complete, on its
      planned restart, rewrites its own completion as an abort. */
  lemma CompletionOverwritten(c: Epoch, s0: State) returns (acts: seq<Action>, i: int)
    requires ValidEpoch(c) && c.final >= 2 && |Members(c)| >= 2 && Init(c, s0)
    ensures AllCalm(acts) && i in Members(c)
    ensures IsRun(c, s0, acts + [Crash(i), Read(i)] + [Reject(i)])
    ensures var s := After(c, s0, acts + [Crash(i), Read(i)] + [Reject(i)]);
            i in s.store && s.store[i] == Status(c.version, c.final, Abort)
  {
    var s: State;
    acts, i, s := OneCompleted(c, s0);
    FinisherRejects(c, s, i);
    RejectRun(c, s0, acts, s, i, Status(c.version, c.final, Complete));
  }

  /** The first member to complete would turn itself away. */
  lemma FinisherRejects(c: Epoch, s: State, i: int)
    requires ValidEpoch(c) && c.final >= 2 && |Members(c)| >= 2 && CalmInv(c, s) && OnlyFinished(c, s, i)
    ensures i in Members(c) && Admission(c, i, s.store) == Rejecting(Status(c.version, c.final, Complete))
  {
    var j := Other(Members(c), i);
    assert FinishedIsComplete(c, s, i);
    PeerBlocks(c, s, i, j);
  }

  lemma PeerBlocks(c: Epoch, s: State, i: int, j: int)
    requires c.final >= 2 && CalmInv(c, s) && OnlyFinished(c, s, i) && j in Members(c) && j != i
    ensures j in s.store && Blocks(c.version, i, j, s.store[j])
  {
    assert ProcOk(c, s, i) && ProcOk(c, s, j) && FinishedIsComplete(c, s, i) && FinishedIsComplete(c, s, j);
  }

  lemma RejectRun(c: Epoch, s0: State, acts: seq<Action>, s: State, i: int, own: Status)
    requires IsRun(c, s0, acts) && After(c, s0, acts) == s && i in s.procs
    requires Admission(c, i, s.store) == Rejecting(own)
    ensures IsRun(c, s0, acts + [Crash(i), Read(i)] + [Reject(i)])
    ensures var t := After(c, s0, acts + [Crash(i), Read(i)] + [Reject(i)]);
            i in t.store && t.store[i] == own.(cond := Abort)
  {
    var t := Restart(c, s, i);
    RunConcat(c, s0, acts, [Crash(i), Read(i)]);
    OneMove(c, t, Reject(i), []);
    assert [Reject(i)] + [] == [Reject(i)];
    RunConcat(c, s0, acts + [Crash(i), Read(i)], [Reject(i)]);
  }

  lemma OneCompleted(c: Epoch, s0: State) returns (acts: seq<Action>, i: int, s: State)
    requires ValidEpoch(c) && Members(c) != {} && Init(c, s0)
    ensures AllCalm(acts) && IsRun(c, s0, acts) && After(c, s0, acts) == s
    ensures CalmInv(c, s) && OnlyFinished(c, s, i)
  {
    InitCalm(c, s0);
    TotalRange(c, s0);
    acts, i, s := FirstFinisher(c, s0, Left(c, s0));
  }

  lemma Other<T>(b: set<T>, x: T) returns (y: T)
    requires |b| >= 2
    ensures y in b && y != x
  {
    if b - {x} == {} {
      SubsetSize(b, {x});
      assert false;
    }
    y := Element(b - {x});
  }

  /** The restart of a completed member is harmless exactly when all members have completed,
      as long as no server outside the request has put a status of its version. */
  lemma RestartAfterCompletion(c: Epoch, s: State, i: int)
    requires ValidEpoch(c) && c.final >= 2 && Reachable(c, s) && i in s.procs
    requires i in s.store && s.store[i].version == c.version && s.store[i].cond == Complete
    requires forall lrn | lrn in s.store && s.store[lrn].version == c.version :: lrn in Members(c)
    ensures Admission(c, i, s.store) ==
            if UpdateCompleted(c.version, c.servers, s.store) then Idle else Rejecting(s.store[i])
  {
    ReachableInv(c, s);
    assert ProcOk(c, s, i);
    if !UpdateCompleted(c.version, c.servers, s.store) {
      var lrn :| lrn in c.servers &&
                 !(lrn in s.store && s.store[lrn].version == c.version && s.store[lrn].cond == Complete);
      CompletePeers(c, s, i, lrn);
      assert Blocks(c.version, i, lrn, s.store[lrn]);
    }
  }

  /** Each member posts one increasing run of steps in every run of the protocol exactly
      when the request has at least two steps or at most one member. */
  lemma SingleRunExactly(c: Epoch)
    requires ValidEpoch(c)
    ensures (forall s, j | Reachable(c, s) && j in Members(c) :: CountsUp(Steps(c.version, s.log, j)))
            <==> Distinguishable(c)
  {
    if Distinguishable(c) {
      forall s, j | Reachable(c, s) && j in Members(c)
        ensures CountsUp(Steps(c.version, s.log, j))
      {
        SingleRun(c, s, j);
      }
    } else {
      var s, j := JoinsTwice(c);
    }
  }

  /** With one step and two members, a completed member that restarts before its peer has
      completed joins the same request a second time. */
  lemma JoinsTwice(c: Epoch) returns (r: State, i: int)
    requires ValidEpoch(c) && !Distinguishable(c)
    ensures Reachable(c, r) && i in Members(c) && !CountsUp(Steps(c.version, r.log, i))
  {
    var s0 := State([], map[], map lrn | lrn in Members(c) :: Down, {}, {});
    var acts, s;
    acts, i, s := OneCompleted(c, s0);
    AdmittedAgain(c, s, i);
    r := Rejoin(c, s0, acts, i);
    assert ProcOk(c, s, i) && FinishedIsComplete(c, s, i);
    SecondJoin(c, s, r, i);
  }

  lemma Rejoin(c: Epoch, s0: State, acts: seq<Action>, i: int) returns (r: State)
    requires Init(c, s0) && IsRun(c, s0, acts) && i in After(c, s0, acts).procs
    requires Admission(c, i, After(c, s0, acts).store) == Joining
    ensures Reachable(c, r) && r.log == After(c, s0, acts).log + [Event(i, Status(c.version, 1, Running))]
  {
    var t := Restart(c, After(c, s0, acts), i);
    RunConcat(c, s0, acts, [Crash(i), Read(i)]);
    OneMove(c, t, Join(i), []);
    assert [Join(i)] + [] == [Join(i)];
    RunConcat(c, s0, acts + [Crash(i), Read(i)], [Join(i)]);
    r := Apply(c, t, Join(i));
  }

  lemma SecondJoin(c: Epoch, s: State, r: State, i: int)
    requires r.log == s.log + [Event(i, Status(c.version, 1, Running))] && Posted(c, s, i) >= 1
    ensures !CountsUp(Steps(c.version, r.log, i))
  {
    StepsPut(c.version, s.log, Event(i, Status(c.version, 1, Running)), i);
    assert Steps(c.version, r.log, i)[Posted(c, s, i)] == 1;
  }

  lemma AdmittedAgain(c: Epoch, s: State, i: int)
    requires ValidEpoch(c) && !Distinguishable(c) && CalmInv(c, s) && OnlyFinished(c, s, i)
    ensures Admission(c, i, s.store) == Joining
  {
    forall j | j in s.store
      ensures !Blocks(c.version, i, j, s.store[j])
    {
      PeerLetsIn(c, s, i, j);
    }
    var k := Other(Members(c), i);
    PeerIncomplete(c, s, i, k);
  }

  lemma PeerLetsIn(c: Epoch, s: State, i: int, j: int)
    requires ValidEpoch(c) && !Distinguishable(c) && CalmInv(c, s) && OnlyFinished(c, s, i) && j in s.store
    ensures !Blocks(c.version, i, j, s.store[j])
  {
    if s.store[j].version == c.version {
      assert ProcOk(c, s, j) && FinishedIsComplete(c, s, j);
    }
  }

  lemma PeerIncomplete(c: Epoch, s: State, i: int, k: int)
    requires CalmInv(c, s) && OnlyFinished(c, s, i) && k in Members(c) && k != i
    ensures k in c.servers && !UpdateCompleted(c.version, c.servers, s.store)
  {
    assert ProcOk(c, s, k) && FinishedIsComplete(c, s, k);
  }
}
