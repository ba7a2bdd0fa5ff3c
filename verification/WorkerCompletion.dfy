/** How long a stored completion lasts.  A member that restarts judges the update by the statuses it
    reads, and puts what it has concluded later; meanwhile others go on. */
module WorkerCompletion {
  import opened UpdateTypes
  import opened WorkerProtocol
  import opened WorkerSafety
  import opened WorkerLimits

  ghost predicate CompleteIn(c: Epoch, store: map<int, Status>, i: int) {
    i in store && store[i].version == c.version && store[i].cond == Complete
  }

  /** Continuations in which no server outside the request puts a status that reads as aborted;
      unless `faults`, no put, step or watch returns an error either. */
  ghost predicate Undisturbed(c: Epoch, acts: seq<Action>, faults: bool) {
    forall a | a in acts ::
      && (a.Fault? ==> faults)
      && (a.Stray? ==> a.st.version != c.version || a.st.cond == Complete || (a.st.cond != Abort && a.st.step == 1))
  }

  /** The completion of i stays stored in every such continuation. */
  ghost predicate Lasts(c: Epoch, s: State, i: int, faults: bool) {
    forall acts | IsRun(c, s, acts) && Undisturbed(c, acts, faults) :: CompleteIn(c, After(c, s, acts).store, i)
  }

  /** Nothing is on its way that could overwrite a completion of this member: it has not concluded
      anything from an earlier read and is not about to report a failure.  Where errors may come,
      neither has it just put its completion: the reply may still be lost. */
  ghost predicate AtRest(p: Phase, faults: bool) {
    p.Down? || p.Idle? || (p.Finished? && !faults)
  }

  /** A restart of i would find the update complete, and every member is at rest. */
  ghost predicate Settled(c: Epoch, s: State, i: int, faults: bool) {
    && !UpdateAborted(c.version, i, s.store) && UpdateCompleted(c.version, c.servers, s.store)
    && forall j | j in s.procs :: AtRest(s.procs[j], faults)
  }

  // ---- A stored completion and the phase of its owner ------------------------------

  /** Whoever has its completion stored is past its steps. */
  ghost predicate Past(p: Phase) {
    p.Finished? || p.Down? || p.Idle? || p.Rejecting? || p.Failing? || p.Joining?
  }

  ghost predicate PastInv(c: Epoch, s: State) {
    && s.procs.Keys == Members(c)
    && forall j | j in s.procs && CompleteIn(c, s.store, j) :: Past(s.procs[j])
  }

  lemma {:induction false} PastRun(c: Epoch, s: State, acts: seq<Action>)
    requires PastInv(c, s) && IsRun(c, s, acts)
    ensures PastInv(c, After(c, s, acts))
    decreases |acts|
  {
    if acts != [] {
      PastNext(c, s, acts[0]);
      PastRun(c, Apply(c, s, acts[0]), acts[1..]);
    }
  }

  lemma PastNext(c: Epoch, s: State, a: Action)
    requires PastInv(c, s) && Enabled(c, s, a)
    ensures PastInv(c, Apply(c, s, a))
  {
  }

  lemma ReachablePast(c: Epoch, s: State)
    requires Reachable(c, s)
    ensures PastInv(c, s)
  {
    var s0, acts :| Init(c, s0) && IsRun(c, s0, acts) && After(c, s0, acts) == s;
    PastRun(c, s0, acts);
  }

  // ---- Settled completions last ----------------------------------------------------

  /** With all members complete, what blocks one of them blocks any other. */
  lemma BlocksAlike(c: Epoch, s: State, i: int, j: int)
    requires UpdateCompleted(c.version, c.servers, s.store) && i in Members(c) && j in Members(c)
    ensures UpdateAborted(c.version, i, s.store) <==> UpdateAborted(c.version, j, s.store)
  {
    forall lrn | lrn in s.store
      ensures Blocks(c.version, i, lrn, s.store[lrn]) <==> Blocks(c.version, j, lrn, s.store[lrn])
    {
      assert lrn == i || lrn == j ==> CompleteIn(c, s.store, lrn);
    }
  }

  lemma SettledNext(c: Epoch, s: State, a: Action, i: int, faults: bool)
    requires i in Members(c) && s.procs.Keys == Members(c) && Settled(c, s, i, faults)
    requires Enabled(c, s, a) && Undisturbed(c, [a], faults)
    ensures var t := Apply(c, s, a); t.procs.Keys == Members(c) && Settled(c, t, i, faults)
  {
    assert a in [a];
    var t := Apply(c, s, a);
    if a.Stray? {
      forall lrn | lrn in t.store
        ensures !Blocks(c.version, i, lrn, t.store[lrn])
      {
        assert lrn != a.i ==> !Blocks(c.version, i, lrn, s.store[lrn]);
      }
    } else {
      assert AtRest(s.procs[a.i], faults);
      BlocksAlike(c, s, i, a.i);
    }
  }

  lemma {:induction false} SettledRun(c: Epoch, s: State, acts: seq<Action>, i: int, faults: bool)
    requires i in Members(c) && s.procs.Keys == Members(c) && Settled(c, s, i, faults)
    requires IsRun(c, s, acts) && Undisturbed(c, acts, faults)
    ensures CompleteIn(c, After(c, s, acts).store, i)
    decreases |acts|
  {
    if acts != [] {
      assert acts[0] in acts && Undisturbed(c, [acts[0]], faults) && Undisturbed(c, acts[1..], faults);
      SettledNext(c, s, acts[0], i, faults);
      SettledRun(c, Apply(c, s, acts[0]), acts[1..], i, faults);
    }
  }

  // ---- All others can be lost ------------------------------------------------------

  /** A continuation after which i is not complete. */
  ghost predicate Loses(c: Epoch, s: State, acts: seq<Action>, i: int, faults: bool) {
    IsRun(c, s, acts) && Undisturbed(c, acts, faults) && !CompleteIn(c, After(c, s, acts).store, i)
  }

  lemma LosesAfter(c: Epoch, s: State, a: Action, rest: seq<Action>, i: int, faults: bool)
    requires Enabled(c, s, a) && Undisturbed(c, [a], faults) && Loses(c, Apply(c, s, a), rest, i, faults)
    ensures Loses(c, s, [a] + rest, i, faults)
  {
    assert a in [a];
    OneMove(c, s, a, rest);
  }

  /** The put that a member which is not at rest is about to make is not a completion. */
  lemma LosesOwn(c: Epoch, s: State, i: int, faults: bool) returns (acts: seq<Action>)
    requires i in s.procs && (s.procs[i].Rejecting? || s.procs[i].Failing? || s.procs[i].Joining?)
    ensures Loses(c, s, acts, i, faults)
  {
    var a := if s.procs[i].Rejecting? then Reject(i) else if s.procs[i].Failing? then PostAbort(i) else Join(i);
    acts := [a] + [];
    LosesAfter(c, s, a, [], i, faults);
  }

  /** A member that restarts while the update is not complete, or looks aborted, loses its own
      completion: it rewrites it or joins again. */
  lemma RestartLoses(c: Epoch, s: State, i: int, faults: bool) returns (acts: seq<Action>)
    requires i in s.procs && i in s.store
    requires UpdateAborted(c.version, i, s.store) || !UpdateCompleted(c.version, c.servers, s.store)
    ensures Loses(c, s, acts, i, faults)
  {
    var t := Apply(c, s, Crash(i));
    var u := Apply(c, t, Read(i));
    acts := LosesOwn(c, u, i, faults);
    LosesAfter(c, t, Read(i), acts, i, faults);
    LosesAfter(c, s, Crash(i), [Read(i)] + acts, i, faults);
    acts := [Crash(i)] + ([Read(i)] + acts);
  }

  /** The put of a peer that is not at rest leaves the update incomplete. */
  lemma PeerLoses(c: Epoch, s: State, i: int, j: int, faults: bool) returns (acts: seq<Action>)
    requires i in s.procs && j in s.procs && i != j && i in s.store && j in c.servers
    requires s.procs[j].Rejecting? || s.procs[j].Failing? || s.procs[j].Joining?
    ensures Loses(c, s, acts, i, faults)
  {
    var a := if s.procs[j].Rejecting? then Reject(j) else if s.procs[j].Failing? then PostAbort(j) else Join(j);
    var t := Apply(c, s, a);
    assert !CompleteIn(c, t.store, j);
    acts := RestartLoses(c, t, i, faults);
    LosesAfter(c, s, a, acts, i, faults);
    acts := [a] + acts;
  }

  lemma UnrestLoses(c: Epoch, s: State, i: int, j: int, faults: bool) returns (acts: seq<Action>)
    requires PastInv(c, s) && i in Members(c) && UpdateCompleted(c.version, c.servers, s.store)
    requires j in s.procs && !AtRest(s.procs[j], faults)
    ensures Loses(c, s, acts, i, faults)
  {
    assert CompleteIn(c, s.store, i) && CompleteIn(c, s.store, j);
    var t := if s.procs[j].Finished? then Apply(c, s, Fault(j)) else s;
    if i == j {
      acts := LosesOwn(c, t, i, faults);
    } else {
      acts := PeerLoses(c, t, i, j, faults);
    }
    if s.procs[j].Finished? {
      LosesAfter(c, s, Fault(j), acts, i, faults);
      acts := [Fault(j)] + acts;
    }
  }

  /** Exactly when a stored completion is stable: in every reachable state, whatever the number of
      steps and members, it stays in every undisturbed continuation if and only if a restart now
      would find the update complete and every member is at rest. */
  lemma CompletionLastsExactly(c: Epoch, s: State, i: int, faults: bool)
    requires Reachable(c, s) && i in Members(c) && CompleteIn(c, s.store, i)
    ensures Lasts(c, s, i, faults) <==> Settled(c, s, i, faults)
  {
    ReachablePast(c, s);
    if Settled(c, s, i, faults) {
      forall acts | IsRun(c, s, acts) && Undisturbed(c, acts, faults)
        ensures CompleteIn(c, After(c, s, acts).store, i)
      {
        SettledRun(c, s, acts, i, faults);
      }
    } else {
      var acts;
      if UpdateAborted(c.version, i, s.store) || !UpdateCompleted(c.version, c.servers, s.store) {
        acts := RestartLoses(c, s, i, faults);
      } else {
        var j :| j in s.procs && !AtRest(s.procs[j], faults);
        acts := UnrestLoses(c, s, i, j, faults);
      }
      assert Loses(c, s, acts, i, faults);
    }
  }
}
