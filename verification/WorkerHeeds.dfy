/** What a worker has read decides where it stands: whoever has read past something unexpected from a
    member has failed, and who goes on has read every member's steps exactly. */
module WorkerHeeds {
  import opened UpdateTypes
  import opened WorkerProtocol
  import opened WorkerSafety
  import opened WorkerProgress

  /** The worker takes part and has not failed. */
  ghost predicate GoesOn(p: Phase) {
    p.Watching? || p.Executing? || p.Posting? || p.Finished?
  }

  /** Everything it has read from members is a running status of the request, of no later step. */
  ghost predicate Heeds(c: Epoch, log: seq<Event>, l: Local) {
    && l.cursor <= |log|
    && forall k | 0 <= k < l.cursor && log[k].lrn in Members(c) ::
         log[k].st.version == c.version && log[k].st.cond == Running && log[k].st.step <= l.step
  }

  ghost predicate HeedInv(c: Epoch, s: State) {
    && s.procs.Keys == Members(c)
    && (forall k | 0 <= k < |s.log| && s.log[k].lrn in Members(c) :: s.log[k].st.cond != NotRunning)
    && (forall i | i in s.procs && s.procs[i].Posting? :: s.procs[i].st.cond != NotRunning)
    && (forall i | i in s.procs && GoesOn(s.procs[i]) :: Heeds(c, s.log, s.procs[i].l))
  }

  lemma HeedNext(c: Epoch, s: State, a: Action)
    requires HeedInv(c, s) && Enabled(c, s, a)
    ensures HeedInv(c, Apply(c, s, a))
  {
    var t := Apply(c, s, a);
    HeedPuts(c, s, a);
    forall i | i in t.procs && GoesOn(t.procs[i])
      ensures Heeds(c, t.log, t.procs[i].l)
    {
      if i != a.i || a.Stray? {
        HeedsGrow(c, s.log, t.log, s.procs[i].l);
      } else {
        HeedOwn(c, s, a);
      }
    }
  }

  /** Members put nothing but running, complete and aborted statuses. */
  lemma HeedPuts(c: Epoch, s: State, a: Action)
    requires HeedInv(c, s) && Enabled(c, s, a)
    ensures var t := Apply(c, s, a);
            && s.log <= t.log && t.procs.Keys == s.procs.Keys
            && (forall i | i in t.procs && (i != a.i || a.Stray?) :: t.procs[i] == s.procs[i])
            && (forall k | 0 <= k < |t.log| && t.log[k].lrn in Members(c) :: t.log[k].st.cond != NotRunning)
            && (forall i | i in t.procs && t.procs[i].Posting? :: t.procs[i].st.cond != NotRunning)
  {
  }

  lemma HeedsGrow(c: Epoch, log: seq<Event>, more: seq<Event>, l: Local)
    requires Heeds(c, log, l) && log <= more
    ensures Heeds(c, more, l)
  {
  }

  lemma HeedOwn(c: Epoch, s: State, a: Action)
    requires HeedInv(c, s) && Enabled(c, s, a) && !a.Stray? && GoesOn(Apply(c, s, a).procs[a.i])
    ensures var t := Apply(c, s, a); Heeds(c, t.log, t.procs[a.i].l)
  {
    var t := Apply(c, s, a);
    if a.Deliver? {
      HeedDelivered(c, s, a.i);
    } else if GoesOn(s.procs[a.i]) {
      assert Heeds(c, s.log, s.procs[a.i].l);
    }
  }

  lemma HeedDelivered(c: Epoch, s: State, i: int)
    requires HeedInv(c, s) && Enabled(c, s, Deliver(i)) && GoesOn(Apply(c, s, Deliver(i)).procs[i])
    ensures Heeds(c, s.log, Apply(c, s, Deliver(i)).procs[i].l)
  {
    assert Heeds(c, s.log, s.procs[i].l);
  }

  lemma {:induction false} HeedRun(c: Epoch, s: State, acts: seq<Action>)
    requires HeedInv(c, s) && IsRun(c, s, acts)
    ensures HeedInv(c, After(c, s, acts))
    decreases |acts|
  {
    if acts != [] {
      HeedNext(c, s, acts[0]);
      HeedRun(c, Apply(c, s, acts[0]), acts[1..]);
    }
  }

  lemma ReachableHeeds(c: Epoch, s: State)
    requires Reachable(c, s)
    ensures HeedInv(c, s)
  {
    var s0, acts :| Init(c, s0) && IsRun(c, s0, acts) && After(c, s0, acts) == s;
    HeedRun(c, s0, acts);
  }

  /** Bad news is heeded: in every reachable state, a worker that takes part and has not failed has
      read from members nothing but running statuses of the request, of no step after its own; so
      whoever came to a member's abort, its completion or another version has failed. */
  lemma BadNewsHeeded(c: Epoch, s: State, i: int)
    requires Reachable(c, s) && i in s.procs && GoesOn(s.procs[i])
    ensures var l := s.procs[i].l;
            && l.cursor <= |s.log|
            && forall k | 0 <= k < l.cursor && s.log[k].lrn in Members(c) ::
                 s.log[k].st.version == c.version && s.log[k].st.cond == Running && s.log[k].st.step <= l.step
  {
    ReachableHeeds(c, s);
  }

  /** And only that: reading an event of the log makes a worker fail exactly if it is a member's and
      is not a running status of the request and of the worker's own step. */
  lemma FailsExactly(c: Epoch, s: State, i: int)
    requires Reachable(c, s) && Enabled(c, s, Deliver(i))
    ensures var l := s.procs[i].l; var e := s.log[l.cursor];
            Apply(c, s, Deliver(i)).procs[i].Failing? <==>
            e.lrn in Members(c) && e.st != Status(c.version, l.step, Running)
  {
    ReachableHeeds(c, s);
  }

  // ---- Exactly what has been read --------------------------------------------------

  /** The rounds of statuses that the worker has read: complete ones of all steps below its own, and
      of its own step the statuses of those its barrier does not wait for. */
  ghost predicate Rounds(c: Epoch, log: seq<Event>, p: Phase) {
    match p
    case Watching(l) => Seen(c, log, l, l.barrier, l.step)
    case Executing(l) => Seen(c, log, l, {}, l.step)
    case Posting(l, st) => Seen(c, log, l, {}, if st.cond == Complete then l.step else l.step - 1)
    case Finished(l) => Seen(c, log, l, {}, l.step)
    case _ => true
  }

  ghost predicate RoundsInv(c: Epoch, s: State) {
    forall i | i in s.procs :: Rounds(c, s.log, s.procs[i])
  }

  lemma RoundsGrow(c: Epoch, s: State, t: State, i: int)
    requires i in s.procs && Rounds(c, s.log, s.procs[i]) && s.log <= t.log
    ensures Rounds(c, t.log, s.procs[i])
  {
    if GoesOn(s.procs[i]) {
      assert t.log[..s.procs[i].l.cursor] == s.log[..s.procs[i].l.cursor];
    }
  }

  /** Another status of the same step from a member that has arrived cannot come. */
  lemma Awaited(c: Epoch, s: State, l: Local)
    requires Inv(c, s) && l.cursor < |s.log| && Seen(c, s.log, l, l.barrier, l.step)
    requires React(c, l, s.log[l.cursor]).Wait? || React(c, l, s.log[l.cursor]).Fire?
    ensures var j := s.log[l.cursor].lrn;
            j in l.barrier && Seen(c, s.log, l.(cursor := l.cursor + 1), l.barrier - {j}, l.step)
  {
    var e := s.log[l.cursor];
    assert e in s.log && EventOk(c, s, e) && ProcOk(c, s, e.lrn);
    StepIsCount(c, s, l.cursor);
    forall i | i in Members(c)
      ensures Count(c, s.log, l.cursor + 1, i) == if i in l.barrier - {e.lrn} then l.step - 1 else l.step
    {
      CountNext(c, s.log, l.cursor, i);
    }
  }

  lemma SkippedNext(c: Epoch, log: seq<Event>, l: Local)
    requires l.cursor < |log| && log[l.cursor].lrn !in Members(c) && Seen(c, log, l, l.barrier, l.step)
    ensures Seen(c, log, l.(cursor := l.cursor + 1), l.barrier, l.step)
  {
    forall i | i in Members(c)
      ensures Count(c, log, l.cursor + 1, i) == Count(c, log, l.cursor, i)
    {
      CountNext(c, log, l.cursor, i);
    }
  }

  lemma RoundsDeliver(c: Epoch, s: State, i: int)
    requires Inv(c, s) && RoundsInv(c, s) && Enabled(c, s, Deliver(i))
    ensures var t := Apply(c, s, Deliver(i)); Rounds(c, t.log, t.procs[i])
  {
    var l := s.procs[i].l;
    assert Rounds(c, s.log, s.procs[i]);
    var v := React(c, l, s.log[l.cursor]);
    if v.Skip? {
      SkippedNext(c, s.log, l);
    } else if !v.Error? {
      Awaited(c, s, l);
      assert v.Fire? ==> l.barrier - {s.log[l.cursor].lrn} == {};
    }
  }

  lemma RoundsNext(c: Epoch, s: State, a: Action)
    requires Inv(c, s) && RoundsInv(c, s) && Enabled(c, s, a)
    ensures RoundsInv(c, Apply(c, s, a))
  {
    var t := Apply(c, s, a);
    forall i | i in t.procs
      ensures Rounds(c, t.log, t.procs[i])
    {
      if i != a.i || a.Stray? {
        RoundsGrow(c, s, t, i);
      } else if a.Deliver? {
        RoundsDeliver(c, s, i);
      } else {
        assert Rounds(c, s.log, s.procs[i]) && ProcOk(c, s, i);
        RoundsGrow(c, s, t, i);
        RoundsOwn(c, s, a);
      }
    }
  }

  lemma RoundsOwn(c: Epoch, s: State, a: Action)
    requires Enabled(c, s, a) && !a.Stray? && !a.Deliver? && ProcOk(c, s, a.i)
    requires Rounds(c, Apply(c, s, a).log, s.procs[a.i])
    ensures var t := Apply(c, s, a); Rounds(c, t.log, t.procs[a.i])
  {
    if a.Join? {
      var t := Apply(c, s, a);
      assert t.log[..0] == [];
    }
  }

  lemma {:induction false} RoundsRun(c: Epoch, s: State, acts: seq<Action>)
    requires ValidEpoch(c) && Distinguishable(c) && Inv(c, s) && RoundsInv(c, s) && IsRun(c, s, acts)
    ensures RoundsInv(c, After(c, s, acts))
    decreases |acts|
  {
    if acts != [] {
      RoundsNext(c, s, acts[0]);
      NextInv(c, s, acts[0]);
      RoundsRun(c, Apply(c, s, acts[0]), acts[1..]);
    }
  }

  /** Exactly read: in every reachable state, with whatever failures, a worker that waits at step k
      has read from every member the running statuses of steps 1 to k, or to k - 1 if its barrier
      still waits for that member, each once, in order, and nothing else. */
  lemma ReadExactly(c: Epoch, s: State, i: int, j: int)
    requires ValidEpoch(c) && Distinguishable(c) && Reachable(c, s) && j in Members(c)
    requires i in s.procs && s.procs[i].Watching?
    ensures var l := s.procs[i].l;
            && l.cursor <= |s.log| && CountsUp(Steps(c.version, s.log[..l.cursor], j))
            && |Steps(c.version, s.log[..l.cursor], j)| == (if j in l.barrier then l.step - 1 else l.step)
            && forall k | 0 <= k < l.cursor && s.log[k].lrn == j ::
                 s.log[k].st.version == c.version && s.log[k].st.cond == Running
  {
    ReachableRounds(c, s);
    BadNewsHeeded(c, s, i);
    assert Rounds(c, s.log, s.procs[i]) && ProcOk(c, s, j);
    PrefixSteps(c, s.log, s.procs[i].l.cursor, |s.log|, j);
    assert s.log[..|s.log|] == s.log;
  }

  lemma ReachableRounds(c: Epoch, s: State)
    requires ValidEpoch(c) && Distinguishable(c) && Reachable(c, s)
    ensures Inv(c, s) && RoundsInv(c, s)
  {
    var s0, acts :| Init(c, s0) && IsRun(c, s0, acts) && After(c, s0, acts) == s;
    RunInv(c, s0, acts);
    RoundsRun(c, s0, acts);
  }
}
