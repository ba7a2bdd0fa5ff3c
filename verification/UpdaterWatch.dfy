/** The updater's incremental test on the statuses that the worker protocol really puts. */
module UpdaterWatch {
  import opened Common
  import opened UpdateTypes
  import opened WorkerProtocol
  import opened WorkerSafety
  import opened Updater

  lemma {:induction false} ReplayAppend(st0: map<int, Status>, a: seq<Event>, b: seq<Event>)
    ensures Replay(st0, a + b) == Replay(Replay(st0, a), b)
  {
    if b == [] {
      assert a + b == a;
    } else {
      var n := |b| - 1;
      assert (a + b)[..|a + b| - 1] == a + b[..n];
      ReplayAppend(st0, a, b[..n]);
    }
  }

  lemma OneReplayed(c: Epoch, s: State, a: Action) returns (first: seq<Event>)
    requires Enabled(c, s, a)
    ensures var t := Apply(c, s, a); t.log == s.log + first && t.store == Replay(s.store, first)
  {
    first := Apply(c, s, a).log[|s.log|..];
    assert first == [] || (|first| == 1 && first[..0] == []);
  }

  /** A run only appends to the log, and the store is the replay of what it appends. */
  lemma {:induction false} StoreIsReplay(c: Epoch, s: State, acts: seq<Action>) returns (events: seq<Event>)
    requires IsRun(c, s, acts)
    ensures After(c, s, acts).log == s.log + events
    ensures After(c, s, acts).store == Replay(s.store, events)
    decreases |acts|
  {
    if acts == [] {
      events := [];
    } else {
      var t := Apply(c, s, acts[0]);
      var first := OneReplayed(c, s, acts[0]);
      var rest := StoreIsReplay(c, t, acts[1..]);
      events := first + rest;
      ReplayAppend(s.store, first, rest);
    }
  }

  lemma {:induction false} FoldedOrigin(req: Request, st0: map<int, Status>, events: seq<Event>, lrn: int)
    requires lrn in Folded(req, st0, events) && Folded(req, st0, events)[lrn].version == req.version
    ensures || (lrn in st0 && st0[lrn].version == req.version)
            || exists e | e in events :: e.lrn == lrn && e.st.version == req.version
  {
    if events != [] {
      var n := |events| - 1;
      if events[n].lrn == lrn && events[n].st.version == req.version {
        assert events[n] in events;
      } else {
        FoldedOrigin(req, st0, events[..n], lrn);
      }
    }
  }

  lemma {:induction false} PostedGrows(c: Epoch, s: State, acts: seq<Action>, j: int)
    requires IsRun(c, s, acts)
    ensures Posted(c, After(c, s, acts), j) >= Posted(c, s, j)
    decreases |acts|
  {
    if acts != [] {
      var t := Apply(c, s, acts[0]);
      if t.log != s.log {
        StepsPut(c.version, s.log, t.log[|s.log|], j);
      }
      PostedGrows(c, t, acts[1..], j);
    }
  }

  /** A member whose status of this version the updater has once seen still has one. */
  lemma SeenMemberIsCurrent(c: Epoch, s: State, acts: seq<Action>, req: Request, events: seq<Event>, lrn: int)
    requires ValidEpoch(c) && Inv(c, s) && IsRun(c, s, acts) && Inv(c, After(c, s, acts))
    requires req.version == c.version && lrn in Members(c)
    requires After(c, s, acts).log == s.log + events
    requires lrn in Folded(req, s.store, events) && Folded(req, s.store, events)[lrn].version == req.version
    ensures var t := After(c, s, acts); lrn in t.store && t.store[lrn].version == c.version
  {
    var t := After(c, s, acts);
    FoldedOrigin(req, s.store, events, lrn);
    assert ProcOk(c, s, lrn) && ProcOk(c, t, lrn);
    if lrn in s.store && s.store[lrn].version == c.version {
      PostedGrows(c, s, acts, lrn);
    } else {
      var e :| e in events && e.lrn == lrn && e.st.version == req.version;
      assert e in t.log;
      assert EventOk(c, t, e);
    }
  }

  /** When the updater's watch over the workers' puts ends, the next decision on the same
      request, taken from a fresh snapshot at that revision, is never to wait for workers, and the
      snapshot shows an abort exactly if the watch ended with one. */
  lemma WatchEndsDecided(c: Epoch, s: State, acts: seq<Action>, req: Request, events: seq<Event>,
                         ss: Snapshot, expired: bool, parse: Parser)
    requires ValidEpoch(c) && Distinguishable(c) && Reachable(c, s) && IsRun(c, s, acts)
    requires req.version == c.version && req.servers == c.servers
    requires After(c, s, acts).log == s.log + events && events != []
    requires !Decided(req, s.store) && Ends(req, s.store, events)
    requires forall k | 1 <= k < |events| :: !Ends(req, s.store, events[..k])
    requires ss.request == Some(req) && ss.statuses == After(c, s, acts).store
    ensures Decided(req, ss.statuses)
    ensures HasAbort(req.version, ss.statuses) <==> events[|events| - 1].st.cond == Abort
    ensures NextAction(ss, expired, parse) != WaitWorkers
  {
    ReachableInv(c, s);
    RunInv(c, s, acts);
    var ev := StoreIsReplay(c, s, acts);
    assert ev == (s.log + ev)[|s.log|..] == (s.log + events)[|s.log|..] == events;
    EndIsDecided(req, s.store, events);
    if events[|events| - 1].st.cond != Abort {
      forall lrn | lrn in req.servers
        ensures lrn in ss.statuses && ss.statuses[lrn].version == req.version
      {
        SeenMemberIsCurrent(c, s, acts, req, events, lrn);
      }
    }
  }
}
