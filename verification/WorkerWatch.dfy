/** A worker's whole watch, with arbitrary actions of the other servers before each delivery, is a
    run of the state machine that logs exactly the statuses the watch puts. */
module WorkerWatch {
  import opened UpdateTypes
  import opened WorkerProtocol
  import opened Worker

  /** The statuses server i has put, oldest first. */
  function Own(log: seq<Event>, i: int): seq<Status> {
    if log == [] then []
    else Own(log[..|log| - 1], i) + if log[|log| - 1].lrn == i then [log[|log| - 1].st] else []
  }

  lemma OwnAppend(log: seq<Event>, e: Event, i: int)
    ensures Own(log + [e], i) == Own(log, i) + if e.lrn == i then [e.st] else []
  {
    assert (log + [e])[..|log|] == log;
  }

  lemma {:induction false} OwnReports(log: seq<Event>, i: int, puts: seq<Status>)
    ensures Own(log + Reports(i, puts), i) == Own(log, i) + puts
  {
    if puts == [] {
      assert log + Reports(i, puts) == log;
    } else {
      var n := |puts| - 1;
      OwnReports(log, i, puts[..n]);
      OwnAppend(log + Reports(i, puts[..n]), Event(i, puts[n]), i);
      assert Reports(i, puts) == Reports(i, puts[..n]) + [Event(i, puts[n])];
      assert log + Reports(i, puts) == (log + Reports(i, puts[..n])) + [Event(i, puts[n])];
      assert puts == puts[..n] + [puts[n]];
    }
  }

  ghost predicate ByOthers(acts: seq<Action>, i: int) {
    forall a | a in acts :: a.i != i
  }

  lemma OtherStep(c: Epoch, s: State, a: Action, i: int)
    requires Enabled(c, s, a) && a.i != i && i in s.procs
    ensures var t := Apply(c, s, a);
            i in t.procs && t.procs[i] == s.procs[i] && Own(t.log, i) == Own(s.log, i)
  {
    LogsOwn(c, s, a);
    var t := Apply(c, s, a);
    if t.log != s.log {
      OwnAppend(s.log, t.log[|s.log|], i);
    }
  }

  lemma LogsOwn(c: Epoch, s: State, a: Action)
    requires Enabled(c, s, a)
    ensures var t := Apply(c, s, a);
            t.log == s.log || (|t.log| == |s.log| + 1 && t.log == s.log + [t.log[|s.log|]] && t.log[|s.log|].lrn == a.i)
  {
  }

  lemma {:induction false} OthersStep(c: Epoch, s: State, acts: seq<Action>, i: int)
    requires IsRun(c, s, acts) && ByOthers(acts, i) && i in s.procs
    ensures var t := After(c, s, acts);
            i in t.procs && t.procs[i] == s.procs[i] && Own(t.log, i) == Own(s.log, i)
    decreases |acts|
  {
    if acts != [] {
      assert acts[0] in acts;
      OtherStep(c, s, acts[0], i);
      OthersStep(c, Apply(c, s, acts[0]), acts[1..], i);
    }
  }

  /** The phase a watching worker is in after a turn; a stop lets it go as it is. */
  ghost function PhaseAfter(t: Turn, stopped: bool): Phase {
    if t.err then Failing(t.l) else if t.done && !stopped then Finished(t.l) else Watching(t.l)
  }

  ghost predicate IsStop(d: Delivery) {
    d.Current? && d.req.stop
  }

  /** The actions one delivery stands for, with the put of an abort after an error. */
  ghost function DeliveryActs(c: Epoch, i: int, l: Local, d: Delivery, o: Outcome): seq<Action> {
    if IsStop(d) then []
    else
      (if d.Report? then Moves(c, i, l, d.e, o) else [Fault(i)]) +
      if DeliveryTurn(c, l, d, o).err && o.abortOk then [PostAbort(i)] else []
  }

  /** What the worker puts on one delivery, with the abort after an error. */
  ghost function DeliveryPuts(c: Epoch, l: Local, d: Delivery, o: Outcome): seq<Status> {
    var t := DeliveryTurn(c, l, d, o);
    t.puts + if t.err && o.abortOk then [Status(c.version, t.l.step, Abort)] else []
  }

  ghost predicate Delivers(s: State, i: int, d: Delivery) {
    && i in s.procs && s.procs[i].Watching?
    && (d.Report? ==> s.procs[i].l.cursor < |s.log| && d.e == s.log[s.procs[i].l.cursor])
  }

  lemma FailedThenAbort(c: Epoch, s: State, i: int, abortOk: bool) returns (t: State)
    requires i in s.procs && s.procs[i].Failing?
    ensures var acts := if abortOk then [PostAbort(i)] else [];
            && IsRun(c, s, acts) && After(c, s, acts) == t && t.procs == s.procs
            && Own(t.log, i) == Own(s.log, i) + if abortOk then [Status(c.version, s.procs[i].l.step, Abort)] else []
  {
    t := s;
    if abortOk {
      t := Apply(c, s, PostAbort(i));
      assert [PostAbort(i)][1..] == [];
      assert IsRun(c, t, [PostAbort(i)][1..]);
      OwnAppend(s.log, t.log[|s.log|], i);
      assert t.procs == s.procs;
    }
  }

  /** The handler itself, without the abort that may follow. */
  lemma HandleOne(c: Epoch, s: State, i: int, d: Delivery, o: Outcome) returns (acts: seq<Action>, t: State)
    requires Delivers(s, i, d) && !IsStop(d)
    ensures acts == if d.Report? then Moves(c, i, s.procs[i].l, d.e, o) else [Fault(i)]
    ensures IsRun(c, s, acts) && After(c, s, acts) == t
    ensures var u := DeliveryTurn(c, s.procs[i].l, d, o);
            && Own(t.log, i) == Own(s.log, i) + u.puts
            && i in t.procs && t.procs[i] == PhaseAfter(u, false)
  {
    if d.Report? {
      acts := Moves(c, i, s.procs[i].l, d.e, o);
      HandlerIsRun(c, s, i, o);
      OwnReports(s.log, i, DeliveryTurn(c, s.procs[i].l, d, o).puts);
    } else {
      acts := [Fault(i)];
      assert acts[1..] == [];
      assert IsRun(c, Apply(c, s, Fault(i)), acts[1..]);
    }
    t := After(c, s, acts);
  }

  /** A handler's run, followed by the put of an abort after an error. */
  lemma WithAbort(c: Epoch, s: State, i: int, acts: seq<Action>, m: State, u: Turn, abortOk: bool) returns (t: State)
    requires IsRun(c, s, acts) && After(c, s, acts) == m && Own(m.log, i) == Own(s.log, i) + u.puts
    requires i in m.procs && m.procs[i] == PhaseAfter(u, false)
    ensures var tail := if u.err && abortOk then [PostAbort(i)] else [];
            IsRun(c, s, acts + tail) && After(c, s, acts + tail) == t
    ensures i in t.procs && t.procs[i] == m.procs[i]
    ensures Own(t.log, i) ==
            Own(s.log, i) + (u.puts + if u.err && abortOk then [Status(c.version, u.l.step, Abort)] else [])
  {
    t := m;
    if u.err && abortOk {
      t := FailedThenAbort(c, m, i, true);
      RunConcat(c, s, acts, [PostAbort(i)]);
    } else {
      assert acts + [] == acts && u.puts + [] == u.puts;
    }
  }

  lemma DeliverOne(c: Epoch, s: State, i: int, d: Delivery, o: Outcome) returns (t: State)
    requires Delivers(s, i, d)
    ensures var l := s.procs[i].l;
            && IsRun(c, s, DeliveryActs(c, i, l, d, o)) && After(c, s, DeliveryActs(c, i, l, d, o)) == t
            && Own(t.log, i) == Own(s.log, i) + DeliveryPuts(c, l, d, o)
            && i in t.procs && t.procs[i] == PhaseAfter(DeliveryTurn(c, l, d, o), IsStop(d))
  {
    if IsStop(d) {
      t := s;
    } else {
      var acts, m := HandleOne(c, s, i, d, o);
      t := WithAbort(c, s, i, acts, m, DeliveryTurn(c, s.procs[i].l, d, o), o.abortOk);
    }
  }

  /** The deliveries are the events at the worker's cursor as the log grows: before each one the
      others act, and the watch goes on from the state it leaves. */
  ghost predicate Watches(c: Epoch, s: State, i: int, ds: seq<Delivery>, os: seq<Outcome>, env: seq<seq<Action>>)
    requires |ds| == |os| == |env|
    decreases |ds|
  {
    && i in s.procs && s.procs[i].Watching?
    && (ds != [] ==>
        && IsRun(c, s, env[0]) && ByOthers(env[0], i)
        && var m := After(c, s, env[0]);
           && Delivers(m, i, ds[0])
           && var l := m.procs[i].l; var u := DeliveryTurn(c, l, ds[0], os[0]);
              (u.err || u.done ||
               (IsRun(c, m, DeliveryActs(c, i, l, ds[0], os[0])) &&
                Watches(c, After(c, m, DeliveryActs(c, i, l, ds[0], os[0])), i, ds[1..], os[1..], env[1..]))))
  }

  /** One round of the watch: the others act, then one delivery is handled. */
  lemma WatchOne(c: Epoch, s: State, i: int, ds: seq<Delivery>, os: seq<Outcome>, env: seq<seq<Action>>)
    returns (acts: seq<Action>, t: State)
    requires |ds| == |os| == |env| && ds != [] && Watches(c, s, i, ds, os, env)
    ensures IsRun(c, s, acts) && After(c, s, acts) == t && i in t.procs
    ensures var l := s.procs[i].l; var u := DeliveryTurn(c, l, ds[0], os[0]);
            && Own(t.log, i) == Own(s.log, i) + DeliveryPuts(c, l, ds[0], os[0])
            && t.procs[i] == PhaseAfter(u, IsStop(ds[0]))
            && (!u.err && !u.done ==> Watches(c, t, i, ds[1..], os[1..], env[1..]))
  {
    var m := After(c, s, env[0]);
    OthersStep(c, s, env[0], i);
    t := DeliverOne(c, m, i, ds[0], os[0]);
    var own := DeliveryActs(c, i, m.procs[i].l, ds[0], os[0]);
    RunConcat(c, s, env[0], own);
    acts := env[0] + own;
  }

  lemma TurnOne(c: Epoch, l: Local, puts: seq<Status>, ds: seq<Delivery>, os: seq<Outcome>)
    requires |ds| == |os| && ds != []
    ensures var u := DeliveryTurn(c, l, ds[0], os[0]);
            WatchTurn(c, l, puts, ds, os) ==
            if u.err || u.done then u.(puts := puts + DeliveryPuts(c, l, ds[0], os[0]))
            else WatchTurn(c, u.l, puts + DeliveryPuts(c, l, ds[0], os[0]), ds[1..], os[1..])
  {
    var u := DeliveryTurn(c, l, ds[0], os[0]);
    var abort := [Status(c.version, u.l.step, Abort)];
    assert u.puts + [] == u.puts && (puts + u.puts) + [] == puts + u.puts;
    assert (puts + u.puts) + abort == puts + (u.puts + abort);
  }

  /** The last delivery that the watch handles is a stop. */
  ghost predicate EndsWithStop(c: Epoch, l: Local, ds: seq<Delivery>, os: seq<Outcome>)
    requires |ds| == |os|
    decreases |ds|
  {
    ds != [] &&
    (IsStop(ds[0]) ||
     var u := DeliveryTurn(c, l, ds[0], os[0]);
     !u.err && !u.done && EndsWithStop(c, u.l, ds[1..], os[1..]))
  }

  /** The watch is a run: interleaved with what the others do, the worker's own actions log exactly
      the statuses of the turn and leave it failing after an error, finished when it is done, and
      as it was when a stop ends it. */
  lemma {:induction false} WatchIsRun(c: Epoch, s: State, i: int,
                                      ds: seq<Delivery>, os: seq<Outcome>, env: seq<seq<Action>>)
    returns (acts: seq<Action>, t: State)
    requires |ds| == |os| == |env| && Watches(c, s, i, ds, os, env)
    ensures IsRun(c, s, acts) && After(c, s, acts) == t
    ensures var u := WatchTurn(c, s.procs[i].l, Own(s.log, i), ds, os);
            && Own(t.log, i) == u.puts && i in t.procs
            && t.procs[i] == PhaseAfter(u, EndsWithStop(c, s.procs[i].l, ds, os))
    decreases |ds|
  {
    if ds == [] {
      acts, t := [], s;
    } else {
      TurnOne(c, s.procs[i].l, Own(s.log, i), ds, os);
      acts, t := WatchOne(c, s, i, ds, os, env);
      var u := DeliveryTurn(c, s.procs[i].l, ds[0], os[0]);
      if !u.err && !u.done {
        var m, rest := t, [];
        rest, t := WatchIsRun(c, m, i, ds[1..], os[1..], env[1..]);
        RunConcat(c, s, acts, rest);
        acts := acts + rest;
      }
    }
  }
}
