/** One neco-worker as the program it is: an object whose handlers update its step and
    barrier and put statuses, driven by a watch.  Each method is tied to the pure
    transition of the protocol, and one handler call to a run of the state machine. */
module Worker {
  import opened UpdateTypes
  import opened WorkerProtocol

  /** What the watch under `status/` delivers; a broken response ends it. */
  datatype Delivery = Current(req: Request) | Report(e: Event) | Broken

  /** How the outside world answers around one delivery: RunStep, the put that follows it, and
      the put of an abort after an error. */
  datatype Outcome = Outcome(stepOk: bool, putOk: bool, abortOk: bool)

  /** Effect of handler calls: new local state, statuses put, and the two results. */
  datatype Turn = Turn(l: Local, puts: seq<Status>, done: bool, err: bool)

  ghost function StepTurn(c: Epoch, l: Local, o: Outcome): Turn {
    if !o.stepOk then
      Turn(l, if o.putOk then [Status(c.version, l.step, Abort)] else [], false, true)
    else
      var (l', st) := AfterStep(c, l);
      if o.putOk then Turn(l', [st], st.cond == Complete, false) else Turn(l', [], false, true)
  }

  ghost function StatusTurn(c: Epoch, l: Local, e: Event, o: Outcome): Turn {
    match React(c, l, e)
    case Skip => Turn(l.(cursor := l.cursor + 1), [], false, false)
    case Error => Turn(l, [], false, true)
    case Wait(b) => Turn(l.(barrier := b, cursor := l.cursor + 1), [], false, false)
    case Fire => StepTurn(c, l.(barrier := {}, cursor := l.cursor + 1), o)
  }

  ghost function DeliveryTurn(c: Epoch, l: Local, d: Delivery, o: Outcome): Turn {
    match d
    case Current(req) => Turn(l, [], req.stop, !req.stop)
    case Report(e) => StatusTurn(c, l, e, o)
    case Broken => Turn(l, [], false, true)
  }

  /** The whole watch, from the statuses `puts` so far: handle deliveries in order until one
      completes or fails; a failure is followed by one more put of an Abort status. */
  ghost function WatchTurn(c: Epoch, l: Local, puts: seq<Status>, ds: seq<Delivery>, os: seq<Outcome>): Turn
    requires |ds| == |os|
    decreases |ds|
  {
    if ds == [] then Turn(l, puts, false, false) else
    var t := DeliveryTurn(c, l, ds[0], os[0]);
    if t.err then
      t.(puts := puts + t.puts + if os[0].abortOk then [Status(c.version, t.l.step, Abort)] else [])
    else if t.done then
      t.(puts := puts + t.puts)
    else
      WatchTurn(c, t.l, puts + t.puts, ds[1..], os[1..])
  }

  /** Barrier over the listed servers. */
  method NewBarrier(lrns: seq<int>) returns (b: set<int>)
    ensures b == set lrn | lrn in lrns
  {
    b := {};
    for k := 0 to |lrns|
      invariant b == set lrn | lrn in lrns[..k]
    {
      b := b + {lrns[k]};
    }
  }

  class Process {
    const mylrn: int
    const final: int
    var req: Request
    var step: int
    var barrier: set<int>
    var cursor: nat             // deliveries of statuses handled so far
    var puts: seq<Status>       // statuses put under the own key, oldest first

    ghost function Asked(): Epoch
      reads this`req
    {
      Epoch(req.version, req.servers, final)
    }

    ghost function Held(): Local
      reads this
    {
      Local(step, barrier, cursor)
    }

    /** The state and results a call leaves behind are those of the turn `t`. */
    twostate predicate Took(t: Turn, done: bool, err: bool)
      reads this
    {
      Held() == t.l && puts == old(puts) + t.puts && done == t.done && err == t.err
    }

    constructor (mylrn: int, final: int, req: Request)
      ensures this.mylrn == mylrn && this.final == final && this.req == req && puts == []
    {
      this.mylrn, this.final, this.req := mylrn, final, req;
      puts, cursor := [], 0;
    }

    /** Arrival of one server; true when nobody is awaited any more. */
    method Check(lrn: int) returns (full: bool)
      modifies this`barrier
      ensures barrier == old(barrier) - {lrn} && full == (barrier == {})
    {
      barrier := barrier - {lrn};
      full := barrier == {};
    }

    method PutStatus(st: Status, ok: bool)
      modifies this`puts
      ensures puts == old(puts) + if ok then [st] else []
    {
      if ok { puts := puts + [st]; }
    }

    method RunStep(o: Outcome) returns (done: bool, err: bool)
      modifies this`step, this`barrier, this`puts
      ensures Took(StepTurn(Asked(), old(Held()), o), done, err)
    {
      if !o.stepOk {
        PutStatus(Status(req.version, step, Abort), o.putOk);
        return false, true;
      }
      if step != final {
        step := step + 1;
        barrier := NewBarrier(req.servers);
        PutStatus(Status(req.version, step, Running), o.putOk);
        return false, !o.putOk;
      }
      PutStatus(Status(req.version, step, Complete), o.putOk);
      return o.putOk, !o.putOk;
    }

    method HandleWorkerStatus(e: Event, o: Outcome) returns (done: bool, err: bool)
      modifies this`step, this`barrier, this`puts, this`cursor
      ensures Took(StatusTurn(Asked(), old(Held()), e, o), done, err)
    {
      if !IsMember(req.servers, e.lrn) {
        cursor := cursor + 1;
        return false, false;
      }
      if e.st.version != req.version { return false, true; }
      if e.st.cond == Abort { return false, true; }
      if e.st.step != step { return false, true; }
      if e.st.cond == Complete { return false, true; }
      cursor := cursor + 1;
      var full := Check(e.lrn);
      if full {
        done, err := RunStep(o);
        return;
      }
      return false, false;
    }

    method HandleCurrent(r: Request) returns (done: bool, err: bool)
      ensures done == r.stop && err == !r.stop
    {
      if r.stop { return true, false; }
      return false, true;
    }

    method RegisterAbort(ok: bool)
      modifies this`puts
      ensures puts == old(puts) + if ok then [Status(req.version, step, Abort)] else []
    {
      PutStatus(Status(req.version, step, Abort), ok);
    }

    method Dispatch(d: Delivery, o: Outcome) returns (done: bool, err: bool)
      modifies this`step, this`barrier, this`puts, this`cursor
      ensures Took(DeliveryTurn(Asked(), old(Held()), d, o), done, err)
    {
      match d
      case Current(r) => done, err := HandleCurrent(r);
      case Report(e) => done, err := HandleWorkerStatus(e, o);
      case Broken => done, err := false, true;
    }

    /** The watch loop: in order, until a handler completes or fails; `n` deliveries are reached.  A
        member's abort, completion or foreign version among them is an error, and so are a new
        request and a broken response; after an error the last thing put is an abort. */
    method Watch(ds: seq<Delivery>, os: seq<Outcome>) returns (done: bool, err: bool, ghost n: nat)
      requires |ds| == |os|
      modifies this`step, this`barrier, this`puts, this`cursor
      ensures Turn(Held(), puts, done, err) == WatchTurn(Asked(), old(Held()), old(puts), ds, os)
      ensures n <= |ds| && (!done && !err ==> n == |ds|) && !(done && err)
      ensures !err ==> forall k | 0 <= k < n :: !ds[k].Broken? && (ds[k].Current? ==> ds[k].req.stop)
      ensures !err ==> forall k | 0 <= k < n && ds[k].Report? && ds[k].e.lrn in req.servers ::
                         ds[k].e.st.version == req.version && ds[k].e.st.cond != Abort && ds[k].e.st.cond != Complete
      ensures err ==> n > 0
      ensures err && os[n - 1].abortOk ==> puts != [] && puts[|puts| - 1] == Status(req.version, step, Abort)
    {
      done, err, n := false, false, 0;
      for k := 0 to |ds|
        invariant !done && !err && n == k
        invariant WatchTurn(Asked(), old(Held()), old(puts), ds, os) ==
                  WatchTurn(Asked(), Held(), puts, ds[k..], os[k..])
        invariant forall j | 0 <= j < k :: !ds[j].Broken? && (ds[j].Current? ==> ds[j].req.stop)
        invariant forall j | 0 <= j < k && ds[j].Report? && ds[j].e.lrn in req.servers ::
                    ds[j].e.st.version == req.version && ds[j].e.st.cond != Abort && ds[j].e.st.cond != Complete
      {
        assert ds[k..][1..] == ds[k + 1..] && os[k..][1..] == os[k + 1..];
        done, err := Dispatch(ds[k], os[k]);
        n := k + 1;
        if err {
          RegisterAbort(os[k].abortOk);
          return;
        }
        if done { return; }
      }
    }

    /** Post step 1 and watch everything since the request. */
    method Update(ds: seq<Delivery>, os: seq<Outcome>, putOk: bool) returns (done: bool, err: bool)
      requires |ds| == |os|
      modifies this`step, this`barrier, this`puts, this`cursor
      ensures !putOk ==> !done && err && puts == old(puts) && Held() == old(Held())
      ensures putOk ==>
                Turn(Held(), puts, done, err) ==
                WatchTurn(Asked(), Local(1, Members(Asked()), 0), old(puts) + [Status(req.version, 1, Running)], ds, os)
    {
      PutStatus(Status(req.version, 1, Running), putOk);
      if !putOk { return false, true; }
      step := 1;
      cursor := 0;
      barrier := NewBarrier(req.servers);
      ghost var n;
      done, err, n := Watch(ds, os);
    }
  }

  /** The machine actions one handler call stands for. */
  ghost function Moves(c: Epoch, i: int, l: Local, e: Event, o: Outcome): seq<Action> {
    if !React(c, l, e).Fire? then [Deliver(i)]
    else if o.stepOk then [Deliver(i), Succeed(i), if o.putOk then Post(i) else Fault(i)]
    else [Deliver(i), Fault(i)] + if o.putOk then [PostAbort(i)] else []
  }

  function Reports(i: int, puts: seq<Status>): seq<Event> {
    seq(|puts|, k requires 0 <= k < |puts| => Event(i, puts[k]))
  }

  /** One handler call on the next log event is a run of the state machine: it logs exactly
      the statuses put and leaves the worker watching, finished or failing as returned. */
  lemma HandlerIsRun(c: Epoch, s: State, i: int, o: Outcome)
    requires i in s.procs && s.procs[i].Watching? && s.procs[i].l.cursor < |s.log|
    ensures var l := s.procs[i].l; var e := s.log[l.cursor];
            var t := StatusTurn(c, l, e, o); var acts := Moves(c, i, l, e, o);
            && IsRun(c, s, acts)
            && After(c, s, acts).log == s.log + Reports(i, t.puts)
            && After(c, s, acts).procs ==
               s.procs[i := if t.err then Failing(t.l) else if t.done then Finished(t.l) else Watching(t.l)]
  {
    var l := s.procs[i].l;
    var e := s.log[l.cursor];
    var t := StatusTurn(c, l, e, o);
    var acts := Moves(c, i, l, e, o);
    var s1 := Apply(c, s, acts[0]);
    RunStart(c, s, acts);
    if React(c, l, e).Fire? {
      var s2 := Apply(c, s1, acts[1]);
      RunStart(c, s1, acts[1..]);
      if |acts| == 3 {
        RunStart(c, s2, acts[1..][1..]);
        assert acts[1..][1..][1..] == [];
      } else {
        assert acts[1..][1..] == [];
      }
    } else {
      assert acts[1..] == [];
    }
    assert After(c, s, acts).log == s.log + Reports(i, t.puts);
  }

  lemma RunStart(c: Epoch, s: State, acts: seq<Action>)
    requires acts != [] && Enabled(c, s, acts[0])
    ensures IsRun(c, s, acts) <==> IsRun(c, Apply(c, s, acts[0]), acts[1..])
    ensures IsRun(c, s, acts) ==> After(c, s, acts) == After(c, Apply(c, s, acts[0]), acts[1..])
  {
  }
}
