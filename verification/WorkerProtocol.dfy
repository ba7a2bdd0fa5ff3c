/** The workers of one update request as a state machine over an etcd log.

    An epoch is the life of one put of `status/current`.  The log holds the puts
    under `status/bootservers/` made since then; every worker that takes part
    reads the whole log from its start.  Each atomic step below is one etcd
    operation, one watch delivery, or one outcome of a local update step. */
module WorkerProtocol {
  import opened UpdateTypes

  /** The request of the epoch and the number of the last update step. */
  datatype Epoch = Epoch(version: string, servers: seq<int>, final: int)

  ghost predicate ValidEpoch(c: Epoch) {
    c.final >= 1
  }

  ghost function Members(c: Epoch): set<int> {
    set lrn | lrn in c.servers
  }

  /** What a worker keeps while it takes part: its step, the servers its barrier
      still waits for, and how far it has read the log. */
  datatype Local = Local(step: int, barrier: set<int>, cursor: nat)

  /** Program point of a worker process. */
  datatype Phase =
    | Down                              // not running, or not yet past reading the request
    | Rejecting(own: Status)            // judged aborted; about to rewrite its own status
    | Idle                              // waits for the next request
    | Joining                           // admitted; about to post step 1
    | Watching(l: Local)                // reads the log
    | Executing(l: Local)               // inside RunStep(l.step)
    | Posting(l: Local, st: Status)     // RunStep succeeded; about to post st
    | Failing(l: Local)                 // about to post Abort and exit
    | Finished(l: Local)                // posted Complete; about to restart etcd and exit

  /** `begun` and `done` record which (server, step) pairs have started and succeeded. */
  datatype State = State(
    log: seq<Event>,
    store: map<int, Status>,
    procs: map<int, Phase>,
    begun: set<(int, int)>,
    done: set<(int, int)>)

  datatype Action =
    | Read(i: int)                      // GetStatuses and the two tests on it
    | Reject(i: int)                    // rewrite the own status as Abort
    | Join(i: int)                      // post Running(1) and start watching
    | Deliver(i: int)                   // handle the next log event
    | Succeed(i: int)                   // RunStep returned nil
    | Post(i: int)                      // post the status after a successful step
    | Fault(i: int)                     // RunStep, a watch or a put returned an error
    | PostAbort(i: int)                 // registerAbort
    | Crash(i: int)                     // the process ends and will be restarted
    | Stray(i: int, st: Status)         // a server outside the request puts some status

  /** Verdict of `handleWorkerStatus` on one event. */
  datatype Verdict = Skip | Error | Wait(barrier: set<int>) | Fire

  function React(c: Epoch, l: Local, e: Event): Verdict {
    if !IsMember(c.servers, e.lrn) then Skip
    else if e.st.version != c.version then Error
    else if e.st.cond == Abort then Error
    else if e.st.step != l.step then Error
    else if e.st.cond == Complete then Error
    else
      var barrier := l.barrier - {e.lrn};
      if barrier == {} then Fire else Wait(barrier)
  }

  /** What the worker holds once RunStep has succeeded, and the status it posts next. */
  ghost function AfterStep(c: Epoch, l: Local): (Local, Status) {
    if l.step != c.final then
      (Local(l.step + 1, Members(c), l.cursor), Status(c.version, l.step + 1, Running))
    else
      (l, Status(c.version, l.step, Complete))
  }

  /** Where a worker goes after reading the stored statuses. */
  ghost function Admission(c: Epoch, i: int, store: map<int, Status>): Phase {
    if UpdateAborted(c.version, i, store) then
      if i in store then Rejecting(store[i]) else Idle
    else if UpdateCompleted(c.version, c.servers, store) then Idle
    else Joining
  }

  function Put(s: State, i: int, st: Status): State {
    s.(log := s.log + [Event(i, st)], store := s.store[i := st])
  }

  ghost predicate HasLocal(p: Phase) {
    p.Watching? || p.Executing? || p.Posting? || p.Failing? || p.Finished?
  }

  ghost predicate Enabled(c: Epoch, s: State, a: Action) {
    if a.Stray? then a.i !in Members(c) else
    && a.i in s.procs
    && var p := s.procs[a.i];
       match a
       case Read(_) => p.Down?
       case Reject(_) => p.Rejecting?
       case Join(_) => p.Joining?
       case Deliver(_) => p.Watching? && p.l.cursor < |s.log|
       case Succeed(_) => p.Executing?
       case Post(_) => p.Posting?
       case Fault(_) => HasLocal(p)
       case PostAbort(_) => p.Failing?
       case Crash(_) => true
  }

  ghost function Delivered(c: Epoch, s: State, i: int, l: Local): State
    requires l.cursor < |s.log|
  {
    match React(c, l, s.log[l.cursor])
    case Skip => s.(procs := s.procs[i := Watching(l.(cursor := l.cursor + 1))])
    case Error => s.(procs := s.procs[i := Failing(l)])
    case Wait(b) => s.(procs := s.procs[i := Watching(l.(barrier := b, cursor := l.cursor + 1))])
    case Fire => s.(procs := s.procs[i := Executing(l.(barrier := {}, cursor := l.cursor + 1))],
                    begun := s.begun + {(i, l.step)})
  }

  ghost function Apply(c: Epoch, s: State, a: Action): State
    requires Enabled(c, s, a)
  {
    if a.Stray? then Put(s, a.i, a.st) else
    var p := s.procs[a.i];
    match a
    case Read(i) => s.(procs := s.procs[i := Admission(c, i, s.store)])
    case Reject(i) => Put(s, i, p.own.(cond := Abort)).(procs := s.procs[i := Idle])
    case Join(i) =>
      Put(s, i, Status(c.version, 1, Running)).(procs := s.procs[i := Watching(Local(1, Members(c), 0))])
    case Deliver(i) => Delivered(c, s, i, p.l)
    case Succeed(i) =>
      var (l, st) := AfterStep(c, p.l);
      s.(procs := s.procs[i := Posting(l, st)], done := s.done + {(i, p.l.step)})
    case Post(i) =>
      Put(s, i, p.st).(procs := s.procs[i := if p.st.cond == Complete then Finished(p.l) else Watching(p.l)])
    case Fault(i) => s.(procs := s.procs[i := Failing(p.l)])
    case PostAbort(i) => Put(s, i, Status(c.version, p.l.step, Abort))
    case Crash(i) => s.(procs := s.procs[i := Down])
  }

  /** Start of an epoch: nothing logged, no status of the requested version stored,
      every worker still to read the request. */
  ghost predicate Init(c: Epoch, s: State) {
    && s.log == []
    && s.procs.Keys == Members(c)
    && (forall i | i in s.procs :: s.procs[i] == Down)
    && (forall i | i in s.store :: s.store[i].version != c.version)
    && s.begun == {} && s.done == {}
  }

  /** A run is a list of actions, each enabled where it is taken. */
  ghost predicate IsRun(c: Epoch, s: State, acts: seq<Action>)
    decreases |acts|
  {
    acts == [] || (Enabled(c, s, acts[0]) && IsRun(c, Apply(c, s, acts[0]), acts[1..]))
  }

  ghost function After(c: Epoch, s: State, acts: seq<Action>): State
    requires IsRun(c, s, acts)
    decreases |acts|
  {
    if acts == [] then s else After(c, Apply(c, s, acts[0]), acts[1..])
  }

  lemma {:induction false} RunConcat(c: Epoch, s: State, a: seq<Action>, b: seq<Action>)
    requires IsRun(c, s, a) && IsRun(c, After(c, s, a), b)
    ensures IsRun(c, s, a + b) && After(c, s, a + b) == After(c, After(c, s, a), b)
    decreases |a|
  {
    if a == [] {
      assert a + b == b;
    } else {
      RunConcat(c, Apply(c, s, a[0]), a[1..], b);
      assert (a + b)[0] == a[0] && (a + b)[1..] == a[1..] + b;
    }
  }

  /** The running steps server `j` has posted for the request's version, in log order. */
  function Steps(version: string, log: seq<Event>, j: int): seq<int> {
    if log == [] then [] else
    var front := Steps(version, log[..|log| - 1], j);
    var e := log[|log| - 1];
    if e.lrn == j && e.st.version == version && e.st.cond == Running then front + [e.st.step] else front
  }

  lemma StepsPut(version: string, log: seq<Event>, e: Event, j: int)
    ensures Steps(version, log + [e], j) ==
            if e.lrn == j && e.st.version == version && e.st.cond == Running
            then Steps(version, log, j) + [e.st.step] else Steps(version, log, j)
  {
    assert (log + [e])[..|log|] == log;
  }

  lemma {:induction false} StepsMember(version: string, log: seq<Event>, k: nat)
    requires k < |log| && log[k].st.version == version && log[k].st.cond == Running
    ensures log[k].st.step in Steps(version, log, log[k].lrn)
  {
    if k < |log| - 1 {
      StepsMember(version, log[..|log| - 1], k);
    }
  }
}
