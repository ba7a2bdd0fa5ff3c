/** The history of `status/current` under several updaters, leadership changes, the recover
    command and arbitrary worker statuses. */
module RequestHistory {
  import opened Common
  import opened UpdateTypes
  import opened Updater
  import opened Election

  datatype Phase =
    | Away
    | Candidate
    | Leader(seen: Option<Snapshot>, expired: bool)   // `seen` is the snapshot being acted on

  datatype State = State(
    current: Option<Request>,
    modRev: nat,                          // revision of the last put of `current`
    rev: nat,                             // store revision
    statuses: map<int, Status>,
    latest: string,
    servers: seq<int>,
    queue: seq<int>,                      // leader keys of updaters, oldest first
    updaters: map<int, Phase>,
    recovering: map<int, nat>,            // recover commands, with the revision each has read
    history: seq<Option<Request>>)        // values `current` has had, oldest first

  datatype Action =
    | Campaign(u: int)
    | Win(u: int)
    | LoseKey(u: int)                     // lease expiry or resignation
    | Leave(u: int)                       // the update loop returns
    | TakeSnapshot(u: int, late: bool)
    | Act(u: int, now: int)               // carry out the decision on the snapshot
    | RecoverRead(r: int)
    | RecoverClear(r: int)
    | WorkerPut(lrn: int, st: Status)
    | Release(version: string)
    | Register(lrns: seq<int>)

  ghost predicate Init(s: State) {
    && s.modRev <= s.rev && (s.current.Some? ==> s.modRev > 0)
    && s.queue == [] && s.updaters == map[] && s.recovering == map[]
    && s.history == [s.current]
  }

  function PhaseOf(s: State, u: int): Phase {
    if u in s.updaters then s.updaters[u] else Away
  }

  /** The request an updater puts on its snapshot, if any. */
  ghost function Target(ss: Snapshot, expired: bool, p: Parser, now: int): Option<Request> {
    match NextAction(ss, expired, p)
    case NewVersion => Some(Request(ss.latest, ss.servers, false, now))
    case Reconfigure => Some(Request(ss.request.value.version, ss.servers, false, now))
    case Stop => Some(ss.request.value.(stop := true))
    case _ => None
  }

  ghost predicate Enabled(s: State, a: Action) {
    match a
    case Campaign(u) => PhaseOf(s, u).Away?
    case Win(u) => PhaseOf(s, u).Candidate? && (u !in s.queue || Leads(s.queue, u))   // no older key is left
    case LoseKey(u) => u in s.queue
    case Leave(u) => !PhaseOf(s, u).Away?
    case TakeSnapshot(u, _) => PhaseOf(s, u).Leader?
    case Act(u, _) => PhaseOf(s, u).Leader? && PhaseOf(s, u).seen.Some?
    case RecoverRead(_) => s.current.Some?
    case RecoverClear(r) => r in s.recovering
    case WorkerPut(_, _) => true
    case Release(_) => true
    case Register(_) => true
  }

  ghost function PutCurrent(s: State, r: Request): State {
    s.(current := Some(r), rev := s.rev + 1, modRev := s.rev + 1, history := s.history + [Some(r)])
  }

  /** The guarded put: it happens only while the leader key exists. */
  ghost function Acted(s: State, u: int, ss: Snapshot, expired: bool, p: Parser, now: int): State {
    var d := NextAction(ss, expired, p);
    match Target(ss, expired, p, now)
    case None => s.(updaters := s.updaters[u := if d.Invalid? then Away else Leader(None, false)])
    case Some(r) =>
      if u !in s.queue then s.(updaters := s.updaters[u := Away])
      else
        PutCurrent(s, r).(updaters := s.updaters[u := Leader(None, false)],
                          statuses := if d.Reconfigure? then map[] else s.statuses)
  }

  ghost function Apply(s: State, a: Action, p: Parser): State
    requires Enabled(s, a)
  {
    match a
    case Campaign(u) => s.(queue := Enter(s.queue, u), updaters := s.updaters[u := Candidate])
    case Win(u) => s.(updaters := s.updaters[u := Leader(None, false)])
    case LoseKey(u) => s.(queue := Expire(s.queue, u))
    case Leave(u) => s.(updaters := s.updaters[u := Away])
    case TakeSnapshot(u, late) =>
      s.(updaters := s.updaters[u := Leader(Some(Snapshot(s.current, s.statuses, s.latest, s.servers)), late)])
    case Act(u, now) => Acted(s, u, PhaseOf(s, u).seen.value, PhaseOf(s, u).expired, p, now)
    case RecoverRead(r) =>
      s.(recovering := if s.current.value.stop then s.recovering[r := s.modRev] else s.recovering - {r})
    case RecoverClear(r) =>
      if s.current.Some? && s.modRev == s.recovering[r] then
        s.(current := None, modRev := 0, rev := s.rev + 1, statuses := map[],
           recovering := s.recovering - {r}, history := s.history + [None])
      else s.(recovering := s.recovering - {r})      // compare failed: read again
    case WorkerPut(lrn, st) => s.(statuses := s.statuses[lrn := st], rev := s.rev + 1)
    case Release(v) => s.(latest := v, rev := s.rev + 1)
    case Register(lrns) => s.(servers := lrns, rev := s.rev + 1)
  }

  ghost predicate IsRun(s: State, acts: seq<Action>, p: Parser)
    decreases |acts|
  {
    acts == [] || (Enabled(s, acts[0]) && IsRun(Apply(s, acts[0], p), acts[1..], p))
  }

  ghost function After(s: State, acts: seq<Action>, p: Parser): State
    requires IsRun(s, acts, p)
    decreases |acts|
  {
    if acts == [] then s else After(Apply(s, acts[0], p), acts[1..], p)
  }

  ghost predicate Reachable(s: State, p: Parser) {
    exists s0, acts :: Init(s0) && IsRun(s0, acts, p) && After(s0, acts, p) == s
  }

  /** The four ways a request may change. */
  ghost predicate LegalChange(a: Option<Request>, b: Option<Request>) {
    match (a, b)
    case (None, Some(r)) => !r.stop
    case (Some(q), Some(r)) => !q.stop && (r == q.(stop := true) || !r.stop)
    case (Some(q), None) => q.stop
    case (None, None) => false
  }

  ghost predicate LegalHistory(h: seq<Option<Request>>) {
    forall n | 0 <= n < |h| - 1 :: LegalChange(h[n], h[n + 1])
  }

  /** A live leader leads, and what it has seen of a request that is not stopped is still
      what is stored. */
  ghost predicate LeaderOk(s: State, u: int) {
    PhaseOf(s, u).Leader? && u in s.queue ==>
      && Leads(s.queue, u)
      && (PhaseOf(s, u).seen.Some? ==>
            var seen := PhaseOf(s, u).seen.value.request;
            (seen.Some? && seen.value.stop) || s.current == seen)
  }

  ghost predicate Inv(s: State) {
    && Distinct(s.queue)
    && (forall u | u in s.updaters :: LeaderOk(s, u))
    && s.modRev <= s.rev
    && (s.current.Some? ==> s.modRev > 0)
    && (forall r | r in s.recovering :: 0 < s.recovering[r] <= s.rev)
    && (forall r | r in s.recovering && s.recovering[r] == s.modRev ::
          s.current.Some? && s.current.value.stop)
    && |s.history| > 0 && s.history[|s.history| - 1] == s.current
    && LegalHistory(s.history)
  }

  /** Only one updater can write: the owner of the oldest key. */
  lemma SoleWriter(s: State, u: int, v: int)
    requires Inv(s) && PhaseOf(s, u).Leader? && PhaseOf(s, v).Leader? && u in s.queue && v in s.queue
    ensures u == v
  {
    assert LeaderOk(s, u) && LeaderOk(s, v);
  }

  /** A guarded put replaces exactly the request its snapshot saw, in a legal way: a stop of
      that request, or a new request where there was none or where the snapshot had every
      member complete and none aborted. */
  lemma PutIsLegal(s: State, u: int, now: int, p: Parser)
    requires Inv(s) && Enabled(s, Act(u, now)) && u in s.queue
    requires Target(PhaseOf(s, u).seen.value, PhaseOf(s, u).expired, p, now).Some?
    ensures var ss := PhaseOf(s, u).seen.value;
            var r := Target(ss, PhaseOf(s, u).expired, p, now).value;
            && s.current == ss.request && LegalChange(s.current, Some(r))
            && (ss.request.Some? && !r.stop ==>
                  && UpdateCompleted(ss.request.value.version, ss.request.value.servers, ss.statuses)
                  && !HasAbort(ss.request.value.version, ss.statuses))
  {
    assert LeaderOk(s, u);
  }

  lemma QueueKeeps(s: State, a: Action, p: Parser)
    requires Inv(s) && Enabled(s, a) && (a.Campaign? || a.Win? || a.LoseKey? || a.Leave? || a.TakeSnapshot?)
    ensures Inv(Apply(s, a, p))
  {
    var t := Apply(s, a, p);
    if a.LoseKey? {
      ExpireKeeps(s.queue, a.u, a.u);
    } else if a.Campaign? {
      EnterKeeps(s.queue, a.u, a.u);
    }
    forall v | v in t.updaters
      ensures LeaderOk(t, v)
    {
      assert v in s.updaters ==> LeaderOk(s, v);
      if a.LoseKey? {
        ExpireKeeps(s.queue, a.u, v);
      } else if a.Campaign? {
        EnterKeeps(s.queue, a.u, v);
      }
    }
  }

  lemma HistoryGrows(h: seq<Option<Request>>, x: Option<Request>)
    requires |h| > 0 && LegalHistory(h) && LegalChange(h[|h| - 1], x)
    ensures LegalHistory(h + [x])
  {
  }

  lemma ActKeeps(s: State, u: int, now: int, p: Parser)
    requires Inv(s) && Enabled(s, Act(u, now))
    ensures Inv(Apply(s, Act(u, now), p))
  {
    var t := Apply(s, Act(u, now), p);
    var target := Target(PhaseOf(s, u).seen.value, PhaseOf(s, u).expired, p, now);
    if target.Some? && u in s.queue {
      PutIsLegal(s, u, now, p);
      HistoryGrows(s.history, target);
    }
    forall v | v in t.updaters
      ensures LeaderOk(t, v)
    {
      assert v in s.updaters ==> LeaderOk(s, v);
      if v != u && PhaseOf(s, v).Leader? && v in s.queue && u in s.queue {
        SoleWriter(s, u, v);
      }
    }
  }

  lemma RecoverKeeps(s: State, a: Action, p: Parser)
    requires Inv(s) && Enabled(s, a) && (a.RecoverRead? || a.RecoverClear?)
    ensures Inv(Apply(s, a, p))
  {
    var t := Apply(s, a, p);
    if t.history != s.history {
      HistoryGrows(s.history, None);
    }
    forall v | v in t.updaters
      ensures LeaderOk(t, v)
    {
      assert LeaderOk(s, v);
    }
  }

  lemma NextInv(s: State, a: Action, p: Parser)
    requires Inv(s) && Enabled(s, a)
    ensures Inv(Apply(s, a, p))
  {
    if a.Act? {
      ActKeeps(s, a.u, a.now, p);
    } else if a.RecoverRead? || a.RecoverClear? {
      RecoverKeeps(s, a, p);
    } else if a.WorkerPut? || a.Release? || a.Register? {
      var t := Apply(s, a, p);
      forall v | v in t.updaters
        ensures LeaderOk(t, v)
      {
        assert LeaderOk(s, v);
      }
    } else {
      QueueKeeps(s, a, p);
    }
  }

  lemma {:induction false} RunInv(s: State, acts: seq<Action>, p: Parser)
    requires Inv(s) && IsRun(s, acts, p)
    ensures Inv(After(s, acts, p))
    decreases |acts|
  {
    if acts != [] {
      NextInv(s, acts[0], p);
      RunInv(Apply(s, acts[0], p), acts[1..], p);
    }
  }

  lemma ReachableInv(s: State, p: Parser)
    requires Reachable(s, p)
    ensures Inv(s)
  {
    var s0, acts :| Init(s0) && IsRun(s0, acts, p) && After(s0, acts, p) == s;
    RunInv(s0, acts, p);
  }

  /** Over every run, `status/current` goes only from absent to a running request, from a
      running request to the same one stopped or to a new running one, and from stopped to
      absent. */
  lemma RequestHistoryLegal(s0: State, acts: seq<Action>, p: Parser)
    requires Init(s0) && IsRun(s0, acts, p)
    ensures LegalHistory(After(s0, acts, p).history)
    ensures var h := After(s0, acts, p).history; |h| > 0 && h[|h| - 1] == After(s0, acts, p).current
  {
    RunInv(s0, acts, p);
  }

  /** Whoever changes the request in a reachable state either clears a stopped one, or is the
      sole live leader and replaces exactly what its snapshot saw. */
  lemma ReplacesWhatItSaw(s: State, a: Action, p: Parser)
    requires Reachable(s, p) && Enabled(s, a) && Apply(s, a, p).history != s.history
    ensures LegalChange(s.current, Apply(s, a, p).current)
    ensures a.RecoverClear? ==> s.current.Some? && s.current.value.stop && Apply(s, a, p).current == None
    ensures !a.RecoverClear? ==>
              && a.Act? && Leads(s.queue, a.u)
              && PhaseOf(s, a.u).seen.Some? && s.current == PhaseOf(s, a.u).seen.value.request
              && (forall v | v in s.queue && v != a.u :: !PhaseOf(s, v).Leader?)
    ensures !a.RecoverClear? && s.current.Some? && !Apply(s, a, p).current.value.stop ==>
              && UpdateCompleted(s.current.value.version, s.current.value.servers, PhaseOf(s, a.u).seen.value.statuses)
              && !HasAbort(s.current.value.version, PhaseOf(s, a.u).seen.value.statuses)
  {
    ReachableInv(s, p);
    if a.Act? {
      PutIsLegal(s, a.u, a.now, p);
      forall v | v in s.queue && v != a.u
        ensures !PhaseOf(s, v).Leader?
      {
        if PhaseOf(s, v).Leader? {
          SoleWriter(s, a.u, v);
        }
      }
    }
  }

  /** A put, exactly: what an updater is going to put on a usable snapshot, told from its request,
      statuses and servers.  It is the request itself, stopped, if and only if that runs and is
      aborted or overdue; the new servers with the old version if it is settled; the latest version
      if there is no request or the settled one is of another version. */
  lemma TargetExactly(ss: Snapshot, expired: bool, p: Parser, now: int, r: Request)
    requires Usable(ss, p)
    ensures Target(ss, expired, p, now) == Some(r) && r.stop <==>
            && InForce(ss) && r == ss.request.value.(stop := true)
            && (Aborted(ss.request.value, ss.statuses) || (expired && Unfinished(ss.request.value, ss.statuses)))
    ensures Target(ss, expired, p, now) == Some(r) && !r.stop <==>
            && r.servers == ss.servers && r.startedAt == now && !r.stop
            && (if ss.request.None? then r.version == ss.latest
                else
                  && Settled(ss)
                  && (if ss.request.value.servers != ss.servers then r.version == ss.request.value.version
                      else
                        && r.version == ss.latest && p(ss.request.value.version).Some?
                        && p(ss.request.value.version) != p(ss.latest)))
  {
    DecidesExactly(ss, expired, p);
  }

  /** An abort stops the request: in every reachable state, a live leader that has seen a running
      request and an abort of its version leaves just that request stopped when it acts. */
  lemma AbortStops(s: State, u: int, now: int, p: Parser)
    requires Reachable(s, p) && Enabled(s, Act(u, now)) && u in s.queue
    requires var ss := PhaseOf(s, u).seen.value;
             Usable(ss, p) && InForce(ss) && Aborted(ss.request.value, ss.statuses)
    ensures s.current == PhaseOf(s, u).seen.value.request
    ensures Apply(s, Act(u, now), p).current == Some(s.current.value.(stop := true))
  {
    ReachableInv(s, p);
    var ss := PhaseOf(s, u).seen.value;
    TargetExactly(ss, PhaseOf(s, u).expired, p, now, ss.request.value.(stop := true));
    PutIsLegal(s, u, now, p);
  }

  /** Decided on what is stored: a live leader that looks and then acts, undisturbed, stops a running
      request if and only if an abort of its version is stored, or it is overdue and unfinished; it
      puts another one if and only if there is none, or it is settled and servers or version differ. */
  lemma LooksAndActs(s: State, u: int, late: bool, now: int, p: Parser)
    requires Reachable(s, p) && PhaseOf(s, u).Leader? && u in s.queue && s.latest != "" && p(s.latest).Some?
    ensures Enabled(s, TakeSnapshot(u, late)) && Enabled(Apply(s, TakeSnapshot(u, late), p), Act(u, now))
    ensures var t := Apply(Apply(s, TakeSnapshot(u, late), p), Act(u, now), p);
            && (s.current.Some? && !s.current.value.stop ==>
                  (t.current == Some(s.current.value.(stop := true)) <==>
                   Aborted(s.current.value, s.statuses) || (late && Unfinished(s.current.value, s.statuses))))
            && (s.current.Some? && !s.current.value.stop ==>
                  (t.current.Some? && !t.current.value.stop && t.history == s.history + [t.current] <==>
                   && !Aborted(s.current.value, s.statuses) && !Unfinished(s.current.value, s.statuses)
                   && (s.current.value.servers == s.servers ==>
                         p(s.current.value.version).Some? && p(s.current.value.version) != p(s.latest))))
            && (s.current.None? ==> t.current == Some(Request(s.latest, s.servers, false, now)))
            && (s.current.Some? && s.current.value.stop ==> t.current == s.current)
  {
    var ss := Snapshot(s.current, s.statuses, s.latest, s.servers);
    var v := Apply(s, TakeSnapshot(u, late), p);
    assert PhaseOf(v, u) == Leader(Some(ss), late);
    DecidesExactly(ss, late, p);
  }

  lemma {:induction false} RunAppend(s: State, acts: seq<Action>, a: Action, p: Parser)
    requires IsRun(s, acts, p) && Enabled(After(s, acts, p), a)
    ensures IsRun(s, acts + [a], p) && After(s, acts + [a], p) == Apply(After(s, acts, p), a, p)
    decreases |acts|
  {
    if acts == [] {
      assert acts + [a] == [a] && [a][1..] == [];
    } else {
      RunAppend(Apply(s, acts[0], p), acts[1..], a, p);
      assert (acts + [a])[1..] == acts[1..] + [a];
    }
  }

  lemma ReachableNext(s: State, a: Action, p: Parser)
    requires Reachable(s, p) && Enabled(s, a)
    ensures Reachable(Apply(s, a, p), p)
  {
    var s0, acts :| Init(s0) && IsRun(s0, acts, p) && After(s0, acts, p) == s;
    RunAppend(s0, acts, a, p);
  }

  /** From a worker's abort to the stop: once a worker puts an abort of the running request, a live
      leader that looks and acts stops it. */
  lemma AbortPutStops(s: State, u: int, lrn: int, step: int, late: bool, now: int, p: Parser)
    requires Reachable(s, p) && PhaseOf(s, u).Leader? && u in s.queue && s.latest != "" && p(s.latest).Some?
    requires s.current.Some? && !s.current.value.stop
    ensures var put := WorkerPut(lrn, Status(s.current.value.version, step, Abort));
            var t := Apply(s, put, p);
            && Enabled(t, TakeSnapshot(u, late)) && Enabled(Apply(t, TakeSnapshot(u, late), p), Act(u, now))
            && Apply(Apply(t, TakeSnapshot(u, late), p), Act(u, now), p).current == Some(s.current.value.(stop := true))
  {
    var put := WorkerPut(lrn, Status(s.current.value.version, step, Abort));
    ReachableNext(s, put, p);
    var t := Apply(s, put, p);
    assert t.statuses[lrn] == Status(s.current.value.version, step, Abort);
    LooksAndActs(t, u, late, now, p);
  }

  /** The store after an act: whoever has lost its key leaves it as it is and gives up; a live leader
      puts a request at most, and clears the statuses exactly if it changes the servers of one. */
  lemma ActLeaves(s: State, u: int, now: int, p: Parser)
    requires Reachable(s, p) && Enabled(s, Act(u, now)) && Usable(PhaseOf(s, u).seen.value, p)
    ensures var t := Apply(s, Act(u, now), p); var ss := PhaseOf(s, u).seen.value;
            if t.history == s.history then
              t.current == s.current && t.statuses == s.statuses && t.rev == s.rev
            else
              && u in s.queue && t.current.Some? && t.history == s.history + [t.current]
              && t.modRev == t.rev == s.rev + 1
              && t.statuses == if Settled(ss) && ss.request.value.servers != ss.servers then map[] else s.statuses
    ensures var ss, expired := PhaseOf(s, u).seen.value, PhaseOf(s, u).expired;
            u !in s.queue && Target(ss, expired, p, now).Some? ==> Apply(s, Act(u, now), p).updaters[u].Away?
  {
    DecidesExactly(PhaseOf(s, u).seen.value, PhaseOf(s, u).expired, p);
  }

  /** Recovery: in every reachable state with a request, the recover command that is not disturbed
      clears the request and all statuses if it is stopped, and gives up if it is not. */
  lemma RecoverExactly(s: State, r: int, p: Parser)
    requires Reachable(s, p) && s.current.Some?
    ensures Enabled(s, RecoverRead(r))
    ensures var t := Apply(s, RecoverRead(r), p);
            && t.current == s.current && t.statuses == s.statuses && t.history == s.history
            && (Enabled(t, RecoverClear(r)) <==> s.current.value.stop)
            && (s.current.value.stop ==>
                  var u := Apply(t, RecoverClear(r), p);
                  u.current == None && u.statuses == map[] && u.history == s.history + [None] && r !in u.recovering)
  {
  }

  /** A recovery that reads a stopped request and is overtaken clears nothing: whatever has been put
      or cleared in between, it reads again. */
  lemma RecoverOvertaken(s: State, r: int, p: Parser)
    requires Reachable(s, p) && Enabled(s, RecoverClear(r)) && s.recovering[r] != s.modRev
    ensures var t := Apply(s, RecoverClear(r), p);
            t.current == s.current && t.statuses == s.statuses && t.history == s.history && r !in t.recovering
  {
  }
}
