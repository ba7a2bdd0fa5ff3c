/** neco-updater: its decision function, and the incremental completion test it runs while
    workers are busy. */
module Updater {
  import opened Common
  import opened UpdateTypes

  /** A consistent read of etcd at one revision. */
  datatype Snapshot = Snapshot(
    request: Option<Request>,
    statuses: map<int, Status>,
    latest: string,
    servers: seq<int>)

  datatype Decision = Invalid | WaitInfo | Reconfigure | NewVersion | WaitWorkers | Stop | WaitClear

  /** Parsed form of a version string; versions are compared by their parsed form. */
  type Parser = string -> Option<int>

  ghost predicate HasAbort(version: string, statuses: map<int, Status>) {
    exists lrn | lrn in statuses :: statuses[lrn].version == version && statuses[lrn].cond == Abort
  }

  /** `expired` tells whether the worker timeout has passed since the request started. */
  ghost function NextAction(ss: Snapshot, expired: bool, parse: Parser): Decision {
    if ss.latest == "" then WaitInfo
    else if parse(ss.latest).None? then Invalid
    else if ss.request.None? then NewVersion
    else
      var req := ss.request.value;
      if req.stop then WaitClear
      else if HasAbort(req.version, ss.statuses) then Stop
      else if !UpdateCompleted(req.version, req.servers, ss.statuses) then
        if expired then Stop else WaitWorkers
      else if req.servers != ss.servers then Reconfigure
      else if parse(req.version).None? then Invalid
      else if parse(ss.latest) != parse(req.version) then NewVersion
      else WaitInfo
  }

  /** Some listed server has not completed the version. */
  ghost predicate Unfinished(req: Request, statuses: map<int, Status>) {
    exists lrn | lrn in req.servers ::
      lrn in statuses ==> statuses[lrn].version != req.version || statuses[lrn].cond != Complete
  }

  ghost predicate Aborted(req: Request, statuses: map<int, Status>) {
    exists lrn | lrn in statuses :: statuses[lrn] == Status(req.version, statuses[lrn].step, Abort)
  }

  /** The latest version is known and can be parsed. */
  ghost predicate Usable(ss: Snapshot, parse: Parser) {
    ss.latest != "" && parse(ss.latest).Some?
  }

  /** There is a request, and it is not stopped. */
  ghost predicate InForce(ss: Snapshot) {
    ss.request.Some? && !ss.request.value.stop
  }

  /** A running request is settled: nobody has aborted it and every listed server has completed it. */
  ghost predicate Settled(ss: Snapshot) {
    InForce(ss) && !Aborted(ss.request.value, ss.statuses) && !Unfinished(ss.request.value, ss.statuses)
  }

  /** The decision, exactly, once the latest version is usable: a stopped request waits for its
      removal; a running one is stopped on any abort, or when it is overdue and unfinished; a
      settled one gives way to other servers first, then to another version. */
  lemma DecidesExactly(ss: Snapshot, expired: bool, parse: Parser)
    requires Usable(ss, parse)
    ensures var d := NextAction(ss, expired, parse);
            && (d == WaitClear <==> ss.request.Some? && ss.request.value.stop)
            && (d == Stop <==>
                InForce(ss) && (Aborted(ss.request.value, ss.statuses)
                                || (expired && Unfinished(ss.request.value, ss.statuses))))
            && (d == WaitWorkers <==>
                InForce(ss) && !expired && !Aborted(ss.request.value, ss.statuses)
                && Unfinished(ss.request.value, ss.statuses))
            && (d == Reconfigure <==> Settled(ss) && ss.request.value.servers != ss.servers)
            && (d == NewVersion <==>
                || ss.request.None?
                || (Settled(ss) && ss.request.value.servers == ss.servers && parse(ss.request.value.version).Some?
                    && parse(ss.request.value.version) != parse(ss.latest)))
            && (d == WaitInfo <==>
                Settled(ss) && ss.request.value.servers == ss.servers
                && parse(ss.request.value.version) == parse(ss.latest))
  {
    if InForce(ss) {
      SettledIs(ss.request.value, ss.statuses);
    }
  }

  lemma SettledIs(req: Request, statuses: map<int, Status>)
    ensures HasAbort(req.version, statuses) <==> Aborted(req, statuses)
    ensures UpdateCompleted(req.version, req.servers, statuses) <==> !Unfinished(req, statuses)
  {
  }

  /** Without a usable latest version nothing is decided: an unknown one is waited for, one that
      cannot be parsed is an error; the only other error is a request that cannot be compared. */
  lemma UnusableWaits(ss: Snapshot, expired: bool, parse: Parser)
    ensures var d := NextAction(ss, expired, parse);
            && (ss.latest == "" ==> d == WaitInfo)
            && (d == Invalid <==>
                && ss.latest != ""
                && (|| parse(ss.latest).None?
                    || (Settled(ss) && ss.request.value.servers == ss.servers
                        && parse(ss.request.value.version).None?)))
  {
    if Usable(ss, parse) {
      DecidesExactly(ss, expired, parse);
    }
  }

  /** A new version is requested over a finished one only where none of the servers it
      concerns has a status of that version left. */
  lemma NewVersionStartsClean(ss: Snapshot, expired: bool, parse: Parser, lrn: int)
    requires NextAction(ss, expired, parse) == NewVersion && ss.request.Some? && lrn in ss.servers
    ensures lrn in ss.statuses && ss.statuses[lrn].version != ss.latest
  {
  }

  // ---- Waiting for the workers ------------------------------------------------

  /** The stored statuses after the given puts. */
  function Replay(statuses: map<int, Status>, events: seq<Event>): map<int, Status> {
    if events == [] then statuses else
    var n := |events| - 1;
    Replay(statuses, events[..n])[events[n].lrn := events[n].st]
  }

  /** A verdict of "aborted" or "completed" on the request, from a full set of statuses. */
  ghost predicate Decided(req: Request, statuses: map<int, Status>) {
    HasAbort(req.version, statuses) || UpdateCompleted(req.version, req.servers, statuses)
  }

  /** The handler's own map: only statuses of the request's version enter it. */
  function Folded(req: Request, statuses: map<int, Status>, events: seq<Event>): map<int, Status> {
    if events == [] then statuses else
    var n := |events| - 1;
    var front := Folded(req, statuses, events[..n]);
    if events[n].st.version == req.version then front[events[n].lrn := events[n].st] else front
  }

  /** Does handling the last of `events` end the watch? */
  ghost predicate Ends(req: Request, statuses: map<int, Status>, events: seq<Event>)
    requires events != []
  {
    var e := events[|events| - 1];
    && e.st.version == req.version
    && (e.st.cond == Abort || UpdateCompleted(req.version, req.servers, Folded(req, statuses, events)))
  }

  class StatusHandler {
    const req: Request
    var statuses: map<int, Status>

    constructor (req: Request, statuses: map<int, Status>)
      ensures this.req == req && this.statuses == statuses
    {
      this.req, this.statuses := req, statuses;
    }

    method HandleStatus(e: Event) returns (ended: bool)
      modifies this
      ensures statuses == if e.st.version == req.version then old(statuses)[e.lrn := e.st] else old(statuses)
      ensures ended <==>
              && e.st.version == req.version
              && (e.st.cond == Abort || UpdateCompleted(req.version, req.servers, statuses))
    {
      if e.st.version != req.version { return false; }
      statuses := statuses[e.lrn := e.st];
      if e.st.cond == Abort { return true; }
      return UpdateCompleted(req.version, req.servers, statuses);
    }

    /** Handle events in order; `n` of them have been handled when the watch ends. */
    method Watch(events: seq<Event>) returns (ended: bool, n: nat)
      modifies this
      ensures n <= |events| && statuses == Folded(req, old(statuses), events[..n])
      ensures forall k | 1 <= k < n :: !Ends(req, old(statuses), events[..k])
      ensures if ended then n > 0 && Ends(req, old(statuses), events[..n])
              else n == |events| && (n > 0 ==> !Ends(req, old(statuses), events[..n]))
    {
      n := 0;
      while n < |events|
        invariant n <= |events| && statuses == Folded(req, old(statuses), events[..n])
        invariant forall k | 1 <= k <= n :: !Ends(req, old(statuses), events[..k])
      {
        assert events[..n + 1][..n] == events[..n];
        ended := HandleStatus(events[n]);
        n := n + 1;
        assert Ends(req, old(statuses), events[..n]) <==> ended;
        if ended { return; }
      }
      ended := false;
    }
  }

  /** The handler's map agrees with the store on every status of the request's version. */
  lemma {:induction false} FoldKeepsCurrent(req: Request, st0: map<int, Status>, events: seq<Event>, lrn: int)
    requires lrn in Replay(st0, events) && Replay(st0, events)[lrn].version == req.version
    ensures lrn in Folded(req, st0, events) && Folded(req, st0, events)[lrn] == Replay(st0, events)[lrn]
  {
    if events != [] {
      var n := |events| - 1;
      if events[n].lrn != lrn {
        FoldKeepsCurrent(req, st0, events[..n], lrn);
      }
    }
  }

  /** None of the events has ended the watch. */
  ghost predicate Open(req: Request, st0: map<int, Status>, events: seq<Event>) {
    forall k | 1 <= k <= |events| :: !Ends(req, st0, events[..k])
  }

  lemma OpenPrefix(req: Request, st0: map<int, Status>, events: seq<Event>)
    requires events != [] && forall k | 1 <= k < |events| :: !Ends(req, st0, events[..k])
    ensures Open(req, st0, events[..|events| - 1])
    ensures Open(req, st0, events) <==> !Ends(req, st0, events)
  {
    var n := |events| - 1;
    assert events[..|events|] == events;
    forall k | 1 <= k <= n
      ensures !Ends(req, st0, events[..n][..k])
    {
      assert events[..n][..k] == events[..k];
    }
  }

  /** An undecided map stays undecided as long as no event has ended the watch. */
  lemma {:induction false} FoldUndecided(req: Request, st0: map<int, Status>, events: seq<Event>)
    requires !Decided(req, st0) && Open(req, st0, events)
    ensures !Decided(req, Folded(req, st0, events))
  {
    if events != [] {
      OpenPrefix(req, st0, events);
      FoldUndecided(req, st0, events[..|events| - 1]);
    }
  }

  /** Incremental test, first half: while the watch goes on, a fresh snapshot would not have
      decided the request either.  Nothing is missed, whatever other versions are put. */
  lemma NothingMissed(req: Request, st0: map<int, Status>, events: seq<Event>)
    requires !Decided(req, st0) && Open(req, st0, events)
    ensures !Decided(req, Replay(st0, events))
  {
    FoldUndecided(req, st0, events);
    var stored := Replay(st0, events);
    forall lrn | lrn in stored && stored[lrn].version == req.version
      ensures lrn in Folded(req, st0, events) && Folded(req, st0, events)[lrn] == stored[lrn]
    {
      FoldKeepsCurrent(req, st0, events, lrn);
    }
  }

  /** Incremental test, second half: when the watch ends, a fresh snapshot at that revision
      decides the request exactly if the last event is an abort or no member's stored status
      has been replaced by one of another version; it decides "aborted" exactly if the watch does. */
  lemma EndIsDecided(req: Request, st0: map<int, Status>, events: seq<Event>)
    requires !Decided(req, st0) && events != []
    requires forall k | 1 <= k < |events| :: !Ends(req, st0, events[..k])
    requires Ends(req, st0, events)
    ensures Decided(req, Replay(st0, events)) <==>
            || events[|events| - 1].st.cond == Abort
            || forall lrn | lrn in req.servers ::
                 lrn in Replay(st0, events) && Replay(st0, events)[lrn].version == req.version
    ensures HasAbort(req.version, Replay(st0, events)) <==> events[|events| - 1].st.cond == Abort
  {
    var n := |events| - 1;
    var e := events[n];
    var stored := Replay(st0, events);
    assert stored[e.lrn] == e.st;
    if e.st.cond != Abort {
      OpenPrefix(req, st0, events);
      FoldUndecided(req, st0, events[..n]);
      assert !HasAbort(req.version, Folded(req, st0, events));
      forall lrn | lrn in stored && stored[lrn].version == req.version
        ensures lrn in Folded(req, st0, events) && Folded(req, st0, events)[lrn] == stored[lrn]
      {
        FoldKeepsCurrent(req, st0, events, lrn);
      }
    }
  }

  /** A put of another version over a completed member ends the watch with success although
      a fresh snapshot is undecided: the fold keeps the older completion. */
  lemma StaleCompletion(req: Request, a: int, b: int, other: string)
    requires req.servers == [a, b] && a != b && other != req.version
    ensures var done := Status(req.version, 2, Complete);
            var events := [Event(a, done), Event(a, Status(other, 1, Abort)), Event(b, done)];
            && Ends(req, map[], events) && !Ends(req, map[], events[..1]) && !Ends(req, map[], events[..2])
            && !Decided(req, Replay(map[], events))
  {
    var done := Status(req.version, 2, Complete);
    var e0, e1, e2 := Event(a, done), Event(a, Status(other, 1, Abort)), Event(b, done);
    var events := [e0, e1, e2];
    assert events[..2] == [e0, e1] && events[..1] == [e0] && [e0, e1][..1] == [e0] && [e0][..0] == [];
    assert Folded(req, map[], [e0]) == map[a := done];
    assert Folded(req, map[], [e0, e1]) == map[a := done];
    assert Folded(req, map[], events) == map[a := done, b := done];
    assert Replay(map[], [e0]) == map[a := done];
    assert Replay(map[], [e0, e1]) == map[a := e1.st];
    assert Replay(map[], events) == map[a := e1.st, b := done];
    assert a in req.servers && b in req.servers;
  }
}
