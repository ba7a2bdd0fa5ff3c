/** The worker protocol starts where the updater puts a request: when the results about one request
    apply. */
module RequestEpoch {
  import opened Common
  import opened UpdateTypes
  import opened Updater
  import RequestHistory
  import WorkerProtocol

  /** The epoch of a request. */
  ghost function EpochOf(r: Request, final: int): WorkerProtocol.Epoch {
    WorkerProtocol.Epoch(r.version, r.servers, final)
  }

  /** The workers at that moment: all of them still to read the request. */
  ghost function Start(r: Request, statuses: map<int, Status>): WorkerProtocol.State {
    WorkerProtocol.State([], statuses, map lrn | lrn in r.servers :: WorkerProtocol.Down, {}, {})
  }

  /** The updater u is about to put a request that is not a stop, and owns its key. */
  ghost predicate Puts(s: RequestHistory.State, u: int, now: int, p: Parser) {
    && RequestHistory.Enabled(s, RequestHistory.Act(u, now)) && u in s.queue
    && var ph := RequestHistory.PhaseOf(s, u);
       NextAction(ph.seen.value, ph.expired, p) in {Reconfigure, NewVersion}
  }

  /** No server outside the new request has a status of its version left. */
  ghost predicate OutsidersClean(ss: Snapshot) {
    forall lrn | lrn in ss.statuses && lrn !in ss.servers :: ss.statuses[lrn].version != ss.latest
  }

  /** A request begins an epoch: always if it reconfigures, because the statuses are deleted in
      the same transaction; on the statuses of a clear; and over a finished request, if no
      status has been put since the snapshot and no outsider has one of the new version. */
  lemma RequestBeginsEpoch(s: RequestHistory.State, u: int, now: int, p: Parser, final: int)
    requires Puts(s, u, now, p)
    ensures var ph := RequestHistory.PhaseOf(s, u); var ss := ph.seen.value;
            var t := RequestHistory.Apply(s, RequestHistory.Act(u, now), p);
            && t.current.Some? && !t.current.value.stop
            && (|| NextAction(ss, ph.expired, p) == Reconfigure
                || s.statuses == map[]
                || (ss.request.Some? && s.statuses == ss.statuses && OutsidersClean(ss))
                ==> WorkerProtocol.Init(EpochOf(t.current.value, final), Start(t.current.value, t.statuses)))
  {
    var ph := RequestHistory.PhaseOf(s, u);
    var ss := ph.seen.value;
    var t := RequestHistory.Apply(s, RequestHistory.Act(u, now), p);
    if NextAction(ss, ph.expired, p) == NewVersion && ss.request.Some? && s.statuses == ss.statuses {
      forall lrn | lrn in ss.servers
        ensures lrn in ss.statuses && ss.statuses[lrn].version != ss.latest
      {
        NewVersionStartsClean(ss, ph.expired, p, lrn);
      }
    }
  }

  ghost predicate NoStatusPut(acts: seq<RequestHistory.Action>) {
    forall a | a in acts :: !a.WorkerPut?
  }

  lemma {:induction false} StaysEmpty(s: RequestHistory.State, acts: seq<RequestHistory.Action>, p: Parser)
    requires RequestHistory.IsRun(s, acts, p) && NoStatusPut(acts) && s.statuses == map[]
    ensures RequestHistory.After(s, acts, p).statuses == map[]
    decreases |acts|
  {
    if acts != [] {
      assert acts[0] in acts;
      StaysEmpty(RequestHistory.Apply(s, acts[0], p), acts[1..], p);
    }
  }

  /** The first request after a clear begins an epoch, whoever puts it, however many updaters come
      and go in between, and whatever version it asks for, if no worker has put a status since. */
  lemma FirstAfterClear(s: RequestHistory.State, r: int, acts: seq<RequestHistory.Action>, u: int, now: int,
                        p: Parser, final: int)
    requires r in s.recovering && s.current.Some? && s.modRev == s.recovering[r]
    requires var cleared := RequestHistory.Apply(s, RequestHistory.RecoverClear(r), p);
             && RequestHistory.IsRun(cleared, acts, p) && NoStatusPut(acts)
             && Puts(RequestHistory.After(cleared, acts, p), u, now, p)
    ensures var cleared := RequestHistory.Apply(s, RequestHistory.RecoverClear(r), p);
            var t := RequestHistory.Apply(RequestHistory.After(cleared, acts, p), RequestHistory.Act(u, now), p);
            && cleared.current == None && t.current.Some?
            && WorkerProtocol.Init(EpochOf(t.current.value, final), Start(t.current.value, t.statuses))
  {
    var cleared := RequestHistory.Apply(s, RequestHistory.RecoverClear(r), p);
    StaysEmpty(cleared, acts, p);
    RequestBeginsEpoch(RequestHistory.After(cleared, acts, p), u, now, p, final);
  }
}
