/** Requests and statuses exchanged by neco-updater and the neco-workers,
    and the scans over them that both sides use. */
module UpdateTypes {

  datatype Cond = NotRunning | Running | Abort | Complete

  /** Status record of one boot server, without its free-text message. */
  datatype Status = Status(version: string, step: int, cond: Cond)

  /** Update request stored under `status/current`; `startedAt` is a clock reading. */
  datatype Request = Request(version: string, servers: seq<int>, stop: bool, startedAt: int)

  /** One put under `status/bootservers/`, as delivered by a watch. */
  datatype Event = Event(lrn: int, st: Status)

  /** Linear scan of the request's server list. */
  predicate IsMember(servers: seq<int>, lrn: int)
    ensures IsMember(servers, lrn) <==> lrn in servers
  {
    servers != [] && (servers[0] == lrn || IsMember(servers[1..], lrn))
  }

  /** True when every listed server has reported completion of `version`. */
  predicate UpdateCompleted(version: string, lrns: seq<int>, statuses: map<int, Status>)
    ensures UpdateCompleted(version, lrns, statuses) <==>
            forall lrn | lrn in lrns ::
              lrn in statuses && statuses[lrn].version == version && statuses[lrn].cond == Complete
  {
    if lrns == [] then
      true
    else
      assert forall lrn :: lrn in lrns <==> lrn == lrns[0] || lrn in lrns[1..];
      && lrns[0] in statuses
      && statuses[lrns[0]].version == version
      && statuses[lrns[0]].cond == Complete
      && UpdateCompleted(version, lrns[1..], statuses)
  }

  /** Does the status `u` of server `lrn` make `mylrn` regard the update as aborted? */
  predicate Blocks(version: string, mylrn: int, lrn: int, u: Status) {
    && u.version == version
    && u.cond != Complete
    && (u.cond == Abort || u.step != 1 || lrn == mylrn)
  }

  /** The test a (re)started worker makes on the stored statuses before taking part. */
  predicate UpdateAborted(version: string, mylrn: int, statuses: map<int, Status>) {
    exists lrn | lrn in statuses :: Blocks(version, mylrn, lrn, statuses[lrn])
  }
}
