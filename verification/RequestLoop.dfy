/** The outer loop of a worker: which requests it looks at, over any chunking of the watch
    and any outcome of the updates in between. */
module RequestLoop {
  import opened Common
  import opened UpdateTypes
  import WorkerProtocol

  /** A put of `status/current` and its revision. */
  datatype RequestPut = RequestPut(rev: nat, req: Request)

  /** One response of a watch channel. */
  datatype Response = Broken | Events(puts: seq<RequestPut>)

  ghost predicate Increasing(log: seq<RequestPut>) {
    forall i, j | 0 <= i < j < |log| :: log[i].rev < log[j].rev
  }

  /** The puts after revision `rev`. */
  ghost function Later(log: seq<RequestPut>, rev: nat): seq<RequestPut> {
    if log == [] then [] else
    if log[0].rev > rev then [log[0]] + Later(log[1..], rev) else Later(log[1..], rev)
  }

  /** All events of the responses, in order. */
  ghost function Flat(rs: seq<Response>): seq<RequestPut> {
    if rs == [] || rs[0].Broken? then [] else rs[0].puts + Flat(rs[1..])
  }

  /** The responses deliver the given puts, grouped in any way, up to a broken response. */
  ghost predicate Delivers(rs: seq<Response>, puts: seq<RequestPut>) {
    Flat(rs) <= puts && ((forall n | 0 <= n < |rs| :: rs[n].Events?) ==> Flat(rs) == puts)
  }

  lemma {:induction false} LaterSuffix(log: seq<RequestPut>, rev: nat)
    requires Increasing(log)
    ensures |Later(log, rev)| <= |log| && Later(log, rev) == log[|log| - |Later(log, rev)|..]
    ensures forall k | 0 <= k < |log| :: log[k].rev > rev <==> k >= |log| - |Later(log, rev)|
  {
    if log != [] {
      LaterSuffix(log[1..], rev);
      if log[0].rev > rev {
        assert forall k | 1 <= k < |log| :: log[k].rev > rev && log[k] == log[1..][k - 1];
        assert |Later(log[1..], rev)| == |log| - 1 by {
          if |log| > 1 {
            assert log[1..][0].rev > rev;
          }
        }
      } else {
        forall k | 0 <= k < |log|
          ensures log[k].rev > rev <==> k >= |log| - |Later(log, rev)|
        {
          if k > 0 {
            assert log[k] == log[1..][k - 1];
          }
        }
      }
    }
  }

  /** Moving on to the revision of the first later put drops exactly that put. */
  lemma LaterNext(log: seq<RequestPut>, rev: nat)
    requires Increasing(log) && Later(log, rev) != []
    ensures Later(log, Later(log, rev)[0].rev) == Later(log, rev)[1..]
  {
    LaterSuffix(log, rev);
    var n := |log| - |Later(log, rev)|;
    var r := log[n].rev;
    LaterSuffix(log, r);
    var m := |log| - |Later(log, r)|;
    assert m > n;
    assert n + 1 < |log| ==> log[n + 1].rev > r;
  }

  /** A read of the key returns its last put together with the store's revision; no put lies
      between the two, so waiting from either revision is the same. */
  lemma ReadIsLatest(log: seq<RequestPut>, n: nat, rev0: nat)
    requires Increasing(log) && n < |log| && log[n].rev <= rev0
    requires n + 1 < |log| ==> log[n + 1].rev > rev0
    ensures Later(log, rev0) == Later(log, log[n].rev) == log[n + 1..]
  {
    LaterSuffix(log, rev0);
    LaterSuffix(log, log[n].rev);
    var a, b := |log| - |Later(log, rev0)|, |log| - |Later(log, log[n].rev)|;
    assert a > n && b > n;
    assert n + 1 < |log| ==> log[n + 1].rev > rev0;
  }

  /** Wait for the next put after a revision: the first event of the first response that has
      any; the rest of that response is dropped. */
  method WaitRequest(rs: seq<Response>, ghost pending: seq<RequestPut>) returns (r: Option<RequestPut>, broken: bool)
    requires Delivers(rs, pending)
    ensures r.Some? ==> pending != [] && r.value == pending[0]
    ensures r.None? ==> if broken then exists n | 0 <= n < |rs| :: rs[n].Broken? else pending == []
  {
    var k := 0;
    while k < |rs|
      invariant 0 <= k <= |rs|
      invariant Flat(rs[k..]) == Flat(rs)
      invariant forall n | 0 <= n < k :: rs[n].Events?
    {
      assert rs[k..][1..] == rs[k + 1..];
      if rs[k].Broken? { return None, true; }
      if |rs[k].puts| > 0 {
        assert Flat(rs)[0] == rs[k].puts[0];
        return Some(rs[k].puts[0]), false;
      }
      k := k + 1;
    }
    return None, false;
  }

  /** What the outside world answers while the worker deals with a request: the statuses it
      reads, if the read succeeds, its put of an abort, and the update it takes part in. */
  datatype Answer = Answer(statuses: Option<map<int, Status>>, putOk: bool, updateOk: bool)

  /** Does the worker leave its loop at this request?  It does to install another version of its
      own package, and when a read, a put or an update fails. */
  predicate Exits(mylrn: int, version: string, req: Request, a: Answer) {
    && !req.stop && IsMember(req.servers, mylrn)
    && (|| version != req.version
        || a.statuses.None?
        || (if UpdateAborted(req.version, mylrn, a.statuses.value) then mylrn in a.statuses.value && !a.putOk
            else !UpdateCompleted(req.version, req.servers, a.statuses.value) && !a.updateOk))
  }

  predicate Leaves(put: RequestPut, mylrn: int, version: string, answers: RequestPut -> Answer) {
    Exits(mylrn, version, put.req, answers(put))
  }

  /** Why the loop ended. */
  datatype End = Exited | WatchBroke | CaughtUp

  /** The requests at the loop head after k later puts; `cur` is about to be looked at. */
  ghost predicate Looked(initial: seq<RequestPut>, all: seq<RequestPut>, k: nat,
                         heads: seq<RequestPut>, cur: Option<RequestPut>)
  {
    k <= |all| && initial + all[..k] == if cur.Some? then heads + [cur.value] else heads
  }

  /** One wait, from the head reached after k later puts. */
  method WaitNext(rs: seq<Response>,
                  ghost initial: seq<RequestPut>, ghost all: seq<RequestPut>, ghost k: nat, heads: seq<RequestPut>)
    returns (next: Option<RequestPut>, broken: bool)
    requires Looked(initial, all, k, heads, None) && Delivers(rs, all[k..])
    ensures next.Some? ==> k < |all| && next.value == all[k] && Looked(initial, all, k + 1, heads, next)
    ensures next.None? ==> if broken then exists n | 0 <= n < |rs| :: rs[n].Broken? else k == |all|
  {
    next, broken := WaitRequest(rs, all[k..]);
  }

  /** The loop, started with the request `first` read at store revision `rev0`; `leaves` tells
      whether it ends at a request and `k` how many later puts have reached its head. */
  method Loop(log: seq<RequestPut>, first: Option<RequestPut>, rev0: nat,
              waits: nat -> seq<Response>, leaves: RequestPut -> bool)
    returns (heads: seq<RequestPut>, end: End, ghost k: nat)
    requires Increasing(log)
    requires forall rev: nat :: Delivers(waits(rev), Later(log, rev))
    ensures Looked(if first.Some? then [first.value] else [], Later(log, rev0), k, heads, None)
    ensures end == CaughtUp ==> k == |Later(log, rev0)|
    ensures end == Exited ==> heads != []
    ensures end == WatchBroke ==> exists rev: nat, n: nat | n < |waits(rev)| :: waits(rev)[n].Broken?
    ensures forall n | 0 <= n < |heads| :: (end == Exited && n == |heads| - 1) <==> leaves(heads[n])
  {
    ghost var initial := if first.Some? then [first.value] else [];
    ghost var all := Later(log, rev0);
    heads, k := [], 0;
    var rev, cur := rev0, first;
    while true
      invariant Looked(initial, all, k, heads, cur) && Later(log, rev) == all[k..]
      invariant forall n | 0 <= n < |heads| :: !leaves(heads[n])
      decreases |all| - k
    {
      if cur.Some? {
        heads := heads + [cur.value];
        if leaves(cur.value) { return heads, Exited, k; }
      }
      var next, broken := WaitNext(waits(rev), initial, all, k, heads);
      if next.None? {
        return heads, if broken then WatchBroke else CaughtUp, k;
      }
      LaterNext(log, rev);
      cur, rev, k := next, next.value.rev, k + 1;
    }
  }

  /** The worker reads the statuses and neither its put nor its update fails: it rewrites its own
      status if it is to reject the request, and updates if it is to join. */
  ghost predicate Served(mylrn: int, req: Request, a: Answer) {
    && a.statuses.Some?
    && var epoch := WorkerProtocol.Epoch(req.version, req.servers, 1);
       var phase := WorkerProtocol.Admission(epoch, mylrn, a.statuses.value);
       (phase.Rejecting? ==> a.putOk) && (phase.Joining? ==> a.updateOk)
  }

  /** No skipped request: however the watch groups events, whatever branch each request takes
      and however each update ends, the requests at the loop head are the initial one followed by
      the later puts, each once and in order; unless the worker exits or its watch breaks, all of
      them.  It goes on from a request exactly if that is stopped, or does not list the worker, or is
      of the version the worker runs and is served. */
  method Run(log: seq<RequestPut>, first: Option<RequestPut>, rev0: nat,
             waits: nat -> seq<Response>, mylrn: int, version: string, answers: RequestPut -> Answer)
    returns (heads: seq<RequestPut>, end: End)
    requires Increasing(log)
    requires forall rev: nat :: Delivers(waits(rev), Later(log, rev))
    ensures var initial := if first.Some? then [first.value] else [];
            && initial <= heads
            && heads[|initial|..] <= Later(log, rev0)
            && (end == CaughtUp ==> heads == initial + Later(log, rev0))
    ensures end == WatchBroke ==> exists rev: nat, n: nat | n < |waits(rev)| :: waits(rev)[n].Broken?
    ensures end == Exited ==> heads != []
    ensures forall n | 0 <= n < |heads| ::
              var req := heads[n].req;
              (end == Exited && n == |heads| - 1) <==>
              && !req.stop && mylrn in req.servers
              && (req.version != version || !Served(mylrn, req, answers(heads[n])))
  {
    ghost var k;
    heads, end, k := Loop(log, first, rev0, waits, put => Leaves(put, mylrn, version, answers));
  }
}
