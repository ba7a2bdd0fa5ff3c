/** Leader election over etcd: candidates own keys ordered by creation, and the owner of the
    oldest key leads.  A key disappears when its lease ends, whatever its owner believes. */
module Election {
  import opened Common

  /** Campaigning creates a key unless the candidate still owns one. */
  function Enter(queue: seq<int>, u: int): seq<int> {
    if u in queue then queue else queue + [u]
  }

  /** The key of u is deleted; the others keep their order. */
  function Expire(queue: seq<int>, u: int): seq<int> {
    if queue == [] then []
    else if queue[0] == u then queue[1..]
    else [queue[0]] + Expire(queue[1..], u)
  }

  predicate Leads(queue: seq<int>, u: int) {
    queue != [] && queue[0] == u
  }

  /** Whoever led and still owns a key leads after any change; no key comes back by itself. */
  lemma {:induction false} ExpireKeeps(queue: seq<int>, u: int, v: int)
    requires Distinct(queue)
    ensures Distinct(Expire(queue, u)) && (v in Expire(queue, u) <==> v in queue && v != u)
    ensures Leads(queue, v) && u != v ==> Leads(Expire(queue, u), v)
  {
    if queue != [] && queue[0] != u {
      forall w
        ensures w in Expire(queue[1..], u) <==> w in queue[1..] && w != u
      {
        ExpireKeeps(queue[1..], u, w);
      }
      ExpireKeeps(queue[1..], u, v);
      assert queue[0] !in queue[1..];
    }
  }

  lemma EnterKeeps(queue: seq<int>, u: int, v: int)
    requires Distinct(queue)
    ensures Distinct(Enter(queue, u)) && (v in Enter(queue, u) <==> v in queue || v == u)
    ensures Leads(queue, v) ==> Leads(Enter(queue, u), v)
  {
  }
}
