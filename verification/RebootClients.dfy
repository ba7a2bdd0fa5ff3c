/** The retry loops of registrars and updaters, with arbitrary actions of others between each
    read and the transaction that follows it. */
module RebootClients {
  import opened Common
  import opened RebootIndex

  /** The client an action belongs to, if any. */
  predicate Of(a: Action, p: int) {
    (a.BeginRegister? || a.BeginUpdate? || a.Get? || a.Commit? || a.Quit?) && a.p == p
  }

  /** Whatever everybody but p gets done meanwhile. */
  function Meanwhile(s: State, acts: seq<Action>, p: int): State
    decreases |acts|
  {
    if acts == [] then s
    else Meanwhile(if Enabled(s, acts[0]) && !Of(acts[0], p) then Apply(s, acts[0]) else s, acts[1..], p)
  }

  lemma {:induction false} MeanwhileKeeps(s: State, acts: seq<Action>, p: int)
    requires Inv(s) && p in s.clients
    ensures var t := Meanwhile(s, acts, p);
            Inv(t) && p in t.clients && t.clients[p] == s.clients[p] && s.log <= t.log
    decreases |acts|
  {
    if acts != [] {
      if Enabled(s, acts[0]) && !Of(acts[0], p) {
        NextInv(s, acts[0]);
        MeanwhileKeeps(Apply(s, acts[0]), acts[1..], p);
      } else {
        MeanwhileKeeps(s, acts[1..], p);
      }
    }
  }

  /** A client's transaction on the state that others have left. */
  method Transact(s: State, p: int, acts: seq<Action>) returns (u: State, t: State)
    requires Inv(s) && Enabled(s, Commit(p))
    ensures u == Meanwhile(s, acts, p) && Inv(u) && s.log <= u.log
    ensures p in u.clients && u.clients[p] == s.clients[p]
    ensures Enabled(u, Commit(p)) && t == Apply(u, Commit(p)) && Inv(t)
  {
    MeanwhileKeeps(s, acts, p);
    u := Meanwhile(s, acts, p);
    NextInv(u, Commit(p));
    t := Apply(u, Commit(p));
  }

  /** The entry was stored by the last write, under the next free index. */
  ghost predicate JustRegistered(s: State, i: int, body: string) {
    && s.log != [] && s.log[|s.log| - 1] == Registered(i)
    && i == Hits(s.log[..|s.log| - 1], 0, WriteIndex) && NextIndex(s) == i + 1
    && i in s.list && s.list[i].value == Entry(i, body)
  }

  method RegisterRound(s: State, p: int, acts: seq<Action>) returns (t: State, index: Option<int>)
    requires Inv(s) && p in s.clients && s.clients[p].Registrar? && s.clients[p].seen.None?
    ensures Inv(t) && s.log <= t.log && (p in t.clients <==> index.None?)
    ensures var c := s.clients[p]; index.None? ==> t.clients[p] == Registrar(c.body, None, c.fails + 1, c.since)
    ensures index.Some? ==> JustRegistered(t, index.value, s.clients[p].body)
  {
    NextInv(s, Get(p));
    var r := Apply(s, Get(p));
    var u;
    u, t := Transact(r, p, acts);
    index := if p in t.clients then None else Some(NextIndex(u));
  }

  /** Registering succeeds with the next free index, or is cut short after at least as many
      foreign registrations as it made attempts. */
  method Register(s0: State, p: int, body: string, env: seq<seq<Action>>) returns (s: State, index: Option<int>)
    requires Inv(s0) && p !in s0.clients
    ensures Inv(s) && p !in s.clients && s0.log <= s.log
    ensures index.Some? ==> JustRegistered(s, index.value, body)
    ensures index.None? ==> |env| <= Hits(s.log, |s0.log|, WriteIndex)
  {
    NextInv(s0, BeginRegister(p, body));
    s := Apply(s0, BeginRegister(p, body));
    for k := 0 to |env|
      invariant Inv(s) && s0.log <= s.log && p in s.clients
      invariant s.clients[p] == Registrar(body, None, k, |s0.log|)
    {
      s, index := RegisterRound(s, p, env[k]);
      if index.Some? { return; }
    }
    s := Apply(s, Quit(p));
    index := None;
  }

  datatype Outcome = Retry | Done | NotFound | GaveUp

  method UpdateRound(s: State, p: int, acts: seq<Action>) returns (t: State, r: Outcome)
    requires Inv(s) && p in s.clients && s.clients[p].Updater? && s.clients[p].revision.None?
    ensures Inv(t) && s.log <= t.log && (p in t.clients <==> r.Retry?) && !r.GaveUp?
    ensures var c := s.clients[p]; r.Retry? ==> t.clients[p] == Updater(c.entry, None, c.fails + 1, c.since)
    ensures var e := s.clients[p].entry;
            && (r.Done? ==> e.index in t.list && t.list[e.index].value == e)
            && (r.NotFound? ==> e.index !in t.list)
  {
    NextInv(s, Get(p));
    t := Apply(s, Get(p));
    if p !in t.clients { return t, NotFound; }
    var u;
    u, t := Transact(t, p, acts);
    r := if p in t.clients then Retry else Done;
  }

  lemma StoredIsNotRemoved(s: State, i: int)
    requires Inv(s) && i in s.list
    ensures Removed(i) !in s.log
  {
  }

  /** Updating: the given entry ends up stored, or the entry is gone, or the call is cut short
      after at least as many foreign writes of the entry as it made attempts; a removed entry is
      not brought back. */
  method UpdateEntry(s0: State, p: int, e: Entry, env: seq<seq<Action>>) returns (s: State, r: Outcome)
    requires Inv(s0) && p !in s0.clients
    ensures Inv(s) && p !in s.clients && s0.log <= s.log && !r.Retry?
    ensures r.Done? ==> e.index in s.list && s.list[e.index].value == e && Removed(e.index) !in s.log
    ensures r.NotFound? ==> e.index !in s.list
    ensures r.GaveUp? ==> |env| <= Hits(s.log, |s0.log|, EntryAt(e.index))
  {
    NextInv(s0, BeginUpdate(p, e));
    s := Apply(s0, BeginUpdate(p, e));
    for k := 0 to |env|
      invariant Inv(s) && s0.log <= s.log && p in s.clients
      invariant s.clients[p] == Updater(e, None, k, |s0.log|)
    {
      s, r := UpdateRound(s, p, env[k]);
      if r.Done? { StoredIsNotRemoved(s, e.index); }
      if !r.Retry? { return; }
    }
    s := Apply(s, Quit(p));
    r := GaveUp;
  }
}
