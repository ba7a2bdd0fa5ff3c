/** The reboot list in etcd: compare-and-swap index allocation, updates and removals, under any
    interleaving of registrars, updaters and the controller that removes entries. */
module RebootIndex {
  import opened Common

  /** An entry as stored: the index is part of the value. */
  datatype Entry = Entry(index: int, body: string)

  datatype Cell<T> = Cell(value: T, modRev: nat)

  /** One modification of the store; each takes one revision. */
  datatype Write = Registered(i: int) | Updated(i: int) | Removed(i: int) | Other

  datatype Key = WriteIndex | EntryAt(i: int)

  datatype Client =
    | Registrar(body: string, seen: Option<Cell<int>>, fails: nat, since: nat)
    | Updater(entry: Entry, revision: Option<nat>, fails: nat, since: nat)

  datatype State = State(
    base: nat,                        // revision before the first write below
    log: seq<Write>,                  // every modification so far
    write: Option<Cell<int>>,         // the write-index key
    list: map<int, Cell<Entry>>,      // the entries, by index
    clients: map<int, Client>)

  datatype Action =
    | BeginRegister(p: int, body: string)
    | BeginUpdate(p: int, entry: Entry)
    | Get(p: int)                     // the read at the head of the retry loop
    | Commit(p: int)                  // the transaction; on failure back to the head
    | Quit(p: int)                    // the caller gives up or crashes
    | Remove(i: int, leads: bool)     // guarded by the leader key
    | WriteOther

  ghost predicate Init(s: State) {
    s.log == [] && s.write == None && s.list == map[] && s.clients == map[]
  }

  function Revision(s: State): nat {
    s.base + |s.log|
  }

  /** The modification revision etcd compares: zero for an absent key. */
  function WriteRev(s: State): nat {
    if s.write.None? then 0 else s.write.value.modRev
  }

  function EntryRev(s: State, i: int): nat {
    if i in s.list then s.list[i].modRev else 0
  }

  /** What a registrar takes for the next index. */
  function NextIndex(s: State): int {
    if s.write.None? then 0 else s.write.value.value
  }

  predicate Touches(w: Write, k: Key) {
    match k
    case WriteIndex => w.Registered?
    case EntryAt(i) => !w.Other? && w.i == i
  }

  /** How many writes from position `since` on changed the key. */
  function Hits(log: seq<Write>, since: nat, k: Key): nat {
    if |log| <= since then 0
    else Hits(log[..|log| - 1], since, k) + if Touches(log[|log| - 1], k) then 1 else 0
  }

  predicate Enabled(s: State, a: Action) {
    match a
    case BeginRegister(p, _) => p !in s.clients
    case BeginUpdate(p, _) => p !in s.clients
    case Get(p) =>
      p in s.clients && (if s.clients[p].Registrar? then s.clients[p].seen.None? else s.clients[p].revision.None?)
    case Commit(p) =>
      p in s.clients && (if s.clients[p].Registrar? then s.clients[p].seen.Some? else s.clients[p].revision.Some?)
    case Quit(p) => p in s.clients
    case Remove(_, _) => true
    case WriteOther => true
  }

  function GetStep(s: State, p: int): State
    requires p in s.clients
  {
    match s.clients[p]
    case Registrar(_, _, _, _) =>
      s.(clients := s.clients[p := s.clients[p].(seen := Some(Cell(NextIndex(s), WriteRev(s))))])
    case Updater(e, _, _, _) =>
      if e.index in s.list
      then s.(clients := s.clients[p := s.clients[p].(revision := Some(s.list[e.index].modRev))])
      else s.(clients := s.clients - {p})      // not found
  }

  function CommitStep(s: State, p: int): State
    requires Enabled(s, Commit(p))
  {
    var next := Revision(s) + 1;
    match s.clients[p]
    case Registrar(body, seen, fails, _) =>
      var i := seen.value.value;
      if WriteRev(s) == seen.value.modRev then
        s.(log := s.log + [Registered(i)], write := Some(Cell(i + 1, next)),
           list := s.list[i := Cell(Entry(i, body), next)], clients := s.clients - {p})
      else s.(clients := s.clients[p := s.clients[p].(seen := None, fails := fails + 1)])
    case Updater(e, revision, fails, _) =>
      if EntryRev(s, e.index) == revision.value then
        s.(log := s.log + [Updated(e.index)], list := s.list[e.index := Cell(e, next)], clients := s.clients - {p})
      else s.(clients := s.clients[p := s.clients[p].(revision := None, fails := fails + 1)])
  }

  function Apply(s: State, a: Action): State
    requires Enabled(s, a)
  {
    match a
    case BeginRegister(p, body) => s.(clients := s.clients[p := Registrar(body, None, 0, |s.log|)])
    case BeginUpdate(p, e) => s.(clients := s.clients[p := Updater(e, None, 0, |s.log|)])
    case Get(p) => GetStep(s, p)
    case Commit(p) => CommitStep(s, p)
    case Quit(p) => s.(clients := s.clients - {p})
    case Remove(i, leads) =>
      if leads && i in s.list then s.(log := s.log + [Removed(i)], list := s.list - {i}) else s
    case WriteOther => s.(log := s.log + [Other])
  }

  ghost predicate IsRun(s: State, acts: seq<Action>)
    decreases |acts|
  {
    acts == [] || (Enabled(s, acts[0]) && IsRun(Apply(s, acts[0]), acts[1..]))
  }

  ghost function After(s: State, acts: seq<Action>): State
    requires IsRun(s, acts)
    decreases |acts|
  {
    if acts == [] then s else After(Apply(s, acts[0]), acts[1..])
  }

  ghost predicate Reachable(s: State) {
    exists s0, acts :: Init(s0) && IsRun(s0, acts) && After(s0, acts) == s
  }

  /** The n-th registration got index n. */
  ghost predicate Consecutive(log: seq<Write>) {
    forall n | 0 <= n < |log| && log[n].Registered? :: log[n].i == Hits(log[..n], 0, WriteIndex)
  }

  /** Nothing touches an entry after its removal. */
  ghost predicate Final(log: seq<Write>) {
    forall m, n | 0 <= m < n < |log| && log[m].Removed? :: !Touches(log[n], EntryAt(log[m].i))
  }

  ghost predicate WriteOk(s: State) {
    && NextIndex(s) == Hits(s.log, 0, WriteIndex)
    && (s.write.Some? ==> 0 < s.write.value.modRev <= Revision(s))
    && (forall w | w in s.log && !w.Other? :: 0 <= w.i < NextIndex(s))
  }

  ghost predicate ListOk(s: State) {
    forall i | i in s.list :: s.list[i].value.index == i && 0 < s.list[i].modRev <= Revision(s)
  }

  /** Exactly the registered entries that have not been removed are stored. */
  ghost predicate Live(s: State) {
    forall i :: i in s.list <==> Registered(i) in s.log && Removed(i) !in s.log
  }

  ghost predicate StoreOk(s: State) {
    WriteOk(s) && ListOk(s) && Live(s) && Consecutive(s.log) && Final(s.log)
  }

  /** What a client has read is not newer than the store, a revision that is still current
      stands for the value that was read with it, and every failed or doomed attempt is paid
      for by somebody else's write of the same key. */
  ghost predicate ClientOk(s: State, c: Client) {
    c.since <= |s.log| &&
    match c
    case Registrar(_, seen, fails, since) =>
      && (seen.Some? ==> seen.value.modRev <= Revision(s))
      && (seen.Some? && seen.value.modRev == WriteRev(s) ==> seen.value.value == NextIndex(s))
      && fails + (if seen.Some? && seen.value.modRev != WriteRev(s) then 1 else 0) <= Hits(s.log, since, WriteIndex)
    case Updater(e, revision, fails, since) =>
      && (revision.Some? ==> 0 < revision.value <= Revision(s))
      && fails + (if revision.Some? && revision.value != EntryRev(s, e.index) then 1 else 0)
           <= Hits(s.log, since, EntryAt(e.index))
  }

  ghost predicate Inv(s: State) {
    StoreOk(s) && forall p | p in s.clients :: ClientOk(s, s.clients[p])
  }

  lemma LogGrows(log: seq<Write>, w: Write)
    requires Consecutive(log) && Final(log)
    requires w.Registered? ==> w.i == Hits(log, 0, WriteIndex)
    requires forall m | 0 <= m < |log| && log[m].Removed? :: !Touches(w, EntryAt(log[m].i))
    ensures Consecutive(log + [w]) && Final(log + [w])
  {
    var t := log + [w];
    forall n | 0 <= n < |t| && t[n].Registered?
      ensures t[n].i == Hits(t[..n], 0, WriteIndex)
    {
      assert t[..n] == log[..n];
    }
  }

  /** t is s after one admissible write, of entry e where one is put. */
  ghost predicate Written(s: State, t: State, w: Write, e: Entry) {
    && t.log == s.log + [w] && t.base == s.base
    && t.write == (if w.Registered? then Some(Cell(w.i + 1, Revision(t))) else s.write)
    && match w
       case Registered(i) => i == NextIndex(s) && e.index == i && t.list == s.list[i := Cell(e, Revision(t))]
       case Updated(i) => i in s.list && e.index == i && t.list == s.list[i := Cell(e, Revision(t))]
       case Removed(i) => i in s.list && t.list == s.list - {i}
       case Other => t.list == s.list
  }

  lemma LiveGrows(s: State, t: State, w: Write, e: Entry)
    requires WriteOk(s) && Live(s) && Written(s, t, w, e)
    ensures Live(t)
  {
    forall i
      ensures i in t.list <==> Registered(i) in t.log && Removed(i) !in t.log
    {
      assert i in s.list <==> Registered(i) in s.log && Removed(i) !in s.log;
      assert Registered(i) in t.log <==> Registered(i) in s.log || w == Registered(i);
      assert Removed(i) in t.log <==> Removed(i) in s.log || w == Removed(i);
    }
  }

  lemma WriteGrows(s: State, t: State, w: Write, e: Entry)
    requires WriteOk(s) && Live(s) && Written(s, t, w, e)
    ensures WriteOk(t)
  {
    if w.Updated? || w.Removed? {
      assert Registered(w.i) in s.log;
      assert Registered(w.i).i < NextIndex(s);
    }
  }

  lemma HistoryGrows(s: State, t: State, w: Write, e: Entry)
    requires StoreOk(s) && Written(s, t, w, e)
    ensures Consecutive(t.log) && Final(t.log)
  {
    forall m | 0 <= m < |s.log| && s.log[m].Removed?
      ensures !Touches(w, EntryAt(s.log[m].i))
    {
      assert s.log[m] == Removed(s.log[m].i) && s.log[m] in s.log;
    }
    LogGrows(s.log, w);
  }

  /** A client that does nothing stays fine while the log grows by a write that changed the
      revisions of exactly the keys it touches. */
  lemma ClientWaits(s: State, t: State, c: Client, w: Write)
    requires ClientOk(s, c) && t.log == s.log + [w] && t.base == s.base
    requires if w.Registered? then WriteRev(t) == Revision(t) else t.write == s.write
    requires forall i | !Touches(w, EntryAt(i)) :: EntryRev(t, i) == EntryRev(s, i)
    ensures ClientOk(t, c)
  {
  }

  /** An admissible write keeps the store in order and every waiting client fine. */
  lemma WriteKeeps(s: State, t: State, w: Write, e: Entry)
    requires Inv(s) && Written(s, t, w, e) && t.clients.Keys <= s.clients.Keys
    requires forall q | q in t.clients :: t.clients[q] == s.clients[q]
    ensures Inv(t)
  {
    LiveGrows(s, t, w, e);
    WriteGrows(s, t, w, e);
    HistoryGrows(s, t, w, e);
    forall q | q in t.clients
      ensures ClientOk(t, t.clients[q])
    {
      assert q in s.clients;
      ClientWaits(s, t, s.clients[q], w);
    }
  }

  lemma CommitKeeps(s: State, p: int)
    requires Inv(s) && Enabled(s, Commit(p))
    ensures Inv(Apply(s, Commit(p)))
  {
    var t := Apply(s, Commit(p));
    var c := s.clients[p];
    assert ClientOk(s, c);
    if t.log != s.log {
      var w := t.log[|s.log|];
      WriteKeeps(s, t, w, if c.Registrar? then Entry(w.i, c.body) else c.entry);
    }
  }

  lemma GetKeeps(s: State, p: int)
    requires Inv(s) && Enabled(s, Get(p))
    ensures Inv(Apply(s, Get(p)))
  {
    assert ClientOk(s, s.clients[p]);
  }

  lemma NextInv(s: State, a: Action)
    requires Inv(s) && Enabled(s, a)
    ensures Inv(Apply(s, a))
  {
    var t := Apply(s, a);
    if a.Commit? {
      CommitKeeps(s, a.p);
    } else if a.Get? {
      GetKeeps(s, a.p);
    } else if t.log != s.log {
      WriteKeeps(s, t, t.log[|s.log|], Entry(0, ""));
    }
  }

  lemma {:induction false} RunInv(s: State, acts: seq<Action>)
    requires Inv(s) && IsRun(s, acts)
    ensures Inv(After(s, acts))
    decreases |acts|
  {
    if acts != [] {
      NextInv(s, acts[0]);
      RunInv(Apply(s, acts[0]), acts[1..]);
    }
  }

  lemma ReachableInv(s: State)
    requires Reachable(s)
    ensures Inv(s)
  {
    var s0, acts :| Init(s0) && IsRun(s0, acts) && After(s0, acts) == s;
    RunInv(s0, acts);
  }

  lemma {:induction false} HitsGrow(log: seq<Write>, m: nat, n: nat)
    requires m < n <= |log| && log[m].Registered?
    ensures Hits(log[..m], 0, WriteIndex) < Hits(log[..n], 0, WriteIndex)
    decreases n
  {
    assert log[..n][..n - 1] == log[..n - 1];
    if m < n - 1 {
      HitsGrow(log, m, n - 1);
    }
  }

  /** Index allocation: over every run the n-th successful registration has index n, so indices
      are consecutive, ascending with registration and never given twice. */
  lemma IndicesConsecutive(s: State)
    requires Reachable(s)
    ensures NextIndex(s) == Hits(s.log, 0, WriteIndex)
    ensures forall n | 0 <= n < |s.log| && s.log[n].Registered? :: s.log[n].i == Hits(s.log[..n], 0, WriteIndex)
    ensures forall m, n | 0 <= m < n < |s.log| && s.log[m].Registered? && s.log[n].Registered? ::
              s.log[m].i < s.log[n].i
  {
    ReachableInv(s);
    forall m, n | 0 <= m < n < |s.log| && s.log[m].Registered? && s.log[n].Registered?
      ensures s.log[m].i < s.log[n].i
    {
      HitsGrow(s.log, m, n);
    }
  }

  /** No resurrection: an index is in the list exactly while it has been registered and not
      removed, and once removed nothing writes it again. */
  lemma NeverResurrected(s: State)
    requires Reachable(s)
    ensures forall i :: i in s.list <==> Registered(i) in s.log && Removed(i) !in s.log
    ensures forall i | i in s.list :: s.list[i].value.index == i
    ensures forall m, n | 0 <= m < n < |s.log| && s.log[m].Removed? :: !Touches(s.log[n], EntryAt(s.log[m].i))
  {
    ReachableInv(s);
  }

  /** Retries are bounded: a registrar has failed at most as often as others have registered,
      an updater at most as often as others have written its entry, since it began. */
  lemma RetriesBounded(s: State, p: int)
    requires Reachable(s) && p in s.clients
    ensures var c := s.clients[p];
            c.fails <= Hits(s.log, c.since, if c.Registrar? then WriteIndex else EntryAt(c.entry.index))
  {
    ReachableInv(s);
    assert ClientOk(s, s.clients[p]);
  }

  /** What changes the list: an entry disappears exactly by a guarded removal while its remover leads,
      appears exactly by a registrar's transaction, and changes only by an updater's, to the value
      that carries. */
  lemma ChangesExactly(s: State, a: Action, i: int)
    requires Reachable(s) && Enabled(s, a)
    ensures var t := Apply(s, a);
            && (i in s.list && i !in t.list <==> a == Remove(i, true) && i in s.list)
            && (i !in s.list && i in t.list <==>
                && a.Commit? && s.clients[a.p].Registrar?
                && s.clients[a.p].seen.value == Cell(i, WriteRev(s)))
            && (i in s.list && i in t.list && t.list[i] != s.list[i] <==>
                && a.Commit? && s.clients[a.p].Updater? && i in s.list && s.clients[a.p].entry.index == i
                && s.clients[a.p].revision == Some(s.list[i].modRev))
            && (i in s.list && i in t.list && t.list[i] != s.list[i] ==> t.list[i].value == s.clients[a.p].entry)
  {
    ReachableInv(s);
    if a.Commit? {
      assert ClientOk(s, s.clients[a.p]);
    }
    assert i in s.list ==> Registered(i) in s.log && Registered(i).i < NextIndex(s);
  }
}
