/** neco-rebooter against its two stores.  The controller may crash between any two storage
    operations; the command line adds and cancels list entries and CKE advances or removes
    queue entries at any time. */
module RebooterProtocol {
  import opened RebooterPlan

  /** A queue entry in CKE's store, with the list entry it was registered for. */
  datatype Item = Item(node: string, status: QueueStatus, backoff: nat, owner: int, group: string)

  /** What has become of a list entry's latest registration: still in the queue, withdrawn by
      the controller, or taken away by CKE without the controller having withdrawn it. */
  datatype Life = InQueue(k: int) | TakenBack | Served

  datatype Control =
    | Resting
    | HasList(list: seq<Entry>)
    | HasBoth(list: seq<Entry>, queue: seq<QueueEntry>)
    | Working(tasks: seq<Task>, half: bool)     // half: the first write of the first task is done

  datatype State = State(
    list: map<int, Entry>,
    queue: map<int, Item>,
    group: string,
    ctl: Control,
    nextList: int,
    nextQueue: int,
    life: map<int, Life>)

  datatype Action =
    | ReadList(l: seq<Entry>)
    | ReadQueue(q: seq<QueueEntry>)
    | Decide(enabled: bool, candidates: seq<string>, ok: set<int>)
    | Write
    | Crash
    | Add(node: string, group: string, time: string)
    | Cancel(i: int)
    | Advance(k: int, status: QueueStatus, backoff: nat)
    | Remove(k: int)

  function AsRead(k: int, x: Item): QueueEntry {
    QueueEntry(k, x.node, x.status, x.backoff)
  }

  predicate Live(s: State, k: int) {
    k in s.queue && s.queue[k].status != Withdrawn
  }

  /** Both stores are read in key order. */
  ghost predicate ListsAll(s: State, l: seq<Entry>) {
    && (forall e | e in l :: e.index in s.list && s.list[e.index] == e)
    && (forall i | i in s.list :: s.list[i] in l)
    && (forall a, b | 0 <= a < b < |l| :: l[a].index < l[b].index)
  }

  ghost predicate QueuesAll(s: State, q: seq<QueueEntry>) {
    && (forall x | x in q :: x.index in s.queue && AsRead(x.index, s.queue[x.index]) == x)
    && (forall k | k in s.queue :: AsRead(k, s.queue[k]) in q)
    && (forall a, b | 0 <= a < b < |q| :: q[a].index < q[b].index)
  }

  ghost predicate Enabled(s: State, a: Action) {
    match a
    case ReadList(l) => s.ctl.Resting? && ListsAll(s, l)
    case ReadQueue(q) => s.ctl.HasList? && QueuesAll(s, q)
    case Decide(_, _, _) => s.ctl.HasBoth?
    case Write => s.ctl.Working? && s.ctl.tasks != []
    case Crash => true
    case Add(node, _, _) => forall i | i in s.list :: s.list[i].node != node
    case Cancel(i) => i in s.list
    case Advance(k, _, _) => Live(s, k)
    case Remove(k) => k in s.queue
  }

  /** Overwrite a list entry with the controller's copy; false if it is gone. */
  function SetList(s: State, e: Entry): State {
    if e.index in s.list then s.(list := s.list[e.index := e]) else s
  }

  /** Withdraw a queue entry. */
  function Withdraw(s: State, k: int): State {
    if k !in s.queue then s else
    var x := s.queue[k];
    s.(queue := s.queue[k := x.(status := Withdrawn)],
       life := if x.owner in s.life && s.life[x.owner] == InQueue(k) then s.life[x.owner := TakenBack] else s.life)
  }

  function Enlist(s: State, e: Entry): State {
    s.(queue := s.queue[s.nextQueue := Item(e.node, Waiting, 0, e.index, e.group)],
       nextQueue := s.nextQueue + 1,
       life := s.life[e.index := InQueue(s.nextQueue)])
  }

  function Next(s: State, rest: seq<Task>): State {
    s.(ctl := if rest == [] then Resting else Working(rest, false))
  }

  function Halfway(s: State): State
    requires s.ctl.Working?
  {
    s.(ctl := s.ctl.(half := true))
  }

  /** A write of a queue entry that is gone fails, and the pass ends there. */
  function WriteStep(s: State): State
    requires s.ctl.Working? && s.ctl.tasks != []
  {
    var t, half, rest := s.ctl.tasks[0], s.ctl.half, s.ctl.tasks[1..];
    match t
    case Dequeue(e, q) =>
      if !half then
        if e.index in s.list then Halfway(SetList(s, e.(status := Pending))) else s.(ctl := Resting)
      else if q.index in s.queue then Next(Withdraw(s, q.index), rest) else s.(ctl := Resting)
    case Drop(e, found) =>
      if found.Some? && !half then
        if found.value.index in s.queue then Halfway(Withdraw(s, found.value.index)) else s.(ctl := Resting)
      else Next(s.(list := s.list - {e.index}), rest)
    case Orphan(q) =>
      if q.index in s.queue then Next(Withdraw(s, q.index), rest) else s.(ctl := Resting)
    case Finish(e) => Next(s.(list := s.list - {e.index}), rest)
    case Enqueue(e) =>
      if !half then Halfway(Enlist(s, e))
      else if e.index in s.list then Next(SetList(s, e.(status := Queued)), rest) else s.(ctl := Resting)
    case Move(g) => Next(s.(group := g), rest)
  }

  function Apply(s: State, a: Action): State
    requires Enabled(s, a)
  {
    match a
    case ReadList(l) => s.(ctl := HasList(l))
    case ReadQueue(q) => s.(ctl := HasBoth(s.ctl.list, q))
    case Decide(enabled, candidates, ok) =>
      Next(s, Plan(View(s.ctl.list, s.ctl.queue, s.group, ok), enabled, candidates))
    case Write => WriteStep(s)
    case Crash => s.(ctl := Resting)
    case Add(node, group, time) =>
      s.(list := s.list[s.nextList := Entry(s.nextList, node, group, time, Pending)], nextList := s.nextList + 1)
    case Cancel(i) => s.(list := s.list[i := s.list[i].(status := Cancelled)])
    case Advance(k, status, backoff) =>
      s.(queue := s.queue[k := s.queue[k].(status := status, backoff := backoff)])
    case Remove(k) =>
      var o := s.queue[k].owner;
      s.(queue := s.queue - {k},
         life := if o in s.life && s.life[o] == InQueue(k) then s.life[o := Served] else s.life)
  }

  ghost predicate Init(s: State) {
    s.list == map[] && s.queue == map[] && s.ctl == Resting && s.life == map[]
  }

  ghost predicate IsRun(s: State, acts: seq<Action>)
    decreases |acts|
  {
    acts == [] || (Enabled(s, acts[0]) && IsRun(Apply(s, acts[0]), acts[1..]))
  }

  ghost function After(s: State, acts: seq<Action>): State
    requires IsRun(s, acts)
    decreases |acts|
  {
    if acts == [] then s else After(Apply(s, acts[0]), acts[1..])
  }

  ghost predicate Reachable(s: State) {
    exists s0, acts :: Init(s0) && IsRun(s0, acts) && After(s0, acts) == s
  }
}
