/** Leader-guarded upload of contents: a worker campaigns, looks for a verdict on its version,
    uploads if there is none, and records the outcome while its leader key exists. */
module Contents {
  import opened Common
  import opened Election

  datatype Kind = SabakanContents | DHCPJSON | CKEContents | CKETemplate | UserResources

  datatype Verdict = Verdict(version: string, success: bool)

  /** What has happened, oldest first. */
  datatype Event =
    | Started(kind: Kind, version: string)                      // an upload begins
    | Recorded(kind: Kind, version: string, success: bool)
    | Adopted(kind: Kind, version: string, success: bool)       // a worker returns a stored verdict
    | Cleared

  datatype Phase = Campaigning | Elected | Uploading | Uploaded(ok: bool) | Returned(success: bool)

  /** One call of an update step; each has an etcd session, hence a leader key, of its own. */
  datatype Call = Call(kind: Kind, version: string, phase: Phase)

  datatype State = State(
    records: map<Kind, Verdict>,
    queue: seq<int>,                  // leader keys of calls, oldest first
    calls: map<int, Call>,
    log: seq<Event>)

  datatype Action =
    | Campaign(u: int, kind: Kind, version: string)
    | Win(u: int)
    | Look(u: int)
    | Finish(u: int, ok: bool)
    | Record(u: int, heard: bool)     // the guarded put; its reply may be lost
    | Fail(u: int)                    // an error or a crash anywhere
    | LoseKey(u: int)                 // lease expiry or resignation
    | Clear                           // the recover command

  ghost predicate Init(s: State) {
    s.records == map[] && s.queue == [] && s.calls == map[] && s.log == []
  }

  predicate Enabled(s: State, a: Action) {
    match a
    case Campaign(u, _, _) => u !in s.calls && u !in s.queue
    case Win(u) => u in s.calls && s.calls[u].phase.Campaigning? && (u !in s.queue || Leads(s.queue, u))
    case Look(u) => u in s.calls && s.calls[u].phase.Elected?
    case Finish(u, _) => u in s.calls && s.calls[u].phase.Uploading?
    case Record(u, _) => u in s.calls && s.calls[u].phase.Uploaded?
    case Fail(u) => u in s.calls && !s.calls[u].phase.Returned?
    case LoseKey(u) => u in s.queue
    case Clear => true
  }

  function Move(s: State, u: int, p: Phase): State
    requires u in s.calls
  {
    s.(calls := s.calls[u := s.calls[u].(phase := p)])
  }

  /** The stored verdict counts only for the version of the request. */
  function LookStep(s: State, u: int): State
    requires u in s.calls
  {
    var c := s.calls[u];
    if c.kind in s.records && s.records[c.kind].version == c.version then
      var ok := s.records[c.kind].success;
      Move(s, u, Returned(ok)).(log := s.log + [Adopted(c.kind, c.version, ok)])
    else
      Move(s, u, Uploading).(log := s.log + [Started(c.kind, c.version)])
  }

  /** The guarded put; without the leader key it fails and so does the call. */
  function RecordStep(s: State, u: int, heard: bool): State
    requires u in s.calls && s.calls[u].phase.Uploaded?
  {
    var c := s.calls[u];
    var ok := c.phase.ok;
    if u in s.queue then
      Move(s, u, Returned(ok && heard)).(records := s.records[c.kind := Verdict(c.version, ok)],
                                         log := s.log + [Recorded(c.kind, c.version, ok)])
    else Move(s, u, Returned(false))
  }

  function Apply(s: State, a: Action): State
    requires Enabled(s, a)
  {
    match a
    case Campaign(u, kind, version) =>
      s.(queue := Enter(s.queue, u), calls := s.calls[u := Call(kind, version, Campaigning)])
    case Win(u) => Move(s, u, Elected)
    case Look(u) => LookStep(s, u)
    case Finish(u, ok) =>
      // a failed template upload is not recorded
      Move(s, u, if s.calls[u].kind.CKETemplate? && !ok then Returned(false) else Uploaded(ok))
    case Record(u, heard) => RecordStep(s, u, heard)
    case Fail(u) => Move(s, u, Returned(false))
    case LoseKey(u) => s.(queue := Expire(s.queue, u))
    case Clear => s.(records := map[], log := s.log + [Cleared])
  }

  ghost predicate IsRun(s: State, acts: seq<Action>)
    decreases |acts|
  {
    acts == [] || (Enabled(s, acts[0]) && IsRun(Apply(s, acts[0]), acts[1..]))
  }

  ghost function After(s: State, acts: seq<Action>): State
    requires IsRun(s, acts)
    decreases |acts|
  {
    if acts == [] then s else After(Apply(s, acts[0]), acts[1..])
  }

  ghost predicate Reachable(s: State) {
    exists s0, acts :: Init(s0) && IsRun(s0, acts) && After(s0, acts) == s
  }

  /** The verdict in force for a kind after these events. */
  function InForce(log: seq<Event>, kind: Kind): Option<Verdict> {
    if log == [] then None
    else
      match log[|log| - 1]
      case Cleared => None
      case Recorded(k, v, ok) => if k == kind then Some(Verdict(v, ok)) else InForce(log[..|log| - 1], kind)
      case _ => InForce(log[..|log| - 1], kind)
  }

  ghost predicate Settled(log: seq<Event>, kind: Kind, version: string) {
    InForce(log, kind).Some? && InForce(log, kind).value.version == version
  }

  /** An upload or record happens only while no verdict on its version is in force, and an
      adopted verdict is the one in force. */
  ghost predicate EventOk(before: seq<Event>, e: Event) {
    match e
    case Started(k, v) => !Settled(before, k, v)
    case Recorded(k, v, ok) => !Settled(before, k, v) && (k.CKETemplate? ==> ok)
    case Adopted(k, v, ok) => InForce(before, k) == Some(Verdict(v, ok))
    case Cleared => true
  }

  ghost predicate LogOk(log: seq<Event>) {
    forall n | 0 <= n < |log| :: EventOk(log[..n], log[n])
  }

  /** A call past its election that still owns its key leads, and until it records, no verdict
      on its version is in force; one that returned success has a recorded success behind it. */
  ghost predicate CallOk(s: State, u: int)
    requires u in s.calls
  {
    var c := s.calls[u];
    && (!c.phase.Campaigning? && !c.phase.Returned? && u in s.queue ==> Leads(s.queue, u))
    && ((c.phase.Uploading? || c.phase.Uploaded?) && u in s.queue ==> !Settled(s.log, c.kind, c.version))
    && (c.phase.Uploaded? && c.kind.CKETemplate? ==> c.phase.ok)
    && (c.phase == Returned(true) ==> Recorded(c.kind, c.version, true) in s.log)
  }

  ghost predicate Inv(s: State) {
    && Distinct(s.queue) && LogOk(s.log)
    && (forall k: Kind :: (k in s.records <==> InForce(s.log, k).Some?))
    && (forall k | k in s.records :: InForce(s.log, k) == Some(s.records[k]))
    && (forall k, v, ok | InForce(s.log, k) == Some(Verdict(v, ok)) :: Recorded(k, v, ok) in s.log)
    && forall u | u in s.calls :: CallOk(s, u)
  }

  lemma InForceAppend(log: seq<Event>, e: Event, k: Kind)
    ensures InForce(log + [e], k) ==
            match e
            case Cleared => None
            case Recorded(k', v, ok) => if k' == k then Some(Verdict(v, ok)) else InForce(log, k)
            case _ => InForce(log, k)
  {
    assert (log + [e])[..|log|] == log;
  }

  lemma LogGrows(log: seq<Event>, e: Event)
    requires LogOk(log) && EventOk(log, e)
    ensures LogOk(log + [e])
  {
    var t := log + [e];
    forall n | 0 <= n < |t|
      ensures EventOk(t[..n], t[n])
    {
      assert t[..n] == log[..n];
    }
    assert t[..|log|] == log;
  }

  /** An event that fits keeps the log and its link to the stored records. */
  lemma EventKeeps(s: State, t: State, e: Event)
    requires Inv(s) && EventOk(s.log, e) && t.log == s.log + [e] && t.queue == s.queue
    requires t.records == match e case Cleared => map[]
                                  case Recorded(k, v, ok) => s.records[k := Verdict(v, ok)]
                                  case _ => s.records
    requires forall u | u in t.calls :: CallOk(t, u)
    ensures Inv(t)
  {
    LogGrows(s.log, e);
    forall k
      ensures k in t.records <==> InForce(t.log, k).Some?
      ensures k in t.records ==> InForce(t.log, k) == Some(t.records[k])
      ensures forall v, ok | InForce(t.log, k) == Some(Verdict(v, ok)) :: Recorded(k, v, ok) in t.log
    {
      InForceAppend(s.log, e, k);
    }
  }

  /** The others are fine after an event of u, the only live leader if it records. */
  lemma OthersKeep(s: State, t: State, e: Event, u: int, v: int)
    requires Inv(s) && u in s.calls && v in s.calls && v != u
    requires t.log == s.log + [e] && t.queue == s.queue && v in t.calls && t.calls[v] == s.calls[v]
    requires e.Recorded? ==> u in s.queue && s.calls[u].phase.Uploaded?
    ensures CallOk(t, v)
  {
    assert CallOk(s, u) && CallOk(s, v);
    InForceAppend(s.log, e, s.calls[v].kind);
  }

  lemma LookKeeps(s: State, u: int)
    requires Inv(s) && Enabled(s, Look(u))
    ensures Inv(Apply(s, Look(u)))
  {
    var t := Apply(s, Look(u));
    var e := t.log[|s.log|];
    var c := s.calls[u];
    assert CallOk(s, u);
    InForceAppend(s.log, e, c.kind);
    assert InForce(s.log, c.kind).Some? <==> c.kind in s.records;
    forall v | v in t.calls
      ensures CallOk(t, v)
    {
      if v != u {
        OthersKeep(s, t, e, u, v);
      }
    }
    EventKeeps(s, t, e);
  }

  lemma RecordKeeps(s: State, u: int, heard: bool)
    requires Inv(s) && Enabled(s, Record(u, heard)) && u in s.queue
    ensures Inv(Apply(s, Record(u, heard)))
  {
    var t := Apply(s, Record(u, heard));
    var e := t.log[|s.log|];
    assert CallOk(s, u);
    forall v | v in t.calls
      ensures CallOk(t, v)
    {
      if v != u {
        OthersKeep(s, t, e, u, v);
      }
    }
    EventKeeps(s, t, e);
  }

  lemma ClearKeeps(s: State)
    requires Inv(s)
    ensures Inv(Apply(s, Clear))
  {
    var t := Apply(s, Clear);
    forall v | v in t.calls
      ensures CallOk(t, v)
    {
      assert CallOk(s, v);
      InForceAppend(s.log, Cleared, s.calls[v].kind);
    }
    EventKeeps(s, t, Cleared);
  }

  /** Steps that change neither log nor records. */
  lemma QuietKeeps(s: State, a: Action)
    requires Inv(s) && Enabled(s, a) && !a.Look? && !a.Clear? && (a.Record? ==> a.u !in s.queue)
    ensures Inv(Apply(s, a))
  {
    var t := Apply(s, a);
    if a.LoseKey? {
      ExpireKeeps(s.queue, a.u, a.u);
    } else if a.Campaign? {
      EnterKeeps(s.queue, a.u, a.u);
    }
    forall v | v in t.calls
      ensures CallOk(t, v)
    {
      assert v in s.calls ==> CallOk(s, v);
      if a.LoseKey? {
        ExpireKeeps(s.queue, a.u, v);
      } else if a.Campaign? {
        EnterKeeps(s.queue, a.u, v);
      }
    }
  }

  lemma NextInv(s: State, a: Action)
    requires Inv(s) && Enabled(s, a)
    ensures Inv(Apply(s, a))
  {
    if a.Look? {
      LookKeeps(s, a.u);
    } else if a.Clear? {
      ClearKeeps(s);
    } else if a.Record? && a.u in s.queue {
      RecordKeeps(s, a.u, a.heard);
    } else {
      QuietKeeps(s, a);
    }
  }

  lemma {:induction false} RunInv(s: State, acts: seq<Action>)
    requires Inv(s) && IsRun(s, acts)
    ensures Inv(After(s, acts))
    decreases |acts|
  {
    if acts != [] {
      NextInv(s, acts[0]);
      RunInv(Apply(s, acts[0]), acts[1..]);
    }
  }

  lemma ReachableInv(s: State)
    requires Reachable(s)
    ensures Inv(s)
  {
    var s0, acts :| Init(s0) && IsRun(s0, acts) && After(s0, acts) == s;
    RunInv(s0, acts);
  }

  /** Between m and n the kind is neither cleared nor recorded for another version. */
  ghost predicate Undisturbed(log: seq<Event>, m: nat, n: nat, kind: Kind, version: string) {
    forall i | m <= i < n <= |log| ::
      !log[i].Cleared? && (log[i].Recorded? && log[i].kind == kind ==> log[i].version == version)
  }

  /** A record stays in force until the kind is disturbed. */
  lemma {:induction false} StaysInForce(log: seq<Event>, m: nat, n: nat)
    requires LogOk(log) && m < n <= |log| && log[m].Recorded? && Undisturbed(log, m, n, log[m].kind, log[m].version)
    ensures InForce(log[..n], log[m].kind) == Some(Verdict(log[m].version, log[m].success))
    decreases n
  {
    assert log[..n] == log[..n - 1] + [log[n - 1]];
    InForceAppend(log[..n - 1], log[n - 1], log[m].kind);
    if m < n - 1 {
      StaysInForce(log, m, n - 1);
      assert EventOk(log[..n - 1], log[n - 1]);
    }
  }

  /** One verdict per version: once a verdict is recorded, until a clear or a record of another
      version, it is not recorded again, nobody starts another upload of that version, and
      everyone who looks returns that same verdict. */
  lemma OneVerdict(s: State, m: nat, n: nat)
    requires Reachable(s) && m < n < |s.log| && s.log[m].Recorded?
    requires Undisturbed(s.log, m, n, s.log[m].kind, s.log[m].version)
    ensures s.log[n] != Started(s.log[m].kind, s.log[m].version)
    ensures s.log[n].Recorded? && s.log[n].kind == s.log[m].kind ==> s.log[n].version != s.log[m].version
    ensures s.log[n].Adopted? && s.log[n].kind == s.log[m].kind ==>
              s.log[n].version == s.log[m].version && s.log[n].success == s.log[m].success
  {
    ReachableInv(s);
    StaysInForce(s.log, m, n);
    assert EventOk(s.log[..n], s.log[n]);
  }

  /** A call that returns success has a recorded success of its own version behind it; a
      failure of the template upload is never recorded, so the next winner tries again. */
  lemma SuccessIsRecorded(s: State)
    requires Reachable(s)
    ensures forall u | u in s.calls && s.calls[u].phase == Returned(true) ::
              Recorded(s.calls[u].kind, s.calls[u].version, true) in s.log
    ensures forall n | 0 <= n < |s.log| && s.log[n].Recorded? && s.log[n].kind.CKETemplate? :: s.log[n].success
  {
    ReachableInv(s);
    forall u | u in s.calls && s.calls[u].phase == Returned(true)
      ensures Recorded(s.calls[u].kind, s.calls[u].version, true) in s.log
    {
      assert CallOk(s, u);
    }
    forall n | 0 <= n < |s.log| && s.log[n].Recorded? && s.log[n].kind.CKETemplate?
      ensures s.log[n].success
    {
      assert EventOk(s.log[..n], s.log[n]);
    }
  }

  lemma {:induction false} RunConcat(s: State, a: seq<Action>, b: seq<Action>)
    requires IsRun(s, a) && IsRun(After(s, a), b)
    ensures IsRun(s, a + b) && After(s, a + b) == After(After(s, a), b)
    decreases |a|
  {
    if a == [] {
      assert a + b == b;
    } else {
      RunConcat(Apply(s, a[0]), a[1..], b);
      assert (a + b)[1..] == a[1..] + b;
    }
  }

  lemma RunOne(s: State, a: Action, rest: seq<Action>)
    requires Enabled(s, a) && IsRun(Apply(s, a), rest)
    ensures IsRun(s, [a] + rest) && After(s, [a] + rest) == After(Apply(s, a), rest)
  {
    assert ([a] + rest)[1..] == rest;
  }

  /** A call that nobody disturbs records its outcome and frees the election. */
  lemma Uncontested(s: State, u: int, k: Kind, v: string, ok: bool) returns (acts: seq<Action>)
    requires s.queue == [] && u !in s.calls && (k.CKETemplate? ==> ok)
    requires k in s.records ==> s.records[k].version != v
    ensures IsRun(s, acts)
    ensures After(s, acts) == State(s.records[k := Verdict(v, ok)], [], s.calls[u := Call(k, v, Returned(ok))],
                                    s.log + [Started(k, v)] + [Recorded(k, v, ok)])
  {
    var s1 := Apply(s, Campaign(u, k, v));
    var s2 := Apply(s1, Win(u));
    var s3 := Apply(s2, Look(u));
    var s4 := Apply(s3, Finish(u, ok));
    var s5 := Apply(s4, Record(u, true));
    var s6 := Apply(s5, LoseKey(u));
    RunOne(s5, LoseKey(u), []);
    RunOne(s4, Record(u, true), [LoseKey(u)] + []);
    RunOne(s3, Finish(u, ok), [Record(u, true)] + ([LoseKey(u)] + []));
    acts := [Finish(u, ok)] + ([Record(u, true)] + ([LoseKey(u)] + []));
    RunOne(s2, Look(u), acts);
    RunOne(s1, Win(u), [Look(u)] + acts);
    RunOne(s, Campaign(u, k, v), [Win(u)] + ([Look(u)] + acts));
    acts := [Campaign(u, k, v)] + ([Win(u)] + ([Look(u)] + acts));
    assert s6.calls == s.calls[u := Call(k, v, Returned(ok))];
  }

  /** Across requests a version can be judged twice without a clear, if another version was
      judged in between. */
  lemma JudgedAgain(s: State, k: Kind, v: string, w: string) returns (acts: seq<Action>)
    requires Init(s) && v != w
    ensures IsRun(s, acts)
    ensures After(s, acts).log == [Started(k, v), Recorded(k, v, true), Started(k, w), Recorded(k, w, true),
                                   Started(k, v), Recorded(k, v, true)]
  {
    acts := Uncontested(s, 0, k, v, true);
    var s1 := After(s, acts);
    var more := Uncontested(s1, 1, k, w, true);
    RunConcat(s, acts, more);
    acts := acts + more;
    more := Uncontested(After(s1, more), 2, k, v, true);
    RunConcat(s, acts, more);
    acts := acts + more;
  }

  // ---- Exactly when a version can be judged ----------------------------------------

  /** All leader keys expire. */
  lemma {:induction false} AllExpire(s: State, n: nat) returns (acts: seq<Action>)
    requires n == |s.queue|
    ensures IsRun(s, acts) && After(s, acts) == s.(queue := [])
    decreases n
  {
    if n == 0 {
      acts := [];
    } else {
      var u := s.queue[0];
      var rest := AllExpire(Apply(s, LoseKey(u)), n - 1);
      RunOne(s, LoseKey(u), rest);
      acts := [LoseKey(u)] + rest;
    }
  }

  lemma {:induction false} UnusedCall(used: set<int>) returns (u: int)
    ensures forall x | x in used :: x < u
  {
    if used == {} {
      u := 0;
    } else {
      var x := Element(used);
      var rest := used - {x};
      u := UnusedCall(rest);
      if u <= x {
        u := x + 1;
      }
      forall y | y in used
        ensures y < u
      {
        assert y == x || y in rest;
      }
    }
  }

  /** A continuation, without a clear and without a record of another version, ends by recording
      the verdict ok on version v. */
  ghost predicate Records(s: State, acts: seq<Action>, k: Kind, v: string, ok: bool) {
    IsRun(s, acts) &&
    var t := After(s, acts);
    |s.log| < |t.log| && s.log <= t.log && t.log[|t.log| - 1] == Recorded(k, v, ok)
    && Undisturbed(t.log, |s.log|, |t.log|, k, v)
  }

  /** A version on which no verdict is in force can be judged, either way except that template
      failures are not recorded. */
  lemma UnsettledRecords(s: State, k: Kind, v: string, ok: bool) returns (acts: seq<Action>)
    requires Inv(s) && !Settled(s.log, k, v) && (k.CKETemplate? ==> ok)
    ensures Records(s, acts, k, v, ok)
  {
    acts := AllExpire(s, |s.queue|);
    var t := After(s, acts);
    var u := UnusedCall(t.calls.Keys);
    assert u !in t.calls;
    var more := Uncontested(t, u, k, v, ok);
    RunConcat(s, acts, more);
    acts := acts + more;
  }

  /** The record behind the verdict in force, undisturbed since. */
  lemma {:induction false} Origin(log: seq<Event>, k: Kind) returns (m: nat)
    requires InForce(log, k).Some?
    ensures m < |log| && log[m] == Recorded(k, InForce(log, k).value.version, InForce(log, k).value.success)
    ensures Undisturbed(log, m, |log|, k, log[m].version)
  {
    var n := |log| - 1;
    if log[n].Recorded? && log[n].kind == k {
      m := n;
    } else {
      m := Origin(log[..n], k);
      var v := log[m].version;
      assert forall i | m <= i < n :: log[..n][i] == log[i];
      assert Undisturbed(log, m, |log|, k, v);
    }
  }

  lemma ReachableGoesOn(s: State, acts: seq<Action>)
    requires Reachable(s) && IsRun(s, acts)
    ensures Reachable(After(s, acts))
  {
    var s0, before :| Init(s0) && IsRun(s0, before) && After(s0, before) == s;
    RunConcat(s0, before, acts);
  }

  /** Exactly when: in every reachable state, some continuation without a clear and without
      another version's verdict records a verdict on v if and only if none on v is in force. */
  lemma JudgedExactly(s: State, k: Kind, v: string)
    requires Reachable(s)
    ensures (exists acts, ok :: Records(s, acts, k, v, ok)) <==> !Settled(s.log, k, v)
  {
    ReachableInv(s);
    if !Settled(s.log, k, v) {
      var acts := UnsettledRecords(s, k, v, true);
    } else {
      forall acts, ok
        ensures !Records(s, acts, k, v, ok)
      {
        if Records(s, acts, k, v, ok) {
          SettledStays(s, acts, k, v, ok);
        }
      }
    }
  }

  lemma SettledStays(s: State, acts: seq<Action>, k: Kind, v: string, ok: bool)
    requires Reachable(s) && Settled(s.log, k, v)
    ensures !Records(s, acts, k, v, ok)
  {
    if Records(s, acts, k, v, ok) {
      var t := After(s, acts);
      var m := Origin(s.log, k);
      ReachableGoesOn(s, acts);
      assert forall i | 0 <= i < |s.log| :: t.log[i] == s.log[i];
      OneVerdict(t, m, |t.log| - 1);
    }
  }
}
