/** The grace period of sabakan-state-setter: a registry of machines that look unhealthy,
    updated pass by pass, and what it means over whole histories of passes. */
module GracePeriod {
  import opened Common

  datatype MachineState = Uninitialized | Healthy | Unhealthy | Unreachable | Updating | Retiring | Retired

  datatype NewState = Set(state: MachineState) | UnhealthyImmediate

  datatype Machine = Machine(serial: string, machineType: string, state: MachineState)

  /** The inputs of one pass: the machines sabakan lists, what the health check would decide for
      each (absent: do not change), and the machines whose keys could be deleted. */
  datatype Pass = Pass(machines: seq<Machine>, candidates: map<string, NewState>, cleared: set<string>, now: int)

  /** Serials identify machines. */
  ghost predicate DistinctSerials(machines: seq<Machine>) {
    forall i, j | 0 <= i < j < |machines| :: machines[i].serial != machines[j].serial
  }

  function Find(machines: seq<Machine>, x: string): Option<Machine> {
    if machines == [] then None
    else if machines[0].serial == x then Some(machines[0])
    else Find(machines[1..], x)
  }

  predicate Checked(st: MachineState) {
    st.Uninitialized? || st.Healthy? || st.Unhealthy? || st.Unreachable?
  }

  function Get(m: map<string, int>, x: string): Option<int> {
    if x in m then Some(m[x]) else None
  }

  /** What the pass wants for machine x. */
  function Wanted(p: Pass, x: string): Option<NewState> {
    var f := Find(p.machines, x);
    if f.None? then None
    else if Checked(f.value.state) && x in p.candidates then Some(p.candidates[x])
    else if f.value.state.Retiring? && x in p.cleared then Some(Set(Retired))
    else None
  }

  predicate Seen(p: Pass, x: string) {
    Find(p.machines, x).Some?
  }

  /** The pass sees the machine, would make it unhealthy, and it is not unhealthy yet. */
  predicate Suspect(p: Pass, x: string) {
    && Seen(p, x) && x in p.candidates && p.candidates[x] == Set(Unhealthy)
    && Find(p.machines, x).value.state in {Uninitialized, Healthy, Unreachable}
  }

  /** Since when the machine is registered, after the pass. */
  function Next(since: Option<int>, p: Pass, x: string): Option<int> {
    if !Seen(p, x) then since
    else if !Suspect(p, x) then None
    else if since.Some? then since
    else Some(p.now)
  }

  /** The grace period of a registered machine is over; an unknown type has none. */
  predicate Over(grace: map<string, int>, since: int, machineType: string, now: int) {
    machineType in grace ==> since + grace[machineType] < now
  }

  /** The update the pass sends for the machine. */
  function Sent(grace: map<string, int>, since: Option<int>, p: Pass, x: string): Option<MachineState> {
    var w := Wanted(p, x);
    if w.None? then None
    else
      var m := Find(p.machines, x).value;
      match w.value
      case UnhealthyImmediate => if m.state.Unhealthy? then None else Some(Unhealthy)
      case Set(st) =>
        if st == m.state then None
        else if st.Unhealthy? && !(since.Some? && Over(grace, since.value, m.machineType, p.now)) then None
        else Some(st)
  }

  lemma {:induction false} FindIs(machines: seq<Machine>, i: nat)
    requires DistinctSerials(machines) && i < |machines|
    ensures Find(machines, machines[i].serial) == Some(machines[i])
  {
    if i > 0 {
      assert machines[1..][i - 1] == machines[i];
      FindIs(machines[1..], i - 1);
    }
  }

  lemma {:induction false} FindMember(machines: seq<Machine>, x: string)
    ensures Find(machines, x).Some? ==>
              exists i :: 0 <= i < |machines| && machines[i] == Find(machines, x).value && machines[i].serial == x
    ensures Find(machines, x).None? ==> forall i | 0 <= i < |machines| :: machines[i].serial != x
  {
    if machines != [] && machines[0].serial != x {
      FindMember(machines[1..], x);
      if Find(machines, x).Some? {
        var i :| 0 <= i < |machines| - 1 && machines[1..][i] == Find(machines, x).value && machines[1..][i].serial == x;
        assert machines[i + 1] == machines[1..][i];
      }
    }
  }

  lemma FindSeen(machines: seq<Machine>, k: nat, x: string)
    requires k <= |machines|
    ensures Find(machines[..k], x).Some? <==> exists i | 0 <= i < k :: machines[i].serial == x
  {
    FindMember(machines[..k], x);
    if Find(machines[..k], x).Some? {
      var i :| 0 <= i < k && machines[..k][i].serial == x;
      assert machines[i].serial == x;
    } else {
      assert forall i | 0 <= i < k :: machines[..k][i] == machines[i];
    }
  }

  lemma FindNext(machines: seq<Machine>, k: nat, x: string)
    requires DistinctSerials(machines) && k < |machines|
    ensures Find(machines[..k + 1], x).Some? <==> Find(machines[..k], x).Some? || x == machines[k].serial
    ensures x == machines[k].serial ==> Find(machines[..k], x).None?
  {
    FindSeen(machines, k, x);
    FindSeen(machines, k + 1, x);
  }

  /** The machines that are checked and get a candidate. */
  ghost predicate HealthResult(p: Pass, r: map<string, NewState>) {
    forall x :: (x in r <==> Seen(p, x) && Checked(Find(p.machines, x).value.state) && x in p.candidates)
                && (x in r ==> r[x] == p.candidates[x])
  }

  ghost predicate RetireResult(p: Pass, r: map<string, NewState>) {
    forall x :: (x in r <==> Seen(p, x) && Find(p.machines, x).value.state.Retiring? && x in p.cleared)
                && (x in r ==> r[x] == Set(Retired))
  }

  method MachineHealthCheck(p: Pass) returns (r: map<string, NewState>)
    requires DistinctSerials(p.machines)
    ensures HealthResult(p, r)
  {
    r := map[];
    for i := 0 to |p.machines|
      invariant forall x | x in r :: x in p.candidates && r[x] == p.candidates[x]
      invariant forall x | x in r :: exists j :: 0 <= j < i && p.machines[j].serial == x && Checked(p.machines[j].state)
      invariant forall j | 0 <= j < i && Checked(p.machines[j].state) && p.machines[j].serial in p.candidates ::
                  p.machines[j].serial in r
    {
      var m := p.machines[i];
      if Checked(m.state) && m.serial in p.candidates {
        r := r[m.serial := p.candidates[m.serial]];
      }
    }
    forall x
      ensures x in r <==> Seen(p, x) && Checked(Find(p.machines, x).value.state) && x in p.candidates
    {
      FindMember(p.machines, x);
      if x in r {
        var j :| 0 <= j < |p.machines| && p.machines[j].serial == x && Checked(p.machines[j].state);
        FindIs(p.machines, j);
      }
    }
  }

  method MachineRetire(p: Pass) returns (r: map<string, NewState>)
    requires DistinctSerials(p.machines)
    ensures RetireResult(p, r)
  {
    r := map[];
    for i := 0 to |p.machines|
      invariant forall x | x in r :: x in p.cleared && r[x] == Set(Retired)
      invariant forall x | x in r ::
                  exists j :: 0 <= j < i && p.machines[j].serial == x && p.machines[j].state.Retiring?
      invariant forall j | 0 <= j < i && p.machines[j].state.Retiring? && p.machines[j].serial in p.cleared ::
                  p.machines[j].serial in r
    {
      var m := p.machines[i];
      if m.state.Retiring? && m.serial in p.cleared {
        r := r[m.serial := Set(Retired)];
      }
    }
    forall x
      ensures x in r <==> Seen(p, x) && Find(p.machines, x).value.state.Retiring? && x in p.cleared
    {
      FindMember(p.machines, x);
      if x in r {
        var j :| 0 <= j < |p.machines| && p.machines[j].serial == x && p.machines[j].state.Retiring?;
        FindIs(p.machines, j);
      }
    }
  }

  /** The two results never overlap, so the order of merging does not matter, and the merged
      map holds exactly what the pass wants. */
  lemma MergeOrder(p: Pass, health: map<string, NewState>, retire: map<string, NewState>)
    requires HealthResult(p, health) && RetireResult(p, retire)
    ensures health.Keys !! retire.Keys && health + retire == retire + health
    ensures forall x :: Wanted(p, x) == if x in health + retire then Some((health + retire)[x]) else None
  {
    assert forall x :: x !in health || x !in retire;
    assert (health + retire).Keys == (retire + health).Keys;
  }

  class Controller {
    const grace: map<string, int>
    var unhealthyMachines: map<string, int>

    constructor (grace: map<string, int>)
      ensures this.grace == grace && unhealthyMachines == map[]
    {
      this.grace := grace;
      unhealthyMachines := map[];
    }

    method RegisterUnhealthy(m: Machine, now: int) returns (over: bool)
      modifies this
      ensures var since := old(Get(unhealthyMachines, m.serial));
              && (over <==> since.Some? && Over(grace, since.value, m.machineType, now))
              && unhealthyMachines ==
                 if since.Some? then old(unhealthyMachines) else old(unhealthyMachines)[m.serial := now]
    {
      if m.serial !in unhealthyMachines {
        unhealthyMachines := unhealthyMachines[m.serial := now];
        return false;
      }
      if m.machineType !in grace {
        return true;
      }
      return unhealthyMachines[m.serial] + grace[m.machineType] < now;
    }

    method ClearUnhealthy(m: Machine)
      modifies this
      ensures unhealthyMachines == old(unhealthyMachines) - {m.serial}
    {
      unhealthyMachines := unhealthyMachines - {m.serial};
    }

    /** One machine of a pass. */
    method Judge(m: Machine, w: Option<NewState>, now: int) returns (sent: Option<MachineState>)
      modifies this
      ensures forall p: Pass | Find(p.machines, m.serial) == Some(m) && Wanted(p, m.serial) == w && p.now == now ::
                var since := old(Get(unhealthyMachines, m.serial));
                && Get(unhealthyMachines, m.serial) == Next(since, p, m.serial)
                && sent == Sent(grace, since, p, m.serial)
      ensures forall x | x != m.serial :: Get(unhealthyMachines, x) == old(Get(unhealthyMachines, x))
    {
      if w == None || w == Some(Set(m.state)) || (w == Some(UnhealthyImmediate) && m.state == Unhealthy) {
        ClearUnhealthy(m);
        sent := None;
      } else if w == Some(UnhealthyImmediate) {
        ClearUnhealthy(m);
        sent := Some(Unhealthy);
      } else if w == Some(Set(Unhealthy)) {
        var over := RegisterUnhealthy(m, now);
        sent := if over then Some(Unhealthy) else None;
      } else {
        ClearUnhealthy(m);
        sent := Some(w.value.state);
      }
    }

    /** One pass over all machines: each is registered and updated as the pass and its own
        registration say; other machines stay as they are. */
    method RunOnce(p: Pass) returns (sent: map<string, MachineState>)
      requires DistinctSerials(p.machines)
      modifies this
      ensures forall x :: Get(unhealthyMachines, x) == Next(old(Get(unhealthyMachines, x)), p, x)
      ensures forall x ::
                (if x in sent then Some(sent[x]) else None) == Sent(grace, old(Get(unhealthyMachines, x)), p, x)
    {
      sent := map[];
      var health := MachineHealthCheck(p);
      var retire := MachineRetire(p);
      MergeOrder(p, health, retire);
      var newStates := health + retire;
      for k := 0 to |p.machines|
        invariant forall x :: Get(unhealthyMachines, x) ==
                              if Find(p.machines[..k], x).Some? then Next(old(Get(unhealthyMachines, x)), p, x)
                              else old(Get(unhealthyMachines, x))
        invariant forall x :: (if x in sent then Some(sent[x]) else None) ==
                              if Find(p.machines[..k], x).Some? then Sent(grace, old(Get(unhealthyMachines, x)), p, x)
                              else None
      {
        var m := p.machines[k];
        FindIs(p.machines, k);
        forall x
          ensures Find(p.machines[..k + 1], x).Some? <==> Find(p.machines[..k], x).Some? || x == m.serial
          ensures x == m.serial ==> Find(p.machines[..k], x).None?
        {
          FindNext(p.machines, k, x);
        }
        var s := Judge(m, if m.serial in newStates then Some(newStates[m.serial]) else None, p.now);
        if s.Some? {
          sent := sent[m.serial := s.value];
        }
      }
      assert p.machines[..|p.machines|] == p.machines;
    }
  }

  /** Since when the machine is registered after a history of passes. */
  ghost function Track(h: seq<Pass>, x: string): Option<int> {
    if h == [] then None else Next(Track(h[..|h| - 1], x), h[|h| - 1], x)
  }

  /** From pass i on, before pass n, every pass that saw the machine suspected it. */
  ghost predicate Streak(h: seq<Pass>, i: nat, n: nat, x: string) {
    i < n <= |h| && Suspect(h[i], x) && forall j | i <= j < n && Seen(h[j], x) :: Suspect(h[j], x)
  }

  /** The last pass before i that saw the machine, if any, did not suspect it. */
  ghost predicate Begins(h: seq<Pass>, i: nat, x: string) {
    i <= |h| &&
    ((forall j | 0 <= j < i :: !Seen(h[j], x)) ||
     exists j :: 0 <= j < i && Seen(h[j], x) && !Suspect(h[j], x) && forall k | j < k < i :: !Seen(h[k], x))
  }

  lemma {:induction false} BeginsUnregistered(h: seq<Pass>, i: nat, x: string)
    requires Begins(h, i, x)
    ensures Track(h[..i], x) == None
  {
    if i > 0 {
      assert h[..i][..i - 1] == h[..i - 1];
      if !Seen(h[i - 1], x) {
        BeginsUnregistered(h, i - 1, x);
      }
    }
  }

  lemma {:induction false} StreakRegisters(h: seq<Pass>, i: nat, n: nat, x: string)
    requires Streak(h, i, n, x) && Begins(h, i, x)
    ensures Track(h[..n], x) == Some(h[i].now)
    decreases n
  {
    assert h[..n][..n - 1] == h[..n - 1];
    if i == n - 1 {
      BeginsUnregistered(h, i, x);
    } else {
      StreakRegisters(h, i, n - 1, x);
    }
  }

  lemma {:induction false} RegisteredStreak(h: seq<Pass>, n: nat, x: string) returns (i: nat)
    requires n <= |h| && Track(h[..n], x).Some?
    ensures Streak(h, i, n, x) && Begins(h, i, x) && Track(h[..n], x) == Some(h[i].now)
    decreases n
  {
    assert h[..n][..n - 1] == h[..n - 1];
    if Track(h[..n - 1], x).Some? {
      i := RegisteredStreak(h, n - 1, x);
    } else {
      i := n - 1;
      UnregisteredBegins(h, i, x);
    }
  }

  lemma {:induction false} UnregisteredBegins(h: seq<Pass>, i: nat, x: string)
    requires i <= |h| && Track(h[..i], x).None?
    ensures Begins(h, i, x)
  {
    if i > 0 {
      assert h[..i][..i - 1] == h[..i - 1];
      if !Seen(h[i - 1], x) {
        UnregisteredBegins(h, i - 1, x);
      }
    }
  }

  /** The grace period over whole histories: in pass n, a machine is reported unhealthy on the
      strength of an ordinary candidate exactly when the pass suspects it and an unbroken streak
      of suspicion began in an earlier pass, for a known type longer ago than its grace period. */
  lemma GraceExactly(grace: map<string, int>, h: seq<Pass>, n: nat, x: string)
    requires n < |h| && Seen(h[n], x)
    ensures var m := Find(h[n].machines, x).value;
            Wanted(h[n], x) == Some(Set(Unhealthy)) && Sent(grace, Track(h[..n], x), h[n], x) == Some(Unhealthy) <==>
            Suspect(h[n], x) && exists i: nat :: Streak(h, i, n, x) && Begins(h, i, x)
                                           && (m.machineType in grace ==> h[i].now + grace[m.machineType] < h[n].now)
  {
    if Track(h[..n], x).Some? {
      var i := RegisteredStreak(h, n, x);
    }
    forall i: nat | Streak(h, i, n, x) && Begins(h, i, x)
      ensures Track(h[..n], x) == Some(h[i].now)
    {
      StreakRegisters(h, i, n, x);
    }
  }

  /** What pass n owes machine x, told from the listed machines, the candidates, the cleared keys and
      the passes before.  A machine that is checked gets its candidate if that is news: at once,
      except that an ordinary candidate for unhealthy has to outlast the grace period.  A retiring
      machine whose keys are deleted gets retired.  Nothing else is sent. */
  ghost predicate Due(grace: map<string, int>, h: seq<Pass>, n: nat, x: string, st: MachineState)
    requires n < |h|
  {
    exists m | m in h[n].machines ::
      && m.serial == x
      && (|| (m.state == Retiring && x in h[n].cleared && st == Retired)
          || (m.state in {Uninitialized, Healthy, Unhealthy, Unreachable} && x in h[n].candidates && st != m.state
              && (|| (h[n].candidates[x] == UnhealthyImmediate && st == Unhealthy)
                  || (h[n].candidates[x] == Set(st)
                      && (st == Unhealthy ==> Outlasted(grace, h, n, x, m.machineType))))))
  }

  /** An unbroken streak of suspicion began in an earlier pass, for a known type longer ago than its
      grace period. */
  ghost predicate Outlasted(grace: map<string, int>, h: seq<Pass>, n: nat, x: string, machineType: string)
    requires n < |h|
  {
    exists i: nat :: Streak(h, i, n, x) && Begins(h, i, x)
                     && (machineType in grace ==> h[i].now + grace[machineType] < h[n].now)
  }

  lemma SentIsDue(grace: map<string, int>, h: seq<Pass>, n: nat, x: string, st: MachineState)
    requires n < |h| && DistinctSerials(h[n].machines)
    ensures Sent(grace, Track(h[..n], x), h[n], x) == Some(st) <==> Due(grace, h, n, x, st)
  {
    FindMember(h[n].machines, x);
    forall m | m in h[n].machines && m.serial == x
      ensures Find(h[n].machines, x) == Some(m)
    {
      var i :| 0 <= i < |h[n].machines| && h[n].machines[i] == m;
      FindIs(h[n].machines, i);
    }
    if Seen(h[n], x) {
      assert Find(h[n].machines, x).value in h[n].machines;
      GraceExactly(grace, h, n, x);
    }
  }

  /** Running the passes one after another sends in each pass exactly what is due. */
  method RunAll(c: Controller, h: seq<Pass>) returns (sent: seq<map<string, MachineState>>)
    requires c.unhealthyMachines == map[] && forall n | 0 <= n < |h| :: DistinctSerials(h[n].machines)
    modifies c
    ensures |sent| == |h|
    ensures forall n, x, st | 0 <= n < |h| :: (x in sent[n] && sent[n][x] == st) <==> Due(c.grace, h, n, x, st)
  {
    sent := [];
    for n := 0 to |h|
      invariant |sent| == n
      invariant forall x :: Get(c.unhealthyMachines, x) == Track(h[..n], x)
      invariant forall k, x, st | 0 <= k < n :: (x in sent[k] && sent[k][x] == st) <==> Due(c.grace, h, k, x, st)
    {
      var r := c.RunOnce(h[n]);
      assert h[..n + 1][..n] == h[..n];
      forall x, st
        ensures (x in r && r[x] == st) <==> Due(c.grace, h, n, x, st)
      {
        SentIsDue(c.grace, h, n, x, st);
      }
      sent := sent + [r];
    }
  }
}
