/** Round robin over groups: the rotation of a slice with spare capacity, and the fairness of
    rotating, filtering and moving on. */
module Rotation {
  import opened Common
  import opened RebooterPlan
  import opened RebooterDecide

  /** The slice rotated left by k; unchanged when k is no index. */
  function Rotated<T(==)>(s: seq<T>, k: int): seq<T> {
    if 0 <= k < |s| then s[k..] + s[..k] else s
  }

  lemma ModOnce(x: nat, n: nat)
    requires x < n + n
    ensures x % n == if x < n then x else x - n
  {
  }

  lemma RotatedAt<T>(s: seq<T>, k: nat, i: nat)
    requires k < |s| && i < |s|
    ensures |Rotated(s, k)| == |s| && Rotated(s, k)[i] == s[(i + k) % |s|]
  {
    ModOnce(i + k, |s|);
  }

  /** Rotation by appending the head of a slice to its tail.  The slice is the first n cells of
      its backing array; when the array has room behind the slice, appending writes there. */
  method CycleSlices<T>(a: array<T>, n: nat, offset: int) returns (b: array<T>, start: nat)
    requires n <= a.Length
    modifies a
    ensures a[..n] == old(a[..n])
    ensures b == a || fresh(b)
    ensures start + n <= b.Length && b[start..start + n] == Rotated(old(a[..n]), offset)
  {
    if offset < 0 || n == 0 || offset >= n {
      return a, 0;
    }
    ghost var s := a[..n];
    if n + offset <= a.Length {
      for k := 0 to offset
        invariant a[..n] == s && a[n..n + k] == s[..k]
      {
        a[n + k] := a[k];
        assert a[n..n + k + 1] == a[n..n + k] + [s[k]];
      }
      assert a[offset..offset + n] == a[..n][offset..] + a[n..n + offset];
      return a, offset;
    }
    b := new T[n](i requires 0 <= i < n reads a => if i + offset < n then a[i + offset] else a[i + offset - n]);
    start := 0;
    assert b[..n] == s[offset..] + s[..offset];
  }

  function IndexOf<T(==)>(s: seq<T>, x: T): (i: int)
    ensures -1 <= i < |s|
    ensures i >= 0 ==> s[i] == x && x !in s[..i]
    ensures i < 0 ==> x !in s
  {
    if s == [] then -1
    else if s[0] == x then 0
    else var i := IndexOf(s[1..], x); if i < 0 then -1 else i + 1
  }

  /** The groups with a node that may be rebooted now, in the given order. */
  function Keep<T(==)>(s: seq<T>, has: set<T>): seq<T> {
    if s == [] then [] else (if s[0] in has then [s[0]] else []) + Keep(s[1..], has)
  }

  /** One rotate-filter-move step from the processing group p. */
  function Step<T(==)>(groups: seq<T>, has: set<T>, p: T): T {
    NextGroup(Keep(Rotated(groups, IndexOf(groups, p)), has), p)
  }

  function Iterate<T>(f: T -> T, p: T, t: nat): T {
    if t == 0 then p else f(Iterate(f, p, t - 1))
  }

  /** The processing group after t steps. */
  function Visit<T(==)>(groups: seq<T>, has: set<T>, p: T, t: nat): T {
    Iterate(q => Step(groups, has, q), p, t)
  }

  lemma {:induction false} KeepConcat<T>(a: seq<T>, b: seq<T>, has: set<T>)
    ensures Keep(a + b, has) == Keep(a, has) + Keep(b, has)
  {
    if a == [] {
      assert a + b == b;
    } else {
      KeepConcat(a[1..], b, has);
      assert (a + b)[0] == a[0] && (a + b)[1..] == a[1..] + b;
      var h := if a[0] in has then [a[0]] else [];
      assert h + (Keep(a[1..], has) + Keep(b, has)) == (h + Keep(a[1..], has)) + Keep(b, has);
    }
  }

  lemma {:induction false} KeepMember<T>(s: seq<T>, has: set<T>, x: T)
    ensures x in Keep(s, has) <==> x in s && x in has
  {
    if s != [] {
      KeepMember(s[1..], has, x);
    }
  }

  lemma {:induction false} KeepDistinct<T>(s: seq<T>, has: set<T>)
    requires Distinct(s)
    ensures Distinct(Keep(s, has))
  {
    if s != [] {
      KeepDistinct(s[1..], has);
      KeepMember(s[1..], has, s[0]);
    }
  }

  /** Rotating before filtering rotates the filtered list. */
  lemma KeepRotated<T>(groups: seq<T>, has: set<T>, i: nat)
    requires i < |groups|
    ensures var a, b := Keep(groups[..i], has), Keep(groups[i..], has);
            Keep(groups, has) == a + b && Keep(Rotated(groups, i), has) == b + a
  {
    assert groups == groups[..i] + groups[i..];
    KeepConcat(groups[..i], groups[i..], has);
    KeepConcat(groups[i..], groups[..i], has);
  }

  /** Position after j on a circle of m. */
  function Succ(j: nat, m: nat): nat {
    if j + 1 < m then j + 1 else 0
  }

  lemma SwapDistinct<T>(a: seq<T>, b: seq<T>)
    requires Distinct(a + b)
    ensures Distinct(b + a)
  {
    var s, r := a + b, b + a;
    forall i, j | 0 <= i < j < |r|
      ensures r[i] != r[j]
    {
      assert r[i] == s[if i < |b| then i + |a| else i - |b|];
      assert r[j] == s[if j < |b| then j + |a| else j - |b|];
    }
  }

  /** The element after the head of the rotated list is the next one of the list itself. */
  lemma AfterHead<T>(a: seq<T>, b: seq<T>, j: nat)
    requires Distinct(a + b) && j < |a + b| && b != [] && b[0] == (a + b)[j]
    ensures NextGroup(b + a, b[0]) == (a + b)[Succ(j, |a + b|)]
  {
    assert (a + b)[|a|] == b[0];
    SwapDistinct(a, b);
  }

  /** From the j-th group with work, a step goes to the next one, around the end. */
  lemma StepNext<T>(groups: seq<T>, has: set<T>, j: nat)
    requires Distinct(groups) && j < |Keep(groups, has)|
    ensures var work := Keep(groups, has); Step(groups, has, work[j]) == work[Succ(j, |work|)]
  {
    var p := Keep(groups, has)[j];
    KeepMember(groups, has, p);
    KeepDistinct(groups, has);
    var i := IndexOf(groups, p);
    KeepRotated(groups, has, i);
    AfterHead(Keep(groups[..i], has), Keep(groups[i..], has), j);
  }

  /** From anywhere else a step goes to some group with work. */
  lemma StepEnters<T>(groups: seq<T>, has: set<T>, p: T) returns (k: nat)
    requires Distinct(groups) && Keep(groups, has) != []
    ensures k < |Keep(groups, has)| && Step(groups, has, p) == Keep(groups, has)[k]
  {
    var work := Keep(groups, has);
    if p in work {
      var j :| 0 <= j < |work| && work[j] == p;
      StepNext(groups, has, j);
      k := Succ(j, |work|);
    } else {
      KeepMember(groups, has, p);
      var i := IndexOf(groups, p);
      if i >= 0 {
        KeepRotated(groups, has, i);
      }
      var r := Keep(Rotated(groups, i), has);
      assert |r| == |work| && (forall x | x in r :: x in work);
      assert r[0] in r && r[0] in work;
      k :| 0 <= k < |work| && work[k] == r[0];
    }
  }

  /** Position t after k on a circle of m. */
  function Around(k: nat, t: nat, m: nat): nat {
    if t == 0 then k else Succ(Around(k, t - 1, m), m)
  }

  lemma {:induction false} AroundValue(k: nat, t: nat, m: nat)
    requires k < m && t < m
    ensures Around(k, t, m) == if k + t < m then k + t else k + t - m
  {
    if t > 0 {
      AroundValue(k, t - 1, m);
    }
  }

  lemma Distance(k: nat, x: nat, m: nat) returns (d: nat)
    requires k < m && x < m
    ensures d < m && Around(k, d, m) == x
  {
    d := if x >= k then x - k else x - k + m;
    AroundValue(k, d, m);
  }

  lemma {:induction false} IterateCycles<T>(f: T -> T, work: seq<T>, p: T, k: nat, t: nat)
    requires k < |work| && f(p) == work[k] && forall j | 0 <= j < |work| :: f(work[j]) == work[Succ(j, |work|)]
    ensures Around(k, t, |work|) < |work| && Iterate(f, p, t + 1) == work[Around(k, t, |work|)]
    decreases t
  {
    if t > 0 {
      IterateCycles(f, work, p, k, t - 1);
    } else {
      assert Iterate(f, p, 0) == p;
    }
  }

  /** Once a step has entered the groups with work, further steps cycle through them. */
  lemma VisitCycles<T>(groups: seq<T>, has: set<T>, p: T, k: nat, t: nat)
    requires Distinct(groups) && k < |Keep(groups, has)| && Step(groups, has, p) == Keep(groups, has)[k]
    ensures var work := Keep(groups, has);
            Around(k, t, |work|) < |work| && Visit(groups, has, p, t + 1) == work[Around(k, t, |work|)]
  {
    var work := Keep(groups, has);
    forall j | 0 <= j < |work|
      ensures Step(groups, has, work[j]) == work[Succ(j, |work|)]
    {
      StepNext(groups, has, j);
    }
    IterateCycles(q => Step(groups, has, q), work, p, k, t);
  }

  /** Fair rotation: for a fixed order of distinct groups of which m have work, m steps from any
      processing group, also one that is not in the list any more, visit each of them. */
  lemma FairRotation<T>(groups: seq<T>, has: set<T>, p: T, g: T)
    requires Distinct(groups) && g in groups && g in has
    ensures exists t: nat | 1 <= t <= |Keep(groups, has)| :: Visit(groups, has, p, t) == g
  {
    var work := Keep(groups, has);
    KeepMember(groups, has, g);
    var x :| 0 <= x < |work| && work[x] == g;
    var k := StepEnters(groups, has, p);
    var d := Distance(k, x, |work|);
    VisitCycles(groups, has, p, k, d);
    assert Visit(groups, has, p, d + 1) == g;
  }

  /** Every step stays with groups that have work, and one is left only for another. */
  lemma RotationStaysBusy<T>(groups: seq<T>, has: set<T>, p: T, t: nat)
    requires Distinct(groups) && Keep(groups, has) != []
    ensures Visit(groups, has, p, t + 1) in groups && Visit(groups, has, p, t + 1) in has
  {
    var k := StepEnters(groups, has, p);
    VisitCycles(groups, has, p, k, t);
    KeepMember(groups, has, Visit(groups, has, p, t + 1));
  }

  // ---- The passes of the rebooter --------------------------------------------------

  /** The candidates of a pass, for the order of groups it keeps and the groups it finds to have
      a node that may be rebooted.  It reads the clock for this test apart from the later ones. */
  function Candidates(v: View, groups: seq<string>, has: set<string>): seq<string> {
    Keep(Rotated(groups, IndexOf(groups, v.group)), has)
  }

  /** The processing group once the tasks are done. */
  ghost predicate Leaves(tasks: seq<Task>, group: string, next: string) {
    (forall g | Move(g) in tasks :: next == g) && ((forall g :: Move(g) !in tasks) ==> next == group)
  }

  lemma RestStays(w: View, enabled: bool, g: string)
    ensures Move(g) !in Rest(w, enabled)
  {
    if Move(g) in Rest(w, enabled) {
      RestKinds(w, enabled, Move(g));
    }
  }

  /** What a pass moves to. */
  lemma PlanMoves(v: View, enabled: bool, candidates: seq<string>, g: string)
    ensures Move(g) in Plan(v, enabled, candidates) <==>
            && candidates != [] && enabled && (v.queue == [] || Stuck(v.queue))
            && g == NextGroup(candidates, v.group) && g != v.group
  {
    var stuck, w, a, b := PlanParts(v, enabled, candidates);
    RestStays(w, enabled, g);
    QueuedStays(v, g);
    assert Move(g) in Plan(v, enabled, candidates) <==> Move(g) in a || Move(g) in b || Move(g) in Rest(w, enabled);
  }

  /** A pass that finds the queue empty or stuck makes one rotation step. */
  lemma PassSteps(v: View, groups: seq<string>, has: set<string>, next: string)
    ensures (v.queue == [] || Stuck(v.queue)) && Leaves(Plan(v, true, Candidates(v, groups, has)), v.group, next) ==>
            next == Step(groups, has, v.group)
  {
    var candidates := Candidates(v, groups, has);
    var g := NextGroup(candidates, v.group);
    PlanMoves(v, true, candidates, g);
    forall h
      ensures Move(h) in Plan(v, true, candidates) ==> h == g
    {
      PlanMoves(v, true, candidates, h);
    }
  }

  lemma QueuedStays(v: View, g: string)
    ensures Move(g) !in Collect(KQueued, v.list, v)
  {
    CollectExactly(KQueued, v.list, v);
  }

  /** The processing group before pass t, or after the last one. */
  function GroupAt(vs: seq<View>, last: string, t: nat): string {
    if t < |vs| then vs[t].group else last
  }

  /** A pass that finds the queue empty or stuck leaves the group `next`. */
  ghost predicate PassLeaves(v: View, groups: seq<string>, has: set<string>, next: string) {
    (v.queue == [] || Stuck(v.queue)) && Leaves(Plan(v, true, Candidates(v, groups, has)), v.group, next)
  }

  /** Successive such passes, with the same groups having work; each starts from the group the one
      before has left. */
  ghost predicate Passes(vs: seq<View>, groups: seq<string>, has: set<string>, last: string) {
    forall t: nat | t < |vs| :: PassLeaves(vs[t], groups, has, GroupAt(vs, last, t + 1))
  }

  lemma PassStep(vs: seq<View>, groups: seq<string>, has: set<string>, last: string, t: nat)
    requires t < |vs| && PassLeaves(vs[t], groups, has, GroupAt(vs, last, t + 1))
    ensures GroupAt(vs, last, t + 1) == Step(groups, has, GroupAt(vs, last, t))
  {
    PassSteps(vs[t], groups, has, GroupAt(vs, last, t + 1));
  }

  lemma PassesVisit(vs: seq<View>, groups: seq<string>, has: set<string>, last: string, t: nat)
    requires Passes(vs, groups, has, last) && vs != [] && t <= |vs|
    ensures GroupAt(vs, last, t) == Visit(groups, has, vs[0].group, t)
  {
    forall k: nat | k < |vs|
      ensures GroupAt(vs, last, k + 1) == Step(groups, has, GroupAt(vs, last, k))
    {
      PassStep(vs, groups, has, last, k);
    }
    StepsVisit(groups, has, seq(|vs| + 1, k requires 0 <= k <= |vs| => GroupAt(vs, last, k)), t);
  }

  /** Groups that follow each other by steps are those visited. */
  lemma {:induction false} StepsVisit<T>(groups: seq<T>, has: set<T>, gs: seq<T>, t: nat)
    requires t < |gs| && forall k | 0 <= k < |gs| - 1 :: gs[k + 1] == Step(groups, has, gs[k])
    ensures gs[t] == Visit(groups, has, gs[0], t)
    decreases t
  {
    if t > 0 {
      StepsVisit(groups, has, gs, t - 1);
      VisitNext(groups, has, gs[0], t, gs[t - 1], gs[t - 1 + 1]);
    }
  }

  lemma VisitNext<T>(groups: seq<T>, has: set<T>, p: T, t: nat, q: T, next: T)
    requires t > 0 && q == Visit(groups, has, p, t - 1) && next == Step(groups, has, q)
    ensures next == Visit(groups, has, p, t)
  {
  }

  lemma VisitTime<T>(groups: seq<T>, has: set<T>, p: T, g: T) returns (t: nat)
    requires Distinct(groups) && g in groups && g in has
    ensures 1 <= t <= |Keep(groups, has)| && Visit(groups, has, p, t) == g
  {
    FairRotation(groups, has, p, g);
    t :| 1 <= t <= |Keep(groups, has)| && Visit(groups, has, p, t) == g;
  }

  /** Fair passes: over as many such passes as there are groups with work, each of these groups
      becomes the processing group. */
  lemma FairPasses(vs: seq<View>, groups: seq<string>, has: set<string>, last: string, g: string) returns (t: nat)
    requires Distinct(groups) && g in groups && g in has && |vs| == |Keep(groups, has)|
    requires Passes(vs, groups, has, last)
    ensures 1 <= t <= |vs| && GroupAt(vs, last, t) == g
  {
    KeepMember(groups, has, g);
    t := VisitTime(groups, has, vs[0].group, g);
    PassesVisit(vs, groups, has, last, t);
  }
}
