/** A whole call of an update step that uploads contents, amid arbitrary actions of others. */
module ContentsCalls {
  import opened Common
  import opened Election
  import opened Contents

  predicate Of(a: Action, u: int) {
    !a.Clear? && !a.LoseKey? && a.u == u
  }

  /** Whatever everybody else does meanwhile; the key of u may expire, too. */
  function Meanwhile(s: State, acts: seq<Action>, u: int): State
    decreases |acts|
  {
    if acts == [] then s
    else Meanwhile(if Enabled(s, acts[0]) && !Of(acts[0], u) then Apply(s, acts[0]) else s, acts[1..], u)
  }

  lemma {:induction false} MeanwhileKeeps(s: State, acts: seq<Action>, u: int)
    requires Inv(s) && u in s.calls
    ensures var t := Meanwhile(s, acts, u); Inv(t) && u in t.calls && t.calls[u] == s.calls[u] && s.log <= t.log
    decreases |acts|
  {
    if acts != [] {
      if Enabled(s, acts[0]) && !Of(acts[0], u) {
        NextInv(s, acts[0]);
        MeanwhileKeeps(Apply(s, acts[0]), acts[1..], u);
      } else {
        MeanwhileKeeps(s, acts[1..], u);
      }
    }
  }

  /** One access of u to etcd, and what the others do before its next one. */
  method Access(s: State, a: Action, u: int, acts: seq<Action>) returns (t: State)
    requires Inv(s) && Enabled(s, a) && u in Apply(s, a).calls
    ensures t == Meanwhile(Apply(s, a), acts, u) && Inv(t) && s.log <= t.log
    ensures u in t.calls && t.calls[u] == Apply(s, a).calls[u]
  {
    NextInv(s, a);
    MeanwhileKeeps(Apply(s, a), acts, u);
    t := Meanwhile(Apply(s, a), acts, u);
  }

  /** Uploading and recording: success exactly if the upload succeeded, the key still existed at
      the guarded put and its reply was heard.  A put that fails outright is not heard either. */
  method UploadAndRecord(s0: State, u: int, upload: bool, acts: seq<Action>, sent: bool, heard: bool) returns (s: State)
    requires Inv(s0) && Enabled(s0, Finish(u, upload))
    ensures Inv(s) && s0.log <= s.log && u in s.calls
    ensures s.calls[u].phase.Returned? && s.calls[u] == s0.calls[u].(phase := s.calls[u].phase)
    ensures s.calls[u].phase.success <==>
            upload && sent && heard && u in Meanwhile(Apply(s0, Finish(u, upload)), acts, u).queue
  {
    s := Access(s0, Finish(u, upload), u, acts);
    if s.calls[u].phase.Uploaded? {
      s := Access(s, if sent then Record(u, heard) else Fail(u), u, []);
    }
  }

  /** How the outside world treats a call: its upload, and its guarded put. */
  datatype Luck = Luck(upload: bool, sent: bool, heard: bool)

  /** A call that looks at this state returns a known verdict as it is, and otherwise succeeds exactly
      if its upload does and it records that with its key still there and hears of it. */
  ghost predicate Succeeds(s: State, u: int, luck: Luck, acts: seq<Action>)
    requires Enabled(s, Look(u))
  {
    var c := s.calls[u];
    if c.kind in s.records && s.records[c.kind].version == c.version then s.records[c.kind].success
    else
      && luck == Luck(true, true, true)
      && u in Meanwhile(Apply(Apply(s, Look(u)), Finish(u, true)), acts, u).queue
  }

  /** The rest of a call once it is elected. */
  method LookAndUpload(s0: State, u: int, luck: Luck, acts: seq<Action>) returns (s: State)
    requires Inv(s0) && Enabled(s0, Look(u))
    ensures Inv(s) && s0.log <= s.log && u in s.calls
    ensures s.calls[u].phase.Returned? && s.calls[u] == s0.calls[u].(phase := s.calls[u].phase)
    ensures s.calls[u].phase.success <==> Succeeds(s0, u, luck, acts)
  {
    s := Access(s0, Look(u), u, []);
    if s.calls[u].phase.Uploading? {
      s := UploadAndRecord(s, u, luck.upload, acts, luck.sent, luck.heard);
    }
  }

  /** The state in which a call that has campaigned looks for a verdict, if it is elected: nobody's
      older key is left, or its own has expired. */
  function LooksAt(s0: State, u: int, kind: Kind, version: string, env: (seq<Action>, seq<Action>, seq<Action>))
    : Option<State>
    requires Enabled(s0, Campaign(u, kind, version))
  {
    var s1 := Meanwhile(Apply(s0, Campaign(u, kind, version)), env.0, u);
    if Enabled(s1, Win(u)) then Some(Meanwhile(Apply(s1, Win(u)), env.1, u)) else None
  }

  /** The election: it is lost if the context ends while an older key exists. */
  method Elect(s0: State, u: int, kind: Kind, version: string, env: (seq<Action>, seq<Action>, seq<Action>))
    returns (s: State, elected: bool)
    requires Inv(s0) && u !in s0.calls && u !in s0.queue
    ensures Inv(s) && s0.log <= s.log && u in s.calls
    ensures s.calls[u] == Call(kind, version, if elected then Elected else Returned(false))
    ensures LooksAt(s0, u, kind, version, env) == if elected then Some(s) else None
  {
    s := Access(s0, Campaign(u, kind, version), u, env.0);
    elected := !(u in s.queue && !Leads(s.queue, u));
    if elected {
      s := Access(s, Win(u), u, env.1);
    } else {
      s := Access(s, Fail(u), u, []);
    }
  }

  /** One call of an update step, with what others do before each of its accesses to etcd.  It
      returns success only on a recorded success, be it adopted or its own; and exactly if it is
      elected and what it then looks at lets it succeed. */
  method UpdateContents(s0: State, u: int, kind: Kind, version: string, luck: Luck,
                        env: (seq<Action>, seq<Action>, seq<Action>))
    returns (s: State, success: bool)
    requires Inv(s0) && u !in s0.calls && u !in s0.queue
    ensures Inv(s) && s0.log <= s.log && u in s.calls && s.calls[u] == Call(kind, version, Returned(success))
    ensures success ==> Recorded(kind, version, true) in s.log
    ensures var looks := LooksAt(s0, u, kind, version, env);
            success <==> looks.Some? && Enabled(looks.value, Look(u)) && Succeeds(looks.value, u, luck, env.2)
  {
    var elected;
    s, elected := Elect(s0, u, kind, version, env);
    if elected {
      s := LookAndUpload(s, u, luck, env.2);
    }
    success := s.calls[u].phase.success;
  }
}
