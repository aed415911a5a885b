/** Every reconcile that is under way can be brought to its end without a failure. */
module Finishing {
  import opened Types
  import opened Names
  import opened PeerMesh
  import opened Machine
  import opened Safety
  import opened Converge

  /** A pass in progress has a call to make. */
  predicate Live(p: Phase) {
    p.Syncing? ==> !p.pass.Over() && (p.pass.Editing? ==> p.pass.adds != {} || p.pass.removes != {})
  }

  function Stage(p: Phase): nat {
    match p
    case FindService(_) => 7
    case MakeService(_) => 6
    case FindSet(_) => 5
    case MakeSet(_) => 4
    case FixReplicas(_, _) => 4
    case ReadPods(_, _, _) => 3
    case WriteStatus(_, _) => 2
    case Syncing(_) => 1
  }

  /** Pods left to read, or rows left to poll. */
  function Ahead(p: Phase): nat {
    if p.ReadPods? && p.i < p.net.spec.nodes then p.net.spec.nodes - p.i
    else if p.Syncing? then |p.pass.todo|
    else 0
  }

  /** Calls left at the row being edited. */
  function Pending(p: Phase): nat {
    if p.Syncing? && p.pass.Editing? then |p.pass.adds| + |p.pass.removes| else 0
  }

  ghost predicate Closer(q: Phase, p: Phase) {
    || Stage(q) < Stage(p)
    || (Stage(q) == Stage(p) && Ahead(q) < Ahead(p))
    || (Stage(q) == Stage(p) && Ahead(q) == Ahead(p) && Pending(q) < Pending(p))
  }

  ghost function NextRpc(p: Pass): Rpc
    requires Live(Syncing(p))
  {
    if p.Choosing? then var u :| u in p.todo; Poll(u, Served)
    else if p.adds != {} then var x :| x in p.adds; AddPeer(x, Served)
    else var x :| x in p.removes; RemovePeer(x, Served)
  }

  ghost function NextAct(p: Phase): Act
    requires Live(p)
  {
    if p.Syncing? then Call(NextRpc(p.pass)) else Step(Served)
  }

  lemma Fewer(s: set<IP>, x: IP)
    requires x in s
    ensures |s - {x}| == |s| - 1
  {
  }

  lemma PollCloser(m: Mesh, p: Pass)
    requires Live(Syncing(p)) && p.Choosing?
    ensures Allowed(p, NextRpc(p))
    ensures var q := Move(m, p, NextRpc(p)); !q.Over() ==> Live(Syncing(q)) && Closer(Syncing(q), Syncing(p))
  {
    Fewer(p.todo, NextRpc(p).row);
  }

  lemma CallCloser(m: Mesh, p: Pass)
    requires Live(Syncing(p)) && p.Editing?
    ensures Allowed(p, NextRpc(p))
    ensures var q := Move(m, p, NextRpc(p)); !q.Over() ==> Live(Syncing(q)) && Closer(Syncing(q), Syncing(p))
  {
    Fewer(if p.adds != {} then p.adds else p.removes, NextRpc(p).peer);
  }

  lemma StepCloser(w: World, r: Ref)
    requires r in w.procs && !w.procs[r].Syncing?
    ensures var w' := Work(true, w, r, Step(Served));
            r in w'.procs ==> Live(w'.procs[r]) && Closer(w'.procs[r], w.procs[r])
  {
    assert ReadyIPs(NilList) == {};
  }

  lemma ActCloser(w: World, r: Ref)
    requires r in w.procs && Live(w.procs[r])
    ensures var w' := Work(true, w, r, NextAct(w.procs[r]));
            r in w'.procs ==> Live(w'.procs[r]) && Closer(w'.procs[r], w.procs[r])
  {
    var p := w.procs[r];
    if p.Syncing? {
      if p.pass.Choosing? { PollCloser(w.mesh, p.pass); } else { CallCloser(w.mesh, p.pass); }
      RpcWorks(true, w, r, p.pass, NextRpc(p.pass));
    } else {
      StepCloser(w, r);
    }
  }

  lemma {:induction false} CanFinish(w: World, r: Ref) returns (ls: seq<Label>)
    requires r in w.procs ==> Live(w.procs[r])
    ensures forall l :: l in ls ==> Smooth(l, r)
    ensures r !in Run(true, w, ls).procs
    decreases if r in w.procs then Stage(w.procs[r]) else 0,
              if r in w.procs then Ahead(w.procs[r]) else 0,
              if r in w.procs then Pending(w.procs[r]) else 0
  {
    if r !in w.procs {
      ls := [];
    } else {
      var l := Does(r, NextAct(w.procs[r]));
      ActCloser(w, r);
      var w1 := Next(true, w, l);
      RunOne(true, w, l);
      if r !in w1.procs {
        ls := [l];
      } else {
        var rest := CanFinish(w1, r);
        ls := [l] + rest;
        RunConcat(true, w, [l], rest);
      }
    }
  }

  /** What a fault-free reconcile with fresh caches achieves is achieved by at least one run. */
  lemma CanReconcile(w0: World, r: Ref) returns (ls: seq<Label>)
    requires Sane(w0) && Fresh(w0, r) && Reachable(w0, r) && r !in w0.procs
    ensures forall l :: l in ls ==> Smooth(l, r)
    ensures var w := Run(true, Work(true, w0, r, Begin(Served)), ls);
            && r !in w.procs && Ended(w0, w, r) && Around(w0, w, r)
            && (Finished(w0, w, r) <==> MeshedOrOpen(w0, r))
            && (w0.nets.stored[r].spec.nodes >= 0 ==> Stable(Refresh(w, r), r))
  {
    ls := CanFinish(Work(true, w0, r, Begin(Served)), r);
    ReconcileConverges(w0, r, ls);
  }

  lemma StepOpens(w: World, r: Ref)
    requires r in w.procs && !w.procs[r].Syncing?
    ensures var w' := Work(true, w, r, Step(Served));
      && w'.mesh == w.mesh
      && (r in w'.procs && w'.procs[r].Syncing? ==> w'.procs[r].pass == NewPass(w'.procs[r].pass.ready))
  {
  }

  /** A call can be brought to the opening of its pass, or to its end if there is none. */
  lemma {:induction false} CanComeToPass(w: World, r: Ref) returns (ls: seq<Label>)
    requires r in w.procs && !w.procs[r].Syncing?
    ensures forall l :: l in ls ==> Smooth(l, r)
    ensures var w' := Run(true, w, ls);
      w'.mesh == w.mesh &&
          (r in w'.procs ==> w'.procs[r].Syncing? && w'.procs[r].pass == NewPass(w'.procs[r].pass.ready))
    decreases Stage(w.procs[r]), Ahead(w.procs[r]), Pending(w.procs[r])
  {
    var l := Does(r, Step(Served));
    StepCloser(w, r);
    StepOpens(w, r);
    RunOne(true, w, l);
    var w1 := Next(true, w, l);
    if r !in w1.procs || w1.procs[r].Syncing? {
      ls := [l];
    } else {
      var rest := CanComeToPass(w1, r);
      ls := [l] + rest;
      RunConcat(true, w, [l], rest);
    }
  }

  /** If the mesh of the observed nodes is not complete, a fault-free reconcile comes to its pass. */
  lemma ComesToPass(w0: World, r: Ref) returns (ls: seq<Label>)
    requires Sane(w0) && Fresh(w0, r) && Reachable(w0, r) && r !in w0.procs
    requires w0.nets.stored[r].status != Seen(w0, r) && !Complete(w0.mesh, ReadyIPs(Seen(w0, r)))
    ensures forall l :: l in ls ==> Smooth(l, r)
    ensures var w := Run(true, Work(true, w0, r, Begin(Served)), ls);
      r in w.procs && w.procs[r] == Syncing(NewPass(ReadyIPs(Seen(w0, r)))) && w.mesh == w0.mesh
  {
    var w1 := Work(true, w0, r, Begin(Served));
    ls := CanComeToPass(w1, r);
    assert OnTrack(w0, w1, r);
    RunOnTrack(w0, w1, r, ls);
  }
}
