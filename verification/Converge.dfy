/** What one fault-free reconcile achieves, and that the result is stable. */
module Converge {
  import opened Types
  import opened Names
  import opened PeerMesh
  import opened Machine
  import opened Safety
  import opened Housing
  import opened Status
  import opened GateKeeping

  ghost predicate UpToDate<T>(k: Kind<T>, r: Ref) {
    && (r in k.shown <==> r in k.stored)
    && (r in k.stored ==> k.shown[r] == k.stored[r])
  }

  /** The network exists in a namespace, is not being deleted, and the caches are up to date with it. */
  ghost predicate Fresh(w: World, r: Ref) {
    && r.ns != "" && r in w.nets.stored && !w.nets.stored[r].deleting
    && UpToDate(w.nets, r) && UpToDate(w.svcs, SvcRef(r)) && UpToDate(w.stss, SetRef(r))
  }

  /** The nodes a status update should report for r. */
  function Seen(w: World, r: Ref): NodeList
    requires r in w.nets.stored
  {
    Observed(w.pods, r, w.nets.stored[r].spec.nodes)
  }

  /** The stateful set of r has the wanted number of replicas. */
  predicate Scaled(w: World, r: Ref)
    requires r in w.nets.stored
  {
    SetRef(r) in w.stss.stored && w.stss.stored[SetRef(r)].replicas == w.nets.stored[r].spec.nodes
  }

  /** Every ready pod runs a daemon that can be reached. */
  predicate Reachable(w: World, r: Ref)
    requires r in w.nets.stored
  {
    ReadyIPs(Seen(w, r)) <= w.mesh.Keys
  }

  /** What the reconcile leaves alone: the pods, the wish and all daemons but the ready ones. */
  ghost predicate Around(w0: World, w: World, r: Ref) {
    && r in w0.nets.stored && r in w.nets.stored
    && w.nets.stored[r].spec == w0.nets.stored[r].spec
    && w.nets.stored[r].deleting == w0.nets.stored[r].deleting
    && w.pods == w0.pods && w.stss.shown == w0.stss.shown && w.svcs.shown == w0.svcs.shown
    && SameOutside(w0.mesh, w.mesh, ReadyIPs(Seen(w0, r)))
  }

  /** Neither a status nor a daemon has been written to yet. */
  ghost predicate Unwritten(w0: World, w: World, r: Ref, net: Net) {
    && r in w0.nets.stored && r in w.nets.stored
    && net == w0.nets.stored[r] == w.nets.stored[r]
    && w.mesh == w0.mesh
  }

  /** Both children of r are as they should be; a negative wish cannot be met. */
  ghost predicate ChildrenDone(w: World, r: Ref) {
    && r in w.nets.stored && SvcRef(r) in w.svcs.stored
    && (Scaled(w, r) <==> w.nets.stored[r].spec.nodes >= 0)
  }

  ghost predicate PhaseOnTrack(w0: World, w: World, r: Ref, p: Phase)
    requires r in w0.nets.stored
  {
    match p
    case FindService(net) => Unwritten(w0, w, r, net) && w.svcs == w0.svcs && w.stss == w0.stss
    case MakeService(net) => Unwritten(w0, w, r, net) && w.stss == w0.stss
    case FindSet(net) => Unwritten(w0, w, r, net) && w.stss == w0.stss && SvcRef(r) in w.svcs.stored
    case MakeSet(net) =>
      && Unwritten(w0, w, r, net) && w.stss == w0.stss && SvcRef(r) in w.svcs.stored
      && SetRef(r) !in w0.stss.stored
    case FixReplicas(net, sts) =>
      && Unwritten(w0, w, r, net) && w.stss == w0.stss && SvcRef(r) in w.svcs.stored
      && SetRef(r) in w0.stss.stored && sts == w0.stss.stored[SetRef(r)]
      && sts.replicas != net.spec.nodes
    case ReadPods(net, i, found) =>
      && Unwritten(w0, w, r, net) && ChildrenDone(w, r)
      && i < net.spec.nodes && found == ObservedUpTo(w0.pods, r, i)
    case WriteStatus(net, found) =>
      Unwritten(w0, w, r, net) && ChildrenDone(w, r) && found == Seen(w0, r)
    case Syncing(pass) =>
      && ChildrenDone(w, r) && w.nets.stored[r].status == Seen(w0, r)
      && pass.ready == ReadyIPs(Seen(w0, r)) && WellFormed(pass) && OnCourse(w.mesh, pass)
      && w0.nets.stored[r].status != Seen(w0, r)
  }

  /** How a fault-free reconcile of r ends: if the gate skips the pass, the daemons are as they were. */
  ghost predicate Ended(w0: World, w: World, r: Ref)
    requires r in w0.nets.stored
  {
    && ChildrenDone(w, r) && w.nets.stored[r].status == Seen(w0, r)
    && (w0.nets.stored[r].status == Seen(w0, r) ==> w.mesh == w0.mesh)
    && (w0.nets.stored[r].status != Seen(w0, r) ==> Complete(w.mesh, ReadyIPs(Seen(w0, r))))
  }

  ghost predicate Finished(w0: World, w: World, r: Ref)
    requires r in w0.nets.stored
  {
    && ChildrenDone(w, r) && w.nets.stored[r].status == Seen(w0, r)
    && Complete(w.mesh, ReadyIPs(Seen(w0, r)))
  }

  /** A fault-free reconcile of r, begun in w0, has come to w. */
  ghost predicate OnTrack(w0: World, w: World, r: Ref) {
    && Around(w0, w, r)
    && if r in w.procs then PhaseOnTrack(w0, w, r, w.procs[r]) else Ended(w0, w, r)
  }

  /** A step of the call for r, within one reconcile, that meets no failure. */
  predicate Smooth(l: Label, r: Ref) {
    l.Does? && l.ref == r && !l.act.Begin? && FateOf(l.act).Served?
  }

  lemma PodLoopOnTrack(w0: World, w: World, r: Ref, net: Net, i: nat)
    requires Around(w0, w, r) && Unwritten(w0, w, r, net) && ChildrenDone(w, r)
    requires i == 0 || i <= net.spec.nodes
    ensures PhaseOnTrack(w0, w, r, PodLoop(net, i, ObservedUpTo(w0.pods, r, i)))
  {
  }

  lemma ServiceOnTrack(w0: World, w: World, r: Ref, a: Act)
    requires Fresh(w0, r) && OnTrack(w0, w, r) && a.Step? && a.fate.Served?
    requires r in w.procs && (w.procs[r].FindService? || w.procs[r].MakeService?)
    ensures OnTrack(w0, Work(true, w, r, a), r)
  {
  }

  lemma FindSetOnTrack(w0: World, w: World, r: Ref, a: Act)
    requires Sane(w0) && Fresh(w0, r) && OnTrack(w0, w, r) && a.Step? && a.fate.Served?
    requires r in w.procs && w.procs[r].FindSet?
    ensures OnTrack(w0, Work(true, w, r, a), r)
  {
    assert SetSane(w0.stss, SetRef(r));
    var net := w.procs[r].net;
    if SetRef(r) in w.stss.stored && w.stss.stored[SetRef(r)].replicas == net.spec.nodes {
      assert ChildrenDone(w, r);
      PodLoopOnTrack(w0, Work(true, w, r, a), r, net, 0);
    }
  }

  lemma SetOnTrack(w0: World, w: World, r: Ref, a: Act)
    requires Sane(w0) && OnTrack(w0, w, r) && a.Step? && a.fate.Served?
    requires r in w.procs && (w.procs[r].MakeSet? || w.procs[r].FixReplicas?)
    ensures OnTrack(w0, Work(true, w, r, a), r)
  {
    assert SetSane(w0.stss, SetRef(r));
    PodLoopOnTrack(w0, Work(true, w, r, a), r, w.procs[r].net, 0);
  }

  lemma PodOnTrack(w0: World, w: World, r: Ref, a: Act)
    requires OnTrack(w0, w, r) && a.Step? && a.fate.Served?
    requires r in w.procs && w.procs[r].ReadPods?
    ensures OnTrack(w0, Work(true, w, r, a), r)
  {
    PodLoopOnTrack(w0, Work(true, w, r, a), r, w.procs[r].net, w.procs[r].i + 1);
  }

  lemma WriteOnTrack(w0: World, w: World, r: Ref, a: Act)
    requires OnTrack(w0, w, r) && a.Step? && a.fate.Served?
    requires r in w.procs && w.procs[r].WriteStatus?
    ensures OnTrack(w0, Work(true, w, r, a), r)
  {
  }

  lemma MoveOnCourse(m: Mesh, p: Pass, c: Rpc)
    requires WellFormed(p) && OnCourse(m, p) && Allowed(p, c) && c.fate.Served? && p.ready <= m.Keys
    ensures OnCourse(Edited(m, Edit(m, p, c)), Move(m, p, c))
    ensures Move(m, p, c).Over() ==> Complete(Edited(m, Edit(m, p, c)), p.ready)
  {
    MoveWellFormed(m, p, c);
    assert Target(p, c) in m;
    if c.Poll? { PollOnCourse(m, p, c); } else { CallOnCourse(m, p, c); }
    if Move(m, p, c).Over() {
      OverMeansComplete(Edited(m, Edit(m, p, c)), Move(m, p, c));
    }
  }

  lemma RpcOnTrack(w0: World, w: World, r: Ref, c: Rpc)
    requires r in w0.nets.stored && Reachable(w0, r) && OnTrack(w0, w, r)
    requires InPass(w, r) && c.fate.Served?
    ensures OnTrack(w0, Work(true, w, r, Call(c)), r)
  {
    var p := w.procs[r].pass;
    if Allowed(p, c) {
      var w' := Work(true, w, r, Call(c));
      RpcWorks(true, w, r, p, c);
      MoveOnCourse(w.mesh, p, c);
      MoveWellFormed(w.mesh, p, c);
      CallStaysInside(w0.mesh, w.mesh, p, c);
      assert Around(w0, w', r);
      assert ChildrenDone(w', r);
    }
  }

  lemma NextOnTrack(w0: World, w: World, r: Ref, l: Label)
    requires Sane(w0) && Fresh(w0, r) && Reachable(w0, r) && OnTrack(w0, w, r) && Smooth(l, r)
    ensures OnTrack(w0, Next(true, w, l), r)
  {
    if Decide(true, w, r, l.act).Some? {
      match w.procs[r]
      case FindService(_) => ServiceOnTrack(w0, w, r, l.act);
      case MakeService(_) => ServiceOnTrack(w0, w, r, l.act);
      case FindSet(_) => FindSetOnTrack(w0, w, r, l.act);
      case MakeSet(_) => SetOnTrack(w0, w, r, l.act);
      case FixReplicas(_, _) => SetOnTrack(w0, w, r, l.act);
      case ReadPods(_, _, _) => PodOnTrack(w0, w, r, l.act);
      case WriteStatus(_, _) => WriteOnTrack(w0, w, r, l.act);
      case Syncing(_) => RpcOnTrack(w0, w, r, l.act.rpc);
    }
  }

  lemma {:induction false} RunOnTrack(w0: World, w: World, r: Ref, ls: seq<Label>)
    requires Sane(w0) && Fresh(w0, r) && Reachable(w0, r) && OnTrack(w0, w, r)
    requires forall l :: l in ls ==> Smooth(l, r)
    ensures OnTrack(w0, Run(true, w, ls), r)
    decreases |ls|
  {
    if ls != [] {
      var front := ls[..|ls| - 1];
      assert forall l :: l in front ==> l in ls;
      RunOnTrack(w0, w, r, front);
      NextOnTrack(w0, Run(true, w, front), r, ls[|ls| - 1]);
    }
  }

  /** The mesh is complete already if the observed nodes are those of the stored status. */
  ghost predicate MeshedOrOpen(w: World, r: Ref)
    requires r in w.nets.stored
  {
    w.nets.stored[r].status == Seen(w, r) ==> Complete(w.mesh, Listed(w, r))
  }

  /** The gate's invariant is enough, and so is any change of the observed nodes. */
  lemma SettledIsMeshedOrOpen(w: World, r: Ref)
    requires r in w.nets.stored && r !in w.procs
    requires SettledAt(w, r) || w.nets.stored[r].status != Seen(w, r)
    ensures MeshedOrOpen(w, r)
  {
  }

  /**
    One fault-free reconcile with fresh caches, in whatever order Go ranges over its maps, leaves an
    existing service, a stateful set with the wanted number of replicas (exactly if that is not
    negative) and a status equal to the observed nodes, and touches no other daemon. The mesh over the
    ready nodes is complete afterwards if and only if it was before or the observed nodes had changed.
   */
  lemma ReconcileConverges(w0: World, r: Ref, ls: seq<Label>)
    requires Sane(w0) && Fresh(w0, r) && Reachable(w0, r) && r !in w0.procs
    requires forall l :: l in ls ==> Smooth(l, r)
    requires r !in Run(true, Work(true, w0, r, Begin(Served)), ls).procs
    ensures var w := Run(true, Work(true, w0, r, Begin(Served)), ls);
            && Ended(w0, w, r) && Around(w0, w, r)
            && (Finished(w0, w, r) <==> MeshedOrOpen(w0, r))
            && (w0.nets.stored[r].spec.nodes >= 0 ==> Stable(Refresh(w, r), r))
  {
    var w1 := Work(true, w0, r, Begin(Served));
    assert OnTrack(w0, w1, r);
    RunOnTrack(w0, w1, r, ls);
    NextSane(true, w0, Does(r, Begin(Served)));
    RunSane(true, w1, ls);
    if w0.nets.stored[r].spec.nodes >= 0 { ConvergedIsStable(w0, Run(true, w1, ls), r); }
  }

  /** In a finished network, a pod beyond the wanted number of nodes is nobody's peer, ready or not. */
  lemma FinishedEvicts(w0: World, w: World, r: Ref, j: nat)
    requires r in w0.nets.stored && Finished(w0, w, r)
    requires Around(w0, w, r)
    requires j >= w0.nets.stored[r].spec.nodes && PodRef(r, j) in w0.pods
    requires forall i: nat :: i < w0.nets.stored[r].spec.nodes && PodRef(r, i) in w0.pods ==>
               w0.pods[PodRef(r, i)].ip != w0.pods[PodRef(r, j)].ip
    ensures var gone := w0.pods[PodRef(r, j)].ip;
      && (forall u :: u in ReadyIPs(Seen(w0, r)) ==> u != gone && gone !in Row(w.mesh, u))
      && Row(w.mesh, gone) == Row(w0.mesh, gone)
  {
    var nodes := w0.nets.stored[r].spec.nodes;
    var n: nat := if nodes < 0 then 0 else nodes;
    ObservedExact(w0.pods, r, n);
    var gone := w0.pods[PodRef(r, j)].ip;
    var l := ObservedUpTo(w0.pods, r, n).All();
    assert gone !in ReadyIPs(Seen(w0, r)) by {
      forall k | 0 <= k < |l| ensures l[k].ip != gone {
        assert IsNodeOf(l[k], w0.pods, r) && l[k].ordinal < n;
      }
    }
    forall u | u in ReadyIPs(Seen(w0, r)) ensures gone !in Row(w.mesh, u) {
      assert RowDebt(w.mesh, u, ReadyIPs(Seen(w0, r))) == {};
      assert gone !in RowDebt(w.mesh, u, ReadyIPs(Seen(w0, r)));
    }
  }

  /** A status that still lists a node beyond the wanted number is not what is observed. */
  lemma ScaleDownNoticed(w: World, r: Ref, k: nat)
    requires r in w.nets.stored && k < |w.nets.stored[r].status.All()|
    requires w.nets.stored[r].status.All()[k].ordinal >= w.nets.stored[r].spec.nodes
    ensures w.nets.stored[r].status != Seen(w, r)
  {
    var nodes := w.nets.stored[r].spec.nodes;
    var n: nat := if nodes < 0 then 0 else nodes;
    ObservedExact(w.pods, r, n);
    assert forall i :: 0 <= i < |Seen(w, r).All()| ==> Seen(w, r).All()[i].ordinal < n;
  }

  /**
    The first fault-free reconcile that sees a smaller number of nodes than the status lists: the gate
    opens, the mesh of the surviving ready daemons is complete afterwards, and no pod beyond the number
    is a peer of theirs, even if it still runs and is ready; its own list is left alone.
   */
  lemma ScaleDownEvicts(w0: World, r: Ref, ls: seq<Label>, k: nat, j: nat)
    requires Sane(w0) && Fresh(w0, r) && Reachable(w0, r) && r !in w0.procs
    requires k < |w0.nets.stored[r].status.All()|
    requires w0.nets.stored[r].status.All()[k].ordinal >= w0.nets.stored[r].spec.nodes
    requires forall l :: l in ls ==> Smooth(l, r)
    requires r !in Run(true, Work(true, w0, r, Begin(Served)), ls).procs
    requires j >= w0.nets.stored[r].spec.nodes && PodRef(r, j) in w0.pods
    requires forall i: nat :: i < w0.nets.stored[r].spec.nodes && PodRef(r, i) in w0.pods ==>
               w0.pods[PodRef(r, i)].ip != w0.pods[PodRef(r, j)].ip
    ensures var w, gone := Run(true, Work(true, w0, r, Begin(Served)), ls), w0.pods[PodRef(r, j)].ip;
      && Complete(w.mesh, ReadyIPs(Seen(w0, r))) && Listed(w, r) == ReadyIPs(Seen(w0, r))
      && (forall u :: u in Listed(w, r) ==> u != gone && gone !in Row(w.mesh, u))
      && Row(w.mesh, gone) == Row(w0.mesh, gone)
  {
    ScaleDownNoticed(w0, r, k);
    ReconcileConverges(w0, r, ls);
    FinishedEvicts(w0, Run(true, Work(true, w0, r, Begin(Served)), ls), r, j);
  }

  // ---------------------------------------------------------------- stability

  /** Nothing is left to do for r, as far as the controller can see. */
  ghost predicate Stable(w: World, r: Ref) {
    && Fresh(w, r) && SvcRef(r) in w.svcs.stored && Scaled(w, r)
    && w.nets.stored[r].status == Seen(w, r)
  }

  /** A reconcile of a stable network only looks things up and rewrites the status it found. */
  ghost predicate Idling(w: World, r: Ref, p: Phase)
    requires r in w.nets.stored
  {
    var net := w.nets.stored[r];
    match p
    case FindService(n) => n == net
    case FindSet(n) => n == net
    case ReadPods(n, i, found) => n == net && i < net.spec.nodes && found == ObservedUpTo(w.pods, r, i)
    case WriteStatus(n, found) => n == net && found == net.status
    case _ => false
  }

  lemma IdleDecides(w: World, r: Ref, a: Act)
    requires Stable(w, r) && (r in w.procs ==> Idling(w, r, w.procs[r]))
    requires Decide(true, w, r, a).Some?
    ensures var d := Decide(true, w, r, a).value;
      d == Goto(d.next) && (d.next.Some? ==> Idling(w, r, d.next.value))
  {
    assert ReadyIPs(NilList) == {};
  }

  lemma CommitNothing(w: World, r: Ref, next: Option<Phase>)
    ensures Commit(w, r, Goto(next)) == w.(procs := if next.Some? then w.procs[r := next.value] else w.procs - {r})
  {
  }

  lemma IdleStep(w: World, r: Ref, a: Act)
    requires Stable(w, r) && (r in w.procs ==> Idling(w, r, w.procs[r]))
    ensures var w' := Work(true, w, r, a);
            && w' == w.(procs := w'.procs) && (r in w'.procs ==> Idling(w, r, w'.procs[r]))
  {
    var d := Decide(true, w, r, a);
    if d.Some? {
      IdleDecides(w, r, a);
      CommitNothing(w, r, d.value.next);
    }
  }

  /**
    Once a network is stable, reconciling it any number of times, whatever fails, changes neither the
    objects nor any daemon and never gets to a create, a replica update or an RPC.
   */
  lemma {:induction false} StableForever(w: World, r: Ref, ls: seq<Label>)
    requires Stable(w, r) && (r in w.procs ==> Idling(w, r, w.procs[r]))
    requires forall l :: l in ls ==> l.Does? && l.ref == r
    ensures var w' := Run(true, w, ls);
            && w' == w.(procs := w'.procs) && (r in w'.procs ==> Idling(w, r, w'.procs[r]))
    decreases |ls|
  {
    if ls != [] {
      var front := ls[..|ls| - 1];
      assert forall l :: l in front ==> l in ls;
      StableForever(w, r, front);
      IdleStep(Run(true, w, front), r, ls[|ls| - 1].act);
    }
  }

  /** The informers deliver the current versions of r and its children. */
  function Refresh(w: World, r: Ref): World {
    w.(nets := ShowStored(w.nets, r), svcs := ShowStored(w.svcs, SvcRef(r)),
       stss := ShowStored(w.stss, SetRef(r)))
  }

  function ShowStored<T(==)>(k: Kind<T>, at: Ref): Kind<T> {
    Show(k, at, if at in k.stored then Some(k.stored[at]) else None)
  }

  /** A converged network is stable as soon as the caches have caught up. */
  lemma ConvergedIsStable(w0: World, w: World, r: Ref)
    requires Sane(w) && r.ns != "" && r in w0.nets.stored && w.pods == w0.pods
    requires ChildrenDone(w, r) && w.nets.stored[r].status == Seen(w0, r)
    requires w.nets.stored[r].spec == w0.nets.stored[r].spec && w.nets.stored[r].spec.nodes >= 0
    requires !w.nets.stored[r].deleting
    ensures Stable(Refresh(w, r), r)
  {
    assert NetSane(w.nets, r) && ServiceSane(w.svcs, SvcRef(r)) && SetSane(w.stss, SetRef(r));
  }

  /** A list lost while the stored status stays the same is never repaired. */
  lemma SilentResetIsForever(w: World, r: Ref, u: IP, x: IP, ls: seq<Label>)
    requires Stable(w, r) && r !in w.procs
    requires u in Listed(w, r) && x in Listed(w, r) && u != x
    requires forall l :: l in ls ==> l.Does? && l.ref == r
    ensures var w' := Run(true, Happen(w, DaemonChanges(u, Some({}))), ls);
            x in RowDebt(w'.mesh, u, Listed(w', r))
  {
    StableForever(Happen(w, DaemonChanges(u, Some({}))), r, ls);
  }
}
