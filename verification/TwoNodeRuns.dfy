/**
  Concrete runs from a blank cluster with two nodes: a status write that is refused because of a
  concurrent edit, and a daemon that loses its list while its status stays the same.
 */
module TwoNodeRuns {
  import opened Types
  import opened Names
  import opened PeerMesh
  import opened Machine
  import opened Safety
  import opened Status
  import opened GateKeeping
  import opened Converge
  import opened Finishing
  import opened CounterRuns
  import opened Leading

  const A: IP := "10.0.0.1"
  const B: IP := "10.0.0.2"
  const DAEMONS: Mesh := map[A := {}, B := {}]
  const POD_A := Pod("net-sts-0", [Condition("Ready", "True")], A)
  const POD_B := Pod("net-sts-1", [Condition("Ready", "True")], B)
  const POD_B_DOWN := Pod("net-sts-1", [Condition("Ready", "False")], B)
  const ASKED := Net(1, false, Spec(2, ""), NilList)

  function Pods(b: Pod): map<Ref, Pod> {
    map[PodRef(NET, 0) := POD_A, PodRef(NET, 1) := b]
  }

  function Nodes(b: Pod): NodeList {
    Items([NodeOf(POD_A, 0, SvcRef(NET).name), NodeOf(b, 1, SvcRef(NET).name)])
  }

  lemma NodesObserved(b: Pod)
    ensures PodRef(NET, 0) != PodRef(NET, 1)
    ensures Observed(Pods(b), NET, 2) == Nodes(b)
  {
    if PodRef(NET, 0) == PodRef(NET, 1) { PodRefInjective(NET, 0, NET, 1); }
    assert ObservedUpTo(Pods(b), NET, 0) == NilList;
    assert ObservedUpTo(Pods(b), NET, 1) == Items([NodeOf(POD_A, 0, SvcRef(NET).name)]);
    assert ObservedUpTo(Pods(b), NET, 2) == Nodes(b);
  }

  lemma NodesReady()
    ensures ReadyIPs(Nodes(POD_B)) == {A, B} && ReadyIPs(Nodes(POD_B_DOWN)) == {A}
  {
    assert Condition("Ready", "True") in POD_A.conditions && Condition("Ready", "True") in POD_B.conditions;
    assert !PodReady(POD_B_DOWN);
    assert Nodes(POD_B).All() == [NodeOf(POD_A, 0, SvcRef(NET).name), NodeOf(POD_B, 1, SvcRef(NET).name)];
    assert Nodes(POD_B_DOWN).All() == [NodeOf(POD_A, 0, SvcRef(NET).name), NodeOf(POD_B_DOWN, 1, SvcRef(NET).name)];
  }

  lemma AskedAndShown() returns (ls: seq<Label>, w: World)
    ensures Leads(DAEMONS, ls, w) && Fresh(w, NET) && NET !in w.procs && w.mesh == DAEMONS
    ensures w.nets.stored[NET] == ASKED && w.pods == map[]
  {
    var w0 := Blank(DAEMONS);
    var w1 := Happen(w0, UserPuts(NET, ASKED.spec));
    assert w1.nets.stored[NET] == ASKED && (NET, ASKED) in w1.nets.log;
    assert Leads(DAEMONS, [], w0);
    ls := EventLeads(DAEMONS, [], w0, UserPuts(NET, ASKED.spec));
    ls := EventLeads(DAEMONS, ls, w1, ShowNet(NET, Some(ASKED)));
    w := Happen(w1, ShowNet(NET, Some(ASKED)));
  }

  /** The network is created, and the informers show it and its two ready pods. */
  lemma TwoNodesAppear() returns (ls: seq<Label>, w: World)
    ensures Leads(DAEMONS, ls, w) && Fresh(w, NET) && NET !in w.procs && w.mesh == DAEMONS
    ensures w.nets.stored[NET] == ASKED && w.pods == Pods(POD_B)
  {
    ls, w := AskedAndShown();
    var e1, e2 := ShowPod(PodRef(NET, 0), Some(POD_A)), ShowPod(PodRef(NET, 1), Some(POD_B));
    ls := EventLeads(DAEMONS, ls, w, e1);
    ls := EventLeads(DAEMONS, ls, Happen(w, e1), e2);
    w := Happen(Happen(w, e1), e2);
  }

  lemma TwoNodesReconciled() returns (ls: seq<Label>, w0: World, w: World)
    ensures Leads(DAEMONS, ls, w) && NET !in w.procs && NET in w0.nets.stored && w0.nets.stored[NET] == ASKED
    ensures w0.pods == Pods(POD_B) && w0.mesh == DAEMONS
    ensures Finished(w0, w, NET) && Around(w0, w, NET) && Stable(Refresh(w, NET), NET)
  {
    ls, w0 := TwoNodesAppear();
    NodesObserved(POD_B);
    NodesReady();
    ls, w := ReconcileLeads(DAEMONS, ls, w0, NET);
  }

  /** The first reconcile is clean, and the caches catch up. */
  lemma CleanStart() returns (ls: seq<Label>, w: World)
    ensures Leads(DAEMONS, ls, w) && NET !in w.procs && Stable(w, NET)
    ensures w.nets.stored[NET].spec == ASKED.spec && w.nets.stored[NET].status == Nodes(POD_B) && w.pods == Pods(POD_B)
    ensures Complete(w.mesh, {A, B}) && w.mesh.Keys == {A, B}
  {
    var ls1, w0, w1 := TwoNodesReconciled();
    NodesObserved(POD_B);
    NodesReady();
    ls := RefreshLeads(DAEMONS, ls1, w1, NET);
    w := Refresh(w1, NET);
  }

  // ---------------------------------------------------------------- a silent reset

  /**
    The second daemon loses its list. Nothing shows in the pods, so the network stays stable with an
    incomplete mesh, and no reconcile changes that.
   */
  lemma LostListCounterRun() returns (ls: seq<Label>)
    ensures Calm(ls)
    ensures var w := Run(true, Blank(DAEMONS), ls + [Happens(DaemonChanges(B, Some({})))]);
      && NET !in w.procs && Stable(w, NET) && Listed(w, NET) == {A, B}
      && forall more: seq<Label> :: (forall l :: l in more ==> l.Does? && l.ref == NET) ==>
           !Complete(Run(true, w, more).mesh, {A, B}) && Listed(Run(true, w, more), NET) == {A, B}
  {
    var w;
    ls, w := CleanStart();
    NodesReady();
    var reset := DaemonChanges(B, Some({}));
    RunThen(true, Blank(DAEMONS), ls, Happens(reset));
    var w1 := Happen(w, reset);
    assert A in RowDebt(w1.mesh, B, {A, B});
    forall more: seq<Label> | forall l :: l in more ==> l.Does? && l.ref == NET
      ensures !Complete(Run(true, w1, more).mesh, {A, B}) && Listed(Run(true, w1, more), NET) == {A, B}
    {
      DebtStays(w1, NET, more);
    }
  }

  // ---------------------------------------------------------------- a refused write

  /** The cluster w with the call for the network at p. */
  function At(w: World, p: Phase): World {
    w.(procs := w.procs[NET := p])
  }

  lemma FindsChildren(w: World, net: Net)
    requires SvcRef(NET) in w.svcs.shown && SetRef(NET) in w.stss.shown
    requires w.stss.shown[SetRef(NET)].replicas == net.spec.nodes == 2
    ensures Go(At(w, FindService(net))) == At(w, FindSet(net))
    ensures Go(At(w, FindSet(net))) == At(w, ReadPods(net, 0, NilList))
  {
    assert Go(At(w, FindService(net))).procs == At(w, FindSet(net)).procs;
    assert Go(At(w, FindSet(net))).procs == At(w, ReadPods(net, 0, NilList)).procs;
  }

  lemma ReadsFirst(w: World, net: Net, b: Pod)
    requires net.spec.nodes == 2 && w.pods == Pods(b) && PodRef(NET, 0) != PodRef(NET, 1)
    ensures Go(At(w, ReadPods(net, 0, NilList))) == At(w, ReadPods(net, 1, Items([NodeOf(POD_A, 0, SvcRef(NET).name)])))
  {
    assert NilList.Append(NodeOf(POD_A, 0, SvcRef(NET).name)) == Items([NodeOf(POD_A, 0, SvcRef(NET).name)]);
    assert Go(At(w, ReadPods(net, 0, NilList))).procs ==
        At(w, ReadPods(net, 1, Items([NodeOf(POD_A, 0, SvcRef(NET).name)]))).procs;
  }

  lemma ReadsSecond(w: World, net: Net, b: Pod)
    requires net.spec.nodes == 2 && w.pods == Pods(b)
    ensures Go(At(w, ReadPods(net, 1, Items([NodeOf(POD_A, 0, SvcRef(NET).name)])))) ==
              At(w, WriteStatus(net, Nodes(b)))
  {
    var first := Items([NodeOf(POD_A, 0, SvcRef(NET).name)]);
    assert first.Append(NodeOf(b, 1, SvcRef(NET).name)) == Nodes(b);
    assert Go(At(w, ReadPods(net, 1, first))).procs == At(w, WriteStatus(net, Nodes(b))).procs;
  }

  /** A reconcile of a stable network whose second pod now shows as b comes to its status write. */
  lemma ReadsPods(ls: seq<Label>, w: World, b: Pod) returns (all: seq<Label>)
    requires Leads(DAEMONS, ls, w) && NET !in w.procs && Stable(w.(pods := Pods(POD_B)), NET)
    requires w.nets.stored[NET].spec == ASKED.spec && w.pods == Pods(b)
    ensures Leads(DAEMONS, all, At(w, WriteStatus(w.nets.stored[NET], Nodes(b))))
  {
    var net := w.nets.stored[NET];
    NodesObserved(b);
    FindsChildren(w, net);
    ReadsFirst(w, net, b);
    ReadsSecond(w, net, b);
    assert Next(true, w, Does(NET, Begin(Served))) == At(w, FindService(net));
    LeadsOne(DAEMONS, ls, w, Does(NET, Begin(Served)));
    all := GoLeads(DAEMONS, ls + [Does(NET, Begin(Served))], At(w, FindService(net)), NET);
    all := GoLeads(DAEMONS, all, At(w, FindSet(net)), NET);
    all := GoLeads(DAEMONS, all, At(w, ReadPods(net, 0, NilList)), NET);
    all := GoLeads(DAEMONS, all, At(w, ReadPods(net, 1, Items([NodeOf(POD_A, 0, SvcRef(NET).name)]))), NET);
  }

  /** A user edits the network, and the informers show the new version. */
  lemma EditIntervenes(ls: seq<Label>, w: World, net: Net) returns (all: seq<Label>, w': World)
    requires Leads(DAEMONS, ls, w) && Stable(w.(pods := Pods(POD_B)), NET)
    requires w.nets.stored[NET] == net && net.spec.nodes == 2
    ensures Leads(DAEMONS, all, w') && w'.procs == w.procs && w'.mesh == w.mesh && w'.pods == w.pods
    ensures Stable(w'.(pods := Pods(POD_B)), NET) && Listed(w', NET) == Listed(w, NET)
    ensures w'.nets.stored[NET].version != net.version
  {
    LeadsSane(DAEMONS, ls, w);
    assert NetSane(w.nets, NET);
    var e1 := UserPuts(NET, Spec(2, "other"));
    var w1 := Happen(w, e1);
    var e2 := ShowNet(NET, Some(w1.nets.stored[NET]));
    assert (NET, w1.nets.stored[NET]) in w1.nets.log;
    all := EventLeads(DAEMONS, ls, w, e1);
    all := EventLeads(DAEMONS, all, w1, e2);
    w' := Happen(w1, e2);
  }

  /** The pass over the first daemon alone drops the second. */
  lemma PassDrops(m: Mesh)
    requires Complete(m, {A, B}) && m.Keys == {A, B}
    ensures var p := Drive(m, NewPass({A}), [Poll(A, Served), RemovePeer(B, Served)]).1; p.Over() && p.Clean()
  {
    CompleteRow(m, A, {A, B});
    assert m[A] - {A} == {B};
    var p1 := Move(m, NewPass({A}), Poll(A, Served));
    assert {A} - (m[A] + {A}) == {} && (m[A] + {A}) - {A} == {B};
    assert p1 == Editing({A}, {}, A, {}, {B}, {}, {}, {});
    var p2 := Move(m, p1, RemovePeer(B, Served));
    assert {B} - {B} == {};
    var calls := [Poll(A, Served), RemovePeer(B, Served)];
    assert Edited(m, Edit(m, NewPass({A}), Poll(A, Served))) == m;
    assert calls[1..] == [RemovePeer(B, Served)] && calls[1..][1..] == [];
    assert Drive(m, p1, calls[1..]).1 == p2;
    assert Drive(m, NewPass({A}), calls).1 == p2;
  }

  const DROP := [Does(NET, Step(Served)), Does(NET, Call(Poll(A, Served))), Does(NET, Call(RemovePeer(B, Served)))]

  lemma DropSent()
    ensures DROP == [Does(NET, Step(Served))] + Sent(NET, [Poll(A, Served), RemovePeer(B, Served)])
  {
    var calls := [Poll(A, Served), RemovePeer(B, Served)];
    assert calls[1..] == [RemovePeer(B, Served)] && calls[1..][1..] == [];
    assert Sent(NET, calls[1..]) == [Does(NET, Call(RemovePeer(B, Served)))];
  }

  /** The reconcile that saw the second pod down stands at its status write, which an edit has made stale. */
  lemma StaleWrite() returns (ls: seq<Label>, w: World)
    ensures Leads(DAEMONS, ls, w) && NET in w.procs && w.procs[NET].WriteStatus? &&
              w.procs[NET].found == Nodes(POD_B_DOWN)
    ensures w.procs[NET].net.status == Nodes(POD_B)
    ensures Stable(w.(pods := Pods(POD_B)), NET) && Listed(w, NET) == {A, B}
    ensures !Accepts(w, NET, w.procs[NET].net, Served)
    ensures Complete(w.mesh, {A, B}) && w.mesh.Keys == {A, B} && w.pods == Pods(POD_B_DOWN)
  {
    var ls0, w0 := CleanStart();
    NodesObserved(POD_B);
    NodesReady();
    var down := ShowPod(PodRef(NET, 1), Some(POD_B_DOWN));
    ls := EventLeads(DAEMONS, ls0, w0, down);
    var w1 := Happen(w0, down);
    assert w1.pods == Pods(POD_B_DOWN) && w1.(pods := Pods(POD_B)) == w0;
    ls := ReadsPods(ls, w1, POD_B_DOWN);
    var w2 := At(w1, WriteStatus(w1.nets.stored[NET], Nodes(POD_B_DOWN)));
    ls, w := EditIntervenes(ls, w2, w1.nets.stored[NET]);
  }

  /** What the refused write and the pass behind it leave, when the pods look as before. */
  lemma AfterStaleWrite(w: World, more: seq<Label>)
    requires NET in w.procs && w.procs[NET].WriteStatus? && w.procs[NET].found == Nodes(POD_B_DOWN)
    requires w.procs[NET].net.status == Nodes(POD_B) && !Accepts(w, NET, w.procs[NET].net, Served)
    requires Stable(w.(pods := Pods(POD_B)), NET) && Listed(w, NET) == {A, B}
    requires Complete(w.mesh, {A, B}) && w.mesh.Keys == {A, B}
    requires forall l :: l in more ==> l.Does? && l.ref == NET
    ensures var w2 := Run(true, w, DROP).(pods := Pods(POD_B));
      && NET !in w2.procs && Stable(w2, NET)
      && Listed(Run(true, w2, more), NET) == {A, B} && !Complete(Run(true, w2, more).mesh, {A, B})
  {
    NodesReady();
    PassDrops(w.mesh);
    DropSent();
    RejectedWriteIsForever(w, NET, Served, [Poll(A, Served), RemovePeer(B, Served)], Pods(POD_B), more);
  }

  /**
    An edit comes between a reconcile's reading of the pods and its status write. The write is refused,
    the pass drops the second daemon, and when its pod is ready again the gate sees no change: the
    network is stable with an incomplete mesh, and no reconcile changes that.
   */
  lemma RefusedWriteCounterRun() returns (ls: seq<Label>)
    ensures Calm(ls)
    ensures var w := Run(true, Blank(DAEMONS), ls);
      && NET !in w.procs && Stable(w, NET)
      && forall more: seq<Label> :: (forall l :: l in more ==> l.Does? && l.ref == NET) ==>
           Listed(Run(true, w, more), NET) == {A, B} && !Complete(Run(true, w, more).mesh, {A, B})
  {
    var ls0, w := StaleWrite();
    AfterStaleWrite(w, []);
    LeadsOn(DAEMONS, ls0, w, DROP);
    var w1 := Run(true, w, DROP);
    var up := ShowPod(PodRef(NET, 1), Some(POD_B));
    ls := EventLeads(DAEMONS, ls0 + DROP, w1, up);
    PodsBack(w, DROP, up);
    forall more: seq<Label> | forall l :: l in more ==> l.Does? && l.ref == NET
      ensures Listed(Run(true, Happen(w1, up), more), NET) == {A, B}
      ensures !Complete(Run(true, Happen(w1, up), more).mesh, {A, B})
    {
      AfterStaleWrite(w, more);
    }
  }

  lemma PodsBack(w: World, ls: seq<Label>, up: Event)
    requires w.pods == Pods(POD_B_DOWN) && up == ShowPod(PodRef(NET, 1), Some(POD_B))
    requires forall l :: l in ls ==> l.Does? && l.ref == NET
    ensures Happen(Run(true, w, ls), up) == Run(true, w, ls).(pods := Pods(POD_B))
  {
    RunFrame(true, w, ls, NET);
  }
}
