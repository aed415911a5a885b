/**
  What goes wrong when a hypothesis of the gate is dropped: a failed RPC or a rejected status write
  that is only logged is not made up for by any later reconcile, because the gate skips them all.
 */
module CounterRuns {
  import opened Types
  import opened Names
  import opened PeerMesh
  import opened Machine
  import opened Safety
  import opened Status
  import opened GateKeeping
  import opened Converge

  // ---------------------------------------------------------------- a pass inside the machine

  function Sent(r: Ref, calls: seq<Rpc>): seq<Label> {
    if calls == [] then [] else [Does(r, Call(calls[0]))] + Sent(r, calls[1..])
  }

  /** The pass that the call for r is in takes its RPCs just as a pass on its own. */
  lemma {:induction false} PassInMachine(gated: bool, w: World, r: Ref, p: Pass, calls: seq<Rpc>)
    requires if p.Over() then r !in w.procs else r in w.procs && w.procs[r] == Syncing(p)
    ensures var w', (m, q) := Run(gated, w, Sent(r, calls)), Drive(w.mesh, p, calls);
      && w' == w.(mesh := m, procs := w'.procs) && w'.procs - {r} == w.procs - {r}
      && (if q.Over() then r !in w'.procs else r in w'.procs && w'.procs[r] == Syncing(q))
    decreases |calls|
  {
    if calls != [] {
      var c := calls[0];
      var l := Does(r, Call(c));
      var w1 := Next(gated, w, l);
      if !p.Over() && Allowed(p, c) {
        RpcWorks(gated, w, r, p, c);
      } else {
        assert Decide(gated, w, r, Call(c)) == None;
      }
      RunOne(gated, w, l);
      RunConcat(gated, w, [l], Sent(r, calls[1..]));
      assert w1.procs - {r} == w.procs - {r};
      PassInMachine(gated, w1, r, Move(w.mesh, p, c), calls[1..]);
    }
  }

  // ---------------------------------------------------------------- a failed RPC

  lemma RefreshKeeps(w: World, r: Ref, m: Mesh, procs: map<Ref, Phase>)
    ensures Refresh(w.(mesh := m, procs := procs), r) == Refresh(w, r).(mesh := m, procs := procs)
  {
  }

  /** What a reconcile leaves undone in the mesh of a network that is otherwise stable stays undone. */
  lemma DebtStays(w: World, r: Ref, ls: seq<Label>)
    requires Stable(w, r) && r !in w.procs
    requires forall l :: l in ls ==> l.Does? && l.ref == r
    ensures Run(true, w, ls).mesh == w.mesh && Listed(Run(true, w, ls), r) == Listed(w, r)
  {
    StableForever(w, r, ls);
  }

  lemma PassEnds(m: Mesh, ready: set<IP>, calls: seq<Rpc>)
    requires Drive(m, NewPass(ready), calls).1.Over()
    ensures var (m', p) := Drive(m, NewPass(ready), calls);
      && p.ready == ready && Debt(m', ready, ready) == p.failed + Debt(m, p.skipped, ready)
      && (Complete(m', ready) <==> p.failed == {} && Debt(m, p.skipped, ready) == {})
  {
    var (m', p) := Drive(m, NewPass(ready), calls);
    LedgerOpens(m, ready);
    DriveBooked(m, m, NewPass(ready), calls);
    DriveStaysInside(m, m, NewPass(ready), calls);
    LedgerCloses(m, m', p);
    PassCompletes(m, m', p);
  }

  /**
    A pass over the listed daemons begins, and some of its RPCs fail. However often the network is
    reconciled after that, the mesh lacks exactly what those RPCs owed; it is complete if and only if
    none of them owed anything.
   */
  lemma FailedRpcIsForever(w: World, r: Ref, calls: seq<Rpc>, ls: seq<Label>)
    requires Stable(Refresh(w, r), r) && r in w.procs
    requires var ready := Listed(w, r); ready != {} && w.procs[r] == Syncing(NewPass(ready))
    requires Drive(w.mesh, NewPass(Listed(w, r)), calls).1.Over()
    requires forall l :: l in ls ==> l.Does? && l.ref == r
    ensures var ready, p := Listed(w, r), Drive(w.mesh, NewPass(Listed(w, r)), calls).1;
      var end := Run(true, Refresh(Run(true, w, Sent(r, calls)), r), ls);
      && Listed(end, r) == ready
      && Debt(end.mesh, ready, ready) == p.failed + Debt(w.mesh, p.skipped, ready)
      && (Complete(end.mesh, ready) <==> p.failed == {} && Debt(w.mesh, p.skipped, ready) == {})
  {
    var ready := Listed(w, r);
    var (m, p) := Drive(w.mesh, NewPass(ready), calls);
    PassInMachine(true, w, r, NewPass(ready), calls);
    PassEnds(w.mesh, ready, calls);
    var w1 := Run(true, w, Sent(r, calls));
    RefreshKeeps(w, r, m, w1.procs);
    DebtStays(Refresh(w1, r), r, ls);
  }

  // ---------------------------------------------------------------- a rejected write

  /**
    The status write of a changed observation is refused, and the pass that follows succeeds over the
    observed daemons. When the pods look again as the stored status says, the network is stable but its
    mesh is not complete, however often it is reconciled.
   */
  lemma RejectedWriteIsForever(w: World, r: Ref, fate: Fate, calls: seq<Rpc>, pods: map<Ref, Pod>, ls: seq<Label>)
    requires r in w.procs && w.procs[r].WriteStatus? && Stable(w.(pods := pods), r)
    requires !Accepts(w, r, w.procs[r].net, fate) && w.procs[r].net.status != w.procs[r].found
    requires var ready := ReadyIPs(w.procs[r].found); ready * Listed(w, r) != {} && ready != Listed(w, r)
    requires var p := Drive(w.mesh, NewPass(ReadyIPs(w.procs[r].found)), calls).1; p.Over() && p.Clean()
    requires forall l :: l in ls ==> l.Does? && l.ref == r
    ensures var w1 := Run(true, w, [Does(r, Step(fate))] + Sent(r, calls));
      var end := Run(true, w1.(pods := pods), ls);
      && Stable(w1.(pods := pods), r) && r !in w1.procs
      && Listed(end, r) == Listed(w, r) && !Complete(end.mesh, Listed(end, r))
  {
    var ready := ReadyIPs(w.procs[r].found);
    var write := Does(r, Step(fate));
    var w0 := Next(true, w, write);
    assert w0 == w.(procs := w.procs[r := Syncing(NewPass(ready))]);
    RunOne(true, w, write);
    RunConcat(true, w, [write], Sent(r, calls));
    PassInMachine(true, w0, r, NewPass(ready), calls);
    var (m, p) := Drive(w.mesh, NewPass(ready), calls);
    var w1 := Run(true, w0, Sent(r, calls));
    DebtStays(w1.(pods := pods), r, ls);
    PassEnds(w.mesh, ready, calls);
    assert Debt(w.mesh, {}, ready) == {};
    OtherPassHarms(m, ready, Listed(w, r));
  }

  // ---------------------------------------------------------------- one such run, from the start

  const NET := Ref("default", "net")
  const DAEMON: Mesh := map["10.0.0.1" := {"10.9.9.9"}]
  const POD := Pod("net-sts-0", [Condition("Ready", "True")], "10.0.0.1")

  /** A network of one node is created and seen, and its pod with it. */
  lemma NetworkAppears() returns (ls: seq<Label>, w: World)
    ensures w == Run(true, Blank(DAEMON), ls) && forall l :: l in ls ==> l.Happens?
    ensures NET !in w.procs && w.mesh == DAEMON && w.svcs == NoObjects() && w.stss == NoObjects()
    ensures w.pods == map[PodRef(NET, 0) := POD]
    ensures NET in w.nets.stored && w.nets.stored[NET] == Net(1, false, Spec(1, ""), NilList)
    ensures UpToDate(w.nets, NET)
  {
    var net := Net(1, false, Spec(1, ""), NilList);
    var l1, l2 := Happens(UserPuts(NET, Spec(1, ""))), Happens(ShowNet(NET, Some(net)));
    var l3 := Happens(ShowPod(PodRef(NET, 0), Some(POD)));
    var w1 := Next(true, Blank(DAEMON), l1);
    assert w1.nets.stored[NET] == net && (NET, net) in w1.nets.log;
    RunOne(true, Blank(DAEMON), l1);
    RunThen(true, Blank(DAEMON), [l1], l2);
    RunThen(true, Blank(DAEMON), [l1] + [l2], l3);
    ls := [l1] + [l2] + [l3];
    w := Next(true, Next(true, w1, l2), l3);
  }

  function Go(w: World): World {
    Next(true, w, Does(NET, Step(Served)))
  }

  function Gone(w: World, n: nat): World {
    if n == 0 then w else Go(Gone(w, n - 1))
  }

  const WISH := Net(1, false, Spec(1, ""), NilList)
  const SEEN := Items([NodeOf(POD, 0, SvcRef(NET).name)])
  const LOST := Does(NET, Call(Poll("10.0.0.1", Failed(0))))

  /** Service and stateful set are created. */
  lemma FirstSteps(w: World) returns (w4: World)
    requires NET !in w.procs && w.svcs == NoObjects() && w.stss == NoObjects()
    requires NET in w.nets.shown && w.nets.shown[NET] == WISH
    ensures w4 == Gone(Next(true, w, Does(NET, Begin(Served))), 4)
    ensures NET in w4.procs && w4.procs[NET] == ReadPods(WISH, 0, NilList)
    ensures w4.nets == w.nets && w4.mesh == w.mesh && w4.pods == w.pods
    ensures SvcRef(NET) in w4.svcs.stored && SetRef(NET) in w4.stss.stored && w4.stss.stored[SetRef(NET)].replicas == 1
  {
    var w0 := Next(true, w, Does(NET, Begin(Served)));
    var w1 := Go(w0);
    assert w1.procs[NET] == MakeService(WISH) && w1.stss == NoObjects();
    var w2 := Go(w1);
    assert w2.procs[NET] == FindSet(WISH) && w2.stss == NoObjects();
    var w3 := Go(w2);
    assert w3.procs[NET] == MakeSet(WISH) && w3.stss == NoObjects();
    w4 := Go(w3);
    assert w1 == Gone(w0, 1);
    assert w2 == Gone(w0, 2);
    assert w3 == Gone(w0, 3);
    assert w4 == Gone(w0, 4);
  }

  lemma SeenReady()
    ensures ReadyIPs(SEEN) == {"10.0.0.1"}
  {
    assert Condition("Ready", "True") in POD.conditions;
    assert SEEN.All() == [NodeOf(POD, 0, SvcRef(NET).name)];
  }

  lemma ReadStep(w: World)
    requires NET in w.procs && w.procs[NET] == ReadPods(WISH, 0, NilList)
    requires PodRef(NET, 0) in w.pods && w.pods[PodRef(NET, 0)] == POD
    ensures Go(w) == w.(procs := w.procs[NET := WriteStatus(WISH, SEEN)])
  {
    assert NilList.Append(NodeOf(POD, 0, SvcRef(NET).name)) == SEEN;
  }

  lemma WriteStep(w: World)
    requires NET in w.procs && w.procs[NET] == WriteStatus(WISH, SEEN)
    requires NET in w.nets.stored && w.nets.stored[NET] == WISH
    ensures Go(w) == w.(nets := Store(w.nets, NET, WISH.(status := SEEN, version := NextRev(w.nets, NET))),
                        procs := w.procs[NET := Syncing(NewPass({"10.0.0.1"}))])
  {
    SeenReady();
  }

  /** The pod is found and reported, and the poll of its daemon is lost. */
  lemma LastSteps(w: World) returns (w3: World)
    requires NET in w.procs && w.procs[NET] == ReadPods(WISH, 0, NilList)
    requires NET in w.nets.stored && w.nets.stored[NET] == WISH
    requires PodRef(NET, 0) in w.pods && w.pods[PodRef(NET, 0)] == POD
    ensures w3 == Next(true, Go(Go(w)), LOST)
    ensures NET !in w3.procs && w3.mesh == w.mesh && w3.pods == w.pods && w3.svcs == w.svcs && w3.stss == w.stss
    ensures NET in w3.nets.stored && w3.nets.stored[NET] == WISH.(status := SEEN, version := NextRev(w.nets, NET))
  {
    ReadStep(w);
    WriteStep(Go(w));
    var w2 := Go(Go(w));
    RpcWorks(true, w2, NET, NewPass({"10.0.0.1"}), LOST.act.rpc);
    w3 := Next(true, w2, LOST);
  }

  lemma NowStable(w: World)
    requires Sane(w) && w.pods == map[PodRef(NET, 0) := POD]
    requires NET in w.nets.stored && w.nets.stored[NET].spec == WISH.spec && !w.nets.stored[NET].deleting
    requires w.nets.stored[NET].status == SEEN
    requires SvcRef(NET) in w.svcs.stored && SetRef(NET) in w.stss.stored && w.stss.stored[SetRef(NET)].replicas == 1
    ensures Stable(Refresh(w, NET), NET)
  {
    assert NetSane(w.nets, NET) && ServiceSane(w.svcs, SvcRef(NET)) && SetSane(w.stss, SetRef(NET));
    assert ObservedUpTo(w.pods, NET, 0) == NilList;
    assert ObservedUpTo(w.pods, NET, 1) == SEEN;
  }

  lemma StillOwing(m: Mesh)
    requires m == DAEMON
    ensures !Complete(m, {"10.0.0.1"})
  {
    assert "10.9.9.9" in RowDebt(m, "10.0.0.1", {"10.0.0.1"});
  }

  lemma PollLost() returns (ls: seq<Label>, w2: World)
    ensures w2 == Run(true, Blank(DAEMON), ls) && NET !in w2.procs && w2.mesh == DAEMON
    ensures forall l :: l in ls && l.Does? && l != LOST ==> FateOf(l.act).Served?
    ensures w2.pods == map[PodRef(NET, 0) := POD] && NET in w2.nets.stored
    ensures w2.nets.stored[NET] == WISH.(status := SEEN, version := w2.nets.stored[NET].version)
    ensures SvcRef(NET) in w2.svcs.stored && SetRef(NET) in w2.stss.stored && w2.stss.stored[SetRef(NET)].replicas == 1
  {
    var w0, w1;
    ls, w0 := NetworkAppears();
    w1 := FirstSteps(w0);
    w2 := LastSteps(w1);
    ls := Extended(ls, w0, w2);
  }

  /**
    A run from the very start in which one request, the poll of the only daemon, is lost. The network
    ends up stable, with a peer in the daemon's list that is nobody's pod; the next reconciles, all of
    them skipped by the gate, leave it there.
   */
  lemma LostPollCounterRun() returns (ls: seq<Label>)
    ensures forall l :: l in ls && l.Does? && l != LOST ==> FateOf(l.act).Served?
    ensures var w := Refresh(Run(true, Blank(DAEMON), ls), NET);
      && NET !in w.procs && Stable(w, NET)
      && Listed(w, NET) == {"10.0.0.1"} && !Complete(w.mesh, Listed(w, NET))
  {
    var w2;
    ls, w2 := PollLost();
    BlankSane(DAEMON);
    RunSane(true, Blank(DAEMON), ls);
    NowStable(w2);
    SeenReady();
    StillOwing(w2.mesh);
  }

  lemma Extended(ls: seq<Label>, w0: World, w2: World) returns (all: seq<Label>)
    requires w0 == Run(true, Blank(DAEMON), ls) && forall l :: l in ls ==> l.Happens?
    requires w2 == Next(true, Go(Go(Gone(Next(true, w0, Does(NET, Begin(Served))), 4))), LOST)
    ensures w2 == Run(true, Blank(DAEMON), all)
    ensures forall l :: l in all && l.Does? && l != LOST ==> FateOf(l.act).Served?
  {
    var b, s := Does(NET, Begin(Served)), Does(NET, Step(Served));
    all := ls + [b];
    RunThen(true, Blank(DAEMON), ls, b);
    for i := 0 to 6
      invariant Run(true, Blank(DAEMON), all) == Gone(Next(true, w0, b), i)
      invariant forall l :: l in all && l.Does? ==> FateOf(l.act).Served?
    {
      RunThen(true, Blank(DAEMON), all, s);
      all := all + [s];
    }
    assert Gone(Next(true, w0, b), 6) == Go(Gone(Next(true, w0, b), 5)) == Go(Go(Gone(Next(true, w0, b), 4)));
    RunThen(true, Blank(DAEMON), all, LOST);
    all := all + [LOST];
  }
}
