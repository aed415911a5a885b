/** What holds in every run, however far the caches lag and whatever fails. */
module Safety {
  import opened Types
  import opened Names
  import opened PeerMesh
  import opened Machine

  /** metav1.GetControllerOf */
  function ControllerOf(owners: seq<OwnerRef>): Option<OwnerRef> {
    if owners == [] then None
    else if owners[0].controller then Some(owners[0])
    else ControllerOf(owners[1..])
  }

  ghost predicate ServiceFits(at: Ref, svc: Service) {
    at == SvcRef(Ref(at.ns, svc.app)) && svc == NewService(Ref(at.ns, svc.app))
  }

  ghost predicate SetFits(at: Ref, sts: StatefulSet) {
    && at == SetRef(Ref(at.ns, sts.app)) && sts.replicas >= 0
    && sts == NewSet(Ref(at.ns, sts.app), sts.replicas, sts.version)
  }

  /** Some stored version of the network asked for this many nodes. */
  ghost predicate Wanted(k: Kind<Net>, ref: Ref, nodes: int32) {
    exists net :: (ref, net) in k.log && net.spec.nodes == nodes
  }

  // ---------------------------------------------------------------- objects of one kind

  ghost predicate Logged<T>(k: Kind<T>, r: Ref) {
    && (r in k.stored ==> (r, k.stored[r]) in k.log)
    && (r in k.shown ==> (r, k.shown[r]) in k.log)
  }

  ghost predicate NetSane(k: Kind<Net>, r: Ref) {
    && Logged(k, r)
    && (forall n :: (r, n) in k.log ==> r in k.rev && n.version <= k.rev[r])
    && (forall n, n' :: (r, n) in k.log && (r, n') in k.log && n.version == n'.version ==> n == n')
  }

  ghost predicate SetSane(k: Kind<StatefulSet>, r: Ref) {
    && Logged(k, r)
    && (forall s :: (r, s) in k.log ==> r in k.rev && s.version <= k.rev[r] && SetFits(r, s))
    && (forall s, s' :: (r, s) in k.log && (r, s') in k.log && s.version == s'.version ==> s == s')
  }

  ghost predicate ServiceSane(k: Kind<Service>, r: Ref) {
    && Logged(k, r)
    && (forall s :: (r, s) in k.log ==> ServiceFits(r, s))
  }

  ghost predicate NetsSane(k: Kind<Net>) { forall r :: NetSane(k, r) }

  ghost predicate SetsSane(k: Kind<StatefulSet>) { forall r :: SetSane(k, r) }

  ghost predicate ServicesSane(k: Kind<Service>) { forall r :: ServiceSane(k, r) }

  lemma PutNetSane(k: Kind<Net>, at: Ref, net: Option<Net>)
    requires NetsSane(k) && (net.Some? ==> net.value.version == NextRev(k, at))
    ensures NetsSane(PutIf(k, at, net))
  {
    forall r ensures NetSane(PutIf(k, at, net), r) {
      assert NetSane(k, r);
    }
  }

  lemma PutSetSane(k: Kind<StatefulSet>, at: Ref, sts: Option<StatefulSet>)
    requires SetsSane(k)
    requires sts.Some? ==> sts.value.version == NextRev(k, at) && SetFits(at, sts.value)
    ensures SetsSane(PutIf(k, at, sts))
  {
    forall r ensures SetSane(PutIf(k, at, sts), r) {
      assert SetSane(k, r);
    }
  }

  lemma PutServiceSane(k: Kind<Service>, at: Ref, svc: Option<Service>)
    requires ServicesSane(k) && (svc.Some? ==> ServiceFits(at, svc.value))
    ensures ServicesSane(PutIf(k, at, svc))
  {
    forall r ensures ServiceSane(PutIf(k, at, svc), r) {
      assert ServiceSane(k, r);
    }
  }

  lemma NetsAfterSane(k: Kind<Net>, e: Event)
    requires NetsSane(k)
    ensures NetsSane(NetsAfter(k, e)) && k.log <= NetsAfter(k, e).log
  {
    var k' := NetsAfter(k, e);
    if e.UserPuts? || (e.UserDeletes? && e.ref in k.stored) {
      assert NetSane(k, e.ref);
      PutNetSane(k, e.ref, Some(k'.stored[e.ref]));
    } else {
      forall r ensures NetSane(k', r) {
        assert NetSane(k, r);
      }
    }
  }

  lemma SetsAfterSane(k: Kind<StatefulSet>, e: Event)
    requires SetsSane(k)
    ensures SetsSane(SetsAfter(k, e)) && k.log <= SetsAfter(k, e).log
  {
    var k' := SetsAfter(k, e);
    if e.UserScales? && e.ref in k.stored && e.replicas >= 0 {
      assert SetSane(k, e.ref);
      PutSetSane(k, e.ref, Some(k'.stored[e.ref]));
    } else {
      forall r ensures SetSane(k', r) {
        assert SetSane(k, r);
      }
    }
  }

  lemma ServicesAfterSane(k: Kind<Service>, e: Event)
    requires ServicesSane(k)
    ensures ServicesSane(ServicesAfter(k, e))
  {
    forall r ensures ServiceSane(ServicesAfter(k, e), r) {
      assert ServiceSane(k, r);
    }
  }

  // ---------------------------------------------------------------- calls in progress

  /** The values a call carries were once stored. */
  ghost predicate Carries(nets: Kind<Net>, stss: Kind<StatefulSet>, ref: Ref, p: Phase) {
    && (!p.Syncing? ==> (ref, p.net) in nets.log && !p.net.deleting)
    && (p.FixReplicas? ==> (SetRef(ref), p.sts) in stss.log && p.sts.replicas != p.net.spec.nodes)
  }

  ghost predicate CallSane(w: World, r: Ref) {
    && (r in w.procs ==> Carries(w.nets, w.stss, r, w.procs[r]))
    && (forall k :: (r, k) in w.asked ==> Wanted(w.nets, r, k))
  }

  /**
    Everything stored, cached or carried by a call was stored under its name before, versions
    identify contents, children fit their names and requests were wanted.
   */
  ghost predicate Sane(w: World) {
    NetsSane(w.nets) && SetsSane(w.stss) && ServicesSane(w.svcs) && forall r :: CallSane(w, r)
  }

  lemma BlankSane(mesh: Mesh)
    ensures Sane(Blank(mesh))
  {
    var w := Blank(mesh);
    forall r ensures NetSane(w.nets, r) && SetSane(w.stss, r) && ServiceSane(w.svcs, r) && CallSane(w, r) {}
  }

  lemma StillWanted(k: Kind<Net>, k': Kind<Net>, ref: Ref, nodes: int32)
    requires k.log <= k'.log && Wanted(k, ref, nodes)
    ensures Wanted(k', ref, nodes)
  {
    var n :| (ref, n) in k.log && n.spec.nodes == nodes;
    assert (ref, n) in k'.log;
  }

  ghost predicate DeltaFits(w: World, ref: Ref, d: Delta) {
    && (d.net.Some? ==> d.net.value.version == NextRev(w.nets, ref))
    && (d.svc.Some? ==> ServiceFits(SvcRef(ref), d.svc.value))
    && (d.sts.Some? ==> d.sts.value.version == NextRev(w.stss, SetRef(ref))
                        && SetFits(SetRef(ref), d.sts.value))
    && (d.next.Some? ==> Carries(w.nets, w.stss, ref, d.next.value))
    && (d.asks.Some? ==> Wanted(w.nets, ref, d.asks.value))
  }

  lemma NewServiceFits(ref: Ref)
    ensures ServiceFits(SvcRef(ref), NewService(ref))
  {
    assert Ref(SvcRef(ref).ns, ref.name) == ref;
  }

  lemma NewSetFits(ref: Ref, nodes: int32, version: nat)
    requires nodes >= 0
    ensures SetFits(SetRef(ref), NewSet(ref, nodes, version))
  {
    assert Ref(SetRef(ref).ns, ref.name) == ref;
  }

  lemma ReplacedFits(at: Ref, sts: StatefulSet, nodes: int32, version: nat)
    requires SetFits(at, sts) && nodes >= 0
    ensures SetFits(at, sts.(replicas := nodes, version := version))
  {
  }

  lemma SetPhaseFits(gated: bool, w: World, ref: Ref, fate: Fate)
    requires ref in w.procs && CallSane(w, ref) && (w.procs[ref].MakeSet? || w.procs[ref].FixReplicas?)
    requires SetSane(w.stss, SetRef(ref))
    ensures DeltaFits(w, ref, Decide(gated, w, ref, Step(fate)).value)
  {
    var p := w.procs[ref];
    assert Wanted(w.nets, ref, p.net.spec.nodes);
    if p.net.spec.nodes >= 0 {
      NewSetFits(ref, p.net.spec.nodes, NextRev(w.stss, SetRef(ref)));
      if p.FixReplicas? { ReplacedFits(SetRef(ref), p.sts, p.net.spec.nodes, NextRev(w.stss, SetRef(ref))); }
    }
  }

  lemma PhaseFits(gated: bool, w: World, ref: Ref, fate: Fate)
    requires ref in w.procs && CallSane(w, ref) && SetSane(w.stss, SetRef(ref))
    requires Decide(gated, w, ref, Step(fate)).Some?
    ensures DeltaFits(w, ref, Decide(gated, w, ref, Step(fate)).value)
  {
    match w.procs[ref]
    case FindService(net) =>
    case MakeService(net) =>
      NewServiceFits(ref);
    case FindSet(net) =>
    case MakeSet(net) =>
      SetPhaseFits(gated, w, ref, fate);
    case FixReplicas(net, sts) =>
      SetPhaseFits(gated, w, ref, fate);
    case ReadPods(net, i, found) =>
    case WriteStatus(net, found) =>
    case Syncing(_) =>
  }

  lemma DecideFits(gated: bool, w: World, ref: Ref, a: Act)
    requires Sane(w) && Decide(gated, w, ref, a).Some?
    ensures DeltaFits(w, ref, Decide(gated, w, ref, a).value)
  {
    if a.Step? {
      assert CallSane(w, ref) && SetSane(w.stss, SetRef(ref));
      PhaseFits(gated, w, ref, a.fate);
    } else {
      assert NetSane(w.nets, ref);
    }
  }

  lemma CommitSane(w: World, ref: Ref, d: Delta)
    requires Sane(w) && DeltaFits(w, ref, d)
    ensures Sane(Commit(w, ref, d))
  {
    PutNetSane(w.nets, ref, d.net);
    PutServiceSane(w.svcs, SvcRef(ref), d.svc);
    PutSetSane(w.stss, SetRef(ref), d.sts);
    var w' := Commit(w, ref, d);
    forall r ensures CallSane(w', r) {
      assert CallSane(w, r);
      forall k | (r, k) in w'.asked ensures Wanted(w'.nets, r, k) {
        StillWanted(w.nets, w'.nets, r, k);
      }
    }
  }

  lemma HappenSane(w: World, e: Event)
    requires Sane(w)
    ensures Sane(Happen(w, e))
  {
    NetsAfterSane(w.nets, e);
    SetsAfterSane(w.stss, e);
    ServicesAfterSane(w.svcs, e);
    var w' := Happen(w, e);
    forall r ensures CallSane(w', r) {
      assert CallSane(w, r);
      forall k | (r, k) in w'.asked ensures Wanted(w'.nets, r, k) {
        StillWanted(w.nets, w'.nets, r, k);
      }
    }
  }

  lemma NextSane(gated: bool, w: World, l: Label)
    requires Sane(w)
    ensures Sane(Next(gated, w, l))
  {
    if l.Happens? {
      HappenSane(w, l.event);
    } else if Decide(gated, w, l.ref, l.act).Some? {
      DecideFits(gated, w, l.ref, l.act);
      CommitSane(w, l.ref, Decide(gated, w, l.ref, l.act).value);
    }
  }

  // ---------------------------------------------------------------- every run

  lemma {:induction false} RunSane(gated: bool, w: World, ls: seq<Label>)
    requires Sane(w)
    ensures Sane(Run(gated, w, ls))
    decreases |ls|
  {
    if ls != [] {
      RunSane(gated, w, ls[..|ls| - 1]);
      NextSane(gated, Run(gated, w, ls[..|ls| - 1]), ls[|ls| - 1]);
    }
  }

  /**
    The children of a network: found by owner, they sit under the derived name and fit together, and
    the services are headless.
   */
  ghost predicate ChildrenFit(w: World) {
    && (forall at :: at in w.svcs.stored ==>
          var svc := w.svcs.stored[at];
          && ControllerOf(svc.owners) == Some(OwnerRef("BitcoinNetwork", svc.app, true))
          && at == Ref(at.ns, svc.app + "-svc") && svc.clusterIP == "None")
    && (forall at :: at in w.stss.stored ==>
          var sts := w.stss.stored[at];
          && ControllerOf(sts.owners) == Some(OwnerRef("BitcoinNetwork", sts.app, true))
          && at == Ref(at.ns, sts.app + "-sts") && sts.serviceName == sts.app + "-svc")
  }

  lemma SaneChildrenFit(w: World)
    requires Sane(w)
    ensures ChildrenFit(w)
  {
    forall at | at in w.svcs.stored ensures ServiceFits(at, w.svcs.stored[at]) {
      assert ServiceSane(w.svcs, at);
    }
    forall at | at in w.stss.stored ensures SetFits(at, w.stss.stored[at]) {
      assert SetSane(w.stss, at);
    }
  }

  /** The call for r works from a version of r that was once stored and was not being deleted. */
  ghost predicate NotForDeleted(w: World, r: Ref)
    requires r in w.procs
  {
    !w.procs[r].Syncing? ==> (r, w.procs[r].net) in w.nets.log && !w.procs[r].net.deleting
  }

  /**
    In every run from a blank cluster, a child in the server is controlled by, labelled for and named
    after one network of its namespace (so that no network has two of a kind), its stateful set
    points to its service, and every replica count asked for is one its users once wrote. No call works
    from a version that was being deleted.
   */
  lemma StaleCacheSafety(gated: bool, mesh: Mesh, ls: seq<Label>)
    ensures ChildrenFit(Run(gated, Blank(mesh), ls))
    ensures forall r, k :: (r, k) in Run(gated, Blank(mesh), ls).asked ==>
              Wanted(Run(gated, Blank(mesh), ls).nets, r, k)
    ensures forall r :: r in Run(gated, Blank(mesh), ls).procs ==> NotForDeleted(Run(gated, Blank(mesh), ls), r)
  {
    BlankSane(mesh);
    RunSane(gated, Blank(mesh), ls);
    var w := Run(gated, Blank(mesh), ls);
    SaneChildrenFit(w);
    forall r, k | (r, k) in w.asked ensures Wanted(w.nets, r, k) {
      assert CallSane(w, r);
    }
    forall r | r in w.procs ensures NotForDeleted(w, r) {
      assert CallSane(w, r);
    }
  }

  /** A status the server accepts was computed from the very object it stores. */
  lemma AcceptedIsCurrent(w: World, ref: Ref, fate: Fate)
    requires Sane(w) && ref in w.procs && w.procs[ref].WriteStatus?
    requires Accepts(w, ref, w.procs[ref].net, fate)
    ensures w.nets.stored[ref] == w.procs[ref].net
  {
    assert CallSane(w, ref) && NetSane(w.nets, ref);
  }
}
