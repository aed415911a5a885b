/**
  What the calls read and write: they decide by the caches alone, and what they store in the API server
  and tell the daemons is said here outright, with every count stored accounted for.
 */
module Writes {
  import opened Types
  import opened Names
  import opened PeerMesh
  import opened Machine
  import opened Safety

  /** The steps that look something up. */
  predicate LooksUp(w: World, r: Ref, a: Act) {
    a.Begin? || (a.Step? && r in w.procs && (w.procs[r].FindService? || w.procs[r].FindSet? || w.procs[r].ReadPods?))
  }

  /** A lookup sees the caches only, whatever the server stores and the daemons do. */
  lemma LookupsSeeCaches(gated: bool, w: World, w': World, r: Ref, a: Act)
    requires LooksUp(w, r, a) && w'.procs == w.procs && w'.pods == w.pods
    requires w'.nets.shown == w.nets.shown && w'.svcs.shown == w.svcs.shown && w'.stss.shown == w.stss.shown
    ensures Decide(gated, w', r, a) == Decide(gated, w, r, a)
  {
  }

  lemma LookupDecides(gated: bool, w: World, r: Ref, a: Act)
    requires LooksUp(w, r, a) && Decide(gated, w, r, a).Some?
    ensures Decide(gated, w, r, a).value == Goto(Decide(gated, w, r, a).value.next)
  {
  }

  /** And it changes nothing but the state of the call itself. */
  lemma LookupsChangeNothing(gated: bool, w: World, r: Ref, a: Act)
    requires LooksUp(w, r, a)
    ensures Work(gated, w, r, a) == w.(procs := Work(gated, w, r, a).procs)
  {
    if Decide(gated, w, r, a).Some? { LookupDecides(gated, w, r, a); }
  }

  /** What an add or remove request does to the daemons: one entry of one list, if it gets through. */
  lemma CallEffect(gated: bool, w: World, r: Ref, pass: Pass, c: Rpc)
    requires r in w.procs && w.procs[r] == Syncing(pass) && Allowed(pass, c) && !c.Poll?
    ensures var m', u := Work(gated, w, r, Call(c)).mesh, pass.row;
      && (u in w.mesh && c.fate.Failed? ==> m' == w.mesh) && (u !in w.mesh ==> m' == w.mesh)
      && (u in w.mesh && !c.fate.Failed? && c.AddPeer? ==> m' == w.mesh[u := w.mesh[u] + {c.peer}])
      && (u in w.mesh && !c.fate.Failed? && c.RemovePeer? ==> m' == w.mesh[u := w.mesh[u] - {c.peer}])
  {
    RpcWorks(gated, w, r, pass, c);
  }

  predicate SendsSet(p: Phase) {
    p.MakeSet? || p.FixReplicas?
  }

  lemma SetsKept(gated: bool, w: World, r: Ref, a: Act)
    requires a.Step? && r in w.procs ==> !SendsSet(w.procs[r])
    ensures Work(gated, w, r, a).stss == w.stss
  {
    var d := Decide(gated, w, r, a);
    assert d.Some? ==> d.value.sts == None;
  }

  lemma SetSent(gated: bool, w: World, r: Ref, fate: Fate)
    requires Sane(w) && r in w.procs && SendsSet(w.procs[r])
    ensures var w', at, p := Work(gated, w, r, Step(fate)), SetRef(r), w.procs[r];
      && w'.stss.stored - {at} == w.stss.stored - {at}
      && (w'.stss.stored != w.stss.stored <==>
            && !fate.Failed? && p.net.spec.nodes >= 0
            && (p.MakeSet? ==> at !in w.stss.stored)
            && (p.FixReplicas? ==>
                  at in w.stss.stored && w.stss.stored[at] == p.sts && p.sts.replicas != p.net.spec.nodes))
      && (w'.stss.stored != w.stss.stored ==>
            var made, nodes := w'.stss.stored[at], p.net.spec.nodes;
            && made.replicas == nodes && (r, nodes) in w'.asked && Wanted(w.nets, r, nodes)
            && (at in w.stss.stored ==> made == w.stss.stored[at].(replicas := nodes, version := made.version))
            && (at !in w.stss.stored ==>
                  && made.owners == [OwnerRef("BitcoinNetwork", r.name, true)]
                  && made.app == r.name && made.serviceName == r.name + "-svc"))
  {
    assert CallSane(w, r) && SetSane(w.stss, SetRef(r));
    assert Wanted(w.nets, r, w.procs[r].net.spec.nodes);
  }

  /**
    Exactly when a step of the call for r changes the stateful sets in the server, and to what: the name
    is free, or the set is the very one the call has seen; the replicas are what the network the call
    works for asks for, which is on record and was wanted once; nothing else is changed.
   */
  lemma SetWritten(gated: bool, w: World, r: Ref, a: Act)
    requires Sane(w)
    ensures var w', at := Work(gated, w, r, a), SetRef(r);
      && w'.stss.stored - {at} == w.stss.stored - {at}
      && (w'.stss.stored != w.stss.stored <==>
            && a.Step? && !a.fate.Failed? && r in w.procs && SendsSet(w.procs[r]) && w.procs[r].net.spec.nodes >= 0
            && (w.procs[r].MakeSet? ==> at !in w.stss.stored)
            && (w.procs[r].FixReplicas? ==>
                  && at in w.stss.stored && w.stss.stored[at] == w.procs[r].sts
                  && w.procs[r].sts.replicas != w.procs[r].net.spec.nodes))
      && (w'.stss.stored != w.stss.stored ==>
            var made, nodes := w'.stss.stored[at], w.procs[r].net.spec.nodes;
            && made.replicas == nodes && (r, nodes) in w'.asked && Wanted(w.nets, r, nodes)
            && (at in w.stss.stored ==> made == w.stss.stored[at].(replicas := nodes, version := made.version))
            && (at !in w.stss.stored ==>
                  && made.owners == [OwnerRef("BitcoinNetwork", r.name, true)]
                  && made.app == r.name && made.serviceName == r.name + "-svc"))
  {
    if a.Step? && r in w.procs && SendsSet(w.procs[r]) {
      SetSent(gated, w, r, a.fate);
    } else {
      SetsKept(gated, w, r, a);
    }
  }

  lemma ServicesKept(gated: bool, w: World, r: Ref, a: Act)
    requires a.Step? && r in w.procs ==> !w.procs[r].MakeService?
    ensures Work(gated, w, r, a).svcs == w.svcs
  {
    var d := Decide(gated, w, r, a);
    assert d.Some? ==> d.value.svc == None;
  }

  /** Exactly when a step of the call for r changes the services in the server, and to what. */
  lemma ServiceWritten(gated: bool, w: World, r: Ref, a: Act)
    ensures var w', at := Work(gated, w, r, a), Ref(r.ns, r.name + "-svc");
      && w'.svcs.stored - {at} == w.svcs.stored - {at}
      && (w'.svcs.stored != w.svcs.stored <==>
            a.Step? && !a.fate.Failed? && r in w.procs && w.procs[r].MakeService? && at !in w.svcs.stored)
      && (w'.svcs.stored != w.svcs.stored ==>
            w'.svcs.stored[at] == Service([OwnerRef("BitcoinNetwork", r.name, true)], "None", r.name))
  {
    if !(a.Step? && r in w.procs && w.procs[r].MakeService?) { ServicesKept(gated, w, r, a); }
  }

  lemma NetworksKept(gated: bool, w: World, r: Ref, a: Act)
    requires a.Step? && r in w.procs ==> !w.procs[r].WriteStatus?
    ensures Work(gated, w, r, a).nets == w.nets
  {
    var d := Decide(gated, w, r, a);
    assert d.Some? ==> d.value.net == None;
  }

  lemma StatusSent(gated: bool, w: World, r: Ref, fate: Fate)
    requires Sane(w) && r in w.procs && w.procs[r].WriteStatus?
    ensures var w', net, found := Work(gated, w, r, Step(fate)), w.procs[r].net, w.procs[r].found;
      && w'.nets.stored - {r} == w.nets.stored - {r}
      && (w'.nets.stored != w.nets.stored <==>
            !fate.Failed? && r in w.nets.stored && w.nets.stored[r] == net && net.status != found)
      && (w'.nets.stored != w.nets.stored ==>
            && w'.nets.stored[r].version > net.version
            && w'.nets.stored[r] == net.(status := found, version := w'.nets.stored[r].version))
  {
    assert CallSane(w, r) && NetSane(w.nets, r);
  }

  /**
    Exactly when a step of the call for r changes the networks in the server: it writes the nodes it has
    found into the status of the version it works from, if that is still current and shows others.
   */
  lemma StatusWritten(gated: bool, w: World, r: Ref, a: Act)
    requires Sane(w)
    ensures var w' := Work(gated, w, r, a);
      && w'.nets.stored - {r} == w.nets.stored - {r}
      && (w'.nets.stored != w.nets.stored <==>
            && a.Step? && !a.fate.Failed? && r in w.procs && w.procs[r].WriteStatus?
            && r in w.nets.stored && w.nets.stored[r] == w.procs[r].net && w.procs[r].net.status != w.procs[r].found)
      && (w'.nets.stored != w.nets.stored ==>
            && w'.nets.stored[r].version > w.nets.stored[r].version
            && w'.nets.stored[r] ==
                 w.nets.stored[r].(status := w.procs[r].found, version := w'.nets.stored[r].version))
  {
    if a.Step? && r in w.procs && w.procs[r].WriteStatus? {
      StatusSent(gated, w, r, a.fate);
    } else {
      NetworksKept(gated, w, r, a);
    }
  }

  /** A failed create or update is only logged: the call goes on as if it had been served. */
  lemma FailuresPassedOver(gated: bool, w: World, r: Ref, f: Fate)
    requires r in w.procs && (w.procs[r].MakeService? || SendsSet(w.procs[r]) || w.procs[r].WriteStatus?)
    ensures Decide(gated, w, r, Step(f)).Some?
    ensures Decide(gated, w, r, Step(f)).value.next == Decide(gated, w, r, Step(Served)).value.next
  {
  }

  /** The replica count of a stored version was wanted by its network, or a user has set it by hand. */
  ghost predicate Accounted(w: World, ls: seq<Label>, at: Ref, sts: StatefulSet) {
    Wanted(w.nets, Ref(at.ns, sts.app), sts.replicas) || Happens(UserScales(at, sts.replicas)) in ls
  }

  lemma StepAccounted(gated: bool, w: World, ls: seq<Label>, l: Label, at: Ref, sts: StatefulSet)
    requires Sane(w) && (at, sts) in Next(gated, w, l).stss.log
    requires (at, sts) in w.stss.log ==> Accounted(w, ls, at, sts)
    ensures Accounted(Next(gated, w, l), ls + [l], at, sts)
  {
    var w' := Next(gated, w, l);
    if (at, sts) in w.stss.log {
      if Wanted(w.nets, Ref(at.ns, sts.app), sts.replicas) {
        StillWanted(w.nets, w'.nets, Ref(at.ns, sts.app), sts.replicas);
      }
    } else if l.Does? {
      NewlyLogged(gated, w, l.ref, l.act, at, sts);
      StillWanted(w.nets, w'.nets, l.ref, sts.replicas);
    } else {
      assert l == Happens(UserScales(at, sts.replicas));
    }
  }

  lemma NewlyLogged(gated: bool, w: World, r: Ref, a: Act, at: Ref, sts: StatefulSet)
    requires Sane(w) && (at, sts) in Work(gated, w, r, a).stss.log && (at, sts) !in w.stss.log
    ensures Ref(at.ns, sts.app) == r && Wanted(w.nets, r, sts.replicas)
    ensures w.nets.log <= Work(gated, w, r, a).nets.log
  {
    assert CallSane(w, r) && SetSane(w.stss, SetRef(r));
    assert Wanted(w.nets, r, w.procs[r].net.spec.nodes);
    assert at == SetRef(r) && sts.replicas == w.procs[r].net.spec.nodes;
    assert w.procs[r].FixReplicas? ==> SetFits(SetRef(r), w.procs[r].sts);
    if w.procs[r].FixReplicas? { ChildRefsInjective(Ref(at.ns, sts.app), r); }
  }

  /** In every run, every replica count a call ever stored is one its network once asked for. */
  lemma {:induction false} CountsAccounted(gated: bool, mesh: Mesh, ls: seq<Label>, at: Ref, sts: StatefulSet)
    requires (at, sts) in Run(gated, Blank(mesh), ls).stss.log
    ensures Accounted(Run(gated, Blank(mesh), ls), ls, at, sts)
    decreases |ls|
  {
    if ls != [] {
      var front := ls[..|ls| - 1];
      BlankSane(mesh);
      RunSane(gated, Blank(mesh), front);
      if (at, sts) in Run(gated, Blank(mesh), front).stss.log {
        CountsAccounted(gated, mesh, front, at, sts);
      }
      StepAccounted(gated, Run(gated, Blank(mesh), front), front, ls[|ls| - 1], at, sts);
      assert ls == front + [ls[|ls| - 1]];
    }
  }
}
