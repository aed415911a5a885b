/**
  The controller and its surroundings as a transition system. One doRecon call is a process that
  takes one lister lookup, one API call or one RPC per step; processes for different networks, users,
  informers and daemons take steps in any order.
 */
module Machine {
  import opened Types
  import opened Names
  import opened PeerMesh

  /** Where a doRecon call stands, with the values its local variables hold there. */
  datatype Phase =
    | FindService(net: Net)
    | MakeService(net: Net)
    | FindSet(net: Net)
    | MakeSet(net: Net)
    | FixReplicas(net: Net, sts: StatefulSet)
    | ReadPods(net: Net, i: nat, found: NodeList)
    | WriteStatus(net: Net, found: NodeList)
    | Syncing(pass: Pass)

  /**
    The objects of one kind: what the API server stores, what the informer cache shows, every
    version ever stored, and the last version number given out under each name.
   */
  datatype Kind<T(==)> = Kind(
    stored: map<Ref, T>, shown: map<Ref, T>, log: set<(Ref, T)>, rev: map<Ref, nat>)

  datatype World = World(
    nets: Kind<Net>,
    svcs: Kind<Service>,
    stss: Kind<StatefulSet>,
    pods: map<Ref, Pod>,            // the pod cache
    mesh: Mesh,                     // the daemons that are up
    procs: map<Ref, Phase>,         // doRecon calls in progress
    asked: set<(Ref, int32)>)       // replica counts asked for, by network

  function NextRev<T(==)>(k: Kind<T>, at: Ref): nat {
    if at in k.rev then k.rev[at] + 1 else 1
  }

  function Store<T(==)>(k: Kind<T>, at: Ref, obj: T): Kind<T> {
    k.(stored := k.stored[at := obj], log := k.log + {(at, obj)}, rev := k.rev[at := NextRev(k, at)])
  }

  function Drop<T(==)>(k: Kind<T>, at: Ref): Kind<T> {
    k.(stored := k.stored - {at})
  }

  /** The cache lags: it may show any version that was ever stored, or nothing. */
  function Show<T(==)>(k: Kind<T>, at: Ref, obj: Option<T>): Kind<T> {
    if obj.None? then k.(shown := k.shown - {at})
    else if (at, obj.value) in k.log then k.(shown := k.shown[at := obj.value])
    else k
  }

  function PutIf<T(==)>(k: Kind<T>, at: Ref, obj: Option<T>): Kind<T> {
    if obj.Some? then Store(k, at, obj.value) else k
  }

  // ---------------------------------------------------------------- what the controller builds

  function OwnerFor(ref: Ref): OwnerRef {
    OwnerRef("BitcoinNetwork", ref.name, true)
  }

  function NewService(ref: Ref): Service {
    Service([OwnerFor(ref)], "None", ref.name)
  }

  function NewSet(ref: Ref, nodes: int32, version: nat): StatefulSet {
    StatefulSet(version, [OwnerFor(ref)], ref.name, SvcRef(ref).name, nodes)
  }

  predicate PodReady(pod: Pod) {
    exists c :: c in pod.conditions && c.kind == "Ready" && c.status == "True"
  }

  function ToInt32(i: int): int32 {
    (i + 0x8000_0000) % 0x1_0000_0000 - 0x8000_0000
  }

  function NodeOf(pod: Pod, i: int, svcName: string): Node {
    Node(ToInt32(i), PodReady(pod), pod.ip, pod.name, pod.name + "." + svcName)
  }

  // ---------------------------------------------------------------- steps of a doRecon call

  datatype Act =
    | Begin(fate: Fate)
    | Step(fate: Fate)
    | Call(rpc: Rpc)

  function FateOf(a: Act): Fate {
    if a.Call? then a.rpc.fate else a.fate
  }

  /** What a step changes; next == None ends the call. */
  datatype Delta = Delta(
    next: Option<Phase>,
    net: Option<Net>,
    svc: Option<Service>,
    sts: Option<StatefulSet>,
    row: RowEdit,
    asks: Option<int32>)

  function Goto(next: Option<Phase>): Delta {
    Delta(next, None, None, None, Keep, None)
  }

  /** The server takes a status only from the current version. */
  predicate Accepts(w: World, ref: Ref, net: Net, fate: Fate) {
    !fate.Failed? && ref in w.nets.stored && w.nets.stored[ref].version == net.version
  }

  /** The new version a status update makes; storing the same status makes none. */
  function StatusVersion(w: World, ref: Ref, net: Net, found: NodeList, fate: Fate): Option<Net> {
    if Accepts(w, ref, net, fate) && w.nets.stored[ref].status != found
    then Some(w.nets.stored[ref].(status := found, version := NextRev(w.nets, ref)))
    else None
  }

  /** The server creates a stateful set under a free name, if the replica count is not negative. */
  function SetCreated(w: World, ref: Ref, net: Net, fate: Fate): Option<StatefulSet> {
    if !fate.Failed? && SetRef(ref) !in w.stss.stored && net.spec.nodes >= 0
    then Some(NewSet(ref, net.spec.nodes, NextRev(w.stss, SetRef(ref))))
    else None
  }

  /** The server replaces a stateful set only by a copy made from its current version. */
  function SetReplaced(w: World, ref: Ref, sts: StatefulSet, nodes: int32, fate: Fate)
    : Option<StatefulSet>
  {
    var at := SetRef(ref);
    if !fate.Failed? && at in w.stss.stored && w.stss.stored[at].version == sts.version && nodes >= 0
       && w.stss.stored[at] != sts.(replicas := nodes)
    then Some(sts.(replicas := nodes, version := NextRev(w.stss, at)))
    else None
  }

  /** The pod loop: another lookup while ordinals are left, then the status update. */
  function PodLoop(net: Net, i: nat, found: NodeList): Phase {
    if i < net.spec.nodes then ReadPods(net, i, found) else WriteStatus(net, found)
  }

  function OpenPass(ready: set<IP>): Option<Phase> {
    if ready == {} then None else Some(Syncing(NewPass(ready)))
  }

  /** The DeepEqual gate; with gated == false every reconcile synchronises. */
  function Gate(gated: bool, net: Net, found: NodeList): Option<Phase> {
    if gated && net.status == found then None else OpenPass(ReadyIPs(found))
  }

  /** The lister of networks looks in a namespace, so that it finds namespaced objects only. */
  predicate InLister(shown: map<Ref, Net>, ref: Ref) {
    ref.ns != "" && ref in shown
  }

  function AfterCall(p: Pass): Option<Phase> {
    if p.Over() then None else Some(Syncing(p))
  }

  /** The effect of one step of the call for ref; None if the call cannot take it. */
  function Decide(gated: bool, w: World, ref: Ref, a: Act): Option<Delta> {
    if a.Begin? then
      if ref !in w.procs && InLister(w.nets.shown, ref) && !w.nets.shown[ref].deleting && a.fate.Served?
      then Some(Goto(Some(FindService(w.nets.shown[ref]))))
      else None
    else if ref !in w.procs then None
    else if a.Call? then
      match w.procs[ref]
      case Syncing(p) =>
        if Allowed(p, a.rpc)
        then Some(Goto(AfterCall(Move(w.mesh, p, a.rpc))).(row := Edit(w.mesh, p, a.rpc)))
        else None
      case _ => None
    else
      match w.procs[ref]
      case FindService(net) =>
        if !a.fate.Served? then Some(Goto(None))
        else if SvcRef(ref) in w.svcs.shown then Some(Goto(Some(FindSet(net))))
        else Some(Goto(Some(MakeService(net))))
      case MakeService(net) =>
        var made := if !a.fate.Failed? && SvcRef(ref) !in w.svcs.stored then Some(NewService(ref)) else None;
        Some(Goto(Some(FindSet(net))).(svc := made))
      case FindSet(net) =>
        if !a.fate.Served? then Some(Goto(None))
        else if SetRef(ref) !in w.stss.shown then Some(Goto(Some(MakeSet(net))))
        else if w.stss.shown[SetRef(ref)].replicas != net.spec.nodes
        then Some(Goto(Some(FixReplicas(net, w.stss.shown[SetRef(ref)]))))
        else Some(Goto(Some(PodLoop(net, 0, NilList))))
      case MakeSet(net) =>
        Some(Goto(Some(PodLoop(net, 0, NilList)))
             .(sts := SetCreated(w, ref, net, a.fate), asks := Some(net.spec.nodes)))
      case FixReplicas(net, sts) =>
        Some(Goto(Some(PodLoop(net, 0, NilList)))
             .(sts := SetReplaced(w, ref, sts, net.spec.nodes, a.fate), asks := Some(net.spec.nodes)))
      case ReadPods(net, i, found) =>
        if !a.fate.Served? then Some(Goto(Gate(gated, net, NilList)))
        else if PodRef(ref, i) in w.pods then
          var node := NodeOf(w.pods[PodRef(ref, i)], i, SvcRef(ref).name);
          Some(Goto(Some(PodLoop(net, i + 1, found.Append(node)))))
        else Some(Goto(Some(PodLoop(net, i + 1, found))))
      case WriteStatus(net, found) =>
        Some(Goto(Gate(gated, net, found)).(net := StatusVersion(w, ref, net, found, a.fate)))
      case Syncing(_) => None
  }

  function Commit(w: World, ref: Ref, d: Delta): World {
    World(PutIf(w.nets, ref, d.net),
          PutIf(w.svcs, SvcRef(ref), d.svc),
          PutIf(w.stss, SetRef(ref), d.sts),
          w.pods,
          Edited(w.mesh, d.row),
          if d.next.Some? then w.procs[ref := d.next.value] else w.procs - {ref},
          if d.asks.Some? then w.asked + {(ref, d.asks.value)} else w.asked)
  }

  function Work(gated: bool, w: World, ref: Ref, a: Act): World {
    var d := Decide(gated, w, ref, a);
    if d.Some? then Commit(w, ref, d.value) else w
  }

  /** An RPC touches one row of the mesh and the pass of its own call, and nothing else. */
  lemma RpcWorks(gated: bool, w: World, ref: Ref, pass: Pass, c: Rpc)
    requires ref in w.procs && w.procs[ref] == Syncing(pass) && Allowed(pass, c)
    ensures var next := AfterCall(Move(w.mesh, pass, c));
            Work(gated, w, ref, Call(c)) ==
              w.(mesh := Edited(w.mesh, Edit(w.mesh, pass, c)),
                 procs := if next.Some? then w.procs[ref := next.value] else w.procs - {ref})
  {
  }

  // ---------------------------------------------------------------- everybody else

  /**
    Users edit networks and tamper with replica counts, objects disappear, the informers show any
    version that was ever stored (or nothing), pods come and go, and the list of a daemon changes
    when it starts, stops or is told to by somebody else.
   */
  datatype Event =
    | UserPuts(ref: Ref, spec: Spec)
    | UserDeletes(ref: Ref)
    | NetGone(ref: Ref)
    | ServiceGone(ref: Ref)
    | SetGone(ref: Ref)
    | UserScales(ref: Ref, replicas: int32)
    | ShowNet(ref: Ref, net: Option<Net>)
    | ShowService(ref: Ref, svc: Option<Service>)
    | ShowSet(ref: Ref, sts: Option<StatefulSet>)
    | ShowPod(ref: Ref, pod: Option<Pod>)
    | DaemonChanges(ip: IP, peers: Option<set<IP>>)

  function NetsAfter(k: Kind<Net>, e: Event): Kind<Net> {
    match e
    case UserPuts(ref, spec) =>
      Store(k, ref, if ref in k.stored then k.stored[ref].(spec := spec, version := NextRev(k, ref))
                  else Net(NextRev(k, ref), false, spec, NilList))
    case UserDeletes(ref) =>
      if ref in k.stored
      then Store(k, ref, k.stored[ref].(deleting := true, version := NextRev(k, ref))) else k
    case NetGone(ref) => Drop(k, ref)
    case ShowNet(ref, net) => Show(k, ref, net)
    case _ => k
  }

  function ServicesAfter(k: Kind<Service>, e: Event): Kind<Service> {
    match e
    case ServiceGone(ref) => Drop(k, ref)
    case ShowService(ref, svc) => Show(k, ref, svc)
    case _ => k
  }

  function SetsAfter(k: Kind<StatefulSet>, e: Event): Kind<StatefulSet> {
    match e
    case UserScales(ref, replicas) =>
      if ref in k.stored && replicas >= 0
      then Store(k, ref, k.stored[ref].(replicas := replicas, version := NextRev(k, ref))) else k
    case SetGone(ref) => Drop(k, ref)
    case ShowSet(ref, sts) => Show(k, ref, sts)
    case _ => k
  }

  function PodsAfter(pods: map<Ref, Pod>, e: Event): map<Ref, Pod> {
    if !e.ShowPod? then pods
    else if e.pod.None? then pods - {e.ref}
    else pods[e.ref := e.pod.value]
  }

  function MeshAfter(m: Mesh, e: Event): Mesh {
    if !e.DaemonChanges? then m
    else if e.peers.None? then m - {e.ip}
    else m[e.ip := e.peers.value]
  }

  function Happen(w: World, e: Event): World {
    World(NetsAfter(w.nets, e), ServicesAfter(w.svcs, e), SetsAfter(w.stss, e),
          PodsAfter(w.pods, e), MeshAfter(w.mesh, e), w.procs, w.asked)
  }

  // ---------------------------------------------------------------- runs

  datatype Label = Does(ref: Ref, act: Act) | Happens(event: Event)

  function Next(gated: bool, w: World, l: Label): World {
    match l
    case Does(ref, a) => Work(gated, w, ref, a)
    case Happens(e) => Happen(w, e)
  }

  function Run(gated: bool, w: World, ls: seq<Label>): World {
    if ls == [] then w else Next(gated, Run(gated, w, ls[..|ls| - 1]), ls[|ls| - 1])
  }

  lemma {:induction false} RunConcat(gated: bool, w: World, a: seq<Label>, b: seq<Label>)
    ensures Run(gated, w, a + b) == Run(gated, Run(gated, w, a), b)
    decreases |b|
  {
    if b == [] {
      assert a + b == a;
    } else {
      var c := b[..|b| - 1];
      RunConcat(gated, w, a, c);
      assert (a + b)[..|a + b| - 1] == a + c;
    }
  }

  lemma RunOne(gated: bool, w: World, l: Label)
    ensures Run(gated, w, [l]) == Next(gated, w, l)
  {
    assert Run(gated, w, [l][..0]) == w;
  }

  lemma RunThen(gated: bool, w: World, ls: seq<Label>, l: Label)
    ensures Run(gated, w, ls + [l]) == Next(gated, Run(gated, w, ls), l)
  {
    assert (ls + [l])[..|ls|] == ls;
  }

  /** From the n-th step on no step of a call meets a failure. */
  ghost predicate ServedSince(n: nat, ls: seq<Label>) {
    forall i :: n <= i < |ls| && ls[i].Does? ==> FateOf(ls[i].act).Served?
  }

  /** What no call ever changes: the caches, and other calls. */
  ghost predicate Frame(w0: World, w: World, ref: Ref) {
    && w.nets.shown == w0.nets.shown && w.svcs.shown == w0.svcs.shown && w.stss.shown == w0.stss.shown
    && w.pods == w0.pods && w.procs - {ref} == w0.procs - {ref}
  }

  lemma WorkFrame(gated: bool, w: World, ref: Ref, a: Act)
    ensures Frame(w, Work(gated, w, ref, a), ref)
  {
    var w' := Work(gated, w, ref, a);
    assert w'.procs - {ref} == w.procs - {ref};
  }

  lemma FrameKeepsProcs(w0: World, w: World, r: Ref)
    requires Frame(w0, w, r) && r !in w0.procs && r !in w.procs
    ensures w.procs == w0.procs
  {
    assert w.procs == w.procs - {r} && w0.procs == w0.procs - {r};
  }

  lemma {:induction false} RunFrame(gated: bool, w: World, ls: seq<Label>, ref: Ref)
    requires forall l :: l in ls ==> l.Does? && l.ref == ref
    ensures Frame(w, Run(gated, w, ls), ref)
    decreases |ls|
  {
    if ls != [] {
      var front := ls[..|ls| - 1];
      assert forall l :: l in front ==> l in ls;
      RunFrame(gated, w, front, ref);
      WorkFrame(gated, Run(gated, w, front), ref, ls[|ls| - 1].act);
    }
  }

  function NoObjects<T(==)>(): Kind<T> {
    Kind(map[], map[], {}, map[])
  }

  /** A cluster before any network was created. */
  function Blank(mesh: Mesh): World {
    World(NoObjects(), NoObjects(), NoObjects(), map[], mesh, map[], {})
  }
}
