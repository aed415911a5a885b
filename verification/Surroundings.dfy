/**
  The surroundings of one worker: every lookup, API call and RPC it makes is one step of the machine.
  Callers must ask for exactly the step that is due, so that a verified caller is a run of the machine.
 */
module Surroundings {
  import opened Types
  import opened Names
  import opened PeerMesh
  import opened Machine
  import opened DeepCopy

  datatype ClientConfig = ClientConfig(serverIP: IP, serverPort: int, rpcUser: string, rpcPassword: string)

  datatype Verb = GetAddedNodeInfo | AddNodeAdd | AddNodeRemove

  /** A request as it goes out to a daemon. */
  datatype Request = Request(config: ClientConfig, verb: Verb, peer: IP)

  /** Answer of a lister or of the API server. */
  datatype Answer<T> = Found(value: T) | NotFound | AlreadyExists | OtherError

  class Cluster {
    var w: World
    var caller: Ref                  // the network whose reconcile is running
    var tick: nat
    const weather: nat -> Fate       // what becomes of each request
    ghost const start: World
    ghost var log: seq<Label>        // every step since start
    ghost var requests: seq<Request>

    constructor (w: World, weather: nat -> Fate)
      ensures Valid() && this.w == start == w && log == [] && requests == [] && this.weather == weather
    {
      this.w, start, caller, tick, this.weather := w, w, Ref("", ""), 0, weather;
      log, requests := [], [];
    }

    /** No request has failed since moment t0. */
    ghost predicate FairSince(t0: nat)
      reads `tick
    {
      forall t :: t0 <= t < tick ==> weather(t) == Served
    }

    /** Every step took one moment and met its weather. */
    ghost predicate Weathered(ls: seq<Label>) {
      forall i :: 0 <= i < |ls| && ls[i].Does? ==> FateOf(ls[i].act) == weather(i)
    }

    ghost predicate Valid()
      reads this
    {
      w == Run(true, start, log) && tick == |log| && Weathered(log)
    }

    /** Where the running call stands; None if it is over. */
    ghost function Standing(): Option<Phase>
      reads this
    {
      if caller in w.procs then Some(w.procs[caller]) else None
    }

    ghost predicate At(next: Option<Phase>)
      reads this
    {
      Standing() == next
    }

    twostate predicate Took(a: Act)
      reads this
    {
      && Valid() && caller == old(caller)
      && w == Work(true, old(w), caller, a)
      && log == old(log) + [Does(caller, a)]
    }

    /** One lookup or API call of the running call, which then stands at next. */
    twostate predicate Stepped(next: Option<Phase>)
      reads this
    {
      && Valid() && caller == old(caller) && At(next)
      && log == old(log) + [Does(caller, Step(weather(old(tick))))]
      && w.mesh == old(w).mesh && w.pods == old(w).pods
    }

    /** One step of the running call; its fate is that of the current moment. */
    method Take(a: Act)
      requires Valid() && FateOf(a) == weather(tick)
      modifies `w, `log, `tick
      ensures Took(a) && tick == old(tick) + 1
    {
      RunThen(true, start, log, Does(caller, a));
      tick := tick + 1;
      w := Work(true, w, caller, a);
      log := log + [Does(caller, a)];
    }

    // -------------------------------------------------------------- listers

    /** Looks the network up and opens the call; the object itself comes from the caller's cache. */
    method GetNetwork(ref: Ref) returns (found: bool)
      requires Valid() && ref !in w.procs
      modifies `w, `log, `caller, `tick
      ensures caller == ref && Valid()
      ensures log == old(log) + [Does(ref, Begin(weather(old(tick))))]
      ensures found ==> InLister(old(w).nets.shown, ref)
      ensures At(if found && !old(w).nets.shown[ref].deleting then Some(FindService(old(w).nets.shown[ref])) else None)
      ensures Frame(old(w), w, ref)
    {
      var fate := weather(tick);
      caller := ref;
      found := fate.Served? && InLister(w.nets.shown, ref);
      WorkFrame(true, w, ref, Begin(fate));
      Take(Begin(fate));
    }

    method GetService(name: Ref, ghost net: Net) returns (a: Answer<Service>)
      requires Valid() && At(Some(FindService(net))) && name == SvcRef(caller)
      modifies `w, `log, `tick
      ensures Stepped(match a case Found(_) => Some(FindSet(net))
                              case NotFound => Some(MakeService(net))
                              case _ => None)
      ensures w.stss.shown == old(w).stss.shown
    {
      var fate := weather(tick);
      a := if !fate.Served? then OtherError
           else if name in w.svcs.shown then Found(w.svcs.shown[name]) else NotFound;
      Take(Step(fate));
    }

    method GetStatefulSet(name: Ref, ghost net: Net) returns (a: Answer<StatefulSet>)
      requires Valid() && At(Some(FindSet(net))) && name == SetRef(caller)
      modifies `w, `log, `tick
      ensures a.Found? ==> name in old(w).stss.shown && a.value == old(w).stss.shown[name]
      ensures Stepped(match a case Found(s) => if s.replicas != net.spec.nodes then Some(FixReplicas(net, s))
                                               else Some(PodLoop(net, 0, NilList))
                              case NotFound => Some(MakeSet(net))
                              case _ => None)
    {
      var fate := weather(tick);
      a := if !fate.Served? then OtherError
           else if name in w.stss.shown then Found(w.stss.shown[name]) else NotFound;
      Take(Step(fate));
    }

    method GetPod(name: Ref, ghost net: Net, ghost i: nat, ghost found: NodeList) returns (a: Answer<Pod>)
      requires Valid() && At(Some(ReadPods(net, i, found))) && name == PodRef(caller, i)
      modifies `w, `log, `tick
      ensures a.Found? ==> name in old(w).pods && a.value == old(w).pods[name]
      ensures a.NotFound? ==> name !in old(w).pods
      ensures !a.AlreadyExists? && (a.OtherError? ==> weather(old(tick)) != Served)
      ensures Stepped(match a
        case Found(pod) => Some(PodLoop(net, i + 1, found.Append(NodeOf(pod, i, SvcRef(caller).name))))
        case NotFound => Some(PodLoop(net, i + 1, found))
        case _ => None)
      ensures w.nets == old(w).nets
    {
      var fate := weather(tick);
      a := if !fate.Served? then OtherError
           else if name in w.pods then Found(w.pods[name]) else NotFound;
      assert ReadyIPs(NilList) == {};
      Take(Step(fate));
    }

    // -------------------------------------------------------------- API server

    method CreateService(name: Ref, svc: Service, ghost net: Net) returns (a: Answer<Service>)
      requires Valid() && At(Some(MakeService(net))) && name == SvcRef(caller) && svc == NewService(caller)
      modifies `w, `log, `tick
      ensures Stepped(Some(FindSet(net))) && w.stss.shown == old(w).stss.shown
      ensures a == if !weather(old(tick)).Served? then OtherError
                   else if name in old(w).svcs.stored then AlreadyExists else Found(svc)
    {
      var fate := weather(tick);
      a := if !fate.Served? then OtherError
           else if name in w.svcs.stored then AlreadyExists else Found(svc);
      Take(Step(fate));
    }

    /** The server reads the object, pointers followed, and answers with an object of its own. */
    method CreateStatefulSet(sts: StatefulSetObject, ghost net: Net) returns (a: Answer<StatefulSetObject>)
      requires Valid() && At(Some(MakeSet(net))) && sts.ref == SetRef(caller)
      requires sts.Value() == NewSet(caller, net.spec.nodes, sts.version)
      modifies `w, `log, `tick
      ensures Stepped(Some(PodLoop(net, 0, NilList)))
      ensures a.Found? <==>
                weather(old(tick)).Served? && sts.ref !in old(w).stss.stored && sts.replicas.v >= 0
      ensures a.AlreadyExists? <==> weather(old(tick)).Served? && sts.ref in old(w).stss.stored
      ensures a.Found? ==> fresh(a.value) && fresh(a.value.replicas)
      ensures a.Found? ==> a.value.ref == sts.ref && a.value.replicas.v == sts.replicas.v
    {
      var fate := weather(tick);
      if !fate.Served? {
        a := OtherError;
      } else if sts.ref in w.stss.stored {
        a := AlreadyExists;
      } else if sts.replicas.v < 0 {
        a := OtherError;
      } else {
        var copy := sts.DeepCopy();
        copy.version := NextRev(w.stss, sts.ref);
        a := Found(copy);
      }
      Take(Step(fate));
    }

    method UpdateStatefulSet(sts: StatefulSetObject, ghost net: Net, ghost shown: StatefulSet) returns (failed: bool)
      requires Valid() && At(Some(FixReplicas(net, shown))) && sts.ref == SetRef(caller)
      requires sts.Value() == shown.(replicas := net.spec.nodes)
      modifies `w, `log, `tick
      ensures Stepped(Some(PodLoop(net, 0, NilList)))
      ensures !failed ==> sts.ref in w.stss.stored && w.stss.stored[sts.ref].replicas == sts.replicas.v
      ensures failed && weather(old(tick)).Served? ==> w.stss == old(w).stss
    {
      var fate := weather(tick);
      failed := !(fate.Served? && sts.ref in w.stss.stored && w.stss.stored[sts.ref].version == sts.version
                  && sts.replicas.v >= 0);
      Take(Step(fate));
    }

    method UpdateStatus(copy: BitcoinNetwork, ghost net: Net, ghost found: NodeList) returns (failed: bool)
      requires Valid() && At(Some(WriteStatus(net, found))) && copy.ref == caller
      requires copy.Value() == net.(status := found)
      modifies `w, `log, `tick
      ensures Stepped(Gate(true, net, found))
      ensures !failed ==> caller in w.nets.stored && w.nets.stored[caller].status == found
      ensures failed && weather(old(tick)).Served? ==> w.nets == old(w).nets
    {
      var fate := weather(tick);
      failed := !(fate.Served? && caller in w.nets.stored && w.nets.stored[caller].version == copy.version);
      Take(Step(fate));
    }
  }
}
