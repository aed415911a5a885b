/** How the objects fit together: from an empty process to the moment its only worker waits. */
module Setup {
  import opened Types
  import opened Names
  import opened Machine
  import Secrets
  import opened DeepCopy
  import opened Surroundings
  import opened BitcoinClient
  import opened PeerSync
  import opened BitcoinController
  import opened Housing
  import opened Isolation
  import opened WorkQueue
  import opened Workers

  /** The informer fills its cache with objects of its own; reach is what can be reached from them. */
  method CacheNetworks(shown: map<Ref, Net>) returns (lister: map<Ref, BitcoinNetwork>, ghost reach: set<object>)
    ensures lister.Keys == shown.Keys && fresh(reach)
    ensures forall r :: r in lister ==> Caches(lister[r], r, shown[r], reach)
  {
    lister, reach := map[], {};
    var rest := shown.Keys;
    while rest != {}
      modifies {}
      invariant rest <= shown.Keys && lister.Keys == shown.Keys - rest && fresh(reach)
      invariant forall r :: r in lister ==> Caches(lister[r], r, shown[r], reach)
      decreases rest
    {
      var r :| r in rest;
      var obj := NetworkObject(r, shown[r]);
      reach := reach + obj.Footprint();
      lister := lister[r := obj];
      rest := rest - {r};
    }
  }

  ghost predicate Caches(obj: BitcoinNetwork, r: Ref, net: Net, reach: set<object>)
    reads obj, obj.Footprint()
  {
    && obj in reach && obj.status in reach && obj.Footprint() <= reach
    && obj.ref == r && obj.Value() == net
  }

  method NetworkObject(r: Ref, net: Net) returns (obj: BitcoinNetwork)
    ensures fresh(obj.Footprint()) && obj.ref == r && obj.Value() == net
  {
    obj := new BitcoinNetwork();
    obj.ref, obj.version, obj.deleting := r, net.version, net.deleting;
    obj.nodes.v, obj.secret := net.spec.nodes, net.spec.secret;
    var slice := SliceOf(net.status);
    obj.status.nodes := slice;
  }

  method CacheSets(shown: map<Ref, StatefulSet>) returns (lister: map<Ref, StatefulSetObject>, ghost reach: set<object>)
    ensures lister.Keys == shown.Keys && fresh(reach)
    ensures forall r :: r in lister ==> lister[r] in reach && lister[r].replicas in reach
    ensures forall r :: r in lister ==> lister[r].ref == r && lister[r].Value() == shown[r]
  {
    lister, reach := map[], {};
    var rest := shown.Keys;
    while rest != {}
      modifies {}
      invariant rest <= shown.Keys && lister.Keys == shown.Keys - rest && fresh(reach)
      invariant forall r :: r in lister ==> lister[r] in reach && lister[r].replicas in reach
      invariant forall r :: r in lister ==> lister[r].ref == r && lister[r].Value() == shown[r]
      decreases rest
    {
      var r :| r in rest;
      var replicas := new Int32(shown[r].replicas);
      var obj := new StatefulSetObject(r, shown[r].version, shown[r].owners, shown[r].app,
          shown[r].serviceName, replicas);
      reach := reach + {obj, replicas};
      lister := lister[r := obj];
      rest := rest - {r};
    }
  }

  method NewSynchronizer(cluster: Cluster, base: ClientConfig, secrets: map<Ref, Secrets.SecretData>)
    returns (sync: Synchronizer)
    ensures fresh(sync) && sync.rpcClient.cluster == cluster
    ensures sync.rpcClient.config.Value() == base && sync.secrets == secrets
  {
    var config := new Config(base.serverIP, base.serverPort, base.rpcUser, base.rpcPassword);
    var rpcClient := new RpcClient(config, cluster);
    sync := new Synchronizer(rpcClient, secrets);
  }

  /** A controller over filled caches. */
  method NewController(cluster: Cluster, sync: Synchronizer) returns (controller: Controller)
    ensures fresh(controller) && controller.cluster == cluster && controller.sync == sync && fresh(controller.shared)
    ensures controller.BcListerShows(cluster.w.nets.shown) && controller.StsListerShows(cluster.w.stss.shown)
  {
    var bcLister, stsLister;
    ghost var reach, more;
    bcLister, reach := CacheNetworks(cluster.w.nets.shown);
    stsLister, more := CacheSets(cluster.w.stss.shown);
    controller := new Controller(cluster, sync, bcLister, stsLister, reach + more);
    forall r | r in bcLister ensures Caches(bcLister[r], r, cluster.w.nets.shown[r], reach) {}
  }

  /** A controller that starts in the cluster w. */
  method NewEventLoop(w: World, weather: nat -> Fate, base: ClientConfig, secrets: map<Ref, Secrets.SecretData>)
    returns (loop: EventLoop)
    requires w.procs == map[]
    ensures fresh(loop) && fresh(loop.workqueue) && fresh(loop.controller.cluster)
    ensures loop.Ready() && loop.workqueue !in loop.controller.shared && loop.workqueue.Value() == OPENING.q
    ensures loop.controller.cluster.start == loop.controller.cluster.w == w && loop.controller.cluster.log == []
    ensures loop.controller.cluster.weather == weather && loop.controller.cluster.tick == 0
  {
    var queue := new KeyQueue();
    var cluster := new Cluster(w, weather);
    var sync := NewSynchronizer(cluster, base, secrets);
    var controller := NewController(cluster, sync);
    loop := new EventLoop(controller, queue);
    assert loop.ReadyAt(w);
  }

  /** The informers report the networks. */
  method EnqueueAll(loop: EventLoop, added: seq<Ref>)
    requires loop.Ready() && loop.workqueue !in loop.controller.shared && loop.workqueue.Value() == OPENING.q
    modifies loop.workqueue
    ensures loop.Ready() && loop.workqueue.Value() == AddedAll(OPENING.q, added)
  {
    for i := 0 to |added|
      invariant loop.Ready() && loop.workqueue.Value() == AddedAll(OPENING.q, added[..i])
    {
      loop.Enqueue(added[i]);
      assert added[..i + 1][..i] == added[..i];
    }
    assert added[..|added|] == added;
  }

  lemma QueueAsNew(added: seq<Ref>)
    requires (forall r :: r in added ==> Plain(r)) && Distinct(added)
    ensures NetworksOf(AddedAll(OPENING.q, added).items) == added
    ensures Drained(AddedAll(OPENING.q, added)) == OPENING.q
  {
    AllQueued(added);
    DrainedExactly(AddedAll(OPENING.q, added));
  }

  /**
    From the start of the controller to the moment its only worker waits. If no request fails, all the
    networks the informers report, once each and in any order, converge, and the queue is as new.
   */
  method StartUp(w: World, weather: nat -> Fate, base: ClientConfig, secrets: map<Ref, Secrets.SecretData>,
                 added: seq<Ref>, ghost home: Home)
    returns (loop: EventLoop)
    requires w.procs == map[] && (forall r :: r in added ==> Plain(r)) && Distinct(added)
    ensures CallsFor(w, [], loop.controller.cluster.log, added)
    ensures loop.controller.cluster.Valid() && loop.controller.cluster.start == w
    ensures loop.controller.cluster.weather == weather
    ensures loop.workqueue.Value() == OPENING.q
    ensures loop.controller.cluster.FairSince(0) && AllRipe(home, w, added) ==>
              Brought(home, w, loop.controller.cluster.w, added)
  {
    loop := NewEventLoop(w, weather, base, secrets);
    EnqueueAll(loop, added);
    QueueAsNew(added);
    loop.WorkerMainLoop(home);
    assert loop.ReadyAt(loop.controller.cluster.w);
  }
}
