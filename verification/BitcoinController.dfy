/** The reconciliation code of the controller, verified to take exactly the steps of the machine. */
module BitcoinController {
  import opened Types
  import opened Names
  import opened PeerMesh
  import opened Machine
  import opened Calls
  import opened Safety
  import opened Status
  import opened DeepCopy
  import opened Surroundings
  import opened BitcoinClient
  import opened PeerSync

  class Controller {
    const cluster: Cluster
    const sync: Synchronizer
    // the informer caches; their objects are shared with everybody who looks them up
    var bcLister: map<Ref, BitcoinNetwork>
    var stsLister: map<Ref, StatefulSetObject>
    ghost var shared: set<object>    // everything reachable from the caches

    constructor (cluster: Cluster, sync: Synchronizer, bcLister: map<Ref, BitcoinNetwork>,
                 stsLister: map<Ref, StatefulSetObject>, ghost shared: set<object>)
      ensures this.cluster == cluster && this.sync == sync
      ensures this.bcLister == bcLister && this.stsLister == stsLister && this.shared == shared
    {
      this.cluster, this.sync, this.bcLister, this.stsLister := cluster, sync, bcLister, stsLister;
      this.shared := shared;
    }

    /** podReady */
    method IsPodReady(pod: Pod) returns (result: bool)
      ensures result <==> PodReady(pod)
    {
      result := false;
      for i := 0 to |pod.conditions|
        invariant result <==> exists c :: c in pod.conditions[..i] && c.kind == "Ready" && c.status == "True"
      {
        var cond := pod.conditions[i];
        if cond.kind == "Ready" {
          if cond.status == "True" {
            result := true;
          }
        }
        assert pod.conditions[..i + 1] == pod.conditions[..i] + [cond];
      }
      assert pod.conditions[..|pod.conditions|] == pod.conditions;
    }

    /**
      The loop over the pods: the list, or failed if a lookup fails other than by NotFound. The variable
      node is used again and again.
     */
    method ReadPodList(bcNetwork: BitcoinNetwork, stsName: string, svcName: string)
      returns (nodeList: NodeList, failed: bool)
      requires cluster.Valid() && bcNetwork.ref == cluster.caller
      requires stsName == SetRef(cluster.caller).name && svcName == SvcRef(cluster.caller).name
      requires cluster.At(Some(PodLoop(bcNetwork.Value(), 0, NilList)))
      modifies cluster`w, cluster`log, cluster`tick
      ensures cluster.Valid() && Continues(old(cluster.log), cluster.log, cluster.caller)
      ensures cluster.At(if failed then Gate(true, bcNetwork.Value(), NilList)
                         else Some(WriteStatus(bcNetwork.Value(), nodeList)))
      ensures cluster.w.mesh == old(cluster.w).mesh && cluster.w.nets == old(cluster.w).nets
      ensures failed ==> nodeList == NilList && !cluster.FairSince(old(cluster.tick))
      ensures !failed ==> nodeList == Observed(old(cluster.w).pods, cluster.caller, bcNetwork.nodes.v)
    {
      ghost var net := bcNetwork.Value();
      ghost var log0, pods := cluster.log, cluster.w.pods;
      nodeList := NilList;
      var node := Node(0, false, "", "", "");
      var i := 0;
      while i < bcNetwork.nodes.v
        invariant i == 0 || 0 <= i <= bcNetwork.nodes.v
        invariant cluster.Valid() && Continues(log0, cluster.log, cluster.caller)
        invariant cluster.At(Some(PodLoop(net, i, nodeList)))
        invariant nodeList == ObservedUpTo(pods, cluster.caller, i)
        invariant cluster.w.pods == pods && cluster.w.mesh == old(cluster.w).mesh
        invariant cluster.w.nets == old(cluster.w).nets
      {
        var nodeName := stsName + "-" + Decimal(i);
        ContinuesOne(log0, cluster.log, cluster.caller, Step(cluster.weather(cluster.tick)));
        var pod := cluster.GetPod(Ref(bcNetwork.ref.ns, nodeName), net, i, nodeList);
        if pod.OtherError? {
          return NilList, true;
        }
        if pod.Found? {
          var ready := IsPodReady(pod.value);
          node := node.(ordinal := ToInt32(i));
          node := node.(ready := ready);
          node := node.(ip := pod.value.ip);
          node := node.(nodeName := pod.value.name);
          node := node.(dnsName := pod.value.name + "." + svcName);
          nodeList := nodeList.Append(node);
        }
        i := i + 1;
      }
      return nodeList, false;
    }

    /**
      Reads the pods, stores the list as the new status and returns it. If a lookup fails other than by
      NotFound, nil is returned and nothing is stored.
     */
    method UpdateNetworkStatus(bcNetwork: BitcoinNetwork, stsName: string, svcName: string)
      returns (nodeList: NodeList)
      requires cluster.Valid() && bcNetwork.ref == cluster.caller
      requires stsName == SetRef(cluster.caller).name && svcName == SvcRef(cluster.caller).name
      requires cluster.At(Some(PodLoop(bcNetwork.Value(), 0, NilList)))
      modifies cluster`w, cluster`log, cluster`tick
      ensures cluster.Valid() && Continues(old(cluster.log), cluster.log, cluster.caller)
      ensures cluster.At(Gate(true, bcNetwork.Value(), nodeList))
      ensures cluster.w.mesh == old(cluster.w).mesh
      ensures || nodeList == Observed(old(cluster.w).pods, cluster.caller, bcNetwork.nodes.v)
              || (nodeList == NilList && cluster.w.nets == old(cluster.w).nets && !cluster.FairSince(old(cluster.tick)))
    {
      var failed;
      nodeList, failed := ReadPodList(bcNetwork, stsName, svcName);
      if failed {
        return NilList;
      }
      ghost var before := cluster.log;
      StoreStatus(bcNetwork, nodeList);
      ContinuesTrans(old(cluster.log), before, cluster.log, cluster.caller);
    }

    /** The status update at the end; it works on a deep copy, so that the cached object stays as it is. */
    method StoreStatus(bcNetwork: BitcoinNetwork, nodeList: NodeList)
      requires cluster.Valid() && bcNetwork.ref == cluster.caller
      requires cluster.At(Some(WriteStatus(bcNetwork.Value(), nodeList)))
      modifies cluster`w, cluster`log, cluster`tick
      ensures cluster.Valid() && Continues(old(cluster.log), cluster.log, cluster.caller)
      ensures cluster.caller == old(cluster.caller)
      ensures cluster.At(Gate(true, bcNetwork.Value(), nodeList))
      ensures cluster.w.mesh == old(cluster.w).mesh
    {
      var bcNetworkCopy := CopyWithStatus(bcNetwork, nodeList);
      ContinuesOne(cluster.log, cluster.log, cluster.caller, Step(cluster.weather(cluster.tick)));
      var failed := cluster.UpdateStatus(bcNetworkCopy, bcNetwork.Value(), nodeList);
    }

    method CopyWithStatus(bcNetwork: BitcoinNetwork, nodeList: NodeList) returns (copy: BitcoinNetwork)
      ensures fresh(copy.Footprint()) && copy.ref == bcNetwork.ref
      ensures copy.Value() == bcNetwork.Value().(status := nodeList)
    {
      copy := bcNetwork.DeepCopy();
      var slice := SliceOf(nodeList);
      copy.status.nodes := slice;
    }

    method CreateHeadlessService(bcNetwork: BitcoinNetwork, svcName: string)
      requires cluster.Valid() && bcNetwork.ref == cluster.caller && svcName == SvcRef(cluster.caller).name
      requires cluster.At(Some(MakeService(bcNetwork.Value())))
      modifies cluster`w, cluster`log, cluster`tick
      ensures cluster.Valid() && Continues(old(cluster.log), cluster.log, cluster.caller)
      ensures cluster.At(Some(FindSet(bcNetwork.Value()))) && cluster.w.mesh == old(cluster.w).mesh
      ensures cluster.w.stss.shown == old(cluster.w).stss.shown
    {
      var service := Service([OwnerRef("BitcoinNetwork", bcNetwork.ref.name, true)], "None", bcNetwork.ref.name);
      ContinuesOne(cluster.log, cluster.log, cluster.caller, Step(cluster.weather(cluster.tick)));
      var answer := cluster.CreateService(Ref(bcNetwork.ref.ns, svcName), service, bcNetwork.Value());
    }

    /** The new object's Replicas points into the cached network; nothing is written through it. */
    method CreateStatefulSet(bcNetwork: BitcoinNetwork, stsName: string, svcName: string)
      returns (sts: StatefulSetObject?)
      requires cluster.Valid() && bcNetwork.ref == cluster.caller
      requires stsName == SetRef(cluster.caller).name && svcName == SvcRef(cluster.caller).name
      requires cluster.At(Some(MakeSet(bcNetwork.Value())))
      modifies cluster`w, cluster`log, cluster`tick
      ensures cluster.Valid() && Continues(old(cluster.log), cluster.log, cluster.caller)
      ensures cluster.At(Some(PodLoop(bcNetwork.Value(), 0, NilList))) && cluster.w.mesh == old(cluster.w).mesh
      ensures sts != null ==> fresh(sts) && sts.ref == SetRef(cluster.caller) && sts.replicas.v == bcNetwork.nodes.v
    {
      var owners := [OwnerRef("BitcoinNetwork", bcNetwork.ref.name, true)];
      var built := new StatefulSetObject(Ref(bcNetwork.ref.ns, stsName), 0, owners,
          bcNetwork.ref.name, svcName, bcNetwork.nodes);
      ContinuesOne(cluster.log, cluster.log, cluster.caller, Step(cluster.weather(cluster.tick)));
      var answer := cluster.CreateStatefulSet(built, bcNetwork.Value());
      if !answer.Found? {
        return null;
      }
      sts := answer.value;
    }

    method UpdateStatefulSet(sts: StatefulSetObject, replicaCount: int32, ghost net: Net)
      requires cluster.Valid() && cluster.At(Some(FixReplicas(net, sts.Value())))
      requires sts.ref == SetRef(cluster.caller) && replicaCount == net.spec.nodes
      modifies cluster`w, cluster`log, cluster`tick
      ensures cluster.Valid() && Continues(old(cluster.log), cluster.log, cluster.caller)
      ensures cluster.At(Some(PodLoop(net, 0, NilList))) && cluster.w.mesh == old(cluster.w).mesh
    {
      var stsCopy := sts.DeepCopy();
      var replicas := new Int32(replicaCount);
      stsCopy.replicas := replicas;
      ContinuesOne(cluster.log, cluster.log, cluster.caller, Step(cluster.weather(cluster.tick)));
      var failed := cluster.UpdateStatefulSet(stsCopy, net, sts.Value());
    }

    /** What the listers hand out is what the caches show. */
    ghost predicate BcListerShows(shown: map<Ref, Net>)
      reads this, shared
    {
      && bcLister.Keys == shown.Keys
      && forall r :: r in bcLister ==>
           && bcLister[r] in shared && bcLister[r].status in shared && bcLister[r].Footprint() <= shared
           && bcLister[r].ref == r && bcLister[r].Value() == shown[r]
    }

    ghost predicate StsListerShows(shown: map<Ref, StatefulSet>)
      reads this, shared
    {
      && stsLister.Keys == shown.Keys
      && forall r :: r in stsLister ==>
           && stsLister[r] in shared && stsLister[r].replicas in shared
           && stsLister[r].ref == r && stsLister[r].Value() == shown[r]
    }

    /**
      Since before was sent, every request went to a daemon of ready, with the client's port and the
      credentials of the secret with the given name and namespace, and asked for what it should.
     */
    ghost predicate SentProperly(before: seq<Request>, ready: set<IP>, name: string, ns: string)
      reads cluster, sync.rpcClient.config
    {
      && before <= cluster.requests
      && AllProper(cluster.requests[|before|..], ready, sync.rpcClient.config.Value(), name, ns, sync.secrets)
    }

    /** Since before was sent, every request was proper for the network ref as the caches of w show it. */
    ghost predicate SentFor(before: seq<Request>, w: World, ref: Ref)
      reads cluster, sync.rpcClient.config
    {
      if InLister(w.nets.shown, ref) then
        var spec := w.nets.shown[ref].spec;
        SentProperly(before, ReadyIPs(Observed(w.pods, ref, spec.nodes)), spec.secret, ref.ns)
      else cluster.requests == before
    }

    /**
      doRecon. The steps it takes are those of one call of the machine, from Begin to the end; none of
      the shared objects is written to, and if no request fails the network converges. The RPCs it sends
      go to the ready pods of the network of that key, with the credentials that this network asks for.
     */
    method DoRecon(key: string) returns (ok: bool)
      requires sync.rpcClient.cluster == cluster && cluster !in shared
      requires cluster.Valid() && BcListerShows(cluster.w.nets.shown) && StsListerShows(cluster.w.stss.shown)
      requires SplitKey(key).Some? ==> SplitKey(key).value !in cluster.w.procs
      modifies cluster
      ensures cluster.Valid() && (ok <==> SplitKey(key).Some?)
      ensures !ok ==> unchanged(cluster)
      ensures ok ==> cluster.caller == SplitKey(key).value && cluster.caller !in cluster.w.procs
      ensures ok ==> OneCall(old(cluster.log), cluster.weather(old(cluster.tick)), cluster.log, SplitKey(key).value)
      ensures ok ==> Frame(old(cluster.w), cluster.w, SplitKey(key).value)
      ensures ok && Sane(old(cluster.w)) ==> Sane(cluster.w)
      ensures ok && cluster.FairSince(old(cluster.tick)) && Ripe(old(cluster.w), SplitKey(key).value) ==>
                Converged(old(cluster.w), cluster.w, SplitKey(key).value)
      ensures ok ==> SentFor(old(cluster.requests), old(cluster.w), SplitKey(key).value)
      ensures unchanged(shared)
    {
      var split := SplitKey(key);
      if split.None? {
        return false;
      }
      Reconcile(split.value);
      CallOutcome(cluster.start, old(cluster.log), cluster.weather(old(cluster.tick)), cluster.log, split.value);
      return true;
    }

    method Reconcile(ref: Ref)
      requires sync.rpcClient.cluster == cluster
      requires cluster.Valid() && BcListerShows(cluster.w.nets.shown) && StsListerShows(cluster.w.stss.shown)
      requires ref !in cluster.w.procs
      modifies cluster
      ensures cluster.Valid() && cluster.caller == ref && cluster.At(None)
      ensures OneCall(old(cluster.log), cluster.weather(old(cluster.tick)), cluster.log, ref)
      ensures SentFor(old(cluster.requests), old(cluster.w), ref)
    {
      var bcNetwork := GetBitcoinNetwork(ref);
      if bcNetwork != null {
        ReconcileFound(bcNetwork, ref.name + SVC_POSTFIX, ref.name + STS_POSTFIX);
      }
    }

    /** The lister lookup that opens the call. */
    method GetBitcoinNetwork(ref: Ref) returns (bcNetwork: BitcoinNetwork?)
      requires cluster.Valid() && BcListerShows(cluster.w.nets.shown) && ref !in cluster.w.procs
      modifies cluster`w, cluster`log, cluster`caller, cluster`tick
      ensures cluster.Valid() && cluster.caller == ref && cluster.w.stss.shown == old(cluster.w).stss.shown
      ensures cluster.log == old(cluster.log) + [Does(ref, Begin(cluster.weather(old(cluster.tick))))]
      ensures bcNetwork == null ==> cluster.At(None)
      ensures cluster.requests == old(cluster.requests) && cluster.w.pods == old(cluster.w).pods
      ensures bcNetwork != null ==> bcNetwork.ref == ref && InLister(old(cluster.w).nets.shown, ref)
      ensures bcNetwork != null ==> Spec(bcNetwork.nodes.v, bcNetwork.secret) == old(cluster.w).nets.shown[ref].spec
      ensures bcNetwork != null ==>
        cluster.At(if bcNetwork.deleting then None else Some(FindService(bcNetwork.Value())))
    {
      var found := cluster.GetNetwork(ref);
      bcNetwork := if found then bcLister[ref] else null;
    }

    method ReconcileFound(bcNetwork: BitcoinNetwork, svcName: string, stsName: string)
      requires sync.rpcClient.cluster == cluster
      requires cluster.Valid() && StsListerShows(cluster.w.stss.shown) && bcNetwork.ref == cluster.caller
      requires stsName == SetRef(cluster.caller).name && svcName == SvcRef(cluster.caller).name
      requires cluster.At(if bcNetwork.deleting then None else Some(FindService(bcNetwork.Value())))
      modifies cluster`w, cluster`log, cluster`tick, cluster`requests
      ensures cluster.Valid() && Continues(old(cluster.log), cluster.log, cluster.caller)
      ensures cluster.At(None)
      ensures SentProperly(old(cluster.requests),
                           ReadyIPs(Observed(old(cluster.w).pods, bcNetwork.ref, bcNetwork.nodes.v)),
                           bcNetwork.secret, bcNetwork.ref.ns)
    {
      if !bcNetwork.deleting {
        ReconcileNetwork(bcNetwork, svcName, stsName);
      }
    }

    method ReconcileNetwork(bcNetwork: BitcoinNetwork, svcName: string, stsName: string)
      requires sync.rpcClient.cluster == cluster
      requires cluster.Valid() && StsListerShows(cluster.w.stss.shown) && bcNetwork.ref == cluster.caller
      requires stsName == SetRef(cluster.caller).name && svcName == SvcRef(cluster.caller).name
      requires cluster.At(Some(FindService(bcNetwork.Value())))
      modifies cluster`w, cluster`log, cluster`tick, cluster`requests
      ensures cluster.Valid() && Continues(old(cluster.log), cluster.log, cluster.caller)
      ensures cluster.At(None)
      ensures SentProperly(old(cluster.requests),
                           ReadyIPs(Observed(old(cluster.w).pods, bcNetwork.ref, bcNetwork.nodes.v)),
                           bcNetwork.secret, bcNetwork.ref.ns)
    {
      var proceed := EnsureService(bcNetwork, svcName);
      ghost var log1 := cluster.log;
      if proceed {
        proceed := EnsureStatefulSet(bcNetwork, stsName, svcName);
      }
      ContinuesTrans(old(cluster.log), log1, cluster.log, cluster.caller);
      ghost var log2 := cluster.log;
      ContinuesFrame(cluster.start, old(cluster.log), log2, cluster.caller);
      if proceed {
        SyncIfChanged(bcNetwork, stsName, svcName);
      }
      ContinuesTrans(old(cluster.log), log2, cluster.log, cluster.caller);
    }

    /** The last part of doRecon: the status update, and the pass behind the DeepEqual gate. */
    method SyncIfChanged(bcNetwork: BitcoinNetwork, stsName: string, svcName: string)
      requires sync.rpcClient.cluster == cluster
      requires cluster.Valid() && bcNetwork.ref == cluster.caller
      requires stsName == SetRef(cluster.caller).name && svcName == SvcRef(cluster.caller).name
      requires cluster.At(Some(PodLoop(bcNetwork.Value(), 0, NilList)))
      modifies cluster`w, cluster`log, cluster`tick, cluster`requests
      ensures cluster.Valid() && Continues(old(cluster.log), cluster.log, cluster.caller)
      ensures cluster.At(None)
      ensures SentProperly(old(cluster.requests),
                           ReadyIPs(Observed(old(cluster.w).pods, bcNetwork.ref, bcNetwork.nodes.v)),
                           bcNetwork.secret, bcNetwork.ref.ns)
    {
      var oldNodeList := bcNetwork.status.List();
      var newNodeList := UpdateNetworkStatus(bcNetwork, stsName, svcName);
      assert cluster.requests == old(cluster.requests);
      assert ReadyIPs(NilList) == {};
      if oldNodeList != newNodeList {
        ghost var log1 := cluster.log;
        var errors;
        ghost var pass;
        errors, pass := sync.SyncNodes(newNodeList, bcNetwork.secret, bcNetwork.ref.ns);
        ContinuesTrans(old(cluster.log), log1, cluster.log, cluster.caller);
      }
    }

    /** The part of doRecon that looks after the service; false if it gives up. */
    method EnsureService(bcNetwork: BitcoinNetwork, svcName: string) returns (proceed: bool)
      requires cluster.Valid() && bcNetwork.ref == cluster.caller && svcName == SvcRef(cluster.caller).name
      requires cluster.At(Some(FindService(bcNetwork.Value())))
      modifies cluster`w, cluster`log, cluster`tick
      ensures cluster.Valid() && Continues(old(cluster.log), cluster.log, cluster.caller)
      ensures cluster.At(if proceed then Some(FindSet(bcNetwork.Value())) else None)
      ensures cluster.w.stss.shown == old(cluster.w).stss.shown
    {
      ContinuesOne(cluster.log, cluster.log, cluster.caller, Step(cluster.weather(cluster.tick)));
      var svc := cluster.GetService(Ref(bcNetwork.ref.ns, svcName), bcNetwork.Value());
      if svc.NotFound? {
        ghost var log1 := cluster.log;
        CreateHeadlessService(bcNetwork, svcName);
        ContinuesTrans(old(cluster.log), log1, cluster.log, cluster.caller);
      } else if !svc.Found? {
        return false;
      }
      return true;
    }

    /** The part of doRecon that looks after the stateful set; false if it gives up. */
    method EnsureStatefulSet(bcNetwork: BitcoinNetwork, stsName: string, svcName: string) returns (proceed: bool)
      requires cluster.Valid() && StsListerShows(cluster.w.stss.shown) && bcNetwork.ref == cluster.caller
      requires stsName == SetRef(cluster.caller).name && svcName == SvcRef(cluster.caller).name
      requires cluster.At(Some(FindSet(bcNetwork.Value())))
      modifies cluster`w, cluster`log, cluster`tick
      ensures cluster.Valid() && Continues(old(cluster.log), cluster.log, cluster.caller)
      ensures cluster.At(if proceed then Some(PodLoop(bcNetwork.Value(), 0, NilList)) else None)
    {
      ContinuesOne(cluster.log, cluster.log, cluster.caller, Step(cluster.weather(cluster.tick)));
      var answer := cluster.GetStatefulSet(Ref(bcNetwork.ref.ns, stsName), bcNetwork.Value());
      ghost var log1 := cluster.log;
      if answer.NotFound? {
        MakeStatefulSet(bcNetwork, stsName, svcName);
      } else if answer.Found? {
        ScaleStatefulSet(stsLister[Ref(bcNetwork.ref.ns, stsName)], bcNetwork);
      } else {
        return false;
      }
      ContinuesTrans(old(cluster.log), log1, cluster.log, cluster.caller);
      return true;
    }

    /** Creates the set; the comparison of replicas that follows finds nothing to do. */
    method MakeStatefulSet(bcNetwork: BitcoinNetwork, stsName: string, svcName: string)
      requires cluster.Valid() && bcNetwork.ref == cluster.caller
      requires stsName == SetRef(cluster.caller).name && svcName == SvcRef(cluster.caller).name
      requires cluster.At(Some(MakeSet(bcNetwork.Value())))
      modifies cluster`w, cluster`log, cluster`tick
      ensures cluster.Valid() && Continues(old(cluster.log), cluster.log, cluster.caller)
      ensures cluster.At(Some(PodLoop(bcNetwork.Value(), 0, NilList)))
    {
      var sts := CreateStatefulSet(bcNetwork, stsName, svcName);
      if sts != null {
        ghost var log1 := cluster.log;
        ScaleStatefulSet(sts, bcNetwork);
        ContinuesTrans(old(cluster.log), log1, cluster.log, cluster.caller);
      }
    }

    /** Adjusts a set whose number of replicas is not the one asked for. */
    method ScaleStatefulSet(sts: StatefulSetObject, bcNetwork: BitcoinNetwork)
      requires cluster.Valid() && sts.ref == SetRef(cluster.caller)
      requires cluster.At(if sts.replicas.v != bcNetwork.nodes.v
                          then Some(FixReplicas(bcNetwork.Value(), sts.Value()))
                          else Some(PodLoop(bcNetwork.Value(), 0, NilList)))
      modifies cluster`w, cluster`log, cluster`tick
      ensures cluster.Valid() && Continues(old(cluster.log), cluster.log, cluster.caller)
      ensures cluster.At(Some(PodLoop(bcNetwork.Value(), 0, NilList)))
    {
      if sts.replicas.v != bcNetwork.nodes.v {
        UpdateStatefulSet(sts, bcNetwork.nodes.v, bcNetwork.Value());
      }
    }
  }

  /** The memory behind a slice. */
  method SliceOf(list: NodeList) returns (slice: array?<Node>)
    ensures list.NilList? <==> slice == null
    ensures slice != null ==> fresh(slice) && slice[..] == list.nodes
  {
    slice := null;
    if list.Items? {
      slice := new Node[|list.nodes|];
      forall i | 0 <= i < |list.nodes| {
        slice[i] := list.nodes[i];
      }
    }
  }
}
