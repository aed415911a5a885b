/**
  The assumption that pods of different networks have different addresses, and what it gives in
  every state: calls for different networks work on different daemons.
 */
module Housing {
  import opened Types
  import opened Names
  import opened PeerMesh
  import opened Machine

  /** Which network the pod with a given address belongs to. */
  type Home = IP -> Ref

  ghost predicate IPsHoused(home: Home, ips: set<IP>, r: Ref) {
    forall ip :: ip in ips ==> home(ip) == r
  }

  /** Every ready pod in the cache that carries the name of a pod of r has an address of r. */
  ghost predicate PodsHoused(home: Home, pods: map<Ref, Pod>, r: Ref) {
    forall i: nat :: PodRef(r, i) in pods && PodReady(pods[PodRef(r, i)]) ==>
      home(pods[PodRef(r, i)].ip) == r
  }

  ghost predicate PhaseHoused(home: Home, p: Phase, r: Ref) {
    && (p.ReadPods? || p.WriteStatus? ==> IPsHoused(home, ReadyIPs(p.found), r))
    && (p.Syncing? ==> WellFormed(p.pass) && IPsHoused(home, p.pass.ready, r))
  }

  ghost predicate HousedAt(home: Home, w: World, r: Ref) {
    && PodsHoused(home, w.pods, r)
    && (r in w.nets.stored ==> IPsHoused(home, ReadyIPs(w.nets.stored[r].status), r))
    && (r in w.procs ==> PhaseHoused(home, w.procs[r], r))
  }

  ghost predicate Housed(home: Home, w: World) {
    forall r :: HousedAt(home, w, r)
  }

  lemma ReadyAppended(found: NodeList, node: Node)
    ensures ReadyIPs(found.Append(node)) == ReadyIPs(found) + (if node.ready then {node.ip} else {})
  {
    assert found.Append(node).All() == found.All() + [node];
  }

  lemma DecideHoused(home: Home, gated: bool, w: World, r: Ref, a: Act)
    requires HousedAt(home, w, r) && Decide(gated, w, r, a).Some?
    ensures var d := Decide(gated, w, r, a).value;
      && (d.next.Some? ==> PhaseHoused(home, d.next.value, r))
      && (d.net.Some? ==> IPsHoused(home, ReadyIPs(d.net.value.status), r))
      && (d.row.Put? ==> home(d.row.row) == r)
  {
    if a.Call? {
      MoveWellFormed(w.mesh, w.procs[r].pass, a.rpc);
    } else if a.Step? && w.procs[r].ReadPods? && PodRef(r, w.procs[r].i) in w.pods {
      var p := w.procs[r];
      ReadyAppended(p.found, NodeOf(w.pods[PodRef(r, p.i)], p.i, SvcRef(r).name));
    }
  }

  lemma WorkHoused(home: Home, gated: bool, w: World, ref: Ref, a: Act)
    requires Housed(home, w)
    ensures Housed(home, Work(gated, w, ref, a))
  {
    var w' := Work(gated, w, ref, a);
    if Decide(gated, w, ref, a).Some? {
      assert HousedAt(home, w, ref);
      DecideHoused(home, gated, w, ref, a);
    }
    forall r ensures HousedAt(home, w', r) {
      assert HousedAt(home, w, r);
    }
  }

  /** Other events keep the assumption as long as no ready pod shows up with a foreign address. */
  ghost predicate EventHoused(home: Home, e: Event) {
    e.ShowPod? && e.pod.Some? && PodReady(e.pod.value) ==>
      forall r, i: nat :: PodRef(r, i) == e.ref ==> home(e.pod.value.ip) == r
  }

  lemma HappenHoused(home: Home, w: World, e: Event)
    requires Housed(home, w) && EventHoused(home, e)
    ensures Housed(home, Happen(w, e))
  {
    var w' := Happen(w, e);
    forall r ensures HousedAt(home, w', r) {
      assert HousedAt(home, w, r);
      forall i: nat | PodRef(r, i) in w'.pods && PodReady(w'.pods[PodRef(r, i)])
        ensures home(w'.pods[PodRef(r, i)].ip) == r {
      }
    }
  }
}
