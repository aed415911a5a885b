/**
  Nothing restrains the surroundings: what is proved of every run is proved for caches that show any mix
  of old versions, for any pods, any lists inside the daemons and any wish of the users.
 */
module Freedom {
  import opened Types
  import opened PeerMesh
  import opened Machine
  import opened Safety
  import opened Interleave

  /** A place where the surroundings change things: an entry of a cache, or a daemon. */
  datatype Place = ANet(ref: Ref) | AService(ref: Ref) | ASet(ref: Ref) | APod(ref: Ref) | ADaemon(ip: IP)

  ghost predicate Agree(w: World, t: World, p: Place) {
    match p
    case ANet(r) => SameAt(w.nets.shown, t.nets.shown, r)
    case AService(r) => SameAt(w.svcs.shown, t.svcs.shown, r)
    case ASet(r) => SameAt(w.stss.shown, t.stss.shown, r)
    case APod(r) => SameAt(w.pods, t.pods, r)
    case ADaemon(u) => SameAt(w.mesh, t.mesh, u)
  }

  function Entry<K, V>(m: map<K, V>, k: K): Option<V> {
    if k in m then Some(m[k]) else None
  }

  /** The event that makes place p look as in t. */
  function Adjust(t: World, p: Place): Event {
    match p
    case ANet(r) => ShowNet(r, Entry(t.nets.shown, r))
    case AService(r) => ShowService(r, Entry(t.svcs.shown, r))
    case ASet(r) => ShowSet(r, Entry(t.stss.shown, r))
    case APod(r) => ShowPod(r, Entry(t.pods, r))
    case ADaemon(u) => DaemonChanges(u, Entry(t.mesh, u))
  }

  /** The server and the calls are the same, and the caches of t show versions that were stored once. */
  ghost predicate SameServer(w: World, t: World) {
    && t.nets == w.nets.(shown := t.nets.shown) && t.svcs == w.svcs.(shown := t.svcs.shown)
    && t.stss == w.stss.(shown := t.stss.shown) && t.procs == w.procs && t.asked == w.asked
    && (forall r :: r in t.nets.shown ==> (r, t.nets.shown[r]) in w.nets.log)
    && (forall r :: r in t.svcs.shown ==> (r, t.svcs.shown[r]) in w.svcs.log)
    && (forall r :: r in t.stss.shown ==> (r, t.stss.shown[r]) in w.stss.log)
  }

  lemma AdjustAgrees(w: World, t: World, p: Place)
    requires SameServer(w, t)
    ensures var w' := Happen(w, Adjust(t, p));
      SameServer(w', t) && Agree(w', t, p) && forall q :: Agree(w, t, q) ==> Agree(w', t, q)
  {
  }

  lemma SameMaps<K, V>(a: map<K, V>, b: map<K, V>)
    requires forall k :: SameAt(a, b, k)
    ensures a == b
  {
    forall k ensures k in a <==> k in b {
      assert SameAt(a, b, k);
    }
    forall k | k in a ensures a[k] == b[k] {
      assert SameAt(a, b, k);
    }
  }

  lemma AgreeEverywhere(w: World, t: World)
    requires SameServer(w, t) && forall p :: Agree(w, t, p)
    ensures w == t
  {
    forall r ensures SameAt(w.nets.shown, t.nets.shown, r) && SameAt(w.svcs.shown, t.svcs.shown, r) {
      assert Agree(w, t, ANet(r)) && Agree(w, t, AService(r));
    }
    forall r ensures SameAt(w.stss.shown, t.stss.shown, r) && SameAt(w.pods, t.pods, r) {
      assert Agree(w, t, ASet(r)) && Agree(w, t, APod(r));
    }
    forall u ensures SameAt(w.mesh, t.mesh, u) {
      assert Agree(w, t, ADaemon(u));
    }
    SameMaps(w.nets.shown, t.nets.shown);
    SameMaps(w.svcs.shown, t.svcs.shown);
    SameMaps(w.stss.shown, t.stss.shown);
    SameMaps(w.pods, t.pods);
    SameMaps(w.mesh, t.mesh);
  }

  lemma {:induction false} Reach(gated: bool, w: World, t: World, todo: set<Place>) returns (ls: seq<Label>)
    requires SameServer(w, t) && forall p :: p !in todo ==> Agree(w, t, p)
    ensures (forall l :: l in ls ==> l.Happens?) && Run(gated, w, ls) == t
    decreases todo
  {
    if todo == {} {
      ls := [];
      AgreeEverywhere(w, t);
    } else {
      var p :| p in todo;
      var first := Happens(Adjust(t, p));
      AdjustAgrees(w, t, p);
      var rest := Reach(gated, Happen(w, Adjust(t, p)), t, todo - {p});
      ls := [first] + rest;
      RunConcat(gated, w, [first], rest);
      RunOne(gated, w, first);
    }
  }

  function AllPlaces(w: World): set<Place> {
    (set r | r in w.nets.shown :: ANet(r)) + (set r | r in w.svcs.shown :: AService(r))
    + (set r | r in w.stss.shown :: ASet(r)) + (set r | r in w.pods :: APod(r)) + (set u | u in w.mesh :: ADaemon(u))
  }

  /**
    Without any step of a call, the caches can come to show any stored versions in any mix, the pods any
    pods, and the daemons any lists.
   */
  lemma AnythingMayShow(gated: bool, w: World, t: World) returns (ls: seq<Label>)
    requires SameServer(w, t)
    ensures (forall l :: l in ls ==> l.Happens?) && Run(gated, w, ls) == t
  {
    forall p | p !in AllPlaces(w) + AllPlaces(t) ensures Agree(w, t, p) {
      match p
      case ANet(r) => assert r !in w.nets.shown && r !in t.nets.shown;
      case AService(r) => assert r !in w.svcs.shown && r !in t.svcs.shown;
      case ASet(r) => assert r !in w.stss.shown && r !in t.stss.shown;
      case APod(r) => assert r !in w.pods && r !in t.pods;
      case ADaemon(u) => assert u !in w.mesh && u !in t.mesh;
    }
    ls := Reach(gated, w, t, AllPlaces(w) + AllPlaces(t));
  }

  /**
    Users may ask any network for anything, keeping its status, delete it, and set any replica count the
    server takes; every such write makes a new version. Objects may vanish.
   */
  lemma UsersAreFree(w: World, r: Ref, spec: Spec, n: int32)
    requires Sane(w)
    ensures var k := Happen(w, UserPuts(r, spec)).nets;
      && r in k.stored && k.stored[r].spec == spec && (r, k.stored[r]) in k.log && k.stored - {r} == w.nets.stored - {r}
      && (r in w.nets.stored ==>
            && k.stored[r].version > w.nets.stored[r].version
            && k.stored[r].status == w.nets.stored[r].status && k.stored[r].deleting == w.nets.stored[r].deleting)
      && (r !in w.nets.stored ==> k.stored[r].status == NilList && !k.stored[r].deleting)
    ensures r in w.nets.stored ==>
      var k := Happen(w, UserDeletes(r)).nets;
      && r in k.stored && k.stored[r].deleting && k.stored[r].version > w.nets.stored[r].version
      && k.stored[r].spec == w.nets.stored[r].spec && k.stored[r].status == w.nets.stored[r].status
    ensures r in w.stss.stored && n >= 0 ==>
      var k := Happen(w, UserScales(r, n)).stss;
      && r in k.stored && k.stored[r].replicas == n && k.stored[r].version > w.stss.stored[r].version
    ensures r !in Happen(w, NetGone(r)).nets.stored && r !in Happen(w, ServiceGone(r)).svcs.stored
    ensures r !in Happen(w, SetGone(r)).stss.stored
  {
    assert NetSane(w.nets, r) && SetSane(w.stss, r);
  }
}
