/**
  The API objects as the controller holds them: structs in memory, reached by pointers, with slices
  and pointers inside. Shared with the informer caches, so that they are copied before any write.
 */
module DeepCopy {
  import opened Types
  import opened Machine

  /** An int32 whose address can be taken. */
  class Int32 {
    var v: int32

    constructor (v: int32)
      ensures this.v == v
    {
      this.v := v;
    }
  }

  class BitcoinNetworkStatus {
    var nodes: array?<Node>

    constructor ()
      ensures nodes == null
    {
      nodes := null;
    }

    function List(): NodeList
      reads this, nodes
    {
      if nodes == null then NilList else Items(nodes[..])
    }

    method DeepCopyInto(out: BitcoinNetworkStatus)
      requires out != this
      modifies out
      ensures out.List() == old(List()) && unchanged(this)
      ensures (out.nodes == null <==> nodes == null) && (out.nodes != null ==> fresh(out.nodes))
    {
      out.nodes := nodes;
      if nodes != null {
        out.nodes := new Node[nodes.Length];
        forall i | 0 <= i < nodes.Length {
          out.nodes[i] := nodes[i];
        }
        assert out.nodes[..] == nodes[..];
      }
    }

    method DeepCopy() returns (out: BitcoinNetworkStatus)
      ensures fresh(out) && out.List() == List()
      ensures out.nodes != null ==> fresh(out.nodes)
    {
      out := new BitcoinNetworkStatus();
      DeepCopyInto(out);
    }
  }

  class BitcoinNetwork {
    var ref: Ref
    var version: nat
    var deleting: bool
    const nodes: Int32            // Spec.Nodes, part of the struct
    var secret: string            // Spec.Secret
    const status: BitcoinNetworkStatus

    /** new(BitcoinNetwork) */
    constructor ()
      ensures fresh(nodes) && fresh(status) && status.nodes == null
    {
      ref, version, deleting, secret := Ref("", ""), 0, false, "";
      nodes := new Int32(0);
      status := new BitcoinNetworkStatus();
    }

    ghost function Footprint(): (f: set<object>)
      reads this, status
      ensures this in f && nodes in f && status in f && (status.nodes != null ==> status.nodes in f)
    {
      {this, nodes, status} + if status.nodes == null then {} else {status.nodes}
    }

    ghost function Value(): Net
      reads Footprint()
    {
      Net(version, deleting, Spec(nodes.v, secret), status.List())
    }

    method DeepCopyInto(out: BitcoinNetwork)
      requires {out, out.nodes, out.status} !! {this, nodes, status}
      modifies out, out.nodes, out.status
      ensures out.Value() == old(Value()) && out.ref == ref
      ensures forall o :: o in Footprint() ==> unchanged(o)
      ensures out.status.nodes != null ==> fresh(out.status.nodes)
      ensures out.Footprint() !! Footprint()
    {
      out.ref, out.version, out.deleting := ref, version, deleting;
      out.nodes.v, out.secret := nodes.v, secret;
      out.status.nodes := status.nodes;
      status.DeepCopyInto(out.status);
    }

    method DeepCopy() returns (out: BitcoinNetwork)
      ensures out.Value() == Value() && out.ref == ref
      ensures fresh(out.Footprint())
    {
      out := new BitcoinNetwork();
      DeepCopyInto(out);
    }
  }

  method CopyItems(a: seq<BitcoinNetwork>) returns (b: seq<BitcoinNetwork>)
    ensures |b| == |a|
    ensures forall i :: 0 <= i < |a| ==> b[i].Value() == a[i].Value() && b[i].ref == a[i].ref
    ensures forall i :: 0 <= i < |a| ==> fresh(b[i].Footprint())
    ensures forall i, j :: 0 <= i < j < |a| ==> b[i].Footprint() !! b[j].Footprint()
  {
    b := [];
    for k := 0 to |a|
      modifies {}
      invariant |b| == k
      invariant forall i :: 0 <= i < k ==> b[i].Value() == a[i].Value() && b[i].ref == a[i].ref
      invariant forall i :: 0 <= i < k ==> fresh(b[i].Footprint())
      invariant forall i, j :: 0 <= i < j < k ==> b[i].Footprint() !! b[j].Footprint()
    {
      var c := a[k].DeepCopy();
      b := b + [c];
    }
  }

  class BitcoinNetworkList {
    var items: Option<seq<BitcoinNetwork>>

    constructor ()
      ensures items == None
    {
      items := None;
    }

    method DeepCopyInto(out: BitcoinNetworkList)
      requires out != this
      modifies out
      ensures unchanged(this) && (out.items == None <==> items == None)
      ensures items.Some? ==>
        var a, b := items.value, out.items.value;
        && |b| == |a|
        && (forall i :: 0 <= i < |a| ==> b[i].Value() == a[i].Value() && b[i].ref == a[i].ref)
        && (forall i :: 0 <= i < |a| ==> fresh(b[i].Footprint()))
        && (forall i, j :: 0 <= i < j < |a| ==> b[i].Footprint() !! b[j].Footprint())
    {
      out.items := items;
      if items.Some? {
        var copies := CopyItems(items.value);
        out.items := Some(copies);
      }
    }

    method DeepCopy() returns (out: BitcoinNetworkList)
      ensures fresh(out) && (out.items == None <==> items == None)
      ensures items.Some? ==>
        var a, b := items.value, out.items.value;
        && |b| == |a|
        && (forall i :: 0 <= i < |a| ==> b[i].Value() == a[i].Value() && b[i].ref == a[i].ref)
        && (forall i :: 0 <= i < |a| ==> fresh(b[i].Footprint()))
        && (forall i, j :: 0 <= i < j < |a| ==> b[i].Footprint() !! b[j].Footprint())
    {
      out := new BitcoinNetworkList();
      DeepCopyInto(out);
    }
  }

  /** A stateful set; its Spec.Replicas is a pointer that may point into another struct. */
  class StatefulSetObject {
    var ref: Ref
    var version: nat
    var owners: seq<OwnerRef>
    var app: string
    var serviceName: string
    var replicas: Int32

    constructor (ref: Ref, version: nat, owners: seq<OwnerRef>, app: string, serviceName: string,
                 replicas: Int32)
      ensures Value() == StatefulSet(version, owners, app, serviceName, replicas.v)
      ensures this.ref == ref && this.replicas == replicas
    {
      this.ref := ref;
      this.version, this.owners, this.app := version, owners, app;
      this.serviceName, this.replicas := serviceName, replicas;
    }

    ghost function Value(): StatefulSet
      reads this, replicas
    {
      StatefulSet(version, owners, app, serviceName, replicas.v)
    }

    method DeepCopy() returns (out: StatefulSetObject)
      ensures fresh(out) && fresh(out.replicas) && out.Value() == Value() && out.ref == ref
    {
      var cell := new Int32(replicas.v);
      out := new StatefulSetObject(ref, version, owners, app, serviceName, cell);
    }
  }
}
