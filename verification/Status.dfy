/** The node list that updateNetworkStatus is meant to build, and the podReady test. */
module Status {
  import opened Types
  import opened Names
  import opened Machine

  /** The nodes found in the pod cache under the first n ordinals of network r. */
  function ObservedUpTo(pods: map<Ref, Pod>, r: Ref, n: nat): NodeList {
    if n == 0 then NilList
    else
      var before := ObservedUpTo(pods, r, n - 1);
      if PodRef(r, n - 1) in pods
      then before.Append(NodeOf(pods[PodRef(r, n - 1)], n - 1, SvcRef(r).name))
      else before
  }

  /** A negative number of nodes is read as none. */
  function Observed(pods: map<Ref, Pod>, r: Ref, nodes: int32): NodeList {
    ObservedUpTo(pods, r, if nodes < 0 then 0 else nodes)
  }

  ghost predicate IsNodeOf(node: Node, pods: map<Ref, Pod>, r: Ref) {
    && node.ordinal >= 0 && PodRef(r, node.ordinal) in pods
    && var pod := pods[PodRef(r, node.ordinal)];
    && node.ip == pod.ip && node.nodeName == pod.name
    && node.dnsName == pod.name + "." + SvcRef(r).name
    && (node.ready <==> exists c :: c in pod.conditions && c.kind == "Ready" && c.status == "True")
  }

  /** Exactly the cached pods with ordinals below n, in strictly increasing order, each with its own data. */
  ghost predicate ListsExactly(l: seq<Node>, pods: map<Ref, Pod>, r: Ref, n: nat) {
    && (forall j, k :: 0 <= j < k < |l| ==> l[j].ordinal < l[k].ordinal)
    && (forall j :: 0 <= j < |l| ==> l[j].ordinal < n && IsNodeOf(l[j], pods, r))
    && (forall i: nat :: i < n && PodRef(r, i) in pods ==> exists j :: 0 <= j < |l| && l[j].ordinal == i)
  }

  lemma OneMoreNode(l: seq<Node>, pods: map<Ref, Pod>, r: Ref, n: nat)
    requires ListsExactly(l, pods, r, n) && PodRef(r, n) in pods && n < 0x7fff_ffff
    ensures ListsExactly(l + [NodeOf(pods[PodRef(r, n)], n, SvcRef(r).name)], pods, r, n + 1)
  {
    var l' := l + [NodeOf(pods[PodRef(r, n)], n, SvcRef(r).name)];
    assert l'[|l|].ordinal == n && IsNodeOf(l'[|l|], pods, r);
    forall i: nat | i < n + 1 && PodRef(r, i) in pods ensures exists j :: 0 <= j < |l'| && l'[j].ordinal == i {
      if i < n {
        var j :| 0 <= j < |l| && l[j].ordinal == i;
        assert l'[j].ordinal == i;
      }
    }
  }

  /** No ordinal wraps; and the list is the nil slice exactly if there is no such pod. */
  lemma {:induction false} ObservedExact(pods: map<Ref, Pod>, r: Ref, n: nat)
    requires n < 0x8000_0000
    ensures ListsExactly(ObservedUpTo(pods, r, n).All(), pods, r, n)
    ensures ObservedUpTo(pods, r, n) == NilList <==> forall i: nat :: i < n ==> PodRef(r, i) !in pods
  {
    if n > 0 {
      ObservedExact(pods, r, n - 1);
      if PodRef(r, n - 1) in pods {
        OneMoreNode(ObservedUpTo(pods, r, n - 1).All(), pods, r, n - 1);
      }
    }
  }

  /** Two networks never read the same pod, and a list never holds a pod twice. */
  lemma ListsDisjoint(pods: map<Ref, Pod>, a: Ref, m: nat, j: nat, b: Ref, n: nat, k: nat)
    requires m < 0x8000_0000 && n < 0x8000_0000
    requires j < |ObservedUpTo(pods, a, m).All()| && k < |ObservedUpTo(pods, b, n).All()|
    ensures var x, y := ObservedUpTo(pods, a, m).All()[j].ordinal, ObservedUpTo(pods, b, n).All()[k].ordinal;
      x >= 0 && y >= 0 && (PodRef(a, x) == PodRef(b, y) ==> a == b && (m == n ==> j == k))
  {
    ObservedExact(pods, a, m);
    ObservedExact(pods, b, n);
    var x, y := ObservedUpTo(pods, a, m).All()[j].ordinal, ObservedUpTo(pods, b, n).All()[k].ordinal;
    assert IsNodeOf(ObservedUpTo(pods, a, m).All()[j], pods, a);
    assert IsNodeOf(ObservedUpTo(pods, b, n).All()[k], pods, b);
    if PodRef(a, x) == PodRef(b, y) {
      PodRefInjective(a, x, b, y);
    }
  }
}
