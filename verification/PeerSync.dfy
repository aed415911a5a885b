/** connectNode and syncNodes. */
module PeerSync {
  import opened Types
  import opened PeerMesh
  import opened Machine
  import opened Surroundings
  import opened BitcoinClient
  import Secrets

  /** The rows and calls the pass has left, given what connectNode's maps hold. */
  ghost predicate StandsAt(p: Pass, ready: set<IP>, todo: set<IP>, u: IP, adds: set<IP>, removes: set<IP>) {
    && p.ready == ready && p.todo == todo
    && if adds == {} && removes == {} then p.Choosing?
       else p.Editing? && p.row == u && p.adds == adds && p.removes == removes
  }

  lemma PollStands(m: Mesh, p: Pass, u: IP, fate: Fate)
    requires p.Choosing? && u in p.todo
    ensures var q := Move(m, p, Poll(u, fate));
      && (fate.Served? && u in m ==>
            StandsAt(q, p.ready, p.todo - {u}, u, p.ready - (m[u] + {u}), (m[u] + {u}) - p.ready)
            && q.skipped == p.skipped && q.failed == p.failed)
      && (!(fate.Served? && u in m) ==> q.Choosing? && q.ready == p.ready && q.todo == p.todo - {u})
  {
  }

  lemma CallStands(m: Mesh, p: Pass, todo: set<IP>, u: IP, adds: set<IP>, removes: set<IP>, c: Rpc)
    requires StandsAt(p, p.ready, todo, u, adds, removes) && Allowed(p, c) && !c.Poll?
    requires adds != {} || removes != {}
    ensures var q := Move(m, p, c);
      && StandsAt(q, p.ready, todo, u, if c.AddPeer? then adds - {c.peer} else adds,
                  if c.AddPeer? then removes else removes - {c.peer})
      && (c.fate.Served? && u in m && p.Clean() ==> q.Clean())
  {
  }

  lemma ReadyOneMore(nodes: seq<Node>, i: nat)
    requires i < |nodes|
    ensures ReadyIPs(Items(nodes[..i + 1])) ==
            ReadyIPs(Items(nodes[..i])) + (if nodes[i].ready then {nodes[i].ip} else {})
  {
    assert nodes[..i + 1] == nodes[..i] + [nodes[i]];
  }

  lemma PassOpens(o: Origin, ref: Ref, ready: set<IP>)
    ensures PassOnly(o, o.w, ref, NewPass(ready)) && Noted(o, o.log, o.requests, ref, NewPass(ready))
  {
    LedgerOpens(o.w.mesh, ready);
    assert ready - ready == {};
    assert o.requests[|o.requests|..] == [] && o.log[|o.log|..] == [];
  }

  /** What the books of a finished pass say about the cluster and about the requests sent. */
  lemma PassReport(o: Origin, w: World, log: seq<Label>, reqs: seq<Request>, ref: Ref, pass: Pass)
    requires PassOnly(o, w, ref, pass) && Noted(o, log, reqs, ref, pass) && pass.Over()
    ensures Debt(w.mesh, pass.ready, pass.ready)
            == pass.failed + Debt(o.w.mesh, pass.skipped, pass.ready) <= Debt(o.w.mesh, pass.ready, pass.ready)
    ensures pass.made == Debt(o.w.mesh, pass.ready - pass.skipped, pass.ready)
    ensures Changes(reqs[|o.requests|..]) == |pass.made|
    ensures AskedOnce(reqs[|o.requests|..], pass.ready)
    ensures pass.Clean() ==>
      && w.mesh == Meshed(o.w.mesh, pass.ready)
      && Changes(reqs[|o.requests|..]) == |Debt(o.w.mesh, pass.ready, pass.ready)|
  {
    LedgerCloses(o.w.mesh, w.mesh, pass);
    BookedSize(reqs[|o.requests|..], pass.made, pass.ready);
    assert pass.ready - pass.todo == pass.ready;
    PolledOnce(reqs[|o.requests|..], pass.ready);
    if pass.Clean() {
      CleanPassMeshes(o.w.mesh, w.mesh, pass);
      assert pass.ready - pass.skipped == pass.ready;
    }
  }

  /**
    The configuration of a pass, but for the daemon addressed: the client's own, with the pair of the
    secret (or the default pair, if no secret is named) unless the secret cannot be used.
   */
  function PassConfig(config: ClientConfig, name: string, ns: string,
            stored: map<Ref, Secrets.SecretData>): ClientConfig {
    var c := Secrets.CredentialsForSecret(name, ns, stored);
    if c.failed then config else config.(rpcUser := c.user, rpcPassword := c.password)
  }

  /** The secret can be read and holds both halves of a pair. */
  predicate HoldsPair(stored: map<Ref, Secrets.SecretData>, secret: Ref) {
    secret in stored && "BC_RPC_USER" in stored[secret] && "BC_RPC_PASSWORD" in stored[secret]
  }

  /**
    What a request for a network may carry: the client's own port, and the whole pair of the secret that
    the network names in its namespace, or the default pair if it names none, or the client's own pair
    if the secret does not hold one.
   */
  predicate Authorised(c: ClientConfig, own: ClientConfig, name: string, ns: string,
                       stored: map<Ref, Secrets.SecretData>) {
    && c.serverPort == own.serverPort
    && (name == "" ==> c.rpcUser == "user" && c.rpcPassword == "password")
    && (name != "" && HoldsPair(stored, Ref(ns, name)) ==>
          && c.rpcUser == stored[Ref(ns, name)]["BC_RPC_USER"]
          && c.rpcPassword == stored[Ref(ns, name)]["BC_RPC_PASSWORD"])
    && (name != "" && !HoldsPair(stored, Ref(ns, name)) ==>
          c.rpcUser == own.rpcUser && c.rpcPassword == own.rpcPassword)
  }

  /** A request of a pass over ready for a network: to whom, with what, and about whom. */
  predicate Proper(q: Request, ready: set<IP>, own: ClientConfig, name: string, ns: string,
                   stored: map<Ref, Secrets.SecretData>) {
    && q.config.serverIP in ready && Authorised(q.config, own, name, ns, stored)
    && (q.verb.AddNodeAdd? ==> q.peer in ready && q.peer != q.config.serverIP)
    && (q.verb.AddNodeRemove? ==> q.peer !in ready)
  }

  ghost predicate AllProper(reqs: seq<Request>, ready: set<IP>, own: ClientConfig, name: string, ns: string,
                            stored: map<Ref, Secrets.SecretData>) {
    forall q :: q in reqs ==> Proper(q, ready, own, name, ns, stored)
  }

  lemma PassConfigAuthorised(u: IP, own: ClientConfig, name: string, ns: string, stored: map<Ref, Secrets.SecretData>)
    ensures Authorised(PassConfig(own, name, ns, stored).(serverIP := u), own, name, ns, stored)
  {
  }

  lemma {:induction false} BookedPeers(reqs: seq<Request>, made: set<Link>, ready: set<IP>, q: Request)
    requires Booked(reqs, made, ready) && q in reqs && !q.verb.GetAddedNodeInfo?
    ensures Link(q.config.serverIP, q.peer) in made && (q.verb.AddNodeAdd? <==> q.peer in ready)
    decreases |reqs|
  {
    var front, last := reqs[..|reqs| - 1], reqs[|reqs| - 1];
    if q != last {
      assert q in front;
      if last.verb.GetAddedNodeInfo? {
        BookedPeers(front, made, ready, q);
      } else {
        BookedPeers(front, made - {Link(last.config.serverIP, last.peer)}, ready, q);
      }
    }
  }

  /** The requests of a finished pass are proper. */
  lemma PassProper(reqs: seq<Request>, pass: Pass, owed: set<Link>, own: ClientConfig, name: string, ns: string,
                   stored: map<Ref, Secrets.SecretData>)
    requires Booked(reqs, pass.made, pass.ready) && pass.made <= owed
    requires forall l :: l in owed ==> l.row != l.peer
    requires Addressed(reqs, PassConfig(own, name, ns, stored), pass.ready)
    ensures AllProper(reqs, pass.ready, own, name, ns, stored)
  {
    forall q | q in reqs ensures Proper(q, pass.ready, own, name, ns, stored) {
      PassConfigAuthorised(q.config.serverIP, own, name, ns, stored);
      if !q.verb.GetAddedNodeInfo? { BookedPeers(reqs, pass.made, pass.ready, q); }
    }
  }

  class Synchronizer {
    const rpcClient: RpcClient
    const secrets: map<Ref, Secrets.SecretData>

    constructor (rpcClient: RpcClient, secrets: map<Ref, Secrets.SecretData>)
      ensures this.rpcClient == rpcClient && this.secrets == secrets
    {
      this.rpcClient, this.secrets := rpcClient, secrets;
    }

    /** The addresses in a listing, without repetition. */
    method KeysOf(addedNodes: seq<AddedNode>) returns (keys: set<IP>)
      ensures keys == PeersOf(addedNodes)
      ensures forall x :: x in keys <==> exists n :: n in addedNodes && n.nodeIP == x
    {
      keys := {};
      for i := 0 to |addedNodes|
        invariant keys == PeersOf(addedNodes[..i])
      {
        keys := keys + {addedNodes[i].nodeIP};
        PeersAppended(addedNodes[..i], addedNodes[i]);
        assert addedNodes[..i + 1] == addedNodes[..i] + [addedNodes[i]];
      }
      assert addedNodes[..|addedNodes|] == addedNodes;
    }

    /** The first loop of connectNode: adds what appears in nodeList but not in addedNodesMap. */
    method AddMissing(config: Config, nodeList: set<IP>, addedNodesMap: set<IP>,
                      ghost o: Origin, ghost pass: Pass, ghost todo: set<IP>)
      returns (errors: nat, ghost after: Pass)
      requires rpcClient.Keeping(o, pass) && config.Value() == o.base.(serverIP := config.serverIP)
      requires StandsAt(pass, nodeList, todo, config.serverIP, nodeList - addedNodesMap, addedNodesMap - nodeList)
      modifies rpcClient.cluster`w, rpcClient.cluster`log, rpcClient.cluster`tick, rpcClient.cluster`requests
      ensures rpcClient.Keeping(o, after)
      ensures StandsAt(after, nodeList, todo, config.serverIP, {}, addedNodesMap - nodeList)
      ensures errors == 0 && pass.Clean() ==> after.Clean()
      ensures rpcClient.cluster.FairSince(old(rpcClient.cluster.tick)) ==>
                config.serverIP in old(rpcClient.cluster.w).mesh ==> errors == 0
      ensures rpcClient.cluster.w.mesh.Keys == old(rpcClient.cluster.w).mesh.Keys
      ensures rpcClient.cluster.tick >= old(rpcClient.cluster.tick)
    {
      errors, after := 0, pass;
      var rest := nodeList;
      while rest != {}
        invariant rest <= nodeList && rpcClient.Keeping(o, after)
        invariant StandsAt(after, nodeList, todo, config.serverIP, rest - addedNodesMap, addedNodesMap - nodeList)
        invariant errors == 0 && pass.Clean() ==> after.Clean()
        invariant rpcClient.cluster.w.mesh.Keys == old(rpcClient.cluster.w).mesh.Keys
        invariant rpcClient.cluster.tick >= old(rpcClient.cluster.tick)
        invariant rpcClient.cluster.FairSince(old(rpcClient.cluster.tick)) ==>
                  config.serverIP in old(rpcClient.cluster.w).mesh ==> errors == 0
        decreases rest
      {
        var node :| node in rest;
        if node !in addedNodesMap {
          CallStands(rpcClient.cluster.w.mesh, after, todo, config.serverIP,
                     rest - addedNodesMap, addedNodesMap - nodeList,
                     AddPeer(node, rpcClient.cluster.weather(rpcClient.cluster.tick)));
          var err;
          err, after := rpcClient.AddNode(node, config, o, after);
          if err != None && !IsNodeAlreadyAdded(err) {
            errors := errors + 1;
          }
          assert (rest - addedNodesMap) - {node} == (rest - {node}) - addedNodesMap;
        } else {
          assert rest - addedNodesMap == (rest - {node}) - addedNodesMap;
        }
        rest := rest - {node};
      }
    }

    /** The second loop: removes what was added before but is not ready any more. */
    method RemoveStale(config: Config, nodeList: set<IP>, addedNodesMap: set<IP>,
                       ghost o: Origin, ghost pass: Pass, ghost todo: set<IP>)
      returns (errors: nat, ghost after: Pass)
      requires rpcClient.Keeping(o, pass) && config.Value() == o.base.(serverIP := config.serverIP)
      requires StandsAt(pass, nodeList, todo, config.serverIP, {}, addedNodesMap - nodeList)
      modifies rpcClient.cluster`w, rpcClient.cluster`log, rpcClient.cluster`tick, rpcClient.cluster`requests
      ensures rpcClient.Keeping(o, after)
      ensures after.Choosing? && after.ready == nodeList && after.todo == todo
      ensures errors == 0 && pass.Clean() ==> after.Clean()
      ensures rpcClient.cluster.FairSince(old(rpcClient.cluster.tick)) ==>
                config.serverIP in old(rpcClient.cluster.w).mesh ==> errors == 0
      ensures rpcClient.cluster.w.mesh.Keys == old(rpcClient.cluster.w).mesh.Keys
      ensures rpcClient.cluster.tick >= old(rpcClient.cluster.tick)
    {
      errors, after := 0, pass;
      var rest := addedNodesMap;
      while rest != {}
        invariant rest <= addedNodesMap && rpcClient.Keeping(o, after)
        invariant StandsAt(after, nodeList, todo, config.serverIP, {}, rest - nodeList)
        invariant errors == 0 && pass.Clean() ==> after.Clean()
        invariant rpcClient.cluster.w.mesh.Keys == old(rpcClient.cluster.w).mesh.Keys
        invariant rpcClient.cluster.tick >= old(rpcClient.cluster.tick)
        invariant rpcClient.cluster.FairSince(old(rpcClient.cluster.tick)) ==>
                  config.serverIP in old(rpcClient.cluster.w).mesh ==> errors == 0
        decreases rest
      {
        var node :| node in rest;
        if node !in nodeList {
          assert node in rest - nodeList;
          CallStands(rpcClient.cluster.w.mesh, after, todo, config.serverIP, {}, rest - nodeList,
                     RemovePeer(node, rpcClient.cluster.weather(rpcClient.cluster.tick)));
          var err;
          err, after := rpcClient.RemoveNode(node, config, o, after);
          if err != None && !IsNodeNotAdded(err) {
            errors := errors + 1;
          }
          assert (rest - nodeList) - {node} == (rest - {node}) - nodeList;
        } else {
          assert rest - nodeList == (rest - {node}) - nodeList;
        }
        rest := rest - {node};
      }
    }

    /** errors counts what is reported with klog.Errorf. */
    method ConnectNode(config: Config, nodeList: set<IP>, ghost o: Origin, ghost pass: Pass)
      returns (errors: nat, ghost after: Pass)
      requires rpcClient.Keeping(o, pass) && config.Value() == o.base.(serverIP := config.serverIP)
      requires pass.Choosing? && config.serverIP in pass.todo && nodeList == pass.ready
      modifies rpcClient.cluster`w, rpcClient.cluster`log, rpcClient.cluster`tick, rpcClient.cluster`requests
      ensures rpcClient.Keeping(o, after)
      ensures after.Choosing? && after.ready == pass.ready && after.todo == pass.todo - {config.serverIP}
      ensures errors == 0 && pass.Clean() ==> after.Clean()
      ensures rpcClient.cluster.FairSince(old(rpcClient.cluster.tick)) ==>
                config.serverIP in old(rpcClient.cluster.w).mesh ==> errors == 0
      ensures rpcClient.cluster.w.mesh.Keys == old(rpcClient.cluster.w).mesh.Keys
      ensures rpcClient.cluster.tick >= old(rpcClient.cluster.tick)
    {
      var addedNodes, err;
      ghost var t, m := rpcClient.cluster.tick, rpcClient.cluster.w.mesh;
      addedNodes, err, after := rpcClient.GetAddedNodes(config, o, pass);
      PollStands(m, pass, config.serverIP, rpcClient.cluster.weather(t));
      if err != None {
        return 1, after;
      }
      ghost var todo := pass.todo - {config.serverIP};
      var addedNodesMap := KeysOf(addedNodes);
      addedNodesMap := addedNodesMap + {config.serverIP};
      var notAdded, notRemoved;
      notAdded, after := AddMissing(config, nodeList, addedNodesMap, o, after, todo);
      notRemoved, after := RemoveStale(config, nodeList, addedNodesMap, o, after, todo);
      errors := notAdded + notRemoved;
    }

    /** Only the addresses of the nodes that are ready. */
    method ReadyNodes(nodeList: NodeList) returns (readyNodes: set<IP>)
      ensures readyNodes == ReadyIPs(nodeList)
    {
      readyNodes := {};
      var nodes := nodeList.All();
      for i := 0 to |nodes|
        invariant readyNodes == ReadyIPs(Items(nodes[..i]))
      {
        if nodes[i].ready {
          readyNodes := readyNodes + {nodes[i].ip};
        }
        ReadyOneMore(nodes, i);
      }
      assert nodes[..|nodes|] == nodes;
    }

    /** A copy of the client's configuration, with the credentials of the network. */
    method ConfigFor(secretName: string, secretNamespace: string) returns (config: Config)
      ensures fresh(config)
      ensures config.Value() == PassConfig(rpcClient.config.Value(), secretName, secretNamespace, secrets)
      ensures Authorised(config.Value(), rpcClient.config.Value(), secretName, secretNamespace, secrets)
    {
      config := rpcClient.GetConfig();
      var c := Secrets.CredentialsForSecret(secretName, secretNamespace, secrets);
      if !c.failed {
        config.rpcUser := c.user;
        config.rpcPassword := c.password;
      }
    }

    /** The last loop of syncNodes. */
    method ConnectAll(config: Config, readyNodes: set<IP>, ghost o: Origin, ghost whole: Pass)
      returns (errors: nat, ghost pass: Pass)
      requires whole == NewPass(readyNodes) && rpcClient.Keeping(o, whole)
      requires config.Value() == o.base.(serverIP := config.serverIP)
      modifies config, rpcClient.cluster`w, rpcClient.cluster`log, rpcClient.cluster`tick, rpcClient.cluster`requests
      ensures rpcClient.Keeping(o, pass) && pass.Over() && pass.ready == readyNodes
      ensures errors == 0 ==> pass.Clean()
      ensures rpcClient.cluster.FairSince(old(rpcClient.cluster.tick)) ==>
                readyNodes <= old(rpcClient.cluster.w).mesh.Keys ==> errors == 0
    {
      errors, pass := 0, whole;
      var rest := readyNodes;
      while rest != {}
        invariant pass.Choosing? && pass.ready == readyNodes && pass.todo == rest
        invariant rpcClient.Keeping(o, pass) && config.Value() == o.base.(serverIP := config.serverIP)
        invariant errors == 0 ==> pass.Clean()
        invariant rpcClient.cluster.w.mesh.Keys == old(rpcClient.cluster.w).mesh.Keys
        invariant rpcClient.cluster.tick >= old(rpcClient.cluster.tick)
        invariant rpcClient.cluster.FairSince(old(rpcClient.cluster.tick)) ==>
                  readyNodes <= old(rpcClient.cluster.w).mesh.Keys ==> errors == 0
        decreases rest
      {
        var nodeIP :| nodeIP in rest;
        config.serverIP := nodeIP;
        var failed;
        failed, pass := ConnectNode(config, readyNodes, o, pass);
        errors := errors + failed;
        rest := rest - {nodeIP};
      }
    }

    /**
      One pass over the ready nodes, in whatever order the maps are ranged over and whatever fails.
      The ghost result is the pass with its books closed.
     */
    method SyncNodes(nodeList: NodeList, secretName: string, secretNamespace: string)
      returns (errors: nat, ghost pass: Pass)
      requires rpcClient.cluster.Valid() && rpcClient.cluster.At(OpenPass(ReadyIPs(nodeList)))
      modifies rpcClient.cluster`w, rpcClient.cluster`log, rpcClient.cluster`tick, rpcClient.cluster`requests
      ensures pass.Over() && pass.ready == ReadyIPs(nodeList)
      ensures rpcClient.Keeping(
        Origin(old(rpcClient.cluster.w), old(rpcClient.cluster.log), old(rpcClient.cluster.requests),
               PassConfig(rpcClient.config.Value(), secretName, secretNamespace, secrets)), pass)
      ensures rpcClient.cluster.Valid() && rpcClient.cluster.At(None)
      ensures old(rpcClient.cluster.log) <= rpcClient.cluster.log
      ensures CallsOf(rpcClient.cluster.log[|old(rpcClient.cluster.log)|..], rpcClient.cluster.caller)
      ensures errors == 0 ==> pass.Clean()
      ensures rpcClient.cluster.FairSince(old(rpcClient.cluster.tick)) ==>
                pass.ready <= old(rpcClient.cluster.w).mesh.Keys ==> errors == 0
      ensures Debt(rpcClient.cluster.w.mesh, pass.ready, pass.ready) <=
                Debt(old(rpcClient.cluster.w).mesh, pass.ready, pass.ready)
      ensures old(rpcClient.cluster.requests) <= rpcClient.cluster.requests
      ensures AllProper(rpcClient.cluster.requests[|old(rpcClient.cluster.requests)|..], pass.ready,
                        rpcClient.config.Value(), secretName, secretNamespace, secrets)
      ensures AskedOnce(rpcClient.cluster.requests[|old(rpcClient.cluster.requests)|..], pass.ready)
      ensures errors == 0 ==>
        && rpcClient.cluster.w.mesh == Meshed(old(rpcClient.cluster.w).mesh, pass.ready)
        && Changes(rpcClient.cluster.requests[|old(rpcClient.cluster.requests)|..])
             == |Debt(old(rpcClient.cluster.w).mesh, pass.ready, pass.ready)|
    {
      var readyNodes := ReadyNodes(nodeList);
      var config := ConfigFor(secretName, secretNamespace);
      ghost var base := PassConfig(rpcClient.config.Value(), secretName, secretNamespace, secrets);
      ghost var o := Origin(rpcClient.cluster.w, rpcClient.cluster.log, rpcClient.cluster.requests, base);
      PassOpens(o, rpcClient.cluster.caller, readyNodes);
      assert rpcClient.KeepsFor(o, NewPass(readyNodes), rpcClient.cluster.caller);
      errors, pass := ConnectAll(config, readyNodes, o, NewPass(readyNodes));
      assert rpcClient.KeepsFor(o, pass, rpcClient.cluster.caller);
      PassReport(o, rpcClient.cluster.w, rpcClient.cluster.log, rpcClient.cluster.requests,
          rpcClient.cluster.caller, pass);
      PassProper(rpcClient.cluster.requests[|o.requests|..], pass,
                 Debt(o.w.mesh, pass.ready - pass.skipped, pass.ready),
                 rpcClient.config.Value(), secretName, secretNamespace, secrets);
    }
  }
}
