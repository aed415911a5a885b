/** The RPC client: error classification, the configuration struct, and the three requests. */
module BitcoinClient {
  import opened Types
  import opened PeerMesh
  import opened Machine
  import opened Surroundings

  const ERROR_CODE_NODE_ALREADY_ADDED := -23
  const ERROR_CODE_NODE_NOT_ADDED := -24

  datatype ClientError = TransportError | RPCError(code: int)

  predicate IsNodeAlreadyAdded(err: Option<ClientError>) {
    err.Some? && err.value.RPCError? && err.value.code == ERROR_CODE_NODE_ALREADY_ADDED
  }

  predicate IsNodeNotAdded(err: Option<ClientError>) {
    err.Some? && err.value.RPCError? && err.value.code == ERROR_CODE_NODE_NOT_ADDED
  }

  datatype AddedNode = AddedNode(nodeIP: IP, connected: bool)

  function PeersOf(nodes: seq<AddedNode>): set<IP> {
    set n | n in nodes :: n.nodeIP
  }

  /** Configuration in memory; connectNode gets a pointer to it and syncNodes rewrites ServerIP. */
  class Config {
    var serverIP: IP
    var serverPort: int
    var rpcUser: string
    var rpcPassword: string

    constructor (serverIP: IP, serverPort: int, rpcUser: string, rpcPassword: string)
      ensures Value() == ClientConfig(serverIP, serverPort, rpcUser, rpcPassword)
    {
      this.serverIP, this.serverPort, this.rpcUser, this.rpcPassword := serverIP, serverPort, rpcUser, rpcPassword;
    }

    function Value(): ClientConfig
      reads this
    {
      ClientConfig(serverIP, serverPort, rpcUser, rpcPassword)
    }
  }

  /** The error a failed request ends in. */
  function Failure(fate: Fate): ClientError
    requires !fate.Served?
  {
    if fate.Failed? && fate.code != 0 then RPCError(fate.code) else TransportError
  }

  /** What the daemon at u answers to a request to add a peer. */
  function AddReply(m: Mesh, u: IP, peer: IP, fate: Fate): Option<ClientError> {
    if !fate.Served? then Some(Failure(fate))
    else if u !in m then Some(TransportError)
    else if peer in m[u] then Some(RPCError(ERROR_CODE_NODE_ALREADY_ADDED))
    else None
  }

  function RemoveReply(m: Mesh, u: IP, peer: IP, fate: Fate): Option<ClientError> {
    if !fate.Served? then Some(Failure(fate))
    else if u !in m then Some(TransportError)
    else if peer !in m[u] then Some(RPCError(ERROR_CODE_NODE_NOT_ADDED))
    else None
  }

  /**
    connectNode reports an answer as an error exactly if the request was not served by a daemon that is
    up; after an answer that it does not report, the list is as wanted. Code -23 means that the peer was
    there already, -24 that it was not there; other error codes are handed on.
   */
  lemma BenignReplies(m: Mesh, p: Pass, peer: IP, fate: Fate)
    requires p.Editing?
    ensures var e := AddReply(m, p.row, peer, fate);
            e == None || IsNodeAlreadyAdded(e) <==> fate.Served? && p.row in m
    ensures var e, c := AddReply(m, p.row, peer, fate), AddPeer(peer, fate);
            Allowed(p, c) && (e == None || IsNodeAlreadyAdded(e)) ==> peer in Row(Edited(m, Edit(m, p, c)), p.row)
    ensures var e := RemoveReply(m, p.row, peer, fate);
            e == None || IsNodeNotAdded(e) <==> fate.Served? && p.row in m
    ensures fate.Served? && p.row in m ==>
      && AddReply(m, p.row, peer, fate) == (if peer in m[p.row] then Some(RPCError(-23)) else None)
      && RemoveReply(m, p.row, peer, fate) == (if peer in m[p.row] then None else Some(RPCError(-24)))
    ensures fate.Failed? && fate.code != 0 ==>
      AddReply(m, p.row, peer, fate) == RemoveReply(m, p.row, peer, fate) == Some(RPCError(fate.code))
    ensures var e, c := RemoveReply(m, p.row, peer, fate), RemovePeer(peer, fate);
            Allowed(p, c) && (e == None || IsNodeNotAdded(e)) ==> peer !in Row(Edited(m, Edit(m, p, c)), p.row)
  {
  }

  // ---------------------------------------------------------------- the requests of a pass

  /** The cluster when a pass began, and the configuration the pass works with. */
  datatype Origin = Origin(w: World, log: seq<Label>, requests: seq<Request>, base: ClientConfig)

  /**
    The add and remove requests sent, one by one, are the calls on the books: each asks the daemon of
    its row to add a peer that is ready or to remove one that is not, and none is sent twice.
   */
  ghost predicate Booked(reqs: seq<Request>, made: set<Link>, ready: set<IP>) {
    if reqs == [] then made == {}
    else
      var front, r := reqs[..|reqs| - 1], reqs[|reqs| - 1];
      if r.verb.GetAddedNodeInfo? then Booked(front, made, ready)
      else
        var l := Link(r.config.serverIP, r.peer);
        && l in made && (r.verb.AddNodeAdd? <==> r.peer in ready)
        && Booked(front, made - {l}, ready)
  }

  /** Number of requests that change a daemon's list. */
  function Changes(reqs: seq<Request>): nat {
    if reqs == [] then 0
    else Changes(reqs[..|reqs| - 1]) + (if reqs[|reqs| - 1].verb.GetAddedNodeInfo? then 0 else 1)
  }

  lemma {:induction false} BookedSize(reqs: seq<Request>, made: set<Link>, ready: set<IP>)
    requires Booked(reqs, made, ready)
    ensures Changes(reqs) == |made|
    decreases |reqs|
  {
    if reqs != [] {
      var front, r := reqs[..|reqs| - 1], reqs[|reqs| - 1];
      if r.verb.GetAddedNodeInfo? {
        BookedSize(front, made, ready);
      } else {
        BookedSize(front, made - {Link(r.config.serverIP, r.peer)}, ready);
      }
    }
  }

  lemma BookPoll(reqs: seq<Request>, made: set<Link>, ready: set<IP>, r: Request)
    requires Booked(reqs, made, ready) && r.verb.GetAddedNodeInfo?
    ensures Booked(reqs + [r], made, ready)
  {
    assert (reqs + [r])[..|reqs|] == reqs;
  }

  lemma BookCall(reqs: seq<Request>, made: set<Link>, ready: set<IP>, r: Request)
    requires Booked(reqs, made, ready) && !r.verb.GetAddedNodeInfo?
    requires Link(r.config.serverIP, r.peer) !in made && (r.verb.AddNodeAdd? <==> r.peer in ready)
    ensures Booked(reqs + [r], made + {Link(r.config.serverIP, r.peer)}, ready)
  {
    var l := Link(r.config.serverIP, r.peer);
    assert (reqs + [r])[..|reqs|] == reqs;
    assert made + {l} - {l} == made;
  }

  /** The daemons asked for their lists are these, each asked once. */
  ghost predicate Polled(reqs: seq<Request>, rows: set<IP>) {
    if reqs == [] then rows == {}
    else
      var front, r := reqs[..|reqs| - 1], reqs[|reqs| - 1];
      if r.verb.GetAddedNodeInfo?
      then r.config.serverIP in rows && Polled(front, rows - {r.config.serverIP})
      else Polled(front, rows)
  }

  lemma PollCounted(reqs: seq<Request>, rows: set<IP>, r: Request)
    requires Polled(reqs, rows) && (r.verb.GetAddedNodeInfo? ==> r.config.serverIP !in rows)
    ensures Polled(reqs + [r], if r.verb.GetAddedNodeInfo? then rows + {r.config.serverIP} else rows)
  {
    var u := r.config.serverIP;
    assert (reqs + [r])[..|reqs|] == reqs;
    assert u !in rows ==> rows + {u} - {u} == rows;
  }

  predicate Asks(r: Request, u: IP) {
    r.verb.GetAddedNodeInfo? && r.config.serverIP == u
  }

  /** Every one of the daemons is asked for its list, and none twice. */
  ghost predicate AskedOnce(reqs: seq<Request>, rows: set<IP>) {
    && (forall u :: u in rows ==> exists i :: 0 <= i < |reqs| && Asks(reqs[i], u))
    && (forall u, i, j :: 0 <= i < j < |reqs| && Asks(reqs[i], u) ==> !Asks(reqs[j], u))
    && (forall u, i :: 0 <= i < |reqs| && Asks(reqs[i], u) ==> u in rows)
  }

  lemma {:induction false} PolledOnce(reqs: seq<Request>, rows: set<IP>)
    requires Polled(reqs, rows)
    ensures AskedOnce(reqs, rows)
    decreases |reqs|
  {
    if reqs != [] {
      var front, r := reqs[..|reqs| - 1], reqs[|reqs| - 1];
      var before := if r.verb.GetAddedNodeInfo? then rows - {r.config.serverIP} else rows;
      PolledOnce(front, before);
      forall u | u in rows ensures exists i :: 0 <= i < |reqs| && Asks(reqs[i], u) {
        if u in before {
          var i :| 0 <= i < |front| && Asks(front[i], u);
          assert Asks(reqs[i], u);
        } else {
          assert Asks(reqs[|reqs| - 1], u);
        }
      }
      forall u, i | 0 <= i < |reqs| && Asks(reqs[i], u)
        ensures u in rows && forall j :: i < j < |reqs| ==> !Asks(reqs[j], u)
      {
        if i < |front| { assert Asks(front[i], u) && u in before; } else { assert reqs[i] == r; }
        forall j | i < j < |reqs| ensures !Asks(reqs[j], u) {
          if j < |front| { assert front[j] == reqs[j]; }
        }
      }
    }
  }

  /** Every request goes to a ready daemon, with the port and credentials of base. */
  ghost predicate Addressed(reqs: seq<Request>, base: ClientConfig, ready: set<IP>) {
    forall r :: r in reqs ==> r.config.serverIP in ready && r.config == base.(serverIP := r.config.serverIP)
  }

  ghost predicate CallsOf(ls: seq<Label>, ref: Ref) {
    forall l :: l in ls ==> l.Does? && l.ref == ref && l.act.Call?
  }

  /** A pass of the call for ref, begun at o, has come to pass and w: only the mesh has changed. */
  ghost predicate PassOnly(o: Origin, w: World, ref: Ref, pass: Pass) {
    && Ledger(o.w.mesh, w.mesh, pass) && SameOutside(o.w.mesh, w.mesh, pass.ready)
    && w == o.w.(mesh := w.mesh, procs := w.procs)
    && w.procs - {ref} == o.w.procs - {ref}
  }

  lemma RpcPassOnly(o: Origin, w: World, ref: Ref, pass: Pass, c: Rpc)
    requires PassOnly(o, w, ref, pass) && Allowed(pass, c)
    requires ref in w.procs && w.procs[ref] == Syncing(pass)
    ensures var w', next := Work(true, w, ref, Call(c)), AfterCall(Move(w.mesh, pass, c));
      && PassOnly(o, w', ref, Move(w.mesh, pass, c))
      && (if next.Some? then ref in w'.procs && w'.procs[ref] == next.value else ref !in w'.procs)
  {
    LedgerKept(o.w.mesh, w.mesh, pass, c);
    CallStaysInside(o.w.mesh, w.mesh, pass, c);
    RpcWorks(true, w, ref, pass, c);
    assert Work(true, w, ref, Call(c)).procs - {ref} == w.procs - {ref};
  }

  /** Every step and request since o belongs to the pass, is booked and is well addressed. */
  ghost predicate Noted(o: Origin, log: seq<Label>, reqs: seq<Request>, ref: Ref, pass: Pass) {
    && o.log <= log && CallsOf(log[|o.log|..], ref)
    && o.requests <= reqs
    && Booked(reqs[|o.requests|..], pass.made, pass.ready)
    && Polled(reqs[|o.requests|..], pass.ready - pass.todo)
    && Addressed(reqs[|o.requests|..], o.base, pass.ready)
  }

  /** The request with which the client makes a call of the pass. */
  predicate Expresses(r: Request, c: Rpc, base: ClientConfig, pass: Pass)
    requires Allowed(pass, c)
  {
    && r.config == base.(serverIP := Target(pass, c))
    && if c.Poll? then r.verb.GetAddedNodeInfo?
       else r.peer == c.peer && r.verb == (if c.AddPeer? then AddNodeAdd else AddNodeRemove)
  }

  lemma CallNoted(o: Origin, log: seq<Label>, reqs: seq<Request>, ref: Ref, pass: Pass,
                  m: Mesh, c: Rpc, r: Request)
    requires WellFormed(pass) && Noted(o, log, reqs, ref, pass)
    requires Allowed(pass, c) && Expresses(r, c, o.base, pass)
    ensures Noted(o, log + [Does(ref, Call(c))], reqs + [r], ref, Move(m, pass, c))
  {
    var since := reqs[|o.requests|..];
    assert (reqs + [r])[|o.requests|..] == since + [r];
    assert (log + [Does(ref, Call(c))])[|o.log|..] == log[|o.log|..] + [Does(ref, Call(c))];
    MoveWellFormed(m, pass, c);
    PollCounted(since, pass.ready - pass.todo, r);
    if c.Poll? {
      assert pass.ready - (pass.todo - {c.row}) == pass.ready - pass.todo + {c.row};
      BookPoll(since, pass.made, pass.ready, r);
    } else {
      assert c.peer in pass.Pending(pass.row);
      BookCall(since, pass.made, pass.ready, r);
    }
  }

  class RpcClient {
    const config: Config
    const cluster: Cluster

    constructor (config: Config, cluster: Cluster)
      ensures this.config == config && this.cluster == cluster
    {
      this.config, this.cluster := config, cluster;
    }

    ghost predicate KeepsFor(o: Origin, pass: Pass, ref: Ref)
      reads cluster
    {
      && cluster.Valid() && cluster.caller == ref && cluster.At(AfterCall(pass))
      && PassOnly(o, cluster.w, ref, pass)
      && Noted(o, cluster.log, cluster.requests, ref, pass)
    }

    /** The pass begun at o stands at pass, and every RPC so far is logged, booked and well addressed. */
    ghost predicate Keeping(o: Origin, pass: Pass)
      reads cluster
    {
      forall ref :: ref == cluster.caller ==> KeepsFor(o, pass, ref)
    }

    /** Hands out a copy, so that callers may change it. */
    method GetConfig() returns (copy: Config)
      ensures fresh(copy) && copy.Value() == config.Value()
    {
      copy := new Config(config.serverIP, config.serverPort, config.rpcUser, config.rpcPassword);
    }

    /** Notes a request and lets the daemon take its step. */
    method Send(r: Request, c: Rpc, ghost o: Origin, ghost pass: Pass)
      requires Keeping(o, pass) && Allowed(pass, c) && Expresses(r, c, o.base, pass)
      requires c.fate == cluster.weather(cluster.tick)
      modifies cluster`w, cluster`log, cluster`tick, cluster`requests
      ensures Keeping(o, Move(old(cluster.w).mesh, pass, c)) && cluster.requests == old(cluster.requests) + [r]
      ensures cluster.w.mesh.Keys == old(cluster.w).mesh.Keys && cluster.tick == old(cluster.tick) + 1
    {
      assert KeepsFor(o, pass, cluster.caller);
      CallNoted(o, cluster.log, cluster.requests, cluster.caller, pass, cluster.w.mesh, c, r);
      RpcPassOnly(o, cluster.w, cluster.caller, pass, c);
      cluster.requests := cluster.requests + [r];
      cluster.Take(Call(c));
      assert KeepsFor(o, Move(old(cluster.w).mesh, pass, c), cluster.caller);
    }

    /** Entries come in any order and may repeat. */
    method GetAddedNodes(config: Config, ghost o: Origin, ghost pass: Pass)
      returns (nodes: seq<AddedNode>, err: Option<ClientError>, ghost after: Pass)
      requires Keeping(o, pass) && pass.Choosing? && config.serverIP in pass.todo
      requires config.Value() == o.base.(serverIP := config.serverIP)
      modifies cluster`w, cluster`log, cluster`tick, cluster`requests
      ensures after == Move(old(cluster.w).mesh, pass, Poll(config.serverIP, cluster.weather(old(cluster.tick))))
      ensures Keeping(o, after)
      ensures exists r :: Asks(r, config.serverIP) && r.config == config.Value() &&
                cluster.requests == old(cluster.requests) + [r]
      ensures err == None <==> cluster.weather(old(cluster.tick)).Served? && config.serverIP in old(cluster.w).mesh
      ensures err == None ==> PeersOf(nodes) == old(cluster.w).mesh[config.serverIP]
      ensures cluster.w.mesh.Keys == old(cluster.w).mesh.Keys && cluster.tick == old(cluster.tick) + 1
    {
      var fate := cluster.weather(cluster.tick);
      if !fate.Served? {
        nodes, err := [], Some(Failure(fate));
      } else if config.serverIP !in cluster.w.mesh {
        nodes, err := [], Some(TransportError);
      } else {
        ListingExists(cluster.w.mesh[config.serverIP]);
        nodes :| PeersOf(nodes) == cluster.w.mesh[config.serverIP];
        err := None;
      }
      after := Move(cluster.w.mesh, pass, Poll(config.serverIP, fate));
      assert Asks(Request(config.Value(), GetAddedNodeInfo, ""), config.serverIP);
      Send(Request(config.Value(), GetAddedNodeInfo, ""), Poll(config.serverIP, fate), o, pass);
    }

    method AddNode(peer: IP, config: Config, ghost o: Origin, ghost pass: Pass)
      returns (err: Option<ClientError>, ghost after: Pass)
      requires Keeping(o, pass) && pass.Editing? && peer in pass.adds && config.serverIP == pass.row
      requires config.Value() == o.base.(serverIP := config.serverIP)
      modifies cluster`w, cluster`log, cluster`tick, cluster`requests
      ensures after == Move(old(cluster.w).mesh, pass, AddPeer(peer, cluster.weather(old(cluster.tick))))
      ensures Keeping(o, after)
      ensures cluster.requests == old(cluster.requests) + [Request(config.Value(), AddNodeAdd, peer)]
      ensures err == AddReply(old(cluster.w).mesh, config.serverIP, peer, cluster.weather(old(cluster.tick)))
      ensures cluster.w.mesh.Keys == old(cluster.w).mesh.Keys && cluster.tick == old(cluster.tick) + 1
    {
      var fate := cluster.weather(cluster.tick);
      err := AddReply(cluster.w.mesh, config.serverIP, peer, fate);
      after := Move(cluster.w.mesh, pass, AddPeer(peer, fate));
      Send(Request(config.Value(), AddNodeAdd, peer), AddPeer(peer, fate), o, pass);
    }

    method RemoveNode(peer: IP, config: Config, ghost o: Origin, ghost pass: Pass)
      returns (err: Option<ClientError>, ghost after: Pass)
      requires Keeping(o, pass) && pass.Editing? && pass.adds == {} && peer in pass.removes
      requires config.serverIP == pass.row && config.Value() == o.base.(serverIP := config.serverIP)
      modifies cluster`w, cluster`log, cluster`tick, cluster`requests
      ensures after == Move(old(cluster.w).mesh, pass, RemovePeer(peer, cluster.weather(old(cluster.tick))))
      ensures Keeping(o, after)
      ensures cluster.requests == old(cluster.requests) + [Request(config.Value(), AddNodeRemove, peer)]
      ensures err == RemoveReply(old(cluster.w).mesh, config.serverIP, peer, cluster.weather(old(cluster.tick)))
      ensures cluster.w.mesh.Keys == old(cluster.w).mesh.Keys && cluster.tick == old(cluster.tick) + 1
    {
      var fate := cluster.weather(cluster.tick);
      err := RemoveReply(cluster.w.mesh, config.serverIP, peer, fate);
      after := Move(cluster.w.mesh, pass, RemovePeer(peer, fate));
      Send(Request(config.Value(), AddNodeRemove, peer), RemovePeer(peer, fate), o, pass);
    }
  }

  lemma PeersAppended(nodes: seq<AddedNode>, n: AddedNode)
    ensures PeersOf(nodes + [n]) == PeersOf(nodes) + {n.nodeIP}
  {
    assert forall m :: m in nodes + [n] <==> m in nodes || m == n;
  }

  lemma {:induction false} ListingExists(row: set<IP>)
    ensures exists nodes :: PeersOf(nodes) == row
    decreases row
  {
    if row == {} {
      assert PeersOf([]) == row;
    } else {
      var x :| x in row;
      ListingExists(row - {x});
      var rest :| PeersOf(rest) == row - {x};
      PeersAppended(rest, AddedNode(x, true));
      assert PeersOf(rest + [AddedNode(x, true)]) == row;
    }
  }
}
