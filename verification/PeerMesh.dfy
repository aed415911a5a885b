/**
  The peer lists inside the bitcoin daemons, and one syncNodes pass as a small machine that takes
  one RPC per step, so that passes over different networks can be interleaved.
 */
module PeerMesh {
  import opened Types

  /** Peer list of every daemon that is up, as a set. */
  type Mesh = map<IP, set<IP>>

  datatype Link = Link(row: IP, peer: IP)

  function Row(m: Mesh, u: IP): set<IP> {
    if u in m then m[u] else {}
  }

  /** Peers that row u lacks or has too many, its own address aside. */
  function RowDebt(m: Mesh, u: IP, ready: set<IP>): set<IP> {
    (ready - Row(m, u)) + (Row(m, u) - ready) - {u}
  }

  /** Everything that separates the given rows from a complete mesh over ready. */
  function Debt(m: Mesh, rows: set<IP>, ready: set<IP>): (d: set<Link>)
    ensures forall u, x :: Link(u, x) in d <==> u in rows && x in RowDebt(m, u, ready)
  {
    set u, x | u in rows && x in RowDebt(m, u, ready) :: Link(u, x)
  }

  ghost predicate Complete(m: Mesh, ready: set<IP>) {
    forall u :: u in ready ==> RowDebt(m, u, ready) == {}
  }

  /** A complete mesh, row by row: the other ready daemons, and at most the daemon itself besides. */
  lemma CompleteMeans(m: Mesh, ready: set<IP>)
    ensures Complete(m, ready) <==> forall u :: u in ready ==> Row(m, u) - {u} == ready - {u}
  {
    forall u | u in ready ensures RowDebt(m, u, ready) == {} <==> Row(m, u) - {u} == ready - {u} {
      forall x ensures x in RowDebt(m, u, ready) <==> (x in Row(m, u) - {u} <==> x !in ready - {u}) {}
    }
  }

  /** The complete mesh over ready that a fault-free pass is meant to leave. */
  function Meshed(m: Mesh, ready: set<IP>): Mesh {
    map u | u in m :: if u in ready then (ready - {u}) + (m[u] * {u}) else m[u]
  }

  // ---------------------------------------------------------------- one pass

  /**
    Where a pass stands. The last three fields only keep the books: rows whose GetAddedNodes
    failed, add and remove calls made, and those of them that had no effect.
   */
  datatype Pass =
    | Choosing(ready: set<IP>, todo: set<IP>,
               skipped: set<IP>, made: set<Link>, failed: set<Link>)
    | Editing(ready: set<IP>, todo: set<IP>, row: IP, adds: set<IP>, removes: set<IP>,
              skipped: set<IP>, made: set<Link>, failed: set<Link>)
  {
    predicate Over() { Choosing? && todo == {} }

    /** The row being edited and the calls it still needs. */
    function Pending(u: IP): set<IP> {
      if Editing? && u == row then adds + removes else {}
    }

    predicate Clean() { skipped == {} && failed == {} }
  }

  datatype Rpc =
    | Poll(row: IP, fate: Fate)
    | AddPeer(peer: IP, fate: Fate)
    | RemovePeer(peer: IP, fate: Fate)

  function NewPass(ready: set<IP>): Pass {
    Choosing(ready, ready, {}, {}, {})
  }

  predicate Allowed(p: Pass, c: Rpc) {
    match c
    case Poll(u, _) => p.Choosing? && u in p.todo
    case AddPeer(x, _) => p.Editing? && x in p.adds
    case RemovePeer(x, _) => p.Editing? && p.adds == {} && x in p.removes
  }

  /** The daemon a call goes to. */
  function Target(p: Pass, c: Rpc): IP
    requires Allowed(p, c)
  {
    if c.Poll? then c.row else p.row
  }

  predicate Lands(m: Mesh, u: IP, fate: Fate) {
    u in m && !fate.Failed?
  }

  datatype RowEdit = Keep | Put(row: IP, peers: set<IP>)

  function Edit(m: Mesh, p: Pass, c: Rpc): RowEdit {
    if !Allowed(p, c) || c.Poll? || !Lands(m, p.row, c.fate) then Keep
    else if c.AddPeer? then Put(p.row, m[p.row] + {c.peer})
    else Put(p.row, m[p.row] - {c.peer})
  }

  function Edited(m: Mesh, e: RowEdit): Mesh {
    if e.Keep? then m else m[e.row := e.peers]
  }

  function Settle(p: Pass): Pass {
    if p.Editing? && p.adds == {} && p.removes == {}
    then Choosing(p.ready, p.todo, p.skipped, p.made, p.failed)
    else p
  }

  function Move(m: Mesh, p: Pass, c: Rpc): Pass {
    if !Allowed(p, c) then p else
    match c
    case Poll(u, fate) =>
      if u in m && fate.Served? then
        var added := m[u] + {u};
        Settle(Editing(p.ready, p.todo - {u}, u, p.ready - added, added - p.ready,
                       p.skipped, p.made, p.failed))
      else
        p.(todo := p.todo - {u}, skipped := p.skipped + {u})
    case AddPeer(x, fate) =>
      Settle(p.(adds := p.adds - {x}, made := p.made + {Link(p.row, x)},
                failed := if Lands(m, p.row, fate) then p.failed else p.failed + {Link(p.row, x)}))
    case RemovePeer(x, fate) =>
      Settle(p.(removes := p.removes - {x}, made := p.made + {Link(p.row, x)},
                failed := if Lands(m, p.row, fate) then p.failed else p.failed + {Link(p.row, x)}))
  }

  // ---------------------------------------------------------------- the books balance

  /** Row u against the books: what was owed is paid, refused or pending. */
  ghost predicate RowBooked(m0: Mesh, m: Mesh, p: Pass, u: IP) {
    && (u in Row(m, u) <==> u in Row(m0, u))
    && (u in p.todo || u in p.skipped ==> Row(m, u) == Row(m0, u))
    && (u !in p.todo && u !in p.skipped ==> u in m)
    && (u !in p.todo && u !in p.skipped ==>
          && (forall x :: x in RowDebt(m0, u, p.ready) <==> Link(u, x) in p.made || x in p.Pending(u))
          && (forall x :: x in RowDebt(m, u, p.ready) <==> Link(u, x) in p.failed || x in p.Pending(u)))
  }

  ghost predicate WellFormed(p: Pass) {
    && p.todo <= p.ready && p.skipped <= p.ready && p.skipped !! p.todo
    && p.failed <= p.made
    && (forall l :: l in p.made ==>
          l.row in p.ready && l.row !in p.todo && l.row !in p.skipped && l.peer !in p.Pending(l.row))
    && (p.Editing? ==> p.row in p.ready && p.row !in p.todo && p.row !in p.skipped
                       && p.adds <= p.ready && p.removes !! p.ready)
  }

  /** The books of a pass that started at m0 and stands at p with mesh m. */
  ghost predicate Ledger(m0: Mesh, m: Mesh, p: Pass) {
    && WellFormed(p)
    && (p.Editing? ==> p.row in m)
    && forall u :: u in p.ready ==> RowBooked(m0, m, p, u)
  }

  lemma LedgerOpens(m: Mesh, ready: set<IP>)
    ensures Ledger(m, m, NewPass(ready))
  {
  }

  lemma PollKeepsLedger(m0: Mesh, m: Mesh, p: Pass, c: Rpc)
    requires Ledger(m0, m, p) && Allowed(p, c) && c.Poll?
    ensures Ledger(m0, m, Move(m, p, c))
  {
    var q := Move(m, p, c);
    var u := c.row;
    forall v | v in q.ready ensures RowBooked(m0, m, q, v) {
      assert RowBooked(m0, m, p, v);
      if v == u && u in m && c.fate.Served? {
        assert q.Pending(u) == RowDebt(m, u, p.ready);
      } else {
        assert q.Pending(v) == p.Pending(v) == {};
      }
    }
  }

  /** The effect of a call on its own row: exactly one peer is settled, or nothing happens. */
  lemma CallOnRow(m: Mesh, p: Pass, c: Rpc)
    requires WellFormed(p) && p.Editing? && p.row in m && Allowed(p, c) && !c.Poll?
    requires c.peer in RowDebt(m, p.row, p.ready)
    ensures var m', q := Edited(m, Edit(m, p, c)), Move(m, p, c);
      && c.peer in p.Pending(p.row) && q.Pending(p.row) == p.Pending(p.row) - {c.peer}
      && p.row in m' && (p.row in m'[p.row] <==> p.row in m[p.row])
      && RowDebt(m', p.row, p.ready) ==
           if Lands(m, p.row, c.fate) then RowDebt(m, p.row, p.ready) - {c.peer} else RowDebt(m, p.row, p.ready)
  {
    var m', q := Edited(m, Edit(m, p, c)), Move(m, p, c);
    assert q.Pending(p.row) == p.Pending(p.row) - {c.peer};
    assert RowDebt(m', p.row, p.ready) ==
      if Lands(m, p.row, c.fate) then RowDebt(m, p.row, p.ready) - {c.peer} else RowDebt(m, p.row, p.ready);
  }

  lemma CallKeepsOwnRow(m0: Mesh, m: Mesh, p: Pass, c: Rpc)
    requires Ledger(m0, m, p) && Allowed(p, c) && !c.Poll?
    ensures RowBooked(m0, Edited(m, Edit(m, p, c)), Move(m, p, c), p.row)
  {
    var u := p.row;
    assert RowBooked(m0, m, p, u);
    assert c.peer in p.Pending(u);
    CallOnRow(m, p, c);
  }

  lemma CallKeepsOtherRow(m0: Mesh, m: Mesh, p: Pass, c: Rpc, v: IP)
    requires Ledger(m0, m, p) && Allowed(p, c) && !c.Poll? && v in p.ready && v != p.row
    ensures RowBooked(m0, Edited(m, Edit(m, p, c)), Move(m, p, c), v)
  {
    var q, m' := Move(m, p, c), Edited(m, Edit(m, p, c));
    assert RowBooked(m0, m, p, v);
    assert Row(m', v) == Row(m, v) && q.Pending(v) == p.Pending(v) == {};
    assert forall x :: Link(v, x) in q.made <==> Link(v, x) in p.made;
    assert forall x :: Link(v, x) in q.failed <==> Link(v, x) in p.failed;
  }

  lemma CallKeepsWellFormed(m: Mesh, p: Pass, c: Rpc)
    requires WellFormed(p) && Allowed(p, c) && !c.Poll?
    ensures WellFormed(Move(m, p, c)) && Move(m, p, c).ready == p.ready
  {
    assert c.peer in p.Pending(p.row);
  }

  lemma CallKeepsLedger(m0: Mesh, m: Mesh, p: Pass, c: Rpc)
    requires Ledger(m0, m, p) && Allowed(p, c) && !c.Poll?
    ensures Ledger(m0, Edited(m, Edit(m, p, c)), Move(m, p, c))
  {
    CallKeepsWellFormed(m, p, c);
    forall v | v in p.ready ensures RowBooked(m0, Edited(m, Edit(m, p, c)), Move(m, p, c), v) {
      if v == p.row { CallKeepsOwnRow(m0, m, p, c); } else { CallKeepsOtherRow(m0, m, p, c, v); }
    }
  }

  lemma MoveWellFormed(m: Mesh, p: Pass, c: Rpc)
    requires WellFormed(p)
    ensures WellFormed(Move(m, p, c)) && Move(m, p, c).ready == p.ready
    ensures Allowed(p, c) ==> Target(p, c) in p.ready
  {
    if Allowed(p, c) && !c.Poll? {
      CallKeepsWellFormed(m, p, c);
    }
  }

  lemma LedgerKept(m0: Mesh, m: Mesh, p: Pass, c: Rpc)
    requires Ledger(m0, m, p)
    ensures Ledger(m0, Edited(m, Edit(m, p, c)), Move(m, p, c))
  {
    if Allowed(p, c) {
      if c.Poll? {
        PollKeepsLedger(m0, m, p, c);
      } else {
        CallKeepsLedger(m0, m, p, c);
      }
    }
  }

  /** Peers are removed from a row only after every ready daemon it lacked has been offered to it. */
  lemma RemovesComeLast(m0: Mesh, m: Mesh, p: Pass, c: Rpc)
    requires Ledger(m0, m, p) && Allowed(p, c) && c.RemovePeer?
    ensures forall x :: x in p.ready && x != p.row ==> x in Row(m0, p.row) || Link(p.row, x) in p.made
  {
    assert RowBooked(m0, m, p, p.row);
    forall x | x in p.ready && x != p.row && x !in Row(m0, p.row) ensures Link(p.row, x) in p.made {
      assert x in RowDebt(m0, p.row, p.ready) && x !in p.Pending(p.row);
    }
  }

  // ---------------------------------------------------------------- a pass on its own

  /** The mesh and the pass after the given RPCs; a call the pass would not make is ignored. */
  function Drive(m: Mesh, p: Pass, calls: seq<Rpc>): (Mesh, Pass)
    decreases |calls|
  {
    if calls == [] then (m, p)
    else Drive(Edited(m, Edit(m, p, calls[0])), Move(m, p, calls[0]), calls[1..])
  }

  /** Number of addnode requests, whether to add or to remove, among the given RPCs. */
  function Requests(m: Mesh, p: Pass, calls: seq<Rpc>): nat
    decreases |calls|
  {
    if calls == [] then 0
    else (if Allowed(p, calls[0]) && !calls[0].Poll? then 1 else 0) +
         Requests(Edited(m, Edit(m, p, calls[0])), Move(m, p, calls[0]), calls[1..])
  }

  ghost predicate SameOutside(m0: Mesh, m: Mesh, ready: set<IP>) {
    m.Keys == m0.Keys && forall u :: u in m0 && u !in ready ==> m[u] == m0[u]
  }

  lemma MoveNotesCall(m: Mesh, p: Pass, c: Rpc)
    ensures Move(m, p, c).made == if Allowed(p, c) && !c.Poll? then p.made + {Link(p.row, c.peer)} else p.made
  {
  }

  lemma CallCounted(m: Mesh, p: Pass, c: Rpc)
    requires WellFormed(p)
    ensures |Move(m, p, c).made| == |p.made| + (if Allowed(p, c) && !c.Poll? then 1 else 0)
  {
    MoveNotesCall(m, p, c);
    if Allowed(p, c) && !c.Poll? {
      assert c.peer in p.Pending(p.row);
      assert Link(p.row, c.peer) !in p.made;
    }
  }

  lemma CallStaysInside(m0: Mesh, m: Mesh, p: Pass, c: Rpc)
    requires WellFormed(p) && SameOutside(m0, m, p.ready)
    ensures SameOutside(m0, Edited(m, Edit(m, p, c)), p.ready)
  {
  }

  lemma {:induction false} DriveBooked(m0: Mesh, m: Mesh, p: Pass, calls: seq<Rpc>)
    requires Ledger(m0, m, p)
    ensures Ledger(m0, Drive(m, p, calls).0, Drive(m, p, calls).1)
    ensures |Drive(m, p, calls).1.made| == |p.made| + Requests(m, p, calls)
    decreases |calls|
  {
    if calls != [] {
      var c := calls[0];
      LedgerKept(m0, m, p, c);
      CallCounted(m, p, c);
      DriveBooked(m0, Edited(m, Edit(m, p, c)), Move(m, p, c), calls[1..]);
    }
  }

  lemma {:induction false} DriveStaysInside(m0: Mesh, m: Mesh, p: Pass, calls: seq<Rpc>)
    requires WellFormed(p) && SameOutside(m0, m, p.ready)
    ensures SameOutside(m0, Drive(m, p, calls).0, p.ready) && Drive(m, p, calls).1.ready == p.ready
    decreases |calls|
  {
    if calls != [] {
      var c := calls[0];
      CallStaysInside(m0, m, p, c);
      MoveWellFormed(m, p, c);
      DriveStaysInside(m0, Edited(m, Edit(m, p, c)), Move(m, p, c), calls[1..]);
    }
  }

  /** What a finished pass has paid and what it still owes, whatever failed on the way. */
  lemma LedgerCloses(m0: Mesh, m: Mesh, p: Pass)
    requires Ledger(m0, m, p) && p.Over()
    ensures Debt(m, p.ready, p.ready) == p.failed + Debt(m0, p.skipped, p.ready)
    ensures p.made == Debt(m0, p.ready - p.skipped, p.ready)
    ensures Debt(m, p.ready, p.ready) <= Debt(m0, p.ready, p.ready)
  {
    forall u | u in p.ready ensures RowBooked(m0, m, p, u) {}
    forall l: Link
      ensures l in Debt(m, p.ready, p.ready) <==> l in p.failed + Debt(m0, p.skipped, p.ready)
      ensures l in p.made <==> l in Debt(m0, p.ready - p.skipped, p.ready)
    {
      var Link(u, x) := l;
      if u in p.ready {
        assert RowBooked(m0, m, p, u);
        assert u in p.skipped ==> RowDebt(m, u, p.ready) == RowDebt(m0, u, p.ready);
      } else {
        assert l !in p.made;
      }
    }
  }

  /** Without a failure the final mesh does not depend on the order of calls. */
  lemma CleanPassMeshes(m0: Mesh, m: Mesh, p: Pass)
    requires Ledger(m0, m, p) && p.Over() && p.Clean() && SameOutside(m0, m, p.ready)
    ensures m == Meshed(m0, p.ready)
  {
    LedgerCloses(m0, m, p);
    forall u | u in m ensures m[u] == Meshed(m0, p.ready)[u] {
      if u in p.ready {
        assert RowBooked(m0, m, p, u);
        forall x ensures x in m[u] <==> x in Meshed(m0, p.ready)[u] {
          assert Link(u, x) !in Debt(m, p.ready, p.ready);
        }
      }
    }
  }

  /**
    Full accounting of one pass, for every order in which Go ranges over the three maps and every
    pattern of failures.
   */
  lemma PassAccounts(m: Mesh, ready: set<IP>, calls: seq<Rpc>)
    requires Drive(m, NewPass(ready), calls).1.Over()
    ensures var (m', p) := Drive(m, NewPass(ready), calls);
            var owed := Debt(m, ready, ready);
            && Debt(m', ready, ready) == p.failed + Debt(m, p.skipped, ready)
            && Debt(m', ready, ready) <= owed
            && p.made == Debt(m, ready - p.skipped, ready)
            && (forall l :: l in p.made ==> l.row in ready && l.row != l.peer)
            && Requests(m, NewPass(ready), calls) == |p.made|
            && SameOutside(m, m', ready)
            && (p.Clean() ==>
                  m' == Meshed(m, ready) && Requests(m, NewPass(ready), calls) == |owed|)
  {
    LedgerOpens(m, ready);
    DriveBooked(m, m, NewPass(ready), calls);
    DriveStaysInside(m, m, NewPass(ready), calls);
    var (m', p) := Drive(m, NewPass(ready), calls);
    LedgerCloses(m, m', p);
    if p.Clean() {
      CleanPassMeshes(m, m', p);
      assert ready - p.skipped == ready;
    }
  }

  /** No RPC, served or not, takes the mesh further away from a complete one. */
  lemma CallNeverAddsDebt(m: Mesh, p: Pass, c: Rpc)
    requires WellFormed(p)
    ensures Debt(Edited(m, Edit(m, p, c)), p.ready, p.ready) <= Debt(m, p.ready, p.ready)
  {
    var m' := Edited(m, Edit(m, p, c));
    forall u | u in p.ready ensures RowDebt(m', u, p.ready) <= RowDebt(m, u, p.ready) {}
  }

  lemma {:induction false} DriveNeverAddsDebt(m: Mesh, p: Pass, calls: seq<Rpc>)
    requires WellFormed(p)
    ensures Debt(Drive(m, p, calls).0, p.ready, p.ready) <= Debt(m, p.ready, p.ready)
    decreases |calls|
  {
    if calls != [] {
      CallNeverAddsDebt(m, p, calls[0]);
      MoveWellFormed(m, p, calls[0]);
      DriveNeverAddsDebt(Edited(m, Edit(m, p, calls[0])), Move(m, p, calls[0]), calls[1..]);
    }
  }

  /**
    Two fault-free passes, whatever orders Go ranges over the maps in, leave the same mesh and make the
    same set of calls, each once.
   */
  lemma OrderIndependence(m: Mesh, ready: set<IP>, one: seq<Rpc>, other: seq<Rpc>)
    requires var p := Drive(m, NewPass(ready), one).1; p.Over() && p.Clean()
    requires var p := Drive(m, NewPass(ready), other).1; p.Over() && p.Clean()
    ensures Drive(m, NewPass(ready), one) == Drive(m, NewPass(ready), other)
    ensures Requests(m, NewPass(ready), one) == Requests(m, NewPass(ready), other)
  {
    PassAccounts(m, ready, one);
    PassAccounts(m, ready, other);
    DriveStaysInside(m, m, NewPass(ready), one);
    DriveStaysInside(m, m, NewPass(ready), other);
  }

  /** A second pass straight after a clean one issues no add and no remove. */
  lemma SecondPassSilent(m: Mesh, ready: set<IP>, again: seq<Rpc>)
    requires Complete(m, ready)
    ensures Requests(m, NewPass(ready), again) == 0
    ensures Drive(m, NewPass(ready), again).0 == m
  {
    SilentWhileComplete(m, NewPass(ready), again);
  }

  /** Over a complete mesh a pass only polls. */
  lemma {:induction false} SilentWhileComplete(m: Mesh, p: Pass, calls: seq<Rpc>)
    requires p.Choosing? && p.todo <= p.ready && Complete(m, p.ready)
    ensures Requests(m, p, calls) == 0 && Drive(m, p, calls).0 == m
    decreases |calls|
  {
    if calls != [] {
      var c := calls[0];
      if Allowed(p, c) && c.row in m {
        assert RowDebt(m, c.row, p.ready) == {};
        assert p.ready - (m[c.row] + {c.row}) == {} && (m[c.row] + {c.row}) - p.ready == {};
      }
      SilentWhileComplete(m, Move(m, p, c), calls[1..]);
    }
  }

  // ---------------------------------------------------------------- size of a complete mesh

  /** All peer entries of the ready daemons, those naming the daemon itself aside. */
  function Entries(m: Mesh, rows: set<IP>): (e: set<Link>)
    ensures forall u, x :: Link(u, x) in e <==> u in rows && x in Row(m, u) && x != u
  {
    set u, x | u in rows && x in Row(m, u) && x != u :: Link(u, x)
  }

  function RowEntries(u: IP, peers: set<IP>): (e: set<Link>)
    ensures forall l :: l in e <==> l.row == u && l.peer in peers
  {
    set x | x in peers :: Link(u, x)
  }

  lemma {:induction false} RowEntriesSize(u: IP, peers: set<IP>)
    ensures |RowEntries(u, peers)| == |peers|
    decreases peers
  {
    if peers == {} {
      assert RowEntries(u, peers) == {};
    } else {
      var x :| x in peers;
      RowEntriesSize(u, peers - {x});
      assert RowEntries(u, peers) == RowEntries(u, peers - {x}) + {Link(u, x)};
    }
  }

  lemma CompleteRow(m: Mesh, u: IP, ready: set<IP>)
    requires u in ready && Complete(m, ready)
    ensures Row(m, u) - {u} == ready - {u}
  {
    forall x ensures x in Row(m, u) && x != u <==> x in ready && x != u {
      assert x !in RowDebt(m, u, ready);
    }
  }

  lemma EntriesSplit(m: Mesh, rows: set<IP>, u: IP)
    requires u in rows
    ensures |Entries(m, rows)| == |Entries(m, rows - {u})| + |Row(m, u) - {u}|
  {
    var rest, mine := Entries(m, rows - {u}), RowEntries(u, Row(m, u) - {u});
    RowEntriesSize(u, Row(m, u) - {u});
    forall l: Link ensures l in Entries(m, rows) <==> l in rest + mine {
      assert l == Link(l.row, l.peer);
    }
    assert Entries(m, rows) == rest + mine && rest !! mine;
  }

  lemma OneMore(rest: int, rows: int, n: int)
    requires rows == rest + 1
    ensures rows * n == rest * n + n
  {
  }

  /** A count to which every element adds the same. */
  lemma {:induction false} EvenShares<T>(count: set<T> -> int, s: set<T>, n: int)
    requires count({}) == 0
    requires forall t: set<T>, x :: x in t && t <= s ==> count(t) == count(t - {x}) + n
    ensures count(s) == |s| * n
    decreases s
  {
    if s != {} {
      var x :| x in s;
      var rest := s - {x};
      EvenShares(count, rest, n);
      OneMore(|rest|, |s|, n);
    }
  }

  lemma RowShare(m: Mesh, ready: set<IP>, rows: set<IP>, u: IP)
    requires Complete(m, ready) && rows <= ready && u in rows
    ensures |Entries(m, rows)| == |Entries(m, rows - {u})| + (|ready| - 1)
  {
    EntriesSplit(m, rows, u);
    CompleteRow(m, u, ready);
  }

  /** A complete mesh over n daemons holds n(n-1) peer entries. */
  lemma EntriesSize(m: Mesh, ready: set<IP>)
    requires Complete(m, ready)
    ensures |Entries(m, ready)| == |ready| * (|ready| - 1)
  {
    var count := rows => |Entries(m, rows)|;
    assert Entries(m, {}) == {};
    forall rows: set<IP>, u | u in rows && rows <= ready ensures count(rows) == count(rows - {u}) + (|ready| - 1) {
      RowShare(m, ready, rows, u);
    }
    EvenShares(count, ready, |ready| - 1);
  }

  /** What a clean pass leaves is a complete mesh of n(n-1) entries, own addresses aside. */
  lemma MeshedIsComplete(m: Mesh, ready: set<IP>)
    requires ready <= m.Keys
    ensures Complete(Meshed(m, ready), ready)
    ensures |Entries(Meshed(m, ready), ready)| == |ready| * (|ready| - 1)
  {
    var m' := Meshed(m, ready);
    forall u | u in ready ensures RowDebt(m', u, ready) == {} {
      assert m'[u] == (ready - {u}) + (m[u] * {u});
    }
    EntriesSize(m', ready);
  }
}
