/**
  The DeepEqual gate. When the observed nodes equal the stored ones, doRecon skips syncNodes. This is
  sound as long as, for every network, the daemons its stored status lists as ready form a complete
  mesh. This module says which steps keep that so, and which do not.
 */
module GateKeeping {
  import opened Types
  import opened Names
  import opened PeerMesh
  import opened Machine
  import opened Safety
  import opened Housing

  /** The ready daemons according to the stored status of r. */
  function Listed(w: World, r: Ref): set<IP> {
    if r in w.nets.stored then ReadyIPs(w.nets.stored[r].status) else {}
  }

  predicate InPass(w: World, r: Ref) {
    r in w.procs && w.procs[r].Syncing?
  }

  /** Apart from the rows still to do and the calls still to make, the mesh over ready is complete. */
  ghost predicate OnCourse(m: Mesh, p: Pass) {
    forall u :: u in p.ready && u !in p.todo ==> RowDebt(m, u, p.ready) == p.Pending(u)
  }

  /**
    Between calls the listed daemons form a complete mesh. While a pass runs, it is on its way there,
    or it works on other daemons altogether.
   */
  ghost predicate SettledAt(w: World, r: Ref) {
    if InPass(w, r) then
      var p := w.procs[r].pass;
      (p.ready == Listed(w, r) && OnCourse(w.mesh, p))
      || (p.ready !! Listed(w, r) && Complete(w.mesh, Listed(w, r)))
    else
      Complete(w.mesh, Listed(w, r))
  }

  ghost predicate Settled(w: World) {
    forall r :: SettledAt(w, r)
  }

  // ---------------------------------------------------------------- steps that do no harm

  /** A write that the server refuses matters only if a pass over a different, overlapping set follows. */
  predicate WriteHarmless(w: World, r: Ref, net: Net, found: NodeList, fate: Fate) {
    || Accepts(w, r, net, fate)
    || net.status == found
    || ReadyIPs(found) == {}
    || ReadyIPs(found) == Listed(w, r)
    || ReadyIPs(found) !! Listed(w, r)
  }

  /** An RPC that fails matters only if something was owed. */
  predicate RpcHarmless(m: Mesh, p: Pass, c: Rpc)
    requires Allowed(p, c)
  {
    if c.Poll? then (c.row in m && c.fate.Served?) || RowDebt(m, c.row, p.ready) == {}
    else Lands(m, p.row, c.fate)
  }

  /** A daemon may change its list if nobody lists it as ready, or its row is still to be polled. */
  ghost predicate DaemonHarmlessAt(w: World, ip: IP, peers: Option<set<IP>>, r: Ref) {
    ip in Listed(w, r) ==>
      || (InPass(w, r) && w.procs[r].pass.ready == Listed(w, r) && ip in w.procs[r].pass.todo)
      || RowDebt(MeshAfter(w.mesh, DaemonChanges(ip, peers)), ip, Listed(w, r))
         == RowDebt(w.mesh, ip, Listed(w, r))
  }

  ghost predicate DaemonHarmless(w: World, ip: IP, peers: Option<set<IP>>) {
    forall r :: DaemonHarmlessAt(w, ip, peers, r)
  }

  /** A step of the call for r keeps r itself settled. */
  ghost predicate OwnHarmless(w: World, r: Ref, a: Act) {
    Decide(true, w, r, a).Some? && !a.Begin? ==>
      && (w.procs[r].WriteStatus? ==>
            WriteHarmless(w, r, w.procs[r].net, w.procs[r].found, a.fate))
      && (w.procs[r].Syncing? && w.procs[r].pass.ready == Listed(w, r) ==>
            RpcHarmless(w.mesh, w.procs[r].pass, a.rpc))
  }

  /** What a step of the call for r writes to a daemon. */
  function RowWritten(w: World, r: Ref, a: Act): RowEdit {
    var d := Decide(true, w, r, a);
    if d.Some? then d.value.row else Keep
  }

  /** A step of the call for r leaves the mesh of another network as good as it was. */
  ghost predicate Spares(w: World, r: Ref, a: Act, other: Ref) {
    var e := RowWritten(w, r, a);
    e.Put? ==> DaemonHarmlessAt(w, e.row, Some(e.peers), other)
  }

  ghost predicate Harmless(w: World, l: Label) {
    match l
    case Does(r, a) => OwnHarmless(w, r, a) && forall other :: other != r ==> Spares(w, r, a, other)
    case Happens(e) => e.DaemonChanges? ==> DaemonHarmless(w, e.ip, e.peers)
  }

  // ---------------------------------------------------------------- one step

  ghost predicate SameRows(m: Mesh, m': Mesh, rows: set<IP>) {
    forall u :: u in rows ==> Row(m, u) == Row(m', u)
  }

  lemma SettledFrame(w: World, w': World, r: Ref)
    requires Listed(w', r) == Listed(w, r) && SameRows(w.mesh, w'.mesh, Listed(w, r))
    requires r in w.procs <==> r in w'.procs
    requires r in w.procs ==> w'.procs[r] == w.procs[r]
    requires InPass(w, r) ==> SameRows(w.mesh, w'.mesh, w.procs[r].pass.ready)
    ensures SettledAt(w, r) <==> SettledAt(w', r)
  {
  }

  /** Every pass in progress is well formed. */
  ghost predicate PassFormed(w: World, r: Ref) {
    InPass(w, r) ==> WellFormed(w.procs[r].pass)
  }

  ghost predicate PassesFormed(w: World) {
    forall r :: PassFormed(w, r)
  }

  /** Whatever the steps of one call do to another network they do by writing to its daemons. */
  lemma OthersExact(w: World, r: Ref, a: Act, other: Ref)
    requires SettledAt(w, other) && other != r
    ensures SettledAt(Work(true, w, r, a), other) <==> Spares(w, r, a, other)
  {
    var w', e := Work(true, w, r, a), RowWritten(w, r, a);
    if e.Put? {
      var w1 := Happen(w, DaemonChanges(e.row, Some(e.peers)));
      assert w1.mesh == w'.mesh;
      SettledFrame(w1, w', other);
      DaemonExactAt(w, e.row, Some(e.peers), other);
    } else {
      assert w.mesh == w'.mesh;
      SettledFrame(w, w', other);
    }
  }

  /** A poll keeps the pass on course exactly if it is answered or nothing was owed. */
  lemma PollOnCourse(m: Mesh, p: Pass, c: Rpc)
    requires WellFormed(p) && OnCourse(m, p) && Allowed(p, c) && c.Poll?
    ensures OnCourse(m, Move(m, p, c)) <==> RpcHarmless(m, p, c)
  {
    var q := Move(m, p, c);
    forall u | u in p.ready && u !in p.todo ensures q.Pending(u) == p.Pending(u) == {} {}
    if c.row in m && c.fate.Served? {
      assert q.Pending(c.row) == RowDebt(m, c.row, p.ready);
    } else {
      assert q.Pending(c.row) == {};
    }
  }

  lemma CallOnCourse(m: Mesh, p: Pass, c: Rpc)
    requires WellFormed(p) && OnCourse(m, p) && Allowed(p, c) && !c.Poll?
    ensures OnCourse(Edited(m, Edit(m, p, c)), Move(m, p, c)) <==> RpcHarmless(m, p, c)
  {
    var m', q := Edited(m, Edit(m, p, c)), Move(m, p, c);
    var u := p.row;
    assert c.peer in p.Pending(u) && p.Pending(u) == RowDebt(m, u, p.ready);
    assert q.Pending(u) == p.Pending(u) - {c.peer};
    forall v | v in p.ready && v !in p.todo && v != u
      ensures RowDebt(m', v, p.ready) == q.Pending(v) {
      assert q.Pending(v) == p.Pending(v) == {};
    }
    if Lands(m, u, c.fate) {
      assert RowDebt(m', u, p.ready) == RowDebt(m, u, p.ready) - {c.peer};
    } else {
      assert RowDebt(m', u, p.ready) == RowDebt(m, u, p.ready);
    }
  }

  lemma OverMeansComplete(m: Mesh, p: Pass)
    requires p.Over()
    ensures OnCourse(m, p) <==> Complete(m, p.ready)
  {
  }

  /** One RPC of a pass over the listed daemons. */
  lemma RpcExact(w: World, r: Ref, c: Rpc)
    requires PassFormed(w, r) && SettledAt(w, r) && InPass(w, r)
    requires Allowed(w.procs[r].pass, c)
    ensures SettledAt(Work(true, w, r, Call(c)), r) <==>
            (w.procs[r].pass.ready == Listed(w, r) ==> RpcHarmless(w.mesh, w.procs[r].pass, c))
  {
    var p := w.procs[r].pass;
    var m', q := Edited(w.mesh, Edit(w.mesh, p, c)), Move(w.mesh, p, c);
    MoveWellFormed(w.mesh, p, c);
    RpcWorks(true, w, r, p, c);
    if p.ready == Listed(w, r) {
      assert p.ready != {};
      assert OnCourse(w.mesh, p);
      if c.Poll? { PollOnCourse(w.mesh, p, c); } else { CallOnCourse(w.mesh, p, c); }
      if q.Over() { OverMeansComplete(m', q); }
    } else {
      assert SameRows(w.mesh, m', Listed(w, r));
    }
  }

  /** The status write, and the gate behind it. */
  lemma WriteExact(w: World, r: Ref, fate: Fate)
    requires Sane(w) && SettledAt(w, r) && r in w.procs && w.procs[r].WriteStatus?
    ensures SettledAt(Work(true, w, r, Step(fate)), r) <==>
            WriteHarmless(w, r, w.procs[r].net, w.procs[r].found, fate)
  {
    var net, found := w.procs[r].net, w.procs[r].found;
    var w' := Work(true, w, r, Step(fate));
    if Accepts(w, r, net, fate) {
      AcceptedIsCurrent(w, r, fate);
      assert Listed(w', r) == ReadyIPs(found);
    } else {
      assert Listed(w', r) == Listed(w, r);
    }
  }

  /** Lookups, the creation of objects and the update of the set do not touch the mesh or the status. */
  lemma QuietStep(w: World, r: Ref, a: Act)
    requires a.Step? && r in w.procs && !w.procs[r].WriteStatus? && !w.procs[r].Syncing?
    ensures var w' := Work(true, w, r, a); w'.nets == w.nets && w'.mesh == w.mesh && !InPass(w', r)
  {
    assert ReadyIPs(NilList) == {};
  }

  lemma OwnStepExact(w: World, r: Ref, a: Act)
    requires Sane(w) && PassFormed(w, r) && SettledAt(w, r)
    ensures SettledAt(Work(true, w, r, a), r) <==> OwnHarmless(w, r, a)
  {
    if Decide(true, w, r, a).Some? && !a.Begin? {
      if a.Call? {
        RpcExact(w, r, a.rpc);
      } else if w.procs[r].WriteStatus? {
        WriteExact(w, r, a.fate);
      } else {
        QuietStep(w, r, a);
      }
    }
  }

  lemma DaemonExactAt(w: World, ip: IP, peers: Option<set<IP>>, r: Ref)
    requires SettledAt(w, r)
    ensures SettledAt(Happen(w, DaemonChanges(ip, peers)), r) <==> DaemonHarmlessAt(w, ip, peers, r)
  {
    var w' := Happen(w, DaemonChanges(ip, peers));
    assert Listed(w', r) == Listed(w, r);
    assert forall u :: u != ip ==> Row(w'.mesh, u) == Row(w.mesh, u);
    if ip !in Listed(w, r) {
      assert SameRows(w.mesh, w'.mesh, Listed(w, r));
    }
  }

  lemma DaemonExact(w: World, ip: IP, peers: Option<set<IP>>)
    requires Settled(w)
    ensures Settled(Happen(w, DaemonChanges(ip, peers))) <==> DaemonHarmless(w, ip, peers)
  {
    forall r
      ensures SettledAt(Happen(w, DaemonChanges(ip, peers)), r) <==> DaemonHarmlessAt(w, ip, peers, r)
    {
      assert SettledAt(w, r);
      DaemonExactAt(w, ip, peers, r);
    }
  }

  /** Other events neither settle nor unsettle a network that is still there; one that is gone is settled. */
  lemma EventSettledAt(w: World, e: Event, r: Ref)
    requires !e.DaemonChanges?
    ensures SettledAt(Happen(w, e), r) <==> SettledAt(w, r) || r !in Happen(w, e).nets.stored
  {
    var w' := Happen(w, e);
    assert ReadyIPs(NilList) == {};
    assert Listed(w', r) == Listed(w, r) || (r !in w'.nets.stored && Listed(w', r) == {});
  }

  lemma EventSettled(w: World, e: Event)
    requires Settled(w) && !e.DaemonChanges?
    ensures Settled(Happen(w, e))
  {
    forall r ensures SettledAt(Happen(w, e), r) {
      assert SettledAt(w, r);
      EventSettledAt(w, e, r);
    }
  }

  /** From a settled cluster, a step leads to a settled cluster exactly if it is harmless. */
  lemma StepExact(w: World, l: Label)
    requires Sane(w) && PassesFormed(w) && Settled(w)
    ensures Settled(Next(true, w, l)) <==> Harmless(w, l)
  {
    match l
    case Happens(e) =>
      if e.DaemonChanges? { DaemonExact(w, e.ip, e.peers); } else { EventSettled(w, e); }
    case Does(r, a) =>
      assert PassFormed(w, r) && SettledAt(w, r);
      OwnStepExact(w, r, a);
      forall other | other != r ensures SettledAt(Next(true, w, l), other) <==> Spares(w, r, a, other) {
        assert SettledAt(w, other);
        OthersExact(w, r, a, other);
      }
  }

  // ---------------------------------------------------------------- whole runs

  lemma StepFormsPass(w: World, r: Ref, a: Act)
    requires PassFormed(w, r)
    ensures PassFormed(Work(true, w, r, a), r)
  {
    if a.Call? && InPass(w, r) {
      MoveWellFormed(w.mesh, w.procs[r].pass, a.rpc);
    }
  }

  lemma NextPassesFormed(w: World, l: Label)
    requires PassesFormed(w)
    ensures PassesFormed(Next(true, w, l))
  {
    forall r ensures PassFormed(Next(true, w, l), r) {
      assert PassFormed(w, r);
      if l.Does? && l.ref == r { StepFormsPass(w, r, l.act); }
    }
  }

  ghost predicate StepsKeep(w: World, ls: seq<Label>) {
    ls != [] ==>
      var front, l := ls[..|ls| - 1], ls[|ls| - 1];
      StepsKeep(w, front) && Harmless(Run(true, w, front), l)
  }

  /** After every harmless run the listed daemons of every idle network form a complete mesh. */
  lemma {:induction false} SettledRun(w: World, ls: seq<Label>)
    requires Sane(w) && PassesFormed(w) && Settled(w) && StepsKeep(w, ls)
    ensures var w' := Run(true, w, ls); Sane(w') && PassesFormed(w') && Settled(w')
    ensures forall r :: !InPass(Run(true, w, ls), r) ==>
              Complete(Run(true, w, ls).mesh, Listed(Run(true, w, ls), r))
    decreases |ls|
  {
    var w' := Run(true, w, ls);
    if ls != [] {
      var front, l := ls[..|ls| - 1], ls[|ls| - 1];
      SettledRun(w, front);
      var w1 := Run(true, w, front);
      NextSane(true, w1, l);
      NextPassesFormed(w1, l);
      StepExact(w1, l);
    }
    forall r | !InPass(w', r) ensures Complete(w'.mesh, Listed(w', r)) {
      assert SettledAt(w', r);
    }
  }

  // ---------------------------------------------------------------- the gate changes nothing

  /** The step at which doRecon skips syncNodes because the observed nodes equal the cached ones. */
  predicate Skips(w: World, l: Label) {
    && l.Does? && l.act.Step? && l.ref in w.procs && w.procs[l.ref].WriteStatus?
    && w.procs[l.ref].net.status == w.procs[l.ref].found
  }

  /** The skipped pass would have worked on the daemons the server lists, or on none. */
  predicate SkipFaithful(w: World, l: Label) {
    Skips(w, l) ==> ReadyIPs(w.procs[l.ref].found) in {{}, Listed(w, l.ref)}
  }

  lemma AcceptedSkipFaithful(w: World, l: Label)
    requires Sane(w) && Skips(w, l) && Accepts(w, l.ref, w.procs[l.ref].net, l.act.fate)
    ensures SkipFaithful(w, l)
  {
    AcceptedIsCurrent(w, l.ref, l.act.fate);
  }

  /** Had the gate not skipped, no add and no remove would have been requested. */
  lemma SkippedPassSilent(w: World, l: Label, calls: seq<Rpc>)
    requires Skips(w, l) && SettledAt(w, l.ref) && SkipFaithful(w, l)
    ensures var ready := ReadyIPs(w.procs[l.ref].found);
            && Requests(w.mesh, NewPass(ready), calls) == 0
            && Drive(w.mesh, NewPass(ready), calls).0 == w.mesh
  {
    SilentWhileComplete(w.mesh, NewPass(ReadyIPs(w.procs[l.ref].found)), calls);
  }

  /** One poll of every row still to do, in some order. */
  ghost function PollAll(r: Ref, todo: set<IP>): seq<Label>
    decreases todo
  {
    if todo == {} then []
    else
      var u :| u in todo;
      [Does(r, Call(Poll(u, Served)))] + PollAll(r, todo - {u})
  }

  lemma PollsOnly(w: World, r: Ref, u: IP)
    requires InPass(w, r) && w.procs[r].pass.Choosing? && u in w.procs[r].pass.todo
    requires u in w.procs[r].pass.ready && Complete(w.mesh, w.procs[r].pass.ready)
    ensures var p, p' := w.procs[r].pass, Move(w.mesh, w.procs[r].pass, Poll(u, Served));
      && p'.Choosing? && p'.ready == p.ready && p'.todo == p.todo - {u}
      && Work(false, w, r, Call(Poll(u, Served))) ==
           w.(procs := if p'.todo == {} then w.procs - {r} else w.procs[r := Syncing(p')])
  {
    var p := w.procs[r].pass;
    assert RowDebt(w.mesh, u, p.ready) == {};
    if u in w.mesh {
      assert p.ready - (w.mesh[u] + {u}) == {} && (w.mesh[u] + {u}) - p.ready == {};
    }
    RpcWorks(false, w, r, p, Poll(u, Served));
  }

  lemma {:induction false} PollAllIdle(w: World, r: Ref, todo: set<IP>)
    requires InPass(w, r) && w.procs[r].pass.Choosing? && w.procs[r].pass.todo == todo != {}
    requires todo <= w.procs[r].pass.ready && Complete(w.mesh, w.procs[r].pass.ready)
    ensures Run(false, w, PollAll(r, todo)) == w.(procs := w.procs - {r})
    decreases todo
  {
    var u :| u in todo && PollAll(r, todo) == [Does(r, Call(Poll(u, Served)))] + PollAll(r, todo - {u});
    var l := Does(r, Call(Poll(u, Served)));
    PollsOnly(w, r, u);
    var w1 := Next(false, w, l);
    RunOne(false, w, l);
    RunConcat(false, w, [l], PollAll(r, todo - {u}));
    if todo - {u} != {} {
      PollAllIdle(w1, r, todo - {u});
      assert w1.procs - {r} == w.procs - {r};
    }
  }

  /** The run of the controller without the gate: each skip is followed by a pass that only polls. */
  ghost function Ungated(w: World, ls: seq<Label>): seq<Label> {
    if ls == [] then []
    else
      var front, l := ls[..|ls| - 1], ls[|ls| - 1];
      var w1 := Run(true, w, front);
      Ungated(w, front) + [l] + (if Skips(w1, l) then PollAll(l.ref, ReadyIPs(w1.procs[l.ref].found)) else [])
  }

  /** Every skipped pass would have worked on a complete mesh of the daemons the server lists, or on none. */
  ghost predicate SkipsSettled(w: World, ls: seq<Label>) {
    ls != [] ==>
      var w1, l := Run(true, w, ls[..|ls| - 1]), ls[|ls| - 1];
      && SkipsSettled(w, ls[..|ls| - 1])
      && (Skips(w1, l) ==> SettledAt(w1, l.ref) && SkipFaithful(w1, l))
  }

  /** Away from a skip the gate makes no difference. */
  lemma SameUnlessSkipped(w: World, l: Label)
    requires !Skips(w, l)
    ensures Next(true, w, l) == Next(false, w, l)
  {
    assert ReadyIPs(NilList) == {};
  }

  lemma SkipThenPolls(w: World, l: Label)
    requires Skips(w, l) && SettledAt(w, l.ref) && SkipFaithful(w, l)
    ensures Run(false, Next(false, w, l), PollAll(l.ref, ReadyIPs(w.procs[l.ref].found))) == Next(true, w, l)
  {
    var r, ready := l.ref, ReadyIPs(w.procs[l.ref].found);
    var w1, w2 := Next(false, w, l), Next(true, w, l);
    if ready == {} {
      assert w1 == w2;
    } else {
      assert w1.procs == w.procs[r := Syncing(NewPass(ready))] && w1.mesh == w.mesh;
      PollAllIdle(w1, r, ready);
      assert w1.procs - {r} == w.procs - {r} == w2.procs;
      assert w1.(procs := w1.procs - {r}) == w2;
    }
  }

  /**
    A run of the gated controller whose skips are settled is matched by a run of the controller that
    always synchronises: same steps, plus passes that only poll, and the same cluster at the end.
   */
  lemma {:induction false} GatedRefinesUngated(w: World, ls: seq<Label>)
    requires SkipsSettled(w, ls)
    ensures Run(false, w, Ungated(w, ls)) == Run(true, w, ls)
    decreases |ls|
  {
    if ls != [] {
      var front, l := ls[..|ls| - 1], ls[|ls| - 1];
      GatedRefinesUngated(w, front);
      var w1 := Run(true, w, front);
      var polls := if Skips(w1, l) then PollAll(l.ref, ReadyIPs(w1.procs[l.ref].found)) else [];
      RunConcat(false, w, Ungated(w, front), [l]);
      RunOne(false, w1, l);
      RunConcat(false, w, Ungated(w, front) + [l], polls);
      if Skips(w1, l) { SkipThenPolls(w1, l); } else { SameUnlessSkipped(w1, l); }
    }
  }

  // ---------------------------------------------------------------- runs without faults

  /** An RPC of the call for r that is served by a daemon that is up; a status write that is taken. */
  predicate Fulfilled(w: World, r: Ref, a: Act) {
    && (a.Call? && InPass(w, r) && Allowed(w.procs[r].pass, a.rpc) ==>
          a.rpc.fate.Served? && Target(w.procs[r].pass, a.rpc) in w.mesh)
    && (a.Step? && r in w.procs && w.procs[r].WriteStatus? ==> Accepts(w, r, w.procs[r].net, a.fate))
  }

  /** The call for r sends an RPC to a daemon that another network lists as ready. */
  predicate Trespasses(w: World, r: Ref, a: Act, other: Ref) {
    && a.Call? && InPass(w, r) && Allowed(w.procs[r].pass, a.rpc)
    && Target(w.procs[r].pass, a.rpc) in Listed(w, other)
  }

  lemma SparesUnlessTrespassing(w: World, r: Ref, a: Act, other: Ref)
    requires !Trespasses(w, r, a, other)
    ensures Spares(w, r, a, other)
  {
  }

  /**
    No RPC fails, and none goes to a daemon that is down or that another network lists; no status
    write is refused; no daemon changes its list on its own while it is listed as ready.
   */
  ghost predicate Faultless(w: World, l: Label) {
    match l
    case Does(r, a) => Fulfilled(w, r, a) && forall other :: other != r ==> !Trespasses(w, r, a, other)
    case Happens(e) => e.DaemonChanges? ==> forall r :: e.ip !in Listed(w, r)
  }

  ghost predicate FaultFree(w: World, ls: seq<Label>) {
    ls != [] ==>
      var front, l := ls[..|ls| - 1], ls[|ls| - 1];
      FaultFree(w, front) && Faultless(Run(true, w, front), l)
  }

  lemma FulfilledHarmless(w: World, r: Ref, a: Act)
    requires Sane(w) && Fulfilled(w, r, a)
    ensures OwnHarmless(w, r, a) && SkipFaithful(w, Does(r, a))
  {
    if Skips(w, Does(r, a)) {
      AcceptedSkipFaithful(w, Does(r, a));
    }
  }

  lemma FaultlessHarmless(w: World, l: Label)
    requires Sane(w) && Faultless(w, l)
    ensures Harmless(w, l) && SkipFaithful(w, l)
  {
    if l.Does? {
      FulfilledHarmless(w, l.ref, l.act);
      forall other | other != l.ref ensures Spares(w, l.ref, l.act, other) {
        SparesUnlessTrespassing(w, l.ref, l.act, other);
      }
    }
  }

  lemma {:induction false} FaultFreeKeeps(w: World, ls: seq<Label>)
    requires Sane(w) && PassesFormed(w) && Settled(w) && FaultFree(w, ls)
    ensures StepsKeep(w, ls) && SkipsSettled(w, ls)
    decreases |ls|
  {
    if ls != [] {
      var front, l := ls[..|ls| - 1], ls[|ls| - 1];
      FaultFreeKeeps(w, front);
      SettledRun(w, front);
      var w1 := Run(true, w, front);
      FaultlessHarmless(w1, l);
      assert l.Does? ==> SettledAt(w1, l.ref);
    }
  }

  /**
    The gate is sound in every fault-free run from a blank cluster, with any number of networks and
    workers: the listed daemons of each network without a pass in progress form a complete mesh, and
    the controller that always synchronises, taking the same steps, ends in the same cluster.
   */
  lemma GateSound(mesh: Mesh, ls: seq<Label>)
    requires FaultFree(Blank(mesh), ls)
    ensures var w := Run(true, Blank(mesh), ls);
      && w == Run(false, Blank(mesh), Ungated(Blank(mesh), ls))
      && forall r :: !InPass(w, r) ==> Complete(w.mesh, Listed(w, r))
  {
    BlankSane(mesh);
    assert forall r :: PassFormed(Blank(mesh), r) && SettledAt(Blank(mesh), r);
    FaultFreeKeeps(Blank(mesh), ls);
    SettledRun(Blank(mesh), ls);
    GatedRefinesUngated(Blank(mesh), ls);
  }

  /** While the ready pods of different networks have different addresses, no call trespasses. */
  lemma HousedNeverTrespasses(home: Home, w: World, r: Ref, a: Act, other: Ref)
    requires Housed(home, w) && other != r
    ensures !Trespasses(w, r, a, other) && Spares(w, r, a, other)
  {
    assert HousedAt(home, w, r) && HousedAt(home, w, other);
    if a.Call? && InPass(w, r) && Allowed(w.procs[r].pass, a.rpc) {
      MoveWellFormed(w.mesh, w.procs[r].pass, a.rpc);
    }
    SparesUnlessTrespassing(w, r, a, other);
  }

  // ---------------------------------------------------------------- what an excluded step does

  /** A pass over a set that overlaps the listed one but differs from it ruins the listed mesh. */
  lemma OtherPassHarms(m: Mesh, ready: set<IP>, listed: set<IP>)
    requires Complete(m, ready) && ready * listed != {} && ready != listed
    ensures !Complete(m, listed)
  {
    var u :| u in ready && u in listed;
    assert RowDebt(m, u, ready) == {};
    var x :| x in (ready - listed) + (listed - ready);
    assert x !in RowDebt(m, u, ready);
    assert x in RowDebt(m, u, listed);
  }

  /** A pass over the listed daemons leaves them complete exactly if nothing it missed was owed. */
  lemma PassCompletes(m0: Mesh, m: Mesh, p: Pass)
    requires Ledger(m0, m, p) && p.Over()
    ensures Complete(m, p.ready) <==> p.failed == {} && Debt(m0, p.skipped, p.ready) == {}
  {
    LedgerCloses(m0, m, p);
    if Complete(m, p.ready) {
      assert Debt(m, p.ready, p.ready) == {};
    } else {
      var u :| u in p.ready && RowDebt(m, u, p.ready) != {};
      var x :| x in RowDebt(m, u, p.ready);
      assert Link(u, x) in Debt(m, p.ready, p.ready);
    }
  }
}
