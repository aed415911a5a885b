/**
  A concrete run from a blank cluster in which an address moves from one network to another while a
  pass of the first is under way. No request fails, nobody resets a daemon, and yet the second
  network is left with a broken mesh behind a closed gate.
 */
module MovedAddressRun {
  import opened Types
  import opened Names
  import opened PeerMesh
  import opened Machine
  import opened Safety
  import opened Housing
  import opened Interleave
  import opened Isolation
  import opened Status
  import opened GateKeeping
  import opened Converge
  import opened Finishing
  import opened CounterRuns
  import opened Leading

  const P := Ref("default", "p")
  const Q := Ref("default", "q")
  const X: IP := "10.0.0.1"
  const Y: IP := "10.0.0.2"
  const Z: IP := "10.0.0.3"
  const DAEMONS: Mesh := map[X := {}, Y := {}, Z := {}]

  function ReadyPod(name: string, ip: IP): Pod {
    Pod(name, [Condition("Ready", "True")], ip)
  }

  const WANTED := Net(1, false, Spec(2, ""), NilList)

  /** Two ready pods of r are seen at a and b. */
  ghost predicate PodsAt(w: World, r: Ref, a: IP, b: IP) {
    && PodRef(r, 0) in w.pods && w.pods[PodRef(r, 0)] == ReadyPod(PodRef(r, 0).name, a)
    && PodRef(r, 1) in w.pods && w.pods[PodRef(r, 1)] == ReadyPod(PodRef(r, 1).name, b)
  }

  lemma TwoSeen(w: World, r: Ref, a: IP, b: IP)
    requires PodsAt(w, r, a, b)
    ensures ReadyIPs(Observed(w.pods, r, 2)) == {a, b} && Observed(w.pods, r, 2) != NilList
  {
    var svc := SvcRef(r).name;
    var n0, n1 := NodeOf(w.pods[PodRef(r, 0)], 0, svc), NodeOf(w.pods[PodRef(r, 1)], 1, svc);
    assert Condition("Ready", "True") in w.pods[PodRef(r, 0)].conditions;
    assert Condition("Ready", "True") in w.pods[PodRef(r, 1)].conditions;
    assert ObservedUpTo(w.pods, r, 0) == NilList;
    assert ObservedUpTo(w.pods, r, 1) == Items([n0]);
    assert ObservedUpTo(w.pods, r, 2) == Items([n0, n1]);
    assert Items([n0, n1]).All() == [n0, n1];
  }

  lemma NetworkComes(ls: seq<Label>, w0: World, r: Ref) returns (all: seq<Label>, w: World)
    requires Leads(DAEMONS, ls, w0) && r.ns != "" && r !in w0.nets.stored && r !in w0.nets.rev
    requires UpToDate(w0.svcs, SvcRef(r)) && UpToDate(w0.stss, SetRef(r))
    ensures Leads(DAEMONS, all, w) && Fresh(w, r) && w.nets.stored[r] == WANTED
    ensures w == w0.(nets := w.nets) && forall x :: x != r ==> KindSameAt(w0.nets, w.nets, x)
  {
    var e1, e2 := UserPuts(r, WANTED.spec), ShowNet(r, Some(WANTED));
    var w1 := Happen(w0, e1);
    assert w1.nets.stored[r] == WANTED && (r, WANTED) in w1.nets.log;
    all := EventLeads(DAEMONS, ls, w0, e1);
    all := EventLeads(DAEMONS, all, w1, e2);
    w := Happen(w1, e2);
  }

  function WithPods(w: World, r: Ref, a: IP, b: IP): World {
    w.(pods := w.pods[PodRef(r, 0) := ReadyPod(PodRef(r, 0).name, a)][PodRef(r, 1) := ReadyPod(PodRef(r, 1).name, b)])
  }

  lemma PodsCome(ls: seq<Label>, w: World, r: Ref, a: IP, b: IP) returns (all: seq<Label>)
    requires Leads(DAEMONS, ls, w)
    ensures Leads(DAEMONS, all, WithPods(w, r, a, b)) && PodsAt(WithPods(w, r, a, b), r, a, b)
  {
    var e1 := ShowPod(PodRef(r, 0), Some(ReadyPod(PodRef(r, 0).name, a)));
    var e2 := ShowPod(PodRef(r, 1), Some(ReadyPod(PodRef(r, 1).name, b)));
    if PodRef(r, 0) == PodRef(r, 1) { PodRefInjective(r, 0, r, 1); }
    all := EventLeads(DAEMONS, ls, w, e1);
    all := EventLeads(DAEMONS, all, Happen(w, e1), e2);
    assert Happen(Happen(w, e1), e2) == WithPods(w, r, a, b);
  }

  const HOME: Home := ip => P

  /** Nothing of r exists yet. */
  ghost predicate Unheard(w: World, r: Ref) {
    && r !in w.nets.stored && r !in w.nets.rev && r !in w.procs
    && UpToDate(w.svcs, SvcRef(r)) && UpToDate(w.stss, SetRef(r))
  }

  lemma StaysUnheard(w: World, steps: seq<Label>)
    requires Unheard(w, Q) && Housed(HOME, w) && forall l :: l in steps ==> l.Does? && l.ref == P
    ensures Unheard(Run(true, w, steps), Q)
  {
    RunUntouched(HOME, true, w, steps, Q);
  }

  lemma OnlyPHoused(w: World, a: IP, b: IP)
    requires w.pods == map[][PodRef(P, 0) := ReadyPod(PodRef(P, 0).name, a)]
        [PodRef(P, 1) := ReadyPod(PodRef(P, 1).name, b)]
    requires w.procs == map[] && forall r :: r in w.nets.stored ==> w.nets.stored[r].status == NilList
    ensures Housed(HOME, w)
  {
    forall r ensures HousedAt(HOME, w, r) {
      forall i: nat | PodRef(r, i) in w.pods ensures r == P {
        if PodRef(r, i) == PodRef(P, 0) { PodRefInjective(r, i, P, 0); } else { PodRefInjective(r, i, P, 1); }
      }
      assert ReadyIPs(NilList) == {};
    }
  }

  /** P has come, with pods at X and Y. */
  lemma PComes() returns (ls: seq<Label>, w: World)
    ensures Leads(DAEMONS, ls, w) && Fresh(w, P) && w.nets.stored[P] == WANTED && PodsAt(w, P, X, Y)
    ensures w.mesh == DAEMONS && w.procs == map[] && Unheard(w, Q) && Housed(HOME, w)
  {
    var w0 := Blank(DAEMONS);
    assert Leads(DAEMONS, [], w0);
    var w1;
    ls, w1 := NetworkComes([], w0, P);
    ls := PodsCome(ls, w1, P, X, Y);
    w := WithPods(w1, P, X, Y);
    assert KindSameAt(w0.nets, w1.nets, Q);
    forall r | r in w.nets.stored ensures w.nets.stored[r].status == NilList {
      assert r == P || KindSameAt(w0.nets, w1.nets, r);
    }
    OnlyPHoused(w, X, Y);
  }

  /** The pass of P is open over X and Y. */
  lemma PassOpensAtP() returns (ls: seq<Label>, w: World)
    ensures Leads(DAEMONS, ls, w) && w.mesh == DAEMONS && w.procs == map[P := Syncing(NewPass({X, Y}))]
    ensures Unheard(w, Q)
  {
    var w2, steps;
    ls, w2 := PComes();
    TwoSeen(w2, P, X, Y);
    assert Y in RowDebt(DAEMONS, X, {X, Y});
    ls, w, steps := PassLeads(DAEMONS, ls, w2, P);
    StaysUnheard(w2, steps);
    assert w.procs == map[P := w.procs[P]] by { assert w.procs - {P} == map[]; }
  }

  /** P's pod at X goes, and Q comes with pods at X and Z. */
  lemma QComes() returns (ls: seq<Label>, w: World)
    ensures Leads(DAEMONS, ls, w) && w.procs == map[P := Syncing(NewPass({X, Y}))] && w.mesh == DAEMONS
    ensures Fresh(w, Q) && w.nets.stored[Q] == WANTED && PodsAt(w, Q, X, Z)
  {
    var w0, w1;
    ls, w0 := PassOpensAtP();
    ls := EventLeads(DAEMONS, ls, w0, ShowPod(PodRef(P, 0), None));
    w0 := Happen(w0, ShowPod(PodRef(P, 0), None));
    ls, w1 := NetworkComes(ls, w0, Q);
    ls := PodsCome(ls, w1, Q, X, Z);
    w := WithPods(w1, Q, X, Z);
  }

  /** Q's first reconcile is clean, and the caches catch up. */
  lemma AddressMoves() returns (ls: seq<Label>, w: World)
    ensures Leads(DAEMONS, ls, w) && w.procs == map[P := Syncing(NewPass({X, Y}))]
    ensures Stable(w, Q) && Listed(w, Q) == {X, Z}
    ensures Complete(w.mesh, {X, Z}) && w.mesh.Keys == {X, Y, Z}
  {
    var w2, w3;
    ls, w2 := QComes();
    TwoSeen(w2, Q, X, Z);
    ls, w3 := ReconcileLeads(DAEMONS, ls, w2, Q);
    FrameKeepsProcs(w2, w3, Q);
    ls := RefreshLeads(DAEMONS, ls, w3, Q);
    w := Refresh(w3, Q);
  }

  const CALLS := [Poll(X, Served), AddPeer(Y, Served), RemovePeer(Z, Served)]

  /** P's pass polls X and does what it takes to be Z's peer no more. */
  lemma PassDropsZ(m: Mesh)
    requires Complete(m, {X, Z}) && m.Keys == {X, Y, Z}
    ensures var (m', p) := Drive(m, NewPass({X, Y}), CALLS); X in m' && Z !in m'[X] && !p.Over()
  {
    CompleteRow(m, X, {X, Z});
    assert m[X] - {X} == {Z};
    var p1 := Move(m, NewPass({X, Y}), CALLS[0]);
    assert {X, Y} - (m[X] + {X}) == {Y} && (m[X] + {X}) - {X, Y} == {Z};
    assert p1 == Editing({X, Y}, {Y}, X, {Y}, {Z}, {}, {}, {}) by { assert {X, Y} - {X} == {Y}; }
    var p2 := Move(m, p1, CALLS[1]);
    assert p2.Editing? && p2.adds == {} && p2.removes == {Z} && p2.row == X;
    var m2 := Edited(m, Edit(m, p1, CALLS[1]));
    var p3 := Move(m2, p2, CALLS[2]);
    assert p3.todo == {Y};
    assert CALLS[1..][1..] == [CALLS[2]] && CALLS[1..][1..][1..] == [];
    assert Drive(m, NewPass({X, Y}), CALLS) == Drive(m, p1, CALLS[1..]);
    assert Drive(m, p1, CALLS[1..]) == Drive(m2, p2, CALLS[1..][1..]);
    assert Drive(m2, p2, CALLS[1..][1..]) == (Edited(m2, Edit(m2, p2, CALLS[2])), p3);
  }

  lemma SentCalm()
    ensures Calm(Sent(P, CALLS))
  {
    assert CALLS[1..][1..] == [CALLS[2]] && CALLS[1..][1..][1..] == [];
    assert Sent(P, CALLS[1..][1..]) == [Does(P, Call(CALLS[2]))];
    assert Sent(P, CALLS[1..]) == [Does(P, Call(CALLS[1])), Does(P, Call(CALLS[2]))];
    assert Sent(P, CALLS) == [Does(P, Call(CALLS[0])), Does(P, Call(CALLS[1])), Does(P, Call(CALLS[2]))];
  }

  /**
    The run. At its end Q is stable and its listed mesh is not complete; the next reconciles of Q, all
    of them skipped by the gate, leave it there.
   */
  lemma MovedAddressCounterRun() returns (ls: seq<Label>)
    ensures Calm(ls)
    ensures var w := Run(true, Blank(DAEMONS), ls);
      && Q !in w.procs && Stable(w, Q)
      && forall more: seq<Label> :: (forall l :: l in more ==> l.Does? && l.ref == Q) ==>
           Listed(Run(true, w, more), Q) == {X, Z} && !Complete(Run(true, w, more).mesh, {X, Z})
  {
    var ls0, w0 := AddressMoves();
    PassDropsZ(w0.mesh);
    SentCalm();
    LeadsOn(DAEMONS, ls0, w0, Sent(P, CALLS));
    PassInMachine(true, w0, P, NewPass({X, Y}), CALLS);
    ls := ls0 + Sent(P, CALLS);
    var w := Run(true, w0, Sent(P, CALLS));
    assert Q !in w.procs by { assert Q !in w.procs - {P}; }
    assert Z in RowDebt(w.mesh, X, {X, Z});
    forall more: seq<Label> | forall l :: l in more ==> l.Does? && l.ref == Q
      ensures Listed(Run(true, w, more), Q) == {X, Z} && !Complete(Run(true, w, more).mesh, {X, Z})
    {
      DebtStays(w, Q, more);
    }
  }
}
