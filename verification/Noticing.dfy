/**
  The gate when daemons lose their lists. A listed daemon may restart as long as that is noticed: the
  pods show something else than the stored status, so that the gate will open.
 */
module Noticing {
  import opened Types
  import opened Names
  import opened PeerMesh
  import opened Machine
  import opened Safety
  import opened Housing
  import opened Status
  import opened GateKeeping
  import opened Converge

  /** The pods show other nodes than the stored status of r. */
  ghost predicate Differs(w: World, r: Ref) {
    r in w.nets.stored && w.nets.stored[r].status != Seen(w, r)
  }

  /** The gate's invariant for r holds, or the gate will open. */
  ghost predicate NoticedAt(w: World, r: Ref) {
    SettledAt(w, r) || Differs(w, r)
  }

  /**
    A step that cannot leave r with a broken mesh behind a closed gate: while the status differs from
    the pods, the calls for r may fail, and its daemons and calls for other networks may do to its rows
    what they like, but the difference must not vanish unrepaired.
   */
  ghost predicate MildAt(w: World, l: Label, r: Ref) {
    match l
    case Does(q, a) => !Differs(w, r) ==> if q == r then OwnHarmless(w, r, a) else Spares(w, q, a, r)
    case Happens(e) =>
      if e.DaemonChanges? then
        !Differs(w, r) ==> DaemonHarmlessAt(w, e.ip, e.peers, r)
      else
        !SettledAt(w, r) && r in Happen(w, e).nets.stored ==> Differs(Happen(w, e), r)
  }

  // ---------------------------------------------------------------- one step

  lemma SameDifference(w: World, w': World, r: Ref)
    requires w'.pods == w.pods && (r in w.nets.stored <==> r in w'.nets.stored)
    requires r in w.nets.stored ==> w'.nets.stored[r] == w.nets.stored[r]
    ensures Differs(w', r) <==> Differs(w, r)
  {
  }

  lemma OthersKeepDifference(w: World, q: Ref, a: Act, r: Ref)
    requires q != r
    ensures Differs(Work(true, w, q, a), r) <==> Differs(w, r)
  {
    SameDifference(w, Work(true, w, q, a), r);
  }

  lemma NetsKept(w: World, r: Ref, a: Act)
    requires a.Step? && r in w.procs && w.procs[r].WriteStatus? ==> !Accepts(w, r, w.procs[r].net, a.fate)
    ensures Work(true, w, r, a).nets == w.nets
  {
    var d := Decide(true, w, r, a);
    assert d.Some? ==> d.value.net == None;
  }

  /** Only an accepted status write changes the difference. */
  lemma KeepsDifference(w: World, r: Ref, a: Act)
    requires a.Step? && r in w.procs && w.procs[r].WriteStatus? ==> !Accepts(w, r, w.procs[r].net, a.fate)
    ensures Differs(Work(true, w, r, a), r) <==> Differs(w, r)
  {
    NetsKept(w, r, a);
    WorkFrame(true, w, r, a);
    SameDifference(w, Work(true, w, r, a), r);
  }

  /** An accepted write opens a pass over what it stored, unless it stored what was there. */
  lemma AcceptedWriteSettles(w: World, r: Ref, a: Act)
    requires Sane(w) && a.Step? && r in w.procs && w.procs[r].WriteStatus?
    requires Accepts(w, r, w.procs[r].net, a.fate) && w.nets.stored[r].status != w.procs[r].found
    ensures SettledAt(Work(true, w, r, a), r)
  {
    AcceptedIsCurrent(w, r, a.fate);
    assert Listed(Work(true, w, r, a), r) == ReadyIPs(w.procs[r].found);
  }

  /** While the status differs from the pods, no step of the call for r goes unnoticed. */
  lemma DifferenceIsSafe(w: World, r: Ref, a: Act)
    requires Sane(w) && Differs(w, r)
    ensures NoticedAt(Work(true, w, r, a), r)
  {
    if a.Step? && r in w.procs && w.procs[r].WriteStatus? && Accepts(w, r, w.procs[r].net, a.fate) {
      if w.nets.stored[r].status != w.procs[r].found {
        AcceptedWriteSettles(w, r, a);
      } else {
        SameDifference(w, Work(true, w, r, a), r);
      }
    } else {
      KeepsDifference(w, r, a);
    }
  }

  lemma OwnStepMild(w: World, r: Ref, a: Act)
    requires Sane(w) && PassFormed(w, r) && NoticedAt(w, r)
    ensures NoticedAt(Work(true, w, r, a), r) <==> MildAt(w, Does(r, a), r)
  {
    if Differs(w, r) {
      DifferenceIsSafe(w, r, a);
    } else {
      OwnStepExact(w, r, a);
      if !OwnHarmless(w, r, a) {
        KeepsDifference(w, r, a);
      }
    }
  }

  /** A network that is settled or noticed stays so, step by step, exactly if the step is mild for it. */
  lemma MildExact(w: World, l: Label, r: Ref)
    requires Sane(w) && PassesFormed(w) && NoticedAt(w, r)
    ensures NoticedAt(Next(true, w, l), r) <==> MildAt(w, l, r)
  {
    match l
    case Does(q, a) =>
      if q == r {
        assert PassFormed(w, r);
        OwnStepMild(w, r, a);
      } else {
        OthersKeepDifference(w, q, a, r);
        if !Differs(w, r) { OthersExact(w, q, a, r); }
      }
    case Happens(e) =>
      if e.DaemonChanges? {
        SameDifference(w, Happen(w, e), r);
        if !Differs(w, r) { DaemonExactAt(w, e.ip, e.peers, r); }
      } else {
        EventSettledAt(w, e, r);
      }
  }

  // ---------------------------------------------------------------- whole runs

  ghost predicate MildFrom(w: World, ls: seq<Label>, k: nat, r: Ref) {
    forall i :: k <= i < |ls| ==> MildAt(Run(true, w, ls[..i]), ls[i], r)
  }

  lemma {:induction false} RunSafe(w: World, ls: seq<Label>)
    requires Sane(w) && PassesFormed(w)
    ensures Sane(Run(true, w, ls)) && PassesFormed(Run(true, w, ls))
    decreases |ls|
  {
    if ls != [] {
      var front, l := ls[..|ls| - 1], ls[|ls| - 1];
      RunSafe(w, front);
      NextSane(true, Run(true, w, front), l);
      NextPassesFormed(Run(true, w, front), l);
    }
  }

  /**
    Whatever happened to r before the k-th step, a reset that nobody saw included: if then the pods
    show other nodes than the status, and all later steps are mild, r is settled or noticed.
   */
  lemma {:induction false} NoticedSince(w: World, ls: seq<Label>, k: nat, r: Ref)
    requires Sane(w) && PassesFormed(w) && k <= |ls|
    requires NoticedAt(Run(true, w, ls[..k]), r) && MildFrom(w, ls, k, r)
    ensures NoticedAt(Run(true, w, ls), r)
    decreases |ls|
  {
    if k == |ls| {
      assert ls[..k] == ls;
    } else {
      var front, l := ls[..|ls| - 1], ls[|ls| - 1];
      assert front[..k] == ls[..k];
      forall i | k <= i < |front| ensures MildAt(Run(true, w, front[..i]), front[i], r) {
        assert front[..i] == ls[..i];
      }
      NoticedSince(w, front, k, r);
      RunSafe(w, front);
      MildExact(Run(true, w, front), l, r);
    }
  }

  /** From some step on, at which the status differed from the pods or the run began, all steps are mild for r. */
  ghost predicate Recovers(w: World, ls: seq<Label>, r: Ref) {
    exists k :: 0 <= k <= |ls| && MildFrom(w, ls, k, r) && (k > 0 ==> Differs(Run(true, w, ls[..k]), r))
  }

  lemma BlankIsFine(mesh: Mesh)
    ensures Sane(Blank(mesh)) && PassesFormed(Blank(mesh)) && forall r :: NoticedAt(Blank(mesh), r)
  {
    BlankSane(mesh);
    assert forall x :: PassFormed(Blank(mesh), x);
    assert forall x :: SettledAt(Blank(mesh), x);
  }

  /**
    In every run from a blank cluster, with any failures, any daemon resets and addresses moving between
    networks: a network for which the steps are mild since its status last differed from its pods, and
    which has no pass in progress, has a complete mesh of listed daemons, or its status differs still and
    the gate will open.
   */
  lemma GateSoundIfNoticed(mesh: Mesh, ls: seq<Label>, r: Ref)
    requires Recovers(Blank(mesh), ls, r)
    ensures var w := Run(true, Blank(mesh), ls);
      NoticedAt(w, r) && (!InPass(w, r) ==> Complete(w.mesh, Listed(w, r)) || Differs(w, r))
  {
    BlankIsFine(mesh);
    var w := Blank(mesh);
    var k :| 0 <= k <= |ls| && MildFrom(w, ls, k, r) && (k > 0 ==> Differs(Run(true, w, ls[..k]), r));
    assert k == 0 ==> NoticedAt(Run(true, w, ls[..k]), r);
    NoticedSince(w, ls, k, r);
  }

  /** A skip behind which nothing differs is silent: the pass would have made no add and no remove call. */
  lemma FreshSkipSilent(w: World, l: Label, calls: seq<Rpc>)
    requires Skips(w, l) && SkipFaithful(w, l) && NoticedAt(w, l.ref) && !Differs(w, l.ref)
    ensures var ready := ReadyIPs(w.procs[l.ref].found);
            && Requests(w.mesh, NewPass(ready), calls) == 0
            && Drive(w.mesh, NewPass(ready), calls).0 == w.mesh
  {
    SkippedPassSilent(w, l, calls);
  }

  // ---------------------------------------------------------------- fault-free runs with resets

  /**
    No RPC fails and no status write is refused. An RPC for one network goes to a daemon that another
    network lists, and a listed daemon loses its list, only while the status of the network that lists
    it differs from its pods, as it does when its pod shows as not ready or gone.
   */
  ghost predicate Undisturbed(w: World, l: Label) {
    match l
    case Does(q, a) => Fulfilled(w, q, a) && forall r :: r != q && Trespasses(w, q, a, r) ==> Differs(w, r)
    case Happens(e) => e.DaemonChanges? ==> forall r :: e.ip in Listed(w, r) ==> Differs(w, r)
  }

  /** The difference goes away only by a reconcile, unless the mesh is complete. */
  ghost predicate Tolerable(w: World, l: Label) {
    Undisturbed(w, l) && (l.Happens? && !l.event.DaemonChanges? ==> forall r :: MildAt(w, l, r))
  }

  lemma UndisturbedIsMild(w: World, l: Label, r: Ref)
    requires Sane(w) && Undisturbed(w, l) && (l.Does? || l.event.DaemonChanges?)
    ensures MildAt(w, l, r) && SkipFaithful(w, l)
  {
    if l.Does? {
      FulfilledHarmless(w, l.ref, l.act);
      if l.ref != r && !Trespasses(w, l.ref, l.act, r) { SparesUnlessTrespassing(w, l.ref, l.act, r); }
    }
  }

  lemma TolerableIsMild(w: World, l: Label, r: Ref)
    requires Sane(w) && Tolerable(w, l)
    ensures MildAt(w, l, r) && SkipFaithful(w, l)
  {
    if l.Does? || l.event.DaemonChanges? { UndisturbedIsMild(w, l, r); }
  }

  ghost predicate TolerableRun(w: World, ls: seq<Label>) {
    forall i :: 0 <= i < |ls| ==> Tolerable(Run(true, w, ls[..i]), ls[i])
  }

  /** A reconcile skips only after it has read the pods as they are. */
  ghost predicate FreshSkips(w: World, ls: seq<Label>) {
    forall i :: 0 <= i < |ls| && Skips(Run(true, w, ls[..i]), ls[i]) ==> !Differs(Run(true, w, ls[..i]), ls[i].ref)
  }

  lemma {:induction false} TolerableRunNoticed(w: World, ls: seq<Label>, r: Ref)
    requires Sane(w) && PassesFormed(w) && NoticedAt(w, r) && TolerableRun(w, ls)
    ensures NoticedAt(Run(true, w, ls), r)
  {
    forall i | 0 <= i < |ls| ensures MildAt(Run(true, w, ls[..i]), ls[i], r) {
      RunSafe(w, ls[..i]);
      TolerableIsMild(Run(true, w, ls[..i]), ls[i], r);
    }
    NoticedSince(w, ls, 0, r);
  }

  lemma {:induction false} TolerableSkipsSettled(w: World, ls: seq<Label>)
    requires Sane(w) && PassesFormed(w) && (forall r :: NoticedAt(w, r))
    requires TolerableRun(w, ls) && FreshSkips(w, ls)
    ensures SkipsSettled(w, ls)
    decreases |ls|
  {
    if ls != [] {
      var front, l := ls[..|ls| - 1], ls[|ls| - 1];
      forall i | 0 <= i < |front| ensures front[..i] == ls[..i] && front[i] == ls[i] {}
      assert TolerableRun(w, front) && FreshSkips(w, front);
      TolerableSkipsSettled(w, front);
      RunSafe(w, front);
      var w1 := Run(true, w, front);
      if Skips(w1, l) {
        TolerableRunNoticed(w, front, l.ref);
        TolerableIsMild(w1, l, l.ref);
      }
    }
  }

  /**
    The gate is sound in every run from a blank cluster in which no RPC fails, no status write is
    refused, and neither a daemon's reset nor another network's RPC is silent: each network without a
    pass in progress has a complete mesh of listed daemons or a status that differs from its pods.
   */
  lemma GateSoundWithResets(mesh: Mesh, ls: seq<Label>, r: Ref)
    requires TolerableRun(Blank(mesh), ls)
    ensures var w := Run(true, Blank(mesh), ls);
      !InPass(w, r) ==> Complete(w.mesh, Listed(w, r)) || Differs(w, r)
  {
    BlankIsFine(mesh);
    TolerableRunNoticed(Blank(mesh), ls, r);
  }

  /** If in such a run skips read fresh pods, the controller that always synchronises ends in the same cluster. */
  lemma ResetsRefineUngated(mesh: Mesh, ls: seq<Label>)
    requires TolerableRun(Blank(mesh), ls) && FreshSkips(Blank(mesh), ls)
    ensures Run(true, Blank(mesh), ls) == Run(false, Blank(mesh), Ungated(Blank(mesh), ls))
  {
    BlankIsFine(mesh);
    TolerableSkipsSettled(Blank(mesh), ls);
    GatedRefinesUngated(Blank(mesh), ls);
  }

  // ---------------------------------------------------------------- in terms of pods and status only

  /** No event makes a status that differs from the pods agree with them again. */
  ghost predicate NeverForgets(w: World, l: Label) {
    && Undisturbed(w, l)
    && (l.Happens? && !l.event.DaemonChanges? ==>
          forall r :: Differs(w, r) && r in Happen(w, l.event).nets.stored ==> Differs(Happen(w, l.event), r))
  }

  ghost predicate NeverForgetting(w: World, ls: seq<Label>) {
    forall i :: 0 <= i < |ls| ==> NeverForgets(Run(true, w, ls[..i]), ls[i])
  }

  lemma {:induction false} NeverForgettingNoticed(w: World, ls: seq<Label>, r: Ref)
    requires Sane(w) && PassesFormed(w) && NoticedAt(w, r) && NeverForgetting(w, ls)
    ensures NoticedAt(Run(true, w, ls), r)
    decreases |ls|
  {
    if ls != [] {
      var front, l := ls[..|ls| - 1], ls[|ls| - 1];
      forall i | 0 <= i < |front| ensures front[..i] == ls[..i] && front[i] == ls[i] {}
      assert NeverForgetting(w, front);
      NeverForgettingNoticed(w, front, r);
      RunSafe(w, front);
      var w1 := Run(true, w, front);
      if l.Does? || l.event.DaemonChanges? { UndisturbedIsMild(w1, l, r); }
      MildExact(w1, l, r);
    }
  }

  /** The same, with a hypothesis that speaks of requests, pods and statuses only. */
  lemma GateSoundByPods(mesh: Mesh, ls: seq<Label>, r: Ref)
    requires NeverForgetting(Blank(mesh), ls)
    ensures var w := Run(true, Blank(mesh), ls);
      !InPass(w, r) ==> Complete(w.mesh, Listed(w, r)) || Differs(w, r)
  {
    BlankIsFine(mesh);
    NeverForgettingNoticed(Blank(mesh), ls, r);
  }

  // ---------------------------------------------------------------- addresses that stay

  ghost predicate AllHoused(home: Home, ls: seq<Label>) {
    forall l :: l in ls && l.Happens? ==> EventHoused(home, l.event)
  }

  lemma {:induction false} RunStaysHoused(home: Home, w: World, ls: seq<Label>)
    requires Housed(home, w) && AllHoused(home, ls)
    ensures Housed(home, Run(true, w, ls))
    decreases |ls|
  {
    if ls != [] {
      var front, l := ls[..|ls| - 1], ls[|ls| - 1];
      assert forall x :: x in front ==> x in ls;
      RunStaysHoused(home, w, front);
      var w1 := Run(true, w, front);
      if l.Happens? { HappenHoused(home, w1, l.event); } else { WorkHoused(home, true, w1, l.ref, l.act); }
    }
  }

  /** If no address ever moves between networks, nobody needs to look out for the RPCs of other networks. */
  lemma HousedRunUntrespassed(home: Home, mesh: Mesh, ls: seq<Label>, i: nat, r: Ref)
    requires AllHoused(home, ls) && i < |ls| && ls[i].Does? && ls[i].ref != r
    ensures !Trespasses(Run(true, Blank(mesh), ls[..i]), ls[i].ref, ls[i].act, r)
  {
    assert forall x :: HousedAt(home, Blank(mesh), x);
    assert forall l :: l in ls[..i] ==> l in ls;
    RunStaysHoused(home, Blank(mesh), ls[..i]);
    HousedNeverTrespasses(home, Run(true, Blank(mesh), ls[..i]), ls[i].ref, ls[i].act, r);
  }

  /** The same for runs in which addresses stay; nothing is asked of the RPCs but that they are served. */
  lemma GateSoundHoused(home: Home, mesh: Mesh, ls: seq<Label>, r: Ref)
    requires AllHoused(home, ls)
    requires forall i :: 0 <= i < |ls| ==>
      if ls[i].Does? then Fulfilled(Run(true, Blank(mesh), ls[..i]), ls[i].ref, ls[i].act)
      else Tolerable(Run(true, Blank(mesh), ls[..i]), ls[i])
    ensures var w := Run(true, Blank(mesh), ls);
      !InPass(w, r) ==> Complete(w.mesh, Listed(w, r)) || Differs(w, r)
  {
    forall i | 0 <= i < |ls| ensures Tolerable(Run(true, Blank(mesh), ls[..i]), ls[i]) {
      if ls[i].Does? {
        forall x | x != ls[i].ref ensures !Trespasses(Run(true, Blank(mesh), ls[..i]), ls[i].ref, ls[i].act, x) {
          HousedRunUntrespassed(home, mesh, ls, i, x);
        }
      }
    }
    GateSoundWithResets(mesh, ls, r);
  }

  /** What is settled or noticed, the next fault-free reconcile with fresh caches completes. */
  lemma NextReconcileCompletes(w: World, r: Ref, ls: seq<Label>)
    requires Sane(w) && Fresh(w, r) && Reachable(w, r) && r !in w.procs && NoticedAt(w, r)
    requires forall l :: l in ls ==> Smooth(l, r)
    requires r !in Run(true, Work(true, w, r, Begin(Served)), ls).procs
    ensures Finished(w, Run(true, Work(true, w, r, Begin(Served)), ls), r)
  {
    SettledIsMeshedOrOpen(w, r);
    ReconcileConverges(w, r, ls);
  }
}
