/**
  Isolation between networks: what the calls for other networks do leaves a network alone, so that a
  worker that reconciles one network after the other brings all of them to where they should be.
 */
module Isolation {
  import opened Types
  import opened Names
  import opened PeerMesh
  import opened Machine
  import opened Safety
  import opened Housing
  import opened Interleave
  import opened Status
  import opened GateKeeping
  import opened Converge
  import opened Calls

  /** The network, its children, its call and its daemons are the same. */
  ghost predicate Untouched(home: Home, w: World, w': World, r: Ref) {
    && KindSameAt(w.nets, w'.nets, r)
    && KindSameAt(w.svcs, w'.svcs, SvcRef(r))
    && KindSameAt(w.stss, w'.stss, SetRef(r))
    && SameAt(w.procs, w'.procs, r)
    && w.pods == w'.pods
    && forall u :: home(u) == r ==> SameAt(w.mesh, w'.mesh, u)
  }

  lemma CommitUntouched(home: Home, w: World, other: Ref, d: Delta, r: Ref)
    requires other != r && (d.row.Put? ==> home(d.row.row) == other)
    ensures Untouched(home, w, Commit(w, other, d), r)
  {
    ChildRefsInjective(other, r);
  }

  lemma WorkUntouched(home: Home, gated: bool, w: World, other: Ref, a: Act, r: Ref)
    requires HousedAt(home, w, other) && other != r
    ensures Untouched(home, w, Work(gated, w, other, a), r)
  {
    var d := Decide(gated, w, other, a);
    if d.Some? {
      DecideHoused(home, gated, w, other, a);
      CommitUntouched(home, w, other, d.value, r);
    }
  }

  /** However many calls for other networks run, interleaved in whatever way and failing as they may. */
  lemma {:induction false} RunUntouched(home: Home, gated: bool, w: World, ls: seq<Label>, r: Ref)
    requires Housed(home, w)
    requires forall l :: l in ls ==> l.Does? && l.ref != r
    ensures Untouched(home, w, Run(gated, w, ls), r) && Housed(home, Run(gated, w, ls))
    decreases |ls|
  {
    if ls != [] {
      var front, l := ls[..|ls| - 1], ls[|ls| - 1];
      assert forall x :: x in front ==> x in ls;
      RunUntouched(home, gated, w, front, r);
      var w1 := Run(gated, w, front);
      assert HousedAt(home, w1, l.ref);
      WorkUntouched(home, gated, w1, l.ref, l.act, r);
      WorkHoused(home, gated, w1, l.ref, l.act);
    }
  }

  lemma {:induction false} ObservedHoused(home: Home, pods: map<Ref, Pod>, r: Ref, n: nat)
    requires PodsHoused(home, pods, r)
    ensures IPsHoused(home, ReadyIPs(ObservedUpTo(pods, r, n)), r)
  {
    if n > 0 {
      ObservedHoused(home, pods, r, n - 1);
      if PodRef(r, n - 1) in pods {
        ReadyAppended(ObservedUpTo(pods, r, n - 1), NodeOf(pods[PodRef(r, n - 1)], n - 1, SvcRef(r).name));
      }
    }
  }

  lemma SeenHoused(home: Home, w: World, r: Ref)
    requires HousedAt(home, w, r) && r in w.nets.stored
    ensures IPsHoused(home, ReadyIPs(Seen(w, r)), r)
  {
    var nodes := w.nets.stored[r].spec.nodes;
    ObservedHoused(home, w.pods, r, if nodes < 0 then 0 else nodes);
  }

  lemma RipeUntouched(home: Home, w: World, w': World, r: Ref)
    requires Ripe(w, r) && HousedAt(home, w, r) && Untouched(home, w, w', r) && Sane(w')
    ensures Ripe(w', r)
  {
    SeenHoused(home, w, r);
    assert Seen(w', r) == Seen(w, r) && Listed(w', r) == Listed(w, r);
    assert IPsHoused(home, Listed(w, r), r);
    forall u | u in Listed(w, r) ensures Row(w'.mesh, u) == Row(w.mesh, u) {
      assert home(u) == r;
    }
    forall u | u in ReadyIPs(Seen(w', r)) ensures u in w'.mesh {
      assert home(u) == r && SameAt(w.mesh, w'.mesh, u);
    }
  }

  lemma FinishedUntouched(home: Home, w0: World, w: World, w': World, r: Ref)
    requires r in w0.nets.stored && HousedAt(home, w0, r)
    requires Finished(w0, w, r) && Untouched(home, w, w', r)
    ensures Finished(w0, w', r)
  {
    SeenHoused(home, w0, r);
    forall u | u in ReadyIPs(Seen(w0, r)) ensures Row(w'.mesh, u) == Row(w.mesh, u) {
      assert home(u) == r;
    }
  }

  // ---------------------------------------------------------------- one worker, many networks

  /** log continues log0 with one complete call for each of the networks, in this order. */
  ghost predicate CallsFor(start: World, log0: seq<Label>, log: seq<Label>, refs: seq<Ref>)
    decreases |refs|
  {
    if refs == [] then log == log0
    else
      var r := refs[|refs| - 1];
      && r !in Run(true, start, log).procs
      && exists mid, begin ::
           CallsFor(start, log0, mid, refs[..|refs| - 1]) && OneCall(mid, begin, log, r)
  }

  lemma CallsForOneMore(start: World, log0: seq<Label>, mid: seq<Label>,
            begin: Fate, log: seq<Label>, refs: seq<Ref>, r: Ref)
    requires CallsFor(start, log0, mid, refs) && OneCall(mid, begin, log, r) && r !in Run(true, start, log).procs
    ensures CallsFor(start, log0, log, refs + [r])
  {
    assert (refs + [r])[..|refs|] == refs;
  }

  lemma CallUntouched(home: Home, start: World, log0: seq<Label>, begin: Fate, log: seq<Label>, r: Ref)
    requires OneCall(log0, begin, log, r) && Housed(home, Run(true, start, log0))
    ensures Housed(home, Run(true, start, log))
    ensures forall x :: x != r ==> Untouched(home, Run(true, start, log0), Run(true, start, log), x)
  {
    OneCallRuns(start, log0, begin, log, r);
    var w0, rest := Run(true, start, log0), log[|log0| + 1..];
    var w1 := Work(true, w0, r, Begin(begin));
    WorkHoused(home, true, w0, r, Begin(begin));
    assert HousedAt(home, w0, r);
    RunHoused(home, true, w1, rest);
    forall x | x != r ensures Untouched(home, w0, Run(true, w1, rest), x) {
      WorkUntouched(home, true, w0, r, Begin(begin), x);
      RunUntouched(home, true, w1, rest, x);
    }
  }

  /** What the calls for refs have achieved, starting from w0. */
  ghost predicate Brought(home: Home, w0: World, w: World, refs: seq<Ref>) {
    && Sane(w) && Housed(home, w) && w.procs == map[]
    && (forall r :: r in refs ==> r in w0.nets.stored && Finished(w0, w, r))
    && (forall r :: r !in refs ==> Untouched(home, w0, w, r))
  }

  /** The call for r converges although others came before it. */
  lemma OwnCall(home: Home, start: World, w0: World, mid: seq<Label>, begin: Fate, log: seq<Label>, r: Ref)
    requires Sane(Run(true, start, mid)) && Untouched(home, w0, Run(true, start, mid), r)
    requires HousedAt(home, w0, r) && Ripe(w0, r)
    requires OneCall(mid, begin, log, r) && ServedSince(|mid|, log)
    requires r !in Run(true, start, mid).procs && r !in Run(true, start, log).procs
    ensures Finished(w0, Run(true, start, log), r)
  {
    var w1 := Run(true, start, mid);
    RipeUntouched(home, w0, w1, r);
    CallConverges(start, mid, begin, log, r);
    assert Seen(w1, r) == Seen(w0, r);
  }

  /** What was achieved before stays. */
  lemma BroughtOneMore(home: Home, w0: World, w1: World, w: World, front: seq<Ref>, r: Ref)
    requires Brought(home, w0, w1, front) && Housed(home, w0)
    requires r !in front && r in w0.nets.stored && Finished(w0, w, r)
    requires Sane(w) && Housed(home, w) && w.procs == map[]
    requires forall x :: x != r ==> Untouched(home, w1, w, x)
    ensures Brought(home, w0, w, front + [r])
  {
    forall x | x in front ensures x in w0.nets.stored && Finished(w0, w, x) {
      assert HousedAt(home, w0, x);
      FinishedUntouched(home, w0, w1, w, x);
    }
    forall x | x !in front + [r] ensures Untouched(home, w0, w, x) {
      assert x !in front && x != r;
      UntouchedTrans(home, w0, w1, w, x);
    }
  }

  lemma OneMoreCall(home: Home, start: World, w0: World, front: seq<Ref>,
            mid: seq<Label>, begin: Fate, log: seq<Label>, r: Ref)
    requires Brought(home, w0, Run(true, start, mid), front) && r !in front
    requires OneCall(mid, begin, log, r) && ServedSince(|mid|, log) && r !in Run(true, start, log).procs
    requires Housed(home, w0) && Ripe(w0, r)
    ensures Brought(home, w0, Run(true, start, log), front + [r])
  {
    var w1, w := Run(true, start, mid), Run(true, start, log);
    assert HousedAt(home, w0, r);
    OwnCall(home, start, w0, mid, begin, log, r);
    CallSound(start, mid, begin, log, r);
    FrameKeepsProcs(w1, w, r);
    CallUntouched(home, start, mid, begin, log, r);
    BroughtOneMore(home, w0, w1, w, front, r);
  }

  lemma UntouchedTrans(home: Home, w0: World, w1: World, w2: World, r: Ref)
    requires Untouched(home, w0, w1, r) && Untouched(home, w1, w2, r)
    ensures Untouched(home, w0, w2, r)
  {
  }

  /**
    If no request fails, every network among them ends with its service, its stateful set scaled, its
    status as observed and its mesh complete; every other network is left alone.
   */
  lemma {:induction false} AllConverge(home: Home, start: World, log0: seq<Label>, log: seq<Label>, refs: seq<Ref>)
    requires CallsFor(start, log0, log, refs) && Distinct(refs) && ServedSince(|log0|, log)
    requires var w0 := Run(true, start, log0);
      Sane(w0) && Housed(home, w0) && w0.procs == map[] && forall r :: r in refs ==> Ripe(w0, r)
    ensures Brought(home, Run(true, start, log0), Run(true, start, log), refs)
    decreases |refs|
  {
    if refs == [] {
      NoCallYet(home, Run(true, start, log0));
    } else {
      var mid, begin := LastCall(start, log0, log, refs);
      var front := refs[..|refs| - 1];
      AllConverge(home, start, log0, mid, front);
      assert refs == front + [refs[|refs| - 1]];
      OneMoreCall(home, start, Run(true, start, log0), front, mid, begin, log, refs[|refs| - 1]);
    }
  }

  lemma NoCallYet(home: Home, w: World)
    requires Sane(w) && Housed(home, w) && w.procs == map[]
    ensures Brought(home, w, w, [])
  {
  }

  lemma LastCall(start: World, log0: seq<Label>, log: seq<Label>, refs: seq<Ref>) returns (mid: seq<Label>, begin: Fate)
    requires CallsFor(start, log0, log, refs) && refs != [] && ServedSince(|log0|, log)
    ensures var r := refs[|refs| - 1];
      && CallsFor(start, log0, mid, refs[..|refs| - 1]) && OneCall(mid, begin, log, r)
      && ServedSince(|log0|, mid) && ServedSince(|mid|, log) && r !in Run(true, start, log).procs
  {
    var r := refs[|refs| - 1];
    mid, begin :| CallsFor(start, log0, mid, refs[..|refs| - 1]) && OneCall(mid, begin, log, r);
    OneCallRuns(start, mid, begin, log, r);
    CallsForGrows(start, log0, mid, refs[..|refs| - 1]);
    forall i | |log0| <= i < |mid| && mid[i].Does? ensures FateOf(mid[i].act).Served? {
      assert mid[i] == log[i];
    }
  }

  lemma {:induction false} CallsForGrows(start: World, log0: seq<Label>, log: seq<Label>, refs: seq<Ref>)
    requires CallsFor(start, log0, log, refs)
    ensures |log0| <= |log|
    decreases |refs|
  {
    if refs != [] {
      var r, front := refs[|refs| - 1], refs[..|refs| - 1];
      var mid, begin :| CallsFor(start, log0, mid, front) && OneCall(mid, begin, log, r);
      OneCallRuns(start, mid, begin, log, r);
      CallsForGrows(start, log0, mid, front);
    }
  }
}
