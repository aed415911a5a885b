/** Whole doRecon calls: what can be said of one from its first step to its last. */
module Calls {
  import opened Types
  import opened Names
  import opened PeerMesh
  import opened Machine
  import opened Safety
  import opened GateKeeping
  import opened Converge

  // ---------------------------------------------------------------- logs

  /** Steps of the call for ref that do not open another call. */
  ghost predicate StepsOf(ls: seq<Label>, ref: Ref) {
    forall l :: l in ls ==> l.Does? && l.ref == ref && !l.act.Begin?
  }

  /** log continues log0 with steps of the call for ref. */
  ghost predicate Continues(log0: seq<Label>, log: seq<Label>, ref: Ref) {
    log0 <= log && StepsOf(log[|log0|..], ref)
  }

  lemma ContinuesOne(log0: seq<Label>, log: seq<Label>, ref: Ref, a: Act)
    requires Continues(log0, log, ref) && !a.Begin?
    ensures Continues(log0, log + [Does(ref, a)], ref)
  {
    assert (log + [Does(ref, a)])[|log0|..] == log[|log0|..] + [Does(ref, a)];
  }

  lemma ContinuesTrans(log0: seq<Label>, log1: seq<Label>, log2: seq<Label>, ref: Ref)
    requires Continues(log0, log1, ref) && Continues(log1, log2, ref)
    ensures Continues(log0, log2, ref)
  {
    assert log2[|log0|..] == log1[|log0|..] + log2[|log1|..];
  }

  /** The steps between two logs are those of one call, which opens with Begin(begin). */
  ghost predicate OneCall(log0: seq<Label>, begin: Fate, log: seq<Label>, ref: Ref) {
    Continues(log0 + [Does(ref, Begin(begin))], log, ref)
  }

  /** The log of a call splits into the run before it, its first step, and the rest. */
  lemma OneCallRuns(start: World, log0: seq<Label>, begin: Fate, log: seq<Label>, ref: Ref)
    requires OneCall(log0, begin, log, ref)
    ensures |log0| < |log| && log0 == log[..|log0|] && StepsOf(log[|log0| + 1..], ref)
    ensures Run(true, start, log) ==
              Run(true, Work(true, Run(true, start, log0), ref, Begin(begin)), log[|log0| + 1..])
  {
    var first := Does(ref, Begin(begin));
    assert log0 == (log0 + [first])[..|log0|];
    assert log == log0 + [first] + log[|log0| + 1..];
    RunConcat(true, start, log0 + [first], log[|log0| + 1..]);
    RunConcat(true, start, log0, [first]);
    RunOne(true, Run(true, start, log0), first);
  }

  lemma ContinuesFrame(start: World, log0: seq<Label>, log: seq<Label>, ref: Ref)
    requires Continues(log0, log, ref)
    ensures Frame(Run(true, start, log0), Run(true, start, log), ref)
  {
    assert log == log0 + log[|log0|..];
    RunConcat(true, start, log0, log[|log0|..]);
    RunFrame(true, Run(true, start, log0), log[|log0|..], ref);
  }

  // ---------------------------------------------------------------- before the status is written

  predicate Early(w: World, r: Ref) {
    r in w.procs && !w.procs[r].WriteStatus? && !w.procs[r].Syncing?
  }

  /** Until the pods are read, neither a status nor a daemon has been touched. */
  lemma {:induction false} EarlyUntouched(gated: bool, w0: World, r: Ref, ls: seq<Label>)
    requires Early(w0, r) && StepsOf(ls, r)
    ensures Early(Run(gated, w0, ls), r) ==>
              Run(gated, w0, ls).nets == w0.nets && Run(gated, w0, ls).mesh == w0.mesh
    decreases |ls|
  {
    if ls != [] {
      var front := ls[..|ls| - 1];
      assert forall l :: l in front ==> l in ls;
      EarlyUntouched(gated, w0, r, front);
      EarlyStep(gated, Run(gated, w0, front), r, ls[|ls| - 1].act);
    }
  }

  lemma EarlyStep(gated: bool, w: World, r: Ref, a: Act)
    requires !a.Begin?
    ensures var w' := Work(gated, w, r, a);
            Early(w', r) ==> Early(w, r) && w'.nets == w.nets && w'.mesh == w.mesh
  {
  }

  /** A call that is early now has been early all along, and could not have sent an RPC. */
  lemma {:induction false} EarlyAllAlong(gated: bool, w0: World, r: Ref, ls: seq<Label>, i: nat)
    requires StepsOf(ls, r) && Early(Run(gated, w0, ls), r) && i <= |ls|
    ensures Early(Run(gated, w0, ls[..i]), r)
    decreases |ls|
  {
    if i == |ls| {
      assert ls[..i] == ls;
    } else {
      var front := ls[..|ls| - 1];
      assert forall l :: l in front ==> l in ls;
      EarlyStep(gated, Run(gated, w0, front), r, ls[|ls| - 1].act);
      EarlyAllAlong(gated, w0, r, front, i);
      assert front[..i] == ls[..i];
    }
  }

  /** The cluster takes no RPC from the call for r at any point of the given steps. */
  ghost predicate NoRpc(gated: bool, w: World, r: Ref, ls: seq<Label>) {
    forall i, c :: 0 <= i <= |ls| ==> Decide(gated, Run(gated, w, ls[..i]), r, Call(c)) == None
  }

  lemma {:induction false} OverStaysOver(gated: bool, w: World, r: Ref, ls: seq<Label>)
    requires r !in w.procs && StepsOf(ls, r)
    ensures Run(gated, w, ls) == w
    decreases |ls|
  {
    if ls != [] {
      var front := ls[..|ls| - 1];
      assert forall l :: l in front ==> l in ls;
      OverStaysOver(gated, w, r, front);
    }
  }

  lemma EarlyNoRpc(gated: bool, w: World, r: Ref, ls: seq<Label>)
    requires StepsOf(ls, r) && Early(Run(gated, w, ls), r)
    ensures NoRpc(gated, w, r, ls)
  {
    forall i | 0 <= i <= |ls| ensures Early(Run(gated, w, ls[..i]), r) {
      EarlyAllAlong(gated, w, r, ls, i);
    }
  }

  lemma OverNoRpc(gated: bool, w: World, r: Ref, ls: seq<Label>)
    requires r !in w.procs && StepsOf(ls, r)
    ensures NoRpc(gated, w, r, ls)
  {
    forall i | 0 <= i <= |ls| ensures Run(gated, w, ls[..i]) == w {
      assert forall l :: l in ls[..i] ==> l in ls;
      OverStaysOver(gated, w, r, ls[..i]);
    }
  }

  /** Nothing was asked of the API server about the stateful set yet. */
  predicate BeforeSet(w: World, r: Ref) {
    r in w.procs && (w.procs[r].FindService? || w.procs[r].MakeService? || w.procs[r].FindSet?)
  }

  lemma BeforeSetDecides(gated: bool, w: World, r: Ref, a: Act)
    requires !a.Begin? && Decide(gated, w, r, a).Some?
    ensures var d := Decide(gated, w, r, a).value;
      d.next.Some? && (d.next.value.FindService? || d.next.value.MakeService? || d.next.value.FindSet?) ==>
        BeforeSet(w, r) && !d.next.value.FindService? && d.sts == None && d.asks == None
  {
  }

  lemma BeforeSetStep(gated: bool, w: World, r: Ref, a: Act)
    requires !a.Begin?
    ensures var w' := Work(gated, w, r, a);
      && (BeforeSet(w', r) ==> BeforeSet(w, r) && w'.stss == w.stss && w'.asked == w.asked)
      && (r in w'.procs && w'.procs[r].FindService? ==> w' == w)
  {
    if Decide(gated, w, r, a).Some? { BeforeSetDecides(gated, w, r, a); }
  }

  lemma {:induction false} BeforeSetUntouched(gated: bool, w0: World, r: Ref, ls: seq<Label>)
    requires r in w0.procs && w0.procs[r].FindService? && StepsOf(ls, r)
    ensures var w := Run(gated, w0, ls);
      && (BeforeSet(w, r) ==> w.stss == w0.stss && w.asked == w0.asked)
      && (r in w.procs && w.procs[r].FindService? ==> w == w0)
    decreases |ls|
  {
    if ls != [] {
      var front := ls[..|ls| - 1];
      assert forall l :: l in front ==> l in ls;
      BeforeSetUntouched(gated, w0, r, front);
      BeforeSetStep(gated, Run(gated, w0, front), r, ls[|ls| - 1].act);
    }
  }

  /**
    If the lister of services or of stateful sets fails, the reconcile ends there: no set is created or
    scaled, and if it was the lister of services nothing is created at all.
   */
  lemma ListerFailureEnds(gated: bool, w0: World, r: Ref, before: seq<Label>, fate: Fate)
    requires r !in w0.procs && StepsOf(before, r) && !fate.Served?
    requires var w := Run(gated, Work(gated, w0, r, Begin(Served)), before);
             r in w.procs && (w.procs[r].FindService? || w.procs[r].FindSet?)
    ensures var w1 := Work(gated, w0, r, Begin(Served));
            var w := Run(gated, w1, before);
            var w2 := Run(gated, w1, before + [Does(r, Step(fate))]);
            && r !in w2.procs && w2.stss == w0.stss && w2.asked == w0.asked
            && (w.procs[r].FindService? ==> w2 == w0)
  {
    var w1 := Work(gated, w0, r, Begin(Served));
    if r !in w1.procs {
      OverStaysOver(gated, w1, r, before);
    }
    BeforeSetUntouched(gated, w1, r, before);
    var w := Run(gated, w1, before);
    RunThen(gated, w1, before, Does(r, Step(fate)));
    assert w.procs[r].FindService? ==> w.procs - {r} == w0.procs;
  }

  /**
    If a lookup, of a child or of a pod, fails with anything but NotFound, the reconcile ends there:
    whatever the old status was and with or without the gate, it sends no RPC to anybody and leaves the
    stored status and every daemon alone.
   */
  lemma LookupFailureHarmless(gated: bool, w0: World, r: Ref, before: seq<Label>, fate: Fate, after: seq<Label>)
    requires r !in w0.procs && StepsOf(before, r) && StepsOf(after, r)
    requires var w := Run(gated, Work(gated, w0, r, Begin(Served)), before);
             && r in w.procs && !fate.Served?
             && (w.procs[r].FindService? || w.procs[r].FindSet? || w.procs[r].ReadPods?)
    ensures var w1 := Work(gated, w0, r, Begin(Served));
            var w := Run(gated, w1, before + [Does(r, Step(fate))] + after);
            && r !in w.procs && w.nets == w0.nets && w.mesh == w0.mesh
            && w == Run(gated, w1, before + [Does(r, Step(fate))])
    ensures var w1 := Work(gated, w0, r, Begin(Served));
            && NoRpc(gated, w1, r, before)
            && NoRpc(gated, Run(gated, w1, before + [Does(r, Step(fate))]), r, after)
  {
    var w1 := Work(gated, w0, r, Begin(Served));
    var w2 := Run(gated, w1, before);
    if !Early(w1, r) {
      OverStaysOver(gated, w1, r, before);
    }
    EarlyUntouched(gated, w1, r, before);
    var last := Does(r, Step(fate));
    assert ReadyIPs(NilList) == {};
    RunConcat(gated, w1, before, [last]);
    RunOne(gated, w2, last);
    var w3 := Next(gated, w2, last);
    RunConcat(gated, w1, before + [last], after);
    OverStaysOver(gated, w3, r, after);
    EarlyNoRpc(gated, w1, r, before);
    OverNoRpc(gated, w3, r, after);
  }

  // ---------------------------------------------------------------- from beginning to end

  /** What a fault-free reconcile needs in order to converge. */
  ghost predicate Ripe(w: World, r: Ref) {
    Sane(w) && Fresh(w, r) && Reachable(w, r) && MeshedOrOpen(w, r)
  }

  ghost predicate Converged(w0: World, w: World, r: Ref) {
    && r in w0.nets.stored && Finished(w0, w, r) && Around(w0, w, r)
    && (w0.nets.stored[r].spec.nodes >= 0 ==> Stable(Refresh(w, r), r))
  }

  lemma CallSound(start: World, log0: seq<Label>, begin: Fate, log: seq<Label>, r: Ref)
    requires OneCall(log0, begin, log, r)
    ensures var w0, w := Run(true, start, log0), Run(true, start, log);
            && Frame(w0, w, r)
            && (Sane(w0) ==> Sane(w))
  {
    OneCallRuns(start, log0, begin, log, r);
    var w0, rest := Run(true, start, log0), log[|log0| + 1..];
    var w1 := Work(true, w0, r, Begin(begin));
    WorkFrame(true, w0, r, Begin(begin));
    RunFrame(true, w1, rest, r);
    if Sane(w0) {
      NextSane(true, w0, Does(r, Begin(begin)));
      RunSane(true, w1, rest);
    }
  }

  lemma CallConverges(start: World, log0: seq<Label>, begin: Fate, log: seq<Label>, r: Ref)
    requires OneCall(log0, begin, log, r)
    requires ServedSince(|log0|, log)
    requires Ripe(Run(true, start, log0), r)
    requires r !in Run(true, start, log0).procs && r !in Run(true, start, log).procs
    ensures Converged(Run(true, start, log0), Run(true, start, log), r)
  {
    OneCallRuns(start, log0, begin, log, r);
    var rest := log[|log0| + 1..];
    assert log[|log0|] == Does(r, Begin(begin));
    forall l | l in rest ensures FateOf(l.act).Served? {
      var i :| 0 <= i < |rest| && rest[i] == l;
      assert log[|log0| + 1 + i] == l;
    }
    ReconcileConverges(Run(true, start, log0), r, rest);
  }

  lemma CallOutcome(start: World, log0: seq<Label>, begin: Fate, log: seq<Label>, r: Ref)
    requires OneCall(log0, begin, log, r)
    ensures var w0, w := Run(true, start, log0), Run(true, start, log);
            && Frame(w0, w, r)
            && (Sane(w0) ==> Sane(w))
            && (ServedSince(|log0|, log) && Ripe(w0, r) && r !in w0.procs && r !in w.procs ==> Converged(w0, w, r))
  {
    CallSound(start, log0, begin, log, r);
    if ServedSince(|log0|, log) && Ripe(Run(true, start, log0), r)
       && r !in Run(true, start, log0).procs && r !in Run(true, start, log).procs {
      CallConverges(start, log0, begin, log, r);
    }
  }
}
