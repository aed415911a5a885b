/**
  Workers reconcile different networks at the same time. However their API calls and RPCs are
  interleaved, the cluster ends as if the networks had been reconciled one after the other.
 */
module Interleave {
  import opened Types
  import opened Names
  import opened PeerMesh
  import opened Machine
  import opened Housing

  // ---------------------------------------------------------------- steps of two calls commute

  ghost predicate SameAt<K, V>(a: map<K, V>, b: map<K, V>, k: K) {
    (k in a <==> k in b) && (k in a ==> a[k] == b[k])
  }

  ghost predicate KindSameAt<T>(a: Kind<T>, b: Kind<T>, r: Ref) {
    SameAt(a.stored, b.stored, r) && SameAt(a.shown, b.shown, r) && SameAt(a.rev, b.rev, r)
  }

  /** The part of the cluster the call for r can see is the same. */
  ghost predicate LooksSame(w: World, w': World, r: Ref) {
    && KindSameAt(w.nets, w'.nets, r)
    && KindSameAt(w.svcs, w'.svcs, SvcRef(r))
    && KindSameAt(w.stss, w'.stss, SetRef(r))
    && SameAt(w.procs, w'.procs, r)
    && w.pods == w'.pods
    && (r in w.procs && w.procs[r].Syncing? ==>
          forall u :: u in w.procs[r].pass.ready ==> SameAt(w.mesh, w'.mesh, u))
  }

  lemma DecideSame(gated: bool, w: World, w': World, r: Ref, a: Act)
    requires LooksSame(w, w', r)
    requires r in w.procs && w.procs[r].Syncing? ==> WellFormed(w.procs[r].pass)
    ensures Decide(gated, w, r, a) == Decide(gated, w', r, a)
  {
    if r in w.procs && a.Call? && w.procs[r].Syncing? {
      MoveWellFormed(w.mesh, w.procs[r].pass, a.rpc);
    }
  }

  lemma CommitLooksSame(home: Home, w: World, r1: Ref, d: Delta, r2: Ref)
    requires r1 != r2 && HousedAt(home, w, r2) && (d.row.Put? ==> home(d.row.row) == r1)
    ensures LooksSame(w, Commit(w, r1, d), r2)
  {
    ChildRefsInjective(r1, r2);
  }

  lemma MapPutsCommute<K, V>(m: map<K, V>, a: K, x: V, b: K, y: V)
    requires a != b
    ensures m[a := x][b := y] == m[b := y][a := x]
  {
  }

  lemma PutsCommute<T>(k: Kind<T>, a: Ref, x: Option<T>, b: Ref, y: Option<T>)
    requires a != b
    ensures PutIf(PutIf(k, a, x), b, y) == PutIf(PutIf(k, b, y), a, x)
  {
    if x.Some? && y.Some? {
      MapPutsCommute(k.stored, a, x.value, b, y.value);
      MapPutsCommute(k.rev, a, NextRev(k, a), b, NextRev(k, b));
      assert (k.log + {(a, x.value)}) + {(b, y.value)} == (k.log + {(b, y.value)}) + {(a, x.value)};
    }
  }

  lemma EditsCommute(m: Mesh, e: RowEdit, f: RowEdit)
    requires e.Put? && f.Put? ==> e.row != f.row
    ensures Edited(Edited(m, e), f) == Edited(Edited(m, f), e)
  {
    if e.Put? && f.Put? {
      assert m[e.row := e.peers][f.row := f.peers] == m[f.row := f.peers][e.row := e.peers];
    }
  }

  function ProcsAfter(procs: map<Ref, Phase>, r: Ref, next: Option<Phase>): map<Ref, Phase> {
    if next.Some? then procs[r := next.value] else procs - {r}
  }

  lemma ProcsCommute(procs: map<Ref, Phase>, r1: Ref, p1: Option<Phase>, r2: Ref, p2: Option<Phase>)
    requires r1 != r2
    ensures ProcsAfter(ProcsAfter(procs, r1, p1), r2, p2) == ProcsAfter(ProcsAfter(procs, r2, p2), r1, p1)
  {
  }

  lemma CommitsCommute(w: World, r1: Ref, d1: Delta, r2: Ref, d2: Delta)
    requires r1 != r2 && (d1.row.Put? && d2.row.Put? ==> d1.row.row != d2.row.row)
    ensures Commit(Commit(w, r1, d1), r2, d2) == Commit(Commit(w, r2, d2), r1, d1)
  {
    ChildRefsInjective(r1, r2);
    PutsCommute(w.nets, r1, d1.net, r2, d2.net);
    PutsCommute(w.svcs, SvcRef(r1), d1.svc, SvcRef(r2), d2.svc);
    PutsCommute(w.stss, SetRef(r1), d1.sts, SetRef(r2), d2.sts);
    EditsCommute(w.mesh, d1.row, d2.row);
    ProcsCommute(w.procs, r1, d1.next, r2, d2.next);
    var x := Commit(Commit(w, r1, d1), r2, d2);
    var y := Commit(Commit(w, r2, d2), r1, d1);
    assert x.procs == ProcsAfter(ProcsAfter(w.procs, r1, d1.next), r2, d2.next);
    assert y.procs == ProcsAfter(ProcsAfter(w.procs, r2, d2.next), r1, d1.next);
    assert x.asked == y.asked;
  }

  lemma StepsCommute(home: Home, gated: bool, w: World, r1: Ref, a1: Act, r2: Ref, a2: Act)
    requires Housed(home, w) && r1 != r2
    ensures Work(gated, Work(gated, w, r1, a1), r2, a2) == Work(gated, Work(gated, w, r2, a2), r1, a1)
  {
    var o1, o2 := Decide(gated, w, r1, a1), Decide(gated, w, r2, a2);
    assert HousedAt(home, w, r1) && HousedAt(home, w, r2);
    if o1.Some? {
      DecideHoused(home, gated, w, r1, a1);
      CommitLooksSame(home, w, r1, o1.value, r2);
      DecideSame(gated, w, Commit(w, r1, o1.value), r2, a2);
    }
    if o2.Some? {
      DecideHoused(home, gated, w, r2, a2);
      CommitLooksSame(home, w, r2, o2.value, r1);
      DecideSame(gated, w, Commit(w, r2, o2.value), r1, a1);
    }
    if o1.Some? && o2.Some? {
      CommitsCommute(w, r1, o1.value, r2, o2.value);
    }
  }

  // ---------------------------------------------------------------- any interleaving can be sorted

  predicate CallsOnly(ls: seq<Label>) {
    forall l :: l in ls ==> l.Does?
  }

  function Only(ls: seq<Label>, r: Ref): seq<Label>
    requires CallsOnly(ls)
  {
    if ls == [] then []
    else Only(ls[..|ls| - 1], r) + (if ls[|ls| - 1].ref == r then [ls[|ls| - 1]] else [])
  }

  function Without(ls: seq<Label>, r: Ref): (rest: seq<Label>)
    requires CallsOnly(ls)
    ensures CallsOnly(rest)
    ensures forall l :: l in rest ==> l in ls && l.ref != r
  {
    if ls == [] then []
    else Without(ls[..|ls| - 1], r) + (if ls[|ls| - 1].ref == r then [] else [ls[|ls| - 1]])
  }

  lemma {:induction false} RunHoused(home: Home, gated: bool, w: World, ls: seq<Label>)
    requires Housed(home, w) && CallsOnly(ls)
    ensures Housed(home, Run(gated, w, ls))
    decreases |ls|
  {
    if ls != [] {
      var front, l := ls[..|ls| - 1], ls[|ls| - 1];
      RunHoused(home, gated, w, front);
      WorkHoused(home, gated, Run(gated, w, front), l.ref, l.act);
    }
  }

  /** A step can be taken before any steps of other calls instead of after them. */
  lemma {:induction false} StepMovesAhead(home: Home, gated: bool, w: World, others: seq<Label>, l: Label)
    requires Housed(home, w) && l.Does? && CallsOnly(others)
    requires forall o :: o in others ==> o.ref != l.ref
    ensures Next(gated, Run(gated, w, others), l) == Run(gated, Next(gated, w, l), others)
    decreases |others|
  {
    if others != [] {
      var front, o := others[..|others| - 1], others[|others| - 1];
      assert forall x :: x in front ==> x in others;
      var w1 := Run(gated, w, front);
      RunHoused(home, gated, w, front);
      StepsCommute(home, gated, w1, o.ref, o.act, l.ref, l.act);
      StepMovesAhead(home, gated, w, front, l);
    }
  }

  /** All steps of one call can be taken first. */
  lemma {:induction false} CallMovesAhead(home: Home, gated: bool, w: World, ls: seq<Label>, r: Ref)
    requires Housed(home, w) && CallsOnly(ls)
    ensures Run(gated, w, ls) == Run(gated, Run(gated, w, Only(ls, r)), Without(ls, r))
    decreases |ls|
  {
    if ls != [] {
      var front, l := ls[..|ls| - 1], ls[|ls| - 1];
      CallMovesAhead(home, gated, w, front, r);
      var mine, rest := Only(front, r), Without(front, r);
      var w1 := Run(gated, w, mine);
      if l.ref == r {
        assert Without(ls, r) == rest;
        assert CallsOnly(mine) by { OnlyIsCalls(front, r); }
        RunHoused(home, gated, w, mine);
        StepMovesAhead(home, gated, w1, rest, l);
        RunConcat(gated, w, mine, [l]);
        RunOne(gated, w1, l);
      } else {
        assert Only(ls, r) == mine;
        RunConcat(gated, w1, rest, [l]);
        RunOne(gated, Run(gated, w1, rest), l);
      }
    }
  }

  lemma {:induction false} OnlyIsCalls(ls: seq<Label>, r: Ref)
    requires CallsOnly(ls)
    ensures forall l :: l in Only(ls, r) ==> l in ls && l.Does? && l.ref == r
  {
    if ls != [] {
      OnlyIsCalls(ls[..|ls| - 1], r);
    }
  }

  /** The steps network by network, in the given order of networks. */
  function Sorted(ls: seq<Label>, order: seq<Ref>): seq<Label>
    requires CallsOnly(ls)
    decreases |order|
  {
    if order == [] then []
    else Only(ls, order[0]) + Sorted(Without(ls, order[0]), order[1..])
  }

  /** The places in ls of the steps of r, in order. */
  function Places(ls: seq<Label>, r: Ref): seq<nat>
    requires CallsOnly(ls)
  {
    if ls == [] then []
    else Places(ls[..|ls| - 1], r) + (if ls[|ls| - 1].ref == r then [|ls| - 1] else [])
  }

  /** Only(ls, r) holds exactly the steps of r, in the order in which they stand in ls. */
  lemma {:induction false} OnlyInOrder(ls: seq<Label>, r: Ref)
    requires CallsOnly(ls)
    ensures var at := Places(ls, r);
      && |Only(ls, r)| == |at|
      && (forall k :: 0 <= k < |at| ==> at[k] < |ls| && Only(ls, r)[k] == ls[at[k]] && ls[at[k]].ref == r)
      && (forall k, n :: 0 <= k < n < |at| ==> at[k] < at[n])
      && (forall i :: 0 <= i < |ls| && ls[i].ref == r ==> i in at)
  {
    if ls != [] {
      OnlyInOrder(ls[..|ls| - 1], r);
    }
  }

  lemma {:induction false} OnlyConcat(a: seq<Label>, b: seq<Label>, r: Ref)
    requires CallsOnly(a) && CallsOnly(b)
    ensures CallsOnly(a + b) && Only(a + b, r) == Only(a, r) + Only(b, r)
    decreases |b|
  {
    if b == [] {
      assert a + b == a;
    } else {
      var front := b[..|b| - 1];
      OnlyConcat(a, front, r);
      assert (a + b)[..|a + b| - 1] == a + front;
    }
  }

  lemma OnlySingle(l: Label, r: Ref)
    requires l.Does?
    ensures CallsOnly([l]) && Only([l], r) == if l.ref == r then [l] else []
  {
    assert [l][..0] == [];
  }

  lemma {:induction false} OnlyOfOnly(ls: seq<Label>, q: Ref, r: Ref)
    requires CallsOnly(ls)
    ensures CallsOnly(Only(ls, q)) && Only(Only(ls, q), r) == if q == r then Only(ls, r) else []
    decreases |ls|
  {
    OnlyIsCalls(ls, q);
    if ls != [] {
      var front, l := ls[..|ls| - 1], ls[|ls| - 1];
      OnlyIsCalls(front, q);
      OnlyOfOnly(front, q, r);
      if l.ref == q {
        OnlyConcat(Only(front, q), [l], r);
        OnlySingle(l, r);
      } else {
        assert Only(ls, q) == Only(front, q);
      }
    }
  }

  lemma {:induction false} OnlyOfWithout(ls: seq<Label>, q: Ref, r: Ref)
    requires CallsOnly(ls)
    ensures Only(Without(ls, q), r) == if q == r then [] else Only(ls, r)
    decreases |ls|
  {
    if ls != [] {
      var front, l := ls[..|ls| - 1], ls[|ls| - 1];
      OnlyOfWithout(front, q, r);
      if l.ref == q {
        assert Without(ls, q) == Without(front, q);
      } else {
        OnlyConcat(Without(front, q), [l], r);
        OnlySingle(l, r);
      }
    }
  }

  /** Sorted holds the same steps of every network, in the same order. */
  lemma {:induction false} SortedKeepsSteps(ls: seq<Label>, order: seq<Ref>, r: Ref)
    requires CallsOnly(ls) && r in order
    ensures CallsOnly(Sorted(ls, order)) && Only(Sorted(ls, order), r) == Only(ls, r)
    decreases |order|
  {
    var q, rest := order[0], Without(ls, order[0]);
    OnlyIsCalls(ls, q);
    OnlyOfOnly(ls, q, r);
    OnlyOfWithout(ls, q, r);
    SortedIsCalls(rest, order[1..]);
    OnlyConcat(Only(ls, q), Sorted(rest, order[1..]), r);
    if r in order[1..] {
      SortedKeepsSteps(rest, order[1..], r);
    } else {
      SortedHasOnly(rest, order[1..], r);
    }
  }

  lemma {:induction false} SortedIsCalls(ls: seq<Label>, order: seq<Ref>)
    requires CallsOnly(ls)
    ensures forall l :: l in Sorted(ls, order) ==> l in ls && l.Does? && l.ref in order
    decreases |order|
  {
    if order != [] {
      OnlyIsCalls(ls, order[0]);
      SortedIsCalls(Without(ls, order[0]), order[1..]);
    }
  }

  lemma {:induction false} OnlyOfNone(ls: seq<Label>, r: Ref)
    requires CallsOnly(ls) && forall l :: l in ls ==> l.ref != r
    ensures Only(ls, r) == []
  {
    if ls != [] {
      assert forall l :: l in ls[..|ls| - 1] ==> l in ls;
      assert ls[|ls| - 1] in ls;
      OnlyOfNone(ls[..|ls| - 1], r);
    }
  }

  lemma SortedHasOnly(ls: seq<Label>, order: seq<Ref>, r: Ref)
    requires CallsOnly(ls) && r !in order
    ensures CallsOnly(Sorted(ls, order)) && Only(Sorted(ls, order), r) == []
  {
    SortedIsCalls(ls, order);
    OnlyOfNone(Sorted(ls, order), r);
  }

  lemma BeyondFirst(first: seq<Label>, tail: seq<Label>, q: Ref, n: nat)
    requires forall l :: l in first ==> l.Does? && l.ref == q
    requires n < |first + tail| && (first + tail)[n].Does? && (first + tail)[n].ref != q
    ensures n >= |first| && (first + tail)[n] == tail[n - |first|]
  {
    assert forall k :: 0 <= k < |first| ==> (first + tail)[k] == first[k] && first[k] in first;
  }

  /** In Sorted the steps of a network that comes earlier in the order stand before those of a later one. */
  lemma {:induction false} SortedGroups(ls: seq<Label>, order: seq<Ref>, i: nat, j: nat, m: nat, n: nat)
    requires CallsOnly(ls) && i < j < |order| && Distinct(order)
    requires m < |Sorted(ls, order)| && n < |Sorted(ls, order)|
    requires Sorted(ls, order)[m].Does? && Sorted(ls, order)[m].ref == order[i]
    requires Sorted(ls, order)[n].Does? && Sorted(ls, order)[n].ref == order[j]
    ensures m < n
    decreases |order|
  {
    var q, first, tail := order[0], Only(ls, order[0]), Sorted(Without(ls, order[0]), order[1..]);
    OnlyIsCalls(ls, q);
    BeyondFirst(first, tail, q, n);
    if i > 0 {
      BeyondFirst(first, tail, q, m);
      SortedGroups(Without(ls, q), order[1..], i - 1, j - 1, m - |first|, n - |first|);
    } else {
      FirstOnlyFirst(ls, order, m);
    }
  }

  lemma FirstOnlyFirst(ls: seq<Label>, order: seq<Ref>, m: nat)
    requires CallsOnly(ls) && order != [] && Distinct(order) && m < |Sorted(ls, order)|
    requires Sorted(ls, order)[m].Does? && Sorted(ls, order)[m].ref == order[0]
    ensures m < |Only(ls, order[0])|
  {
    var first, tail := Only(ls, order[0]), Sorted(Without(ls, order[0]), order[1..]);
    SortedIsCalls(Without(ls, order[0]), order[1..]);
    assert forall k :: 0 <= k < |tail| ==> tail[k] in tail;
  }

  /**
    For every interleaving of the steps of any number of calls, with any failures, and for every
    order of the networks, reconciling the networks one after the other in that order ends in the same
    cluster: same objects, same daemons, same calls still open.
   */
  lemma {:induction false} InterleavingReduction(
      home: Home, gated: bool, w: World, ls: seq<Label>, order: seq<Ref>)
    requires Housed(home, w) && CallsOnly(ls)
    requires forall l :: l in ls ==> l.ref in order
    ensures Run(gated, w, ls) == Run(gated, w, Sorted(ls, order))
    decreases |order|
  {
    assert ls != [] ==> ls[0] in ls;
    if order == [] {
      assert ls == [];
    } else {
      var r := order[0];
      var mine, rest := Only(ls, r), Without(ls, r);
      CallMovesAhead(home, gated, w, ls, r);
      OnlyIsCalls(ls, r);
      RunHoused(home, gated, w, mine);
      assert forall l :: l in rest ==> l.ref in order[1..];
      InterleavingReduction(home, gated, Run(gated, w, mine), rest, order[1..]);
      RunConcat(gated, w, mine, Sorted(rest, order[1..]));
    }
  }
}
