/**
  The queue, its workers and the cluster in one machine: a worker takes a key, makes the steps of one
  doRecon call for the network of that key, and only then releases it.
 */
module Together {
  import opened Types
  import opened Names
  import opened PeerMesh
  import opened Machine
  import opened WorkQueue

  /** begun: the workers that have opened the call for the key they hold. */
  datatype Shop = Shop(w: World, f: Floor, begun: set<Worker>)

  datatype Deed =
    | Adds(ref: Ref)                       // an event handler enqueues a network
    | Gets(worker: Worker)
    | Works(worker: Worker, act: Act)
    | Returns(worker: Worker)              // doRecon returns, and Done is called if it returned true
    | Occurs(event: Event)

  /** The network whose reconcile a worker is at. */
  function TaskOf(f: Floor, v: Worker): Option<Ref> {
    if v in f.held then SplitKey(f.held[v]) else None
  }

  /** A call opens once per key, and the worker returns when it is over. */
  predicate MayWork(s: Shop, v: Worker, a: Act) {
    TaskOf(s.f, v).Some? && (a.Begin? <==> v !in s.begun)
  }

  predicate MayReturn(s: Shop, v: Worker) {
    TaskOf(s.f, v).Some? ==> v in s.begun && TaskOf(s.f, v).value !in s.w.procs
  }

  function Labels(s: Shop, d: Deed): seq<Label> {
    match d
    case Works(v, a) => if MayWork(s, v, a) then [Does(TaskOf(s.f, v).value, a)] else []
    case Occurs(e) => [Happens(e)]
    case _ => []
  }

  function Turns(s: Shop, d: Deed): seq<Turn> {
    match d
    case Adds(r) => [Enqueue(MetaKey(r))]
    case Gets(v) => [Take(v)]
    case Returns(v) => if MayReturn(s, v) then [Finish(v)] else []
    case _ => []
  }

  function After(s: Shop, d: Deed): Shop {
    Shop(Run(true, s.w, Labels(s, d)), Played(s.f, Turns(s, d)),
         match d
         case Works(v, a) => if MayWork(s, v, a) then s.begun + {v} else s.begun
         case Returns(v) => if MayReturn(s, v) then s.begun - {v} else s.begun
         case _ => s.begun)
  }

  function Story(s: Shop, ds: seq<Deed>): Shop {
    if ds == [] then s else After(Story(s, ds[..|ds| - 1]), ds[|ds| - 1])
  }

  // ---------------------------------------------------------------- one call for each network

  predicate PlainKey(key: string) {
    SplitKey(key).Some? && Plain(SplitKey(key).value) && MetaKey(SplitKey(key).value) == key
  }

  ghost predicate PlainFloor(f: Floor) {
    && (forall key :: key in f.q.dirty ==> PlainKey(key))
    && (forall key :: key in f.q.processing ==> PlainKey(key))
  }

  /** The worker v has opened the call for r. */
  predicate Serves(s: Shop, v: Worker, r: Ref) {
    v in s.begun && TaskOf(s.f, v) == Some(r)
  }

  ghost predicate OneCallEach(s: Shop) {
    && Orderly(s.f) && PlainFloor(s.f)
    && (forall v :: v in s.begun ==> v in s.f.held)
    && forall r :: r in s.w.procs ==> exists v :: Serves(s, v, r)
  }

  /** Two workers at the same network are one. */
  lemma OneWorker(f: Floor, v: Worker, u: Worker)
    requires Orderly(f) && PlainFloor(f)
    requires TaskOf(f, v).Some? && TaskOf(f, v) == TaskOf(f, u)
    ensures v == u
  {
    assert Holds(f, f.held[v]) && Holds(f, f.held[u]);
    assert PlainKey(f.held[v]) && PlainKey(f.held[u]);
  }

  /**
    A worker that has not opened its call yet finds none in progress for its network: the machine's
    rule that one network has one call at a time never gets in a worker's way.
   */
  lemma NoCallYet(s: Shop, v: Worker)
    requires OneCallEach(s) && TaskOf(s.f, v).Some? && v !in s.begun
    ensures TaskOf(s.f, v).value !in s.w.procs
  {
    var r := TaskOf(s.f, v).value;
    if r in s.w.procs {
      var u :| Serves(s, u, r);
      OneWorker(s.f, v, u);
    }
  }

  lemma WorkKeepsOrder(s: Shop, v: Worker, a: Act)
    requires OneCallEach(s) && MayWork(s, v, a)
    ensures OneCallEach(After(s, Works(v, a)))
  {
    var s', r := After(s, Works(v, a)), TaskOf(s.f, v).value;
    RunOne(true, s.w, Does(r, a));
    WorkFrame(true, s.w, r, a);
    assert Played(s.f, []) == s.f;
    assert Serves(s', v, r);
    forall x | x in s'.w.procs ensures exists u :: Serves(s', u, x) {
      if x != r {
        assert x in s'.w.procs - {r};
        var u :| Serves(s, u, x);
        assert Serves(s', u, x);
      }
    }
  }

  lemma TurnPlain(f: Floor, t: Turn)
    requires Orderly(f) && PlainFloor(f) && (t.Enqueue? ==> PlainKey(t.key))
    ensures PlainFloor(Turned(f, t)) && Orderly(Turned(f, t))
  {
    TurnedOrderly(f, t);
    if t.Take? && f.q.items != [] { assert f.q.items[0] in f.q.items; }
    if t.Finish? && t.worker in f.held { assert Holds(f, f.held[t.worker]); }
  }

  lemma PlayOne(f: Floor, t: Turn)
    ensures Played(f, [t]) == Turned(f, t)
  {
    assert [t][..0] == [];
  }

  lemma OthersHold(f: Floor, v: Worker, u: Worker)
    requires u != v
    ensures TaskOf(Turned(f, Finish(v)), u) == TaskOf(f, u)
  {
  }

  lemma ReturnKeepsOrder(s: Shop, v: Worker)
    requires OneCallEach(s) && MayReturn(s, v)
    ensures OneCallEach(After(s, Returns(v)))
  {
    var s' := After(s, Returns(v));
    PlayOne(s.f, Finish(v));
    TurnPlain(s.f, Finish(v));
    assert s' == Shop(s.w, Turned(s.f, Finish(v)), s.begun - {v});
    forall x | x in s.w.procs ensures exists u :: Serves(s', u, x) {
      var u :| Serves(s, u, x);
      OthersHold(s.f, v, u);
      assert Serves(s', u, x);
    }
    forall u | u in s'.begun ensures u in s'.f.held {
      OthersHold(s.f, v, u);
    }
  }

  /** Event handlers, Get and the surroundings. */
  lemma OthersKeepOrder(s: Shop, d: Deed)
    requires OneCallEach(s) && (d.Adds? || d.Gets? || d.Occurs?) && (d.Adds? ==> Plain(d.ref))
    ensures OneCallEach(After(s, d))
  {
    var s' := After(s, d);
    if d.Occurs? {
      RunOne(true, s.w, Happens(d.event));
      assert Played(s.f, []) == s.f;
    } else {
      assert Run(true, s.w, []) == s.w;
      if d.Adds? { SplitMetaKey(d.ref); }
      PlayOne(s.f, Turns(s, d)[0]);
      TurnPlain(s.f, Turns(s, d)[0]);
    }
    forall x | x in s'.w.procs ensures exists u :: Serves(s', u, x) {
      var u :| Serves(s, u, x);
      assert Serves(s', u, x);
    }
  }

  lemma DeedKeepsOrder(s: Shop, d: Deed)
    requires OneCallEach(s) && (d.Adds? ==> Plain(d.ref))
    ensures OneCallEach(After(s, d))
  {
    if d.Works? {
      if MayWork(s, d.worker, d.act) { WorkKeepsOrder(s, d.worker, d.act); } else { assert After(s, d) == s; }
    } else if d.Returns? {
      if MayReturn(s, d.worker) { ReturnKeepsOrder(s, d.worker); } else { assert After(s, d) == s; }
    } else {
      OthersKeepOrder(s, d);
    }
  }

  // ---------------------------------------------------------------- whole stories

  function Opening(mesh: Mesh): Shop {
    Shop(Blank(mesh), OPENING, {})
  }

  /**
    With any number of workers, any failures and any events: every call in progress is that of exactly
    one worker that holds the network's key, and no worker ever finds its network's call taken.
   */
  lemma {:induction false} AlwaysOneCallEach(mesh: Mesh, ds: seq<Deed>)
    requires forall d :: d in ds && d.Adds? ==> Plain(d.ref)
    ensures var s := Story(Opening(mesh), ds);
      && OneCallEach(s)
      && (forall r :: r in s.w.procs ==> exists v :: Serves(s, v, r))
      && (forall r, v, u :: Serves(s, v, r) && Serves(s, u, r) ==> v == u)
      && (forall v :: TaskOf(s.f, v).Some? && v !in s.begun ==> TaskOf(s.f, v).value !in s.w.procs)
    decreases |ds|
  {
    var s := Story(Opening(mesh), ds);
    if ds == [] {
      OpeningOrderly();
    } else {
      var front := ds[..|ds| - 1];
      assert forall d :: d in front ==> d in ds;
      AlwaysOneCallEach(mesh, front);
      DeedKeepsOrder(Story(Opening(mesh), front), ds[|ds| - 1]);
    }
    forall r, v, u | Serves(s, v, r) && Serves(s, u, r) ensures v == u {
      OneWorker(s.f, v, u);
    }
    forall v | TaskOf(s.f, v).Some? && v !in s.begun ensures TaskOf(s.f, v).value !in s.w.procs {
      NoCallYet(s, v);
    }
  }

  /** The events in a run are those of the story. */
  ghost predicate Told(ls: seq<Label>, ds: seq<Deed>) {
    forall e :: Happens(e) in ls ==> Occurs(e) in ds
  }

  lemma ToldMore(ls: seq<Label>, ds: seq<Deed>, s: Shop, d: Deed)
    requires Told(ls, ds)
    ensures Told(ls + Labels(s, d), ds + [d])
  {
  }

  /** The cluster of a story takes a run of the machine, and its queue a run of the queue's machine. */
  lemma {:induction false} StoryProjects(s: Shop, ds: seq<Deed>) returns (ls: seq<Label>, ts: seq<Turn>)
    ensures Story(s, ds).w == Run(true, s.w, ls) && Story(s, ds).f == Played(s.f, ts)
    ensures Told(ls, ds)
    decreases |ds|
  {
    if ds == [] {
      ls, ts := [], [];
    } else {
      var front, d := ds[..|ds| - 1], ds[|ds| - 1];
      var s1 := Story(s, front);
      var ls1, ts1 := StoryProjects(s, front);
      ls, ts := ls1 + Labels(s1, d), ts1 + Turns(s1, d);
      RunConcat(true, s.w, ls1, Labels(s1, d));
      PlayedConcat(s.f, ts1, Turns(s1, d));
      ToldMore(ls1, front, s1, d);
      assert ds == front + [d];
    }
  }

  lemma {:induction false} PlayedConcat(f: Floor, a: seq<Turn>, b: seq<Turn>)
    ensures Played(f, a + b) == Played(Played(f, a), b)
    decreases |b|
  {
    if b == [] {
      assert a + b == a;
    } else {
      PlayedConcat(f, a, b[..|b| - 1]);
      assert (a + b)[..|a + b| - 1] == a + b[..|b| - 1];
    }
  }

  // ---------------------------------------------------------------- every request is served

  /** A reconcile of r is still to be opened: its key is asked for, or a worker has just got it. */
  ghost predicate Awaits(s: Shop, r: Ref) {
    || MetaKey(r) in s.f.q.dirty
    || exists v :: TaskOf(s.f, v) == Some(r) && v !in s.begun
  }

  /** The deed opens a reconcile of r. */
  predicate Opens(s: Shop, d: Deed, r: Ref) {
    d.Works? && d.act.Begin? && MayWork(s, d.worker, d.act) && TaskOf(s.f, d.worker) == Some(r)
  }

  lemma AddedAwaits(s: Shop, r: Ref)
    requires OneCallEach(s)
    ensures Awaits(After(s, Adds(r)), r)
  {
    PlayOne(s.f, Enqueue(MetaKey(r)));
    AddedTidy(s.f.q, MetaKey(r));
  }

  lemma AskedAwaits(s: Shop, d: Deed, r: Ref)
    requires OneCallEach(s) && Plain(r) && MetaKey(r) in s.f.q.dirty
    ensures Awaits(After(s, d), r)
  {
    var s', ts := After(s, d), Turns(s, d);
    if ts != [] {
      PlayOne(s.f, ts[0]);
      if HandsOut(s.f, ts[0]) == Some(MetaKey(r)) {
        SplitMetaKey(r);
        assert TaskOf(s'.f, d.worker) == Some(r) && d.worker !in s'.begun;
      } else {
        StaysAsked(s.f, ts[0], MetaKey(r));
      }
    }
  }

  lemma HeldAwaits(s: Shop, d: Deed, r: Ref, v: Worker)
    requires OneCallEach(s) && TaskOf(s.f, v) == Some(r) && v !in s.begun && !Opens(s, d, r)
    ensures Awaits(After(s, d), r)
  {
    var s', ts := After(s, d), Turns(s, d);
    if ts != [] { PlayOne(s.f, ts[0]); }
    assert TaskOf(s'.f, v) == Some(r) && v !in s'.begun;
  }

  lemma AwaitsUntilOpened(s: Shop, d: Deed, r: Ref)
    requires OneCallEach(s) && Plain(r) && Awaits(s, r) && !Opens(s, d, r)
    ensures Awaits(After(s, d), r)
  {
    if MetaKey(r) in s.f.q.dirty {
      AskedAwaits(s, d, r);
    } else {
      var v :| TaskOf(s.f, v) == Some(r) && v !in s.begun;
      HeldAwaits(s, d, r, v);
    }
  }

  lemma {:induction false} AwaitsThroughout(s: Shop, ds: seq<Deed>, r: Ref)
    requires OneCallEach(s) && Plain(r) && Awaits(s, r)
    requires forall d :: d in ds && d.Adds? ==> Plain(d.ref)
    requires forall i :: 0 <= i < |ds| ==> !Opens(Story(s, ds[..i]), ds[i], r)
    ensures OneCallEach(Story(s, ds)) && Awaits(Story(s, ds), r)
    decreases |ds|
  {
    if ds != [] {
      var front, d := ds[..|ds| - 1], ds[|ds| - 1];
      assert forall x :: x in front ==> x in ds;
      forall i | 0 <= i < |front| ensures front[..i] == ds[..i] && front[i] == ds[i] {}
      AwaitsThroughout(s, front, r);
      DeedKeepsOrder(Story(s, front), d);
      AwaitsUntilOpened(Story(s, front), d, r);
    }
  }

  /** With an empty queue and idle workers nothing is awaited. */
  lemma IdleAwaitsNothing(s: Shop, r: Ref)
    requires OneCallEach(s) && s.f.q.items == [] && s.f.held == map[]
    ensures !Awaits(s, r)
  {
    assert !Holds(s.f, MetaKey(r));
    assert MetaKey(r) in s.f.q.dirty ==> PlainKey(MetaKey(r));
  }

  /**
    Every request is served: if a network is enqueued, and later the queue is empty and no worker is
    busy, then a worker has opened a reconcile of it in between. A request that comes while the network
    is being reconciled leads to a reconcile of its own.
   */
  lemma EveryRequestServed(mesh: Mesh, before: seq<Deed>, r: Ref, after: seq<Deed>)
    requires Plain(r) && forall d :: d in before + after && d.Adds? ==> Plain(d.ref)
    requires var s := Story(After(Story(Opening(mesh), before), Adds(r)), after);
      s.f.q.items == [] && s.f.held == map[]
    ensures var s1 := After(Story(Opening(mesh), before), Adds(r));
      exists i :: 0 <= i < |after| && Opens(Story(s1, after[..i]), after[i], r)
  {
    var s0 := Story(Opening(mesh), before);
    var s1 := After(s0, Adds(r));
    AlwaysOneCallEach(mesh, before);
    DeedKeepsOrder(s0, Adds(r));
    AddedAwaits(s0, r);
    if forall i :: 0 <= i < |after| ==> !Opens(Story(s1, after[..i]), after[i], r) {
      AwaitsThroughout(s1, after, r);
      IdleAwaitsNothing(Story(s1, after), r);
    }
  }
}
