/**
  The key flow: event handlers put keys into one queue, several workers take them out. The queue is
  that of client-go, of which only the contract below is assumed.
 */
module WorkQueue {
  import opened Types
  import opened Names
  import opened PeerMesh
  import opened Machine
  import opened Safety

  // ---------------------------------------------------------------- the queue

  /** Keys to hand out, keys asked for, and keys handed out and not released yet. */
  datatype Queue = Queue(items: seq<string>, dirty: set<string>, processing: set<string>)

  function Added(q: Queue, key: string): Queue {
    if key in q.dirty then q
    else if key in q.processing then q.(dirty := q.dirty + {key})
    else q.(items := q.items + [key], dirty := q.dirty + {key})
  }

  function Taken(q: Queue): Queue
    requires q.items != []
  {
    Queue(q.items[1..], q.dirty - {q.items[0]}, q.processing + {q.items[0]})
  }

  function Released(q: Queue, key: string): Queue {
    Queue(if key in q.dirty then q.items + [key] else q.items, q.dirty, q.processing - {key})
  }

  /** No key waits twice, a waiting key is asked for and not out, a key asked for waits or is out. */
  ghost predicate Tidy(q: Queue) {
    && (forall i, j :: 0 <= i < j < |q.items| ==> q.items[i] != q.items[j])
    && (forall key :: key in q.items ==> key in q.dirty && key !in q.processing)
    && (forall key :: key in q.dirty ==> key in q.items || key in q.processing)
  }

  lemma AddedTidy(q: Queue, key: string)
    requires Tidy(q)
    ensures Tidy(Added(q, key)) && key in Added(q, key).dirty
  {
  }

  lemma TakenTidy(q: Queue)
    requires Tidy(q) && q.items != []
    ensures Tidy(Taken(q)) && q.items[0] !in Taken(q).dirty && q.items[0] !in q.processing
  {
    assert q.items[0] in q.items;
    assert forall key :: key in q.items <==> key == q.items[0] || key in q.items[1..];
  }

  lemma ReleasedTidy(q: Queue, key: string)
    requires Tidy(q) && key in q.processing
    ensures Tidy(Released(q, key))
  {
  }

  // ---------------------------------------------------------------- the workers

  type Worker = nat

  /** The queue, the key each busy worker is at, and the keys doRecon gave up on. */
  datatype Floor = Floor(q: Queue, held: map<Worker, string>, stranded: set<string>)

  datatype Turn = Enqueue(key: string) | Take(worker: Worker) | Finish(worker: Worker)

  const OPENING := Floor(Queue([], {}, {}), map[], {})

  /** The loop of workerMainLoop, cut into its two halves: Get, then doRecon and Done. */
  function Turned(f: Floor, t: Turn): Floor {
    match t
    case Enqueue(key) => f.(q := Added(f.q, key))
    case Take(w) =>
      if w in f.held || f.q.items == [] then f
      else Floor(Taken(f.q), f.held[w := f.q.items[0]], f.stranded)
    case Finish(w) =>
      if w !in f.held then f
      else if SplitKey(f.held[w]).Some? then Floor(Released(f.q, f.held[w]), f.held - {w}, f.stranded)
      else Floor(f.q, f.held - {w}, f.stranded + {f.held[w]})
  }

  function Played(f: Floor, ts: seq<Turn>): Floor {
    if ts == [] then f else Turned(Played(f, ts[..|ts| - 1]), ts[|ts| - 1])
  }

  ghost predicate Holds(f: Floor, key: string) {
    exists w :: w in f.held && f.held[w] == key
  }

  /**
    The queue is tidy, no key is held by two workers, and the keys handed out are those being worked
    on and those given up; only keys that cannot be split are given up.
   */
  ghost predicate Orderly(f: Floor) {
    && Tidy(f.q)
    && (forall v, w :: v in f.held && w in f.held && f.held[v] == f.held[w] ==> v == w)
    && (forall key :: key in f.q.processing <==> Holds(f, key) || key in f.stranded)
    && (forall key :: key in f.stranded ==> !Holds(f, key) && SplitKey(key).None?)
  }

  lemma TakeOrderly(f: Floor, w: Worker)
    requires Orderly(f) && w !in f.held && f.q.items != []
    ensures Orderly(Turned(f, Take(w)))
  {
    TakenTidy(f.q);
    var g, key0 := Turned(f, Take(w)), f.q.items[0];
    assert g.held[w] == key0;
    forall key ensures Holds(g, key) <==> Holds(f, key) || key == key0 {
      if Holds(f, key) {
        var v :| v in f.held && f.held[v] == key;
        assert g.held[v] == key;
      }
    }
    assert !Holds(f, key0);
    forall v | v in f.held ensures f.held[v] != key0 {}
  }

  lemma FinishOrderly(f: Floor, w: Worker)
    requires Orderly(f) && w in f.held
    ensures Orderly(Turned(f, Finish(w)))
  {
    var g, key0 := Turned(f, Finish(w)), f.held[w];
    assert Holds(f, key0);
    if SplitKey(key0).Some? { ReleasedTidy(f.q, key0); }
    forall key ensures Holds(g, key) <==> Holds(f, key) && key != key0 {
      if Holds(f, key) && key != key0 {
        var v :| v in f.held && f.held[v] == key;
        assert v in g.held && g.held[v] == key;
      }
    }
  }

  lemma TurnedOrderly(f: Floor, t: Turn)
    requires Orderly(f)
    ensures Orderly(Turned(f, t))
  {
    match t
    case Enqueue(key) =>
      AddedTidy(f.q, key);
      assert forall k :: Holds(Turned(f, t), k) <==> Holds(f, k);
    case Take(w) => if w !in f.held && f.q.items != [] { TakeOrderly(f, w); }
    case Finish(w) => if w in f.held { FinishOrderly(f, w); }
  }

  /** Whatever the order of events and workers. */
  lemma {:induction false} AlwaysOrderly(f: Floor, ts: seq<Turn>)
    requires Orderly(f)
    ensures Orderly(Played(f, ts))
    decreases |ts|
  {
    if ts != [] {
      AlwaysOrderly(f, ts[..|ts| - 1]);
      TurnedOrderly(Played(f, ts[..|ts| - 1]), ts[|ts| - 1]);
    }
  }

  lemma OpeningOrderly()
    ensures Orderly(OPENING)
  {
  }

  // ---------------------------------------------------------------- one worker on its own

  /** One round of the loop: a key is taken, reconciled, and released if it could be split. */
  function Round(q: Queue): Queue
    requires q.items != []
  {
    if SplitKey(q.items[0]).Some? then Released(Taken(q), q.items[0]) else Taken(q)
  }

  /** The networks that the keys lead to, in order; keys that cannot be split lead nowhere. */
  function NetworksOf(keys: seq<string>): seq<Ref> {
    if keys == [] then []
    else (if SplitKey(keys[0]).Some? then [SplitKey(keys[0]).value] else []) + NetworksOf(keys[1..])
  }

  lemma {:induction false} NetworksOfMore(keys: seq<string>, key: string)
    ensures NetworksOf(keys + [key]) == NetworksOf(keys) + NetworksOf([key])
  {
    if keys == [] {
      assert keys + [key] == [key];
    } else {
      NetworksOfMore(keys[1..], key);
      assert (keys + [key])[1..] == keys[1..] + [key];
    }
  }

  /** The queue after the keys of these networks have been put in, one after the other. */
  function AddedAll(q: Queue, refs: seq<Ref>): Queue {
    if refs == [] then q else Added(AddedAll(q, refs[..|refs| - 1]), MetaKey(refs[|refs| - 1]))
  }

  /** One more key of a network that was not queued before. */
  lemma OneMoreQueued(q: Queue, refs: seq<Ref>, r: Ref)
    requires Tidy(q) && q.processing == {} && NetworksOf(q.items) == refs && Plain(r) && r !in refs
    requires forall key :: key in q.items ==> Slashes(key) <= 1 && SplitKey(key).Some? && SplitKey(key).value in refs
    ensures var q' := Added(q, MetaKey(r));
      && Tidy(q') && q'.processing == {} && NetworksOf(q'.items) == refs + [r]
      && forall key :: key in q'.items ==>
           Slashes(key) <= 1 && SplitKey(key).Some? && SplitKey(key).value in refs + [r]
  {
    SplitMetaKey(r);
    SplitKeyFails(MetaKey(r));
    assert MetaKey(r) !in q.items;
    AddedTidy(q, MetaKey(r));
    NetworksOfMore(q.items, MetaKey(r));
    assert NetworksOf([MetaKey(r)]) == [r];
  }

  /** Different networks with proper names are all queued, in order. */
  lemma {:induction false} AllQueued(refs: seq<Ref>)
    requires Distinct(refs)
    requires forall r :: r in refs ==> Plain(r)
    ensures var q := AddedAll(OPENING.q, refs);
      && Tidy(q) && q.processing == {} && NetworksOf(q.items) == refs
      && forall key :: key in q.items ==> Slashes(key) <= 1 && SplitKey(key).Some? && SplitKey(key).value in refs
    decreases |refs|
  {
    if refs != [] {
      var front, r := refs[..|refs| - 1], refs[|refs| - 1];
      AllQueued(front);
      assert r !in front;
      OneMoreQueued(AddedAll(OPENING.q, front), front, r);
      assert refs == front + [r];
    }
  }

  /** The queue when a single worker has emptied it. */
  function Drained(q: Queue): Queue
    decreases |q.items|
  {
    if q.items == [] then q else Drained(Round(q))
  }

  lemma {:induction false} DrainedExactly(q: Queue)
    requires Tidy(q)
    ensures Drained(q).items == []
    ensures Drained(q).dirty == q.dirty - (set key | key in q.items)
    ensures Drained(q).processing == q.processing + (set key | key in q.items && Slashes(key) > 1)
    decreases |q.items|
  {
    if q.items != [] {
      var key0 := q.items[0];
      TakenTidy(q);
      SplitKeyFails(key0);
      if SplitKey(key0).Some? { ReleasedTidy(Taken(q), key0); }
      assert Round(q).items == q.items[1..];
      DrainedExactly(Round(q));
      assert forall key :: key in q.items <==> key == key0 || key in q.items[1..];
    }
  }

  // ---------------------------------------------------------------- counting hand-outs

  /** The key that a turn hands out, or gives back. */
  function HandsOut(f: Floor, t: Turn): Option<string> {
    if t.Take? && t.worker !in f.held && f.q.items != [] then Some(f.q.items[0]) else None
  }

  function GivesBack(f: Floor, t: Turn): Option<string> {
    if t.Finish? && t.worker in f.held && SplitKey(f.held[t.worker]).Some? then Some(f.held[t.worker]) else None
  }

  /** How often the key was handed out; with key == None, how many keys were handed out. */
  function Takes(f: Floor, ts: seq<Turn>, key: Option<string>): nat {
    if ts == [] then 0
    else
      var front := ts[..|ts| - 1];
      var out := HandsOut(Played(f, front), ts[|ts| - 1]);
      Takes(f, front, key) + (if out.Some? && (key == None || key == out) then 1 else 0)
  }

  function Releases(f: Floor, ts: seq<Turn>, key: string): nat {
    if ts == [] then 0
    else
      var front := ts[..|ts| - 1];
      Releases(f, front, key) + (if GivesBack(Played(f, front), ts[|ts| - 1]) == Some(key) then 1 else 0)
  }

  function Out(f: Floor, key: string): nat {
    if key in f.q.processing then 1 else 0
  }

  lemma TurnBalances(f: Floor, t: Turn, key: string)
    requires Orderly(f)
    ensures Out(Turned(f, t), key) ==
      Out(f, key) + (if HandsOut(f, t) == Some(key) then 1 else 0) - (if GivesBack(f, t) == Some(key) then 1 else 0)
  {
    if HandsOut(f, t).Some? {
      TakenTidy(f.q);
    }
    if t.Finish? && t.worker in f.held {
      assert Holds(f, f.held[t.worker]);
    }
  }

  /** Every hand-out of a key is matched by one release, but for the one still out. */
  lemma {:induction false} ReleasedOnce(f: Floor, ts: seq<Turn>, key: string)
    requires Orderly(f)
    ensures Out(f, key) + Takes(f, ts, Some(key)) == Releases(f, ts, key) + Out(Played(f, ts), key)
    decreases |ts|
  {
    if ts != [] {
      var front := ts[..|ts| - 1];
      ReleasedOnce(f, front, key);
      AlwaysOrderly(f, front);
      TurnBalances(Played(f, front), ts[|ts| - 1], key);
    }
  }

  /** A key with more than one slash is handed out at most once, ever: nobody releases it. */
  lemma {:induction false} NeverReleased(f: Floor, ts: seq<Turn>, key: string)
    requires Slashes(key) > 1
    ensures Releases(f, ts, key) == 0
    decreases |ts|
  {
    if ts != [] {
      NeverReleased(f, ts[..|ts| - 1], key);
      SplitKeyFails(key);
    }
  }

  /**
    A key is stuck, handed out with no worker at it, exactly if it has more than one slash and was
    handed out before to a worker that is through with it. Such a key is handed out once in all.
   */
  lemma StuckExactly(ts: seq<Turn>, key: string)
    ensures var f := Played(OPENING, ts);
      && (key in f.q.processing && !Holds(f, key) <==>
            Slashes(key) > 1 && Takes(OPENING, ts, Some(key)) > 0 && !Holds(f, key))
      && (Slashes(key) > 1 ==> Takes(OPENING, ts, Some(key)) == Out(f, key))
      && (Slashes(key) <= 1 ==>
            Takes(OPENING, ts, Some(key)) == Releases(OPENING, ts, key) + (if Holds(f, key) then 1 else 0))
  {
    OpeningOrderly();
    AlwaysOrderly(OPENING, ts);
    SplitKeyFails(key);
    ReleasedOnce(OPENING, ts, key);
    if Slashes(key) > 1 { NeverReleased(OPENING, ts, key); }
  }

  // ---------------------------------------------------------------- nothing asked for is lost

  lemma StaysAsked(f: Floor, t: Turn, key: string)
    requires key in f.q.dirty && HandsOut(f, t) != Some(key)
    ensures key in Turned(f, t).q.dirty
  {
  }

  lemma {:induction false} AskedUntilTaken(f: Floor, ts: seq<Turn>, key: string)
    requires key in f.q.dirty && Takes(f, ts, Some(key)) == 0
    ensures key in Played(f, ts).q.dirty
    decreases |ts|
  {
    if ts != [] {
      AskedUntilTaken(f, ts[..|ts| - 1], key);
      StaysAsked(Played(f, ts[..|ts| - 1]), ts[|ts| - 1], key);
    }
  }

  /**
    A key put into the queue, also while a worker is at it, is not forgotten: until it is handed out
    anew it waits in the queue, or will as soon as the worker that has it is done.
   */
  lemma NeverLost(f: Floor, key: string, ts: seq<Turn>)
    requires Orderly(f) && Slashes(key) <= 1
    requires Takes(Turned(f, Enqueue(key)), ts, Some(key)) == 0
    ensures var g := Played(Turned(f, Enqueue(key)), ts);
      || key in g.q.items
      || exists w :: w in g.held && g.held[w] == key && key in Turned(g, Finish(w)).q.items
  {
    var f1 := Turned(f, Enqueue(key));
    AddedTidy(f.q, key);
    TurnedOrderly(f, Enqueue(key));
    AskedUntilTaken(f1, ts, key);
    AlwaysOrderly(f1, ts);
    SplitKeyFails(key);
    var g := Played(f1, ts);
    if key !in g.q.items {
      assert Holds(g, key);
      var w :| w in g.held && g.held[w] == key;
      assert key in Turned(g, Finish(w)).q.items;
    }
  }

  /** When the queue is empty and all workers wait, only keys that were given up are still asked for. */
  lemma QuietMeansDone(ts: seq<Turn>)
    requires var f := Played(OPENING, ts); f.q.items == [] && f.held == map[]
    requires forall t :: t in ts && t.Enqueue? ==> Slashes(t.key) <= 1
    ensures Played(OPENING, ts).q == Queue([], {}, {})
  {
    var f := Played(OPENING, ts);
    OpeningOrderly();
    AlwaysOrderly(OPENING, ts);
    forall key ensures key !in f.q.processing && key !in f.q.dirty {
      SplitKeyFails(key);
      if Slashes(key) > 1 { OnlyEnqueued(ts, key); }
      assert !Holds(f, key);
    }
  }

  lemma {:induction false} OnlyEnqueued(ts: seq<Turn>, key: string)
    requires forall t :: t in ts && t.Enqueue? ==> t.key != key
    ensures var f := Played(OPENING, ts);
      key !in f.q.items && key !in f.q.dirty && key !in f.q.processing && !Holds(f, key)
    decreases |ts|
  {
    if ts != [] {
      var front := ts[..|ts| - 1];
      assert forall t :: t in front ==> t in ts;
      OnlyEnqueued(front, key);
      assert ts[|ts| - 1] in ts;
    }
  }

  lemma PlaceMovesUp(f: Floor, t: Turn, p: nat)
    requires Orderly(f) && p < |f.q.items| && HandsOut(f, t) != Some(f.q.items[p])
    ensures var g, q := Turned(f, t), if HandsOut(f, t).Some? then p - 1 else p;
      0 <= q < |g.q.items| && g.q.items[q] == f.q.items[p]
  {
  }

  /** First in, first out: with n keys before it a key is handed out at the (n + 1)-st hand-out, not later. */
  lemma {:induction false} Fifo(f: Floor, p: nat, ts: seq<Turn>)
    requires Orderly(f) && p < |f.q.items| && Takes(f, ts, Some(f.q.items[p])) == 0
    ensures var g, n := Played(f, ts), Takes(f, ts, None);
      n <= p && p - n < |g.q.items| && g.q.items[p - n] == f.q.items[p]
    decreases |ts|
  {
    if ts != [] {
      var front := ts[..|ts| - 1];
      Fifo(f, p, front);
      AlwaysOrderly(f, front);
      PlaceMovesUp(Played(f, front), ts[|ts| - 1], p - Takes(f, front, None));
    }
  }

  /**
    The keys of objects with slash-free names split again, and two workers never reconcile the same
    network: each of the machine's calls in progress is the only one for its network.
   */
  lemma WorkersApart(ts: seq<Turn>, v: Worker, w: Worker)
    requires forall t :: t in ts && t.Enqueue? ==> exists r :: Plain(r) && t.key == MetaKey(r)
    requires v in Played(OPENING, ts).held && w in Played(OPENING, ts).held && v != w
    ensures var held := Played(OPENING, ts).held;
      SplitKey(held[v]).Some? && SplitKey(held[w]).Some? && SplitKey(held[v]) != SplitKey(held[w])
  {
    var f := Played(OPENING, ts);
    OpeningOrderly();
    AlwaysOrderly(OPENING, ts);
    var a := HeldIsPlain(ts, v);
    var b := HeldIsPlain(ts, w);
  }

  lemma HeldIsPlain(ts: seq<Turn>, w: Worker) returns (r: Ref)
    requires forall t :: t in ts && t.Enqueue? ==> exists r :: Plain(r) && t.key == MetaKey(r)
    requires w in Played(OPENING, ts).held
    ensures Plain(r) && Played(OPENING, ts).held[w] == MetaKey(r)
    ensures SplitKey(Played(OPENING, ts).held[w]) == Some(r)
  {
    var key := Played(OPENING, ts).held[w];
    if forall t :: t in ts && t.Enqueue? ==> t.key != key {
      OnlyEnqueued(ts, key);
      assert Holds(Played(OPENING, ts), key);
    }
    var t :| t in ts && t.Enqueue? && t.key == key;
    r :| Plain(r) && t.key == MetaKey(r);
    SplitMetaKey(r);
  }

  // ---------------------------------------------------------------- event handlers

  /** What handleObject puts into the queue for an object with the given namespace and owners. */
  function HandledKey(shown: map<Ref, Net>, ns: string, owners: seq<OwnerRef>): Option<string> {
    match ControllerOf(owners)
    case None => None
    case Some(o) =>
      if o.kind == "BitcoinNetwork" && InLister(shown, Ref(ns, o.name)) then Some(MetaKey(Ref(ns, o.name))) else None
  }

  /** The i-th owner is the one that controls the object: the first marked as controller. */
  predicate Controls(owners: seq<OwnerRef>, i: int) {
    0 <= i < |owners| && owners[i].controller && forall j :: 0 <= j < i ==> !owners[j].controller
  }

  lemma {:induction false} ControllerControls(owners: seq<OwnerRef>)
    ensures forall i :: Controls(owners, i) ==> ControllerOf(owners) == Some(owners[i])
    ensures ControllerOf(owners).Some? ==> exists i :: Controls(owners, i)
  {
    if owners != [] {
      var rest := owners[1..];
      ControllerControls(rest);
      forall i | Controls(owners, i) ensures ControllerOf(owners) == Some(owners[i]) {
        if i > 0 { assert Controls(rest, i - 1); }
      }
      if owners[0].controller {
        assert Controls(owners, 0);
      } else if ControllerOf(owners).Some? {
        var i :| Controls(rest, i);
        assert Controls(owners, i + 1);
      }
    }
  }

  /** The i-th owner makes handleObject enqueue something. */
  predicate OwnsByNetwork(shown: map<Ref, Net>, ns: string, owners: seq<OwnerRef>, i: int) {
    && Controls(owners, i) && owners[i].kind == "BitcoinNetwork"
    && ns != "" && Ref(ns, owners[i].name) in shown
  }

  /**
    A key is enqueued if and only if the controlling owner is a cached network of the namespace, and it
    is that network's.
   */
  lemma HandledExactly(shown: map<Ref, Net>, ns: string, owners: seq<OwnerRef>)
    ensures forall i :: OwnsByNetwork(shown, ns, owners, i) ==>
              HandledKey(shown, ns, owners) == Some(ns + "/" + owners[i].name)
    ensures HandledKey(shown, ns, owners).Some? ==> exists i :: OwnsByNetwork(shown, ns, owners, i)
  {
    ControllerControls(owners);
    if HandledKey(shown, ns, owners).Some? {
      var i :| Controls(owners, i);
      assert OwnsByNetwork(shown, ns, owners, i);
    }
  }

  /** The key leads from the child to its network and, through doRecon's names, back to the child. */
  ghost predicate LeadsBack(shown: map<Ref, Net>, at: Ref, owners: seq<OwnerRef>, r: Ref, child: Ref) {
    && at == child
    && HandledKey(shown, at.ns, owners) == (if InLister(shown, r) then Some(MetaKey(r)) else None)
    && (Plain(r) ==> SplitKey(MetaKey(r)) == Some(r))
  }

  /**
    In every run, handleObject on any version of a service or stateful set that was ever stored
    enqueues the key of its network if that is cached, and nothing otherwise; and doRecon on
    that key looks at exactly this child again.
   */
  lemma ChildKeyRoundTrip(gated: bool, mesh: Mesh, ls: seq<Label>)
    ensures var w := Run(gated, Blank(mesh), ls);
      && (forall at, svc :: (at, svc) in w.svcs.log ==>
            LeadsBack(w.nets.shown, at, svc.owners, Ref(at.ns, svc.app), SvcRef(Ref(at.ns, svc.app))))
      && (forall at, sts :: (at, sts) in w.stss.log ==>
            LeadsBack(w.nets.shown, at, sts.owners, Ref(at.ns, sts.app), SetRef(Ref(at.ns, sts.app))))
  {
    BlankSane(mesh);
    RunSane(gated, Blank(mesh), ls);
    var w := Run(gated, Blank(mesh), ls);
    forall at, svc | (at, svc) in w.svcs.log
      ensures LeadsBack(w.nets.shown, at, svc.owners, Ref(at.ns, svc.app), SvcRef(Ref(at.ns, svc.app))) {
      assert ServiceSane(w.svcs, at);
      assert ControllerOf([OwnerFor(Ref(at.ns, svc.app))]) == Some(OwnerFor(Ref(at.ns, svc.app)));
      if Plain(Ref(at.ns, svc.app)) { SplitMetaKey(Ref(at.ns, svc.app)); }
    }
    forall at, sts | (at, sts) in w.stss.log
      ensures LeadsBack(w.nets.shown, at, sts.owners, Ref(at.ns, sts.app), SetRef(Ref(at.ns, sts.app))) {
      assert SetSane(w.stss, at);
      assert ControllerOf([OwnerFor(Ref(at.ns, sts.app))]) == Some(OwnerFor(Ref(at.ns, sts.app)));
      if Plain(Ref(at.ns, sts.app)) { SplitMetaKey(Ref(at.ns, sts.app)); }
    }
  }
}
