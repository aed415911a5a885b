/** The event handlers and the loop of a worker. */
module Workers {
  import opened Types
  import opened Names
  import opened Machine
  import opened Safety
  import opened Surroundings
  import opened WorkQueue
  import opened BitcoinController
  import opened Calls
  import opened Housing
  import opened Isolation

  /** The queue in memory. */
  class KeyQueue {
    var items: seq<string>
    var dirty: set<string>
    var processing: set<string>

    constructor ()
      ensures Value() == OPENING.q
    {
      items, dirty, processing := [], {}, {};
    }

    function Value(): Queue
      reads this
    {
      Queue(items, dirty, processing)
    }

    method Add(key: string)
      modifies this
      ensures Value() == Added(old(Value()), key)
    {
      if key in dirty {
        return;
      }
      dirty := dirty + {key};
      if key in processing {
        return;
      }
      items := items + [key];
    }

    /** idle stands for a worker that is left waiting. */
    method Get() returns (key: string, idle: bool)
      modifies this
      ensures idle <==> old(items) == []
      ensures idle ==> unchanged(this)
      ensures !idle ==> key == old(items)[0] && Value() == Taken(old(Value()))
    {
      if items == [] {
        return "", true;
      }
      key := items[0];
      items := items[1..];
      processing := processing + {key};
      dirty := dirty - {key};
      return key, false;
    }

    method Done(key: string)
      modifies this
      ensures Value() == Released(old(Value()), key)
    {
      processing := processing - {key};
      if key in dirty {
        items := items + [key];
      }
    }
  }

  class EventLoop {
    const controller: Controller
    const workqueue: KeyQueue

    constructor (controller: Controller, workqueue: KeyQueue)
      ensures this.controller == controller && this.workqueue == workqueue
    {
      this.controller, this.workqueue := controller, workqueue;
    }

    method Enqueue(ref: Ref)
      modifies workqueue
      ensures workqueue.Value() == Added(old(workqueue.Value()), MetaKey(ref))
    {
      var key := MetaKey(ref);
      workqueue.Add(key);
    }

    /**
      handleObject on an object with the given namespace and owners: the first owner that is a controller
      decides, and nothing is enqueued for objects that others control.
     */
    method HandleObject(ns: string, owners: seq<OwnerRef>)
      requires controller.BcListerShows(controller.cluster.w.nets.shown)
      modifies workqueue
      ensures var key := HandledKey(controller.cluster.w.nets.shown, ns, owners);
        workqueue.Value() == if key.Some? then Added(old(workqueue.Value()), key.value) else old(workqueue.Value())
      ensures forall i :: OwnsByNetwork(controller.cluster.w.nets.shown, ns, owners, i) ==>
                workqueue.Value() == Added(old(workqueue.Value()), ns + "/" + owners[i].name)
      ensures (forall i :: !OwnsByNetwork(controller.cluster.w.nets.shown, ns, owners, i)) ==>
                workqueue.Value() == old(workqueue.Value())
    {
      HandledExactly(controller.cluster.w.nets.shown, ns, owners);
      var ownerRef := ControllerOf(owners);
      if ownerRef.Some? {
        if ownerRef.value.kind != "BitcoinNetwork" {
          return;
        }
        if ns == "" || Ref(ns, ownerRef.value.name) !in controller.bcLister {
          return;
        }
        var bcNetwork := controller.bcLister[Ref(ns, ownerRef.value.name)];
        Enqueue(bcNetwork.ref);
      }
    }

    /** No call is in progress, and the listers hand out what the caches show. */
    ghost predicate ReadyAt(w: World)
      reads controller, controller.cluster, controller.shared
    {
      && w == controller.cluster.w && w.procs == map[]
      && controller.cluster !in controller.shared
      && controller.sync.rpcClient.cluster == controller.cluster && controller.cluster.Valid()
      && controller.BcListerShows(w.nets.shown) && controller.StsListerShows(w.stss.shown)
    }

    ghost predicate Ready()
      reads controller, controller.cluster, controller.shared
    {
      forall w :: w == controller.cluster.w ==> ReadyAt(w)
    }

    /** Since log0 the networks in done have been reconciled, one after the other. */
    ghost predicate HasDone(log0: seq<Label>, done: seq<Ref>)
      reads controller.cluster
    {
      CallsFor(controller.cluster.start, log0, controller.cluster.log, done)
    }

    method Reconcile(key: string, ghost log0: seq<Label>, ghost done: seq<Ref>) returns (ok: bool)
      requires Ready() && HasDone(log0, done)
      modifies controller.cluster
      ensures Ready() && HasDone(log0, done + NetworksOf([key]))
      ensures ok <==> SplitKey(key).Some?
    {
      assert ReadyAt(controller.cluster.w);
      assert NetworksOf([key]) == if SplitKey(key).Some? then [SplitKey(key).value] else [];
      ghost var begin := controller.cluster.weather(controller.cluster.tick);
      ok := controller.DoRecon(key);
      if ok {
        FrameKeepsProcs(old(controller.cluster.w), controller.cluster.w, SplitKey(key).value);
        CallsForOneMore(controller.cluster.start, log0, old(controller.cluster.log), begin, controller.cluster.log,
                        done, SplitKey(key).value);
        assert ReadyAt(controller.cluster.w);
      } else {
        assert done + [] == done;
      }
    }

    /** The body of the loop: Done only if doRecon returns true. */
    method Turn(ghost log0: seq<Label>, ghost done: seq<Ref>) returns (idle: bool, ghost after: seq<Ref>)
      requires Ready() && workqueue !in controller.shared && HasDone(log0, done)
      modifies controller.cluster, workqueue
      ensures Ready() && HasDone(log0, after)
      ensures idle <==> old(workqueue.items) == []
      ensures workqueue.Value() == if idle then old(workqueue.Value()) else Round(old(workqueue.Value()))
      ensures after + NetworksOf(workqueue.items) == done + NetworksOf(old(workqueue.items))
    {
      var key;
      ghost var items := workqueue.items;
      after := done;
      key, idle := workqueue.Get();
      if !idle {
        assert NetworksOf(items) == NetworksOf([key]) + NetworksOf(items[1..]);
        after := done + NetworksOf([key]);
        var ok := Reconcile(key, log0, done);
        if ok {
          workqueue.Done(key);
        }
      }
    }

    method Drain(ghost log0: seq<Label>)
      requires Ready() && workqueue !in controller.shared && HasDone(log0, [])
      modifies controller.cluster, workqueue
      ensures Ready() && HasDone(log0, NetworksOf(old(workqueue.items)))
      ensures workqueue.Value() == Drained(old(workqueue.Value()))
    {
      var idle := false;
      ghost var done: seq<Ref> := [];
      while !idle
        invariant Ready() && HasDone(log0, done)
        invariant done + NetworksOf(workqueue.items) == NetworksOf(old(workqueue.items))
        invariant Drained(workqueue.Value()) == Drained(old(workqueue.Value()))
        invariant idle ==> workqueue.items == []
        decreases |workqueue.items|, !idle
      {
        idle, done := Turn(log0, done);
      }
      assert done == NetworksOf(old(workqueue.items));
    }

    /**
      The loop of a worker that nobody disturbs, until it is left waiting. If no request fails, all the
      networks whose keys were in the queue converge.
     */
    method WorkerMainLoop(ghost home: Home)
      requires Ready() && workqueue !in controller.shared
      modifies controller.cluster, workqueue
      ensures Ready()
      ensures workqueue.Value() == Drained(old(workqueue.Value()))
      ensures CallsFor(controller.cluster.start, old(controller.cluster.log), controller.cluster.log,
                       NetworksOf(old(workqueue.items)))
      ensures controller.cluster.FairSince(old(controller.cluster.tick)) &&
                AllRipe(home, old(controller.cluster.w), NetworksOf(old(workqueue.items))) ==>
                Brought(home, old(controller.cluster.w), controller.cluster.w, NetworksOf(old(workqueue.items)))
    {
      assert ReadyAt(controller.cluster.w);
      Drain(controller.cluster.log);
      assert ReadyAt(controller.cluster.w);
      DrainConverges(home, controller.cluster.start, old(controller.cluster.log), controller.cluster.log,
                     NetworksOf(old(workqueue.items)));
    }
  }

  /** All of the networks are there to be brought to where they should be, and none twice. */
  ghost predicate AllRipe(home: Home, w: World, refs: seq<Ref>) {
    Sane(w) && Housed(home, w) && Distinct(refs) && forall r :: r in refs ==> Ripe(w, r)
  }

  lemma DrainConverges(home: Home, start: World, log0: seq<Label>, log: seq<Label>, refs: seq<Ref>)
    requires CallsFor(start, log0, log, refs) && Run(true, start, log0).procs == map[]
    ensures ServedSince(|log0|, log) && AllRipe(home, Run(true, start, log0), refs) ==>
              Brought(home, Run(true, start, log0), Run(true, start, log), refs)
  {
    if ServedSince(|log0|, log) && AllRipe(home, Run(true, start, log0), refs) {
      AllConverge(home, start, log0, log, refs);
    }
  }
}
