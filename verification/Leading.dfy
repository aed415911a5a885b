/** Tools for building runs from a blank cluster, step by step, in which no request fails. */
module Leading {
  import opened Types
  import opened Names
  import opened PeerMesh
  import opened Machine
  import opened Safety
  import opened Status
  import opened GateKeeping
  import opened Converge
  import opened Finishing

  /** No request fails, and no daemon changes its list on its own. */
  ghost predicate Calm(ls: seq<Label>) {
    forall l :: l in ls ==> (l.Does? ==> FateOf(l.act).Served?) && (l.Happens? ==> !l.event.DaemonChanges?)
  }

  lemma CalmMore(ls: seq<Label>, more: seq<Label>)
    requires Calm(ls) && Calm(more)
    ensures Calm(ls + more)
  {
  }

  /** The run ls ends in w. */
  ghost predicate Leads(mesh: Mesh, ls: seq<Label>, w: World) {
    Calm(ls) && w == Run(true, Blank(mesh), ls)
  }

  lemma LeadsOn(mesh: Mesh, ls: seq<Label>, w: World, more: seq<Label>)
    requires Leads(mesh, ls, w) && Calm(more)
    ensures Leads(mesh, ls + more, Run(true, w, more))
  {
    CalmMore(ls, more);
    RunConcat(true, Blank(mesh), ls, more);
  }

  lemma LeadsOne(mesh: Mesh, ls: seq<Label>, w: World, l: Label)
    requires Leads(mesh, ls, w) && Calm([l])
    ensures Leads(mesh, ls + [l], Next(true, w, l))
  {
    LeadsOn(mesh, ls, w, [l]);
    RunOne(true, w, l);
  }

  lemma LeadsSane(mesh: Mesh, ls: seq<Label>, w: World)
    requires Leads(mesh, ls, w)
    ensures Sane(w)
  {
    BlankSane(mesh);
    RunSane(true, Blank(mesh), ls);
  }

  function Stored<T(==)>(k: Kind<T>, at: Ref): Option<T> {
    if at in k.stored then Some(k.stored[at]) else None
  }

  lemma ThreeShowings(w: World, r: Ref)
    ensures Refresh(w, r) ==
      Happen(Happen(Happen(w, ShowNet(r, Stored(w.nets, r))), ShowService(SvcRef(r), Stored(w.svcs, SvcRef(r)))),
             ShowSet(SetRef(r), Stored(w.stss, SetRef(r))))
  {
  }

  /** Three informer events bring the caches up to date. */
  lemma RefreshLeads(mesh: Mesh, ls: seq<Label>, w: World, r: Ref) returns (all: seq<Label>)
    requires Leads(mesh, ls, w)
    ensures Leads(mesh, all, Refresh(w, r))
  {
    var e1 := ShowNet(r, Stored(w.nets, r));
    var e2 := ShowService(SvcRef(r), Stored(w.svcs, SvcRef(r)));
    var e3 := ShowSet(SetRef(r), Stored(w.stss, SetRef(r)));
    all := EventLeads(mesh, ls, w, e1);
    all := EventLeads(mesh, all, Happen(w, e1), e2);
    all := EventLeads(mesh, all, Happen(Happen(w, e1), e2), e3);
    ThreeShowings(w, r);
  }

  lemma EventLeads(mesh: Mesh, ls: seq<Label>, w: World, e: Event) returns (all: seq<Label>)
    requires Leads(mesh, ls, w) && !e.DaemonChanges?
    ensures Leads(mesh, all, Happen(w, e))
  {
    LeadsOne(mesh, ls, w, Happens(e));
    all := ls + [Happens(e)];
  }

  lemma ReconcileLeads(mesh: Mesh, ls: seq<Label>, w0: World, r: Ref) returns (all: seq<Label>, w: World)
    requires Leads(mesh, ls, w0) && Fresh(w0, r) && Reachable(w0, r) && r !in w0.procs
    requires MeshedOrOpen(w0, r) && w0.nets.stored[r].spec.nodes >= 0
    ensures Leads(mesh, all, w) && r !in w.procs && Frame(w0, w, r)
    ensures Finished(w0, w, r) && Around(w0, w, r) && Stable(Refresh(w, r), r)
  {
    LeadsSane(mesh, ls, w0);
    var begin := Does(r, Begin(Served));
    var rec := CanReconcile(w0, r);
    LeadsOne(mesh, ls, w0, begin);
    LeadsOn(mesh, ls + [begin], Next(true, w0, begin), rec);
    all, w := ls + [begin] + rec, Run(true, Next(true, w0, begin), rec);
    WorkFrame(true, w0, r, Begin(Served));
    RunFrame(true, Next(true, w0, begin), rec, r);
  }

  lemma GoLeads(mesh: Mesh, ls: seq<Label>, w: World, r: Ref) returns (all: seq<Label>)
    requires Leads(mesh, ls, w)
    ensures Leads(mesh, all, Next(true, w, Does(r, Step(Served))))
  {
    LeadsOne(mesh, ls, w, Does(r, Step(Served)));
    all := ls + [Does(r, Step(Served))];
  }

  /** A network whose mesh is not complete yet comes to its pass. */
  lemma PassLeads(mesh: Mesh, ls: seq<Label>, w0: World, r: Ref)
    returns (all: seq<Label>, w: World, steps: seq<Label>)
    requires Leads(mesh, ls, w0) && Fresh(w0, r) && Reachable(w0, r) && r !in w0.procs
    requires w0.nets.stored[r].status != Seen(w0, r) && !Complete(w0.mesh, ReadyIPs(Seen(w0, r)))
    ensures Leads(mesh, all, w) && Frame(w0, w, r) && w.mesh == w0.mesh
    ensures r in w.procs && w.procs[r] == Syncing(NewPass(ReadyIPs(Seen(w0, r))))
    ensures (forall l :: l in steps ==> l.Does? && l.ref == r) && w == Run(true, w0, steps)
  {
    LeadsSane(mesh, ls, w0);
    var begin := Does(r, Begin(Served));
    var rest := ComesToPass(w0, r);
    steps := [begin] + rest;
    RunOne(true, w0, begin);
    RunConcat(true, w0, [begin], rest);
    LeadsOn(mesh, ls, w0, steps);
    all, w := ls + steps, Run(true, w0, steps);
    RunFrame(true, w0, steps, r);
  }
}
