// The registry under the worker's turns: it serves exactly the subscriptions the worker
// has, and a turn of a disposal is one turn less to come.

module SchedulingRegistry {
  import opened FairQueue
  import opened Scheduling
  import D = Disposal
  import R = Registry
  import RT = RegistryTheorems
  import T = Teardowns

  ghost predicate Fit(w: Worker, id: Id)
    requires id in w.subs
  {
    && id in w.registry.subs
    && match w.subs[id].stage
       case Active => !w.registry.subs[id].disposing
       case TearingDown(phase) => T.Valid(TeardownOf(w, id, phase))
       case Disposing(_) => D.Valid(DisposalOf(w, id))
  }

  ghost predicate Registered(w: Worker)
  {
    && RT.Inv(w.registry) && w.registry.subs.Keys == w.subs.Keys
    && (forall id :: id in w.subs ==> Fit(w, id))
  }

  /** The registry has the same for a subscription as before, up to its certainty. */
  predicate SameFor(r: R.World, s: R.World, id: Id)
  {
    && id in r.subs && id in s.subs
    && s.subs[id].watched == r.subs[id].watched && s.subs[id].disposing == r.subs[id].disposing
  }

  lemma OtherFits(w: Worker, v: Worker, id: Id)
    requires id in w.subs && Fit(w, id) && id in v.subs && v.subs[id] == w.subs[id]
    requires RT.Inv(v.registry) && SameFor(w.registry, v.registry, id)
    ensures Fit(v, id)
  {
  }

  /** All but one subscription are as before. */
  lemma OthersFit(w: Worker, v: Worker, id: Id)
    requires Registered(w) && RT.Inv(v.registry) && v.registry.subs.Keys == v.subs.Keys
    requires forall o :: o in v.subs && o != id ==>
               o in w.subs && v.subs[o] == w.subs[o] && SameFor(w.registry, v.registry, o)
    requires id in v.subs ==> Fit(v, id)
    ensures Registered(v)
  {
    forall o | o in v.subs ensures Fit(v, o) {
      if o != id { OtherFits(w, v, o); }
    }
  }

  lemma ServedFits(w: Worker, step: R.Step, id: Id)
    requires Registered(w) && R.Enabled(w.registry, step) && Served(w, step) && id in w.subs
    ensures Fit(w.(registry := R.Next(w.registry, step)), id)
  {
    T.StepServes(w.registry, step, id);
    match w.subs[id].stage {
      case Active =>
      case TearingDown(phase) => T.RegistryStepIsBetween(TeardownOf(w, id, phase), step);
      case Disposing(_) => D.RegistryStepIsBetween(DisposalOf(w, id), step);
    }
  }

  lemma ServedKeys(w: Worker, step: R.Step)
    requires RT.Inv(w.registry) && w.registry.subs.Keys == w.subs.Keys
    requires R.Enabled(w.registry, step) && Served(w, step)
    ensures R.Next(w.registry, step).subs.Keys == w.subs.Keys
  {
    forall id ensures id in R.Next(w.registry, step).subs <==> id in w.registry.subs {
      ServedKey(w, step, id);
    }
  }

  lemma ServedKey(w: Worker, step: R.Step, id: Id)
    requires RT.Inv(w.registry) && R.Enabled(w.registry, step) && Served(w, step)
    ensures id in R.Next(w.registry, step).subs <==> id in w.registry.subs
  {
    match step {
      case Watch(other, path, allowNew, calls) => T.WatchServes(w.registry, other, path, allowNew, calls, id);
      case Handle => T.HandleServes(w.registry, id);
      case Forget(other, path) => D.ForgetKeepsPeers(w.registry, other, path);
      case _ =>
    }
  }

  lemma ServedKeeps(w: Worker, step: R.Step)
    requires Registered(w) && R.Enabled(w.registry, step) && Served(w, step)
    ensures Registered(w.(registry := R.Next(w.registry, step)))
  {
    var v := w.(registry := R.Next(w.registry, step));
    D.RegistryStepKeepsInv(w.registry, step);
    ServedKeys(w, step);
    forall id | id in v.subs ensures Fit(v, id) {
      ServedFits(w, step, id);
    }
  }

  lemma SubscribeKeeps(w: Worker, limit: R.Option<nat>, held: D.Holdings)
    requires Registered(w) && R.Enabled(w.registry, R.Subscribe(w.nextId, limit))
    ensures Registered(w.(subs := w.subs[w.nextId := Sub(Active, held)],
                          registry := R.Next(w.registry, R.Subscribe(w.nextId, limit))))
  {
    D.RegistryStepKeepsInv(w.registry, R.Subscribe(w.nextId, limit));
    OthersFit(w, w.(subs := w.subs[w.nextId := Sub(Active, held)],
                    registry := R.Next(w.registry, R.Subscribe(w.nextId, limit))), w.nextId);
  }

  lemma BeginKeeps(w: Worker, id: Id)
    requires Registered(w) && id in w.subs
    ensures Registered(BeginDisposal(w, id)) && Costs(BeginDisposal(w, id)) == Costs(w)
  {
    if !w.subs[id].stage.Disposing? {
      var r := R.Next(w.registry, R.Dispose(id));
      D.RegistryStepKeepsInv(w.registry, R.Dispose(id));
      BegunRegistered(w, r, id);
    }
    BeginCosts(w, id);
  }

  lemma BeginCosts(w: Worker, id: Id)
    requires id in w.subs
    ensures Costs(BeginDisposal(w, id)) == Costs(w)
  {
    var b := BeginDisposal(w, id);
    forall o | o in w.subs ensures Cost(b, o) == Cost(w, o) {
      BeginCost(w, id, o);
    }
    CostsAre(b, Costs(w));
  }

  lemma BeginCost(w: Worker, id: Id, o: Id)
    requires id in w.subs && o in w.subs
    ensures Cost(BeginDisposal(w, id), o) == Cost(w, o)
  {
  }

  lemma BegunRegistered(w: Worker, r: R.World, id: Id)
    requires Registered(w) && id in w.subs && !w.subs[id].stage.Disposing? && RT.Inv(r)
    requires r == w.registry.(subs := w.registry.subs[id := w.registry.subs[id].(disposing := true)])
    ensures Registered(BeginDisposal(w, id))
  {
    var v := w.(subs := w.subs[id := w.subs[id].(stage := Disposing(D.PendingPaths))], registry := r);
    DisposingRegistered(w, v, r, id);
    SameRegistered(v, BeginDisposal(w, id));
  }

  lemma DisposingRegistered(w: Worker, v: Worker, r: R.World, id: Id)
    requires Registered(w) && id in w.subs && RT.Inv(r)
    requires r == w.registry.(subs := w.registry.subs[id := w.registry.subs[id].(disposing := true)])
    requires v == w.(subs := w.subs[id := w.subs[id].(stage := Disposing(D.PendingPaths))], registry := r)
    ensures Registered(v)
  {
    BegunFits(v, id);
    OthersFit(w, v, id);
  }

  /** A disposal that has not removed anything yet. */
  lemma BegunFits(w: Worker, id: Id)
    requires id in w.subs && w.subs[id].stage == Disposing(D.PendingPaths) && RT.Inv(w.registry)
    requires id in w.registry.subs && w.registry.subs[id].disposing
    ensures Fit(w, id)
  {
    assert D.Valid(DisposalOf(w, id));
  }

  /** A subscription whose watches are gone leaves the worker and the registry. */
  lemma DropKeeps(w: Worker, r: R.World, id: Id)
    requires Registered(w) && id in w.subs && RT.Inv(r) && D.PeersUntouched(w.registry, r, id)
    requires R.Enabled(r, R.Release(id))
    ensures Registered(w.(subs := w.subs - {id}, registry := Released(r, id)))
  {
    D.RegistryStepKeepsInv(r, R.Release(id));
    DroppedRegistered(w, Released(r, id), id);
  }

  lemma DroppedRegistered(w: Worker, r: R.World, id: Id)
    requires Registered(w) && id in w.subs && RT.Inv(r)
    requires r.subs.Keys == w.subs.Keys - {id} && (forall o :: o in r.subs ==> r.subs[o] == w.registry.subs[o])
    ensures Registered(w.(subs := w.subs - {id}, registry := r))
  {
    OthersFit(w, w.(subs := w.subs - {id}, registry := r), id);
  }

  lemma DropCosts(w: Worker, r: R.World, id: Id)
    requires id in w.subs && w.registry.subs.Keys == w.subs.Keys
    requires D.PeersUntouched(w.registry, r, id) && R.Enabled(r, R.Release(id))
    ensures Costs(w.(subs := w.subs - {id}, registry := Released(r, id))) == Costs(w) - {id}
  {
  }

  lemma TearDownKeeps(w: Worker, id: Id, phase: T.Phase, q: Quantum)
    requires Registered(w) && id in w.subs && T.Turn(TeardownOf(w, id, phase), q.teardown, q.completed)
    ensures Registered(TearDownTurn(w, id, q))
  {
    var v := TearDownTurn(w, id, q);
    if q.completed {
      DropKeeps(w, q.teardown.world, id);
      SameRegistered(w.(subs := w.subs - {id}, registry := Released(q.teardown.world, id)), v);
    } else {
      assert TeardownOf(v, id, q.teardown.phase) == q.teardown;
      OthersFit(w, v, id);
    }
  }

  lemma DisposalKeeps(w: Worker, id: Id, q: Quantum)
    requires Registered(w) && id in w.subs && w.subs[id].stage.Disposing?
    requires D.Turn(DisposalOf(w, id), q.disposal, q.completed)
    ensures Registered(DisposalTurn(w, id, q))
  {
    var v := DisposalTurn(w, id, q);
    if q.completed {
      CompletedCanRelease(DisposalOf(w, id), q);
      DropKeeps(w, q.disposal.world, id);
      SameRegistered(w.(subs := w.subs - {id}, registry := Released(q.disposal.world, id)), v);
    } else {
      assert DisposalOf(v, id) == q.disposal;
      OthersFit(w, v, id);
    }
  }

  lemma CompletedCanRelease(s: D.State, q: Quantum)
    requires q.completed && D.Turn(s, q.disposal, true)
    ensures R.Enabled(q.disposal.world, R.Release(s.id))
  {
    assert |D.Watched(q.disposal)| == 0;
  }

  lemma TotalIsCost(w: Worker, id: Id)
    requires id in w.subs && w.subs[id].stage.Disposing?
    ensures Cost(w, id) == D.Total(DisposalOf(w, id)) / MAX_DISPOSAL_ITEMS_PER_TURN + 1
  {
  }

  lemma DisposalCosts(w: Worker, id: Id, q: Quantum)
    requires id in w.subs && w.subs[id].stage.Disposing? && w.registry.subs.Keys == w.subs.Keys
    requires D.Turn(DisposalOf(w, id), q.disposal, q.completed)
    ensures var v := DisposalTurn(w, id, q);
      if q.completed then Cost(w, id) == 1 && Costs(v) == Costs(w) - {id}
      else id in v.subs && Cost(v, id) + 1 == Cost(w, id) && Costs(v) == Costs(w)[id := Cost(v, id)]
  {
    TotalIsCost(w, id);
    if q.completed {
      CompletedCanRelease(DisposalOf(w, id), q);
      CompletedCosts(w, id, q);
    } else {
      ContinuedCosts(w, id, q);
    }
  }

  lemma CompletedCosts(w: Worker, id: Id, q: Quantum)
    requires id in w.subs && w.registry.subs.Keys == w.subs.Keys && q.completed
    requires D.PeersUntouched(w.registry, q.disposal.world, id) && R.Enabled(q.disposal.world, R.Release(id))
    ensures Costs(DisposalTurn(w, id, q)) == Costs(w) - {id}
  {
    DropCosts(w, q.disposal.world, id);
    var u := w.(subs := w.subs - {id}, registry := Released(q.disposal.world, id));
    SameCosts(u, DisposalTurn(w, id, q));
  }

  lemma SameCosts(w: Worker, v: Worker)
    requires v.subs == w.subs && v.registry == w.registry
    ensures Costs(v) == Costs(w)
  {
  }

  lemma ContinuedCosts(w: Worker, id: Id, q: Quantum)
    requires id in w.subs && w.subs[id].stage.Disposing? && w.registry.subs.Keys == w.subs.Keys && !q.completed
    requires q.disposal.id == id && D.PeersUntouched(w.registry, q.disposal.world, id)
    ensures var v := DisposalTurn(w, id, q);
      && id in v.subs && Cost(v, id) == D.Total(q.disposal) / MAX_DISPOSAL_ITEMS_PER_TURN + 1
      && Costs(v) == Costs(w)[id := Cost(v, id)]
  {
    var v := DisposalTurn(w, id, q);
    TotalIsCost(v, id);
    assert DisposalOf(v, id) == q.disposal;
    PeersCost(w, v, id);
  }

  lemma PeersCost(w: Worker, v: Worker, id: Id)
    requires id in w.subs && id in v.subs && v.subs == w.subs[id := v.subs[id]]
    requires w.registry.subs.Keys == w.subs.Keys && D.PeersUntouched(w.registry, v.registry, id)
    ensures Costs(v) == Costs(w)[id := Cost(v, id)]
  {
    var costs := Costs(w)[id := Cost(v, id)];
    forall o | o in v.subs ensures costs[o] == Cost(v, o) {
      if o != id { PeerCost(w, v, o); }
    }
    CostsAre(v, costs);
  }

  lemma CostsAre(w: Worker, costs: map<Id, nat>)
    requires costs.Keys == w.subs.Keys && forall id :: id in w.subs ==> costs[id] == Cost(w, id)
    ensures Costs(w) == costs
  {
  }

  lemma PeerCost(w: Worker, v: Worker, id: Id)
    requires id in w.subs && id in v.subs && v.subs[id] == w.subs[id]
    requires id in w.registry.subs && id in v.registry.subs && v.registry.subs[id] == w.registry.subs[id]
    ensures Cost(v, id) == Cost(w, id)
  {
  }

  lemma SameRegistered(w: Worker, v: Worker)
    requires Registered(w) && v.subs == w.subs && v.registry == w.registry
    ensures Registered(v) && Costs(v) == Costs(w)
  {
    forall id | id in v.subs ensures Fit(v, id) {
      OtherFits(w, v, id);
    }
  }

  lemma TurnKeeps(w: Worker, id: Id, finding: Finding, q: Quantum)
    requires Registered(w) && Fits(w, id, finding, q)
    ensures Registered(TurnOf(w, id, finding, q))
  {
    if id in w.subs {
      BeginKeeps(w, id);
      var b := Begun(w, id);
      match b.subs[id].stage {
        case Disposing(_) => DisposalKeeps(b, id, q);
        case TearingDown(phase) => TearDownKeeps(b, id, phase, q);
        case Active =>
          SameRegistered(b, b.(runnable := Scheduled(b.runnable, id)));
          if finding.Cancelled? || finding.Failed? {
            TearDownKeeps(b, id, T.PendingPaths, q);
          }
      }
    }
  }

  lemma TopologyTurnRegistered(w: Worker, finding: Finding, q: Quantum)
    requires Registered(w) && TurnFits(w, finding, q)
    ensures Registered(TopologyTurn(w, finding, q).0)
  {
    var u := w.(runnable := Next(w.runnable, Pop));
    SameRegistered(w, u);
    if Popped(w.runnable) != {} {
      TurnKeeps(u, Least(Popped(w.runnable)), finding, q);
    }
  }

  lemma DisposeNextRegistered(w: Worker)
    requires Registered(w) && !NamesTheDead(w)
    ensures Registered(DisposeNext(w)) && Costs(DisposeNext(w)) == Costs(w)
  {
    var u := w.(allocator := Next(w.allocator, Pop));
    SameRegistered(w, u);
    if Popped(w.allocator) != {} {
      var id := Least(Popped(w.allocator));
      BeginKeeps(u, id);
      SameRegistered(BeginDisposal(u, id), DisposeNext(w));
    }
  }

  lemma WatchesAreHeld(r: R.World)
    requires RT.Inv(r)
    ensures r.watches == map[] || exists id :: id in r.subs
  {
    if forall d :: d !in r.watches {
      assert r.watches.Keys == {};
    } else {
      var d :| d in r.watches;
      var x :| x in r.watches[d].interests;
      assert x.id in r.subs;
    }
  }

  lemma IdentitiesAreWatched(r: R.World)
    requires RT.Inv(r)
    ensures r.identities == map[] || exists d :: d in r.watches
  {
    if forall i :: i !in r.identities {
      assert r.identities.Keys == {};
    } else {
      var i :| i in r.identities;
      var d: R.Wd := r.identities[i];
      assert d in r.watches;
    }
  }

  /** Without subscriptions no watch is registered and no identity indexed. */
  lemma NothingWatched(r: R.World)
    requires RT.Inv(r) && r.subs == map[]
    ensures r.watches == map[] && r.identities == map[]
  {
    WatchesAreHeld(r);
    IdentitiesAreWatched(r);
  }

  // ----- turns to come -----------------------------------------------------

  /** The turns the subscription's disposal takes, or would take if it began now. */
  function Cost(w: Worker, id: Id): nat
    requires id in w.subs
  {
    var watched := if id in w.registry.subs then |w.registry.subs[id].watched| else 0;
    (watched + D.Items(w.subs[id].held)) / MAX_DISPOSAL_ITEMS_PER_TURN + 1
  }

  function Costs(w: Worker): map<Id, nat>
  {
    map id | id in w.subs :: Cost(w, id)
  }

  function TurnsLeft(costs: map<Id, nat>): nat
  {
    if costs == map[] then 0
    else
      var id := Least(costs.Keys);
      costs[id] + TurnsLeft(costs - {id})
  }

  lemma {:induction false} TurnsLeftAt(costs: map<Id, nat>, id: Id)
    requires id in costs
    ensures TurnsLeft(costs) == costs[id] + TurnsLeft(costs - {id})
    decreases |costs|
  {
    var first := Least(costs.Keys);
    if id != first {
      TurnsLeftAt(costs - {first}, id);
      TurnsLeftAt(costs - {id}, first);
      assert costs - {first} - {id} == costs - {id} - {first};
    }
  }

  /** A turn during shutdown is one turn off what is left. */
  lemma ShutdownTurnCosts(w: Worker, id: Id, q: Quantum)
    requires Registered(w) && id in w.subs && w.shuttingDown && Fits(w, id, Idle, q)
    ensures TurnsLeft(Costs(TurnOf(w, id, Idle, q))) + 1 == TurnsLeft(Costs(w))
  {
    BeginKeeps(w, id);
    DisposingTurnCosts(Begun(w, id), id, q);
  }

  lemma DisposingTurnCosts(w: Worker, id: Id, q: Quantum)
    requires Registered(w) && id in w.subs && w.subs[id].stage.Disposing?
    requires D.Turn(DisposalOf(w, id), q.disposal, q.completed)
    ensures TurnsLeft(Costs(DisposalTurn(w, id, q))) + 1 == TurnsLeft(Costs(w))
  {
    var v := DisposalTurn(w, id, q);
    DisposalCosts(w, id, q);
    OneOff(Costs(w), Costs(v), id);
  }

  lemma OneOff(costs: map<Id, nat>, after: map<Id, nat>, id: Id)
    requires id in costs
    requires (costs[id] == 1 && after == costs - {id})
             || (id in after && after[id] + 1 == costs[id] && after == costs[id := after[id]])
    ensures TurnsLeft(after) + 1 == TurnsLeft(costs)
  {
    TurnsLeftAt(costs, id);
    if id in after {
      TurnsLeftAt(after, id);
      assert after - {id} == costs - {id};
    }
  }
}
