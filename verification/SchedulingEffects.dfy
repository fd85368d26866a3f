// What a turn of the worker does for the subscription it is for, and that it does
// nothing to the others.

module SchedulingEffects {
  import opened FairQueue
  import opened Scheduling
  import opened SchedulingQueues
  import D = Disposal
  import R = Registry
  import T = Teardowns

  /** The subscription is gone, from the worker and, if it held no more watches, from the registry. */
  predicate Gone(w: Worker, v: Worker, id: Id)
  {
    v.subs == w.subs - {id}
  }

  /** It will have another turn. */
  predicate Again(v: Worker, id: Id)
  {
    id in v.subs && id in Waiting(v.runnable)
  }

  /** What is being taken apart has its quantum, and another turn unless that completed it. */
  ghost predicate TakenApart(w: Worker, v: Worker, id: Id, q: Quantum, torn: bool)
  {
    if q.completed then Gone(w, v, id) && id !in v.registry.subs
    else
      && Again(v, id) && v.subs.Keys == w.subs.Keys
      && (if torn then v.subs[id].stage == TearingDown(q.teardown.phase) && Part(v.subs[id].held) == q.teardown.held
               && v.registry == q.teardown.world
          else v.subs[id] == Sub(Disposing(q.disposal.phase), q.disposal.held) && v.registry == q.disposal.world)
  }

  /** What a turn does for the subscription it is for. */
  ghost predicate Serves(w: Worker, v: Worker, id: Id, finding: Finding, q: Quantum)
  {
    if id !in w.subs then v.subs == w.subs && v.registry == w.registry && id !in Waiting(v.runnable)
    else match w.subs[id].stage
      case Disposing(_) => TakenApart(w, v, id, q, false)
      case TearingDown(_) => TakenApart(w, v, id, q, true)
      case Active =>
        match finding
        case Idle => v.subs == w.subs && v.registry == w.registry && id !in Waiting(v.runnable)
        case MoreWork => v.subs == w.subs && v.registry == w.registry && Again(v, id)
        case _ => TakenApart(w, v, id, q, true)
  }

  lemma ReleasedIsGone(r: R.World, id: Id)
    requires id in r.subs ==> r.subs[id].watched == map[]
    ensures id !in Released(r, id).subs
  {
  }

  lemma TornDown(w: Worker, id: Id, q: Quantum, phase: T.Phase)
    requires id in w.subs && FairQueue.Valid(w.runnable) && FairQueue.Valid(w.allocator)
    requires T.Turn(TeardownOf(w, id, phase), q.teardown, q.completed)
    ensures TakenApart(w, TearDownTurn(w, id, q), id, q, true)
  {
    WaitingConserved(w.runnable, Op.Schedule(id));
    if q.completed { ReleasedIsGone(q.teardown.world, id); }
  }

  lemma DisposedOf(w: Worker, id: Id, q: Quantum)
    requires id in w.subs && w.subs[id].stage.Disposing? && FairQueue.Valid(w.runnable) && FairQueue.Valid(w.allocator)
    requires D.Turn(DisposalOf(w, id), q.disposal, q.completed)
    ensures TakenApart(w, DisposalTurn(w, id, q), id, q, false)
  {
    WaitingConserved(w.runnable, Op.Schedule(id));
    if q.completed {
      assert |D.Watched(q.disposal)| == 0;
      ReleasedIsGone(q.disposal.world, id);
    }
  }

  /** Nothing of the others changes: neither what they hold nor their place in the queues. */
  ghost predicate OthersKept(w: Worker, v: Worker, id: Id)
  {
    && (forall o :: o != id ==> (o in v.subs <==> o in w.subs) && (o in v.subs ==> v.subs[o] == w.subs[o]))
    && (forall o :: o != id ==> (o in Waiting(v.runnable) <==> o in Waiting(w.runnable)))
    && (forall o :: o != id ==> (o in Waiting(v.allocator) <==> o in Waiting(w.allocator)))
  }

  lemma TurnOfServes(w: Worker, id: Id, finding: Finding, q: Quantum)
    requires FairQueue.Valid(w.runnable) && FairQueue.Valid(w.allocator) && id !in Waiting(w.runnable) && !w.shuttingDown
    requires Fits(w, id, finding, q)
    ensures Serves(w, TurnOf(w, id, finding, q), id, finding, q)
  {
    WaitingConserved(w.runnable, Op.Schedule(id));
    if id in w.subs {
      match w.subs[id].stage {
        case Disposing(_) => DisposedOf(w, id, q);
        case TearingDown(phase) => TornDown(w, id, q, phase);
        case Active => if finding.Cancelled? || finding.Failed? { TornDown(w, id, q, T.PendingPaths); }
      }
    }
  }

  lemma TurnOfKeepsOthers(w: Worker, id: Id, finding: Finding, q: Quantum)
    requires FairQueue.Valid(w.runnable) && FairQueue.Valid(w.allocator) && !w.shuttingDown
    ensures OthersKept(w, TurnOf(w, id, finding, q), id)
  {
    WaitingConserved(w.runnable, Op.Schedule(id));
    WaitingConserved(w.runnable, Op.Remove(id));
    WaitingConserved(w.allocator, Op.Remove(id));
  }

  /**
   * A turn goes to the subscription that has waited for its round and comes first in it. One with more to walk has
   * another; one whose establishment was cancelled or failed, and one being disposed of, is taken apart until it is gone.
   */
  lemma TurnServes(w: Worker, finding: Finding, q: Quantum)
    requires Members(w) && Enabled(w, Turn(finding, q))
    ensures var v := After(w, Turn(finding, q));
      if Waiting(w.runnable) == {} then v.subs == w.subs && v.registry == w.registry
      else
        exists id :: Popped(w.runnable) == {id} && Serves(w, v, id, finding, q) && OthersKept(w, v, id)
  {
    WaitingConserved(w.runnable, Pop);
    if Waiting(w.runnable) != {} {
      PopIsLeast(w.runnable);
      var id := Least(Popped(w.runnable));
      var u := w.(runnable := FairQueue.Next(w.runnable, Pop));
      TurnOfServes(u, id, finding, q);
      TurnOfKeepsOthers(u, id, finding, q);
      var v := After(w, Turn(finding, q));
      assert v == TurnOf(u, id, finding, q);
      assert Popped(w.runnable) == {id} && Serves(w, v, id, finding, q) && OthersKept(w, v, id);
    }
  }

  /** A disposal begins at once: the subscription is out of the allocator, the registry knows, and its turns begin. */
  lemma DisposalBegins(w: Worker, id: Id)
    requires Members(w) && Enabled(w, Dispose(id))
    ensures var v := After(w, Dispose(id));
      && v.subs.Keys == w.subs.Keys && v.subs[id].stage == Disposing(D.PendingPaths) && v.subs[id].held == w.subs[id].held
      && Again(v, id) && id !in Waiting(v.allocator)
      && (id in w.registry.subs ==> id in v.registry.subs && v.registry.subs[id].disposing)
      && OthersKept(w, v, id)
  {
    WaitingConserved(w.runnable, Op.Remove(id));
    WaitingConserved(w.allocator, Op.Remove(id));
    WaitingConserved(FairQueue.Next(w.runnable, Op.Remove(id)), Op.Schedule(id));
  }

  /** A subscription begins with a turn and a place in the allocator; one that is woken has a turn. */
  lemma WakesAndBeginnings(w: Worker, step: Step)
    requires Members(w) && Enabled(w, step) && (step.Subscribe? || step.Wake?)
    ensures var v, id := After(w, step), if step.Wake? then step.id else w.nextId;
      && Again(v, id) && OthersKept(w, v, id)
      && (step.Subscribe? ==> id !in w.subs && v.subs[id] == Sub(Active, step.held) && v.nextId == id + 1)
      && (step.Subscribe? ==> id in Waiting(v.allocator) && id in v.registry.subs)
      && (step.Wake? ==> v.subs == w.subs)
  {
    var id := if step.Wake? then step.id else w.nextId;
    WaitingConserved(w.runnable, Op.Schedule(id));
    WaitingConserved(w.allocator, Op.Schedule(id));
  }

  /** Looking for a promotion keeps the live in the allocator, and drops the dead one it comes upon. */
  lemma LookPurges(w: Worker)
    requires Members(w) && Enabled(w, Look)
    ensures var v := After(w, Look);
      && v == w.(allocator := v.allocator)
      && Waiting(v.allocator) == Waiting(w.allocator) - (set id | id in Popped(w.allocator) && id !in w.subs)
  {
    WaitingConserved(w.allocator, Pop);
    if Popped(w.allocator) != {} {
      PopIsLeast(w.allocator);
      WaitingConserved(FairQueue.Next(w.allocator, Pop), Op.Schedule(Least(Popped(w.allocator))));
    }
  }
}
