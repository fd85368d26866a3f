// The worker's two queues: every live subscription keeps its place in them, and in a
// worker without assertions ids of dead ones may linger.

module SchedulingQueues {
  import opened FairQueue
  import opened Scheduling

  /** The allocator holds the live subscriptions not being disposed of, and the runnable queue those taken apart. */
  ghost predicate Members(w: Worker)
  {
    MembersBut(w, {})
  }

  /** Those in `x` may be missing from the runnable queue while they have their turn. */
  ghost predicate MembersBut(w: Worker, x: set<Id>)
  {
    && FairQueue.Valid(w.allocator) && FairQueue.Valid(w.runnable)
    && (forall id :: id in w.subs ==> (id in Waiting(w.allocator) <==> !w.subs[id].stage.Disposing?))
    && (forall id :: id in w.subs && id !in x && !w.subs[id].stage.Active? ==> id in Waiting(w.runnable))
    && (forall id :: id in w.subs || id in Waiting(w.allocator) || id in Waiting(w.runnable) ==> id < w.nextId)
  }

  /** Ids of subscriptions that are gone. */
  function Stale(w: Worker): set<Id>
  {
    Waiting(w.allocator) - w.subs.Keys
  }

  function StaleRunnable(w: Worker): set<Id>
  {
    Waiting(w.runnable) - w.subs.Keys
  }

  ghost predicate Clean(w: Worker)
  {
    Stale(w) == {} && StaleRunnable(w) == {}
  }

  ghost predicate SameStale(w: Worker, v: Worker)
  {
    Stale(v) == Stale(w) && StaleRunnable(v) == StaleRunnable(w)
  }

  /** What the queues see of a worker. */
  ghost predicate SameStages(w: Worker, v: Worker)
  {
    && v.subs.Keys == w.subs.Keys && v.nextId == w.nextId
    && v.allocator == w.allocator && v.runnable == w.runnable
    && (forall id :: id in w.subs ==> v.subs[id].stage.Active? == w.subs[id].stage.Active?)
    && (forall id :: id in w.subs ==> v.subs[id].stage.Disposing? == w.subs[id].stage.Disposing?)
  }

  lemma SameStagesMembers(w: Worker, v: Worker)
    requires Members(w) && SameStages(w, v)
    ensures Members(v) && SameStale(w, v)
  {
  }

  lemma PopIsLeast(q: Queue)
    requires Popped(q) != {}
    ensures Popped(q) == {Least(Popped(q))} && Least(Popped(q)) in Waiting(q)
  {
  }

  lemma BeginKeeps(w: Worker, id: Id, x: set<Id>)
    requires MembersBut(w, x) && id in w.subs
    ensures MembersBut(BeginDisposal(w, id), x + {id}) && SameStale(w, BeginDisposal(w, id))
    ensures BeginDisposal(w, id).subs.Keys == w.subs.Keys
  {
    WaitingConserved(w.allocator, Op.Remove(id));
    WaitingConserved(w.runnable, Op.Remove(id));
  }

  lemma ScheduleKeeps(w: Worker, id: Id)
    requires MembersBut(w, {id}) && id in w.subs
    ensures var v := w.(runnable := Scheduled(w.runnable, id));
      Members(v) && SameStale(w, v) && id in Waiting(v.runnable)
  {
    WaitingConserved(w.runnable, Op.Schedule(id));
  }

  /** The subscription is gone from the worker, and from the queues if `removed`. */
  lemma DropKeeps(w: Worker, id: Id, removed: bool)
    requires MembersBut(w, {id}) && id in w.subs && id !in Waiting(w.runnable)
    ensures var u := w.(subs := w.subs - {id});
      var v := if removed then u.(allocator := Without(w.allocator, id), runnable := Without(w.runnable, id)) else u;
      && Members(v) && StaleRunnable(v) == StaleRunnable(w)
      && Stale(v) == Stale(w) + (if removed || w.subs[id].stage.Disposing? then {} else {id})
  {
    WaitingConserved(w.allocator, Op.Remove(id));
    WaitingConserved(w.runnable, Op.Remove(id));
  }

  lemma TearDownKeeps(w: Worker, id: Id, q: Quantum)
    requires MembersBut(w, {id}) && id in w.subs && id !in Waiting(w.runnable) && !w.subs[id].stage.Disposing?
    ensures var v := TearDownTurn(w, id, q);
      Members(v) && StaleRunnable(v) == StaleRunnable(w) && (w.assertions ==> SameStale(w, v))
  {
    var v := TearDownTurn(w, id, q);
    DropKeeps(w, id, w.assertions);
    if !q.completed {
      var u := w.(subs := v.subs);
      assert MembersBut(u, {id}) && SameStale(w, u);
      ScheduleKeeps(u, id);
      SameStagesMembers(u.(runnable := Scheduled(u.runnable, id)), v);
    } else {
      var u := w.(subs := w.subs - {id});
      SameStagesMembers(
        if w.assertions then u.(allocator := Without(w.allocator, id), runnable := Without(w.runnable, id)) else u, v);
    }
  }

  lemma DisposalKeeps(w: Worker, id: Id, q: Quantum)
    requires MembersBut(w, {id}) && id in w.subs && id !in Waiting(w.runnable) && w.subs[id].stage.Disposing?
    ensures var v := DisposalTurn(w, id, q); Members(v) && SameStale(w, v)
  {
    var v := DisposalTurn(w, id, q);
    DropKeeps(w, id, true);
    if !q.completed {
      var u := w.(subs := v.subs);
      assert MembersBut(u, {id}) && SameStale(w, u);
      ScheduleKeeps(u, id);
      SameStagesMembers(u.(runnable := Scheduled(u.runnable, id)), v);
    } else {
      SameStagesMembers(w.(subs := w.subs - {id}, allocator := Without(w.allocator, id),
                           runnable := Without(w.runnable, id)), v);
    }
  }

  /** A turn leaves no new dead id behind, except where an establishment's teardown ends without assertions. */
  lemma TurnKeeps(w: Worker, id: Id, finding: Finding, q: Quantum)
    requires MembersBut(w, {id}) && id !in Waiting(w.runnable)
    ensures var v := TurnOf(w, id, finding, q);
      Members(v) && StaleRunnable(v) == StaleRunnable(w) && (w.assertions || w.shuttingDown ==> SameStale(w, v))
  {
    if id in w.subs {
      BeginKeeps(w, id, {id});
      assert {id} + {id} == {id};
      var b := Begun(w, id);
      WaitingConserved(w.runnable, Op.Remove(id));
      match b.subs[id].stage {
        case Disposing(_) => DisposalKeeps(b, id, q);
        case TearingDown(_) => TearDownKeeps(b, id, q);
        case Active =>
          ScheduleKeeps(b, id);
          TearDownKeeps(b, id, q);
      }
    }
  }

  lemma TopologyTurnKeeps(w: Worker, finding: Finding, q: Quantum)
    requires Members(w)
    ensures var v := TopologyTurn(w, finding, q).0;
      && Members(v)
      && (w.assertions || w.shuttingDown ==> Stale(v) == Stale(w))
      && StaleRunnable(v) == StaleRunnable(w) - Popped(w.runnable)
    ensures TopologyTurn(w, finding, q).1 <==> Waiting(w.runnable) != {}
  {
    WaitingConserved(w.runnable, Pop);
    if Popped(w.runnable) != {} {
      PopIsLeast(w.runnable);
      var id := Least(Popped(w.runnable));
      var u := w.(runnable := Next(w.runnable, Pop));
      assert MembersBut(u, {id}) && Stale(u) == Stale(w) && StaleRunnable(u) == StaleRunnable(w) - {id};
      TurnKeeps(u, id, finding, q);
    }
  }

  lemma DisposeNextKeeps(w: Worker)
    requires Members(w) && !NamesTheDead(w)
    ensures var b := DisposeNext(w);
      && Members(b) && SameStale(w, b) && b.subs.Keys == w.subs.Keys
      && (Waiting(b.runnable) == {} ==> w.subs == map[] && Waiting(b.allocator) == {})
  {
    WaitingConserved(w.allocator, Pop);
    if Popped(w.allocator) != {} {
      PopIsLeast(w.allocator);
      var id := Least(Popped(w.allocator));
      var u := w.(allocator := Next(w.allocator, Pop));
      var d := BeginDisposal(w, id);
      BeginKeeps(w, id, {});
      assert {} + {id} == {id};
      WaitingConserved(u.allocator, Op.Remove(id));
      assert Waiting(BeginDisposal(u, id).allocator) == Waiting(d.allocator) && FairQueue.Valid(BeginDisposal(u, id).allocator) by {
        WaitingConserved(w.allocator, Op.Remove(id));
      }
      var e := BeginDisposal(u, id);
      assert MembersBut(e, {id}) && SameStale(w, e);
      ScheduleKeeps(e, id);
    } else {
      assert Waiting(w.allocator) == {};
      if w.subs != map[] {
        var id :| id in w.subs;
        assert id in Waiting(w.runnable);
      }
    }
  }

  lemma NamesAreStale(w: Worker)
    requires NamesTheDead(w)
    ensures Stale(w) != {}
  {
    PopIsLeast(w.allocator);
    assert Least(Popped(w.allocator)) in Stale(w);
  }

  lemma LookKeeps(w: Worker)
    requires Members(w)
    ensures Members(PromotionLook(w)) && StaleRunnable(PromotionLook(w)) == StaleRunnable(w)
    ensures Stale(PromotionLook(w)) == Stale(w) - Popped(w.allocator)
  {
    WaitingConserved(w.allocator, Pop);
    if Popped(w.allocator) != {} {
      PopIsLeast(w.allocator);
      var id := Least(Popped(w.allocator));
      var u := w.(allocator := Next(w.allocator, Pop));
      if id in w.subs {
        WaitingConserved(u.allocator, Op.Schedule(id));
      }
    }
  }

  lemma SubscribeKeeps(w: Worker, s: Sub)
    requires Members(w) && s.stage.Active?
    ensures var v := w.(subs := w.subs[w.nextId := s], allocator := Scheduled(w.allocator, w.nextId),
                        runnable := Scheduled(w.runnable, w.nextId), nextId := w.nextId + 1);
      Members(v) && SameStale(w, v)
  {
    WaitingConserved(w.allocator, Op.Schedule(w.nextId));
    WaitingConserved(w.runnable, Op.Schedule(w.nextId));
  }

  /** Every step keeps the members, and dead ids are left behind only by a worker without assertions. */
  lemma AfterMembers(w: Worker, step: Step)
    requires Members(w) && Enabled(w, step)
    ensures Members(After(w, step))
    ensures w.assertions && Clean(w) ==> Clean(After(w, step))
    ensures w.shuttingDown ==> Stale(After(w, step)) == Stale(w)
  {
    if step.Subscribe? {
      SubscribeKeeps(w, Sub(Active, step.held));
      SameStagesMembers(w.(subs := w.subs[w.nextId := Sub(Active, step.held)], allocator := Scheduled(w.allocator, w.nextId),
                           runnable := Scheduled(w.runnable, w.nextId), nextId := w.nextId + 1), After(w, step));
    } else if step.Dispose? {
      BeginKeeps(w, step.id, {});
      assert {} + {step.id} == {step.id};
      ScheduleKeeps(BeginDisposal(w, step.id), step.id);
    } else if step.Wake? {
      WaitingConserved(w.runnable, Op.Schedule(step.id));
    } else if step.Look? {
      LookKeeps(w);
    } else if step.Turn? {
      TopologyTurnKeeps(w, step.finding, step.quantum);
    } else if step.ShutdownStep? {
      ShutdownKeeps(w, step);
    } else {
      SameStagesMembers(w, After(w, step));
    }
  }

  lemma ShutdownKeeps(w: Worker, step: Step)
    requires Members(w) && Enabled(w, step) && step.ShutdownStep?
    ensures Members(After(w, step))
    ensures w.assertions && Clean(w) ==> Clean(After(w, step))
    ensures w.shuttingDown ==> Stale(After(w, step)) == Stale(w)
  {
    DisposeNextKeeps(w);
    TopologyTurnKeeps(DisposeNext(w), Idle, step.quantum);
    SameStagesMembers(TopologyTurn(DisposeNext(w), Idle, step.quantum).0, After(w, step));
  }
}
