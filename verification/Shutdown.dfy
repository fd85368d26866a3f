// A shutdown, from any state a run reaches: it ends, and it ends well exactly when the
// allocator names no dead subscription.

module Shutdown {
  import opened FairQueue
  import opened Scheduling
  import opened SchedulingQueues
  import opened SchedulingRegistry
  import Exclusions
  import D = Disposal
  import R = Registry
  import RT = RegistryTheorems
  import T = Teardowns

  /** The last subscription is gone from the worker and from the registry, and with it the last watch. */
  ghost predicate Closed(w: Worker)
  {
    && w.shuttingDown && w.subs == map[] && w.registry.subs == map[]
    && w.registry.watches == map[] && w.registry.identities == map[]
  }

  /** The registry is in order until a shutdown that has closed everything forgets its lifetimes. */
  ghost predicate Inv(w: Worker)
  {
    Members(w) && (Registered(w) || Closed(w))
  }

  lemma EmptyIsClosed(w: Worker)
    requires Inv(w) && w.shuttingDown && w.subs == map[]
    ensures Closed(w)
  {
    if !Closed(w) {
      assert w.registry.subs.Keys == {};
      NothingWatched(w.registry);
    }
  }

  /** What a finished shutdown leaves: no subscription, no queue entry, no watch, and no lifetime. */
  predicate Emptied(w: Worker)
  {
    && w.subs == map[] && Waiting(w.allocator) == {} && Waiting(w.runnable) == {}
    && w.registry.watches == map[] && w.registry.identities == map[]
    && w.registry.retired == map[] && w.registry.exhausted == {}
  }

  /** The disposal turns to come, and a turn for each dead id that waits for one. */
  function TurnsToCome(w: Worker): nat
  {
    TurnsLeft(Costs(w)) + |StaleRunnable(w)|
  }

  lemma Smaller(s: set<Id>, t: set<Id>)
    requires s <= t
    ensures |s| <= |t|
  {
    assert t == s + (t - s);
  }

  /** The second half of a shutdown turn while the runnable queue names anyone. */
  lemma TurnProgresses(b: Worker, q: Quantum)
    requires Inv(b) && b.shuttingDown && TurnFits(b, Idle, q) && Waiting(b.runnable) != {}
    ensures var t := TopologyTurn(b, Idle, q).0;
      Inv(t) && t.shuttingDown && Stale(t) == Stale(b) && TurnsToCome(t) < TurnsToCome(b)
  {
    TopologyTurnKeeps(b, Idle, q);
    PopIsLeast(b.runnable);
    var id := Least(Popped(b.runnable));
    var t := TopologyTurn(b, Idle, q).0;
    if id in b.subs {
      LiveTurnProgresses(b, q);
    } else {
      assert id in StaleRunnable(b) && StaleRunnable(t) == StaleRunnable(b) - {id};
      var u := b.(runnable := Next(b.runnable, Pop));
      SameCosts(b, u);
      if Registered(b) { SameRegistered(b, u); }
    }
  }

  lemma LiveTurnProgresses(b: Worker, q: Quantum)
    requires Inv(b) && b.shuttingDown && TurnFits(b, Idle, q) && Popped(b.runnable) != {}
    requires Least(Popped(b.runnable)) in b.subs
    ensures var t := TopologyTurn(b, Idle, q).0;
      Registered(t) && t.shuttingDown && TurnsToCome(t) < TurnsToCome(b)
  {
    TopologyTurnKeeps(b, Idle, q);
    TopologyTurnRegistered(b, Idle, q);
    var u := b.(runnable := Next(b.runnable, Pop));
    SameRegistered(b, u);
    ShutdownTurnCosts(u, Least(Popped(b.runnable)), q);
    Smaller(StaleRunnable(TopologyTurn(b, Idle, q).0), StaleRunnable(b));
  }

  lemma DisposeNextInv(w: Worker)
    requires Inv(w) && !NamesTheDead(w) && w.shuttingDown
    ensures Inv(DisposeNext(w)) && Costs(DisposeNext(w)) == Costs(w) && DisposeNext(w).shuttingDown
  {
    DisposeNextKeeps(w);
    if Registered(w) {
      DisposeNextRegistered(w);
    } else {
      assert DisposeNext(w) == w.(allocator := Next(w.allocator, Pop));
      SameCosts(w, DisposeNext(w));
    }
  }

  /** Nobody is left to have a turn, so the lifetimes go. */
  lemma LifetimesGo(w: Worker, q: Quantum, kept: R.World)
    requires w.shuttingDown && Inv(w) && !NamesTheDead(w) && ShutdownFits(w, q, kept)
    requires Waiting(DisposeNext(w).runnable) == {}
    ensures var r := ShutdownTurn(w, q, kept);
      && !r.Panic?
      && (r.Continue? ==>
           && Inv(r.worker) && r.worker.shuttingDown && Stale(r.worker) == Stale(w)
           && TurnsToCome(r.worker) == TurnsToCome(w) && Lifetimes(r.worker.registry) < Lifetimes(w.registry))
      && (r.Stop? ==> Emptied(r.worker) && Stale(w) == {})
  {
    DisposeNextKeeps(w);
    EmptyIsClosed(w);
    var b := DisposeNext(w);
    var t := TopologyTurn(b, Idle, q).0;
    TopologyTurnKeeps(b, Idle, q);
    assert t.subs == map[] && t.registry == w.registry;
    SameStagesMembers(t, t.(registry := kept));
    assert Costs(t.(registry := kept)) == map[] == Costs(w);
  }

  /**
   * A shutdown turn panics only on a dead id at the head of the allocator. Otherwise it brings the end nearer and
   * leaves the same dead ids, or it is the last, and then nothing at all is left.
   */
  lemma ShutdownProgresses(w: Worker, q: Quantum, kept: R.World)
    requires w.shuttingDown && Inv(w) && ShutdownFits(w, q, kept)
    ensures var r := ShutdownTurn(w, q, kept);
      && (r.Panic? <==> NamesTheDead(w)) && (r.Panic? ==> r.cause.MemberNotLive? && Stale(w) != {})
      && (r.Continue? ==>
           && Inv(r.worker) && r.worker.shuttingDown && Stale(r.worker) == Stale(w)
           && (TurnsToCome(r.worker) < TurnsToCome(w)
               || (TurnsToCome(r.worker) == TurnsToCome(w)
                   && Lifetimes(r.worker.registry) < Lifetimes(w.registry))))
      && (r.Stop? ==> Emptied(r.worker) && Stale(w) == {})
  {
    if NamesTheDead(w) {
      NamesAreStale(w);
    } else {
      if Waiting(DisposeNext(w).runnable) != {} {
        WorkProgresses(w, q, kept);
      } else {
        LifetimesGo(w, q, kept);
      }
    }
  }

  lemma WorkProgresses(w: Worker, q: Quantum, kept: R.World)
    requires w.shuttingDown && Inv(w) && !NamesTheDead(w) && ShutdownFits(w, q, kept)
    requires Waiting(DisposeNext(w).runnable) != {}
    ensures var r := ShutdownTurn(w, q, kept);
      && r.Continue? && Inv(r.worker) && r.worker.shuttingDown && Stale(r.worker) == Stale(w)
      && TurnsToCome(r.worker) < TurnsToCome(w)
  {
    DisposeNextKeeps(w);
    DisposeNextInv(w);
    TopologyTurnKeeps(DisposeNext(w), Idle, q);
    TurnProgresses(DisposeNext(w), q);
  }

  // ----- over whole runs ---------------------------------------------------

  ghost predicate Start(w: Worker)
  {
    && w.subs == map[] && w.allocator == Queue({}, {}) && w.runnable == Queue({}, {}) && !w.shuttingDown
    && RT.Start(w.registry)
  }

  ghost predicate Run(states: seq<Worker>, steps: seq<Step>)
  {
    && |states| == |steps| + 1 && Start(states[0])
    && forall k {:trigger steps[k]} :: 0 <= k < |steps| ==>
         Enabled(states[k], steps[k]) && states[k + 1] == After(states[k], steps[k])
  }

  lemma AfterRegistered(w: Worker, step: Step)
    requires Registered(w) && Enabled(w, step) && !step.ShutdownStep?
    ensures Registered(After(w, step))
  {
    match step {
      case Subscribe(limit, held) =>
        SchedulingRegistry.SubscribeKeeps(w, limit, held);
        SameRegistered(w.(subs := w.subs[w.nextId := Sub(Active, held)],
                          registry := R.Next(w.registry, R.Subscribe(w.nextId, limit))), After(w, step));
      case Dispose(id) =>
        SchedulingRegistry.BeginKeeps(w, id);
        SameRegistered(BeginDisposal(w, id), After(w, step));
      case Gather(id, held) => OthersFit(w, After(w, step), id);
      case Registry(s) => ServedKeeps(w, s);
      case Look => SameRegistered(w, After(w, step));
      case Turn(finding, q) => TopologyTurnRegistered(w, finding, q);
      case Wake(_) => SameRegistered(w, After(w, step));
      case Shutdown => SameRegistered(w, After(w, step));
      case ShutdownStep(_, _) =>
    }
  }

  /** Once everything is closed only the kernel and further shutdown turns are left. */
  lemma AfterClosed(w: Worker, step: Step)
    requires Closed(w) && Enabled(w, step) && !step.ShutdownStep?
    ensures Closed(After(w, step))
  {
  }

  lemma AfterKeeps(w: Worker, step: Step)
    requires Inv(w) && Enabled(w, step)
    ensures Inv(After(w, step)) && After(w, step).assertions == w.assertions
    ensures w.assertions && Clean(w) ==> Clean(After(w, step))
    ensures w.shuttingDown ==> After(w, step).shuttingDown && Stale(After(w, step)) == Stale(w)
  {
    AfterMembers(w, step);
    FlagsStay(w, step);
    if step.ShutdownStep? {
      ShutdownProgresses(w, step.quantum, step.kept);
    } else if Registered(w) {
      AfterRegistered(w, step);
    } else {
      AfterClosed(w, step);
    }
  }

  lemma TurnFlags(w: Worker, finding: Finding, q: Quantum)
    ensures TopologyTurn(w, finding, q).0.assertions == w.assertions
    ensures TopologyTurn(w, finding, q).0.shuttingDown == w.shuttingDown
  {
  }

  lemma FlagsStay(w: Worker, step: Step)
    requires Enabled(w, step)
    ensures After(w, step).assertions == w.assertions
  {
    match step {
      case Turn(finding, q) => TurnFlags(w, finding, q);
      case ShutdownStep(q, kept) => TurnFlags(DisposeNext(w), Idle, q);
      case _ =>
    }
  }

  lemma {:induction false} RunHolds(states: seq<Worker>, steps: seq<Step>, k: nat)
    requires Run(states, steps) && k < |states|
    ensures Inv(states[k]) && states[k].assertions == states[0].assertions
    ensures states[0].assertions ==> Clean(states[k])
    decreases k
  {
    if k > 0 {
      RunHolds(states, steps, k - 1);
      AfterKeeps(states[k - 1], steps[k - 1]);
    } else {
      RT.StartHolds(states[0].registry);
    }
  }

  lemma {:induction false} StaleStays(states: seq<Worker>, steps: seq<Step>, i: nat, k: nat)
    requires Run(states, steps) && i <= k < |states| && states[i].shuttingDown
    ensures states[k].shuttingDown && Stale(states[k]) == Stale(states[i])
    decreases k
  {
    if i < k {
      StaleStays(states, steps, i, k - 1);
      RunHolds(states, steps, k - 1);
      AfterKeeps(states[k - 1], steps[k - 1]);
    }
  }

  /**
   * With assertions evaluated, no turn of a shutdown panics on any assertion or expectation, whatever run led to it and
   * whatever its disposals do: the watches and identities are empty when they have to be.
   */
  lemma ShutdownNeverPanics(states: seq<Worker>, steps: seq<Step>, k: nat, q: Quantum, kept: R.World)
    requires Run(states, steps) && k < |states| && states[0].assertions
    requires states[k].shuttingDown && ShutdownFits(states[k], q, kept)
    ensures var r := ShutdownTurn(states[k], q, kept); !r.Panic? && (r.Stop? ==> Emptied(r.worker))
  {
    RunHolds(states, steps, k);
    ShutdownProgresses(states[k], q, kept);
  }

  /**
   * With or without assertions, what becomes of a shutdown is decided when it starts: it can only panic, and then on a
   * dead id, if the allocator holds one at that point, and it can only come to its end if the allocator holds none.
   */
  lemma ShutdownIsDecided(states: seq<Worker>, steps: seq<Step>, i: nat, k: nat, q: Quantum, kept: R.World)
    requires Run(states, steps) && i <= k < |states|
    requires states[i].shuttingDown && ShutdownFits(states[k], q, kept)
    ensures var r := ShutdownTurn(states[k], q, kept);
      && (r.Panic? ==> Stale(states[i]) != {} && r.cause.MemberNotLive?)
      && (r.Stop? ==> Stale(states[i]) == {} && Emptied(r.worker))
  {
    RunHolds(states, steps, k);
    StaleStays(states, steps, i, k);
    ShutdownProgresses(states[k], q, kept);
  }

  // ----- the worker's loop once it is shutting down ------------------------

  /** The disposal's own turn, on the objects it works on. */
  method TakeTurn(w: Worker, id: Id) returns (q: Quantum)
    requires Registered(w) && id in w.subs && w.shuttingDown
    ensures Fits(w, id, Idle, q)
  {
    SchedulingRegistry.BeginKeeps(w, id);
    var b := Begun(w, id);
    assert Fit(b, id);
    var disposal := new D.PendingDisposal(DisposalOf(b, id));
    var completed := disposal.ProgressSubscriptionDisposal();
    q := Quantum(disposal.View(), TeardownOf(b, id, T.PendingPaths), completed);
  }

  lemma HasAny(descriptors: set<R.Wd>)
    ensures descriptors == {} || exists d :: d in descriptors
  {
    if forall d :: d !in descriptors {
      assert descriptors == {};
    }
  }

  method AnyOf(descriptors: set<R.Wd>) returns (d: R.Wd)
    requires descriptors != {}
    ensures d in descriptors
  {
    HasAny(descriptors);
    d :| d in descriptors;
  }

  method ForgetLifetimes(r: R.World) returns (kept: R.World)
    ensures Forgotten(r, kept)
  {
    kept := r;
    var removed := 0;
    while removed < MAX_DISPOSAL_ITEMS_PER_TURN && (kept.retired.Keys != {} || kept.exhausted != {})
      invariant removed <= MAX_DISPOSAL_ITEMS_PER_TURN && Lifetimes(kept) + removed == Lifetimes(r)
      invariant kept == r.(retired := kept.retired, exhausted := kept.exhausted)
      invariant kept.retired != map[] ==> kept.exhausted == r.exhausted
    {
      if kept.retired.Keys != {} {
        var d := AnyOf(kept.retired.Keys);
        kept := kept.(retired := kept.retired - {d});
      } else {
        var d := AnyOf(kept.exhausted);
        kept := kept.(exhausted := kept.exhausted - {d});
      }
      removed := removed + 1;
    }
  }

  /** Makes the choices of one shutdown turn. */
  method ChooseTurn(w: Worker) returns (q: Quantum, kept: R.World)
    requires w.shuttingDown && Inv(w) && !NamesTheDead(w)
    ensures ShutdownFits(w, q, kept)
  {
    DisposeNextInv(w);
    var b := DisposeNext(w);
    var popped := Popped(b.runnable);
    var u := b.(runnable := Next(b.runnable, Pop));
    q := Quantum(D.State(0, b.registry, NoHoldings, D.Complete), T.State(0, b.registry, Part(NoHoldings), T.Complete), true);
    if popped != {} && Least(popped) in b.subs {
      SameRegistered(b, u);
      q := TakeTurn(u, Least(popped));
    }
    kept := ForgetLifetimes(b.registry);
  }

  /** A shutdown ends, in a panic if and only if the allocator holds a dead id when it starts, and else with nothing left. */
  method RunShutdown(start: Worker) returns (ended: Result)
    requires start.shuttingDown && Inv(start)
    ensures !ended.Continue?
    ensures ended.Panic? <==> Stale(start) != {}
    ensures ended.Panic? ==> ended.cause.MemberNotLive?
    ensures ended.Stop? ==> Emptied(ended.worker)
  {
    var w := start;
    while true
      invariant w.shuttingDown && Inv(w) && Stale(w) == Stale(start)
      decreases TurnsToCome(w), Lifetimes(w.registry)
    {
      if NamesTheDead(w) {
        NamesAreStale(w);
        return Panic(MemberNotLive);
      }
      var q, kept := ChooseTurn(w);
      ShutdownProgresses(w, q, kept);
      var turn := ShutdownTurn(w, q, kept);
      if turn.Continue? {
        w := turn.worker;
      } else {
        return turn;
      }
    }
  }

  const NoHoldings: D.Holdings :=
    D.Holdings({}, {}, [], {}, [], Exclusions.Policy({}, {}, {}), {}, [], [], [], [], [])

  // ----- without debug assertions ------------------------------------------

  const None: Queue := Queue({}, {})
  const NoSubs: map<Id, Sub> := map[]
  const Bare: R.World := R.World(map[], [], 0, map[], map[], map[], {}, R.None, map[], map[], [])
  const Serving: R.World := Bare.(subs := map[0 := R.Subscription(map[], false, R.None, false)])
  const Release: Worker := Worker(NoSubs, None, None, Bare, 0, false, false)
  const Admitted: Worker := Release.(subs := map[0 := Sub(Active, NoHoldings)], allocator := Queue({}, {0}),
                                     runnable := Queue({}, {0}), nextId := 1, registry := Serving)
  const TornDown: Worker := Admitted.(subs := NoSubs, runnable := None, registry := Bare)
  const Closing: Worker := TornDown.(shuttingDown := true)
  /** The teardown finds nothing to remove and completes in its first turn. */
  const WholeTeardown: Quantum :=
    Quantum(D.State(0, Serving, NoHoldings, D.Complete), T.State(0, Serving, Part(NoHoldings), T.Complete), true)

  lemma AdmitStep()
    ensures Enabled(Release, Subscribe(R.None, NoHoldings)) && After(Release, Subscribe(R.None, NoHoldings)) == Admitted
  {
    assert {} + {0} == {0};
    assert R.Next(Bare, R.Subscribe(0, R.None)) == Serving;
  }

  lemma TearDownStep()
    ensures Enabled(Admitted, Turn(Cancelled, WholeTeardown)) && After(Admitted, Turn(Cancelled, WholeTeardown)) == TornDown
  {
    assert Popped(Admitted.runnable) == {0};
    assert Next(Admitted.runnable, Pop) == None;
    var u := Admitted.(runnable := None);
    TeardownCompletes();
    assert Fits(u, 0, Cancelled, WholeTeardown);
    assert R.Next(Serving, R.Release(0)) == Bare;
    assert u.subs - {0} == NoSubs;
  }

  lemma TeardownCompletes()
    ensures T.Turn(TeardownOf(Admitted.(runnable := None), 0, T.PendingPaths), WholeTeardown.teardown, true)
  {
    RT.StartHolds(Bare);
    D.RegistryStepKeepsInv(Bare, R.Subscribe(0, R.None));
    assert R.Next(Bare, R.Subscribe(0, R.None)) == Serving;
  }

  /** Built without assertions, an establishment cancelled just before a shutdown makes the shutdown panic. */
  lemma WithoutAssertionsShutdownPanics()
    ensures Run([Release, Admitted, TornDown, Closing],
                [Subscribe(R.None, NoHoldings), Turn(Cancelled, WholeTeardown), Shutdown])
    ensures Stale(Closing) != {} && forall q, kept :: ShutdownTurn(Closing, q, kept) == Panic(MemberNotLive)
  {
    AdmitStep();
    TearDownStep();
    ClosingPanics();
    RunOn([Release], [], Subscribe(R.None, NoHoldings), Admitted);
    RunOn([Release, Admitted], [Subscribe(R.None, NoHoldings)], Turn(Cancelled, WholeTeardown), TornDown);
    RunOn([Release, Admitted, TornDown], [Subscribe(R.None, NoHoldings), Turn(Cancelled, WholeTeardown)], Shutdown, Closing);
  }

  lemma RunOn(states: seq<Worker>, steps: seq<Step>, step: Step, w: Worker)
    requires Run(states, steps) && Enabled(states[|steps|], step) && w == After(states[|steps|], step)
    ensures Run(states + [w], steps + [step])
  {
  }

  lemma ClosingPanics()
    ensures Stale(Closing) != {} && forall q, kept :: ShutdownTurn(Closing, q, kept) == Panic(MemberNotLive)
  {
    assert Popped(Closing.allocator) == {0};
    assert 0 in Stale(Closing);
  }
}
