// Taking an unfinished establishment apart, a bounded number of items at a time, before its error is reported.

module Teardowns {
  import opened Paths
  import D = Disposal
  import R = Registry
  import RA = RegistryAgreement
  import RT = RegistryTheorems

  const MAX_ESTABLISHMENT_TEARDOWN_ITEMS_PER_TURN: nat := 64

  datatype Phase = PendingPaths | WatchedInterests | DeferredMap | DeferredOrder | Promotions | TopologyJobs | Complete

  function Position(p: Phase): nat
  {
    match p
    case PendingPaths => 0
    case WatchedInterests => 1
    case DeferredMap => 2
    case DeferredOrder => 3
    case Promotions => 4
    case TopologyJobs => 5
    case Complete => 6
  }

  /** What the subscription has gathered so far besides its watches. */
  datatype Held = Held(pending: set<Path>, deferred: set<Path>, deferredOrder: seq<Path>, promotions: set<Path>,
                       jobs: seq<D.Job>)

  datatype State = State(id: R.Id, world: R.World, held: Held, phase: Phase)

  function Watched(s: State): map<Path, R.Wd>
  {
    if s.id in s.world.subs then s.world.subs[s.id].watched else map[]
  }

  /** What the current phase and those after it still have to remove. */
  function Left(s: State): nat
  {
    var n := Position(s.phase);
    (if n <= 0 then |s.held.pending| else 0) + (if n <= 1 then |Watched(s)| else 0)
    + (if n <= 2 then |s.held.deferred| else 0) + (if n <= 3 then |s.held.deferredOrder| else 0)
    + (if n <= 4 then |s.held.promotions| else 0) + (if n <= 5 then D.JobItems(s.held.jobs) else 0)
  }

  /**
   * The subscription still takes part in the registry, and its watches are gone once their phase is over. Records
   * handled meanwhile may refill what other phases emptied.
   */
  ghost predicate Valid(s: State)
  {
    && RT.Inv(s.world) && s.id in s.world.subs && !s.world.subs[s.id].disposing
    && (Position(s.phase) > 1 ==> Watched(s) == map[])
  }

  /** No registered watch has an interest that names the subscription. */
  ghost predicate NoInterest(w: R.World, id: R.Id)
  {
    forall d, x :: d in w.watches && x in w.watches[d].interests ==> x.id != id
  }

  lemma CompleteLeavesNoInterest(s: State)
    requires Valid(s) && s.phase == Complete
    ensures NoInterest(s.world, s.id)
  {
  }

  /** One turn removes 64 items, or what is left, and completes exactly when fewer than 64 were left. */
  ghost predicate Turn(s: State, t: State, completed: bool)
  {
    && t.id == s.id && Valid(t) && D.PeersUntouched(s.world, t.world, s.id)
    && (completed <==> Left(s) < MAX_ESTABLISHMENT_TEARDOWN_ITEMS_PER_TURN)
    && Left(t) == (if completed then 0 else Left(s) - MAX_ESTABLISHMENT_TEARDOWN_ITEMS_PER_TURN)
    && (completed ==> t.phase == Complete)
  }

  /** Only what the phase takes apart is touched. */
  predicate Within(p: Phase, h: Held, g: Held)
  {
    match p
    case PendingPaths => g == h.(pending := g.pending) && g.pending <= h.pending
    case DeferredMap => g == h.(deferred := g.deferred) && g.deferred <= h.deferred
    case DeferredOrder => g == h.(deferredOrder := g.deferredOrder) && multiset(g.deferredOrder) <= multiset(h.deferredOrder)
    case Promotions => g == h.(promotions := g.promotions) && g.promotions <= h.promotions
    case TopologyJobs => g == h.(jobs := g.jobs)
    case _ => g == h
  }

  /** One round of a turn's loop: an item of the phase goes, or the phase moves on. */
  ghost predicate Step(s: State, t: State, removed: bool)
  {
    && t.id == s.id && Valid(t) && D.PeersUntouched(s.world, t.world, s.id)
    && Within(s.phase, s.held, t.held) && Watched(t).Keys <= Watched(s).Keys
    && (s.phase != WatchedInterests ==> t.world == s.world)
    && (removed ==> Left(t) + 1 == Left(s) && t.phase == s.phase)
    && (!removed ==> Left(t) == Left(s) && Position(t.phase) == Position(s.phase) + 1)
  }

  lemma HeldStep(s: State, t: State, removed: bool)
    requires Valid(s) && t == s.(held := t.held, phase := t.phase) && Valid(t) && Within(s.phase, s.held, t.held)
    requires if removed then Left(t) + 1 == Left(s) && t.phase == s.phase
             else Left(t) == Left(s) && Position(t.phase) == Position(s.phase) + 1
    ensures Step(s, t, removed)
  {
  }

  /** Between two turns watches of the subscription may vanish, and records may bring it pending paths. */
  ghost predicate Between(s: State, t: State)
  {
    && t.id == s.id && t.phase == s.phase && Valid(t)
    && (forall p :: p in Watched(t) ==> p in Watched(s) && Watched(t)[p] == Watched(s)[p])
  }

  /** While an establishment is torn down its subscription is neither walked nor disposed of; all else may happen. */
  predicate Foreign(step: R.Step, id: R.Id)
  {
    match step
    case Watch(other, _, _, _) => other != id
    case Forget(other, _) => other != id
    case Dispose(other) => other != id
    case Release(other) => other != id
    case _ => true
  }

  lemma IgnoredShrinks(w: R.World, d: R.Wd, id: R.Id)
    requires id in w.subs
    ensures var v := R.HandleIgnored(w, d);
      && id in v.subs && v.subs[id].disposing == w.subs[id].disposing
      && (forall p :: p in v.subs[id].watched ==>
           p in w.subs[id].watched && v.subs[id].watched[p] == w.subs[id].watched[p])
  {
  }

  lemma StepShrinks(w: R.World, step: R.Step, id: R.Id)
    requires R.Enabled(w, step) && id in w.subs && !w.subs[id].disposing && Foreign(step, id)
    ensures var v := R.Next(w, step);
      && id in v.subs && v.subs[id].disposing == w.subs[id].disposing
      && (forall p :: p in v.subs[id].watched ==>
           p in w.subs[id].watched && v.subs[id].watched[p] == w.subs[id].watched[p])
  {
    match step {
      case Watch(other, path, allowNew, calls) => D.WatchKeepsOthers(w, id, other, path, allowNew, calls);
      case Handle =>
        if w.queue[0].Ignored? {
          IgnoredShrinks(w.(queue := w.queue[1..]), w.queue[0].wd, id);
        }
      case Forget(other, path) => D.ForgetKeepsPeers(w, other, path);
      case _ =>
    }
  }

  /** No step but its own subscribing, disposal or release brings a subscription in, takes it out or disposes of it. */
  lemma StepServes(w: R.World, step: R.Step, id: R.Id)
    requires RT.Inv(w) && R.Enabled(w, step) && !(step.Subscribe? && step.id == id) && !(step.Dispose? && step.id == id)
    requires !(step.Release? && step.id == id)
    ensures id !in w.subs ==> id !in R.Next(w, step).subs
    ensures id in w.subs && !w.subs[id].disposing ==>
              id in R.Next(w, step).subs && !R.Next(w, step).subs[id].disposing
  {
    match step {
      case Watch(other, path, allowNew, calls) => WatchServes(w, other, path, allowNew, calls, id);
      case Handle => HandleServes(w, id);
      case Forget(other, path) => D.ForgetKeepsPeers(w, other, path);
      case _ =>
    }
  }

  lemma HandleServes(w: R.World, id: R.Id)
    requires w.queue != []
    ensures var v := R.Next(w, R.Handle);
      (id in v.subs <==> id in w.subs) && (id in w.subs ==> v.subs[id].disposing == w.subs[id].disposing)
  {
    if w.queue[0].Ignored? && id in w.subs {
      IgnoredShrinks(w.(queue := w.queue[1..]), w.queue[0].wd, id);
    }
  }

  lemma WatchServes(w: R.World, other: R.Id, path: Path, allowNew: bool, calls: R.Calls, id: R.Id)
    requires RT.Inv(w) && other in w.subs && R.CallsPossible(w, calls)
    ensures var v := R.WatchDirectory(w, other, path, allowNew, calls).0;
      v.subs.Keys == w.subs.Keys && (id in w.subs ==> v.subs[id].disposing == w.subs[id].disposing)
  {
    var x, d, watch := RA.WatchShape(w, other, path, allowNew, calls);
  }

  lemma RegistryStepIsBetween(s: State, step: R.Step)
    requires Valid(s) && R.Enabled(s.world, step) && Foreign(step, s.id)
    ensures Between(s, s.(world := R.Next(s.world, step)))
  {
    D.RegistryStepKeepsInv(s.world, step);
    StepShrinks(s.world, step, s.id);
  }

  lemma ForgetStep(s: State, path: Path)
    requires Valid(s) && s.phase == WatchedInterests && path in Watched(s)
    ensures Step(s, s.(world := R.Unwatch(s.world, s.id, path)), true)
  {
    var t := s.(world := R.Unwatch(s.world, s.id, path));
    D.ForgetKeepsPeers(s.world, s.id, path);
    D.RegistryStepKeepsInv(s.world, R.Forget(s.id, path));
    assert Watched(t) == Watched(s) - {path};
  }

  // ----- the turn itself ---------------------------------------------------

  class PendingTeardown {
    const id: R.Id
    var world: R.World
    var pendingPaths: set<Path>
    var deferredDirectories: set<Path>
    var deferredOrder: seq<Path>
    var pendingPromotions: set<Path>
    var topologyJobs: seq<D.Job>
    var phase: Phase

    constructor (s: State)
      ensures View() == s
    {
      id, world, phase := s.id, s.world, s.phase;
      pendingPaths, deferredDirectories, deferredOrder := s.held.pending, s.held.deferred, s.held.deferredOrder;
      pendingPromotions, topologyJobs := s.held.promotions, s.held.jobs;
    }

    function View(): State
      reads this
    {
      State(id, world, Held(pendingPaths, deferredDirectories, deferredOrder, pendingPromotions, topologyJobs), phase)
    }

    method AdvanceTo(next: Phase)
      requires Valid(View()) && Position(next) == Position(phase) + 1
      requires Left(View().(phase := next)) == Left(View()) && Valid(View().(phase := next))
      modifies this`phase
      ensures Step(old(View()), View(), false)
    {
      ghost var was := View();
      phase := next;
      HeldStep(was, View(), false);
    }

    method RemovePending() returns (removed: bool)
      requires Valid(View()) && phase == PendingPaths
      modifies this
      ensures Step(old(View()), View(), removed)
    {
      ghost var was := View();
      if pendingPaths == {} {
        AdvanceTo(WatchedInterests);
        return false;
      }
      var path :| path in pendingPaths;
      pendingPaths := pendingPaths - {path};
      HeldStep(was, View(), true);
      return true;
    }

    /** Drops the watch of one path together with its interest in the registry. */
    method RemoveInterest() returns (removed: bool)
      requires Valid(View()) && phase == WatchedInterests
      modifies this
      ensures Step(old(View()), View(), removed)
    {
      if world.subs[id].watched == map[] {
        AdvanceTo(DeferredMap);
        return false;
      }
      var path :| path in world.subs[id].watched;
      ForgetStep(View(), path);
      world := R.Unwatch(world, id, path);
      return true;
    }

    method RemoveDeferred() returns (removed: bool)
      requires Valid(View()) && (phase == DeferredMap || phase == DeferredOrder)
      modifies this
      ensures Step(old(View()), View(), removed)
    {
      ghost var was := View();
      if phase == DeferredMap {
        if deferredDirectories == {} {
          AdvanceTo(DeferredOrder);
          return false;
        }
        var path :| path in deferredDirectories;
        deferredDirectories := deferredDirectories - {path};
      } else {
        if deferredOrder == [] {
          AdvanceTo(Promotions);
          return false;
        }
        assert deferredOrder == [deferredOrder[0]] + deferredOrder[1..];
        deferredOrder := deferredOrder[1..];
      }
      HeldStep(was, View(), true);
      return true;
    }

    method RemoveWork() returns (removed: bool)
      requires Valid(View()) && (phase == Promotions || phase == TopologyJobs)
      modifies this
      ensures Step(old(View()), View(), removed)
    {
      ghost var was := View();
      if phase == Promotions {
        if pendingPromotions == {} {
          AdvanceTo(TopologyJobs);
          return false;
        }
        var path :| path in pendingPromotions;
        pendingPromotions := pendingPromotions - {path};
      } else if topologyJobs == [] {
        AdvanceTo(Complete);
        return false;
      } else {
        var job := topologyJobs[0];
        if job.active {
          topologyJobs := topologyJobs[0 := job.(active := false)];
        } else if job.directories != [] {
          topologyJobs := topologyJobs[0 := job.(directories := job.directories[1..])];
        } else {
          topologyJobs := topologyJobs[1..];
        }
      }
      HeldStep(was, View(), true);
      return true;
    }

    method RemoveOne() returns (removed: bool)
      requires Valid(View()) && phase != Complete
      modifies this
      ensures Step(old(View()), View(), removed)
    {
      if phase == PendingPaths {
        removed := RemovePending();
      } else if phase == WatchedInterests {
        removed := RemoveInterest();
      } else if phase == DeferredMap || phase == DeferredOrder {
        removed := RemoveDeferred();
      } else {
        removed := RemoveWork();
      }
    }

    method ProgressEstablishmentTeardown() returns (completed: bool)
      requires Valid(View())
      modifies this
      ensures Turn(old(View()), View(), completed)
    {
      var removed := 0;
      while removed < MAX_ESTABLISHMENT_TEARDOWN_ITEMS_PER_TURN && phase != Complete
        invariant Valid(View()) && D.PeersUntouched(old(world), world, id)
        invariant removed <= MAX_ESTABLISHMENT_TEARDOWN_ITEMS_PER_TURN
        invariant Left(View()) + removed == Left(old(View()))
        decreases MAX_ESTABLISHMENT_TEARDOWN_ITEMS_PER_TURN - removed, Position(Complete) - Position(phase)
      {
        var one := RemoveOne();
        if one {
          removed := removed + 1;
        }
      }
      completed := removed < MAX_ESTABLISHMENT_TEARDOWN_ITEMS_PER_TURN;
    }
  }
}
