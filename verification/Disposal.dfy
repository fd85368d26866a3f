// Taking a subscription apart, a bounded number of items at a time.

module Disposal {
  import opened Paths
  import opened Exclusions
  import R = Registry
  import RT = RegistryTheorems

  const MAX_DISPOSAL_ITEMS_PER_TURN: nat := 64

  // ----- what a subscription holds -----------------------------------------

  datatype Job = Job(active: bool, directories: seq<Path>)

  /** Everything a subscription under disposal holds besides its watches. */
  datatype Holdings = Holdings(
    pending: set<Path>, deferred: set<Path>, deferredOrder: seq<Path>, promotions: set<Path>, jobs: seq<Job>,
    policy: Policy, observed: set<Path>, pathSets: seq<set<Path>>, pathQueues: seq<seq<Path>>, pathVectors: seq<seq<Path>>,
    policies: seq<Policy>, identityMaps: seq<set<Path>>)

  function JobItems(jobs: seq<Job>): nat
  {
    if jobs == [] then 0
    else (if jobs[0].active then 1 else 0) + |jobs[0].directories| + 1 + JobItems(jobs[1..])
  }

  function SetItems(sets: seq<set<Path>>): nat
  {
    if sets == [] then 0 else |sets[0]| + 1 + SetItems(sets[1..])
  }

  function SeqItems(seqs: seq<seq<Path>>): nat
  {
    if seqs == [] then 0 else |seqs[0]| + 1 + SeqItems(seqs[1..])
  }

  function PolicySize(policy: Policy): nat
  {
    |policy.prefixes| + |policy.names| + |policy.observed|
  }

  function PolicyItems(policies: seq<Policy>): nat
  {
    if policies == [] then 0 else PolicySize(policies[0]) + 1 + PolicyItems(policies[1..])
  }

  /** Items held: every path, job and policy entry, and every container left over from an interrupted transaction. */
  function Items(h: Holdings): nat
  {
    |h.pending| + |h.deferred| + |h.deferredOrder| + |h.promotions| + JobItems(h.jobs) + PolicySize(h.policy) + |h.observed|
    + SetItems(h.pathSets) + SeqItems(h.pathQueues) + SeqItems(h.pathVectors) + PolicyItems(h.policies)
    + SetItems(h.identityMaps)
  }

  datatype Phase =
    | PendingPaths | WatchedInterests | DeferredMap | DeferredOrder | Promotions | TopologyJobs | ExclusionPolicy
    | ObservedIdentities | CleanupPathSets | CleanupPathQueues | CleanupPathVectors | Complete

  function Position(p: Phase): nat
  {
    match p
    case PendingPaths => 0
    case WatchedInterests => 1
    case DeferredMap => 2
    case DeferredOrder => 3
    case Promotions => 4
    case TopologyJobs => 5
    case ExclusionPolicy => 6
    case ObservedIdentities => 7
    case CleanupPathSets => 8
    case CleanupPathQueues => 9
    case CleanupPathVectors => 10
    case Complete => 11
  }

  /** A disposal under way: the subscription's holdings, the registry it shares with its peers, and the phase reached. */
  datatype State = State(id: R.Id, world: R.World, held: Holdings, phase: Phase)

  function Watched(s: State): map<Path, R.Wd>
  {
    if s.id in s.world.subs then s.world.subs[s.id].watched else map[]
  }

  function Total(s: State): nat
  {
    |Watched(s)| + Items(s.held)
  }

  /** What earlier phases take apart is gone. */
  predicate Reached(s: State)
  {
    var n := Position(s.phase);
    && (n > 0 ==> s.held.pending == {})
    && (n > 1 ==> Watched(s) == map[])
    && (n > 2 ==> s.held.deferred == {})
    && (n > 3 ==> s.held.deferredOrder == [])
    && (n > 4 ==> s.held.promotions == {})
    && (n > 5 ==> s.held.jobs == [])
    && (n > 6 ==> PolicySize(s.held.policy) == 0)
    && (n > 7 ==> s.held.observed == {})
    && (n > 8 ==> s.held.pathSets == [])
    && (n > 9 ==> s.held.pathQueues == [])
    && (n > 10 ==> s.held.pathVectors == [] && s.held.policies == [] && s.held.identityMaps == [])
  }

  ghost predicate Valid(s: State)
  {
    && Reached(s) && RT.Inv(s.world)
    && s.id in s.world.subs && s.world.subs[s.id].disposing
  }

  lemma CompleteIsEmpty(s: State)
    requires Reached(s) && s.phase == Complete
    ensures Total(s) == 0
  {
  }

  // ----- turns -------------------------------------------------------------

  /** Peers keep their paths, and nothing but the disposed subscription's own watches is touched in its favour. */
  predicate PeersUntouched(v: R.World, w: R.World, id: R.Id)
  {
    && v.subs.Keys == w.subs.Keys
    && (forall i | i in v.subs :: i != id ==> v.subs[i] == w.subs[i])
  }

  predicate Counts(s: State, t: State, completed: bool)
  {
    && t.id == s.id
    && (completed <==> Total(s) < MAX_DISPOSAL_ITEMS_PER_TURN)
    && Total(t) == (if completed then 0 else Total(s) - MAX_DISPOSAL_ITEMS_PER_TURN)
  }

  /** One turn removes 64 items, or what is left, and completes exactly when fewer than 64 were left. */
  ghost predicate Turn(s: State, t: State, completed: bool)
  {
    Counts(s, t, completed) && Valid(t) && PeersUntouched(s.world, t.world, s.id)
  }

  predicate PolicyShrinks(p: Policy, q: Policy)
  {
    q.prefixes <= p.prefixes && q.names <= p.names && q.observed <= p.observed
  }

  /** Only what the phase takes apart is touched. */
  predicate Within(p: Phase, h: Holdings, g: Holdings)
  {
    match p
    case PendingPaths => g == h.(pending := g.pending) && g.pending <= h.pending
    case DeferredMap => g == h.(deferred := g.deferred) && g.deferred <= h.deferred
    case DeferredOrder => g == h.(deferredOrder := g.deferredOrder) && multiset(g.deferredOrder) <= multiset(h.deferredOrder)
    case Promotions => g == h.(promotions := g.promotions) && g.promotions <= h.promotions
    case TopologyJobs => g == h.(jobs := g.jobs)
    case ExclusionPolicy => g == h.(policy := g.policy) && PolicyShrinks(h.policy, g.policy)
    case ObservedIdentities => g == h.(observed := g.observed) && g.observed <= h.observed
    case CleanupPathSets => g == h.(pathSets := g.pathSets)
    case CleanupPathQueues => g == h.(pathQueues := g.pathQueues)
    case CleanupPathVectors =>
      g == h.(pathVectors := g.pathVectors, policies := g.policies, identityMaps := g.identityMaps)
    case _ => g == h
  }

  /** One round of a turn's loop: an item of the phase goes, or the phase moves on. */
  ghost predicate Step(s: State, t: State, removed: bool)
  {
    && t.id == s.id && Valid(t) && PeersUntouched(s.world, t.world, s.id)
    && Within(s.phase, s.held, t.held) && Watched(t).Keys <= Watched(s).Keys
    && (s.phase != WatchedInterests ==> t.world == s.world)
    && (removed ==> Total(t) + 1 == Total(s) && t.phase == s.phase)
    && (!removed ==> Total(t) == Total(s) && Position(t.phase) == Position(s.phase) + 1)
  }

  /** A step that leaves the registry alone. */
  lemma HeldStep(s: State, t: State, removed: bool)
    requires Valid(s) && t == s.(held := t.held, phase := t.phase) && Reached(t) && Within(s.phase, s.held, t.held)
    requires if removed then Items(t.held) + 1 == Items(s.held) && t.phase == s.phase
             else t.held == s.held && Position(t.phase) == Position(s.phase) + 1
    ensures Step(s, t, removed)
  {
  }

  predicate Unchanged(s: State, t: State)
  {
    t.id == s.id && t.held == s.held && t.phase == s.phase && Watched(t) == Watched(s)
  }

  /** What native events and the turns of peers leave alone between two turns of a disposal. */
  ghost predicate Between(s: State, t: State)
  {
    Unchanged(s, t) && Valid(t)
  }

  /** No step of the registry but the disposal's own changes what a subscription under disposal watches. */
  lemma RegistryStepIsBetween(s: State, step: R.Step)
    requires Valid(s) && R.Enabled(s.world, step)
    requires !(step.Forget? && step.id == s.id) && !(step.Release? && step.id == s.id)
    ensures Between(s, s.(world := R.Next(s.world, step)))
  {
    RT.NextAttributes(s.world, step);
    RT.NextAgrees(s.world, step);
    RT.NextRecorded(s.world, step);
    var v := R.Next(s.world, step);
    assert s.id in v.subs && v.subs[s.id].watched == s.world.subs[s.id].watched && v.subs[s.id].disposing by {
      StepKeepsDisposing(s.world, step, s.id);
    }
  }

  predicate Keeps(w: R.World, v: R.World, id: R.Id)
  {
    id in w.subs && id in v.subs && v.subs[id] == w.subs[id]
  }

  lemma MarkKeepsOthers(w: R.World, v: R.World, id: R.Id, other: R.Id)
    requires id in w.subs && id != other && v.subs == R.MarkUncertain(w, other).subs
    ensures Keeps(w, v, id)
  {
  }

  lemma InsertKeepsOthers(w: R.World, u: R.World, d: R.Wd, id: R.Id, other: R.Id, path: Path)
    requires id in w.subs && id != other && other in u.subs && d in u.watches
    requires u.subs == w.subs || u.subs == R.MarkUncertain(w, other).subs
    ensures Keeps(w, R.InsertInterest(u, other, path, d), id)
  {
  }

  lemma RegisterKeepsOthers(w: R.World, id: R.Id, other: R.Id, path: Path, identity: R.Identity, calls: R.Calls)
    requires other in w.subs && id in w.subs && id != other && calls.added.Some? && calls.added.value.1 in w.live
    ensures Keeps(w, R.RegisterAdded(w, other, path, identity, calls).0, id)
  {
    var v := R.RegisterAdded(w, other, path, identity, calls).0;
    if !R.RegisterAdded(w, other, path, identity, calls).1.Added? {
      MarkKeepsOthers(w, v, id, other);
    } else {
      var d := calls.added.value.1;
      var m := R.MarkReusedUncertain(w, other, d);
      var u := if d in w.watches then m.(identities := w.identities[identity := d])
        else m.(booked := w.booked[d := R.Booked(w, d) + [w.live[d].serial]],
                watches := w.watches[d := R.NativeWatch(R.NextLifetime(w, d).value, identity, {}, false)],
                identities := w.identities[identity := d]);
      InsertKeepsOthers(w, u, d, id, other, path);
      assert v == R.InsertInterest(u, other, path, d);
    }
  }

  lemma AddKeepsOthers(w: R.World, id: R.Id, other: R.Id, path: Path, allowNew: bool, calls: R.Calls)
    requires other in w.subs && id in w.subs && id != other && R.CallsPossible(w, calls)
    ensures Keeps(w, R.AddInterest(w, other, path, allowNew, calls).0, id)
  {
    if calls.added.Some? && calls.before.Some? {
      var a := R.AddWatch(w, calls.added.value.0, calls.added.value.1);
      RegisterKeepsOthers(a, id, other, path, calls.before.value, calls);
    }
  }

  /** Watching a path of one subscription leaves every other as it is. */
  lemma WatchKeepsOthers(w: R.World, id: R.Id, other: R.Id, path: Path, allowNew: bool, calls: R.Calls)
    requires other in w.subs && id in w.subs && id != other && R.CallsPossible(w, calls)
    ensures Keeps(w, R.WatchDirectory(w, other, path, allowNew, calls).0, id)
  {
    AddKeepsOthers(w, id, other, path, allowNew, calls);
  }

  lemma IgnoredKeepsDisposing(w: R.World, d: R.Wd, id: R.Id)
    requires id in w.subs && w.subs[id].disposing
    ensures Keeps(w, R.HandleIgnored(w, d), id)
  {
  }

  lemma StepKeepsDisposing(w: R.World, step: R.Step, id: R.Id)
    requires R.Enabled(w, step) && id in w.subs && w.subs[id].disposing
    requires !(step.Forget? && step.id == id) && !(step.Release? && step.id == id)
    ensures var v := R.Next(w, step);
      id in v.subs && v.subs[id].watched == w.subs[id].watched && v.subs[id].disposing
  {
    match step {
      case Watch(other, path, allowNew, calls) => WatchKeepsOthers(w, id, other, path, allowNew, calls);
      case Handle =>
        if w.queue[0].Ignored? {
          IgnoredKeepsDisposing(w.(queue := w.queue[1..]), w.queue[0].wd, id);
        }
      case Forget(other, path) => ForgetKeepsPeers(w, other, path);
      case _ =>
    }
  }

  lemma ForgetKeepsPeers(w: R.World, id: R.Id, path: Path)
    requires id in w.subs && path in w.subs[id].watched
    ensures var v := R.Unwatch(w, id, path);
      && PeersUntouched(w, v, id) && id in v.subs
      && v.subs[id] == w.subs[id].(watched := w.subs[id].watched - {path})
  {
  }

  ghost predicate Trace(before: seq<State>, after: seq<State>)
  {
    && |before| == |after| > 0
    && Valid(before[0])
    && (forall k :: 0 <= k < |before| ==> Turn(before[k], after[k], k == |before| - 1))
    && (forall k :: 0 < k < |before| ==> Between(after[k - 1], before[k]))
  }

  predicate Counted(before: seq<State>, after: seq<State>)
  {
    && |before| == |after| > 0
    && (forall k | 0 <= k < |before| :: Counts(before[k], after[k], k == |before| - 1))
    && (forall k | 0 < k < |before| :: Unchanged(after[k - 1], before[k]))
  }

  lemma {:induction false} TurnsCount(before: seq<State>, after: seq<State>)
    requires Counted(before, after)
    ensures |before| == Total(before[0]) / MAX_DISPOSAL_ITEMS_PER_TURN + 1
    ensures after[|after| - 1].id == before[0].id
    decreases |before|
  {
    assert Counts(before[0], after[0], 0 == |before| - 1);
    if |before| > 1 {
      assert Unchanged(after[0], before[1]);
      TurnsCount(before[1..], after[1..]);
    }
  }

  /**
   * However native events and peers interleave, a disposal takes one turn for every 64 items and one more, and leaves
   * no interest that names the subscription.
   */
  lemma DisposalCost(before: seq<State>, after: seq<State>)
    requires Trace(before, after)
    ensures |before| == Total(before[0]) / MAX_DISPOSAL_ITEMS_PER_TURN + 1
    ensures var w := after[|after| - 1].world;
      forall d, x :: d in w.watches && x in w.watches[d].interests ==> x.id != before[0].id
  {
    forall k | 0 <= k < |before| ensures Counts(before[k], after[k], k == |before| - 1) {
      assert Turn(before[k], after[k], k == |before| - 1);
    }
    forall k | 0 < k < |before| ensures Unchanged(after[k - 1], before[k]) {
      assert Between(after[k - 1], before[k]);
    }
    TurnsCount(before, after);
    var last := |after| - 1;
    var t := after[last];
    assert Turn(before[last], t, true);
    assert |Watched(t)| == 0;
    RT.ReleasedLeavesNoInterest(t.world, t.id);
  }

  // ----- the turn itself ---------------------------------------------------

  class PendingDisposal {
    const id: R.Id
    var world: R.World
    var pendingPaths: set<Path>
    var deferredDirectories: set<Path>
    var deferredOrder: seq<Path>
    var pendingPromotions: set<Path>
    var topologyJobs: seq<Job>
    var exclusionPolicy: Policy
    var observedBoundaryIdentities: set<Path>
    var cleanupPathSets: seq<set<Path>>
    var cleanupPathQueues: seq<seq<Path>>
    var cleanupPathVectors: seq<seq<Path>>
    var cleanupPolicies: seq<Policy>
    var cleanupIdentityMaps: seq<set<Path>>
    var phase: Phase

    constructor (s: State)
      ensures View() == s
    {
      id, world, phase := s.id, s.world, s.phase;
      pendingPaths, deferredDirectories, deferredOrder := s.held.pending, s.held.deferred, s.held.deferredOrder;
      pendingPromotions, topologyJobs, exclusionPolicy := s.held.promotions, s.held.jobs, s.held.policy;
      observedBoundaryIdentities := s.held.observed;
      cleanupPathSets, cleanupPathQueues := s.held.pathSets, s.held.pathQueues;
      cleanupPathVectors, cleanupPolicies := s.held.pathVectors, s.held.policies;
      cleanupIdentityMaps := s.held.identityMaps;
    }

    function View(): State
      reads this
    {
      State(id, world,
            Holdings(pendingPaths, deferredDirectories, deferredOrder, pendingPromotions, topologyJobs, exclusionPolicy,
                     observedBoundaryIdentities, cleanupPathSets, cleanupPathQueues, cleanupPathVectors, cleanupPolicies, cleanupIdentityMaps),
            phase)
    }

    /** Drops the watch of one path, whatever the registry has made of its descriptor since. */
    method RemoveWatched()
      requires Valid(View()) && phase == WatchedInterests && Watched(View()) != map[]
      modifies this`world
      ensures Valid(View()) && PeersUntouched(old(world), world, id)
      ensures |Watched(View())| + 1 == |old(Watched(View()))| && Watched(View()).Keys <= old(Watched(View())).Keys
    {
      var path :| path in world.subs[id].watched;
      ForgetKeepsPeers(world, id, path);
      RegistryStepKeepsInv(world, R.Forget(id, path));
      world := R.Unwatch(world, id, path);
      assert Watched(View()) == old(Watched(View())) - {path};
    }

    method RemoveJobPart()
      requires topologyJobs != []
      modifies this`topologyJobs
      ensures JobItems(topologyJobs) + 1 == JobItems(old(topologyJobs))
    {
      var job := topologyJobs[0];
      if job.active {
        topologyJobs := topologyJobs[0 := job.(active := false)];
      } else if job.directories != [] {
        topologyJobs := topologyJobs[0 := job.(directories := job.directories[1..])];
      } else {
        topologyJobs := topologyJobs[1..];
      }
    }

    method PopPolicyItem(policy: Policy) returns (popped: bool, rest: Policy)
      ensures popped == (PolicySize(policy) > 0)
      ensures PolicySize(rest) == (if popped then PolicySize(policy) - 1 else 0) && PolicyShrinks(policy, rest)
    {
      if policy.prefixes != {} {
        var x :| x in policy.prefixes;
        return true, policy.(prefixes := policy.prefixes - {x});
      }
      if policy.names != {} {
        var x :| x in policy.names;
        return true, policy.(names := policy.names - {x});
      }
      if policy.observed != {} {
        var x :| x in policy.observed;
        return true, policy.(observed := policy.observed - {x});
      }
      return false, policy;
    }

    method RemoveFromSets(sets: seq<set<Path>>) returns (rest: seq<set<Path>>)
      requires sets != []
      ensures SetItems(rest) + 1 == SetItems(sets)
    {
      if sets[0] != {} {
        var x :| x in sets[0];
        rest := sets[0 := sets[0] - {x}];
      } else {
        rest := sets[1..];
      }
    }

    method RemoveFromSeqs(seqs: seq<seq<Path>>, back: bool) returns (rest: seq<seq<Path>>)
      requires seqs != []
      ensures SeqItems(rest) + 1 == SeqItems(seqs)
    {
      if seqs[0] != [] {
        rest := seqs[0 := if back then seqs[0][..|seqs[0]| - 1] else seqs[0][1..]];
      } else {
        rest := seqs[1..];
      }
    }

    method RemoveFromPolicies()
      requires cleanupPolicies != []
      modifies this`cleanupPolicies
      ensures PolicyItems(cleanupPolicies) + 1 == PolicyItems(old(cleanupPolicies))
    {
      var popped, rest := PopPolicyItem(cleanupPolicies[0]);
      if popped {
        cleanupPolicies := cleanupPolicies[0 := rest];
      } else {
        cleanupPolicies := cleanupPolicies[1..];
      }
    }

    method AdvanceTo(next: Phase)
      requires Valid(View()) && Position(next) == Position(phase) + 1 && Reached(View().(phase := next))
      modifies this`phase
      ensures Step(old(View()), View(), false)
    {
      ghost var was := View();
      phase := next;
      HeldStep(was, View(), false);
    }

    method RemovePath() returns (removed: bool)
      requires Valid(View()) && (phase == PendingPaths || phase == DeferredMap)
      modifies this
      ensures Step(old(View()), View(), removed)
    {
      ghost var was := View();
      if phase == PendingPaths {
        if pendingPaths == {} {
          AdvanceTo(WatchedInterests);
          return false;
        }
        var path :| path in pendingPaths;
        pendingPaths := pendingPaths - {path};
      } else {
        if deferredDirectories == {} {
          AdvanceTo(DeferredOrder);
          return false;
        }
        var path :| path in deferredDirectories;
        deferredDirectories := deferredDirectories - {path};
      }
      HeldStep(was, View(), true);
      return true;
    }

    method RemoveQueued() returns (removed: bool)
      requires Valid(View()) && (phase == DeferredOrder || phase == Promotions)
      modifies this
      ensures Step(old(View()), View(), removed)
    {
      if phase == DeferredOrder {
        removed := RemoveOrdered();
      } else {
        removed := RemovePromotion();
      }
    }

    method RemoveOrdered() returns (removed: bool)
      requires Valid(View()) && phase == DeferredOrder
      modifies this
      ensures Step(old(View()), View(), removed)
    {
      ghost var was := View();
      if deferredOrder == [] {
        AdvanceTo(Promotions);
        return false;
      }
      assert deferredOrder == [deferredOrder[0]] + deferredOrder[1..];
      deferredOrder := deferredOrder[1..];
      HeldStep(was, View(), true);
      return true;
    }

    method RemovePromotion() returns (removed: bool)
      requires Valid(View()) && phase == Promotions
      modifies this
      ensures Step(old(View()), View(), removed)
    {
      ghost var was := View();
      if pendingPromotions == {} {
        AdvanceTo(TopologyJobs);
        return false;
      }
      var path :| path in pendingPromotions;
      pendingPromotions := pendingPromotions - {path};
      HeldStep(was, View(), true);
      return true;
    }

    method RemoveWork() returns (removed: bool)
      requires Valid(View()) && phase == TopologyJobs
      modifies this
      ensures Step(old(View()), View(), removed)
    {
      ghost var was := View();
      if topologyJobs == [] {
        AdvanceTo(ExclusionPolicy);
        return false;
      }
      RemoveJobPart();
      HeldStep(was, View(), true);
      return true;
    }

    method RemovePolicy() returns (removed: bool)
      requires Valid(View()) && (phase == ExclusionPolicy || phase == ObservedIdentities)
      modifies this
      ensures Step(old(View()), View(), removed)
    {
      if phase == ExclusionPolicy {
        removed := RemovePolicyItem();
      } else {
        removed := RemoveBoundary();
      }
    }

    method RemovePolicyItem() returns (removed: bool)
      requires Valid(View()) && phase == ExclusionPolicy
      modifies this
      ensures Step(old(View()), View(), removed)
    {
      ghost var was := View();
      var popped, rest := PopPolicyItem(exclusionPolicy);
      if !popped {
        AdvanceTo(ObservedIdentities);
        return false;
      }
      exclusionPolicy := rest;
      HeldStep(was, View(), true);
      return true;
    }

    method RemoveBoundary() returns (removed: bool)
      requires Valid(View()) && phase == ObservedIdentities
      modifies this
      ensures Step(old(View()), View(), removed)
    {
      ghost var was := View();
      if observedBoundaryIdentities == {} {
        AdvanceTo(CleanupPathSets);
        return false;
      }
      var path :| path in observedBoundaryIdentities;
      observedBoundaryIdentities := observedBoundaryIdentities - {path};
      HeldStep(was, View(), true);
      return true;
    }

    method RemoveInterest() returns (removed: bool)
      requires Valid(View()) && phase == WatchedInterests
      modifies this
      ensures Step(old(View()), View(), removed)
    {
      if world.subs[id].watched == map[] {
        AdvanceTo(DeferredMap);
        return false;
      }
      RemoveWatched();
      return true;
    }

    /** The phases that take apart what an interrupted transaction left behind. */
    method RemoveLeftOver() returns (removed: bool)
      requires Valid(View()) && 8 <= Position(phase) <= 9
      modifies this
      ensures Step(old(View()), View(), removed)
    {
      ghost var was := View();
      if phase == CleanupPathSets {
        if cleanupPathSets == [] {
          AdvanceTo(CleanupPathQueues);
          return false;
        }
        cleanupPathSets := RemoveFromSets(cleanupPathSets);
      } else {
        if cleanupPathQueues == [] {
          AdvanceTo(CleanupPathVectors);
          return false;
        }
        cleanupPathQueues := RemoveFromSeqs(cleanupPathQueues, false);
      }
      HeldStep(was, View(), true);
      return true;
    }

    method RemoveLast() returns (removed: bool)
      requires Valid(View()) && phase == CleanupPathVectors
      modifies this
      ensures Step(old(View()), View(), removed)
    {
      ghost var was := View();
      if cleanupPathVectors != [] {
        cleanupPathVectors := RemoveFromSeqs(cleanupPathVectors, true);
      } else if cleanupPolicies != [] {
        RemoveFromPolicies();
      } else if cleanupIdentityMaps != [] {
        cleanupIdentityMaps := RemoveFromSets(cleanupIdentityMaps);
      } else {
        AdvanceTo(Complete);
        return false;
      }
      HeldStep(was, View(), true);
      return true;
    }

    method RemoveOne() returns (removed: bool)
      requires Valid(View()) && phase != Complete
      modifies this
      ensures Step(old(View()), View(), removed)
    {
      if phase == WatchedInterests {
        removed := RemoveInterest();
      } else if Position(phase) <= 2 {
        removed := RemovePath();
      } else if Position(phase) <= 4 {
        removed := RemoveQueued();
      } else if phase == TopologyJobs {
        removed := RemoveWork();
      } else if Position(phase) <= 7 {
        removed := RemovePolicy();
      } else if Position(phase) <= 9 {
        removed := RemoveLeftOver();
      } else {
        removed := RemoveLast();
      }
    }

    method ProgressSubscriptionDisposal() returns (completed: bool)
      requires Valid(View())
      modifies this
      ensures Turn(old(View()), View(), completed)
    {
      var removed := 0;
      while removed < MAX_DISPOSAL_ITEMS_PER_TURN && phase != Complete
        invariant Valid(View()) && PeersUntouched(old(world), world, id)
        invariant removed <= MAX_DISPOSAL_ITEMS_PER_TURN && Total(View()) + removed == Total(old(View()))
        decreases MAX_DISPOSAL_ITEMS_PER_TURN - removed, Position(Complete) - Position(phase)
      {
        var one := RemoveOne();
        if one {
          removed := removed + 1;
        }
      }
      completed := removed < MAX_DISPOSAL_ITEMS_PER_TURN;
      if completed {
        CompleteIsEmpty(View());
      }
    }
  }

  lemma RegistryStepKeepsInv(w: R.World, step: R.Step)
    requires RT.Inv(w) && R.Enabled(w, step)
    ensures RT.Inv(R.Next(w, step))
  {
    RT.NextAttributes(w, step);
    RT.NextAgrees(w, step);
    RT.NextRecorded(w, step);
  }

  // ----- the output queue --------------------------------------------------

  const MAX_OUTPUT_DISPOSAL_ITEMS_PER_TURN: nat := 64

  /** Two items for each batch, when it is taken and when it is dropped, and one for each of its paths. */
  function OutputItems(batches: seq<nat>): nat
  {
    if batches == [] then 0 else batches[0] + 2 + OutputItems(batches[1..])
  }

  /**
   * Drains the batches left in an output queue nobody sends to any more, given the number of paths of each, and
   * counts the quanta it took.
   */
  method DrainDisconnectedOutput(batches: seq<nat>) returns (quanta: nat)
    ensures quanta == OutputItems(batches) / MAX_OUTPUT_DISPOSAL_ITEMS_PER_TURN + 1
  {
    var queue := batches;
    var held := false;
    var paths: nat := 0;
    var disconnected := false;
    quanta := 0;
    ghost var left: nat := OutputItems(batches);
    while !disconnected
      invariant left == (if held then paths + 1 else 0) + OutputItems(queue)
      invariant !disconnected ==> quanta * MAX_OUTPUT_DISPOSAL_ITEMS_PER_TURN + left == OutputItems(batches)
      invariant disconnected ==> quanta == OutputItems(batches) / MAX_OUTPUT_DISPOSAL_ITEMS_PER_TURN + 1
      decreases !disconnected, left
    {
      ghost var start := left;
      quanta := quanta + 1;
      var removed := 0;
      while removed < MAX_OUTPUT_DISPOSAL_ITEMS_PER_TURN && !disconnected
        invariant removed <= MAX_OUTPUT_DISPOSAL_ITEMS_PER_TURN && left + removed == start
        invariant left == (if held then paths + 1 else 0) + OutputItems(queue)
        invariant disconnected ==> left == 0 && removed < MAX_OUTPUT_DISPOSAL_ITEMS_PER_TURN
        decreases !disconnected, left
      {
        if held {
          if paths > 0 {
            paths := paths - 1;
          } else {
            held := false;
          }
          removed, left := removed + 1, left - 1;
        } else if queue != [] {
          held, paths, queue := true, queue[0], queue[1..];
          removed, left := removed + 1, left - 1;
        } else {
          disconnected := true;
        }
      }
    }
  }
}
