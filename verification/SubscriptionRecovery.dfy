// Root recovery adopts its candidate entirely or leaves nothing behind.

module SubscriptionRecovery {
  import opened Paths
  import opened Exclusions
  import opened Subscriptions
  import opened SubscriptionLines
  import opened SubscriptionPhases
  import opened SubscriptionTheorems
  import opened SubscriptionUncertainty

  /** The candidate is the root, one generation on; a boundary is reported exactly when its root batch went out. */
  ghost predicate Adopted(s: Sub, t: Sub, r: RecoveryResult)
    requires s.recovery.Some?
  {
    && r.attached && r.failure.None? && !s.recovery.value.unstable
    && t.root == RootState(s.root.generation + 1, s.recovery.value.candidate, false, None)
    && r.candidate == Some(t.root.identity)
    && r.current == t.root && r.generation == t.exclusion && r.coverage == CoverageNow(t)
    && (r.boundary.Some? <==> RootBatchSent(s, t))
    && (r.boundary.Some? ==> r.boundary.value == |t.line.log|)
    && (r.boundary.None? ==> t.line.log == s.line.log && r.coverage.Uncertain?)
  }

  /** Nothing is watched, deferred or queued for walking, no batch went out, and the root is the one lost before. */
  ghost predicate GivenUp(s: Sub, t: Sub, r: RecoveryResult)
    requires s.recovery.Some?
  {
    && !r.attached && r.failure.Some? && r.boundary.None?
    && t.tree == NoTree && t.jobs == 0 && t.barriers == 0
    && t.root == s.root && t.root.lost && r.current == t.root && t.line == s.line
    && t.root.generation == r.previous.generation && t.root.identity == r.previous.identity
    && r.coverage == CoverageNow(t) && r.coverage.Uncertain?
  }

  lemma CommitAdopts(s: Sub, room: bool)
    requires Inv(s) && s.recovery.Some? && !s.recovery.value.unstable
    ensures var t := CommitRecovery(s, room);
      t.recovery.None? && exists r :: t.answers == s.answers + [Recovered(r)] && Adopted(s, t, r)
  {
    var t := CommitRecovery(s, room);
    var r := t.answers[|s.answers|].result;
    assert Adopted(s, t, r);
    assert t.answers == s.answers + [Recovered(r)];
  }

  lemma FailureGivesUp(s: Sub)
    requires Inv(s) && Drained(s) && s.recovery.value.phase.Cleaning?
    ensures var t := FinishFailure(s);
      t.recovery.None? && exists r :: t.answers == s.answers + [Recovered(r)] && GivenUp(s, t, r)
  {
    var t := FinishFailure(s);
    var r := t.answers[|s.answers|].result;
    assert GivenUp(s, t, r);
    assert t.answers == s.answers + [Recovered(r)];
  }

  predicate StillRecovers(s: Sub, t: Sub)
  {
    s.recovery.Some? && t.recovery.Some? && (s.recovery.value.unstable ==> t.recovery.value.unstable)
  }

  lemma FlushRecovers(s: Sub, room: bool)
    requires s.recovery.Some?
    ensures StillRecovers(s, Flush(s, room))
  {
  }

  lemma NoticedRecovers(s: Sub, n: Notice, room: bool)
    requires s.recovery.Some?
    ensures StillRecovers(s, Noticed(s, n, room))
  {
    var q := QueueNotice(s, NoticePath(n));
    assert StillRecovers(s, q);
    var d := if n.isDirectory && n.left then q.(tree := WithoutSubtree(q.tree, NoticePath(n))) else q;
    FlushRecovers(d, room);
    FlushRecovers(Arrival(d), room);
  }

  lemma NotifiedRecovers(s: Sub, n: Notice, room: bool)
    requires s.recovery.Some?
    ensures StillRecovers(s, Notified(s, n, room))
  {
    var path := NoticePath(n);
    if EventExcludes(s.policy, path, n.isDirectory) {
      FlushRecovers(Queue(s, if s.root.lost then [] else path), room);
    } else if n.unmount {
    } else if n.selfGone && n.directory == [] {
      NoticedRecovers(MarkRootLost(s, RootSelfEvent), n, room);
    } else {
      NoticedRecovers(s, n, room);
    }
  }

  /** Ends of a recovery: the last step of one either adopts the candidate or gives up. */
  lemma RecoveryIsAllOrNothing(s: Sub, step: Step)
    requires Inv(s) && Enabled(s, step) && s.recovery.Some? && Next(s, step).recovery.None?
    ensures var t := Next(s, step);
      exists r :: t.answers == s.answers + [Recovered(r)] && (Adopted(s, t, r) || GivenUp(s, t, r))
  {
    if step.Notify? {
      NotifiedRecovers(s, step.notice, step.room);
    } else if step.RecoveryOpen? || step.RecoveryValidate? {
      CommitAdopts(s, step.room);
    } else if step.RecoveryFail? {
      FailureGivesUp(s);
    }
  }

  lemma UnstableStays(s: Sub, step: Step)
    requires Inv(s) && Enabled(s, step) && s.recovery.Some? && s.recovery.value.unstable
    ensures Next(s, step).recovery.Some? ==> Next(s, step).recovery.value.unstable
  {
    if step.Notify? { NotifiedRecovers(s, step.notice, step.room); }
  }

  /** A candidate once seen to be unstable is never adopted. */
  lemma {:induction false} UnstableIsGivenUp(states: seq<Sub>, steps: seq<Step>, i: nat, n: nat)
    requires Run(states, steps) && i <= n < |steps|
    requires forall k :: i <= k <= n ==> states[k].recovery.Some?
    requires states[i].recovery.value.unstable && states[n + 1].recovery.None?
    ensures exists r :: states[n + 1].answers == states[n].answers + [Recovered(r)] && GivenUp(states[n], states[n + 1], r)
    decreases n - i
  {
    SubscriptionHolds(states, steps, i);
    if i == n {
      RecoveryIsAllOrNothing(states[n], steps[n]);
    } else {
      UnstableStays(states[i], steps[i]);
      UnstableIsGivenUp(states, steps, i + 1, n);
    }
  }

  // ----- reasons -----------------------------------------------------------

  /**
   * Losing the root reports a reason no weaker than its replacement, unless paths queued for the exclusion update it
   * aborts are still pending.
   */
  lemma RootLossReason(s: Sub, evidence: Evidence)
    requires Inv(s) && s.recovery.None?
    ensures var t := MarkRootLost(s, evidence);
      t.line.reason.Some? && (Priority(t.line.reason.value) >= Priority(RootReplaced) <==> !Updating(s) || s.line.pending == {})
  {
  }

  /** Such a weakened reason outlives the recovery of the root. */
  lemma WeakenedReasonSurvivesRecovery(s: Sub, room: bool)
    requires Inv(s) && s.recovery.Some? && s.recovery.value.startReason != Some(RootReplaced)
    ensures CoverageNow(CommitRecovery(s, room)).Uncertain?
  {
    RecoveryClears(s, room);
  }

  // ----- a run that weakens the reason -------------------------------------

  const A: Path := ["a"]
  const Open: Policy := Policy({}, {}, {})
  const Root: RootState := RootState(1, 7, false, None)
  const LostRoot: RootState := RootState(1, 7, true, Some(PathIdentityMismatch))
  const Both: seq<Entry> := [Entry(A, 1, 0), Entry([], 0, 0)]

  const Begun: Sub := Sub(Root, NoTree, Line({}, None, None, 0, 1, true, [], []), Open, 0, 0, None, None, None, 1, 1, 9,
                          Open, 0, [])
  const Settling: Sub := Begun.(jobs := 0, barriers := 0)
  const Asked: Sub := Settling.(received := 1, update := Some(Update(1, Open, Open, [], [], WaitingToReplace)))
  const Started: Sub :=
    Asked.(update := Some(Update(1, Open, Open, [], [], RemovingExcluded)), selection := 1, barriers := 1)
  const Noted: Sub := Started.(line := Line({A}, Some(1), None, 0, 1, true, [], [Entry(A, 1, 0)]))
  /** The path queued for the aborted update makes the loss of the root look like a race. */
  const Detached: Sub :=
    Settling.(received := 1, root := LostRoot, answers := [RootLost],
              line := Line({[]}, Some(0), Some(TopologyRace), 1, 1, true, [], Both))
  const LossBatch: Batch := Batch(1, 0, LostRoot, {[]}, Uncertain(TopologyRace))
  const Recovering: Sub :=
    Detached.(received := 2, barriers := 1, line := Line({}, None, Some(TopologyRace), 1, 2, true, [LossBatch], Both),
              recovery := Some(Recovery(RemovingOld, LostRoot, 7, Some(TopologyRace), 1, None, false)))
  const Opening: Sub :=
    Recovering.(tree := Tree({[]}, map[], {}), barriers := 2, jobs := 1,
                recovery := Some(Recovery(Walking, LostRoot, 7, Some(TopologyRace), 1, None, false)))
  const Walked: Sub := Opening.(jobs := 0, barriers := 1)

  const InRoot: Notice := Notice([], Some("a"), false, false, false, true, false)

  ghost predicate Goes(s: Sub, step: Step, t: Sub)
  {
    Enabled(s, step) && Next(s, step) == t
  }

  lemma UpdateGoes()
    ensures Start(Begun) && Goes(Begun, FinishJob(None), Settling)
    ensures Goes(Settling, ReplaceCommand(1, Open, [], []), Asked) && Goes(Asked, UpdateStart(true, true), Started)
  {
  }

  lemma NoticeGoes()
    ensures Goes(Started, Notify(InRoot, true), Noted)
  {
    assert NoticePath(InRoot) == A by {
      assert [] + ["a"] == ["a"];
    }
    assert !EventExcludes(Open, A, false);
    assert {} + {A} == {A};
    assert [] + [Entry(A, 1, 0)] == [Entry(A, 1, 0)];
  }

  lemma LossGoes()
    ensures Goes(Noted, RootMismatch, Detached)
  {
    assert [] + [RootLost] == [RootLost];
    assert [Entry(A, 1, 0)] + [Entry([], 0, 0)] == Both;
  }

  lemma RecoverGoes()
    ensures Goes(Detached, RecoverCommand(Captured(7), false, true), Recovering)
  {
    var r := Detached.(received := 2);
    assert BatchOf(r) == LossBatch;
    assert [] + [LossBatch] == [LossBatch];
  }

  lemma OpenGoes()
    ensures Goes(Recovering, RecoveryOpen(true, Opened, true), Opening)
  {
    assert !TopologyExcludes(Open, []);
  }

  lemma WalkGoes()
    ensures Goes(Opening, FinishJob(None), Walked) && Enabled(Walked, RecoveryValidate(true, true))
  {
  }

  ghost predicate Reachable(s: Sub)
  {
    exists states, steps :: Run(states, steps) && states[|states| - 1] == s
  }

  lemma Onward(s: Sub, step: Step, t: Sub)
    requires Reachable(s) && Goes(s, step, t)
    ensures Reachable(t)
  {
    var states, steps :| Run(states, steps) && states[|states| - 1] == s;
    var more, all := states + [t], steps + [step];
    forall k | 0 <= k < |all| ensures Enabled(more[k], all[k]) && more[k + 1] == Next(more[k], all[k]) {
      if k < |steps| {
        assert more[k] == states[k] && more[k + 1] == states[k + 1] && all[k] == steps[k];
      }
    }
    assert Run(more, all);
  }

  lemma StartReachable(s: Sub)
    requires Start(s)
    ensures Reachable(s)
  {
    assert Run([s], []);
  }

  lemma RecoveredIsUncertain()
    ensures var last := ValidateCandidate(Walked, true, true);
      && !last.root.lost && last.root.generation == 2 && last.recovery.None?
      && CoverageNow(last) == Uncertain(TopologyRace)
  {
    assert ReasonAfterRecovery(Walked) == Some(TopologyRace);
  }

  lemma StartedIsReachable()
    ensures Reachable(Started)
  {
    UpdateGoes();
    StartReachable(Begun);
    Onward(Begun, FinishJob(None), Settling);
    Onward(Settling, ReplaceCommand(1, Open, [], []), Asked);
    Onward(Asked, UpdateStart(true, true), Started);
  }

  lemma NotedIsReachable()
    requires Reachable(Started)
    ensures Reachable(Noted)
  {
    NoticeGoes();
    Onward(Started, Notify(InRoot, true), Noted);
  }

  lemma WalkedIsReachable()
    requires Reachable(Detached)
    ensures Reachable(Walked)
  {
    RecoverGoes();
    OpenGoes();
    WalkGoes();
    Onward(Detached, RecoverCommand(Captured(7), false, true), Recovering);
    Onward(Recovering, RecoveryOpen(true, Opened, true), Opening);
    Onward(Opening, FinishJob(None), Walked);
  }

  /**
   * An exclusion update starts, a path is queued for it, the root is lost and then recovered: the recovery succeeds and
   * its root is attached, but coverage stays uncertain.
   */
  lemma RecoveryLeavesUncertainty()
    ensures Reachable(Noted) && Updating(Noted) && Noted.line.pending == {A}
    ensures Reachable(Detached) && Goes(Noted, RootMismatch, Detached)
    ensures Reachable(Walked) && Enabled(Walked, RecoveryValidate(true, true))
    ensures var last := Next(Walked, RecoveryValidate(true, true));
      && !last.root.lost && last.root.generation == 2 && last.recovery.None?
      && CoverageNow(last) == Uncertain(TopologyRace)
  {
    StartedIsReachable();
    NotedIsReachable();
    LossGoes();
    Onward(Noted, RootMismatch, Detached);
    WalkedIsReachable();
    WalkGoes();
    RecoveredIsUncertain();
  }

  /** The evidence of a loss depends on what was seen only, not on the order or how often; two kinds of it are multiple. */
  lemma EvidenceIsOrderless(current: Option<Evidence>, a: Evidence, b: Evidence)
    ensures Evident(Evident(current, a), b) == Evident(Evident(current, b), a)
    ensures Evident(Evident(current, a), a) == Evident(current, a)
    ensures Evident(None, a) == Some(a) && (Evident(Some(a), b) == Some(Multiple) <==> a != b || a == Multiple)
  {
  }

  // ----- partial coverage --------------------------------------------------

  function PartialPriority(p: Partial): nat
  {
    match p
    case TransientError => 1
    case ResourceLimit => 2
    case Permission => 3
  }

  /** Every reason for which some directory is not covered; a promotion still to be walked counts as a limit. */
  function PartialReasons(t: Tree): set<Partial>
  {
    t.deferred.Values + (if t.promotions == {} then {} else {ResourceLimit})
  }

  lemma ReasonsAreThere(t: Tree)
    ensures PartialReasons(t) == {} <==> t.deferred == map[] && t.promotions == {}
    ensures |t.deferred.Keys + t.promotions| > 0 <==> PartialReasons(t) != {}
  {
    if p :| p in t.deferred {
      assert t.deferred[p] in t.deferred.Values;
      assert p in t.deferred.Keys + t.promotions;
    } else if p :| p in t.promotions {
      assert ResourceLimit in PartialReasons(t);
      assert p in t.deferred.Keys + t.promotions;
    } else {
      assert t.deferred.Keys + t.promotions == {};
      assert t.deferred == map[];
    }
  }

  lemma ReasonIsGravest(t: Tree)
    ensures PartialReason(t).None? <==> PartialReasons(t) == {}
    ensures PartialReason(t).Some? ==>
      PartialReason(t).value in PartialReasons(t)
      && forall r :: r in PartialReasons(t) ==> PartialPriority(r) <= PartialPriority(PartialReason(t).value)
  {
    forall r | r in PartialReasons(t)
      ensures PartialReason(t).Some? && PartialPriority(r) <= PartialPriority(PartialReason(t).value)
    {
      match r {
        case TransientError =>
        case ResourceLimit =>
        case Permission =>
      }
    }
  }

  /** Certain coverage is complete exactly when nothing is deferred or promoted, and otherwise gives the gravest reason. */
  lemma CoverageNamesTheGravest(t: Tree)
    ensures CertainCoverage(t) == Complete <==> t.deferred == map[] && t.promotions == {}
    ensures CertainCoverage(t).Incomplete? ==>
      var c := CertainCoverage(t);
      && c.partial in PartialReasons(t)
      && (forall r :: r in PartialReasons(t) ==> PartialPriority(r) <= PartialPriority(c.partial))
      && c.watched == |t.watched| && c.deferred == |t.deferred.Keys + t.promotions| > 0
  {
    ReasonIsGravest(t);
    ReasonsAreThere(t);
  }
}
