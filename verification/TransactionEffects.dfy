// What the three transactions of a subscription do: which commands they accept, what is
// in force while they run, and what they leave when they commit.

module TransactionEffects {
  import opened Paths
  import opened Exclusions
  import opened Subscriptions
  import opened SubscriptionLines
  import opened SubscriptionPhases
  import opened SubscriptionUncertainty
  import opened SubscriptionRecovery

  // ----- commands ----------------------------------------------------------

  /** The command is answered with a refusal and does nothing else. */
  predicate RefusedOnly(s: Sub, t: Sub)
  {
    t == s.(received := s.received + 1, answers := s.answers + [Refused])
  }

  /** It is taken up and nothing else changes yet. */
  predicate TakenUp(s: Sub, t: Sub)
  {
    t == s.(received := s.received + 1, update := t.update, reconciliation := t.reconciliation) && Busy(t)
  }

  /** A replacement is taken up exactly when the root is there, nothing else is under way, and its generation is new. */
  lemma ReplacementIsAccepted(s: Sub, generation: nat, policy: Policy, included: seq<Path>, invalidations: seq<Path>)
    ensures var t := Next(s, ReplaceCommand(generation, policy, included, invalidations));
      if !s.root.lost && !Busy(s) && generation > s.exclusion then
        && TakenUp(s, t) && t.reconciliation == s.reconciliation
        && t.update == Some(Update(generation, policy, s.policy, included, invalidations, WaitingToReplace))
      else RefusedOnly(s, t)
  {
  }

  /** A reconciliation is taken up exactly when the root is there and nothing else is under way. */
  lemma ReconciliationIsAccepted(s: Sub)
    ensures var t := Next(s, ReconcileCommand);
      if !s.root.lost && !Busy(s) then
        TakenUp(s, t) && t.update == s.update && t.reconciliation.Some? && t.reconciliation.value.phase == WaitingToReconcile
      else RefusedOnly(s, t)
  {
  }

  /** It answers at once that nothing was attached, and why. */
  predicate Declined(s: Sub, t: Sub, candidate: Option<Identity>, failure: Failure)
  {
    t == s.(received := s.received + 1,
            answers := s.answers + [Recovered(RecoveryResult(false, Some(failure), s.root, candidate, s.root, s.exclusion,
                                                             CoverageNow(s), None))])
  }

  /**
   * A recovery is refused while the root is there or something is under way, declined without a candidate or for another
   * directory than the original if only that is asked for, and otherwise taken up for the candidate.
   */
  lemma RecoveryIsAccepted(s: Sub, candidate: Candidate, originalOnly: bool, room: bool)
    requires Inv(s)
    ensures var t := Next(s, RecoverCommand(candidate, originalOnly, room));
      if Busy(s) || !s.root.lost then RefusedOnly(s, t)
      else if candidate.NotCaptured? then Declined(s, t, None, candidate.failure)
      else if originalOnly && candidate.identity != s.root.identity then
        Declined(s, t, Some(candidate.identity), ReplacementNotAccepted)
      else
        && t.recovery == Some(Recovery(RemovingOld, s.root, candidate.identity, t.line.reason, t.line.epoch, None, false))
        && t.answers == s.answers && t.received == s.received + 1 && t.line.pending == {} && t.line.reason.Some?
        && t.root == s.root && t.tree == s.tree && t.jobs == s.jobs && t.policy == s.policy
  {
    FlushShape(s.(received := s.received + 1), room);
  }

  // ----- exclusion updates -------------------------------------------------

  /**
   * A waiting update comes into force on a stable boundary: its policy and generation are selected, and nothing queued
   * under the old generation is pending any more.
   */
  lemma UpdateComesIntoForce(s: Sub, room: bool)
    requires Inv(s) && Enabled(s, UpdateStart(true, room))
    ensures var u, t := s.update.value, Next(s, UpdateStart(true, room));
      && t.policy == u.policy && t.selection == u.generation && t.update == Some(u.(phase := RemovingExcluded))
      && t.exclusion == s.exclusion && t.committed == s.committed && t.answers == s.answers && t.tree == s.tree
      && t.barriers == 1 && t.jobs == 0
      && (t.line.pending == {} || (t.line.pending == {[]} && CoverageNow(t).Uncertain?))
      && (s.line.connected && room && |s.line.pending| <= s.maxBatchPaths ==>
           t.line.pending == {} && t.line.reason == s.line.reason
           && (s.line.pending != {} ==> |t.line.log| == |s.line.log| + 1 && t.line.log[|s.line.log|].paths == s.line.pending))
  {
    FlushShape(s, room);
  }

  /** Each path that is included again is given a job and a barrier. */
  lemma IncludedAreWalked(s: Sub)
    requires Enabled(s, UpdateScan)
    ensures var u, t := s.update.value, Next(s, UpdateScan);
      && t == s.(update := t.update, jobs := s.jobs + |u.included|, barriers := s.barriers + |u.included|)
      && t.update == Some(u.(phase := ScanningIncluded))
  {
  }

  /** An update that commits on a stable boundary makes its policy and generation the committed ones and answers with them. */
  lemma UpdateCommits(s: Sub)
    requires Inv(s) && Enabled(s, UpdateCommit(true))
    ensures var u, t := s.update.value, Next(s, UpdateCommit(true));
      && t.update.None? && t.committed == t.policy == u.policy && t.exclusion == t.selection == u.generation
      && t.answers == s.answers + [Replaced(u.generation, CoverageNow(t))]
      && t.tree == s.tree && t.jobs == 0 && t.barriers == 0
      && (forall p :: p in u.included + u.invalidations ==> Covers(t.line.pending, p))
  {
    var u := s.update.value;
    var c := s.(update := None, barriers := s.barriers - 1, exclusion := u.generation, committed := s.policy);
    QueueAllPends(c, u.included + u.invalidations);
  }

  lemma {:induction false} QueueAllPends(s: Sub, paths: seq<Path>)
    requires Current(s)
    ensures var t := QueueAll(s, paths);
      && (forall p :: p in s.line.pending ==> Covers(t.line.pending, p))
      && (forall p :: p in paths ==> Covers(t.line.pending, p))
    decreases |paths|
  {
    if paths != [] {
      var q := Queue(s, paths[0]);
      QueueAllPends(q, paths[1..]);
      assert Covers(q.line.pending, paths[0]);
      assert forall p :: p in s.line.pending ==> Covers(q.line.pending, p);
    }
  }

  // ----- reconciliation ----------------------------------------------------

  /**
   * A reconciliation begins on a stable boundary with a job for the root, remembers what was raised until then, and drops
   * what is still pending, since its commit will tell of the root.
   */
  lemma ReconciliationBegins(s: Sub, room: bool)
    requires Inv(s) && Enabled(s, ReconciliationStart(true, room))
    ensures var t := Next(s, ReconciliationStart(true, room));
      && t.reconciliation == Some(Reconciliation(Scanning, t.line.reason, t.line.epoch))
      && t.jobs == 1 && t.barriers == 2 && t.line.pending == {} && t.tree == s.tree && t.answers == s.answers
      && (s.line.connected && room && 0 < |s.line.pending| <= s.maxBatchPaths ==>
           |t.line.log| == |s.line.log| + 1 && t.line.log[|s.line.log|].paths == s.line.pending)
  {
    FlushShape(s, room);
  }

  /** Its scan is over when all jobs are; then it only sweeps, until something arrives. */
  lemma SweepBegins(s: Sub)
    requires Inv(s) && Enabled(s, SweepStart)
    ensures var t := Next(s, SweepStart);
      && t == s.(reconciliation := t.reconciliation) && s.jobs == 0
      && t.reconciliation == Some(s.reconciliation.value.(phase := Sweeping))
  {
  }

  /**
   * A commit on a stable boundary sends the root and answers with the coverage it sent, or answers that it could not, and
   * then the root is pending under uncertainty.
   */
  lemma ReconciliationCommits(s: Sub, room: bool)
    requires Inv(s) && Enabled(s, ReconciliationCommit(true, room))
    ensures var t := Next(s, ReconciliationCommit(true, room));
      && t.reconciliation.None? && t.barriers == 0 && t.jobs == 0 && t.tree == s.tree && t.root == s.root
      && t.exclusion == s.exclusion && t.policy == s.policy
      && (if s.line.connected && room then
            && RootBatchSent(s, t) && t.line.pending == {} && t.answers == s.answers + [Reconciled(s.exclusion, CoverageNow(t))]
            && t.line.epoch == s.line.epoch
            && t.line.reason == (if Clears(s) then None else s.line.reason)
          else
            && t.line.log == s.line.log && t.line.pending == {[]} && CoverageNow(t).Uncertain?
            && t.answers == s.answers + [Unsent])
  {
  }

  // ----- root recovery -----------------------------------------------------

  /** What ends the removal of the old root: a candidate that changed is given up, and so is one that cannot be watched. */
  lemma CandidateIsOpened(s: Sub, stable: bool, opening: Opening, room: bool)
    requires Inv(s) && Enabled(s, RecoveryOpen(stable, opening, room))
    ensures var t := Next(s, RecoveryOpen(stable, opening, room));
      && (s.recovery.value.unstable || !stable ==> GivesUpFor(s, t, IdentityUnstable) && t.line == s.line && t.tree == s.tree)
      && (!s.recovery.value.unstable && stable && !TopologyExcludes(s.policy, []) ==>
           match opening
           case Opened =>
             && t.recovery == Some(s.recovery.value.(phase := Walking)) && t.jobs == 1 && t.barriers == 2
             && t.tree == NoTree.(watched := {[]}) && t.line == s.line && t.root == s.root && t.answers == s.answers
           case Unavailable(watched) => GivesUpFor(s, t, RootWatchUnavailable) && t.line == s.line
           case TurnedUnstable(_) => GivesUpFor(s, t, IdentityUnstable) && t.recovery.value.unstable && CoverageNow(t).Uncertain?)
  {
  }

  /** The recovery goes on only to remove what it added, and will fail with this. */
  predicate GivesUpFor(s: Sub, t: Sub, failure: Failure)
  {
    t.recovery.Some? && t.recovery.value.phase == Cleaning(failure) && t.root == s.root && t.answers == s.answers
    && t.line.log == s.line.log
  }

  /** A root that the policy itself excludes is adopted without a walk. */
  lemma ExcludedRootIsAdopted(s: Sub, opening: Opening, room: bool)
    requires Inv(s) && Enabled(s, RecoveryOpen(true, opening, room))
    requires !s.recovery.value.unstable && TopologyExcludes(s.policy, [])
    ensures AdoptedNow(s, Next(s, RecoveryOpen(true, opening, room)), room)
  {
    AdoptsNow(s, room);
  }

  /** The candidate is the root; its root batch went out exactly if somebody listens and there was room for it. */
  ghost predicate AdoptedNow(s: Sub, t: Sub, room: bool)
    requires s.recovery.Some?
  {
    && t.recovery.None? && t.barriers == 0 && t.tree == s.tree
    && (exists r :: t.answers == s.answers + [Recovered(r)] && Adopted(s, t, r) && r.previous == s.recovery.value.previous
         && (r.boundary.Some? <==> s.line.connected && room))
    && (s.line.connected && room ==> t.line.pending == {})
    && (!(s.line.connected && room) ==> t.line.pending == {[]})
  }

  lemma AdoptsNow(s: Sub, room: bool)
    requires Inv(s) && s.recovery.Some? && !s.recovery.value.unstable
    ensures AdoptedNow(s, CommitRecovery(s, room), room)
  {
    CommitAdopts(s, room);
    var t := CommitRecovery(s, room);
    var r := t.answers[|s.answers|].result;
    assert t.answers == s.answers + [Recovered(r)];
  }

  /** A walked candidate is adopted exactly when it is stable to the end. */
  lemma WalkedIsAdopted(s: Sub, stable: bool, room: bool)
    requires Inv(s) && Enabled(s, RecoveryValidate(stable, room))
    ensures var t := Next(s, RecoveryValidate(stable, room));
      if stable && !s.recovery.value.unstable then AdoptedNow(s, t, room)
      else GivesUpFor(s, t, IdentityUnstable) && t.line == s.line && t.barriers == 1
  {
    if stable && !s.recovery.value.unstable { AdoptsNow(s, room); }
  }

  /** A candidate seen to change is unstable from then on, under uncertainty; it is cleaned up before anything else. */
  lemma ChangedCandidateIsUnstable(s: Sub)
    requires Inv(s) && Enabled(s, LoseCandidate)
    ensures var t := Next(s, LoseCandidate);
      && t.recovery.Some? && t.recovery.value.unstable && t.recovery.value.phase == s.recovery.value.phase
      && t.line.epoch == s.line.epoch + 1 && CoverageNow(t).Uncertain? && t.root == s.root && t.tree == s.tree
    ensures Enabled(Next(s, LoseCandidate), ForceCleaning)
    ensures GivesUpFor(s, Next(Next(s, LoseCandidate), ForceCleaning), IdentityUnstable)
  {
  }

  /** A recovery given up names what it failed for, its candidate, and the root lost before. */
  lemma FailureIsNamed(s: Sub)
    requires Inv(s) && Enabled(s, RecoveryFail)
    ensures var t := Next(s, RecoveryFail);
      && t.recovery.None? && t.barriers == 0 && t.line == s.line && t.root == s.root && t.tree == s.tree
      && t.answers == s.answers + [Recovered(RecoveryResult(
           false, Some(s.recovery.value.phase.failure), s.recovery.value.previous, Some(s.recovery.value.candidate),
           s.root, s.exclusion, CoverageNow(s), None))]
  {
  }

  /** A recovery keeps the gravest reason raised since its candidate was captured, whatever coverage said before. */
  lemma LaterReasonIsKept(s: Sub, step: Step)
    requires Inv(s) && s.recovery.Some? && (step.Doubt? || step.LoseCandidate?) && Enabled(s, step)
    ensures var t, raised := Next(s, step), if step.Doubt? then step.reason else TopologyRace;
      && t.recovery.Some? && t.recovery.value.later.Some?
      && Priority(t.recovery.value.later.value) >= Priority(raised)
      && (s.recovery.value.later.None? ==> t.recovery.value.later == Some(raised))
      && (t.recovery.value.later == Some(raised) || t.recovery.value.later == s.recovery.value.later)
      && (s.recovery.value.later.Some? ==>
           Priority(t.recovery.value.later.value) >= Priority(s.recovery.value.later.value))
  {
  }

  /**
   * The adoption of a candidate clears the loss of the root and what came before: what was raised since remains, and a
   * reason that was not the root's loss remains too.
   */
  lemma RecoveryClearsTheLoss(s: Sub, room: bool)
    requires Inv(s) && Enabled(s, RecoveryValidate(true, room)) && !s.recovery.value.unstable
    requires s.line.connected && room
    ensures var t, r := Next(s, RecoveryValidate(true, room)), s.recovery.value;
      CoverageNow(t) == if r.startReason != Some(RootReplaced) then CoverageOf(s.tree, s.line.reason)
                        else if r.later.Some? then Uncertain(r.later.value)
                        else CertainCoverage(s.tree)
  {
  }

  // ----- the walk ----------------------------------------------------------

  /** A job that ends frees its barrier, and a promoted directory it walked counts as promoted no more. */
  lemma JobEnds(s: Sub, promotion: Option<Path>)
    requires Inv(s) && Enabled(s, FinishJob(promotion))
    ensures var t := Next(s, FinishJob(promotion));
      && t.jobs + 1 == s.jobs && (!s.root.lost || RecoveryWalks(s) ==> t.barriers + 1 == s.barriers)
      && t.line == s.line && t.tree.watched == s.tree.watched && t.tree.deferred == s.tree.deferred
      && (forall p :: p in t.tree.promotions <==> p in s.tree.promotions && promotion != Some(p))
  {
  }

  /** A promoted directory is watched instead of deferred, given a job, and told of. */
  lemma PromotionIsWalked(s: Sub, path: Path)
    requires Inv(s) && Enabled(s, Promote(path))
    ensures var t := Next(s, Promote(path));
      && path in t.tree.watched && path !in t.tree.deferred && path in t.tree.promotions
      && t.jobs == s.jobs + 1 && t.barriers == s.barriers + 1
      && CoverageOf(t.tree, t.line.reason) != Complete
      && (forall p :: p != path ==> (p in t.tree.watched <==> p in s.tree.watched) && (p in t.tree.deferred <==> p in s.tree.deferred))
  {
    PromotedIsPartial(Next(s, Promote(path)).tree, path);
  }

  lemma PromotedIsPartial(tree: Tree, path: Path)
    requires path in tree.promotions
    ensures CertainCoverage(tree).Incomplete?
  {
  }
}
