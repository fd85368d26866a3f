// The bookkeeping of the three transactions: they exclude one another, the barriers
// count exactly what holds batches back, and a batch names a committed generation.

module SubscriptionPhases {
  import opened Paths
  import opened Exclusions
  import opened Subscriptions
  import opened SubscriptionLines

  predicate Updating(s: Sub)
  {
    s.update.Some? && s.update.value.phase != WaitingToReplace
  }

  predicate Reconciling(s: Sub)
  {
    s.reconciliation.Some? && s.reconciliation.value.phase != WaitingToReconcile
  }

  predicate RecoveryWalks(s: Sub)
  {
    s.recovery.Some? && s.recovery.value.phase == Walking
  }

  /** Transactions past their waiting phase. */
  function Held(s: Sub): nat
  {
    (if Updating(s) then 1 else 0) + (if Reconciling(s) then 1 else 0)
  }

  predicate Exclusive(s: Sub)
  {
    && (s.update.Some? ==> s.reconciliation.None? && s.recovery.None?)
    && (s.reconciliation.Some? ==> s.recovery.None?)
    && (s.root.lost ==> s.update.None? && s.reconciliation.None? && s.line.reason.Some?)
    && (s.recovery.Some? ==> s.root.lost)
  }

  /** Every barrier is a job or a transaction under way, and a sweep has no job outstanding. */
  predicate Barriers(s: Sub)
  {
    && (!s.root.lost ==> s.barriers == s.jobs + Held(s))
    && (s.root.lost && s.recovery.None? ==> s.barriers == 0)
    && (RecoveryWalks(s) ==> s.barriers == s.jobs + 1)
    && (s.reconciliation.Some? && s.reconciliation.value.phase == Sweeping ==> s.jobs == 0)
  }

  /** The policy in force is the committed one, or that of the update under way, and so is its generation. */
  predicate Selected(s: Sub)
  {
    && s.selection == (if Updating(s) then s.update.value.generation else s.exclusion)
    && s.policy == (if Updating(s) then s.update.value.policy else s.committed)
    && (s.update.Some? ==> s.update.value.generation > s.exclusion && s.update.value.previous == s.committed)
    && (s.line.generation.Some? ==> s.line.generation.value == s.selection)
  }

  predicate Epochs(s: Sub)
  {
    && (Reconciling(s) ==> s.reconciliation.value.startEpoch <= s.line.epoch)
    && (s.recovery.Some? ==>
         && s.recovery.value.startEpoch <= s.line.epoch
         && (s.recovery.value.later.None? ==> s.recovery.value.startEpoch == s.line.epoch)
         && s.recovery.value.previous.generation == s.root.generation
         && s.recovery.value.previous.identity == s.root.identity)
  }

  predicate OneAnswerEach(s: Sub)
  {
    s.received == |s.answers| + (if Busy(s) then 1 else 0)
  }

  predicate Phases(s: Sub)
  {
    Exclusive(s) && Barriers(s) && Selected(s) && Epochs(s) && OneAnswerEach(s) && s.maxBatchPaths >= 1
  }

  /** Generations never decrease from batch to batch and are all committed, and no batch is too long. */
  ghost predicate Generated(log: seq<Batch>, exclusion: nat, max: nat)
  {
    && (forall k :: 0 <= k < |log| ==> log[k].generation <= exclusion && |log[k].paths| <= max)
    && (forall i, j :: 0 <= i < j < |log| ==> log[i].generation <= log[j].generation)
  }

  ghost predicate Inv(s: Sub)
  {
    Phases(s) && Kept(s.line) && Generated(s.line.log, s.exclusion, s.maxBatchPaths)
  }

  // ----- building blocks ---------------------------------------------------

  lemma QueuedInv(s: Sub, path: Path)
    requires Inv(s)
    ensures Inv(Queue(s, path))
  {
    QueueKeeps(s.line, s.selection, path);
  }

  lemma MarkedInv(s: Sub, reason: Reason)
    requires Inv(s)
    ensures Inv(MarkUncertain(s, reason))
  {
    RaiseKeeps(s.line, s.selection, reason);
  }

  lemma LostPhases(s: Sub, evidence: Evidence)
    requires Phases(s)
    ensures Phases(MarkRootLost(s, evidence))
  {
  }

  lemma LostShape(s: Sub, evidence: Evidence)
    ensures var t := MarkRootLost(s, evidence);
      && t.line == Raise(s.line, t.selection, RootReplaced)
      && t.root.lost && t.exclusion == s.exclusion && t.maxBatchPaths == s.maxBatchPaths
  {
  }

  lemma LostInv(s: Sub, evidence: Evidence)
    requires Inv(s)
    ensures Inv(MarkRootLost(s, evidence))
    ensures MarkRootLost(s, evidence).root.lost
  {
    LostPhases(s, evidence);
    LostShape(s, evidence);
    RaiseKeeps(s.line, MarkRootLost(s, evidence).selection, RootReplaced);
  }

  lemma FlushedInv(s: Sub, room: bool)
    requires Inv(s) && s.selection == s.exclusion
    ensures Inv(Flush(s, room))
  {
    FlushShape(s, room);
  }

  lemma FlushedIfFullInv(s: Sub, room: bool)
    requires Inv(s)
    ensures Inv(FlushIfFull(s, room))
  {
    if s.barriers == 0 {
      FlushedInv(s, room);
    }
  }

  // ----- notifications and jobs --------------------------------------------

  lemma QueueNoticeInv(s: Sub, path: Path)
    requires Inv(s)
    ensures Inv(QueueNotice(s, path))
    ensures QueueNotice(s, path).root == s.root
  {
    MarkedInv(s, ConsumerBackpressure);
    QueuedInv(s, if s.reconciliation.Some? || s.recovery.Some? || s.root.lost then [] else path);
  }

  lemma DepartureInv(s: Sub, path: Path)
    requires Inv(s)
    ensures Inv(s.(tree := WithoutSubtree(s.tree, path)))
  {
  }

  lemma AppliedInv(s: Sub, n: Notice, room: bool)
    requires Inv(s) && (s.root.lost ==> s.recovery.Some?)
    ensures Inv(Applied(s, n, room))
  {
    DepartureInv(s, NoticePath(n));
    var d := if n.isDirectory && n.left then s.(tree := WithoutSubtree(s.tree, NoticePath(n))) else s;
    if n.isDirectory && n.arrived {
      ArrivalInv(d);
      FlushedIfFullInv(Arrival(d), room);
    } else {
      FlushedIfFullInv(d, room);
    }
  }

  lemma NoticedInv(s: Sub, n: Notice, room: bool)
    requires Inv(s)
    ensures Inv(Noticed(s, n, room))
  {
    QueueNoticeInv(s, NoticePath(n));
    var q := QueueNotice(s, NoticePath(n));
    if !q.root.lost || q.recovery.Some? {
      AppliedInv(q, n, room);
    }
  }

  lemma NotifyInv(s: Sub, n: Notice, room: bool)
    requires Inv(s)
    ensures Inv(Notified(s, n, room))
  {
    var path := NoticePath(n);
    if EventExcludes(s.policy, path, n.isDirectory) {
      var p := if s.root.lost then [] else path;
      QueuedInv(s, p);
      FlushedIfFullInv(Queue(s, p), room);
    } else if n.unmount {
      MarkedInv(s, TopologyRace);
    } else if n.selfGone && n.directory == [] {
      LostInv(s, RootSelfEvent);
      NoticedInv(MarkRootLost(s, RootSelfEvent), n, room);
    } else {
      NoticedInv(s, n, room);
    }
  }

  lemma ArrivalInv(s: Sub)
    requires Inv(s) && (s.root.lost ==> s.recovery.Some?)
    ensures Inv(Arrival(s))
  {
  }

  lemma WatchGoneInv(s: Sub, path: Path, expected: bool)
    requires Inv(s)
    ensures Inv(WatchGone(s, path, expected))
  {
    var t := s.(tree := s.tree.(watched := s.tree.watched - {path}));
    assert Inv(t);
    LostInv(t, RootWatchLoss);
    MarkedInv(t, TopologyRace);
  }

  // Kinds of steps, other than notices and what the environment does.

  predicate Walks(step: Step) { step.Walk? || step.FinishJob? || step.Promote? }

  predicate Commands(step: Step) { step.ReplaceCommand? || step.ReconcileCommand? || step.RecoverCommand? }

  predicate Updates(step: Step) { step.UpdateStart? || step.RemoveExcluded? || step.UpdateScan? || step.UpdateCommit? }

  predicate Reconciles(step: Step) { step.ReconciliationStart? || step.SweepStart? || step.Sweep? || step.ReconciliationCommit? }

  predicate Recovers(step: Step)
  {
    || step.Drain? || step.RecoveryOpen? || step.LoseCandidate? || step.ForceCleaning? || step.RecoveryValidate?
    || step.RecoveryFail?
  }

  lemma JobInv(s: Sub, step: Step)
    requires Inv(s) && Enabled(s, step) && Walks(step)
    ensures Inv(Next(s, step))
  {
    if step.Promote? {
      var t := s.(tree := s.tree.(watched := s.tree.watched + {step.path}, deferred := s.tree.deferred - {step.path},
                                  promotions := s.tree.promotions + {step.path}),
                  jobs := s.jobs + 1, barriers := s.barriers + 1);
      QueuedInv(t, step.path);
    }
  }

  // ----- exclusion updates -------------------------------------------------

  lemma StartUpdateInv(s: Sub, stable: bool, room: bool)
    requires Inv(s) && UpdateReady(s)
    ensures Inv(StartUpdate(s, stable, room))
  {
    if !stable {
      LostInv(s, PathIdentityMismatch);
    } else {
      FlushShape(s, room);
      var f := Flush(s, room);
      FlushedInv(s, room);
      var t := f.(line := if f.line.pending != {} then Cleared(f.line) else f.line,
                  update := Some(s.update.value.(phase := RemovingExcluded)),
                  policy := s.update.value.policy, selection := s.update.value.generation, barriers := 1);
      assert Inv(t);
      MarkedInv(t, ConsumerBackpressure);
    }
  }

  lemma QueueAllLog(s: Sub, paths: seq<Path>)
    ensures var t := QueueAll(s, paths);
      && t.line.log == s.line.log && t.line.epoch == s.line.epoch && t.line.connected == s.line.connected
      && (s.line.reason.Some? ==> t.line.reason.Some?)
      && (t.line.generation == Some(s.selection) || (paths == [] && t == s))
    decreases |paths|
  {
    if paths != [] {
      QueueAllLog(Queue(s, paths[0]), paths[1..]);
    }
  }

  lemma CommitUpdateInv(s: Sub, stable: bool)
    requires Inv(s) && UpdateDone(s)
    ensures Inv(CommitUpdate(s, stable))
  {
    if !stable {
      LostInv(s, PathIdentityMismatch);
    } else {
      var u := s.update.value;
      var c := s.(update := None, barriers := s.barriers - 1, exclusion := u.generation, committed := s.policy);
      QueueAllKeeps(c, u.included + u.invalidations);
      QueueAllLog(c, u.included + u.invalidations);
    }
  }

  // ----- reconciliation ----------------------------------------------------

  lemma StartReconciliationInv(s: Sub, stable: bool, room: bool)
    requires Inv(s) && ReconciliationReady(s)
    ensures Inv(StartReconciliation(s, stable, room))
  {
    FlushShape(s, room);
    var f := Flush(s, room);
    FlushedInv(s, room);
    var c := f.(line := Cleared(f.line));
    assert Inv(c);
    if !stable { LostInv(c, PathIdentityMismatch); }
  }

  lemma CommitReconciliationInv(s: Sub, stable: bool, room: bool)
    requires Inv(s) && s.reconciliation.Some? && s.reconciliation.value.phase == Sweeping
    ensures Inv(CommitReconciliation(s, stable, room))
  {
    if !stable {
      LostAtCommit(s);
    } else if s.line.connected && room {
      ReconciledInv(s);
    } else {
      UnsentInv(s, room);
    }
  }

  lemma ReconciledInv(s: Sub)
    requires Inv(s) && s.reconciliation.Some? && s.reconciliation.value.phase == Sweeping && s.line.connected
    ensures Inv(CommitReconciliation(s, true, true))
  {
    var c := s.(reconciliation := None, barriers := 0, line := Cleared(s.line));
    var coverage := if Clears(s) then CertainCoverage(c.tree) else CoverageNow(c);
    var batch := Batch(c.line.sequence, c.exclusion, c.root, {[]}, coverage);
    SendKeeps(s.line, batch);
    SendDelivers(s.line, batch);
    DeliveredKeeps(Sent(c.line, batch));
    DeliveredKeeps(Sent(c.line, batch).(reason := None));
  }

  lemma UnsentInv(s: Sub, room: bool)
    requires Inv(s) && s.reconciliation.Some? && s.reconciliation.value.phase == Sweeping && !(s.line.connected && room)
    ensures Inv(CommitReconciliation(s, true, room))
  {
    var c := s.(reconciliation := None, barriers := 0, line := Cleared(s.line));
    var m := if s.line.epoch == s.reconciliation.value.startEpoch
             then c.(line := c.line.(reason := Some(ConsumerBackpressure)))
             else MarkUncertain(c, ConsumerBackpressure);
    RaiseUncertain(c.line, c.selection, ConsumerBackpressure);
    assert Kept(m.line);
    QueueKeeps(m.line, m.selection, []);
    var t := CommitReconciliation(s, true, room);
    assert t.line == QueuePath(m.line, m.selection, []);
  }

  lemma LostAtCommit(s: Sub)
    requires Inv(s) && s.reconciliation.Some? && s.reconciliation.value.phase == Sweeping
    ensures Inv(MarkRootLost(s.(barriers := s.barriers - 1), PathIdentityMismatch))
  {
    RaiseKeeps(s.line, s.selection, RootReplaced);
  }

  // ----- root recovery -----------------------------------------------------

  lemma RecoverInv(s: Sub, candidate: Candidate, originalOnly: bool, room: bool)
    requires Inv(s)
    ensures Inv(Recover(s, candidate, originalOnly, room))
  {
    if !Busy(s) && s.root.lost && candidate.Captured? && (originalOnly ==> candidate.identity == s.root.identity) {
      RecoveryStartInv(s, candidate, originalOnly, room);
    }
  }

  lemma RecoveryStartInv(s: Sub, candidate: Candidate, originalOnly: bool, room: bool)
    requires Inv(s) && !Busy(s) && s.root.lost
    requires candidate.Captured? && (originalOnly ==> candidate.identity == s.root.identity)
    ensures Inv(Recover(s, candidate, originalOnly, room))
  {
    var f := Flush(s, room);
    var t := Recover(s, candidate, originalOnly, room);
    FlushShape(s, room);
    FlushedInv(s, room);
    assert Flush(s.(received := s.received + 1), room) == f.(received := s.received + 1);
    ForgetKeeps(f.line);
    assert t.line == Cleared(f.line);
  }

  lemma UnstableInv(s: Sub)
    requires Inv(s) && s.recovery.Some?
    ensures Inv(MakeUnstable(s))
  {
    var u := s.(recovery := Some(s.recovery.value.(unstable := true)));
    assert Inv(u);
    MarkedInv(u, TopologyRace);
  }

  lemma OpenInv(s: Sub, stable: bool, opening: Opening, room: bool)
    requires Inv(s) && Drained(s) && s.recovery.value.phase == RemovingOld
    ensures Inv(OpenCandidate(s, stable, opening, room))
  {
    CommitRecoveryInv(s, room);
    if opening.TurnedUnstable? {
      UnstableInv(s.(tree := opening.tree));
    }
  }

  lemma CommitRecoveryPhases(s: Sub, room: bool)
    requires Phases(s) && s.recovery.Some? && s.jobs == 0
    ensures Phases(CommitRecovery(s, room))
  {
  }

  lemma CommitRecoverySends(s: Sub)
    requires Inv(s) && s.recovery.Some? && s.line.connected
    ensures var t := CommitRecovery(s, true); Kept(t.line) && Generated(t.line.log, t.exclusion, t.maxBatchPaths)
  {
    var c := Cleared(s.line).(reason := ReasonAfterRecovery(s));
    var root := RootState(s.root.generation + 1, s.recovery.value.candidate, false, None);
    var batch := Batch(c.sequence, s.exclusion, root, {[]}, CoverageOf(s.tree, c.reason));
    SendKeeps(s.line, batch);
    SendDelivers(s.line, batch);
    DeliveredKeeps(Sent(c, batch));
    assert CommitRecovery(s, true).line == Sent(c, batch);
  }

  lemma CommitRecoveryInv(s: Sub, room: bool)
    requires Inv(s) && s.recovery.Some? && s.jobs == 0
    ensures Inv(CommitRecovery(s, room))
  {
    CommitRecoveryPhases(s, room);
    if s.line.connected && room {
      CommitRecoverySends(s);
    } else {
      var c := Cleared(s.line).(reason := ReasonAfterRecovery(s));
      RaiseUncertain(c, s.selection, ConsumerBackpressure);
      assert CommitRecovery(s, room).line == Raise(c, s.selection, ConsumerBackpressure);
    }
  }

  // ----- every step --------------------------------------------------------

  lemma CommandInv(s: Sub, step: Step)
    requires Inv(s) && Enabled(s, step) && Commands(step)
    ensures Inv(Next(s, step))
  {
    match step {
      case ReplaceCommand(_, _, _, _) =>
      case ReconcileCommand =>
      case RecoverCommand(candidate, originalOnly, room) => RecoverInv(s, candidate, originalOnly, room);
    }
  }

  lemma UpdateInv(s: Sub, step: Step)
    requires Inv(s) && Enabled(s, step) && Updates(step)
    ensures Inv(Next(s, step))
  {
    match step {
      case UpdateStart(stable, room) => StartUpdateInv(s, stable, room);
      case RemoveExcluded(_) =>
      case UpdateScan =>
      case UpdateCommit(stable) => CommitUpdateInv(s, stable);
    }
  }

  lemma ReconciliationInv(s: Sub, step: Step)
    requires Inv(s) && Enabled(s, step) && Reconciles(step)
    ensures Inv(Next(s, step))
  {
    match step {
      case ReconciliationStart(stable, room) => StartReconciliationInv(s, stable, room);
      case SweepStart =>
      case Sweep(_) =>
      case ReconciliationCommit(stable, room) => CommitReconciliationInv(s, stable, room);
    }
  }

  lemma RecoveryInv(s: Sub, step: Step)
    requires Inv(s) && Enabled(s, step) && Recovers(step)
    ensures Inv(Next(s, step))
  {
    if step.RecoveryOpen? {
      OpenInv(s, step.stable, step.opening, step.room);
    } else if step.LoseCandidate? {
      UnstableInv(s);
    } else if step.RecoveryValidate? {
      ValidateInv(s, step.stable, step.room);
    }
  }

  lemma ValidateInv(s: Sub, stable: bool, room: bool)
    requires Inv(s) && WalkDone(s)
    ensures Inv(ValidateCandidate(s, stable, room))
  {
    CommitRecoveryInv(s, room);
  }

  lemma FlushIfDueInv(s: Sub, elapsed: bool, room: bool)
    requires Inv(s) && s.barriers == 0
    ensures Inv(if elapsed then Flush(s, room) else FlushIfFull(s, room))
  {
    FlushedInv(s, room);
    FlushedIfFullInv(s, room);
  }

  lemma DisconnectInv(s: Sub)
    requires Inv(s)
    ensures Inv(s.(line := s.line.(connected := false)))
  {
  }

  lemma WatchInv(s: Sub, step: Step)
    requires Inv(s) && Enabled(s, step)
    requires step.Disconnect? || step.Notify? || step.LoseWatch? || step.Doubt? || step.RootMismatch?
             || step.BoundaryChanged? || step.FlushIfDue?
    ensures Inv(Next(s, step))
  {
    match step {
      case Disconnect => DisconnectInv(s);
      case Notify(notice, room) => NotifyInv(s, notice, room);
      case LoseWatch(path, expected) => WatchGoneInv(s, path, expected);
      case Doubt(reason) => MarkedInv(s, reason);
      case RootMismatch => LostInv(s, PathIdentityMismatch);
      case BoundaryChanged(path) => QueuedInv(s, if s.root.lost then [] else path);
      case FlushIfDue(elapsed, room) => FlushIfDueInv(s, elapsed, room);
    }
  }

  lemma NextInv(s: Sub, step: Step)
    requires Inv(s) && Enabled(s, step)
    ensures Inv(Next(s, step))
  {
    if Walks(step) {
      JobInv(s, step);
    } else if Commands(step) {
      CommandInv(s, step);
    } else if Updates(step) {
      UpdateInv(s, step);
    } else if Reconciles(step) {
      ReconciliationInv(s, step);
    } else if Recovers(step) {
      RecoveryInv(s, step);
    } else {
      WatchInv(s, step);
    }
  }
}
