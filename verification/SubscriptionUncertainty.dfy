// Uncertain coverage ends only with the root batch of a transaction during which no
// further uncertainty was raised.

module SubscriptionUncertainty {
  import opened Paths
  import opened Exclusions
  import opened Subscriptions
  import opened SubscriptionLines
  import opened SubscriptionPhases
  import opened SubscriptionTheorems

  /** Uncertainty stays, and its reason only changes when the epoch counts it. */
  predicate Onward(l: Line, m: Line)
  {
    && l.epoch <= m.epoch
    && (l.reason.Some? ==> m.reason.Some?)
    && (l.epoch == m.epoch ==> l.reason == m.reason)
  }

  /** The pending paths belong to the selected generation. */
  predicate Current(s: Sub)
  {
    s.line.generation.Some? ==> s.line.generation.value == s.selection
  }

  lemma FlushOnward(s: Sub, room: bool)
    requires Current(s)
    ensures Onward(s.line, Flush(s, room).line) && Current(Flush(s, room))
  {
  }

  lemma LostOnward(s: Sub, evidence: Evidence)
    ensures Onward(s.line, MarkRootLost(s, evidence).line) && Current(MarkRootLost(s, evidence))
  {
    LostShape(s, evidence);
  }

  lemma AppliedOnward(s: Sub, n: Notice, room: bool)
    requires Current(s)
    ensures Onward(s.line, Applied(s, n, room).line)
  {
    var d := if n.isDirectory && n.left then s.(tree := WithoutSubtree(s.tree, NoticePath(n))) else s;
    FlushOnward(d, room);
    FlushOnward(Arrival(d), room);
  }

  lemma NoticedOnward(s: Sub, n: Notice, room: bool)
    requires Current(s)
    ensures Onward(s.line, Noticed(s, n, room).line)
  {
    var q := QueueNotice(s, NoticePath(n));
    assert Onward(s.line, q.line) && Current(q);
    AppliedOnward(q, n, room);
  }

  lemma NotifiedOnward(s: Sub, n: Notice, room: bool)
    requires Current(s)
    ensures Onward(s.line, Notified(s, n, room).line)
  {
    var path := NoticePath(n);
    if EventExcludes(s.policy, path, n.isDirectory) {
      FlushOnward(Queue(s, if s.root.lost then [] else path), room);
    } else if n.unmount {
    } else if n.selfGone && n.directory == [] {
      LostOnward(s, RootSelfEvent);
      NoticedOnward(MarkRootLost(s, RootSelfEvent), n, room);
    } else {
      NoticedOnward(s, n, room);
    }
  }

  lemma {:induction false} QueueAllOnward(s: Sub, paths: seq<Path>)
    requires Current(s)
    ensures Onward(s.line, QueueAll(s, paths).line)
    decreases |paths|
  {
    if paths != [] {
      QueueAllOnward(Queue(s, paths[0]), paths[1..]);
    }
  }

  predicate Commits(step: Step)
  {
    step.ReconciliationCommit? || step.RecoveryOpen? || step.RecoveryValidate?
  }

  lemma StartsOnward(s: Sub, stable: bool, room: bool)
    requires Current(s)
    ensures s.update.Some? ==> Onward(s.line, StartUpdate(s, stable, room).line)
    ensures s.reconciliation.Some? ==> Onward(s.line, StartReconciliation(s, stable, room).line)
  {
    FlushOnward(s, room);
    LostOnward(s, PathIdentityMismatch);
    LostOnward(Flush(s, room).(line := Cleared(Flush(s, room).line)), PathIdentityMismatch);
  }

  lemma RecoverOnward(s: Sub, candidate: Candidate, originalOnly: bool, room: bool)
    requires Current(s)
    ensures Onward(s.line, Recover(s, candidate, originalOnly, room).line)
  {
    var r := s.(received := s.received + 1);
    var t := Recover(s, candidate, originalOnly, room);
    FlushOnward(r, room);
    assert t.line == Cleared(Flush(r, room).line) || t.line == s.line;
  }

  lemma CommitUpdateOnward(s: Sub, stable: bool)
    requires Updating(s) && Selected(s)
    ensures Onward(s.line, CommitUpdate(s, stable).line)
  {
    LostOnward(s, PathIdentityMismatch);
    var c := s.(update := None, barriers := if s.barriers == 0 then 0 else s.barriers - 1,
                exclusion := s.update.value.generation, committed := s.policy);
    QueueAllOnward(c, s.update.value.included + s.update.value.invalidations);
  }

  lemma WatchGoneOnward(s: Sub, path: Path, expected: bool)
    requires Current(s)
    ensures Onward(s.line, WatchGone(s, path, expected).line)
  {
    LostOnward(s.(tree := s.tree.(watched := s.tree.watched - {path})), RootWatchLoss);
  }

  lemma SilentOnward(s: Sub, step: Step)
    requires Inv(s) && Enabled(s, step) && Silent(step)
    ensures Onward(s.line, Next(s, step).line)
  {
    assert Current(s) && Selected(s);
    match step {
      case LoseWatch(path, expected) => WatchGoneOnward(s, path, expected);
      case RootMismatch => LostOnward(s, PathIdentityMismatch);
      case UpdateCommit(stable) => CommitUpdateOnward(s, stable);
      case _ =>
    }
  }

  lemma StepOnward(s: Sub, step: Step)
    requires Inv(s) && Enabled(s, step) && !Commits(step)
    ensures Onward(s.line, Next(s, step).line)
  {
    if Silent(step) {
      SilentOnward(s, step);
    } else {
      match step {
        case Notify(n, room) => NotifiedOnward(s, n, room);
        case FlushIfDue(_, room) => FlushOnward(s, room);
        case UpdateStart(stable, room) => StartsOnward(s, stable, room);
        case ReconciliationStart(stable, room) => StartsOnward(s, stable, room);
        case RecoverCommand(candidate, originalOnly, room) => RecoverOnward(s, candidate, originalOnly, room);
      }
    }
  }

  // ----- commits -----------------------------------------------------------

  /** A batch of the root alone went out, carrying the coverage and the root as they are afterwards. */
  ghost predicate RootBatchSent(s: Sub, t: Sub)
  {
    t.line.log == s.line.log + [Batch(|s.line.log| + 1, t.exclusion, t.root, {[]}, CoverageNow(t))]
  }

  /** A commit ends uncertainty exactly when its root batch went out and nothing was raised since its transaction began. */
  lemma ReconciliationClears(s: Sub, stable: bool, room: bool)
    requires Inv(s) && s.reconciliation.Some? && s.reconciliation.value.phase == Sweeping && s.line.reason.Some?
    ensures var t := CommitReconciliation(s, stable, room);
      && s.line.epoch <= t.line.epoch
      && (t.line.reason.None? <==> stable && room && s.line.connected && Clears(s))
      && (t.line.reason.None? ==> RootBatchSent(s, t) && s.line.epoch == s.reconciliation.value.startEpoch)
  {
    LostOnward(s.(barriers := s.barriers - 1), PathIdentityMismatch);
  }

  lemma RecoveryClears(s: Sub, room: bool)
    requires Inv(s) && s.recovery.Some?
    ensures var t := CommitRecovery(s, room);
      && s.line.epoch <= t.line.epoch
      && (t.line.reason.None? <==>
          room && s.line.connected && s.recovery.value.startReason == Some(RootReplaced)
          && s.line.epoch == s.recovery.value.startEpoch && s.recovery.value.later.None?)
      && (t.line.reason.None? ==> RootBatchSent(s, t))
  {
  }

  lemma CleaningOnward(s: Sub, stable: bool, opening: Opening, room: bool)
    requires s.recovery.Some? && Current(s)
    ensures s.recovery.value.unstable || !stable || !TopologyExcludes(s.policy, []) ==>
              Onward(s.line, OpenCandidate(s, stable, opening, room).line)
    ensures s.recovery.value.unstable || !stable ==> Onward(s.line, ValidateCandidate(s, stable, room).line)
  {
  }

  /** What a step that ends uncertainty must be. */
  ghost predicate Clearing(s: Sub, step: Step, t: Sub)
  {
    && RootBatchSent(s, t) && StartEpoch(s) == Some(s.line.epoch)
    && ((step.ReconciliationCommit? && s.line.reason.Some? && Recoverable(s.line.reason.value))
        || (s.recovery.Some? && !s.recovery.value.unstable && s.recovery.value.startReason == Some(RootReplaced)))
  }

  lemma UncertaintyEndsByCommit(s: Sub, step: Step)
    requires Inv(s) && Enabled(s, step) && s.line.reason.Some? && Next(s, step).line.reason.None?
    ensures Clearing(s, step, Next(s, step))
  {
    if !Commits(step) {
      StepOnward(s, step);
      assert false;
    } else if step.ReconciliationCommit? {
      ReconciliationClears(s, step.stable, step.room);
    } else {
      UncertaintyEndsByRecovery(s, step);
    }
  }

  lemma UncertaintyEndsByRecovery(s: Sub, step: Step)
    requires Inv(s) && Enabled(s, step) && (step.RecoveryOpen? || step.RecoveryValidate?)
    requires s.line.reason.Some? && Next(s, step).line.reason.None?
    ensures Clearing(s, step, Next(s, step))
  {
    CleaningOnward(s, step.stable, if step.RecoveryOpen? then step.opening else Opened, step.room);
    RecoveryClears(s, step.room);
  }

  // ----- over whole runs ---------------------------------------------------

  /** The epoch at which the transaction under way began to read the tree. */
  function StartEpoch(s: Sub): Option<nat>
  {
    if Reconciling(s) then Some(s.reconciliation.value.startEpoch)
    else if s.recovery.Some? then Some(s.recovery.value.startEpoch)
    else None
  }

  predicate SameStart(s: Sub, t: Sub)
  {
    StartEpoch(t) == StartEpoch(s) || StartEpoch(t).None?
  }

  lemma NotifiedSameStart(s: Sub, n: Notice, room: bool)
    requires Exclusive(s)
    ensures SameStart(s, Notified(s, n, room))
  {
    var path := NoticePath(n);
    if EventExcludes(s.policy, path, n.isDirectory) {
    } else if n.unmount {
    } else if n.selfGone && n.directory == [] {
      NoticedSameStart(MarkRootLost(s, RootSelfEvent), n, room);
    } else {
      NoticedSameStart(s, n, room);
    }
  }

  lemma NoticedSameStart(s: Sub, n: Notice, room: bool)
    ensures SameStart(s, Noticed(s, n, room))
  {
    var q := QueueNotice(s, NoticePath(n));
    assert StartEpoch(q) == StartEpoch(s);
    var d := if n.isDirectory && n.left then q.(tree := WithoutSubtree(q.tree, NoticePath(n))) else q;
    assert StartEpoch(Arrival(d)) == StartEpoch(d);
  }

  lemma SilentSameStart(s: Sub, step: Step)
    requires Inv(s) && Enabled(s, step) && Silent(step)
    ensures SameStart(s, Next(s, step))
  {
  }

  lemma RecoverStarts(s: Sub, candidate: Candidate, originalOnly: bool, room: bool)
    ensures var t := Recover(s, candidate, originalOnly, room);
      SameStart(s, t) || (StartEpoch(s).None? && StartEpoch(t) == Some(t.line.epoch))
  {
    var f := Flush(s.(received := s.received + 1), room);
  }

  lemma FlushSameStart(s: Sub, room: bool)
    ensures SameStart(s, Flush(s, room)) && Flush(s, room).recovery.None? == s.recovery.None?
    ensures Flush(s, room).update == s.update && Flush(s, room).reconciliation == s.reconciliation
  {
  }

  lemma WaitingStarts(s: Sub, stable: bool, room: bool)
    requires Exclusive(s)
    ensures s.update.Some? ==> SameStart(s, StartUpdate(s, stable, room))
    ensures s.reconciliation.Some? && !Reconciling(s) ==>
      (var t := StartReconciliation(s, stable, room);
       SameStart(s, t) || (StartEpoch(s).None? && StartEpoch(t) == Some(t.line.epoch)))
  {
    FlushSameStart(s, room);
  }

  lemma CommandStarts(s: Sub, step: Step)
    requires Inv(s) && Enabled(s, step)
    requires step.FlushIfDue? || step.UpdateStart? || step.ReconciliationStart? || step.RecoverCommand?
    ensures var t := Next(s, step);
      SameStart(s, t) || (StartEpoch(s).None? && StartEpoch(t) == Some(t.line.epoch))
  {
    assert Exclusive(s);
    match step {
      case FlushIfDue(_, room) => FlushSameStart(s, room);
      case UpdateStart(stable, room) => WaitingStarts(s, stable, room);
      case ReconciliationStart(stable, room) => WaitingStarts(s, stable, room);
      case RecoverCommand(candidate, originalOnly, room) => RecoverStarts(s, candidate, originalOnly, room);
    }
  }

  /** The start of a transaction is fixed when it begins to read the tree. */
  lemma StartIsFixed(s: Sub, step: Step)
    requires Inv(s) && Enabled(s, step)
    ensures var t := Next(s, step);
      SameStart(s, t) || (StartEpoch(s).None? && StartEpoch(t) == Some(t.line.epoch))
  {
    if Silent(step) {
      SilentSameStart(s, step);
    } else if step.Notify? {
      NotifiedSameStart(s, step.notice, step.room);
    } else if !Commits(step) {
      CommandStarts(s, step);
    }
  }

  lemma EpochGrows(s: Sub, step: Step)
    requires Inv(s) && Enabled(s, step)
    ensures s.line.epoch <= Next(s, step).line.epoch
    ensures StartEpoch(Next(s, step)).Some? ==> Onward(s.line, Next(s, step).line)
  {
    if !Commits(step) {
      StepOnward(s, step);
    } else if step.ReconciliationCommit? {
      CommitEpochGrows(s, step.stable, step.room);
    } else if step.RecoveryOpen? {
      CleaningOnward(s, step.stable, step.opening, step.room);
    } else {
      CleaningOnward(s, step.stable, Opened, step.room);
    }
  }

  lemma CommitEpochGrows(s: Sub, stable: bool, room: bool)
    requires Inv(s) && s.reconciliation.Some? && s.reconciliation.value.phase == Sweeping
    ensures s.line.epoch <= CommitReconciliation(s, stable, room).line.epoch
    ensures StartEpoch(CommitReconciliation(s, stable, room)).None?
  {
    LostOnward(s.(barriers := s.barriers - 1), PathIdentityMismatch);
  }

  /** From state `i` on, one transaction has been under way and nothing has been raised. */
  ghost predicate UndisturbedSince(states: seq<Sub>, i: nat, n: nat)
    requires i <= n < |states|
  {
    && (i > 0 ==> StartEpoch(states[i - 1]).None?)
    && forall k :: i <= k <= n ==>
         && StartEpoch(states[k]) == StartEpoch(states[n])
         && states[k].line.epoch == states[n].line.epoch && states[k].line.reason == states[n].line.reason
  }

  lemma {:induction false} StartFound(states: seq<Sub>, steps: seq<Step>, n: nat) returns (i: nat)
    requires Run(states, steps) && n < |states| && StartEpoch(states[n]) == Some(states[n].line.epoch)
    ensures i <= n && UndisturbedSince(states, i, n)
    decreases n
  {
    i := n;
    if n > 0 && StartEpoch(states[n - 1]).Some? {
      var s := states[n - 1];
      SubscriptionHolds(states, steps, n - 1);
      StartIsFixed(s, steps[n - 1]);
      EpochGrows(s, steps[n - 1]);
      assert Epochs(s);
      i := StartFound(states, steps, n - 1);
    }
  }

  /**
   * Whenever uncertainty ends, a batch of the root alone carried the new coverage, and nothing was raised since the
   * transaction that sent it began to scan, or captured its candidate.
   */
  lemma UncertaintyEndsUndisturbed(states: seq<Sub>, steps: seq<Step>, n: nat)
    requires Run(states, steps) && n < |steps|
    requires CoverageNow(states[n]).Uncertain? && !CoverageNow(states[n + 1]).Uncertain?
    ensures Clearing(states[n], steps[n], states[n + 1])
    ensures exists i :: 0 < i <= n && UndisturbedSince(states, i, n)
  {
    SubscriptionHolds(states, steps, n);
    UncertaintyEndsByCommit(states[n], steps[n]);
    var i := StartFound(states, steps, n);
    assert i > 0;
  }
}
