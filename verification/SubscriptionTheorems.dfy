// What holds of a subscription over whole runs: certain coverage leaves nothing behind,
// uncertainty ends only with an undisturbed transaction, generations change atomically.

module SubscriptionTheorems {
  import opened Paths
  import opened Exclusions
  import opened Subscriptions
  import opened SubscriptionLines
  import opened SubscriptionPhases

  // ----- runs --------------------------------------------------------------

  /** A subscription just created: one job is to walk the root, and nothing has been queued or sent. */
  ghost predicate Start(s: Sub)
  {
    && !s.root.lost && s.root.evidence.None? && s.tree == NoTree && s.policy == s.committed
    && s.line == Line({}, None, None, 0, 1, true, [], [])
    && s.exclusion == 0 && s.selection == 0 && !Busy(s)
    && s.jobs == 1 && s.barriers == 1 && s.maxBatchPaths >= 1
    && s.received == 0 && s.answers == []
  }

  ghost predicate Run(states: seq<Sub>, steps: seq<Step>)
  {
    && |states| == |steps| + 1
    && Start(states[0])
    && forall k :: 0 <= k < |steps| ==> Enabled(states[k], steps[k]) && states[k + 1] == Next(states[k], steps[k])
  }

  lemma {:induction false} SubscriptionHolds(states: seq<Sub>, steps: seq<Step>, k: nat)
    requires Run(states, steps) && k < |states|
    ensures Inv(states[k])
    decreases k
  {
    if k > 0 {
      SubscriptionHolds(states, steps, k - 1);
      NextInv(states[k - 1], steps[k - 1]);
    }
  }

  /** A batch that does not call coverage uncertain comes after everything queued before it was delivered. */
  lemma CertainBatchSettlesEverything(states: seq<Sub>, steps: seq<Step>, n: nat, k: nat, i: nat)
    requires Run(states, steps) && n < |states|
    requires k < |states[n].line.log| && i < |states[n].line.queued|
    requires !states[n].line.log[k].coverage.Uncertain? && states[n].line.queued[i].at <= k
    ensures var l := states[n].line;
      exists j :: l.queued[i].at <= j <= k && Covers(l.log[j].paths, l.queued[i].path)
  {
    SubscriptionHolds(states, steps, n);
    var l := states[n].line;
    assert DeliveredBy(l, k);
    assert Delivered(l.log[..k + 1], l.queued[i]);
    var j :| l.queued[i].at <= j < |l.log[..k + 1]| && Covers(l.log[..k + 1][j].paths, l.queued[i].path);
    assert l.log[j] == l.log[..k + 1][j];
  }

  /** Nothing queued is lost while the consumer listens: it was delivered, is still owed, or coverage is uncertain. */
  lemma LostDetailIsUncertain(states: seq<Sub>, steps: seq<Step>, n: nat, i: nat)
    requires Run(states, steps) && n < |states| && i < |states[n].line.queued| && states[n].line.connected
    ensures var s := states[n];
      || CoverageNow(s).Uncertain?
      || Delivered(s.line.log, s.line.queued[i])
      || Covers(s.line.pending, s.line.queued[i].path)
  {
    SubscriptionHolds(states, steps, n);
  }

  /** Every accepted or refused command is answered once, and only one transaction can be waiting for its answer. */
  lemma CommandsAnsweredOnce(states: seq<Sub>, steps: seq<Step>, n: nat)
    requires Run(states, steps) && n < |states|
    ensures var s := states[n];
      && s.received == |s.answers| + (if Busy(s) then 1 else 0)
      && (s.root.lost ==> s.update.None? && s.reconciliation.None? && CoverageNow(s).Uncertain?)
      && (s.update.None? ==> s.policy == s.committed && s.selection == s.exclusion)
  {
    SubscriptionHolds(states, steps, n);
  }

  // ----- barriers ----------------------------------------------------------

  lemma QueueNoticeSends(s: Sub, path: Path)
    ensures QueueNotice(s, path).line.log == s.line.log && QueueNotice(s, path).barriers == s.barriers
  {
  }

  lemma AppliedHeld(s: Sub, n: Notice, room: bool)
    requires s.barriers > 0
    ensures Applied(s, n, room).line.log == s.line.log
  {
  }

  lemma NoticedHeld(s: Sub, n: Notice, room: bool)
    requires s.barriers > 0 || (s.root.lost && s.recovery.None?)
    ensures Noticed(s, n, room).line.log == s.line.log
  {
    QueueNoticeSends(s, NoticePath(n));
    var q := QueueNotice(s, NoticePath(n));
    if !q.root.lost || q.recovery.Some? {
      AppliedHeld(q, n, room);
    }
  }

  lemma LostHeld(s: Sub, evidence: Evidence)
    requires s.barriers > 0
    ensures var a := MarkRootLost(s, evidence);
      a.line.log == s.line.log && (a.barriers > 0 || (a.root.lost && a.recovery.None?))
  {
  }

  lemma HeldNotices(s: Sub, n: Notice, room: bool)
    requires s.barriers > 0
    ensures Notified(s, n, room).line.log == s.line.log
  {
    var path := NoticePath(n);
    if EventExcludes(s.policy, path, n.isDirectory) {
    } else if n.unmount {
    } else if n.selfGone && n.directory == [] {
      LostHeld(s, RootSelfEvent);
      NoticedHeld(MarkRootLost(s, RootSelfEvent), n, room);
    } else {
      NoticedHeld(s, n, room);
    }
  }

  /** Steps that never send a batch, whatever the state. */
  predicate Silent(step: Step)
  {
    match step
    case Notify(_, _) | FlushIfDue(_, _) | UpdateStart(_, _) | ReconciliationStart(_, _) | ReconciliationCommit(_, _)
      | RecoverCommand(_, _, _) | RecoveryOpen(_, _, _) | RecoveryValidate(_, _) => false
    case _ => true
  }

  lemma SilentSteps(s: Sub, step: Step)
    requires Enabled(s, step) && Silent(step)
    ensures Next(s, step).line.log == s.line.log
  {
    match step {
      case LoseWatch(path, expected) =>
        LostShape(s.(tree := s.tree.(watched := s.tree.watched - {path})), RootWatchLoss);
      case RootMismatch => LostShape(s, PathIdentityMismatch);
      case UpdateCommit(stable) =>
        LostShape(s, PathIdentityMismatch);
        var c := s.(update := None, barriers := 0, exclusion := s.update.value.generation, committed := s.policy);
        QueueAllLog(c, s.update.value.included + s.update.value.invalidations);
      case _ =>
    }
  }

  /** While a transaction of an attached root is under way, only the commit of a reconciliation sends a batch. */
  lemma NoBatchInsideATransaction(s: Sub, step: Step)
    requires Inv(s) && Enabled(s, step) && Held(s) > 0
    ensures Next(s, step).line.log == s.line.log || step.ReconciliationCommit?
    ensures step.ReconciliationCommit? || step.UpdateCommit? ==> s.jobs == 0
  {
    assert Exclusive(s) && Barriers(s);
    if Silent(step) {
      SilentSteps(s, step);
    } else if step.Notify? {
      HeldNotices(s, step.notice, step.room);
    }
  }

  // ----- generations -------------------------------------------------------

  /** At most one batch goes out, and it names the generation committed before and after. */
  predicate SendsUnder(s: Sub, t: Sub)
  {
    var n := |s.line.log|;
    || t.line.log == s.line.log
    || (&& |t.line.log| == n + 1 && t.line.log == s.line.log + [t.line.log[n]]
        && t.line.log[n].generation == s.exclusion == t.exclusion)
  }

  lemma FlushSends(s: Sub, room: bool)
    requires Inv(s) && s.selection == s.exclusion
    ensures SendsUnder(s, Flush(s, room)) && Flush(s, room).exclusion == s.exclusion
  {
    FlushShape(s, room);
  }

  lemma FlushIfFullSends(s: Sub, room: bool)
    requires Inv(s)
    ensures SendsUnder(s, FlushIfFull(s, room)) && FlushIfFull(s, room).exclusion == s.exclusion
  {
    if s.barriers == 0 {
      FlushSends(s, room);
    }
  }

  lemma NoticedSends(s: Sub, n: Notice, room: bool)
    requires Inv(s)
    ensures SendsUnder(s, Noticed(s, n, room)) && Noticed(s, n, room).exclusion == s.exclusion
  {
    QueueNoticeInv(s, NoticePath(n));
    QueueNoticeSends(s, NoticePath(n));
    var q := QueueNotice(s, NoticePath(n));
    assert q.exclusion == s.exclusion;
    if !q.root.lost || q.recovery.Some? {
      DepartureInv(q, NoticePath(n));
      var d := if n.isDirectory && n.left then q.(tree := WithoutSubtree(q.tree, NoticePath(n))) else q;
      if n.isDirectory && n.arrived {
        ArrivalInv(d);
        FlushIfFullSends(Arrival(d), room);
      } else {
        FlushIfFullSends(d, room);
      }
    }
  }

  lemma NotifySends(s: Sub, n: Notice, room: bool)
    requires Inv(s)
    ensures SendsUnder(s, Notified(s, n, room))
  {
    var path := NoticePath(n);
    if EventExcludes(s.policy, path, n.isDirectory) {
      var p := if s.root.lost then [] else path;
      QueuedInv(s, p);
      FlushIfFullSends(Queue(s, p), room);
    } else if n.unmount {
    } else if n.selfGone && n.directory == [] {
      LostInv(s, RootSelfEvent);
      LostShape(s, RootSelfEvent);
      NoticedSends(MarkRootLost(s, RootSelfEvent), n, room);
    } else {
      NoticedSends(s, n, room);
    }
  }

  lemma StartUpdateSends(s: Sub, stable: bool, room: bool)
    requires Inv(s) && UpdateReady(s)
    ensures SendsUnder(s, StartUpdate(s, stable, room))
  {
    FlushSends(s, room);
    LostShape(s, PathIdentityMismatch);
  }

  lemma StartReconciliationSends(s: Sub, stable: bool, room: bool)
    requires Inv(s) && ReconciliationReady(s)
    ensures SendsUnder(s, StartReconciliation(s, stable, room))
  {
    FlushSends(s, room);
    var f := Flush(s, room);
    LostShape(f.(line := Cleared(f.line)), PathIdentityMismatch);
  }

  lemma CommitReconciliationSends(s: Sub, stable: bool, room: bool)
    requires Inv(s) && s.reconciliation.Some? && s.reconciliation.value.phase == Sweeping
    ensures SendsUnder(s, CommitReconciliation(s, stable, room))
  {
    LostShape(s.(barriers := s.barriers - 1), PathIdentityMismatch);
  }

  lemma RecoverSends(s: Sub, candidate: Candidate, originalOnly: bool, room: bool)
    requires Inv(s)
    ensures SendsUnder(s, Recover(s, candidate, originalOnly, room))
  {
    if !Busy(s) {
      FlushSends(s, room);
      assert Flush(s.(received := s.received + 1), room) == Flush(s, room).(received := s.received + 1);
    }
  }

  lemma RecoverySends(s: Sub, step: Step)
    requires Inv(s) && Enabled(s, step) && (step.RecoveryOpen? || step.RecoveryValidate?)
    ensures SendsUnder(s, Next(s, step))
  {
  }

  lemma StepSends(s: Sub, step: Step)
    requires Inv(s) && Enabled(s, step)
    ensures SendsUnder(s, Next(s, step))
  {
    if Silent(step) {
      SilentSteps(s, step);
    } else if step.Notify? {
      NotifySends(s, step.notice, step.room);
    } else if step.FlushIfDue? {
      FlushSends(s, step.room);
      FlushIfFullSends(s, step.room);
    } else {
      TransactionSends(s, step);
    }
  }

  lemma TransactionSends(s: Sub, step: Step)
    requires Inv(s) && Enabled(s, step) && !Silent(step) && !step.Notify? && !step.FlushIfDue?
    ensures SendsUnder(s, Next(s, step))
  {
    if step.UpdateStart? {
      StartUpdateSends(s, step.stable, step.room);
    } else if step.ReconciliationStart? {
      StartReconciliationSends(s, step.stable, step.room);
    } else if step.ReconciliationCommit? {
      CommitReconciliationSends(s, step.stable, step.room);
    } else if step.RecoverCommand? {
      RecoverSends(s, step.candidate, step.originalOnly, step.room);
    } else {
      RecoverySends(s, step);
    }
  }

  /** The step that sent batch `k`. */
  lemma {:induction false} SentAt(states: seq<Sub>, steps: seq<Step>, n: nat, k: nat) returns (m: nat)
    requires Run(states, steps) && n < |states| && k < |states[n].line.log|
    ensures m < n && |states[m].line.log| == k < |states[m + 1].line.log|
    ensures states[m + 1].line.log[k] == states[n].line.log[k]
    ensures states[n].line.log[k].generation == states[m].exclusion == states[m + 1].exclusion
    decreases n
  {
    SubscriptionHolds(states, steps, n - 1);
    m := n - 1;
    assert states[m + 1] == Next(states[m], steps[m]);
    StepSends(states[m], steps[m]);
    SentBetween(states[m], states[m + 1], k);
    if k < |states[m].line.log| {
      m := SentAt(states, steps, n - 1, k);
    }
  }

  lemma SentBetween(s: Sub, t: Sub, k: nat)
    requires SendsUnder(s, t) && k < |t.line.log|
    ensures if k < |s.line.log| then t.line.log[k] == s.line.log[k]
            else |s.line.log| == k && t.line.log[k].generation == s.exclusion == t.exclusion
  {
  }

  /**
   * Batches are numbered from 1 in the order of their committed generations. Each is sent in a step `m` before and after
   * which its generation is the committed one, and each path in it was queued under that generation.
   */
  lemma GenerationsAreAtomic(states: seq<Sub>, steps: seq<Step>, n: nat, k: nat, p: Path) returns (m: nat)
    requires Run(states, steps) && n < |states| && k < |states[n].line.log|
    ensures var s, b := states[n], states[n].line.log[k];
      && b.sequence == k + 1 && |b.paths| <= s.maxBatchPaths
      && (k > 0 ==> s.line.log[k - 1].generation <= b.generation)
      && (p in b.paths && p != [] ==> QueuedUnder(s.line.queued, p, b.generation, k))
      && m < n && |states[m].line.log| == k < |states[m + 1].line.log| && states[m + 1].line.log[k] == b
      && b.generation == states[m].exclusion == states[m + 1].exclusion
  {
    SubscriptionHolds(states, steps, n);
    var s := states[n];
    assert Sourced(s.line.queued, s.line.log[k].paths, s.line.log[k].generation, k);
    m := SentAt(states, steps, n, k);
  }
}
