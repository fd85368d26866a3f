// The subscription as the object whose fields the worker updates in place.

module SubscriptionStates {
  import opened Paths
  import opened Exclusions
  import opened Subscriptions
  import opened SubscriptionTheorems

  lemma {:induction false} QueueAllSplits(s: Sub, a: seq<Path>, b: seq<Path>)
    ensures QueueAll(s, a + b) == QueueAll(QueueAll(s, a), b)
    decreases |a|
  {
    if a == [] {
      assert a + b == b;
    } else {
      assert (a + b)[1..] == a[1..] + b;
      QueueAllSplits(Queue(s, a[0]), a[1..], b);
    }
  }

  class SubscriptionState {
    var root: RootState
    var tree: Tree
    // What is pending, what is uncertain, and what has gone to the consumer.
    var line: Line
    var exclusionPolicy: Policy
    var exclusionGeneration: nat
    var selectionGeneration: nat
    var exclusionUpdate: Option<Update>
    var reconciliation: Option<Reconciliation>
    var rootRecovery: Option<Recovery>
    var topologyJobs: nat
    var topologyBarriers: nat
    const maxBatchPaths: nat
    ghost var committed: Policy
    ghost var received: nat
    ghost var answers: seq<Answer>

    constructor (identity: Identity, maxPaths: nat, policy: Policy)
      requires maxPaths >= 1
      ensures Start(View()) && root.identity == identity && exclusionPolicy == policy && maxBatchPaths == maxPaths
    {
      root, tree, line := RootState(0, identity, false, None), NoTree, Line({}, None, None, 0, 1, true, [], []);
      exclusionPolicy, exclusionGeneration, selectionGeneration := policy, 0, 0;
      exclusionUpdate, reconciliation, rootRecovery := None, None, None;
      topologyJobs, topologyBarriers, maxBatchPaths := 1, 1, maxPaths;
      committed, received, answers := policy, 0, [];
    }

    ghost function View(): Sub
      reads this
    {
      Sub(root, tree, line, exclusionPolicy, exclusionGeneration, selectionGeneration, exclusionUpdate, reconciliation,
          rootRecovery, topologyJobs, topologyBarriers, maxBatchPaths, committed, received, answers)
    }

    function Coverage(): Coverage
      reads this
      ensures Coverage() == CoverageNow(View())
    {
      CoverageOf(tree, line.reason)
    }

    method QueuePath(path: Path)
      modifies this`line
      ensures View() == Queue(old(View()), path)
    {
      var pending, generation, reason := line.pending, line.generation, line.reason;
      if generation.Some? {
        if generation.value != selectionGeneration {
          pending := {[]};
          generation := Some(selectionGeneration);
          reason := Some(TopologyRace);
        }
      } else {
        generation := Some(selectionGeneration);
      }
      if path == [] {
        pending := {path};
      } else if [] !in pending {
        pending := pending + {path};
      }
      line := line.(pending := pending, generation := generation, reason := reason,
                    queued := line.queued + [Entry(path, selectionGeneration, |line.log|)]);
    }

    method MarkUncertain(reason: Reason)
      modifies this`line, this`rootRecovery
      ensures View() == Subscriptions.MarkUncertain(old(View()), reason)
    {
      line := line.(epoch := line.epoch + 1);
      if rootRecovery.Some? {
        var recovery := rootRecovery.value;
        rootRecovery := Some(recovery.(later := Some(Strongest(recovery.later, reason))));
      }
      line := line.(reason := Some(Strongest(line.reason, reason)));
      QueuePath([]);
    }

    method AbortTransactions()
      modifies this`exclusionUpdate, this`exclusionPolicy, this`selectionGeneration, this`reconciliation, this`answers
      ensures View() == Aborted(old(View()))
    {
      if exclusionUpdate.Some? {
        exclusionPolicy := exclusionUpdate.value.previous;
        exclusionUpdate := None;
        selectionGeneration := exclusionGeneration;
        answers := answers + [RootLost];
      }
      if reconciliation.Some? {
        reconciliation := None;
        answers := answers + [RootLost];
      }
    }

    method MarkRootLost(evidence: Evidence)
      modifies this
      ensures View() == Subscriptions.MarkRootLost(old(View()), evidence)
    {
      ghost var was := View();
      root := root.(lost := true, evidence := Evident(root.evidence, evidence));
      if rootRecovery.Some? {
        rootRecovery := Some(rootRecovery.value.(unstable := true));
        assert View() == was.(root := root, recovery := rootRecovery);
      } else {
        topologyBarriers := 0;
        assert View() == was.(root := root, barriers := 0);
        AbortTransactions();
        assert View() == Aborted(was.(root := root, barriers := 0));
      }
      MarkUncertain(RootReplaced);
    }

    method Flush(room: bool)
      modifies this
      ensures View() == Subscriptions.Flush(old(View()), room)
    {
      if line.pending == {} {
        return;
      }
      if |line.pending| > maxBatchPaths {
        MarkUncertain(ConsumerBackpressure);
      }
      var batch := Batch(line.sequence, if line.generation.Some? then line.generation.value else selectionGeneration,
                         root, line.pending, Coverage());
      line := Cleared(line);
      if line.connected {
        if room {
          line := Sent(line, batch);
        } else {
          MarkUncertain(ConsumerBackpressure);
        }
      }
    }

    /** Flushes when there are enough paths or the batch window has elapsed, unless something holds batches back. */
    method FlushIfDue(elapsed: bool, room: bool)
      modifies this
      ensures View() == if elapsed && old(topologyBarriers) == 0 then Subscriptions.Flush(old(View()), room)
                        else FlushIfFull(old(View()), room)
    {
      if topologyBarriers == 0 && (|line.pending| >= maxBatchPaths || elapsed) {
        Flush(room);
      }
    }

    method HandleInterestEvent(n: Notice, room: bool)
      modifies this
      ensures View() == Notified(old(View()), n, room)
    {
      var path := NoticePath(n);
      if EventExcludes(exclusionPolicy, path, n.isDirectory) {
        if path in exclusionPolicy.observed {
          QueuePath(if root.lost then [] else path);
          FlushIfDue(false, room);
        }
        return;
      }
      if n.unmount {
        MarkUncertain(TopologyRace);
        return;
      }
      if n.selfGone && n.directory == [] {
        MarkRootLost(RootSelfEvent);
      }
      HandleVisibleEvent(n, room);
    }

    method HandleVisibleEvent(n: Notice, room: bool)
      modifies this
      ensures View() == Noticed(old(View()), n, room)
    {
      QueueEvent(NoticePath(n));
      if root.lost && rootRecovery.None? {
        return;
      }
      ApplyEvent(n);
      FlushIfDue(false, room);
    }

    /** Forgets what a departure took away, and has a job walk what arrived. */
    method ApplyEvent(n: Notice)
      modifies this`tree, this`reconciliation, this`topologyJobs, this`topologyBarriers
      ensures var s := old(View());
        var d := if n.isDirectory && n.left then s.(tree := WithoutSubtree(s.tree, NoticePath(n))) else s;
        View() == if n.isDirectory && n.arrived then Arrival(d) else d
    {
      if n.isDirectory {
        if n.left {
          tree := WithoutSubtree(tree, NoticePath(n));
        }
        if n.arrived {
          if reconciliation.Some? && reconciliation.value.phase != WaitingToReconcile {
            reconciliation := Some(reconciliation.value.(phase := Scanning));
          }
          topologyJobs := topologyJobs + 1;
          topologyBarriers := topologyBarriers + 1;
        }
      }
    }

    method QueueEvent(path: Path)
      modifies this
      ensures View() == QueueNotice(old(View()), path)
    {
      if (exclusionUpdate.Some? || reconciliation.Some? || rootRecovery.Some?) && topologyBarriers > 0
         && |line.pending| >= maxBatchPaths && path !in line.pending && [] !in line.pending {
        MarkUncertain(ConsumerBackpressure);
      } else if reconciliation.Some? || rootRecovery.Some? || root.lost {
        QueuePath([]);
      } else {
        QueuePath(path);
      }
    }

    method StartExclusionUpdate(stable: bool, room: bool)
      requires UpdateReady(View())
      modifies this
      ensures View() == StartUpdate(old(View()), stable, room)
    {
      if !stable {
        MarkRootLost(PathIdentityMismatch);
        return;
      }
      var update := exclusionUpdate.value;
      Flush(room);
      SelectUpdate(update);
    }

    /** Puts the new policy in force and drops what the last flush under the old one could not send. */
    method SelectUpdate(update: Update)
      modifies this
      ensures var f := old(View());
        var t := f.(line := if f.line.pending != {} then Cleared(f.line) else f.line,
                    update := Some(update.(phase := RemovingExcluded)),
                    policy := update.policy, selection := update.generation, barriers := 1);
        View() == if f.line.pending != {} then Subscriptions.MarkUncertain(t, ConsumerBackpressure) else t
    {
      var boundaryDropped := line.pending != {};
      if boundaryDropped {
        line := Cleared(line);
      }
      exclusionUpdate := Some(update.(phase := RemovingExcluded));
      exclusionPolicy, selectionGeneration, topologyBarriers := update.policy, update.generation, 1;
      if boundaryDropped {
        MarkUncertain(ConsumerBackpressure);
      }
    }

    method QueuePaths(paths: seq<Path>)
      modifies this`line
      ensures View() == QueueAll(old(View()), paths)
    {
      ghost var was := View();
      var i := 0;
      while i < |paths|
        invariant i <= |paths|
        invariant View() == QueueAll(was, paths[..i])
      {
        QueueAllSplits(was, paths[..i], [paths[i]]);
        assert paths[..i + 1] == paths[..i] + [paths[i]];
        QueuePath(paths[i]);
        i := i + 1;
      }
      assert paths[..i] == paths;
    }

    method CommitExclusionUpdate(stable: bool)
      requires UpdateDone(View())
      modifies this
      ensures View() == CommitUpdate(old(View()), stable)
    {
      if !stable {
        MarkRootLost(PathIdentityMismatch);
        return;
      }
      ghost var was := View();
      var update := exclusionUpdate.value;
      exclusionUpdate := None;
      topologyBarriers := topologyBarriers - 1;
      exclusionGeneration := update.generation;
      committed := exclusionPolicy;
      ghost var lowered := View();
      assert lowered == was.(update := None, barriers := was.barriers - 1, exclusion := update.generation,
                             committed := was.policy);
      QueuePaths(update.included + update.invalidations);
      answers := answers + [Replaced(update.generation, Coverage())];
    }

    method StartReconciliation(stable: bool, room: bool)
      requires ReconciliationReady(View())
      modifies this
      ensures View() == Subscriptions.StartReconciliation(old(View()), stable, room)
    {
      Flush(room);
      line := Cleared(line);
      if stable {
        reconciliation := Some(Reconciliation(Scanning, line.reason, line.epoch));
        topologyBarriers := 2;
        topologyJobs := topologyJobs + 1;
      } else {
        MarkRootLost(PathIdentityMismatch);
      }
    }

    method CommitReconciliation(stable: bool, room: bool)
      requires reconciliation.Some? && reconciliation.value.phase == Sweeping
      modifies this
      ensures View() == Subscriptions.CommitReconciliation(old(View()), stable, room)
    {
      ghost var was := View();
      if topologyBarriers > 0 {
        topologyBarriers := topologyBarriers - 1;
      }
      if !stable {
        assert View() == was.(barriers := topologyBarriers);
        MarkRootLost(PathIdentityMismatch);
        return;
      }
      var transaction := reconciliation.value;
      reconciliation := None;
      var clears := line.epoch == transaction.startEpoch && line.reason == transaction.startReason
                    && (line.reason.Some? ==> Recoverable(line.reason.value));
      assert clears == Clears(was);
      line := Cleared(line);
      ghost var c := View();
      assert c == was.(reconciliation := None, barriers := topologyBarriers, line := Cleared(was.line));
      var coverage := if clears then CertainCoverage(tree) else Coverage();
      if line.connected && room {
        ReportSent(coverage, clears);
      } else {
        ReportUnsent(transaction);
      }
    }

    method ReportSent(coverage: Coverage, clears: bool)
      modifies this
      ensures var c := old(View());
        var l := Sent(c.line, Batch(c.line.sequence, c.exclusion, c.root, {[]}, coverage));
        View() == Answered(c.(line := if clears then l.(reason := None) else l), Reconciled(c.exclusion, coverage))
    {
      line := Sent(line, Batch(line.sequence, exclusionGeneration, root, {[]}, coverage));
      if clears {
        line := line.(reason := None);
      }
      answers := answers + [Reconciled(exclusionGeneration, coverage)];
    }

    method ReportUnsent(transaction: Reconciliation)
      modifies this
      ensures var c := old(View());
        var m := if c.line.epoch == transaction.startEpoch
                 then c.(line := c.line.(reason := Some(ConsumerBackpressure)))
                 else Subscriptions.MarkUncertain(c, ConsumerBackpressure);
        View() == Answered(Queue(m, []), Unsent)
    {
      if line.epoch == transaction.startEpoch {
        line := line.(reason := Some(ConsumerBackpressure));
      } else {
        MarkUncertain(ConsumerBackpressure);
      }
      QueuePath([]);
      answers := answers + [Unsent];
    }

    method CommitRootRecovery(room: bool)
      requires rootRecovery.Some?
      modifies this
      ensures View() == CommitRecovery(old(View()), room)
    {
      var recovery := rootRecovery.value;
      AdoptCandidate();
      SendBoundary(recovery, room);
    }

    method AdoptCandidate()
      requires rootRecovery.Some?
      modifies this
      ensures var s, r := old(View()), old(rootRecovery).value;
        View() == s.(recovery := None, barriers := 0, root := RootState(s.root.generation + 1, r.candidate, false, None),
                     line := Cleared(s.line).(reason := ReasonAfterRecovery(s)))
    {
      var recovery := rootRecovery.value;
      rootRecovery := None;
      topologyBarriers := 0;
      root := RootState(root.generation + 1, recovery.candidate, false, None);
      if recovery.startReason == Some(RootReplaced) {
        if recovery.later.Some? {
          line := line.(reason := recovery.later);
        } else if line.epoch == recovery.startEpoch {
          line := line.(reason := None);
        }
      }
      line := Cleared(line);
    }

    method SendBoundary(recovery: Recovery, room: bool)
      requires rootRecovery.None?
      modifies this
      ensures var c := old(View());
        var sent := c.line.connected && room;
        var t := if sent then c.(line := Sent(c.line, Batch(c.line.sequence, c.exclusion, c.root, {[]}, CoverageNow(c))))
                 else Subscriptions.MarkUncertain(c, ConsumerBackpressure);
        View() == Answered(t, Recovered(RecoveryResult(
          true, None, recovery.previous, Some(recovery.candidate), t.root, t.exclusion, CoverageNow(t),
          if sent then Some(c.line.sequence) else None)))
    {
      var boundary: Option<nat> := None;
      if line.connected && room {
        boundary := Some(line.sequence);
        line := Sent(line, Batch(line.sequence, exclusionGeneration, root, {[]}, Coverage()));
      } else {
        MarkUncertain(ConsumerBackpressure);
      }
      answers := answers + [Recovered(RecoveryResult(true, None, recovery.previous, Some(recovery.candidate), root,
                                                     exclusionGeneration, Coverage(), boundary))];
    }

    method FinishRootRecoveryFailure()
      requires rootRecovery.Some? && rootRecovery.value.phase.Cleaning?
      modifies this
      ensures View() == FinishFailure(old(View()))
    {
      var recovery := rootRecovery.value;
      rootRecovery := None;
      topologyBarriers := 0;
      answers := answers + [Recovered(RecoveryResult(
        false, Some(recovery.phase.failure), recovery.previous, Some(recovery.candidate),
        root, exclusionGeneration, Coverage(), None))];
    }
  }
}
