// What a subscription does about what it is told: every path it hears of goes to the
// consumer, or the consumer learns that coverage is uncertain, and never without a cause.

module SubscriptionEffects {
  import opened Paths
  import opened Exclusions
  import opened Subscriptions
  import opened SubscriptionLines
  import opened SubscriptionPhases
  import opened SubscriptionTheorems

  // ----- the history only grows --------------------------------------------

  predicate Grows(l: Line, m: Line)
  {
    l.queued <= m.queued && l.log <= m.log
  }

  lemma LostGrows(s: Sub, evidence: Evidence)
    ensures Grows(s.line, MarkRootLost(s, evidence).line)
  {
    LostShape(s, evidence);
  }

  lemma FlushGrows(s: Sub, room: bool)
    ensures Grows(s.line, Flush(s, room).line) && Grows(s.line, FlushIfFull(s, room).line)
  {
  }

  lemma AppliedGrows(s: Sub, n: Notice, room: bool)
    ensures Grows(s.line, Applied(s, n, room).line)
  {
    var d := if n.isDirectory && n.left then s.(tree := WithoutSubtree(s.tree, NoticePath(n))) else s;
    FlushGrows(d, room);
    FlushGrows(Arrival(d), room);
  }

  lemma NoticedGrows(s: Sub, n: Notice, room: bool)
    ensures Grows(s.line, Noticed(s, n, room).line)
  {
    AppliedGrows(QueueNotice(s, NoticePath(n)), n, room);
  }

  lemma NotifiedGrows(s: Sub, n: Notice, room: bool)
    ensures Grows(s.line, Notified(s, n, room).line)
  {
    FlushGrows(Queue(s, if s.root.lost then [] else NoticePath(n)), room);
    LostGrows(s, RootSelfEvent);
    NoticedGrows(MarkRootLost(s, RootSelfEvent), n, room);
    NoticedGrows(s, n, room);
  }

  lemma {:induction false} QueueAllGrows(s: Sub, paths: seq<Path>)
    ensures Grows(s.line, QueueAll(s, paths).line)
    decreases |paths|
  {
    if paths != [] { QueueAllGrows(Queue(s, paths[0]), paths[1..]); }
  }

  lemma CommitUpdateGrows(s: Sub, stable: bool)
    requires s.update.Some?
    ensures Grows(s.line, CommitUpdate(s, stable).line)
  {
    LostGrows(s, PathIdentityMismatch);
    var c := s.(update := None, barriers := if s.barriers == 0 then 0 else s.barriers - 1,
                exclusion := s.update.value.generation, committed := s.policy);
    QueueAllGrows(c, s.update.value.included + s.update.value.invalidations);
  }

  lemma StartsGrow(s: Sub, stable: bool, room: bool)
    ensures s.update.Some? ==> Grows(s.line, StartUpdate(s, stable, room).line)
    ensures s.reconciliation.Some? ==> Grows(s.line, StartReconciliation(s, stable, room).line)
  {
    FlushGrows(s, room);
    LostGrows(s, PathIdentityMismatch);
    LostGrows(Flush(s, room).(line := Cleared(Flush(s, room).line)), PathIdentityMismatch);
  }

  lemma RecoverGrows(s: Sub, candidate: Candidate, originalOnly: bool, room: bool)
    ensures Grows(s.line, Recover(s, candidate, originalOnly, room).line)
  {
    FlushGrows(s.(received := s.received + 1), room);
  }

  lemma CommitReconciliationGrows(s: Sub, stable: bool, room: bool)
    requires s.reconciliation.Some?
    ensures Grows(s.line, CommitReconciliation(s, stable, room).line)
  {
    LostGrows(s.(barriers := if s.barriers == 0 then 0 else s.barriers - 1), PathIdentityMismatch);
  }

  lemma RecoveryGrows(s: Sub, step: Step)
    requires Enabled(s, step) && Recovers(step)
    ensures Grows(s.line, Next(s, step).line)
  {
    if step.RecoveryOpen? {
      OpenGrows(s, step.stable, step.opening, step.room);
    } else if step.RecoveryValidate? {
      CommitRecoveryGrows(s, step.room);
    }
  }

  lemma OpenGrows(s: Sub, stable: bool, opening: Opening, room: bool)
    requires s.recovery.Some?
    ensures Grows(s.line, OpenCandidate(s, stable, opening, room).line)
  {
    CommitRecoveryGrows(s, room);
  }

  lemma CommitRecoveryGrows(s: Sub, room: bool)
    requires s.recovery.Some?
    ensures Grows(s.line, CommitRecovery(s, room).line)
  {
  }

  lemma TransactionGrows(s: Sub, step: Step)
    requires Enabled(s, step) && (Updates(step) || Reconciles(step))
    ensures Grows(s.line, Next(s, step).line)
  {
    if step.UpdateStart? {
      StartsGrow(s, step.stable, step.room);
    } else if step.UpdateCommit? {
      CommitUpdateGrows(s, step.stable);
    } else if step.ReconciliationStart? {
      StartsGrow(s, step.stable, step.room);
    } else if step.ReconciliationCommit? {
      CommitReconciliationGrows(s, step.stable, step.room);
    }
  }

  lemma OtherGrows(s: Sub, step: Step)
    requires Enabled(s, step) && !Updates(step) && !Reconciles(step) && !Recovers(step)
    ensures Grows(s.line, Next(s, step).line)
  {
    if step.Notify? {
      NotifiedGrows(s, step.notice, step.room);
    } else if step.LoseWatch? {
      LostGrows(s.(tree := s.tree.(watched := s.tree.watched - {step.path})), RootWatchLoss);
    } else if step.RootMismatch? {
      LostGrows(s, PathIdentityMismatch);
    } else if step.FlushIfDue? {
      FlushGrows(s, step.room);
    } else if step.RecoverCommand? {
      RecoverGrows(s, step.candidate, step.originalOnly, step.room);
    }
  }

  /** No step takes back a batch or forgets that a path was queued. */
  lemma StepGrows(s: Sub, step: Step)
    requires Enabled(s, step)
    ensures Grows(s.line, Next(s, step).line)
  {
    if Updates(step) || Reconciles(step) {
      TransactionGrows(s, step);
    } else if Recovers(step) {
      RecoveryGrows(s, step);
    } else {
      OtherGrows(s, step);
    }
  }

  lemma {:induction false} RunGrows(states: seq<Sub>, steps: seq<Step>, k: nat, n: nat)
    requires Run(states, steps) && k <= n < |states|
    ensures Grows(states[k].line, states[n].line)
    decreases n - k
  {
    if k < n {
      RunStep(states, steps, k);
      RunGrows(states, steps, k + 1, n);
      GrowsOn(states[k].line, states[k + 1].line, states[n].line);
    }
  }

  lemma RunStep(states: seq<Sub>, steps: seq<Step>, k: nat)
    requires Run(states, steps) && k < |steps|
    ensures Grows(states[k].line, states[k + 1].line)
  {
    StepGrows(states[k], steps[k]);
  }

  lemma GrowsOn(l: Line, m: Line, n: Line)
    requires Grows(l, m) && Grows(m, n)
    ensures Grows(l, n)
  {
  }

  /** A path queued while another generation's are pending leaves the root pending, under uncertainty. */
  lemma AnotherGenerationCollapses(s: Sub, path: Path)
    requires s.line.generation.Some? && s.line.generation.value != s.selection
    ensures var t := Queue(s, path);
      t.line.pending == {[]} && CoverageNow(t) == Uncertain(TopologyRace) && t.line.generation == Some(s.selection)
  {
  }

  // ----- what is heard of is queued ----------------------------------------

  /** An entry made in this step stands for the path: it names it, or the root. */
  ghost predicate Entered(l: Line, m: Line, p: Path)
  {
    exists i :: |l.queued| <= i < |m.queued| && |l.log| <= m.queued[i].at && (m.queued[i].path == p || m.queued[i].path == [])
  }

  lemma EnteredStays(l: Line, m: Line, n: Line, p: Path)
    requires Entered(l, m, p) && Grows(m, n)
    ensures Entered(l, n, p)
  {
    var i :| |l.queued| <= i < |m.queued| && |l.log| <= m.queued[i].at && (m.queued[i].path == p || m.queued[i].path == []);
    assert n.queued[i] == m.queued[i];
  }

  lemma QueueEnters(l: Line, selection: nat, p: Path, path: Path)
    requires path == p || path == []
    ensures Entered(l, QueuePath(l, selection, path), p)
  {
    assert QueuePath(l, selection, path).queued[|l.queued|] == Entry(path, selection, |l.log|);
  }

  lemma RaiseEnters(l: Line, selection: nat, reason: Reason, p: Path)
    ensures Entered(l, Raise(l, selection, reason), p)
  {
    assert Raise(l, selection, reason).queued[|l.queued|] == Entry([], selection, |l.log|);
  }

  lemma NoticedEnters(s: Sub, n: Notice, room: bool)
    ensures Entered(s.line, Noticed(s, n, room).line, NoticePath(n))
  {
    var q := QueueNotice(s, NoticePath(n));
    RaiseEnters(s.line, s.selection, ConsumerBackpressure, NoticePath(n));
    QueueEnters(s.line, s.selection, NoticePath(n),
                if s.reconciliation.Some? || s.recovery.Some? || s.root.lost then [] else NoticePath(n));
    AppliedGrows(q, n, room);
    EnteredStays(s.line, q.line, Noticed(s, n, room).line, NoticePath(n));
  }

  /** The policy lets the consumer hear of the path, or of the boundary it is. */
  predicate Heard(s: Sub, n: Notice)
  {
    !EventExcludes(s.policy, NoticePath(n), n.isDirectory) || NoticePath(n) in s.policy.observed
  }

  /** A notice of any kind has its path queued, or the root, exactly when the policy lets it be heard; otherwise it does nothing. */
  lemma NoticeIsQueued(s: Sub, n: Notice, room: bool)
    ensures var t := Next(s, Notify(n, room));
      if Heard(s, n) then Entered(s.line, t.line, NoticePath(n)) else t == s
  {
    var path := NoticePath(n);
    if EventExcludes(s.policy, path, n.isDirectory) {
      if Heard(s, n) {
        var p := if s.root.lost then [] else path;
        QueueEnters(s.line, s.selection, path, p);
        FlushGrows(Queue(s, p), room);
        EnteredStays(s.line, Queue(s, p).line, Notified(s, n, room).line, path);
      }
    } else if n.unmount {
      RaiseEnters(s.line, s.selection, TopologyRace, path);
    } else if n.selfGone && n.directory == [] {
      var l := MarkRootLost(s, RootSelfEvent);
      LostShape(s, RootSelfEvent);
      RaiseEnters(s.line, l.selection, RootReplaced, path);
      NoticedGrows(l, n, room);
      EnteredStays(s.line, l.line, Noticed(l, n, room).line, path);
    } else {
      NoticedEnters(s, n, room);
    }
  }

  lemma {:induction false} QueueAllEnters(s: Sub, paths: seq<Path>, p: Path)
    requires p in paths
    ensures Entered(s.line, QueueAll(s, paths).line, p)
    decreases |paths|
  {
    var q := Queue(s, paths[0]);
    if paths[0] == p {
      QueueEnters(s.line, s.selection, p, p);
      QueueAllGrows(q, paths[1..]);
      EnteredStays(s.line, q.line, QueueAll(q, paths[1..]).line, p);
    } else {
      QueueAllEnters(q, paths[1..], p);
      EnteredLater(s.line, q.line, QueueAll(q, paths[1..]).line, p);
    }
  }

  lemma EnteredLater(l: Line, m: Line, n: Line, p: Path)
    requires Grows(l, m) && Entered(m, n, p)
    ensures Entered(l, n, p)
  {
    var i :| |m.queued| <= i < |n.queued| && |m.log| <= n.queued[i].at && (n.queued[i].path == p || n.queued[i].path == []);
    assert |l.queued| <= i < |n.queued|;
  }

  /** The step tells the subscription that the path may have changed. */
  predicate Tells(s: Sub, step: Step, p: Path)
  {
    match step
    case Notify(n, _) => p == NoticePath(n) && Heard(s, n)
    case BoundaryChanged(path) => p == path
    case Promote(path) => p == path
    case UpdateCommit(stable) =>
      s.update.Some? && (if stable then p in s.update.value.included + s.update.value.invalidations else true)
    case LoseWatch(path, expected) => path == [] || !expected
    case Doubt(_) => true
    case RootMismatch => true
    case _ => false
  }

  lemma CommitUpdateEnters(s: Sub, stable: bool, p: Path)
    requires Tells(s, UpdateCommit(stable), p)
    ensures Entered(s.line, CommitUpdate(s, stable).line, p)
  {
    if stable {
      var c := s.(update := None, barriers := if s.barriers == 0 then 0 else s.barriers - 1,
                  exclusion := s.update.value.generation, committed := s.policy);
      QueueAllEnters(c, s.update.value.included + s.update.value.invalidations, p);
    } else {
      LostEnters(s, PathIdentityMismatch, p);
    }
  }

  lemma LostEnters(s: Sub, evidence: Evidence, p: Path)
    ensures Entered(s.line, MarkRootLost(s, evidence).line, p)
  {
    LostShape(s, evidence);
    RaiseEnters(s.line, MarkRootLost(s, evidence).selection, RootReplaced, p);
  }

  /**
   * Every path the subscription is told of is queued, or the root for it: a path of a notice or an observed boundary, one
   * that an update includes again or invalidates, a promoted one; and any path when it is told of a loss.
   */
  lemma ToldIsQueued(s: Sub, step: Step, p: Path)
    requires Enabled(s, step) && Tells(s, step, p)
    ensures Entered(s.line, Next(s, step).line, p)
  {
    match step {
      case Notify(n, room) => NoticeIsQueued(s, n, room);
      case BoundaryChanged(path) => QueueEnters(s.line, s.selection, p, if s.root.lost then [] else path);
      case Promote(path) => QueueEnters(s.line, s.selection, p, path);
      case UpdateCommit(stable) => CommitUpdateEnters(s, stable, p);
      case LoseWatch(path, _) =>
        var t := s.(tree := s.tree.(watched := s.tree.watched - {path}));
        LostEnters(t, RootWatchLoss, p);
        RaiseEnters(t.line, t.selection, TopologyRace, p);
      case Doubt(reason) => RaiseEnters(s.line, s.selection, reason, p);
      case RootMismatch => LostEnters(s, PathIdentityMismatch, p);
    }
  }

  // ----- over whole runs ---------------------------------------------------

  /** A batch from number `from` on, up to `to`, invalidates the path. */
  ghost predicate SentBetween(log: seq<Batch>, from: nat, to: nat, p: Path)
  {
    exists j :: from <= j < to && j < |log| && Covers(log[j].paths, p)
  }

  lemma {:induction false} EntryFound(states: seq<Sub>, steps: seq<Step>, k: nat, n: nat, p: Path) returns (i: nat)
    requires Run(states, steps) && k < n < |states| && Tells(states[k], steps[k], p)
    ensures i < |states[n].line.queued|
    ensures |states[k].line.log| <= states[n].line.queued[i].at <= |states[k + 1].line.log|
    ensures states[n].line.queued[i].path == p || states[n].line.queued[i].path == []
  {
    var s, t := states[k], states[k + 1];
    assert t == Next(s, steps[k]);
    ToldIsQueued(s, steps[k], p);
    SubscriptionHolds(states, steps, k + 1);
    RunGrows(states, steps, k + 1, n);
    i :| |s.line.queued| <= i < |t.line.queued| && |s.line.log| <= t.line.queued[i].at
         && (t.line.queued[i].path == p || t.line.queued[i].path == []);
    assert states[n].line.queued[i] == t.line.queued[i];
  }

  /**
   * Nothing the subscription is told of is lost. While the consumer listens, every path it was ever told of has gone out in
   * a batch since, is pending, or coverage is uncertain.
   */
  lemma ToldIsNotLost(states: seq<Sub>, steps: seq<Step>, k: nat, n: nat, p: Path)
    requires Run(states, steps) && k < n < |states| && Tells(states[k], steps[k], p) && states[n].line.connected
    ensures var l := states[n].line;
      CoverageNow(states[n]).Uncertain? || SentBetween(l.log, |states[k].line.log|, |l.log|, p) || Covers(l.pending, p)
  {
    var i := EntryFound(states, steps, k, n, p);
    LostDetailIsUncertain(states, steps, n, i);
    var l := states[n].line;
    if Delivered(l.log, l.queued[i]) {
      var j :| l.queued[i].at <= j < |l.log| && Covers(l.log[j].paths, l.queued[i].path);
      assert Covers(l.log[j].paths, p);
    }
  }

  /** A later batch that does not call coverage uncertain comes after, or is, one with every path told of. */
  lemma ToldIsSettled(states: seq<Sub>, steps: seq<Step>, k: nat, n: nat, b: nat, p: Path)
    requires Run(states, steps) && k < n < |states| && Tells(states[k], steps[k], p)
    requires |states[k + 1].line.log| <= b < |states[n].line.log| && !states[n].line.log[b].coverage.Uncertain?
    ensures SentBetween(states[n].line.log, |states[k].line.log|, b + 1, p)
  {
    var i := EntryFound(states, steps, k, n, p);
    CertainBatchSettlesEverything(states, steps, n, b, i);
    var l := states[n].line;
    var j :| l.queued[i].at <= j <= b && Covers(l.log[j].paths, l.queued[i].path);
    assert Covers(l.log[j].paths, p);
  }

  // ----- flushing ----------------------------------------------------------

  function Outgoing(s: Sub, paths: set<Path>, coverage: Coverage): Batch
  {
    Batch(|s.line.log| + 1, s.exclusion, s.root, paths, coverage)
  }

  /**
   * A flush that is due sends all pending paths in one batch. Too many of them go out as the root, under uncertainty; a
   * full output queue leaves the root pending, under uncertainty; and nobody listening, they are dropped.
   */
  ghost predicate Flushed(s: Sub, t: Sub, room: bool)
  {
    && t == s.(line := t.line, recovery := t.recovery) && t.line.connected == s.line.connected
    && (if s.line.pending == {} then t == s
        else if !s.line.connected then t.line.log == s.line.log && t.line.pending == {}
        else if !room then t.line.log == s.line.log && t.line.pending == {[]} && CoverageNow(t).Uncertain? && t.line.epoch > s.line.epoch
        else if |s.line.pending| > s.maxBatchPaths then
          t.line.log == s.line.log + [Outgoing(s, {[]}, CoverageNow(t))] && t.line.pending == {} && CoverageNow(t).Uncertain?
        else t == s.(line := t.line) && t.line.epoch == s.line.epoch && t.line.reason == s.line.reason && t.line.pending == {}
             && t.line.log == s.line.log + [Outgoing(s, s.line.pending, CoverageNow(s))])
  }

  lemma FlushesExactly(s: Sub, elapsed: bool, room: bool)
    requires Inv(s) && Enabled(s, FlushIfDue(elapsed, room))
    ensures var t := Next(s, FlushIfDue(elapsed, room));
      if elapsed || |s.line.pending| >= s.maxBatchPaths then Flushed(s, t, room) else t == s
  {
    assert s.selection == s.exclusion;
    FlushedAs(s, room);
  }

  lemma FlushedAs(s: Sub, room: bool)
    requires Inv(s) && s.selection == s.exclusion
    ensures Flushed(s, Flush(s, room), room)
  {
  }

  // ----- a notice in detail ------------------------------------------------

  /** The paths that a queued path leaves pending: the root stands for all others. */
  function Joined(pending: set<Path>, p: Path): set<Path>
  {
    if p == [] then {[]} else if [] in pending then pending else pending + {p}
  }

  /** Nothing but the path itself is to be told: no transaction needs the root, and the batches held back have room. */
  predicate Plain(s: Sub, n: Notice)
  {
    && Heard(s, n) && !s.root.lost && s.reconciliation.None?
    && (EventExcludes(s.policy, NoticePath(n), n.isDirectory)
        || (&& !n.unmount && !(n.selfGone && n.directory == [])
            && (s.update.Some? && s.barriers > 0 && |s.line.pending| >= s.maxBatchPaths ==>
                 NoticePath(n) in s.line.pending || [] in s.line.pending)))
  }

  /** A directory that arrives is given a job, which holds batches back. */
  predicate Arrives(s: Sub, n: Notice)
  {
    n.isDirectory && n.arrived && !EventExcludes(s.policy, NoticePath(n), n.isDirectory)
  }

  /** A plain notice has its own path queued, and until there are enough for a batch raises and sends nothing. */
  lemma PlainNoticeIsNamed(s: Sub, n: Notice, room: bool)
    requires Inv(s) && Plain(s, n)
    ensures var t, joined := Next(s, Notify(n, room)), Joined(s.line.pending, NoticePath(n));
      && s.line.queued + [Entry(NoticePath(n), s.selection, |s.line.log|)] <= t.line.queued
      && (|joined| < s.maxBatchPaths || s.barriers > 0 || Arrives(s, n) ==>
           && t.line.queued == s.line.queued + [Entry(NoticePath(n), s.selection, |s.line.log|)]
           && t.line.pending == joined && t.line.log == s.line.log
           && t.line.epoch == s.line.epoch && t.line.reason == s.line.reason)
      && (s.barriers == 0 && room && s.line.connected && !Arrives(s, n) && |joined| == s.maxBatchPaths ==>
           t.line.pending == {} && |t.line.log| == |s.line.log| + 1 && t.line.log[|s.line.log|].paths == joined
           && t.line.epoch == s.line.epoch && t.line.reason == s.line.reason)
  {
    var q := Queue(s, NoticePath(n));
    if EventExcludes(s.policy, NoticePath(n), n.isDirectory) {
      NamedThenFull(s, q, n, room);
    } else {
      assert QueueNotice(s, NoticePath(n)) == q;
      NamedThenApplied(s, q, n, room);
    }
  }

  lemma NamedThenFull(s: Sub, q: Sub, n: Notice, room: bool)
    requires Inv(s) && q.line == QueuePath(s.line, s.selection, NoticePath(n)) && q.maxBatchPaths == s.maxBatchPaths
    ensures var t := FlushIfFull(q, room);
      && q.line.queued <= t.line.queued && q.line.pending == Joined(s.line.pending, NoticePath(n))
      && q.line.epoch == s.line.epoch && q.line.reason == s.line.reason
      && (|q.line.pending| < q.maxBatchPaths || q.barriers > 0 ==> t == q)
      && (q.barriers == 0 && room && q.line.connected && |q.line.pending| == q.maxBatchPaths ==>
           t.line.pending == {} && t.line.log == q.line.log + [BatchOf(q)] && t.line.epoch == q.line.epoch
           && t.line.reason == q.line.reason)
  {
    FlushGrows(q, room);
  }

  lemma NamedThenApplied(s: Sub, q: Sub, n: Notice, room: bool)
    requires Inv(s) && q == Queue(s, NoticePath(n)) && !s.root.lost
    ensures var t := Applied(q, n, room);
      && q.line.queued <= t.line.queued && q.line.pending == Joined(s.line.pending, NoticePath(n))
      && q.line.epoch == s.line.epoch && q.line.reason == s.line.reason
      && (|q.line.pending| < q.maxBatchPaths || q.barriers > 0 || (n.isDirectory && n.arrived) ==> t.line == q.line)
      && (q.barriers == 0 && room && q.line.connected && !(n.isDirectory && n.arrived)
          && |q.line.pending| == q.maxBatchPaths ==>
           t.line.pending == {} && |t.line.log| == |q.line.log| + 1 && t.line.log[|q.line.log|].paths == q.line.pending
           && t.line.epoch == q.line.epoch && t.line.reason == q.line.reason)
  {
    var d := if n.isDirectory && n.left then q.(tree := WithoutSubtree(q.tree, NoticePath(n))) else q;
    NamedThenFull(s, d, n, room);
    NamedThenFull(s, Arrival(d), n, room);
  }

  // ----- the tree ----------------------------------------------------------

  /** The notice is acted on beyond telling the consumer: it is visible, and the root is there or being recovered. */
  predicate Acts(s: Sub, n: Notice)
  {
    && !EventExcludes(s.policy, NoticePath(n), n.isDirectory) && !n.unmount
    && (s.recovery.Some? || (!s.root.lost && !(n.selfGone && n.directory == [])))
  }

  /**
   * A directory that went is no longer watched or deferred, nor anything below it, and nothing else is touched. One that
   * arrived is given a job and a barrier to walk it, and a reconciliation past its scan scans again.
   */
  lemma DirectoriesComeAndGo(s: Sub, n: Notice, room: bool)
    requires Inv(s)
    ensures var t, gone := Next(s, Notify(n, room)), n.isDirectory && n.left && Acts(s, n);
      && (forall p :: p in t.tree.watched <==> p in s.tree.watched && !(gone && NoticePath(n) <= p))
      && (forall p :: p in t.tree.deferred <==> p in s.tree.deferred && !(gone && NoticePath(n) <= p))
      && t.tree.promotions == s.tree.promotions
      && t.jobs == s.jobs + (if n.isDirectory && n.arrived && Acts(s, n) then 1 else 0)
      && (n.isDirectory && n.arrived && Acts(s, n) ==>
           t.barriers == s.barriers + 1 && (Reconciling(s) ==> t.reconciliation.Some? && t.reconciliation.value.phase == Scanning))
  {
    NotifyTree(s, n, room);
  }

  ghost predicate TreeMoves(s: Sub, t: Sub, n: Notice, acts: bool)
  {
    && t.tree == (if n.isDirectory && n.left && acts then WithoutSubtree(s.tree, NoticePath(n)) else s.tree)
    && t.jobs == s.jobs + (if n.isDirectory && n.arrived && acts then 1 else 0)
    && (n.isDirectory && n.arrived && acts ==> t.barriers == s.barriers + 1)
    && (n.isDirectory && n.arrived && acts && Reconciling(s) ==>
         t.reconciliation.Some? && t.reconciliation.value.phase == Scanning)
  }

  lemma NotifyTree(s: Sub, n: Notice, room: bool)
    requires Inv(s)
    ensures TreeMoves(s, Notified(s, n, room), n, Acts(s, n))
  {
    if EventExcludes(s.policy, NoticePath(n), n.isDirectory) || n.unmount {
      FlushTree(Queue(s, if s.root.lost then [] else NoticePath(n)), room);
    } else if n.selfGone && n.directory == [] {
      SelfNoticeTree(s, n, room);
    } else {
      NoticedTree(s, n, room);
    }
  }

  lemma SelfNoticeTree(s: Sub, n: Notice, room: bool)
    requires Inv(s)
    ensures TreeMoves(s, Noticed(MarkRootLost(s, RootSelfEvent), n, room), n, s.recovery.Some?)
  {
    LostTree(s, RootSelfEvent);
    NoticedTree(MarkRootLost(s, RootSelfEvent), n, room);
  }

  lemma FlushTree(s: Sub, room: bool)
    ensures var t := FlushIfFull(s, room);
      t.tree == s.tree && t.jobs == s.jobs && t.barriers == s.barriers && t.reconciliation == s.reconciliation
  {
  }

  lemma LostTree(s: Sub, evidence: Evidence)
    ensures var t := MarkRootLost(s, evidence);
      && t.tree == s.tree && t.jobs == s.jobs && t.root.lost && t.recovery.Some? == s.recovery.Some?
      && (s.recovery.Some? ==> t.barriers == s.barriers && t.reconciliation == s.reconciliation)
  {
  }

  lemma NoticedTree(s: Sub, n: Notice, room: bool)
    ensures TreeMoves(s, Noticed(s, n, room), n, !s.root.lost || s.recovery.Some?)
  {
    var q := QueueNotice(s, NoticePath(n));
    var d := if n.isDirectory && n.left then q.(tree := WithoutSubtree(q.tree, NoticePath(n))) else q;
    FlushTree(d, room);
    FlushTree(Arrival(d), room);
  }

  // ----- losses ------------------------------------------------------------

  /** What tells that the root itself has gone. */
  function LossOf(s: Sub, step: Step): Option<Evidence>
  {
    match step
    case Notify(n, _) =>
      if !EventExcludes(s.policy, NoticePath(n), n.isDirectory) && !n.unmount && n.selfGone && n.directory == []
      then Some(RootSelfEvent) else None
    case LoseWatch(path, _) => if path == [] then Some(RootWatchLoss) else None
    case RootMismatch => Some(PathIdentityMismatch)
    case UpdateStart(stable, _) => if stable then None else Some(PathIdentityMismatch)
    case UpdateCommit(stable) => if stable then None else Some(PathIdentityMismatch)
    case ReconciliationStart(stable, _) => if stable then None else Some(PathIdentityMismatch)
    case ReconciliationCommit(stable, _) => if stable then None else Some(PathIdentityMismatch)
    case _ => None
  }

  /** The root is lost on this evidence, or on several kinds of it; coverage is uncertain; what was under way is off. */
  predicate RootLostIn(s: Sub, t: Sub, evidence: Evidence)
  {
    && t.root == RootState(s.root.generation, s.root.identity, true,
                           if s.root.evidence == None || s.root.evidence == Some(evidence) then Some(evidence) else Some(Multiple))
    && CoverageNow(t).Uncertain? && t.update.None? && t.reconciliation.None? && t.policy == t.committed == s.committed
    && t.selection == t.exclusion == s.exclusion
    && t.answers == (if s.update.Some? || s.reconciliation.Some? then s.answers + [RootLost] else s.answers)
    && (t.recovery.Some? <==> s.recovery.Some?) && (t.recovery.Some? ==> t.recovery.value.unstable)
  }

  lemma MarkedLost(s: Sub, evidence: Evidence)
    requires Phases(s)
    ensures RootLostIn(s, MarkRootLost(s, evidence), evidence)
  {
  }

  lemma NoticedKeepsLoss(s: Sub, l: Sub, evidence: Evidence, n: Notice, room: bool)
    requires RootLostIn(s, l, evidence)
    ensures RootLostIn(s, Noticed(l, n, room), evidence)
  {
    var q := QueueNotice(l, NoticePath(n));
    assert RootLostIn(s, q, evidence);
    var d := if n.isDirectory && n.left then q.(tree := WithoutSubtree(q.tree, NoticePath(n))) else q;
    FlushKeepsLoss(s, d, evidence, room);
    FlushKeepsLoss(s, Arrival(d), evidence, room);
  }

  lemma FlushKeepsLoss(s: Sub, l: Sub, evidence: Evidence, room: bool)
    requires RootLostIn(s, l, evidence)
    ensures RootLostIn(s, FlushIfFull(l, room), evidence)
  {
    if |l.line.pending| >= l.maxBatchPaths && l.barriers == 0 { FlushKeepsRest(l, room); }
  }

  lemma FlushKeepsRest(s: Sub, room: bool)
    ensures var t := Flush(s, room);
      && t == s.(line := t.line, recovery := t.recovery) && (s.line.reason.Some? ==> t.line.reason.Some?)
      && (t.recovery.Some? <==> s.recovery.Some?)
      && (t.recovery.Some? ==> t.recovery.value.unstable == s.recovery.value.unstable)
  {
  }

  lemma StartLoses(s: Sub, room: bool)
    requires Inv(s) && ReconciliationReady(s)
    ensures RootLostIn(s, StartReconciliation(s, false, room), PathIdentityMismatch)
  {
    FlushShape(s, room);
    var f := Flush(s, room);
    FlushedInv(s, room);
    MarkedLost(f.(line := Cleared(f.line)), PathIdentityMismatch);
  }

  /** Whatever tells of it, a loss of the root ends update and reconciliation alike and leaves the committed policy in force. */
  lemma LossIsTaken(s: Sub, step: Step)
    requires Inv(s) && Enabled(s, step) && LossOf(s, step).Some?
    ensures RootLostIn(s, Next(s, step), LossOf(s, step).value)
  {
    if step.Notify? {
      MarkedLost(s, RootSelfEvent);
      NoticedKeepsLoss(s, MarkRootLost(s, RootSelfEvent), RootSelfEvent, step.notice, step.room);
    } else if step.LoseWatch? {
      WatchLossTaken(s, step.expected);
    } else if step.RootMismatch? {
      MarkedLost(s, PathIdentityMismatch);
    } else {
      BoundaryLoses(s, step);
    }
  }

  lemma WatchLossTaken(s: Sub, expected: bool)
    requires Inv(s)
    ensures RootLostIn(s, WatchGone(s, [], expected), RootWatchLoss)
  {
    MarkedLost(s.(tree := s.tree.(watched := s.tree.watched - {[]})), RootWatchLoss);
  }

  lemma BoundaryLoses(s: Sub, step: Step)
    requires Inv(s) && Enabled(s, step) && LossOf(s, step).Some? && (Updates(step) || Reconciles(step))
    ensures RootLostIn(s, Next(s, step), PathIdentityMismatch)
  {
    if step.ReconciliationStart? {
      StartLoses(s, step.room);
    } else if step.ReconciliationCommit? {
      LostAtCommit(s);
    } else {
      MarkedLost(s, PathIdentityMismatch);
    }
  }

  lemma LostAtCommit(s: Sub)
    requires Inv(s) && s.reconciliation.Some? && s.reconciliation.value.phase == Sweeping
    ensures RootLostIn(s, CommitReconciliation(s, false, false), PathIdentityMismatch)
    ensures CommitReconciliation(s, false, true) == CommitReconciliation(s, false, false)
  {
    assert CommitReconciliation(s, false, false).answers == s.answers + [RootLost];
  }

  /** An unmounted or unexpectedly unwatched directory, and doubt raised elsewhere, leave coverage uncertain and no more. */
  lemma DoubtIsRaised(s: Sub, step: Step)
    requires Inv(s) && Enabled(s, step)
    requires || step.Doubt? || (step.LoseWatch? && step.path != [] && !step.expected)
             || (step.Notify? && step.notice.unmount && !EventExcludes(s.policy, NoticePath(step.notice), step.notice.isDirectory))
    ensures var t := Next(s, step);
      && CoverageNow(t).Uncertain? && t.line.epoch == s.line.epoch + 1 && t.line.pending == {[]} && t.root == s.root
      && Priority(t.line.reason.value) >= Priority(if step.Doubt? then step.reason else TopologyRace)
      && t.update == s.update && t.reconciliation == s.reconciliation && t.answers == s.answers
      && t.tree == (if step.LoseWatch? then s.tree.(watched := s.tree.watched - {step.path}) else s.tree)
  {
  }

  /** An announced end of a watch other than the root's is forgotten and nothing else. */
  lemma AnnouncedEndIsQuiet(s: Sub, path: Path)
    requires path != []
    ensures var t := Next(s, LoseWatch(path, true)); t == s.(tree := t.tree) && t.tree == s.tree.(watched := s.tree.watched - {path})
  {
  }
}
