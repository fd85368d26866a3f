// One subscription: the paths it owes its consumer, the batches it sends, and the
// three transactions that replace exclusions, reconcile and recover the root.

module Subscriptions {
  import opened Paths
  import opened Exclusions

  datatype Option<+T> = None | Some(value: T)

  type Identity = nat

  // ----- coverage ----------------------------------------------------------

  datatype Reason = ConsumerBackpressure | TopologyRace | RootReplaced | EventOverflow

  function Priority(reason: Reason): nat
  {
    match reason
    case ConsumerBackpressure => 1
    case TopologyRace => 2
    case RootReplaced => 3
    case EventOverflow => 4
  }

  function Strongest(current: Option<Reason>, candidate: Reason): (r: Reason)
    ensures Priority(r) >= Priority(candidate)
    ensures current.Some? ==> Priority(r) >= Priority(current.value)
  {
    if current.Some? && Priority(current.value) >= Priority(candidate) then current.value else candidate
  }

  predicate Recoverable(reason: Reason)
  {
    reason.EventOverflow? || reason.TopologyRace? || reason.ConsumerBackpressure?
  }

  datatype Partial = TransientError | ResourceLimit | Permission

  datatype Coverage = Complete | Incomplete(partial: Partial, watched: nat, deferred: nat) | Uncertain(reason: Reason)

  /** The directories watched, those deferred and why, and those promoted but not yet walked. */
  datatype Tree = Tree(watched: set<Path>, deferred: map<Path, Partial>, promotions: set<Path>)

  const NoTree: Tree := Tree({}, map[], {})

  function PartialReason(t: Tree): Option<Partial>
  {
    if Permission in t.deferred.Values then Some(Permission)
    else if ResourceLimit in t.deferred.Values || t.promotions != {} then Some(ResourceLimit)
    else if TransientError in t.deferred.Values then Some(TransientError)
    else None
  }

  function CertainCoverage(t: Tree): (c: Coverage)
    ensures !c.Uncertain?
  {
    match PartialReason(t)
    case Some(partial) => Incomplete(partial, |t.watched|, |t.deferred.Keys + t.promotions|)
    case None => Complete
  }

  function CoverageOf(t: Tree, reason: Option<Reason>): (c: Coverage)
    ensures c.Uncertain? <==> reason.Some?
  {
    if reason.Some? then Uncertain(reason.value) else CertainCoverage(t)
  }

  function WithoutSubtree(t: Tree, path: Path): Tree
  {
    t.(watched := (set p | p in t.watched && !(path <= p)),
       deferred := (map p | p in t.deferred && !(path <= p) :: t.deferred[p]))
  }

  // ----- the line to the consumer ------------------------------------------

  datatype Evidence = RootSelfEvent | RootWatchLoss | PathIdentityMismatch | Multiple

  datatype RootState = RootState(generation: nat, identity: Identity, lost: bool, evidence: Option<Evidence>)

  datatype Batch = Batch(sequence: nat, generation: nat, root: RootState, paths: set<Path>, coverage: Coverage)

  /** History: `path` was queued under an exclusion generation when `at` batches had been sent. */
  datatype Entry = Entry(path: Path, generation: nat, at: nat)

  datatype Line = Line(
    pending: set<Path>, generation: Option<nat>, reason: Option<Reason>, epoch: nat,
    sequence: nat, connected: bool,
    // history: the batches the output queue took and the paths queued
    log: seq<Batch>, queued: seq<Entry>)

  function QueuePath(l: Line, selection: nat, path: Path): (m: Line)
    ensures m == l.(pending := m.pending, generation := m.generation, reason := m.reason, queued := m.queued)
    ensures l.reason.Some? ==> m.reason.Some?
    ensures m.generation == Some(selection) && m.pending != {}
    ensures path == [] ==> m.pending == {[]}
    ensures m.queued == l.queued + [Entry(path, selection, |l.log|)]
  {
    var stale := l.generation.Some? && l.generation.value != selection;
    var pending := if stale then {[]} else l.pending;
    l.(pending := if path == [] then {[]} else if [] in pending then pending else pending + {path},
       generation := Some(selection),
       reason := if stale then Some(TopologyRace) else l.reason,
       queued := l.queued + [Entry(path, selection, |l.log|)])
  }

  /** Uncertainty about the whole tree, which owes the consumer the root. */
  function Raise(l: Line, selection: nat, reason: Reason): (m: Line)
    ensures m == l.(pending := {[]}, generation := Some(selection), reason := m.reason, epoch := l.epoch + 1,
                    queued := m.queued)
    ensures m.reason.Some?
  {
    QueuePath(l.(epoch := l.epoch + 1, reason := Some(Strongest(l.reason, reason))), selection, [])
  }

  function Cleared(l: Line): (m: Line)
    ensures m == l.(pending := {}, generation := None)
  {
    l.(pending := {}, generation := None)
  }

  function Sent(l: Line, batch: Batch): (m: Line)
    ensures m == l.(log := l.log + [batch], sequence := l.sequence + 1)
  {
    l.(log := l.log + [batch], sequence := l.sequence + 1)
  }

  // ----- the subscription --------------------------------------------------

  datatype UpdatePhase = WaitingToReplace | RemovingExcluded | ScanningIncluded

  datatype Update = Update(generation: nat, policy: Policy, previous: Policy, included: seq<Path>,
                           invalidations: seq<Path>, phase: UpdatePhase)

  datatype ReconciliationPhase = WaitingToReconcile | Scanning | Sweeping

  datatype Reconciliation = Reconciliation(phase: ReconciliationPhase, startReason: Option<Reason>, startEpoch: nat)

  datatype Failure =
    | CandidateMissing | CandidateNotDirectory | SymlinkAncestry | RootWatchUnavailable
    | ReplacementNotAccepted | IdentityUnstable

  datatype RecoveryPhase = RemovingOld | Walking | Cleaning(failure: Failure)

  datatype Recovery = Recovery(phase: RecoveryPhase, previous: RootState, candidate: Identity, startReason: Option<Reason>,
                               startEpoch: nat, later: Option<Reason>, unstable: bool)

  datatype RecoveryResult = RecoveryResult(attached: bool, failure: Option<Failure>, previous: RootState,
                                           candidate: Option<Identity>, current: RootState, generation: nat,
                                           coverage: Coverage, boundary: Option<nat>)

  datatype Answer =
    | Refused
    | Replaced(generation: nat, coverage: Coverage)
    | Reconciled(generation: nat, coverage: Coverage)
    | Unsent
    | RootLost
    | Recovered(result: RecoveryResult)

  datatype Sub = Sub(
    root: RootState, tree: Tree, line: Line, policy: Policy, exclusion: nat, selection: nat,
    update: Option<Update>, reconciliation: Option<Reconciliation>, recovery: Option<Recovery>,
    jobs: nat, barriers: nat, maxBatchPaths: nat,
    // history: the policy last committed, the commands received and their answers
    committed: Policy, received: nat, answers: seq<Answer>)

  function CoverageNow(s: Sub): (c: Coverage)
    ensures c.Uncertain? <==> s.line.reason.Some?
  {
    CoverageOf(s.tree, s.line.reason)
  }

  predicate Busy(s: Sub)
  {
    s.update.Some? || s.reconciliation.Some? || s.recovery.Some?
  }

  function Queue(s: Sub, path: Path): (t: Sub)
    ensures t == s.(line := t.line)
  {
    s.(line := QueuePath(s.line, s.selection, path))
  }

  function MarkUncertain(s: Sub, reason: Reason): (t: Sub)
    ensures t == s.(line := Raise(s.line, s.selection, reason), recovery := t.recovery)
    ensures s.recovery.None? ==> t.recovery.None?
    ensures s.recovery.Some? ==> t.recovery.Some? && t.recovery.value.later.Some?
    ensures s.recovery.Some? ==> t.recovery == Some(s.recovery.value.(later := t.recovery.value.later))
  {
    s.(line := Raise(s.line, s.selection, reason),
       recovery := if s.recovery.None? then None
                   else Some(s.recovery.value.(later := Some(Strongest(s.recovery.value.later, reason)))))
  }

  function Evident(current: Option<Evidence>, evidence: Evidence): Option<Evidence>
  {
    Some(if current.None? || current.value == evidence then evidence else Multiple)
  }

  /** A lost root ends an exclusion update or a reconciliation on the spot and makes a recovery's candidate unstable. */
  function Aborted(s: Sub): Sub
  {
    var u := if s.update.None? then s
             else s.(update := None, policy := s.update.value.previous, selection := s.exclusion,
                     answers := s.answers + [RootLost]);
    if u.reconciliation.None? then u else u.(reconciliation := None, answers := u.answers + [RootLost])
  }

  function MarkRootLost(s: Sub, evidence: Evidence): Sub
  {
    var lost := s.(root := s.root.(lost := true, evidence := Evident(s.root.evidence, evidence)));
    if s.recovery.Some? then
      MarkUncertain(lost.(recovery := Some(s.recovery.value.(unstable := true))), RootReplaced)
    else MarkUncertain(Aborted(lost.(barriers := 0)), RootReplaced)
  }

  function BatchOf(s: Sub): Batch
  {
    Batch(s.line.sequence, if s.line.generation.Some? then s.line.generation.value else s.selection, s.root,
          s.line.pending, CoverageNow(s))
  }

  /** Tries to send all pending paths; `room` tells whether a connected output queue takes the batch. */
  function Flush(s: Sub, room: bool): Sub
  {
    if s.line.pending == {} then s
    else
      var u := if |s.line.pending| > s.maxBatchPaths then MarkUncertain(s, ConsumerBackpressure) else s;
      var t := u.(line := Cleared(u.line));
      if !s.line.connected then t
      else if room then t.(line := Sent(t.line, BatchOf(u)))
      else MarkUncertain(t, ConsumerBackpressure)
  }

  function FlushIfFull(s: Sub, room: bool): Sub
  {
    if |s.line.pending| >= s.maxBatchPaths && s.barriers == 0 then Flush(s, room) else s
  }

  // ----- notifications -----------------------------------------------------

  datatype Notice = Notice(directory: Path, name: Option<Name>, isDirectory: bool, unmount: bool, selfGone: bool,
                           arrived: bool, left: bool)

  function NoticePath(n: Notice): Path
  {
    if n.name.Some? then n.directory + [n.name.value] else n.directory
  }

  /** While a transaction holds the batches back, what no longer fits becomes uncertainty. */
  function QueueNotice(s: Sub, path: Path): Sub
  {
    if Busy(s) && s.barriers > 0 && |s.line.pending| >= s.maxBatchPaths
       && path !in s.line.pending && [] !in s.line.pending
    then MarkUncertain(s, ConsumerBackpressure)
    else Queue(s, if s.reconciliation.Some? || s.recovery.Some? || s.root.lost then [] else path)
  }

  function Arrival(s: Sub): Sub
  {
    s.(reconciliation := if s.reconciliation.Some? && s.reconciliation.value.phase != WaitingToReconcile
                         then Some(s.reconciliation.value.(phase := Scanning)) else s.reconciliation,
       jobs := s.jobs + 1, barriers := s.barriers + 1)
  }

  function Notified(s: Sub, n: Notice, room: bool): Sub
  {
    var path := NoticePath(n);
    if EventExcludes(s.policy, path, n.isDirectory) then
      if path in s.policy.observed then FlushIfFull(Queue(s, if s.root.lost then [] else path), room) else s
    else if n.unmount then MarkUncertain(s, TopologyRace)
    else Noticed(if n.selfGone && n.directory == [] then MarkRootLost(s, RootSelfEvent) else s, n, room)
  }

  function Noticed(s: Sub, n: Notice, room: bool): Sub
  {
    var q := QueueNotice(s, NoticePath(n));
    if q.root.lost && q.recovery.None? then q else Applied(q, n, room)
  }

  function Applied(s: Sub, n: Notice, room: bool): Sub
  {
    var d := if n.isDirectory && n.left then s.(tree := WithoutSubtree(s.tree, NoticePath(n))) else s;
    FlushIfFull(if n.isDirectory && n.arrived then Arrival(d) else d, room)
  }

  function WatchGone(s: Sub, path: Path, expected: bool): Sub
  {
    var t := s.(tree := s.tree.(watched := s.tree.watched - {path}));
    if path == [] then MarkRootLost(t, RootWatchLoss)
    else if !expected then MarkUncertain(t, TopologyRace) else t
  }

  // ----- exclusion updates -------------------------------------------------

  function Answered(s: Sub, answer: Answer): (t: Sub)
    ensures t == s.(answers := s.answers + [answer])
  {
    s.(answers := s.answers + [answer])
  }

  function Replace(s: Sub, generation: nat, policy: Policy, included: seq<Path>, invalidations: seq<Path>): Sub
  {
    var r := s.(received := s.received + 1);
    if generation <= s.exclusion || s.root.lost || Busy(s) then Answered(r, Refused)
    else r.(update := Some(Update(generation, policy, s.policy, included, invalidations, WaitingToReplace)))
  }

  predicate UpdateReady(s: Sub)
  {
    s.update.Some? && s.update.value.phase == WaitingToReplace && s.jobs == 0 && s.barriers == 0
  }

  function StartUpdate(s: Sub, stable: bool, room: bool): Sub
    requires s.update.Some?
  {
    if !stable then MarkRootLost(s, PathIdentityMismatch)
    else
      var f := Flush(s, room);
      var t := f.(line := if f.line.pending != {} then Cleared(f.line) else f.line,
                  update := Some(s.update.value.(phase := RemovingExcluded)),
                  policy := s.update.value.policy, selection := s.update.value.generation, barriers := 1);
      if f.line.pending != {} then MarkUncertain(t, ConsumerBackpressure) else t
  }

  function IncludeRoots(s: Sub): Sub
    requires s.update.Some?
  {
    var n := |s.update.value.included|;
    s.(update := Some(s.update.value.(phase := ScanningIncluded)), jobs := s.jobs + n, barriers := s.barriers + n)
  }

  predicate UpdateDone(s: Sub)
  {
    s.update.Some? && s.update.value.phase == ScanningIncluded && s.jobs == 0 && s.barriers == 1
  }

  function QueueAll(s: Sub, paths: seq<Path>): (t: Sub)
    ensures t == s.(line := t.line)
    decreases |paths|
  {
    if paths == [] then s else QueueAll(Queue(s, paths[0]), paths[1..])
  }

  function CommitUpdate(s: Sub, stable: bool): Sub
    requires s.update.Some?
  {
    if !stable then MarkRootLost(s, PathIdentityMismatch)
    else
      var u := s.update.value;
      var c := s.(update := None, barriers := if s.barriers == 0 then 0 else s.barriers - 1, exclusion := u.generation,
                  committed := s.policy);
      var q := QueueAll(c, u.included + u.invalidations);
      Answered(q, Replaced(u.generation, CoverageNow(q)))
  }

  // ----- reconciliation ----------------------------------------------------

  function Reconcile(s: Sub): Sub
  {
    var r := s.(received := s.received + 1);
    if Busy(s) || s.root.lost then Answered(r, Refused)
    else r.(reconciliation := Some(Reconciliation(WaitingToReconcile, None, 0)))
  }

  predicate ReconciliationReady(s: Sub)
  {
    s.reconciliation.Some? && s.reconciliation.value.phase == WaitingToReconcile && s.jobs == 0 && s.barriers == 0
  }

  function StartReconciliation(s: Sub, stable: bool, room: bool): Sub
    requires s.reconciliation.Some?
  {
    var f := Flush(s, room);
    var c := f.(line := Cleared(f.line));
    if !stable then MarkRootLost(c, PathIdentityMismatch)
    else c.(reconciliation := Some(Reconciliation(Scanning, c.line.reason, c.line.epoch)), barriers := 2, jobs := c.jobs + 1)
  }

  predicate ScanDone(s: Sub)
  {
    s.reconciliation.Some? && s.reconciliation.value.phase == Scanning && s.jobs == 0 && s.barriers == 1
  }

  predicate Clears(s: Sub)
    requires s.reconciliation.Some?
  {
    && s.line.epoch == s.reconciliation.value.startEpoch
    && s.line.reason == s.reconciliation.value.startReason
    && (s.line.reason.Some? ==> Recoverable(s.line.reason.value))
  }

  function CommitReconciliation(s: Sub, stable: bool, room: bool): Sub
    requires s.reconciliation.Some?
  {
    var lower := if s.barriers == 0 then 0 else s.barriers - 1;
    if !stable then MarkRootLost(s.(barriers := lower), PathIdentityMismatch)
    else
      var clears := Clears(s);
      var c := s.(reconciliation := None, barriers := lower, line := Cleared(s.line));
      var coverage := if clears then CertainCoverage(c.tree) else CoverageNow(c);
      if c.line.connected && room then
        var batch := Batch(c.line.sequence, c.exclusion, c.root, {[]}, coverage);
        var line := Sent(c.line, batch);
        Answered(c.(line := if clears then line.(reason := None) else line), Reconciled(c.exclusion, coverage))
      else
        var m := if s.line.epoch == s.reconciliation.value.startEpoch
                 then c.(line := c.line.(reason := Some(ConsumerBackpressure)))
                 else MarkUncertain(c, ConsumerBackpressure);
        Answered(Queue(m, []), Unsent)
  }

  // ----- root recovery -----------------------------------------------------

  datatype Candidate = Captured(identity: Identity) | NotCaptured(failure: Failure)

  function NotAttached(s: Sub, previous: RootState, candidate: Option<Identity>, failure: Failure): RecoveryResult
  {
    RecoveryResult(false, Some(failure), previous, candidate, s.root, s.exclusion, CoverageNow(s), None)
  }

  function Recover(s: Sub, candidate: Candidate, originalOnly: bool, room: bool): Sub
  {
    var r := s.(received := s.received + 1);
    if Busy(s) || !s.root.lost then Answered(r, Refused)
    else if candidate.NotCaptured? then Answered(r, Recovered(NotAttached(r, s.root, None, candidate.failure)))
    else if originalOnly && candidate.identity != s.root.identity then
      Answered(r, Recovered(NotAttached(r, s.root, Some(candidate.identity), ReplacementNotAccepted)))
    else
      var f := Flush(r, room);
      f.(line := Cleared(f.line), barriers := 1,
         recovery := Some(Recovery(RemovingOld, s.root, candidate.identity, f.line.reason, f.line.epoch, None, false)))
  }

  predicate Removing(s: Sub)
  {
    s.recovery.Some? && (s.recovery.value.phase == RemovingOld || s.recovery.value.phase.Cleaning?)
  }

  predicate Drained(s: Sub)
  {
    Removing(s) && s.tree == NoTree && s.jobs == 0
  }

  function Clean(s: Sub, failure: Failure): (t: Sub)
    requires s.recovery.Some?
    ensures t == s.(recovery := Some(s.recovery.value.(phase := Cleaning(failure))))
  {
    s.(recovery := Some(s.recovery.value.(phase := Cleaning(failure))))
  }

  datatype Opening = Opened | Unavailable(watched: bool) | TurnedUnstable(tree: Tree)

  /** What follows the removal of everything the old root had. */
  function OpenCandidate(s: Sub, stable: bool, opening: Opening, room: bool): Sub
    requires s.recovery.Some?
  {
    if s.recovery.value.unstable || !stable then Clean(s, IdentityUnstable)
    else if TopologyExcludes(s.policy, []) then CommitRecovery(s, room)
    else match opening
      case Opened =>
        s.(tree := s.tree.(watched := {[]}), barriers := 2, jobs := s.jobs + 1,
           recovery := Some(s.recovery.value.(phase := Walking)))
      case Unavailable(watched) =>
        Clean(s.(tree := s.tree.(watched := if watched then {[]} else {})), RootWatchUnavailable)
      case TurnedUnstable(tree) =>
        Clean(MakeUnstable(s.(tree := tree)), IdentityUnstable)
  }

  /** The candidate was seen to change while its interest was added. */
  function MakeUnstable(s: Sub): Sub
    requires s.recovery.Some?
  {
    MarkUncertain(s.(recovery := Some(s.recovery.value.(unstable := true))), TopologyRace)
  }

  predicate WalkDone(s: Sub)
  {
    s.recovery.Some? && s.recovery.value.phase == Walking && s.jobs == 0 && s.barriers == 1
  }

  function ValidateCandidate(s: Sub, stable: bool, room: bool): Sub
    requires s.recovery.Some?
  {
    if s.recovery.value.unstable || !stable then Clean(s.(barriers := 1), IdentityUnstable)
    else CommitRecovery(s, room)
  }

  function ReasonAfterRecovery(s: Sub): Option<Reason>
    requires s.recovery.Some?
  {
    var r := s.recovery.value;
    if r.startReason != Some(RootReplaced) then s.line.reason
    else if r.later.Some? then r.later
    else if s.line.epoch == r.startEpoch then None
    else s.line.reason
  }

  function CommitRecovery(s: Sub, room: bool): Sub
    requires s.recovery.Some?
  {
    var r := s.recovery.value;
    var c := s.(recovery := None, barriers := 0,
                root := RootState(s.root.generation + 1, r.candidate, false, None),
                line := Cleared(s.line).(reason := ReasonAfterRecovery(s)));
    var batch := Batch(c.line.sequence, c.exclusion, c.root, {[]}, CoverageNow(c));
    var sent := c.line.connected && room;
    var t := if sent then c.(line := Sent(c.line, batch)) else MarkUncertain(c, ConsumerBackpressure);
    Answered(t, Recovered(RecoveryResult(true, None, r.previous, Some(r.candidate), t.root, t.exclusion, CoverageNow(t),
                                         if sent then Some(batch.sequence) else None)))
  }

  function FinishFailure(s: Sub): Sub
    requires s.recovery.Some? && s.recovery.value.phase.Cleaning?
  {
    var r := s.recovery.value;
    var t := s.(recovery := None, barriers := 0);
    Answered(t, Recovered(NotAttached(t, r.previous, Some(r.candidate), r.phase.failure)))
  }

  // ----- steps -------------------------------------------------------------

  datatype Step =
    | Disconnect
    | Notify(notice: Notice, room: bool)
    | LoseWatch(path: Path, expected: bool)
    | Doubt(reason: Reason)
    | RootMismatch
    | BoundaryChanged(path: Path)
    | FlushIfDue(full: bool, room: bool)
    | Walk(tree: Tree)
    | FinishJob(promotion: Option<Path>)
    | Promote(path: Path)
    | ReplaceCommand(generation: nat, policy: Policy, included: seq<Path>, invalidations: seq<Path>)
    | UpdateStart(stable: bool, room: bool)
    | RemoveExcluded(tree: Tree)
    | UpdateScan
    | UpdateCommit(stable: bool)
    | ReconcileCommand
    | ReconciliationStart(stable: bool, room: bool)
    | SweepStart
    | Sweep(tree: Tree)
    | ReconciliationCommit(stable: bool, room: bool)
    | RecoverCommand(candidate: Candidate, originalOnly: bool, room: bool)
    | Drain(tree: Tree, jobs: nat)
    | RecoveryOpen(stable: bool, opening: Opening, room: bool)
    | LoseCandidate
    | ForceCleaning
    | RecoveryValidate(stable: bool, room: bool)
    | RecoveryFail

  predicate Shrinks(small: Tree, large: Tree)
  {
    && small.watched <= large.watched && small.promotions <= large.promotions
    && (forall p :: p in small.deferred ==> p in large.deferred && small.deferred[p] == large.deferred[p])
  }

  /** The topology worker runs the jobs of a subscription unless its root is lost and not being recovered. */
  predicate Working(s: Sub)
  {
    s.jobs > 0 && (s.root.lost ==> s.recovery.Some?)
  }

  predicate Enabled(s: Sub, step: Step)
  {
    match step
    case Disconnect => true
    case Notify(_, _) => true
    case LoseWatch(_, _) => true
    case Doubt(reason) => reason.EventOverflow? || reason.TopologyRace?
    case RootMismatch => true
    case BoundaryChanged(path) => path in s.policy.observed
    case FlushIfDue(_, _) => s.barriers == 0
    case Walk(_) => Working(s)
    case FinishJob(_) => Working(s)
    case Promote(_) => !s.root.lost && !Busy(s)
    case ReplaceCommand(_, _, _, _) => true
    case UpdateStart(_, _) => UpdateReady(s)
    case RemoveExcluded(tree) => s.update.Some? && s.update.value.phase == RemovingExcluded && Shrinks(tree, s.tree)
    case UpdateScan => s.update.Some? && s.update.value.phase == RemovingExcluded
    case UpdateCommit(_) => UpdateDone(s)
    case ReconcileCommand => true
    case ReconciliationStart(_, _) => ReconciliationReady(s)
    case SweepStart => ScanDone(s)
    case Sweep(tree) => s.reconciliation.Some? && s.reconciliation.value.phase == Sweeping && Shrinks(tree, s.tree)
    case ReconciliationCommit(_, _) => s.reconciliation.Some? && s.reconciliation.value.phase == Sweeping
    case RecoverCommand(_, _, _) => true
    case Drain(tree, jobs) => Removing(s) && Shrinks(tree, s.tree) && jobs <= s.jobs
    case RecoveryOpen(_, _, _) => Drained(s) && s.recovery.value.phase == RemovingOld
    case LoseCandidate => s.recovery.Some?
    case ForceCleaning => s.recovery.Some? && s.recovery.value.unstable
    case RecoveryValidate(_, _) => WalkDone(s)
    case RecoveryFail => Drained(s) && s.recovery.value.phase.Cleaning?
  }

  function Next(s: Sub, step: Step): Sub
    requires Enabled(s, step)
  {
    match step
    case Disconnect => s.(line := s.line.(connected := false))
    case Notify(notice, room) => Notified(s, notice, room)
    case LoseWatch(path, expected) => WatchGone(s, path, expected)
    case Doubt(reason) => MarkUncertain(s, reason)
    case RootMismatch => MarkRootLost(s, PathIdentityMismatch)
    case BoundaryChanged(path) => Queue(s, if s.root.lost then [] else path)
    case FlushIfDue(elapsed, room) => if elapsed then Flush(s, room) else FlushIfFull(s, room)
    case Walk(tree) => s.(tree := tree)
    case FinishJob(promotion) =>
      s.(jobs := s.jobs - 1, barriers := if s.barriers == 0 then 0 else s.barriers - 1,
         tree := if promotion.None? then s.tree
                 else s.tree.(promotions := s.tree.promotions - {promotion.value}))
    case Promote(path) =>
      var t := s.(tree := s.tree.(watched := s.tree.watched + {path}, deferred := s.tree.deferred - {path},
                                  promotions := s.tree.promotions + {path}),
                  jobs := s.jobs + 1, barriers := s.barriers + 1);
      Queue(t, path)
    case ReplaceCommand(generation, policy, included, invalidations) =>
      Replace(s, generation, policy, included, invalidations)
    case UpdateStart(stable, room) => StartUpdate(s, stable, room)
    case RemoveExcluded(tree) => s.(tree := tree)
    case UpdateScan => IncludeRoots(s)
    case UpdateCommit(stable) => CommitUpdate(s, stable)
    case ReconcileCommand => Reconcile(s)
    case ReconciliationStart(stable, room) => StartReconciliation(s, stable, room)
    case SweepStart => s.(reconciliation := Some(s.reconciliation.value.(phase := Sweeping)))
    case Sweep(tree) => s.(tree := tree)
    case ReconciliationCommit(stable, room) => CommitReconciliation(s, stable, room)
    case RecoverCommand(candidate, originalOnly, room) => Recover(s, candidate, originalOnly, room)
    case Drain(tree, jobs) => s.(tree := tree, jobs := jobs)
    case RecoveryOpen(stable, opening, room) => OpenCandidate(s, stable, opening, room)
    case LoseCandidate => MakeUnstable(s)
    case ForceCleaning => Clean(s.(barriers := 1), IdentityUnstable)
    case RecoveryValidate(stable, room) => ValidateCandidate(s, stable, room)
    case RecoveryFail => FinishFailure(s)
  }
}
