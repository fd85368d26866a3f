// The policy that reconciles automatically: one timer, one attempt or one root
// recovery at a time, a bounded number of attempts a cycle, and a latch that ends it.

module AutomaticReconciliation {
  datatype Option<+T> = None | Some(value: T)

  datatype Reason = ConsumerBackpressure | TopologyRace | EventOverflow | RootReplaced

  function Priority(reason: Reason): nat
  {
    match reason
    case ConsumerBackpressure => 1
    case TopologyRace => 2
    case EventOverflow => 3
    case RootReplaced => 4
  }

  function StrongerReason(current: Reason, candidate: Reason): (r: Reason)
    ensures Priority(r) >= Priority(current) && Priority(r) >= Priority(candidate)
    ensures r == current || r == candidate
  {
    if Priority(candidate) > Priority(current) then candidate else current
  }

  /** Uncertain coverage as observed, with the generation of the root if it was given. */
  datatype Observation = Observation(reason: Reason, generation: Option<nat>)

  /** Of two observations the one of the newer root counts, and of one root the graver. */
  function StrongerObservation(current: Option<Observation>, candidate: Observation): (r: Observation)
    ensures r == candidate || current == Some(r)
    ensures r.generation.Some? && candidate.generation.Some? ==> r.generation.value >= candidate.generation.value
    ensures current.Some? && current.value.generation == candidate.generation ==>
      Priority(r.reason) >= Priority(candidate.reason) && Priority(r.reason) >= Priority(current.value.reason)
  {
    if current.None? then candidate
    else
      var c := current.value;
      if c.generation.Some? && candidate.generation.Some? && candidate.generation.value > c.generation.value then candidate
      else if c.generation.Some? && candidate.generation.Some? && candidate.generation.value < c.generation.value then c
      else if Priority(candidate.reason) > Priority(c.reason) then candidate else c
  }

  datatype Config = Config(maxAttempts: nat, initialDelay: nat, maxDelay: nat)

  predicate Normalized(c: Config)
  {
    1 <= c.maxAttempts <= 16 && 10 <= c.initialDelay <= c.maxDelay <= 60_000
  }

  function Power(n: nat): (p: nat)
    ensures p >= 1
  {
    if n == 0 then 1 else 2 * Power(n - 1)
  }

  /** The delay before the given attempt of a cycle, counted from 1. */
  function Delay(c: Config, attempt: nat): nat
    requires attempt >= 1
  {
    var d := c.initialDelay * Power(attempt - 1);
    if d < c.maxDelay then d else c.maxDelay
  }

  lemma Doubling(initial: nat, n: nat)
    ensures initial <= initial * Power(n) && initial * Power(n + 1) == 2 * (initial * Power(n))
  {
    assert initial * 1 <= initial * Power(n);
  }

  /** Delays double from the first one until they reach the largest. */
  lemma {:induction false} DelaysGrow(c: Config, i: nat, j: nat)
    requires Normalized(c) && 1 <= i <= j
    ensures c.initialDelay <= Delay(c, i) <= Delay(c, j) <= c.maxDelay
    ensures i < j ==> Delay(c, j) == (if 2 * Delay(c, j - 1) < c.maxDelay then 2 * Delay(c, j - 1) else c.maxDelay)
    decreases j
  {
    Doubling(c.initialDelay, i - 1);
    if i < j {
      DelaysGrow(c, i, j - 1);
      Doubling(c.initialDelay, j - 2);
    }
  }

  datatype Lifecycle = Active | Disposing | Disposed

  datatype Status =
    | Idle
    | Scheduled(reason: Reason, attempt: nat, delay: nat)
    | Reconciling(reason: Reason, attempt: nat)
    | Recovered(reason: Reason, attempts: nat)
    | Incomplete(reason: Reason, attempts: nat)
    | Blocked
    | Exhausted(reason: Reason, attempts: nat)
    | RecoveringRoot
    | Closing
    | Closed

  datatype Snapshot = Snapshot(status: Status, latch: bool, cycleActive: bool, attempts: nat, pendingLoss: bool, reason: Option<Reason>)

  datatype State = State(
    config: Config, status: Status, lifecycle: Lifecycle, timer: Option<nat>, attempting: bool,
    recovery: Option<Snapshot>, observed: Option<Observation>, attempts: nat, pendingLoss: bool, reason: Option<Reason>,
    cycleActive: bool, latch: bool,
    // history: the delays before each call of this cycle, and whether the attempt under way heard of a loss
    delays: seq<nat>, heard: bool)

  function Start(config: Config): State
  {
    State(config, Idle, Active, None, false, None, None, 0, false, None, false, false, [], false)
  }

  function ReasonOr(r: Option<Reason>): Reason
  {
    if r.Some? then r.value else RootReplaced
  }

  // ----- reactions ---------------------------------------------------------

  function Exhaust(s: State): State
  {
    s.(latch := true, pendingLoss := false, status := Exhausted(ReasonOr(s.reason), s.attempts))
  }

  function ScheduleAttempt(s: State): State
  {
    if s.lifecycle != Active || s.timer.Some? || s.attempting then s
    else if s.attempts >= s.config.maxAttempts then Exhaust(s)
    else
      var delay := Delay(s.config, s.attempts + 1);
      s.(status := Scheduled(ReasonOr(s.reason), s.attempts + 1, delay), timer := Some(delay))
  }

  function Observe(s: State, o: Observation): State
  {
    if s.lifecycle != Active then s
    else if s.recovery.Some? then s.(observed := Some(StrongerObservation(s.observed, o)))
    else if o.reason == RootReplaced then
      s.(latch := true, pendingLoss := false, reason := Some(RootReplaced), timer := None, status := Blocked, heard := true)
    else if s.latch then s
    else
      var c := if !s.cycleActive then s.(cycleActive := true, attempts := 0, reason := Some(o.reason), delays := [])
               else s.(reason := Some(StrongerReason(ReasonOr(s.reason), o.reason)));
      ScheduleAttempt(c.(pendingLoss := true, heard := true))
  }

  function TimerFires(s: State): State
    requires s.timer.Some?
  {
    var t := s.(timer := None);
    if s.lifecycle != Active then t
    else t.(attempting := true, attempts := s.attempts + 1, pendingLoss := false, heard := false,
            status := Reconciling(ReasonOr(s.reason), s.attempts + 1), delays := s.delays + [s.timer.value])
  }

  datatype Outcome = Complete | StillUncertain(reason: Reason) | StillIncomplete | RootConflict | Retryable | Failed

  function Block(s: State): State
  {
    s.(latch := true, reason := Some(RootReplaced), status := Blocked)
  }

  /** The attempt's promise settles while the policy is active, before its cleanup. */
  function Concluded(s: State, o: Outcome): State
  {
    match o
    case RootConflict => Block(s.(pendingLoss := false))
    case Failed => if s.reason == Some(RootReplaced) then Block(s.(pendingLoss := false)) else Exhaust(s)
    case Retryable =>
      if s.reason == Some(RootReplaced) then Block(s.(pendingLoss := false))
      else if s.attempts >= s.config.maxAttempts then Exhaust(s) else s.(pendingLoss := true)
    case _ =>
      if s.reason == Some(RootReplaced) then s.(status := Blocked)
      else if s.pendingLoss then s
      else match o
        case Complete => s.(cycleActive := false, status := Recovered(ReasonOr(s.reason), s.attempts))
        case StillUncertain(reason) =>
          if reason == RootReplaced then Block(s)
          else s.(reason := Some(StrongerReason(ReasonOr(s.reason), reason)), pendingLoss := true)
        case _ => s.(cycleActive := false, status := Incomplete(ReasonOr(s.reason), s.attempts))
  }

  function Settle(s: State, o: Outcome): State
  {
    var c := (if s.lifecycle == Active then Concluded(s, o) else s).(attempting := false);
    if c.lifecycle == Active && c.pendingLoss && !c.latch then ScheduleAttempt(c) else c
  }

  /** Starts a recovery of the root, or rejects the call. */
  function RecoverRoot(s: State): State
  {
    if s.lifecycle != Active || s.recovery.Some? || s.attempting then s
    else s.(recovery := Some(Snapshot(s.status, s.latch, s.cycleActive, s.attempts, s.pendingLoss, s.reason)),
            timer := None, pendingLoss := false, observed := None, status := RecoveringRoot)
  }

  function BlockedAfterRecovery(s: State): State
  {
    s.(latch := true, cycleActive := false, reason := Some(RootReplaced), status := Blocked)
  }

  function Relevant(observed: Option<Observation>, generation: Option<nat>): Option<Observation>
  {
    if observed.Some? && (observed.value.generation.None? || generation.None?
                          || observed.value.generation.value >= generation.value)
    then observed else None
  }

  function ObserveIf(s: State, o: Option<Observation>): State
  {
    if o.Some? then Observe(s, o.value) else s
  }

  /** A new beginning on an attached root, and what its recovery reported and heard. */
  function Reattached(s: State, coverage: Option<Observation>, relevant: Option<Observation>): State
  {
    ObserveIf(ObserveIf(s.(latch := false, cycleActive := false, attempts := 0, pendingLoss := false, reason := None,
                           status := Idle), coverage), relevant)
  }

  /** The recovery resolved; `coverage` is what it reported, if uncertain. */
  function RecoveryResolves(s: State, attached: bool, generation: Option<nat>, coverage: Option<Observation>): State
    requires s.recovery.Some?
  {
    var r := s.(recovery := None, observed := None);
    var relevant := Relevant(s.observed, generation);
    if s.lifecycle != Active then r
    else if !attached || (relevant.Some? && relevant.value.reason == RootReplaced) then BlockedAfterRecovery(r)
    else Reattached(r, coverage, relevant)
  }

  function Restored(s: State, p: Snapshot): State
  {
    var r := s.(latch := p.latch, cycleActive := p.cycleActive, attempts := p.attempts, pendingLoss := p.pendingLoss,
                reason := p.reason);
    if p.status.Scheduled? && p.pendingLoss then ScheduleAttempt(r.(status := Idle)) else r.(status := p.status)
  }

  function RecoveryRejects(s: State): State
    requires s.recovery.Some?
  {
    var p := s.recovery.value;
    var r := s.(recovery := None, observed := None);
    if s.lifecycle != Active then r
    else if p.status.Blocked? || (s.observed.Some? && s.observed.value.reason == RootReplaced) then BlockedAfterRecovery(r)
    else ObserveIf(Restored(r, p), s.observed)
  }

  function Dispose(s: State): State
  {
    if s.lifecycle != Active then s
    else s.(lifecycle := Disposing, pendingLoss := false, timer := None, status := Closing)
  }

  // ----- steps -------------------------------------------------------------

  datatype Step =
    | ObserveStep(o: Observation)
    | TimerStep
    | SettleStep(outcome: Outcome)
    | RecoverStep
    | ResolveStep(attached: bool, generation: Option<nat>, coverage: Option<Observation>)
    | RejectStep
    | DisposeStep
    | DisposedStep

  predicate Enabled(s: State, step: Step)
  {
    match step
    case TimerStep => s.timer.Some?
    case SettleStep(_) => s.attempting
    case ResolveStep(_, _, _) => s.recovery.Some?
    case RejectStep => s.recovery.Some?
    case DisposedStep => s.lifecycle == Disposing && !s.attempting && s.recovery.None?
    case _ => true
  }

  function Next(s: State, step: Step): State
    requires Enabled(s, step)
  {
    match step
    case ObserveStep(o) => Observe(s, o)
    case TimerStep => TimerFires(s)
    case SettleStep(outcome) => Settle(s, outcome)
    case RecoverStep => RecoverRoot(s)
    case ResolveStep(attached, generation, coverage) => RecoveryResolves(s, attached, generation, coverage)
    case RejectStep => RecoveryRejects(s)
    case DisposeStep => Dispose(s)
    case DisposedStep => s.(lifecycle := Disposed, status := Closed)
  }

  // ----- what every ordering keeps -----------------------------------------

  predicate AtMostOne(s: State)
  {
    !(s.timer.Some? && s.attempting) && !(s.timer.Some? && s.recovery.Some?) && !(s.attempting && s.recovery.Some?)
  }

  /** The calls of a cycle are counted, bounded, and each waited the delay of its place. */
  ghost predicate Budgeted(s: State)
  {
    && s.attempts <= s.config.maxAttempts
    && (s.cycleActive ==> s.reason.Some? && |s.delays| == s.attempts)
    && (forall i :: 0 <= i < |s.delays| ==> s.delays[i] == Delay(s.config, i + 1))
    && |s.delays| <= s.config.maxAttempts
    && (s.timer.Some? ==> s.attempts < s.config.maxAttempts && s.timer.value == Delay(s.config, s.attempts + 1))
    && (s.timer.Some? || (s.attempting && s.lifecycle == Active) ==> s.cycleActive)
  }

  predicate LossCared(s: State)
  {
    && (s.pendingLoss ==> s.lifecycle == Active && (s.timer.Some? || s.attempting))
    && (s.timer.Some? ==> s.pendingLoss && s.lifecycle == Active)
    && (s.latch ==> s.timer.None? && !s.pendingLoss)
    && (s.attempting && s.lifecycle == Active && s.latch ==> s.reason == Some(RootReplaced))
    && (s.lifecycle == Active && s.cycleActive && s.reason == Some(RootReplaced) ==> s.latch)
    && (s.attempting && s.lifecycle == Active ==> (s.heard <==> s.pendingLoss || s.reason == Some(RootReplaced)))
  }

  /** What a status says is so, and what goes on is said. */
  predicate Truthful(s: State)
  {
    && (s.timer.Some? ==> s.status.Scheduled?)
    && (s.lifecycle == Active && s.recovery.Some? ==> s.status.RecoveringRoot?)
    && (s.lifecycle == Active && s.attempting ==> s.status.Reconciling? || s.latch)
    && (s.lifecycle == Active && s.latch && s.recovery.None? ==> s.status.Blocked? || s.status.Exhausted?)
    && StatusHolds(s)
  }

  predicate StatusHolds(s: State)
  {
    match s.status
    case Idle => s.lifecycle == Active && s.timer.None? && !s.attempting && s.recovery.None? && !s.latch
    case Scheduled(_, attempt, delay) =>
      s.lifecycle == Active && s.timer == Some(delay) && attempt == s.attempts + 1
    case Reconciling(_, attempt) => s.lifecycle == Active && s.attempting && attempt == s.attempts && !s.latch
    case Recovered(_, _) => s.lifecycle == Active && !s.cycleActive && s.recovery.None? && !s.latch
    case Incomplete(_, _) => s.lifecycle == Active && !s.cycleActive && s.recovery.None? && !s.latch
    case Blocked => s.lifecycle == Active && s.latch && s.recovery.None?
    case Exhausted(_, _) => s.lifecycle == Active && s.latch && s.recovery.None?
    case RecoveringRoot => s.lifecycle == Active && s.recovery.Some?
    case Closing => s.lifecycle == Disposing
    case Closed => s.lifecycle == Disposed && !s.attempting && s.recovery.None?
  }

  /** A suspended cycle can be taken up again. */
  predicate Restorable(s: State)
  {
    && (s.recovery.None? ==> s.observed.None?)
    && (s.recovery.Some? && s.lifecycle == Active ==>
         var p := s.recovery.value;
         && !s.pendingLoss && !s.status.Scheduled?
         && p.latch == s.latch && p.cycleActive == s.cycleActive && p.attempts == s.attempts && p.reason == s.reason
         && p.attempts <= s.config.maxAttempts && (p.cycleActive ==> p.reason.Some? && |s.delays| == p.attempts)
         && (p.pendingLoss <==> p.status.Scheduled?)
         && (p.pendingLoss ==> p.cycleActive && !p.latch && p.attempts < s.config.maxAttempts)
         && (p.latch ==> p.status.Blocked? || p.status.Exhausted?)
         && (p.cycleActive && p.reason == Some(RootReplaced) ==> p.latch)
         && (p.status.Idle? || p.status.Scheduled? || p.status.Recovered? || p.status.Incomplete? || p.status.Blocked?
             || p.status.Exhausted?)
         && (p.status.Recovered? || p.status.Incomplete? ==> !p.cycleActive)
         && (p.status.Blocked? || p.status.Exhausted? ==> p.latch))
  }

  ghost predicate Inv(s: State)
  {
    Normalized(s.config) && AtMostOne(s) && Budgeted(s) && LossCared(s) && Truthful(s) && Restorable(s)
  }

  lemma ScheduleKeeps(s: State)
    requires Normalized(s.config) && AtMostOne(s) && Restorable(s) && s.recovery.None? && s.lifecycle == Active
    requires Budgeted(s) && s.cycleActive && s.pendingLoss && !s.latch && s.reason != Some(RootReplaced)
    requires s.timer.Some? ==> Truthful(s)
    requires s.attempting ==> Truthful(s) && s.timer.None? && s.heard
    ensures Inv(ScheduleAttempt(s))
  {
  }

  lemma ObserveKeeps(s: State, o: Observation)
    requires Inv(s)
    ensures Inv(Observe(s, o))
  {
  }

  lemma ConcludedKeeps(s: State, o: Outcome)
    requires Inv(s) && s.attempting && s.lifecycle == Active
    ensures var c := Concluded(s, o).(attempting := false);
      && Budgeted(c) && Restorable(c) && c.timer.None? && c.recovery.None? && c.lifecycle == Active
      && (c.latch ==> !c.pendingLoss)
      && (c.pendingLoss ==> c.cycleActive && c.reason != Some(RootReplaced))
      && (!c.pendingLoss ==> Inv(c))
  {
  }

  lemma SettleKeeps(s: State, o: Outcome)
    requires Inv(s) && s.attempting
    ensures Inv(Settle(s, o))
  {
    if s.lifecycle == Active {
      ConcludedKeeps(s, o);
      var c := Concluded(s, o).(attempting := false);
      if c.pendingLoss {
        ScheduleKeeps(c);
      }
    }
  }

  lemma TimerKeeps(s: State)
    requires Inv(s) && s.timer.Some?
    ensures Inv(TimerFires(s))
  {
  }

  lemma RecoverKeeps(s: State)
    requires Inv(s)
    ensures Inv(RecoverRoot(s))
  {
  }

  lemma ObserveIfKeeps(s: State, o: Option<Observation>)
    requires Inv(s)
    ensures Inv(ObserveIf(s, o))
  {
    if o.Some? {
      ObserveKeeps(s, o.value);
    }
  }

  lemma ResolveKeeps(s: State, attached: bool, generation: Option<nat>, coverage: Option<Observation>)
    requires Inv(s) && s.recovery.Some?
    ensures Inv(RecoveryResolves(s, attached, generation, coverage))
  {
    var r := s.(recovery := None, observed := None);
    var relevant := Relevant(s.observed, generation);
    if s.lifecycle == Active && attached && !(relevant.Some? && relevant.value.reason == RootReplaced) {
      var again := r.(latch := false, cycleActive := false, attempts := 0, pendingLoss := false, reason := None,
                      status := Idle);
      assert Inv(again);
      ObserveIfKeeps(again, coverage);
      ObserveIfKeeps(ObserveIf(again, coverage), relevant);
    }
  }

  lemma RestoredKeeps(s: State)
    requires Inv(s) && s.recovery.Some? && s.lifecycle == Active
    ensures Inv(Restored(s.(recovery := None, observed := None), s.recovery.value))
  {
  }

  lemma RejectKeeps(s: State)
    requires Inv(s) && s.recovery.Some?
    ensures Inv(RecoveryRejects(s))
  {
    if s.lifecycle == Active {
      RestoredKeeps(s);
      ObserveIfKeeps(Restored(s.(recovery := None, observed := None), s.recovery.value), s.observed);
    }
  }

  lemma NextKeeps(s: State, step: Step)
    requires Inv(s) && Enabled(s, step)
    ensures Inv(Next(s, step))
  {
    match step {
      case ObserveStep(o) => ObserveKeeps(s, o);
      case TimerStep => TimerKeeps(s);
      case SettleStep(outcome) => SettleKeeps(s, outcome);
      case RecoverStep => RecoverKeeps(s);
      case ResolveStep(attached, generation, coverage) => ResolveKeeps(s, attached, generation, coverage);
      case RejectStep => RejectKeeps(s);
      case DisposeStep =>
      case DisposedStep =>
    }
  }

  // ----- over every ordering -----------------------------------------------

  ghost predicate Run(states: seq<State>, steps: seq<Step>)
  {
    && |states| == |steps| + 1
    && Normalized(states[0].config) && states[0] == Start(states[0].config)
    && forall k :: 0 <= k < |steps| ==> Enabled(states[k], steps[k]) && states[k + 1] == Next(states[k], steps[k])
  }

  lemma {:induction false} PolicyHolds(states: seq<State>, steps: seq<Step>, k: nat)
    requires Run(states, steps) && k < |states|
    ensures Inv(states[k])
    decreases k
  {
    if k > 0 {
      PolicyHolds(states, steps, k - 1);
      NextKeeps(states[k - 1], steps[k - 1]);
    }
  }

  /** One thing at a time, no loss forgotten, no more attempts than allowed, and a latch that stops both timer and loss. */
  lemma EveryOrderingKeeps(states: seq<State>, steps: seq<Step>, k: nat)
    requires Run(states, steps) && k < |states|
    ensures var s := states[k];
      && (s.timer.Some? ==> !s.attempting && s.recovery.None?) && !(s.attempting && s.recovery.Some?)
      && (s.pendingLoss ==> s.lifecycle == Active && (s.timer.Some? || s.attempting))
      && (s.latch ==> s.timer.None? && !s.pendingLoss)
      && s.attempts <= s.config.maxAttempts
      && (s.lifecycle != Active ==> s.timer.None?)
      && (s.lifecycle == Disposed ==> !s.attempting && s.recovery.None?)
  {
    PolicyHolds(states, steps, k);
  }

  /** A complete result is reported only if no loss was heard of since the attempt began. */
  lemma RecoveredHeardNothing(s: State, outcome: Outcome)
    requires Inv(s) && s.attempting && Settle(s, outcome).status.Recovered?
    ensures outcome == Complete && !s.heard && s.lifecycle == Active
  {
  }

  /** A loss that automatic reconciliation can repair is taken up whenever no latch or recovery stands in the way. */
  lemma ObservedLossIsPending(s: State, o: Observation)
    requires Inv(s) && s.lifecycle == Active && s.recovery.None? && !s.latch && o.reason != RootReplaced
    ensures var t := Observe(s, o);
      || (t.pendingLoss && (t.timer.Some? || t.attempting) && t.reason.Some? && Priority(t.reason.value) >= Priority(o.reason))
      || (t.status.Exhausted? && s.attempts == s.config.maxAttempts && s.cycleActive && !s.attempting)
  {
  }

  /** Only a recovery that attaches the root lifts the latch. */
  lemma LatchHolds(s: State, step: Step)
    requires Inv(s) && Enabled(s, step) && s.lifecycle == Active && s.latch
    ensures Next(s, step).latch || (step.ResolveStep? && step.attached)
  {
  }

  // ----- cycles ------------------------------------------------------------

  predicate NoCall(s: State, t: State)
  {
    t.config == s.config && (t.delays == s.delays || t.delays == []) && (t.attempting ==> s.attempting)
  }

  lemma ObserveCalls(s: State, o: Observation)
    ensures var t := Observe(s, o); NoCall(s, t) && (s.cycleActive ==> t.delays == s.delays)
  {
  }

  lemma ResolveCalls(s: State, attached: bool, generation: Option<nat>, coverage: Option<Observation>)
    requires s.recovery.Some?
    ensures NoCall(s, RecoveryResolves(s, attached, generation, coverage))
  {
    var r := s.(recovery := None, observed := None);
    var begun := r.(latch := false, cycleActive := false, attempts := 0, pendingLoss := false, reason := None, status := Idle);
    if coverage.Some? { ObserveCalls(begun, coverage.value); }
    var relevant := Relevant(s.observed, generation);
    if relevant.Some? { ObserveCalls(ObserveIf(begun, coverage), relevant.value); }
  }

  lemma RejectCalls(s: State)
    requires s.recovery.Some? && Restorable(s)
    ensures var t := RecoveryRejects(s); NoCall(s, t) && (s.cycleActive ==> t.delays == s.delays)
  {
    if s.observed.Some? && s.lifecycle == Active {
      ObserveCalls(Restored(s.(recovery := None, observed := None), s.recovery.value), s.observed.value);
    }
  }

  /** The calls of the present cycle grow by one when its timer fires, and are forgotten only for a new cycle. */
  lemma CallsAreCounted(s: State, step: Step)
    requires Inv(s) && Enabled(s, step)
    ensures var t := Next(s, step);
      && t.config == s.config
      && (step.TimerStep? ==> s.lifecycle == Active && t.delays == s.delays + [s.timer.value] && t.attempting)
      && (!step.TimerStep? ==> t.delays == s.delays || (t.delays == [] && (!s.cycleActive || step.ResolveStep?)))
      && (t.attempting && !s.attempting ==> step.TimerStep?)
  {
    match step {
      case ObserveStep(o) => ObserveCalls(s, o);
      case ResolveStep(attached, generation, coverage) => ResolveCalls(s, attached, generation, coverage);
      case RejectStep => RejectCalls(s);
      case _ =>
    }
  }

  function Calls(steps: seq<Step>): nat
  {
    if steps == [] then 0 else (if steps[0].TimerStep? then 1 else 0) + Calls(steps[1..])
  }

  ghost predicate SameCycle(states: seq<State>)
  {
    forall k :: 0 < k < |states| ==> states[k - 1].delays <= states[k].delays
  }

  ghost predicate Segment(states: seq<State>, steps: seq<Step>)
  {
    && |states| == |steps| + 1
    && Inv(states[0])
    && forall k :: 0 <= k < |steps| ==> Enabled(states[k], steps[k]) && states[k + 1] == Next(states[k], steps[k])
  }

  /** A cycle calls for reconciliation at most as often as configured, whatever happens in between. */
  lemma {:induction false} CycleIsBounded(states: seq<State>, steps: seq<Step>)
    requires Segment(states, steps) && SameCycle(states)
    ensures Calls(steps) + |states[0].delays| <= states[0].config.maxAttempts
    decreases |steps|
  {
    if steps != [] {
      assert states[1] == Next(states[0], steps[0]);
      assert states[0].delays <= states[1].delays;
      NextKeeps(states[0], steps[0]);
      CallsAreCounted(states[0], steps[0]);
      CycleIsBounded(states[1..], steps[1..]);
    }
  }

  /** Each call of a cycle waited at least as long as the one before, between the first and the largest delay. */
  lemma CallsBackOff(s: State, i: nat, j: nat)
    requires Inv(s) && i <= j < |s.delays|
    ensures s.config.initialDelay <= s.delays[i] <= s.delays[j] <= s.config.maxDelay
  {
    DelaysGrow(s.config, i + 1, j + 1);
  }

  /** Nothing is reconciled once disposal has begun. */
  lemma {:induction false} NoCallAfterDisposal(states: seq<State>, steps: seq<Step>, i: nat, j: nat)
    requires Run(states, steps) && i <= j < |steps| && states[i].lifecycle != Active
    ensures states[j].lifecycle != Active && !steps[j].TimerStep? && (states[j + 1].attempting ==> states[i].attempting)
    decreases j
  {
    PolicyHolds(states, steps, j);
    if i < j {
      NoCallAfterDisposal(states, steps, i, j - 1);
    }
    CallsAreCounted(states[j], steps[j]);
  }

  // ----- the policy as an object -------------------------------------------

  class Policy {
    const config: Config
    var currentStatus: Status
    var lifecycle: Lifecycle
    var timer: Option<nat>
    var activePromise: bool
    var rootRecovery: Option<Snapshot>
    var rootRecoveryObservation: Option<Observation>
    var attempts: nat
    var pendingLoss: bool
    var cycleReason: Option<Reason>
    var cycleActive: bool
    var terminalLatch: bool
    ghost var delays: seq<nat>
    ghost var heard: bool

    constructor (c: Config)
      requires Normalized(c)
      ensures View() == Start(c)
    {
      config, currentStatus, lifecycle, timer, activePromise := c, Idle, Active, None, false;
      rootRecovery, rootRecoveryObservation, attempts, pendingLoss := None, None, 0, false;
      cycleReason, cycleActive, terminalLatch, delays, heard := None, false, false, [], false;
    }

    ghost function View(): State
      reads this
    {
      State(config, currentStatus, lifecycle, timer, activePromise, rootRecovery, rootRecoveryObservation, attempts,
            pendingLoss, cycleReason, cycleActive, terminalLatch, delays, heard)
    }

    method ExhaustAttempts()
      modifies this
      ensures View() == Exhaust(old(View()))
    {
      terminalLatch, pendingLoss := true, false;
      currentStatus := Exhausted(ReasonOr(cycleReason), attempts);
    }

    method Schedule()
      modifies this
      ensures View() == ScheduleAttempt(old(View()))
    {
      if lifecycle != Active || timer.Some? || activePromise {
        return;
      }
      if attempts >= config.maxAttempts {
        ExhaustAttempts();
        return;
      }
      var attempt := attempts + 1;
      var delay := Delay(config, attempt);
      currentStatus := Scheduled(ReasonOr(cycleReason), attempt, delay);
      timer := Some(delay);
    }

    method ObserveCoverage(o: Observation)
      modifies this
      ensures View() == Observe(old(View()), o)
    {
      if lifecycle != Active {
        return;
      }
      if rootRecovery.Some? {
        rootRecoveryObservation := Some(StrongerObservation(rootRecoveryObservation, o));
        return;
      }
      if o.reason == RootReplaced {
        terminalLatch, pendingLoss, cycleReason := true, false, Some(RootReplaced);
        timer, currentStatus, heard := None, Blocked, true;
        return;
      }
      if terminalLatch {
        return;
      }
      TakeUp(o);
      Schedule();
    }

    /** The loss begins a cycle, or joins the one under way. */
    method TakeUp(o: Observation)
      modifies this
      ensures var s := old(View());
        var c := if !s.cycleActive then s.(cycleActive := true, attempts := 0, reason := Some(o.reason), delays := [])
                 else s.(reason := Some(StrongerReason(ReasonOr(s.reason), o.reason)));
        View() == c.(pendingLoss := true, heard := true)
    {
      if !cycleActive {
        cycleActive, attempts, cycleReason, delays := true, 0, Some(o.reason), [];
      } else {
        cycleReason := Some(StrongerReason(ReasonOr(cycleReason), o.reason));
      }
      pendingLoss, heard := true, true;
    }

    method OnTimer()
      requires timer.Some?
      modifies this
      ensures View() == TimerFires(old(View()))
    {
      ghost var delay := timer.value;
      timer := None;
      if lifecycle != Active {
        return;
      }
      activePromise := true;
      attempts := attempts + 1;
      pendingLoss, heard, delays := false, false, delays + [delay];
      currentStatus := Reconciling(ReasonOr(cycleReason), attempts);
    }

    method BlockOnRoot()
      modifies this
      ensures View() == Block(old(View()))
    {
      terminalLatch, cycleReason, currentStatus := true, Some(RootReplaced), Blocked;
    }

    method ConcludeError(o: Outcome)
      requires o.RootConflict? || o.Retryable? || o.Failed?
      modifies this
      ensures View() == Concluded(old(View()), o)
    {
      if cycleReason == Some(RootReplaced) || o.RootConflict? {
        pendingLoss := false;
        BlockOnRoot();
        return;
      }
      if o.Failed? {
        ExhaustAttempts();
        return;
      }
      pendingLoss := true;
      if attempts >= config.maxAttempts {
        ExhaustAttempts();
      }
    }

    method ConcludeResult(o: Outcome)
      requires o.Complete? || o.StillUncertain? || o.StillIncomplete?
      modifies this
      ensures View() == Concluded(old(View()), o)
    {
      if cycleReason == Some(RootReplaced) {
        currentStatus := Blocked;
        return;
      }
      if pendingLoss {
        return;
      }
      match o {
        case Complete =>
          cycleActive, currentStatus := false, Recovered(ReasonOr(cycleReason), attempts);
        case StillUncertain(reason) =>
          if reason == RootReplaced {
            BlockOnRoot();
          } else {
            cycleReason := Some(StrongerReason(ReasonOr(cycleReason), reason));
            pendingLoss := true;
          }
        case StillIncomplete =>
          cycleActive, currentStatus := false, Incomplete(ReasonOr(cycleReason), attempts);
      }
    }

    method OnSettled(o: Outcome)
      requires activePromise
      modifies this
      ensures View() == Settle(old(View()), o)
    {
      if lifecycle == Active {
        if o.RootConflict? || o.Retryable? || o.Failed? {
          ConcludeError(o);
        } else {
          ConcludeResult(o);
        }
      }
      activePromise := false;
      if lifecycle == Active && pendingLoss && !terminalLatch {
        Schedule();
      }
    }

    method StartRootRecovery() returns (accepted: bool)
      modifies this
      ensures View() == RecoverRoot(old(View()))
      ensures accepted == (old(lifecycle) == Active && old(rootRecovery).None? && !old(activePromise))
    {
      if lifecycle != Active || rootRecovery.Some? || activePromise {
        return false;
      }
      rootRecovery := Some(Snapshot(currentStatus, terminalLatch, cycleActive, attempts, pendingLoss, cycleReason));
      timer, pendingLoss, rootRecoveryObservation, currentStatus := None, false, None, RecoveringRoot;
      return true;
    }

    method BlockAfterRecovery()
      modifies this
      ensures View() == BlockedAfterRecovery(old(View()))
    {
      terminalLatch, cycleActive, cycleReason, currentStatus := true, false, Some(RootReplaced), Blocked;
    }

    method ObserveAgain(o: Option<Observation>)
      modifies this
      ensures View() == ObserveIf(old(View()), o)
    {
      if o.Some? {
        ObserveCoverage(o.value);
      }
    }

    method OnRecoveryResolved(attached: bool, generation: Option<nat>, coverage: Option<Observation>)
      requires rootRecovery.Some?
      modifies this
      ensures View() == RecoveryResolves(old(View()), attached, generation, coverage)
    {
      var relevant := Relevant(rootRecoveryObservation, generation);
      rootRecovery, rootRecoveryObservation := None, None;
      if lifecycle != Active {
        return;
      }
      if !attached || (relevant.Some? && relevant.value.reason == RootReplaced) {
        BlockAfterRecovery();
        return;
      }
      Reattach(coverage, relevant);
    }

    method Reattach(coverage: Option<Observation>, relevant: Option<Observation>)
      modifies this
      ensures View() == Reattached(old(View()), coverage, relevant)
    {
      StartAfresh();
      ObserveAgain(coverage);
      ObserveAgain(relevant);
    }

    method StartAfresh()
      modifies this
      ensures View() == old(View()).(latch := false, cycleActive := false, attempts := 0, pendingLoss := false,
                                     reason := None, status := Idle)
    {
      terminalLatch, cycleActive, attempts, pendingLoss, cycleReason := false, false, 0, false, None;
      currentStatus := Idle;
    }

    method OnRecoveryRejected()
      requires rootRecovery.Some?
      modifies this
      ensures View() == RecoveryRejects(old(View()))
    {
      var previous, observed := rootRecovery.value, rootRecoveryObservation;
      rootRecovery, rootRecoveryObservation := None, None;
      if lifecycle != Active {
        return;
      }
      if previous.status.Blocked? || (observed.Some? && observed.value.reason == RootReplaced) {
        BlockAfterRecovery();
        return;
      }
      Restore(previous);
      ObserveAgain(observed);
    }

    method Restore(previous: Snapshot)
      modifies this
      ensures View() == Restored(old(View()), previous)
    {
      terminalLatch, cycleActive, attempts := previous.latch, previous.cycleActive, previous.attempts;
      pendingLoss, cycleReason := previous.pendingLoss, previous.reason;
      if previous.status.Scheduled? && pendingLoss {
        currentStatus := Idle;
        Schedule();
      } else {
        currentStatus := previous.status;
      }
    }

    method BeginDisposal()
      modifies this
      ensures View() == Dispose(old(View()))
    {
      if lifecycle != Active {
        return;
      }
      lifecycle, pendingLoss, timer, currentStatus := Disposing, false, None, Closing;
    }
  }
}
