// What the policy does about what it hears, about the end of an attempt and about the
// end of a root recovery: never less, and never more, than another attempt calls for.

module AutomaticEffects {
  import opened AutomaticReconciliation

  /** The next attempt of the cycle has its timer, or there is none left and the latch ends the cycle. */
  predicate TriesAgain(s: State, t: State)
  {
    if s.attempts < s.config.maxAttempts then
      && t.timer == Some(Delay(s.config, s.attempts + 1)) && t.pendingLoss && t.cycleActive && !t.latch
      && t.status.Scheduled? && t.status.attempt == s.attempts + 1 && t.status.delay == Delay(s.config, s.attempts + 1)
    else
      t.timer.None? && t.latch && t.status == Exhausted(ReasonOr(t.reason), s.attempts)
  }

  predicate GivesUp(t: State)
  {
    t.timer.None? && !t.pendingLoss && t.latch
  }

  predicate RootGone(t: State)
  {
    GivesUp(t) && t.status == Blocked && t.reason == Some(RootReplaced)
  }

  predicate EndsCycle(t: State)
  {
    t.timer.None? && !t.pendingLoss && !t.cycleActive && !t.latch
  }

  /** The result leaves a loss to repair: one heard of meanwhile, one reported, or the attempt can be repeated. */
  predicate LeavesLoss(s: State, o: Outcome)
  {
    match o
    case Complete => s.heard
    case StillIncomplete => s.heard
    case StillUncertain(reason) => s.heard || reason != RootReplaced
    case Retryable => true
    case RootConflict => false
    case Failed => false
  }

  /**
   * The end of an attempt: blocked if the root is gone, another attempt if a loss is left, the latch after a failure that
   * cannot be repeated, and otherwise the end of the cycle.
   */
  lemma SettlesExactly(s: State, o: Outcome)
    requires Inv(s) && s.attempting && s.lifecycle == Active
    ensures var t := Settle(s, o);
      && !t.attempting && t.attempts == s.attempts && t.config == s.config && t.lifecycle == Active
      && (if s.reason == Some(RootReplaced) || o.RootConflict? || (o == StillUncertain(RootReplaced) && !s.heard) then RootGone(t)
          else if LeavesLoss(s, o) then TriesAgain(s, t) && (t.status.Scheduled? ==> t.status.reason == ReasonOr(t.reason))
          else if o.Failed? then GivesUp(t) && t.status == Exhausted(ReasonOr(s.reason), s.attempts)
          else EndsCycle(t))
  {
  }

  /** Recovery is reported exactly after a complete result while nothing was heard, and so is incompleteness. */
  lemma ReportsExactly(s: State, o: Outcome)
    requires Inv(s) && s.attempting && s.lifecycle == Active
    ensures var t := Settle(s, o);
      && (t.status.Recovered? <==> o.Complete? && !s.heard)
      && (t.status.Incomplete? <==> o.StillIncomplete? && !s.heard)
  {
  }

  /** The reason of a cycle is the gravest it has heard of. */
  lemma ReasonIsTheGravest(s: State, o: Outcome)
    requires Inv(s) && s.attempting && s.lifecycle == Active && s.reason.Some?
    ensures var t := Settle(s, o);
      && t.reason.Some? && Priority(t.reason.value) >= Priority(s.reason.value)
      && (o.StillUncertain? && !s.heard ==> Priority(t.reason.value) >= Priority(o.reason))
      && (t.reason == s.reason || t.reason == Some(RootReplaced) || (o.StillUncertain? && t.reason == Some(o.reason)))
  {
  }

  /** Uncertain coverage begins a cycle, joins the one under way, is kept for a recovery to end, or changes nothing. */
  lemma ObservesExactly(s: State, o: Observation)
    requires Inv(s)
    ensures var t := Observe(s, o);
      && (s.lifecycle != Active ==> t == s)
      && (s.lifecycle == Active && s.recovery.Some? ==>
           t == s.(observed := t.observed) && t.observed == Some(StrongerObservation(s.observed, o)))
      && (s.lifecycle == Active && s.recovery.None? && o.reason == RootReplaced ==> RootGone(t) && t.attempting == s.attempting)
      && (s.lifecycle == Active && s.recovery.None? && o.reason != RootReplaced && s.latch ==> t == s)
  {
  }

  lemma LossBegins(s: State, o: Observation)
    requires Inv(s) && s.lifecycle == Active && s.recovery.None? && !s.latch && o.reason != RootReplaced
    ensures var t := Observe(s, o);
      && (!s.cycleActive ==> t.reason == Some(o.reason) && TriesAgain(s.(attempts := 0), t) && t.status.reason == o.reason)
      && (s.cycleActive && s.timer.Some? ==> t.timer == s.timer && t.status == s.status && t.pendingLoss)
      && (s.attempting ==> t.attempting && t.heard && t.pendingLoss && t.timer.None? && t.attempts == s.attempts)
      && (s.cycleActive ==> t.reason.Some? && s.reason.Some? && t.reason.value == StrongerReason(s.reason.value, o.reason))
  {
  }

  /** A root recovery is taken up exactly while nothing else is under way, and stops the timer. */
  lemma RecoversExactly(s: State)
    requires Inv(s) && s.recovery.None?
    ensures var t := Next(s, RecoverStep);
      if s.lifecycle == Active && !s.attempting then t.recovery.Some? && t.timer.None? && t.status == RecoveringRoot
      else t == s
  {
  }

  /**
   * A rejected recovery that heard nothing leaves everything as it was; a scheduled attempt only names the present reason,
   * and the policy stays blocked if it was.
   */
  lemma RejectionRestores(s: State)
    requires Inv(s) && s.lifecycle == Active && !s.attempting && s.recovery.None?
    ensures var t := Next(Next(s, RecoverStep), RejectStep);
      if s.status.Blocked? then RootGone(t) && t.recovery.None?
      else t == s.(status := t.status)
           && t.status == if s.status.Scheduled? then Scheduled(ReasonOr(s.reason), s.status.attempt, s.status.delay)
                          else s.status
  {
  }

  /** What a rejected recovery heard of is acted on as if it was heard only now. */
  lemma RejectionObserves(s: State)
    requires Inv(s) && s.lifecycle == Active && s.recovery.Some? && s.observed.Some?
    ensures var t := Next(s, RejectStep);
      && t.recovery.None? && t.observed.None?
      && (s.recovery.value.status.Blocked? || s.observed.value.reason == RootReplaced ==> RootGone(t))
      && (!s.recovery.value.status.Blocked? && s.observed.value.reason != RootReplaced ==>
           t == Next(Next(s.(observed := None), RejectStep), ObserveStep(s.observed.value)))
  {
  }

  /** A recovery that attached the root begins afresh, with what it reported or heard of the new root as the first loss. */
  lemma ResolvesExactly(s: State, attached: bool, generation: Option<nat>, coverage: Option<Observation>)
    requires Inv(s) && s.lifecycle == Active && s.recovery.Some?
    ensures var t := Next(s, ResolveStep(attached, generation, coverage));
      && t.recovery.None? && t.observed.None?
      && (!attached ==> RootGone(t))
      && (attached && s.observed.None? && coverage.None? ==> EndsCycle(t) && t.status == Idle && t.attempts == 0)
      && (attached && s.observed.None? && coverage.Some? && coverage.value.reason != RootReplaced ==>
           TriesAgain(s.(attempts := 0), t) && t.reason == Some(coverage.value.reason))
  {
  }

  predicate Older(o: Observation, generation: Option<nat>)
  {
    o.generation.Some? && generation.Some? && o.generation.value < generation.value
  }

  /** What was heard of an older root is dropped; of the new one it counts beside what the recovery reported. */
  lemma ResolutionObserves(s: State, generation: Option<nat>, coverage: Option<Observation>)
    requires Inv(s) && s.lifecycle == Active && s.recovery.Some? && s.observed.Some?
    requires coverage.Some? ==> coverage.value.reason != RootReplaced
    ensures var t, o := Next(s, ResolveStep(true, generation, coverage)), s.observed.value;
      && (Older(o, generation) ==> t == Next(s.(observed := None), ResolveStep(true, generation, coverage)))
      && (!Older(o, generation) && o.reason == RootReplaced ==> RootGone(t))
      && (!Older(o, generation) && o.reason != RootReplaced ==>
           && TriesAgain(s.(attempts := 0), t) && t.reason.Some? && Priority(t.reason.value) >= Priority(o.reason)
           && (coverage.Some? ==> Priority(t.reason.value) >= Priority(coverage.value.reason)))
  {
  }

  /** Disposal cancels the timer for good; what is under way may end. */
  lemma DisposesExactly(s: State)
    requires Inv(s)
    ensures var t := Next(s, DisposeStep);
      && t.lifecycle != Active && t.timer.None? && !t.pendingLoss
      && t.attempting == s.attempting && t.recovery == s.recovery
      && (s.lifecycle == Active ==> t.status == Closing)
  {
  }
}
