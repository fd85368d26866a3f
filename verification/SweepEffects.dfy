// How a reconciliation gets to its end: the sweep takes one item or one phase at a time
// and is over after as many as there are, and what its jobs come across is noted.

module SweepEffects {
  import FairQueue
  import opened ReconciliationSweep

  /** The rounds of the sweep to come: every item of the phases left, and the move out of each. */
  function RoundsLeft(s: State): nat
    requires s.transaction.Some?
  {
    var t := s.transaction.value;
    match t.phase
    case SweepingWatched => |Beyond(s.watched, t.sweepAfter)| + |s.deferred| + |s.order| + |s.promotions| + 4
    case SweepingDeferred => |Beyond(s.deferred, t.sweepAfter)| + |s.order| + |s.promotions| + 3
    case SweepingDeferredOrder => |s.order| + |s.promotions| + 2
    case SweepingPromotions => |Beyond(s.promotions, t.sweepAfter)| + 1
    case _ => 0
  }

  lemma BeyondLess(s: set<Place>, after: Option<Place>, left: set<Place>)
    requires Beyond(s, after) != {}
    requires left == s || left == s - {FairQueue.Least(Beyond(s, after))}
    ensures |Beyond(left, Some(FairQueue.Least(Beyond(s, after))))| + 1 == |Beyond(s, after)|
  {
    var p := FairQueue.Least(Beyond(s, after));
    assert Beyond(left, Some(p)) == Beyond(s, after) - {p};
  }

  lemma BeyondNone(s: set<Place>)
    ensures Beyond(s, None) == s
  {
  }

  /** A round of the sweep is one item or one phase nearer to its end, which it reaches exactly when none is left. */
  lemma SweepAdvances(s: State)
    requires Enabled(s, SweepStep) && !s.transaction.value.phase.Committing?
    ensures var v := Next(s, SweepStep);
      && v.transaction.Some? && InSweep(v.transaction.value.phase) && RoundsLeft(v) + 1 == RoundsLeft(s)
      && (v.transaction.value.phase.Committing? <==> RoundsLeft(v) == 0)
      && v.jobs == s.jobs && v.attached == s.attached
  {
    var t := s.transaction.value;
    BeyondNone(s.deferred);
    BeyondNone(s.promotions);
    if t.phase.SweepingDeferredOrder? {
      OrderAdvances(s);
    } else {
      var swept := if t.phase.SweepingWatched? then s.watched else if t.phase.SweepingDeferred? then s.deferred else s.promotions;
      if Beyond(swept, t.sweepAfter) != {} {
        var p := FairQueue.Least(Beyond(swept, t.sweepAfter));
        BeyondLess(swept, t.sweepAfter, if p in t.encountered then swept else swept - {p});
      }
    }
  }

  lemma OrderAdvances(s: State)
    requires Enabled(s, SweepStep) && s.transaction.value.phase.SweepingDeferredOrder?
    ensures var v := SweepOne(s);
      && v.transaction.Some? && InSweep(v.transaction.value.phase) && RoundsLeft(v) + 1 == RoundsLeft(s)
      && !v.transaction.value.phase.Committing? && RoundsLeft(v) > 0 && v.jobs == s.jobs && v.attached == s.attached
  {
    BeyondNone(s.promotions);
  }

  /** Uninterrupted, the sweep is over after exactly as many rounds as were left when it began. */
  lemma {:induction false} SweepEnds(s: State, n: nat)
    requires s.transaction.Some? && InSweep(s.transaction.value.phase) && n <= RoundsLeft(s)
    ensures var v := AfterRounds(s, n);
      && v.transaction.Some? && InSweep(v.transaction.value.phase) && RoundsLeft(v) == RoundsLeft(s) - n
      && (v.transaction.value.phase.Committing? <==> n == RoundsLeft(s))
    decreases n
  {
    if n > 0 {
      SweepEnds(s, n - 1);
      SweepAdvances(AfterRounds(s, n - 1));
    }
  }

  /** `n` rounds of the sweep with nothing between them. */
  function AfterRounds(s: State, n: nat): State
    requires s.transaction.Some? && InSweep(s.transaction.value.phase)
    ensures AfterRounds(s, n).transaction.Some? && InSweep(AfterRounds(s, n).transaction.value.phase)
  {
    if n == 0 then s else SweepOne(AfterRounds(s, n - 1))
  }

  // ----- what is taken note of ---------------------------------------------

  /** A transaction takes note of exactly what its own jobs watch or defer, from its command to its end. */
  lemma NotedExactly(s: State, step: Step, p: Place)
    requires Enabled(s, step) && s.transaction.Some? && Next(s, step).transaction.Some?
    ensures p in Encountered(Next(s, step)) <==>
      p in Encountered(s) || ((step == WatchFound(p, true) || step == DeferFound(p, true)))
  {
  }

  /** A transaction begins having noted nothing, and leaves its sweep only to commit, for an arrival or for a lost root. */
  lemma PhasesFollow(s: State, step: Step)
    requires Enabled(s, step) && Inv(s)
    ensures var v := Next(s, step);
      && (step.Command? ==> v.transaction == Some(Transaction(Waiting, {}, None, [])))
      && (step.Start? ==> v.jobs == 1 && v.transaction == Some(s.transaction.value.(phase := Scanning)))
      && (step.ScanDone? ==> v.transaction.Some? && v.transaction.value.phase.SweepingWatched? && v.transaction.value.sweepAfter.None?)
      && (step.Arrive? && UnderWay(s) ==> v.transaction.Some? && v.transaction.value.phase.Scanning? && v.jobs == s.jobs + 1)
      && (step.Commit? || step.LoseRoot? ==> v.transaction.None?)
      && (s.transaction.Some? && InSweep(s.transaction.value.phase) ==>
           step.SweepStep? || step.Forget? || step.Commit? || step.Arrive? || step.LoseRoot?
           || v.transaction == s.transaction)
  {
  }

  // ----- what is watched and deferred --------------------------------------

  ghost predicate Watches(step: Step, p: Place)
  {
    step == WatchFound(p, true) || step == WatchFound(p, false) || step == Promote(p)
  }

  predicate Postpones(step: Step, p: Place)
  {
    step == DeferFound(p, true) || step == DeferFound(p, false) || step == DeferAtLimit(p) || step == DeferEntry(p)
  }

  /** The round of the sweep meets the place, which was not noted. */
  predicate Meets(s: State, phase: Phase, places: set<Place>, p: Place)
  {
    && s.transaction.Some? && s.transaction.value.phase == phase && p !in s.transaction.value.encountered
    && Beyond(places, s.transaction.value.sweepAfter) != {} && p == FairQueue.Least(Beyond(places, s.transaction.value.sweepAfter))
  }

  /** What is watched, deferred or promoted changes by exactly the step that names it. */
  lemma PlacesExactly(s: State, step: Step, p: Place)
    requires Enabled(s, step) && step != RecoverRoot
    ensures var v := Next(s, step);
      && (p in v.watched <==>
           || Watches(step, p)
           || (p in s.watched && !(step.Forget? && p in step.gone) && !(step.SweepStep? && Meets(s, SweepingWatched, s.watched, p))))
      && (p in v.deferred <==>
           || Postpones(step, p)
           || (p in s.deferred && !Watches(step, p) && !(step.Forget? && p in step.gone)
               && !(step.SweepStep? && Meets(s, SweepingDeferred, s.deferred, p))
               && !(step.Inspect? && step.excluded && p == s.order[0])))
      && (p in v.promotions <==>
           || step == Promote(p)
           || (p in s.promotions && !(step.Forget? && p in step.gone)
               && !(step.SweepStep? && Meets(s, SweepingPromotions, s.promotions, p))))
  {
    match step {
      case SweepStep => SweptPlaces(s, p);
      case _ =>
    }
  }

  lemma SweptPlaces(s: State, p: Place)
    requires Enabled(s, SweepStep)
    ensures var v := SweepOne(s);
      && (p in v.watched <==> p in s.watched && !Meets(s, SweepingWatched, s.watched, p))
      && (p in v.deferred <==> p in s.deferred && !Meets(s, SweepingDeferred, s.deferred, p))
      && (p in v.promotions <==> p in s.promotions && !Meets(s, SweepingPromotions, s.promotions, p))
  {
  }
}
