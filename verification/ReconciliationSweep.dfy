// The sweep that ends a reconciliation: whatever its scan did not come across goes, and
// the queue of deferred directories is rebuilt, a bounded number of items a turn.

module ReconciliationSweep {
  import opened FairQueue

  datatype Option<+T> = None | Some(value: T)

  /** A path, by its place in the order of paths. */
  type Place = Id

  const MAX_TOPOLOGY_DIRECTORIES_PER_TURN: nat := 64

  datatype Phase =
    | Waiting | Scanning | SweepingWatched | SweepingDeferred | SweepingDeferredOrder | SweepingPromotions | Committing

  predicate InSweep(p: Phase)
  {
    !p.Waiting? && !p.Scanning?
  }

  datatype Transaction = Transaction(phase: Phase, encountered: set<Place>, sweepAfter: Option<Place>, rebuilt: seq<Place>)

  datatype State = State(attached: bool, jobs: nat, watched: set<Place>, deferred: set<Place>, order: seq<Place>,
                         promotions: set<Place>, transaction: Option<Transaction>)

  function Beyond(s: set<Place>, after: Option<Place>): set<Place>
  {
    set p | p in s && (after.Some? ==> after.value < p)
  }

  function Moved(s: State, t: Transaction): State
  {
    s.(transaction := Some(t))
  }

  function ToPhase(s: State, t: Transaction, phase: Phase): State
  {
    Moved(s, t.(phase := phase, sweepAfter := None))
  }

  /** One item of the sweep, or the move to its next phase. */
  function SweepOne(s: State): State
    requires s.transaction.Some? && InSweep(s.transaction.value.phase)
  {
    var t := s.transaction.value;
    match t.phase
    case SweepingWatched =>
      var rest := Beyond(s.watched, t.sweepAfter);
      if rest == {} then ToPhase(s, t, SweepingDeferred)
      else
        var p := Least(rest);
        Moved(if p in t.encountered then s else s.(watched := s.watched - {p}), t.(sweepAfter := Some(p)))
    case SweepingDeferred =>
      var rest := Beyond(s.deferred, t.sweepAfter);
      if rest == {} then ToPhase(s, t, SweepingDeferredOrder)
      else
        var p := Least(rest);
        Moved(if p in t.encountered then s else s.(deferred := s.deferred - {p}), t.(sweepAfter := Some(p)))
    case SweepingDeferredOrder =>
      if s.order == [] then ToPhase(s.(order := t.rebuilt), t.(rebuilt := []), SweepingPromotions)
      else
        Moved(s.(order := s.order[1..]),
              if s.order[0] in s.deferred then t.(rebuilt := t.rebuilt + [s.order[0]]) else t)
    case SweepingPromotions =>
      var rest := Beyond(s.promotions, t.sweepAfter);
      if rest == {} then ToPhase(s, t, Committing)
      else
        var p := Least(rest);
        Moved(if p in t.encountered then s else s.(promotions := s.promotions - {p}), t.(sweepAfter := Some(p)))
    case Committing => s
  }

  function Defer(s: State, p: Place): State
  {
    s.(deferred := s.deferred + {p}, order := if p in s.deferred then s.order else s.order + [p])
  }

  /** Taken note of by the transaction, if there is one and the job is its own. */
  function Encounter(s: State, p: Place, own: bool): State
  {
    if s.transaction.None? || !own then s
    else Moved(s, s.transaction.value.(encountered := s.transaction.value.encountered + {p}))
  }

  function Remaining(order: seq<Place>, gone: set<Place>): (r: seq<Place>)
    ensures forall p :: p in r <==> p in order && p !in gone
  {
    if order == [] then []
    else (if order[0] in gone then [] else [order[0]]) + Remaining(order[1..], gone)
  }

  /** One inspection of the rotating queue of deferred directories. */
  function Rotate(s: State, excluded: bool): State
    requires s.order != []
  {
    var p, rest := s.order[0], s.order[1..];
    if excluded then s.(order := rest, deferred := s.deferred - {p})
    else if p !in s.deferred then s.(order := rest)
    else s.(order := rest + [p])
  }

  datatype Step =
    | Command
    | Start
    | WatchFound(p: Place, own: bool)
    | DeferFound(p: Place, own: bool)
    | DeferAtLimit(p: Place)
    | DeferEntry(p: Place)
    | Arrive
    | FinishJob
    | ScanDone
    | SweepStep
    | Forget(gone: set<Place>)
    | Promote(p: Place)
    | Inspect(excluded: bool)
    | Commit
    | LoseRoot
    | RecoverRoot

  /** Once its scan has begun every job belongs to the transaction. */
  predicate UnderWay(s: State)
  {
    s.transaction.Some? && !s.transaction.value.phase.Waiting?
  }

  predicate Enabled(s: State, step: Step)
  {
    match step
    case Command => s.attached && s.transaction.None?
    case Start => s.transaction.Some? && s.transaction.value.phase.Waiting? && s.jobs == 0
    case WatchFound(_, own) => s.attached && s.jobs > 0 && (UnderWay(s) ==> own)
    case DeferFound(_, own) => s.attached && s.jobs > 0 && (UnderWay(s) ==> own)
    case DeferAtLimit(_) => s.attached && s.jobs > 0
    case DeferEntry(p) => s.attached && s.jobs > 0 && (UnderWay(s) ==> p in s.transaction.value.encountered)
    case Arrive => s.attached
    case FinishJob => s.jobs > 0
    case ScanDone => s.transaction.Some? && s.transaction.value.phase.Scanning? && s.jobs == 0
    case SweepStep => s.transaction.Some? && InSweep(s.transaction.value.phase)
    case Promote(_) => s.attached && s.transaction.None?
    case Inspect(_) => s.attached && s.transaction.None? && s.order != []
    case Commit => s.transaction.Some? && s.transaction.value.phase.Committing?
    case RecoverRoot => !s.attached
    case _ => true
  }

  function Next(s: State, step: Step): State
    requires Enabled(s, step)
  {
    match step
    case Command => s.(transaction := Some(Transaction(Waiting, {}, None, [])))
    // what it took note of while it waited stays
    case Start => Moved(s, s.transaction.value.(phase := Scanning)).(jobs := 1)
    case WatchFound(p, own) => Encounter(s.(watched := s.watched + {p}, deferred := s.deferred - {p}), p, own)
    case DeferFound(p, own) => Encounter(Defer(s, p), p, own)
    // the watch limit was met and the directory could not be examined: deferred, but not noted as encountered
    case DeferAtLimit(p) => Defer(s, p)
    case DeferEntry(p) => Defer(s, p)
    case Arrive =>
      s.(jobs := s.jobs + 1,
         transaction := if !UnderWay(s) then s.transaction
                        else Some(s.transaction.value.(phase := Scanning, sweepAfter := None)))
    case FinishJob => s.(jobs := s.jobs - 1)
    case ScanDone => Moved(s, s.transaction.value.(phase := SweepingWatched, sweepAfter := None))
    case SweepStep => SweepOne(s)
    case Forget(gone) =>
      s.(watched := s.watched - gone, deferred := s.deferred - gone, promotions := s.promotions - gone,
         order := Remaining(s.order, gone))
    case Promote(p) => s.(watched := s.watched + {p}, deferred := s.deferred - {p}, promotions := s.promotions + {p},
                          jobs := s.jobs + 1)
    case Inspect(excluded) => Rotate(s, excluded)
    case Commit => s.(transaction := None)
    case LoseRoot => s.(attached := false, transaction := None)
    case RecoverRoot => State(true, 1, {}, {}, [], {}, None)
  }

  // ----- what the sweep leaves ---------------------------------------------

  predicate SweptUpTo(s: set<Place>, t: Transaction)
  {
    forall p | p in s :: (t.sweepAfter.Some? && p <= t.sweepAfter.value) ==> p in t.encountered
  }

  /** What earlier phases swept has been encountered, and a sweep has no job outstanding. */
  predicate Swept(s: State)
  {
    s.transaction.Some? ==>
      var t := s.transaction.value;
      && (InSweep(t.phase) ==> s.jobs == 0)
      && (t.phase.SweepingWatched? ==> SweptUpTo(s.watched, t))
      && (t.phase.SweepingDeferred? ==> s.watched <= t.encountered && SweptUpTo(s.deferred, t))
      && (t.phase.SweepingDeferredOrder? ==> s.watched + s.deferred <= t.encountered)
      && (t.phase.SweepingPromotions? ==> s.watched + s.deferred <= t.encountered && SweptUpTo(s.promotions, t))
      && (t.phase.Committing? ==> s.watched + s.deferred + s.promotions <= t.encountered)
  }

  /** While the root is attached, every deferred directory waits in the queue or in its rebuilt part. */
  predicate Queued(s: State)
  {
    && (s.attached ==> forall p | p in s.deferred ::
          p in s.order || (s.transaction.Some? && p in s.transaction.value.rebuilt))
    && (s.transaction.Some? && (s.transaction.value.phase.SweepingPromotions? || s.transaction.value.phase.Committing?) ==>
          s.transaction.value.rebuilt == [])
  }

  predicate Inv(s: State)
  {
    Swept(s) && Queued(s) && (s.transaction.Some? ==> s.attached)
  }

  /** Past the last member of a set, all of it has been swept. */
  lemma SweptAll(s: set<Place>, t: Transaction)
    requires SweptUpTo(s, t) && Beyond(s, t.sweepAfter) == {}
    ensures s <= t.encountered
  {
    forall p | p in s ensures p in t.encountered {
      assert p !in Beyond(s, t.sweepAfter);
    }
  }

  lemma SweptOneMore(s: set<Place>, t: Transaction)
    requires SweptUpTo(s, t) && Beyond(s, t.sweepAfter) != {}
    ensures var p := Least(Beyond(s, t.sweepAfter));
      SweptUpTo(if p in t.encountered then s else s - {p}, t.(sweepAfter := Some(p)))
  {
    var p := Least(Beyond(s, t.sweepAfter));
    forall q | q in s && q <= p ensures q in t.encountered || q == p {
      if t.sweepAfter.Some? ==> t.sweepAfter.value < q {
        assert q in Beyond(s, t.sweepAfter);
      }
    }
  }

  lemma SweepOneKeeps(s: State)
    requires Inv(s) && Enabled(s, SweepStep)
    ensures Inv(SweepOne(s))
  {
    var t := s.transaction.value;
    var swept := if t.phase.SweepingWatched? then s.watched else if t.phase.SweepingDeferred? then s.deferred else s.promotions;
    match t.phase {
      case SweepingDeferredOrder =>
        if s.order != [] {
          assert s.order == [s.order[0]] + s.order[1..];
        }
      case Committing =>
      case _ =>
        if Beyond(swept, t.sweepAfter) == {} { SweptAll(swept, t); } else { SweptOneMore(swept, t); }
    }
  }

  lemma RotateKeeps(s: State, excluded: bool)
    requires Inv(s) && Enabled(s, Inspect(excluded))
    ensures Inv(Rotate(s, excluded))
  {
    assert s.order == [s.order[0]] + s.order[1..];
  }

  lemma DeferKeeps(s: State, p: Place)
    requires Queued(s)
    ensures Queued(Defer(s, p))
  {
    assert forall q :: q in s.order + [p] <==> q in s.order || q == p;
  }

  lemma NextKeeps(s: State, step: Step)
    requires Inv(s) && Enabled(s, step)
    ensures Inv(Next(s, step))
  {
    match step {
      case DeferFound(p, _) => DeferKeeps(s, p);
      case DeferAtLimit(p) => DeferKeeps(s, p);
      case DeferEntry(p) => DeferKeeps(s, p);
      case Forget(gone) => assert forall p :: p in s.deferred - gone ==> p in s.deferred;
      case SweepStep => SweepOneKeeps(s);
      case Inspect(excluded) => RotateKeeps(s, excluded);
      case _ =>
    }
  }

  ghost predicate Run(states: seq<State>, steps: seq<Step>)
  {
    && |states| == |steps| + 1 && states[0] == State(true, 1, {}, {}, [], {}, None)
    && forall k :: 0 <= k < |steps| ==> Enabled(states[k], steps[k]) && states[k + 1] == Next(states[k], steps[k])
  }

  lemma {:induction false} SweepHolds(states: seq<State>, steps: seq<Step>, k: nat)
    requires Run(states, steps) && k < |states|
    ensures Inv(states[k])
    decreases k
  {
    if k > 0 {
      SweepHolds(states, steps, k - 1);
      NextKeeps(states[k - 1], steps[k - 1]);
    }
  }

  /**
   * A reconciliation that commits keeps only what it came across itself, in its scan or while it waited for the scan to
   * begin, however often arrivals restarted it.
   */
  lemma CommitKeepsTheEncountered(states: seq<State>, steps: seq<Step>, k: nat)
    requires Run(states, steps) && k < |steps| && steps[k] == Commit
    ensures var s := states[k];
      s.jobs == 0 && s.watched + s.deferred + s.promotions <= s.transaction.value.encountered
  {
    SweepHolds(states, steps, k);
  }

  /** From its start at `i` up to `k` the sweep is not interrupted: nothing arrives and the root is not lost. */
  predicate OneSweep(steps: seq<Step>, i: nat, k: nat)
  {
    && i < k <= |steps| && steps[i] == ScanDone
    && (forall j | i < j < k :: steps[j].SweepStep? || steps[j].Forget?)
  }

  /** Every commit ends a sweep of its own. */
  lemma {:induction false} SweepBeforeCommit(states: seq<State>, steps: seq<Step>, k: nat) returns (i: nat)
    requires Run(states, steps) && k < |states|
    requires states[k].transaction.Some? && InSweep(states[k].transaction.value.phase)
    ensures i < k && OneSweep(steps, i, k)
    decreases k
  {
    SweepHolds(states, steps, k - 1);
    assert states[k - 1 + 1] == Next(states[k - 1], steps[k - 1]);
    SweepGoesOn(states[k - 1], steps[k - 1]);
    if steps[k - 1] == ScanDone {
      i := k - 1;
    } else {
      i := SweepBeforeCommit(states, steps, k - 1);
    }
  }

  lemma SweepGoesOn(s: State, step: Step)
    requires Inv(s) && Enabled(s, step)
    requires var t := Next(s, step).transaction; t.Some? && InSweep(t.value.phase)
    ensures step == ScanDone
      || ((step.SweepStep? || step.Forget?) && s.transaction.Some? && InSweep(s.transaction.value.phase))
  {
  }

  /** The root went from view at `p`, or above it, between the two steps. */
  predicate ForgottenIn(steps: seq<Step>, i: nat, k: nat, p: Place)
  {
    exists j | i < j < k && j < |steps| :: steps[j].Forget? && p in steps[j].gone
  }

  function Encountered(s: State): set<Place>
  {
    if s.transaction.Some? then s.transaction.value.encountered else {}
  }

  lemma SweepOneDecides(s: State, p: Place)
    requires Inv(s) && Enabled(s, SweepStep)
    ensures var v := SweepOne(s);
      && v.transaction.Some? && Encountered(v) == Encountered(s)
      && v.deferred <= s.deferred && v.watched <= s.watched
      && (p in Encountered(s) ==> (p in v.deferred <==> p in s.deferred) && (p in v.watched <==> p in s.watched))
  {
  }

  /** Along one sweep what was encountered stays unless forgotten, and nothing is added. */
  lemma {:induction false} SweepDecides(states: seq<State>, steps: seq<Step>, i: nat, k: nat, p: Place)
    requires Run(states, steps) && OneSweep(steps, i, k)
    ensures states[k].transaction.Some? && Encountered(states[k]) == Encountered(states[i])
    ensures states[k].deferred <= states[i].deferred && states[k].watched <= states[i].watched
    ensures p in Encountered(states[i]) && !ForgottenIn(steps, i, k, p) ==>
      (p in states[k].deferred <==> p in states[i].deferred) && (p in states[k].watched <==> p in states[i].watched)
    ensures ForgottenIn(steps, i, k, p) ==> p !in states[k].deferred && p !in states[k].watched
    decreases k
  {
    if k > i + 1 {
      SweepDecides(states, steps, i, k - 1, p);
      SweepHolds(states, steps, k - 1);
      var step := steps[k - 1];
      assert ForgottenIn(steps, i, k, p) <==> ForgottenIn(steps, i, k - 1, p) || (step.Forget? && p in step.gone);
      if step.SweepStep? {
        SweepOneDecides(states[k - 1], p);
      }
    }
  }

  /**
   * A directory that is deferred when the sweep starts is still deferred when the transaction commits if and only if
   * this transaction came across it and it has not been forgotten since; the same holds of a watched one.
   */
  lemma DeferralsSurviveExactly(states: seq<State>, steps: seq<Step>, i: nat, k: nat, p: Place)
    requires Run(states, steps) && k < |steps| && steps[k] == Commit && OneSweep(steps, i, k)
    ensures var kept := p in Encountered(states[i]) && !ForgottenIn(steps, i, k, p);
      && (p in states[i].deferred ==> (p in states[k + 1].deferred <==> kept))
      && (p in states[i].watched ==> (p in states[k + 1].watched <==> kept))
  {
    SweepDecides(states, steps, i, k, p);
    CommitKeepsTheEncountered(states, steps, k);
  }

  /** The deferral at the watch limit that is not noted, in a transaction that no other branch notes the path in. */
  predicate DeferredUnnoted(states: seq<State>, steps: seq<Step>, j: nat, k: nat, p: Place)
  {
    && j < k < |steps| && |states| == |steps| + 1
    && steps[j] == DeferAtLimit(p) && steps[k] == Commit && p !in Encountered(states[k])
  }

  /**
   * So a directory deferred at the limit without a note, in any transaction that notes it nowhere else, is in the end
   * neither deferred nor watched nor queued for a visit of its own.
   */
  lemma UnnotedDeferralIsLost(states: seq<State>, steps: seq<Step>, j: nat, k: nat, p: Place)
    requires Run(states, steps) && DeferredUnnoted(states, steps, j, k, p)
    ensures p in states[j + 1].deferred
    ensures var v := states[k + 1]; p !in v.deferred && p !in v.watched && p !in v.promotions
  {
    CommitKeepsTheEncountered(states, steps, k);
  }

  // ----- the queue of deferred directories ---------------------------------

  function Position(order: seq<Place>, p: Place): nat
    requires p in order
  {
    if order[0] == p then 0 else 1 + Position(order[1..], p)
  }

  lemma {:induction false} PositionBound(order: seq<Place>, p: Place)
    requires p in order
    ensures Position(order, p) < |order|
    decreases |order|
  {
    if order[0] != p {
      PositionBound(order[1..], p);
    }
  }

  lemma {:induction false} PositionOfPrefix(order: seq<Place>, more: seq<Place>, p: Place)
    requires p in order
    ensures Position(order + more, p) == Position(order, p)
    decreases |order|
  {
    if order[0] != p {
      assert (order + more)[1..] == order[1..] + more;
      PositionOfPrefix(order[1..], more, p);
    }
  }

  lemma {:induction false} PositionAfter(before: seq<Place>, order: seq<Place>, p: Place)
    requires p in order && p !in before
    ensures Position(before + order, p) == |before| + Position(order, p)
    decreases |before|
  {
    if before == [] {
      assert before + order == order;
    } else {
      assert (before + order)[1..] == before[1..] + order;
      PositionAfter(before[1..], order, p);
    }
  }

  lemma {:induction false} PositionRemaining(order: seq<Place>, gone: set<Place>, p: Place)
    requires p in order && p !in gone
    ensures Position(Remaining(order, gone), p) <= Position(order, p)
    decreases |order|
  {
    if order[0] != p {
      PositionRemaining(order[1..], gone, p);
      var rest := Remaining(order[1..], gone);
      if order[0] !in gone {
        assert ([order[0]] + rest)[1..] == rest;
      } else {
        assert [] + rest == rest;
      }
    }
  }

  /** The queue as it will be once the transaction under way has rebuilt it. */
  function Line(s: State): seq<Place>
  {
    (if s.transaction.Some? then s.transaction.value.rebuilt else []) + s.order
  }

  /** How many stand before a deferred directory in the line. */
  function Ahead(s: State, p: Place): nat
  {
    if p in Line(s) then Position(Line(s), p) else 0
  }

  lemma DeferredInLine(s: State, p: Place)
    requires Inv(s) && s.attached && p in s.deferred
    ensures p in Line(s) && Ahead(s, p) < |Line(s)|
  {
    PositionBound(Line(s), p);
  }

  lemma SplitPosition(a: seq<Place>, b: seq<Place>, p: Place)
    requires p in a + b
    ensures Position(a + b, p) == if p in a then Position(a, p) else |a| + Position(b, p)
  {
    if p in a { PositionOfPrefix(a, b, p); } else { PositionAfter(a, b, p); }
  }

  /** Losing members other than `p` from the second part of the line moves `p` up, if at all. */
  lemma RemainingMovesUp(a: seq<Place>, order: seq<Place>, gone: set<Place>, p: Place)
    requires p in a + order && p !in gone
    ensures Position(a + Remaining(order, gone), p) <= Position(a + order, p)
  {
    SplitPosition(a, order, p);
    SplitPosition(a, Remaining(order, gone), p);
    if p !in a { PositionRemaining(order, gone, p); }
  }

  lemma DropMovesUp(a: seq<Place>, order: seq<Place>, p: Place)
    requires order != [] && order[0] != p && p in a + order
    ensures p in a + order[1..] && Position(a + order[1..], p) <= Position(a + order, p)
  {
    assert order == [order[0]] + order[1..];
    SplitPosition(a, order, p);
    SplitPosition(a, order[1..], p);
  }

  lemma AppendKeepsPlace(a: seq<Place>, order: seq<Place>, q: Place, p: Place)
    requires p in a + order
    ensures Position(a + (order + [q]), p) == Position(a + order, p)
  {
    assert a + (order + [q]) == (a + order) + [q];
    PositionOfPrefix(a + order, [q], p);
  }

  lemma SweepKeepsPlace(s: State, p: Place)
    requires Inv(s) && Enabled(s, SweepStep) && p in s.deferred && p in SweepOne(s).deferred && s.attached
    ensures Ahead(SweepOne(s), p) <= Ahead(s, p)
  {
    DeferredInLine(s, p);
    SweepOneKeeps(s);
    DeferredInLine(SweepOne(s), p);
    var t := s.transaction.value;
    if t.phase.SweepingDeferredOrder? {
      if s.order == [] {
        assert Line(SweepOne(s)) == [] + t.rebuilt == Line(s);
      } else if s.order[0] in s.deferred {
        assert Line(SweepOne(s)) == (t.rebuilt + [s.order[0]]) + s.order[1..] == Line(s);
      } else {
        DropMovesUp(t.rebuilt, s.order, p);
      }
    }
  }

  /** An inspection of another directory moves a deferred one up by one place. */
  lemma RotationMovesUp(s: State, excluded: bool, p: Place)
    requires Inv(s) && Enabled(s, Inspect(excluded)) && p in s.deferred && s.order[0] != p
    requires p in Rotate(s, excluded).deferred
    ensures Ahead(Rotate(s, excluded), p) + 1 == Ahead(s, p)
  {
    assert Line(s) == s.order && Line(Rotate(s, excluded)) == Rotate(s, excluded).order;
    HeadMovesUp(s.order, p);
  }

  lemma HeadMovesUp(order: seq<Place>, p: Place)
    requires p in order && order[0] != p
    ensures p in order[1..] && Position(order, p) == 1 + Position(order[1..], p)
    ensures Position(order[1..] + [order[0]], p) == Position(order[1..], p)
  {
    assert order == [order[0]] + order[1..];
    PositionOfPrefix(order[1..], [order[0]], p);
  }

  /** The directory at the head of the queue is inspected. */
  predicate Inspects(s: State, step: Step, p: Place)
  {
    step.Inspect? && s.order != [] && s.order[0] == p
  }

  lemma StepKeepsPlace(s: State, step: Step, p: Place)
    requires Inv(s) && Enabled(s, step) && s.attached && p in s.deferred && !Inspects(s, step, p)
    requires Next(s, step).attached && p in Next(s, step).deferred
    ensures Ahead(Next(s, step), p) + (if step.Inspect? then 1 else 0) <= Ahead(s, p)
  {
    var v := Next(s, step);
    NextKeeps(s, step);
    DeferredInLine(s, p);
    DeferredInLine(v, p);
    var a := if s.transaction.Some? then s.transaction.value.rebuilt else [];
    match step {
      case DeferFound(q, _) => AppendKeepsPlace(a, s.order, q, p);
      case DeferAtLimit(q) => AppendKeepsPlace(a, s.order, q, p);
      case DeferEntry(q) => AppendKeepsPlace(a, s.order, q, p);
      case Forget(gone) => RemainingMovesUp(a, s.order, gone, p);
      case SweepStep => SweepKeepsPlace(s, p);
      case Inspect(excluded) => RotationMovesUp(s, excluded, p);
      case _ =>
    }
  }

  function Inspections(steps: seq<Step>, i: nat, k: nat): nat
    requires i <= k <= |steps|
  {
    if i == k then 0 else Inspections(steps, i, k - 1) + (if steps[k - 1].Inspect? then 1 else 0)
  }

  /** From `i` to `k` the root stays attached, the directory deferred, and its own turn does not come. */
  ghost predicate Waits(states: seq<State>, steps: seq<Step>, i: nat, k: nat, p: Place)
  {
    && i <= k <= |steps| && |states| == |steps| + 1
    && (forall j :: i <= j <= k ==> states[j].attached && p in states[j].deferred)
    && (forall j :: i <= j < k ==> !Inspects(states[j], steps[j], p))
  }

  /**
   * A deferred directory is inspected after at most as many inspections as stand before it, through any number of
   * reconciliations that rebuild the queue while it waits, and whatever else is deferred meanwhile.
   */
  lemma {:induction false} RotationReaches(states: seq<State>, steps: seq<Step>, i: nat, k: nat, p: Place)
    requires Run(states, steps) && Waits(states, steps, i, k, p)
    ensures Inspections(steps, i, k) + Ahead(states[k], p) <= Ahead(states[i], p)
    ensures p in Line(states[i]) && Inspections(steps, i, k) < |Line(states[i])|
    decreases k
  {
    SweepHolds(states, steps, i);
    DeferredInLine(states[i], p);
    if i < k {
      RotationReaches(states, steps, i, k - 1, p);
      SweepHolds(states, steps, k - 1);
      var j := k - 1;
      assert states[j].attached && states[k].attached && p in states[j].deferred && p in states[k].deferred;
      assert states[j + 1] == Next(states[j], steps[j]);
      StepKeepsPlace(states[k - 1], steps[k - 1], p);
    }
  }

  /** Every deferred directory of an attached root is in the queue, or in the part of it a transaction has rebuilt. */
  lemma DeferredIsQueued(states: seq<State>, steps: seq<Step>, k: nat, p: Place)
    requires Run(states, steps) && k < |states| && states[k].attached && p in states[k].deferred
    ensures p in Line(states[k]) && (states[k].transaction.None? ==> p in states[k].order)
  {
    SweepHolds(states, steps, k);
    DeferredInLine(states[k], p);
  }

  // ----- a deferral the sweep loses ----------------------------------------

  const Fresh: State := State(true, 1, {}, {}, [], {}, None)
  const Idle: State := Fresh.(jobs := 0)
  const Asked: State := Idle.(transaction := Some(Transaction(Waiting, {}, None, [])))
  const Scan: Transaction := Transaction(Scanning, {}, None, [])
  const Scanned: State := State(true, 0, {}, {7}, [7], {}, Some(Scan))
  const Sweeping: Transaction := Scan.(phase := SweepingWatched)
  const Lost: State := State(true, 0, {}, {}, [7], {}, Some(Scan.(phase := SweepingDeferred, sweepAfter := Some(7))))

  ghost predicate Goes(s: State, step: Step, t: State)
  {
    Enabled(s, step) && Next(s, step) == t
  }

  /** What the scan defers at the watch limit without noting it is swept: it ends up neither watched nor deferred. */
  lemma UnnotedDeferralIsSwept()
    ensures Goes(Fresh, FinishJob, Idle)
    ensures Goes(Idle, Command, Asked) && Goes(Asked, Start, Idle.(jobs := 1, transaction := Some(Scan)))
    ensures Goes(Idle.(jobs := 1, transaction := Some(Scan)), DeferAtLimit(7), Scanned.(jobs := 1))
    ensures Goes(Scanned.(jobs := 1), FinishJob, Scanned)
    ensures Goes(Scanned, ScanDone, Scanned.(transaction := Some(Sweeping)))
    ensures Goes(Scanned.(transaction := Some(Sweeping)), SweepStep,
                 Scanned.(transaction := Some(Scan.(phase := SweepingDeferred))))
    ensures Goes(Scanned.(transaction := Some(Scan.(phase := SweepingDeferred))), SweepStep, Lost)
    ensures 7 in Scanned.deferred && 7 !in Lost.deferred && 7 !in Lost.watched
  {
    assert Beyond(Scanned.watched, None) == {};
    assert Beyond(Scanned.deferred, None) == {7};
    assert Least({7}) == 7;
  }

  // ----- the sweep as an object --------------------------------------------

  function PhasesLeft(p: Phase): nat
  {
    match p
    case Waiting => 6
    case Scanning => 5
    case SweepingWatched => 4
    case SweepingDeferred => 3
    case SweepingDeferredOrder => 2
    case SweepingPromotions => 1
    case Committing => 0
  }

  /** `n` items of the sweep, or as many as there are before it commits. */
  function Sweeps(s: State, n: nat): State
    requires s.transaction.Some? && InSweep(s.transaction.value.phase)
    decreases n, PhasesLeft(s.transaction.value.phase)
  {
    if n == 0 || s.transaction.value.phase.Committing? then s
    else
      var t := SweepOne(s);
      Sweeps(t, if t.transaction.value.phase == s.transaction.value.phase then n - 1 else n)
  }

  class Reconciler {
    const attached: bool
    const topologyJobs: nat
    var watchedPaths: set<Place>
    var deferredDirectories: set<Place>
    var deferredOrder: seq<Place>
    var pendingPromotions: set<Place>
    var phase: Phase
    var encountered: set<Place>
    var sweepAfter: Option<Place>
    var rebuiltDeferredOrder: seq<Place>

    constructor (s: State)
      requires s.transaction.Some?
      ensures View() == s
    {
      attached, topologyJobs, watchedPaths, deferredDirectories := s.attached, s.jobs, s.watched, s.deferred;
      deferredOrder, pendingPromotions := s.order, s.promotions;
      phase, encountered := s.transaction.value.phase, s.transaction.value.encountered;
      sweepAfter, rebuiltDeferredOrder := s.transaction.value.sweepAfter, s.transaction.value.rebuilt;
    }

    function View(): State
      reads this
    {
      State(attached, topologyJobs, watchedPaths, deferredDirectories, deferredOrder, pendingPromotions,
            Some(Transaction(phase, encountered, sweepAfter, rebuiltDeferredOrder)))
    }

    /** The next path after the cursor, if there is one; the cursor moves to it. */
    method NextCandidate(paths: set<Place>) returns (candidate: Option<Place>)
      modifies this`sweepAfter
      ensures var rest := Beyond(paths, old(sweepAfter));
        candidate == (if rest == {} then None else Some(Least(rest)))
        && sweepAfter == (if rest == {} then None else candidate)
    {
      var rest := Beyond(paths, sweepAfter);
      candidate := if rest == {} then None else Some(Least(rest));
      sweepAfter := candidate;
    }

    method SweepItem()
      requires InSweep(phase)
      modifies this
      ensures View() == SweepOne(old(View()))
    {
      match phase {
        case SweepingWatched =>
          var candidate := NextCandidate(watchedPaths);
          if candidate.None? {
            phase := SweepingDeferred;
          } else if candidate.value !in encountered {
            watchedPaths := watchedPaths - {candidate.value};
          }
        case SweepingDeferred =>
          var candidate := NextCandidate(deferredDirectories);
          if candidate.None? {
            phase := SweepingDeferredOrder;
          } else if candidate.value !in encountered {
            deferredDirectories := deferredDirectories - {candidate.value};
          }
        case SweepingDeferredOrder =>
          if deferredOrder == [] {
            deferredOrder, rebuiltDeferredOrder, sweepAfter := rebuiltDeferredOrder, [], None;
            phase := SweepingPromotions;
          } else {
            if deferredOrder[0] in deferredDirectories {
              rebuiltDeferredOrder := rebuiltDeferredOrder + [deferredOrder[0]];
            }
            deferredOrder := deferredOrder[1..];
          }
        case SweepingPromotions =>
          var candidate := NextCandidate(pendingPromotions);
          if candidate.None? {
            phase := Committing;
          } else if candidate.value !in encountered {
            pendingPromotions := pendingPromotions - {candidate.value};
          }
        case Committing =>
      }
    }

    /** One turn of the sweep; reaching the last phase means that the transaction is to commit. */
    method ProgressReconciliation() returns (commits: bool)
      requires InSweep(phase)
      modifies this
      ensures View() == Sweeps(old(View()), MAX_TOPOLOGY_DIRECTORIES_PER_TURN) && commits == phase.Committing?
    {
      var work := 0;
      while work < MAX_TOPOLOGY_DIRECTORIES_PER_TURN && !phase.Committing?
        invariant InSweep(phase) && work <= MAX_TOPOLOGY_DIRECTORIES_PER_TURN
        invariant Sweeps(View(), MAX_TOPOLOGY_DIRECTORIES_PER_TURN - work)
               == Sweeps(old(View()), MAX_TOPOLOGY_DIRECTORIES_PER_TURN)
        decreases MAX_TOPOLOGY_DIRECTORIES_PER_TURN - work, PhasesLeft(phase)
      {
        var before := phase;
        SweepItem();
        if phase == before {
          work := work + 1;
        }
      }
      commits := phase.Committing?;
    }
  }
}
