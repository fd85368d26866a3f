// What the steps of a delivery lead to: a failure stops deliveries for good, admission
// closes for a reason only, and what is in flight is called back, completed or reported.

module DeliveryEffects {
  import opened Delivery

  // ----- closing -----------------------------------------------------------

  /** Completion of the delivery in flight is reported by its own environment. */
  predicate Completes(s: State, step: Step)
  {
    && step.CompleteDelivery? && step.environment == s.environment && s.admission.inFlight == Some(step.id)
  }

  /** A failure is recorded, a completion asks to stop, or somebody closes. */
  predicate Closes(s: State, step: Step)
  {
    || ((step.DispatcherRecords? || step.JsRecords?) && !s.error)
    || (Completes(s, step) && step.stop)
    || (step.Abandon? && s.admission.inFlight.Some?)
    || step.Close? || step.OwnerCloses?
  }

  predicate Settles(step: Step)
  {
    step.Call? || step.Take? || step.Return? || step.CompleteDelivery? || step.Abandon?
  }

  lemma SettlesClosesExactly(s: State, step: Step)
    requires SingleCredit(s) && Enabled(s, step) && Settles(step)
    ensures Next(s, step).admission.open <==> s.admission.open && !Closes(s, step)
    ensures Next(s, step).error == s.error
  {
    if step.Call? {
      EnterCloses(s, step.environmentGone);
    } else if step.Take? {
      TakeCloses(s, s.js.id, step.converted);
    } else if step.Return? {
      ReturnCloses(s, s.js.id, step.how);
    } else {
      ReportCloses(s, step);
    }
  }

  lemma ReportCloses(s: State, step: Step)
    requires SingleCredit(s) && Enabled(s, step) && (step.CompleteDelivery? || step.Abandon?)
    ensures Next(s, step).admission.open <==> s.admission.open && !Closes(s, step)
    ensures Next(s, step).error == s.error
  {
  }

  lemma EnterCloses(s: State, gone: bool)
    ensures var t := Enter(s, gone); t.admission.open == s.admission.open && t.error == s.error
  {
  }

  lemma FailCloses(s: State, id: Id)
    ensures var t := FailDelivery(s, id); t.admission.open == s.admission.open && t.error == s.error
  {
  }

  lemma TakeCloses(s: State, id: Id, converted: bool)
    ensures var t := TakeSlot(s, id, converted); t.admission.open == s.admission.open && t.error == s.error
  {
    FailCloses(s.(slot := None), id);
  }

  lemma ReturnCloses(s: State, id: Id, how: Returned)
    ensures var t := CallbackReturns(s, id, how); t.admission.open == s.admission.open && t.error == s.error
  {
    FailCloses(s, id);
  }

  lemma CleanupClosesExactly(s: State, step: Step)
    requires Enabled(s, step) && Cleans(step)
    ensures Next(s, step).admission.open <==> s.admission.open && !Closes(s, step)
    ensures Next(s, step).error == s.error
  {
    CleanupFrame(s, step);
    if !Owns(step) { FinalizerClosesNothing(s, step); }
  }

  lemma FinalizerClosesNothing(s: State, step: Step)
    requires Enabled(s, step) && Cleans(step) && !Owns(step)
    ensures Next(s, step).admission.open == s.admission.open
  {
    match step {
      case Release(_, _) =>
      case WaitOver =>
      case Decide(_) =>
      case PublishResult =>
      case _ =>
    }
  }

  lemma OtherClosesExactly(s: State, step: Step)
    requires Enabled(s, step) && !Settles(step) && !Cleans(step)
    ensures Next(s, step).admission.open <==> s.admission.open && !Closes(s, step)
    ensures Next(s, step).error <==> s.error || step.DispatcherRecords? || step.JsRecords?
  {
    if step.DispatcherRecords? || step.JsRecords? {
      assert RecordFailure(s).error && RecordFailure(s).admission.open == (s.error && s.admission.open);
    }
  }

  /** Admission closes exactly for one of these reasons, and an error is stored exactly when a failure is recorded. */
  lemma ClosesExactly(s: State, step: Step)
    requires SingleCredit(s) && Enabled(s, step)
    ensures var t := Next(s, step);
      && (t.admission.open <==> s.admission.open && !Closes(s, step))
      && (t.error <==> s.error || step.DispatcherRecords? || step.JsRecords?)
  {
    if Settles(step) {
      SettlesClosesExactly(s, step);
    } else if Cleans(step) {
      CleanupClosesExactly(s, step);
    } else {
      OtherClosesExactly(s, step);
    }
  }

  /** A stored error has closed admission. */
  ghost predicate Sealed(s: State)
  {
    Inv(s) && (s.error ==> !s.admission.open)
  }

  lemma SealedKept(s: State, step: Step)
    requires Sealed(s) && Enabled(s, step)
    ensures Sealed(Next(s, step))
  {
    NextKeeps(s, step);
    ClosesExactly(s, step);
  }

  lemma {:induction false} ErrorsClose(states: seq<State>, steps: seq<Step>, k: nat)
    requires Run(states, steps) && k < |states|
    ensures Sealed(states[k])
    decreases k
  {
    if k > 0 {
      ErrorsClose(states, steps, k - 1);
      SealedKept(states[k - 1], steps[k - 1]);
    } else {
      DeliveryHolds(states, steps, 0);
    }
  }

  /** From the moment a failure is recorded on, nothing is admitted any more. */
  lemma {:induction false} FailureStopsDeliveries(states: seq<State>, steps: seq<Step>, i: nat, j: nat)
    requires Run(states, steps) && i <= j < |states| && states[i].error
    ensures Sealed(states[j]) && states[j].error && !states[j].admission.open && states[j].admitted == states[i].admitted
    decreases j
  {
    if i < j {
      FailureStopsDeliveries(states, steps, i, j - 1);
      StillFailed(states[j - 1], steps[j - 1]);
    } else {
      ErrorsClose(states, steps, i);
    }
  }

  lemma StillFailed(s: State, step: Step)
    requires Sealed(s) && Enabled(s, step) && s.error
    ensures Sealed(Next(s, step)) && Next(s, step).error && Next(s, step).admitted == s.admitted
  {
    SealedKept(s, step);
    ClosesExactly(s, step);
    ClosedStaysClosed(s, step);
  }

  /** A callback that could not be delivered stops deliveries once its failure is recorded, which is all that thread does. */
  lemma CallbackFailureStopsDeliveries(states: seq<State>, steps: seq<Step>, k: nat)
    requires Run(states, steps) && k < |states| && states[k].callbackFailed
    ensures states[k].js.Recording? || !states[k].admission.open
  {
    ErrorsClose(states, steps, k);
  }

  // ----- admitting and calling back ----------------------------------------

  /** The delivery is in flight, its batch in the slot and its completion can be reported. */
  predicate Awaits(s: State, id: Id)
  {
    s.admission.open && s.admission.inFlight == Some(id) && s.slot == Some(id) && id in s.registered
  }

  /** A batch is admitted exactly while admission is open and the credit is there, and the wake succeeds. */
  lemma AdmitsExactly(s: State, woken: bool)
    requires Inv(s) && Enabled(s, Admit(woken))
    ensures var t := Next(s, Admit(woken));
      && (t.admitted != s.admitted <==> !s.closing && s.admission.open && s.admission.inFlight.None? && woken)
      && (t.admitted != s.admitted ==>
           exists id :: id !in s.admitted && t.admitted == s.admitted + {id} && Awaits(t, id) && t.queued == s.queued + 1)
      && (t.admitted == s.admitted ==> t.admission == s.admission && t.queued == s.queued)
      && (t.admitted == s.admitted ==> (t.dispatcherRecording <==> CanAdmit(s)))
  {
    var t := Next(s, Admit(woken));
    if CanAdmit(s) && woken {
      assert s.nextId !in s.admitted && s.nextId in t.admitted;
    }
  }

  /** The callback thread fails to deliver what it was called for. */
  predicate Fails(s: State, step: Step)
  {
    || (step.Take? && s.js.Entered? && s.admission.inFlight == Some(s.js.id) && (s.slot != Some(s.js.id) || !step.converted))
    || (step.Return? && s.js.Calling? && s.admission.inFlight == Some(s.js.id) && step.how.BadStatus?)
  }

  /** What is in flight ends: its callback returned or failed, its completion was reported, or the environment is gone. */
  predicate Ends(s: State, step: Step)
  {
    && s.admission.inFlight.Some?
    && (Fails(s, step) || Completes(s, step) || step.Abandon? || (step.Call? && step.environmentGone)
        || (step.Return? && s.js.Calling? && s.admission.inFlight == Some(s.js.id) && (step.how.Threw? || step.how.Done?)))
  }

  predicate SameDeliveries(s: State, t: State)
  {
    && t.completed == s.completed && t.started == s.started && t.admission.inFlight == s.admission.inFlight
    && t.callbackFailed == s.callbackFailed && t.js == s.js && t.slot == s.slot && t.queued == s.queued
  }

  lemma CallEndsExactly(s: State, gone: bool)
    requires Inv(s) && Enabled(s, Call(gone))
    ensures EndsExactly(s, Call(gone))
  {
  }

  lemma TakeEndsExactly(s: State, converted: bool)
    requires Inv(s) && Enabled(s, Take(converted))
    ensures EndsExactly(s, Take(converted))
  {
    if s.slot != Some(s.js.id) || !converted {
      FailEnds(s.(slot := None), s.js.id);
    }
  }

  lemma FailEnds(s: State, id: Id)
    ensures var t := FailDelivery(s, id);
      && t.started == s.started && t.slot == (if s.admission.inFlight == Some(id) && s.slot == Some(id) then None else s.slot)
      && (if s.admission.inFlight == Some(id)
          then t.completed == s.completed + [id] && t.admission.inFlight.None? && t.js.Recording? && t.callbackFailed
          else t == s.(js := JsIdle))
  {
  }

  lemma ReturnEndsExactly(s: State, how: Returned)
    requires Inv(s) && Enabled(s, Return(how))
    ensures EndsExactly(s, Return(how))
  {
  }

  lemma ReportEndsExactly(s: State, step: Step)
    requires Inv(s) && Enabled(s, step) && (step.CompleteDelivery? || step.Abandon?)
    ensures EndsExactly(s, step)
  {
  }

  predicate EndsExactly(s: State, step: Step)
    requires Enabled(s, step)
  {
    var t := Next(s, step);
    && t.completed == (if Ends(s, step) then s.completed + [s.admission.inFlight.value] else s.completed)
    && t.admission.inFlight == (if Ends(s, step) then None else s.admission.inFlight)
    && (t.callbackFailed <==> s.callbackFailed || Fails(s, step))
    && (t.js.Recording? <==> Fails(s, step) || (s.js.Recording? && !step.JsRecords?))
    && t.started == (if step.Take? && step.converted && s.js.Entered? && s.slot == Some(s.js.id) then s.started + [s.js.id]
                     else s.started)
    && (step.Call? && !step.environmentGone && s.admission.inFlight.Some? ==> t.js == Entered(s.admission.inFlight.value))
  }

  lemma CleanupDelivers(s: State, step: Step)
    requires Enabled(s, step) && Cleans(step)
    ensures SameDeliveries(s, Next(s, step))
  {
    CleanupFrame(s, step);
  }

  lemma OtherEndsNothing(s: State, step: Step)
    requires Inv(s) && Enabled(s, step) && !Settles(step) && !Cleans(step) && !step.Admit?
    ensures EndsExactly(s, step)
  {
  }

  /**
   * A delivery ends exactly so, is called back exactly when the bridge takes its batch, and a callback that fails is on
   * its way to be recorded.
   */
  lemma DeliveryEndsExactly(s: State, step: Step)
    requires Inv(s) && Enabled(s, step) && !step.Admit?
    ensures EndsExactly(s, step)
  {
    if Cleans(step) {
      CleanupEndsNothing(s, step);
    } else if step.Call? {
      CallEndsExactly(s, step.environmentGone);
    } else if step.Take? {
      TakeEndsExactly(s, step.converted);
    } else if step.Return? {
      ReturnEndsExactly(s, step.how);
    } else if Settles(step) {
      ReportEndsExactly(s, step);
    } else {
      OtherEndsNothing(s, step);
    }
  }

  lemma CleanupEndsNothing(s: State, step: Step)
    requires Enabled(s, step) && Cleans(step)
    ensures EndsExactly(s, step)
  {
    CleanupDelivers(s, step);
  }

  /** What is in flight has a call queued, is with the bridge, or has been called back. */
  predicate Served(s: State)
  {
    && (s.js.Calling? ==> s.js.id in s.started)
    && InHand(s)
  }

  predicate InHand(s: State)
  {
    s.admission.inFlight.Some? ==>
      var id := s.admission.inFlight.value;
      s.queued > 0 || s.js == Entered(id) || s.js == Calling(id) || id in s.started
  }

  lemma ServedKept(s: State, step: Step)
    requires Inv(s) && Served(s) && Enabled(s, step)
    ensures Served(Next(s, step))
  {
    if Cleans(step) {
      CleanupDelivers(s, step);
    } else if step.Call? {
      CallEndsExactly(s, step.environmentGone);
    } else if step.Take? {
      TakeServed(s, step.converted);
    } else if step.Return? {
      ReturnServed(s, step.how);
    } else {
      OtherServed(s, step);
    }
  }

  lemma TakeServed(s: State, converted: bool)
    requires Inv(s) && Served(s) && Enabled(s, Take(converted))
    ensures Served(Next(s, Take(converted)))
  {
    TakeEndsExactly(s, converted);
    if s.slot != Some(s.js.id) || !converted { FailEnds(s.(slot := None), s.js.id); }
  }

  lemma ReturnServed(s: State, how: Returned)
    requires Inv(s) && Served(s) && Enabled(s, Return(how))
    ensures Served(Next(s, Return(how)))
  {
  }

  lemma OtherServed(s: State, step: Step)
    requires Inv(s) && Served(s) && Enabled(s, step) && !Cleans(step) && !step.Call? && !step.Take? && !step.Return?
    ensures Served(Next(s, step))
  {
  }

  /** No delivery is stuck: in every run what is in flight has been called back, or the callback thread will get to it. */
  lemma {:induction false} NoDeliveryIsStuck(states: seq<State>, steps: seq<Step>, k: nat)
    requires Run(states, steps) && k < |states|
    ensures Served(states[k])
    decreases k
  {
    if k > 0 {
      NoDeliveryIsStuck(states, steps, k - 1);
      DeliveryHolds(states, steps, k - 1);
      ServedKept(states[k - 1], steps[k - 1]);
    }
  }

  // ----- the result of a cleanup -------------------------------------------

  /** The engine's part: admission closes first, and the engine is clean exactly if its disposal and the join succeeded. */
  lemma EngineIsCleaned(s: State, step: Step)
    requires Inv(s) && Enabled(s, step) && Owns(step)
    ensures var c, d := s.cleanup, Next(s, step).cleanup;
      && d.finalizer == c.finalizer && d.result == c.result && d.completions == c.completions && d.stored == c.stored
      && (step.StartCleanup? ==> d.owner == ClosingAdmission(step.who))
      && (step.OwnerCloses? ==> d.owner == DisposingEngine(c.owner.who) && !Next(s, step).admission.open)
      && (step.OwnerDisposes? && c.owner.who.Joiner? ==> d.owner == Joining(step.ok) && d.engine.None?)
      && (step.OwnerDisposes? && !c.owner.who.Joiner? ==> d.owner.Cleaned? && d.engine == Some(step.ok))
      && (step.OwnerJoins? ==> d.owner.Cleaned? && d.engine == Some(c.owner.disposed && step.joined) && d.keptAlive == step.kept)
  {
    OwnerKeepsRest(s, step);
    if step.OwnerDisposes? { OwnerDisposed(s, step.ok); }
  }

  lemma OwnerKeepsRest(s: State, step: Step)
    requires Enabled(s, step) && Owns(step)
    ensures var c, d := s.cleanup, Next(s, step).cleanup;
      d.finalizer == c.finalizer && d.result == c.result && d.completions == c.completions && d.stored == c.stored
  {
    var d := Next(s, step).cleanup;
    if step.StartCleanup? {
      assert d == s.cleanup.(owner := ClosingAdmission(step.who));
    } else if step.OwnerCloses? {
      assert d == s.cleanup.(owner := DisposingEngine(s.cleanup.owner.who));
    } else if step.OwnerDisposes? {
      assert d == s.cleanup.(owner := d.owner, engine := d.engine);
    } else {
      assert d == s.cleanup.(owner := d.owner, engine := d.engine, keptAlive := d.keptAlive);
    }
  }

  lemma OwnerDisposed(s: State, ok: bool)
    requires Inv(s) && Enabled(s, OwnerDisposes(ok))
    ensures var c, d := s.cleanup, Next(s, OwnerDisposes(ok)).cleanup;
      if c.owner.who.Joiner? then d.owner == Joining(ok) && d.engine.None? else d.owner.Cleaned? && d.engine == Some(ok)
  {
  }

  /** The finalizer's part: the functions are released and finalized before it decides, and a failed release is decided against. */
  lemma FunctionsAreReleased(s: State, step: Step)
    requires Inv(s) && Enabled(s, step) && (step.BeginFinalize? || step.Release? || step.FunctionFinalized? || step.WaitOver?)
    ensures var t, c, d := Next(s, step), s.cleanup, Next(s, step).cleanup;
      && d == c.(finalizer := d.finalizer) && (t.finalized <==> s.finalized || step.FunctionFinalized?)
      && (step.BeginFinalize? ==> d.finalizer.Releasing?)
      && (step.Release? ==> d.finalizer == if step.released then Waiting else Deciding(step.ok))
      && (step.WaitOver? ==> d.finalizer == Deciding(true))
  {
  }

  /** A published result takes the stored completion with it, and completes it; one begun later is completed at once. */
  lemma CompletionFollows(s: State, step: Step)
    requires Inv(s) && Enabled(s, step)
    requires step.PublishResult? || step.CompletePublished? || step.BeginDisposal? || step.CompleteAtOnce?
    ensures var c, d := s.cleanup, Next(s, step).cleanup;
      && (step.PublishResult? ==> d.result == Verdict(c) && d.finalizer == Published(c.stored) && !d.stored)
      && (step.CompletePublished? ==> d.finalizer.Finished? && d.completions == c.completions + (if c.finalizer.held then 1 else 0))
      && (step.BeginDisposal? ==> d.begun && d.beginnerHolds == (c.beginnerHolds || c.result.Some?) && d.completions == c.completions)
      && (step.CompleteAtOnce? ==> d.completions == c.completions + 1 && !d.beginnerHolds)
  {
  }

  function Verdict(c: Cleanup): Option<bool>
  {
    if c.finalizer.Publishing? then Some(c.finalizer.ok) else c.result
  }

  /** The functions were released, the engine cleaned up, the coordination succeeded, and no failure was recorded. */
  predicate AllWell(s: State, step: Step)
  {
    step == Decide(true) && s.cleanup.finalizer == Deciding(true) && s.cleanup.engine == Some(true) && !s.error
  }

  /** The verdict is given in one step, on these grounds, and kept by the others. */
  lemma VerdictStays(s: State, step: Step)
    requires Inv(s) && Enabled(s, step) && Decided(Next(s, step).cleanup.finalizer)
    ensures var t := Next(s, step);
      if step.Decide? then Verdict(t.cleanup) == Some(AllWell(s, step))
      else Decided(s.cleanup.finalizer) && Verdict(t.cleanup) == Verdict(s.cleanup)
  {
    if Owns(step) {
      OwnerNeverDecides(s, step);
    } else if Cleans(step) {
      CleanupVerdict(s, step);
    } else {
      ThreadDecides(s, step);
    }
  }

  lemma CleanupVerdict(s: State, step: Step)
    requires CleanupOrdered(s) && Enabled(s, step) && Cleans(step) && !Owns(step) && Decided(Next(s, step).cleanup.finalizer)
    ensures var t := Next(s, step);
      if step.Decide? then Verdict(t.cleanup) == Some(AllWell(s, step))
      else Decided(s.cleanup.finalizer) && Verdict(t.cleanup) == Verdict(s.cleanup)
  {
    match step {
      case BeginDisposal => DisposalDecides(s);
      case BeginFinalize => StepsBefore(s, step);
      case Release(_, _) => StepsBefore(s, step);
      case FunctionFinalized => StepsBefore(s, step);
      case WaitOver => StepsBefore(s, step);
      case _ =>
    }
  }

  /** A published result is a success exactly when, as it was decided, all was well. */
  lemma {:induction false} ResultExactly(states: seq<State>, steps: seq<Step>, k: nat) returns (j: nat)
    requires Run(states, steps) && k < |states| && Decided(states[k].cleanup.finalizer)
    ensures j < k && steps[j].Decide? && Verdict(states[k].cleanup) == Some(AllWell(states[j], steps[j]))
    decreases k
  {
    DeliveryHolds(states, steps, k - 1);
    assert states[k - 1 + 1] == Next(states[k - 1], steps[k - 1]);
    VerdictStays(states[k - 1], steps[k - 1]);
    if steps[k - 1].Decide? {
      j := k - 1;
    } else {
      j := ResultExactly(states, steps, k - 1);
    }
  }
}
