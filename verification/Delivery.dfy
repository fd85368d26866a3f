// Delivering batches to a callback one at a time, and the cleanup that waits for the
// last of them. Each step is one critical section of one of the threads involved.

module Delivery {
  datatype Option<+T> = None | Some(value: T)

  type Id = nat
  type Environment = nat

  /** Guarded by the admission lock. */
  datatype Admission = Admission(open: bool, credit: bool, outstanding: nat, inFlight: Option<Id>)

  /** The JavaScript thread inside the callback bridge. */
  datatype Js = JsIdle | Entered(id: Id) | Calling(id: Id) | Recording

  /** Who cleans the engine up: a thread that then joins the dispatcher, or the dispatcher itself. */
  datatype Performer = Joiner | DispatcherItself

  datatype Owner =
    | NotStarted | ClosingAdmission(who: Performer) | DisposingEngine(who: Performer) | Joining(disposed: bool) | Cleaned

  datatype Finalizer = NotFinalizing | Releasing | Waiting | Deciding(releaseOk: bool) | Publishing(ok: bool)
                     | Published(held: bool) | Finished

  datatype Cleanup = Cleanup(owner: Owner, engine: Option<bool>, finalizer: Finalizer, result: Option<bool>,
                             begun: bool, stored: bool, beginnerHolds: bool, completions: nat,
                             // history: the join found the dispatcher kept alive, and did not wait for it
                             keptAlive: bool)

  datatype State = State(
    environment: Environment, closing: bool, admission: Admission, slot: Option<Id>, registered: set<Id>, nextId: Id,
    queued: nat, js: Js, finalized: bool, dispatcherRecording: bool, error: bool, cleanup: Cleanup,
    // history: deliveries admitted, callbacks started, deliveries completed, and whether a callback's delivery or the wake
    // of an admitted batch failed
    admitted: set<Id>, started: seq<Id>, completed: seq<Id>, callbackFailed: bool, wakeFailed: bool)

  function Start(environment: Environment): State
  {
    State(environment, false, Admission(true, true, 0, None), None, {}, 1, 0, JsIdle, false, false, false,
          Cleanup(NotStarted, None, NotFinalizing, None, false, false, false, 0, false), {}, [], [], false, false)
  }

  // ----- admission ---------------------------------------------------------

  predicate CanAdmit(s: State)
  {
    !s.closing && s.admission.open && s.admission.credit
  }

  /** Admits a batch and wakes the callback thread; a failed wake takes everything back but the id. */
  function TryAdmit(s: State, woken: bool): State
  {
    if !CanAdmit(s) then s
    else if woken then
      s.(slot := Some(s.nextId), registered := s.registered + {s.nextId}, nextId := s.nextId + 1, queued := s.queued + 1,
         admission := Admission(true, false, s.admission.outstanding + 1, Some(s.nextId)),
         admitted := s.admitted + {s.nextId})
    else s.(nextId := s.nextId + 1, slot := None, dispatcherRecording := true, wakeFailed := true)
  }

  /** Completes the delivery in flight, if it is the one named. */
  function Finish(s: State, id: Id, stop: bool): (t: State)
    ensures t == s.(admission := t.admission, slot := t.slot, completed := t.completed)
    ensures s.admission.inFlight != Some(id) ==> t == s
  {
    if s.admission.inFlight != Some(id) then s
    else
      s.(slot := if s.slot == Some(id) then None else s.slot,
         admission := Admission(s.admission.open && !stop, true,
                                if s.admission.outstanding == 0 then 0 else s.admission.outstanding - 1, None),
         completed := s.completed + [id])
  }

  function CloseAdmission(s: State): State
  {
    s.(admission := s.admission.(open := false))
  }

  /** The first failure is kept; recording it closes admission. */
  function RecordFailure(s: State): State
  {
    if s.error then s else CloseAdmission(s.(error := true))
  }

  /** A delivery that fails inside the bridge is finished, then recorded by the same thread. */
  function FailDelivery(s: State, id: Id): State
  {
    if s.admission.inFlight != Some(id) then s.(js := JsIdle)
    else Finish(s, id, false).(js := Recording, callbackFailed := true)
  }

  // ----- the callback thread -----------------------------------------------

  /** The bridge is called: it reads what is in flight. */
  function Enter(s: State, environmentGone: bool): State
  {
    var t := s.(queued := if s.queued == 0 then 0 else s.queued - 1);
    if s.admission.inFlight.None? then t
    else if environmentGone then Finish(t, s.admission.inFlight.value, false)
    else t.(js := Entered(s.admission.inFlight.value))
  }

  /** It takes the batch from the slot, converts it and calls back. */
  function TakeSlot(s: State, id: Id, converted: bool): State
  {
    var t := s.(slot := None);
    if s.slot != Some(id) || !converted then FailDelivery(t, id)
    else t.(js := Calling(id), started := s.started + [id])
  }

  datatype Returned = Threw | Done | OwnsCompletion | BadStatus

  function CallbackReturns(s: State, id: Id, how: Returned): State
  {
    match how
    case Threw => Finish(s, id, false).(js := JsIdle)
    case Done => Finish(s, id, false).(js := JsIdle)
    case OwnsCompletion => s.(js := JsIdle)
    case BadStatus => FailDelivery(s, id)
  }

  /** A completion reported from JavaScript, by whichever environment. */
  function Complete(s: State, environment: Environment, id: Id, stop: bool): State
  {
    if id in s.registered && environment == s.environment then Finish(s, id, stop) else s
  }

  // ----- cleanup -----------------------------------------------------------

  /** Engine cleanup is done and, unless the environment is closing, so is every callback. */
  predicate MayFinalize(s: State)
  {
    s.cleanup.engine.Some? && (s.closing || s.admission.outstanding == 0)
  }

  function Publish(s: State): State
    requires s.cleanup.finalizer.Publishing?
  {
    var c := s.cleanup;
    s.(cleanup := c.(result := Some(c.finalizer.ok), stored := false, finalizer := Published(c.stored)))
  }

  function CompleteHeld(s: State): State
    requires s.cleanup.finalizer.Published?
  {
    var c := s.cleanup;
    s.(cleanup := c.(finalizer := Finished, completions := c.completions + (if c.finalizer.held then 1 else 0)))
  }

  /** The completion is stored for the finalizer, or held by the caller if the result is already there. */
  function BeginExplicit(s: State): State
  {
    var c := s.cleanup;
    s.(cleanup := if c.result.Some? then c.(begun := true, beginnerHolds := true) else c.(begun := true, stored := true))
  }

  // ----- steps -------------------------------------------------------------

  datatype Step =
    | Admit(woken: bool)
    | DispatcherRecords
    | SkipId
    | Call(environmentGone: bool)
    | Take(converted: bool)
    | Return(how: Returned)
    | JsRecords
    | CompleteDelivery(environment: Environment, id: Id, stop: bool)
    | Unregister(id: Id)
    | Close
    | EnvironmentCloses
    | Abandon
    | StartCleanup(who: Performer)
    | OwnerCloses
    | OwnerDisposes(ok: bool)
    | OwnerJoins(kept: bool, joined: bool)
    | BeginFinalize
    | Release(released: bool, ok: bool)
    | FunctionFinalized
    | WaitOver
    | Decide(coordinated: bool)
    | PublishResult
    | CompletePublished
    | BeginDisposal
    | CompleteAtOnce

  /** The dispatcher is neither recording a failure nor cleaning this subscription up. */
  predicate DispatcherFree(s: State)
  {
    !s.dispatcherRecording && !(s.cleanup.owner == ClosingAdmission(DispatcherItself))
  }

  predicate Enabled(s: State, step: Step)
  {
    match step
    case Admit(_) => DispatcherFree(s)
    case DispatcherRecords => s.dispatcherRecording
    case Call(gone) => s.queued > 0 && s.js.JsIdle? && !s.finalized && (gone ==> s.closing)
    case Take(_) => s.js.Entered?
    case Return(_) => s.js.Calling?
    case JsRecords => s.js.Recording?
    // reported by JavaScript, from within the callback or later
    case CompleteDelivery(_, _, _) => s.js.JsIdle? || s.js.Calling?
    case Unregister(id) => s.admission.inFlight != Some(id)
    case Abandon => s.closing
    case StartCleanup(who) => s.cleanup.owner.NotStarted? && (who.DispatcherItself? ==> !s.dispatcherRecording)
    case OwnerCloses => s.cleanup.owner.ClosingAdmission?
    case OwnerDisposes(_) => s.cleanup.owner.DisposingEngine?
    // unless some registration keeps the dispatcher alive, the join waits until its thread has ended
    case OwnerJoins(kept, _) => s.cleanup.owner.Joining? && (kept || !s.dispatcherRecording)
    case BeginFinalize => s.cleanup.finalizer.NotFinalizing? && MayFinalize(s)
    case Release(released, ok) => s.cleanup.finalizer.Releasing? && (released ==> ok) && (ok && !released ==> s.closing)
    // the function is finalized once released, after the calls it had queued, on the callback thread
    case FunctionFinalized => s.cleanup.finalizer.Waiting? && s.queued == 0 && s.js.JsIdle?
    case WaitOver => s.cleanup.finalizer.Waiting? && (s.finalized || s.closing)
    case Decide(_) => s.cleanup.finalizer.Deciding?
    case PublishResult => s.cleanup.finalizer.Publishing?
    case CompletePublished => s.cleanup.finalizer.Published?
    case BeginDisposal => !s.cleanup.begun
    case CompleteAtOnce => s.cleanup.beginnerHolds
    case _ => true
  }

  function Next(s: State, step: Step): State
    requires Enabled(s, step)
  {
    var c := s.cleanup;
    match step
    case Admit(woken) => TryAdmit(s, woken)
    case DispatcherRecords => RecordFailure(s).(dispatcherRecording := false)
    case SkipId => s.(nextId := s.nextId + 1)
    case Call(gone) => Enter(s, gone)
    case Take(converted) => TakeSlot(s, s.js.id, converted)
    case Return(how) => CallbackReturns(s, s.js.id, how)
    case JsRecords => RecordFailure(s).(js := JsIdle)
    case CompleteDelivery(environment, id, stop) => Complete(s, environment, id, stop)
    case Unregister(id) => s.(registered := s.registered - {id})
    case Close => CloseAdmission(s)
    case EnvironmentCloses => s.(closing := true)
    case Abandon => if s.admission.inFlight.None? then s else Finish(s, s.admission.inFlight.value, true)
    case StartCleanup(who) => s.(cleanup := c.(owner := ClosingAdmission(who)))
    case OwnerCloses => CloseAdmission(s).(cleanup := c.(owner := DisposingEngine(c.owner.who)))
    case OwnerDisposes(ok) =>
      s.(cleanup := if c.owner.who.Joiner? then c.(owner := Joining(ok)) else c.(owner := Cleaned, engine := Some(ok)))
    case OwnerJoins(kept, joined) =>
      s.(cleanup := c.(owner := Cleaned, engine := Some(c.owner.disposed && joined), keptAlive := kept))
    case BeginFinalize => s.(cleanup := c.(finalizer := Releasing))
    case Release(released, ok) => s.(cleanup := c.(finalizer := if released then Waiting else Deciding(ok)))
    case FunctionFinalized => s.(finalized := true)
    case WaitOver => s.(cleanup := c.(finalizer := Deciding(true)))
    case Decide(coordinated) =>
      s.(cleanup := c.(finalizer := Publishing(c.finalizer.releaseOk && c.engine == Some(true) && coordinated && !s.error)))
    case PublishResult => Publish(s)
    case CompletePublished => CompleteHeld(s)
    case BeginDisposal => BeginExplicit(s)
    case CompleteAtOnce => s.(cleanup := c.(beginnerHolds := false, completions := c.completions + 1))
  }

  // ----- invariants --------------------------------------------------------

  /** The credit is there exactly when nothing is in flight. */
  predicate SingleCredit(s: State)
  {
    var a := s.admission;
    && (a.credit <==> a.inFlight.None?) && a.outstanding == (if a.inFlight.Some? then 1 else 0)
    && (s.slot.Some? ==> s.slot == a.inFlight)
    && (a.inFlight.Some? ==> a.inFlight.value in s.registered)
  }

  ghost predicate Distinct(ids: seq<Id>)
  {
    forall i, j :: 0 <= i < j < |ids| ==> ids[i] != ids[j]
  }

  /** Every admitted delivery is in flight or was completed once; callbacks are started for admitted deliveries only, once. */
  ghost predicate Ledger(s: State)
  {
    && Distinct(s.completed) && Distinct(s.started)
    && (forall id :: id in s.admitted <==> id in s.completed || s.admission.inFlight == Some(id))
    && (s.admission.inFlight.Some? ==> s.admission.inFlight.value !in s.completed)
    && (forall id :: id in s.admitted ==> id < s.nextId)
    && (forall id :: id in s.registered ==> id < s.nextId)
    && (forall id :: id in s.started ==> id in s.admitted)
    && (s.slot.Some? ==> s.slot.value !in s.started)
  }

  /** Until the environment closes, the callback thread works on what is in flight. */
  predicate ThreadsAgree(s: State)
  {
    && (s.js.Entered? && !s.closing ==> s.admission.inFlight == Some(s.js.id))
    && (s.callbackFailed ==> s.error || s.js.Recording?)
    && (s.finalized && !s.closing ==> s.js.JsIdle? && s.queued == 0)
  }

  predicate CleanupOrdered(s: State)
  {
    var c := s.cleanup;
    && (c.owner.DisposingEngine? || c.owner.Joining? || c.owner.Cleaned? ==> !s.admission.open)
    && (c.engine.Some? <==> c.owner.Cleaned?)
    && (!c.finalizer.NotFinalizing? ==> c.engine.Some? && (s.closing || s.admission.inFlight.None?))
    && (c.result.Some? <==> c.finalizer.Published? || c.finalizer.Finished?)
    && (s.finalized ==> !c.finalizer.NotFinalizing? && !c.finalizer.Releasing?)
    && (!s.closing && (c.finalizer == Deciding(true)) ==> s.finalized)
    && (!s.closing && (c.finalizer == Publishing(true) || c.result == Some(true)) ==> s.finalized && !s.callbackFailed)
  }

  /** A disposal begun is stored, held by whoever is to complete it, or completed, and only one of these. */
  predicate CompletionKept(s: State)
  {
    var c := s.cleanup;
    && (if c.stored then 1 else 0) + (if c.beginnerHolds then 1 else 0)
       + (if c.finalizer == Published(true) then 1 else 0) + c.completions == (if c.begun then 1 else 0)
    && (c.result.Some? ==> !c.stored)
  }

  ghost predicate Inv(s: State)
  {
    SingleCredit(s) && Ledger(s) && ThreadsAgree(s) && CleanupOrdered(s) && CompletionKept(s)
  }

  lemma FinishKeeps(s: State, id: Id, stop: bool)
    requires Inv(s)
    requires s.js.Entered? && s.js.id == id ==> s.closing
    ensures Inv(Finish(s, id, stop))
  {
  }

  lemma AdmitKeeps(s: State, woken: bool)
    requires Inv(s) && !s.dispatcherRecording
    ensures Inv(TryAdmit(s, woken))
  {
  }

  lemma FailKeeps(s: State, id: Id)
    requires Inv(s) && s.js.JsIdle? && (s.finalized ==> s.closing)
    ensures Inv(FailDelivery(s, id))
  {
    if s.admission.inFlight == Some(id) {
      FinishKeeps(s, id, false);
      RecordingKeeps(Finish(s, id, false));
    } else {
      assert FailDelivery(s, id) == s;
    }
  }

  lemma RecordingKeeps(s: State)
    requires Inv(s) && s.js.JsIdle? && (s.finalized ==> s.closing)
    ensures Inv(s.(js := Recording, callbackFailed := true))
  {
  }

  /** The callback thread leaves the bridge with the slot taken or as it was. */
  lemma IdleKeeps(s: State, slot: Option<Id>)
    requires Inv(s) && (s.js.Entered? || s.js.Calling?) && (slot == s.slot || slot.None?)
    ensures Inv(s.(js := JsIdle, slot := slot)) && (s.finalized ==> s.closing)
  {
  }

  lemma FailIgnoresThread(s: State, id: Id)
    ensures FailDelivery(s, id) == FailDelivery(s.(js := JsIdle), id)
  {
    if s.admission.inFlight == Some(id) {
      assert Finish(s.(js := JsIdle), id, false) == Finish(s, id, false).(js := JsIdle);
    }
  }

  lemma StartKeeps(s: State, id: Id)
    requires Inv(s) && s.js.JsIdle? && (s.finalized ==> s.closing) && s.slot.None? && id in s.admitted && id !in s.started
    ensures Inv(s.(js := Calling(id), started := s.started + [id]))
  {
  }

  lemma TakeKeeps(s: State, converted: bool)
    requires Inv(s) && s.js.Entered?
    ensures Inv(TakeSlot(s, s.js.id, converted))
  {
    var id := s.js.id;
    IdleKeeps(s, None);
    if s.slot != Some(id) || !converted {
      FailKeeps(s.(js := JsIdle, slot := None), id);
      FailIgnoresThread(s.(slot := None), id);
    } else {
      assert SingleCredit(s) && Ledger(s);
      StartKeeps(s.(js := JsIdle, slot := None), id);
    }
  }

  lemma ReturnIgnoresThread(s: State, id: Id, how: Returned)
    requires !how.BadStatus?
    ensures CallbackReturns(s, id, how) == if how.OwnsCompletion? then s.(js := JsIdle) else Finish(s.(js := JsIdle), id, false)
  {
  }

  lemma ReturnKeeps(s: State, how: Returned)
    requires Inv(s) && s.js.Calling?
    ensures Inv(CallbackReturns(s, s.js.id, how))
  {
    IdleKeeps(s, s.slot);
    if how.BadStatus? {
      BadStatusKeeps(s, s.js.id);
    } else {
      ReturnIgnoresThread(s, s.js.id, how);
      if !how.OwnsCompletion? { FinishKeeps(s.(js := JsIdle), s.js.id, false); }
    }
  }

  lemma BadStatusKeeps(s: State, id: Id)
    requires Inv(s.(js := JsIdle)) && (s.finalized ==> s.closing)
    ensures Inv(FailDelivery(s, id))
  {
    FailKeeps(s.(js := JsIdle), id);
    FailIgnoresThread(s, id);
  }

  lemma CallKeeps(s: State, gone: bool)
    requires Inv(s) && Enabled(s, Call(gone))
    ensures Inv(Enter(s, gone))
  {
    var t := s.(queued := s.queued - 1);
    assert Inv(t);
    if s.admission.inFlight.Some? {
      if gone { FinishKeeps(t, s.admission.inFlight.value, false); } else { EnteredKeeps(t); }
    }
  }

  lemma EnteredKeeps(s: State)
    requires Inv(s) && s.js.JsIdle? && !s.finalized && s.admission.inFlight.Some?
    ensures Inv(s.(js := Entered(s.admission.inFlight.value)))
  {
  }

  predicate Cleans(step: Step)
  {
    step.StartCleanup? || step.OwnerCloses? || step.OwnerDisposes? || step.OwnerJoins? || step.BeginFinalize? || step.Release?
    || step.FunctionFinalized? || step.WaitOver? || step.Decide? || step.PublishResult? || step.CompletePublished?
    || step.BeginDisposal? || step.CompleteAtOnce?
  }

  /** A cleanup step leaves deliveries alone, but for closing admission. */
  predicate Framed(s: State, t: State)
  {
    && t == s.(admission := s.admission.(open := t.admission.open), finalized := t.finalized, cleanup := t.cleanup)
    && (t.admission.open ==> s.admission.open)
  }

  lemma FinalizerFrame(s: State, step: Step)
    requires Enabled(s, step)
    requires step.BeginFinalize? || step.Release? || step.FunctionFinalized? || step.WaitOver? || step.Decide?
             || step.PublishResult? || step.CompletePublished?
    ensures Framed(s, Next(s, step))
  {
  }

  lemma CleanupFrame(s: State, step: Step)
    requires Enabled(s, step) && Cleans(step)
    ensures Framed(s, Next(s, step))
  {
    match step {
      case StartCleanup(_) =>
      case OwnerCloses =>
      case OwnerDisposes(_) =>
      case OwnerJoins(_, _) =>
      case BeginDisposal =>
      case CompleteAtOnce =>
      case _ => FinalizerFrame(s, step);
    }
  }

  predicate Owns(step: Step)
  {
    step.StartCleanup? || step.OwnerCloses? || step.OwnerDisposes? || step.OwnerJoins?
  }

  lemma OwnerKeeps(s: State, step: Step)
    requires Inv(s) && Enabled(s, step) && Owns(step)
    ensures Inv(Next(s, step))
  {
    CleanupFrame(s, step);
    FramedKeeps(s, Next(s, step));
    OwnerOrders(s, step);
  }

  lemma FramedKeeps(s: State, t: State)
    requires SingleCredit(s) && Ledger(s) && ThreadsAgree(s) && Framed(s, t) && t.finalized == s.finalized
    ensures SingleCredit(t) && Ledger(t) && ThreadsAgree(t)
  {
  }

  lemma OwnerOrders(s: State, step: Step)
    requires CleanupOrdered(s) && CompletionKept(s) && Enabled(s, step) && Owns(step)
    ensures CleanupOrdered(Next(s, step)) && CompletionKept(Next(s, step)) && Next(s, step).finalized == s.finalized
  {
  }

  lemma FinalizerKeeps(s: State, step: Step)
    requires Inv(s) && Enabled(s, step) && Cleans(step) && !Owns(step)
    ensures Inv(Next(s, step))
  {
    CleanupFrame(s, step);
    if step.BeginDisposal? || step.CompleteAtOnce? {
      FramedKeeps(s, Next(s, step));
      DisposalOrders(s, step);
    } else if step.FunctionFinalized? {
      FinalizedKeeps(s);
    } else {
      FinalizerOrders(s, step);
      FramedKeeps(s, Next(s, step));
    }
  }

  lemma DisposalOrders(s: State, step: Step)
    requires CleanupOrdered(s) && CompletionKept(s) && Enabled(s, step) && (step.BeginDisposal? || step.CompleteAtOnce?)
    ensures CleanupOrdered(Next(s, step)) && CompletionKept(Next(s, step))
  {
  }

  lemma FinalizedKeeps(s: State)
    requires Inv(s) && Enabled(s, FunctionFinalized)
    ensures Inv(Next(s, FunctionFinalized))
  {
  }

  lemma FinalizerOrders(s: State, step: Step)
    requires Inv(s) && Enabled(s, step) && Cleans(step) && !Owns(step)
    requires !step.BeginDisposal? && !step.CompleteAtOnce? && !step.FunctionFinalized?
    ensures CleanupOrdered(Next(s, step)) && CompletionKept(Next(s, step)) && Next(s, step).finalized == s.finalized
  {
    if step.BeginFinalize? || step.Release? || step.WaitOver? {
      ReleaseOrders(s, step);
    }
  }

  lemma ReleaseOrders(s: State, step: Step)
    requires Inv(s) && Enabled(s, step) && (step.BeginFinalize? || step.Release? || step.WaitOver?)
    ensures CleanupOrdered(Next(s, step)) && CompletionKept(Next(s, step)) && Next(s, step).finalized == s.finalized
  {
  }

  lemma CleanupKeeps(s: State, step: Step)
    requires Inv(s) && Enabled(s, step) && Cleans(step)
    ensures Inv(Next(s, step))
  {
    if Owns(step) { OwnerKeeps(s, step); } else { FinalizerKeeps(s, step); }
  }

  lemma OtherKeeps(s: State, step: Step)
    requires Inv(s) && Enabled(s, step)
    requires step.DispatcherRecords? || step.SkipId? || step.JsRecords? || step.Unregister? || step.Close?
             || step.EnvironmentCloses?
    ensures Inv(Next(s, step))
  {
    if step.DispatcherRecords? || step.JsRecords? {
      RecordKeeps(s);
    } else if step.EnvironmentCloses? {
      ClosingKeeps(s);
    }
  }

  lemma RecordKeeps(s: State)
    requires Inv(s)
    ensures Inv(RecordFailure(s)) && Inv(RecordFailure(s).(dispatcherRecording := false))
    ensures s.js.Recording? ==> Inv(RecordFailure(s).(js := JsIdle))
  {
    var t := RecordFailure(s);
    assert SingleCredit(t) && Ledger(t);
  }

  lemma ClosingKeeps(s: State)
    requires Inv(s)
    ensures Inv(s.(closing := true))
  {
  }

  lemma NextKeeps(s: State, step: Step)
    requires Inv(s) && Enabled(s, step)
    ensures Inv(Next(s, step))
  {
    if Cleans(step) {
      CleanupKeeps(s, step);
    } else {
      match step {
        case Admit(woken) => AdmitKeeps(s, woken);
        case Call(gone) => CallKeeps(s, gone);
        case Take(converted) => TakeKeeps(s, converted);
        case Return(how) => ReturnKeeps(s, how);
        case CompleteDelivery(environment, id, stop) => FinishKeeps(s, id, stop);
        case Abandon => if s.admission.inFlight.Some? { FinishKeeps(s, s.admission.inFlight.value, true); }
        case _ => OtherKeeps(s, step);
      }
    }
  }

  // ----- over whole runs ---------------------------------------------------

  ghost predicate Run(states: seq<State>, steps: seq<Step>)
  {
    && |states| == |steps| + 1
    && states[0] == Start(states[0].environment)
    && forall k {:trigger steps[k]} :: 0 <= k < |steps| ==>
         Enabled(states[k], steps[k]) && states[k + 1] == Next(states[k], steps[k])
  }

  lemma {:induction false} DeliveryHolds(states: seq<State>, steps: seq<Step>, k: nat)
    requires Run(states, steps) && k < |states|
    ensures Inv(states[k])
    decreases k
  {
    if k > 0 {
      DeliveryHolds(states, steps, k - 1);
      NextKeeps(states[k - 1], steps[k - 1]);
    }
  }

  /** One delivery at a time: each admitted one completes exactly once or is in flight, and its callback starts once. */
  lemma EachDeliveryOnce(states: seq<State>, steps: seq<Step>, k: nat)
    requires Run(states, steps) && k < |states|
    ensures var s := states[k];
      && (s.admission.credit <==> s.admission.inFlight.None?)
      && s.admission.outstanding == (if s.admission.inFlight.Some? then 1 else 0)
      && Distinct(s.completed) && Distinct(s.started)
      && (forall id :: id in s.admitted <==> id in s.completed || s.admission.inFlight == Some(id))
      && (forall id :: id in s.started ==> id in s.admitted)
  {
    DeliveryHolds(states, steps, k);
  }

  /** Another environment's completion changes nothing, and neither does one for a delivery that is not in flight. */
  lemma ForeignCompletionIgnored(s: State, environment: Environment, id: Id, stop: bool)
    ensures environment != s.environment || s.admission.inFlight != Some(id) ==> Complete(s, environment, id, stop) == s
    ensures Inv(s) && environment == s.environment && s.admission.inFlight == Some(id) ==>
      Complete(s, environment, id, stop).completed == s.completed + [id]
  {
  }

  /** Closed admission stays closed, and nothing is admitted or started behind it. */
  ghost predicate StillClosed(s: State, t: State)
  {
    && !t.admission.open && t.admitted == s.admitted
    && (s.slot.None? && s.admission.inFlight.None? ==>
         t.slot.None? && t.admission.inFlight.None? && t.started == s.started)
  }

  lemma FinishStaysClosed(s: State, id: Id, stop: bool)
    requires !s.admission.open
    ensures StillClosed(s, Finish(s, id, stop))
  {
  }

  lemma EnterStaysClosed(s: State, gone: bool)
    requires !s.admission.open
    ensures StillClosed(s, Enter(s, gone))
  {
    if s.admission.inFlight.Some? {
      FinishStaysClosed(s.(queued := if s.queued == 0 then 0 else s.queued - 1), s.admission.inFlight.value, false);
    }
  }

  lemma FailStaysClosed(s: State, id: Id)
    requires !s.admission.open
    ensures StillClosed(s, FailDelivery(s, id))
  {
    FinishStaysClosed(s, id, false);
  }

  lemma TakeStaysClosed(s: State, id: Id, converted: bool)
    requires !s.admission.open
    ensures StillClosed(s, TakeSlot(s, id, converted))
  {
    FailStaysClosed(s.(slot := None), id);
  }

  lemma ReturnStaysClosed(s: State, id: Id, how: Returned)
    requires !s.admission.open
    ensures StillClosed(s, CallbackReturns(s, id, how))
  {
    FinishStaysClosed(s, id, false);
    FailStaysClosed(s, id);
  }

  lemma ClosedStaysClosed(s: State, step: Step)
    requires Enabled(s, step) && !s.admission.open
    ensures StillClosed(s, Next(s, step))
  {
    if Cleans(step) {
      CleanupFrame(s, step);
    } else {
      ThreadStaysClosed(s, step);
    }
  }

  lemma ThreadStaysClosed(s: State, step: Step)
    requires Enabled(s, step) && !s.admission.open && !Cleans(step)
    ensures StillClosed(s, Next(s, step))
  {
    if step.Call? {
      EnterStaysClosed(s, step.environmentGone);
    } else if step.Take? {
      TakeStaysClosed(s, s.js.id, step.converted);
    } else if step.Return? {
      ReturnStaysClosed(s, s.js.id, step.how);
    } else if step.CompleteDelivery? {
      FinishStaysClosed(s, step.id, step.stop);
    } else if step.Abandon? {
      if s.admission.inFlight.Some? { FinishStaysClosed(s, s.admission.inFlight.value, true); }
    } else if step.DispatcherRecords? || step.JsRecords? {
      RecordStaysClosed(s);
    }
  }

  lemma RecordStaysClosed(s: State)
    requires !s.admission.open
    ensures StillClosed(s, RecordFailure(s))
  {
  }

  /** A failed wake gives the credit back and leaves no trace but a used id. */
  lemma FailedAdmissionRestores(s: State)
    requires Inv(s) && CanAdmit(s)
    ensures var t := TryAdmit(s, false);
      t.admission == s.admission && t.slot == s.slot && t.registered == s.registered && t.admitted == s.admitted
  {
  }

  /** Once a cleanup result is published, no callback starts any more, unless the environment is closing. */
  lemma {:induction false} NoCallbackAfterResult(states: seq<State>, steps: seq<Step>, i: nat, j: nat)
    requires Run(states, steps) && i <= j < |states|
    requires states[i].cleanup.result.Some? && !states[i].closing
    ensures states[j].started == states[i].started && !states[j].admission.open
    ensures states[j].slot.None? && states[j].admission.inFlight.None?
    decreases j
  {
    DeliveryHolds(states, steps, i);
    if i < j {
      NoCallbackAfterResult(states, steps, i, j - 1);
      ClosedStaysClosed(states[j - 1], steps[j - 1]);
    }
  }

  /** The completion of an explicit disposal is neither lost nor completed twice, and is due once a result is there. */
  lemma CompletionNeitherLostNorTwice(states: seq<State>, steps: seq<Step>, k: nat)
    requires Run(states, steps) && k < |states|
    ensures var c := states[k].cleanup;
      && c.completions <= 1
      && (c.begun ==> c.stored || c.beginnerHolds || c.finalizer == Published(true) || c.completions == 1)
      && (c.finalizer.Finished? && c.begun && !c.beginnerHolds ==> c.completions == 1)
  {
    DeliveryHolds(states, steps, k);
  }

  /** A successful result, published while the environment was open, hides no callback that failed to be delivered. */
  lemma SuccessHidesNoCallbackFailure(states: seq<State>, steps: seq<Step>, k: nat)
    requires Run(states, steps) && k < |states| && states[k].cleanup.result == Some(true) && !states[k].closing
    ensures !states[k].callbackFailed
  {
    DeliveryHolds(states, steps, k);
  }

  // ----- what success may hide ---------------------------------------------

  /**
   * A failed wake is recorded or being recorded. The dispatcher records it after the cleanup only if the join did not
   * wait for it, because some registration kept it alive.
   */
  predicate WakesRecorded(s: State)
  {
    && (s.wakeFailed <==> s.dispatcherRecording || (s.wakeFailed && s.error))
    && (s.dispatcherRecording && s.cleanup.owner.Cleaned? ==> s.cleanup.keptAlive)
    && (s.dispatcherRecording ==>
         s.cleanup.owner != ClosingAdmission(DispatcherItself) && s.cleanup.owner != DisposingEngine(DispatcherItself))
    && (s.cleanup.keptAlive ==> s.cleanup.owner.Cleaned?)
  }

  lemma FinishFrame(s: State, id: Id, stop: bool)
    ensures var t := Finish(s, id, stop); t == s.(admission := t.admission, slot := t.slot, completed := t.completed)
  {
  }

  /** Steps of the callback thread and of JavaScript have no part in waking and its record, but may store an error. */
  predicate SameWakes(s: State, t: State)
  {
    && t.wakeFailed == s.wakeFailed && t.dispatcherRecording == s.dispatcherRecording && t.cleanup == s.cleanup
    && (s.error ==> t.error)
  }

  lemma ThreadWakes(s: State, step: Step)
    requires Enabled(s, step) && !Cleans(step) && !step.Admit? && !step.DispatcherRecords?
    ensures SameWakes(s, Next(s, step))
  {
    match step {
      case Call(gone) => EnterWakes(s, gone);
      case Take(converted) => TakeWakes(s, s.js.id, converted);
      case Return(how) => ReturnWakes(s, s.js.id, how);
      case CompleteDelivery(_, id, stop) => FinishFrame(s, id, stop);
      case Abandon => if s.admission.inFlight.Some? { FinishFrame(s, s.admission.inFlight.value, true); }
      case _ =>
    }
  }

  lemma FailWakes(s: State, id: Id)
    ensures SameWakes(s, FailDelivery(s, id))
  {
    FinishFrame(s, id, false);
  }

  lemma TakeWakes(s: State, id: Id, converted: bool)
    ensures SameWakes(s, TakeSlot(s, id, converted))
  {
    FailWakes(s.(slot := None), id);
  }

  lemma ReturnWakes(s: State, id: Id, how: Returned)
    ensures SameWakes(s, CallbackReturns(s, id, how))
  {
    FailWakes(s, id);
    FinishFrame(s, id, false);
  }

  lemma EnterWakes(s: State, gone: bool)
    ensures SameWakes(s, Enter(s, gone))
  {
    if s.admission.inFlight.Some? {
      FinishFrame(s.(queued := if s.queued == 0 then 0 else s.queued - 1), s.admission.inFlight.value, false);
    }
  }

  lemma WakesKept(s: State, step: Step)
    requires Inv(s) && WakesRecorded(s) && Enabled(s, step)
    ensures WakesRecorded(Next(s, step))
  {
    match step {
      case Admit(woken) =>
      case DispatcherRecords =>
      case _ =>
        if Cleans(step) { CleanupWakes(s, step); } else { ThreadWakes(s, step); }
    }
  }

  lemma CleanupWakes(s: State, step: Step)
    requires WakesRecorded(s) && Enabled(s, step) && Cleans(step)
    ensures WakesRecorded(Next(s, step))
    ensures Next(s, step).wakeFailed == s.wakeFailed
  {
    CleanupFrame(s, step);
  }

  lemma {:induction false} WakesHold(states: seq<State>, steps: seq<Step>, k: nat)
    requires Run(states, steps) && k < |states|
    ensures WakesRecorded(states[k])
    decreases k
  {
    if k > 0 {
      WakesHold(states, steps, k - 1);
      DeliveryHolds(states, steps, k - 1);
      WakesKept(states[k - 1], steps[k - 1]);
    }
  }

  /** No wake fails behind closed admission. */
  lemma ClosedWakes(s: State, step: Step)
    requires Enabled(s, step) && !s.admission.open
    ensures Next(s, step).wakeFailed == s.wakeFailed
  {
    if Cleans(step) {
      CleanupFrame(s, step);
    } else if !step.Admit? && !step.DispatcherRecords? {
      ThreadWakes(s, step);
    }
  }

  predicate Decided(f: Finalizer)
  {
    f.Publishing? || f.Published? || f.Finished?
  }

  lemma ThreadDecides(s: State, step: Step)
    requires Enabled(s, step) && !Cleans(step)
    ensures Next(s, step).cleanup == s.cleanup
  {
    if !step.Admit? && !step.DispatcherRecords? {
      ThreadWakes(s, step);
    }
  }

  /** The step that decided, with nothing since but what leaves the decision and the record of failed wakes alone. */
  lemma {:induction false} DecidedBefore(states: seq<State>, steps: seq<Step>, k: nat) returns (j: nat)
    requires Run(states, steps) && k < |states| && Decided(states[k].cleanup.finalizer)
    ensures j < k && steps[j].Decide? && DecidedFrom(states[j], states[k])
    decreases k
  {
    DecidedNow(states, steps, k - 1);
    if steps[k - 1].Decide? {
      j := k - 1;
    } else {
      j := DecidedBefore(states, steps, k - 1);
      DecidedOn(states[j], states[k - 1], states[k]);
    }
  }

  lemma DecidedNow(states: seq<State>, steps: seq<Step>, k: nat)
    requires Run(states, steps) && k < |steps| && Decided(states[k + 1].cleanup.finalizer)
    ensures if steps[k].Decide? then DecidedFrom(states[k], states[k + 1])
            else Decided(states[k].cleanup.finalizer) && SameDecision(states[k], states[k + 1])
  {
    DeliveryHolds(states, steps, k);
    Decides(states[k], steps[k]);
  }

  predicate SameDecision(s: State, t: State)
  {
    && t.wakeFailed == s.wakeFailed && t.cleanup.keptAlive == s.cleanup.keptAlive
    && (Favourable(t.cleanup) ==> Favourable(s.cleanup))
  }

  lemma DecidedOn(s: State, t: State, u: State)
    requires DecidedFrom(s, t) && SameDecision(t, u)
    ensures DecidedFrom(s, u)
  {
  }

  /** The decision was made in `s` and is still there in `t`, and so is what it left unsaid. */
  predicate DecidedFrom(s: State, t: State)
  {
    && s.cleanup.finalizer.Deciding? && t.wakeFailed == s.wakeFailed && t.cleanup.keptAlive == s.cleanup.keptAlive
    && (Favourable(t.cleanup) ==> !s.error)
  }

  predicate Favourable(c: Cleanup)
  {
    c.result == Some(true) || c.finalizer == Publishing(true)
  }

  /** A decision is made in one step, and kept by the others. */
  lemma Decides(s: State, step: Step)
    requires Inv(s) && Enabled(s, step) && Decided(Next(s, step).cleanup.finalizer)
    ensures var t := Next(s, step);
      && t.wakeFailed == s.wakeFailed && t.cleanup.keptAlive == s.cleanup.keptAlive
      && (step.Decide? ==> s.cleanup.finalizer.Deciding? && (Favourable(t.cleanup) ==> !s.error))
      && (!step.Decide? ==> Decided(s.cleanup.finalizer) && (Favourable(t.cleanup) ==> Favourable(s.cleanup)))
  {
    if Owns(step) {
      OwnerNeverDecides(s, step);
    } else if Cleans(step) {
      CleanupDecides(s, step);
      CleanupFrame(s, step);
    } else {
      ThreadDecides(s, step);
      ClosedWakes(s, step);
    }
  }

  lemma OwnerNeverDecides(s: State, step: Step)
    requires CleanupOrdered(s) && Enabled(s, step) && Owns(step)
    ensures !Decided(Next(s, step).cleanup.finalizer)
  {
  }

  lemma CleanupDecides(s: State, step: Step)
    requires CleanupOrdered(s) && Enabled(s, step) && Cleans(step) && !Owns(step) && Decided(Next(s, step).cleanup.finalizer)
    ensures var t := Next(s, step);
      && t.cleanup.keptAlive == s.cleanup.keptAlive
      && (step.Decide? ==> s.cleanup.finalizer.Deciding? && (Favourable(t.cleanup) ==> !s.error))
      && (!step.Decide? ==> Decided(s.cleanup.finalizer) && (Favourable(t.cleanup) ==> Favourable(s.cleanup)))
  {
    match step {
      case PublishResult => assert Decided(s.cleanup.finalizer);
      case CompletePublished => assert Decided(s.cleanup.finalizer);
      case BeginDisposal => DisposalDecides(s);
      case CompleteAtOnce =>
      case Decide(_) =>
      case _ => StepsBefore(s, step);
    }
  }

  lemma DisposalDecides(s: State)
    ensures var c, d := s.cleanup, BeginExplicit(s).cleanup;
      d.keptAlive == c.keptAlive && d.finalizer == c.finalizer && d.result == c.result
  {
  }

  lemma StepsBefore(s: State, step: Step)
    requires CleanupOrdered(s) && Enabled(s, step)
    requires step.BeginFinalize? || step.Release? || step.FunctionFinalized? || step.WaitOver?
    ensures Decided(Next(s, step).cleanup.finalizer) ==>
              Next(s, step).cleanup == s.cleanup && Decided(s.cleanup.finalizer)
  {
  }

  /**
   * Success hides a failed wake if and only if, at the moment the finalizer decided, the dispatcher was still recording
   * the failure and no error was stored. That takes a registration that kept the dispatcher alive when the cleanup came
   * to join it: otherwise success hides none.
   */
  lemma SuccessHidesWakeExactly(states: seq<State>, steps: seq<Step>, k: nat) returns (j: nat)
    requires Run(states, steps) && k < |states| && states[k].cleanup.result == Some(true)
    ensures j < k && steps[j].Decide?
    ensures states[k].wakeFailed <==> states[j].dispatcherRecording && !states[j].error
    ensures states[k].wakeFailed ==> states[k].cleanup.keptAlive
  {
    DeliveryHolds(states, steps, k);
    j := DecidedBefore(states, steps, k);
    WakesHold(states, steps, j);
    DeliveryHolds(states, steps, j);
  }

  /** The failed wake, taken back but not recorded. */
  const Failing: State := TryAdmit(Start(0), false)
  const Cleaning: Cleanup := Failing.cleanup
  const Closed: State := CloseAdmission(Failing).(cleanup := Cleaning.(owner := DisposingEngine(Joiner)))
  const Disposed: State := Closed.(cleanup := Cleaning.(owner := Joining(true)))
  /** Another registration keeps the dispatcher alive, so the join does not wait. */
  const Clean: Cleanup := Cleaning.(owner := Cleaned, engine := Some(true), keptAlive := true)
  const Released: State := Closed.(cleanup := Clean.(finalizer := Waiting))
  const Reported: State := Closed.(finalized := true, cleanup := Clean.(finalizer := Published(false), result := Some(true)))

  ghost predicate Goes(s: State, step: Step, t: State)
  {
    Enabled(s, step) && Next(s, step) == t
  }

  ghost predicate Reachable(s: State)
  {
    exists states, steps :: Run(states, steps) && states[|states| - 1] == s
  }

  lemma Onward(s: State, step: Step, t: State)
    requires Reachable(s) && Goes(s, step, t)
    ensures Reachable(t)
  {
    var states, steps :| Run(states, steps) && states[|states| - 1] == s;
    var more, all := states + [t], steps + [step];
    forall k | 0 <= k < |all| ensures Enabled(more[k], all[k]) && more[k + 1] == Next(more[k], all[k]) {
      if k < |steps| {
        assert more[k] == states[k] && more[k + 1] == states[k + 1] && all[k] == steps[k];
      }
    }
    assert Run(more, all);
  }

  lemma AdmissionFails()
    ensures Reachable(Failing)
  {
    assert Run([Start(0)], []);
    assert Goes(Start(0), Admit(false), Failing);
    Onward(Start(0), Admit(false), Failing);
  }

  lemma OwnerCloses()
    requires Reachable(Failing)
    ensures Reachable(Closed)
  {
    var a := Failing.(cleanup := Cleaning.(owner := ClosingAdmission(Joiner)));
    assert Goes(Failing, StartCleanup(Joiner), a);
    Onward(Failing, StartCleanup(Joiner), a);
    assert Goes(a, Step.OwnerCloses, Closed);
    Onward(a, Step.OwnerCloses, Closed);
  }

  lemma OwnerJoins()
    requires Reachable(Closed)
    ensures Reachable(Closed.(cleanup := Clean))
  {
    assert Goes(Closed, OwnerDisposes(true), Disposed);
    Onward(Closed, OwnerDisposes(true), Disposed);
    assert Goes(Disposed, Step.OwnerJoins(true, true), Closed.(cleanup := Clean));
    Onward(Disposed, Step.OwnerJoins(true, true), Closed.(cleanup := Clean));
  }

  lemma FunctionReleases()
    requires Reachable(Closed.(cleanup := Clean))
    ensures Reachable(Released)
  {
    var a, b := Closed.(cleanup := Clean), Closed.(cleanup := Clean.(finalizer := Releasing));
    assert Goes(a, BeginFinalize, b);
    Onward(a, BeginFinalize, b);
    assert Goes(b, Release(true, true), Released);
    Onward(b, Release(true, true), Released);
  }

  lemma FunctionFinalizes()
    requires Reachable(Released)
    ensures Reachable(Released.(finalized := true))
  {
    assert Goes(Released, FunctionFinalized, Released.(finalized := true));
    Onward(Released, FunctionFinalized, Released.(finalized := true));
  }

  lemma SuccessDecided()
    requires Reachable(Released.(finalized := true))
    ensures Reachable(Released.(finalized := true, cleanup := Clean.(finalizer := Publishing(true))))
  {
    var a := Released.(finalized := true);
    var b := a.(cleanup := Clean.(finalizer := Deciding(true)));
    var c := a.(cleanup := Clean.(finalizer := Publishing(true)));
    assert Goes(a, WaitOver, b);
    Onward(a, WaitOver, b);
    assert Goes(b, Decide(true), c);
    Onward(b, Decide(true), c);
  }

  lemma SuccessPublished()
    requires Reachable(Released.(finalized := true, cleanup := Clean.(finalizer := Publishing(true))))
    ensures Reachable(Reported)
  {
    var c := Released.(finalized := true, cleanup := Clean.(finalizer := Publishing(true)));
    assert Goes(c, PublishResult, Reported);
    Onward(c, PublishResult, Reported);
  }

  /**
   * A batch whose wake failed may go unreported: the dispatcher, kept alive for another registration, has given the
   * credit back but not yet recorded the failure when the cleanup publishes success.
   */
  lemma FailedAdmissionMayGoUnreported()
    ensures Reachable(Reported)
    ensures Reported.cleanup.result == Some(true) && !Reported.closing && !Reported.error && Reported.dispatcherRecording
    ensures Reported.wakeFailed && Reported.cleanup.keptAlive
  {
    AdmissionFails();
    OwnerCloses();
    OwnerJoins();
    FunctionReleases();
    FunctionFinalizes();
    SuccessDecided();
    SuccessPublished();
  }
}
