// The delivery and its cleanup as the object whose fields the threads update under locks.

module DeliveryStates {
  import opened Delivery

  class DeliveryState {
    const environmentId: Environment
    var environmentClosing: bool
    var admission: Admission
    var slot: Option<Id>
    var pendingDeliveries: set<Id>
    var nextDeliveryId: Id
    var queuedCalls: nat
    var thread: Js
    var threadsafeFunctionFinalized: bool
    var dispatcherRecording: bool
    var deliveryError: bool
    var cleanup: Cleanup
    ghost var admitted: set<Id>
    ghost var started: seq<Id>
    ghost var completed: seq<Id>
    ghost var callbackFailed: bool
    ghost var wakeFailed: bool

    constructor (environment: Environment)
      ensures View() == Start(environment)
    {
      environmentId, environmentClosing, admission := environment, false, Admission(true, true, 0, None);
      slot, pendingDeliveries, nextDeliveryId, queuedCalls := None, {}, 1, 0;
      thread, threadsafeFunctionFinalized, dispatcherRecording, deliveryError := JsIdle, false, false, false;
      cleanup := Cleanup(NotStarted, None, NotFinalizing, None, false, false, false, 0, false);
      admitted, started, completed, callbackFailed, wakeFailed := {}, [], [], false, false;
    }

    ghost function View(): State
      reads this
    {
      State(environmentId, environmentClosing, admission, slot, pendingDeliveries, nextDeliveryId, queuedCalls, thread,
            threadsafeFunctionFinalized, dispatcherRecording, deliveryError, cleanup, admitted, started, completed,
            callbackFailed, wakeFailed)
    }

    /** Fills the slot and spends the credit, wakes the bridge, and takes all of it back if that fails. */
    method TryAdmitWith(woken: bool) returns (delivered: bool)
      requires SingleCredit(View()) && (forall id :: id in pendingDeliveries ==> id < nextDeliveryId)
      modifies this
      ensures View() == TryAdmit(old(View()), woken)
      ensures delivered == (woken && CanAdmit(old(View())))
    {
      if environmentClosing || !admission.open || !admission.credit {
        return false;
      }
      var id := nextDeliveryId;
      FillSlot(id);
      if woken {
        queuedCalls := queuedCalls + 1;
        admitted := admitted + {id};
        return true;
      }
      RollBackFailedAdmission(id);
      assert old(pendingDeliveries) + {id} - {id} == old(pendingDeliveries);
      return false;
    }

    method FillSlot(id: Id)
      requires id == nextDeliveryId
      modifies this`nextDeliveryId, this`slot, this`admission, this`pendingDeliveries
      ensures View() == old(View()).(
        nextId := id + 1, slot := Some(id), registered := old(pendingDeliveries) + {id},
        admission := Admission(old(admission).open, false, old(admission).outstanding + 1, Some(id)))
    {
      nextDeliveryId := id + 1;
      slot := Some(id);
      admission := admission.(credit := false, outstanding := admission.outstanding + 1, inFlight := Some(id));
      pendingDeliveries := pendingDeliveries + {id};
    }

    method RollBackFailedAdmission(id: Id)
      requires admission.outstanding > 0
      modifies this`slot, this`admission, this`pendingDeliveries, this`dispatcherRecording, this`wakeFailed
      ensures View() == old(View()).(
        slot := None, registered := old(pendingDeliveries) - {id}, dispatcherRecording := true, wakeFailed := true,
        admission := Admission(old(admission).open, true, old(admission).outstanding - 1, None))
    {
      slot := None;
      pendingDeliveries := pendingDeliveries - {id};
      admission := admission.(credit := true, inFlight := None, outstanding := admission.outstanding - 1);
      dispatcherRecording, wakeFailed := true, true;
    }

    method FinishDelivery(id: Id, stop: bool) returns (finished: bool)
      requires SingleCredit(View())
      modifies this
      ensures View() == Finish(old(View()), id, stop) && finished == (old(admission).inFlight == Some(id))
    {
      if admission.inFlight != Some(id) {
        return false;
      }
      if slot == Some(id) {
        slot := None;
      }
      admission := Admission(admission.open && !stop, true, admission.outstanding - 1, None);
      completed := completed + [id];
      return true;
    }

    method CloseDeliveryAdmission()
      modifies this`admission
      ensures View() == CloseAdmission(old(View()))
    {
      admission := admission.(open := false);
    }

    method RecordDeliveryFailure()
      modifies this`admission, this`deliveryError
      ensures View() == RecordFailure(old(View()))
    {
      if !deliveryError {
        deliveryError := true;
        CloseDeliveryAdmission();
      }
    }

    method CompleteDelivery(environment: Environment, id: Id, stop: bool) returns (finished: bool)
      requires SingleCredit(View())
      modifies this
      ensures View() == Complete(old(View()), environment, id, stop)
      ensures finished ==> environment == environmentId && old(admission).inFlight == Some(id)
    {
      if id !in pendingDeliveries || environment != environmentId {
        return false;
      }
      finished := FinishDelivery(id, stop);
    }

    method FinishFailed(id: Id)
      requires SingleCredit(View())
      modifies this
      ensures View() == FailDelivery(old(View()), id)
    {
      var finished := FinishDelivery(id, false);
      if finished {
        thread, callbackFailed := Recording, true;
      } else {
        thread := JsIdle;
      }
    }

    method EnterBridge(environmentGone: bool)
      requires SingleCredit(View()) && queuedCalls > 0
      modifies this
      ensures View() == Enter(old(View()), environmentGone)
    {
      queuedCalls := queuedCalls - 1;
      if admission.inFlight.None? {
        return;
      }
      var id := admission.inFlight.value;
      if environmentGone {
        var _ := FinishDelivery(id, false);
      } else {
        thread := Entered(id);
      }
    }

    method TakeBatch(converted: bool)
      requires SingleCredit(View()) && thread.Entered?
      modifies this
      ensures View() == TakeSlot(old(View()), old(thread).id, converted)
    {
      var id := thread.id;
      var pending := slot;
      slot := None;
      if pending != Some(id) || !converted {
        FinishFailed(id);
      } else {
        thread, started := Calling(id), started + [id];
      }
    }

    method ReturnFromCallback(how: Returned)
      requires SingleCredit(View()) && thread.Calling?
      modifies this
      ensures View() == CallbackReturns(old(View()), old(thread).id, how)
    {
      var id := thread.id;
      if how.BadStatus? {
        FinishFailed(id);
        return;
      }
      if !how.OwnsCompletion? {
        var _ := FinishDelivery(id, false);
      }
      thread := JsIdle;
    }

    method AbandonInFlight()
      requires SingleCredit(View()) && environmentClosing
      modifies this
      ensures View() == Next(old(View()), Abandon)
    {
      if admission.inFlight.Some? {
        var _ := FinishDelivery(admission.inFlight.value, true);
      }
    }

    /** Stores the completion for the cleanup to find, unless its result is already there. */
    method BeginExplicitDisposal()
      modifies this`cleanup
      ensures View() == BeginExplicit(old(View()))
    {
      if cleanup.result.Some? {
        cleanup := cleanup.(begun := true, beginnerHolds := true);
      } else {
        cleanup := cleanup.(begun := true, stored := true);
      }
    }

    /** Stores the result and takes the completion in one critical section. */
    method PublishCleanupResult()
      requires cleanup.finalizer.Publishing?
      modifies this`cleanup
      ensures View() == Publish(old(View()))
    {
      var held := cleanup.stored;
      cleanup := cleanup.(result := Some(cleanup.finalizer.ok), stored := false, finalizer := Published(held));
    }
  }
}
