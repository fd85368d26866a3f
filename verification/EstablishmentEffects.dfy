// What an attempt to establish a subscription ends in: success exactly when its walk was
// valid and nobody had cancelled, and an answer in every case in which anybody listens.

module EstablishmentEffects {
  import opened Establishment
  import R = Registry
  import T = Teardowns

  // ----- the engine --------------------------------------------------------

  /** The attempt is taken apart, and then answers with this, or with nothing if it cannot be told any more. */
  predicate TakesApart(f: Engine, error: Option<Outcome>)
  {
    f.worker.TearingDown? && f.worker.phase == T.PendingPaths && f.worker.error == error
  }

  /**
   * A walk ends in success exactly when it was valid and nobody had asked to cancel; the token says so from then on. A
   * walk that was not valid fails unless it was cancelled, and what was cancelled is taken apart as such.
   */
  lemma WalkEndsExactly(e: Engine, valid: bool)
    requires TokenInv(e) && EngineEnabled(e, FinishWalk(valid))
    ensures var f := EngineNext(e, FinishWalk(valid));
      && f.world == e.world && f.acks == e.acks && f.wins == e.wins
      && (if CancellationRequested(e.token) then f.token == e.token && TakesApart(f, Some(CancelledWith))
          else if valid then f.token.Succeeded? && f.worker == Announcing(e.worker.held)
          else f.token.Failed? && TakesApart(f, Some(FailedWith)))
  {
  }

  /** A cancellation or an interruption during the walk takes the attempt apart; only an interruption nobody asked for fails it. */
  lemma WalkIsCutShort(e: Engine, step: EngineStep)
    requires TokenInv(e) && EngineEnabled(e, step) && (step.ObserveCancel? || step.Interrupt?)
    ensures var f := EngineNext(e, step);
      && f.worker.TearingDown? && f.worker.held == e.worker.held && f.world == e.world && f.acks == e.acks
      && (if CancellationRequested(e.token) then f.token == e.token && TakesApart(f, Some(CancelledWith))
          else f.token.Failed? && TakesApart(f, Some(FailedWith)))
  {
  }

  /** A request is walked exactly when it is not cancelled and its root was captured; otherwise it answers at once. */
  lemma RequestIsTaken(e: Engine, captured: bool, limit: R.Option<nat>)
    requires TokenInv(e) && EngineEnabled(e, Receive(captured, limit))
    ensures var f := EngineNext(e, Receive(captured, limit));
      if CancellationRequested(e.token) then f.token.Cancelled? && f.worker == Reporting(Some(CancelledWith)) && f.world == e.world
      else if captured then f.token == e.token && f.worker == Walking(Nothing) && f.id in f.world.subs
      else f.token.Failed? && f.worker == Reporting(Some(FailedWith)) && f.world == e.world
  {
  }

  /** Success is announced to whoever listens, and taken apart silently if nobody does. */
  lemma SuccessIsAnnounced(e: Engine, listening: bool)
    requires TokenInv(e) && EngineEnabled(e, Announce(listening))
    ensures var f := EngineNext(e, Announce(listening));
      && f.token.Succeeded? && f.world == e.world
      && (if listening then f.worker.Established? && f.acks == [Ok] else TakesApart(f, None) && f.acks == [])
  {
  }

  /** A cancellation takes effect exactly if the token has not changed since it was read and was open to it. */
  lemma CancelTakesEffect(e: Engine, thread: nat)
    requires TokenInv(e) && EngineEnabled(e, CancelExchange(thread))
    ensures var f, effective := EngineNext(e, CancelExchange(thread)),
                e.token == e.cancellers[thread] && (e.token.Created? || e.token.Bound?);
      && f.wins == e.wins + (if effective then 1 else 0)
      && (effective ==> CancellationRequested(f.token) && !CancellationRequested(e.token))
      && (!effective ==> f.token == e.token) && thread !in f.cancellers
      && f.worker == e.worker && f.acks == e.acks
  {
  }

  /** A bind succeeds once, cancelled or not, and is what a submission waits for. */
  lemma BindTakesEffect(e: Engine, thread: nat)
    requires TokenInv(e) && EngineEnabled(e, BindExchange(thread))
    ensures var f, effective := EngineNext(e, BindExchange(thread)),
                e.token == e.binders[thread] && !IsBound(e.token);
      && f.binds == e.binds + (if effective then 1 else 0)
      && (effective ==> IsBound(f.token) && (CancellationRequested(f.token) <==> CancellationRequested(e.token)))
      && (!effective ==> f.token == e.token) && f.worker == e.worker
  {
  }

  /** An attempt that is over has answered with its failure or cancellation; only a success nobody listened to is silent. */
  predicate Answered(e: Engine)
  {
    && (e.worker.Established? ==> e.acks == [Ok])
    && (e.worker.Over? ==> |e.acks| == 1 || (e.acks == [] && e.token.Succeeded?))
  }

  lemma AnswersKept(e: Engine, step: EngineStep)
    requires TokenInv(e) && Answered(e) && EngineEnabled(e, step)
    ensures Answered(EngineNext(e, step))
  {
    if step.Report? {
      ReportAnswers(e);
    } else {
      OnlyReportEnds(e, step);
    }
  }

  lemma ReportAnswers(e: Engine)
    requires TokenInv(e) && EngineEnabled(e, Report)
    ensures Answered(EngineNext(e, Report))
    ensures EngineNext(e, Report).acks == match e.worker.error case None => [] case Some(outcome) => [outcome]
  {
  }

  lemma OnlyReportEnds(e: Engine, step: EngineStep)
    requires TokenInv(e) && EngineEnabled(e, step) && !step.Report?
    ensures var f := EngineNext(e, step);
      && (f.worker.Over? ==> e.worker.Over? && f.acks == e.acks && (e.token.Succeeded? ==> f.token.Succeeded?))
      && (f.worker.Established? ==> f.acks == [Ok] || (e.worker.Established? && f.acks == e.acks))
  {
    VerdictStays(e, step);
  }

  /** In every run an attempt that is over has been answered, unless it succeeded and nobody listened. */
  lemma {:induction false} EveryAttemptIsAnswered(states: seq<Engine>, steps: seq<EngineStep>, k: nat)
    requires EngineRun(states, steps) && k < |states|
    ensures Answered(states[k])
    decreases k
  {
    if k > 0 {
      EveryAttemptIsAnswered(states, steps, k - 1);
      EngineHolds(states, steps, k - 1);
      AnswersKept(states[k - 1], steps[k - 1]);
    }
  }

  // ----- the Node layer ----------------------------------------------------

  /** A cancellation takes effect unless success is public or one did before; then engine and delivery are still to be told. */
  lemma NodeCancelsExactly(n: Node)
    requires NodeInv(n)
    ensures var m := NodeNext(n, NodeCancel);
      if n.phase.PublicCommitted? || n.cancelRequested then m == n
      else
        && m.cancelRequested && m.cancelDue && m.phase == n.phase && m.engine == n.engine && m.commits == n.commits
        && (PastAck(n.task) && !n.task.Checked? ==> m.closeDue)
  {
  }

  /** Success is public at once exactly if that was asked for and nobody cancelled; otherwise it waits for its commit. */
  lemma ReadyIsNoted(n: Node, auto: bool)
    requires NodeInv(n) && NodeEnabled(n, NoteReady(auto))
    ensures var m := NodeNext(n, NoteReady(auto));
      && m.task.Noted? && (m.phase.PublicCommitted? <==> auto && !n.cancelRequested)
      && (!m.phase.PublicCommitted? ==> m.phase.Provisional?)
      && (m.admissionOpen <==> n.admissionOpen && !n.cancelRequested)
  {
  }

  /** A commit is refused before the handoff, false after a cancellation, and otherwise makes success public for good. */
  lemma CommitsExactly(n: Node)
    requires NodeInv(n)
    ensures var m := NodeNext(n, CommitPublic);
      && |m.commits| == |n.commits| + 1 && n.commits <= m.commits
      && (m.commits[|n.commits|] == Some(true) <==> m.phase.PublicCommitted?)
      && (m.phase.PublicCommitted? <==>
           n.phase.PublicCommitted? || (n.phase.Provisional? && n.handoff && !n.cancelRequested))
      && (m.commits[|n.commits|] == Some(false) <==> n.phase.Provisional? && n.handoff && n.cancelRequested)
  {
  }

  /** The acknowledgement starts the subscription exactly if it is success and nobody cancelled meanwhile. */
  lemma AckIsReceived(n: Node)
    requires NodeInv(n) && NodeEnabled(n, ReceiveAck)
    ensures var m := NodeNext(n, ReceiveAck);
      && m.task == (if n.engine.acks == [Ok] && !n.cancelRequested then Checked else Done(false)) && m.engine == n.engine
  {
    assert n.engine.acks[0] in n.engine.acks;
    assert n.engine.acks == [n.engine.acks[0]];
  }

  /** What is attached is published exactly if nobody cancelled, and handed over once it is noted. */
  lemma HandoffFollows(n: Node)
    requires NodeInv(n)
    ensures NodeEnabled(n, AttachState) ==>
      var m := NodeNext(n, AttachState);
      m.task == Attached(!n.cancelRequested) && (m.admissionOpen <==> n.admissionOpen && !n.cancelRequested)
    ensures NodeEnabled(n, MarkHandoff) ==>
      var m := NodeNext(n, MarkHandoff);
      m.task == Done(true) && (m.handoff <==> n.handoff || n.phase.Provisional?)
    ensures NodeEnabled(n, CloseDelivery) ==> !NodeNext(n, CloseDelivery).admissionOpen
  {
  }
}
