// Establishing a subscription against a cancellation that may come at any time: one
// atomic word decides, in the engine, and one lock, in the Node layer above it.

module Establishment {
  import D = Disposal
  import R = Registry
  import RT = RegistryTheorems
  import T = Teardowns

  datatype Option<+T> = None | Some(value: T)

  // ----- the token ---------------------------------------------------------

  datatype Token =
    | Created | Bound | CancelRequestedUnbound | CancelRequestedBound
    | Cancelled | Succeeded | Failed

  predicate Terminal(t: Token)
  {
    t.Cancelled? || t.Succeeded? || t.Failed?
  }

  predicate CancellationRequested(t: Token)
  {
    t.CancelRequestedUnbound? || t.CancelRequestedBound? || t.Cancelled?
  }

  predicate IsBound(t: Token)
  {
    !t.Created? && !t.CancelRequestedUnbound?
  }

  /** What a canceller that has read `t` tries to put in its place; none means that it is too late or already done. */
  function CancelTarget(t: Token): Option<Token>
  {
    if t.Created? then Some(CancelRequestedUnbound) else if t.Bound? then Some(CancelRequestedBound) else None
  }

  function BindTarget(t: Token): Option<Token>
  {
    if t.Created? then Some(Bound) else if t.CancelRequestedUnbound? then Some(CancelRequestedBound) else None
  }

  // ----- the engine --------------------------------------------------------

  datatype Outcome = Ok | FailedWith | CancelledWith

  /** The worker's side of one attempt, with what it has gathered besides the watches the registry holds for it. */
  datatype Worker =
    | Unsubmitted
    | Queued
    | Walking(held: T.Held)
    | Announcing(held: T.Held)
    | TearingDown(held: T.Held, phase: T.Phase, error: Option<Outcome>)
    | Reporting(error: Option<Outcome>)
    | Established
    | Over

  datatype Engine = Engine(
    token: Token, worker: Worker,
    // the id the subscription gets, and the registry it shares with others
    id: R.Id, world: R.World,
    // threads between reading the token and exchanging it, with what they read
    cancellers: map<nat, Token>, binders: map<nat, Token>,
    // history: cancellations that took effect, binds that succeeded, and the acknowledgements sent
    wins: nat, binds: nat, acks: seq<Outcome>)

  function Fresh(id: R.Id, world: R.World): Engine
  {
    Engine(Created, Unsubmitted, id, world, map[], map[], 0, 0, [])
  }

  const Nothing: T.Held := T.Held({}, {}, [], {}, [])

  function TeardownOf(e: Engine): T.State
    requires e.worker.TearingDown?
  {
    T.State(e.id, e.world, e.worker.held, e.worker.phase)
  }

  datatype EngineStep =
    | CancelRead(thread: nat)
    | CancelExchange(thread: nat)
    | BindRead(thread: nat)
    | BindExchange(thread: nat)
    | Submit
    | Receive(captured: bool, limit: R.Option<nat>)
    | Registry(step: R.Step)
    | Gather(held: T.Held)
    | ObserveCancel
    | FinishWalk(valid: bool)
    | Interrupt
    | Announce(listening: bool)
    | TeardownTurn(after: T.State, completed: bool)
    | Report

  /** The registry serves others at any time, and this subscription while it is walked or established. */
  predicate Served(e: Engine, step: R.Step)
  {
    match step
    case Subscribe(id, _) => id != e.id
    case Dispose(id) => id != e.id
    case Release(id) => id != e.id
    case _ => T.Foreign(step, e.id) || e.worker.Walking? || e.worker.Established?
  }

  ghost predicate EngineEnabled(e: Engine, step: EngineStep)
  {
    match step
    case CancelExchange(t) => t in e.cancellers
    case BindExchange(t) => t in e.binders
    case Submit => e.worker.Unsubmitted? && e.binds > 0
    case Receive(captured, limit) => e.worker.Queued? && R.Enabled(e.world, R.Subscribe(e.id, limit))
    case Registry(s) => R.Enabled(e.world, s) && Served(e, s)
    case Gather(_) => e.worker.Walking? || e.worker.TearingDown?
    case ObserveCancel => e.worker.Walking? && CancellationRequested(e.token)
    case FinishWalk(_) => e.worker.Walking?
    case Interrupt => e.worker.Walking?
    case Announce(_) => e.worker.Announcing?
    case TeardownTurn(after, completed) =>
      e.worker.TearingDown? && T.Turn(TeardownOf(e), after, completed)
      && (completed ==> R.Enabled(after.world, R.Release(e.id)))
    case Report => e.worker.Reporting?
    case _ => true
  }

  /** Success and failure are committed only while nobody has asked to cancel. */
  function TryCommit(e: Engine, result: Token): Engine
  {
    if e.token.Bound? then e.(token := result) else e
  }

  function FinishCancelled(e: Engine): Engine
  {
    if e.token.CancelRequestedBound? then e.(token := Cancelled) else e
  }

  ghost function EngineNext(e: Engine, step: EngineStep): Engine
    requires EngineEnabled(e, step)
  {
    match step
    case CancelRead(t) => if CancelTarget(e.token).None? then e else e.(cancellers := e.cancellers[t := e.token])
    case CancelExchange(t) =>
      var left := e.(cancellers := e.cancellers - {t});
      if e.token == e.cancellers[t] && CancelTarget(e.token).Some?
      then left.(token := CancelTarget(e.token).value, wins := e.wins + 1) else left
    case BindRead(t) => if BindTarget(e.token).None? then e else e.(binders := e.binders[t := e.token])
    case BindExchange(t) =>
      var left := e.(binders := e.binders - {t});
      if e.token == e.binders[t] && BindTarget(e.token).Some?
      then left.(token := BindTarget(e.token).value, binds := e.binds + 1) else left
    case Submit => e.(worker := Queued)
    case Receive(captured, limit) =>
      if CancellationRequested(e.token) then FinishCancelled(e).(worker := Reporting(Some(CancelledWith)))
      else if captured then e.(worker := Walking(Nothing), world := R.Next(e.world, R.Subscribe(e.id, limit)))
      else
        var c := TryCommit(e, Failed);
        if c.token.Failed? then c.(worker := Reporting(Some(FailedWith)))
        else FinishCancelled(c).(worker := Reporting(Some(CancelledWith)))
    case Registry(s) => e.(world := R.Next(e.world, s))
    case Gather(held) => e.(worker := e.worker.(held := held))
    case ObserveCancel => e.(worker := TearingDown(e.worker.held, T.PendingPaths, Some(CancelledWith)))
    case FinishWalk(valid) =>
      var c := TryCommit(e, if valid then Succeeded else Failed);
      var held := e.worker.held;
      c.(worker := if valid && c.token.Succeeded? then Announcing(held)
                   else TearingDown(held, T.PendingPaths, Some(if c.token.Failed? then FailedWith else CancelledWith)))
    case Interrupt =>
      var c := TryCommit(e, Failed);
      c.(worker := TearingDown(e.worker.held, T.PendingPaths, Some(if c.token.Failed? then FailedWith else CancelledWith)))
    case Announce(listening) =>
      if listening then e.(worker := Established, acks := e.acks + [Ok])
      else e.(worker := TearingDown(e.worker.held, T.PendingPaths, None))
    case TeardownTurn(after, completed) =>
      if completed then
        FinishCancelled(e).(worker := Reporting(e.worker.error), world := R.Next(after.world, R.Release(e.id)))
      else e.(worker := e.worker.(held := after.held, phase := after.phase), world := after.world)
    case Report =>
      e.(worker := Over, acks := if e.worker.error.Some? then e.acks + [e.worker.error.value] else e.acks)
  }

  predicate Matches(token: Token, outcome: Outcome)
  {
    match outcome
    case Ok => token.Succeeded?
    case FailedWith => token.Failed?
    case CancelledWith => token.Cancelled?
  }

  predicate TokenFits(e: Engine)
  {
    match e.worker
    case Unsubmitted => !Terminal(e.token) && e.acks == []
    case Queued => (e.token.Bound? || e.token.CancelRequestedBound?) && e.acks == []
    case Walking(_) => (e.token.Bound? || e.token.CancelRequestedBound?) && e.acks == []
    case Announcing(_) => e.token.Succeeded? && e.acks == []
    case TearingDown(_, _, error) =>
      e.acks == [] && (match error
                       case None => e.token.Succeeded?
                       case Some(FailedWith) => e.token.Failed?
                       case Some(CancelledWith) => e.token.CancelRequestedBound?
                       case Some(Ok) => false)
    case Reporting(error) =>
      e.acks == [] && (match error
                       case None => e.token.Succeeded?
                       case Some(Ok) => false
                       case Some(outcome) => Matches(e.token, outcome))
    case Established => e.token.Succeeded? && e.acks == [Ok]
    case Over => Terminal(e.token) && |e.acks| <= 1 && (forall a | a in e.acks :: a != Ok && Matches(e.token, a))
  }

  /** The subscription is known to the registry exactly while it is walked, torn down or established. */
  ghost predicate RegistryFits(e: Engine)
  {
    && RT.Inv(e.world)
    && match e.worker
       case TearingDown(_, _, _) => T.Valid(TeardownOf(e))
       case Walking(_) => e.id in e.world.subs && !e.world.subs[e.id].disposing
       case Announcing(_) => e.id in e.world.subs && !e.world.subs[e.id].disposing
       case Established => e.id in e.world.subs && !e.world.subs[e.id].disposing
       case _ => e.id !in e.world.subs
  }

  ghost predicate EngineInv(e: Engine)
  {
    TokenInv(e) && RegistryFits(e)
  }

  ghost predicate TokenInv(e: Engine)
  {
    && TokenFits(e)
    && e.wins == (if CancellationRequested(e.token) then 1 else 0)
    && e.binds == (if IsBound(e.token) then 1 else 0)
  }

  lemma TokenKeeps(e: Engine, step: EngineStep)
    requires TokenInv(e) && EngineEnabled(e, step)
    ensures TokenInv(EngineNext(e, step))
  {
    match step {
      case CancelRead(_) | CancelExchange(_) | BindRead(_) | BindExchange(_) => ThreadKeepsToken(e, step);
      case Submit | Receive(_, _) | Registry(_) | Gather(_) => SubmissionKeepsToken(e, step);
      case _ => WorkerKeepsToken(e, step);
    }
  }

  lemma ThreadKeepsToken(e: Engine, step: EngineStep)
    requires TokenInv(e) && EngineEnabled(e, step)
    requires step.CancelRead? || step.CancelExchange? || step.BindRead? || step.BindExchange?
    ensures TokenInv(EngineNext(e, step))
  {
  }

  lemma SubmissionKeepsToken(e: Engine, step: EngineStep)
    requires TokenInv(e) && EngineEnabled(e, step)
    requires step.Submit? || step.Receive? || step.Registry? || step.Gather?
    ensures TokenInv(EngineNext(e, step))
  {
  }

  lemma WorkerKeepsToken(e: Engine, step: EngineStep)
    requires TokenInv(e) && EngineEnabled(e, step)
    requires step.ObserveCancel? || step.FinishWalk? || step.Interrupt? || step.Announce? || step.TeardownTurn? || step.Report?
    ensures TokenInv(EngineNext(e, step))
  {
    if step.Announce? || step.TeardownTurn? || step.Report? { EndKeepsToken(e, step); }
  }

  lemma EndKeepsToken(e: Engine, step: EngineStep)
    requires TokenInv(e) && EngineEnabled(e, step) && (step.Announce? || step.TeardownTurn? || step.Report?)
    ensures TokenInv(EngineNext(e, step))
  {
  }

  lemma TurnKeeps(e: Engine, after: T.State, completed: bool)
    requires RegistryFits(e) && EngineEnabled(e, TeardownTurn(after, completed))
    ensures RegistryFits(EngineNext(e, TeardownTurn(after, completed)))
  {
    if completed {
      D.RegistryStepKeepsInv(after.world, R.Release(e.id));
    } else {
      assert TeardownOf(EngineNext(e, TeardownTurn(after, completed))) == after;
    }
  }

  lemma ReceiveKeeps(e: Engine, captured: bool, limit: R.Option<nat>)
    requires RegistryFits(e) && EngineEnabled(e, Receive(captured, limit))
    ensures RegistryFits(EngineNext(e, Receive(captured, limit)))
  {
    D.RegistryStepKeepsInv(e.world, R.Subscribe(e.id, limit));
    var f := EngineNext(e, Receive(captured, limit));
    assert f.id == e.id && (f.worker.Walking? || (f.worker.Reporting? && f.world == e.world));
  }

  lemma ServeKeeps(e: Engine, s: R.Step)
    requires RegistryFits(e) && EngineEnabled(e, Registry(s))
    ensures RegistryFits(EngineNext(e, Registry(s)))
  {
    D.RegistryStepKeepsInv(e.world, s);
    T.StepServes(e.world, s, e.id);
    if e.worker.TearingDown? {
      T.RegistryStepIsBetween(TeardownOf(e), s);
    }
  }

  /** The registry is as it was, and so is the subscription's place in it. */
  lemma WorkKeeps(e: Engine, step: EngineStep)
    requires RegistryFits(e) && EngineEnabled(e, step)
    requires !step.Registry? && !step.Receive? && !step.TeardownTurn?
    ensures RegistryFits(EngineNext(e, step))
  {
    assert EngineNext(e, step).world == e.world && EngineNext(e, step).id == e.id;
  }

  lemma RegistryKeeps(e: Engine, step: EngineStep)
    requires RegistryFits(e) && EngineEnabled(e, step)
    ensures RegistryFits(EngineNext(e, step))
  {
    match step {
      case Registry(s) => ServeKeeps(e, s);
      case Receive(captured, limit) => ReceiveKeeps(e, captured, limit);
      case TeardownTurn(after, completed) => TurnKeeps(e, after, completed);
      case _ => WorkKeeps(e, step);
    }
  }

  lemma EngineKeeps(e: Engine, step: EngineStep)
    requires EngineInv(e) && EngineEnabled(e, step)
    ensures EngineInv(EngineNext(e, step))
  {
    TokenKeeps(e, step);
    RegistryKeeps(e, step);
  }

  /** A turn of the teardown that completes can always drop the subscription: its last watch is gone. */
  lemma CompletedCanRelease(e: Engine, after: T.State)
    requires e.worker.TearingDown? && T.Turn(TeardownOf(e), after, true)
    ensures R.Enabled(after.world, R.Release(e.id)) && EngineEnabled(e, TeardownTurn(after, true))
  {
  }

  /** Whatever was decided stays decided, and a cancellation that took effect is never undone. */
  lemma VerdictStays(e: Engine, step: EngineStep)
    requires TokenInv(e) && EngineEnabled(e, step)
    ensures Terminal(e.token) ==> EngineNext(e, step).token == e.token
    ensures CancellationRequested(e.token) ==> CancellationRequested(EngineNext(e, step).token)
  {
  }

  lemma OutsideHasNoInterest(w: R.World, id: R.Id)
    requires RT.Inv(w) && id !in w.subs
    ensures T.NoInterest(w, id)
  {
  }

  ghost predicate EngineRun(states: seq<Engine>, steps: seq<EngineStep>)
  {
    && |states| == |steps| + 1 && EngineStart(states[0])
    && forall k {:trigger steps[k]} :: 0 <= k < |steps| ==>
         EngineEnabled(states[k], steps[k]) && states[k + 1] == EngineNext(states[k], steps[k])
  }

  ghost predicate EngineStart(e: Engine)
  {
    e == Fresh(e.id, e.world) && RT.Inv(e.world) && e.id !in e.world.subs
  }

  lemma {:induction false} EngineHolds(states: seq<Engine>, steps: seq<EngineStep>, k: nat)
    requires EngineRun(states, steps) && k < |states|
    ensures EngineInv(states[k])
    decreases k
  {
    if k > 0 {
      EngineHolds(states, steps, k - 1);
      EngineKeeps(states[k - 1], steps[k - 1]);
    }
  }

  lemma {:induction false} VerdictPersists(states: seq<Engine>, steps: seq<EngineStep>, i: nat, j: nat)
    requires EngineRun(states, steps) && i <= j < |states|
    ensures Terminal(states[i].token) ==> states[j].token == states[i].token
    ensures CancellationRequested(states[i].token) ==> CancellationRequested(states[j].token)
    decreases j
  {
    if i < j {
      VerdictPersists(states, steps, i, j - 1);
      EngineHolds(states, steps, j - 1);
      VerdictStays(states[j - 1], steps[j - 1]);
    }
  }

  /**
   * One verdict: at most one cancellation takes effect, at most one acknowledgement is sent and it is the token's, and
   * once a cancellation has taken effect neither success nor another failure is ever acknowledged.
   */
  lemma OneVerdict(states: seq<Engine>, steps: seq<EngineStep>, i: nat, j: nat)
    requires EngineRun(states, steps) && i <= j < |states|
    ensures states[j].wins <= 1 && |states[j].acks| <= 1
    ensures forall a :: a in states[j].acks ==> Matches(states[j].token, a)
    ensures states[i].wins == 1 ==> states[j].acks == [] || states[j].acks == [CancelledWith]
  {
    EngineHolds(states, steps, i);
    EngineHolds(states, steps, j);
    VerdictPersists(states, steps, i, j);
    var acks := states[j].acks;
    if acks != [] {
      assert acks[0] in acks && acks == [acks[0]];
    }
  }

  /**
   * An acknowledgement is success, sent when the subscription becomes established and keeps what it watches, or an
   * error, and then the attempt is gone from the registry with its last interest, however its teardown was cut into
   * turns and whatever happened between them.
   */
  lemma ErrorAfterTeardown(states: seq<Engine>, steps: seq<EngineStep>, k: nat)
    requires EngineRun(states, steps) && k < |steps|
    ensures var e, f := states[k], states[k + 1];
      f.acks == e.acks
      || (f.acks == [Ok] && e.acks == [] && f.worker.Established? && f.world == e.world)
      || (|f.acks| == 1 && e.acks == [] && f.acks[0] != Ok && f.id !in f.world.subs && T.NoInterest(f.world, f.id))
  {
    EngineHolds(states, steps, k);
    EngineHolds(states, steps, k + 1);
    AcksOnce(states[k], steps[k]);
    if steps[k].Report? {
      OutsideHasNoInterest(states[k + 1].world, states[k + 1].id);
    }
  }

  lemma AcksOnce(e: Engine, step: EngineStep)
    requires TokenInv(e) && EngineEnabled(e, step)
    ensures var f := EngineNext(e, step);
      && (step.Announce? && f.acks != e.acks ==> f.acks == [Ok] && e.acks == [] && f.worker.Established? && f.world == e.world)
      && (step.Report? && f.acks != e.acks ==> |f.acks| == 1 && e.acks == [] && f.acks[0] != Ok && f.worker.Over?)
      && (!step.Announce? && !step.Report? ==> f.acks == e.acks)
  {
  }

  // ----- the Node layer ----------------------------------------------------

  datatype Phase = NodeUnbound | NodeBound | Provisional | PublicCommitted

  /** Where establishing the subscription for JavaScript has got to. */
  datatype Task = NotStarted | Awaiting | Checked | Attached(published: bool) | Noted | Done(started: bool)

  datatype Node = Node(
    engine: Engine, phase: Phase, cancelRequested: bool, handoff: bool, task: Task,
    // a canceller has left the lock and is about to cancel the engine, or to close delivery
    cancelDue: bool, closeDue: bool, admissionOpen: bool,
    // history: the values returned by public commits
    commits: seq<Option<bool>>)

  function NodeStart(engine: Engine): Node
  {
    Node(engine, NodeUnbound, false, false, NotStarted, false, false, true, [])
  }

  datatype NodeStep =
    | NodeBind
    | NodeCancel
    | CloseDelivery
    | CancelEngine(step: EngineStep)
    | RunEngine(step: EngineStep)
    | ReceiveAck
    | AttachState
    | NoteReady(autoCommit: bool)
    | MarkHandoff
    | CommitPublic

  ghost predicate NodeEnabled(n: Node, step: NodeStep)
  {
    match step
    case NodeBind => n.phase.NodeUnbound?
    case CloseDelivery => n.closeDue
    case CancelEngine(s) => n.cancelDue && s.CancelRead? && EngineEnabled(n.engine, s)
    case RunEngine(s) => !s.CancelRead? && EngineEnabled(n.engine, s) && (s.BindRead? ==> n.phase.NodeBound?)
    case ReceiveAck => n.task.Awaiting? && n.engine.acks != []
    case AttachState => n.task.Checked?
    case NoteReady(_) => n.task.Attached?
    case MarkHandoff => n.task.Noted?
    case _ => true
  }

  /** Committing in public: refused before the handoff, false after a cancellation, and true for good otherwise. */
  function PublicCommit(n: Node): (Node, Option<bool>)
  {
    match n.phase
    case Provisional =>
      if !n.handoff then (n, None)
      else if n.cancelRequested then (n, Some(false))
      else (n.(phase := PublicCommitted), Some(true))
    case PublicCommitted => (n, Some(true))
    case _ => (n, None)
  }

  ghost function NodeNext(n: Node, step: NodeStep): Node
    requires NodeEnabled(n, step)
  {
    match step
    case NodeBind => n.(phase := NodeBound, task := Awaiting)
    case NodeCancel =>
      if n.phase.PublicCommitted? || n.cancelRequested then n
      else n.(cancelRequested := true, cancelDue := true, closeDue := n.task.Attached? || n.task.Noted? || n.task == Done(true))
    case CloseDelivery => n.(closeDue := false, admissionOpen := false)
    case CancelEngine(s) => n.(engine := EngineNext(n.engine, s))
    case RunEngine(s) => n.(engine := EngineNext(n.engine, s))
    case ReceiveAck =>
      if n.engine.acks[0] == Ok && !n.cancelRequested then n.(task := Checked) else n.(task := Done(false))
    case AttachState => n.(task := Attached(!n.cancelRequested), admissionOpen := n.admissionOpen && !n.cancelRequested)
    case NoteReady(auto) =>
      n.(phase := if auto && !n.cancelRequested then PublicCommitted else Provisional, task := Noted,
         admissionOpen := n.admissionOpen && !n.cancelRequested)
    case MarkHandoff => n.(task := Done(true), handoff := n.handoff || n.phase.Provisional?)
    case CommitPublic =>
      var (m, r) := PublicCommit(n);
      m.(commits := n.commits + [r])
  }

  predicate PastAck(t: Task)
  {
    t.Checked? || t.Attached? || t.Noted? || t == Done(true)
  }

  ghost predicate NodeInv(n: Node)
  {
    && EngineInv(n.engine)
    && (n.cancelDue || CancellationRequested(n.engine.token) || n.engine.cancellers != map[] ==> n.cancelRequested)
    && (n.phase.PublicCommitted? ==> !n.cancelRequested)
    && (n.phase.Provisional? || n.phase.PublicCommitted? || PastAck(n.task) ==> n.engine.token.Succeeded?)
    && (n.handoff ==> n.phase.Provisional? || n.phase.PublicCommitted?)
    && (n.phase.NodeUnbound? <==> n.task.NotStarted?)
    && (n.task.NotStarted? || n.task.Awaiting? || n.task.Checked? || n.task.Attached? ==>
          n.phase.NodeUnbound? || n.phase.NodeBound?)
    && (n.cancelRequested && (n.task.Attached? || n.task.Noted? || n.task == Done(true)) ==> n.closeDue || !n.admissionOpen)
    && (Some(true) in n.commits ==> n.phase.PublicCommitted?)
    && (Some(false) in n.commits ==> n.cancelRequested)
  }

  lemma NodeEngineKeeps(n: Node, s: EngineStep)
    requires NodeInv(n) && EngineEnabled(n.engine, s) && (s.CancelRead? ==> n.cancelRequested)
    ensures NodeInv(n.(engine := EngineNext(n.engine, s)))
  {
    EngineKeeps(n.engine, s);
    VerdictStays(n.engine, s);
    var e := EngineNext(n.engine, s);
    if CancellationRequested(e.token) && !CancellationRequested(n.engine.token) {
      assert n.engine.cancellers != map[];
    }
  }

  lemma NodeKeeps(n: Node, step: NodeStep)
    requires NodeInv(n) && NodeEnabled(n, step)
    ensures NodeInv(NodeNext(n, step))
  {
    if step.CancelEngine? || step.RunEngine? {
      NodeEngineKeeps(n, step.step);
    } else {
      AttemptKeeps(n, step);
    }
  }

  lemma AttemptKeeps(n: Node, step: NodeStep)
    requires NodeInv(n) && NodeEnabled(n, step) && !step.CancelEngine? && !step.RunEngine?
    ensures NodeInv(NodeNext(n, step))
  {
    if step.ReceiveAck? { assert n.engine.acks[0] in n.engine.acks; }
  }

  ghost predicate NodeRun(states: seq<Node>, steps: seq<NodeStep>)
  {
    && |states| == |steps| + 1 && EngineStart(states[0].engine) && states[0] == NodeStart(states[0].engine)
    && forall k {:trigger steps[k]} :: 0 <= k < |steps| ==>
         NodeEnabled(states[k], steps[k]) && states[k + 1] == NodeNext(states[k], steps[k])
  }

  lemma {:induction false} NodeHolds(states: seq<Node>, steps: seq<NodeStep>, k: nat)
    requires NodeRun(states, steps) && k < |states|
    ensures NodeInv(states[k])
    decreases k
  {
    if k > 0 {
      NodeHolds(states, steps, k - 1);
      NodeKeeps(states[k - 1], steps[k - 1]);
    }
  }

  lemma StepPersists(n: Node, step: NodeStep)
    requires NodeInv(n) && NodeEnabled(n, step)
    ensures var m := NodeNext(n, step);
      && (n.phase.PublicCommitted? ==> m.phase.PublicCommitted?)
      && (n.cancelRequested ==> m.cancelRequested) && n.commits <= m.commits
  {
  }

  lemma {:induction false} DecisionsPersist(states: seq<Node>, steps: seq<NodeStep>, i: nat, j: nat)
    requires NodeRun(states, steps) && i <= j < |states|
    ensures states[i].phase.PublicCommitted? ==> states[j].phase.PublicCommitted?
    ensures states[i].cancelRequested ==> states[j].cancelRequested
    ensures states[i].commits <= states[j].commits
    decreases j
  {
    if i < j {
      DecisionsPersist(states, steps, i, j - 1);
      NodeHolds(states, steps, j - 1);
      StepPersists(states[j - 1], steps[j - 1]);
      assert states[i].commits <= states[j - 1].commits <= states[j].commits;
    }
  }

  /**
   * A public commit and an effective cancellation exclude each other over the whole run, whichever comes first, and
   * what is committed in public has been established by an engine nobody cancelled.
   */
  lemma CommitExcludesCancel(states: seq<Node>, steps: seq<NodeStep>, i: nat, j: nat)
    requires NodeRun(states, steps) && i < |states| && j < |states|
    ensures !(states[i].phase.PublicCommitted? && states[j].cancelRequested)
    ensures !(Some(true) in states[i].commits && Some(false) in states[j].commits)
    ensures states[i].phase.PublicCommitted? ==> states[i].engine.token.Succeeded? && states[i].engine.wins == 0
  {
    var last := if i <= j then j else i;
    DecisionsPersist(states, steps, i, last);
    DecisionsPersist(states, steps, j, last);
    NodeHolds(states, steps, i);
    NodeHolds(states, steps, last);
  }

  // ----- the lock of the Node layer as an object ---------------------------

  class EstablishmentAttempt {
    var phase: Phase
    var cancelRequested: bool
    var handoffReady: bool

    constructor ()
      ensures forall e :: Agrees(NodeStart(e))
    {
      phase, cancelRequested, handoffReady := NodeUnbound, false, false;
    }

    /** The state around this attempt, with what the lock guards taken from here. */
    ghost function On(n: Node): Node
      reads this
    {
      n.(phase := phase, cancelRequested := cancelRequested, handoff := handoffReady)
    }

    ghost predicate Agrees(n: Node)
      reads this
    {
      phase == n.phase && cancelRequested == n.cancelRequested && handoffReady == n.handoff
    }

    /** Whether the caller is to go on and cancel the engine. */
    method Cancel(ghost n: Node) returns (effective: bool)
      modifies this
      ensures Agrees(NodeNext(old(On(n)), NodeCancel))
      ensures effective == (!old(cancelRequested) && !old(phase).PublicCommitted?)
    {
      effective := !phase.PublicCommitted? && !cancelRequested;
      if effective {
        cancelRequested := true;
      }
    }

    method NoteNodeReady(ghost n: Node, autoCommit: bool) returns (ready: bool)
      requires phase.NodeBound? && n.task.Attached?
      modifies this
      ensures Agrees(NodeNext(old(On(n)), NoteReady(autoCommit)))
      ensures ready == !old(cancelRequested)
    {
      phase := if autoCommit && !cancelRequested then PublicCommitted else Provisional;
      ready := !cancelRequested;
    }

    method MarkHandoffReady(ghost n: Node)
      requires n.task.Noted?
      modifies this
      ensures Agrees(NodeNext(old(On(n)), MarkHandoff))
    {
      if phase.Provisional? {
        handoffReady := true;
      }
    }

    method CommitPublicSuccess(ghost n: Node) returns (committed: Option<bool>)
      modifies this
      ensures (On(n), committed) == PublicCommit(old(On(n)))
    {
      match phase {
        case Provisional =>
          if !handoffReady {
            return None;
          }
          if cancelRequested {
            return Some(false);
          }
          phase := PublicCommitted;
          return Some(true);
        case PublicCommitted =>
          return Some(true);
        case _ =>
          return None;
      }
    }
  }
}
