// Which subscriptions the worker's two queues hold, and why a shutdown can rely on it.

module Scheduling {
  import opened FairQueue
  import D = Disposal
  import R = Registry
  import T = Teardowns

  datatype Stage = Active | TearingDown(torn: T.Phase) | Disposing(disposed: D.Phase)

  /** A subscription and all it holds besides the watches the registry holds for it. */
  datatype Sub = Sub(stage: Stage, held: D.Holdings)

  /**
   * `assertions` tells whether debug assertions are evaluated. Two of them remove a subscription from the queues when
   * the teardown of an establishment ends, and do so only then.
   */
  datatype Worker = Worker(subs: map<Id, Sub>, allocator: Queue, runnable: Queue, registry: R.World, nextId: Id,
                           shuttingDown: bool, assertions: bool)

  function Scheduled(q: Queue, id: Id): Queue
  {
    Next(q, Op.Schedule(id))
  }

  function Without(q: Queue, id: Id): Queue
  {
    Next(q, Op.Remove(id))
  }

  function DisposalOf(w: Worker, id: Id): D.State
    requires id in w.subs && w.subs[id].stage.Disposing?
  {
    D.State(id, w.registry, w.subs[id].held, w.subs[id].stage.disposed)
  }

  function Part(held: D.Holdings): T.Held
  {
    T.Held(held.pending, held.deferred, held.deferredOrder, held.promotions, held.jobs)
  }

  function TeardownOf(w: Worker, id: Id, phase: T.Phase): T.State
    requires id in w.subs
  {
    T.State(id, w.registry, Part(w.subs[id].held), phase)
  }

  function Released(r: R.World, id: Id): R.World
  {
    if R.Enabled(r, R.Release(id)) then R.Next(r, R.Release(id)) else r
  }

  function BeginDisposal(w: Worker, id: Id): Worker
    requires id in w.subs
  {
    if w.subs[id].stage.Disposing? then w
    else w.(subs := w.subs[id := w.subs[id].(stage := Disposing(D.PendingPaths))],
            allocator := Without(w.allocator, id), runnable := Without(w.runnable, id),
            registry := if id in w.registry.subs then R.Next(w.registry, R.Dispose(id)) else w.registry)
  }

  /** What a turn finds when it looks at an active subscription. */
  datatype Finding = Idle | MoreWork | Cancelled | Failed

  /** What one turn of a disposal or of a teardown leaves, whichever it is. */
  datatype Quantum = Quantum(disposal: D.State, teardown: T.State, completed: bool)

  function TearDownTurn(w: Worker, id: Id, q: Quantum): Worker
    requires id in w.subs
  {
    var held := q.teardown.held;
    if q.completed then
      var v := w.(subs := w.subs - {id}, registry := Released(q.teardown.world, id));
      if w.assertions then v.(allocator := Without(w.allocator, id), runnable := Without(w.runnable, id)) else v
    else
      w.(subs := w.subs[id := Sub(TearingDown(q.teardown.phase), w.subs[id].held.(
           pending := held.pending, deferred := held.deferred, deferredOrder := held.deferredOrder,
           promotions := held.promotions, jobs := held.jobs))],
         registry := q.teardown.world, runnable := Scheduled(w.runnable, id))
  }

  function DisposalTurn(w: Worker, id: Id, q: Quantum): Worker
    requires id in w.subs
  {
    if q.completed then
      w.(subs := w.subs - {id}, allocator := Without(w.allocator, id), runnable := Without(w.runnable, id),
         registry := Released(q.disposal.world, id))
    else
      w.(subs := w.subs[id := Sub(Disposing(q.disposal.phase), q.disposal.held)], registry := q.disposal.world,
         runnable := Scheduled(w.runnable, id))
  }

  function Begun(w: Worker, id: Id): Worker
    requires id in w.subs
  {
    if w.shuttingDown then BeginDisposal(w, id) else w
  }

  function TurnOf(w: Worker, id: Id, finding: Finding, q: Quantum): Worker
  {
    if id !in w.subs then w
    else
      var b := Begun(w, id);
      match b.subs[id].stage
      case Disposing(_) => DisposalTurn(b, id, q)
      case TearingDown(_) => TearDownTurn(b, id, q)
      case Active =>
        match finding
        case Idle => b
        case MoreWork => b.(runnable := Scheduled(b.runnable, id))
        case _ => TearDownTurn(b, id, q)
  }

  /** The quantum is one that the subscription's disposal or teardown can take in its turn. */
  ghost predicate Fits(w: Worker, id: Id, finding: Finding, q: Quantum)
  {
    id in w.subs ==>
      var b := Begun(w, id);
      match b.subs[id].stage
      case Disposing(_) => D.Turn(DisposalOf(b, id), q.disposal, q.completed)
      case TearingDown(phase) => T.Turn(TeardownOf(b, id, phase), q.teardown, q.completed)
      case Active =>
        finding.Cancelled? || finding.Failed? ==> T.Turn(TeardownOf(b, id, T.PendingPaths), q.teardown, q.completed)
  }

  /** Pops one subscription and gives it a turn; the result tells whether there was one. */
  function TopologyTurn(w: Worker, finding: Finding, q: Quantum): (Worker, bool)
  {
    var popped := Popped(w.runnable);
    var u := w.(runnable := Next(w.runnable, Pop));
    if popped == {} then (u, false) else (TurnOf(u, Least(popped), finding, q), true)
  }

  ghost predicate TurnFits(w: Worker, finding: Finding, q: Quantum)
  {
    Popped(w.runnable) != {} ==> Fits(w.(runnable := Next(w.runnable, Pop)), Least(Popped(w.runnable)), finding, q)
  }

  /** Looks at one subscription after another for a directory to promote, and puts each back that is still there. */
  function PromotionLook(w: Worker): Worker
  {
    var popped := Popped(w.allocator);
    var u := w.(allocator := Next(w.allocator, Pop));
    if popped == {} || Least(popped) !in w.subs then u
    else u.(allocator := Scheduled(u.allocator, Least(popped)))
  }

  // ----- shutting down -----------------------------------------------------

  /** Why a shutdown turn panics. */
  datatype Cause = MemberNotLive | LiveNotMember | WatchesLeft

  datatype Result = Continue(worker: Worker) | Stop(worker: Worker) | Panic(cause: Cause)

  const MAX_DISPOSAL_ITEMS_PER_TURN: nat := 64

  function Lifetimes(r: R.World): nat
  {
    |r.retired| + |r.exhausted|
  }

  /** What is left after 64 retired lifetimes and quarantined descriptors are forgotten, the retired ones first. */
  predicate Forgotten(r: R.World, kept: R.World)
  {
    && kept == r.(retired := kept.retired, exhausted := kept.exhausted)
    && Lifetimes(kept) == (if Lifetimes(r) > MAX_DISPOSAL_ITEMS_PER_TURN then Lifetimes(r) - MAX_DISPOSAL_ITEMS_PER_TURN
                           else 0)
    && (kept.retired != map[] ==> kept.exhausted == r.exhausted)
  }

  /** One subscription more begins its disposal. */
  function DisposeNext(w: Worker): Worker
    requires Popped(w.allocator) != {} ==> Least(Popped(w.allocator)) in w.subs
  {
    var popped := Popped(w.allocator);
    var u := w.(allocator := Next(w.allocator, Pop));
    if popped == {} then u
    else
      var d := BeginDisposal(u, Least(popped));
      d.(runnable := Scheduled(d.runnable, Least(popped)))
  }

  predicate NamesTheDead(w: Worker)
  {
    Popped(w.allocator) != {} && Least(Popped(w.allocator)) !in w.subs
  }

  /** Then one has a turn, and once none is left the lifetimes go, a quantum at a time. */
  function ShutdownTurn(w: Worker, q: Quantum, kept: R.World): Result
  {
    if NamesTheDead(w) then Panic(MemberNotLive)
    else
      var (t, worked) := TopologyTurn(DisposeNext(w), Idle, q);
      if worked then Continue(t)
      else if t.subs != map[] then Panic(LiveNotMember)
      else if kept.retired != map[] || kept.exhausted != {} then Continue(t.(registry := kept))
      else if kept.watches != map[] || kept.identities != map[] then Panic(WatchesLeft)
      else Stop(t.(registry := kept))
  }

  ghost predicate ShutdownFits(w: Worker, q: Quantum, kept: R.World)
  {
    !NamesTheDead(w) ==>
      var b := DisposeNext(w);
      TurnFits(b, Idle, q) && (Popped(b.runnable) == {} ==> Forgotten(b.registry, kept))
  }

  // ----- steps -------------------------------------------------------------

  datatype Step =
    | Subscribe(limit: R.Option<nat>, held: D.Holdings)
    | Dispose(id: Id)
    | Wake(id: Id)
    | Gather(id: Id, held: D.Holdings)
    | Registry(step: R.Step)
    | Look
    | Turn(finding: Finding, quantum: Quantum)
    | Shutdown
    | ShutdownStep(quantum: Quantum, kept: R.World)

  /** What the registry does for active subscriptions and with the kernel's records; in a shutdown only the kernel acts. */
  predicate Served(w: Worker, step: R.Step)
  {
    match step
    case Subscribe(_, _) => false
    case Dispose(_) => false
    case Release(_) => false
    case Watch(id, _, _, _) => !w.shuttingDown && id in w.subs && w.subs[id].stage.Active?
    case Forget(id, _) => !w.shuttingDown && id in w.subs && w.subs[id].stage.Active?
    case Announce(_) => !w.shuttingDown
    case Handle => !w.shuttingDown
    case _ => true
  }

  ghost predicate Enabled(w: Worker, step: Step)
  {
    match step
    case Subscribe(limit, _) => !w.shuttingDown && R.Enabled(w.registry, R.Subscribe(w.nextId, limit))
    case Dispose(id) => !w.shuttingDown && id in w.subs && !w.subs[id].stage.Disposing?
    case Wake(id) => !w.shuttingDown && id in w.subs
    case Gather(id, _) => !w.shuttingDown && id in w.subs && !w.subs[id].stage.Disposing?
    case Registry(s) => R.Enabled(w.registry, s) && Served(w, s)
    case Look => !w.shuttingDown
    case Turn(finding, q) => !w.shuttingDown && TurnFits(w, finding, q)
    case Shutdown => !w.shuttingDown
    case ShutdownStep(q, kept) => w.shuttingDown && ShutdownFits(w, q, kept) && ShutdownTurn(w, q, kept).Continue?
  }

  ghost function After(w: Worker, step: Step): Worker
    requires Enabled(w, step)
  {
    match step
    case Subscribe(limit, held) =>
      w.(subs := w.subs[w.nextId := Sub(Active, held)], allocator := Scheduled(w.allocator, w.nextId),
         runnable := Scheduled(w.runnable, w.nextId), nextId := w.nextId + 1,
         registry := R.Next(w.registry, R.Subscribe(w.nextId, limit)))
    case Dispose(id) =>
      var d := BeginDisposal(w, id);
      d.(runnable := Scheduled(d.runnable, id))
    case Wake(id) => w.(runnable := Scheduled(w.runnable, id))
    case Gather(id, held) => w.(subs := w.subs[id := w.subs[id].(held := held)])
    case Registry(s) => w.(registry := R.Next(w.registry, s))
    case Look => PromotionLook(w)
    case Turn(finding, q) => TopologyTurn(w, finding, q).0
    case Shutdown => w.(shuttingDown := true)
    case ShutdownStep(q, kept) => ShutdownTurn(w, q, kept).worker
  }
}
