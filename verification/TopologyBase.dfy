// What every step keeps whatever was lost: the tree, the registry of watches, the order
// of records about one watch, and the bookkeeping of a reconciliation.

module TopologyBase {
  import opened Paths
  import opened Topology
  import opened TopologyEnvironment
  import opened TopologyRecords
  import opened TopologyInterests

  // Kinds of steps, other than records handled and what the environment does.

  predicate Opens(step: Step) { step.Pick? || step.StartPromotion? || step.Skip? || step.Deny? || step.Race? || step.Read? }

  predicate Lists(step: Step) { step.Entry? || step.EntryError? || step.Finish? }

  predicate Moves(step: Step) { step.FinishJob? || step.Replace? || step.Include? }

  predicate Transacts(step: Step) { step.Doubt? || step.Reconcile? || step.StartScan? || step.StartSweep? || step.SweepDeferred? || step.Commit? }

  predicate Registers(step: Step) { step.Identify? || step.Add? || step.Stale? || step.DropExcluded? || step.SweepWatched? }

  ghost predicate Kernel(s: State)
  {
    TreeOk(s) && RegistryOk(s) && QueueFacts(s)
  }

  /** Only the worker's bookkeeping and the queue's front differ. */
  lemma SameKernel(s: State, t: State)
    requires Kernel(s)
    requires t.kids == s.kids && t.root == s.root && t.dead == s.dead && t.live == s.live && t.nextWd == s.nextWd
    requires t.queue == s.queue || (s.queue != [] && t.queue == s.queue[1..])
    requires t.watched == s.watched && t.identity == s.identity
    ensures Kernel(t)
  {
    if t.queue != s.queue {
      assert forall k :: 0 <= k < |t.queue| ==> t.queue[k] == s.queue[k + 1];
    }
  }

  lemma AppendedFacts(s: State, t: State, r: Record)
    requires RegistryOk(s) && QueueFacts(s) && t.queue == s.queue + [r] && t.nextWd == s.nextWd && t.live == s.live
    requires r.Overflow? || (!r.Ignored? && r.wd in s.live)
    ensures QueueFacts(t)
  {
  }

  lemma NotifyKernel(s: State, i: Ino, made: bool, n: Name, lost: bool)
    requires Kernel(s)
    ensures Kernel(Notify(s, i, made, n, lost))
  {
    var t := Notify(s, i, made, n, lost);
    if t != s {
      AppendedFacts(s, t, t.queue[|s.queue|]);
    }
  }

  lemma DropKernel(s: State, wd: Wd, lost: bool)
    requires Kernel(s) && Enabled(s, KernelDrops(wd, lost))
    ensures Kernel(DropWatch(s, wd, lost))
  {
    var t := DropWatch(s, wd, lost);
    assert TreeOk(t);
    assert RegistryOk(t);
    DropFacts(s, t, wd);
  }

  lemma DropFacts(s: State, t: State, wd: Wd)
    requires RegistryOk(s) && QueueFacts(s) && wd in s.live && t.nextWd == s.nextWd && t.live == s.live - {wd}
    requires t.queue == s.queue || t.queue == s.queue + [SelfGone(wd), Ignored(wd)]
    ensures QueueFacts(t)
  {
  }

  lemma EnvironmentKernel(s: State, step: Step)
    requires Kernel(s) && Enabled(s, step)
    requires step.NewDirectory? || step.LinkName? || step.UnlinkName? || step.KernelDrops? || step.QueueOverflows?
    ensures Kernel(Next(s, step))
  {
    if step.NewDirectory? {
      assert RegistryOk(Next(s, step));
    } else if step.LinkName? {
      LinkKernel(s, step.i, step.n, step.x, step.lost);
    } else if step.UnlinkName? {
      UnlinkKernel(s, step.i, step.n, step.lost);
    } else if step.KernelDrops? {
      DropKernel(s, step.wd, step.lost);
    } else {
      AppendedFacts(s, Next(s, step), Overflow);
    }
  }

  lemma LinkKernel(s: State, i: Ino, n: Name, x: Ino, lost: bool)
    requires Kernel(s) && Enabled(s, LinkName(i, n, x, lost))
    ensures Kernel(Link(s, i, n, x, lost))
  {
    var u := s.(kids := s.kids[i := WithName(s.kids[i], n, x)]);
    assert TreeOk(u) && RegistryOk(u);
    NotifyKernel(u, i, true, n, lost);
  }

  lemma UnlinkKernel(s: State, i: Ino, n: Name, lost: bool)
    requires Kernel(s) && Enabled(s, UnlinkName(i, n, lost))
    ensures Kernel(Next(s, UnlinkName(i, n, lost)))
  {
    var u := s.(kids := s.kids[i := WithoutName(s.kids[i], n)]);
    assert TreeOk(u) && RegistryOk(u);
    NotifyKernel(u, i, false, n, lost);
    SameKernel(Unlink(s, i, n, lost), Next(s, UnlinkName(i, n, lost)));
  }

  lemma RemoveInterestKernel(s: State, p: Path)
    requires Kernel(s) && p in s.watched
    ensures Kernel(RemoveInterest(s, p))
  {
    RemoveInterestRegistry(s, p);
  }

  lemma {:induction false} RemoveAllKernel(s: State, order: seq<Path>)
    requires Kernel(s)
    ensures Kernel(RemoveAll(s, order))
    decreases |order|
  {
    if order != [] {
      if order[0] in s.watched {
        RemoveInterestKernel(s, order[0]);
      }
      RemoveAllKernel(if order[0] in s.watched then RemoveInterest(s, order[0]) else s, order[1..]);
    }
  }

  lemma RemoveSubtreesKernel(s: State, tops: set<Path>, order: seq<Path>)
    requires Kernel(s)
    ensures Kernel(RemoveSubtrees(s, tops, order))
  {
    RemoveAllKernel(s, order);
    SameKernel(RemoveAll(s, order), RemoveSubtrees(s, tops, order));
  }

  lemma HandleKernel(s: State, order: seq<Path>)
    requires Kernel(s) && s.queue != []
    ensures Kernel(HandleRecord(s, order))
  {
    var u := s.(queue := s.queue[1..]);
    SameKernel(s, u);
    match s.queue[0] {
      case Gone(wd, n) => RemoveSubtreesKernel(u, Reported(s, wd, n), order);
      case Ignored(wd) => EndedKernel(u, wd);
      case _ => SameKernel(u, HandleRecord(s, order));
    }
  }

  lemma EndedKernel(s: State, wd: Wd)
    requires Kernel(s) && wd !in s.live
    ensures Kernel(WatchEnded(s, wd))
  {
    EndedShape(s, wd);
    EndedRegistry(s, wd);
  }

  lemma AddKernel(s: State)
    requires Kernel(s) && Enabled(s, Add)
    ensures Kernel(Next(s, Add))
  {
    var i := At(s, s.open.value.path).value;
    InTree(s, s.open.value.path);
    AddedKernel(s, AddInterest(s, i), i);
  }

  lemma AddedKernel(s: State, t: State, i: Ino)
    requires Kernel(s) && s.open.Some? && i !in s.dead && t == AddInterest(s, i)
    ensures Kernel(t)
  {
    AddRegistry(s, t, i);
    AddFacts(s, t, i);
  }

  lemma AddFacts(s: State, t: State, i: Ino)
    requires QueueFacts(s) && s.open.Some? && t == AddInterest(s, i)
    ensures QueueFacts(t)
  {
  }

  /** Steps that touch only what the worker keeps for itself. */
  predicate Internal(step: Step)
  {
    match step
    case Pick | StartPromotion(_) | Skip | Deny(_, _) | Race | Read | Entry(_, _) | EntryError(_) | Finish | FinishJob
      | Replace(_) | Include(_) | Doubt | Reconcile | StartScan | StartSweep | SweepDeferred(_) | Commit(_) => true
    case _ => false
  }

  predicate SameWorld(s: State, t: State)
  {
    && t.kids == s.kids && t.root == s.root && t.dead == s.dead && t.live == s.live && t.nextWd == s.nextWd
    && t.queue == s.queue && t.watched == s.watched && t.identity == s.identity
  }

  lemma PickShape(s: State)
    requires s.jobs != [] && s.jobs[0].dirs != []
    ensures SameWorld(s, PickDirectory(s))
  {
    var t := s.(jobs := s.jobs[0 := s.jobs[0].(dirs := s.jobs[0].dirs[1..])]);
    assert SameWorld(s, t);
  }

  lemma OpenedShape(s: State, step: Step)
    requires Enabled(s, step) && (step.Skip? || step.Deny?)
    ensures SameWorld(s, Next(s, step))
  {
  }

  lemma ReadShape(s: State, step: Step)
    requires Enabled(s, step) && (step.Read? || step.Race?)
    ensures SameWorld(s, Next(s, step))
  {
  }

  lemma ListingShape(s: State, step: Step)
    requires Enabled(s, step)
    requires step.Entry? || step.EntryError? || step.Finish? || step.FinishJob? || step.Replace? || step.Include?
    ensures SameWorld(s, Next(s, step))
  {
  }

  lemma InternalShape(s: State, step: Step)
    requires Enabled(s, step) && Internal(step)
    ensures SameWorld(s, Next(s, step))
  {
    if step.Pick? {
      PickShape(s);
    } else if step.StartPromotion? {
      assert SameWorld(s, Promote(s, step.a));
    } else if step.Skip? || step.Deny? {
      OpenedShape(s, step);
    } else if step.Race? || step.Read? {
      ReadShape(s, step);
    } else if Lists(step) || Moves(step) {
      ListingShape(s, step);
    } else {
      TransactionShape(s, step);
    }
  }

  lemma TransactionShape(s: State, step: Step)
    requires Enabled(s, step) && Transacts(step)
    ensures SameWorld(s, Next(s, step))
  {
  }

  lemma StepKernel(s: State, step: Step)
    requires Kernel(s) && Enabled(s, step)
    ensures Kernel(Next(s, step))
  {
    if Internal(step) {
      InternalShape(s, step);
      SameKernel(s, Next(s, step));
    } else if step.Handle? {
      HandleKernel(s, step.order);
    } else if Registers(step) {
      RegisterKernel(s, step);
    } else {
      EnvironmentKernel(s, step);
    }
  }

  lemma RegisterKernel(s: State, step: Step)
    requires Kernel(s) && Enabled(s, step) && Registers(step)
    ensures Kernel(Next(s, step))
  {
    if step.Identify? {
      RemoveInterestKernel(s, s.open.value.path);
    } else if step.Add? {
      AddKernel(s);
    } else if step.Stale? {
      StaleKernel(s, step.order, step.noted);
    } else if step.DropExcluded? {
      DropExcludedKernel(s, step.p);
    } else {
      RemoveInterestKernel(s, step.p);
    }
  }

  lemma StaleKernel(s: State, order: seq<Path>, noted: bool)
    requires Kernel(s) && s.open.Some?
    ensures Kernel(FoundStale(s, order, noted))
  {
    RemoveSubtreesKernel(s, {s.open.value.path}, order);
    SameKernel(RemoveSubtrees(s, {s.open.value.path}, order), FoundStale(s, order, noted));
  }

  lemma DropExcludedKernel(s: State, p: Path)
    requires Kernel(s) && Enabled(s, DropExcluded(p))
    ensures Kernel(Next(s, DropExcluded(p)))
  {
    var u := if p in s.watched then RemoveInterest(s, p) else s;
    if p in s.watched { RemoveInterestKernel(s, p); }
    SameKernel(u, Next(s, DropExcluded(p)));
  }

  // ----- reconciliations and the opening -----------------------------------

  ghost predicate WalkOk(s: State)
  {
    ScanOk(s) && (s.open.Some? ==> !Excluded(s, s.open.value.path))
  }

  /** The walk is as it was, and so is the reconciliation. */
  predicate SameWalk(s: State, t: State)
  {
    && t.jobs == s.jobs && t.open == s.open && t.scan == s.scan && t.policy == s.policy && t.toInclude == s.toInclude
  }

  lemma {:induction false} RemoveAllWalk(s: State, order: seq<Path>)
    ensures SameWalk(s, RemoveAll(s, order))
    decreases |order|
  {
    if order != [] {
      RemoveAllWalk(if order[0] in s.watched then RemoveInterest(s, order[0]) else s, order[1..]);
    }
  }

  lemma HandleWalk(s: State, order: seq<Path>)
    requires WalkOk(s) && s.open.None? && HandleEnabled(s, order)
    ensures WalkOk(HandleRecord(s, order))
  {
    var u := s.(queue := s.queue[1..]);
    match s.queue[0] {
      case Gone(_, _) => RemoveAllWalk(u, order);
      case Made(_, _) => MadeWalk(s, order);
      case _ =>
    }
  }

  lemma MadeWalk(s: State, order: seq<Path>)
    requires WalkOk(s) && s.open.None? && s.queue != [] && s.queue[0].Made?
    ensures WalkOk(HandleRecord(s, order))
  {
  }

  lemma EnvironmentWalk(s: State, step: Step)
    requires WalkOk(s) && Enabled(s, step)
    requires step.NewDirectory? || step.LinkName? || step.UnlinkName? || step.KernelDrops? || step.QueueOverflows?
    ensures WalkOk(Next(s, step))
  {
    if step.UnlinkName? {
      var t := Unlink(s, step.i, step.n, step.lost);
      assert SameWalk(s, t);
      assert forall j :: 0 <= j < |t.jobs| ==> Pruned(t.jobs, step.i, step.n)[j] == PrunedJob(t.jobs[j], step.i, step.n);
    } else {
      assert SameWalk(s, Next(s, step));
    }
  }

  lemma OpeningWalk(s: State, step: Step)
    requires WalkOk(s) && Enabled(s, step)
    requires step.StartPromotion? || step.Skip? || step.Identify?
    ensures WalkOk(Next(s, step))
  {
  }

  lemma PickWalk(s: State)
    requires WalkOk(s) && Enabled(s, Pick)
    ensures WalkOk(PickDirectory(s))
  {
  }

  lemma AddWalk(s: State, i: Ino)
    requires WalkOk(s) && s.open.Some?
    ensures WalkOk(AddInterest(s, i))
  {
  }

  lemma OpenedWalk(s: State, step: Step)
    requires WalkOk(s) && Enabled(s, step)
    requires step.Deny? || step.Race? || step.Read?
    ensures WalkOk(Next(s, step))
  {
  }

  lemma StaleWalk(s: State, order: seq<Path>, noted: bool)
    requires WalkOk(s) && s.open.Some?
    ensures WalkOk(FoundStale(s, order, noted))
  {
    RemoveAllWalk(s, order);
  }

  lemma ListingWalk(s: State, step: Step)
    requires WalkOk(s) && Enabled(s, step)
    requires step.Entry? || step.EntryError? || step.Finish? || step.FinishJob? || step.Replace? || step.DropExcluded?
             || step.Include?
    ensures WalkOk(Next(s, step))
  {
  }

  lemma ScanWalk(s: State, step: Step)
    requires WalkOk(s) && Enabled(s, step)
    requires step.Doubt? || step.Reconcile? || step.StartScan? || step.StartSweep?
    ensures WalkOk(Next(s, step))
  {
  }

  lemma SweepWalk(s: State, step: Step)
    requires WalkOk(s) && Enabled(s, step)
    requires step.SweepWatched? || step.SweepDeferred? || step.Commit?
    ensures WalkOk(Next(s, step))
  {
  }

  lemma StepWalk(s: State, step: Step)
    requires WalkOk(s) && Enabled(s, step)
    ensures WalkOk(Next(s, step))
  {
    if step.Handle? {
      HandleWalk(s, step.order);
    } else if Lists(step) || Moves(step) || step.DropExcluded? {
      ListingWalk(s, step);
    } else if step.SweepWatched? || step.SweepDeferred? || step.Commit? {
      SweepWalk(s, step);
    } else if Transacts(step) {
      ScanWalk(s, step);
    } else if Opens(step) || Registers(step) {
      VisitWalk(s, step);
    } else {
      EnvironmentWalk(s, step);
    }
  }

  lemma VisitWalk(s: State, step: Step)
    requires WalkOk(s) && Enabled(s, step)
    requires Opens(step) || step.Identify? || step.Add? || step.Stale?
    ensures WalkOk(Next(s, step))
  {
    if step.Stale? {
      StaleWalk(s, step.order, step.noted);
    } else if step.Deny? || step.Race? || step.Read? {
      OpenedWalk(s, step);
    } else if step.Pick? {
      PickWalk(s);
    } else if step.Add? {
      AddWalk(s, At(s, s.open.value.path).value);
    } else {
      OpeningWalk(s, step);
    }
  }

  /** Whatever happens and whatever is lost, the base holds. */
  lemma BaseKeeps(s: State, step: Step)
    requires Base(s) && Enabled(s, step)
    ensures Base(Next(s, step))
  {
    StepKernel(s, step);
    StepWalk(s, step);
  }
}
