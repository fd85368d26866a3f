// Watch-before-read over whole runs, and the runs in which it fails.

module TopologyTheorems {
  import opened Paths
  import opened Exclusions
  import opened Topology
  import opened TopologyEnvironment
  import opened TopologyRecords
  import opened TopologyWalk
  import opened TopologyInterests
  import opened TopologyBase

  // ----- every step --------------------------------------------------------

  lemma {:induction false} RemoveAllLossy(s: State, order: seq<Path>)
    requires Lossy(s)
    ensures Lossy(RemoveAll(s, order))
    decreases |order|
  {
    if order != [] {
      var u := if order[0] in s.watched then RemoveInterest(s, order[0]) else s;
      if Overflow in s.queue {
        var k :| 0 <= k < |s.queue| && s.queue[k] == Overflow;
        assert u.queue[k] == Overflow;
      }
      RemoveAllLossy(u, order[1..]);
    }
  }

  lemma HandleLossy(s: State, order: seq<Path>)
    requires Lossy(s) && s.queue != []
    ensures Lossy(HandleRecord(s, order))
  {
    var u := s.(queue := s.queue[1..]);
    if s.queue[0] != Overflow {
      assert s.queue == [s.queue[0]] + u.queue;
      assert Lossy(u);
      if s.queue[0].Gone? { RemoveAllLossy(u, order); }
    }
  }

  lemma StaleLossy(s: State, order: seq<Path>, noted: bool)
    requires Lossy(s) && s.open.Some?
    ensures Lossy(FoundStale(s, order, noted))
  {
    RemoveAllLossy(s, order);
    RemoveAllWalk(s, order);
  }

  lemma InternalLossy(s: State, step: Step)
    requires Lossy(s) && Enabled(s, step) && Internal(step) && !step.StartScan?
    ensures Lossy(Next(s, step))
  {
    InternalShape(s, step);
    if Overflow !in s.queue {
      match step {
        case Pick | StartPromotion(_) | Skip | Deny(_, _) => OpeningLossy(s, step);
        case Race | Read => ReadLossy(s, step);
        case Entry(_, _) | EntryError(_) | Finish | FinishJob | Replace(_) | Include(_) => ListingLossy(s, step);
        case _ =>
      }
    }
  }

  lemma OpeningLossy(s: State, step: Step)
    requires Lossy(s) && Overflow !in s.queue && Enabled(s, step)
    requires step.Pick? || step.StartPromotion? || step.Skip? || step.Deny?
    ensures Lossy(Next(s, step))
  {
  }

  lemma ReadLossy(s: State, step: Step)
    requires Lossy(s) && Overflow !in s.queue && Enabled(s, step) && (step.Read? || step.Race?)
    ensures Lossy(Next(s, step))
  {
  }

  lemma ListingLossy(s: State, step: Step)
    requires Lossy(s) && Overflow !in s.queue && Enabled(s, step)
    requires step.Entry? || step.EntryError? || step.Finish? || step.FinishJob? || step.Replace? || step.Include?
    ensures Lossy(Next(s, step))
  {
  }

  lemma KeepsOverflow(s: State, t: State)
    requires Lossy(s) && |s.queue| <= |t.queue| && s.queue == t.queue[..|s.queue|]
    requires t.uncertain == s.uncertain && UnderWay(t) == UnderWay(s) && (UnderWay(s) ==> t.scan.value.raised == s.scan.value.raised)
    ensures Lossy(t)
  {
    if Overflow in s.queue {
      var k :| 0 <= k < |s.queue| && s.queue[k] == Overflow;
      assert t.queue[k] == Overflow;
    }
  }

  /** Where detail may have been lost, nothing but the beginning of a scan makes up for it. */
  lemma LossyStays(s: State, step: Step)
    requires Lossy(s) && Enabled(s, step) && !step.StartScan?
    ensures Lossy(Next(s, step))
  {
    if Internal(step) {
      InternalLossy(s, step);
    } else if step.Handle? {
      HandleLossy(s, step.order);
    } else if step.Stale? {
      StaleLossy(s, step.order, step.noted);
    } else if Registers(step) {
      InterestLossy(s, step);
    } else {
      EnvironmentLossy(s, step);
    }
  }

  lemma InterestLossy(s: State, step: Step)
    requires Lossy(s) && Enabled(s, step) && Registers(step) && !step.Stale?
    ensures Lossy(Next(s, step))
  {
    if step.Add? { AddLossy(s); } else { DropLossy(s, step); }
  }

  lemma AddLossy(s: State)
    requires Lossy(s) && Enabled(s, Add)
    ensures Lossy(Next(s, Add))
  {
    KeepsOverflow(s, Next(s, Add));
  }

  lemma DropLossy(s: State, step: Step)
    requires Lossy(s) && Enabled(s, step) && (step.Identify? || step.DropExcluded? || step.SweepWatched?)
    ensures Lossy(Next(s, step))
  {
    KeepsOverflow(s, Next(s, step));
  }

  lemma EnvironmentLossy(s: State, step: Step)
    requires Lossy(s) && Enabled(s, step)
    requires step.NewDirectory? || step.LinkName? || step.UnlinkName? || step.KernelDrops? || step.QueueOverflows?
    ensures Lossy(Next(s, step))
  {
    KeepsOverflow(s, Next(s, step));
  }

  lemma DenialKeeps(s: State, readOn: bool, noted: bool)
    requires Sound(s) && Base(s) && Enabled(s, Deny(readOn, noted)) && !Lapse(s, Deny(readOn, noted))
    ensures Sound(Refuse(s, readOn, noted))
  {
    if noted || Seen(s, s.open.value.path) { DenyKeeps(s, readOn, noted); } else { UnnotedKeepsExactly(s); }
  }

  lemma OpeningKeeps(s: State, step: Step)
    requires Sound(s) && Base(s) && Enabled(s, step) && !Lapse(s, step)
    requires Opens(step)
    ensures Lossy(Next(s, step)) || Sound(Next(s, step))
  {
    match step {
      case Pick => PickKeeps(s);
      case StartPromotion(a) => PromotionKeeps(s, a);
      case Skip => SkipKeeps(s);
      case Deny(readOn, noted) => DenialKeeps(s, readOn, noted);
      case Race =>
      case Read => ReadKeeps(s);
    }
  }

  lemma ListingKeeps(s: State, step: Step)
    requires Sound(s) && Base(s) && Enabled(s, step) && !Lapse(s, step)
    requires Lists(step)
    ensures Sound(Next(s, step))
  {
    match step {
      case Entry(n, directory) => EntryKeeps(s, n, directory);
      case EntryError(n) => EntryErrorKeeps(s, n);
      case Finish => FinishKeepsExactly(s);
    }
  }

  lemma BetweenKeeps(s: State, step: Step)
    requires Sound(s) && Enabled(s, step) && Moves(step)
    ensures Sound(Next(s, step))
  {
    match step {
      case FinishJob => FinishJobKeeps(s);
      case Replace(policy) => ReplaceKeeps(s, policy);
      case Include(order) => IncludeKeeps(s, order);
    }
  }

  lemma TransactionKeeps(s: State, step: Step)
    requires Sound(s) && Base(s) && Enabled(s, step) && !Lapse(s, step)
    requires Transacts(step)
    ensures Lossy(Next(s, step)) || Sound(Next(s, step))
  {
    match step {
      case Doubt =>
      case Reconcile => ReconcileKeeps(s);
      case StartScan => StartScanRestores(s);
      case StartSweep => StartSweepKeeps(s);
      case SweepDeferred(p) => SweepDeferredKeeps(s, p);
      case Commit(sent) => CommitKeeps(s, sent);
    }
  }

  lemma ReconcileKeeps(s: State)
    requires Sound(s) && Enabled(s, Reconcile)
    ensures Sound(Next(s, Reconcile))
  {
    ScanKeeps(s, Next(s, Reconcile));
  }

  lemma StartSweepKeeps(s: State)
    requires Sound(s) && Enabled(s, StartSweep)
    ensures Sound(Next(s, StartSweep))
  {
    ScanKeeps(s, Next(s, StartSweep));
  }

  lemma UnlinkNameKeeps(s: State, i: Ino, n: Name)
    requires Sound(s) && Enabled(s, UnlinkName(i, n, false))
    ensures Sound(Next(s, UnlinkName(i, n, false)))
  {
    UnlinkKeeps(s, i, n);
    PruneKeeps(Unlink(s, i, n, false), i, n);
  }

  lemma NextKeepsWhenExact(s: State, step: Step)
    requires Sound(s) && Base(s) && Enabled(s, step) && !Lapse(s, step) && !Lossy(s)
    ensures Lossy(Next(s, step)) || Sound(Next(s, step))
  {
    if Opens(step) {
      OpeningKeeps(s, step);
    } else if Lists(step) {
      ListingKeeps(s, step);
    } else if Moves(step) {
      BetweenKeeps(s, step);
    } else if Transacts(step) {
      TransactionKeeps(s, step);
    } else if Registers(step) {
      InterestKeeps(s, step);
    } else if step.Handle? {
      HandleKeeps(s, step.order);
    } else {
      EnvironmentKeeps(s, step);
    }
  }

  lemma EnvironmentKeeps(s: State, step: Step)
    requires Sound(s) && Enabled(s, step) && !Lossy(s)
    requires step.NewDirectory? || step.LinkName? || step.UnlinkName? || step.KernelDrops? || step.QueueOverflows?
    ensures Lossy(Next(s, step)) || Sound(Next(s, step))
  {
    match step {
      case NewDirectory(x) => NewDirectoryKeeps(s, x);
      case LinkName(i, n, x, lost) => LinkKeeps(s, i, n, x);
      case UnlinkName(i, n, lost) => UnlinkNameKeeps(s, i, n);
      case KernelDrops(wd, lost) => DropKeeps(s, wd);
      case QueueOverflows => assert Next(s, step).queue[|s.queue|] == Overflow;
    }
  }

  lemma InterestKeeps(s: State, step: Step)
    requires Sound(s) && Base(s) && Enabled(s, step)
    requires Registers(step)
    ensures Sound(Next(s, step))
  {
    match step {
      case Identify => IdentifyKeeps(s);
      case Add => AddKeeps(s);
      case Stale(order, noted) => StaleKeeps(s, order, noted);
      case DropExcluded(p) => DropExcludedKeeps(s, p);
      case SweepWatched(p) => SweepWatchedKeeps(s, p);
    }
  }

  /**
   * Every step keeps the account, and where detail was lost the beginning of a reconciliation's scan restores it, which
   * then lasts through the scan, the sweep and the commit unless something raises uncertainty meanwhile.
   */
  lemma NextKeeps(s: State, step: Step)
    requires Inv(s) && Enabled(s, step) && !Lapse(s, step)
    ensures Inv(Next(s, step))
  {
    BaseKeeps(s, step);
    if !Lossy(s) {
      NextKeepsWhenExact(s, step);
    } else if step.StartScan? {
      StartScanRestores(s);
    } else {
      LossyStays(s, step);
    }
  }

  // ----- every run ---------------------------------------------------------

  /** A subscription whose establishment is about to walk a tree it has not looked at yet. */
  ghost predicate Start(s: State)
  {
    && TreeOk(s) && s.live == map[] && s.queue == []
    && s.watched == map[] && s.identity == map[] && s.expects == {}
    && s.jobs == [Job([[]], None, false)] && s.open == None
    && s.deferred == {} && s.toInclude == None && !s.uncertain && s.scan == None
  }

  ghost predicate Run(states: seq<State>, steps: seq<Step>)
  {
    && |states| == |steps| + 1
    && Start(states[0])
    && forall k :: 0 <= k < |steps| ==> Enabled(states[k], steps[k]) && states[k + 1] == Next(states[k], steps[k])
  }

  ghost predicate FreeOfLapses(states: seq<State>, steps: seq<Step>)
  {
    |states| == |steps| + 1 && forall k :: 0 <= k < |steps| ==> !Lapse(states[k], steps[k])
  }

  lemma StartKeeps(s: State)
    requires Start(s)
    ensures Inv(s)
  {
    NothingHitsTheRoot(s);
    assert [] in s.jobs[0].dirs;
    assert Frontier(s, []);
    forall p ensures Owed(s, p) { assert [] <= p; }
  }

  /**
   * On every interleaving with other processes, each existing directory stays watched or owed a visit, and is so again
   * from the beginning of the first scan after detail was lost. A `Lapse` is what exactly breaks this, in terms of what
   * exists; its caller-checkable form, in terms of what the worker can see, is `Careless` (`CarefulCompletenessIsReal`).
   */
  lemma {:induction false} WatchBeforeRead(states: seq<State>, steps: seq<Step>, k: nat)
    requires Run(states, steps) && FreeOfLapses(states, steps) && k < |states|
    ensures Inv(states[k])
    ensures Lossy(states[k]) || Accounted(states[k])
    decreases k
  {
    if k == 0 {
      StartKeeps(states[0]);
    } else {
      WatchBeforeRead(states, steps, k - 1);
      NextKeeps(states[k - 1], steps[k - 1]);
    }
  }

  /** Nothing queued, nothing in progress, and coverage reported as complete. */
  ghost predicate QuietAndComplete(s: State)
  {
    && s.queue == [] && s.jobs == [] && s.open == None && s.deferred == {} && s.toInclude == None
    && !s.uncertain && s.scan == None
  }

  /**
   * Complete coverage of a quiet subscription means that every directory has a live watch on it, whether nothing was ever
   * lost or a reconciliation has made up for it.
   */
  lemma CompleteMeansWatched(states: seq<State>, steps: seq<Step>, k: nat, p: Path)
    requires Run(states, steps) && FreeOfLapses(states, steps) && k < |states|
    requires QuietAndComplete(states[k])
    requires Exists(states[k], p) && !Excluded(states[k], p)
    ensures Good(states[k], p)
  {
    WatchBeforeRead(states, steps, k);
  }

  // ----- what a worker that checks gets ------------------------------------

  /**
   * A registered path is opened without an identity check although another directory has taken the place of the
   * registered one, a listing ends that has just deferred its own directory for an entry it could not classify, a scan
   * begins with a removal record unread, or a scan defers a directory it has not come across without noting it.
   */
  ghost predicate Careless(s: State, step: Step)
  {
    || (step.Skip? && Opened(s) && s.open.value.path in s.watched && !Matches(s, s.open.value.path))
    || (step.Finish? && StreamOpen(s) && !s.jobs[0].active.value.atLimit
        && s.jobs[0].active.value.path in s.deferred)
    || (step.StartScan? && exists k :: 0 <= k < |s.queue| && s.queue[k].Gone?)
    || (step.Deny? && !step.noted && s.open.Some? && !Seen(s, s.open.value.path))
  }

  lemma LapsesAreCareless(s: State, step: Step)
    requires Inv(s) && Enabled(s, step) && Lapse(s, step) && (Sound(s) || step.StartScan?)
    ensures Careless(s, step)
  {
    if step.Skip? && Matches(s, s.open.value.path) {
      MatchingSkipIsSafe(s);
    }
    if step.Finish? {
      NotDeferredIsNotForsaken(s, s.jobs[0].active.value.path);
    }
  }

  lemma NotDeferredIsNotForsaken(s: State, a: Path)
    requires Accounted(s)
    ensures a in s.deferred || !Forsaken(s, s.(deferred := s.deferred - {a}), a)
  {
    if a !in s.deferred {
      assert s.deferred - {a} == s.deferred;
    }
  }

  /** A reconciling job compares identities before it skips, so it is never careless there. */
  lemma ReconciliationIsCareful(s: State)
    requires Sound(s) && Base(s) && Enabled(s, Skip) && s.open.value.reconciling
    ensures !Careless(s, Skip) && Accounted(SkipAdd(s))
  {
    MatchingSkipIsSafe(s);
    SkipKeeps(s);
  }

  lemma {:induction false} CarefulRunsKeep(states: seq<State>, steps: seq<Step>, k: nat)
    requires Run(states, steps) && k < |states|
    requires forall j :: 0 <= j < k ==> !Careless(states[j], steps[j])
    ensures Inv(states[k])
    decreases k
  {
    if k == 0 {
      StartKeeps(states[0]);
    } else {
      var s, step := states[k - 1], steps[k - 1];
      CarefulRunsKeep(states, steps, k - 1);
      if Lossy(s) && !step.StartScan? {
        BaseKeeps(s, step);
        LossyStays(s, step);
      } else {
        if Lapse(s, step) { LapsesAreCareless(s, step); }
        NextKeeps(s, step);
      }
    }
  }

  /** Where no step was careless, complete coverage of a quiet subscription means every directory has a live watch. */
  lemma CarefulCompletenessIsReal(states: seq<State>, steps: seq<Step>, k: nat, p: Path)
    requires Run(states, steps) && k < |states|
    requires forall j :: 0 <= j < k ==> !Careless(states[j], steps[j])
    requires QuietAndComplete(states[k]) && Exists(states[k], p) && !Excluded(states[k], p)
    ensures Good(states[k], p)
  {
    CarefulRunsKeep(states, steps, k);
  }

  // ----- exactly when skipping the add is safe -----------------------------

  /** Reading a registered directory without adding keeps the account if and only if it is not orphaned. */
  lemma SkipIsSafeExactly(s: State)
    requires Sound(s) && Enabled(s, Skip) && Enabled(SkipAdd(s), Read)
    ensures Accounted(ReadNow(SkipAdd(s))) <==> !Orphaned(SkipAdd(s), s.open.value.path)
  {
    if !Orphaned(SkipAdd(s), s.open.value.path) {
      SkipKeeps(s);
      ReadKeeps(SkipAdd(s));
    } else {
      OrphanStays(SkipAdd(s));
    }
  }

  /** A directory orphaned when it is read is still so once its listing is open. */
  lemma OrphanStays(u: State)
    requires Enabled(u, Read) && Orphaned(u, u.open.value.path)
    ensures !Accounted(ReadNow(u))
  {
    var a, t, u0 := u.open.value.path, ReadNow(u), u.(open := None);
    SameElsewhere(t, u);
    SameElsewhere(t, u0);
    forall b | b <= a && Queued(t, b) ensures Queued(u0, b) {
      if InJob(t, b) {
        var j :| 0 <= j < |t.jobs| && b in t.jobs[j].dirs;
        assert j < |u.jobs| && b in u0.jobs[j].dirs;
      }
      if ToRead(t, b) {
        var j :| Streaming(t, j, Parent(b)) && b[|b| - 1] in t.jobs[j].active.value.remaining;
        assert t.jobs[j].active.value.path != a;
        assert Streaming(u0, j, Parent(b));
      }
    }
    if Owed(t, a) { RequeueOwed(t, u0, a); }
    assert Exists(t, a) && !Excluded(t, a) && !Settled(t, a) && !Owed(t, a);
  }
}
