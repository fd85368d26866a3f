// What coverage is made of: which directories are registered, which are deferred, and
// whether it is uncertain, step by step and for every kind of step there is.

module TopologyEffects {
  import opened Paths
  import opened Exclusions
  import opened Topology
  import opened TopologyBase

  // ----- certainty ---------------------------------------------------------

  /** The record tells of a loss, or of the end of a watch that was not announced. */
  predicate TellsOfLoss(s: State)
    requires s.queue != []
  {
    match s.queue[0]
    case Overflow => true
    case Ignored(wd) => wd in s.identity && wd !in s.expects && exists p :: p in s.watched && s.watched[p] == wd
    case _ => false
  }

  ghost predicate Doubts(s: State, step: Step)
    requires Enabled(s, step)
  {
    step.Doubt? || step.Race? || (step.Handle? && TellsOfLoss(s))
  }

  ghost predicate CertainAfter(s: State, t: State, doubts: bool)
  {
    && t.uncertain == (s.uncertain || doubts)
    && (doubts && t.scan.Some? ==> t.scan.value.raised)
    && (s.scan.Some? && t.scan.Some? && t.scan.value.raised ==> s.scan.value.raised || doubts)
  }

  lemma {:induction false} RemoveAllCertain(s: State, order: seq<Path>)
    ensures var t := RemoveAll(s, order);
      t.uncertain == s.uncertain && t.scan == s.scan && t.deferred == s.deferred && t.expects <= s.expects
    decreases |order|
  {
    if order != [] {
      RemoveAllCertain(if order[0] in s.watched then RemoveInterest(s, order[0]) else s, order[1..]);
    }
  }

  lemma HandleCertain(s: State, order: seq<Path>)
    requires s.queue != []
    ensures CertainAfter(s, HandleRecord(s, order), TellsOfLoss(s))
  {
    var u := s.(queue := s.queue[1..]);
    match s.queue[0] {
      case Gone(_, _) => RemoveAllCertain(u, order);
      case Ignored(wd) =>
        if p :| p in s.watched && s.watched[p] == wd { assert p in Interests(u, wd); }
      case _ =>
    }
  }

  lemma OpeningCertain(s: State, step: Step)
    requires Enabled(s, step) && Opens(step)
    ensures CertainAfter(s, Next(s, step), step.Race?)
  {
    match step {
      case Pick => PickCertain(s);
      case Skip => assert Noted(s).Some? ==> Noted(s).value.raised == s.scan.value.raised;
      case _ =>
    }
  }

  lemma PickCertain(s: State)
    requires s.jobs != [] && s.jobs[0].dirs != []
    ensures var t := PickDirectory(s); t.uncertain == s.uncertain && t.scan == s.scan
  {
    var t := s.(jobs := s.jobs[0 := s.jobs[0].(dirs := s.jobs[0].dirs[1..])]);
    assert t.uncertain == s.uncertain && t.scan == s.scan;
  }

  lemma ListingCertain(s: State, step: Step)
    requires Enabled(s, step) && (Lists(step) || Moves(step))
    ensures CertainAfter(s, Next(s, step), false)
  {
  }

  lemma RegisterCertain(s: State, step: Step)
    requires Enabled(s, step) && Registers(step)
    ensures CertainAfter(s, Next(s, step), false)
  {
    if step.Stale? { RemoveAllCertain(s, step.order); }
  }

  lemma EnvironmentCertain(s: State, step: Step)
    requires Enabled(s, step)
    requires step.NewDirectory? || step.LinkName? || step.UnlinkName? || step.KernelDrops? || step.QueueOverflows?
    ensures CertainAfter(s, Next(s, step), false)
  {
  }

  /**
   * Coverage becomes uncertain exactly on an overflow, the unannounced end of a watch that somebody is interested in, a
   * race or a doubt raised elsewhere, and certain again exactly by a commit that nothing was raised since and whose batch
   * went out. A scan takes note of every doubt from its beginning on, and of nothing else.
   */
  lemma UncertainExactly(s: State, step: Step)
    requires Enabled(s, step)
    ensures var t := Next(s, step);
      && (if step.Commit? then t.uncertain == (!step.sent || (s.uncertain && s.scan.value.raised)) && t.scan.None?
          else t.uncertain == (s.uncertain || Doubts(s, step)))
      && (Doubts(s, step) && t.scan.Some? ==> t.scan.value.raised)
      && (step.StartScan? ==> !t.scan.value.raised)
      && (s.scan.Some? && t.scan.Some? && t.scan.value.raised ==> s.scan.value.raised || Doubts(s, step))
  {
    if step.Handle? {
      HandleCertain(s, step.order);
    } else if Opens(step) {
      OpeningCertain(s, step);
    } else if Lists(step) || Moves(step) {
      ListingCertain(s, step);
    } else if Registers(step) {
      RegisterCertain(s, step);
    } else if Transacts(step) {
      TransactionCertain(s, step);
    } else {
      EnvironmentCertain(s, step);
    }
  }

  lemma TransactionCertain(s: State, step: Step)
    requires Enabled(s, step) && Transacts(step)
    ensures var t := Next(s, step);
      && (if step.Commit? then t.uncertain == (!step.sent || (s.uncertain && s.scan.value.raised)) && t.scan.None?
          else CertainAfter(s, t, step.Doubt?))
      && (step.StartScan? ==> !t.scan.value.raised)
  {
  }

  /** The end of a watch is expected exactly from the record that announces it on, for as long as the watch is registered. */
  lemma AnnouncedExactly(s: State, order: seq<Path>, wd: Wd)
    requires Enabled(s, Handle(order)) && wd in s.identity
    ensures var t := Next(s, Handle(order));
      wd in t.identity ==> (wd in t.expects <==> wd in s.expects || s.queue[0] == SelfGone(wd))
  {
    if s.queue[0].Gone? { RemoveAllExpects(s.(queue := s.queue[1..]), order, wd); }
  }

  lemma {:induction false} RemoveAllExpects(s: State, order: seq<Path>, wd: Wd)
    ensures var t := RemoveAll(s, order);
      (wd in t.identity ==> wd in s.identity) && (wd in t.identity ==> (wd in t.expects <==> wd in s.expects))
    decreases |order|
  {
    if order != [] {
      RemoveAllExpects(if order[0] in s.watched then RemoveInterest(s, order[0]) else s, order[1..], wd);
    }
  }

  // ----- deferrals ---------------------------------------------------------

  /** The record is about the path as a registered directory above it sees its name, and the policy lets it be seen. */
  ghost predicate Names(s: State, r: Record, a: Path)
  {
    (r.Made? || r.Gone?) && a != [] && a[|a| - 1] == r.name && Interest(s, Parent(a), r.wd) && !Excluded(s, a)
  }

  lemma ReportedAreNamed(s: State, r: Record, a: Path)
    requires r.Made? || r.Gone?
    ensures a in Reported(s, r.wd, r.name) <==> Names(s, r, a)
  {
    EventsAsTheWalk(s.policy, a);
    assert a != [] && a[|a| - 1] == r.name ==> a == Parent(a) + [r.name];
    if a in Reported(s, r.wd, r.name) {
      var q :| q in s.watched && s.watched[q] == r.wd && a == q + [r.name];
      assert Parent(a) == q;
    }
  }

  /** The queued removal at the front forgets the path: it names it, or a directory above it. */
  ghost predicate RecordForgets(s: State, p: Path)
  {
    s.queue != [] && s.queue[0].Gone? && exists a :: a <= p && Names(s, s.queue[0], a)
  }

  lemma ForgetsWhatIsReported(s: State, p: Path)
    requires s.queue != [] && s.queue[0].Gone?
    ensures RecordForgets(s, p) <==> Under(Reported(s, s.queue[0].wd, s.queue[0].name), p)
  {
    if a :| a <= p && Names(s, s.queue[0], a) { ReportedAreNamed(s, s.queue[0], a); }
    if Under(Reported(s, s.queue[0].wd, s.queue[0].name), p) {
      var a :| a in Reported(s, s.queue[0].wd, s.queue[0].name) && a <= p;
      ReportedAreNamed(s, s.queue[0], a);
    }
  }

  ghost predicate Defers(s: State, step: Step, p: Path)
    requires Enabled(s, step)
  {
    || (step.Deny? && p == s.open.value.path)
    || (step.EntryError? && p == s.jobs[0].active.value.path)
  }

  /** The deferral ends: its subtree went or is hidden, it is watched now, it was read, or a scan did not come across it. */
  ghost predicate Undefers(s: State, step: Step, p: Path)
    requires Enabled(s, step)
  {
    match step
    case Handle(_) => RecordForgets(s, p)
    case Pick => Excluded(s, s.jobs[0].dirs[0]) && s.jobs[0].dirs[0] <= p
    case Add => p == s.open.value.path
    case Stale(_, _) => s.open.value.path <= p
    case Finish => p == s.jobs[0].active.value.path && !s.jobs[0].active.value.atLimit
    case DropExcluded(q) => p == q
    case SweepDeferred(q) => p == q
    case _ => false
  }

  /** A directory is deferred from exactly such a step on, until exactly such a one. */
  lemma DeferredExactly(s: State, step: Step, p: Path)
    requires Enabled(s, step)
    ensures p in Next(s, step).deferred <==> (p in s.deferred && !Undefers(s, step, p)) || Defers(s, step, p)
  {
    if step.Handle? {
      HandleDeferred(s, step.order, p);
    } else if Opens(step) {
      OpeningDeferred(s, step, p);
    } else if Lists(step) {
      ListingDeferred(s, step, p);
    } else if Registers(step) {
      RegisterDeferred(s, step, p);
    } else if !Transacts(step) && !Moves(step) {
      EnvironmentDeferred(s, step);
    }
  }

  lemma HandleDeferred(s: State, order: seq<Path>, p: Path)
    requires s.queue != []
    ensures p in HandleRecord(s, order).deferred <==> p in s.deferred && !RecordForgets(s, p)
  {
    RemoveAllCertain(s.(queue := s.queue[1..]), order);
    if s.queue[0].Gone? { ForgetsWhatIsReported(s, p); }
  }

  lemma OpeningDeferred(s: State, step: Step, p: Path)
    requires Enabled(s, step) && Opens(step)
    ensures p in Next(s, step).deferred <==> (p in s.deferred && !Undefers(s, step, p)) || Defers(s, step, p)
  {
    if step.Pick? {
      PickDeferred(s, p);
    }
  }

  lemma PickDeferred(s: State, p: Path)
    requires s.jobs != [] && s.jobs[0].dirs != []
    ensures p in PickDirectory(s).deferred <==>
      p in s.deferred && !(Excluded(s, s.jobs[0].dirs[0]) && s.jobs[0].dirs[0] <= p)
  {
  }

  lemma ListingDeferred(s: State, step: Step, p: Path)
    requires Enabled(s, step) && Lists(step)
    ensures p in Next(s, step).deferred <==> (p in s.deferred && !Undefers(s, step, p)) || Defers(s, step, p)
  {
  }

  lemma RegisterDeferred(s: State, step: Step, p: Path)
    requires Enabled(s, step) && Registers(step)
    ensures p in Next(s, step).deferred <==> (p in s.deferred && !Undefers(s, step, p)) || Defers(s, step, p)
  {
    if step.Stale? { RemoveAllCertain(s, step.order); }
  }

  lemma EnvironmentDeferred(s: State, step: Step)
    requires Enabled(s, step)
    requires step.NewDirectory? || step.LinkName? || step.UnlinkName? || step.KernelDrops? || step.QueueOverflows?
    ensures Next(s, step).deferred == s.deferred && Next(s, step).watched == s.watched
  {
  }

  // ----- what is to be walked ----------------------------------------------

  /** The directory is given to a job: it was announced, listed, brought back, or a scan begins with it. */
  ghost predicate Gains(s: State, step: Step, a: Path)
    requires Enabled(s, step)
  {
    match step
    case Handle(_) => s.queue[0].Made? && Names(s, s.queue[0], a)
    case Entry(n, directory) => directory && a == s.jobs[0].active.value.path + [n] && !Excluded(s, a)
    case Include(_) => a in s.toInclude.value
    case StartScan => a == []
    case _ => false
  }

  ghost predicate Walked(s: State, t: State, a: Path, gains: bool, picked: bool)
  {
    && (gains ==> InJob(t, a)) && (InJob(t, a) ==> InJob(s, a) || gains)
    && (InJob(s, a) && !picked ==> InJob(t, a))
  }

  lemma SameJobsWalked(s: State, t: State, a: Path)
    requires t.jobs == s.jobs
    ensures Walked(s, t, a, false, false)
  {
  }

  lemma PushedWalked(s: State, t: State, order: seq<Path>, reconciling: bool, a: Path)
    requires t.jobs == PushAll(s.jobs, order, reconciling)
    ensures Walked(s, t, a, a in order, false)
  {
    if a in order {
      var k :| 0 <= k < |order| && order[k] == a;
      assert t.jobs[|s.jobs| + k].dirs == [a];
    }
    if InJob(t, a) {
      var j :| 0 <= j < |t.jobs| && a in t.jobs[j].dirs;
      if j < |s.jobs| { assert t.jobs[j] == s.jobs[j]; } else { assert t.jobs[j].dirs == [order[j - |s.jobs|]]; }
    }
    if InJob(s, a) {
      var j :| 0 <= j < |s.jobs| && a in s.jobs[j].dirs;
      assert t.jobs[j] == s.jobs[j];
    }
  }

  lemma HandleWalked(s: State, order: seq<Path>, a: Path)
    requires Enabled(s, Handle(order))
    ensures Walked(s, HandleRecord(s, order), a, Gains(s, Handle(order), a), false)
  {
    var t := HandleRecord(s, order);
    match s.queue[0] {
      case Made(wd, n) =>
        ReportedAreNamed(s, s.queue[0], a);
        if order == [] { SameJobsWalked(s, t, a); } else { PushedWalked(s, t, order, s.scan.Some?, a); }
      case Gone(_, _) =>
        RemoveAllWalk(s.(queue := s.queue[1..]), order);
        SameJobsWalked(s, t, a);
      case _ => SameJobsWalked(s, t, a);
    }
  }

  /** The first job has the directories `dirs` to walk instead. */
  lemma FirstJobWalked(s: State, t: State, dirs: seq<Path>, a: Path)
    requires s.jobs != [] && |t.jobs| == |s.jobs| && t.jobs[0].dirs == dirs && t.jobs[1..] == s.jobs[1..]
    ensures Walked(s, t, a, a in dirs && a !in s.jobs[0].dirs, a in s.jobs[0].dirs && a !in dirs)
  {
    forall j | 0 < j < |s.jobs| ensures t.jobs[j] == s.jobs[j] {
      assert t.jobs[1..][j - 1] == s.jobs[1..][j - 1];
    }
    if a in dirs { assert a in t.jobs[0].dirs; }
    if InJob(t, a) {
      var j :| 0 <= j < |t.jobs| && a in t.jobs[j].dirs;
      if j > 0 { assert a in s.jobs[j].dirs; }
    }
    if InJob(s, a) {
      var j :| 0 <= j < |s.jobs| && a in s.jobs[j].dirs;
      if j > 0 { assert a in t.jobs[j].dirs; }
    }
  }

  lemma PickWalked(s: State, a: Path)
    requires Enabled(s, Pick)
    ensures Walked(s, PickDirectory(s), a, false, a == s.jobs[0].dirs[0])
  {
    var dirs := s.jobs[0].dirs;
    assert dirs == [dirs[0]] + dirs[1..];
    FirstJobWalked(s, PickDirectory(s), dirs[1..], a);
  }

  lemma ListWalked(s: State, step: Step, a: Path)
    requires Enabled(s, step) && Lists(step)
    ensures Walked(s, Next(s, step), a, Gains(s, step, a), false)
  {
    var t := Next(s, step);
    FirstJobWalked(s, t, t.jobs[0].dirs, a);
  }

  lemma FinishJobWalked(s: State, a: Path)
    requires Enabled(s, FinishJob)
    ensures Walked(s, Next(s, FinishJob), a, false, false)
  {
    var t := Next(s, FinishJob);
    if InJob(s, a) {
      var j :| 0 <= j < |s.jobs| && a in s.jobs[j].dirs;
      assert t.jobs[j - 1] == s.jobs[j];
    }
    if InJob(t, a) {
      var j :| 0 <= j < |t.jobs| && a in t.jobs[j].dirs;
      assert s.jobs[j + 1] == t.jobs[j];
    }
  }

  lemma OpenWalked(s: State, step: Step, a: Path)
    requires Enabled(s, step) && Opens(step) && !step.Pick?
    ensures Walked(s, Next(s, step), a, false, false)
  {
    var t := Next(s, step);
    if step.Read? {
      ReadWalked(s, a);
    } else {
      SameJobsWalked(s, t, a);
    }
  }

  lemma ReadWalked(s: State, a: Path)
    requires Enabled(s, Read)
    ensures Walked(s, Next(s, Read), a, false, false)
  {
    var t := Next(s, Read);
    if s.open.value.promoting {
      forall j | 0 <= j < |s.jobs| ensures t.jobs[j] == s.jobs[j] {}
      if InJob(s, a) {
        var j :| 0 <= j < |s.jobs| && a in s.jobs[j].dirs;
        assert a in t.jobs[j].dirs;
      }
    } else {
      FirstJobWalked(s, t, s.jobs[0].dirs, a);
    }
  }

  lemma PruneWalked(s: State, jobs: seq<Job>, i: Ino, n: Name, a: Path)
    requires jobs == Pruned(s.jobs, i, n)
    ensures Walked(s, s.(jobs := jobs), a, false, false)
  {
    if InJob(s, a) {
      var j :| 0 <= j < |s.jobs| && a in s.jobs[j].dirs;
      assert jobs[j].dirs == s.jobs[j].dirs;
    }
  }

  /** A directory is given to a job by exactly such a step, and stays with one until it is picked. */
  lemma WalkedExactly(s: State, step: Step, a: Path)
    requires Enabled(s, step)
    ensures Walked(s, Next(s, step), a, Gains(s, step, a), step.Pick? && a == s.jobs[0].dirs[0])
  {
    var t := Next(s, step);
    if step.Handle? {
      HandleWalked(s, step.order, a);
    } else if step.Pick? {
      PickWalked(s, a);
    } else if Opens(step) {
      OpenWalked(s, step, a);
    } else if Lists(step) {
      ListWalked(s, step, a);
    } else if step.UnlinkName? {
      PruneWalked(s, t.jobs, step.i, step.n, a);
    } else {
      OtherWalked(s, step, a);
    }
  }

  lemma OtherWalked(s: State, step: Step, a: Path)
    requires Enabled(s, step) && !step.Handle? && !Opens(step) && !Lists(step) && !step.UnlinkName?
    ensures Walked(s, Next(s, step), a, Gains(s, step, a), false)
  {
    var t := Next(s, step);
    if step.FinishJob? {
      FinishJobWalked(s, a);
    } else if step.Include? {
      PushedWalked(s, t, step.order, false, a);
    } else if step.StartScan? {
      assert t.jobs[0].dirs == [[]];
    } else if Registers(step) {
      RegisterWalked(s, step);
      SameJobsWalked(s, t, a);
    } else {
      SameJobsWalked(s, t, a);
    }
  }

  lemma RegisterWalked(s: State, step: Step)
    requires Enabled(s, step) && Registers(step)
    ensures Next(s, step).jobs == s.jobs
  {
    if step.Stale? { RemoveAllWalk(s, step.order); }
  }

  // ----- registrations -----------------------------------------------------

  /** The registration ends: its directory went, its watch did, another directory is there, or nothing came across it. */
  ghost predicate Unregisters(s: State, step: Step, p: Path)
    requires Enabled(s, step) && p in s.watched
  {
    match step
    case Handle(_) => RecordForgets(s, p) || (s.queue[0] == Ignored(s.watched[p]) && s.watched[p] in s.identity)
    case Identify => p == s.open.value.path
    case Stale(_, _) => Entered(s) && s.open.value.path <= p
    case DropExcluded(q) => p == q
    case SweepWatched(q) => p == q
    case _ => false
  }

  ghost predicate RegisteredAs(s: State, t: State, p: Path, ends: bool)
  {
    && (p in t.watched <==> p in s.watched && !ends)
    && (p in t.watched ==> t.watched[p] == s.watched[p])
  }

  lemma {:induction false} RemoveAllRegistered(s: State, order: seq<Path>, p: Path)
    ensures RegisteredAs(s, RemoveAll(s, order), p, p in order)
    decreases |order|
  {
    if order != [] {
      RemoveAllRegistered(if order[0] in s.watched then RemoveInterest(s, order[0]) else s, order[1..], p);
      assert order == [order[0]] + order[1..];
    }
  }

  lemma HandleRegistered(s: State, order: seq<Path>, p: Path)
    requires HandleEnabled(s, order) && p in s.watched
    ensures RegisteredAs(s, HandleRecord(s, order), p,
                         RecordForgets(s, p) || (s.queue[0] == Ignored(s.watched[p]) && s.watched[p] in s.identity))
  {
    var u := s.(queue := s.queue[1..]);
    if s.queue[0].Gone? {
      RemoveAllRegistered(u, order, p);
      ForgetsWhatIsReported(s, p);
      assert p in Below(s.watched.Keys, Reported(s, s.queue[0].wd, s.queue[0].name)) <==> RecordForgets(s, p);
    }
  }

  lemma RegisterRegistered(s: State, step: Step, p: Path)
    requires Enabled(s, step) && Registers(step) && p in s.watched
    ensures RegisteredAs(s, Next(s, step), p, Unregisters(s, step, p))
  {
    if step.Stale? {
      StaleRegistered(s, step.order, step.noted, p);
    } else if step.Add? {
      AddKeepsOthers(s, At(s, s.open.value.path).value, p);
    } else {
      DropRegistered(s, if step.Identify? then s.open.value.path else step.p, p);
    }
  }

  lemma DropRegistered(s: State, q: Path, p: Path)
    requires p in s.watched
    ensures q in s.watched ==> RegisteredAs(s, RemoveInterest(s, q), p, p == q)
  {
  }

  lemma AddKeepsOthers(s: State, i: Ino, p: Path)
    requires s.open.Some? && s.open.value.path !in s.watched && p in s.watched
    ensures RegisteredAs(s, AddInterest(s, i), p, false)
  {
  }

  lemma StaleRegistered(s: State, order: seq<Path>, noted: bool, p: Path)
    requires Enabled(s, Stale(order, noted)) && p in s.watched
    ensures RegisteredAs(s, FoundStale(s, order, noted), p, Entered(s) && s.open.value.path <= p)
  {
    RemoveAllRegistered(s, order, p);
    assert p in Below(s.watched.Keys, {s.open.value.path}) <==> s.open.value.path <= p;
  }

  lemma InternalRegistered(s: State, step: Step)
    requires Enabled(s, step) && Internal(step)
    ensures Next(s, step).watched == s.watched
  {
    InternalShape(s, step);
  }

  /** A registered path keeps its watch until exactly such a step. */
  lemma RegisteredExactly(s: State, step: Step, p: Path)
    requires Enabled(s, step) && p in s.watched
    ensures RegisteredAs(s, Next(s, step), p, Unregisters(s, step, p))
  {
    if step.Handle? {
      HandleRegistered(s, step.order, p);
    } else if Registers(step) {
      RegisterRegistered(s, step, p);
    } else if Internal(step) {
      InternalRegistered(s, step);
    } else {
      EnvironmentDeferred(s, step);
    }
  }

  lemma {:induction false} RemoveAllGainsNothing(s: State, order: seq<Path>)
    ensures RemoveAll(s, order).watched.Keys <= s.watched.Keys
    decreases |order|
  {
    if order != [] {
      RemoveAllGainsNothing(if order[0] in s.watched then RemoveInterest(s, order[0]) else s, order[1..]);
    }
  }

  /** Only adding its interest registers a path, and then for the directory that is there, with a live watch on it. */
  lemma AddedExactly(s: State, step: Step, p: Path)
    requires RegistryOk(s) && TreeOk(s) && Enabled(s, step) && p !in s.watched
    ensures var t := Next(s, step);
      && (p in t.watched <==> step.Add? && p == s.open.value.path)
      && (p in t.watched ==> t.watched[p] in t.identity && At(s, p) == Some(t.identity[t.watched[p]]))
  {
    if step.Handle? {
      HandleGainsNothing(s, step.order);
    } else if step.Add? {
      AddRegisters(s, At(s, s.open.value.path).value);
    } else if Registers(step) {
      RegisterGainsNothing(s, step);
    } else if Internal(step) {
      InternalRegistered(s, step);
    } else {
      EnvironmentDeferred(s, step);
    }
  }

  lemma HandleGainsNothing(s: State, order: seq<Path>)
    requires s.queue != []
    ensures HandleRecord(s, order).watched.Keys <= s.watched.Keys
  {
    RemoveAllGainsNothing(s.(queue := s.queue[1..]), order);
  }

  lemma RegisterGainsNothing(s: State, step: Step)
    requires Enabled(s, step) && Registers(step) && !step.Add?
    ensures Next(s, step).watched.Keys <= s.watched.Keys
  {
    if step.Stale? { RemoveAllGainsNothing(s, step.order); }
  }

  lemma AddRegisters(s: State, i: Ino)
    requires s.open.Some? && s.open.value.path !in s.watched
    ensures var t, a := AddInterest(s, i), s.open.value.path;
      t.watched.Keys == s.watched.Keys + {a} && t.watched[a] in t.identity && t.identity[t.watched[a]] == i
  {
  }

  // ----- watches -----------------------------------------------------------

  /** Every registered watch has an interest, and every kernel watch is registered: none is left behind. */
  ghost predicate NoIdleWatch(s: State)
  {
    && (forall wd :: wd in s.identity ==> exists p :: p in s.watched && s.watched[p] == wd)
    && (forall wd :: wd in s.live ==> wd in s.identity)
  }

  lemma RemoveInterestNoIdle(s: State, p: Path)
    requires NoIdleWatch(s) && p in s.watched
    ensures NoIdleWatch(RemoveInterest(s, p))
  {
    var t := RemoveInterest(s, p);
    var rest := s.watched - {p};
    forall wd | wd in t.identity ensures exists q :: q in t.watched && t.watched[q] == wd {
      var q :| q in s.watched && s.watched[q] == wd;
      if q == p {
        var r :| r in rest && rest[r] == wd;
        assert r in t.watched && t.watched[r] == wd;
      } else {
        assert q in t.watched && t.watched[q] == wd;
      }
    }
  }

  lemma {:induction false} RemoveAllNoIdle(s: State, order: seq<Path>)
    requires NoIdleWatch(s)
    ensures NoIdleWatch(RemoveAll(s, order))
    decreases |order|
  {
    if order != [] {
      if order[0] in s.watched { RemoveInterestNoIdle(s, order[0]); }
      RemoveAllNoIdle(if order[0] in s.watched then RemoveInterest(s, order[0]) else s, order[1..]);
    }
  }

  lemma SameWatchesNoIdle(s: State, t: State)
    requires NoIdleWatch(s) && t.watched == s.watched && t.identity == s.identity && t.live.Keys <= s.live.Keys
    ensures NoIdleWatch(t)
  {
  }

  lemma EndedNoIdle(s: State, wd: Wd)
    requires NoIdleWatch(s) && wd !in s.live
    ensures NoIdleWatch(WatchEnded(s, wd))
  {
    var t := WatchEnded(s, wd);
    forall v | v in t.identity ensures exists q :: q in t.watched && t.watched[q] == v {
      var q :| q in s.watched && s.watched[q] == v;
      assert q in t.watched && t.watched[q] == v;
    }
  }

  lemma HandleNoIdle(s: State, order: seq<Path>)
    requires NoIdleWatch(s) && QueueFacts(s) && s.queue != []
    ensures NoIdleWatch(HandleRecord(s, order))
  {
    var u := s.(queue := s.queue[1..]);
    SameWatchesNoIdle(s, u);
    match s.queue[0] {
      case Gone(wd, n) =>
        RemoveAllNoIdle(u, order);
        SameWatchesNoIdle(RemoveAll(u, order), HandleRecord(s, order));
      case Ignored(wd) => EndedNoIdle(u, wd);
      case _ => SameWatchesNoIdle(u, HandleRecord(s, order));
    }
  }

  lemma AddNoIdle(s: State, i: Ino)
    requires NoIdleWatch(s) && s.open.Some? && s.open.value.path !in s.watched
    ensures NoIdleWatch(AddInterest(s, i))
  {
    var t, a := AddInterest(s, i), s.open.value.path;
    forall wd | wd in t.identity ensures exists p :: p in t.watched && t.watched[p] == wd {
      if wd in s.identity {
        var p :| p in s.watched && s.watched[p] == wd;
        assert p in t.watched && t.watched[p] == wd;
      } else {
        assert a in t.watched && t.watched[a] == wd;
      }
    }
  }

  lemma RegisterNoIdle(s: State, step: Step)
    requires NoIdleWatch(s) && Enabled(s, step) && Registers(step)
    ensures NoIdleWatch(Next(s, step))
  {
    if step.Identify? {
      RemoveInterestNoIdle(s, s.open.value.path);
    } else if step.Add? {
      AddNoIdle(s, At(s, s.open.value.path).value);
    } else if step.Stale? {
      RemoveAllNoIdle(s, step.order);
      SameWatchesNoIdle(RemoveAll(s, step.order), Next(s, step));
    } else if step.SweepWatched? {
      RemoveInterestNoIdle(s, step.p);
    } else if step.p in s.watched {
      RemoveInterestNoIdle(s, step.p);
      SameWatchesNoIdle(RemoveInterest(s, step.p), Next(s, step));
    }
  }

  lemma EnvironmentNoIdle(s: State, step: Step)
    requires NoIdleWatch(s) && Enabled(s, step)
    requires step.NewDirectory? || step.LinkName? || step.UnlinkName? || step.KernelDrops? || step.QueueOverflows?
    ensures NoIdleWatch(Next(s, step))
  {
    SameWatchesNoIdle(s, Next(s, step));
  }

  /** No step leaves a kernel watch that nothing is registered through. */
  lemma NoIdleWatchKept(s: State, step: Step)
    requires NoIdleWatch(s) && QueueFacts(s) && Enabled(s, step)
    ensures NoIdleWatch(Next(s, step))
  {
    if step.Handle? {
      HandleNoIdle(s, step.order);
    } else if Registers(step) {
      RegisterNoIdle(s, step);
    } else if Internal(step) {
      InternalShape(s, step);
      SameWatchesNoIdle(s, Next(s, step));
    } else {
      EnvironmentNoIdle(s, step);
    }
  }
}
