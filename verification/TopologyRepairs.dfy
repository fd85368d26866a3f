// Two concrete runs of a reconciliation: one that makes up for a loss, and one that
// begins too early to do so.

module TopologyRepairs {
  import opened Paths
  import opened Topology
  import opened TopologyEnvironment
  import opened TopologyTheorems
  import opened TopologyRuns
  import opened TopologyLapses

  const Bare: map<Ino, map<Name, Ino>> := map[0 := map[], 1 := map[], 2 := map[]]
  const OnlyRoot: map<Path, Wd> := map[[] := 0]
  const RootWatch: map<Wd, Ino> := map[0 := 0]
  const QWatched: map<Path, Wd> := map[[] := 0, Q := 1]
  const Top: set<Path> := {[]}

  lemma Trees()
    ensures WithoutName(Tree[0], "q") == map[] && Tree[0 := map[]] == Bare
    ensures WithName(Bare[0], "q", 1) == map["q" := 1] && Bare[0 := map["q" := 1]] == Tree
  {
    assert Tree[0] == map["q" := 1];
  }

  lemma Notes()
    ensures var none: set<Path> := {}; none + {[]} == Top
    ensures Top + {Q} == {[], Q}
  {
  }

  lemma NoJobs(i: Ino, n: Name)
    ensures Pruned([], i, n) == []
  {
  }

  const Full: State :=
    Of(Tree, [Overflow], BothWatches, 2, QWatched, [], None, {}, false, None)

  lemma IsFull()
    ensures Reaches(Full)
  {
    Establish();
    assert [] + [Overflow] == [Overflow];
    assert Goes(Idle, QueueOverflows, Full);
    ReachesNext(Idle, QueueOverflows, Full);
  }

  /** The worker drops the registration of `q` with its watch. */
  lemma DropsQ(s: State)
    requires s.watched == map[[] := 0, Q := 1] && s.identity == BothWatches && s.live == s.identity && s.expects == {}
    ensures RemoveInterest(s, Q) == s.(watched := OnlyRoot, identity := RootWatch, live := RootWatch,
                                       queue := s.queue + [Ignored(1)])
  {
    DropsOnly(s, Q, 1);
    assert s.watched - {Q} == OnlyRoot;
    assert s.identity - {1} == RootWatch;
  }

  // ----- a removal lost in an overflow, and made up for --------------------

  const RemovedUnseen: State :=
    Of(Bare, [Overflow], BothWatches, 2, QWatched, [], None, {}, false, None)
  const Uncertain: State :=
    Of(Bare, [], BothWatches, 2, QWatched, [], None, {}, true, None)
  const Asked: State :=
    Of(Bare, [], BothWatches, 2, QWatched, [], None, {}, true, Some(Scan(Waiting, {}, false)))
  const ScanBegun: State :=
    Of(Bare, [], BothWatches, 2, QWatched, One([[]], None, true), None, {}, true, Some(Scan(Scanning, {}, false)))
  const Scanned: State :=
    Of(Bare, [], BothWatches, 2, QWatched, [], None, {}, true, Some(Scan(Scanning, Top, false)))
  const SweepBegun: State :=
    Of(Bare, [], BothWatches, 2, QWatched, [], None, {}, true, Some(Scan(Sweeping, Top, false)))
  const Swept: State :=
    Of(Bare, [Ignored(1)], RootWatch, 2, OnlyRoot, [], None, {}, true, Some(Scan(Sweeping, Top, false)))
  const Committed: State :=
    Of(Bare, [Ignored(1)], RootWatch, 2, OnlyRoot, [], None, {}, false, None)
  const Regained: State :=
    Of(Bare, [], RootWatch, 2, OnlyRoot, [], None, {}, false, None)

  lemma LostUnlinkGoes()
    ensures Goes(Full, UnlinkName(0, "q", true), RemovedUnseen)
  {
    Trees();
    NoJobs(0, "q");
  }

  lemma RemovedReaches()
    ensures Reaches(RemovedUnseen)
  {
    IsFull();
    LostUnlinkGoes();
    ReachesNext(Full, UnlinkName(0, "q", true), RemovedUnseen);
  }

  lemma UncertainReaches()
    ensures Reaches(Uncertain)
  {
    RemovedReaches();
    assert [Overflow] + [] == [Overflow];
    TakesOverflow(RemovedUnseen, []);
  }

  lemma ScanBegins()
    ensures Reaches(ScanBegun)
  {
    UncertainReaches();
    Reconciles(Uncertain);
    ScanStarts(Asked, {}, false);
  }

  lemma ScanEnds()
    ensures Reaches(SweepBegun)
  {
    ScanBegins();
    AtTop(ScanBegun);
    Notes();
    VisitKnown(ScanBegun, [], 0, true);
    SweepStarts(Scanned, Top, false);
  }

  lemma SweepGoes()
    ensures Goes(SweepBegun, SweepWatched(Q), Swept)
  {
    DropsQ(SweepBegun);
    assert [] + [Ignored(1)] == [Ignored(1)];
  }

  lemma SweptReaches()
    ensures Reaches(Swept)
  {
    ScanEnds();
    SweepGoes();
    ReachesNext(SweepBegun, SweepWatched(Q), Swept);
  }

  lemma RegainedReaches()
    ensures Reaches(Regained)
  {
    SweptReaches();
    Commits(Swept, Top);
    assert [Ignored(1)] + [] == [Ignored(1)];
    TakesNobodys(Committed, Ignored(1), []);
  }

  /**
   * A removal is lost in an overflow, and its registration is left behind. A reconciliation sweeps it away and coverage
   * is complete again.
   */
  lemma CertaintyIsRegained()
    ensures Reaches(Uncertain) && Lossy(Uncertain) && Q in Uncertain.watched && !Exists(Uncertain, Q)
    ensures Reaches(Regained) && QuietAndComplete(Regained) && Regained.watched == OnlyRoot
  {
    UncertainReaches();
    RegainedReaches();
    AtTop(Uncertain);
  }

  // ----- a scan that begins over an unread removal -------------------------

  const Left: State :=
    Of(Bare, [Overflow, Gone(0, "q")], BothWatches, 2, QWatched, [], None, {}, false, None)
  /** The directory is back; the record of its return found no room. */
  const Returned: State :=
    Of(Tree, [Overflow] + [Gone(0, "q")], BothWatches, 2, QWatched, [], None, {}, false, None)
  const Told: State :=
    Of(Tree, [Gone(0, "q")], BothWatches, 2, QWatched, [], None, {}, true, None)
  const Early: State :=
    Of(Tree, [Gone(0, "q")], BothWatches, 2, QWatched, [], None, {}, true, Some(Scan(Waiting, {}, false)))
  const EarlyScan: State :=
    Of(Tree, [Gone(0, "q")], BothWatches, 2, QWatched, One([[]], None, true), None, {}, true,
       Some(Scan(Scanning, {}, false)))
  const EarlyListed: State :=
    Of(Tree, [Gone(0, "q")], BothWatches, 2, QWatched, One([Q], None, true), None, {}, true,
       Some(Scan(Scanning, Top, false)))
  const EarlyScanned: State :=
    Of(Tree, [Gone(0, "q")], BothWatches, 2, QWatched, [], None, {}, true, Some(Scan(Scanning, {[], Q}, false)))
  const EarlyCommitted: State :=
    Of(Tree, [Gone(0, "q")], BothWatches, 2, QWatched, [], None, {}, false, None)
  const Removed: State :=
    Of(Tree, [Ignored(1)], RootWatch, 2, OnlyRoot, [], None, {}, false, None)
  const Missing: State :=
    Of(Tree, [], RootWatch, 2, OnlyRoot, [], None, {}, false, None)

  lemma UnlinkGoes()
    ensures Goes(Full, UnlinkName(0, "q", false), Left)
  {
    Trees();
    NoJobs(0, "q");
    assert Full.live[0] == 0 && 0 in Full.live.Values;
    assert [Overflow] + [Gone(0, "q")] == [Overflow, Gone(0, "q")];
  }

  lemma LostReturnGoes()
    ensures Goes(Left, LinkName(0, "q", 1, true), Returned)
  {
    Trees();
    assert Left.queue[0] == Overflow;
  }

  lemma LeftReaches()
    ensures Reaches(Left)
  {
    IsFull();
    UnlinkGoes();
    ReachesNext(Full, UnlinkName(0, "q", false), Left);
  }

  lemma ReturnedReaches()
    ensures Reaches(Returned)
  {
    LeftReaches();
    LostReturnGoes();
    ReachesNext(Left, LinkName(0, "q", 1, true), Returned);
  }

  lemma ToldReaches()
    ensures Reaches(Told)
  {
    ReturnedReaches();
    TakesOverflow(Returned, [Gone(0, "q")]);
  }

  lemma EarlyScanReaches()
    ensures Reaches(EarlyScan)
  {
    ToldReaches();
    Reconciles(Told);
    ScanStarts(Early, {}, false);
  }

  lemma EarlyRootListed()
    requires Reaches(EarlyScan)
    ensures Reaches(EarlyListed)
  {
    AtTop(EarlyScan);
    assert EarlyScan.kids[0].Keys == {"q"};
    TopIsQ();
    Notes();
    VisitKnownOne(EarlyScan, [], 0, "q", true);
  }

  lemma EarlyScanEnds()
    ensures Reaches(EarlyScanned)
  {
    EarlyScanReaches();
    EarlyRootListed();
    Notes();
    AtTop(EarlyListed);
    VisitKnown(EarlyListed, Q, 1, true);
  }

  lemma OldRemovalGoes()
    ensures Goes(EarlyCommitted, Handle([Q]), Removed)
  {
    assert EarlyCommitted.queue[1..] == [];
    OldRemovalReports();
    RemovesOnlyQ(EarlyCommitted.(queue := []));
  }

  lemma OldRemovalReports()
    ensures Reported(EarlyCommitted, 0, "q") == {Q} && Below(EarlyCommitted.watched.Keys, {Q}) == {Q}
  {
    TopIsQ();
    NothingExcluded(EarlyCommitted, Q);
    assert [] in EarlyCommitted.watched && EarlyCommitted.watched[[]] == 0;
  }

  lemma RemovesOnlyQ(u: State)
    requires u == EarlyCommitted.(queue := [])
    ensures RemoveSubtrees(u, {Q}, [Q]) == Removed
  {
    DropsQ(u);
    assert RemoveAll(u, [Q]) == RemoveInterest(u, Q);
    assert [] + [Ignored(1)] == [Ignored(1)];
  }

  lemma RemovedAgainReaches()
    ensures Reaches(Removed)
  {
    EarlyScanEnds();
    SweepsNothing(EarlyScanned, {[], Q});
    OldRemovalGoes();
    ReachesNext(EarlyCommitted, Handle([Q]), Removed);
  }

  lemma MissingReaches()
    ensures Reaches(Missing)
  {
    RemovedAgainReaches();
    assert [Ignored(1)] + [] == [Ignored(1)];
    TakesNobodys(Removed, Ignored(1), []);
  }

  /**
   * The return of a directory is lost in an overflow while the record of its removal is still unread. The reconciliation
   * finds the directory watched, commits and reports complete coverage; then the old removal takes the watch away.
   */
  lemma ScanningOverAnUnreadRemoval()
    ensures Reaches(Missing) && QuietAndComplete(Missing)
    ensures Exists(Missing, Q) && !Excluded(Missing, Q) && Q !in Missing.watched
  {
    MissingReaches();
    AtTop(Missing);
    NothingExcluded(Missing, Q);
  }
}
