// Four concrete runs that end quiet and complete with a registration of a directory that
// is not there: one for each kind of step that module TopologyPlacement sets apart.

module TopologyStrays {
  import opened Paths
  import opened Topology
  import opened TopologyEnvironment
  import opened TopologyTheorems
  import opened TopologyPlacement
  import opened TopologyRuns
  import opened TopologyLapses

  const QN: Path := ["q", "n"]

  const NoWatches: map<Wd, Ino> := map[]
  const NoneWatched: map<Path, Wd> := map[]

  lemma QIsAbove()
    ensures Q + ["n"] == QN && [] + ["q"] == Q
  {
  }

  /** Where `q` and `n` in it are. */
  lemma AtDeep(s: State)
    ensures At(s, []) == Some(s.root)
    ensures At(s, Q) == if s.root in s.kids && "q" in s.kids[s.root] then Some(s.kids[s.root]["q"]) else None
    ensures At(s, QN) == if At(s, Q).Some? && At(s, Q).value in s.kids && "n" in s.kids[At(s, Q).value]
                         then Some(s.kids[At(s, Q).value]["n"]) else None
  {
    AtTop(s);
    assert QN[..1] == Q;
  }

  lemma NoJobs(i: Ino, n: Name)
    ensures Pruned([], i, n) == []
  {
  }

  lemma NoTop()
    ensures var none: set<Path> := {}; Top - {[]} == none
  {
  }

  function Waits(seen: set<Path>, raised: bool): Option<Scan>
  {
    Some(Scan(Waiting, seen, raised))
  }

  function Scans(seen: set<Path>): Option<Scan>
  {
    Some(Scan(Scanning, seen, false))
  }

  /** A name appears in a watched directory. */
  lemma NewName(s: State, i: Ino, n: Name, x: Ino, wd: Wd, kids: map<Ino, map<Name, Ino>>)
    requires Reaches(s) && i in s.kids && x in s.kids && x !in s.dead
    requires n in s.kids[i] && s.kids[i][n] in s.kids ==> s.kids[s.kids[i][n]] == map[]
    requires wd in s.live && s.live[wd] == i && forall d :: d in s.live && s.live[d] == i ==> d == wd
    requires kids == s.kids[i := WithName(s.kids[i], n, x)]
    ensures Reaches(s.(kids := kids, queue := s.queue + [Made(wd, n)]))
  {
    assert s.live[wd] in s.live.Values;
    ReachesNext(s, LinkName(i, n, x, false), s.(kids := kids, queue := s.queue + [Made(wd, n)]));
  }

  /** A name goes from a watched directory. */
  lemma NameGoes(s: State, i: Ino, n: Name, wd: Wd, kids: map<Ino, map<Name, Ino>>)
    requires Reaches(s) && i in s.kids && n in s.kids[i] && s.jobs == []
    requires wd in s.live && s.live[wd] == i && forall d :: d in s.live && s.live[d] == i ==> d == wd
    requires kids == s.kids[i := WithoutName(s.kids[i], n)]
    ensures Reaches(s.(kids := kids, queue := s.queue + [Gone(wd, n)]))
  {
    assert s.live[wd] in s.live.Values;
    NoJobs(i, n);
    ReachesNext(s, UnlinkName(i, n, false), s.(kids := kids, queue := s.queue + [Gone(wd, n)]));
  }

  /** A name goes without a record: nobody watches, or the queue has overflowed. */
  lemma NameGoesUnseen(s: State, i: Ino, n: Name, lost: bool, kids: map<Ino, map<Name, Ino>>)
    requires Reaches(s) && i in s.kids && n in s.kids[i] && s.jobs == []
    requires if lost then Overflow in s.queue else i !in s.live.Values
    requires kids == s.kids[i := WithoutName(s.kids[i], n)]
    ensures Reaches(s.(kids := kids))
  {
    NoJobs(i, n);
    ReachesNext(s, UnlinkName(i, n, lost), s.(kids := kids));
  }

  /** The dropped interest of a sweep was the only one. */
  lemma SweepsOnly(s: State, p: Path, wd: Wd)
    requires Reaches(s) && Sweeps(s) && p in s.watched && s.watched[p] == wd && wd in s.live && s.expects == {} && !Seen(s, p)
    requires forall q :: q in s.watched && q != p ==> s.watched[q] != wd
    ensures Reaches(s.(watched := s.watched - {p}, identity := s.identity - {wd}, live := s.live - {wd},
                       queue := s.queue + [Ignored(wd)]))
  {
    DropsOnly(s, p, wd);
    ReachesNext(s, SweepWatched(p), RemoveInterest(s, p));
  }

  /** A visit of the reconciliation finds another directory than the registered one. */
  lemma Identifies(s: State, p: Path, wd: Wd)
    requires Reaches(s) && s.open == Some(Opening(p, false, true, false, false)) && p in s.watched && !Matches(s, p)
    requires s.watched[p] == wd && wd in s.live && s.expects == {}
    requires forall q :: q in s.watched && q != p ==> s.watched[q] != wd
    ensures Reaches(s.(watched := s.watched - {p}, identity := s.identity - {wd}, live := s.live - {wd},
                       queue := s.queue + [Ignored(wd)]))
  {
    DropsOnly(s, p, wd);
    ReachesNext(s, Identify, RemoveInterest(s, p));
  }

  lemma Picks(s: State, p: Path, own: bool)
    requires Reaches(s) && s.open.None? && s.policy == NoPolicy && s.jobs == One([p], None, own)
    ensures Reaches(s.(jobs := One([], None, own), open := Some(Opening(p, false, own, false, false))))
  {
    PickGoes(s, p, own);
    ReachesNext(s, Pick, s.(jobs := One([], None, own), open := Some(Opening(p, false, own, false, false))));
  }

  // ----- a registration left behind by an unwatched parent -----------------

  const Loose: map<Ino, map<Name, Ino>> := map[0 := map[], 1 := map[], 2 := map[], 3 := map[]]
  const WithQ: map<Ino, map<Name, Ino>> := map[0 := map["q" := 1], 1 := map[], 2 := map[], 3 := map[]]
  const WithQN: map<Ino, map<Name, Ino>> := map[0 := map["q" := 1], 1 := map["n" := 2], 2 := map[], 3 := map[]]
  const WithOther: map<Ino, map<Name, Ino>> := map[0 := map["q" := 3], 1 := map[], 2 := map[], 3 := map[]]
  const Top: set<Path> := {[]}

  lemma QComes()
    ensures Loose[0 := WithName(Loose[0], "q", 1)] == WithQ
  {
    assert WithName(Loose[0], "q", 1) == map["q" := 1];
  }

  lemma QLeaves()
    ensures WithQ[0 := WithoutName(WithQ[0], "q")] == Loose
  {
    assert WithoutName(WithQ[0], "q") == map[];
  }

  lemma NComes()
    ensures WithQ[1 := WithName(WithQ[1], "n", 2)] == WithQN
  {
    assert WithName(WithQ[1], "n", 2) == map["n" := 2];
  }

  lemma NLeaves()
    ensures WithQN[1 := WithoutName(WithQN[1], "n")] == WithQ
  {
    assert WithoutName(WithQN[1], "n") == map[];
  }

  lemma OtherComes()
    ensures WithQ[0 := WithName(WithQ[0], "q", 3)] == WithOther
  {
    assert WithName(WithQ[0], "q", 3) == map["q" := 3];
  }

  lemma QIsListed()
    ensures WithQ[0].Keys == {"q"} && WithOther[0].Keys == {"q"}
  {
  }

  const RootPicked: State :=
    Of(WithQ, [], NoWatches, 0, NoneWatched, One([], None, false), Some(Opening([], false, false, false, false)), {},
       false, None)
  const RootDenied: State :=
    Of(WithQ, [], NoWatches, 0, NoneWatched, One([], None, false), Some(Opening([], true, false, false, true)), Top,
       false, None)
  const RootListed: State :=
    Of(WithQ, [], NoWatches, 0, NoneWatched, One([Q], None, false), None, Top, false, None)
  /** `q` is registered and the root deferred. */
  const Partial: State :=
    Of(WithQ, [], map[0 := 1], 1, map[Q := 0], [], None, Top, false, None)

  lemma DeniesGoes(s: State, readOn: bool)
    requires Opened(s) && s.open.value.path !in s.watched
    ensures Goes(s, Deny(readOn, true), Refuse(s, readOn, true))
  {
  }

  lemma DeniedReaches()
    ensures Reaches(RootDenied)
  {
    StartReaches(Begin(WithQ));
    Picks(Begin(WithQ), [], false);
    var none: set<Path> := {};
    assert none + {[]} == Top;
    DeniesGoes(RootPicked, true);
    ReachesNext(RootPicked, Deny(true, true), RootDenied);
  }

  lemma PartialReaches()
    ensures Reaches(Partial)
  {
    DeniedReaches();
    AtDeep(RootDenied);
    QIsListed();
    QIsAbove();
    ListedOne(RootDenied, [], 0, "q", false, true);
    AtDeep(RootListed);
    VisitNew(RootListed, Q, 1, false);
    assert map[][0 := 1] == map[0 := 1] && map[][Q := 0] == map[Q := 0];
    assert Visited(RootListed, Q, 1, false) == Partial;
  }

  const MovedAway: State :=
    Of(Loose, [], map[0 := 1], 1, map[Q := 0], [], None, Top, false, None)
  const Promoting: State :=
    Of(Loose, [], map[0 := 1], 1, map[Q := 0], [], Some(Opening([], false, false, true, false)), Top, false, None)
  const BothWatched: map<Path, Wd> := map[Q := 0, [] := 1]
  const Promoted: State :=
    Of(Loose, [], map[0 := 1, 1 := 0], 2, BothWatched, [], Some(Opening([], true, false, true, false)), {}, false,
       None)
  const Stray: State :=
    Of(Loose, [], map[0 := 1, 1 := 0], 2, BothWatched, [], None, {}, false, None)

  /** A directory deferred so far is opened and watched. */
  lemma Promotes(s: State, p: Path, i: Ino)
    requires Reaches(s) && s.open.None? && s.scan.None? && s.toInclude.None? && s.policy == NoPolicy
    requires p in s.deferred && p !in s.watched && At(s, p) == Some(i)
    requires forall wd :: wd in s.identity ==> s.identity[wd] != i
    ensures Reaches(Watched(s.(open := Some(Opening(p, false, false, true, false))), p, i))
  {
    var t := s.(open := Some(Opening(p, false, false, true, false)));
    NothingExcluded(s, p);
    ReachesNext(s, StartPromotion(p), t);
    SameTree(s, t, p);
    AddGoes(t, p, i);
    ReachesNext(t, Add, Watched(t, p, i));
  }

  /** A promoted directory turns out to be empty. */
  lemma ListsPromoted(s: State, p: Path, i: Ino)
    requires Reaches(s) && s.open == Some(Opening(p, true, false, true, false)) && s.jobs == [] && p !in s.deferred
    requires At(s, p) == Some(i) && i in s.kids && s.kids[i] == map[]
    ensures Reaches(s.(open := None))
  {
    var a := Active(p, i, {}, false);
    var t, u := s.(open := None, jobs := One([], Some(a), false)), s.(open := None, jobs := One([], None, false));
    ReadPromotedGoes(s, p, i, {});
    ReachesNext(s, Read, t);
    FinishGoes(t, [], a, false);
    ReachesNext(t, Finish, u);
    Ends(u, false);
    assert u.(jobs := []) == s.(open := None);
  }

  /** A promoted directory has one child, which is left to be visited. */
  lemma ListsPromotedOne(s: State, p: Path, i: Ino, n: Name)
    requires Reaches(s) && s.open == Some(Opening(p, true, false, true, false)) && s.jobs == [] && p !in s.deferred
    requires At(s, p) == Some(i) && i in s.kids && s.kids[i].Keys == {n} && s.policy == NoPolicy
    ensures Reaches(s.(open := None, jobs := One([p + [n]], None, false)))
  {
    var t := s.(open := None, jobs := One([], Some(Active(p, i, {n}, false)), false));
    ReadPromotedGoes(s, p, i, {n});
    ReachesNext(s, Read, t);
    OneEntered(t, Active(p, i, {n}, false), n, false);
  }

  lemma MovedAwayReaches()
    ensures Reaches(MovedAway)
  {
    PartialReaches();
    QLeaves();
    assert 0 !in Partial.live.Values;
    NameGoesUnseen(Partial, 0, "q", false, Loose);
  }

  lemma PromotedReaches()
    ensures Reaches(Promoted)
  {
    MovedAwayReaches();
    AtDeep(MovedAway);
    Promotes(MovedAway, [], 0);
    NoTop();
    assert map[0 := 1][1 := 0] == map[0 := 1, 1 := 0] && map[Q := 0][[] := 1] == BothWatched;
    assert Watched(Promoting, [], 0) == Promoted;
  }

  /**
   * The root is deferred for want of a watch while a directory in it is registered and then moved away, unseen. Promoting
   * the root brings complete coverage, but the registration of the directory that is gone stays.
   */
  lemma PromotionKeepsAStrayRegistration()
    ensures Reaches(Stray) && QuietAndComplete(Stray) && Q in Stray.watched && !Exists(Stray, Q)
  {
    PromotedReaches();
    AtDeep(Promoted);
    ListsPromoted(Promoted, [], 0);
    AtDeep(Stray);
  }

  // ----- a note taken before the scan begins -------------------------------

  const RootWatch: map<Wd, Ino> := map[0 := 0]
  const QWatched: map<Path, Wd> := map[[] := 0, Q := 1]
  const Solo: State :=
    Of(Loose, [], RootWatch, 1, map[[] := 0], [], None, {}, false, None)
  const QMade: State :=
    Of(WithQ, [Made(0, "q")], RootWatch, 1, map[[] := 0], [], None, {}, false, None)
  const QAwaited: State :=
    Of(WithQ, [Made(0, "q")], RootWatch, 1, map[[] := 0], [], None, {}, false, Waits({}, false))
  const QQueued: State :=
    Of(WithQ, [], RootWatch, 1, map[[] := 0], One([Q], None, true), None, {}, false, Waits({}, false))
  /** The reconciliation still waits, and has taken note of `q`. */
  const QNoted: State :=
    Of(WithQ, [], BothWatches, 2, QWatched, [], None, {}, false, Waits({Q}, false))

  lemma FirstWatch()
    ensures map[][0 := 0] == RootWatch
    ensures var none: map<Path, Wd> := map[]; none[[] := 0] == map[[] := 0]
  {
  }

  lemma SoloReaches()
    ensures Reaches(Solo)
  {
    StartReaches(Begin(Loose));
    AtDeep(Begin(Loose));
    VisitNew(Begin(Loose), [], 0, false);
    FirstWatch();
    assert Visited(Begin(Loose), [], 0, false) == Solo;
  }

  lemma QMadeReaches()
    ensures Reaches(QMade)
  {
    SoloReaches();
    QComes();
    assert [] + [Made(0, "q")] == [Made(0, "q")];
    NewName(Solo, 0, "q", 1, 0, WithQ);
  }

  lemma QQueuedReaches()
    ensures Reaches(QQueued)
  {
    QMadeReaches();
    Reconciles(QMade);
    QIsAbove();
    assert [Made(0, "q")] + [] == [Made(0, "q")];
    TakesMade(QAwaited, 0, "q", [], []);
  }

  lemma QNotedReaches()
    ensures Reaches(QNoted)
  {
    QQueuedReaches();
    AtDeep(QQueued);
    VisitNew(QQueued, Q, 1, true);
    TwoWatches();
    var none: set<Path> := {};
    assert none + {Q} == {Q};
    assert Visited(QQueued, Q, 1, true) == QNoted;
  }

  const QFull: State :=
    Of(WithQ, [Overflow], BothWatches, 2, QWatched, [], None, {}, false, Waits({Q}, false))
  const QLost: State :=
    Of(Loose, [Overflow], BothWatches, 2, QWatched, [], None, {}, false, Waits({Q}, false))
  const QTold: State :=
    Of(Loose, [], BothWatches, 2, QWatched, [], None, {}, true, Waits({Q}, true))
  const QScan: State :=
    Of(Loose, [], BothWatches, 2, QWatched, One([[]], None, true), None, {}, true, Scans({Q}))
  const QScanned: State :=
    Of(Loose, [], BothWatches, 2, QWatched, [], None, {}, true, Scans({Q, []}))
  const Spared: State :=
    Of(Loose, [], BothWatches, 2, QWatched, [], None, {}, false, None)

  lemma QLostReaches()
    ensures Reaches(QLost)
  {
    QNotedReaches();
    assert [] + [Overflow] == [Overflow];
    ReachesNext(QNoted, QueueOverflows, QFull);
    QLeaves();
    assert QFull.queue[0] == Overflow;
    NameGoesUnseen(QFull, 0, "q", true, Loose);
  }

  lemma QToldReaches()
    ensures Reaches(QTold)
  {
    QLostReaches();
    assert [Overflow] + [] == [Overflow];
    TakesOverflow(QLost, []);
  }

  lemma SparedReaches()
    ensures Reaches(Spared)
  {
    QToldReaches();
    ScanStarts(QTold, {Q}, true);
    AtDeep(QScan);
    assert {Q} + {[]} == {Q, []};
    VisitKnown(QScan, [], 0, true);
    SweepsNothing(QScanned, {Q, []});
  }

  lemma QIsNotedAstray()
    ensures Enabled(QTold, StartScan) && !Lapse(QTold, StartScan) && NotedAstray(QTold, Q)
  {
    AtDeep(QTold);
    NothingExcluded(QTold, Q);
  }

  /**
   * A reconciliation that waits takes note of a directory whose removal is then lost in an overflow. Its scan does not
   * come across the directory, but the note makes the sweep spare it, and coverage is called complete.
   */
  lemma AnEarlyNoteSparesAStray()
    ensures Reaches(QTold) && Enabled(QTold, StartScan) && !Lapse(QTold, StartScan) && NotedAstray(QTold, Q)
    ensures Reaches(Spared) && QuietAndComplete(Spared) && Q in Spared.watched && !Exists(Spared, Q)
  {
    QToldReaches();
    QIsNotedAstray();
    SparedReaches();
    AtDeep(Spared);
  }

  // ----- an interest dropped while a removal waits for it ------------------

  const Three: map<Path, Wd> := map[[] := 0, Q := 1, QN := 2]
  const ThreeWatches: map<Wd, Ino> := map[0 := 0, 1 := 1, 2 := 2]
  const NMade: State :=
    Of(WithQN, [Made(1, "n")], BothWatches, 2, QWatched, [], None, {}, false, Waits({Q}, false))
  const NQueued: State :=
    Of(WithQN, [], BothWatches, 2, QWatched, One([QN], None, true), None, {}, false, Waits({Q}, false))
  const NNoted: State :=
    Of(WithQN, [], ThreeWatches, 3, Three, [], None, {}, false, Waits({Q, QN}, false))
  const NGone: State :=
    Of(WithQ, [Gone(1, "n")], ThreeWatches, 3, Three, [], None, {}, false, Waits({Q, QN}, false))
  /** Another directory has taken the place of `q`. */
  const QReplaced: State :=
    Of(WithOther, [Gone(1, "n")] + [Made(0, "q")], ThreeWatches, 3, Three, [], None, {}, false, Waits({Q, QN}, false))
  const NScan: State :=
    Of(WithOther, [Gone(1, "n")] + [Made(0, "q")], ThreeWatches, 3, Three, One([[]], None, true), None, {}, false,
       Scans({Q, QN}))
  const NListed: State :=
    Of(WithOther, [Gone(1, "n")] + [Made(0, "q")], ThreeWatches, 3, Three, One([Q], None, true), None, {}, false,
       Scans({Q, QN, []}))
  const QOpened: State :=
    Of(WithOther, [Gone(1, "n")] + [Made(0, "q")], ThreeWatches, 3, Three, One([], None, true),
       Some(Opening(Q, false, true, false, false)), {}, false, Scans({Q, QN, []}))
  const QDropped: State :=
    Of(WithOther, [Gone(1, "n")] + [Made(0, "q"), Ignored(1)], map[0 := 0, 2 := 2], 3, map[[] := 0, QN := 2],
       One([], None, true), Some(Opening(Q, false, true, false, false)), {}, false, Scans({Q, QN, []}))
  const Renewed: State :=
    Of(WithOther, [Gone(1, "n")] + [Made(0, "q"), Ignored(1)], map[0 := 0, 2 := 2, 3 := 3], 4,
       map[[] := 0, QN := 2, Q := 3], [], None, {}, false, Scans({Q, QN, []}))
  const RenewedDone: State :=
    Of(WithOther, [Gone(1, "n")] + [Made(0, "q"), Ignored(1)], map[0 := 0, 2 := 2, 3 := 3], 4,
       map[[] := 0, QN := 2, Q := 3], [], None, {}, false, None)
  const Unforgotten: State :=
    Of(WithOther, [Made(0, "q")] + [Ignored(1)], map[0 := 0, 2 := 2, 3 := 3], 4, map[[] := 0, QN := 2, Q := 3], [],
       None, {}, false, None)
  const Announced: State :=
    Of(WithOther, [Ignored(1)], map[0 := 0, 2 := 2, 3 := 3], 4, map[[] := 0, QN := 2, Q := 3], One([Q], None, false),
       None, {}, false, None)
  const Overlooked: State :=
    Of(WithOther, [], map[0 := 0, 2 := 2, 3 := 3], 4, map[[] := 0, QN := 2, Q := 3], [], None, {}, false, None)

  lemma NQueuedReaches()
    ensures Reaches(NQueued)
  {
    QNotedReaches();
    NComes();
    assert [] + [Made(1, "n")] == [Made(1, "n")] && [Made(1, "n")] + [] == [Made(1, "n")];
    NewName(QNoted, 1, "n", 2, 1, WithQN);
    QIsAbove();
    TakesMade(NMade, 1, "n", Q, []);
  }

  lemma ThirdWatch()
    ensures BothWatches[2 := 2] == ThreeWatches && QWatched[QN := 2] == Three && {Q} + {QN} == {Q, QN}
  {
  }

  lemma NNotedReaches()
    ensures Reaches(NNoted)
  {
    NQueuedReaches();
    AtDeep(NQueued);
    VisitNew(NQueued, QN, 2, true);
    ThirdWatch();
    assert Visited(NQueued, QN, 2, true) == NNoted;
  }

  lemma QReplacedReaches()
    ensures Reaches(QReplaced)
  {
    NNotedReaches();
    NLeaves();
    OtherComes();
    assert [] + [Gone(1, "n")] == [Gone(1, "n")];
    NameGoes(NNoted, 1, "n", 1, WithQ);
    NewName(NGone, 0, "q", 3, 0, WithOther);
  }

  lemma NListedReaches()
    requires Reaches(NScan)
    ensures Reaches(NListed)
  {
    AtDeep(NScan);
    QIsListed();
    QIsAbove();
    assert {Q, QN} + {[]} == {Q, QN, []};
    VisitKnownOne(NScan, [], 0, "q", true);
  }

  lemma QOpenedReaches()
    ensures Reaches(QOpened)
  {
    QReplacedReaches();
    ScanStarts(QReplaced, {Q, QN}, false);
    NListedReaches();
    Picks(NListed, Q, true);
  }

  lemma QDroppedReaches()
    ensures Reaches(QDropped)
  {
    QOpenedReaches();
    AtDeep(QOpened);
    Identifies(QOpened, Q, 1);
    WithoutQ();
  }

  lemma WithoutQ()
    ensures Three - {Q} == map[[] := 0, QN := 2] && ThreeWatches - {1} == map[0 := 0, 2 := 2]
    ensures ([Gone(1, "n")] + [Made(0, "q")]) + [Ignored(1)] == [Gone(1, "n")] + [Made(0, "q"), Ignored(1)]
  {
  }

  lemma FourthWatch()
    ensures map[0 := 0, 2 := 2][3 := 3] == map[0 := 0, 2 := 2, 3 := 3]
    ensures map[[] := 0, QN := 2][Q := 3] == map[[] := 0, QN := 2, Q := 3]
    ensures {Q, QN, []} + {Q} == {Q, QN, []}
  {
  }

  lemma RenewedReaches()
    ensures Reaches(Renewed)
  {
    QDroppedReaches();
    AtDeep(QDropped);
    AddLeaf(QDropped, Q, 3, true);
    FourthWatch();
    assert Watched(QDropped, Q, 3).(open := None, jobs := []) == Renewed;
  }

  lemma UnforgottenReaches()
    ensures Reaches(Unforgotten)
  {
    RenewedReaches();
    SweepsNothing(Renewed, {Q, QN, []});
    assert [Made(0, "q"), Ignored(1)] == [Made(0, "q")] + [Ignored(1)];
    TakesNobodys(RenewedDone, Gone(1, "n"), [Made(0, "q"), Ignored(1)]);
  }

  lemma AnnouncedReaches()
    ensures Reaches(Announced)
  {
    UnforgottenReaches();
    QIsAbove();
    TakesMade(Unforgotten, 0, "q", [], [Ignored(1)]);
  }

  lemma OverlookedReaches()
    ensures Reaches(Overlooked)
  {
    AnnouncedReaches();
    AtDeep(Announced);
    VisitKnown(Announced, Q, 3, false);
    assert [Ignored(1)] + [] == [Ignored(1)];
    TakesNobodys(Announced.(jobs := []), Ignored(1), []);
  }

  lemma OnlyQForgets()
    ensures Enabled(QOpened, Identify) && OnlyThrough(QOpened, Q, QN)
  {
    AtDeep(QOpened);
    NothingExcluded(QOpened, QN);
    forall k, p | Hitter(QOpened, k, p, QN) ensures p == Q {
      assert k == 0;
    }
  }

  lemma NIsOverlooked()
    ensures QuietAndComplete(Overlooked) && QN in Overlooked.watched && !Exists(Overlooked, QN)
  {
    AtDeep(Overlooked);
  }

  /**
   * While the record of a directory's removal from `q` is unread, another directory is renamed over `q`. The visit of the
   * reconciliation drops the interest in the old `q`, so the record finds nobody to tell; what it was about was noted
   * before and is spared. Nothing was lost, and coverage is called complete.
   */
  lemma AnEndedInterestLeavesAStray()
    ensures Reaches(QOpened) && Enabled(QOpened, Identify) && !QOpened.uncertain && OnlyThrough(QOpened, Q, QN)
    ensures Reaches(Overlooked) && QuietAndComplete(Overlooked) && QN in Overlooked.watched && !Exists(Overlooked, QN)
  {
    QOpenedReaches();
    OnlyQForgets();
    OverlookedReaches();
    NIsOverlooked();
  }

  // ----- an interest swept while a removal waits for it --------------------

  const NewInPartial: State :=
    Of(WithQN, [Made(0, "n")], map[0 := 1], 1, map[Q := 0], [], None, Top, false, None)
  const PartialAwaited: State :=
    Of(WithQN, [Made(0, "n")], map[0 := 1], 1, map[Q := 0], [], None, Top, false, Waits({}, false))
  const PartialQueued: State :=
    Of(WithQN, [], map[0 := 1], 1, map[Q := 0], One([QN], None, true), None, Top, false, Waits({}, false))
  const PartialNoted: State :=
    Of(WithQN, [], map[0 := 1, 1 := 2], 2, map[Q := 0, QN := 1], [], None, Top, false, Waits({QN}, false))
  const PartialGone: State :=
    Of(WithQ, [Gone(0, "n")], map[0 := 1, 1 := 2], 2, map[Q := 0, QN := 1], [], None, Top, false, Waits({QN}, false))
  const PartialScan: State :=
    Of(WithQ, [Gone(0, "n")], map[0 := 1, 1 := 2], 2, map[Q := 0, QN := 1], One([[]], None, true), None, Top, false,
       Scans({QN}))
  const PartialOpened: State :=
    Of(WithQ, [Gone(0, "n")], map[0 := 1, 1 := 2], 2, map[Q := 0, QN := 1], One([], None, true),
       Some(Opening([], false, true, false, false)), Top, false, Scans({QN}))
  /** The root is refused a watch again, and not read. */
  const PartialDenied: State :=
    Of(WithQ, [Gone(0, "n")], map[0 := 1, 1 := 2], 2, map[Q := 0, QN := 1], One([], None, true), None, Top, false,
       Scans({QN, []}))
  const PartialScanned: State :=
    Of(WithQ, [Gone(0, "n")], map[0 := 1, 1 := 2], 2, map[Q := 0, QN := 1], [], None, Top, false, Scans({QN, []}))
  const PartialSweep: State :=
    Of(WithQ, [Gone(0, "n")], map[0 := 1, 1 := 2], 2, map[Q := 0, QN := 1], [], None, Top, false,
       Some(Scan(Sweeping, {QN, []}, false)))
  const PartialSwept: State :=
    Of(WithQ, [Gone(0, "n")] + [Ignored(0)], map[1 := 2], 2, map[QN := 1], [], None, Top, false,
       Some(Scan(Sweeping, {QN, []}, false)))
  const PartialDone: State :=
    Of(WithQ, [Gone(0, "n")] + [Ignored(0)], map[1 := 2], 2, map[QN := 1], [], None, Top, false, None)
  const PartialQuiet: State :=
    Of(WithQ, [], map[1 := 2], 2, map[QN := 1], [], None, Top, false, None)
  const RootAgain: State :=
    Of(WithQ, [], map[1 := 2, 2 := 0], 3, map[QN := 1, [] := 2], [], Some(Opening([], true, false, true, false)), {},
       false, None)
  const QAgain: State :=
    Of(WithQ, [], map[1 := 2, 2 := 0], 3, map[QN := 1, [] := 2], One([Q], None, false), None, {}, false, None)
  const Passed: State :=
    Of(WithQ, [], map[1 := 2, 2 := 0, 3 := 1], 4, map[QN := 1, [] := 2, Q := 3], [], None, {}, false, None)

  lemma PartialQueuedReaches()
    ensures Reaches(PartialQueued)
  {
    PartialReaches();
    NComes();
    assert [] + [Made(0, "n")] == [Made(0, "n")] && [Made(0, "n")] + [] == [Made(0, "n")];
    NewName(Partial, 1, "n", 2, 0, WithQN);
    Reconciles(NewInPartial);
    QIsAbove();
    TakesMade(PartialAwaited, 0, "n", Q, []);
  }

  lemma PartialNotedReaches()
    ensures Reaches(PartialNoted)
  {
    PartialQueuedReaches();
    AtDeep(PartialQueued);
    VisitNew(PartialQueued, QN, 2, true);
    var none: set<Path> := {};
    assert none + {QN} == {QN};
    assert map[0 := 1][1 := 2] == map[0 := 1, 1 := 2] && map[Q := 0][QN := 1] == map[Q := 0, QN := 1];
    assert Visited(PartialQueued, QN, 2, true) == PartialNoted;
  }

  lemma PartialOpenedReaches()
    ensures Reaches(PartialOpened)
  {
    PartialNotedReaches();
    NLeaves();
    assert [] + [Gone(0, "n")] == [Gone(0, "n")];
    NameGoes(PartialNoted, 1, "n", 0, WithQ);
    ScanStarts(PartialGone, {QN}, false);
    Picks(PartialScan, [], true);
  }

  lemma PartialSweepReaches()
    ensures Reaches(PartialSweep)
  {
    PartialOpenedReaches();
    assert Top + {[]} == Top && {QN} + {[]} == {QN, []};
    DeniesGoes(PartialOpened, false);
    ReachesNext(PartialOpened, Deny(false, true), PartialDenied);
    Ends(PartialDenied, true);
    SweepStarts(PartialScanned, {QN, []}, false);
  }

  lemma PartialQuietReaches()
    ensures Reaches(PartialQuiet)
  {
    PartialSweptReaches();
    Commits(PartialSwept, {QN, []});
    TakesNobodys(PartialDone, Gone(0, "n"), [Ignored(0)]);
    assert [Ignored(0)] + [] == [Ignored(0)];
    TakesNobodys(PartialDone.(queue := [Ignored(0)]), Ignored(0), []);
  }

  lemma PartialSweptReaches()
    ensures Reaches(PartialSwept)
  {
    PartialSweepReaches();
    assert map[Q := 0, QN := 1] - {Q} == map[QN := 1] && map[0 := 1, 1 := 2] - {0} == map[1 := 2];
    SweepsOnly(PartialSweep, Q, 0);
  }

  lemma QAgainReaches()
    ensures Reaches(QAgain)
  {
    PartialQuietReaches();
    AtDeep(PartialQuiet);
    Promotes(PartialQuiet, [], 0);
    NoTop();
    assert map[1 := 2][2 := 0] == map[1 := 2, 2 := 0] && map[QN := 1][[] := 2] == map[QN := 1, [] := 2];
    assert Watched(PartialQuiet.(open := Some(Opening([], false, false, true, false))), [], 0) == RootAgain;
    RootAgainListed();
  }

  lemma RootAgainListed()
    requires Reaches(RootAgain)
    ensures Reaches(QAgain)
  {
    AtDeep(RootAgain);
    QIsListed();
    QIsAbove();
    ListsPromotedOne(RootAgain, [], 0, "q");
  }

  lemma PassedReaches()
    ensures Reaches(Passed)
  {
    QAgainReaches();
    AtDeep(QAgain);
    VisitNew(QAgain, Q, 1, false);
    assert map[1 := 2, 2 := 0][3 := 1] == map[1 := 2, 2 := 0, 3 := 1];
    assert map[QN := 1, [] := 2][Q := 3] == map[QN := 1, [] := 2, Q := 3];
    assert Visited(QAgain, Q, 1, false) == Passed;
  }

  lemma OnlySweptForgets()
    ensures Enabled(PartialSweep, SweepWatched(Q)) && OnlyThrough(PartialSweep, Q, QN)
  {
    AtDeep(PartialSweep);
    NothingExcluded(PartialSweep, QN);
    forall k, p | Hitter(PartialSweep, k, p, QN) ensures p == Q {
      assert k == 0;
    }
  }

  lemma NIsPassed()
    ensures QuietAndComplete(Passed) && QN in Passed.watched && !Exists(Passed, QN)
  {
    AtDeep(Passed);
  }

  /**
   * The root is refused a watch, so the scan does not come across `q`, and the sweep drops its registration while the
   * record of a removal from it is unread. What the record was about was noted before and is spared. Once the root has
   * its watch coverage is called complete.
   */
  lemma ASweptInterestLeavesAStray()
    ensures Reaches(PartialSweep) && Enabled(PartialSweep, SweepWatched(Q)) && OnlyThrough(PartialSweep, Q, QN)
    ensures Reaches(Passed) && QuietAndComplete(Passed) && QN in Passed.watched && !Exists(Passed, QN)
  {
    PartialSweepReaches();
    OnlySweptForgets();
    PassedReaches();
    NIsPassed();
  }
}
