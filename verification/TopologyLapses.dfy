// Two concrete runs that end quiet and complete with a directory unwatched: each
// goes through one of the branches that module Topology sets apart as a lapse.

module TopologyLapses {
  import opened Paths
  import opened Exclusions
  import opened Topology
  import opened TopologyEnvironment
  import opened TopologyTheorems
  import opened TopologyRuns

  const Q: Path := ["q"]

  const Tree: map<Ino, map<Name, Ino>> := map[0 := map["q" := 1], 1 := map[], 2 := map[]]

  /** A subscription about to walk a tree. */
  function Begin(kids: map<Ino, map<Name, Ino>>): State
  {
    State(kids, 0, {}, map[], [], 0, map[], map[], {}, One([[]], None, false), None, {}, NoPolicy, None, false, None)
  }

  lemma AtTop(s: State)
    ensures At(s, []) == Some(s.root)
    ensures At(s, Q) == if s.root in s.kids && "q" in s.kids[s.root] then Some(s.kids[s.root]["q"]) else None
  {
    assert Q[..0] == [];
  }

  lemma TopIsQ()
    ensures [] + ["q"] == Q
  {
  }

  // Establishment of a root with one directory `q`.

  const BothWatches: map<Wd, Ino> := map[0 := 0, 1 := 1]
  const Picked: State :=
    Of(Tree, [], map[], 0, map[], One([], None, false), Some(Opening([], false, false, false, false)), {}, false, None)
  const RootAdded: State :=
    Of(Tree, [], map[0 := 0], 1, map[[] := 0], One([], None, false), Some(Opening([], true, false, false, false)), {},
       false, None)
  const RootDone: State := Of(Tree, [], map[0 := 0], 1, map[[] := 0], One([Q], None, false), None, {}, false, None)
  const Idle: State := Of(Tree, [], BothWatches, 2, map[[] := 0, Q := 1], [], None, {}, false, None)

  lemma EstablishRoot()
    ensures Reaches(RootAdded)
  {
    StartReaches(Begin(Tree));
    PickGoes(Begin(Tree), [], false);
    ReachesNext(Begin(Tree), Pick, Picked);
    AtTop(Picked);
    AddGoes(Picked, [], 0);
    assert Watched(Picked, [], 0) == RootAdded;
    ReachesNext(Picked, Add, RootAdded);
  }

  lemma Establish()
    ensures Reaches(Idle)
  {
    EstablishRoot();
    AtTop(RootAdded);
    assert RootAdded.kids[0].Keys == {"q"};
    TopIsQ();
    ListedOne(RootAdded, [], 0, "q", false, false);
    AtTop(RootDone);
    VisitNew(RootDone, Q, 1, false);
    TwoWatches();
    assert Visited(RootDone, Q, 1, false) == Idle;
  }

  lemma TwoWatches()
    ensures map[0 := 0][1 := 1] == BothWatches
    ensures map[[] := 0][Q := 1] == map[[] := 0, Q := 1]
  {
  }

  // A directory renamed over the watched `q`, whose records arrive after the walk has looked.

  const Replaced: State := Idle.(kids := Tree[0 := map["q" := 2]], queue := [Made(0, "q")])
  const Dropped: State := Replaced.(dead := {1}, live := map[0 := 0], queue := [Made(0, "q")] + [SelfGone(1), Ignored(1)])
  const Announced: State := Dropped.(queue := [SelfGone(1), Ignored(1)], jobs := One([Q], None, false))
  const Skipped: State := Announced.(jobs := [])
  const Expecting: State := Skipped.(queue := [Ignored(1)], expects := {1})
  const Forgotten: State := Expecting.(queue := [], watched := map[[] := 0], identity := map[0 := 0], expects := {})

  lemma RenameOver()
    ensures Goes(Idle, LinkName(0, "q", 2, false), Replaced)
  {
    assert WithName(Tree[0], "q", 2) == map["q" := 2];
    assert Idle.live[0] == 0 && 0 in Idle.live.Values;
    assert [] + [Made(0, "q")] == [Made(0, "q")];
  }

  lemma DropOld()
    ensures Goes(Replaced, KernelDrops(1, false), Dropped)
  {
    assert Replaced.live - {1} == map[0 := 0];
  }

  lemma HandleSelfGone()
    ensures Goes(Skipped, Handle([]), Expecting)
  {
    assert Skipped.queue[1..] == [Ignored(1)];
  }

  lemma EndsQ(s: State)
    requires s.watched == map[[] := 0, Q := 1] && s.identity == BothWatches && s.expects == {1}
    ensures WatchEnded(s, 1) == s.(watched := map[[] := 0], identity := map[0 := 0], expects := {})
  {
    assert (map p | p in s.watched && s.watched[p] != 1 :: s.watched[p]) == map[[] := 0];
    assert s.identity - {1} == map[0 := 0];
    assert {1} - {1} == {};
  }

  lemma HandleIgnored()
    ensures Goes(Expecting, Handle([]), Forgotten)
  {
    assert Expecting.queue[1..] == [];
    EndsQ(Expecting.(queue := []));
  }

  lemma ReplacedIsDropped()
    ensures Reaches(Dropped)
  {
    Establish();
    RenameOver();
    ReachesNext(Idle, LinkName(0, "q", 2, false), Replaced);
    DropOld();
    ReachesNext(Replaced, KernelDrops(1, false), Dropped);
  }

  lemma ReplacedIsAnnounced()
    ensures Reaches(Announced)
  {
    ReplacedIsDropped();
    TopIsQ();
    TakesMade(Dropped, 0, "q", [], [SelfGone(1), Ignored(1)]);
  }

  lemma ReplacedIsSkipped()
    ensures Reaches(Skipped)
  {
    ReplacedIsAnnounced();
    AtTop(Announced);
    VisitKnown(Announced, Q, 2, false);
  }

  /** The registration of the replaced directory makes the walk skip the one that took its place. */
  lemma SkippingLosesARenamedDirectory()
    ensures Reaches(Forgotten) && QuietAndComplete(Forgotten)
    ensures Exists(Forgotten, Q) && !Excluded(Forgotten, Q) && !Good(Forgotten, Q)
  {
    ReplacedIsSkipped();
    HandleSelfGone();
    ReachesNext(Skipped, Handle([]), Expecting);
    HandleIgnored();
    ReachesNext(Expecting, Handle([]), Forgotten);
    AtTop(Forgotten);
    NothingExcluded(Forgotten, Q);
  }

  // An entry of the root that could not be classified.

  const RootOpen: State :=
    Of(Tree, [], map[0 := 0], 1, map[[] := 0], One([], Some(Active([], 0, {"q"}, false)), false), None, {}, false, None)
  const Unclassified: State :=
    Of(Tree, [], map[0 := 0], 1, map[[] := 0], One([], Some(Active([], 0, {}, false)), false), None, {[]}, false, None)
  const Erased: State := Of(Tree, [], map[0 := 0], 1, map[[] := 0], One([], None, false), None, {}, false, None)
  const Satisfied: State := Of(Tree, [], map[0 := 0], 1, map[[] := 0], [], None, {}, false, None)

  lemma EntryFailsGoes(s: State, a: Active, n: Name, own: bool)
    requires s.open.None? && s.jobs == One([], Some(a), own)
    ensures Goes(s, EntryError(n), s.(jobs := One([], Some(a.(remaining := a.remaining - {n})), own),
                                      deferred := s.deferred + {a.path}))
  {
    assert s.jobs[0 := Job([], Some(a.(remaining := a.remaining - {n})), own)]
        == One([], Some(a.(remaining := a.remaining - {n})), own);
  }

  lemma FinishErasesGoes(s: State, a: Active, own: bool)
    requires s.open.None? && s.jobs == One([], Some(a), own) && a.remaining == {} && !a.atLimit
    ensures Goes(s, Finish, s.(jobs := One([], None, own), deferred := s.deferred - {a.path}))
  {
    assert s.jobs[0 := Job([], None, own)] == One([], None, own);
  }

  lemma FailEntry()
    ensures Goes(RootOpen, EntryError("q"), Unclassified)
  {
    var none: set<Path> := {};
    assert {"q"} - {"q"} == {} && none + {[]} == {[]};
    EntryFailsGoes(RootOpen, Active([], 0, {"q"}, false), "q", false);
  }

  lemma FinishErasing()
    ensures Goes(Unclassified, Finish, Erased)
  {
    var top: set<Path> := {[]};
    assert top - top == {};
    FinishErasesGoes(Unclassified, Active([], 0, {}, false), false);
  }

  /** Finishing the enumeration erases the deferral that its own error left. */
  lemma FinishingErasesAnEntryError()
    ensures Reaches(Satisfied) && QuietAndComplete(Satisfied)
    ensures Exists(Satisfied, Q) && !Excluded(Satisfied, Q) && !Good(Satisfied, Q)
  {
    EstablishRoot();
    AtTop(RootAdded);
    assert RootAdded.kids[0].Keys == {"q"};
    ReadGoes(RootAdded, [], 0, {"q"}, [], false);
    ReachesNext(RootAdded, Read, RootOpen);
    ErasingReaches();
    AtTop(Satisfied);
    NothingExcluded(Satisfied, Q);
  }

  lemma ErasingReaches()
    requires Reaches(RootOpen)
    ensures Reaches(Satisfied)
  {
    FailEntry();
    ReachesNext(RootOpen, EntryError("q"), Unclassified);
    FinishErasing();
    ReachesNext(Unclassified, Finish, Erased);
    Ends(Erased, false);
  }
}
