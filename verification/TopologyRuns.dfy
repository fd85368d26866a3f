// How a subscription gets from one state to another: single steps, and whole visits.

module TopologyRuns {
  import opened Paths
  import opened Exclusions
  import opened Topology
  import opened TopologyEnvironment
  import opened TopologyTheorems

  /** `t` follows `s` by `step`. */
  ghost predicate Goes(s: State, step: Step, t: State)
  {
    Enabled(s, step) && Next(s, step) == t
  }

  /** A run of the subscription, lapses allowed, ending in `s`. */
  ghost predicate Reaches(s: State)
  {
    exists states, steps :: Run(states, steps) && states[|steps|] == s
  }

  lemma StartReaches(s: State)
    requires Start(s)
    ensures Reaches(s)
  {
    var none: seq<Step> := [];
    assert Run([s], none) && [s][|none|] == s;
  }

  lemma ReachesNext(s: State, step: Step, t: State)
    requires Reaches(s) && Goes(s, step, t)
    ensures Reaches(t)
  {
    var states, steps :| Run(states, steps) && states[|steps|] == s;
    RunOn(states, steps, step, t);
    assert (states + [t])[|steps + [step]|] == t;
  }

  lemma RunOn(states: seq<State>, steps: seq<Step>, step: Step, t: State)
    requires Run(states, steps) && Enabled(states[|steps|], step) && t == Next(states[|steps|], step)
    ensures Run(states + [t], steps + [step])
  {
    var more, all := states + [t], steps + [step];
    forall k | 0 <= k < |all| ensures Enabled(more[k], all[k]) && more[k + 1] == Next(more[k], all[k]) {
      if k < |steps| {
        assert more[k] == states[k] && more[k + 1] == states[k + 1] && all[k] == steps[k];
      }
    }
  }

  // ----- single steps ------------------------------------------------------

  const NoPolicy: Policy := Policy({}, {}, {})

  /** A state in which nothing is excluded and the registry knows each live watch, and no other. */
  function Of(kids: map<Ino, map<Name, Ino>>, queue: seq<Record>, watches: map<Wd, Ino>, nextWd: Wd, watched: map<Path, Wd>,
              jobs: seq<Job>, open: Option<Opening>, deferred: set<Path>, uncertain: bool, scan: Option<Scan>): State
  {
    State(kids, 0, {}, watches, queue, nextWd, watched, watches, {}, jobs, open, deferred, NoPolicy, None, uncertain, scan)
  }

  lemma NothingExcluded(s: State, p: Path)
    requires s.policy == NoPolicy
    ensures !Excluded(s, p) && !EventExcludes(s.policy, p, true)
  {
  }

  function One(dirs: seq<Path>, active: Option<Active>, own: bool): seq<Job>
  {
    [Job(dirs, active, own)]
  }

  /** The reconciliation after one of its own jobs has come across `p`. */
  function With(scan: Option<Scan>, p: Path, own: bool): Option<Scan>
  {
    if scan.Some? && own then Some(scan.value.(encountered := scan.value.encountered + {p})) else scan
  }

  lemma PickGoes(s: State, p: Path, own: bool)
    requires s.open.None? && s.policy == NoPolicy && s.jobs == One([p], None, own)
    ensures Goes(s, Pick, s.(jobs := One([], None, own), open := Some(Opening(p, false, own, false, false))))
  {
    NothingExcluded(s, p);
    assert [p][1..] == [];
    assert s.jobs[0 := Job([], None, own)] == One([], None, own);
  }

  /** The state after a fresh watch was added for the path being opened. */
  function Watched(s: State, p: Path, i: Ino): State
    requires s.open.Some?
  {
    s.(open := Some(s.open.value.(entered := true)), deferred := s.deferred - {p}, scan := Noted(s),
       watched := s.watched[p := s.nextWd], identity := s.identity[s.nextWd := i], live := s.live[s.nextWd := i],
       nextWd := s.nextWd + 1)
  }

  lemma AddGoes(s: State, p: Path, i: Ino)
    requires Opened(s) && s.open.value.path == p && p !in s.watched && At(s, p) == Some(i)
    requires forall wd :: wd in s.identity ==> s.identity[wd] != i
    ensures Goes(s, Add, Watched(s, p, i))
  {
  }

  lemma SkipGoes(s: State, p: Path)
    requires Opened(s) && s.open.value.path == p && p in s.watched && (s.open.value.reconciling ==> Matches(s, p))
    ensures Goes(s, Skip, SkipAdd(s))
  {
  }

  lemma ReadGoes(s: State, p: Path, i: Ino, names: set<Name>, dirs: seq<Path>, own: bool)
    requires Entered(s) && s.open.value.path == p && At(s, p) == Some(i) && i in s.kids && s.kids[i].Keys == names
    requires !s.open.value.promoting && s.jobs == One(dirs, None, own)
    ensures Goes(s, Read, s.(open := None, jobs := One(dirs, Some(Active(p, i, names, s.open.value.atLimit)), own)))
  {
    assert s.jobs[0 := Job(dirs, Some(Active(p, i, names, s.open.value.atLimit)), own)]
        == One(dirs, Some(Active(p, i, names, s.open.value.atLimit)), own);
  }

  lemma ReadPromotedGoes(s: State, p: Path, i: Ino, names: set<Name>)
    requires Entered(s) && s.open.value.path == p && At(s, p) == Some(i) && i in s.kids && s.kids[i].Keys == names
    requires s.open.value.promoting && s.jobs == []
    ensures Goes(s, Read, s.(open := None, jobs := One([], Some(Active(p, i, names, s.open.value.atLimit)), false)))
  {
  }

  lemma EntryGoes(s: State, a: Active, n: Name, own: bool)
    requires s.open.None? && s.policy == NoPolicy && s.jobs == One([], Some(a), own)
    ensures Goes(s, Entry(n, true),
                 s.(jobs := One([a.path + [n]], Some(a.(remaining := a.remaining - {n})), own)))
  {
    NothingExcluded(s, a.path + [n]);
    assert [] + [a.path + [n]] == [a.path + [n]];
    assert s.jobs[0 := Job([a.path + [n]], Some(a.(remaining := a.remaining - {n})), own)]
        == One([a.path + [n]], Some(a.(remaining := a.remaining - {n})), own);
  }

  lemma FinishGoes(s: State, dirs: seq<Path>, a: Active, own: bool)
    requires s.open.None? && s.jobs == One(dirs, Some(a), own) && a.remaining == {}
    requires a.atLimit || a.path !in s.deferred
    ensures Goes(s, Finish, s.(jobs := One(dirs, None, own)))
  {
    assert s.jobs[0 := Job(dirs, None, own)] == One(dirs, None, own);
    assert a.path !in s.deferred ==> s.deferred - {a.path} == s.deferred;
  }

  lemma Ends(s: State, own: bool)
    requires Reaches(s)
    requires s.open.None? && s.jobs == One([], None, own)
    ensures Reaches(s.(jobs := []))
  {
    ReachesNext(s, FinishJob, s.(jobs := []));
  }

  lemma TakesMade(s: State, wd: Wd, n: Name, p: Path, rest: seq<Record>)
    requires Reaches(s)
    requires s.open.None? && s.policy == NoPolicy && s.jobs == [] && s.queue == [Made(wd, n)] + rest
    requires p in s.watched && forall q :: q in s.watched ==> (s.watched[q] == wd <==> q == p)
    ensures Reaches(s.(queue := rest, jobs := One([p + [n]], None, s.scan.Some?), scan := Restarted(s.scan)))
  {
    NothingExcluded(s, p + [n]);
    assert Reported(s, wd, n) == {p + [n]};
    assert s.queue[1..] == rest;
    assert PushAll([], [p + [n]], s.scan.Some?) == One([p + [n]], None, s.scan.Some?);
    ReachesNext(s, Handle([p + [n]]), s.(queue := rest, jobs := One([p + [n]], None, s.scan.Some?), scan := Restarted(s.scan)));
  }

  /** A record about a watch nobody has an interest in any more. */
  lemma TakesNobodys(s: State, r: Record, rest: seq<Record>)
    requires Reaches(s)
    requires s.open.None? && s.queue == [r] + rest && (r.Gone? || (r.Ignored? && r.wd !in s.identity))
    requires forall q :: q in s.watched ==> s.watched[q] != r.wd
    ensures Reaches(s.(queue := rest))
  {
    assert s.queue[1..] == rest;
    if r.Gone? {
      assert Reported(s, r.wd, r.name) == {};
      assert Below(s.watched.Keys, {}) == {};
      assert s.deferred - Below(s.deferred, {}) == s.deferred;
    }
    ReachesNext(s, Handle([]), s.(queue := rest));
  }

  lemma TakesOverflow(s: State, rest: seq<Record>)
    requires Reaches(s)
    requires s.open.None? && s.queue == [Overflow] + rest
    ensures Reaches(Raise(s.(queue := rest)))
  {
    assert s.queue[1..] == rest;
    ReachesNext(s, Handle([]), Raise(s.(queue := rest)));
  }

  /** Dropping the only interest of a live watch. */
  lemma DropsOnly(s: State, p: Path, wd: Wd)
    requires p in s.watched && s.watched[p] == wd && wd in s.live && s.expects == {}
    requires forall q :: q in s.watched && q != p ==> s.watched[q] != wd
    ensures RemoveInterest(s, p) == s.(watched := s.watched - {p}, identity := s.identity - {wd}, live := s.live - {wd},
                                       queue := s.queue + [Ignored(wd)])
  {
    assert s.expects - {wd} == {};
  }

  // ----- whole visits ------------------------------------------------------

  /** An empty directory entered: it is listed and the job ends. */
  lemma Listed(s: State, p: Path, i: Ino, own: bool)
    requires Reaches(s) && Entered(s) && s.open.value == Opening(p, true, own, false, false)
    requires At(s, p) == Some(i) && i in s.kids && s.kids[i] == map[] && p !in s.deferred && s.jobs == One([], None, own)
    ensures Reaches(s.(open := None, jobs := []))
  {
    var a := Active(p, i, {}, false);
    var listing := s.(open := None, jobs := One([], Some(a), own));
    ReadGoes(s, p, i, {}, [], own);
    ReachesNext(s, Read, listing);
    var done := s.(open := None, jobs := One([], None, own));
    FinishGoes(listing, [], a, own);
    ReachesNext(listing, Finish, done);
    Ends(done, own);
  }

  /** An empty directory being opened gets a fresh watch. */
  lemma AddLeaf(s: State, p: Path, i: Ino, own: bool)
    requires Reaches(s) && s.open == Some(Opening(p, false, own, false, false)) && s.jobs == One([], None, own)
    requires p !in s.watched && At(s, p) == Some(i) && i in s.kids && s.kids[i] == map[]
    requires forall wd :: wd in s.identity ==> s.identity[wd] != i
    ensures Reaches(Watched(s, p, i).(open := None, jobs := []))
  {
    var t := Watched(s, p, i);
    AddGoes(s, p, i);
    ReachesNext(s, Add, t);
    SameTree(s, t, p);
    Listed(t, p, i, own);
  }

  /** What a visit that adds a watch leaves. */
  function Visited(s: State, p: Path, i: Ino, own: bool): State
  {
    s.(jobs := [], scan := With(s.scan, p, own), watched := s.watched[p := s.nextWd],
       identity := s.identity[s.nextWd := i], live := s.live[s.nextWd := i], nextWd := s.nextWd + 1)
  }

  lemma VisitNew(s: State, p: Path, i: Ino, own: bool)
    requires Reaches(s) && s.open.None? && s.policy == NoPolicy && s.jobs == One([p], None, own)
    requires p !in s.watched && p !in s.deferred && At(s, p) == Some(i) && i in s.kids && s.kids[i] == map[]
    requires forall wd :: wd in s.identity ==> s.identity[wd] != i
    ensures Reaches(Visited(s, p, i, own))
  {
    var t := s.(jobs := One([], None, own), open := Some(Opening(p, false, own, false, false)));
    PickGoes(s, p, own);
    ReachesNext(s, Pick, t);
    SameTree(s, t, p);
    AddLeaf(t, p, i, own);
    assert s.deferred - {p} == s.deferred;
    assert Watched(t, p, i).(open := None, jobs := []) == Visited(s, p, i, own);
  }

  /** A registered empty directory is visited; a job of the reconciliation has compared identities. */
  lemma VisitKnown(s: State, p: Path, i: Ino, own: bool)
    requires Reaches(s) && s.open.None? && s.policy == NoPolicy && s.jobs == One([p], None, own)
    requires p in s.watched && p !in s.deferred && At(s, p) == Some(i) && i in s.kids && s.kids[i] == map[]
    requires own ==> s.watched[p] in s.identity && s.identity[s.watched[p]] == i
    ensures Reaches(s.(jobs := [], scan := With(s.scan, p, own)))
  {
    var t := s.(jobs := One([], None, own), open := Some(Opening(p, false, own, false, false)));
    PickGoes(s, p, own);
    ReachesNext(s, Pick, t);
    SameTree(s, t, p);
    SkipGoes(t, p);
    ReachesNext(t, Skip, SkipAdd(t));
    SameTree(s, SkipAdd(t), p);
    Listed(SkipAdd(t), p, i, own);
  }

  /** A directory with one child entered: the child is left to be visited. */
  lemma ListedOne(s: State, p: Path, i: Ino, n: Name, own: bool, atLimit: bool)
    requires Reaches(s) && s.policy == NoPolicy && s.open == Some(Opening(p, true, own, false, atLimit))
    requires At(s, p) == Some(i) && i in s.kids && s.kids[i].Keys == {n} && (atLimit || p !in s.deferred)
    requires s.jobs == One([], None, own)
    ensures Reaches(s.(open := None, jobs := One([p + [n]], None, own)))
  {
    var a := Active(p, i, {n}, atLimit);
    var b := a.(remaining := {});
    var listing := s.(open := None, jobs := One([], Some(a), own));
    ReadGoes(s, p, i, {n}, [], own);
    ReachesNext(s, Read, listing);
    OneEntered(listing, a, n, own);
  }

  lemma OneEntered(s: State, a: Active, n: Name, own: bool)
    requires Reaches(s) && s.policy == NoPolicy && s.open.None? && s.jobs == One([], Some(a), own) && a.remaining == {n}
    requires a.atLimit || a.path !in s.deferred
    ensures Reaches(s.(jobs := One([a.path + [n]], None, own)))
  {
    var b := a.(remaining := {});
    var listed := s.(jobs := One([a.path + [n]], Some(b), own));
    assert {n} - {n} == {};
    EntryGoes(s, a, n, own);
    ReachesNext(s, Entry(n, true), listed);
    FinishGoes(listed, [a.path + [n]], b, own);
    ReachesNext(listed, Finish, s.(jobs := One([a.path + [n]], None, own)));
  }

  /** A registered directory with one child is visited, and the child left to be visited. */
  lemma VisitKnownOne(s: State, p: Path, i: Ino, n: Name, own: bool)
    requires Reaches(s) && s.open.None? && s.policy == NoPolicy && s.jobs == One([p], None, own)
    requires p in s.watched && p !in s.deferred && At(s, p) == Some(i) && i in s.kids && s.kids[i].Keys == {n}
    requires own ==> s.watched[p] in s.identity && s.identity[s.watched[p]] == i
    ensures Reaches(s.(jobs := One([p + [n]], None, own), scan := With(s.scan, p, own)))
  {
    var t := s.(jobs := One([], None, own), open := Some(Opening(p, false, own, false, false)));
    PickGoes(s, p, own);
    ReachesNext(s, Pick, t);
    SameTree(s, t, p);
    SkipGoes(t, p);
    ReachesNext(t, Skip, SkipAdd(t));
    SameTree(s, SkipAdd(t), p);
    ListedOne(SkipAdd(t), p, i, n, own, false);
  }

  // ----- reconciliations ---------------------------------------------------

  lemma Reconciles(s: State)
    requires Reaches(s)
    requires s.open.None? && s.scan.None? && s.toInclude.None?
    ensures Reaches(s.(scan := Some(Scan(Waiting, {}, false))))
  {
    ReachesNext(s, Reconcile, s.(scan := Some(Scan(Waiting, {}, false))));
  }

  lemma ScanStarts(s: State, seen: set<Path>, raised: bool)
    requires Reaches(s)
    requires s.open.None? && s.jobs == [] && s.scan == Some(Scan(Waiting, seen, raised))
    ensures Reaches(s.(jobs := One([[]], None, true), scan := Some(Scan(Scanning, seen, false))))
  {
    ReachesNext(s, StartScan, s.(jobs := One([[]], None, true), scan := Some(Scan(Scanning, seen, false))));
  }

  lemma SweepStarts(s: State, seen: set<Path>, raised: bool)
    requires Reaches(s)
    requires s.open.None? && s.jobs == [] && s.scan == Some(Scan(Scanning, seen, raised))
    ensures Reaches(s.(scan := Some(Scan(Sweeping, seen, raised))))
  {
    ReachesNext(s, StartSweep, s.(scan := Some(Scan(Sweeping, seen, raised))));
  }

  lemma Commits(s: State, seen: set<Path>)
    requires Reaches(s)
    requires s.open.None? && s.scan == Some(Scan(Sweeping, seen, false)) && s.watched.Keys + s.deferred <= seen
    ensures Reaches(s.(scan := None, uncertain := false))
  {
    ReachesNext(s, Commit(true), s.(scan := None, uncertain := false));
  }

  /** A finished scan that came across everything registered and deferred commits. */
  lemma SweepsNothing(s: State, seen: set<Path>)
    requires Reaches(s) && s.open.None? && s.jobs == [] && s.scan == Some(Scan(Scanning, seen, false))
    requires s.watched.Keys + s.deferred <= seen
    ensures Reaches(s.(scan := None, uncertain := false))
  {
    var t := s.(scan := Some(Scan(Sweeping, seen, false)));
    SweepStarts(s, seen, false);
    Commits(t, seen);
  }
}
