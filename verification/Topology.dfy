// One subscription's directory walk, running against a file system that other
// processes keep changing and a kernel that queues records about it.
//
// A step is one system call of the worker, one record it handles, or one change
// made by somebody else. A watch descriptor below stands for one lifetime of a
// kernel descriptor; module Registry shows that records reach their own lifetime.

module Topology {
  import opened Paths
  import opened Exclusions

  datatype Option<+T> = None | Some(value: T)

  type Ino = nat
  type Wd = nat

  datatype Record =
    | Made(wd: Wd, name: Name)
    | Gone(wd: Wd, name: Name)
    | SelfGone(wd: Wd)
    | Ignored(wd: Wd)
    | Overflow

  /** A directory stream being enumerated; `remaining` is what it still has to return. */
  datatype Active = Active(path: Path, ino: Ino, remaining: set<Name>, atLimit: bool)

  datatype Job = Job(dirs: seq<Path>, active: Option<Active>, reconciling: bool)

  /** The directory the worker is opening, before (`!entered`) or after its watch was decided. */
  datatype Opening = Opening(path: Path, entered: bool, reconciling: bool, promoting: bool, atLimit: bool)

  datatype ScanPhase = Waiting | Scanning | Sweeping

  /**
   * A reconciliation: the paths it has come across, and whether anything has raised uncertainty since its scan began.
   * It takes note of paths while it still waits for the walk to settle.
   */
  datatype Scan = Scan(phase: ScanPhase, encountered: set<Path>, raised: bool)

  datatype State = State(
    // the file system
    kids: map<Ino, map<Name, Ino>>, root: Ino, dead: set<Ino>,
    // the kernel
    live: map<Wd, Ino>, queue: seq<Record>, nextWd: Wd,
    // the worker
    watched: map<Path, Wd>, identity: map<Wd, Ino>, expects: set<Wd>,
    jobs: seq<Job>, open: Option<Opening>, deferred: set<Path>,
    policy: Policy, toInclude: Option<set<Path>>, uncertain: bool, scan: Option<Scan>)

  // ----- the tree ----------------------------------------------------------

  ghost function At(s: State, p: Path): Option<Ino>
    decreases |p|
  {
    if p == [] then Some(s.root)
    else
      var up := At(s, p[..|p| - 1]);
      if up.Some? && up.value in s.kids && p[|p| - 1] in s.kids[up.value]
      then Some(s.kids[up.value][p[|p| - 1]])
      else None
  }

  ghost predicate Exists(s: State, p: Path)
  {
    At(s, p).Some?
  }

  predicate Excluded(s: State, p: Path)
  {
    TopologyExcludes(s.policy, p)
  }

  // ----- reconciliations ---------------------------------------------------

  /** A scan has begun, or its sweep. */
  predicate UnderWay(s: State)
  {
    s.scan.Some? && !s.scan.value.phase.Waiting?
  }

  /** What a scan under way has not come across will be swept. */
  predicate Seen(s: State, p: Path)
  {
    UnderWay(s) ==> p in s.scan.value.encountered
  }

  /** The roots of what an exclusion update brings back. */
  function Returning(s: State): set<Path>
  {
    if s.toInclude.Some? then s.toInclude.value else {}
  }

  // ----- what the worker holds or still owes -------------------------------

  /** The path is registered with a live watch on the directory that is there now. */
  ghost predicate Good(s: State, p: Path)
  {
    p in s.watched && s.watched[p] in s.live && At(s, p) == Some(s.live[s.watched[p]])
  }

  predicate Interest(s: State, p: Path, wd: Wd)
  {
    p in s.watched && s.watched[p] == wd
  }

  /** Handling record `k` will forget everything at or below `x`. */
  ghost predicate Hit(s: State, k: int, x: Path)
  {
    && 0 <= k < |s.queue|
    && s.queue[k].Gone?
    && exists p :: Interest(s, p, s.queue[k].wd) && p + [s.queue[k].name] <= x
  }

  ghost predicate Clear(s: State, x: Path)
  {
    forall k :: !Hit(s, k, x)
  }

  ghost predicate Settled(s: State, p: Path)
  {
    Good(s, p) && Clear(s, p) && Seen(s, p)
  }

  ghost predicate InJob(s: State, a: Path)
  {
    exists j :: 0 <= j < |s.jobs| && a in s.jobs[j].dirs
  }

  ghost predicate Streaming(s: State, j: int, a: Path)
  {
    && 0 <= j < |s.jobs| && s.jobs[j].active.Some?
    && s.jobs[j].active.value.path == a
    && At(s, a) == Some(s.jobs[j].active.value.ino)
  }

  ghost predicate ToRead(s: State, a: Path)
  {
    a != [] && exists j :: Streaming(s, j, Parent(a)) && a[|a| - 1] in s.jobs[j].active.value.remaining
  }

  ghost predicate Queued(s: State, a: Path)
  {
    || InJob(s, a)
    || ToRead(s, a)
    || (s.open.Some? && s.open.value.path == a)
    || (a in s.deferred && Seen(s, a))
    || a in Returning(s)
  }

  /** Record `k` announces `a` to a parent registered when the record is handled, and nothing later forgets `a`. */
  ghost predicate NamedAt(s: State, k: int, a: Path)
  {
    && a != []
    && 0 <= k < |s.queue|
    && s.queue[k].Made?
    && s.queue[k].name == a[|a| - 1]
    && Interest(s, Parent(a), s.queue[k].wd)
    && (forall j :: j < k ==> !Hit(s, j, Parent(a)))
    && (forall j :: k < j ==> !Hit(s, j, a))
  }

  ghost predicate Named(s: State, a: Path)
  {
    exists k :: NamedAt(s, k, a)
  }

  ghost predicate Frontier(s: State, a: Path)
  {
    (Queued(s, a) && Clear(s, a)) || Named(s, a)
  }

  /** The worker still owes a visit to `p` or to a directory above it. */
  ghost predicate Owed(s: State, p: Path)
  {
    exists a :: a <= p && Frontier(s, a)
  }

  /** Detail may be lost, and no scan under way makes up for it. */
  ghost predicate Lossy(s: State)
  {
    Overflow in s.queue || (s.uncertain && (UnderWay(s) ==> s.scan.value.raised))
  }

  /** Watch-before-read accounting of every existing directory that is not excluded. */
  ghost predicate Accounted(s: State)
  {
    forall p :: Exists(s, p) && !Excluded(s, p) ==> Settled(s, p) || Owed(s, p)
  }

  /** Once the worker goes on to read a directory, that directory is covered without the read itself. */
  ghost predicate OpenCovered(s: State)
  {
    s.open.Some? && s.open.value.entered ==> !Orphaned(s, s.open.value.path)
  }

  /** Below `a` some directory is neither settled nor owed a visit by what is left in `u`. */
  ghost predicate Forsaken(s: State, u: State, a: Path)
  {
    exists p :: a <= p && Exists(s, p) && !Excluded(s, p) && !Settled(s, p) && !Owed(u, p)
  }

  /** An existing directory neither watched where it is nor owed a visit, the current opening aside. */
  ghost predicate Orphaned(s: State, a: Path)
  {
    Exists(s, a) && !Excluded(s, a) && !Settled(s, a) && !Owed(s.(open := None), a)
  }

  // ----- kernel and registry ----------------------------------------------

  ghost predicate About(r: Record, wd: Wd)
  {
    (r.Made? || r.Gone? || r.SelfGone?) && r.wd == wd
  }

  ghost predicate TreeOk(s: State)
  {
    && s.root in s.kids && s.root !in s.dead
    && (forall i, n :: i in s.kids && n in s.kids[i] ==> s.kids[i][n] in s.kids && s.kids[i][n] !in s.dead)
  }

  ghost predicate RegistryOk(s: State)
  {
    && (forall wd :: wd in s.live ==> wd in s.identity && s.identity[wd] == s.live[wd])
    && (forall v, w :: v in s.identity && w in s.identity && s.identity[v] == s.identity[w] ==> v == w)
    && (forall p :: p in s.watched ==> s.watched[p] in s.identity)
    && (forall wd :: wd in s.identity ==> wd < s.nextWd)
    && (forall wd :: wd in s.identity && wd !in s.live ==> s.identity[wd] in s.dead)
  }

  /** What holds of the queue whatever was lost. */
  ghost predicate QueueFacts(s: State)
  {
    && (forall k :: 0 <= k < |s.queue| && !s.queue[k].Overflow? ==> s.queue[k].wd < s.nextWd)
    && (forall k :: 0 <= k < |s.queue| && s.queue[k].Ignored? ==> s.queue[k].wd !in s.live)
    && (forall j, k :: 0 <= k < j < |s.queue| && s.queue[k].Ignored? ==> !About(s.queue[j], s.queue[k].wd))
  }

  /** Every queued removal of a name that exists again is followed by the record of its return. */
  ghost predicate Returns(s: State)
  {
    forall k :: 0 <= k < |s.queue| && s.queue[k].Gone? ==> Remade(s, k)
  }

  ghost predicate QueueOk(s: State)
  {
    QueueFacts(s) && Returns(s)
  }

  /** A removal record about a name that exists again is followed by the record of its return. */
  ghost predicate Remade(s: State, k: int)
    requires 0 <= k < |s.queue| && s.queue[k].Gone?
  {
    var wd := s.queue[k].wd;
    var n := s.queue[k].name;
    wd in s.live && s.live[wd] in s.kids && n in s.kids[s.live[wd]] ==>
      exists j :: k < j < |s.queue| && s.queue[j] == Made(wd, n)
  }

  /** While a scan is under way, every job belongs to it and it has come across whatever is read. */
  ghost predicate ScanOk(s: State)
  {
    && (UnderWay(s) ==>
         && (forall j :: 0 <= j < |s.jobs| ==>
              s.jobs[j].reconciling && (s.jobs[j].active.Some? ==> Seen(s, s.jobs[j].active.value.path)))
         && (s.open.Some? ==>
              s.open.value.reconciling && !s.open.value.promoting && (s.open.value.entered ==> Seen(s, s.open.value.path))))
    && (s.scan.Some? ==> s.toInclude.None?)
    && (s.scan.Some? && s.scan.value.phase.Sweeping? ==> s.jobs == [] && s.open.None?)
  }

  /** What holds in every state of every run, whatever was lost. */
  ghost predicate Base(s: State)
  {
    TreeOk(s) && RegistryOk(s) && QueueFacts(s) && ScanOk(s) && (s.open.Some? ==> !Excluded(s, s.open.value.path))
  }

  /** Nothing has been lost. */
  ghost predicate Sound(s: State)
  {
    TreeOk(s) && RegistryOk(s) && QueueOk(s) && Accounted(s) && OpenCovered(s)
  }

  ghost predicate Inv(s: State)
  {
    Base(s) && (Lossy(s) || Sound(s))
  }

  // ----- steps of the environment -----------------------------------------

  function WithName(names: map<Name, Ino>, n: Name, x: Ino): map<Name, Ino>
  {
    names[n := x]
  }

  function WithoutName(names: map<Name, Ino>, n: Name): map<Name, Ino>
  {
    map m | m in names && m != n :: names[m]
  }

  ghost function Notify(s: State, i: Ino, made: bool, n: Name, lost: bool): State
  {
    if lost || i !in s.live.Values then s
    else
      var wd :| wd in s.live && s.live[wd] == i;
      s.(queue := s.queue + [if made then Made(wd, n) else Gone(wd, n)])
  }

  ghost function Link(s: State, i: Ino, n: Name, x: Ino, lost: bool): State
    requires i in s.kids
  {
    Notify(s.(kids := s.kids[i := WithName(s.kids[i], n, x)]), i, true, n, lost)
  }

  ghost function Unlink(s: State, i: Ino, n: Name, lost: bool): State
    requires i in s.kids
  {
    Notify(s.(kids := s.kids[i := WithoutName(s.kids[i], n)]), i, false, n, lost)
  }

  /** A name that is gone need no longer be returned by the streams open on its directory. */
  function Pruned(jobs: seq<Job>, i: Ino, n: Name): seq<Job>
  {
    seq(|jobs|, j requires 0 <= j < |jobs| => PrunedJob(jobs[j], i, n))
  }

  function PrunedJob(job: Job, i: Ino, n: Name): Job
  {
    if job.active.Some? && job.active.value.ino == i
    then job.(active := Some(job.active.value.(remaining := job.active.value.remaining - {n}))) else job
  }

  ghost function DropWatch(s: State, wd: Wd, lost: bool): State
    requires wd in s.live
  {
    s.(live := s.live - {wd}, dead := s.dead + {s.live[wd]},
       queue := if lost then s.queue else s.queue + [SelfGone(wd), Ignored(wd)])
  }

  // ----- steps of the worker ----------------------------------------------

  /** Uncertainty is raised, which a scan under way takes note of. */
  function Raise(s: State): State
  {
    s.(uncertain := true, scan := Raised(s.scan))
  }

  function Raised(scan: Option<Scan>): Option<Scan>
  {
    if scan.Some? then Some(scan.value.(raised := true)) else None
  }

  /** The reconciliation comes across the directory being opened, if a job of its own opens it. */
  function Noted(s: State): Option<Scan>
  {
    if s.scan.Some? && s.open.Some? && s.open.value.reconciling
    then Some(s.scan.value.(encountered := s.scan.value.encountered + {s.open.value.path})) else s.scan
  }

  /** Work for the walk sends a sweep back to scanning. */
  function Restarted(scan: Option<Scan>): Option<Scan>
  {
    if scan.Some? && scan.value.phase.Sweeping? then Some(scan.value.(phase := Scanning)) else scan
  }

  /** Drops one interest and, with the last one, the watch and its registration. */
  function RemoveInterest(s: State, p: Path): State
    requires p in s.watched
  {
    var wd := s.watched[p];
    var rest := s.watched - {p};
    if exists q | q in rest :: rest[q] == wd then s.(watched := rest)
    else s.(watched := rest, identity := s.identity - {wd}, expects := s.expects - {wd}, live := s.live - {wd},
            queue := if wd in s.live then s.queue + [Ignored(wd)] else s.queue)
  }

  function RemoveAll(s: State, order: seq<Path>): State
    decreases |order|
  {
    if order == [] then s
    else RemoveAll(if order[0] in s.watched then RemoveInterest(s, order[0]) else s, order[1..])
  }

  predicate Enumerates(order: seq<Path>, paths: set<Path>)
  {
    && (forall p :: p in paths ==> p in order)
    && (forall k :: 0 <= k < |order| ==> order[k] in paths)
  }

  function Below(paths: set<Path>, tops: set<Path>): set<Path>
  {
    set p | p in paths && Under(tops, p)
  }

  /** Forgets everything registered or deferred at or below the given paths. */
  function RemoveSubtrees(s: State, tops: set<Path>, order: seq<Path>): State
  {
    var t := RemoveAll(s, order);
    t.(deferred := t.deferred - Below(t.deferred, tops))
  }

  function Interests(s: State, wd: Wd): set<Path>
  {
    set p | p in s.watched && s.watched[p] == wd
  }

  /** The reported paths of a named record, as seen through each interest of its watch. */
  function Reported(s: State, wd: Wd, n: Name): set<Path>
  {
    set p | p in s.watched && s.watched[p] == wd && !EventExcludes(s.policy, p + [n], true) :: p + [n]
  }

  function PushAll(jobs: seq<Job>, order: seq<Path>, reconciling: bool): seq<Job>
  {
    jobs + seq(|order|, k requires 0 <= k < |order| => Job([order[k]], None, reconciling))
  }

  /** The watch is gone, and unless that was expected so is certainty about what its interests covered. */
  function WatchEnded(s: State, wd: Wd): State
  {
    if wd !in s.identity then s
    else
      var u := s.(watched := map p | p in s.watched && s.watched[p] != wd :: s.watched[p],
                  identity := s.identity - {wd}, expects := s.expects - {wd});
      if wd !in s.expects && Interests(s, wd) != {} then Raise(u) else u
  }

  function HandleRecord(s: State, order: seq<Path>): State
    requires s.queue != []
  {
    var r := s.queue[0];
    var t := s.(queue := s.queue[1..]);
    match r
    case Overflow => Raise(t)
    case SelfGone(wd) => if wd in s.identity then t.(expects := s.expects + {wd}) else t
    case Ignored(wd) => WatchEnded(t, wd)
    case Made(wd, n) =>
      if order == [] then t else t.(jobs := PushAll(s.jobs, order, s.scan.Some?), scan := Restarted(s.scan))
    case Gone(wd, n) => RemoveSubtrees(t, Reported(s, wd, n), order)
  }

  ghost predicate HandleEnabled(s: State, order: seq<Path>)
  {
    && s.queue != []
    && (s.queue[0].Made? ==> Enumerates(order, Reported(s, s.queue[0].wd, s.queue[0].name)))
    && (s.queue[0].Gone? ==>
          Enumerates(order, Below(s.watched.Keys, Reported(s, s.queue[0].wd, s.queue[0].name))))
  }

  function PickDirectory(s: State): State
    requires s.jobs != [] && s.jobs[0].dirs != []
  {
    var job := s.jobs[0];
    var a := job.dirs[0];
    var t := s.(jobs := s.jobs[0 := job.(dirs := job.dirs[1..])]);
    if Excluded(s, a) then t.(deferred := t.deferred - Below(t.deferred, {a}))
    else t.(open := Some(Opening(a, false, job.reconciling, false, false)))
  }

  function Promote(s: State, a: Path): State
  {
    s.(open := Some(Opening(a, false, false, true, false)))
  }

  /** The path is registered, so it is read without looking at which directory the registration is for. */
  function SkipAdd(s: State): State
    requires s.open.Some?
  {
    s.(open := Some(s.open.value.(entered := true)), scan := Noted(s))
  }

  /** Registers the path for the directory `i` found there, sharing a watch when one exists. */
  ghost function AddInterest(s: State, i: Ino): State
    requires s.open.Some?
  {
    var a := s.open.value.path;
    var t := s.(open := Some(s.open.value.(entered := true)), deferred := s.deferred - {a}, scan := Noted(s));
    if exists wd :: wd in s.identity && s.identity[wd] == i then
      var wd :| wd in s.identity && s.identity[wd] == i;
      t.(watched := s.watched[a := wd])
    else
      t.(watched := s.watched[a := s.nextWd], identity := s.identity[s.nextWd := i],
         live := s.live[s.nextWd := i], nextWd := s.nextWd + 1)
  }

  /**
   * A limit or an error leaves the path deferred; only establishment reads on without a watch. A directory that cannot
   * be examined at the limit is deferred without the reconciliation taking note of it.
   */
  function Refuse(s: State, readOn: bool, noted: bool): State
    requires s.open.Some?
  {
    var a := s.open.value.path;
    s.(deferred := s.deferred + {a}, scan := if noted then Noted(s) else s.scan,
       open := if readOn then Some(s.open.value.(entered := true, atLimit := true)) else None)
  }

  function FoundStale(s: State, order: seq<Path>, noted: bool): State
    requires s.open.Some?
  {
    RemoveSubtrees(s, {s.open.value.path}, order).(open := None, scan := if noted then Noted(s) else s.scan)
  }

  function OpenStream(s: State, i: Ino, names: set<Name>): State
    requires s.open.Some? && (s.open.value.promoting || s.jobs != [])
  {
    var o := s.open.value;
    var active := Some(Active(o.path, i, names, o.atLimit));
    s.(open := None,
       jobs := if o.promoting then s.jobs + [Job([], active, false)]
               else s.jobs[0 := s.jobs[0].(active := active)])
  }

  predicate StreamOpen(s: State)
  {
    s.jobs != [] && s.jobs[0].active.Some?
  }

  /** The stream returns `n`, of which the listing says whether it is a directory. */
  function ReadEntry(s: State, n: Name, directory: bool): State
    requires StreamOpen(s)
  {
    var job := s.jobs[0];
    var a := job.active.value;
    var c := a.path + [n];
    s.(jobs := s.jobs[0 := job.(active := Some(a.(remaining := a.remaining - {n})),
                                dirs := if directory && !Excluded(s, c) then job.dirs + [c] else job.dirs)])
  }

  /** The entry cannot be classified, which defers the directory being read. */
  function EntryFails(s: State, n: Name): State
    requires StreamOpen(s)
  {
    var a := s.jobs[0].active.value;
    ReadEntry(s, n, false).(deferred := s.deferred + {a.path})
  }

  function FinishDirectory(s: State): State
    requires StreamOpen(s)
  {
    var a := s.jobs[0].active.value;
    s.(jobs := s.jobs[0 := s.jobs[0].(active := None)],
       deferred := if a.atLimit then s.deferred else s.deferred - {a.path})
  }

  function BeginReplacement(s: State, policy: Policy): State
  {
    s.(policy := policy, toInclude := Some(PolicyReinclusionRoots(s.policy, policy)))
  }

  function ScanIncluded(s: State, order: seq<Path>): State
  {
    s.(jobs := PushAll(s.jobs, order, false), toInclude := None)
  }

  /** The scan starts at the root; from here on it counts what raises uncertainty. */
  function BeginScan(s: State): State
    requires s.scan.Some?
  {
    s.(jobs := [Job([[]], None, true)], scan := Some(s.scan.value.(phase := Scanning, raised := false)))
  }

  /** Uncertainty ends with a scan since whose beginning nothing raised it, if the consumer takes the root batch. */
  function CommitScan(s: State, sent: bool): State
    requires s.scan.Some?
  {
    s.(scan := None, uncertain := !sent || (s.uncertain && s.scan.value.raised))
  }

  datatype Step =
    | NewDirectory(x: Ino)
    | LinkName(i: Ino, n: Name, x: Ino, lost: bool)
    | UnlinkName(i: Ino, n: Name, lost: bool)
    | KernelDrops(wd: Wd, lost: bool)
    | QueueOverflows
    | Handle(order: seq<Path>)
    | Pick
    | StartPromotion(a: Path)
    | Skip
    | Identify
    | Add
    | Deny(readOn: bool, noted: bool)
    | Race
    | Stale(order: seq<Path>, noted: bool)
    | Read
    | Entry(n: Name, directory: bool)
    | EntryError(n: Name)
    | Finish
    | FinishJob
    | Replace(policy: Policy)
    | DropExcluded(p: Path)
    | Include(order: seq<Path>)
    | Doubt
    | Reconcile
    | StartScan
    | StartSweep
    | SweepWatched(p: Path)
    | SweepDeferred(p: Path)
    | Commit(sent: bool)

  ghost predicate Enabled(s: State, step: Step)
  {
    match step
    case NewDirectory(x) => x !in s.kids && x !in s.dead
    // a directory may take the place of an empty one; what has no room in the queue leaves an overflow record there
    case LinkName(i, n, x, lost) => i in s.kids && x in s.kids && x !in s.dead && (lost ==> Overflow in s.queue)
      && (n in s.kids[i] && s.kids[i][n] in s.kids ==> s.kids[s.kids[i][n]] == map[])
    case UnlinkName(i, n, lost) => i in s.kids && n in s.kids[i] && (lost ==> Overflow in s.queue)
    case KernelDrops(wd, lost) => wd in s.live && s.live[wd] != s.root && (lost ==> Overflow in s.queue)
      && (forall i, n :: i in s.kids && n in s.kids[i] ==> s.kids[i][n] != s.live[wd])
    case QueueOverflows => true
    case Handle(order) => s.open.None? && HandleEnabled(s, order)
    case Pick => s.open.None? && s.jobs != [] && s.jobs[0].dirs != [] && s.jobs[0].active.None?
    case StartPromotion(a) => s.open.None? && s.scan.None? && s.toInclude.None? && a in s.deferred && !Excluded(s, a)
    case Skip => Opened(s) && s.open.value.path in s.watched
      && (s.open.value.reconciling ==> Matches(s, s.open.value.path))
    case Identify => Opened(s) && s.open.value.reconciling && s.open.value.path in s.watched
      && !Matches(s, s.open.value.path)
    case Add => Opened(s) && s.open.value.path !in s.watched && Exists(s, s.open.value.path)
    case Deny(readOn, noted) =>
      (Opened(s) && s.open.value.path !in s.watched && (readOn ==> noted)) || (Entered(s) && !readOn && noted)
    case Race => s.open.Some?
    case Stale(order, noted) => s.open.Some? && !Exists(s, s.open.value.path)
      && (Opened(s) ==> s.open.value.path !in s.watched)
      && Enumerates(order, if Opened(s) then {} else Below(s.watched.Keys, {s.open.value.path}))
    case Read => Entered(s) && Exists(s, s.open.value.path) && At(s, s.open.value.path).value in s.kids
      && (s.open.value.promoting || (s.jobs != [] && s.jobs[0].active.None?))
    case Entry(n, directory) => s.open.None? && StreamOpen(s)
      && var a := s.jobs[0].active.value;
         a.ino in s.kids && n in s.kids[a.ino] ==> directory
    case EntryError(n) => s.open.None? && StreamOpen(s)
    case Finish => s.open.None? && StreamOpen(s) && s.jobs[0].active.value.remaining == {}
    case FinishJob => s.open.None? && s.jobs != [] && s.jobs[0].dirs == [] && s.jobs[0].active.None?
    case Replace(policy) => s.open.None? && s.toInclude.None? && s.scan.None?
    case DropExcluded(p) => s.open.None? && s.toInclude.Some? && Excluded(s, p)
    case Include(order) => s.open.None? && s.toInclude.Some? && Enumerates(order, s.toInclude.value)
      && (forall p :: p in s.watched || p in s.deferred ==> !Excluded(s, p))
    case Doubt => s.open.None?
    case Reconcile => s.open.None? && s.scan.None? && s.toInclude.None?
    case StartScan => s.open.None? && s.jobs == [] && s.scan.Some? && s.scan.value.phase.Waiting?
    case StartSweep => s.open.None? && s.jobs == [] && s.scan.Some? && s.scan.value.phase.Scanning?
    case SweepWatched(p) => Sweeps(s) && p in s.watched && !Seen(s, p)
    case SweepDeferred(p) => Sweeps(s) && p in s.deferred && !Seen(s, p)
    // the sweep has passed over everything, as module ReconciliationSweep shows
    case Commit(sent) => Sweeps(s) && (forall p :: p in s.watched || p in s.deferred ==> Seen(s, p))
  }

  predicate Sweeps(s: State) { s.open.None? && s.scan.Some? && s.scan.value.phase.Sweeping? }

  predicate Opened(s: State) { s.open.Some? && !s.open.value.entered }

  predicate Entered(s: State) { s.open.Some? && s.open.value.entered }

  /** The registered watch is for the directory found at the path now. */
  ghost predicate Matches(s: State, a: Path)
    requires a in s.watched
  {
    s.watched[a] in s.identity && At(s, a) == Some(s.identity[s.watched[a]])
  }

  ghost function Next(s: State, step: Step): State
    requires Enabled(s, step)
  {
    match step
    case NewDirectory(x) => s.(kids := s.kids[x := map[]])
    case LinkName(i, n, x, lost) => Link(s, i, n, x, lost)
    case UnlinkName(i, n, lost) =>
      var t := Unlink(s, i, n, lost);
      t.(jobs := Pruned(t.jobs, i, n))
    case KernelDrops(wd, lost) => DropWatch(s, wd, lost)
    case QueueOverflows => s.(queue := s.queue + [Overflow])
    case Handle(order) => HandleRecord(s, order)
    case Pick => PickDirectory(s)
    case StartPromotion(a) => Promote(s, a)
    case Skip => SkipAdd(s)
    case Identify => RemoveInterest(s, s.open.value.path)
    case Add => AddInterest(s, At(s, s.open.value.path).value)
    case Deny(readOn, noted) => Refuse(s, readOn, noted)
    case Race => Raise(s).(open := None)
    case Stale(order, noted) => FoundStale(s, order, noted)
    case Read => OpenStream(s, At(s, s.open.value.path).value, s.kids[At(s, s.open.value.path).value].Keys)
    case Entry(n, directory) => ReadEntry(s, n, directory)
    case EntryError(n) => EntryFails(s, n)
    case Finish => FinishDirectory(s)
    case FinishJob => s.(jobs := s.jobs[1..])
    case Replace(policy) => BeginReplacement(s, policy)
    case DropExcluded(p) =>
      (if p in s.watched then RemoveInterest(s, p) else s).(deferred := s.deferred - {p})
    case Include(order) => ScanIncluded(s, order)
    case Doubt => Raise(s)
    case Reconcile => s.(scan := Some(Scan(Waiting, {}, false)))
    case StartScan => BeginScan(s)
    case StartSweep => s.(scan := Some(s.scan.value.(phase := Sweeping)))
    case SweepWatched(p) => RemoveInterest(s, p)
    case SweepDeferred(p) => s.(deferred := s.deferred - {p})
    case Commit(sent) => CommitScan(s, sent)
  }

  /**
   * The four branches that can lose a directory: a registered path is read although nothing else covers what is there,
   * the end of a listing erases a deferral still needed, a scan begins over an unread removal whose return was lost, or
   * a deferral still needed is not noted and will be swept.
   */
  ghost predicate Lapse(s: State, step: Step)
  {
    || (step.Skip? && s.open.Some? && Orphaned(SkipAdd(s), s.open.value.path))
    || (step.Finish? && StreamOpen(s) && !s.jobs[0].active.value.atLimit
        && Forsaken(s, s.(deferred := s.deferred - {s.jobs[0].active.value.path}), s.jobs[0].active.value.path))
    || (step.StartScan? && !Returns(s))
    || (step.Deny? && !step.noted && s.open.Some? && !Seen(s, s.open.value.path)
        && Forsaken(s, s.(open := None), s.open.value.path))
  }
}
