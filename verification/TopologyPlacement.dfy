// The other half of coverage: what is registered exists, unless a queued record is about
// to forget it, and the steps that can leave a registration behind.

module TopologyPlacement {
  import opened Paths
  import opened Exclusions
  import opened Topology
  import opened TopologyEnvironment
  import opened TopologyRecords
  import opened TopologyWalk
  import opened TopologyInterests
  import opened TopologyBase
  import opened TopologyTheorems

  /** Some queued record will forget the path. */
  ghost predicate Due(s: State, p: Path)
    requires p in s.watched
  {
    !Clear(s, p) || Ignored(s.watched[p]) in s.queue
  }

  ghost predicate Placed(s: State, p: Path)
    requires p in s.watched
  {
    Due(s, p) || Excluded(s, p) || Exists(s, p)
  }

  ghost predicate AllPlaced(s: State)
  {
    forall p :: p in s.watched && Seen(s, p) ==> Placed(s, p)
  }

  /** Registered paths are excluded only while an exclusion update removes them. */
  predicate WatchedVisible(s: State)
  {
    s.toInclude.None? ==> forall p | p in s.watched :: !Excluded(s, p)
  }

  /** Record `k` forgets `p` through the interest at `q`. */
  ghost predicate Hitter(s: State, k: int, q: Path, p: Path)
  {
    0 <= k < |s.queue| && s.queue[k].Gone? && Interest(s, q, s.queue[k].wd) && q + [s.queue[k].name] <= p
  }

  /** The registered path `q` is not there, and if a queued record is about to forget it, then through the interest at `a`. */
  ghost predicate OnlyThrough(s: State, a: Path, q: Path)
  {
    && q in s.watched && q != a && Seen(s, q) && !Excluded(s, q) && !Exists(s, q)
    && Ignored(s.watched[q]) !in s.queue
    && (forall k, p :: Hitter(s, k, p, q) ==> p == a)
  }

  /** The registered path `p`, noted by the reconciliation while it waited, is not there and nothing will forget it. */
  ghost predicate NotedAstray(s: State, p: Path)
  {
    s.scan.Some? && p in s.scan.value.encountered && p in s.watched && !Placed(s, p)
  }

  /** A live watch on the directory `i` is registered where its name `n` leads on to `p`. */
  ghost predicate Witnessed(s: State, i: Ino, n: Name, p: Path)
  {
    exists q :: q in s.watched && s.watched[q] in s.live && s.live[s.watched[q]] == i && q + [n] <= p
  }

  /** The registered path `p` lies below the name `n` of the directory `i` at `u`, and no live watch would tell. */
  ghost predicate Unwatched(s: State, i: Ino, n: Name, u: Path, p: Path)
  {
    && p in s.watched && Seen(s, p) && !Due(s, p) && !Excluded(s, p)
    && u + [n] <= p && At(s, u) == Some(i) && !Witnessed(s, i, n, p)
  }

  /**
   * The steps that leave a registration behind: a name goes while something below it is registered and no live watch
   * would tell; a scan begins after a loss and keeps the note of a path that is not there; an interest is dropped, by a
   * visit or by the sweep, through which alone a path that is not there was about to be forgotten.
   */
  ghost predicate Strays(s: State, step: Step)
  {
    || (step.UnlinkName? && exists u, p :: Unwatched(s, step.i, step.n, u, p))
    || (step.StartScan? && exists p :: NotedAstray(s, p))
    || (step.Identify? && s.open.Some? && exists q :: OnlyThrough(s, s.open.value.path, q))
    || (step.SweepWatched? && exists q :: OnlyThrough(s, step.p, q))
  }

  // ----- what leaves the queue and the interests alone ---------------------

  lemma SamePlaced(s: State, t: State)
    requires AllPlaced(s)
    requires t.kids == s.kids && t.root == s.root && t.queue == s.queue && t.watched == s.watched && t.policy == s.policy
    requires forall p :: p in t.watched && Seen(t, p) ==> Seen(s, p) || Exists(t, p)
    ensures AllPlaced(t)
  {
    SameTrees(s, t);
    SameHits(s, t);
    forall p | p in t.watched && Seen(t, p) ensures Placed(t, p) {
      if Seen(s, p) { assert Placed(s, p); }
    }
  }

  lemma AppendDue(s: State, t: State, p: Path)
    requires t.watched == s.watched && s.queue <= t.queue && p in s.watched && Due(s, p)
    ensures Due(t, p)
  {
    OldHits(s, t);
    if Ignored(s.watched[p]) in s.queue {
      var k :| 0 <= k < |s.queue| && s.queue[k] == Ignored(s.watched[p]);
      assert t.queue[k] == s.queue[k];
    } else {
      var k :| Hit(s, k, p);
      assert Hit(t, k, p);
    }
  }

  /** Records are appended, and what existed still does. */
  lemma AppendPlaced(s: State, t: State)
    requires AllPlaced(s) && t.watched == s.watched && t.policy == s.policy && t.scan == s.scan && s.queue <= t.queue
    requires forall p :: p in s.watched && Exists(s, p) ==> Exists(t, p)
    ensures AllPlaced(t)
  {
    forall p | p in t.watched && Seen(t, p) ensures Placed(t, p) {
      assert Placed(s, p);
      if Due(s, p) { AppendDue(s, t, p); }
    }
  }

  // ----- the environment ---------------------------------------------------

  /** A new name, or one in place of an empty directory's, takes no directory from where it is. */
  lemma {:induction false} LinkExists(s: State, t: State, i: Ino, n: Name, x: Ino, p: Path)
    requires i in s.kids && t.kids == s.kids[i := WithName(s.kids[i], n, x)] && t.root == s.root && Exists(s, p)
    requires n in s.kids[i] && s.kids[i][n] in s.kids ==> s.kids[s.kids[i][n]] == map[]
    ensures Exists(t, p)
    ensures At(t, p) == At(s, p) || (n in s.kids[i] && At(s, p) == Some(s.kids[i][n]))
    decreases |p|
  {
    if p != [] {
      LinkExists(s, t, i, n, x, Parent(p));
    }
  }

  lemma {:induction false} UnlinkLoses(s: State, t: State, i: Ino, n: Name, p: Path) returns (u: Path)
    requires i in s.kids && t.kids == s.kids[i := WithoutName(s.kids[i], n)] && t.root == s.root
    ensures At(t, p) == At(s, p) || (u + [n] <= p && At(s, u) == Some(i))
    decreases |p|
  {
    u := [];
    if p != [] {
      var q := Parent(p);
      u := UnlinkLoses(s, t, i, n, q);
      if u + [n] <= q && At(s, u) == Some(i) {
        PrefixTransitive(u + [n], q, p);
      } else if At(s, q) == Some(i) && p[|p| - 1] == n {
        u := q;
        assert u + [n] == p;
      }
    }
  }

  lemma NewDirectoryPlaced(s: State, x: Ino)
    requires TreeOk(s) && AllPlaced(s) && Enabled(s, NewDirectory(x))
    ensures AllPlaced(Next(s, NewDirectory(x)))
  {
    var t := Next(s, NewDirectory(x));
    forall p ensures At(t, p) == At(s, p) { SameButEmpty(s, t, x, p); }
    AppendPlaced(s, t);
  }

  lemma LinkPlaced(s: State, i: Ino, n: Name, x: Ino)
    requires AllPlaced(s) && Enabled(s, LinkName(i, n, x, false))
    ensures AllPlaced(Link(s, i, n, x, false))
  {
    var t := Link(s, i, n, x, false);
    forall p | Exists(s, p) ensures Exists(t, p) { LinkExists(s, t, i, n, x, p); }
    AppendPlaced(s, t);
  }

  /** The removal of a name from a watched directory is queued, and will forget what is registered below the name. */
  lemma UnlinkHits(s: State, i: Ino, n: Name, p: Path)
    requires RegistryOk(s) && i in s.kids && Witnessed(s, i, n, p)
    ensures var t := Unlink(s, i, n, false); Hit(t, |s.queue|, p)
  {
    var t := Unlink(s, i, n, false);
    var q :| q in s.watched && s.watched[q] in s.live && s.live[s.watched[q]] == i && q + [n] <= p;
    var wd := t.queue[|s.queue|].wd;
    assert s.identity[wd] == s.identity[s.watched[q]];
    assert Interest(t, q, t.queue[|s.queue|].wd);
  }

  lemma UnlinkPlaced(s: State, i: Ino, n: Name)
    requires RegistryOk(s) && AllPlaced(s) && Enabled(s, UnlinkName(i, n, false)) && !Strays(s, UnlinkName(i, n, false))
    ensures AllPlaced(Unlink(s, i, n, false))
  {
    var t := Unlink(s, i, n, false);
    forall p | p in t.watched && Seen(t, p) ensures Placed(t, p) {
      assert Placed(s, p);
      if Due(s, p) {
        AppendDue(s, t, p);
      } else if Exists(s, p) && !Excluded(s, p) {
        var u := UnlinkLoses(s, t, i, n, p);
        if At(t, p) != At(s, p) {
          assert !Unwatched(s, i, n, u, p);
          UnlinkHits(s, i, n, p);
        }
      }
    }
  }

  /** What no live watch tells of is neither there nor about to be forgotten. */
  lemma UnwatchedStrays(s: State, i: Ino, n: Name, u: Path, p: Path)
    requires Enabled(s, UnlinkName(i, n, false)) && Unwatched(s, i, n, u, p)
    ensures !Placed(Unlink(s, i, n, false), p)
  {
    var t := Unlink(s, i, n, false);
    OldHits(s, t);
    if Exists(t, p) {
      AfterUnlink(s, t, i, n, p);
    }
    assert !Hit(t, |s.queue|, p);
  }

  /**
   * The removal of a name leaves every registered path existing, excluded or about to be forgotten if and only if each
   * one below the name has a live watch on the directory registered above it.
   */
  lemma UnlinkPlacedExactly(s: State, i: Ino, n: Name)
    requires RegistryOk(s) && AllPlaced(s) && Enabled(s, UnlinkName(i, n, false))
    ensures AllPlaced(Next(s, UnlinkName(i, n, false))) <==> !exists u, p :: Unwatched(s, i, n, u, p)
  {
    var t, v := Unlink(s, i, n, false), Next(s, UnlinkName(i, n, false));
    if u, p :| Unwatched(s, i, n, u, p) {
      UnwatchedStrays(s, i, n, u, p);
      if AllPlaced(v) { SamePlaced(v, t); }
    } else {
      UnlinkNamePlaced(s, i, n);
    }
  }

  lemma UnlinkNamePlaced(s: State, i: Ino, n: Name)
    requires RegistryOk(s) && AllPlaced(s) && Enabled(s, UnlinkName(i, n, false)) && !Strays(s, UnlinkName(i, n, false))
    ensures AllPlaced(Next(s, UnlinkName(i, n, false)))
  {
    UnlinkPlaced(s, i, n);
    SamePlaced(Unlink(s, i, n, false), Next(s, UnlinkName(i, n, false)));
  }

  lemma DropPlaced(s: State, wd: Wd)
    requires AllPlaced(s) && wd in s.live
    ensures AllPlaced(DropWatch(s, wd, false))
  {
    SameTrees(s, DropWatch(s, wd, false));
    AppendPlaced(s, DropWatch(s, wd, false));
  }

  // ----- records -----------------------------------------------------------

  lemma HitterAbove(s: State, k: int, q: Path, p: Path)
    requires Hitter(s, k, q, p)
    ensures q <= p && q != p
  {
    assert q <= q + [s.queue[k].name];
    PrefixTransitive(q, q + [s.queue[k].name], p);
    assert |q + [s.queue[k].name]| <= |p|;
  }

  /** The record at the front is gone from the queue; later ones still find the interests they need. */
  lemma HandledDue(s: State, t: State, p: Path)
    requires Handled(s, t) && p in t.watched && Due(s, p)
    requires !Hit(s, 0, p) && s.queue[0] != Ignored(s.watched[p])
    requires forall k, q :: (0 < k && Hitter(s, k, q, p)) ==> q in t.watched
    ensures Due(t, p)
  {
    if Ignored(s.watched[p]) in s.queue {
      var k :| 0 <= k < |s.queue| && s.queue[k] == Ignored(s.watched[p]);
      assert t.queue[k - 1] == s.queue[1..][k - 1] == s.queue[k];
    } else {
      var k :| Hit(s, k, p);
      assert k > 0;
      assert t.queue[k - 1] == s.queue[1..][k - 1] == s.queue[k];
      var q :| Interest(s, q, s.queue[k].wd) && q + [s.queue[k].name] <= p;
      assert Hitter(s, k, q, p);
      assert Interest(t, q, t.queue[k - 1].wd);
      assert Hit(t, k - 1, p);
    }
  }

  lemma HandledPlaced(s: State, t: State)
    requires Handled(s, t) && AllPlaced(s) && (forall p :: Seen(t, p) ==> Seen(s, p))
    requires forall p :: p in t.watched && Hit(s, 0, p) ==> Excluded(s, p)
    requires forall p :: p in t.watched ==> s.queue[0] != Ignored(s.watched[p])
    requires forall k, p, q :: (0 < k && p in t.watched && Hitter(s, k, q, p)) ==> q in t.watched
    ensures AllPlaced(t)
  {
    SameTrees(s, t);
    forall p | p in t.watched && Seen(t, p) ensures Placed(t, p) {
      assert Placed(s, p);
      if Due(s, p) && !Hit(s, 0, p) { HandledDue(s, t, p); }
    }
  }

  lemma GonePlaced(s: State, order: seq<Path>)
    requires Base(s) && Sound(s) && AllPlaced(s) && s.open.None? && HandleEnabled(s, order) && s.queue[0].Gone?
    ensures AllPlaced(HandleRecord(s, order))
  {
    var t := HandleRecord(s, order);
    var tops := Reported(s, s.queue[0].wd, s.queue[0].name);
    GoneHandled(s, order);
    GoneSeen(s, order);
    forall p | p in t.watched && Hit(s, 0, p) ensures Excluded(s, p) {
      UnreportedIsExcluded(s, p);
    }
    forall k, p, q | 0 < k && p in t.watched && Hitter(s, k, q, p) ensures q in t.watched {
      HitterAbove(s, k, q, p);
      UnderAbove(tops, q, p);
    }
    HandledPlaced(s, t);
  }

  lemma UnderAbove(tops: set<Path>, q: Path, p: Path)
    requires q <= p
    ensures Under(tops, q) ==> Under(tops, p)
  {
    if r :| r in tops && r <= q {
      PrefixTransitive(r, q, p);
    }
  }

  lemma GoneSeen(s: State, order: seq<Path>)
    requires s.queue != [] && s.queue[0].Gone?
    ensures HandleRecord(s, order).scan == s.scan
  {
    RemoveAllWalk(s.(queue := s.queue[1..]), order);
  }

  /** What a removal hits and does not forget is excluded. */
  lemma UnreportedIsExcluded(s: State, p: Path)
    requires s.queue != [] && s.queue[0].Gone? && Hit(s, 0, p)
    requires !Under(Reported(s, s.queue[0].wd, s.queue[0].name), p)
    ensures Excluded(s, p)
  {
    var wd, n := s.queue[0].wd, s.queue[0].name;
    var q :| Interest(s, q, wd) && q + [n] <= p;
    assert q + [n] !in Reported(s, wd, n);
    assert q in s.watched && s.watched[q] == wd;
    ExclusionClosed(s.policy, q + [n], p);
  }

  lemma IgnoredPlaced(s: State, order: seq<Path>)
    requires Base(s) && Sound(s) && AllPlaced(s) && s.open.None? && s.queue != [] && s.queue[0].Ignored?
    ensures AllPlaced(HandleRecord(s, order))
  {
    var t := HandleRecord(s, order);
    IgnoredHandled(s, order);
    EndedShape(s.(queue := s.queue[1..]), s.queue[0].wd);
    forall k, p, q | 0 < k && p in t.watched && Hitter(s, k, q, p) ensures q in t.watched {
      assert !About(s.queue[k], s.queue[0].wd);
    }
    HandledPlaced(s, t);
  }

  lemma OtherPlaced(s: State, order: seq<Path>)
    requires Sound(s) && AllPlaced(s) && s.open.None? && HandleEnabled(s, order)
    requires s.queue[0].Made? || s.queue[0].SelfGone?
    ensures AllPlaced(HandleRecord(s, order))
  {
    var t := HandleRecord(s, order);
    if s.queue[0].Made? { MadeHandled(s, order); } else { SelfGoneHandled(s, order); }
    HandledPlaced(s, t);
  }

  lemma HandlePlaced(s: State, order: seq<Path>)
    requires Base(s) && Sound(s) && AllPlaced(s) && Enabled(s, Handle(order)) && !Lossy(s)
    ensures AllPlaced(HandleRecord(s, order))
  {
    match s.queue[0] {
      case Gone(_, _) => GonePlaced(s, order);
      case Ignored(_) => IgnoredPlaced(s, order);
      case _ => OtherPlaced(s, order);
    }
  }

  // ----- interests ---------------------------------------------------------

  lemma AddPlaced(s: State)
    requires AllPlaced(s) && Enabled(s, Add)
    ensures AllPlaced(Next(s, Add))
  {
    var a := s.open.value.path;
    var t := Next(s, Add);
    SameTrees(s, t);
    forall q | q in t.watched && Seen(t, q) ensures Placed(t, q) {
      if q != a {
        assert Placed(s, q);
        if !Clear(s, q) {
          var k :| Hit(s, k, q);
          AddHits(s, t, At(s, a).value, k, q);
        }
      }
    }
  }

  /** Where interests go, what is forgotten through others still is. */
  lemma ShedPlaced(s: State, t: State, gone: set<Path>)
    requires AllPlaced(s) && Loosened(s, t, gone) && (forall q :: q in t.watched && Seen(t, q) ==> Seen(s, q))
    requires forall g, q :: g in gone && q in t.watched && Seen(t, q) && g <= q && g != q ==> Excluded(s, q)
    ensures AllPlaced(t)
  {
    SameTrees(s, t);
    forall q | q in t.watched && Seen(t, q) ensures Placed(t, q) {
      assert Placed(s, q);
      if Due(s, q) && !Excluded(s, q) {
        if Ignored(s.watched[q]) in s.queue {
          var k :| 0 <= k < |s.queue| && s.queue[k] == Ignored(s.watched[q]);
          assert t.queue[k] == s.queue[k];
        } else {
          var k :| Hit(s, k, q);
          var p :| Interest(s, p, s.queue[k].wd) && p + [s.queue[k].name] <= q;
          assert Hitter(s, k, p, q);
          HitterAbove(s, k, p, q);
          assert t.queue[k] == s.queue[k];
          assert Interest(t, p, t.queue[k].wd);
          assert Hit(t, k, q);
        }
      }
    }
  }

  /** What is forgotten through another interest than the one dropped still is. */
  lemma OtherwiseDue(s: State, a: Path, q: Path)
    requires a in s.watched && q in s.watched && q != a
    requires Ignored(s.watched[q]) in s.queue || exists k, p :: Hitter(s, k, p, q) && p != a
    ensures Due(RemoveInterest(s, a), q)
  {
    var t := RemoveInterest(s, a);
    RemoveInterestSheds(s, a);
    if Ignored(s.watched[q]) in s.queue {
      var k :| 0 <= k < |s.queue| && s.queue[k] == Ignored(s.watched[q]);
      assert t.queue[k] == s.queue[k];
    } else {
      var k, p :| Hitter(s, k, p, q) && p != a;
      assert t.queue[k] == s.queue[k];
      assert Interest(t, p, t.queue[k].wd);
      assert Hit(t, k, q);
    }
  }

  /** Once the interest at `a` is gone, nothing forgets what was to be forgotten through it alone. */
  lemma NoLongerDue(s: State, a: Path, q: Path)
    requires a in s.watched && OnlyThrough(s, a, q)
    ensures !Placed(RemoveInterest(s, a), q)
  {
    var t := RemoveInterest(s, a);
    RemoveInterestSheds(s, a);
    SameTrees(s, t);
    forall k ensures !Hit(t, k, q) {
      if Hit(t, k, q) {
        var p :| Interest(t, p, t.queue[k].wd) && p + [t.queue[k].name] <= q;
        assert k < |s.queue|;
        assert Hitter(s, k, p, q);
      }
    }
    OthersNotIgnored(s, a, q);
  }

  /** A watch that another path still has an interest in is not ended. */
  lemma OthersNotIgnored(s: State, a: Path, q: Path)
    requires a in s.watched && q in s.watched && q != a
    ensures Ignored(s.watched[q]) in RemoveInterest(s, a).queue ==> Ignored(s.watched[q]) in s.queue
  {
    var rest := s.watched - {a};
    assert q in rest && rest[q] == s.watched[q];
    assert s.watched[a] == s.watched[q] ==> RemoveInterest(s, a).queue == s.queue;
  }

  /**
   * Dropping an interest leaves every registered path existing, excluded or about to be forgotten if and only if none
   * that is not there was about to be forgotten through that interest alone.
   */
  lemma DropPlacedExactly(s: State, a: Path)
    requires AllPlaced(s) && a in s.watched
    ensures AllPlaced(RemoveInterest(s, a)) <==> !exists q :: OnlyThrough(s, a, q)
  {
    var t := RemoveInterest(s, a);
    RemoveInterestSheds(s, a);
    if q :| OnlyThrough(s, a, q) {
      NoLongerDue(s, a, q);
    } else {
      SameTrees(s, t);
      forall q | q in t.watched && Seen(t, q) ensures Placed(t, q) {
        assert Placed(s, q) && !OnlyThrough(s, a, q);
        if !Excluded(s, q) && !Exists(s, q) { OtherwiseDue(s, a, q); }
      }
    }
  }

  lemma DropExcludedPlaced(s: State, e: Path)
    requires AllPlaced(s) && Enabled(s, DropExcluded(e))
    ensures AllPlaced(Next(s, DropExcluded(e)))
  {
    var u := if e in s.watched then RemoveInterest(s, e) else s;
    var t := u.(deferred := u.deferred - {e});
    if e in s.watched { RemoveInterestSheds(s, e); }
    assert Loosened(s, t, {e} * s.watched.Keys);
    forall q | e <= q ensures Excluded(s, q) { ExclusionClosed(s.policy, e, q); }
    ShedPlaced(s, t, {e} * s.watched.Keys);
  }

  lemma StalePlaced(s: State, order: seq<Path>, noted: bool)
    requires ScanOk(s) && AllPlaced(s) && Enabled(s, Stale(order, noted))
    ensures AllPlaced(FoundStale(s, order, noted))
  {
    var a := s.open.value.path;
    var t := FoundStale(s, order, noted);
    var gone := if Opened(s) then {} else Below(s.watched.Keys, {a});
    RemoveAllSheds(s, order, gone);
    SameElsewhere(RemoveAll(s, order), t);
    assert Loosened(s, t, gone);
    forall g, q | g <= q ensures Under({a}, g) ==> Under({a}, q) { UnderAbove({a}, g, q); }
    assert a in {a} && a <= a;
    assert Under({a}, a);
    ShedPlaced(s, t, gone);
  }

  // ----- the walk and the transactions -------------------------------------

  lemma SkipPlaced(s: State)
    requires AllPlaced(s) && Enabled(s, Skip)
    ensures AllPlaced(SkipAdd(s))
  {
    SameTrees(s, SkipAdd(s));
    SamePlaced(s, SkipAdd(s));
  }

  lemma DenyPlaced(s: State, readOn: bool, noted: bool)
    requires ScanOk(s) && AllPlaced(s) && Enabled(s, Deny(readOn, noted))
    ensures AllPlaced(Refuse(s, readOn, noted))
  {
    SamePlaced(s, Refuse(s, readOn, noted));
  }

  lemma ReplacePlaced(s: State, policy: Policy)
    requires AllPlaced(s) && WatchedVisible(s) && Enabled(s, Replace(policy))
    ensures AllPlaced(BeginReplacement(s, policy))
  {
    var t := BeginReplacement(s, policy);
    SameTrees(s, t);
    SameHits(s, t);
    forall p | p in t.watched && Seen(t, p) ensures Placed(t, p) { assert Placed(s, p); }
  }

  lemma TransactionPlaced(s: State, step: Step)
    requires AllPlaced(s) && Enabled(s, step) && Transacts(step)
    ensures AllPlaced(Next(s, step))
  {
    SamePlaced(s, Next(s, step));
  }

  lemma WalkPlaced(s: State, step: Step)
    requires AllPlaced(s) && Enabled(s, step)
    requires step.Pick? || step.StartPromotion? || step.Race? || step.Read? || Lists(step)
    ensures AllPlaced(Next(s, step))
  {
    WalkShape(s, step);
    SamePlaced(s, Next(s, step));
  }

  predicate SameSight(s: State, t: State)
  {
    t.kids == s.kids && t.root == s.root && t.queue == s.queue && t.watched == s.watched && t.policy == s.policy
  }

  lemma WalkShape(s: State, step: Step)
    requires Enabled(s, step)
    requires step.Pick? || step.StartPromotion? || step.Race? || step.Read? || Lists(step)
    ensures var t := Next(s, step); SameSight(s, t) && forall p :: Seen(t, p) == Seen(s, p)
  {
    InternalShape(s, step);
    OpensShape(s, step);
    if Lists(step) { ListsSame(s, step); } else { OpensSame(s, step); }
  }

  lemma ListsSame(s: State, step: Step)
    requires Enabled(s, step) && Lists(step)
    ensures Next(s, step).scan == s.scan
  {
  }

  lemma OpensSame(s: State, step: Step)
    requires Enabled(s, step) && (step.Pick? || step.StartPromotion? || step.Race? || step.Read?)
    ensures forall p :: Seen(Next(s, step), p) == Seen(s, p)
  {
  }

  lemma MovesPlaced(s: State, step: Step)
    requires AllPlaced(s) && WatchedVisible(s) && Enabled(s, step) && Moves(step)
    ensures AllPlaced(Next(s, step))
  {
    match step {
      case Replace(policy) => ReplacePlaced(s, policy);
      case FinishJob => SamePlaced(s, Next(s, step));
      case Include(_) => SamePlaced(s, Next(s, step));
    }
  }

  lemma RegistersPlaced(s: State, step: Step)
    requires Base(s) && AllPlaced(s) && Enabled(s, step) && Registers(step) && !Strays(s, step)
    ensures AllPlaced(Next(s, step))
  {
    match step {
      case Identify => DropPlacedExactly(s, s.open.value.path);
      case Add => AddPlaced(s);
      case Stale(order, noted) => StalePlaced(s, order, noted);
      case DropExcluded(p) => DropExcludedPlaced(s, p);
      case SweepWatched(p) => DropPlacedExactly(s, p);
    }
  }

  lemma EnvironmentPlaced(s: State, step: Step)
    requires Base(s) && AllPlaced(s) && Enabled(s, step) && !Lossy(s) && !Strays(s, step)
    requires step.NewDirectory? || step.LinkName? || step.UnlinkName? || step.KernelDrops? || step.QueueOverflows?
    ensures Lossy(Next(s, step)) || AllPlaced(Next(s, step))
  {
    match step {
      case NewDirectory(x) => NewDirectoryPlaced(s, x);
      case LinkName(i, n, x, lost) => LinkPlaced(s, i, n, x);
      case UnlinkName(i, n, lost) => UnlinkNamePlaced(s, i, n);
      case KernelDrops(wd, lost) => DropPlaced(s, wd);
      case QueueOverflows => assert Next(s, step).queue[|s.queue|] == Overflow;
    }
  }

  lemma NextPlacedWhenExact(s: State, step: Step)
    requires Inv(s) && !Lossy(s) && AllPlaced(s) && WatchedVisible(s) && Enabled(s, step) && !Strays(s, step)
    ensures Lossy(Next(s, step)) || AllPlaced(Next(s, step))
  {
    if step.Skip? {
      SkipPlaced(s);
    } else if step.Deny? {
      DenyPlaced(s, step.readOn, step.noted);
    } else if Opens(step) || Lists(step) {
      WalkPlaced(s, step);
    } else if Moves(step) {
      MovesPlaced(s, step);
    } else if Transacts(step) {
      TransactionPlaced(s, step);
    } else if Registers(step) {
      RegistersPlaced(s, step);
    } else if step.Handle? {
      HandlePlaced(s, step.order);
    } else {
      EnvironmentPlaced(s, step);
    }
  }

  /**
   * The beginning of a scan leaves every registered path the scan will spare existing, excluded or about to be forgotten
   * if and only if it so leaves those the reconciliation noted while it waited.
   */
  lemma StartScanPlacedExactly(s: State)
    requires Enabled(s, StartScan)
    ensures AllPlaced(BeginScan(s)) <==> !exists p :: NotedAstray(s, p)
  {
    var t := BeginScan(s);
    SameTrees(s, t);
    SameHits(s, t);
    forall p | p in s.watched ensures Placed(t, p) == Placed(s, p) {
    }
    if p :| NotedAstray(s, p) {
      assert Seen(t, p) && !Placed(t, p);
    } else {
      forall p | p in t.watched && Seen(t, p) ensures Placed(t, p) {
        assert !NotedAstray(s, p);
      }
    }
  }

  lemma NextPlaced(s: State, step: Step)
    requires Inv(s) && (Lossy(s) || AllPlaced(s)) && WatchedVisible(s) && Enabled(s, step) && !Strays(s, step)
    ensures Lossy(Next(s, step)) || AllPlaced(Next(s, step))
  {
    if !Lossy(s) {
      NextPlacedWhenExact(s, step);
    } else if step.StartScan? {
      StartScanPlacedExactly(s);
    } else {
      LossyStays(s, step);
    }
  }

  /** Nothing else is set apart: where nothing is lost, a step leaves a registration behind if and only if it strays. */
  lemma NextPlacedExactly(s: State, step: Step)
    requires Inv(s) && (Lossy(s) || AllPlaced(s)) && WatchedVisible(s) && Enabled(s, step) && !Lossy(Next(s, step))
    ensures AllPlaced(Next(s, step)) <==> !Strays(s, step)
  {
    if !Strays(s, step) {
      NextPlaced(s, step);
    } else if step.StartScan? {
      StartScanPlacedExactly(s);
    } else {
      if Lossy(s) { LossyStays(s, step); }
      StrayStaysBehind(s, step);
    }
  }

  lemma StrayStaysBehind(s: State, step: Step)
    requires AllPlaced(s) && RegistryOk(s) && Enabled(s, step) && Strays(s, step) && !step.StartScan? && !Lossy(s)
    ensures !AllPlaced(Next(s, step))
  {
    if step.UnlinkName? {
      UnlinkPlacedExactly(s, step.i, step.n);
    } else if step.Identify? {
      DropPlacedExactly(s, s.open.value.path);
    } else {
      DropPlacedExactly(s, step.p);
    }
  }

  // ----- visibility --------------------------------------------------------

  lemma FewerVisible(s: State, t: State)
    requires WatchedVisible(s) && t.policy == s.policy && t.toInclude == s.toInclude
    requires forall p :: p in t.watched ==> p in s.watched
    ensures WatchedVisible(t)
  {
  }

  lemma HandleVisible(s: State, order: seq<Path>)
    requires Base(s) && WatchedVisible(s) && Enabled(s, Handle(order))
    ensures WatchedVisible(HandleRecord(s, order))
  {
    var u, t := s.(queue := s.queue[1..]), HandleRecord(s, order);
    match s.queue[0] {
      case Gone(_, _) =>
        RemoveAllVisible(u, order);
        RemoveAllWalk(u, order);
        FewerVisible(s, t);
      case Ignored(wd) =>
        EndedShape(u, wd);
        FewerVisible(s, t);
      case _ => FewerVisible(s, t);
    }
  }

  lemma {:induction false} RemoveAllVisible(s: State, order: seq<Path>)
    ensures forall p :: p in RemoveAll(s, order).watched ==> p in s.watched
    decreases |order|
  {
    if order != [] {
      RemoveAllVisible(if order[0] in s.watched then RemoveInterest(s, order[0]) else s, order[1..]);
    }
  }

  lemma RegistersVisible(s: State, step: Step)
    requires Base(s) && WatchedVisible(s) && Enabled(s, step) && Registers(step)
    ensures WatchedVisible(Next(s, step))
  {
    if step.Stale? {
      StaleVisible(s, step.order, step.noted);
    } else if step.Add? {
      AddVisible(s);
    } else {
      DropsVisible(s, step);
    }
  }

  lemma AddVisible(s: State)
    requires Base(s) && WatchedVisible(s) && Enabled(s, Add)
    ensures WatchedVisible(Next(s, Add))
  {
  }

  lemma DropsVisible(s: State, step: Step)
    requires WatchedVisible(s) && Enabled(s, step) && (step.Identify? || step.DropExcluded? || step.SweepWatched?)
    ensures WatchedVisible(Next(s, step))
  {
    FewerVisible(s, Next(s, step));
  }

  lemma StaleVisible(s: State, order: seq<Path>, noted: bool)
    requires WatchedVisible(s) && s.open.Some?
    ensures WatchedVisible(FoundStale(s, order, noted))
  {
    RemoveAllVisible(s, order);
    RemoveAllWalk(s, order);
    FewerVisible(s, FoundStale(s, order, noted));
  }

  lemma OpensVisible(s: State, step: Step)
    requires WatchedVisible(s) && Enabled(s, step) && (Opens(step) || Lists(step))
    ensures WatchedVisible(Next(s, step))
  {
    OpensShape(s, step);
    FewerVisible(s, Next(s, step));
  }

  lemma OpensShape(s: State, step: Step)
    requires Enabled(s, step) && (Opens(step) || Lists(step))
    ensures SameView(s, Next(s, step))
  {
    if Lists(step) {
      ListsView(s, step);
    } else if step.Pick? || step.StartPromotion? {
      PicksView(s, step);
    } else {
      OpenedView(s, step);
    }
  }

  predicate SameView(s: State, t: State)
  {
    t.watched == s.watched && t.policy == s.policy && t.toInclude == s.toInclude
  }

  lemma ListsView(s: State, step: Step)
    requires Enabled(s, step) && Lists(step)
    ensures SameView(s, Next(s, step))
  {
  }

  lemma PicksView(s: State, step: Step)
    requires Enabled(s, step) && (step.Pick? || step.StartPromotion?)
    ensures SameView(s, Next(s, step))
  {
  }

  lemma OpenedView(s: State, step: Step)
    requires Enabled(s, step) && (step.Skip? || step.Deny? || step.Race? || step.Read?)
    ensures SameView(s, Next(s, step))
  {
  }

  lemma EnvironmentVisible(s: State, step: Step)
    requires WatchedVisible(s) && Enabled(s, step)
    requires step.NewDirectory? || step.LinkName? || step.UnlinkName? || step.KernelDrops? || step.QueueOverflows?
    ensures WatchedVisible(Next(s, step))
  {
    FewerVisible(s, Next(s, step));
  }

  lemma OtherVisible(s: State, step: Step)
    requires WatchedVisible(s) && Enabled(s, step) && (Moves(step) || Transacts(step))
    ensures WatchedVisible(Next(s, step))
  {
  }

  lemma NextVisible(s: State, step: Step)
    requires Base(s) && WatchedVisible(s) && Enabled(s, step)
    ensures WatchedVisible(Next(s, step))
  {
    if Opens(step) || Lists(step) {
      OpensVisible(s, step);
    } else if Moves(step) || Transacts(step) {
      OtherVisible(s, step);
    } else if Registers(step) {
      RegistersVisible(s, step);
    } else if step.Handle? {
      HandleVisible(s, step.order);
    } else {
      EnvironmentVisible(s, step);
    }
  }

  // ----- coverage, both ways -----------------------------------------------

  lemma {:induction false} PlacedHolds(states: seq<State>, steps: seq<Step>, k: nat)
    requires Run(states, steps) && FreeOfLapses(states, steps) && k < |states|
    requires forall j :: 0 <= j < k ==> !Strays(states[j], steps[j])
    ensures WatchedVisible(states[k]) && (Lossy(states[k]) || AllPlaced(states[k]))
    decreases k
  {
    if k > 0 {
      PlacedHolds(states, steps, k - 1);
      WatchBeforeRead(states, steps, k - 1);
      NextPlaced(states[k - 1], steps[k - 1]);
      NextVisible(states[k - 1], steps[k - 1]);
    }
  }

  /**
   * Complete coverage of a quiet subscription is exact: the registered paths are the visible directories there are, and
   * each has a live watch on the directory at that path. So it is where nothing was ever lost, and where everything was
   * and a reconciliation has committed since.
   */
  lemma CoverageIsExact(states: seq<State>, steps: seq<Step>, k: nat, p: Path)
    requires Run(states, steps) && FreeOfLapses(states, steps) && k < |states|
    requires forall j :: 0 <= j < k ==> !Strays(states[j], steps[j])
    requires QuietAndComplete(states[k])
    ensures p in states[k].watched <==> Exists(states[k], p) && !Excluded(states[k], p)
    ensures p in states[k].watched ==> Good(states[k], p)
  {
    var s := states[k];
    PlacedHolds(states, steps, k);
    if p in s.watched {
      assert Placed(s, p);
      assert Clear(s, p);
    }
    if Exists(s, p) && !Excluded(s, p) {
      CompleteMeansWatched(states, steps, k, p);
    }
  }
}
