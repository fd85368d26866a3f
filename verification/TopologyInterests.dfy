// Adding and dropping interests keeps every existing directory accounted for.

module TopologyInterests {
  import opened Paths
  import opened Exclusions
  import opened Topology
  import opened TopologyEnvironment
  import opened TopologyRecords
  import opened TopologyWalk

  // ----- dropping ----------------------------------------------------------

  /** `t` is `s` after dropping the interests `gone`, and possibly queued visits. */
  ghost predicate Loosened(s: State, t: State, gone: set<Path>)
  {
    && Shed(s, t.(deferred := s.deferred, open := s.open, scan := s.scan), gone)
    && t.jobs == s.jobs && t.toInclude == s.toInclude
    && (forall p :: Seen(s, p) ==> Seen(t, p))
  }

  lemma LoosenedHits(s: State, t: State, gone: set<Path>)
    requires Loosened(s, t, gone)
    ensures forall k, x :: Hit(t, k, x) ==> Hit(s, k, x)
    ensures forall x :: Clear(s, x) ==> Clear(t, x)
  {
    forall k, x | Hit(t, k, x) ensures Hit(s, k, x) {
      assert k < |s.queue| && t.queue[k] == s.queue[k];
      var p :| Interest(t, p, t.queue[k].wd) && p + [t.queue[k].name] <= x;
      assert Interest(s, p, s.queue[k].wd) && p + [s.queue[k].name] <= x;
    }
  }

  lemma LoosenedFrontier(s: State, t: State, gone: set<Path>, a: Path)
    requires Loosened(s, t, gone) && Frontier(s, a)
    requires a in s.deferred ==> a in t.deferred
    requires s.open.Some? && s.open.value.path == a ==> t.open == s.open
    requires Named(s, a) ==> Parent(a) !in gone
    ensures Frontier(t, a)
  {
    LoosenedHits(s, t, gone);
    SameTrees(s, t);
    if Queued(s, a) && Clear(s, a) {
      if ToRead(s, a) {
        var j :| Streaming(s, j, Parent(a)) && a[|a| - 1] in s.jobs[j].active.value.remaining;
        assert Streaming(t, j, Parent(a));
      }
      assert Queued(t, a);
    } else {
      var k :| NamedAt(s, k, a);
      assert t.queue[k] == s.queue[k];
      assert NamedAt(t, k, a);
    }
  }

  /** Dropping interests that are not settled keeps the account. */
  lemma LoosenedKeeps(s: State, t: State, gone: set<Path>)
    requires Accounted(s) && Loosened(s, t, gone)
    requires forall p :: p in gone && Exists(s, p) && !Excluded(s, p) ==> !Settled(s, p)
    requires forall a, p :: a <= p && Exists(s, p) && !Excluded(s, p) && Frontier(s, a) ==>
               (a in s.deferred ==> a in t.deferred) && (s.open.Some? && s.open.value.path == a ==> t.open == s.open)
    ensures Accounted(t)
  {
    LoosenedHits(s, t, gone);
    SameTrees(s, t);
    forall p | Exists(t, p) && !Excluded(t, p)
      ensures Settled(t, p) || Owed(t, p)
    {
      assert Exists(s, p) && !Excluded(s, p);
      if Owed(s, p) {
        forall a | a <= p && Frontier(s, a)
          ensures Frontier(t, a) || (a != [] && Owed(s, Parent(a)))
        {
          if Named(s, a) && Parent(a) in gone {
            PrefixTransitive(Parent(a), a, p);
            ExistsAbove(s, Parent(a), p);
            ExclusionClosed(s.policy, Parent(a), p);
            StaleIsOwed(s, Parent(a));
          } else {
            LoosenedFrontier(s, t, gone, a);
          }
        }
        CarryOwed(s, t, p);
      }
    }
  }

  lemma IdentifyKeeps(s: State)
    requires Sound(s) && Enabled(s, Identify)
    ensures Sound(RemoveInterest(s, s.open.value.path))
  {
    var a := s.open.value.path;
    var t := RemoveInterest(s, a);
    RemoveInterestSheds(s, a);
    RemoveInterestKeeps(s, a);
    LoosenedKeeps(s, t, {a});
  }

  lemma DropExcludedKeeps(s: State, e: Path)
    requires Sound(s) && Enabled(s, DropExcluded(e))
    ensures Sound(Next(s, DropExcluded(e)))
  {
    var u := if e in s.watched then RemoveInterest(s, e) else s;
    var t := u.(deferred := u.deferred - {e});
    if e in s.watched {
      RemoveInterestSheds(s, e);
      RemoveInterestKeeps(s, e);
    }
    SameElsewhere(u, t);
    DroppedIsLoosened(s, u, e);
    ExcludedGoes(s, t, e);
  }

  lemma DroppedIsLoosened(s: State, u: State, e: Path)
    requires if e in s.watched then Shed(s, u, {e}) else u == s
    ensures Loosened(s, u.(deferred := u.deferred - {e}), {e} * s.watched.Keys)
  {
  }

  /** What goes is excluded, so nothing visible counts on it. */
  lemma ExcludedGoes(s: State, t: State, e: Path)
    requires Accounted(s) && Excluded(s, e) && Loosened(s, t, {e} * s.watched.Keys)
    requires t.deferred == s.deferred - {e} && t.open == s.open
    ensures Accounted(t)
  {
    forall a, p | a <= p && Exists(s, p) && !Excluded(s, p) && Frontier(s, a)
      ensures a != e
    {
      ExclusionClosed(s.policy, a, p);
    }
    LoosenedKeeps(s, t, {e} * s.watched.Keys);
  }

  lemma StaleKeeps(s: State, order: seq<Path>, noted: bool)
    requires Sound(s) && Enabled(s, Stale(order, noted))
    ensures Sound(FoundStale(s, order, noted))
  {
    var a := s.open.value.path;
    var t := FoundStale(s, order, noted);
    var u := RemoveAll(s, order);
    var gone := if Opened(s) then {} else Below(s.watched.Keys, {a});
    RemoveAllSheds(s, order, gone);
    SameElsewhere(u, t);
    assert Loosened(s, t, gone);
    forall x, p | x <= p && Exists(s, p) && !Excluded(s, p) && Frontier(s, x)
      ensures !(a <= x)
    {
      ExistsAbove(s, x, p);
      if a <= x { ExistsAbove(s, a, x); }
    }
    forall x | x in gone ensures !Exists(s, x) {
      if Exists(s, x) { ExistsAbove(s, a, x); }
    }
    LoosenedKeeps(s, t, gone);
  }

  // ----- reconciliations ---------------------------------------------------

  /** A scan begins with the whole tree owed a visit, whatever was lost before. */
  lemma StartScanRestores(s: State)
    requires Base(s) && Returns(s) && Enabled(s, StartScan)
    ensures Sound(BeginScan(s))
  {
    var t := BeginScan(s);
    SameTrees(s, t);
    SameHits(s, t);
    NothingHitsTheRoot(t);
    assert [] in t.jobs[0].dirs;
    assert Frontier(t, []);
    forall p ensures Owed(t, p) { assert [] <= p; }
    forall k | 0 <= k < |t.queue| && t.queue[k].Gone? ensures Remade(t, k) { assert Remade(s, k); }
  }

  /** And it restores the account only if no return of a removed name has been lost. */
  lemma StartScanRestoresExactly(s: State)
    requires Base(s) && Enabled(s, StartScan)
    ensures Sound(BeginScan(s)) <==> Returns(s)
  {
    if Returns(s) {
      StartScanRestores(s);
    } else {
      var t := BeginScan(s);
      var k :| 0 <= k < |s.queue| && s.queue[k].Gone? && !Remade(s, k);
      assert t.queue[k].Gone? && !Remade(t, k);
    }
  }

  /** Steps of a transaction that leave the walk alone. */
  lemma ScanKeeps(s: State, t: State)
    requires Sound(s) && t == s.(uncertain := t.uncertain, scan := t.scan) && forall p :: Seen(s, p) ==> Seen(t, p)
    ensures Sound(t)
  {
    SameElsewhere(s, t);
    SameStreams(s, t);
    RequeueKeeps(s, t);
    if s.open.Some? && Owed(s.(open := None), s.open.value.path) {
      AsideStays(s, t, s.open.value.path);
    }
  }

  /** What the scan has not come across is not settled, so its watch may go. */
  lemma SweepWatchedKeeps(s: State, p: Path)
    requires Sound(s) && Enabled(s, SweepWatched(p))
    ensures Sound(RemoveInterest(s, p))
  {
    RemoveInterestSheds(s, p);
    RemoveInterestKeeps(s, p);
    LoosenedKeeps(s, RemoveInterest(s, p), {p});
  }

  lemma SweepDeferredKeeps(s: State, p: Path)
    requires Sound(s) && Enabled(s, SweepDeferred(p))
    ensures Sound(s.(deferred := s.deferred - {p}))
  {
    var t := s.(deferred := s.deferred - {p});
    SameElsewhere(s, t);
    SameStreams(s, t);
    RequeueKeeps(s, t);
  }

  /** When the sweep has left only what the scan came across, the transaction may end. */
  lemma CommitKeeps(s: State, sent: bool)
    requires Sound(s) && Enabled(s, Commit(sent))
    ensures Sound(CommitScan(s, sent))
  {
    ScanKeeps(s, CommitScan(s, sent));
  }

  // ----- adding ------------------------------------------------------------

  lemma AddHits(s: State, t: State, i: Ino, k: int, x: Path)
    requires s.open.Some? && s.open.value.path !in s.watched && t == AddInterest(s, i)
    ensures Hit(s, k, x) ==> Hit(t, k, x)
    ensures Hit(t, k, x) ==> Hit(s, k, x) || (s.open.value.path <= x && s.open.value.path != x)
  {
    var a := s.open.value.path;
    if Hit(s, k, x) {
      var p :| Interest(s, p, s.queue[k].wd) && p + [s.queue[k].name] <= x;
      assert Interest(t, p, t.queue[k].wd) && p + [t.queue[k].name] <= x;
    }
    if Hit(t, k, x) {
      var p :| Interest(t, p, t.queue[k].wd) && p + [t.queue[k].name] <= x;
      if p == a {
        assert p <= p + [t.queue[k].name];
        PrefixTransitive(p, p + [t.queue[k].name], x);
      } else {
        assert Interest(s, p, s.queue[k].wd) && p + [s.queue[k].name] <= x;
      }
    }
  }

  lemma AddFrontier(s: State, t: State, i: Ino, b: Path)
    requires s.open.Some? && s.open.value.path !in s.watched && t == AddInterest(s, i)
    requires Frontier(s, b) && !(s.open.value.path <= b && s.open.value.path != b)
    ensures Frontier(t, b)
  {
    forall k, x | x <= b ensures Hit(t, k, x) == Hit(s, k, x) {
      AddHits(s, t, i, k, x);
      if s.open.value.path <= x && s.open.value.path != x {
        PrefixTransitive(s.open.value.path, x, b);
      }
    }
    if Queued(s, b) && Clear(s, b) {
      AddQueued(s, t, i, b);
    } else {
      var k :| NamedAt(s, k, b);
      assert Interest(t, Parent(b), t.queue[k].wd);
      assert NamedAt(t, k, b);
    }
  }

  lemma AddQueued(s: State, t: State, i: Ino, b: Path)
    requires s.open.Some? && t == AddInterest(s, i) && Queued(s, b)
    ensures Queued(t, b)
  {
    SameTrees(s, t);
    if ToRead(s, b) {
      var j :| Streaming(s, j, Parent(b)) && b[|b| - 1] in s.jobs[j].active.value.remaining;
      assert Streaming(t, j, Parent(b));
    }
  }

  /** A settled path stays settled when another one gains an interest, unless that one lies above it. */
  lemma AddSettled(s: State, t: State, i: Ino, p: Path)
    requires s.open.Some? && s.open.value.path !in s.watched && t == AddInterest(s, i)
    requires RegistryOk(s) && Settled(s, p) && !(s.open.value.path <= p)
    ensures Settled(t, p)
  {
    SameTree(s, t, p);
    forall k ensures !Hit(t, k, p) { AddHits(s, t, i, k, p); }
    assert p in t.watched && t.watched[p] == s.watched[p];
    assert t.watched[p] in t.live && t.live[t.watched[p]] == s.live[s.watched[p]];
  }

  lemma AddAccounts(s: State, t: State, i: Ino)
    requires Sound(s) && Enabled(s, Add) && At(s, s.open.value.path) == Some(i) && t == AddInterest(s, i)
    ensures Accounted(t)
  {
    var a := s.open.value.path;
    SameTrees(s, t);
    forall p | Exists(t, p) && !Excluded(t, p)
      ensures Settled(t, p) || Owed(t, p)
    {
      if a <= p {
        ExclusionClosed(s.policy, a, p);
        StaleIsOwed(s, a);
        var b := Topmost(s, a);
        PrefixTransitive(b, a, p);
        AddFrontier(s, t, i, b);
      } else if Owed(s, p) {
        var b :| b <= p && Frontier(s, b);
        if a <= b { PrefixTransitive(a, b, p); }
        AddFrontier(s, t, i, b);
      } else {
        AddSettled(s, t, i, p);
      }
    }
  }

  lemma AddWatches(s: State, t: State, i: Ino)
    requires TreeOk(s) && RegistryOk(s) && i !in s.dead
    requires s.open.Some? && t == AddInterest(s, i)
    ensures var a := s.open.value.path; a in t.watched && t.watched[a] in t.live && t.live[t.watched[a]] == i
  {
    var a := s.open.value.path;
    if wd :| wd in s.identity && s.identity[wd] == i {
      assert t.watched[a] in s.identity && s.identity[t.watched[a]] == i;
      assert t.watched[a] in s.live;
    }
  }

  lemma AddRegistry(s: State, t: State, i: Ino)
    requires TreeOk(s) && RegistryOk(s) && i !in s.dead
    requires s.open.Some? && t == AddInterest(s, i)
    ensures RegistryOk(t)
    ensures var a := s.open.value.path; a in t.watched && t.watched[a] in t.live && t.live[t.watched[a]] == i
  {
    AddWatches(s, t, i);
  }

  lemma AddQueueOk(s: State, t: State, i: Ino)
    requires RegistryOk(s) && QueueOk(s) && s.open.Some? && t == AddInterest(s, i)
    ensures QueueOk(t)
  {
    forall k | 0 <= k < |t.queue| && t.queue[k].Gone?
      ensures Remade(t, k)
    {
      assert Remade(s, k);
      assert t.queue[k].wd != s.nextWd;
    }
  }

  lemma AddOpenCovered(s: State, t: State, i: Ino)
    requires Sound(s) && Base(s) && Enabled(s, Add) && At(s, s.open.value.path) == Some(i) && t == AddInterest(s, i)
    requires Good(t, s.open.value.path)
    ensures OpenCovered(t)
  {
    var a := s.open.value.path;
    SameTree(s, t, a);
    if !Excluded(s, a) && !Clear(t, a) {
      var k :| Hit(t, k, a);
      AddHits(s, t, i, k, a);
      assert !Clear(s, a);
      UnclearIsOwedAside(s);
      AddAside(s, t, i);
    }
  }

  lemma AddAside(s: State, t: State, i: Ino)
    requires s.open.Some? && s.open.value.path !in s.watched && t == AddInterest(s, i)
    requires !Clear(t, s.open.value.path) && Owed(s.(open := None), s.open.value.path)
    ensures Owed(t.(open := None), s.open.value.path)
  {
    var a := s.open.value.path;
    var b :| b <= a && Frontier(s.(open := None), b);
    AsideFrontier(s, b);
    AddFrontier(s, t, i, b);
    AsideBack(t, b, a);
  }

  lemma AsideFrontier(s: State, b: Path)
    requires Frontier(s.(open := None), b)
    ensures Frontier(s, b)
  {
    SameElsewhere(s.(open := None), s);
    SameStreams(s.(open := None), s);
  }

  lemma AsideBack(t: State, b: Path, a: Path)
    requires t.open.Some? && t.open.value.path == a && b <= a
    requires Frontier(t, b) && !(b == a && Clear(t, a))
    ensures Owed(t.(open := None), a)
  {
    var t0 := t.(open := None);
    SameElsewhere(t, t0);
    SameStreams(t, t0);
    assert Frontier(t0, b);
  }

  lemma AddKeeps(s: State)
    requires Sound(s) && Base(s) && Enabled(s, Add)
    ensures Sound(Next(s, Add))
  {
    var i := At(s, s.open.value.path).value;
    var t := AddInterest(s, i);
    AddAccounts(s, t, i);
    InTree(s, s.open.value.path);
    SameTree(s, t, s.open.value.path);
    AddRegistry(s, t, i);
    AddQueueOk(s, t, i);
    AddOpenCovered(s, t, i);
  }

  // ----- replacing the policy ----------------------------------------------

  /** The replacement's returning subtrees are owed a visit before anything else changes. */
  lemma ReplaceKeeps(s: State, policy: Policy)
    requires Sound(s) && Enabled(s, Replace(policy))
    ensures Sound(BeginReplacement(s, policy))
  {
    var t := BeginReplacement(s, policy);
    SameTrees(s, t);
    SameHits(s, t);
    forall p | Exists(t, p) && !Excluded(t, p)
      ensures Settled(t, p) || Owed(t, p)
    {
      if !Excluded(s, p) {
        if Owed(s, p) { ReplaceOwed(s, t, policy, p); }
      } else {
        ReturningOwed(s, t, policy, p);
      }
    }
    forall k | 0 <= k < |t.queue| && t.queue[k].Gone? ensures Remade(t, k) { assert Remade(s, k); }
  }

  lemma ReplaceOwed(s: State, t: State, policy: Policy, p: Path)
    requires s.toInclude.None? && t == BeginReplacement(s, policy) && Owed(s, p)
    ensures Owed(t, p)
  {
    SameTrees(s, t);
    SameHits(s, t);
    var a :| a <= p && Frontier(s, a);
    SameNamed(s, t, a);
    if ToRead(s, a) {
      var j :| Streaming(s, j, Parent(a)) && a[|a| - 1] in s.jobs[j].active.value.remaining;
      assert Streaming(t, j, Parent(a));
    }
    assert Queued(s, a) ==> Queued(t, a);
    assert Frontier(t, a);
  }

  lemma WholeTreeReturns(previous: Policy, replacement: Policy, p: Path)
    requires DropsName(previous, replacement) && !TopologyExcludes(replacement, p)
    ensures [] in PolicyReinclusionRoots(previous, replacement)
  {
    RootsAreTopmost(previous, replacement, []);
    ExclusionClosed(replacement, [], p);
  }

  lemma ReturningOwed(s: State, t: State, policy: Policy, p: Path)
    requires Sound(s) && s.toInclude.None? && t == BeginReplacement(s, policy)
    requires Exists(s, p) && Excluded(s, p) && !Excluded(t, p)
    ensures Owed(t, p)
  {
    SameTrees(s, t);
    SameHits(s, t);
    var f := FirstExcluded(s, p);
    FirstHiddenAncestorIsRoot(s.policy, policy, p, f);
    if DropsName(s.policy, policy) { WholeTreeReturns(s.policy, policy, p); }
    if [] in Returning(t) {
      NothingHitsTheRoot(t);
      assert Frontier(t, []);
    } else if f != [] {
      ExistsAbove(s, f, p);
      var up := Parent(f);
      assert f == up + [f[|f| - 1]];
      ExistsAbove(s, up, f);
      if Owed(s, up) {
        ReplaceOwed(s, t, policy, up);
        PrefixTransitive(up, f, p);
        OwedBelow(t, up, p);
      } else {
        if !Clear(s, f) { ReturnIsNamed(s, up, f[|f| - 1]); }
        SameNamed(s, t, f);
        assert Frontier(t, f);
      }
    }
  }

  lemma NothingHitsTheRoot(s: State)
    ensures Clear(s, [])
  {
    forall k ensures !Hit(s, k, []) {
      forall p: Path, n: Name ensures !(p + [n] <= []) { assert |p + [n]| > 0; }
    }
  }

  lemma {:induction false} FirstExcluded(s: State, p: Path) returns (f: Path)
    requires Excluded(s, p)
    ensures f <= p && Excluded(s, f) && (f == [] || !Excluded(s, Parent(f)))
    decreases |p|
  {
    if p == [] || !Excluded(s, Parent(p)) {
      f := p;
    } else {
      f := FirstExcluded(s, Parent(p));
      PrefixTransitive(f, Parent(p), p);
    }
  }
}
