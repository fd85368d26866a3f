// The steps of the directory walk itself keep every existing directory accounted
// for, except the two branches that can lose one.

module TopologyWalk {
  import opened Paths
  import opened Exclusions
  import opened Topology
  import opened TopologyEnvironment
  import opened TopologyRecords

  // ----- steps that only move what is queued -------------------------------

  /** Only the worker's own bookkeeping differs, and a scan under way has come across no less. */
  ghost predicate Requeued(s: State, t: State)
  {
    && t == s.(jobs := t.jobs, open := t.open, deferred := t.deferred, toInclude := t.toInclude, uncertain := t.uncertain,
               scan := t.scan)
    && (forall p :: Seen(s, p) ==> Seen(t, p))
  }

  lemma SameElsewhere(s: State, t: State)
    requires Requeued(s, t)
    ensures forall p :: At(s, p) == At(t, p)
    ensures forall p :: Settled(s, p) ==> Settled(t, p)
    ensures forall x :: Clear(s, x) == Clear(t, x)
    ensures forall a :: Named(s, a) == Named(t, a)
    ensures QueueOk(s) ==> QueueOk(t)
  {
    SameTrees(s, t);
    SameHits(s, t);
    forall a ensures Named(s, a) == Named(t, a) { SameNamed(s, t, a); }
    assert QueueOk(s) ==> forall k :: 0 <= k < |s.queue| && s.queue[k].Gone? ==> Remade(s, k) == Remade(t, k);
  }

  /** Visits that stay queued, or pass to something queued above, stay owed. */
  lemma RequeueOwed(s: State, t: State, p: Path)
    requires Requeued(s, t) && Owed(s, p)
    requires forall a :: a <= p && Queued(s, a) && Clear(s, a) ==> Queued(t, a) || Owed(t, p)
    ensures Owed(t, p)
  {
    SameElsewhere(s, t);
    var a :| a <= p && Frontier(s, a);
    if Queued(s, a) && Clear(s, a) && Queued(t, a) {
      assert Frontier(t, a);
    } else if Named(s, a) {
      assert Frontier(t, a);
    }
  }

  lemma RequeueKeeps(s: State, t: State)
    requires Requeued(s, t) && Accounted(s)
    requires forall a, p :: a <= p && Exists(s, p) && !Excluded(s, p) && !Settled(s, p) && Queued(s, a) && Clear(s, a) ==>
               Queued(t, a) || Owed(t, p)
    ensures Accounted(t)
  {
    SameElsewhere(s, t);
    forall p | Exists(t, p) && !Excluded(t, p)
      ensures Settled(t, p) || Owed(t, p)
    {
      if !Settled(s, p) { RequeueOwed(s, t, p); }
    }
  }

  lemma SameStreams(s: State, t: State)
    requires Requeued(s, t)
    requires forall j :: 0 <= j < |s.jobs| && s.jobs[j].active.Some? ==> j < |t.jobs| && t.jobs[j].active == s.jobs[j].active
    ensures forall a :: ToRead(s, a) ==> ToRead(t, a)
  {
    SameElsewhere(s, t);
    forall a | ToRead(s, a) ensures ToRead(t, a) {
      var j :| Streaming(s, j, Parent(a)) && a[|a| - 1] in s.jobs[j].active.value.remaining;
      assert Streaming(t, j, Parent(a));
    }
  }

  lemma PickKeeps(s: State)
    requires Sound(s) && Enabled(s, Pick)
    ensures Sound(PickDirectory(s))
  {
    var t := PickDirectory(s);
    SameElsewhere(s, t);
    SameStreams(s, t);
    forall a, p | a <= p && Exists(s, p) && !Excluded(s, p) && Queued(s, a)
      ensures Queued(t, a)
    {
      ExclusionClosed(s.policy, a, p);
      PickQueues(s, a);
    }
    RequeueKeeps(s, t);
  }

  /** A visible directory stays queued when another is picked, and is being opened when it is picked itself. */
  lemma PickQueues(s: State, a: Path)
    requires Enabled(s, Pick) && !Excluded(s, a) && Queued(s, a)
    ensures Queued(PickDirectory(s), a)
  {
    var t := PickDirectory(s);
    SameElsewhere(s, t);
    SameStreams(s, t);
    if InJob(s, a) && a != s.jobs[0].dirs[0] {
      PickLeaves(s, a);
    }
    if Excluded(s, s.jobs[0].dirs[0]) {
      VisibleIsNotBelow(s, s.jobs[0].dirs[0], a);
    }
  }

  lemma PickLeaves(s: State, a: Path)
    requires Enabled(s, Pick) && InJob(s, a) && a != s.jobs[0].dirs[0]
    ensures InJob(PickDirectory(s), a)
  {
    var j :| 0 <= j < |s.jobs| && a in s.jobs[j].dirs;
    assert a in PickDirectory(s).jobs[j].dirs;
  }

  lemma VisibleIsNotBelow(s: State, e: Path, a: Path)
    requires Excluded(s, e) && !Excluded(s, a)
    ensures !Under({e}, a)
  {
    if e <= a { ExclusionClosed(s.policy, e, a); }
  }

  lemma PromotionKeeps(s: State, a: Path)
    requires Sound(s) && Enabled(s, StartPromotion(a))
    ensures Sound(Promote(s, a))
  {
    var t := Promote(s, a);
    SameElsewhere(s, t);
    SameStreams(s, t);
    RequeueKeeps(s, t);
  }

  lemma DenyKeeps(s: State, readOn: bool, noted: bool)
    requires Sound(s) && Base(s) && Enabled(s, Deny(readOn, noted)) && (noted || Seen(s, s.open.value.path))
    ensures Sound(Refuse(s, readOn, noted))
  {
    var t := Refuse(s, readOn, noted);
    var a := s.open.value.path;
    SameElsewhere(s, t);
    SameStreams(s, t);
    forall x | Queued(s, x) ensures Queued(t, x) {}
    RequeueKeeps(s, t);
    var t0 := t.(open := None);
    SameElsewhere(t, t0);
    SameStreams(t, t0);
    if readOn && Orphaned(t, a) {
      RequeueOwed(t, t0, a);
    }
  }

  /**
   * A deferral that the scan under way does not note keeps the account if and only if every visible unsettled directory
   * it was to owe a visit is owed one otherwise.
   */
  lemma UnnotedKeepsExactly(s: State)
    requires Sound(s) && Enabled(s, Deny(false, false)) && !Seen(s, s.open.value.path)
    ensures Sound(Refuse(s, false, false)) <==> !Forsaken(s, s.(open := None), s.open.value.path)
  {
    var a, t, u := s.open.value.path, Refuse(s, false, false), s.(open := None);
    if !Forsaken(s, u, a) {
      UnnotedKeeps(s);
    } else {
      UnnotedOwes(s, u, t);
      SameElsewhere(s, t);
      var p :| a <= p && Exists(s, p) && !Excluded(s, p) && !Settled(s, p) && !Owed(u, p);
      assert !Settled(t, p);
    }
  }

  lemma UnnotedKeeps(s: State)
    requires Sound(s) && Enabled(s, Deny(false, false)) && !Seen(s, s.open.value.path)
    requires !Forsaken(s, s.(open := None), s.open.value.path)
    ensures Sound(Refuse(s, false, false))
  {
    var t, u := Refuse(s, false, false), s.(open := None);
    UnnotedOwes(s, u, t);
    SameElsewhere(s, t);
    SameStreams(s, u);
    forall x, p | x <= p && Exists(s, p) && !Excluded(s, p) && !Settled(s, p) && Queued(s, x) && Clear(s, x)
      ensures Queued(t, x) || Owed(t, p)
    {
      if x != s.open.value.path { assert Queued(u, x); }
    }
    RequeueKeeps(s, t);
  }

  lemma UnnotedOwes(s: State, u: State, t: State)
    requires Enabled(s, Deny(false, false)) && !Seen(s, s.open.value.path)
    requires t == Refuse(s, false, false) && u == s.(open := None)
    ensures forall p :: Owed(t, p) <==> Owed(u, p)
  {
    SameElsewhere(u, t);
    SameElsewhere(t, u);
    SameStreams(u, t);
    SameStreams(t, u);
    forall p ensures Owed(t, p) <==> Owed(u, p) {
      if Owed(u, p) { RequeueOwed(u, t, p); }
      if Owed(t, p) { RequeueOwed(t, u, p); }
    }
  }

  lemma FinishJobKeeps(s: State)
    requires Sound(s) && Enabled(s, FinishJob)
    ensures Sound(s.(jobs := s.jobs[1..]))
  {
    var t := s.(jobs := s.jobs[1..]);
    SameElsewhere(s, t);
    forall a | Queued(s, a) ensures Queued(t, a) {
      if InJob(s, a) {
        var j :| 0 <= j < |s.jobs| && a in s.jobs[j].dirs;
        assert t.jobs[j - 1] == s.jobs[j];
      }
      if ToRead(s, a) {
        var j :| Streaming(s, j, Parent(a)) && a[|a| - 1] in s.jobs[j].active.value.remaining;
        assert t.jobs[j - 1] == s.jobs[j];
        assert Streaming(t, j - 1, Parent(a));
      }
    }
    RequeueKeeps(s, t);
  }

  lemma IncludeKeeps(s: State, order: seq<Path>)
    requires Sound(s) && Enabled(s, Include(order))
    ensures Sound(ScanIncluded(s, order))
  {
    var t := ScanIncluded(s, order);
    assert s.jobs <= t.jobs;
    SameElsewhere(s, t);
    SameStreams(s, t);
    forall a | Queued(s, a) ensures Queued(t, a) {
      if InJob(s, a) {
        var j :| 0 <= j < |s.jobs| && a in s.jobs[j].dirs;
        assert t.jobs[j] == s.jobs[j];
      } else if a in Returning(s) {
        var k :| 0 <= k < |order| && order[k] == a;
        assert t.jobs[|s.jobs| + k] == Job([a], None, false);
      }
    }
    RequeueKeeps(s, t);
  }

  // ----- enumeration -------------------------------------------------------

  lemma EntryKeeps(s: State, n: Name, directory: bool)
    requires Sound(s) && Enabled(s, Entry(n, directory))
    ensures Sound(ReadEntry(s, n, directory))
  {
    var t := ReadEntry(s, n, directory);
    var act := s.jobs[0].active.value;
    SameElsewhere(s, t);
    forall a, p | a <= p && Exists(s, p) && !Excluded(s, p) && Queued(s, a)
      ensures Queued(t, a)
    {
      ExclusionClosed(s.policy, a, p);
      if InJob(s, a) {
        var j :| 0 <= j < |s.jobs| && a in s.jobs[j].dirs;
        assert a in t.jobs[j].dirs;
      } else if ToRead(s, a) {
        var j :| Streaming(s, j, Parent(a)) && a[|a| - 1] in s.jobs[j].active.value.remaining;
        assert Streaming(t, j, Parent(a));
        if j == 0 && a[|a| - 1] == n {
          ExistsAbove(s, a, p);
          assert a == act.path + [n];
          assert a in t.jobs[0].dirs;
        } else {
          assert a[|a| - 1] in t.jobs[j].active.value.remaining;
        }
      }
    }
    RequeueKeeps(s, t);
  }

  lemma EntryErrorKeeps(s: State, n: Name)
    requires Sound(s) && Base(s) && Enabled(s, EntryError(n))
    ensures Sound(EntryFails(s, n))
  {
    var t := EntryFails(s, n);
    var act := s.jobs[0].active.value;
    SameElsewhere(s, t);
    forall a, p | a <= p && Exists(s, p) && !Excluded(s, p) && !Settled(s, p) && Queued(s, a) && Clear(s, a)
      ensures Queued(t, a) || Owed(t, p)
    {
      if InJob(s, a) {
        var j :| 0 <= j < |s.jobs| && a in s.jobs[j].dirs;
        assert a in t.jobs[j].dirs;
      } else if ToRead(s, a) {
        var j :| Streaming(s, j, Parent(a)) && a[|a| - 1] in s.jobs[j].active.value.remaining;
        assert Streaming(t, j, Parent(a));
        if j == 0 && a[|a| - 1] == n {
          assert a == act.path + [n];
          ClearAbove(s, act.path, a);
          assert Frontier(t, act.path);
          PrefixTransitive(act.path, a, p);
        } else {
          assert a[|a| - 1] in t.jobs[j].active.value.remaining;
        }
      }
    }
    RequeueKeeps(s, t);
  }

  lemma ClearAbove(s: State, a: Path, x: Path)
    requires a <= x && Clear(s, x)
    ensures Clear(s, a)
  {
    forall k ensures !Hit(s, k, a) {
      if 0 <= k < |s.queue| && s.queue[k].Gone? {
        forall p | Interest(s, p, s.queue[k].wd) ensures !(p + [s.queue[k].name] <= a) {
          if p + [s.queue[k].name] <= a {
            PrefixTransitive(p + [s.queue[k].name], a, x);
            assert Hit(s, k, x);
          }
        }
      }
    }
  }

  /** The end of a listing with nothing left to return takes no visit away but the deferral it erases. */
  lemma FinishQueues(s: State, u: State, t: State)
    requires Enabled(s, Finish) && t == FinishDirectory(s)
    requires u == s.(deferred := t.deferred)
    ensures forall x :: Queued(u, x) <==> Queued(t, x)
  {
    SameTrees(u, t);
    forall x ensures Queued(u, x) <==> Queued(t, x) {
      if InJob(u, x) {
        var j :| 0 <= j < |u.jobs| && x in u.jobs[j].dirs;
        assert x in t.jobs[j].dirs;
      }
      if InJob(t, x) {
        var j :| 0 <= j < |t.jobs| && x in t.jobs[j].dirs;
        assert x in u.jobs[j].dirs;
      }
      if ToRead(u, x) {
        var j :| Streaming(u, j, Parent(x)) && x[|x| - 1] in u.jobs[j].active.value.remaining;
        assert j != 0;
        assert Streaming(t, j, Parent(x));
      }
      if ToRead(t, x) {
        var j :| Streaming(t, j, Parent(x)) && x[|x| - 1] in t.jobs[j].active.value.remaining;
        assert Streaming(u, j, Parent(x));
      }
    }
  }

  lemma FinishOwes(s: State, u: State, t: State)
    requires Enabled(s, Finish) && t == FinishDirectory(s) && u == s.(deferred := t.deferred)
    ensures forall p :: Owed(u, p) <==> Owed(t, p)
    ensures Requeued(u, t) && forall x :: Queued(u, x) <==> Queued(t, x)
  {
    SameElsewhere(u, t);
    SameElsewhere(t, u);
    FinishQueues(s, u, t);
    forall p ensures Owed(u, p) <==> Owed(t, p) {
      if Owed(u, p) { RequeueOwed(u, t, p); }
      if Owed(t, p) { RequeueOwed(t, u, p); }
    }
  }

  /** A deferral taken away keeps the account unless something it owed a visit is owed none otherwise. */
  lemma UndeferKeeps(s: State, a: Path)
    requires Accounted(s) && !Forsaken(s, s.(deferred := s.deferred - {a}), a)
    ensures Accounted(s.(deferred := s.deferred - {a}))
  {
    var u := s.(deferred := s.deferred - {a});
    SameElsewhere(s, u);
    SameStreams(s, u);
    forall x, p | x <= p && Exists(s, p) && !Excluded(s, p) && !Settled(s, p) && Queued(s, x) && Clear(s, x)
      ensures Queued(u, x) || Owed(u, p)
    {
    }
    RequeueKeeps(s, u);
  }

  /**
   * The end of a listing keeps the account if and only if the listing was read at the limit, or its path is not deferred,
   * or every visible unsettled directory the deferral owes a visit is owed one otherwise.
   */
  lemma FinishKeepsExactly(s: State)
    requires Sound(s) && Enabled(s, Finish)
    ensures var a := s.jobs[0].active.value;
      Sound(FinishDirectory(s)) <==>
        a.atLimit || a.path !in s.deferred || !Forsaken(s, s.(deferred := s.deferred - {a.path}), a.path)
  {
    var act, t := s.jobs[0].active.value, FinishDirectory(s);
    var u := s.(deferred := t.deferred);
    SameElsewhere(s, t);
    FinishOwes(s, u, t);
    if act.atLimit || act.path !in s.deferred {
      assert u.deferred == s.deferred;
      assert u == s;
      RequeueKeeps(s, t);
    } else if !Forsaken(s, u, act.path) {
      UndeferKeeps(s, act.path);
      RequeueKeeps(u, t);
    } else {
      var p :| act.path <= p && Exists(s, p) && !Excluded(s, p) && !Settled(s, p) && !Owed(u, p);
      assert !Settled(t, p);
    }
  }

  /** A name that no longer exists may be missing from the streams open on its directory. */
  lemma PruneKeeps(s: State, i: Ino, n: Name)
    requires Sound(s) && (i in s.kids ==> n !in s.kids[i])
    ensures Sound(s.(jobs := Pruned(s.jobs, i, n)))
  {
    var t := s.(jobs := Pruned(s.jobs, i, n));
    SameElsewhere(s, t);
    forall p | Exists(s, p) && Owed(s, p) ensures Owed(t, p) {
      PruneOwed(s, i, n, p);
    }
    if s.open.Some? && Exists(s, s.open.value.path) && Owed(s.(open := None), s.open.value.path) {
      SameElsewhere(s, s.(open := None));
      PruneOwed(s.(open := None), i, n, s.open.value.path);
    }
  }

  lemma PruneOwed(s: State, i: Ino, n: Name, p: Path)
    requires Exists(s, p) && Owed(s, p) && (i in s.kids ==> n !in s.kids[i])
    ensures Owed(s.(jobs := Pruned(s.jobs, i, n)), p)
  {
    var t := s.(jobs := Pruned(s.jobs, i, n));
    SameElsewhere(s, t);
    forall a | a <= p && Queued(s, a) ensures Queued(t, a) {
      if InJob(s, a) {
        var j :| 0 <= j < |s.jobs| && a in s.jobs[j].dirs;
        assert t.jobs[j] == PrunedJob(s.jobs[j], i, n);
        assert a in t.jobs[j].dirs;
      } else if ToRead(s, a) {
        var j :| Streaming(s, j, Parent(a)) && a[|a| - 1] in s.jobs[j].active.value.remaining;
        assert t.jobs[j] == PrunedJob(s.jobs[j], i, n);
        assert Streaming(t, j, Parent(a));
        ExistsAbove(s, a, p);
        assert a[|a| - 1] in t.jobs[j].active.value.remaining;
      }
    }
    RequeueOwed(s, t, p);
  }

  // ----- opening a directory -----------------------------------------------

  /** Skipping the add is safe exactly when the directory is covered without being opened. */
  lemma SkipKeeps(s: State)
    requires Sound(s) && Enabled(s, Skip) && !Lapse(s, Skip)
    ensures Sound(SkipAdd(s))
  {
    var t := SkipAdd(s);
    SameElsewhere(s, t);
    SameStreams(s, t);
    RequeueKeeps(s, t);
  }

  /** A registration that was made for the directory now found at the path may be kept as it is. */
  lemma MatchingSkipIsSafe(s: State)
    requires Sound(s) && Base(s) && Enabled(s, Skip) && Matches(s, s.open.value.path)
    ensures !Lapse(s, Skip)
  {
    var a, t := s.open.value.path, SkipAdd(s);
    SameElsewhere(s, t);
    if Exists(s, a) && !Excluded(s, a) {
      InTree(s, a);
      assert s.watched[a] in s.live;
      assert Good(s, a) && Good(t, a) && Seen(t, a);
      if !Clear(s, a) {
        UnclearIsOwedAside(s);
        AsideStays(s, t, a);
      }
    }
  }

  /** What is owed aside from an opening stays so when its directory is taken note of. */
  lemma AsideStays(s: State, t: State, a: Path)
    requires Requeued(s, t) && t == s.(open := t.open, uncertain := t.uncertain, scan := t.scan) && Owed(s.(open := None), a)
    ensures Owed(t.(open := None), a)
  {
    var s0, t0 := s.(open := None), t.(open := None);
    assert forall p :: Seen(s, p) == Seen(s0, p) && Seen(t, p) == Seen(t0, p);
    SameElsewhere(s0, t0);
    SameStreams(s0, t0);
    RequeueOwed(s0, t0, a);
  }

  /** When a queued removal hits the path being opened, something else than the opening owes it a visit. */
  lemma UnclearIsOwedAside(s: State)
    requires Accounted(s) && s.open.Some?
    requires Exists(s, s.open.value.path) && !Excluded(s, s.open.value.path) && !Clear(s, s.open.value.path)
    ensures Owed(s.(open := None), s.open.value.path)
  {
    var a := s.open.value.path;
    var u := s.(open := None);
    SameElsewhere(s, u);
    SameStreams(s, u);
    RequeueOwed(s, u, a);
  }

  ghost function ReadNow(s: State): State
    requires Enabled(s, Read)
  {
    var i := At(s, s.open.value.path).value;
    OpenStream(s, i, s.kids[i].Keys)
  }

  lemma ReadQueues(s: State, t: State)
    requires Enabled(s, Read) && t == ReadNow(s)
    ensures forall x :: Queued(s.(open := None), x) ==> Queued(t, x)
    ensures forall x :: Queued(s, x) && x != s.open.value.path ==> Queued(t, x)
  {
    var s0 := s.(open := None);
    SameElsewhere(s, s0);
    SameStreams(s, s0);
    SameStreams(s0, t);
    forall x | Queued(s0, x) ensures Queued(t, x) {
      if InJob(s0, x) {
        var j :| 0 <= j < |s.jobs| && x in s.jobs[j].dirs;
        assert x in t.jobs[j].dirs;
      }
    }
    forall x | Queued(s, x) && x != s.open.value.path ensures Queued(t, x) {
      if ToRead(s, x) { assert ToRead(s0, x); }
      if InJob(s, x) { assert InJob(s0, x); }
      assert Queued(s0, x);
    }
  }

  lemma ReadOwes(s: State, t: State, p: Path)
    requires Sound(s) && Enabled(s, Read) && t == ReadNow(s)
    requires s.open.value.path <= p && Exists(s, p) && !Excluded(s, p) && !Settled(s, p)
    ensures Owed(t, p)
  {
    var a := s.open.value.path;
    var s0 := s.(open := None);
    ReadQueues(s, t);
    ExclusionClosed(s.policy, a, p);
    ExistsAbove(s, a, p);
    if Owed(s0, a) {
      OwedBelow(s0, a, p);
      RequeueOwed(s0, t, p);
    } else {
      var j := if s.open.value.promoting then |s.jobs| else 0;
      assert t.jobs[j].active == Some(Active(a, At(s, a).value, s.kids[At(s, a).value].Keys, s.open.value.atLimit));
      ChildrenOwed(s, t, a, p);
    }
  }

  lemma ReadKeeps(s: State)
    requires Sound(s) && Enabled(s, Read)
    ensures Sound(ReadNow(s))
  {
    var t := ReadNow(s);
    SameElsewhere(s, t);
    ReadQueues(s, t);
    forall a, p | a <= p && Exists(s, p) && !Excluded(s, p) && !Settled(s, p) && Queued(s, a)
      ensures Queued(t, a) || Owed(t, p)
    {
      if a == s.open.value.path { ReadOwes(s, t, p); }
    }
    RequeueKeeps(s, t);
  }

  /** Below a settled directory whose stream was just opened, every child is owed a visit. */
  lemma ChildrenOwed(s: State, t: State, a: Path, p: Path)
    requires QueueOk(s) && Requeued(s, t) && Settled(s, a)
    requires At(s, a).value in s.kids
    requires exists j :: 0 <= j < |t.jobs| && t.jobs[j].active.Some?
               && t.jobs[j].active.value.path == a && t.jobs[j].active.value.ino == At(s, a).value
               && t.jobs[j].active.value.remaining == s.kids[At(s, a).value].Keys
    requires a <= p && a != p && Exists(s, p)
    ensures Owed(t, p)
  {
    SameElsewhere(s, t);
    var n := p[|a|];
    var c := a + [n];
    assert c <= p by { assert c == p[..|a| + 1]; }
    ExistsAbove(s, c, p);
    assert Parent(c) == a && c[|c| - 1] == n;
    var j :| 0 <= j < |t.jobs| && t.jobs[j].active.Some?
               && t.jobs[j].active.value.path == a && t.jobs[j].active.value.ino == At(s, a).value
               && t.jobs[j].active.value.remaining == s.kids[At(s, a).value].Keys;
    assert Streaming(t, j, Parent(c));
    assert ToRead(t, c);
    if !Clear(s, c) {
      ReturnIsNamed(s, a, n);
    }
    assert Frontier(t, c);
  }

  /** A child that exists although a removal of it is queued is announced again later. */
  lemma ReturnIsNamed(s: State, a: Path, n: Name)
    requires QueueOk(s) && Settled(s, a) && Exists(s, a + [n]) && !Clear(s, a + [n])
    ensures Named(s, a + [n])
  {
    var c := a + [n];
    var wd := s.watched[a];
    assert Parent(c) == a;
    var k := LastHit(s, c, |s.queue|);
    HitOfChild(s, k, a, n);
    assert Remade(s, k);
    var j :| k < j < |s.queue| && s.queue[j] == Made(wd, n);
    assert NamedAt(s, j, c);
  }

  lemma HitOfChild(s: State, k: int, a: Path, n: Name)
    requires Clear(s, a) && a in s.watched && Hit(s, k, a + [n])
    ensures s.queue[k] == Gone(s.watched[a], n)
  {
    var p :| Interest(s, p, s.queue[k].wd) && p + [s.queue[k].name] <= a + [n];
    PrefixOfExtension(p + [s.queue[k].name], a, n);
    assert !Hit(s, k, a);
    assert p + [s.queue[k].name] == a + [n];
    assert p == (p + [s.queue[k].name])[..|p|] == a;
  }

  lemma {:induction false} LastHit(s: State, x: Path, end: nat) returns (k: nat)
    requires end <= |s.queue| && (exists j :: j < end && Hit(s, j, x)) && (forall j :: end <= j ==> !Hit(s, j, x))
    ensures k < |s.queue| && Hit(s, k, x) && (forall j :: k < j ==> !Hit(s, j, x))
    decreases end
  {
    if Hit(s, end - 1, x) {
      k := end - 1;
    } else {
      k := LastHit(s, x, end - 1);
    }
  }
}
