// Handling one record keeps every existing directory accounted for.

module TopologyRecords {
  import opened Paths
  import opened Exclusions
  import opened Topology
  import opened TopologyEnvironment

  // ----- dropping interests ------------------------------------------------

  /** `t` is `s` without the interests `gone`; watches left without interest are gone too. */
  ghost predicate Shed(s: State, t: State, gone: set<Path>)
  {
    && t == s.(watched := t.watched, identity := t.identity, expects := t.expects, live := t.live, queue := t.queue)
    && t.watched == s.watched - gone
    && s.queue <= t.queue
    && (forall k :: |s.queue| <= k < |t.queue| ==> t.queue[k].Ignored?)
    && (forall wd :: wd in t.live ==> wd in s.live && t.live[wd] == s.live[wd])
    && (forall p :: p in t.watched && s.watched[p] in s.live ==> s.watched[p] in t.live)
  }

  lemma RemoveInterestSheds(s: State, p: Path)
    requires p in s.watched
    ensures Shed(s, RemoveInterest(s, p), {p})
  {
  }

  lemma RemoveInterestRegistry(s: State, p: Path)
    requires p in s.watched && RegistryOk(s)
    ensures RegistryOk(RemoveInterest(s, p))
  {
  }

  lemma RemoveInterestKeeps(s: State, p: Path)
    requires p in s.watched && RegistryOk(s) && QueueOk(s)
    ensures RegistryOk(RemoveInterest(s, p)) && QueueOk(RemoveInterest(s, p))
  {
    RemoveInterestRegistry(s, p);
    var t := RemoveInterest(s, p);
    forall k | 0 <= k < |t.queue| && t.queue[k].Gone?
      ensures Remade(t, k)
    {
      assert k < |s.queue| && Remade(s, k);
      if j :| k < j < |s.queue| && s.queue[j] == Made(s.queue[k].wd, s.queue[k].name) {
        assert t.queue[j] == s.queue[j];
      }
    }
  }

  lemma {:induction false} RemoveAllSheds(s: State, order: seq<Path>, gone: set<Path>)
    requires forall p :: p in gone <==> p in order && p in s.watched
    ensures Shed(s, RemoveAll(s, order), gone)
    ensures RegistryOk(s) && QueueOk(s) ==> RegistryOk(RemoveAll(s, order)) && QueueOk(RemoveAll(s, order))
    decreases |order|
  {
    if order == [] {
      assert gone == {};
    } else {
      var p := order[0];
      var u := if p in s.watched then RemoveInterest(s, p) else s;
      if p in s.watched {
        RemoveInterestSheds(s, p);
        if RegistryOk(s) && QueueOk(s) { RemoveInterestKeeps(s, p); }
      }
      RemoveAllSheds(u, order[1..], gone - {p});
      ShedTwice(s, u, RemoveAll(u, order[1..]), p, gone);
    }
  }

  lemma ShedTwice(s: State, u: State, t: State, p: Path, gone: set<Path>)
    requires Shed(s, u, {p} * s.watched.Keys) && Shed(u, t, gone - {p})
    requires p in gone <==> p in s.watched
    ensures Shed(s, t, gone)
  {
    forall k | |s.queue| <= k < |t.queue| ensures t.queue[k].Ignored? {
      if k < |u.queue| { assert t.queue[k] == u.queue[k]; }
    }
  }

  lemma RemoveSubtreesSheds(s: State, tops: set<Path>, order: seq<Path>)
    requires Enumerates(order, Below(s.watched.Keys, tops))
    ensures var t := RemoveSubtrees(s, tops, order);
      && Shed(s, t.(deferred := s.deferred), Below(s.watched.Keys, tops))
      && t.deferred == s.deferred - Below(s.deferred, tops)
      && (RegistryOk(s) && QueueOk(s) ==> RegistryOk(t) && QueueOk(t))
  {
    RemoveAllSheds(s, order, Below(s.watched.Keys, tops));
    var u := RemoveAll(s, order);
    var t := RemoveSubtrees(s, tops, order);
    assert t.(deferred := s.deferred) == u;
    assert QueueOk(u) ==> QueueOk(t) by { assert forall k :: 0 <= k < |u.queue| && u.queue[k].Gone? ==> Remade(u, k) == Remade(t, k); }
  }

  // ----- the record at the front -------------------------------------------

  /** `t` is `s` with its first record handled: the rest of the queue stays in order, interests only disappear. */
  ghost predicate Handled(s: State, t: State)
  {
    && s.queue != []
    && s.queue[1..] <= t.queue
    && (forall k :: |s.queue| - 1 <= k < |t.queue| ==> t.queue[k].Ignored?)
    && (forall p :: p in t.watched ==> p in s.watched && t.watched[p] == s.watched[p])
    && (forall wd :: wd in t.live ==> wd in s.live && t.live[wd] == s.live[wd])
    && s.jobs <= t.jobs
    && t.kids == s.kids && t.root == s.root && t.policy == s.policy && t.toInclude == s.toInclude
    && s.open == None && t.open == None
    && (forall p :: Seen(s, p) ==> Seen(t, p))
  }

  lemma HandledHits(s: State, t: State)
    requires Handled(s, t)
    ensures forall k, x :: Hit(t, k, x) ==> Hit(s, k + 1, x)
    ensures forall x :: Clear(s, x) ==> Clear(t, x)
  {
    forall k, x | Hit(t, k, x) ensures Hit(s, k + 1, x) {
      assert t.queue[k] == s.queue[1..][k] == s.queue[k + 1];
      var p :| Interest(t, p, t.queue[k].wd) && p + [t.queue[k].name] <= x;
      assert Interest(s, p, s.queue[k + 1].wd) && p + [s.queue[k + 1].name] <= x;
    }
  }

  lemma HandledFrontier(s: State, t: State, a: Path)
    requires Handled(s, t) && Frontier(s, a)
    requires Clear(s, a) && a in s.deferred ==> a in t.deferred
    requires NamedAt(s, 0, a) ==> InJob(t, a) && Clear(t, a)
    requires forall k :: 0 < k && NamedAt(s, k, a) ==> Parent(a) in t.watched
    ensures Frontier(t, a)
  {
    HandledHits(s, t);
    SameTrees(s, t);
    if Queued(s, a) && Clear(s, a) {
      if InJob(s, a) {
        var j :| 0 <= j < |s.jobs| && a in s.jobs[j].dirs;
        assert t.jobs[j] == s.jobs[j];
      }
      if ToRead(s, a) {
        var j :| Streaming(s, j, Parent(a)) && a[|a| - 1] in s.jobs[j].active.value.remaining;
        assert t.jobs[j] == s.jobs[j];
        assert Streaming(t, j, Parent(a));
      }
      assert Queued(t, a);
    } else {
      var k :| NamedAt(s, k, a);
      if k > 0 {
        assert t.queue[k - 1] == s.queue[1..][k - 1] == s.queue[k];
        assert NamedAt(t, k - 1, a);
      }
    }
  }

  lemma HandledKeeps(s: State, t: State)
    requires Handled(s, t) && Accounted(s)
    requires forall p :: Settled(s, p) && !Excluded(s, p) ==> p in t.watched && t.watched[p] in t.live
    requires forall a :: Clear(s, a) && a in s.deferred && !Excluded(s, a) ==> a in t.deferred
    requires forall a :: NamedAt(s, 0, a) && !Excluded(s, a) ==> InJob(t, a) && Clear(t, a)
    requires forall a, k :: 0 < k && NamedAt(s, k, a) && !Excluded(s, a) ==> Parent(a) in t.watched
    ensures Accounted(t) && OpenCovered(t)
  {
    HandledHits(s, t);
    SameTrees(s, t);
    forall p | Exists(t, p) && !Excluded(t, p)
      ensures Settled(t, p) || Owed(t, p)
    {
      if Owed(s, p) {
        var a :| a <= p && Frontier(s, a);
        ExclusionClosed(s.policy, a, p);
        HandledFrontier(s, t, a);
      }
    }
  }

  lemma TailQueueOk(s: State, t: State)
    requires RegistryOk(s) && QueueOk(s) && s.queue != []
    requires t == s.(queue := s.queue[1..], jobs := t.jobs, expects := t.expects, scan := t.scan)
    ensures RegistryOk(t) && QueueOk(t)
  {
    forall k | 0 <= k < |t.queue| && t.queue[k].Gone?
      ensures Remade(t, k)
    {
      assert t.queue[k] == s.queue[k + 1] && Remade(s, k + 1);
      if j :| k + 1 < j < |s.queue| && s.queue[j] == Made(s.queue[k + 1].wd, s.queue[k + 1].name) {
        assert t.queue[j - 1] == s.queue[j];
      }
    }
    forall j, k | 0 <= k < j < |t.queue| && t.queue[k].Ignored? ensures !About(t.queue[j], t.queue[k].wd) {
      assert t.queue[k] == s.queue[k + 1] && t.queue[j] == s.queue[j + 1];
    }
  }

  lemma MadeHandled(s: State, order: seq<Path>)
    requires QueueOk(s) && RegistryOk(s) && s.open.None? && s.queue != [] && s.queue[0].Made?
    ensures var t := HandleRecord(s, order);
      && Handled(s, t) && RegistryOk(t) && QueueOk(t)
      && t == s.(queue := s.queue[1..], jobs := t.jobs, scan := t.scan)
  {
    TailQueueOk(s, HandleRecord(s, order));
  }

  /** What the record announces is queued for a visit. */
  lemma MadeAnnounces(s: State, order: seq<Path>, a: Path)
    requires s.queue != [] && s.queue[0].Made? && HandleEnabled(s, order) && NamedAt(s, 0, a) && !Excluded(s, a)
    ensures InJob(HandleRecord(s, order), a)
  {
    var t := HandleRecord(s, order);
    var wd, n := s.queue[0].wd, s.queue[0].name;
    assert a == Parent(a) + [n];
    assert a in Reported(s, wd, n);
    var k :| 0 <= k < |order| && order[k] == a;
    assert t.jobs[|s.jobs| + k] == Job([a], None, s.scan.Some?);
    assert a in t.jobs[|s.jobs| + k].dirs;
  }

  /** A record at the front that announces `a` is the last one to hit it. */
  lemma FirstNamesClear(s: State, t: State, a: Path)
    requires Handled(s, t) && NamedAt(s, 0, a)
    ensures Clear(t, a)
  {
    HandledHits(s, t);
    assert forall k :: Hit(t, k, a) ==> Hit(s, k + 1, a);
  }

  lemma MadeKeeps(s: State, order: seq<Path>)
    requires Sound(s) && s.open.None? && HandleEnabled(s, order) && s.queue[0].Made?
    ensures Sound(HandleRecord(s, order))
  {
    var t := HandleRecord(s, order);
    MadeHandled(s, order);
    forall a | NamedAt(s, 0, a) && !Excluded(s, a) ensures InJob(t, a) && Clear(t, a) {
      MadeAnnounces(s, order, a);
      FirstNamesClear(s, t, a);
    }
    SpareAllKeeps(s, t);
  }

  /** Nothing is dropped, and what the record announced is queued. */
  lemma SpareAllKeeps(s: State, t: State)
    requires Handled(s, t) && Accounted(s) && t.watched == s.watched && t.live == s.live && t.deferred == s.deferred
    requires forall a :: NamedAt(s, 0, a) && !Excluded(s, a) ==> InJob(t, a) && Clear(t, a)
    ensures Accounted(t) && OpenCovered(t)
  {
    HandledKeeps(s, t);
  }

  /** Handling a removal sheds the interests and deferrals at or below what it reports. */
  lemma GoneHandled(s: State, order: seq<Path>)
    requires RegistryOk(s) && QueueOk(s) && s.open.None? && HandleEnabled(s, order) && s.queue[0].Gone?
    ensures var t, tops := HandleRecord(s, order), Reported(s, s.queue[0].wd, s.queue[0].name);
      && Handled(s, t) && RegistryOk(t) && QueueOk(t)
      && t.watched == s.watched - Below(s.watched.Keys, tops) && t.deferred == s.deferred - Below(s.deferred, tops)
      && (forall p :: p in t.watched && s.watched[p] in s.live ==> s.watched[p] in t.live)
  {
    var u := s.(queue := s.queue[1..]);
    var tops := Reported(s, s.queue[0].wd, s.queue[0].name);
    TailQueueOk(s, u);
    RemoveSubtreesSheds(u, tops, order);
    ShedIsHandled(s, u, RemoveSubtrees(u, tops, order), Below(s.watched.Keys, tops));
  }

  lemma ShedIsHandled(s: State, u: State, t: State, gone: set<Path>)
    requires s.queue != [] && s.open.None? && u == s.(queue := s.queue[1..]) && Shed(u, t.(deferred := u.deferred), gone)
    ensures Handled(s, t)
  {
  }

  lemma UnhitIsNotReported(s: State, x: Path)
    requires s.queue != [] && s.queue[0].Gone? && !Hit(s, 0, x)
    ensures !Under(Reported(s, s.queue[0].wd, s.queue[0].name), x)
  {
    var wd, n := s.queue[0].wd, s.queue[0].name;
    forall r | r in Reported(s, wd, n) ensures !(r <= x) {
      var p :| p in s.watched && s.watched[p] == wd && r == p + [n];
      assert Interest(s, p, wd);
    }
  }

  lemma GoneSpares(s: State, t: State)
    requires s.queue != [] && s.queue[0].Gone?
    requires var tops := Reported(s, s.queue[0].wd, s.queue[0].name);
      t.watched == s.watched - Below(s.watched.Keys, tops) && t.deferred == s.deferred - Below(s.deferred, tops)
    ensures forall x :: !Hit(s, 0, x) ==> (x in s.watched ==> x in t.watched) && (x in s.deferred ==> x in t.deferred)
  {
    forall x | !Hit(s, 0, x) ensures (x in s.watched ==> x in t.watched) && (x in s.deferred ==> x in t.deferred) {
      UnhitIsNotReported(s, x);
    }
  }

  lemma GoneKeeps(s: State, order: seq<Path>)
    requires Sound(s) && s.open.None? && HandleEnabled(s, order) && s.queue[0].Gone?
    ensures Sound(HandleRecord(s, order))
  {
    var t := HandleRecord(s, order);
    GoneHandled(s, order);
    GoneSpares(s, t);
    UnhitKeeps(s, t);
    SameDead(s, order);
  }

  lemma SameDead(s: State, order: seq<Path>)
    requires s.queue != [] && s.queue[0].Gone? && HandleEnabled(s, order)
    ensures HandleRecord(s, order).dead == s.dead
  {
    var u := s.(queue := s.queue[1..]);
    RemoveSubtreesSheds(u, Reported(s, s.queue[0].wd, s.queue[0].name), order);
  }

  /** Handling a removal keeps the account if it spares what the removal does not hit. */
  lemma UnhitKeeps(s: State, t: State)
    requires Handled(s, t) && Accounted(s) && s.queue[0].Gone?
    requires forall x :: !Hit(s, 0, x) ==> (x in s.watched ==> x in t.watched) && (x in s.deferred ==> x in t.deferred)
    requires forall p :: p in t.watched && s.watched[p] in s.live ==> s.watched[p] in t.live
    ensures Accounted(t) && OpenCovered(t)
  {
    HandledKeeps(s, t);
  }

  /** A vanished watch takes its interests along and leaves every live watch alone. */
  lemma IgnoredHandled(s: State, order: seq<Path>)
    requires RegistryOk(s) && QueueOk(s) && s.open.None? && s.queue != [] && s.queue[0].Ignored?
    ensures var t, wd := HandleRecord(s, order), s.queue[0].wd;
      && Handled(s, t) && RegistryOk(t) && QueueOk(t)
      && t.live == s.live && t.deferred == s.deferred
      && (forall p :: p in t.watched <==> p in s.watched && s.watched[p] != wd)
  {
    var u := s.(queue := s.queue[1..]);
    TailQueueOk(s, u);
    EndedShape(u, s.queue[0].wd);
    EndedRegistry(u, s.queue[0].wd);
    SameRecords(u, WatchEnded(u, s.queue[0].wd));
    assert HandleRecord(s, order) == WatchEnded(u, s.queue[0].wd);
  }

  lemma EndedShape(s: State, wd: Wd)
    requires RegistryOk(s)
    ensures var t := WatchEnded(s, wd);
      && t == s.(watched := t.watched, identity := t.identity, expects := t.expects, uncertain := t.uncertain, scan := t.scan)
      && (forall p :: p in t.watched <==> p in s.watched && s.watched[p] != wd)
      && (forall p :: p in t.watched ==> t.watched[p] == s.watched[p])
      && (forall p :: Seen(t, p) == Seen(s, p))
  {
  }

  lemma EndedRegistry(s: State, wd: Wd)
    requires RegistryOk(s) && wd !in s.live
    ensures RegistryOk(WatchEnded(s, wd))
  {
  }

  lemma SameRecords(s: State, t: State)
    requires QueueOk(s) && t.queue == s.queue && t.live == s.live && t.kids == s.kids && t.nextWd == s.nextWd
    ensures QueueOk(t)
  {
    forall k | 0 <= k < |t.queue| && t.queue[k].Gone? ensures Remade(t, k) {
      assert Remade(s, k);
    }
  }

  lemma IgnoredKeeps(s: State, order: seq<Path>)
    requires Sound(s) && s.open.None? && s.queue != [] && s.queue[0].Ignored?
    ensures Sound(HandleRecord(s, order))
  {
    IgnoredHandled(s, order);
    forall a, k | 0 < k && NamedAt(s, k, a) ensures Parent(a) in HandleRecord(s, order).watched {
      assert !About(s.queue[k], s.queue[0].wd);
    }
    HandledKeeps(s, HandleRecord(s, order));
  }

  lemma SelfGoneHandled(s: State, order: seq<Path>)
    requires s.open.None? && s.queue != [] && s.queue[0].SelfGone?
    ensures Handled(s, HandleRecord(s, order))
  {
  }

  lemma SelfGoneKeeps(s: State, order: seq<Path>)
    requires Sound(s) && s.open.None? && s.queue != [] && s.queue[0].SelfGone?
    ensures Sound(HandleRecord(s, order))
  {
    var t := HandleRecord(s, order);
    SelfGoneHandled(s, order);
    SameTrees(s, t);
    TailQueueOk(s, t);
    HandledKeeps(s, t);
  }

  lemma HandleKeeps(s: State, order: seq<Path>)
    requires Sound(s) && s.open.None? && HandleEnabled(s, order) && !s.queue[0].Overflow?
    ensures Sound(HandleRecord(s, order))
  {
    match s.queue[0] {
      case Made(_, _) => MadeKeeps(s, order);
      case Gone(_, _) => GoneKeeps(s, order);
      case Ignored(_) => IgnoredKeeps(s, order);
      case SelfGone(_) => SelfGoneKeeps(s, order);
    }
  }
}
