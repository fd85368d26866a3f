// The worker's side of the walk as the object whose fields the steps update.

module TopologyWorkers {
  import opened Paths
  import opened Exclusions
  import opened Topology

  lemma {:induction false} RemoveAllSplits(s: State, a: seq<Path>, b: seq<Path>)
    ensures RemoveAll(s, a + b) == RemoveAll(RemoveAll(s, a), b)
    decreases |a|
  {
    if a == [] {
      assert a + b == b;
    } else {
      assert (a + b)[1..] == a[1..] + b;
      RemoveAllSplits(if a[0] in s.watched then RemoveInterest(s, a[0]) else s, a[1..], b);
    }
  }

  lemma {:induction false} RemoveAllKeepsRest(s: State, order: seq<Path>, d: set<Path>)
    ensures RemoveAll(s.(deferred := d), order) == RemoveAll(s, order).(deferred := d)
    ensures RemoveAll(s, order).deferred == s.deferred
    decreases |order|
  {
    if order != [] {
      var u := if order[0] in s.watched then RemoveInterest(s, order[0]) else s;
      RemoveAllKeepsRest(u, order[1..], d);
    }
  }

  lemma {:induction false} RemoveAllShrinks(s: State, order: seq<Path>)
    ensures forall p :: p in RemoveAll(s, order).watched <==> p in s.watched && p !in order
    decreases |order|
  {
    if order != [] {
      var u := if order[0] in s.watched then RemoveInterest(s, order[0]) else s;
      RemoveAllShrinks(u, order[1..]);
      assert forall p :: p in order <==> p == order[0] || p in order[1..];
    }
  }

  /** Two subtrees removed one after the other are removed together. */
  lemma RemoveSubtreesTwice(s: State, a: set<Path>, b: set<Path>, o: seq<Path>, q: seq<Path>)
    requires Enumerates(o, Below(s.watched.Keys, a))
    requires Enumerates(q, Below(RemoveSubtrees(s, a, o).watched.Keys, b))
    ensures Enumerates(o + q, Below(s.watched.Keys, a + b))
    ensures RemoveSubtrees(RemoveSubtrees(s, a, o), b, q) == RemoveSubtrees(s, a + b, o + q)
  {
    var t := RemoveAll(s, o);
    RemoveAllShrinks(s, o);
    RemoveAllSplits(s, o, q);
    RemoveAllKeepsRest(s, o, s.deferred);
    RemoveAllKeepsRest(t, q, RemoveSubtrees(s, a, o).deferred);
    RemoveAllKeepsRest(t, q, s.deferred);
    forall p ensures Under(a + b, p) <==> Under(a, p) || Under(b, p) {
      if Under(a + b, p) { var x :| x in a + b && x <= p; }
    }
    assert (s.deferred - Below(s.deferred, a)) - Below(s.deferred - Below(s.deferred, a), b)
        == s.deferred - Below(s.deferred, a + b);
  }

  class TopologyWorker {
    // The file system and the kernel, which other processes change between the worker's steps.
    var kids: map<Ino, map<Name, Ino>>
    var root: Ino
    var dead: set<Ino>
    var live: map<Wd, Ino>
    var queue: seq<Record>
    var nextWd: Wd
    // The worker.
    var watchedPaths: map<Path, Wd>
    var identity: map<Wd, Ino>
    var expectsIgnored: set<Wd>
    var topologyJobs: seq<Job>
    var open: Option<Opening>
    var deferredDirectories: set<Path>
    var policy: Policy
    var toInclude: Option<set<Path>>
    var uncertain: bool
    var reconciliation: Option<Scan>

    function View(): State
      reads this
    {
      State(kids, root, dead, live, queue, nextWd, watchedPaths, identity, expectsIgnored,
            topologyJobs, open, deferredDirectories, policy, toInclude, uncertain, reconciliation)
    }

    /** Coverage is uncertain, and a reconciliation under way will not make it certain again. */
    method MarkUncertain()
      modifies `uncertain, `reconciliation
      ensures uncertain && reconciliation == Raised(old(reconciliation))
    {
      uncertain := true;
      if reconciliation.Some? {
        reconciliation := Some(reconciliation.value.(raised := true));
      }
    }

    method RemoveInterest(path: Path)
      requires path in watchedPaths
      modifies `watchedPaths, `identity, `expectsIgnored, `live, `queue
      ensures View() == Topology.RemoveInterest(old(View()), path)
    {
      var wd := watchedPaths[path];
      watchedPaths := watchedPaths - {path};
      if !(exists q | q in watchedPaths :: watchedPaths[q] == wd) {
        RemoveWatch(wd);
      }
    }

    /** The last interest is gone, and so is the watch. */
    method RemoveWatch(wd: Wd)
      modifies `identity, `expectsIgnored, `live, `queue
      ensures identity == old(identity) - {wd} && expectsIgnored == old(expectsIgnored) - {wd} && live == old(live) - {wd}
      ensures queue == if wd in old(live) then old(queue) + [Ignored(wd)] else old(queue)
    {
      identity := identity - {wd};
      expectsIgnored := expectsIgnored - {wd};
      if wd in live {
        queue := queue + [Ignored(wd)];
      }
      live := live - {wd};
    }

    /** Collects the interests below the path, drops each, then forgets the deferrals below it. */
    method RemoveSubscriptionSubtree(path: Path) returns (ghost order: seq<Path>)
      modifies this
      ensures Enumerates(order, Below(old(watchedPaths).Keys, {path}))
      ensures View() == RemoveSubtrees(old(View()), {path}, order)
    {
      var interests := Below(watchedPaths.Keys, {path});
      ghost var all := interests;
      order := [];
      while interests != {}
        invariant View() == RemoveAll(old(View()), order)
        invariant interests == Below(watchedPaths.Keys, {path})
        invariant interests <= all
        invariant forall p :: p in all <==> p in interests || p in order
        decreases |interests|
      {
        var p :| p in interests;
        RemoveAllSplits(old(View()), order, [p]);
        order := order + [p];
        RemoveInterest(p);
        interests := interests - {p};
        assert interests == Below(watchedPaths.Keys, {path});
      }
      deferredDirectories := deferredDirectories - Below(deferredDirectories, {path});
    }

    method HandleGone(wd: Wd, name: Name) returns (ghost order: seq<Path>)
      modifies this
      ensures Enumerates(order, Below(old(watchedPaths).Keys, Reported(old(View()), wd, name)))
      ensures View() == RemoveSubtrees(old(View()), Reported(old(View()), wd, name), order)
    {
      var paths := Reported(View(), wd, name);
      ghost var done: set<Path> := {};
      order := [];
      while paths != {}
        invariant done + paths == Reported(old(View()), wd, name) && done !! paths
        invariant Enumerates(order, Below(old(watchedPaths).Keys, done))
        invariant View() == RemoveSubtrees(old(View()), done, order)
        decreases |paths|
      {
        var path :| path in paths;
        ghost var more := RemoveSubscriptionSubtree(path);
        RemoveSubtreesTwice(old(View()), done, {path}, order, more);
        order := order + more;
        done := done + {path};
        paths := paths - {path};
      }
    }

    /** Queues a visit, for the reconciliation if there is one, which goes back to scanning. */
    method PushJob(path: Path)
      modifies this`topologyJobs, this`reconciliation
      ensures topologyJobs == old(topologyJobs) + [Job([path], None, old(reconciliation).Some?)]
      ensures reconciliation == Restarted(old(reconciliation))
    {
      if reconciliation.Some? && reconciliation.value.phase.Sweeping? {
        reconciliation := Some(reconciliation.value.(phase := Scanning));
      }
      topologyJobs := topologyJobs + [Job([path], None, reconciliation.Some?)];
    }

    method HandleMade(wd: Wd, name: Name) returns (ghost order: seq<Path>)
      modifies this`topologyJobs, this`reconciliation
      ensures Enumerates(order, Reported(old(View()), wd, name))
      ensures View() == if order == [] then old(View())
                        else old(View()).(jobs := PushAll(old(topologyJobs), order, old(reconciliation).Some?),
                                          scan := Restarted(old(reconciliation)))
    {
      var paths := Reported(View(), wd, name);
      ghost var all := paths;
      order := [];
      assert topologyJobs == PushAll(topologyJobs, order, reconciliation.Some?);
      while paths != {}
        invariant paths <= all && forall p :: p in all <==> p in paths || p in order
        invariant topologyJobs == PushAll(old(topologyJobs), order, old(reconciliation).Some?)
        invariant reconciliation == if order == [] then old(reconciliation) else Restarted(old(reconciliation))
        invariant View() == old(View()).(jobs := topologyJobs, scan := reconciliation)
        decreases |paths|
      {
        var path :| path in paths;
        PushJob(path);
        order := order + [path];
        assert topologyJobs == PushAll(old(topologyJobs), order, old(reconciliation).Some?);
        paths := paths - {path};
      }
    }

    /** Drops every interest in a watch that is gone, and certainty with it unless the end was announced. */
    method ForgetInterests(wd: Wd, expected: bool)
      modifies `watchedPaths, `uncertain, `reconciliation
      ensures var s := old(View()).(watched := map p | p in old(watchedPaths) && old(watchedPaths)[p] != wd
                                               :: old(watchedPaths)[p]);
        View() == if !expected && (exists p :: p in old(watchedPaths) && old(watchedPaths)[p] == wd) then Raise(s) else s
    {
      var interests := set p | p in watchedPaths && watchedPaths[p] == wd;
      while interests != {}
        invariant interests == set p | p in watchedPaths && watchedPaths[p] == wd
        invariant forall p :: p in old(watchedPaths) && old(watchedPaths)[p] != wd ==> p in watchedPaths
        invariant forall p :: p in watchedPaths ==> p in old(watchedPaths) && watchedPaths[p] == old(watchedPaths)[p]
        invariant if !expected && watchedPaths != old(watchedPaths)
          then uncertain && reconciliation == Raised(old(reconciliation))
          else uncertain == old(uncertain) && reconciliation == old(reconciliation)
        decreases |interests|
      {
        var p :| p in interests;
        watchedPaths := watchedPaths - {p};
        assert p in old(watchedPaths) && p !in watchedPaths;
        if !expected {
          MarkUncertain();
        }
        interests := interests - {p};
      }
      assert forall p :: p in watchedPaths && watchedPaths[p] == wd ==> p in interests;
    }

    method HandleIgnored(wd: Wd)
      modifies this
      ensures View() == WatchEnded(old(View()), wd)
    {
      if wd in identity {
        var expected := wd in expectsIgnored;
        identity := identity - {wd};
        expectsIgnored := expectsIgnored - {wd};
        ForgetInterests(wd, expected);
        assert (exists p :: p in old(watchedPaths) && old(watchedPaths)[p] == wd) <==> Interests(old(View()), wd) != {} by {
          assert forall p :: p in Interests(old(View()), wd) <==> p in old(watchedPaths) && old(watchedPaths)[p] == wd;
        }
      }
    }

    method HandleRecord() returns (ghost order: seq<Path>)
      requires queue != []
      modifies this
      ensures HandleEnabled(old(View()), order)
      ensures View() == Topology.HandleRecord(old(View()), order)
    {
      var record := queue[0];
      queue := queue[1..];
      order := [];
      match record {
        case Overflow => MarkUncertain();
        case SelfGone(wd) =>
          if wd in identity {
            expectsIgnored := expectsIgnored + {wd};
          }
        case Ignored(wd) => HandleIgnored(wd);
        case Made(wd, name) =>
          order := HandleMade(wd, name);
          assert Reported(old(View()), wd, name) == Reported(old(View()).(queue := old(queue)[1..]), wd, name);
        case Gone(wd, name) =>
          order := HandleGone(wd, name);
          assert Reported(old(View()), wd, name) == Reported(old(View()).(queue := old(queue)[1..]), wd, name);
      }
    }
  }
}
