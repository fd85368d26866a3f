// A new watch is registered for the directory its path named before and after the
// call that adds it. In between the path may have named another.

module RegistryIdentities {
  import opened Paths
  import opened Registry
  import opened RegistryAttribution
  import opened RegistryAgreement
  import opened RegistryTheorems
  import opened RegistryLoss

  /** Every registered watch the kernel still has is on the directory it is registered for. */
  ghost predicate Faithful(w: World)
  {
    forall d :: d in w.watches && d in w.live ==> w.live[d].inode == w.watches[d].identity
  }

  /** A path that names this directory shares the watch there is. */
  predicate Shared(w: World, identity: Identity)
  {
    identity in w.identities && w.identities[identity] in w.watches
  }

  /** A watch of its own is added for a path that named another directory at the call than at both checks around it. */
  predicate ChangedTwice(w: World, step: Step)
    requires Enabled(w, step)
  {
    && step.Watch? && step.path !in w.subs[step.id].watched
    && WatchDirectory(w, step.id, step.path, step.allowNew, step.calls).1.Added?
    && step.calls.before.Some? && !Shared(w, step.calls.before.value)
    && step.calls.added.Some? && step.calls.added.value.0 != step.calls.before.value
  }

  /** Watches may go, on either side, but none changes. */
  ghost predicate NoneChanges(w: World, v: World)
  {
    && (forall d :: d in v.watches ==> d in w.watches && v.watches[d].identity == w.watches[d].identity)
    && (forall d :: d in v.live ==> d in w.live && v.live[d] == w.live[d])
  }

  lemma NoneChangesKeeps(w: World, v: World)
    requires Faithful(w) && NoneChanges(w, v)
    ensures Faithful(v)
  {
  }

  lemma OtherNoneChanges(w: World, step: Step)
    requires Enabled(w, step) && !step.Watch?
    ensures NoneChanges(w, Next(w, step))
  {
    if step.Handle? {
      HandleNoneChanges(w);
    } else if step.Forget? {
      ForgetNoneChanges(w, step.id, step.path);
    }
  }

  lemma ForgetNoneChanges(w: World, id: Id, path: Path)
    requires id in w.subs && path in w.subs[id].watched
    ensures NoneChanges(w, Unwatch(w, id, path))
  {
  }

  lemma HandleNoneChanges(w: World)
    requires w.queue != []
    ensures NoneChanges(w, Next(w, Handle))
  {
  }

  /** A watch added on directory `x` and claimed for a path is faithful if and only if the path named `x` at the checks. */
  lemma RegisteredExactly(w: World, u: World, id: Id, path: Path, calls: Calls)
    requires Indexed(w) && Faithful(w) && id in w.subs && CallsPossible(w, calls) && calls.before.Some? && calls.added.Some?
    requires calls.before.value in w.identities ==> w.identities[calls.before.value] !in w.watches
    requires u == AddWatch(w, calls.added.value.0, calls.added.value.1)
    ensures var (v, outcome) := RegisterAdded(u, id, path, calls.before.value, calls);
      Faithful(v) <==> !(outcome.Added? && calls.added.value.0 != calls.before.value)
  {
    var d, identity := calls.added.value.1, calls.before.value;
    var (v, outcome) := RegisterAdded(u, id, path, identity, calls);
    if outcome.Added? {
      AddedRegisters(u, id, path, identity, calls);
      assert d in v.watches && d in v.live && v.live[d].inode == calls.added.value.0;
    } else {
      RefusedDrops(u, id, path, identity, calls);
    }
  }

  lemma AddedRegisters(u: World, id: Id, path: Path, identity: Identity, calls: Calls)
    requires Indexed(u) && id in u.subs && calls.added.Some? && calls.added.value.1 in u.live
    requires identity in u.identities ==> u.identities[identity] !in u.watches
    requires RegisterAdded(u, id, path, identity, calls).1.Added?
    ensures var v, d := RegisterAdded(u, id, path, identity, calls).0, calls.added.value.1;
      && v.live == u.live && v.watches.Keys == u.watches.Keys + {d} && v.watches[d].identity == identity
      && forall e :: e in u.watches && e != d ==> v.watches[e] == u.watches[e]
  {
  }

  /** What is not registered is dropped again. */
  lemma RefusedDrops(u: World, id: Id, path: Path, identity: Identity, calls: Calls)
    requires Indexed(u) && id in u.subs && calls.added.Some? && calls.added.value.1 in u.live
    requires identity in u.identities ==> u.identities[identity] !in u.watches
    requires !RegisterAdded(u, id, path, identity, calls).1.Added?
    ensures var v := RegisterAdded(u, id, path, identity, calls).0;
      v.watches == u.watches && v.live == u.live - {calls.added.value.1}
  {
    var d := calls.added.value.1;
    if d in u.watches {
      assert u.watches[d].identity != identity;
      assert RemoveWatch(u.(exhausted := u.exhausted + {d}), d).live == u.live - {d};
    } else if d in u.exhausted {
      assert RemoveWatch(u, d).live == u.live - {d};
    } else if NextLifetime(u, d).None? {
      assert RemoveWatch(u.(exhausted := u.exhausted + {d}), d).live == u.live - {d};
    } else {
      UnclaimedDrops(u, d, NextLifetime(u, d).value);
    }
  }

  lemma UnclaimedDrops(u: World, d: Wd, lifetime: Lifetime)
    requires d in u.live
    ensures var b := u.(booked := u.booked[d := Booked(u, d) + [u.live[d].serial]]);
      RemoveLifetime(b, d, lifetime).watches == u.watches && RemoveLifetime(b, d, lifetime).live == u.live - {d}
  {
  }

  /**
   * A step keeps every registered watch on the directory it is registered for if and only if it does not add one for a
   * path that changed twice around the call.
   */
  lemma NextFaithfulExactly(w: World, step: Step)
    requires Agreed(w) && Faithful(w) && Enabled(w, step)
    ensures Faithful(Next(w, step)) <==> !ChangedTwice(w, step)
  {
    if !step.Watch? {
      OtherNoneChanges(w, step);
      NoneChangesKeeps(w, Next(w, step));
    } else {
      WatchFaithfulExactly(w, step);
    }
  }

  lemma WatchFaithfulExactly(w: World, step: Step)
    requires Agreed(w) && Faithful(w) && Enabled(w, step) && step.Watch?
    ensures Faithful(Next(w, step)) <==> !ChangedTwice(w, step)
  {
    var s, calls := w.subs[step.id], step.calls;
    if !(step.path in s.watched || (s.watchLimit.Some? && |s.watched| >= s.watchLimit.value)) {
      AddFaithfulExactly(w, step.id, step.path, step.allowNew, calls);
    }
  }

  lemma AddFaithfulExactly(w: World, id: Id, path: Path, allowNew: bool, calls: Calls)
    requires Agreed(w) && Faithful(w) && id in w.subs && CallsPossible(w, calls)
    ensures var (v, outcome) := AddInterest(w, id, path, allowNew, calls);
      Faithful(v) <==>
        !(outcome.Added? && calls.before.Some? && !Shared(w, calls.before.value)
          && calls.added.Some? && calls.added.value.0 != calls.before.value)
  {
    if calls.before.None? {
    } else if Shared(w, calls.before.value) {
      NoneChangesKeeps(w, AddInterest(w, id, path, allowNew, calls).0);
    } else if allowNew && !(w.budget.Some? && |w.watches| >= w.budget.value) && calls.added.Some? {
      RegisteredExactly(w, AddWatch(w, calls.added.value.0, calls.added.value.1), id, path, calls);
    }
  }

  /** So over every run in which no path changes twice around the call that adds its watch. */
  lemma {:induction false} FaithfulHolds(states: seq<World>, steps: seq<Step>, k: nat)
    requires Run(states, steps) && k < |states| && forall j :: 0 <= j < k ==> !ChangedTwice(states[j], steps[j])
    ensures Faithful(states[k])
    decreases k
  {
    if k > 0 {
      FaithfulHolds(states, steps, k - 1);
      RegistryHolds(states, steps, k - 1);
      NextFaithfulExactly(states[k - 1], steps[k - 1]);
    }
  }

  // ----- a run in which a path changes twice -------------------------------

  const SwappedA: Step := Watch(1, A, true, Calls(Some(7), Some((8, 0)), Some(7)))
  /** Directory 8 was at `a` during the call, and is watched in place of 7. */
  const Swapped: World := Watching.(live := map[0 := KernelWatch(8, 0)])

  lemma SwappedGoes() ensures Goes(Subscribed, SwappedA, Swapped)
  {
    assert A !in Holding;
    var added := AddWatch(Subscribed, 8, 0);
    assert added == Subscribed.(live := map[0 := KernelWatch(8, 0)], nextSerial := 1);
    assert Booked(added, 0) + [0] == [0];
    var empty: set<Interest> := {};
    assert empty + {Interest(1, A)} == {Interest(1, A)};
  }

  /** Another directory is at `a` for as long as the call takes: it is watched in place of the one registered. */
  lemma APathThatChangesTwiceIsMistaken()
    ensures Reachable(Swapped) && Goes(Subscribed, SwappedA, Swapped) && ChangedTwice(Subscribed, SwappedA)
    ensures Swapped.live[0].inode == 8 && Swapped.watches[0].identity == 7 && !Swapped.subs[1].uncertain
  {
    assert Run([Empty], []);
    SubscribeGoes();
    Onward(Empty, Subscribe(1, None), Subscribed);
    SwappedGoes();
    Onward(Subscribed, SwappedA, Swapped);
    assert Swapped.watches[0].identity == 7;
  }
}
