// The registry and the subscriptions agree about who watches what, within the limits.

module RegistryAgreement {
  import opened Paths
  import opened Registry
  import opened RegistryAttribution

  /** Registered watches and the identity index are mutually inverse, and interests match the subscriptions' paths. */
  ghost predicate Agreed(w: World)
  {
    && Indexed(w)
    && Populated(w.watches, w.identities)
    && InterestsHeld(w)
    && PathsInterested(w)
  }

  /** Every indexed identity names a watch on it, and every watch has an interest. */
  ghost predicate Populated(watches: map<Wd, NativeWatch>, identities: map<Identity, Wd>)
  {
    && (forall i :: i in identities ==> identities[i] in watches && watches[identities[i]].identity == i)
    && (forall d :: d in watches ==> watches[d].interests != {})
  }

  ghost predicate InterestsHeld(w: World)
  {
    forall d, x :: d in w.watches && x in w.watches[d].interests ==>
      (x.id in w.subs && x.path in w.subs[x.id].watched && w.subs[x.id].watched[x.path] == d)
  }

  ghost predicate PathsInterested(w: World)
  {
    forall id, p :: id in w.subs && !w.subs[id].disposing && p in w.subs[id].watched ==> Backed(w, id, p)
  }

  ghost predicate Backed(w: World, id: Id, p: Path)
    requires id in w.subs && p in w.subs[id].watched
  {
    w.subs[id].watched[p] in w.watches && Interest(id, p) in w.watches[w.subs[id].watched[p]].interests
  }

  /** Unique watches stay within the runtime budget and watched paths within each subscription's limit. */
  ghost predicate Limited(w: World)
  {
    && (w.budget.Some? ==> |w.watches| <= w.budget.value)
    && (forall id :: id in w.subs && w.subs[id].watchLimit.Some? ==> |w.subs[id].watched| <= w.subs[id].watchLimit.value)
  }

  ghost predicate SameHoldings(a: Subscription, b: Subscription)
  {
    b == a.(uncertain := b.uncertain)
  }

  /** The subscriptions differ in their certainty at most. */
  ghost predicate OnlyMarked(w: World, v: World)
  {
    && v.budget == w.budget && v.subs.Keys == w.subs.Keys
    && (forall i :: i in w.subs ==> SameHoldings(w.subs[i], v.subs[i]))
  }

  lemma MarkedAgrees(w: World, v: World)
    requires OnlyMarked(w, v) && v.watches == w.watches && v.identities == w.identities
    ensures Agreed(w) ==> Agreed(v)
    ensures Limited(w) ==> Limited(v)
  {
  }

  /** `w` is `u` after subscription `id` let go of `path`, while its interest in `d` is still registered. */
  ghost predicate LetGo(u: World, w: World, id: Id, path: Path, d: Wd)
  {
    && id in u.subs && path in u.subs[id].watched && u.subs[id].watched[path] == d
    && w == u.(subs := u.subs[id := u.subs[id].(watched := u.subs[id].watched - {path})])
  }

  lemma RemoveInterestHeld(u: World, w: World, id: Id, path: Path, d: Wd)
    requires InterestsHeld(u) && LetGo(u, w, id, path, d)
    ensures InterestsHeld(RemoveInterest(w, id, path, d))
  {
    var v := RemoveInterest(w, id, path, d);
    RemoveInterestShrinks(w, id, path, d);
    forall e, x | e in v.watches && x in v.watches[e].interests
      ensures x.id in v.subs && x.path in v.subs[x.id].watched && v.subs[x.id].watched[x.path] == e
    {
      assert e in u.watches && x in u.watches[e].interests && x == Interest(x.id, x.path);
      assert u.subs[x.id].watched[x.path] == e;
    }
  }

  lemma RemoveInterestBacked(u: World, w: World, id: Id, path: Path, d: Wd)
    requires PathsInterested(u) && LetGo(u, w, id, path, d)
    ensures PathsInterested(RemoveInterest(w, id, path, d))
  {
    var v := RemoveInterest(w, id, path, d);
    RemoveInterestShrinks(w, id, path, d);
    forall i, p | i in v.subs && !v.subs[i].disposing && p in v.subs[i].watched
      ensures Backed(v, i, p)
    {
      assert Backed(u, i, p) && u.subs[i].watched[p] == v.subs[i].watched[p];
      assert Interest(i, p) != Interest(id, path);
    }
  }

  lemma RemoveInterestIndexed(w: World, id: Id, path: Path, d: Wd)
    requires Indexed(w) && Populated(w.watches, w.identities)
    ensures var v := RemoveInterest(w, id, path, d);
      Indexed(v) && Populated(v.watches, v.identities)
  {
  }

  lemma UnwatchAgrees(w: World, id: Id, path: Path)
    requires Agreed(w) && id in w.subs && path in w.subs[id].watched
    ensures Agreed(Unwatch(w, id, path))
  {
    var d := w.subs[id].watched[path];
    var u := w.(subs := w.subs[id := w.subs[id].(watched := w.subs[id].watched - {path})]);
    RemoveInterestIndexed(u, id, path, d);
    RemoveInterestHeld(w, u, id, path, d);
    RemoveInterestBacked(w, u, id, path, d);
  }

  lemma UnwatchLimited(w: World, id: Id, path: Path)
    requires Limited(w) && id in w.subs && path in w.subs[id].watched
    ensures Limited(Unwatch(w, id, path))
  {
    var u := w.(subs := w.subs[id := w.subs[id].(watched := w.subs[id].watched - {path})]);
    RemoveInterestShrinks(u, id, path, w.subs[id].watched[path]);
    FewerLimited(w, Unwatch(w, id, path));
  }

  lemma RemoveInterestShrinks(w: World, id: Id, path: Path, d: Wd)
    ensures var v := RemoveInterest(w, id, path, d);
      && v.watches.Keys <= w.watches.Keys && v.subs == w.subs && v.budget == w.budget
      && (forall e :: e in v.watches ==> v.watches[e].interests <= w.watches[e].interests)
      && (forall e, x :: e in w.watches && x in w.watches[e].interests && x != Interest(id, path) ==>
            (e in v.watches && x in v.watches[e].interests))
  {
    var v := RemoveInterest(w, id, path, d);
    if d in w.watches {
      var left := w.watches[d].interests - {Interest(id, path)};
      forall e | e in v.watches ensures e in w.watches && v.watches[e].interests <= w.watches[e].interests {
        assert e != d ==> v.watches[e] == w.watches[e];
      }
      forall e, x | e in w.watches && x in w.watches[e].interests && x != Interest(id, path)
        ensures e in v.watches && x in v.watches[e].interests
      {
        if e == d { assert x in left && v.watches[d].interests == left; } else { assert v.watches[e] == w.watches[e]; }
      }
    }
  }

  lemma FewerLimited(w: World, v: World)
    requires Limited(w) && v.budget == w.budget && v.watches.Keys <= w.watches.Keys
    requires forall i :: i in v.subs ==> (i in w.subs && v.subs[i].watchLimit == w.subs[i].watchLimit
                                          && v.subs[i].watched.Keys <= w.subs[i].watched.Keys)
    ensures Limited(v)
  {
    KeysBound(v.watches.Keys, w.watches.Keys);
    assert |v.watches.Keys| == |v.watches| && |w.watches.Keys| == |w.watches|;
    forall i | i in v.subs ensures |v.subs[i].watched| <= |w.subs[i].watched| {
      KeysBound(v.subs[i].watched.Keys, w.subs[i].watched.Keys);
      assert |v.subs[i].watched.Keys| == |v.subs[i].watched| && |w.subs[i].watched.Keys| == |w.subs[i].watched|;
    }
  }

  lemma {:induction false} KeysBound<T>(a: set<T>, b: set<T>)
    requires a <= b
    ensures |a| <= |b|
    decreases a
  {
    if a != {} {
      var x :| x in a;
      KeysBound(a - {x}, b - {x});
    }
  }

  lemma HandleIgnoredAgrees(w: World, d: Wd)
    requires Agreed(w)
    ensures Agreed(HandleIgnored(w, d))
  {
    var v := HandleIgnored(w, d);
    if d !in w.retired && d in w.watches {
      var gone := w.watches[d].interests;
      forall x | x in gone ensures w.subs[x.id].watched[x.path] == d {}
      forall e, x | e in v.watches && x in v.watches[e].interests
        ensures x.id in v.subs && x.path in v.subs[x.id].watched && v.subs[x.id].watched[x.path] == e
      {
        assert x == Interest(x.id, x.path);
      }
      forall i, p | i in v.subs && !v.subs[i].disposing && p in v.subs[i].watched
        ensures Backed(v, i, p)
      {
        assert Interest(i, p) !in gone;
        assert Backed(w, i, p);
      }
    }
  }

  lemma HandleIgnoredLimited(w: World, d: Wd)
    requires Limited(w)
    ensures Limited(HandleIgnored(w, d))
  {
    FewerLimited(w, HandleIgnored(w, d));
  }

  /** `v` is `w` with a descriptor looked up or newly registered for `id`, ready for its interest. */
  ghost predicate Prepared(w: World, v: World, d: Wd, watch: NativeWatch)
  {
    && OnlyMarked(w, v) && v.watches == w.watches[d := watch]
    && (d in w.watches ==> watch == w.watches[d] && v.identities == w.identities)
    && (d !in w.watches ==> watch.interests == {} && watch.identity !in w.identities
                            && v.identities == w.identities[watch.identity := d])
  }

  lemma InsertIndexed(w: World, v: World, id: Id, path: Path, d: Wd, watch: NativeWatch)
    requires Agreed(w) && id in w.subs && Prepared(w, v, d, watch)
    ensures var u := InsertInterest(v, id, path, d);
      Indexed(u) && Populated(u.watches, u.identities)
  {
  }

  lemma InsertHeld(w: World, v: World, id: Id, path: Path, d: Wd, watch: NativeWatch)
    requires Agreed(w) && id in w.subs && path !in w.subs[id].watched && Prepared(w, v, d, watch)
    ensures InterestsHeld(InsertInterest(v, id, path, d))
  {
    var u := InsertInterest(v, id, path, d);
    forall e, x | e in u.watches && x in u.watches[e].interests
      ensures x.id in u.subs && x.path in u.subs[x.id].watched && u.subs[x.id].watched[x.path] == e
    {
      if x != Interest(id, path) {
        assert e in w.watches && x in w.watches[e].interests;
      }
    }
  }

  lemma InsertBacked(w: World, v: World, id: Id, path: Path, d: Wd, watch: NativeWatch)
    requires Agreed(w) && id in w.subs && path !in w.subs[id].watched && Prepared(w, v, d, watch)
    ensures PathsInterested(InsertInterest(v, id, path, d))
  {
    var u := InsertInterest(v, id, path, d);
    forall i, p | i in u.subs && !u.subs[i].disposing && p in u.subs[i].watched
      ensures Backed(u, i, p)
    {
      if !(i == id && p == path) { assert Backed(w, i, p); }
    }
  }

  lemma InsertAgrees(w: World, v: World, id: Id, path: Path, d: Wd, watch: NativeWatch)
    requires Agreed(w) && id in w.subs && path !in w.subs[id].watched && Prepared(w, v, d, watch)
    ensures Agreed(InsertInterest(v, id, path, d))
  {
    InsertIndexed(w, v, id, path, d, watch);
    InsertHeld(w, v, id, path, d, watch);
    InsertBacked(w, v, id, path, d, watch);
  }

  /** The one branch of claiming a returned descriptor that registers it. */
  ghost predicate Registers(w: World, identity: Identity, calls: Calls)
    requires calls.added.Some?
  {
    var d := calls.added.value.1;
    d !in w.watches && d !in w.exhausted && NextLifetime(w, d).Some? && calls.after == Some(identity)
  }

  lemma RegisterFails(w: World, id: Id, path: Path, identity: Identity, calls: Calls)
    requires Indexed(w) && id in w.subs && calls.added.Some?
    requires Addable(w, calls.added.value.0, calls.added.value.1) && identity !in w.identities
    requires !Registers(w, identity, calls)
    ensures var v := RegisterAdded(AddWatch(w, calls.added.value.0, calls.added.value.1), id, path, identity, calls).0;
      OnlyMarked(w, v) && v.watches == w.watches && v.identities == w.identities
  {
    var d := calls.added.value.1;
    var a := AddWatch(w, calls.added.value.0, d);
    var x := a.(exhausted := a.exhausted + {d});
    Marks(RemoveWatch(x, d), id);
    if d !in w.watches {
      if d in w.exhausted {
        Marks(RemoveWatch(a, d), id);
      } else if NextLifetime(w, d).Some? {
        var b := a.(booked := a.booked[d := Booked(a, d) + [a.live[d].serial]]);
        Marks(RemoveLifetime(b, d, NextLifetime(a, d).value), id);
      }
    }
  }

  lemma Marks(w: World, id: Id)
    ensures OnlyMarked(w, MarkUncertain(w, id))
    ensures MarkUncertain(w, id).watches == w.watches && MarkUncertain(w, id).identities == w.identities
  {
  }

  lemma RegisterSucceeds(w: World, id: Id, path: Path, identity: Identity, calls: Calls) returns (v: World, watch: NativeWatch)
    requires id in w.subs && calls.added.Some?
    requires Addable(w, calls.added.value.0, calls.added.value.1) && identity !in w.identities
    requires Registers(w, identity, calls)
    ensures Prepared(w, v, calls.added.value.1, watch)
    ensures calls.added.value.1 in v.retired ==> id in v.subs && v.subs[id].uncertain
    ensures RegisterAdded(AddWatch(w, calls.added.value.0, calls.added.value.1), id, path, identity, calls).0
            == InsertInterest(v, id, path, calls.added.value.1)
  {
    var d := calls.added.value.1;
    var a := AddWatch(w, calls.added.value.0, d);
    watch := NativeWatch(NextLifetime(a, d).value, identity, {}, false);
    var b := a.(booked := a.booked[d := Booked(a, d) + [a.live[d].serial]]);
    var m := MarkReusedUncertain(b, id, d);
    v := m.(watches := m.watches[d := watch], identities := m.identities[identity := d]);
  }

  /** Nothing was registered for the subscription. */
  ghost predicate Unregistered(w: World, u: World)
  {
    OnlyMarked(w, u) && u.watches == w.watches && u.identities == w.identities
  }

  /** `u` registers `path` for `id`, below both limits. */
  ghost predicate NewlyRegistered(w: World, u: World, id: Id, path: Path, v: World, d: Wd, watch: NativeWatch)
    requires id in w.subs
  {
    && Prepared(w, v, d, watch) && u == InsertInterest(v, id, path, d) && path !in w.subs[id].watched
    && (d !in w.watches && w.budget.Some? ==> |w.watches| < w.budget.value)
    && (w.subs[id].watchLimit.Some? ==> |w.subs[id].watched| < w.subs[id].watchLimit.value)
    && (d in v.retired ==> id in v.subs && v.subs[id].uncertain)
  }

  lemma ShareShape(w: World, id: Id, path: Path, calls: Calls) returns (v: World, d: Wd, watch: NativeWatch)
    requires Agreed(w) && id in w.subs && path !in w.subs[id].watched
    requires calls.before.Some? && calls.before.value in w.identities && CallsPossible(w, calls)
    requires w.subs[id].watchLimit.Some? ==> |w.subs[id].watched| < w.subs[id].watchLimit.value
    ensures var u := AddInterest(w, id, path, true, calls).0;
      Unregistered(w, u) || NewlyRegistered(w, u, id, path, v, d, watch)
    ensures forall b :: AddInterest(w, id, path, b, calls) == AddInterest(w, id, path, true, calls)
  {
    d := w.identities[calls.before.value];
    v, watch := MarkReusedUncertain(w, id, d), w.watches[d];
    Marks(w, id);
  }

  lemma CreateShape(w: World, id: Id, path: Path, calls: Calls) returns (v: World, d: Wd, watch: NativeWatch)
    requires Agreed(w) && id in w.subs && path !in w.subs[id].watched
    requires calls.before.Some? && calls.before.value !in w.identities && calls.added.Some? && CallsPossible(w, calls)
    requires w.budget.Some? ==> |w.watches| < w.budget.value
    requires w.subs[id].watchLimit.Some? ==> |w.subs[id].watched| < w.subs[id].watchLimit.value
    ensures var u := RegisterAdded(AddWatch(w, calls.added.value.0, calls.added.value.1), id, path, calls.before.value, calls).0;
      Unregistered(w, u) || NewlyRegistered(w, u, id, path, v, d, watch)
  {
    v, d, watch := w, calls.added.value.1, NativeWatch(0, 0, {}, false);
    if Registers(w, calls.before.value, calls) {
      v, watch := RegisterSucceeds(w, id, path, calls.before.value, calls);
    } else {
      RegisterFails(w, id, path, calls.before.value, calls);
    }
  }

  /** Every way `WatchDirectory` can end: nothing registered, or a shared or new watch registered. */
  lemma WatchShape(w: World, id: Id, path: Path, allowNew: bool, calls: Calls) returns (v: World, d: Wd, watch: NativeWatch)
    requires Agreed(w) && id in w.subs && CallsPossible(w, calls)
    ensures var u := WatchDirectory(w, id, path, allowNew, calls).0;
      Unregistered(w, u) || NewlyRegistered(w, u, id, path, v, d, watch)
  {
    v, d, watch := w, 0, NativeWatch(0, 0, {}, false);
    var s := w.subs[id];
    if !(path in s.watched || (s.watchLimit.Some? && |s.watched| >= s.watchLimit.value)) && calls.before.Some? {
      if calls.before.value in w.identities {
        v, d, watch := ShareShape(w, id, path, calls);
      } else if allowNew && !(w.budget.Some? && |w.watches| >= w.budget.value) && calls.added.Some? {
        v, d, watch := CreateShape(w, id, path, calls);
      }
    }
  }

  lemma WatchAgrees(w: World, id: Id, path: Path, allowNew: bool, calls: Calls)
    requires Agreed(w) && id in w.subs && CallsPossible(w, calls)
    ensures Agreed(WatchDirectory(w, id, path, allowNew, calls).0)
  {
    var u := WatchDirectory(w, id, path, allowNew, calls).0;
    var v, d, watch := WatchShape(w, id, path, allowNew, calls);
    if Unregistered(w, u) {
      MarkedAgrees(w, u);
    } else {
      InsertAgrees(w, v, id, path, d, watch);
    }
  }

  lemma WatchLimited(w: World, id: Id, path: Path, allowNew: bool, calls: Calls)
    requires Agreed(w) && Limited(w) && id in w.subs && CallsPossible(w, calls)
    ensures Limited(WatchDirectory(w, id, path, allowNew, calls).0)
  {
    var u := WatchDirectory(w, id, path, allowNew, calls).0;
    var v, d, watch := WatchShape(w, id, path, allowNew, calls);
    if Unregistered(w, u) {
      MarkedAgrees(w, u);
    } else {
      InsertLimited(w, v, id, path, d, watch);
    }
  }

  lemma OneMore<K, V>(m: map<K, V>, k: K, v: V)
    ensures |m[k := v]| == if k in m then |m| else |m| + 1
  {
    var n := m[k := v];
    assert n.Keys == m.Keys + {k};
    assert |n| == |n.Keys| && |m| == |m.Keys|;
  }

  /** One more watch and one more path, each added only below its limit. */
  lemma InsertLimited(w: World, v: World, id: Id, path: Path, d: Wd, watch: NativeWatch)
    requires Limited(w) && id in w.subs && Prepared(w, v, d, watch)
    requires d !in w.watches && w.budget.Some? ==> |w.watches| < w.budget.value
    requires w.subs[id].watchLimit.Some? ==> |w.subs[id].watched| < w.subs[id].watchLimit.value
    ensures Limited(InsertInterest(v, id, path, d))
  {
    var u := InsertInterest(v, id, path, d);
    OneMore(w.watches, d, u.watches[d]);
    OneMore(w.subs[id].watched, path, d);
    forall i | i in u.subs && u.subs[i].watchLimit.Some? ensures |u.subs[i].watched| <= u.subs[i].watchLimit.value {
      if i != id { assert u.subs[i].watched == w.subs[i].watched; }
    }
  }
}
