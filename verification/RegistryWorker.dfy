// The registry as the object whose fields the worker updates in place.

module RegistryWorkers {
  import opened Paths
  import opened Registry

  /** What one more interest of a vanished watch costs its subscription. */
  lemma BereavedOnce(id: Id, s: Subscription, done: set<Interest>, x: Interest, expected: bool)
    ensures Bereaved(id, s, done + {x}, expected) ==
            (var b := Bereaved(id, s, done, expected);
             if s.disposing || x.id != id then b
             else b.(watched := b.watched - {x.path}, uncertain := b.uncertain || x.path == [] || !expected))
  {
    var all := Bereaved(id, s, done + {x}, expected);
    var b := Bereaved(id, s, done, expected);
    if !s.disposing {
      assert forall p :: Interest(id, p) in done + {x} <==> Interest(id, p) in done || (x.id == id && x.path == p);
      assert all.uncertain == (b.uncertain || (x.id == id && (x.path == [] || !expected))) by {
        assert x in done + {x};
        assert forall i :: i in done + {x} <==> i in done || i == x;
      }
      if x.id == id {
        assert all.watched == b.watched - {x.path};
      } else {
        assert all.watched == b.watched;
      }
    }
  }

  function BereavedAll(subs: map<Id, Subscription>, interests: set<Interest>, expected: bool): map<Id, Subscription>
  {
    map id | id in subs :: Bereaved(id, subs[id], interests, expected)
  }

  lemma BereavedByNone(subs: map<Id, Subscription>, expected: bool)
    ensures BereavedAll(subs, {}, expected) == subs
  {
    forall id | id in subs ensures Bereaved(id, subs[id], {}, expected) == subs[id] {
      assert Bereaved(id, subs[id], {}, expected).watched == subs[id].watched;
    }
  }

  /** One interest at a time: only the subscription it names changes, and only unless that one is disposing. */
  lemma BereavedAllOnce(subs: map<Id, Subscription>, done: set<Interest>, x: Interest, expected: bool)
    ensures var b := BereavedAll(subs, done, expected);
      BereavedAll(subs, done + {x}, expected) ==
      if x.id !in b || b[x.id].disposing then b
      else b[x.id := b[x.id].(watched := b[x.id].watched - {x.path},
                              uncertain := b[x.id].uncertain || x.path == [] || !expected)]
  {
    forall id | id in subs ensures id == x.id || Bereaved(id, subs[id], done + {x}, expected) ==
                                                 Bereaved(id, subs[id], done, expected) {
      BereavedOnce(id, subs[id], done, x, expected);
    }
    if x.id in subs {
      BereavedOnce(x.id, subs[x.id], done, x, expected);
    }
  }

  class RegistryWorker {
    // The kernel, which other processes change between the worker's steps.
    var live: map<Wd, KernelWatch>
    var queue: seq<Record>
    var nextSerial: Serial
    // The registry.
    var watches: map<Wd, NativeWatch>
    var watchIdentities: map<Identity, Wd>
    var retiredIgnoredLifetimes: map<Wd, Lifetimes>
    var exhaustedWatchDescriptors: set<Wd>
    var nativeWatchBudget: Option<nat>
    var subscriptions: map<Id, Subscription>
    ghost var booked: map<Wd, seq<Serial>>
    ghost var lost: seq<Record>

    ghost function View(): World
      reads this
    {
      World(live, queue, nextSerial, watches, watchIdentities, retiredIgnoredLifetimes,
            exhaustedWatchDescriptors, nativeWatchBudget, subscriptions, booked, lost)
    }

    method RmWatch(d: Wd)
      modifies this`live, this`queue
      ensures View() == Registry.RemoveWatch(old(View()), d)
    {
      if d in live {
        queue := queue + [Ignored(d, live[d].serial)];
        live := live - {d};
      }
    }

    method InotifyAddWatch(inode: Identity, d: Wd)
      requires Addable(View(), inode, d)
      modifies this`live, this`nextSerial
      ensures View() == AddWatch(old(View()), inode, d)
    {
      if d !in live {
        live := live[d := KernelWatch(inode, nextSerial)];
        nextSerial := nextSerial + 1;
      }
    }

    method MarkUncertain(id: Id)
      modifies this`subscriptions
      ensures View() == Registry.MarkUncertain(old(View()), id)
    {
      if id in subscriptions {
        subscriptions := subscriptions[id := subscriptions[id].(uncertain := true)];
      }
    }

    method MarkReusedDescriptorUncertain(id: Id, d: Wd)
      modifies this`subscriptions
      ensures View() == MarkReusedUncertain(old(View()), id, d)
    {
      if d in retiredIgnoredLifetimes {
        MarkUncertain(id);
      }
    }

    method ExpectIgnored(d: Wd, lifetime: Lifetime)
      modifies this`retiredIgnoredLifetimes, this`exhaustedWatchDescriptors
      ensures View() == Registry.ExpectIgnored(old(View()), d, lifetime)
    {
      var ordered := true;
      if d in retiredIgnoredLifetimes {
        var lifetimes := retiredIgnoredLifetimes[d];
        if lifetime == lifetimes.last {
        } else if lifetimes.last < MAX_LIFETIME && lifetimes.last + 1 == lifetime {
          retiredIgnoredLifetimes := retiredIgnoredLifetimes[d := lifetimes.(last := lifetime)];
        } else {
          ordered := false;
        }
      } else {
        retiredIgnoredLifetimes := retiredIgnoredLifetimes[d := Lifetimes(lifetime, lifetime)];
      }
      if !ordered {
        exhaustedWatchDescriptors := exhaustedWatchDescriptors + {d};
      }
    }

    method RemoveNativeWatchLifetime(d: Wd, lifetime: Lifetime)
      modifies this`retiredIgnoredLifetimes, this`exhaustedWatchDescriptors, this`live, this`queue
      ensures View() == RemoveLifetime(old(View()), d, lifetime)
    {
      ExpectIgnored(d, lifetime);
      RmWatch(d);
    }

    method InsertInterest(id: Id, path: Path, d: Wd)
      requires d in watches && id in subscriptions
      modifies this`watches, this`subscriptions
      ensures View() == Registry.InsertInterest(old(View()), id, path, d)
    {
      watches := watches[d := watches[d].(interests := watches[d].interests + {Interest(id, path)})];
      subscriptions := subscriptions[id := subscriptions[id].(watched := subscriptions[id].watched[path := d])];
    }

    method RemoveInterest(id: Id, path: Path, d: Wd)
      modifies this
      ensures View() == Registry.RemoveInterest(old(View()), id, path, d)
    {
      if d in watches {
        var watch := watches[d].(interests := watches[d].interests - {Interest(id, path)});
        watches := watches[d := watch];
        if watch.interests == {} {
          watches := watches - {d};
          assert watches == old(watches) - {d};
          watchIdentities := watchIdentities - {watch.identity};
          RemoveNativeWatchLifetime(d, watch.lifetime);
        }
      }
    }

    /** The next lifetime of a descriptor the kernel has just given out, or none; in that case its watch is dropped. */
    method ClaimNewWatchLifetime(d: Wd) returns (lifetime: Option<Lifetime>)
      requires d in live && d !in watches
      modifies this
      ensures lifetime == if d in old(exhaustedWatchDescriptors) then None else NextLifetime(old(View()), d)
      ensures lifetime.Some? ==>
        View() == old(View()).(booked := old(booked)[d := Booked(old(View()), d) + [old(live)[d].serial]])
      ensures lifetime.None? ==>
        View() == RemoveWatch(old(View()).(exhausted := old(exhaustedWatchDescriptors) + {d}), d)
    {
      if d in exhaustedWatchDescriptors {
        assert exhaustedWatchDescriptors + {d} == exhaustedWatchDescriptors;
        RmWatch(d);
        return None;
      }
      if d !in retiredIgnoredLifetimes {
        lifetime := Some(1);
      } else if retiredIgnoredLifetimes[d].last == MAX_LIFETIME {
        exhaustedWatchDescriptors := exhaustedWatchDescriptors + {d};
        RmWatch(d);
        return None;
      } else {
        lifetime := Some(retiredIgnoredLifetimes[d].last + 1);
      }
      booked := booked[d := Booked(View(), d) + [live[d].serial]];
    }

    /** The part of adding an interest that follows a successful system call. */
    method RegisterAdded(id: Id, path: Path, identity: Identity, calls: Calls) returns (outcome: Outcome)
      requires id in subscriptions && calls.added.Some? && calls.added.value.1 in live
      modifies this
      ensures (View(), outcome) == Registry.RegisterAdded(old(View()), id, path, identity, calls)
    {
      var d := calls.added.value.1;
      var created := d !in watches;
      var lifetime: Option<Lifetime> := None;
      if created {
        lifetime := ClaimNewWatchLifetime(d);
        if lifetime.None? {
          MarkUncertain(id);
          assert d in old(exhaustedWatchDescriptors) ==>
            old(exhaustedWatchDescriptors) + {d} == old(exhaustedWatchDescriptors);
          return Failed;
        }
      } else if watches[d].identity != identity {
        exhaustedWatchDescriptors := exhaustedWatchDescriptors + {d};
        RmWatch(d);
        MarkUncertain(id);
        return Failed;
      }
      if calls.after != Some(identity) {
        if created {
          RemoveNativeWatchLifetime(d, lifetime.value);
        }
        MarkUncertain(id);
        return Failed;
      }
      MarkReusedDescriptorUncertain(id, d);
      if created {
        watches := watches[d := NativeWatch(lifetime.value, identity, {}, false)];
      }
      watchIdentities := watchIdentities[identity := d];
      InsertInterest(id, path, d);
      return Added;
    }

    method AddInterest(id: Id, path: Path, allowNew: bool, calls: Calls) returns (outcome: Outcome)
      requires id in subscriptions && CallsPossible(View(), calls)
      modifies this
      ensures (View(), outcome) == Registry.AddInterest(old(View()), id, path, allowNew, calls)
    {
      if calls.before.None? {
        return Failed;
      }
      var identity := calls.before.value;
      if identity in watchIdentities && watchIdentities[identity] in watches {
        if calls.after != Some(identity) {
          MarkUncertain(id);
          return Failed;
        }
        MarkReusedDescriptorUncertain(id, watchIdentities[identity]);
        InsertInterest(id, path, watchIdentities[identity]);
        return Added;
      }
      if !allowNew || (nativeWatchBudget.Some? && |watches| >= nativeWatchBudget.value) {
        return BudgetExhausted;
      }
      if calls.added.None? {
        return Failed;
      }
      InotifyAddWatch(calls.added.value.0, calls.added.value.1);
      outcome := RegisterAdded(id, path, identity, calls);
    }

    /** Takes the oldest retired lifetime of the descriptor, if there is one. */
    method ConsumeExpectedIgnored(d: Wd) returns (lifetime: Option<Lifetime>)
      modifies this`retiredIgnoredLifetimes
      ensures lifetime == if d in old(retiredIgnoredLifetimes) then Some(old(retiredIgnoredLifetimes)[d].first) else None
      ensures d in old(retiredIgnoredLifetimes) ==>
        View() == Registry.HandleIgnored(old(View()), d).(booked := old(booked))
      ensures d !in old(retiredIgnoredLifetimes) ==> View() == old(View())
    {
      if d !in retiredIgnoredLifetimes {
        return None;
      }
      var lifetimes := retiredIgnoredLifetimes[d];
      lifetime := Some(lifetimes.first);
      retiredIgnoredLifetimes := if lifetimes.first == lifetimes.last
        then retiredIgnoredLifetimes - {d}
        else retiredIgnoredLifetimes[d := lifetimes.(first := lifetimes.first + 1)];
    }

    method HandleIgnored(d: Wd)
      modifies this
      ensures View() == Registry.HandleIgnored(old(View()), d)
    {
      ghost var was := View();
      var retired := ConsumeExpectedIgnored(d);
      if retired.None? && d in watches {
        RemoveVanished(d);
      }
      if retired.Some? || d in was.watches {
        booked := if Booked(was, d) == [] then booked else booked[d := Booked(was, d)[1..]];
      }
    }

    method RemoveVanished(d: Wd)
      requires d in watches && d !in retiredIgnoredLifetimes
      modifies this
      ensures View() == Registry.HandleIgnored(old(View()), d).(booked := old(booked))
    {
      var watch := watches[d];
      watches := watches - {d};
      watchIdentities := map i | i in watchIdentities && watchIdentities[i] != d :: watchIdentities[i];
      Bereave(watch.interests, watch.expectsIgnored);
    }

    /** Visits the interests of a vanished watch one by one. */
    method Bereave(interests: set<Interest>, expected: bool)
      modifies this`subscriptions
      ensures subscriptions == BereavedAll(old(subscriptions), interests, expected)
    {
      var left := interests;
      ghost var done: set<Interest> := {};
      ghost var was := subscriptions;
      BereavedByNone(was, expected);
      while left != {}
        invariant done + left == interests
        invariant subscriptions == BereavedAll(was, done, expected)
        decreases |left|
      {
        var x :| x in left;
        left := left - {x};
        BereavedAllOnce(was, done, x, expected);
        if x.id in subscriptions && !subscriptions[x.id].disposing {
          var state := subscriptions[x.id];
          state := state.(watched := state.watched - {x.path});
          if x.path == [] || !expected {
            state := state.(uncertain := true);
          }
          subscriptions := subscriptions[x.id := state];
        }
        done := done + {x};
      }
      assert done == interests;
    }
  }
}
