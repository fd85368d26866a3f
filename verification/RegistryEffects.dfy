// What a subscription is told: when a watch ends under it, when records were lost, and
// when adding a watch left doubt. It is told exactly then, and watches exactly what it added.

module RegistryEffects {
  import opened Paths
  import opened Registry
  import opened RegistryAttribution
  import opened RegistryAgreement
  import opened RegistryIdentities

  // ----- records -----------------------------------------------------------

  /** The record ends the watch behind `p`: it is about its descriptor, which has no lifetime retired before. */
  predicate EndsPath(w: World, id: Id, p: Path)
    requires w.queue != [] && id in w.subs && p in w.subs[id].watched
  {
    w.queue[0].Ignored? && w.queue[0].wd == w.subs[id].watched[p] && w.queue[0].wd !in w.retired
  }

  /** Handling a record takes away exactly the paths whose watch it ends, and only from subscriptions not being disposed of. */
  lemma HandleLosesExactly(w: World, id: Id, p: Path)
    requires Agreed(w) && Enabled(w, Handle) && id in w.subs && !w.subs[id].disposing
    ensures var v := Next(w, Handle);
      && id in v.subs && !v.subs[id].disposing
      && (p in v.subs[id].watched <==> p in w.subs[id].watched && !EndsPath(w, id, p))
      && (p in v.subs[id].watched ==> v.subs[id].watched[p] == w.subs[id].watched[p])
  {
    if p in w.subs[id].watched { assert Backed(w, id, p); }
    var rest := w.(queue := w.queue[1..]);
    if w.queue[0].Ignored? { EndsExactly(rest, w.queue[0].wd, id); }
  }

  lemma EndsExactly(w: World, d: Wd, id: Id)
    requires Agreed(w) && id in w.subs && !w.subs[id].disposing
    ensures var v, s := HandleIgnored(w, d), w.subs[id];
      && id in v.subs && !v.subs[id].disposing
      && (forall p :: p in v.subs[id].watched <==> p in s.watched && !(s.watched[p] == d && d !in w.retired))
      && (forall p :: p in v.subs[id].watched ==> v.subs[id].watched[p] == s.watched[p])
  {
    forall p | p in w.subs[id].watched ensures Backed(w, id, p) {}
  }

  /** The watch of the path ends without an announcement, or it is the root. */
  predicate EndsBadly(w: World, id: Id, p: Path)
    requires w.queue != [] && id in w.subs && p in w.subs[id].watched
  {
    && EndsPath(w, id, p)
    && (p == [] || (w.subs[id].watched[p] in w.watches && !w.watches[w.subs[id].watched[p]].expectsIgnored))
  }

  /**
   * Handling a record makes a subscription uncertain exactly when records were lost, or the watch of its root or one whose
   * end was not announced ends under it. An announced end of another path raises nothing.
   */
  lemma HandleRaisesExactly(w: World, id: Id)
    requires Agreed(w) && Enabled(w, Handle) && id in w.subs && !w.subs[id].disposing
    ensures Next(w, Handle).subs[id].uncertain <==>
      w.subs[id].uncertain || w.queue[0].Overflow? || exists p :: p in w.subs[id].watched && EndsBadly(w, id, p)
  {
    if w.queue[0].Ignored? && w.queue[0].wd in w.watches && w.queue[0].wd !in w.retired {
      EndRaisesExactly(w, id, w.queue[0].wd);
    } else {
      NothingEnds(w, id);
    }
  }

  lemma NothingEnds(w: World, id: Id)
    requires Agreed(w) && w.queue != [] && id in w.subs && !w.subs[id].disposing
    requires !(w.queue[0].Ignored? && w.queue[0].wd in w.watches && w.queue[0].wd !in w.retired)
    ensures !exists p :: p in w.subs[id].watched && EndsBadly(w, id, p)
  {
    forall p | p in w.subs[id].watched ensures !EndsBadly(w, id, p) { assert Backed(w, id, p); }
  }

  lemma EndRaisesExactly(w: World, id: Id, d: Wd)
    requires Agreed(w) && w.queue != [] && id in w.subs && !w.subs[id].disposing
    requires w.queue[0].Ignored? && w.queue[0].wd == d && d in w.watches && d !in w.retired
    ensures Next(w, Handle).subs[id].uncertain <==>
      w.subs[id].uncertain || exists p :: p in w.subs[id].watched && EndsBadly(w, id, p)
  {
    var watch := w.watches[d];
    forall p | p in w.subs[id].watched && EndsBadly(w, id, p)
      ensures Interest(id, p) in watch.interests && (p == [] || !watch.expectsIgnored)
    {
      assert Backed(w, id, p);
    }
    forall x | x in watch.interests && x.id == id && (x.path == [] || !watch.expectsIgnored)
      ensures x.path in w.subs[id].watched && EndsBadly(w, id, x.path)
    {
    }
    if p :| p in w.subs[id].watched && EndsBadly(w, id, p) {
      assert Interest(id, p).id == id;
    }
  }

  /** Whoever is not being disposed of hears of lost records. */
  lemma OverflowReachesAll(w: World, id: Id)
    requires Enabled(w, Handle) && w.queue[0].Overflow? && id in w.subs
    ensures var v := Next(w, Handle);
      && id in v.subs && v.subs[id].watched == w.subs[id].watched
      && (v.subs[id].uncertain <==> w.subs[id].uncertain || !w.subs[id].disposing)
  {
  }

  /**
   * A path is lost only to a record that ends its watch, or at the subscription's own wish; and the subscription is
   * uncertain from then on if the path is its root or the end was not announced.
   */
  lemma LostPathIsUncertain(w: World, step: Step, id: Id, p: Path)
    requires Agreed(w) && Enabled(w, step) && id in w.subs && !w.subs[id].disposing && p in w.subs[id].watched
    requires step != Forget(id, p) && step != Dispose(id) && step != Release(id)
    requires id in Next(w, step).subs ==> p !in Next(w, step).subs[id].watched
    ensures step == Handle && EndsPath(w, id, p) && id in Next(w, step).subs
    ensures EndsBadly(w, id, p) ==> Next(w, step).subs[id].uncertain
  {
    if step.Handle? {
      HandleLosesExactly(w, id, p);
      HandleRaisesExactly(w, id);
    } else if step.Watch? {
      AddsExactly(w, step);
      assert false;
    } else if step.Forget? {
      assert step.id == id ==> step.path != p;
      ForgetsOnly(w, step.id, step.path);
      assert false;
    }
  }

  lemma ForgetsOnly(w: World, id: Id, p: Path)
    requires id in w.subs && p in w.subs[id].watched
    ensures var v := Next(w, Forget(id, p));
      v.subs == w.subs[id := w.subs[id].(watched := w.subs[id].watched - {p})]
  {
  }

  /** A lost record is replaced by one that tells of the loss, unless there is one still to come. */
  lemma LossIsTold(w: World, k: nat)
    requires Enabled(w, Miss(k))
    ensures var v := Next(w, Miss(k));
      Overflow in v.queue && v.lost == w.lost + [w.queue[k]] && v.subs == w.subs && v.watches == w.watches
  {
    var rest := w.queue[..k] + w.queue[k + 1..];
    if Overflow !in rest { assert (rest + [Overflow])[|rest|] == Overflow; }
  }

  // ----- adding a watch ----------------------------------------------------

  /** The subscription does not watch the path yet, has room for it, and finds a directory there. */
  predicate Attempts(w: World, step: Step)
    requires Enabled(w, step) && step.Watch?
  {
    var s := w.subs[step.id];
    step.path !in s.watched && (s.watchLimit.Some? ==> |s.watched| < s.watchLimit.value) && step.calls.before.Some?
  }

  /** A watch of its own is added in the kernel: none is shared, and the runtime has room. */
  predicate AddsOwn(w: World, step: Step)
    requires Enabled(w, step) && step.Watch?
  {
    && Attempts(w, step) && !Shared(w, step.calls.before.value)
    && step.allowNew && (w.budget.Some? ==> |w.watches| < w.budget.value) && step.calls.added.Some?
  }

  predicate Shares(w: World, step: Step)
    requires Enabled(w, step) && step.Watch?
  {
    Attempts(w, step) && Shared(w, step.calls.before.value)
  }

  /** The descriptor the kernel gave out belongs to no registered watch, is not set aside, and has a lifetime left. */
  predicate Claimable(w: World, d: Wd)
  {
    d !in w.watches && d !in w.exhausted && (d in w.retired ==> w.retired[d].last != MAX_LIFETIME)
  }

  predicate Succeeds(w: World, step: Step)
    requires Enabled(w, step) && step.Watch?
  {
    && (Shares(w, step) || (AddsOwn(w, step) && Claimable(w, step.calls.added.value.1)))
    && step.calls.after == step.calls.before
  }

  function DescriptorOf(w: World, step: Step): Wd
    requires Enabled(w, step) && step.Watch? && (Shares(w, step) || AddsOwn(w, step))
  {
    if Shares(w, step) then w.identities[step.calls.before.value] else step.calls.added.value.1
  }

  lemma SharesExactly(w: World, step: Step)
    requires Agreed(w) && Enabled(w, step) && step.Watch? && Shares(w, step)
    ensures WatchesTo(w, step, Next(w, step))
  {
    var d := w.identities[step.calls.before.value];
    if Succeeds(w, step) {
      assert Next(w, step) == InsertInterest(MarkReusedUncertain(w, step.id, d), step.id, step.path, d);
    } else {
      assert Next(w, step) == MarkUncertain(w, step.id);
    }
  }

  function AddedTo(w: World, step: Step): World
    requires Enabled(w, step) && step.Watch? && AddsOwn(w, step)
  {
    var calls := step.calls;
    RegisterAdded(AddWatch(w, calls.added.value.0, calls.added.value.1), step.id, step.path, calls.before.value, calls).0
  }

  lemma AddsOwnIs(w: World, step: Step)
    requires Enabled(w, step) && step.Watch? && AddsOwn(w, step)
    ensures Next(w, step) == AddedTo(w, step)
  {
  }

  lemma AttemptsNothing(w: World, step: Step)
    requires Enabled(w, step) && step.Watch? && !Shares(w, step) && !AddsOwn(w, step)
    ensures Next(w, step) == w
  {
  }

  lemma AddsOwnExactly(w: World, step: Step)
    requires Agreed(w) && Enabled(w, step) && step.Watch? && AddsOwn(w, step)
    ensures WatchesTo(w, step, AddedTo(w, step))
  {
    if Succeeds(w, step) { OwnSucceeds(w, step); } else { OwnRefused(w, step); }
  }

  lemma OwnSucceeds(w: World, step: Step)
    requires Enabled(w, step) && step.Watch? && AddsOwn(w, step) && Succeeds(w, step)
    ensures WatchesTo(w, step, AddedTo(w, step))
  {
    var calls := step.calls;
    var u := AddWatch(w, calls.added.value.0, calls.added.value.1);
    ClaimedEffect(u, step.id, step.path, calls);
    var v, d, s := AddedTo(w, step), calls.added.value.1, w.subs[step.id];
    SubscriptionKept(w, u, v, step.id, s.(watched := s.watched[step.path := d], uncertain := s.uncertain || d in w.retired));
  }

  lemma OwnRefused(w: World, step: Step)
    requires Agreed(w) && Enabled(w, step) && step.Watch? && AddsOwn(w, step) && !Succeeds(w, step)
    ensures WatchesTo(w, step, AddedTo(w, step))
  {
    var calls := step.calls;
    var u := AddWatch(w, calls.added.value.0, calls.added.value.1);
    RefusedEffect(u, step.id, step.path, calls);
    SubscriptionKept(w, u, AddedTo(w, step), step.id, w.subs[step.id].(uncertain := true));
  }

  lemma SubscriptionKept(w: World, u: World, v: World, id: Id, s: Subscription)
    requires id in w.subs && u.subs == w.subs && v.subs == u.subs[id := s]
    ensures v.subs.Keys == w.subs.Keys && v.subs[id] == s && forall i :: i in w.subs && i != id ==> v.subs[i] == w.subs[i]
  {
  }

  lemma ClaimedEffect(u: World, id: Id, path: Path, calls: Calls)
    requires id in u.subs && calls.added.Some? && calls.added.value.1 in u.live && calls.before.Some?
    requires Claimable(u, calls.added.value.1) && calls.after == calls.before
    ensures var v, d, s := RegisterAdded(u, id, path, calls.before.value, calls).0, calls.added.value.1, u.subs[id];
      && v.subs == u.subs[id := s.(watched := s.watched[path := d], uncertain := s.uncertain || d in u.retired)]
      && Registered(v, id, path, calls.before.value)
  {
  }

  lemma RefusedEffect(u: World, id: Id, path: Path, calls: Calls)
    requires id in u.subs && calls.added.Some? && calls.added.value.1 in u.live && calls.before.Some? && Indexed(u)
    requires !Shared(u, calls.before.value) && !(Claimable(u, calls.added.value.1) && calls.after == calls.before)
    ensures var v := RegisterAdded(u, id, path, calls.before.value, calls).0;
      && v.subs == u.subs[id := u.subs[id].(uncertain := true)] && v.watches == u.watches && v.identities == u.identities
  {
    RefusedDrops(u, id, path, calls.before.value, calls);
  }

  /** Only what `step` names changes for the subscriptions, and only as said. */
  predicate WatchesTo(w: World, step: Step, v: World)
    requires Enabled(w, step) && step.Watch?
  {
    && v.subs.Keys == w.subs.Keys && (forall i :: i in w.subs && i != step.id ==> v.subs[i] == w.subs[i])
    && v.subs[step.id].watched == (if Succeeds(w, step) then w.subs[step.id].watched[step.path := DescriptorOf(w, step)]
                                   else w.subs[step.id].watched)
    && (v.subs[step.id].uncertain <==>
         || w.subs[step.id].uncertain
         || ((Shares(w, step) || AddsOwn(w, step)) && (!Succeeds(w, step) || DescriptorOf(w, step) in w.retired)))
    && (if Succeeds(w, step) then Registered(v, step.id, step.path, step.calls.before.value)
        else v.watches == w.watches && v.identities == w.identities)
  }

  /** The path is watched through a registered watch for the directory found there. */
  predicate Registered(v: World, id: Id, path: Path, identity: Identity)
  {
    && id in v.subs && path in v.subs[id].watched && v.subs[id].watched[path] in v.watches
    && v.watches[v.subs[id].watched[path]].identity == identity
    && Interest(id, path) in v.watches[v.subs[id].watched[path]].interests
  }

  /**
   * A path comes to be watched exactly when the directory there is the same after the call as before, and its watch is
   * shared or the descriptor can be claimed. Otherwise nothing is registered. Doubt is raised exactly when such an attempt
   * failed after it had got as far as a watch, or when records of an older watch of the descriptor may be on their way.
   */
  lemma AddsExactly(w: World, step: Step)
    requires Agreed(w) && Enabled(w, step) && step.Watch?
    ensures WatchesTo(w, step, Next(w, step))
  {
    if Shares(w, step) {
      SharesExactly(w, step);
    } else if AddsOwn(w, step) {
      AddsOwnExactly(w, step);
      AddsOwnIs(w, step);
    } else {
      AttemptsNothing(w, step);
    }
  }

  // ----- giving up a path --------------------------------------------------

  /** A subscription that forgets a path tells nobody else, and its watch goes with its last interest. */
  lemma ForgetsExactly(w: World, id: Id, p: Path)
    requires Agreed(w) && Enabled(w, Forget(id, p)) && !w.subs[id].disposing
    ensures var v, d := Next(w, Forget(id, p)), w.subs[id].watched[p];
      && v.subs.Keys == w.subs.Keys && (forall i :: i in w.subs && i != id ==> v.subs[i] == w.subs[i])
      && v.subs[id] == w.subs[id].(watched := w.subs[id].watched - {p})
      && (d in v.watches <==> exists x :: x in w.watches[d].interests && x != Interest(id, p))
      && (d !in v.watches ==> d !in v.live && w.watches[d].identity !in v.identities && d in v.retired)
      && (forall e :: e != d ==> (e in v.watches <==> e in w.watches) && (e in v.live <==> e in w.live))
  {
    var d := w.subs[id].watched[p];
    assert Backed(w, id, p);
    var left := w.watches[d].interests - {Interest(id, p)};
    if x :| x in w.watches[d].interests && x != Interest(id, p) { assert x in left; }
    if left != {} { var x :| x in left; assert x in w.watches[d].interests && x != Interest(id, p); }
  }
}
