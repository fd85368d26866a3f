// Runs of the shared registry: attribution, agreement and limits hold throughout.

module RegistryTheorems {
  import opened Paths
  import opened Registry
  import opened RegistryAttribution
  import opened RegistryAgreement

  /** The ignored record of watch `s` on `d` is still to come after record `k`, unless that watch is live, or was lost. */
  ghost predicate EndsLater(w: World, k: nat, d: Wd, s: Serial)
  {
    || (d in w.live && w.live[d].serial == s)
    || (exists j :: k <= j < |w.queue| && w.queue[j] == Ignored(d, s))
    || Ignored(d, s) in w.lost
  }

  /** Record `k` is about watch `s`, or about an earlier one on the same descriptor. */
  ghost predicate Precedes(w: World, k: nat, s: Serial)
  {
    && k < |w.queue| && !w.queue[k].Overflow?
    && (s == w.queue[k].serial || (s > w.queue[k].serial && s in Booked(w, w.queue[k].wd)))
  }

  ghost predicate Recorded(w: World)
  {
    forall k: nat, s: Serial :: Precedes(w, k, s) ==> EndsLater(w, k, w.queue[k].wd, s)
  }

  ghost predicate Inv(w: World)
  {
    Attributed(w) && Agreed(w) && Limited(w) && Recorded(w)
  }

  /** The watch is still live in `v`, or its end was recorded on the way there. */
  ghost predicate Survives(w: World, v: World, d: Wd)
    requires d in w.live
  {
    || (d in v.live && v.live[d] == w.live[d])
    || exists j :: |w.queue| <= j < |v.queue| && v.queue[j] == Ignored(d, w.live[d].serial)
  }

  /** Watches are booked while they are live. */
  ghost predicate BookedLive(w: World, v: World)
  {
    forall d, s :: s in Booked(v, d) ==> s in Booked(w, d) || (d in v.live && v.live[d].serial == s)
  }

  lemma KeepsEnd(w: World, v: World, k: nat, d: Wd, s: Serial)
    requires EndsLater(w, k, d, s) && k <= |w.queue| <= |v.queue| && w.queue == v.queue[..|w.queue|] && v.lost == w.lost
    requires d in w.live ==> Survives(w, v, d)
    ensures EndsLater(v, k, d, s)
  {
    if j :| k <= j < |w.queue| && w.queue[j] == Ignored(d, s) {
      assert v.queue[j] == w.queue[j];
    }
  }

  /** A step that only adds records, or watches on free descriptors, keeps the order of records. */
  lemma GrowthRecorded(w: World, v: World)
    requires Recorded(w) && |w.queue| <= |v.queue| && w.queue == v.queue[..|w.queue|] && v.lost == w.lost && BookedLive(w, v)
    requires forall d :: d in w.live ==> Survives(w, v, d)
    requires forall k: nat, s: Serial :: |w.queue| <= k && Precedes(v, k, s) ==> EndsLater(v, k, v.queue[k].wd, s)
    ensures Recorded(v)
  {
    forall k: nat, s: Serial | Precedes(v, k, s) ensures EndsLater(v, k, v.queue[k].wd, s) {
      if k < |w.queue| {
        assert v.queue[k] == w.queue[k];
        var d := w.queue[k].wd;
        if s == w.queue[k].serial || s in Booked(w, d) {
          assert Precedes(w, k, s);
          KeepsEnd(w, v, k, d, s);
        }
      }
    }
  }

  /** The live watch of a descriptor is the last one booked, if it is booked at all. */
  ghost predicate Latest(w: World, d: Wd)
  {
    d in w.live ==> forall s :: s in Booked(w, d) ==> s <= w.live[d].serial
  }

  lemma LiveIsLatest(w: World, d: Wd)
    requires Attributed(w)
    ensures Latest(w, d)
  {
    assert Ok(RowOf(w, d), w.nextSerial);
  }

  lemma RemoveWatchRecorded(w: World, d: Wd)
    requires Recorded(w) && Latest(w, d)
    ensures Recorded(RemoveWatch(w, d))
  {
    var v := RemoveWatch(w, d);
    if d in w.live {
      assert v.queue[|w.queue|] == Ignored(d, w.live[d].serial);
      GrowthRecorded(w, v);
    }
  }

  lemma SameRecorded(w: World, v: World)
    requires Recorded(w) && v.queue == w.queue && v.lost == w.lost && BookedLive(w, v)
    requires forall d :: d in w.live ==> d in v.live && v.live[d] == w.live[d]
    ensures Recorded(v)
  {
    GrowthRecorded(w, v);
  }

  lemma PopRecorded(w: World, v: World)
    requires Recorded(w) && w.queue != [] && v.queue == w.queue[1..] && v.live == w.live && v.lost == w.lost
    requires forall d, s :: s in Booked(v, d) ==> s in Booked(w, d)
    ensures Recorded(v)
  {
    forall k: nat, s: Serial | Precedes(v, k, s) ensures EndsLater(v, k, v.queue[k].wd, s) {
      var d := v.queue[k].wd;
      assert v.queue[k] == w.queue[k + 1] && Precedes(w, k + 1, s) && EndsLater(w, k + 1, d, s);
      if j :| k + 1 <= j < |w.queue| && w.queue[j] == Ignored(d, s) {
        assert v.queue[j - 1] == w.queue[j];
      }
    }
  }

  lemma LoseRecorded(w: World, n: nat)
    requires Recorded(w) && n < |w.queue|
    ensures Recorded(Lose(w, n))
  {
    var v := Lose(w, n);
    forall k: nat, s: Serial | Precedes(v, k, s) ensures EndsLater(v, k, v.queue[k].wd, s) {
      var d, i := v.queue[k].wd, if k < n then k else k + 1;
      assert v.queue[k] == w.queue[i] && Precedes(w, i, s) && EndsLater(w, i, d, s);
      assert w.queue[n] in v.lost;
      if j :| i <= j < |w.queue| && w.queue[j] == Ignored(d, s) {
        assert j != n ==> v.queue[if j < n then j else j - 1] == w.queue[j];
      }
    }
  }

  lemma RemoveLifetimeRecorded(w: World, d: Wd, l: Lifetime)
    requires Recorded(w) && Latest(w, d)
    ensures Recorded(RemoveLifetime(w, d, l))
  {
    SameRecorded(w, ExpectIgnored(w, d, l));
    RemoveWatchRecorded(ExpectIgnored(w, d, l), d);
  }

  lemma UnwatchRecorded(w: World, id: Id, path: Path)
    requires Recorded(w) && Attributed(w) && id in w.subs && path in w.subs[id].watched
    ensures Recorded(Unwatch(w, id, path))
  {
    var d := w.subs[id].watched[path];
    LiveIsLatest(w, d);
    var u := w.(subs := w.subs[id := w.subs[id].(watched := w.subs[id].watched - {path})]);
    SameRecorded(w, u);
    if d in u.watches {
      var watch := u.watches[d].(interests := u.watches[d].interests - {Interest(id, path)});
      if watch.interests != {} {
        SameRecorded(u, u.(watches := u.watches[d := watch]));
      } else {
        var x := u.(watches := u.watches - {d}, identities := u.identities - {watch.identity});
        SameRecorded(u, x);
        RemoveLifetimeRecorded(x, d, watch.lifetime);
      }
    }
  }

  lemma RegisterRecorded(w: World, id: Id, path: Path, identity: Identity, calls: Calls)
    requires Recorded(w) && id in w.subs && calls.added.Some? && calls.added.value.1 in w.live
    requires Latest(w, calls.added.value.1)
    ensures Recorded(RegisterAdded(w, id, path, identity, calls).0)
  {
    var d := calls.added.value.1;
    var r := RegisterAdded(w, id, path, identity, calls);
    var x := w.(exhausted := w.exhausted + {d});
    RemoveWatchRecorded(w, d);
    SameRecorded(w, x);
    RemoveWatchRecorded(x, d);
    if d !in w.watches && d !in w.exhausted && NextLifetime(w, d).Some? {
      var b := w.(booked := w.booked[d := Booked(w, d) + [w.live[d].serial]]);
      SameRecorded(w, b);
      if calls.after != Some(identity) {
        RemoveLifetimeRecorded(b, d, NextLifetime(w, d).value);
        SameRecorded(RemoveLifetime(b, d, NextLifetime(w, d).value), r.0);
      } else {
        SameRecorded(b, r.0);
      }
    } else if r.1 == Added || (d in w.watches && w.watches[d].identity == identity) {
      SameRecorded(w, r.0);
    } else if d !in w.watches && d in w.exhausted {
      SameRecorded(RemoveWatch(w, d), r.0);
    } else {
      SameRecorded(RemoveWatch(x, d), r.0);
    }
  }

  lemma WatchRecorded(w: World, id: Id, path: Path, allowNew: bool, calls: Calls)
    requires Recorded(w) && Attributed(w) && id in w.subs && CallsPossible(w, calls)
    ensures Recorded(WatchDirectory(w, id, path, allowNew, calls).0)
  {
    var v := WatchDirectory(w, id, path, allowNew, calls).0;
    if calls.added.Some? && calls.before.Some? {
      AddedRecorded(w, id, path, calls);
    }
    if v.live == w.live && v.queue == w.queue && v.booked == w.booked && v.lost == w.lost { SameRecorded(w, v); }
  }

  lemma AddedRecorded(w: World, id: Id, path: Path, calls: Calls)
    requires Recorded(w) && Attributed(w) && id in w.subs && calls.added.Some? && calls.before.Some? && CallsPossible(w, calls)
    ensures Recorded(RegisterAdded(AddWatch(w, calls.added.value.0, calls.added.value.1), id, path, calls.before.value, calls).0)
  {
    var d := calls.added.value.1;
    var a := AddWatch(w, calls.added.value.0, d);
    LatestAdded(w, a, d);
    SameRecorded(w, a);
    RegisterRecorded(a, id, path, calls.before.value, calls);
  }

  lemma LatestAdded(w: World, a: World, d: Wd)
    requires Attributed(w) && a == w.(live := a.live, nextSerial := a.nextSerial) && d in a.live
    requires if d in w.live then a.live == w.live else a.live[d].serial == w.nextSerial
    ensures Latest(a, d)
  {
    LiveIsLatest(w, d);
    assert Ok(RowOf(w, d), w.nextSerial);
    assert Booked(a, d) == Booked(w, d) == RowOf(w, d).booked;
  }

  // ----- every step and every run ------------------------------------------

  lemma WatchAttributes(w: World, id: Id, path: Path, allowNew: bool, calls: Calls)
    requires Attributed(w) && Agreed(w) && id in w.subs && CallsPossible(w, calls)
    ensures Attributed(WatchDirectory(w, id, path, allowNew, calls).0)
  {
    var v := WatchDirectory(w, id, path, allowNew, calls).0;
    if v != w {
      var identity := calls.before.value;
      if identity in w.identities {
        var d := w.identities[identity];
        MarkingRows(w, id, d);
        SameRowsOk(w, MarkUncertain(w, id));
        SameRowsOk(w, MarkReusedUncertain(w, id, d));
        if calls.after == Some(identity) {
          InsertInterestRows(MarkReusedUncertain(w, id, d), id, path, d);
          SameRowsOk(MarkReusedUncertain(w, id, d), v);
        }
      } else {
        RegisterAttributes(w, id, path, identity, calls);
      }
    }
  }

  lemma UnbookedOnly(w: World, d: Wd)
    ensures forall e, s :: s in Booked(HandleIgnored(w, d), e) ==> s in Booked(w, e)
  {
    if Booked(w, d) != [] {
      assert forall s :: s in Booked(w, d)[1..] ==> s in Booked(w, d);
    }
  }

  lemma HandleRecorded(w: World)
    requires Recorded(w) && w.queue != []
    ensures Recorded(Next(w, Handle))
  {
    var u := w.(queue := w.queue[1..]);
    if w.queue[0].Ignored? { UnbookedOnly(u, w.queue[0].wd); }
    PopRecorded(w, Next(w, Handle));
  }

  lemma EmitAttributes(w: World, d: Wd)
    requires Attributed(w) && d in w.live
    ensures Attributed(Next(w, Emit(d)))
  {
    var v := Next(w, Emit(d));
    forall e ensures RowOf(v, e) == RowOf(w, e) {
      IgnoredOfAppend(w.queue, Other(d, w.live[d].serial), e);
    }
    SameRowsOk(w, v);
  }

  lemma DropAttributes(w: World, d: Wd)
    requires Attributed(w) && d in w.live
    ensures Attributed(RemoveWatch(w, d))
  {
    RemoveWatchRows(w, d);
    assert Ok(RowOf(w, d), w.nextSerial);
    DroppedOk(RowOf(w, d), w.nextSerial);
    OnlyHere(w, RemoveWatch(w, d), d);
  }

  lemma ForgetAttributes(w: World, id: Id, path: Path)
    requires Attributed(w) && id in w.subs && path in w.subs[id].watched
    ensures Attributed(Unwatch(w, id, path))
  {
    var u := w.(subs := w.subs[id := w.subs[id].(watched := w.subs[id].watched - {path})]);
    SameRowsOk(w, u);
    RemoveInterestAttributes(u, id, path, w.subs[id].watched[path]);
  }

  lemma AnnounceAttributes(w: World, d: Wd)
    requires Attributed(w) && d in w.watches
    ensures Attributed(Next(w, Announce(d)))
  {
    assert SameRows(w, Next(w, Announce(d)));
    SameRowsOk(w, Next(w, Announce(d)));
  }

  lemma SubscriptionsAttribute(w: World, v: World)
    requires Attributed(w) && v == w.(subs := v.subs)
    ensures Attributed(v)
  {
    assert SameRows(w, v);
    SameRowsOk(w, v);
  }

  lemma NextAttributes(w: World, step: Step)
    requires Attributed(w) && Agreed(w) && Enabled(w, step)
    ensures Attributed(Next(w, step))
  {
    match step {
      case Emit(d) => EmitAttributes(w, d);
      case Drop(d) => DropAttributes(w, d);
      case Miss(k) => LoseAttributes(w, k);
      case Handle => HandleAttributes(w);
      case Watch(id, path, allowNew, calls) => WatchAttributes(w, id, path, allowNew, calls);
      case Forget(id, path) => ForgetAttributes(w, id, path);
      case Announce(d) => AnnounceAttributes(w, d);
      case Subscribe(_, _) => SubscriptionsAttribute(w, Next(w, step));
      case Dispose(_) => SubscriptionsAttribute(w, Next(w, step));
      case Release(_) => SubscriptionsAttribute(w, Next(w, step));
    }
  }

  lemma NextRecorded(w: World, step: Step)
    requires Recorded(w) && Attributed(w) && Enabled(w, step)
    ensures Recorded(Next(w, step))
  {
    match step {
      case Emit(d) =>
        LiveIsLatest(w, d);
        GrowthRecorded(w, Next(w, step));
      case Drop(d) =>
        LiveIsLatest(w, d);
        RemoveWatchRecorded(w, d);
      case Miss(k) => LoseRecorded(w, k);
      case Handle => HandleRecorded(w);
      case Watch(id, path, allowNew, calls) => WatchRecorded(w, id, path, allowNew, calls);
      case Forget(id, path) => UnwatchRecorded(w, id, path);
      case _ => SameRecorded(w, Next(w, step));
    }
  }

  lemma NextAgrees(w: World, step: Step)
    requires Inv(w) && Enabled(w, step)
    ensures Agreed(Next(w, step)) && Limited(Next(w, step))
  {
    match step {
      case Handle => HandleAgrees(w);
      case Watch(id, path, allowNew, calls) =>
        WatchAgrees(w, id, path, allowNew, calls);
        WatchLimited(w, id, path, allowNew, calls);
      case Forget(id, path) =>
        UnwatchAgrees(w, id, path);
        UnwatchLimited(w, id, path);
      case Emit(d) => MarkedAgrees(w, Next(w, step));
      case Drop(d) => MarkedAgrees(w, Next(w, step));
      case Miss(k) => MarkedAgrees(w, Next(w, step));
      case Announce(d) => AnnounceAgrees(w, d);
      case Subscribe(id, limit) => SubscribeAgrees(w, step);
      case Dispose(id) => DisposeAgrees(w, id);
      case Release(id) => ReleaseAgrees(w, id);
    }
  }

  lemma HandleAgrees(w: World)
    requires Agreed(w) && Limited(w) && w.queue != []
    ensures Agreed(Next(w, Handle)) && Limited(Next(w, Handle))
  {
    var rest := w.(queue := w.queue[1..]);
    MarkedAgrees(w, rest);
    if w.queue[0].Ignored? {
      HandleIgnoredAgrees(rest, w.queue[0].wd);
      HandleIgnoredLimited(rest, w.queue[0].wd);
    } else {
      assert Next(w, Handle) == rest || Next(w, Handle) == HandleOverflow(rest);
      OverflowAgrees(rest);
    }
  }

  lemma OverflowAgrees(w: World)
    requires Agreed(w) && Limited(w)
    ensures Agreed(HandleOverflow(w)) && Limited(HandleOverflow(w))
  {
    MarkedAgrees(w, HandleOverflow(w));
  }

  lemma AnnounceAgrees(w: World, d: Wd)
    requires Agreed(w) && Limited(w) && d in w.watches
    ensures Agreed(Next(w, Announce(d))) && Limited(Next(w, Announce(d)))
  {
    var v := Next(w, Announce(d));
    OneMore(w.watches, d, v.watches[d]);
    forall i, p | i in v.subs && !v.subs[i].disposing && p in v.subs[i].watched ensures Backed(v, i, p) {
      assert Backed(w, i, p);
    }
  }

  lemma SubscribeAgrees(w: World, step: Step)
    requires Agreed(w) && Limited(w) && step.Subscribe? && Enabled(w, step)
    ensures Agreed(Next(w, step)) && Limited(Next(w, step))
  {
    var v := Next(w, step);
    forall i, p | i in v.subs && !v.subs[i].disposing && p in v.subs[i].watched ensures Backed(v, i, p) {
      assert Backed(w, i, p);
    }
    assert v.subs[step.id].watched == map[];
  }

  lemma DisposeAgrees(w: World, id: Id)
    requires Agreed(w) && Limited(w) && id in w.subs
    ensures Agreed(Next(w, Dispose(id))) && Limited(Next(w, Dispose(id)))
  {
    var v := Next(w, Dispose(id));
    assert InterestsHeld(v);
    forall i, p | i in v.subs && !v.subs[i].disposing && p in v.subs[i].watched ensures Backed(v, i, p) {
      assert Backed(w, i, p);
    }
  }

  /** A released subscription has nothing left to watch, so no interest names it. */
  lemma ReleasedLeavesNoInterest(w: World, id: Id)
    requires Agreed(w) && Enabled(w, Release(id))
    ensures forall d, x :: d in w.watches && x in w.watches[d].interests ==> x.id != id
  {
  }

  lemma ReleaseAgrees(w: World, id: Id)
    requires Agreed(w) && Limited(w) && Enabled(w, Release(id))
    ensures Agreed(Next(w, Release(id))) && Limited(Next(w, Release(id)))
  {
    var v := Next(w, Release(id));
    ReleasedLeavesNoInterest(w, id);
    forall d, x | d in v.watches && x in v.watches[d].interests
      ensures x.id in v.subs && x.path in v.subs[x.id].watched && v.subs[x.id].watched[x.path] == d
    {
      assert d in w.watches && x in w.watches[d].interests;
    }
    forall i, p | i in v.subs && !v.subs[i].disposing && p in v.subs[i].watched ensures Backed(v, i, p) {
      assert Backed(w, i, p);
    }
  }

  ghost predicate Run(states: seq<World>, steps: seq<Step>)
  {
    && |states| == |steps| + 1
    && Start(states[0])
    && forall k :: 0 <= k < |steps| ==> Enabled(states[k], steps[k]) && states[k + 1] == Next(states[k], steps[k])
  }

  ghost predicate Start(w: World)
  {
    && w.live == map[] && w.queue == [] && w.watches == map[] && w.identities == map[]
    && w.retired == map[] && w.exhausted == {} && w.subs == map[] && w.booked == map[] && w.lost == []
  }

  /** Attribution, agreement and limits in every state of every run. */
  lemma {:induction false} RegistryHolds(states: seq<World>, steps: seq<Step>, k: nat)
    requires Run(states, steps) && k < |states|
    ensures Inv(states[k])
    decreases k
  {
    if k > 0 {
      RegistryHolds(states, steps, k - 1);
      NextAttributes(states[k - 1], steps[k - 1]);
      NextAgrees(states[k - 1], steps[k - 1]);
      NextRecorded(states[k - 1], steps[k - 1]);
    } else {
      StartHolds(states[0]);
    }
  }

  lemma StartHolds(w: World)
    requires Start(w)
    ensures Inv(w)
  {
    assert forall d :: RowOf(w, d) == Row(None, [], None, None, false, [], []);
  }

  // ----- what the invariants mean ------------------------------------------

  /** Serial `s` is that of the kernel watch the registered descriptor was admitted for. */
  predicate IsOwn(w: World, d: Wd, s: Serial)
  {
    d in w.watches && Booked(w, d) != [] && s == Booked(w, d)[|Booked(w, d)| - 1]
  }

  /** Ignored records of the descriptor that never reached the worker. */
  ghost predicate MissedIgnored(w: World, d: Wd)
  {
    exists r :: r in w.lost && r.Ignored? && r.wd == d
  }

  lemma {:induction false} MissedIsRow(records: seq<Record>, d: Wd)
    ensures IgnoredOf(records, d) == [] <==> !exists r :: r in records && r.Ignored? && r.wd == d
    decreases |records|
  {
    if records != [] {
      MissedIsRow(records[1..], d);
      assert forall r :: r in records <==> r == records[0] || r in records[1..];
    }
  }

  /**
   * An ignored record removes a registered watch if and only if the record is that watch's own and no ignored record of
   * the descriptor was ever lost. Whatever is lost, the watch removed is no longer live, and none of another descriptor
   * goes. A quarantined descriptor, which is never registered again, is the exception to the exact condition.
   */
  lemma IgnoredEndsItsOwnWatch(states: seq<World>, steps: seq<Step>, k: nat)
    requires Run(states, steps) && k < |steps| && steps[k] == Handle && states[k].queue[0].Ignored?
    ensures var w, v, d := states[k], states[k + 1], states[k].queue[0].wd;
      && (d in w.watches && !(d in w.exhausted && MissedIgnored(w, d)) ==>
           (d !in v.watches <==> IsOwn(w, d, w.queue[0].serial) && !MissedIgnored(w, d)))
      && (d in w.watches && d !in v.watches ==> d !in w.live)
      && (forall e :: e != d ==> (e in v.watches <==> e in w.watches))
  {
    RegistryHolds(states, steps, k);
    var w, v, d := states[k], states[k + 1], states[k].queue[0].wd;
    HandleRows(w);
    MissedIsRow(w.lost, d);
    assert Ok(RowOf(w, d), w.nextSerial);
    ConsumesItsOwn(RowOf(w, d), w.nextSerial);
    assert forall e :: e in v.watches <==> RowOf(v, e).lifetime.Some?;
    assert forall e :: e in w.watches <==> RowOf(w, e).lifetime.Some?;
  }

  lemma {:induction false} IgnoredIsIn(records: seq<Record>, r: Record)
    requires r in records && r.Ignored?
    ensures r.serial in IgnoredOf(records, r.wd)
    decreases |records|
  {
    if r != records[0] {
      assert r in records[1..];
      IgnoredIsIn(records[1..], r);
    }
  }

  /** A record about an earlier watch on the descriptor is still queued. */
  ghost predicate StaleRecord(w: World, k: nat, d: Wd)
  {
    && k < |w.queue| && !w.queue[k].Overflow? && w.queue[k].wd == d
    && d in w.watches && d !in w.exhausted && !IsOwn(w, d, w.queue[k].serial)
  }

  /**
   * While records of an earlier watch on the same descriptor are queued, a path gained on it is uncertain, even if the
   * ignored record of that watch was lost.
   */
  lemma ReusedDescriptorIsUncertain(w: World, v: World, id: Id, path: Path, allowNew: bool, calls: Calls, k: nat)
    requires Inv(w) && Enabled(w, Watch(id, path, allowNew, calls)) && path !in w.subs[id].watched
    requires v == Next(w, Watch(id, path, allowNew, calls))
    requires id in v.subs && path in v.subs[id].watched && StaleRecord(v, k, v.subs[id].watched[path])
    ensures v.subs[id].uncertain
  {
    NextAttributes(w, Watch(id, path, allowNew, calls));
    NextRecorded(w, Watch(id, path, allowNew, calls));
    StaleRecordIsRetired(v, k);
    var x, d, watch := WatchShape(w, id, path, allowNew, calls);
  }

  lemma EndIsWaitedFor(w: World, k: nat, d: Wd, s: Serial)
    requires EndsLater(w, k, d, s) && !(d in w.live && w.live[d].serial == s)
    ensures s in RowOf(w, d).pending || s in RowOf(w, d).missed
  {
    if Ignored(d, s) in w.lost {
      IgnoredIsIn(w.lost, Ignored(d, s));
    } else {
      IgnoredIsIn(w.queue, Ignored(d, s));
    }
  }

  /** A row that waits for the record of a watch other than the registered one has lifetimes outstanding. */
  lemma WaitingIsRetired(r: Row, next: Serial, s: Serial)
    requires Ok(r, next) && r.lifetime.Some? && !r.quarantined
    requires (s in r.pending || s in r.missed) && s != r.booked[|r.booked| - 1]
    requires r.live.None? ==> r.booked[|r.booked| - 1] in r.pending || r.booked[|r.booked| - 1] in r.missed
    ensures r.retired.Some?
  {
  }

  /** A queued record of another watch than the registered one means that lifetimes are still outstanding. */
  lemma StaleRecordIsRetired(v: World, k: nat)
    requires Attributed(v) && Recorded(v) && k < |v.queue| && !v.queue[k].Overflow? && StaleRecord(v, k, v.queue[k].wd)
    ensures v.queue[k].wd in v.retired
  {
    var d, s := v.queue[k].wd, v.queue[k].serial;
    var row := RowOf(v, d);
    assert Ok(row, v.nextSerial);
    var own := row.booked[|row.booked| - 1];
    assert Precedes(v, k, s);
    EndIsWaitedFor(v, k, d, s);
    assert s < own;
    assert Precedes(v, k, own);
    if row.live.None? {
      EndIsWaitedFor(v, k, d, own);
    }
    WaitingIsRetired(row, v.nextSerial, s);
  }
}
