// Attribution needs every ignored record: one lost in a queue overflow shifts the
// later ones of its descriptor by a lifetime, for good.

module RegistryLoss {
  import opened Paths
  import opened Registry
  import opened RegistryAttribution
  import opened RegistryTheorems

  // ----- what a loss costs -------------------------------------------------

  /** The worker handles all that is queued. */
  function Drained(w: World): World
    decreases |w.queue|
  {
    if w.queue == [] then w else Drained(Next(w, Handle))
  }

  lemma HandleNeverRegisters(w: World, d: Wd)
    requires w.queue != []
    ensures d in Next(w, Handle).watches ==> d in w.watches
    ensures Next(w, Handle).lost == w.lost && Next(w, Handle).live == w.live && Next(w, Handle).exhausted == w.exhausted
  {
  }

  lemma {:induction false} DrainedNeverRegisters(w: World, d: Wd)
    ensures d in Drained(w).watches ==> d in w.watches
    decreases |w.queue|
  {
    if w.queue != [] {
      HandleNeverRegisters(w, d);
      DrainedNeverRegisters(Next(w, Handle), d);
    }
  }

  /** One record less of a watch that is not live: it stays registered unless that was the last one and none was lost. */
  lemma HandleRegistered(w: World, d: Wd)
    requires Attributed(w) && w.queue != [] && d in w.watches && d !in w.live && d !in w.exhausted
    ensures d !in Next(w, Handle).watches ==> !MissedIgnored(w, d)
  {
    var v := Next(w, Handle);
    if w.queue[0].Ignored? {
      HandleRows(w);
      var e := w.queue[0].wd;
      assert Ok(RowOf(w, e), w.nextSerial);
      ConsumesItsOwn(RowOf(w, e), w.nextSerial);
      MissedIsRow(w.lost, d);
      assert d in v.watches <==> RowOf(v, d).lifetime.Some?;
      assert RowOf(w, d).lifetime.Some?;
    }
  }

  /**
   * A registered watch the kernel has dropped outlives the handling of everything queued, and so is left dead, if and
   * only if an ignored record of its descriptor was ever lost.
   */
  lemma {:induction false} DeadExactlyAfterLoss(w: World, d: Wd)
    requires Attributed(w) && d in w.watches && d !in w.live && d !in w.exhausted
    ensures d in Drained(w).watches <==> MissedIgnored(w, d)
    decreases |w.queue|
  {
    assert Ok(RowOf(w, d), w.nextSerial);
    if w.queue == [] {
      MissedIsRow(w.lost, d);
    } else {
      HandleAttributes(w);
      HandleNeverRegisters(w, d);
      HandleRegistered(w, d);
      if d in Next(w, Handle).watches {
        DeadExactlyAfterLoss(Next(w, Handle), d);
      } else {
        DrainedNeverRegisters(Next(w, Handle), d);
      }
    }
  }

  /**
   * The fate of a watch that is still live, in every state of every run: once the kernel drops it, it is left dead if
   * and only if an ignored record of its descriptor was lost, and then a lifetime is still retired. With nothing queued
   * the retired lifetime alone tells.
   */
  lemma LossAwaitsTheLiveWatch(states: seq<World>, steps: seq<Step>, k: nat, d: Wd)
    requires Run(states, steps) && k < |states| && d in states[k].watches && d in states[k].live
    ensures var w := states[k];
      && (d in Drained(Next(w, Drop(d))).watches <==> MissedIgnored(w, d))
      && (MissedIgnored(w, d) ==> d in w.retired)
      && (w.queue == [] ==> (MissedIgnored(w, d) <==> d in w.retired))
  {
    RegistryHolds(states, steps, k);
    var w := states[k];
    assert Ok(RowOf(w, d), w.nextSerial);
    MissedIsRow(w.lost, d);
    DropAttributes(w, d);
    DeadExactlyAfterLoss(Next(w, Drop(d)), d);
  }

  /** Registered, gone from the kernel, and no record is queued that could end it. */
  ghost predicate DeadWatch(w: World, d: Wd)
  {
    d in w.watches && d !in w.live && w.queue == []
  }

  /** A dead watch has lost a record of its descriptor, in every run, and no watch of such a descriptor is ever ended. */
  lemma DeadWatchHasLost(states: seq<World>, steps: seq<Step>, k: nat, d: Wd)
    requires Run(states, steps) && k < |states| && d !in states[k].exhausted
    ensures DeadWatch(states[k], d) ==> MissedIgnored(states[k], d)
    ensures MissedIgnored(states[k], d) && d in states[k].watches ==> d in Drained(states[k]).watches
  {
    RegistryHolds(states, steps, k);
    if d in states[k].watches {
      if d !in states[k].live {
        DeadExactlyAfterLoss(states[k], d);
      } else {
        DrainedKeepsLive(states[k], d);
      }
    }
  }

  lemma RowTells(w: World, d: Wd)
    ensures (RowOf(w, d).lifetime.Some? <==> d in w.watches) && (RowOf(w, d).live.Some? <==> d in w.live)
  {
  }

  lemma HandleKeepsLive(w: World, d: Wd)
    requires Attributed(w) && w.queue != [] && d in w.watches && d in w.live
    ensures d in Next(w, Handle).watches
  {
    if w.queue[0].Ignored? {
      HandleRows(w);
      var e := w.queue[0].wd;
      assert Ok(RowOf(w, e), w.nextSerial);
      ConsumesItsOwn(RowOf(w, e), w.nextSerial);
      RowTells(w, d);
      RowTells(Next(w, Handle), d);
    }
  }

  lemma {:induction false} DrainedKeepsLive(w: World, d: Wd)
    requires Attributed(w) && d in w.watches && d in w.live
    ensures d in Drained(w).watches
    decreases |w.queue|
  {
    if w.queue != [] {
      HandleAttributes(w);
      HandleNeverRegisters(w, d);
      HandleKeepsLive(w, d);
      DrainedKeepsLive(Next(w, Handle), d);
    }
  }

  // ----- a run that leaves a dead watch ------------------------------------

  const A: Path := ["a"]
  const B: Path := ["b"]
  const Kernel0: map<Wd, KernelWatch> := map[]
  const Retired1: map<Wd, Lifetimes> := map[0 := Lifetimes(1, 1)]
  const Holding: map<Path, Wd> := map[]

  const Empty: World := World(Kernel0, [], 0, map[], map[], map[], {}, None, map[], map[], [])
  const Subscribed: World := Empty.(subs := map[1 := Subscription(Holding, false, None, false)])
  /** Directory `a`, inode 7, watched through descriptor 0. */
  const Watching: World :=
    Subscribed.(live := map[0 := KernelWatch(7, 0)], nextSerial := 1,
                watches := map[0 := NativeWatch(1, 7, {Interest(1, A)}, false)], identities := map[7 := 0],
                subs := map[1 := Subscription(map[A := 0], false, None, false)], booked := map[0 := [0]])
  const Forgotten: World :=
    Subscribed.(queue := [Ignored(0, 0)], nextSerial := 1, retired := Retired1, booked := map[0 := [0]])
  const Overfull: World := Forgotten.(queue := [Overflow], lost := [Ignored(0, 0)])
  const Lost: World := Overfull.(queue := [], subs := map[1 := Subscription(Holding, true, None, false)])
  /** Directory `b`, inode 8, on the same descriptor. */
  const Reused: World :=
    Lost.(live := map[0 := KernelWatch(8, 1)], nextSerial := 2,
          watches := map[0 := NativeWatch(2, 8, {Interest(1, B)}, false)], identities := map[8 := 0],
          subs := map[1 := Subscription(map[B := 0], true, None, false)], booked := map[0 := [0, 1]])
  const Gone: World := Reused.(live := Kernel0, queue := [Ignored(0, 1)])
  const Mistaken: World := Gone.(queue := [], retired := map[], booked := map[0 := [1]])

  const WatchA: Step := Watch(1, A, true, Calls(Some(7), Some((7, 0)), Some(7)))
  const WatchB: Step := Watch(1, B, true, Calls(Some(8), Some((8, 0)), Some(8)))

  ghost predicate Goes(w: World, step: Step, v: World)
  {
    Enabled(w, step) && Next(w, step) == v
  }

  ghost predicate Reachable(w: World)
  {
    exists states, steps :: Run(states, steps) && states[|states| - 1] == w
  }

  lemma Onward(w: World, step: Step, v: World)
    requires Reachable(w) && Goes(w, step, v)
    ensures Reachable(v)
  {
    var states, steps :| Run(states, steps) && states[|states| - 1] == w;
    RunOn(states, steps, step, v);
  }

  lemma RunOn(states: seq<World>, steps: seq<Step>, step: Step, v: World)
    requires Run(states, steps) && Enabled(states[|steps|], step) && v == Next(states[|steps|], step)
    ensures Run(states + [v], steps + [step])
  {
    var more, all := states + [v], steps + [step];
    forall k | 0 <= k < |all| ensures Enabled(more[k], all[k]) && more[k + 1] == Next(more[k], all[k]) {
      if k < |steps| {
        assert more[k] == states[k] && more[k + 1] == states[k + 1] && all[k] == steps[k];
      }
    }
  }

  lemma WatchingIsReachable()
    ensures Reachable(Watching)
  {
    assert Run([Empty], []);
    SubscribeGoes();
    Onward(Empty, Subscribe(1, None), Subscribed);
    WatchAGoes();
    Onward(Subscribed, WatchA, Watching);
  }

  lemma SubscribeGoes() ensures Goes(Empty, Subscribe(1, None), Subscribed) {}

  lemma WatchAGoes() ensures Goes(Subscribed, WatchA, Watching)
  {
    assert A !in Holding;
    var added := AddWatch(Subscribed, 7, 0);
    assert added == Subscribed.(live := map[0 := KernelWatch(7, 0)], nextSerial := 1);
    assert Booked(added, 0) + [0] == [0];
    var empty: set<Interest> := {};
    assert empty + {Interest(1, A)} == {Interest(1, A)};
  }

  lemma ForgetAGoes() ensures Goes(Watching, Forget(1, A), Forgotten)
  {
    assert map[A := 0] - {A} == Holding;
    assert {Interest(1, A)} - {Interest(1, A)} == {};
    assert Watching.watches - {0} == map[];
    assert Watching.identities - {7} == map[];
    assert Watching.live - {0} == Kernel0;
    assert [] + [Ignored(0, 0)] == [Ignored(0, 0)];
  }

  lemma OverfullGoes() ensures Goes(Forgotten, Miss(0), Overfull)
  {
    assert Forgotten.queue[..0] + Forgotten.queue[1..] == [];
    assert [] + [Overflow] == [Overflow];
    assert [] + [Ignored(0, 0)] == [Ignored(0, 0)];
  }

  lemma LostGoes() ensures Goes(Overfull, Handle, Lost)
  {
    assert Overfull.queue[1..] == [];
  }

  lemma WatchBGoes() ensures Goes(Lost, WatchB, Reused)
  {
    assert B !in Holding;
    var added := AddWatch(Lost, 8, 0);
    assert added == Lost.(live := map[0 := KernelWatch(8, 1)], nextSerial := 2);
    assert NextLifetime(added, 0) == Some(2);
    assert Booked(added, 0) + [1] == [0, 1];
    var empty: set<Interest> := {};
    assert empty + {Interest(1, B)} == {Interest(1, B)};
  }

  lemma DropGoes() ensures Goes(Reused, Drop(0), Gone)
  {
    assert Reused.live - {0} == Kernel0;
    assert [] + [Ignored(0, 1)] == [Ignored(0, 1)];
  }

  lemma HandleGoes() ensures Goes(Gone, Handle, Mistaken)
  {
    assert Gone.queue[1..] == [];
    assert Booked(Gone, 0)[1..] == [1];
    assert Gone.retired - {0} == map[];
  }

  /**
   * After an overflow loses the record of the first watch, the record of the second is taken for it: the registry
   * keeps a watch the kernel no longer has.
   */
  lemma LostRecordLeavesADeadWatch()
    ensures Reachable(Mistaken) && DeadWatch(Mistaken, 0)
  {
    WatchingIsReachable();
    ForgetAGoes();
    Onward(Watching, Forget(1, A), Forgotten);
    OverfullGoes();
    Onward(Forgotten, Miss(0), Overfull);
    LostGoes();
    Onward(Overfull, Handle, Lost);
    WatchBGoes();
    Onward(Lost, WatchB, Reused);
    DropGoes();
    Onward(Reused, Drop(0), Gone);
    HandleGoes();
    Onward(Gone, Handle, Mistaken);
  }

  // ----- the exception: a quarantined descriptor ---------------------------

  const Dropped: World := Watching.(live := Kernel0, queue := [Ignored(0, 0)])
  const Missed: World := Dropped.(queue := [Overflow], lost := [Ignored(0, 0)])
  const Told: World := Missed.(queue := [], subs := map[1 := Subscription(map[A := 0], true, None, false)])
  /** The kernel gave out the same descriptor for `b`; that collides, and the watch on `b` is removed again. */
  const Collided: World := Told.(nextSerial := 2, exhausted := {0}, queue := [Ignored(0, 1)])
  const Ended: World :=
    Collided.(queue := [], watches := map[], identities := map[], booked := map[0 := []],
              subs := map[1 := Subscription(Holding, true, None, false)])

  lemma DroppedGoes() ensures Goes(Watching, Drop(0), Dropped)
  {
    assert Watching.live - {0} == Kernel0;
    assert [] + [Ignored(0, 0)] == [Ignored(0, 0)];
  }

  lemma MissedGoes() ensures Goes(Dropped, Miss(0), Missed)
  {
    assert Dropped.queue[..0] + Dropped.queue[1..] == [];
    assert [] + [Overflow] == [Overflow];
    assert [] + [Ignored(0, 0)] == [Ignored(0, 0)];
  }

  lemma ToldGoes() ensures Goes(Missed, Handle, Told)
  {
    assert Missed.queue[1..] == [];
  }

  lemma CollidedGoes() ensures Goes(Told, WatchB, Collided)
  {
    assert B !in map[A := 0];
    var added := AddWatch(Told, 8, 0);
    assert added == Told.(live := map[0 := KernelWatch(8, 1)], nextSerial := 2);
    CollisionRejected(added);
  }

  lemma CollisionRejected(added: World)
    requires added == Told.(live := map[0 := KernelWatch(8, 1)], nextSerial := 2)
    ensures RegisterAdded(added, 1, B, 8, Calls(Some(8), Some((8, 0)), Some(8))) == (Collided, Failed)
  {
    assert {} + {0} == {0};
    assert added.live - {0} == Kernel0;
    assert [] + [Ignored(0, 1)] == [Ignored(0, 1)];
    assert RemoveWatch(added.(exhausted := {0}), 0) == Collided;
    assert MarkUncertain(Collided, 1) == Collided;
  }

  lemma EndedGoes() ensures Goes(Collided, Handle, Ended)
  {
    assert Collided.queue[1..] == [];
    assert Booked(Collided, 0)[1..] == [];
    assert Collided.watches - {0} == map[];
    var s := Bereaved(1, Collided.subs[1], {Interest(1, A)}, false);
    assert s.watched == Holding;
    assert Next(Collided, Handle).subs == Ended.subs;
  }

  /** On a quarantined descriptor that lost the registered watch's record, the record of a rejected watch ends it. */
  lemma QuarantinedWatchEndsByAForeignRecord()
    ensures Reachable(Collided) && Goes(Collided, Handle, Ended)
    ensures !IsOwn(Collided, 0, Collided.queue[0].serial)
    ensures 0 in Collided.watches && 0 !in Ended.watches && 0 in Collided.exhausted
  {
    WatchingIsReachable();
    DroppedGoes();
    Onward(Watching, Drop(0), Dropped);
    MissedGoes();
    Onward(Dropped, Miss(0), Missed);
    ToldGoes();
    Onward(Missed, Handle, Told);
    CollidedGoes();
    Onward(Told, WatchB, Collided);
    EndedGoes();
  }
}
