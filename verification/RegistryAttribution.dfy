// An ignored record ends the watch it is about and no other, although it names
// only a descriptor that may have been reused since.

module RegistryAttribution {
  import opened Paths
  import opened Registry

  // ----- one descriptor at a time ------------------------------------------

  function IgnoredOf(queue: seq<Record>, d: Wd): seq<Serial>
  {
    if queue == [] then []
    else (if queue[0].Ignored? && queue[0].wd == d then [queue[0].serial] else []) + IgnoredOf(queue[1..], d)
  }

  /** All that concerns one descriptor: `pending` are the serials of its queued ignored records, `missed` of the lost ones. */
  datatype Row = Row(live: Option<Serial>, booked: seq<Serial>, retired: Option<Lifetimes>, lifetime: Option<Lifetime>,
                     quarantined: bool, pending: seq<Serial>, missed: seq<Serial>)

  function RowOf(w: World, d: Wd): Row
  {
    Row(if d in w.live then Some(w.live[d].serial) else None,
        Booked(w, d),
        if d in w.retired then Some(w.retired[d]) else None,
        if d in w.watches then Some(w.watches[d].lifetime) else None,
        d in w.exhausted,
        IgnoredOf(w.queue, d), IgnoredOf(w.lost, d))
  }

  function Span(retired: Option<Lifetimes>): int
  {
    if retired.None? then 0 else retired.value.last - retired.value.first + 1
  }

  /** The serials whose ignored records the registry still waits for: all booked ones but a watch still live. */
  function Expected(r: Row): seq<Serial>
  {
    if r.live.Some? && r.booked != [] then r.booked[..|r.booked| - 1] else r.booked
  }

  /** Serials in the order the kernel gave them out, all before `next`. */
  ghost predicate Increasing(s: seq<Serial>, next: Serial)
  {
    && (forall i, j :: 0 <= i < j < |s| ==> s[i] < s[j])
    && (forall i :: 0 <= i < |s| ==> s[i] < next)
  }

  /** No record is about a later watch than the last one booked, unless the descriptor is quarantined. */
  ghost predicate Bounded(r: Row, records: seq<Serial>, next: Serial)
  {
    forall x :: x in records ==> x < next && (r.quarantined || r.booked == [] || x <= r.booked[|r.booked| - 1])
  }

  /**
   * The registry waits for as many ignored records as are queued or lost. If none was lost, the queued ones are the
   * retired lifetimes in order, then the registered one if the kernel dropped it.
   */
  ghost predicate Ok(r: Row, next: Serial)
  {
    && Increasing(r.booked, next)
    && |r.booked| == Span(r.retired) + (if r.lifetime.Some? then 1 else 0)
    && (r.retired.Some? ==> 1 <= r.retired.value.first <= r.retired.value.last <= MAX_LIFETIME)
    && (r.lifetime.Some? ==> 1 <= r.lifetime.value <= MAX_LIFETIME)
    && (r.retired.Some? && r.lifetime.Some? ==> r.lifetime.value == r.retired.value.last + 1)
    && (r.live.Some? ==> r.lifetime.Some? && !r.quarantined && r.booked[|r.booked| - 1] == r.live.value)
    && |Expected(r)| <= |r.pending| + |r.missed|
    && (!r.quarantined ==> |Expected(r)| == |r.pending| + |r.missed|)
    && (r.missed == [] ==> Expected(r) <= r.pending)
    && Bounded(r, r.pending, next) && Bounded(r, r.missed, next)
  }

  ghost predicate Attributed(w: World)
  {
    forall d :: Ok(RowOf(w, d), w.nextSerial)
  }

  lemma {:induction false} IgnoredOfAppend(queue: seq<Record>, r: Record, d: Wd)
    ensures IgnoredOf(queue + [r], d) ==
            IgnoredOf(queue, d) + (if r.Ignored? && r.wd == d then [r.serial] else [])
    decreases |queue|
  {
    if queue == [] {
      assert queue + [r] == [r];
      assert [r][1..] == [];
    } else {
      assert (queue + [r])[1..] == queue[1..] + [r];
      IgnoredOfAppend(queue[1..], r, d);
    }
  }

  // ----- kernel calls, row by row ------------------------------------------

  /** The row after the kernel drops the watch, at the worker's request or on its own. */
  function Dropped(r: Row): Row
  {
    if r.live.None? then r else r.(live := None, pending := r.pending + [r.live.value])
  }

  lemma RemoveWatchRows(w: World, d: Wd)
    ensures RowOf(RemoveWatch(w, d), d) == Dropped(RowOf(w, d))
    ensures forall e :: e != d ==> RowOf(RemoveWatch(w, d), e) == RowOf(w, e)
    ensures RemoveWatch(w, d).nextSerial == w.nextSerial
  {
    if d in w.live {
      forall e ensures IgnoredOf(RemoveWatch(w, d).queue, e) ==
                       IgnoredOf(w.queue, e) + (if e == d then [w.live[d].serial] else []) {
        IgnoredOfAppend(w.queue, Ignored(d, w.live[d].serial), e);
      }
    }
  }

  lemma DroppedOk(r: Row, next: Serial)
    requires Ok(r, next)
    ensures Ok(Dropped(r), next)
  {
    if r.live.Some? {
      assert r.booked == r.booked[..|r.booked| - 1] + [r.live.value];
    }
  }

  /** The row after the registered watch lost its last interest and its lifetime was retired. */
  function Retired(r: Row): Row
    requires r.lifetime.Some?
  {
    Dropped(r.(lifetime := None, retired := Some(
      if r.retired.None? then Lifetimes(r.lifetime.value, r.lifetime.value)
      else Lifetimes(r.retired.value.first, r.lifetime.value))))
  }

  lemma RetiredOk(r: Row, next: Serial)
    requires Ok(r, next) && r.lifetime.Some?
    ensures Ok(Retired(r), next)
  {
    var q := Dropped(r);
    DroppedOk(r, next);
    var t := Retired(r);
    assert t == q.(lifetime := None, retired := t.retired);
    assert Span(t.retired) == Span(q.retired) + 1;
    assert Expected(t) == q.booked == Expected(q);
    assert q.retired.Some? ==> q.lifetime.value == q.retired.value.last + 1;
  }

  /** The row after a fresh kernel watch was registered under the next lifetime. */
  function Admitted(r: Row, serial: Serial): Row
  {
    r.(live := Some(serial), booked := r.booked + [serial],
       lifetime := Some(if r.retired.None? then 1 else r.retired.value.last + 1))
  }

  lemma AdmittedOk(r: Row, next: Serial)
    requires Ok(r, next) && r.live.None? && r.lifetime.None? && !r.quarantined
    requires r.retired.Some? ==> r.retired.value.last < MAX_LIFETIME
    ensures Ok(Admitted(r, next), next + 1)
  {
    var a := Admitted(r, next);
    assert a.booked[..|a.booked| - 1] == r.booked;
  }

  /** The row after an unregistrable kernel watch was removed again and its descriptor set aside. */
  function Rejected(r: Row, serial: Serial): Row
  {
    r.(live := None, quarantined := true, pending := r.pending + [serial])
  }

  lemma RejectedOk(r: Row, next: Serial)
    requires Ok(r, next)
    ensures r.live.None? ==> Ok(Rejected(r, next), next + 1)
    ensures r.live.Some? ==> Ok(Rejected(r, r.live.value), next)
  {
    if r.live.Some? {
      DroppedOk(r, next);
      assert Rejected(r, r.live.value) == Dropped(r).(quarantined := true);
    } else {
      var t := Rejected(r, next);
      assert Expected(t) == r.booked == Expected(r);
      assert forall x :: x in t.pending ==> x in r.pending || x == next;
    }
  }

  /** The row after the descriptor's oldest outstanding lifetime was given up. */
  function GivenUp(r: Row): Row
  {
    if r.retired.Some? then
      r.(booked := if r.booked == [] then [] else r.booked[1..],
         retired := if r.retired.value.first == r.retired.value.last then None
                    else Some(Lifetimes(r.retired.value.first + 1, r.retired.value.last)))
    else if r.lifetime.None? then r
    else r.(booked := if r.booked == [] then [] else r.booked[1..], lifetime := None)
  }

  /** The row after one ignored record was handled. */
  function Consumed(r: Row): Row
    requires r.pending != []
  {
    GivenUp(r.(pending := r.pending[1..]))
  }

  lemma ConsumedOk(r: Row, next: Serial)
    requires Ok(r, next) && r.pending != []
    ensures Ok(Consumed(r), next)
  {
    if r.retired.Some? || r.lifetime.Some? {
      ConsumedExpected(r, next);
      ConsumedBounded(r, Consumed(r), next);
    } else {
      assert r.booked == [];
      assert forall x :: x in r.pending[1..] ==> x in r.pending;
    }
  }

  lemma ConsumedBounded(r: Row, t: Row, next: Serial)
    requires Ok(r, next) && r.pending != [] && r.booked != []
    requires t.booked == r.booked[1..] && t.pending == r.pending[1..] && t.missed == r.missed && t.quarantined == r.quarantined
    ensures Increasing(t.booked, next) && Bounded(t, t.pending, next) && Bounded(t, t.missed, next)
  {
    assert forall x :: x in t.pending ==> x in r.pending;
  }

  lemma ConsumedExpected(r: Row, next: Serial)
    requires Ok(r, next) && r.pending != [] && (r.retired.Some? || r.lifetime.Some?)
    ensures r.booked != [] && Consumed(r).booked == r.booked[1..]
    ensures Expected(r) != [] && Expected(Consumed(r)) == Expected(r)[1..]
  {
    assert r.quarantined ==> r.live.None?;
  }

  /**
   * The record at the front ends the registered lifetime exactly when it is that watch's own and none was lost. A
   * quarantined descriptor that lost records is the exception.
   */
  lemma ConsumesItsOwn(r: Row, next: Serial)
    requires Ok(r, next) && r.pending != []
    ensures r.lifetime.Some? && (r.missed == [] || !r.quarantined) ==>
              (Consumed(r).lifetime.None? <==> r.pending[0] == r.booked[|r.booked| - 1] && r.missed == [])
    ensures r.retired.Some? ==> r.booked != []
    ensures r.retired.Some? && r.missed == [] ==> r.pending[0] == r.booked[0]
    ensures Consumed(r).lifetime.None? && r.lifetime.Some? ==> r.live.None?
  {
    if r.missed == [] && (r.retired.Some? || r.lifetime.Some?) {
      assert r.booked[0] == Expected(r)[0] == r.pending[0];
    }
  }

  /** The row after ignored record `i` was lost. */
  function Missed(r: Row, i: nat): Row
    requires i < |r.pending|
  {
    r.(pending := r.pending[..i] + r.pending[i + 1..], missed := r.missed + [r.pending[i]])
  }

  lemma MissedOk(r: Row, next: Serial, i: nat)
    requires Ok(r, next) && i < |r.pending|
    ensures Ok(Missed(r, i), next)
  {
    assert r.pending[i] in r.pending;
    assert forall x :: x in Missed(r, i).pending ==> x in r.pending;
  }

  // ----- the worker's operations -------------------------------------------

  /** Apart from descriptor `d`, the rows are the same and serials only grow. */
  ghost predicate Elsewhere(w: World, v: World, d: Wd)
  {
    w.nextSerial <= v.nextSerial && forall e :: e != d ==> RowOf(v, e) == RowOf(w, e)
  }

  lemma OnlyHere(w: World, v: World, d: Wd)
    requires Attributed(w) && Elsewhere(w, v, d) && Ok(RowOf(v, d), v.nextSerial)
    ensures Attributed(v)
  {
    forall e ensures Ok(RowOf(v, e), v.nextSerial) {
      if e != d { assert Ok(RowOf(w, e), w.nextSerial); }
    }
  }

  /** Operations on subscriptions, identities and interests leave every row alone. */
  ghost predicate SameRows(w: World, v: World)
  {
    v.nextSerial == w.nextSerial && forall e :: RowOf(v, e) == RowOf(w, e)
  }

  lemma SameRowsOk(w: World, v: World)
    requires Attributed(w) && SameRows(w, v)
    ensures Attributed(v)
  {
    forall e ensures Ok(RowOf(v, e), v.nextSerial) { assert Ok(RowOf(w, e), w.nextSerial); }
  }

  lemma ExpectIgnoredRows(w: World, d: Wd, l: Lifetime)
    requires d in w.retired ==> w.retired[d].last + 1 == l && w.retired[d].last < MAX_LIFETIME
    ensures RowOf(ExpectIgnored(w, d, l), d) == RowOf(w, d).(retired := Some(
              if d in w.retired then Lifetimes(w.retired[d].first, l) else Lifetimes(l, l)))
    ensures forall e :: e != d ==> RowOf(ExpectIgnored(w, d, l), e) == RowOf(w, e)
  {
  }

  lemma RemoveLifetimeRows(w: World, v: World, d: Wd)
    requires Attributed(w) && d in w.watches
    requires v == w.(watches := w.watches - {d}, identities := v.identities)
    ensures RowOf(RemoveLifetime(v, d, w.watches[d].lifetime), d) == Retired(RowOf(w, d))
    ensures Elsewhere(w, RemoveLifetime(v, d, w.watches[d].lifetime), d)
  {
    assert Ok(RowOf(w, d), w.nextSerial);
    var l := w.watches[d].lifetime;
    var x := ExpectIgnored(v, d, l);
    ExpectIgnoredRows(v, d, l);
    assert RowOf(v, d) == RowOf(w, d).(lifetime := None);
    assert forall e :: e != d ==> RowOf(v, e) == RowOf(w, e);
    RemoveWatchRows(x, d);
  }

  lemma RemoveInterestAttributes(w: World, id: Id, path: Path, d: Wd)
    requires Attributed(w)
    ensures Attributed(RemoveInterest(w, id, path, d))
  {
    if d in w.watches {
      var watch := w.watches[d].(interests := w.watches[d].interests - {Interest(id, path)});
      if watch.interests != {} {
        var v := w.(watches := w.watches[d := watch]);
        assert SameRows(w, v);
        SameRowsOk(w, v);
      } else {
        RetireAttributes(w, w.(watches := w.watches - {d}, identities := w.identities - {watch.identity}), d);
      }
    }
  }

  lemma RetireAttributes(w: World, u: World, d: Wd)
    requires Attributed(w) && d in w.watches
    requires u == w.(watches := w.watches - {d}, identities := u.identities)
    ensures Attributed(RemoveLifetime(u, d, w.watches[d].lifetime))
  {
    RemoveLifetimeRows(w, u, d);
    assert Ok(RowOf(w, d), w.nextSerial);
    RetiredOk(RowOf(w, d), w.nextSerial);
    OnlyHere(w, RemoveLifetime(u, d, w.watches[d].lifetime), d);
  }

  lemma PopRows(w: World, v: World)
    requires w.queue != [] && v == w.(queue := w.queue[1..])
    ensures forall e :: RowOf(w, e) == RowOf(v, e).(pending :=
              (if w.queue[0].Ignored? && w.queue[0].wd == e then [w.queue[0].serial] else []) + RowOf(v, e).pending)
  {
  }

  lemma HandleIgnoredHere(w: World, d: Wd)
    ensures RowOf(HandleIgnored(w, d), d) == GivenUp(RowOf(w, d))
  {
  }

  lemma HandleIgnoredThere(w: World, d: Wd, e: Wd)
    requires e != d
    ensures RowOf(HandleIgnored(w, d), e) == RowOf(w, e)
  {
  }

  lemma HandleIgnoredRows(w: World, d: Wd)
    ensures RowOf(HandleIgnored(w, d), d) == GivenUp(RowOf(w, d))
    ensures Elsewhere(w, HandleIgnored(w, d), d)
  {
    HandleIgnoredHere(w, d);
    forall e | e != d ensures RowOf(HandleIgnored(w, d), e) == RowOf(w, e) { HandleIgnoredThere(w, d, e); }
  }

  lemma HandleRows(w: World)
    requires w.queue != [] && w.queue[0].Ignored?
    ensures var d, v := w.queue[0].wd, Next(w, Handle);
      && RowOf(w, d).pending != [] && RowOf(w, d).pending[0] == w.queue[0].serial
      && RowOf(v, d) == Consumed(RowOf(w, d))
      && Elsewhere(w, v, d)
  {
    var d := w.queue[0].wd;
    var u := w.(queue := w.queue[1..]);
    PopRows(w, u);
    assert RowOf(w, d).pending[1..] == RowOf(u, d).pending;
    forall e | e != d ensures RowOf(u, e) == RowOf(w, e) { assert [] + RowOf(u, e).pending == RowOf(u, e).pending; }
    HandleIgnoredRows(u, d);
  }

  lemma HandleAttributes(w: World)
    requires Attributed(w) && w.queue != []
    ensures Attributed(Next(w, Handle))
  {
    if w.queue[0].Ignored? {
      var d := w.queue[0].wd;
      HandleRows(w);
      assert Ok(RowOf(w, d), w.nextSerial);
      ConsumedOk(RowOf(w, d), w.nextSerial);
      OnlyHere(w, Next(w, Handle), d);
    } else {
      PopAttributes(w);
      OverflowAttributes(w.(queue := w.queue[1..]));
    }
  }

  /** A record that ends no watch leaves the rows alone when it is taken from the queue. */
  lemma PopAttributes(w: World)
    requires Attributed(w) && w.queue != [] && !w.queue[0].Ignored?
    ensures Attributed(w.(queue := w.queue[1..]))
  {
    var v := w.(queue := w.queue[1..]);
    forall e ensures RowOf(v, e) == RowOf(w, e) {
      RecordRows(w, v, e);
      assert [] + IgnoredOf(v.queue, e) == IgnoredOf(v.queue, e);
    }
    SameRowsOk(w, v);
  }

  lemma OverflowAttributes(w: World)
    requires Attributed(w)
    ensures Attributed(HandleOverflow(w))
  {
    forall d ensures RowOf(HandleOverflow(w), d) == RowOf(w, d) {
    }
    SameRowsOk(w, HandleOverflow(w));
  }

  lemma {:induction false} IgnoredOfJoin(a: seq<Record>, b: seq<Record>, d: Wd)
    ensures IgnoredOf(a + b, d) == IgnoredOf(a, d) + IgnoredOf(b, d)
    decreases |a|
  {
    if a == [] {
      assert a + b == b;
    } else {
      assert (a + b)[1..] == a[1..] + b;
      IgnoredOfJoin(a[1..], b, d);
    }
  }

  lemma IgnoredOfOne(r: Record, d: Wd)
    ensures IgnoredOf([r], d) == if r.Ignored? && r.wd == d then [r.serial] else []
  {
    assert [r][1..] == [];
  }

  /** The ignored records of a queue, split at one of its records. */
  lemma IgnoredOfSplit(queue: seq<Record>, k: nat, d: Wd)
    requires k < |queue|
    ensures IgnoredOf(queue, d) ==
            IgnoredOf(queue[..k], d) + (IgnoredOf([queue[k]], d) + IgnoredOf(queue[k + 1..], d))
  {
    assert queue == queue[..k] + ([queue[k]] + queue[k + 1..]);
    IgnoredOfJoin(queue[..k], [queue[k]] + queue[k + 1..], d);
    IgnoredOfJoin([queue[k]], queue[k + 1..], d);
  }

  lemma OverflowedRows(queue: seq<Record>, d: Wd)
    ensures IgnoredOf(Overflowed(queue), d) == IgnoredOf(queue, d)
  {
    IgnoredOfAppend(queue, Overflow, d);
  }

  lemma Cut(a: seq<Serial>, x: Serial, b: seq<Serial>)
    ensures var s := a + ([x] + b); |a| < |s| && s[|a|] == x && s[..|a|] + s[|a| + 1..] == a + b
  {
    var s := a + ([x] + b);
    assert s[..|a|] == a && s[|a| + 1..] == b;
  }

  lemma LoseKeepsRest(w: World, k: nat, d: Wd)
    requires k < |w.queue|
    ensures IgnoredOf(Lose(w, k).queue, d) == IgnoredOf(w.queue[..k], d) + IgnoredOf(w.queue[k + 1..], d)
  {
    IgnoredOfJoin(w.queue[..k], w.queue[k + 1..], d);
    OverflowedRows(w.queue[..k] + w.queue[k + 1..], d);
  }

  lemma LosePending(w: World, k: nat, d: Wd)
    requires k < |w.queue|
    ensures var r, i, pending := w.queue[k], |IgnoredOf(w.queue[..k], d)|, IgnoredOf(w.queue, d);
      if r.Ignored? && r.wd == d then
        i < |pending| && pending[i] == r.serial && IgnoredOf(Lose(w, k).queue, d) == pending[..i] + pending[i + 1..]
      else IgnoredOf(Lose(w, k).queue, d) == pending
  {
    var a, b := IgnoredOf(w.queue[..k], d), IgnoredOf(w.queue[k + 1..], d);
    IgnoredOfSplit(w.queue, k, d);
    IgnoredOfOne(w.queue[k], d);
    LoseKeepsRest(w, k, d);
    if w.queue[k].Ignored? && w.queue[k].wd == d {
      Cut(a, w.queue[k].serial, b);
    } else {
      assert a + ([] + b) == a + b;
    }
  }

  lemma RecordRows(w: World, v: World, d: Wd)
    requires v == w.(queue := v.queue, lost := v.lost)
    ensures RowOf(v, d) == RowOf(w, d).(pending := IgnoredOf(v.queue, d), missed := IgnoredOf(v.lost, d))
  {
  }

  /** Losing a record moves its serial, if it ends a watch, and touches nothing else. */
  lemma LoseRows(w: World, k: nat, d: Wd)
    requires k < |w.queue|
    ensures var r, i := w.queue[k], |IgnoredOf(w.queue[..k], d)|;
      if r.Ignored? && r.wd == d then i < |RowOf(w, d).pending| && RowOf(Lose(w, k), d) == Missed(RowOf(w, d), i)
      else RowOf(Lose(w, k), d) == RowOf(w, d)
  {
    var v := Lose(w, k);
    LosePending(w, k, d);
    IgnoredOfAppend(w.lost, w.queue[k], d);
    RecordRows(w, v, d);
    assert IgnoredOf(w.lost, d) + [] == IgnoredOf(w.lost, d);
  }

  lemma LoseAttributes(w: World, k: nat)
    requires Attributed(w) && k < |w.queue| && !w.queue[k].Overflow?
    ensures Attributed(Lose(w, k))
  {
    forall d ensures Ok(RowOf(Lose(w, k), d), w.nextSerial) {
      LoseRows(w, k, d);
      assert Ok(RowOf(w, d), w.nextSerial);
      if w.queue[k].Ignored? && w.queue[k].wd == d {
        MissedOk(RowOf(w, d), w.nextSerial, |IgnoredOf(w.queue[..k], d)|);
      }
    }
  }

  lemma AddWatchRows(w: World, inode: Identity, d: Wd)
    requires Addable(w, inode, d)
    ensures d in w.live ==> AddWatch(w, inode, d) == w
    ensures d !in w.live ==> RowOf(AddWatch(w, inode, d), d) == RowOf(w, d).(live := Some(w.nextSerial))
    ensures Elsewhere(w, AddWatch(w, inode, d), d)
  {
  }

  lemma RejectRows(v: World, u: World, d: Wd)
    requires d in v.live && u == v.(exhausted := v.exhausted + {d})
    ensures RowOf(RemoveWatch(u, d), d) == Rejected(RowOf(v, d), v.live[d].serial)
    ensures Elsewhere(v, RemoveWatch(u, d), d) && RemoveWatch(u, d).nextSerial == v.nextSerial
  {
    assert forall e :: e != d ==> RowOf(u, e) == RowOf(v, e);
    assert RowOf(u, d) == RowOf(v, d).(quarantined := true);
    RemoveWatchRows(u, d);
  }

  lemma ElsewhereTwice(w: World, v: World, u: World, d: Wd)
    requires Elsewhere(w, v, d) && Elsewhere(v, u, d)
    ensures Elsewhere(w, u, d)
  {
  }

  lemma ClaimRows(v: World, r: World, d: Wd, lifetime: Lifetime, identity: Identity)
    requires d in v.live && NextLifetime(v, d) == Some(lifetime)
    requires r == v.(booked := v.booked[d := Booked(v, d) + [v.live[d].serial]],
                     watches := v.watches[d := NativeWatch(lifetime, identity, {}, false)])
    ensures RowOf(r, d) == Admitted(RowOf(v, d), v.live[d].serial)
    ensures Elsewhere(v, r, d) && r.nextSerial == v.nextSerial
  {
  }

  /** A returned descriptor that cannot be registered is removed again and its record will find no lifetime. */
  lemma RejectAttributes(w: World, v: World, u: World, d: Wd)
    requires Attributed(w) && Elsewhere(w, v, d) && d in v.live
    requires RowOf(v, d) == RowOf(w, d).(live := Some(v.live[d].serial))
    requires if d in w.live then v.live[d] == w.live[d] && v.nextSerial == w.nextSerial
             else v.live[d].serial == w.nextSerial && v.nextSerial == w.nextSerial + 1
    requires u == v.(exhausted := v.exhausted + {d})
    ensures Attributed(RemoveWatch(u, d))
  {
    assert Ok(RowOf(w, d), w.nextSerial);
    RejectedOk(RowOf(w, d), w.nextSerial);
    RejectRows(v, u, d);
    ElsewhereTwice(w, v, RemoveWatch(u, d), d);
    assert RowOf(RemoveWatch(u, d), d) == Rejected(RowOf(w, d), v.live[d].serial);
    OnlyHere(w, RemoveWatch(u, d), d);
  }

  lemma MarkingRows(w: World, id: Id, d: Wd)
    ensures SameRows(w, MarkUncertain(w, id)) && SameRows(w, MarkReusedUncertain(w, id, d))
  {
  }

  lemma InsertInterestRows(w: World, id: Id, path: Path, d: Wd)
    requires d in w.watches && id in w.subs
    ensures SameRows(w, InsertInterest(w, id, path, d))
  {
  }

  /** The freshly added watch after its lifetime was claimed and recorded. */
  lemma ClaimAttributes(w: World, v: World, b: World, d: Wd, lifetime: Lifetime, identity: Identity)
    requires Attributed(w) && d !in w.watches && d !in w.live && d !in w.exhausted && Elsewhere(w, v, d)
    requires d in v.live && v.live[d].serial == w.nextSerial && v.nextSerial == w.nextSerial + 1
    requires RowOf(v, d) == RowOf(w, d).(live := Some(w.nextSerial))
    requires NextLifetime(v, d) == Some(lifetime)
    requires b == v.(booked := v.booked[d := Booked(v, d) + [v.live[d].serial]])
    ensures d !in b.watches
    ensures Attributed(b.(watches := b.watches[d := NativeWatch(lifetime, identity, {}, false)]))
  {
    var r := b.(watches := b.watches[d := NativeWatch(lifetime, identity, {}, false)]);
    assert RowOf(v, d).lifetime.None?;
    assert Ok(RowOf(w, d), w.nextSerial);
    assert RowOf(v, d).retired == RowOf(w, d).retired;
    AdmittedOk(RowOf(w, d), w.nextSerial);
    ClaimRows(v, r, d, lifetime, identity);
    ElsewhereTwice(w, v, r, d);
    assert RowOf(r, d) == Admitted(RowOf(w, d), w.nextSerial);
    OnlyHere(w, r, d);
  }

  lemma RaceAttributes(r: World, b: World, d: Wd)
    requires Attributed(r) && d in r.watches && b == r.(watches := r.watches - {d})
    ensures Attributed(RemoveLifetime(b, d, r.watches[d].lifetime))
  {
    RemoveLifetimeRows(r, b, d);
    assert Ok(RowOf(r, d), r.nextSerial);
    RetiredOk(RowOf(r, d), r.nextSerial);
    OnlyHere(r, RemoveLifetime(b, d, r.watches[d].lifetime), d);
  }

  /** No registered watch has an identity that is missing from the identity index. */
  ghost predicate Indexed(w: World)
  {
    forall d :: d in w.watches ==> w.watches[d].identity in w.identities && w.identities[w.watches[d].identity] == d
  }

  lemma RegisterAttributes(w: World, id: Id, path: Path, identity: Identity, calls: Calls)
    requires Attributed(w) && Indexed(w) && id in w.subs && calls.added.Some?
    requires Addable(w, calls.added.value.0, calls.added.value.1)
    requires identity !in w.identities || w.identities[identity] !in w.watches
    ensures Attributed(RegisterAdded(AddWatch(w, calls.added.value.0, calls.added.value.1), id, path, identity, calls).0)
  {
    var d := calls.added.value.1;
    var v := AddWatch(w, calls.added.value.0, d);
    AddWatchRows(w, calls.added.value.0, d);
    assert Ok(RowOf(w, d), w.nextSerial);
    var x := v.(exhausted := v.exhausted + {d});
    if d in v.watches {
      RejectAttributes(w, v, x, d);
      MarkingRows(RemoveWatch(x, d), id, d);
      SameRowsOk(RemoveWatch(x, d), MarkUncertain(RemoveWatch(x, d), id));
    } else {
      assert RowOf(w, d).live.None?;
      if d in v.exhausted || NextLifetime(v, d).None? {
        RejectAttributes(w, v, x, d);
        assert d in v.exhausted ==> x == v;
        MarkingRows(RemoveWatch(x, d), id, d);
        SameRowsOk(RemoveWatch(x, d), MarkUncertain(RemoveWatch(x, d), id));
      } else {
        ClaimedAttributes(w, v, id, path, identity, calls);
      }
    }
  }

  lemma ClaimedAttributes(w: World, v: World, id: Id, path: Path, identity: Identity, calls: Calls)
    requires Attributed(w) && id in w.subs && calls.added.Some?
    requires Addable(w, calls.added.value.0, calls.added.value.1)
    requires v == AddWatch(w, calls.added.value.0, calls.added.value.1)
    requires calls.added.value.1 !in w.watches && calls.added.value.1 !in w.exhausted
    requires NextLifetime(v, calls.added.value.1).Some?
    ensures Attributed(RegisterAdded(v, id, path, identity, calls).0)
  {
    var d := calls.added.value.1;
    AddWatchRows(w, calls.added.value.0, d);
    assert Ok(RowOf(w, d), w.nextSerial);
    assert RowOf(w, d).live.None?;
    var lifetime := NextLifetime(v, d).value;
    var b := v.(booked := v.booked[d := Booked(v, d) + [v.live[d].serial]]);
    ClaimAttributes(w, v, b, d, lifetime, identity);
    var r := b.(watches := b.watches[d := NativeWatch(lifetime, identity, {}, false)]);
    if calls.after != Some(identity) {
      assert b.watches == r.watches - {d};
      RaceAttributes(r, b, d);
      var z := RemoveLifetime(b, d, lifetime);
      MarkingRows(z, id, d);
      SameRowsOk(z, MarkUncertain(z, id));
    } else {
      AdmitAttributes(b, id, path, d, NativeWatch(lifetime, identity, {}, false), identity);
    }
  }

  lemma AdmitAttributes(b: World, id: Id, path: Path, d: Wd, watch: NativeWatch, identity: Identity)
    requires id in b.subs && Attributed(b.(watches := b.watches[d := watch]))
    ensures var m := MarkReusedUncertain(b, id, d);
      Attributed(InsertInterest(m.(watches := m.watches[d := watch], identities := m.identities[identity := d]), id, path, d))
  {
    var r := b.(watches := b.watches[d := watch]);
    var m := MarkReusedUncertain(b, id, d);
    var n := m.(watches := m.watches[d := watch], identities := m.identities[identity := d]);
    assert SameRows(r, n);
    SameRowsOk(r, n);
    InsertInterestRows(n, id, path, d);
    SameRowsOk(n, InsertInterest(n, id, path, d));
  }
}
