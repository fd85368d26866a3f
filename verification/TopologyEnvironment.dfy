// Changes made by other processes and by the kernel keep every existing
// directory accounted for.

module TopologyEnvironment {
  import opened Paths
  import opened Exclusions
  import opened Topology

  // ----- paths in the tree -------------------------------------------------

  lemma {:induction false} ExistsAbove(s: State, a: Path, p: Path)
    requires a <= p && Exists(s, p)
    ensures Exists(s, a)
    decreases |p|
  {
    ProperPrefix(a, p);
    if a != p {
      ExistsAbove(s, a, Parent(p));
    }
  }

  lemma {:induction false} SameTree(s: State, t: State, p: Path)
    requires s.kids == t.kids && s.root == t.root
    ensures At(s, p) == At(t, p)
    decreases |p|
  {
    if p != [] {
      SameTree(s, t, Parent(p));
    }
  }

  lemma SameTrees(s: State, t: State)
    requires s.kids == t.kids && s.root == t.root
    ensures forall p :: At(s, p) == At(t, p)
  {
    forall p ensures At(s, p) == At(t, p) { SameTree(s, t, p); }
  }

  /** No step down from directory `i` by name `n` leads to `p`. */
  ghost predicate Avoids(s: State, i: Ino, n: Name, p: Path)
  {
    forall u :: u + [n] <= p ==> At(s, u) != Some(i)
  }

  /** After a name is gone, what still exists was reached without it. */
  lemma {:induction false} AfterUnlink(s: State, t: State, i: Ino, n: Name, p: Path)
    requires i in s.kids && s.root == t.root
    requires t.kids == s.kids[i := WithoutName(s.kids[i], n)]
    requires Exists(t, p)
    ensures At(t, p) == At(s, p) && Avoids(s, i, n, p)
    decreases |p|
  {
    if p != [] {
      AfterUnlink(s, t, i, n, Parent(p));
      forall u | u + [n] <= p ensures At(s, u) != Some(i) {
        ProperPrefix(u + [n], p);
        if u + [n] == p { assert u == Parent(p); }
      }
    }
  }

  /** After a name appears, what exists was there before or lies below the new name. */
  lemma {:induction false} AfterLink(s: State, t: State, i: Ino, n: Name, x: Ino, p: Path) returns (u: Path)
    requires i in s.kids && s.root == t.root
    requires t.kids == s.kids[i := WithName(s.kids[i], n, x)]
    requires Exists(t, p)
    ensures At(t, p) == At(s, p) || (u + [n] <= p && At(s, u) == Some(i))
    decreases |p|
  {
    u := [];
    if p != [] {
      var q := Parent(p);
      u := AfterLink(s, t, i, n, x, q);
      if u + [n] <= q && At(s, u) == Some(i) {
        PrefixTransitive(u + [n], q, p);
      } else if At(s, q) == Some(i) && p[|p| - 1] == n {
        u := q;
        assert u + [n] == p;
      }
    }
  }

  // ----- owed visits -------------------------------------------------------

  /** The owed visit closest to the root. */
  lemma {:induction false} Topmost(s: State, p: Path) returns (a: Path)
    requires Owed(s, p)
    ensures a <= p && Frontier(s, a)
    ensures a != [] ==> !Owed(s, Parent(a))
    decreases |p|
  {
    a :| a <= p && Frontier(s, a);
    if a != [] && Owed(s, Parent(a)) {
      var b := Topmost(s, Parent(a));
      PrefixTransitive(b, Parent(a), a);
      PrefixTransitive(b, a, p);
      a := b;
    }
  }

  /** A step that drops a frontier only below another owed visit keeps `p` owed. */
  lemma CarryOwed(s: State, t: State, p: Path)
    requires Owed(s, p)
    requires forall a :: a <= p && Frontier(s, a) ==> Frontier(t, a) || Owed(t, p) || (a != [] && Owed(s, Parent(a)))
    ensures Owed(t, p)
  {
    var a := Topmost(s, p);
  }

  lemma OwedBelow(s: State, p: Path, q: Path)
    requires Owed(s, p) && p <= q
    ensures Owed(s, q)
  {
    var a :| a <= p && Frontier(s, a);
    PrefixTransitive(a, p, q);
  }

  /** A path that is not settled leaves a visit owed, such as one not watching the directory now there. */
  lemma StaleIsOwed(s: State, p: Path)
    requires Accounted(s) && Exists(s, p) && !Excluded(s, p) && !Settled(s, p)
    ensures Owed(s, p)
  {
  }

  // ----- a removal ---------------------------------------------------------

  /** Another process acted: the worker's side is untouched and at most record `r` was queued. */
  ghost predicate Outside(s: State, t: State, r: Record)
  {
    && t == s.(kids := t.kids, queue := t.queue)
    && (t.queue == s.queue || t.queue == s.queue + [r])
  }

  /** The record of a removal hits only what the removal, or an owed visit above, explains. */
  lemma NewHit(s: State, t: State, i: Ino, wd: Wd, n: Name, x: Path)
    requires Accounted(s) && Outside(s, t, Gone(wd, n)) && t.queue == s.queue + [Gone(wd, n)]
    requires wd in s.live && s.live[wd] == i
    requires Exists(s, x) && !Excluded(s, x) && Avoids(s, i, n, x)
    requires Hit(t, |s.queue|, x)
    ensures x != [] && Owed(s, Parent(x))
  {
    var p :| Interest(t, p, wd) && p + [n] <= x;
    assert p <= p + [n];
    PrefixTransitive(p, p + [n], x);
    ProperPrefix(p, x);
    assert p != x by { assert |p + [n]| <= |x|; }
    ExistsAbove(s, p, x);
    ExclusionClosed(s.policy, p, x);
    assert At(s, p) != Some(i);
    StaleIsOwed(s, p);
    OwedBelow(s, p, Parent(x));
  }

  lemma OldHits(s: State, t: State)
    requires s.queue <= t.queue && t.watched == s.watched
    ensures forall k, x :: k < |s.queue| ==> Hit(t, k, x) == Hit(s, k, x)
  {
    forall k, x | k < |s.queue| ensures Hit(t, k, x) == Hit(s, k, x) {
      if 0 <= k { assert t.queue[k] == s.queue[k]; }
      if Hit(s, k, x) {
        var p :| Interest(s, p, s.queue[k].wd) && p + [s.queue[k].name] <= x;
        assert Interest(t, p, t.queue[k].wd) && p + [t.queue[k].name] <= x;
      }
      if Hit(t, k, x) {
        var p :| Interest(t, p, t.queue[k].wd) && p + [t.queue[k].name] <= x;
        assert Interest(s, p, s.queue[k].wd) && p + [s.queue[k].name] <= x;
      }
    }
  }

  // ----- what one appended record keeps ------------------------------------

  /** The step left every directory down to `p` where it was, and hits it only below an owed visit. */
  ghost predicate Undisturbed(s: State, t: State, p: Path)
  {
    && (forall x :: x <= p ==> At(t, x) == At(s, x))
    && (forall x :: x <= p && Hit(t, |s.queue|, x) ==> x != [] && Owed(s, Parent(x)))
  }

  lemma KeepsFrontier(s: State, t: State, r: Record, a: Path)
    requires Outside(s, t, r) && Frontier(s, a) && !Hit(t, |s.queue|, a)
    requires a != [] ==> At(t, Parent(a)) == At(s, Parent(a))
    ensures Frontier(t, a)
  {
    OldHits(s, t);
    if Queued(s, a) && Clear(s, a) {
      if ToRead(s, a) {
        var j :| Streaming(s, j, Parent(a)) && a[|a| - 1] in s.jobs[j].active.value.remaining;
        assert Streaming(t, j, Parent(a));
      }
      assert Queued(t, a);
    } else {
      var k :| NamedAt(s, k, a);
      assert NamedAt(t, k, a);
    }
  }

  lemma KeepsOwed(s: State, t: State, r: Record, p: Path)
    requires Outside(s, t, r) && Undisturbed(s, t, p) && Owed(s, p)
    ensures Owed(t, p)
  {
    forall a | a <= p && Frontier(s, a)
      ensures Frontier(t, a) || (a != [] && Owed(s, Parent(a)))
    {
      if !Hit(t, |s.queue|, a) {
        if a != [] { PrefixTransitive(Parent(a), a, p); }
        KeepsFrontier(s, t, r, a);
      }
    }
    CarryOwed(s, t, p);
  }

  lemma KeepsSettled(s: State, t: State, r: Record, p: Path)
    requires Outside(s, t, r) && Undisturbed(s, t, p) && Settled(s, p)
    ensures Settled(t, p) || (p != [] && Owed(s, Parent(p)))
  {
    OldHits(s, t);
  }

  /** An undisturbed directory stays accounted for, with or without the opening in progress. */
  lemma KeepsAccount(s: State, t: State, r: Record, p: Path)
    requires Outside(s, t, r) && Undisturbed(s, t, p)
    requires Settled(s, p) || Owed(s, p)
    ensures Settled(t, p) || Owed(t, p)
  {
    if Owed(s, p) {
      KeepsOwed(s, t, r, p);
    } else {
      KeepsSettled(s, t, r, p);
      if p != [] && Owed(s, Parent(p)) { OwedBelow(s, Parent(p), p); }
    }
  }

  /** Leaving the opening in progress aside changes nothing strictly above it. */
  lemma OpeningAside(s: State, x: Path)
    requires s.open.Some? ==> !(s.open.value.path <= x)
    ensures Owed(s, x) <==> Owed(s.(open := None), x)
  {
    var u := s.(open := None);
    SameTrees(s, u);
    SameHits(s, u);
    forall a | a <= x ensures Frontier(s, a) == Frontier(u, a) {
      SameQueued(s, u, a);
      SameNamed(s, u, a);
    }
  }

  lemma SameHits(s: State, t: State)
    requires s.queue == t.queue && s.watched == t.watched
    ensures forall k, x :: Hit(t, k, x) == Hit(s, k, x)
  {
    OldHits(s, t);
  }

  lemma SameQueued(s: State, t: State, a: Path)
    requires forall p :: At(s, p) == At(t, p)
    requires t == s.(open := t.open) && (s.open.Some? ==> s.open.value.path != a) && (t.open.Some? ==> t.open.value.path != a)
    ensures Queued(s, a) == Queued(t, a)
  {
    assert forall j, p :: Streaming(s, j, p) == Streaming(t, j, p);
  }

  lemma SameNamed(s: State, t: State, a: Path)
    requires s.queue == t.queue && s.watched == t.watched
    ensures Named(s, a) == Named(t, a)
  {
    SameHits(s, t);
    assert forall k :: NamedAt(s, k, a) == NamedAt(t, k, a);
  }

  // ----- the steps ---------------------------------------------------------

  lemma KeepsOpenCovered(s: State, t: State, r: Record)
    requires Outside(s, t, r) && OpenCovered(s)
    requires s.open.Some? && Exists(t, s.open.value.path) && !Excluded(s, s.open.value.path) ==>
               Undisturbed(s, t, s.open.value.path)
    ensures OpenCovered(t)
  {
    if s.open.Some? && s.open.value.entered && Exists(t, s.open.value.path) && !Excluded(s, s.open.value.path) {
      var a := s.open.value.path;
      var s0, t0 := s.(open := None), t.(open := None);
      SameTrees(s, s0);
      SameTrees(t, t0);
      SameHits(t, t0);
      forall x | x <= a && Hit(t0, |s.queue|, x)
        ensures x != [] && Owed(s0, Parent(x))
      {
        assert Hit(t, |s.queue|, x);
        OpeningAside(s, Parent(x));
      }
      assert Undisturbed(s0, t0, a);
      if Owed(s0, a) {
        KeepsOwed(s0, t0, r, a);
      } else {
        KeepsSettled(s, t, r, a);
        if a != [] && Owed(s, Parent(a)) {
          OpeningAside(s, Parent(a));
          OwedBelow(s0, Parent(a), a);
        }
      }
    }
  }

  lemma UnlinkUndisturbed(s: State, t: State, i: Ino, n: Name, p: Path)
    requires TreeOk(s) && RegistryOk(s) && Accounted(s)
    requires i in s.kids && t == Unlink(s, i, n, false)
    requires Exists(t, p) && !Excluded(s, p)
    ensures Undisturbed(s, t, p)
  {
    forall x | x <= p
      ensures At(t, x) == At(s, x)
      ensures Hit(t, |s.queue|, x) ==> x != [] && Owed(s, Parent(x))
    {
      ExistsAbove(t, x, p);
      ExclusionClosed(s.policy, x, p);
      AfterUnlink(s, t, i, n, x);
      if Hit(t, |s.queue|, x) {
        var wd := t.queue[|s.queue|].wd;
        NewHit(s, t, i, wd, n, x);
      }
    }
  }

  /** What a reported change appends: the record about `n` of the watch on `i`, or nothing when `i` is unwatched. */
  ghost predicate RecordedChange(s: State, t: State, i: Ino, r: Record)
  {
    && Outside(s, t, r)
    && (r.Made? || r.Gone?)
    && (i in s.live.Values ==> t.queue == s.queue + [r] && r.wd in s.live && s.live[r.wd] == i)
    && (i !in s.live.Values ==> t.queue == s.queue)
  }

  lemma QueueAfterChange(s: State, t: State, i: Ino, n: Name, r: Record)
    requires RegistryOk(s) && QueueOk(s) && i in s.kids && i in t.kids
    requires RecordedChange(s, t, i, r)
    requires r == Gone(r.wd, n) || r == Made(r.wd, n)
    requires r.Gone? ==> t.kids == s.kids[i := WithoutName(s.kids[i], n)]
    requires r.Made? ==> exists x :: t.kids == s.kids[i := WithName(s.kids[i], n, x)]
    ensures QueueOk(t)
  {
    forall k | 0 <= k < |t.queue| && t.queue[k].Gone?
      ensures Remade(t, k)
    {
      if k < |s.queue| {
        assert Remade(s, k);
        var wd := s.queue[k].wd;
        var m := s.queue[k].name;
        if wd in s.live && s.live[wd] == i && m == n && r.Made? {
          assert wd == r.wd by { assert s.identity[wd] == s.identity[r.wd]; }
          assert t.queue[|s.queue|] == Made(wd, m);
        } else if wd in s.live && s.live[wd] in s.kids && m in s.kids[s.live[wd]] {
          var j :| k < j < |s.queue| && s.queue[j] == Made(wd, m);
          assert t.queue[j] == Made(wd, m);
        }
      }
    }
  }

  lemma UnlinkAccounts(s: State, t: State, i: Ino, n: Name, r: Record)
    requires TreeOk(s) && RegistryOk(s) && Accounted(s) && OpenCovered(s)
    requires i in s.kids && t == Unlink(s, i, n, false) && Outside(s, t, r)
    ensures Accounted(t) && OpenCovered(t)
  {
    forall p | Exists(t, p) && !Excluded(t, p)
      ensures Settled(t, p) || Owed(t, p)
    {
      UnlinkUndisturbed(s, t, i, n, p);
      KeepsAccount(s, t, r, p);
    }
    if s.open.Some? && Exists(t, s.open.value.path) && !Excluded(s, s.open.value.path) {
      UnlinkUndisturbed(s, t, i, n, s.open.value.path);
    }
    KeepsOpenCovered(s, t, r);
  }

  lemma UnlinkKeeps(s: State, i: Ino, n: Name)
    requires Sound(s)
    requires i in s.kids && n in s.kids[i]
    ensures Sound(Unlink(s, i, n, false))
  {
    var t := Unlink(s, i, n, false);
    var r := if |t.queue| > |s.queue| then t.queue[|s.queue|] else Gone(0, n);
    assert RecordedChange(s, t, i, r);
    QueueAfterChange(s, t, i, n, r);
    UnlinkAccounts(s, t, i, n, r);
  }

  // A name that appears.

  lemma LinkUndisturbed(s: State, t: State, i: Ino, n: Name, x: Ino, p: Path)
    requires i in s.kids && t == Link(s, i, n, x, false)
    requires Exists(t, p) && forall u :: u + [n] <= p ==> At(s, u) != Some(i)
    ensures Undisturbed(s, t, p)
  {
    forall q | q <= p
      ensures At(t, q) == At(s, q)
    {
      ExistsAbove(t, q, p);
      var u := AfterLink(s, t, i, n, x, q);
      if u + [n] <= q { PrefixTransitive(u + [n], q, p); }
    }
  }

  /** Whatever lies below a new name is owed a visit: by its record, or because the parent is. */
  lemma LinkNames(s: State, t: State, i: Ino, n: Name, x: Ino, r: Record, u: Path)
    requires TreeOk(s) && RegistryOk(s)
    requires i in s.kids && t == Link(s, i, n, x, false) && RecordedChange(s, t, i, r) && r == Made(r.wd, n)
    requires At(s, u) == Some(i) && (Settled(s, u) || Owed(s, u))
    requires Undisturbed(s, t, u)
    ensures Named(t, u + [n]) || Owed(t, u)
  {
    OldHits(s, t);
    if Owed(s, u) {
      KeepsOwed(s, t, r, u);
    } else {
      var wd := s.watched[u];
      assert s.identity[wd] == s.identity[r.wd];
      assert Parent(u + [n]) == u;
      assert NamedAt(t, |s.queue|, u + [n]);
    }
  }

  /** The shortest way to `p` through the new name leads up to it without using it. */
  lemma {:induction false} FirstUse(s: State, i: Ino, n: Name, p: Path, u: Path) returns (v: Path)
    requires u + [n] <= p && At(s, u) == Some(i)
    ensures v + [n] <= p && At(s, v) == Some(i) && Avoids(s, i, n, v)
    decreases |u|
  {
    if w :| w + [n] <= u && At(s, w) == Some(i) {
      assert u <= u + [n];
      PrefixTransitive(w + [n], u, u + [n]);
      PrefixTransitive(w + [n], u + [n], p);
      v := FirstUse(s, i, n, p, w);
    } else {
      v := u;
    }
  }

  lemma LinkOwes(s: State, t: State, i: Ino, n: Name, x: Ino, r: Record, p: Path) returns (v: Path)
    requires TreeOk(s) && RegistryOk(s) && Accounted(s)
    requires i in s.kids && t == Link(s, i, n, x, false) && RecordedChange(s, t, i, r) && r == Made(r.wd, n)
    requires Exists(t, p) && !Excluded(t, p) && !Avoids(s, i, n, p)
    ensures v + [n] <= p && (Named(t, v + [n]) || Owed(t, v))
  {
    var u :| u + [n] <= p && At(s, u) == Some(i);
    v := FirstUse(s, i, n, p, u);
    assert v <= v + [n];
    PrefixTransitive(v, v + [n], p);
    ExistsAbove(t, v, p);
    ExclusionClosed(s.policy, v, p);
    LinkUndisturbed(s, t, i, n, x, v);
    LinkNames(s, t, i, n, x, r, v);
  }

  lemma LinkAccounts(s: State, t: State, i: Ino, n: Name, x: Ino, r: Record)
    requires TreeOk(s) && RegistryOk(s) && Accounted(s)
    requires i in s.kids && t == Link(s, i, n, x, false) && RecordedChange(s, t, i, r) && r == Made(r.wd, n)
    ensures Accounted(t)
  {
    forall p | Exists(t, p) && !Excluded(t, p)
      ensures Settled(t, p) || Owed(t, p)
    {
      if Avoids(s, i, n, p) {
        LinkUndisturbed(s, t, i, n, x, p);
        KeepsAccount(s, t, r, p);
      } else {
        var v := LinkOwes(s, t, i, n, x, r, p);
        if Owed(t, v) {
          assert v <= v + [n];
          PrefixTransitive(v, v + [n], p);
          OwedBelow(t, v, p);
        } else {
          assert Frontier(t, v + [n]);
        }
      }
    }
  }

  lemma LinkOpenCovered(s: State, t: State, i: Ino, n: Name, x: Ino, r: Record)
    requires TreeOk(s) && RegistryOk(s) && Accounted(s) && OpenCovered(s)
    requires i in s.kids && t == Link(s, i, n, x, false) && RecordedChange(s, t, i, r) && r == Made(r.wd, n)
    ensures OpenCovered(t)
  {
    if s.open.Some? && Exists(t, s.open.value.path) && !Excluded(t, s.open.value.path) {
      var a := s.open.value.path;
      if Avoids(s, i, n, a) {
        LinkUndisturbed(s, t, i, n, x, a);
        KeepsOpenCovered(s, t, r);
      } else {
        var v := LinkOwes(s, t, i, n, x, r, a);
        var t0 := t.(open := None);
        if Owed(t, v) {
          assert |v| < |a|;
          OpeningAside(t, v);
          assert v <= v + [n];
          PrefixTransitive(v, v + [n], a);
          OwedBelow(t0, v, a);
        } else {
          SameNamed(t, t0, v + [n]);
          assert Frontier(t0, v + [n]);
        }
      }
    }
  }

  lemma LinkKeeps(s: State, i: Ino, n: Name, x: Ino)
    requires Sound(s)
    requires i in s.kids && x in s.kids && x !in s.dead
    ensures Sound(Link(s, i, n, x, false))
  {
    var t := Link(s, i, n, x, false);
    var r := if |t.queue| > |s.queue| then t.queue[|s.queue|] else Made(0, n);
    assert RecordedChange(s, t, i, r);
    QueueAfterChange(s, t, i, n, r);
    LinkAccounts(s, t, i, n, x, r);
    LinkOpenCovered(s, t, i, n, x, r);
  }

  // A directory that comes into being, and a deleted directory whose watch the kernel drops.

  lemma NewDirectoryKeeps(s: State, x: Ino)
    requires Sound(s)
    requires x !in s.kids && x !in s.dead
    ensures Sound(s.(kids := s.kids[x := map[]]))
  {
    var t := s.(kids := s.kids[x := map[]]);
    forall p ensures At(t, p) == At(s, p) { SameButEmpty(s, t, x, p); }
    assert forall p :: Undisturbed(s, t, p);
    forall p | Exists(t, p) && !Excluded(t, p)
      ensures Settled(t, p) || Owed(t, p)
    {
      KeepsAccount(s, t, Overflow, p);
    }
    KeepsOpenCovered(s, t, Overflow);
    forall k | 0 <= k < |t.queue| && t.queue[k].Gone? ensures Remade(t, k) { assert Remade(s, k); }
  }

  lemma {:induction false} SameButEmpty(s: State, t: State, x: Ino, p: Path)
    requires TreeOk(s) && x !in s.kids && t == s.(kids := s.kids[x := map[]])
    ensures At(t, p) == At(s, p)
    decreases |p|
  {
    if p != [] {
      SameButEmpty(s, t, x, Parent(p));
      if Exists(s, Parent(p)) { InTree(s, Parent(p)); }
    }
  }

  lemma {:induction false} InTree(s: State, p: Path)
    requires TreeOk(s) && Exists(s, p)
    ensures At(s, p).value in s.kids && At(s, p).value !in s.dead
    decreases |p|
  {
    if p != [] {
      InTree(s, Parent(p));
    }
  }

  /** Records that are no removals leave every account as it is. */
  lemma AppendKeeps(s: State, r: Record)
    requires Accounted(s) && OpenCovered(s) && !r.Gone?
    ensures Accounted(s.(queue := s.queue + [r])) && OpenCovered(s.(queue := s.queue + [r]))
  {
    var t := s.(queue := s.queue + [r]);
    SameTrees(s, t);
    forall p | Exists(t, p) && !Excluded(t, p)
      ensures Settled(t, p) || Owed(t, p)
    {
      KeepsAccount(s, t, r, p);
    }
    KeepsOpenCovered(s, t, r);
  }

  /** Two states that differ only in the kernel's live watches owe the same visits. */
  lemma SameOwed(s: State, t: State, p: Path)
    requires t == s.(live := t.live, dead := t.dead)
    ensures Owed(s, p) == Owed(t, p)
  {
    SameTrees(s, t);
    SameHits(s, t);
    assert forall j, q :: Streaming(s, j, q) == Streaming(t, j, q);
    forall a ensures Frontier(s, a) == Frontier(t, a) {
      SameNamed(s, t, a);
      assert ToRead(s, a) == ToRead(t, a);
    }
  }

  lemma DropKeeps(s: State, wd: Wd)
    requires Sound(s)
    requires wd in s.live && s.live[wd] != s.root
    requires forall i, n :: i in s.kids && n in s.kids[i] ==> s.kids[i][n] != s.live[wd]
    ensures Sound(DropWatch(s, wd, false))
  {
    var t1 := s.(queue := s.queue + [SelfGone(wd)]);
    AppendKeeps(s, SelfGone(wd));
    var t2 := t1.(queue := t1.queue + [Ignored(wd)]);
    AppendKeeps(t1, Ignored(wd));
    var t := DropWatch(s, wd, false);
    assert t2.queue == t.queue;
    assert t == t2.(live := t.live, dead := t.dead);
    SameTrees(t2, t);
    SameTrees(s, t);
    SameHits(t2, t);
    forall p | Settled(t2, p) ensures Settled(t, p) {
      assert At(s, p) != Some(s.live[wd]) by { if p != [] { assert At(s, p[..|p| - 1]).Some?; } }
    }
    forall p | Exists(t, p) && !Excluded(t, p)
      ensures Settled(t, p) || Owed(t, p)
    {
      SameOwed(t2, t, p);
    }
    if s.open.Some? {
      SameOwed(t2.(open := None), t.(open := None), s.open.value.path);
    }
    DropQueueOk(s, t, wd);
  }

  lemma DropQueueOk(s: State, t: State, wd: Wd)
    requires RegistryOk(s) && QueueOk(s) && wd in s.live && t == DropWatch(s, wd, false)
    ensures QueueOk(t)
  {
    forall k | 0 <= k < |t.queue| && t.queue[k].Gone?
      ensures Remade(t, k)
    {
      assert k < |s.queue| && Remade(s, k);
      if j :| k < j < |s.queue| && s.queue[j] == Made(s.queue[k].wd, s.queue[k].name) {
        assert t.queue[j] == s.queue[j];
      }
    }
  }
}
