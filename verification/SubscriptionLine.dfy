// What the line to the consumer keeps: no queued path is forgotten while coverage is
// called certain, and batches are numbered, sourced and bounded.

module SubscriptionLines {
  import opened Paths
  import opened Subscriptions

  /** The paths invalidate `p`: they name it, or the root. */
  predicate Covers(paths: set<Path>, p: Path)
  {
    p in paths || [] in paths
  }

  /** A batch sent after the entry was queued invalidates its path. */
  ghost predicate Delivered(log: seq<Batch>, e: Entry)
  {
    exists k :: e.at <= k < |log| && Covers(log[k].paths, e.path)
  }

  ghost predicate Settled(l: Line)
  {
    forall i :: 0 <= i < |l.queued| ==> Delivered(l.log, l.queued[i]) || Covers(l.pending, l.queued[i].path)
  }

  /** Every queued path was delivered or is still owed, unless coverage is uncertain or the consumer is gone. */
  ghost predicate Conserved(l: Line)
  {
    l.connected && l.reason.None? ==> Settled(l)
  }

  /** `p` was queued under generation `g`, when at most `before` batches had been sent. */
  ghost predicate QueuedUnder(queued: seq<Entry>, p: Path, g: nat, before: nat)
  {
    exists i :: 0 <= i < |queued| && queued[i].path == p && queued[i].generation == g && queued[i].at <= before
  }

  ghost predicate Sourced(queued: seq<Entry>, paths: set<Path>, g: nat, before: nat)
  {
    forall p :: p in paths && p != [] ==> QueuedUnder(queued, p, g, before)
  }

  ghost predicate Logged(l: Line)
  {
    && l.sequence == |l.log| + 1
    && (forall k :: 0 <= k < |l.log| ==>
         l.log[k].sequence == k + 1 && Sourced(l.queued, l.log[k].paths, l.log[k].generation, k))
    && (forall i :: 0 <= i < |l.queued| ==> l.queued[i].at <= |l.log|)
  }

  ghost predicate Owing(l: Line)
  {
    && (l.pending == {} <==> l.generation.None?)
    && ([] in l.pending ==> l.pending == {[]})
    && (l.generation.Some? ==> Sourced(l.queued, l.pending, l.generation.value, |l.log|))
  }

  /** Whatever was queued before batch `k` went out has been delivered by then. */
  ghost predicate DeliveredBy(l: Line, k: nat)
    requires k < |l.log|
  {
    forall i :: 0 <= i < |l.queued| && l.queued[i].at <= k ==> Delivered(l.log[..k + 1], l.queued[i])
  }

  /** A batch that calls coverage certain leaves nothing behind. */
  ghost predicate Honest(l: Line)
  {
    forall k :: 0 <= k < |l.log| && !l.log[k].coverage.Uncertain? ==> DeliveredBy(l, k)
  }

  ghost predicate Kept(l: Line)
  {
    Conserved(l) && Logged(l) && Owing(l) && Honest(l)
  }

  lemma SourcedLater(queued: seq<Entry>, more: seq<Entry>, paths: set<Path>, g: nat, before: nat, later: nat)
    requires Sourced(queued, paths, g, before) && before <= later
    ensures Sourced(queued + more, paths, g, later)
  {
    forall p | p in paths && p != [] ensures QueuedUnder(queued + more, p, g, later) {
      assert QueuedUnder(queued, p, g, before);
      var i :| 0 <= i < |queued| && queued[i].path == p && queued[i].generation == g && queued[i].at <= before;
      assert (queued + more)[i] == queued[i];
    }
  }

  lemma LoggedLater(l: Line, more: seq<Entry>)
    requires Logged(l) && (forall i :: 0 <= i < |more| ==> more[i].at == |l.log|)
    ensures Logged(l.(queued := l.queued + more))
  {
    forall k | 0 <= k < |l.log| ensures Sourced(l.queued + more, l.log[k].paths, l.log[k].generation, k) {
      SourcedLater(l.queued, more, l.log[k].paths, l.log[k].generation, k, k);
    }
  }

  lemma HonestLater(l: Line, e: Entry)
    requires Honest(l) && e.at == |l.log|
    ensures Honest(l.(queued := l.queued + [e]))
  {
    var m := l.(queued := l.queued + [e]);
    forall k | 0 <= k < |m.log| && !m.log[k].coverage.Uncertain? ensures DeliveredBy(m, k) {
      assert DeliveredBy(l, k);
      forall i | 0 <= i < |m.queued| && m.queued[i].at <= k ensures Delivered(m.log[..k + 1], m.queued[i]) {
        assert i < |l.queued| && m.queued[i] == l.queued[i];
      }
    }
  }

  lemma HonestSends(l: Line, batch: Batch)
    requires Honest(l) && (batch.coverage.Uncertain? || AllDelivered(Sent(l, batch)))
    ensures Honest(Sent(l, batch))
  {
    var m := Sent(l, batch);
    forall k | 0 <= k < |m.log| && !m.log[k].coverage.Uncertain? ensures DeliveredBy(m, k) {
      if k < |l.log| {
        assert DeliveredBy(l, k);
        assert m.log[..k + 1] == l.log[..k + 1];
      } else {
        assert m.log[..k + 1] == m.log;
      }
    }
  }

  lemma QueueKeeps(l: Line, selection: nat, path: Path)
    requires Kept(l)
    ensures Kept(QueuePath(l, selection, path))
  {
    var m := QueuePath(l, selection, path);
    var e := Entry(path, selection, |l.log|);
    LoggedLater(l, [e]);
    HonestLater(l, e);
    assert m.log == l.log;
    if l.generation == Some(selection) {
      SourcedLater(l.queued, [e], l.pending, selection, |l.log|, |l.log|);
    }
    assert m.queued[|l.queued|] == e;
    assert QueuedUnder(m.queued, path, selection, |l.log|);
    if l.connected && m.reason.None? {
      forall i | 0 <= i < |m.queued| ensures Delivered(m.log, m.queued[i]) || Covers(m.pending, m.queued[i].path) {
        if i < |l.queued| {
          assert m.queued[i] == l.queued[i];
        }
      }
    }
  }

  lemma RaiseKeeps(l: Line, selection: nat, reason: Reason)
    requires Kept(l)
    ensures Kept(Raise(l, selection, reason))
  {
    QueueKeeps(l.(epoch := l.epoch + 1, reason := Some(Strongest(l.reason, reason))), selection, []);
  }

  /** Pending paths may be forgotten only while coverage is uncertain or nobody listens. */
  lemma ForgetKeeps(l: Line)
    requires Kept(l) && (l.reason.Some? || !l.connected)
    ensures Kept(Cleared(l))
  {
  }

  lemma SendKeeps(l: Line, batch: Batch)
    requires Logged(l) && Honest(l)
    requires batch.sequence == l.sequence && Sourced(l.queued, batch.paths, batch.generation, |l.log|)
    requires batch.coverage.Uncertain? || [] in batch.paths || (Settled(l) && batch.paths == l.pending)
    ensures var m := Sent(Cleared(l), batch); Logged(m) && Owing(m) && Honest(m)
  {
    if !batch.coverage.Uncertain? {
      SendDelivers(l, batch);
    }
    HonestSends(Cleared(l), batch);
  }

  lemma DeliveredLater(log: seq<Batch>, batch: Batch, e: Entry)
    requires Delivered(log, e) || (e.at <= |log| && Covers(batch.paths, e.path))
    ensures Delivered(log + [batch], e)
  {
    if Delivered(log, e) {
      var k :| e.at <= k < |log| && Covers(log[k].paths, e.path);
      assert (log + [batch])[k] == log[k];
    } else {
      assert (log + [batch])[|log|] == batch;
    }
  }

  /** Everything queued so far has been delivered. */
  ghost predicate AllDelivered(l: Line)
  {
    forall i :: 0 <= i < |l.queued| ==> Delivered(l.log, l.queued[i])
  }

  /** A batch of all pending paths delivers everything still owed; a batch of the root delivers everything. */
  lemma SendDelivers(l: Line, batch: Batch)
    requires Logged(l) && ([] in batch.paths || (Settled(l) && batch.paths == l.pending))
    ensures AllDelivered(Sent(Cleared(l), batch))
  {
    forall i | 0 <= i < |l.queued| ensures Delivered(l.log + [batch], l.queued[i]) {
      DeliveredLater(l.log, batch, l.queued[i]);
    }
  }

  lemma DeliveredKeeps(l: Line)
    requires AllDelivered(l) && Logged(l) && Owing(l) && Honest(l)
    ensures Kept(l)
  {
  }

  lemma QueueAllKeeps(s: Sub, paths: seq<Path>)
    requires Kept(s.line)
    ensures Kept(QueueAll(s, paths).line)
    decreases |paths|
  {
    if paths != [] {
      QueueKeeps(s.line, s.selection, paths[0]);
      QueueAllKeeps(Queue(s, paths[0]), paths[1..]);
    }
  }

  // ----- flush -------------------------------------------------------------

  /** The line after a flush: nothing changes, one batch goes out, or the root is owed under uncertainty. */
  lemma FlushShape(s: Sub, room: bool)
    requires Kept(s.line) && s.maxBatchPaths >= 1 && (s.line.generation.Some? ==> s.line.generation.value == s.selection)
    ensures var t := Flush(s, room);
      && t == s.(line := t.line, recovery := t.recovery)
      && Kept(t.line)
      && (s.line.reason.Some? ==> t.line.reason.Some?) && s.line.epoch <= t.line.epoch
      && (t.line.pending != {} ==> t.line.reason.Some?)
      && (t.line.log == s.line.log
          || (&& t.line.log == s.line.log + [t.line.log[|s.line.log|]]
              && var b := t.line.log[|s.line.log|];
                 && b.generation == s.selection && b.root == s.root && |b.paths| <= s.maxBatchPaths
                 && b.coverage == CoverageNow(t) && (b.coverage.Uncertain? || AllDelivered(t.line))))
  {
    if s.line.pending != {} {
      var u := if |s.line.pending| > s.maxBatchPaths then MarkUncertain(s, ConsumerBackpressure) else s;
      if |s.line.pending| > s.maxBatchPaths {
        RaiseKeeps(s.line, s.selection, ConsumerBackpressure);
      }
      if s.line.connected && room {
        SendKeeps(u.line, BatchOf(u));
        if u.line.reason.None? {
          SendDelivers(u.line, BatchOf(u));
          DeliveredKeeps(Sent(Cleared(u.line), BatchOf(u)));
        }
      } else if s.line.connected {
        var v := Cleared(u.line);
        RaiseUncertain(v, s.selection, ConsumerBackpressure);
      } else {
        ForgetKeeps(u.line);
      }
    }
  }

  /** Once uncertainty is raised, nothing need be remembered but the root. */
  lemma RaiseUncertain(l: Line, selection: nat, reason: Reason)
    requires Logged(l) && Owing(l) && Honest(l)
    ensures Kept(Raise(l, selection, reason))
  {
    var m := l.(epoch := l.epoch + 1, reason := Some(Strongest(l.reason, reason)));
    assert Kept(m);
    QueueKeeps(m, selection, []);
  }
}
