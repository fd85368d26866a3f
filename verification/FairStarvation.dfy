// A registration that can be served is served within a number of calls that depends
// only on what is left of this round and the next.

module FairStarvation {
  import opened FairQueue
  import opened FairRounds

  /** `n` entries at `limit` a call. */
  function Turns(n: nat, limit: nat): (t: nat)
    requires limit > 0
    ensures (t - 1) * limit < n <= t * limit
    decreases n
  {
    if n == 0 then 0 else if n <= limit then 1 else 1 + Turns(n - limit, limit)
  }

  lemma {:induction false} TurnsMonotone(m: nat, n: nat, limit: nat)
    requires limit > 0 && m <= n
    ensures Turns(m, limit) <= Turns(n, limit)
    decreases n
  {
    if m > limit {
      TurnsMonotone(m - limit, n - limit, limit);
    }
  }

  /** The calls by which a registration that stays is returned. */
  function Calls(round: Round, keys: set<Id>, x: Id, limit: nat): nat
    requires limit > 0
  {
    var left := Left(round, keys);
    if x in left then Turns(Rank(left, x), limit)
    else Turns(|left|, limit) + Turns(Rank(keys, x), limit)
  }

  lemma RankPositive(s: set<Id>, x: Id)
    requires x in s
    ensures 1 <= Rank(s, x) <= |s|
  {
    Subset({x}, set y | y in s && y <= x);
    Subset((set y | y in s && y <= x), s);
  }

  lemma {:induction false} FirstsRank(s: set<Id>, n: nat, t: set<Id>, x: Id)
    requires x in s && x !in Firsts(s, n)
    requires forall y :: y in t <==> y in s && y !in Firsts(s, n)
    ensures |Firsts(s, n)| == n && Rank(t, x) + n == Rank(s, x)
    decreases n
  {
    if n == 0 {
      assert t == s;
    } else {
      var m := Least(s);
      RankFalls(s, x, m);
      FirstsRank(s - {m}, n - 1, t, x);
    }
  }

  lemma {:induction false} FirstsSize(s: set<Id>, n: nat, t: set<Id>)
    requires |Firsts(s, n)| == n
    requires forall y :: y in t <==> y in s && y !in Firsts(s, n)
    ensures |t| + n == |s|
    decreases n
  {
    if n == 0 {
      assert t == s;
    } else {
      FirstsSize(s - {Least(s)}, n - 1, t);
    }
  }

  lemma InspectedIsReturned(round: Round, keys: set<Id>, selectable: set<Id>, limit: nat, x: Id)
    requires limit > 0 && keys != {} && x in Firsts(Todo(round, keys), limit) && x in selectable
    ensures x in Entries(round, keys, selectable, limit).entries
  {
    var got := Firsts(Todo(round, keys), limit);
    ChosenAre(got, selectable);
    assert Chosen(got, selectable) != [];
    ResumeShape(round, keys, selectable, limit, got, Chosen(got, selectable));
  }

  /** A call of the round the registration waits in. */
  lemma CallInRound(round: Round, keys: set<Id>, selectable: set<Id>, limit: nat, x: Id)
    requires Sound(round) && limit > 0 && x in keys && x in selectable && x in Todo(round, keys)
    ensures var o := Entries(round, keys, selectable, limit);
      x in o.entries || Calls(o.round, keys, x, limit) + 1 <= Calls(round, keys, x, limit)
  {
    var todo := Todo(round, keys);
    var got := Firsts(todo, limit);
    if x in got {
      InspectedIsReturned(round, keys, selectable, limit, x);
    } else {
      var t := todo - (set y | y in got);
      FirstsRank(todo, limit, t, x);
      ResumeShape(round, keys, selectable, limit, got, Chosen(got, selectable));
      StoppedLeaves(todo, limit, round, keys, Upper(round, keys), got, Chosen(got, selectable));
      var o := Entries(round, keys, selectable, limit);
      assert Left(o.round, keys) == t;
      RankPositive(t, x);
      InRoundNearer(round, o.round, keys, limit, x);
    }
  }

  lemma InRoundNearer(round: Round, after: Round, keys: set<Id>, limit: nat, x: Id)
    requires Sound(round) && limit > 0 && x in keys && x in Todo(round, keys) && x in Left(after, keys)
    requires 1 <= Rank(Left(after, keys), x) == Rank(Todo(round, keys), x) - limit
    ensures Calls(after, keys, x, limit) + 1 <= Calls(round, keys, x, limit)
  {
  }

  /** A call that stays in a round the registration is no longer part of. */
  lemma CallBefore(round: Round, keys: set<Id>, selectable: set<Id>, limit: nat, x: Id)
    requires Sound(round) && limit > 0 && x in keys && round.upper.Some? && x !in Left(round, keys)
    requires limit <= |Left(round, keys)|
    ensures var o := Entries(round, keys, selectable, limit);
      Calls(o.round, keys, x, limit) + 1 <= Calls(round, keys, x, limit)
  {
    var left := Left(round, keys);
    var got := Firsts(left, limit);
    var o := Entries(round, keys, selectable, limit);
    StoppedLeaves(left, limit, round, keys, round.upper.value, got, Chosen(got, selectable));
    var rest := Left(o.round, keys);
    FirstsSize(left, limit, rest);
    assert |rest| == |left| - limit;
    if o.round.upper.None? {
      TurnsMonotone(0, |left| - limit, limit);
    }
  }

  lemma WrapTurns(rank: nat, left: nat, limit: nat)
    requires left < limit < rank + left
    ensures Turns(rank - (limit - left), limit) + 1 <= Turns(left, limit) + Turns(rank, limit)
  {
    TurnsMonotone(rank - (limit - left), rank, limit);
  }

  lemma NewRoundRank(keys: set<Id>, selectable: set<Id>, n: nat, got: seq<Id>, x: Id)
    requires n > 0 && x in keys && x !in Firsts(keys, n)
    ensures var left := Left(Wrapped(keys, selectable, n, got).round, keys);
      x in left && Rank(left, x) + n == Rank(keys, x) > n
  {
    var more := Firsts(keys, n);
    var t := keys - (set y | y in more);
    FirstsRank(keys, n, t, x);
    NewRoundLeaves(keys, selectable, n, got);
    assert Left(Wrapped(keys, selectable, n, got).round, keys) == t;
    RankPositive(t, x);
  }

  /** A call that spends what is left of its limit on a new round. */
  lemma CallWraps(round: Round, keys: set<Id>, selectable: set<Id>, limit: nat, x: Id)
    requires Sound(round) && limit > 0 && x in keys && x in selectable
    requires round.upper.Some? && x !in Left(round, keys) && |Left(round, keys)| < limit
    requires Chosen(Firsts(Left(round, keys), limit), selectable) == []
    ensures var o := Entries(round, keys, selectable, limit);
      x in o.entries || Calls(o.round, keys, x, limit) + 1 <= Calls(round, keys, x, limit)
  {
    var left := Left(round, keys);
    var got := Firsts(left, limit);
    var n := limit - |left|;
    ResumeShape(round, keys, selectable, limit, got, Chosen(got, selectable));
    if x in Firsts(keys, n) {
      NewRoundLeaves(keys, selectable, n, got);
      ChosenAre(Firsts(keys, n), selectable);
    } else {
      NewRoundRank(keys, selectable, n, got, x);
      WrapNearer(round, Wrapped(keys, selectable, n, got).round, keys, limit, x);
    }
  }

  lemma WrapNearer(round: Round, after: Round, keys: set<Id>, limit: nat, x: Id)
    requires x !in Left(round, keys) && |Left(round, keys)| < limit && x in Left(after, keys)
    requires Rank(Left(after, keys), x) + limit - |Left(round, keys)| == Rank(keys, x) > limit - |Left(round, keys)|
    ensures Calls(after, keys, x, limit) + 1 <= Calls(round, keys, x, limit)
  {
    WrapTurns(Rank(keys, x), |Left(round, keys)|, limit);
  }

  /** Each call returns a selectable registration or brings it a call nearer. */
  lemma CallProgress(round: Round, keys: set<Id>, selectable: set<Id>, limit: nat, x: Id)
    requires Sound(round) && limit > 0 && x in keys && x in selectable
    ensures var o := Entries(round, keys, selectable, limit);
      x in o.entries || Calls(o.round, keys, x, limit) + 1 <= Calls(round, keys, x, limit)
  {
    var left := Left(round, keys);
    if x in Todo(round, keys) {
      CallInRound(round, keys, selectable, limit, x);
    } else if |left| >= limit {
      CallBefore(round, keys, selectable, limit, x);
    } else if Chosen(Firsts(left, limit), selectable) == [] {
      CallWraps(round, keys, selectable, limit, x);
    } else {
      FirstsAll(left, limit);
      ChosenAre(Firsts(left, limit), selectable);
      assert left != {};
    }
  }

  // ----- over whole traces -------------------------------------------------

  /** Registrations come with ever larger ids, and go in any order, between the calls of one dispatcher. */
  datatype World = World(keys: set<Id>, round: Round, nextId: Id)

  datatype Op = Register | Unregister(id: Id) | Call(selectable: set<Id>)

  function Next(w: World, op: Op, limit: nat): World
  {
    match op
    case Register => w.(keys := w.keys + {w.nextId}, nextId := w.nextId + 1)
    case Unregister(id) => w.(keys := w.keys - {id})
    case Call(selectable) => w.(round := Entries(w.round, w.keys, selectable, limit).round)
  }

  ghost predicate Valid(w: World)
  {
    && Sound(w.round)
    && (forall x :: x in w.keys ==> x < w.nextId)
    && (w.round.upper.Some? ==> w.round.upper.value < w.nextId)
  }

  lemma ValidKept(w: World, op: Op, limit: nat)
    requires Valid(w) && limit > 0
    ensures Valid(Next(w, op, limit))
  {
    if op.Call? && w.keys != {} {
      CallInspects(w.round, w.keys, op.selectable, limit);
      assert Greatest(w.keys) in w.keys;
    }
  }

  /** Registrations that come or go bring none that waits further from its turn. */
  lemma CallsUnaffected(w: World, op: Op, limit: nat, x: Id)
    requires Valid(w) && limit > 0 && !op.Call? && x in w.keys && x in Next(w, op, limit).keys
    ensures Calls(w.round, Next(w, op, limit).keys, x, limit) <= Calls(w.round, w.keys, x, limit)
  {
    var v := Next(w, op, limit);
    var left, after := Left(w.round, w.keys), Left(v.round, v.keys);
    assert after <= left;
    assert x in after <==> x in left;
    RankMonotone(after, left, x);
    Subset(after, left);
    assert (set y | y in v.keys && y <= x) <= (set y | y in w.keys && y <= x);
    Subset((set y | y in v.keys && y <= x), (set y | y in w.keys && y <= x));
    TurnsMonotone(Rank(after, x), Rank(left, x), limit);
    TurnsMonotone(|after|, |left|, limit);
    TurnsMonotone(Rank(v.keys, x), Rank(w.keys, x), limit);
  }

  ghost predicate Trace(worlds: seq<World>, ops: seq<Op>, limit: nat)
  {
    && |worlds| == |ops| + 1
    && Valid(worlds[0])
    && forall k :: 0 <= k < |ops| ==> worlds[k + 1] == Next(worlds[k], ops[k], limit)
  }

  /** `x` stays registered, can be served at every call, and no call returns it. */
  ghost predicate Starved(worlds: seq<World>, ops: seq<Op>, limit: nat, x: Id)
    requires |worlds| == |ops| + 1
  {
    && (forall k :: 0 <= k < |worlds| ==> x in worlds[k].keys)
    && (forall k :: 0 <= k < |ops| && ops[k].Call? ==>
         x in ops[k].selectable && x !in Entries(worlds[k].round, worlds[k].keys, ops[k].selectable, limit).entries)
  }

  function CallCount(ops: seq<Op>): nat
  {
    if ops == [] then 0 else (if ops[0].Call? then 1 else 0) + CallCount(ops[1..])
  }

  /** Nothing starves: fewer calls can pass without serving `x` than it takes to finish this round and reach it in the next. */
  lemma {:induction false} NoStarvation(worlds: seq<World>, ops: seq<Op>, limit: nat, x: Id)
    requires limit > 0 && Trace(worlds, ops, limit) && Starved(worlds, ops, limit, x)
    ensures CallCount(ops) < Calls(worlds[0].round, worlds[0].keys, x, limit)
    decreases |ops|
  {
    var w := worlds[0];
    assert x in w.keys;
    if ops == [] {
      RankPositive(w.keys, x);
      if x in Left(w.round, w.keys) { RankPositive(Left(w.round, w.keys), x); }
    } else {
      assert worlds[1] == Next(w, ops[0], limit);
      assert x in worlds[1].keys;
      ValidKept(w, ops[0], limit);
      if ops[0].Call? {
        CallProgress(w.round, w.keys, ops[0].selectable, limit, x);
      } else {
        CallsUnaffected(w, ops[0], limit, x);
      }
      NoStarvation(worlds[1..], ops[1..], limit, x);
    }
  }
}
