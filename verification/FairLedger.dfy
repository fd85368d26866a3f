// A round of the dispatcher from its first call to its last: who is inspected in it, and
// how often, while registrations come and go.

module FairLedger {
  import opened FairQueue
  import opened FairRounds
  import opened FairStarvation

  /** The registrations there were when the round began, and those inspected in it so far. */
  datatype Ledger = Ledger(world: World, roster: set<Id>, done: seq<Id>)

  datatype Record = Record(roster: set<Id>, done: seq<Id>)

  /** The call inspects the rest of its round, selects nobody, and begins a new round with what is left of its limit. */
  predicate GoesRound(w: World, selectable: set<Id>, limit: nat)
  {
    && limit > 0 && w.keys != {} && w.round.upper.Some?
    && |Firsts(Todo(w.round, w.keys), limit)| < limit
    && Chosen(Firsts(Todo(w.round, w.keys), limit), selectable) == []
  }

  /** The record of the round the call ends, if it ends one. */
  function Closed(l: Ledger, selectable: set<Id>, limit: nat): Option<Record>
  {
    var w := l.world;
    if limit == 0 || w.keys == {} then None
    else
      var o := Entries(w.round, w.keys, selectable, limit);
      if GoesRound(w, selectable, limit) then Some(Record(l.roster, l.done + Firsts(Todo(w.round, w.keys), limit)))
      else if o.round.upper.Some? then None
      else if w.round.upper.None? then Some(Record(w.keys, o.inspected))
      else Some(Record(l.roster, l.done + o.inspected))
  }

  function Noted(l: Ledger, op: FairStarvation.Op, limit: nat): Ledger
  {
    var w, v := l.world, FairStarvation.Next(l.world, op, limit);
    if !op.Call? || limit == 0 || w.keys == {} then l.(world := v)
    else
      var o := Entries(w.round, w.keys, op.selectable, limit);
      if GoesRound(w, op.selectable, limit) then
        Ledger(v, w.keys, Firsts(w.keys, limit - |Firsts(Todo(w.round, w.keys), limit)|))
      else if w.round.upper.None? then Ledger(v, w.keys, o.inspected)
      else l.(world := v, done := l.done + o.inspected)
  }

  predicate Distinct(s: seq<Id>)
  {
    forall i, j :: 0 <= i < j < |s| ==> s[i] != s[j]
  }

  /** Of the roster, whoever is still registered has been inspected once or is left, and nobody else takes part. */
  ghost predicate Kept(l: Ledger)
  {
    var left := Left(l.world.round, l.world.keys);
    l.world.round.upper.Some? ==>
      && Distinct(l.done) && (forall x :: x in l.done ==> x in l.roster && x !in left)
      && (forall x :: x in l.roster && x in l.world.keys ==> x in l.done || x in left)
      && (forall x :: x in left ==> x in l.roster)
      && (forall x :: x in l.roster ==> x <= l.world.round.upper.value)
  }

  /** Everyone on the roster who is still registered was inspected exactly once, and nobody who came later was. */
  ghost predicate OnceEach(r: Record, keys: set<Id>)
  {
    && Distinct(r.done)
    && (forall x :: x in r.done ==> x in r.roster)
    && (forall x :: x in r.roster && x in keys ==> x in r.done)
  }

  lemma AscendingIsDistinct(s: seq<Id>)
    requires Ascends(s)
    ensures Distinct(s)
  {
  }

  lemma JoinDistinct(a: seq<Id>, b: seq<Id>)
    requires Distinct(a) && Distinct(b) && forall x :: x in a ==> x !in b
    ensures Distinct(a + b)
  {
    var s := a + b;
    forall i, j | 0 <= i < j < |s| ensures s[i] != s[j] {
      assert i < |a| ==> s[i] in a;
      assert j >= |a| ==> s[j] in b;
    }
  }

  /** The upper bound of a round is kept, or was the greatest registration when the round began. */
  lemma UpperStays(w: World, selectable: set<Id>, limit: nat)
    requires limit > 0 && w.keys != {}
    ensures var o := Entries(w.round, w.keys, selectable, limit);
      o.round.upper.Some? ==>
        o.round.upper.value == if GoesRound(w, selectable, limit) then Greatest(w.keys) else Upper(w.round, w.keys)
  {
  }

  lemma WrapShape(w: World, selectable: set<Id>, limit: nat)
    requires GoesRound(w, selectable, limit) && Sound(w.round)
    ensures var o := Entries(w.round, w.keys, selectable, limit);
      var got := Firsts(Todo(w.round, w.keys), limit);
      Wraps(o, Todo(w.round, w.keys), w.keys, selectable, got, Firsts(w.keys, limit - |got|))
  {
    WrapInspects(Todo(w.round, w.keys), w.keys, selectable, limit);
    ResumeShape(w.round, w.keys, selectable, limit, Firsts(Todo(w.round, w.keys), limit), []);
  }

  lemma StayShape(w: World, selectable: set<Id>, limit: nat)
    requires !GoesRound(w, selectable, limit) && Sound(w.round) && limit > 0 && w.keys != {}
    ensures Continues(Entries(w.round, w.keys, selectable, limit), Todo(w.round, w.keys), w.keys)
  {
    var todo := Todo(w.round, w.keys);
    var got := Firsts(todo, limit);
    ResumeShape(w.round, w.keys, selectable, limit, got, Chosen(got, selectable));
    if |got| == limit {
      StopInspects(w.round, w.keys, selectable, limit);
    } else {
      EndInspects(todo, w.keys, limit, Chosen(got, selectable));
    }
  }

  /** A call that stays in its round, or begins one when none is under way. */
  lemma StayKeeps(l: Ledger, selectable: set<Id>, limit: nat)
    requires Kept(l) && FairStarvation.Valid(l.world) && limit > 0 && l.world.keys != {} && !GoesRound(l.world, selectable, limit)
    ensures Kept(Noted(l, Call(selectable), limit))
    ensures var c := Closed(l, selectable, limit); c.Some? ==> OnceEach(c.value, l.world.keys)
  {
    var w := l.world;
    var o := Entries(w.round, w.keys, selectable, limit);
    StayShape(w, selectable, limit);
    UpperStays(w, selectable, limit);
    AscendingIsDistinct(o.inspected);
    if w.round.upper.Some? {
      JoinDistinct(l.done, o.inspected);
    }
  }

  /** A call that ends its round and begins another leaves the first complete. */
  lemma WrapCloses(l: Ledger, selectable: set<Id>, limit: nat)
    requires Kept(l) && FairStarvation.Valid(l.world) && GoesRound(l.world, selectable, limit)
    ensures var c := Closed(l, selectable, limit); c.Some? && OnceEach(c.value, l.world.keys)
  {
    var got := Firsts(Todo(l.world.round, l.world.keys), limit);
    WrapShape(l.world, selectable, limit);
    AscendingIsDistinct(got);
    JoinDistinct(l.done, got);
  }

  lemma WrapOpens(l: Ledger, selectable: set<Id>, limit: nat)
    requires FairStarvation.Valid(l.world) && GoesRound(l.world, selectable, limit)
    ensures Kept(Noted(l, Call(selectable), limit))
  {
    var w := l.world;
    var more := Firsts(w.keys, limit - |Firsts(Todo(w.round, w.keys), limit)|);
    WrapShape(w, selectable, limit);
    UpperStays(w, selectable, limit);
    AscendingIsDistinct(more);
  }

  lemma NotedKeeps(l: Ledger, op: FairStarvation.Op, limit: nat)
    requires Kept(l) && FairStarvation.Valid(l.world) && limit > 0
    ensures Kept(Noted(l, op, limit)) && FairStarvation.Valid(Noted(l, op, limit).world)
    ensures op.Call? && Closed(l, op.selectable, limit).Some? ==>
              OnceEach(Closed(l, op.selectable, limit).value, l.world.keys)
  {
    ValidKept(l.world, op, limit);
    if op.Call? && l.world.keys != {} {
      if GoesRound(l.world, op.selectable, limit) {
        WrapCloses(l, op.selectable, limit);
        WrapOpens(l, op.selectable, limit);
      } else {
        StayKeeps(l, op.selectable, limit);
      }
    }
  }

  ghost predicate Books(ledgers: seq<Ledger>, ops: seq<FairStarvation.Op>, limit: nat)
  {
    && |ledgers| == |ops| + 1
    && ledgers[0] == Ledger(World({}, Idle, 0), {}, [])
    && forall k {:trigger ops[k]} :: 0 <= k < |ops| ==> ledgers[k + 1] == Noted(ledgers[k], ops[k], limit)
  }

  /**
   * Over the calls of any round, however registrations come and go between them: whoever was registered when the round
   * began and still is when it ends is inspected exactly once in it, and whoever registered since is not inspected.
   */
  lemma {:induction false} InspectedOncePerRound(ledgers: seq<Ledger>, ops: seq<FairStarvation.Op>, limit: nat, k: nat)
    requires Books(ledgers, ops, limit) && limit > 0 && k < |ledgers|
    ensures Kept(ledgers[k]) && FairStarvation.Valid(ledgers[k].world)
    ensures k < |ops| && ops[k].Call? && Closed(ledgers[k], ops[k].selectable, limit).Some? ==>
              OnceEach(Closed(ledgers[k], ops[k].selectable, limit).value, ledgers[k].world.keys)
    decreases k
  {
    if k > 0 {
      InspectedOncePerRound(ledgers, ops, limit, k - 1);
      NotedKeeps(ledgers[k - 1], ops[k - 1], limit);
    }
    if k < |ops| {
      NotedKeeps(ledgers[k], ops[k], limit);
    }
  }
}
