// The two-round queue by which the engine shares turns among subscriptions.

module FairQueue {
  type Id = nat

  predicate IsLeast(s: set<Id>, m: Id)
  {
    m in s && forall y | y in s :: m <= y
  }

  lemma {:induction false} HasLeast(s: set<Id>) returns (m: Id)
    requires s != {}
    ensures IsLeast(s, m)
    decreases |s|
  {
    var x :| x in s;
    var rest := s - {x};
    if rest == {} {
      m := x;
    } else {
      var n := HasLeast(rest);
      m := if n <= x then n else x;
    }
    forall y | y in s ensures m <= y {
      assert y == x || y in rest;
    }
  }

  function Least(s: set<Id>): (m: Id)
    requires s != {}
    ensures IsLeast(s, m)
  {
    assert exists m :: IsLeast(s, m) by {
      var m := HasLeast(s);
    }
    var m :| IsLeast(s, m);
    m
  }

  /** How many members of `s` come no later than `x`. */
  function Rank(s: set<Id>, x: Id): nat
  {
    |set y | y in s && y <= x|
  }

  datatype Queue = Queue(current: set<Id>, next: set<Id>)

  function Waiting(q: Queue): set<Id>
  {
    q.current + q.next
  }

  datatype Op = Schedule(id: Id) | Pop | Remove(id: Id) | ReadyLen

  function Turned(q: Queue): Queue
  {
    if q.current == {} then Queue(q.next, {}) else q
  }

  /** The id popped next, if any waits. */
  function Popped(q: Queue): (r: set<Id>)
    ensures r == {} <==> Waiting(q) == {}
    ensures forall x :: x in r ==> r == {x} && x in Waiting(q)
  {
    var t := Turned(q);
    if t.current == {} then {} else {Least(t.current)}
  }

  function Next(q: Queue, op: Op): Queue
  {
    match op
    case Schedule(id) => if id in Waiting(q) then q else q.(next := q.next + {id})
    case Pop => var t := Turned(q); t.(current := t.current - Popped(q))
    case Remove(id) => Queue(q.current - {id}, q.next - {id})
    case ReadyLen => Turned(q)
  }

  /** No id waits in both rounds. */
  predicate Valid(q: Queue)
  {
    q.current !! q.next
  }

  /** No id is lost or duplicated: the waiting ids change by exactly what the operation names. */
  lemma WaitingConserved(q: Queue, op: Op)
    requires Valid(q)
    ensures Valid(Next(q, op))
    ensures Waiting(Next(q, op)) == match op
                                    case Schedule(id) => Waiting(q) + {id}
                                    case Pop => Waiting(q) - Popped(q)
                                    case Remove(id) => Waiting(q) - {id}
                                    case ReadyLen => Waiting(q)
  {
    if op.Pop? && Waiting(q) != {} {
      var t := Turned(q);
      assert Waiting(t) == Waiting(q);
      assert Least(t.current) in t.current;
    }
  }

  // ----- fairness over whole traces ----------------------------------------

  ghost predicate Trace(states: seq<Queue>, ops: seq<Op>)
  {
    && |states| == |ops| + 1
    && Valid(states[0])
    && forall k :: 0 <= k < |ops| ==> states[k + 1] == Next(states[k], ops[k])
  }

  ghost predicate WaitsThroughout(states: seq<Queue>, x: Id)
  {
    forall k :: 0 <= k < |states| ==> x in Waiting(states[k])
  }

  /** How often `y` is popped along the trace. */
  function Pops(states: seq<Queue>, ops: seq<Op>, y: Id): nat
    requires |states| == |ops| + 1
    decreases |ops|
  {
    if ops == [] then 0
    else (if ops[0].Pop? && y in Popped(states[0]) then 1 else 0) + Pops(states[1..], ops[1..], y)
  }

  /** How often `y` may still overtake `x`. */
  function Overtakes(q: Queue, x: Id, y: Id): nat
  {
    (if y in q.current then 1 else 0) + (if x in q.next then 1 else 0)
  }

  lemma OvertakesFalls(q: Queue, op: Op, x: Id, y: Id)
    requires Valid(q) && x != y && x in Waiting(q) && x in Waiting(Next(q, op))
    ensures Overtakes(Next(q, op), x, y) + (if op.Pop? && y in Popped(q) then 1 else 0) <= Overtakes(q, x, y)
  {
  }

  /** While an id waits, any other is popped at most twice, and at most once if the id is in the current round. */
  lemma {:induction false} BoundedBypass(states: seq<Queue>, ops: seq<Op>, x: Id, y: Id)
    requires Trace(states, ops) && WaitsThroughout(states, x) && x != y
    ensures Pops(states, ops, y) <= Overtakes(states[0], x, y) <= 2
    ensures x in states[0].current ==> Pops(states, ops, y) <= 1
    decreases |ops|
  {
    if ops != [] {
      WaitingConserved(states[0], ops[0]);
      assert x in Waiting(states[0]) && x in Waiting(states[1]);
      OvertakesFalls(states[0], ops[0], x, y);
      BoundedBypass(states[1..], ops[1..], x, y);
    }
  }

  function PopCount(ops: seq<Op>): nat
  {
    if ops == [] then 0 else (if ops[0].Pop? then 1 else 0) + PopCount(ops[1..])
  }

  lemma RankFalls(s: set<Id>, x: Id, y: Id)
    requires x in s && y in s && y < x
    ensures Rank(s - {y}, x) + 1 == Rank(s, x)
  {
    assert (set z | z in s - {y} && z <= x) == (set z | z in s && z <= x) - {y};
  }

  lemma RankMonotone(s: set<Id>, t: set<Id>, x: Id)
    requires s <= t
    ensures Rank(s, x) <= Rank(t, x)
  {
    Subset((set z | z in s && z <= x), (set z | z in t && z <= x));
  }

  lemma {:induction false} Subset(s: set<Id>, t: set<Id>)
    requires s <= t
    ensures |s| <= |t|
    decreases |t|
  {
    if s != {} {
      var x :| x in s;
      Subset(s - {x}, t - {x});
    }
  }

  /** An id in the current round is the next one popped once those before it are gone. */
  lemma {:induction false} CurrentRoundIsOrdered(states: seq<Queue>, ops: seq<Op>, x: Id)
    requires Trace(states, ops) && WaitsThroughout(states, x) && x in states[0].current
    ensures PopCount(ops) < Rank(states[0].current, x)
    decreases |ops|
  {
    var s := states[0].current;
    if ops == [] {
      Subset({x}, (set z | z in s && z <= x));
    } else {
      var t := states[1].current;
      WaitingConserved(states[0], ops[0]);
      assert x in Waiting(states[1]);
      if ops[0].Pop? {
        RankFalls(s, x, Least(s));
        assert t == s - {Least(s)};
      }
      RankMonotone(t, s, x);
      assert x in t;
      CurrentRoundIsOrdered(states[1..], ops[1..], x);
    }
  }

  // ----- the queue as an object --------------------------------------------

  class FairIdQueue {
    var currentRound: set<Id>
    var nextRound: set<Id>

    constructor ()
      ensures View() == Queue({}, {})
    {
      currentRound, nextRound := {}, {};
    }

    function View(): Queue
      reads this
    {
      Queue(currentRound, nextRound)
    }

    method Schedule(id: Id) returns (inserted: bool)
      modifies this
      ensures View() == Next(old(View()), Op.Schedule(id)) && inserted == (id !in Waiting(old(View())))
    {
      if id in currentRound || id in nextRound {
        return false;
      }
      nextRound := nextRound + {id};
      return true;
    }

    method PopNext() returns (popped: bool, id: Id)
      modifies this
      ensures View() == Next(old(View()), Op.Pop)
      ensures Popped(old(View())) == if popped then {id} else {}
    {
      if currentRound == {} {
        currentRound, nextRound := nextRound, currentRound;
      }
      if currentRound == {} {
        return false, 0;
      }
      id := Least(currentRound);
      currentRound := currentRound - {id};
      return true, id;
    }

    method Remove(id: Id) returns (removed: bool)
      modifies this
      ensures View() == Next(old(View()), Op.Remove(id)) && removed == (id in Waiting(old(View())))
    {
      removed := id in currentRound || id in nextRound;
      currentRound, nextRound := currentRound - {id}, nextRound - {id};
    }

    method ReadyLen() returns (n: nat)
      modifies this
      ensures View() == Next(old(View()), Op.ReadyLen) && n == |currentRound|
    {
      if currentRound == {} {
        currentRound, nextRound := nextRound, currentRound;
      }
      return |currentRound|;
    }

    method IsEmpty() returns (empty: bool)
      ensures empty == (Waiting(View()) == {})
    {
      empty := currentRound == {} && nextRound == {};
      assert currentRound <= Waiting(View()) && nextRound <= Waiting(View());
    }
  }
}
