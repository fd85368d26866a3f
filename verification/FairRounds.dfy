// The frozen rounds by which the dispatcher shares its turns among registrations.

module FairRounds {
  import opened FairQueue

  datatype Option<+T> = None | Some(value: T)

  /** A round inspects the registrations up to `upper`, of which those up to `cursor` are done. */
  datatype Round = Round(cursor: Option<Id>, upper: Option<Id>)

  const Idle: Round := Round(None, None)

  function Greatest(s: set<Id>): (m: Id)
    requires s != {}
    ensures m in s && forall y :: y in s ==> y <= m
    decreases |s|
  {
    var m := Least(s);
    var rest := s - {m};
    assert s == rest + {m};
    if rest == {} then m else Greatest(rest)
  }

  predicate Ascends(r: seq<Id>)
  {
    forall i, j :: 0 <= i < j < |r| ==> r[i] < r[j]
  }

  /** The least `n` members, or all if there are fewer. */
  function Firsts(s: set<Id>, n: nat): (r: seq<Id>)
    ensures |r| == if n <= |s| then n else |s|
    decreases n
  {
    if n == 0 || s == {} then [] else [Least(s)] + Firsts(s - {Least(s)}, n - 1)
  }

  lemma {:induction false} FirstsAreLeast(s: set<Id>, n: nat)
    ensures Ascends(Firsts(s, n))
    ensures forall x :: x in Firsts(s, n) ==> x in s
    ensures forall x, y :: x in Firsts(s, n) && y in s && y !in Firsts(s, n) ==> x < y
    decreases n
  {
    if n > 0 && s != {} {
      var rest := Firsts(s - {Least(s)}, n - 1);
      FirstsAreLeast(s - {Least(s)}, n - 1);
      assert forall i :: 0 <= i < |rest| ==> rest[i] in rest;
    }
  }

  /** What is left to inspect between the cursor and the upper bound. */
  function Between(keys: set<Id>, cursor: Option<Id>, upper: Id): set<Id>
  {
    set x | x in keys && x <= upper && (cursor.Some? ==> cursor.value < x)
  }

  function Chosen(r: seq<Id>, selectable: set<Id>): seq<Id>
  {
    if r == [] then []
    else (if r[0] in selectable then [r[0]] else []) + Chosen(r[1..], selectable)
  }

  lemma {:induction false} ChosenAre(r: seq<Id>, selectable: set<Id>)
    ensures forall x :: x in Chosen(r, selectable) <==> x in r && x in selectable
    decreases |r|
  {
    if r != [] {
      ChosenAre(r[1..], selectable);
      assert r == [r[0]] + r[1..];
    }
  }

  // ----- one call ----------------------------------------------------------

  /** The ids a call inspects, those it returns, and whether the round goes on. */
  datatype Outcome = Outcome(round: Round, inspected: seq<Id>, entries: seq<Id>, pending: bool)

  /** What is left of the round in progress; a new round is to inspect every registration. */
  function Todo(round: Round, keys: set<Id>): set<Id>
  {
    if round.upper.None? then keys else Between(keys, round.cursor, round.upper.value)
  }

  function Upper(round: Round, keys: set<Id>): Id
    requires round.upper.None? ==> keys != {}
  {
    if round.upper.None? then Greatest(keys) else round.upper.value
  }

  function Stopped(inspected: seq<Id>, upper: Id, all: seq<Id>, entries: seq<Id>): Outcome
    requires inspected != []
  {
    var last := inspected[|inspected| - 1];
    if last == upper then Outcome(Idle, all, entries, false)
    else Outcome(Round(Some(last), Some(upper)), all, entries, true)
  }

  /** A new round that spends what a finished one left of the limit. */
  function Wrapped(keys: set<Id>, selectable: set<Id>, n: nat, got: seq<Id>): Outcome
    requires n > 0 && keys != {}
  {
    var more := Firsts(keys, n);
    if |more| == n then Stopped(more, Greatest(keys), got + more, Chosen(more, selectable))
    else Outcome(Idle, got + more, Chosen(more, selectable), false)
  }

  function Entries(round: Round, keys: set<Id>, selectable: set<Id>, limit: nat): Outcome
  {
    if limit == 0 || keys == {} then Outcome(round, [], [], false)
    else
      var got := Firsts(Todo(round, keys), limit);
      var chosen := Chosen(got, selectable);
      if |got| == limit then Stopped(got, Upper(round, keys), got, chosen)
      else if round.upper.None? || chosen != [] then Outcome(Idle, got, chosen, false)
      else Wrapped(keys, selectable, limit - |got|, got)
  }

  lemma ResumeShape(round: Round, keys: set<Id>, selectable: set<Id>, limit: nat, got: seq<Id>, chosen: seq<Id>)
    requires limit > 0 && keys != {} && got == Firsts(Todo(round, keys), limit) && chosen == Chosen(got, selectable)
    ensures var o := Entries(round, keys, selectable, limit);
      if |got| == limit then o == Stopped(got, Upper(round, keys), got, chosen)
      else if round.upper.None? || chosen != [] then o == Outcome(Idle, got, chosen, false)
      else o == Wrapped(keys, selectable, limit - |got|, got)
  {
  }

  lemma {:induction false} ChosenAscends(r: seq<Id>, selectable: set<Id>)
    requires Ascends(r)
    ensures Ascends(Chosen(r, selectable))
    decreases |r|
  {
    if r != [] {
      var rest := Chosen(r[1..], selectable);
      ChosenAscends(r[1..], selectable);
      ChosenAre(r[1..], selectable);
      forall i | 0 <= i < |rest| ensures r[0] < rest[i] {
        assert rest[i] in r[1..];
      }
    }
  }

  ghost predicate Bounded(inspected: seq<Id>, entries: seq<Id>, keys: set<Id>, selectable: set<Id>, limit: nat)
  {
    && |inspected| <= limit && Ascends(entries)
    && (forall x :: x in entries <==> x in inspected && x in selectable)
    && (forall x :: x in inspected ==> x in keys)
  }

  lemma SinglePassBounded(todo: set<Id>, keys: set<Id>, selectable: set<Id>, limit: nat)
    requires todo <= keys
    ensures Bounded(Firsts(todo, limit), Chosen(Firsts(todo, limit), selectable), keys, selectable, limit)
  {
    FirstsAreLeast(todo, limit);
    ChosenAscends(Firsts(todo, limit), selectable);
    ChosenAre(Firsts(todo, limit), selectable);
  }

  /** Nothing selectable was inspected before the second part. */
  lemma SecondPassBounded(got: seq<Id>, more: seq<Id>, keys: set<Id>, selectable: set<Id>, limit: nat)
    requires |got| <= limit && (forall x :: x in got ==> x in keys) && Chosen(got, selectable) == []
    requires Bounded(more, Chosen(more, selectable), keys, selectable, limit - |got|)
    ensures Bounded(got + more, Chosen(more, selectable), keys, selectable, limit)
  {
    NoneChosen(got, selectable);
    ChosenAre(more, selectable);
    assert forall x :: x in got + more <==> x in got || x in more;
  }

  lemma NoneChosen(r: seq<Id>, selectable: set<Id>)
    requires Chosen(r, selectable) == []
    ensures forall x :: x in r ==> x !in selectable
  {
    ChosenAre(r, selectable);
  }

  /** A call inspects at most `limit` registrations, and returns the selectable ones in strictly increasing order. */
  lemma EntriesBounded(round: Round, keys: set<Id>, selectable: set<Id>, limit: nat)
    ensures var o := Entries(round, keys, selectable, limit);
      Bounded(o.inspected, o.entries, keys, selectable, limit)
  {
    if limit > 0 && keys != {} {
      var todo := Todo(round, keys);
      var got := Firsts(todo, limit);
      assert todo <= keys;
      if |got| == limit || round.upper.None? || Chosen(got, selectable) != [] {
        SinglePassBounded(todo, keys, selectable, limit);
      } else {
        FirstsAreLeast(todo, limit);
        SinglePassBounded(keys, keys, selectable, limit - |got|);
        SecondPassBounded(got, Firsts(keys, limit - |got|), keys, selectable, limit);
      }
    }
  }

  /** A call that returns nothing has used its limit up, or nothing at all can be selected. */
  lemma EmptyCallLookedEverywhere(round: Round, keys: set<Id>, selectable: set<Id>, limit: nat)
    ensures var o := Entries(round, keys, selectable, limit);
      o.entries == [] && |o.inspected| < limit ==> keys !! selectable
  {
    var o := Entries(round, keys, selectable, limit);
    if o.entries == [] && |o.inspected| < limit && keys != {} {
      var got := Firsts(Todo(round, keys), limit);
      ResumeShape(round, keys, selectable, limit, got, Chosen(got, selectable));
      var n := if round.upper.None? then limit else limit - |got|;
      FirstsAll(keys, n);
      NoneChosen(Firsts(keys, n), selectable);
    }
  }

  // ----- rounds ------------------------------------------------------------

  /** What is left of the frozen round; between rounds nothing is. */
  function Left(round: Round, keys: set<Id>): set<Id>
  {
    if round.upper.None? then {} else Between(keys, round.cursor, round.upper.value)
  }

  predicate Sound(round: Round)
  {
    round.upper.None? ==> round.cursor.None?
  }

  ghost predicate Same(r: seq<Id>, s: set<Id>)
  {
    forall x :: x in r <==> x in s
  }

  /** Stopping at the limit leaves exactly the part of the round not inspected. */
  lemma StoppedLeaves(todo: set<Id>, n: nat, round: Round, keys: set<Id>, upper: Id, all: seq<Id>, entries: seq<Id>)
    requires n > 0 && |Firsts(todo, n)| == n
    requires todo == (if round.upper.None? then keys else Between(keys, round.cursor, upper))
    requires forall x :: x in todo ==> x <= upper
    ensures var got := Firsts(todo, n);
      var o := Stopped(got, upper, all, entries);
      && (forall x :: x in Left(o.round, keys) <==> x in todo && x !in got)
      && (o.pending <==> o.round.upper.Some?) && Sound(o.round)
  {
    var got := Firsts(todo, n);
    var last := got[n - 1];
    FirstsAreLeast(todo, n);
    assert last in got;
    forall x | x in got ensures x <= last {
      var i :| 0 <= i < n && got[i] == x;
      assert i < n - 1 ==> got[i] < got[n - 1];
    }
    assert forall x :: x in Between(keys, Some(last), upper) ==> x in todo;
    assert forall x :: x in todo && x !in got ==> x in Between(keys, Some(last), upper);
  }

  lemma FirstsAll(s: set<Id>, n: nat)
    requires |Firsts(s, n)| < n
    ensures Same(Firsts(s, n), s)
    decreases n
  {
    if n > 0 && s != {} {
      FirstsAll(s - {Least(s)}, n - 1);
    }
  }

  /** The call stayed in the round: it inspected the least of what was to do, and the rest is left. */
  ghost predicate Continues(o: Outcome, todo: set<Id>, keys: set<Id>)
  {
    && Ascends(o.inspected)
    && (forall x :: x in o.inspected ==> x in todo)
    && (forall x :: x in Left(o.round, keys) <==> x in todo && x !in o.inspected)
  }

  /** The call ended a round in which nothing was left to select, and spent the rest of its limit on a new one. */
  ghost predicate Wraps(o: Outcome, todo: set<Id>, keys: set<Id>, selectable: set<Id>, got: seq<Id>, more: seq<Id>)
  {
    && o.inspected == got + more && Ascends(got) && Ascends(more)
    && Same(got, todo) && (forall x :: x in todo ==> x !in selectable)
    && (forall x :: x in more ==> x in keys)
    && (forall x :: x in Left(o.round, keys) <==> x in keys && x !in more)
  }

  /** A new round begun with what is left of the limit leaves what it did not inspect. */
  lemma NewRoundLeaves(keys: set<Id>, selectable: set<Id>, n: nat, got: seq<Id>)
    requires n > 0 && keys != {}
    ensures var o, more := Wrapped(keys, selectable, n, got), Firsts(keys, n);
      && o.inspected == got + more && o.entries == Chosen(more, selectable)
      && (forall x :: x in Left(o.round, keys) <==> x in keys && x !in more)
      && (o.pending <==> o.round.upper.Some?) && Sound(o.round)
  {
    var more := Firsts(keys, n);
    if |more| == n {
      StoppedLeaves(keys, n, Idle, keys, Greatest(keys), got + more, Chosen(more, selectable));
    } else {
      FirstsAll(keys, n);
    }
  }

  lemma WrapInspects(todo: set<Id>, keys: set<Id>, selectable: set<Id>, limit: nat)
    requires limit > 0 && keys != {} && |Firsts(todo, limit)| < limit && Chosen(Firsts(todo, limit), selectable) == []
    ensures var got := Firsts(todo, limit);
      var o, more := Wrapped(keys, selectable, limit - |got|, got), Firsts(keys, limit - |got|);
      Sound(o.round) && (o.pending <==> o.round.upper.Some?) && Wraps(o, todo, keys, selectable, got, more)
  {
    var got := Firsts(todo, limit);
    FirstsAll(todo, limit);
    NoneChosen(got, selectable);
    FirstsAreLeast(todo, limit);
    FirstsAreLeast(keys, limit - |got|);
    NewRoundLeaves(keys, selectable, limit - |got|, got);
  }

  lemma StopInspects(round: Round, keys: set<Id>, selectable: set<Id>, limit: nat)
    requires limit > 0 && keys != {} && |Firsts(Todo(round, keys), limit)| == limit
    ensures var todo := Todo(round, keys);
      var got := Firsts(todo, limit);
      var o := Stopped(got, Upper(round, keys), got, Chosen(got, selectable));
      Continues(o, todo, keys) && Sound(o.round) && (o.pending <==> o.round.upper.Some?)
  {
    var todo := Todo(round, keys);
    var got := Firsts(todo, limit);
    FirstsAreLeast(todo, limit);
    StoppedLeaves(todo, limit, round, keys, Upper(round, keys), got, Chosen(got, selectable));
  }

  lemma EndInspects(todo: set<Id>, keys: set<Id>, limit: nat, chosen: seq<Id>)
    requires |Firsts(todo, limit)| < limit
    ensures Continues(Outcome(Idle, Firsts(todo, limit), chosen, false), todo, keys)
  {
    FirstsAreLeast(todo, limit);
    FirstsAll(todo, limit);
  }

  /** A call inspects the least of what its round has left, and goes on to a new round only when nothing selectable was. */
  lemma CallInspects(round: Round, keys: set<Id>, selectable: set<Id>, limit: nat)
    requires Sound(round) && limit > 0 && keys != {}
    ensures var o, todo := Entries(round, keys, selectable, limit), Todo(round, keys);
      && Sound(o.round) && (o.pending <==> o.round.upper.Some?)
      && (Continues(o, todo, keys) || (round.upper.Some? && exists got, more :: Wraps(o, todo, keys, selectable, got, more)))
  {
    var todo := Todo(round, keys);
    var got := Firsts(todo, limit);
    ResumeShape(round, keys, selectable, limit, got, Chosen(got, selectable));
    if |got| == limit {
      StopInspects(round, keys, selectable, limit);
    } else if round.upper.Some? && Chosen(got, selectable) == [] {
      WrapInspects(todo, keys, selectable, limit);
    } else {
      EndInspects(todo, keys, limit, Chosen(got, selectable));
    }
  }
}
