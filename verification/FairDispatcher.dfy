// The dispatcher's scan of its registrations, resumed from one call to the next.

module FairDispatcher {
  import opened FairQueue
  import opened FairRounds

  lemma {:induction false} ChosenAppend(r: seq<Id>, x: Id, selectable: set<Id>)
    ensures Chosen(r + [x], selectable) == Chosen(r, selectable) + (if x in selectable then [x] else [])
    decreases |r|
  {
    if r == [] {
      assert [] + [x] == [x] && [x][1..] == [];
    } else {
      assert (r + [x])[1..] == r[1..] + [x];
      ChosenAppend(r[1..], x, selectable);
      var head, more := if r[0] in selectable then [r[0]] else [], if x in selectable then [x] else [];
      assert head + (Chosen(r[1..], selectable) + more) == (head + Chosen(r[1..], selectable)) + more;
    }
  }

  /** What was taken and the first ones of the rest are the first ones of the range. */
  ghost predicate Taken(range: set<Id>, limit: nat, got: seq<Id>, rest: set<Id>)
  {
    |got| <= limit && got + Firsts(rest, limit - |got|) == Firsts(range, limit)
  }

  /** One more of the least, one less to come. */
  lemma TakeLeast(range: set<Id>, limit: nat, got: seq<Id>, rest: set<Id>)
    requires Taken(range, limit, got, rest) && rest != {} && |got| < limit
    ensures Taken(range, limit, got + [Least(rest)], rest - {Least(rest)})
  {
    var n := limit - |got|;
    assert Firsts(rest, n) == [Least(rest)] + Firsts(rest - {Least(rest)}, n - 1);
  }

  lemma AllTaken(range: set<Id>, limit: nat, got: seq<Id>, rest: set<Id>)
    requires Taken(range, limit, got, rest) && (rest == {} || |got| == limit)
    ensures got == Firsts(range, limit)
  {
    assert got + [] == got;
  }

  class FairRound {
    var cursor: Option<Id>
    var upperBound: Option<Id>

    constructor ()
      ensures View() == Idle
    {
      cursor, upperBound := None, None;
    }

    function View(): Round
      reads this
    {
      Round(cursor, upperBound)
    }

    /** Inspects registrations in order until the range or the limit is used up. */
    method Inspect(range: set<Id>, selectable: set<Id>, limit: nat) returns (inspected: seq<Id>, selected: seq<Id>)
      modifies this`cursor
      ensures inspected == Firsts(range, limit) && selected == Chosen(inspected, selectable)
      ensures cursor == if inspected == [] then old(cursor) else Some(inspected[|inspected| - 1])
    {
      inspected, selected := [], [];
      var rest := range;
      while rest != {} && |inspected| < limit
        invariant Taken(range, limit, inspected, rest)
        invariant selected == Chosen(inspected, selectable)
        invariant cursor == if inspected == [] then old(cursor) else Some(inspected[|inspected| - 1])
        decreases |rest|
      {
        var id := Least(rest);
        TakeLeast(range, limit, inspected, rest);
        selected := Select(inspected, selected, id, selectable);
        cursor := Some(id);
        inspected := inspected + [id];
        rest := rest - {id};
      }
      AllTaken(range, limit, inspected, rest);
    }

    method Select(ghost inspected: seq<Id>, selected: seq<Id>, id: Id, selectable: set<Id>) returns (more: seq<Id>)
      requires selected == Chosen(inspected, selectable)
      ensures more == Chosen(inspected + [id], selectable)
    {
      ChosenAppend(inspected, id, selectable);
      more := if id in selectable then selected + [id] else selected;
    }

    /** Ends the round if the limit was met at its upper bound, and otherwise keeps it for the next call. */
    method Stop(last: Id) returns (scanPending: bool)
      requires upperBound.Some? && cursor == Some(last)
      modifies this
      ensures scanPending == (last != old(upperBound).value)
      ensures View() == if scanPending then old(View()) else Idle
    {
      scanPending := last != upperBound.value;
      if !scanPending {
        cursor, upperBound := None, None;
      }
    }

    /** Goes on with the round in progress, or freezes a new one, and inspects up to the limit. */
    method Resume(registrations: set<Id>, selectable: set<Id>, limit: nat)
      returns (inspected: seq<Id>, selected: seq<Id>, initializedRound: bool)
      requires registrations != {} && limit > 0
      modifies this
      ensures initializedRound == old(upperBound).None? && upperBound.Some? && |inspected| <= limit
      ensures inspected != [] ==> cursor == Some(inspected[|inspected| - 1])
      ensures var o := Entries(old(View()), registrations, selectable, limit);
        if |inspected| == limit then o == Stopped(inspected, upperBound.value, inspected, selected)
        else if initializedRound || selected != [] then o == Outcome(Idle, inspected, selected, false)
        else o == Wrapped(registrations, selectable, limit - |inspected|, inspected)
    {
      ghost var round := View();
      initializedRound := upperBound.None?;
      if initializedRound {
        upperBound, cursor := Some(Greatest(registrations)), None;
      }
      var range := Between(registrations, cursor, upperBound.value);
      assert range == Todo(round, registrations);
      inspected, selected := Inspect(range, selectable, limit);
      ResumeShape(round, registrations, selectable, limit, inspected, selected);
    }

    method FairRoundEntries(registrations: set<Id>, selectable: set<Id>, limit: nat)
      returns (entries: seq<Id>, scanPending: bool, inspected: seq<Id>)
      modifies this
      ensures Outcome(View(), inspected, entries, scanPending)
           == Entries(old(View()), registrations, selectable, limit)
    {
      if limit == 0 || registrations == {} {
        return [], false, [];
      }
      var initializedRound: bool;
      inspected, entries, initializedRound := Resume(registrations, selectable, limit);
      if |inspected| == limit {
        scanPending := Stop(inspected[|inspected| - 1]);
        return;
      }
      cursor, upperBound, scanPending := None, None, false;
      if entries == [] && !initializedRound {
        entries, scanPending, inspected := NewRound(registrations, selectable, limit - |inspected|, inspected);
      }
    }

    /** Spends what is left of the limit on a round that is to inspect every registration. */
    method NewRound(registrations: set<Id>, selectable: set<Id>, limit: nat, got: seq<Id>)
      returns (entries: seq<Id>, scanPending: bool, inspected: seq<Id>)
      requires registrations != {} && limit > 0
      modifies this
      ensures Outcome(View(), inspected, entries, scanPending) == Wrapped(registrations, selectable, limit, got)
    {
      cursor, upperBound := None, Some(Greatest(registrations));
      var more: seq<Id>;
      more, entries := Inspect(registrations, selectable, limit);
      inspected := got + more;
      if |more| == limit {
        scanPending := Stop(more[limit - 1]);
      } else {
        cursor, upperBound := None, None;
        scanPending := false;
      }
    }
  }
}
