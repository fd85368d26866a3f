// Splitting what was read from inotify into its records.

module InotifyRecords {
  datatype Option<+T> = None | Some(value: T)

  type Byte = b: int | 0 <= b < 256

  const WORD: nat := 0x1_0000_0000
  const HEADER: nat := 16

  /** A record as the kernel writes it, after `struct inotify_event` of inotify(7): the name is padded with zero bytes. */
  datatype Record = Record(wd: nat, mask: nat, cookie: nat, name: seq<Byte>, padding: nat)

  /** What the worker makes of it; the descriptor is the signed reading of its four bytes. */
  datatype Event = Event(descriptor: int, mask: nat, name: Option<seq<Byte>>)

  predicate WellFormed(r: Record)
  {
    && r.wd < WORD && r.mask < WORD && r.cookie < WORD && |r.name| + r.padding < WORD
    && (forall i | 0 <= i < |r.name| :: r.name[i] != 0)
  }

  predicate AllWell(rs: seq<Record>)
  {
    forall i | 0 <= i < |rs| :: WellFormed(rs[i])
  }

  // ----- words -------------------------------------------------------------

  function PutWord(n: nat): (b: seq<Byte>)
    requires n < WORD
    ensures |b| == 4
  {
    [n % 256, n / 256 % 256, n / 65536 % 256, n / 16777216 % 256]
  }

  function GetWord(b: seq<Byte>): (n: nat)
    requires |b| == 4
    ensures n < WORD
  {
    b[0] as int + 256 * (b[1] as int) + 65536 * (b[2] as int) + 16777216 * (b[3] as int)
  }

  lemma WordRoundTrip(n: nat)
    requires n < WORD
    ensures GetWord(PutWord(n)) == n
  {
    var a, b, c := n / 256, n / 65536, n / 16777216;
    assert n == 256 * a + n % 256;
    assert b == a / 256 && a == 256 * b + a % 256;
    assert c == b / 256 && b == 256 * c + b % 256;
    assert c < 256;
  }

  function Signed(n: nat): int
  {
    if n < 0x8000_0000 then n else n - WORD
  }

  // ----- records -----------------------------------------------------------

  function Zeros(n: nat): (z: seq<Byte>)
    ensures |z| == n && forall i :: 0 <= i < n ==> z[i] == 0
  {
    seq(n, i => 0)
  }

  function Encode(r: Record): (b: seq<Byte>)
    requires WellFormed(r)
    ensures |b| == HEADER + |r.name| + r.padding
  {
    PutWord(r.wd) + PutWord(r.mask) + PutWord(r.cookie) + PutWord(|r.name| + r.padding) + r.name + Zeros(r.padding)
  }

  function EventOf(r: Record): Event
  {
    Event(Signed(r.wd), r.mask, if |r.name| + r.padding == 0 then None else Some(r.name))
  }

  /** Up to the first zero byte. */
  function UpToZero(b: seq<Byte>): (s: seq<Byte>)
    ensures s <= b
    ensures forall i :: 0 <= i < |s| ==> s[i] != 0
    ensures |s| < |b| ==> b[|s|] == 0
  {
    if b == [] || b[0] == 0 then [] else [b[0]] + UpToZero(b[1..])
  }

  datatype Parsed = Parsed(event: Event, size: nat) | Truncated

  /** The record at the front of `b`, or the sign that not all of it is there. */
  function ParseOne(b: seq<Byte>): (p: Parsed)
    ensures p.Parsed? ==> HEADER <= p.size <= |b|
  {
    if |b| < HEADER then Truncated
    else
      var len := GetWord(b[12..16]);
      if HEADER + len > |b| then Truncated
      else Parsed(Event(Signed(GetWord(b[0..4])), GetWord(b[4..8]),
                        if len == 0 then None else Some(UpToZero(b[HEADER..HEADER + len]))), HEADER + len)
  }

  /** All records of a buffer, and whether it ended inside one. */
  function ParseAll(b: seq<Byte>): (seq<Event>, bool)
    decreases |b|
  {
    if b == [] then ([], false)
    else
      match ParseOne(b)
      case Truncated => ([], true)
      case Parsed(event, size) =>
        var (events, truncated) := ParseAll(b[size..]);
        ([event] + events, truncated)
  }

  function EncodeAll(rs: seq<Record>): seq<Byte>
    requires AllWell(rs)
  {
    if rs == [] then [] else Encode(rs[0]) + EncodeAll(rs[1..])
  }

  function EventsOf(rs: seq<Record>): (events: seq<Event>)
    ensures |events| == |rs|
  {
    if rs == [] then [] else [EventOf(rs[0])] + EventsOf(rs[1..])
  }

  lemma FieldsInPlace(a: seq<Byte>, b: seq<Byte>, c: seq<Byte>, d: seq<Byte>, n: seq<Byte>, z: seq<Byte>)
    requires |a| == |b| == |c| == |d| == 4
    ensures var e := a + b + c + d + n + z;
      e[0..4] == a && e[4..8] == b && e[12..16] == d && e[HEADER..|e|] == n + z
  {
  }

  lemma FieldsOf(r: Record, b: seq<Byte>)
    requires WellFormed(r) && |Encode(r)| <= |b| && b[..|Encode(r)|] == Encode(r)
    ensures b[0..4] == PutWord(r.wd) && b[4..8] == PutWord(r.mask)
    ensures b[12..16] == PutWord(|r.name| + r.padding)
    ensures b[HEADER..HEADER + |r.name| + r.padding] == r.name + Zeros(r.padding)
  {
    var e := Encode(r);
    FieldsInPlace(PutWord(r.wd), PutWord(r.mask), PutWord(r.cookie), PutWord(|r.name| + r.padding), r.name,
                  Zeros(r.padding));
    assert b[0..4] == e[0..4] && b[4..8] == e[4..8] && b[12..16] == e[12..16];
    assert b[HEADER..|e|] == e[HEADER..|e|];
  }

  lemma NameOf(name: seq<Byte>, padding: nat)
    requires forall i :: 0 <= i < |name| ==> name[i] != 0
    ensures UpToZero(name + Zeros(padding)) == name
  {
    UpToZeroIs(name + Zeros(padding), |name|);
  }

  lemma UpToZeroIs(b: seq<Byte>, n: nat)
    requires n <= |b| && (forall i :: 0 <= i < n ==> b[i] != 0) && (n < |b| ==> b[n] == 0)
    ensures UpToZero(b) == b[..n]
  {
    assert UpToZero(b) == b[..|UpToZero(b)|];
  }

  lemma ParsesFirst(r: Record, b: seq<Byte>)
    requires WellFormed(r) && |Encode(r)| <= |b| && b[..|Encode(r)|] == Encode(r)
    ensures ParseOne(b) == Parsed(EventOf(r), |Encode(r)|)
  {
    FieldsOf(r, b);
    WordRoundTrip(r.wd);
    WordRoundTrip(r.mask);
    WordRoundTrip(|r.name| + r.padding);
    NameOf(r.name, r.padding);
  }

  lemma ShortIsTruncated(r: Record, b: seq<Byte>)
    requires WellFormed(r) && |b| < |Encode(r)| && b == Encode(r)[..|b|]
    ensures ParseOne(b) == Truncated
  {
    if |b| >= HEADER {
      var e := Encode(r);
      FieldsInPlace(PutWord(r.wd), PutWord(r.mask), PutWord(r.cookie), PutWord(|r.name| + r.padding), r.name,
                    Zeros(r.padding));
      assert b[12..16] == e[12..16];
      WordRoundTrip(|r.name| + r.padding);
    }
  }

  /** How many records fit entirely into the first `cut` bytes. */
  function Whole(rs: seq<Record>, cut: nat): (n: nat)
    requires AllWell(rs)
    ensures n <= |rs|
  {
    if rs == [] || cut < |Encode(rs[0])| then 0 else 1 + Whole(rs[1..], cut - |Encode(rs[0])|)
  }

  lemma {:induction false} ParsesInOrder(rs: seq<Record>, cut: nat)
    requires AllWell(rs) && cut <= |EncodeAll(rs)|
    ensures ParseAll(EncodeAll(rs)[..cut]) == Expected(rs, cut)
    decreases |rs|
  {
    if rs == [] {
      assert EncodeAll(rs)[..cut] == [];
    } else if cut < |Encode(rs[0])| {
      CutInFirst(rs, cut);
    } else {
      PastFirst(rs, cut);
      ParsesInOrder(rs[1..], cut - |Encode(rs[0])|);
    }
  }

  /** The events of the whole records, one after the other, and whether anything is left over. */
  function Expected(rs: seq<Record>, cut: nat): (seq<Event>, bool)
    requires AllWell(rs)
  {
    if rs == [] then ([], cut != 0)
    else if cut < |Encode(rs[0])| then ([], cut != 0)
    else
      var (events, left) := Expected(rs[1..], cut - |Encode(rs[0])|);
      ([EventOf(rs[0])] + events, left)
  }

  lemma {:induction false} ExpectedIsWhole(rs: seq<Record>, cut: nat)
    requires AllWell(rs)
    ensures AllWell(rs[..Whole(rs, cut)])
    ensures Expected(rs, cut).0 == EventsOf(rs[..Whole(rs, cut)])
    ensures Expected(rs, cut).1 <==> cut != |EncodeAll(rs[..Whole(rs, cut)])|
    decreases |rs|
  {
    var n := Whole(rs, cut);
    if n == 0 {
      assert rs[..n] == [];
    } else {
      ExpectedIsWhole(rs[1..], cut - |Encode(rs[0])|);
      OneMore(rs, n);
    }
  }

  /**
   * Wherever the buffer is cut off, the records before the cut are parsed in order and unchanged, and the buffer is
   * found truncated exactly when the cut falls inside a record.
   */
  lemma ParsesWhatIsWhole(rs: seq<Record>, cut: nat)
    requires AllWell(rs) && cut <= |EncodeAll(rs)|
    ensures AllWell(rs[..Whole(rs, cut)])
    ensures ParseAll(EncodeAll(rs)[..cut]).0 == EventsOf(rs[..Whole(rs, cut)])
    ensures ParseAll(EncodeAll(rs)[..cut]).1 <==> cut != |EncodeAll(rs[..Whole(rs, cut)])|
  {
    ParsesInOrder(rs, cut);
    ExpectedIsWhole(rs, cut);
  }

  lemma OneMore(rs: seq<Record>, n: nat)
    requires 0 < n <= |rs| && AllWell(rs)
    ensures EventsOf(rs[..n]) == [EventOf(rs[0])] + EventsOf(rs[1..][..n - 1])
    ensures |EncodeAll(rs[..n])| == |Encode(rs[0])| + |EncodeAll(rs[1..][..n - 1])|
  {
    assert rs[..n][1..] == rs[1..][..n - 1];
  }

  lemma CutInFirst(rs: seq<Record>, cut: nat)
    requires rs != [] && AllWell(rs) && cut < |Encode(rs[0])|
    ensures ParseAll(EncodeAll(rs)[..cut]) == ([], cut != 0)
  {
    var b := EncodeAll(rs)[..cut];
    assert b == Encode(rs[0])[..cut];
    if cut > 0 {
      ShortIsTruncated(rs[0], b);
    }
  }

  lemma PastFirst(rs: seq<Record>, cut: nat)
    requires rs != [] && AllWell(rs) && |Encode(rs[0])| <= cut <= |EncodeAll(rs)|
    ensures var (events, truncated) := ParseAll(EncodeAll(rs[1..])[..cut - |Encode(rs[0])|]);
      ParseAll(EncodeAll(rs)[..cut]) == ([EventOf(rs[0])] + events, truncated)
  {
    var e, tail := Encode(rs[0]), EncodeAll(rs[1..])[..cut - |Encode(rs[0])|];
    assert EncodeAll(rs)[..cut] == e + tail;
    ParsesThenRest(rs[0], tail);
  }

  lemma ParsesThenRest(r: Record, tail: seq<Byte>)
    requires WellFormed(r)
    ensures var (events, truncated) := ParseAll(tail);
      ParseAll(Encode(r) + tail) == ([EventOf(r)] + events, truncated)
  {
    var b := Encode(r) + tail;
    assert b[..|Encode(r)|] == Encode(r) && b[|Encode(r)|..] == tail;
    ParsesFirst(r, b);
  }

  lemma SliceOfRest(s: seq<Byte>, o: nat, a: nat, b: nat)
    requires o <= |s| && a <= b <= |s| - o
    ensures s[o..][a..b] == s[o + a..o + b]
  {
    forall i | 0 <= i < b - a ensures s[o..][a..b][i] == s[o + a..o + b][i] {
      assert s[o..][a + i] == s[o + a + i];
    }
  }

  /** The record at an offset, in terms of the buffer. */
  function ParseAt(b: seq<Byte>, o: nat): Parsed
    requires o <= |b|
  {
    if |b| < o + HEADER then Truncated
    else
      var len := GetWord(b[o + 12..o + 16]);
      if |b| < o + HEADER + len then Truncated
      else Parsed(Event(Signed(GetWord(b[o..o + 4])), GetWord(b[o + 4..o + 8]),
                        if len == 0 then None else Some(UpToZero(b[o + HEADER..o + HEADER + len]))), HEADER + len)
  }

  lemma ParsesAtOffset(b: seq<Byte>, o: nat)
    requires o <= |b|
    ensures ParseOne(b[o..]) == ParseAt(b, o)
  {
    if o + HEADER <= |b| {
      SliceOfRest(b, o, 0, 4);
      SliceOfRest(b, o, 4, 8);
      SliceOfRest(b, o, 12, 16);
      var len := GetWord(b[o + 12..o + 16]);
      if o + HEADER + len <= |b| {
        SliceOfRest(b, o, HEADER, HEADER + len);
      }
    }
  }

  // ----- the reader as an object -------------------------------------------

  /** A subscription, as far as a truncated read concerns it: `leaving` while it is disposed of or torn down. */
  datatype Standing = Standing(leaving: bool, uncertain: bool)

  function Marked(s: Standing): Standing
  {
    if s.leaving then s else s.(uncertain := true)
  }

  function AllMarked(subscriptions: map<nat, Standing>): map<nat, Standing>
  {
    map id | id in subscriptions :: Marked(subscriptions[id])
  }

  class NativeReader {
    var pendingNative: seq<Byte>
    var pendingNativeOffset: nat
    var subscriptions: map<nat, Standing>

    constructor (buffer: seq<Byte>, standing: map<nat, Standing>)
      ensures pendingNative == buffer && pendingNativeOffset == 0 && subscriptions == standing
    {
      pendingNative, pendingNativeOffset, subscriptions := buffer, 0, standing;
    }

    /** Visits every subscription and marks those that are not about to go. */
    method MarkAllUncertain()
      modifies `subscriptions
      ensures subscriptions == AllMarked(old(subscriptions))
    {
      var left := subscriptions.Keys;
      while left != {}
        invariant left <= old(subscriptions).Keys == subscriptions.Keys
        invariant forall id :: id in subscriptions ==>
          subscriptions[id] == if id in left then old(subscriptions)[id] else Marked(old(subscriptions)[id])
        decreases |left|
      {
        var id :| id in left;
        if !subscriptions[id].leaving {
          subscriptions := subscriptions[id := subscriptions[id].(uncertain := true)];
        }
        left := left - {id};
      }
    }

    function Unread(): seq<Byte>
      reads this
    {
      if pendingNativeOffset <= |pendingNative| then pendingNative[pendingNativeOffset..] else []
    }

    method NextNativeEvent() returns (event: Option<Event>)
      modifies this
      ensures old(Unread()) == [] ==> event.None? && Unread() == [] && subscriptions == old(subscriptions)
      ensures old(Unread()) != [] && ParseOne(old(Unread())).Truncated? ==>
        event.None? && Unread() == [] && subscriptions == AllMarked(old(subscriptions))
      ensures old(Unread()) != [] && ParseOne(old(Unread())).Parsed? ==>
        && event == Some(ParseOne(old(Unread())).event) && subscriptions == old(subscriptions)
        && Unread() == old(Unread())[ParseOne(old(Unread())).size..]
    {
      if pendingNativeOffset >= |pendingNative| {
        pendingNative, pendingNativeOffset := [], 0;
        return None;
      }
      var offset := pendingNativeOffset;
      ParsesAtOffset(pendingNative, offset);
      if offset + HEADER > |pendingNative| {
        MarkAllUncertain();
        pendingNative, pendingNativeOffset := [], 0;
        return None;
      }
      var len := GetWord(pendingNative[offset + 12..offset + 16]);
      var size := HEADER + len;
      if offset + size > |pendingNative| {
        MarkAllUncertain();
        pendingNative, pendingNativeOffset := [], 0;
        return None;
      }
      var name: Option<seq<Byte>> := None;
      if len > 0 {
        var n := NameIn(pendingNative[offset + HEADER..offset + size]);
        name := Some(n);
      }
      event := Some(Event(Signed(GetWord(pendingNative[offset..offset + 4])),
                          GetWord(pendingNative[offset + 4..offset + 8]), name));
      pendingNativeOffset := offset + size;
      assert Unread() == old(Unread())[size..];
    }

    method NameIn(bytes: seq<Byte>) returns (name: seq<Byte>)
      ensures name == UpToZero(bytes)
    {
      var length := 0;
      while length < |bytes| && bytes[length] != 0
        invariant length <= |bytes| && forall i :: 0 <= i < length ==> bytes[i] != 0
      {
        length := length + 1;
      }
      UpToZeroIs(bytes, length);
      name := bytes[..length];
    }

    /** Reads the buffer to its end. */
    method Drain() returns (events: seq<Event>)
      modifies this
      ensures events == ParseAll(old(Unread())).0 && Unread() == []
      ensures subscriptions == if ParseAll(old(Unread())).1 then AllMarked(old(subscriptions)) else old(subscriptions)
    {
      events := [];
      ghost var start := Unread();
      var more := true;
      while more
        invariant more ==> Continues(start, events, Unread()) && subscriptions == old(subscriptions)
        invariant !more ==> events == ParseAll(start).0 && Unread() == []
        invariant !more ==> subscriptions == if ParseAll(start).1 then AllMarked(old(subscriptions)) else old(subscriptions)
        decreases more, |Unread()|
      {
        ghost var unread := Unread();
        var event := NextNativeEvent();
        if event.Some? {
          OneParsed(start, events, unread);
          events := events + [event.value];
        } else {
          more := false;
        }
      }
    }
  }

  /** What has been read and what is still to be parsed make up the whole. */
  ghost predicate Continues(start: seq<Byte>, events: seq<Event>, unread: seq<Byte>)
  {
    ParseAll(start).0 == events + ParseAll(unread).0 && ParseAll(start).1 == ParseAll(unread).1
  }

  lemma OneParsed(start: seq<Byte>, events: seq<Event>, unread: seq<Byte>)
    requires unread != [] && ParseOne(unread).Parsed? && Continues(start, events, unread)
    ensures Continues(start, events + [ParseOne(unread).event], unread[ParseOne(unread).size..])
  {
    var rest := ParseAll(unread[ParseOne(unread).size..]).0;
    assert ParseAll(unread).0 == [ParseOne(unread).event] + rest;
    assert events + ([ParseOne(unread).event] + rest) == events + [ParseOne(unread).event] + rest;
  }
}
