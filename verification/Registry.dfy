// The registry of kernel watches shared by all subscriptions, and the numeric
// descriptors the kernel reuses. A kernel record names a descriptor only; which
// watch it belongs to is what the registry has to work out.

module Registry {
  import opened Paths

  datatype Option<+T> = None | Some(value: T)

  type Wd = int
  type Serial = nat
  type Lifetime = nat
  type Identity = nat
  type Id = nat

  /** The largest watch lifetime of one descriptor, a 64-bit counter. */
  const MAX_LIFETIME: nat := 0xFFFF_FFFF_FFFF_FFFF

  /** A watch in the kernel. The serial tells kernel watches apart; no worker step branches on it. */
  datatype KernelWatch = KernelWatch(inode: Identity, serial: Serial)

  /** A queued record; the worker sees the descriptor only. `Overflow` says that others could not be queued. */
  datatype Record = Ignored(wd: Wd, serial: Serial) | Other(wd: Wd, serial: Serial) | Overflow

  datatype Interest = Interest(id: Id, path: Path)

  datatype NativeWatch = NativeWatch(lifetime: Lifetime, identity: Identity, interests: set<Interest>, expectsIgnored: bool)

  datatype Lifetimes = Lifetimes(first: Lifetime, last: Lifetime)

  datatype Subscription = Subscription(watched: map<Path, Wd>, uncertain: bool, watchLimit: Option<nat>, disposing: bool)

  datatype World = World(
    // the kernel
    live: map<Wd, KernelWatch>, queue: seq<Record>, nextSerial: Serial,
    // the registry
    watches: map<Wd, NativeWatch>, identities: map<Identity, Wd>, retired: map<Wd, Lifetimes>, exhausted: set<Wd>,
    budget: Option<nat>, subs: map<Id, Subscription>,
    // history: the kernel watches behind the retired and registered lifetimes of each descriptor, oldest first, and
    // the records that never reached the worker
    booked: map<Wd, seq<Serial>>, lost: seq<Record>)

  // ----- kernel calls ------------------------------------------------------

  function RemoveWatch(w: World, d: Wd): (v: World)
    ensures v == w.(live := v.live, queue := v.queue) && d !in v.live
  {
    if d !in w.live then w
    else w.(live := w.live - {d}, queue := w.queue + [Ignored(d, w.live[d].serial)])
  }

  /** Adding a watch yields the descriptor already watching the inode, or else a free one of the kernel's choice. */
  predicate Addable(w: World, inode: Identity, d: Wd)
  {
    if d in w.live then w.live[d].inode == inode
    else forall e | e in w.live :: w.live[e].inode != inode
  }

  function AddWatch(w: World, inode: Identity, d: Wd): (v: World)
    requires Addable(w, inode, d)
    ensures v == w.(live := v.live, nextSerial := v.nextSerial) && d in v.live && v.live[d].inode == inode
  {
    if d in w.live then w
    else w.(live := w.live[d := KernelWatch(inode, w.nextSerial)], nextSerial := w.nextSerial + 1)
  }

  // ----- lifetimes ---------------------------------------------------------

  function Booked(w: World, d: Wd): seq<Serial>
  {
    if d in w.booked then w.booked[d] else []
  }

  /** The lifetime a descriptor without registered watch gets next, unless its counter is used up. */
  function NextLifetime(w: World, d: Wd): Option<Lifetime>
  {
    if d !in w.retired then Some(1)
    else if w.retired[d].last == MAX_LIFETIME then None
    else Some(w.retired[d].last + 1)
  }

  function ExpectIgnored(w: World, d: Wd, lifetime: Lifetime): (v: World)
    ensures v == w.(retired := v.retired, exhausted := v.exhausted) && d in v.retired
  {
    if d !in w.retired then w.(retired := w.retired[d := Lifetimes(lifetime, lifetime)])
    else if lifetime == w.retired[d].last then w
    else if w.retired[d].last + 1 == lifetime && w.retired[d].last < MAX_LIFETIME
      then w.(retired := w.retired[d := Lifetimes(w.retired[d].first, lifetime)])
    else w.(exhausted := w.exhausted + {d})
  }

  function RemoveLifetime(w: World, d: Wd, lifetime: Lifetime): (v: World)
    ensures v == w.(live := v.live, queue := v.queue, retired := v.retired, exhausted := v.exhausted)
    ensures d !in v.live && d in v.retired
  {
    RemoveWatch(ExpectIgnored(w, d, lifetime), d)
  }

  // ----- subscriptions -----------------------------------------------------

  function MarkUncertain(w: World, id: Id): (v: World)
    ensures v == w.(subs := v.subs)
    ensures id in v.subs ==> v.subs[id].uncertain
  {
    if id in w.subs then w.(subs := w.subs[id := w.subs[id].(uncertain := true)]) else w
  }

  function MarkReusedUncertain(w: World, id: Id, d: Wd): (v: World)
    ensures v == w.(subs := v.subs)
    ensures d in w.retired && id in v.subs ==> v.subs[id].uncertain
  {
    if d in w.retired then MarkUncertain(w, id) else w
  }

  function InsertInterest(w: World, id: Id, path: Path, d: Wd): World
    requires d in w.watches && id in w.subs
  {
    w.(watches := w.watches[d := w.watches[d].(interests := w.watches[d].interests + {Interest(id, path)})],
       subs := w.subs[id := w.subs[id].(watched := w.subs[id].watched[path := d])])
  }

  datatype Outcome = Added | BudgetExhausted | Failed

  /** What the system calls of one attempt to add an interest return. */
  datatype Calls = Calls(before: Option<Identity>, added: Option<(Identity, Wd)>, after: Option<Identity>)

  function AddInterest(w: World, id: Id, path: Path, allowNew: bool, calls: Calls): (World, Outcome)
    requires id in w.subs && CallsPossible(w, calls)
  {
    if calls.before.None? then (w, Failed)
    else
      var identity := calls.before.value;
      if identity in w.identities && w.identities[identity] in w.watches then
        if calls.after != Some(identity) then (MarkUncertain(w, id), Failed)
        else (InsertInterest(MarkReusedUncertain(w, id, w.identities[identity]), id, path, w.identities[identity]), Added)
      else if !allowNew || (w.budget.Some? && |w.watches| >= w.budget.value) then (w, BudgetExhausted)
      else if calls.added.None? then (w, Failed)
      else RegisterAdded(AddWatch(w, calls.added.value.0, calls.added.value.1), id, path, identity, calls)
  }

  predicate CallsPossible(w: World, calls: Calls)
  {
    calls.added.Some? ==> Addable(w, calls.added.value.0, calls.added.value.1)
  }

  /** The kernel has returned a descriptor: claim a lifetime for it, reject a collision, and check the path again. */
  function RegisterAdded(w: World, id: Id, path: Path, identity: Identity, calls: Calls): (World, Outcome)
    requires id in w.subs && calls.added.Some? && calls.added.value.1 in w.live
  {
    var d := calls.added.value.1;
    if d in w.watches then
      if w.watches[d].identity != identity then
        (MarkUncertain(RemoveWatch(w.(exhausted := w.exhausted + {d}), d), id), Failed)
      else if calls.after != Some(identity) then (MarkUncertain(w, id), Failed)
      else (InsertInterest(MarkReusedUncertain(w, id, d).(identities := w.identities[identity := d]), id, path, d), Added)
    else if d in w.exhausted then (MarkUncertain(RemoveWatch(w, d), id), Failed)
    else if NextLifetime(w, d).None? then
      (MarkUncertain(RemoveWatch(w.(exhausted := w.exhausted + {d}), d), id), Failed)
    else
      var lifetime := NextLifetime(w, d).value;
      var b := w.(booked := w.booked[d := Booked(w, d) + [w.live[d].serial]]);
      if calls.after != Some(identity) then (MarkUncertain(RemoveLifetime(b, d, lifetime), id), Failed)
      else
        var m := MarkReusedUncertain(b, id, d);
        (InsertInterest(m.(watches := m.watches[d := NativeWatch(lifetime, identity, {}, false)],
                           identities := m.identities[identity := d]), id, path, d), Added)
  }

  /** The watch limit of the subscription is checked before an interest is added. */
  function WatchDirectory(w: World, id: Id, path: Path, allowNew: bool, calls: Calls): (World, Outcome)
    requires id in w.subs && CallsPossible(w, calls)
  {
    var s := w.subs[id];
    if path in s.watched then (w, Added)
    else if s.watchLimit.Some? && |s.watched| >= s.watchLimit.value then (w, BudgetExhausted)
    else AddInterest(w, id, path, allowNew, calls)
  }

  function RemoveInterest(w: World, id: Id, path: Path, d: Wd): World
  {
    if d !in w.watches then w
    else
      var watch := w.watches[d].(interests := w.watches[d].interests - {Interest(id, path)});
      if watch.interests != {} then w.(watches := w.watches[d := watch])
      else RemoveLifetime(w.(watches := w.watches - {d}, identities := w.identities - {watch.identity}), d, watch.lifetime)
  }

  /** Forgets a path of a subscription together with its interest. */
  function Unwatch(w: World, id: Id, path: Path): World
    requires id in w.subs && path in w.subs[id].watched
  {
    var d := w.subs[id].watched[path];
    RemoveInterest(w.(subs := w.subs[id := w.subs[id].(watched := w.subs[id].watched - {path})]), id, path, d)
  }

  // ----- ignored records ---------------------------------------------------

  /** What one subscription loses when a watch with these interests is gone. */
  function Bereaved(id: Id, s: Subscription, interests: set<Interest>, expected: bool): Subscription
  {
    if s.disposing then s
    else s.(watched := map p | p in s.watched && Interest(id, p) !in interests :: s.watched[p],
            uncertain := s.uncertain || exists i | i in interests :: i.id == id && (i.path == [] || !expected))
  }

  function HandleIgnored(w: World, d: Wd): World
  {
    var booked := if Booked(w, d) == [] then w.booked else w.booked[d := Booked(w, d)[1..]];
    if d in w.retired then
      var r := w.retired[d];
      w.(booked := booked,
         retired := if r.first == r.last then w.retired - {d} else w.retired[d := Lifetimes(r.first + 1, r.last)])
    else if d !in w.watches then w
    else
      var watch := w.watches[d];
      w.(booked := booked,
         watches := w.watches - {d},
         identities := map i | i in w.identities && w.identities[i] != d :: w.identities[i],
         subs := map id | id in w.subs :: Bereaved(id, w.subs[id], watch.interests, watch.expectsIgnored))
  }

  // ----- overflow ----------------------------------------------------------

  /** A full queue keeps one overflow record at its end in place of what it had no room for. */
  function Overflowed(queue: seq<Record>): seq<Record>
  {
    if Overflow in queue then queue else queue + [Overflow]
  }

  function Lose(w: World, k: nat): World
    requires k < |w.queue|
  {
    w.(queue := Overflowed(w.queue[..k] + w.queue[k + 1..]), lost := w.lost + [w.queue[k]])
  }

  function HandleOverflow(w: World): World
  {
    w.(subs := map id | id in w.subs ::
         if w.subs[id].disposing then w.subs[id] else w.subs[id].(uncertain := true))
  }

  // ----- steps -------------------------------------------------------------

  datatype Step =
    | Emit(d: Wd)
    | Drop(d: Wd)
    | Miss(k: nat)
    | Handle
    | Announce(d: Wd)
    | Subscribe(id: Id, limit: Option<nat>)
    | Watch(id: Id, path: Path, allowNew: bool, calls: Calls)
    | Forget(id: Id, path: Path)
    | Dispose(id: Id)
    | Release(id: Id)

  predicate Enabled(w: World, step: Step)
  {
    match step
    case Emit(d) => d in w.live
    case Drop(d) => d in w.live
    case Miss(k) => k < |w.queue| && !w.queue[k].Overflow?
    case Handle => w.queue != []
    case Announce(d) => d in w.watches
    case Subscribe(id, _) => id !in w.subs
    case Watch(id, path, allowNew, calls) => id in w.subs && !w.subs[id].disposing && CallsPossible(w, calls)
    case Forget(id, path) => id in w.subs && path in w.subs[id].watched
    case Dispose(id) => id in w.subs
    case Release(id) => id in w.subs && w.subs[id].watched == map[]
  }

  function Next(w: World, step: Step): World
    requires Enabled(w, step)
  {
    match step
    case Emit(d) => w.(queue := w.queue + [Other(d, w.live[d].serial)])
    case Drop(d) => RemoveWatch(w, d)
    case Miss(k) => Lose(w, k)
    case Handle =>
      var rest := w.(queue := w.queue[1..]);
      if w.queue[0].Ignored? then HandleIgnored(rest, w.queue[0].wd)
      else if w.queue[0].Overflow? then HandleOverflow(rest)
      else rest
    case Announce(d) => w.(watches := w.watches[d := w.watches[d].(expectsIgnored := true)])
    case Subscribe(id, limit) => w.(subs := w.subs[id := Subscription(map[], false, limit, false)])
    case Watch(id, path, allowNew, calls) => WatchDirectory(w, id, path, allowNew, calls).0
    case Forget(id, path) => Unwatch(w, id, path)
    case Dispose(id) => w.(subs := w.subs[id := w.subs[id].(disposing := true)])
    case Release(id) => w.(subs := w.subs - {id})
  }
}
