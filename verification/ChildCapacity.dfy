/** Child capacity: the provider in extensions/sub-agent.ts (`inspectCapacity`, `tryReserve`,
    `consumeReservation`, `releaseReservation`), the launch admission of `spawn_agent` and
    `parallel_agents`, and the guards of src/agents/sub-agent-capacity.ts in front of them.

    Every launch has an owner that holds its slots until it is released; a child process counts from
    its registration to its settlement and runs in one of its owner's lanes. */
module ChildCapacity {
  import opened Sequences
  import opened Sorting
  import opened CanonicalJson
  import opened DispatchContract

  const MAX_CHILDREN: nat := 2

  datatype Owner = Owner(slots: nat, children: nat)
  datatype Reservation = Reservation(id: Text, slots: int, dispatch: Option<Invocation>)

  datatype Pool = Pool(
    activeChildren: int,
    owners: seq<Owner>,
    reservations: seq<Reservation>,
    shuttingDown: bool)

  datatype Snapshot = Snapshot(max: int, occupied: int, reserved: int, available: int, accepting: bool)
  datatype Consumption = Consumed | Missing | Mismatch
  datatype Launch = Launched(slots: nat) | DispatchMismatch | TooMany

  datatype Event =
    | Reserve(id: Text, slots: int, dispatch: Option<Invocation>)
    | ReleaseReservation(id: Text)
    | Spawn(id: Text, invocation: Invocation, aborted: bool)
    | Parallel(id: Text, items: nat, invocation: Invocation, aborted: bool)
    | ChildStarts(owner: nat)
    | ChildSettles(owner: nat)
    | OwnerReleased(owner: nat)
    | Shutdown
    | DetachChildren

  const EMPTY := Pool(0, [], [], false)

  function Slots(owners: seq<Owner>): nat {
    if owners == [] then 0 else owners[0].slots + Slots(owners[1..])
  }

  /** `activeRuns.size`. */
  function Children(owners: seq<Owner>): nat {
    if owners == [] then 0 else owners[0].children + Children(owners[1..])
  }

  function Sum(reservations: seq<Reservation>): int {
    if reservations == [] then 0 else reservations[0].slots + Sum(reservations[1..])
  }

  function Occupied(s: Pool): int {
    Max(s.activeChildren, Children(s.owners))
  }

  function Reserved(s: Pool): int {
    Sum(s.reservations)
  }

  // ---------------------------------------------------------------- the provider

  predicate Blank(id: Text) {
    forall c :: c in id ==>
      8192 <= c <= 8202 || c in {9, 10, 11, 12, 13, 32, 160, 5760, 8232, 8233, 8239, 8287, 12288, 65279}
  }

  function Inspect(s: Pool): Snapshot {
    Snapshot(MAX_CHILDREN, Occupied(s), Reserved(s),
             if s.shuttingDown then 0 else Max(0, MAX_CHILDREN - Occupied(s) - Reserved(s)),
             !s.shuttingDown && Occupied(s) + Reserved(s) < MAX_CHILDREN)
  }

  /** The validator of `inspectSubAgentCapacity`. */
  predicate ValidSnapshot(n: Snapshot) {
    && n.max >= 0 && n.occupied >= 0 && n.reserved >= 0 && n.available >= 0
    && n.occupied + n.reserved <= n.max
    && n.available == n.max - n.occupied - n.reserved
    && n.accepting == (n.available > 0)
  }

  function Lookup(reservations: seq<Reservation>, id: Text): (r: Option<Reservation>)
    ensures r.Some? ==> r.value in reservations && r.value.id == id
    ensures r.None? ==> forall x :: x in reservations ==> x.id != id
  {
    if reservations == [] then None
    else if reservations[0].id == id then Some(reservations[0])
    else Lookup(reservations[1..], id)
  }

  function Drop(reservations: seq<Reservation>, id: Text): seq<Reservation> {
    if reservations == [] then []
    else if reservations[0].id == id then Drop(reservations[1..], id)
    else [reservations[0]] + Drop(reservations[1..], id)
  }

  predicate CanReserve(s: Pool, id: Text, slots: int) {
    && !Blank(id) && slots >= 1
    && !s.shuttingDown && Lookup(s.reservations, id).None?
    && slots <= Max(0, MAX_CHILDREN - Occupied(s) - Reserved(s))
  }

  predicate SameDispatch(a: Option<Invocation>, b: Option<Invocation>, idLeq: (Text, Text) -> bool) {
    a.Some? == b.Some? && (a.Some? && b.Some? ==> SameInvocation(a.value, b.value, idLeq))
  }

  function Consume(s: Pool, id: Text, slots: int, dispatch: Option<Invocation>, idLeq: (Text, Text) -> bool)
    : (Pool, Consumption)
  {
    if Blank(id) || slots < 1 then (s, Mismatch)
    else
      match Lookup(s.reservations, id)
      case None => (s, Missing)
      case Some(r) =>
        if r.slots != slots || !SameDispatch(r.dispatch, dispatch, idLeq) then (s, Mismatch)
        else (s.(reservations := Drop(s.reservations, id)), Consumed)
  }

  // ---------------------------------------------------------------- launches

  function Launching(s: Pool, slots: nat): Pool {
    s.(activeChildren := s.activeChildren + slots, owners := s.owners + [Owner(slots, 0)])
  }

  function Spawned(s: Pool, id: Text, invocation: Invocation, aborted: bool, idLeq: (Text, Text) -> bool)
    : (Pool, Launch)
  {
    var (t, consumption) := Consume(s, id, 1, Some(invocation), idLeq);
    if consumption == Mismatch then (t, DispatchMismatch)
    else if t.shuttingDown || aborted || Occupied(t) >= MAX_CHILDREN
         || (consumption != Consumed && Occupied(t) + Reserved(t) >= MAX_CHILDREN) then (t, TooMany)
    else (Launching(t, 1), Launched(1))
  }

  function Paralleled(s: Pool, id: Text, items: nat, invocation: Invocation, aborted: bool, idLeq: (Text, Text) -> bool)
    : (Pool, Launch)
  {
    var (t, consumption) := Consume(s, id, 2, Some(invocation), idLeq);
    if consumption == Mismatch then (t, DispatchMismatch)
    else
      var unreserved := Max(0, MAX_CHILDREN - Occupied(t) - Reserved(t));
      var slots := if consumption == Consumed then Min(2, Max(0, MAX_CHILDREN - Occupied(t))) else unreserved;
      if t.shuttingDown || aborted || slots == 0 then (t, TooMany)
      else (Launching(t, Min(slots, items)), Launched(Min(slots, items)))
  }

  function SetOwner(owners: seq<Owner>, o: nat, owner: Owner): seq<Owner>
    requires o < |owners|
  {
    owners[o := owner]
  }

  function RemoveOwner(owners: seq<Owner>, o: nat): seq<Owner>
    requires o < |owners|
  {
    owners[..o] + owners[o + 1..]
  }

  function Detached(owners: seq<Owner>): seq<Owner> {
    if owners == [] then [] else [owners[0].(children := 0)] + Detached(owners[1..])
  }

  /** An event whose guard does not hold cannot happen and changes nothing. */
  function Next(s: Pool, e: Event, idLeq: (Text, Text) -> bool): Pool {
    match e
    case Reserve(id, slots, dispatch) =>
      if CanReserve(s, id, slots)
      then s.(reservations := s.reservations + [Reservation(id, slots, dispatch)]) else s
    case ReleaseReservation(id) => s.(reservations := Drop(s.reservations, id))
    case Spawn(id, invocation, aborted) => Spawned(s, id, invocation, aborted, idLeq).0
    case Parallel(id, items, invocation, aborted) =>
      if items == 0 then s else Paralleled(s, id, items, invocation, aborted, idLeq).0
    case ChildStarts(o) =>  // a free lane
      if o < |s.owners| && s.owners[o].children < s.owners[o].slots
      then s.(owners := SetOwner(s.owners, o, s.owners[o].(children := s.owners[o].children + 1))) else s
    case ChildSettles(o) =>
      if o < |s.owners| && s.owners[o].children > 0
      then s.(owners := SetOwner(s.owners, o, s.owners[o].(children := s.owners[o].children - 1))) else s
    case OwnerReleased(o) =>  // in the tool's finally clause, after its children
      if o < |s.owners| && s.owners[o].children == 0
      then s.(activeChildren := Max(0, s.activeChildren - s.owners[o].slots), owners := RemoveOwner(s.owners, o)) else s
    case Shutdown => s.(shuttingDown := true, reservations := [])
    case DetachChildren => if s.shuttingDown then s.(owners := Detached(s.owners)) else s
  }

  function After(events: seq<Event>, idLeq: (Text, Text) -> bool): Pool {
    if events == [] then EMPTY
    else Next(After(events[..|events| - 1], idLeq), events[|events| - 1], idLeq)
  }

  // ---------------------------------------------------------------- the invariant

  ghost predicate UniqueIds(reservations: seq<Reservation>) {
    forall i, j :: 0 <= i < j < |reservations| ==> reservations[i].id != reservations[j].id
  }

  ghost predicate Inv(s: Pool) {
    && s.activeChildren == Slots(s.owners)
    && (forall o :: o in s.owners ==> 1 <= o.slots && o.children <= o.slots)
    && UniqueIds(s.reservations)
    && (forall r :: r in s.reservations ==> r.slots >= 1)
    && s.activeChildren + Reserved(s) <= MAX_CHILDREN
  }

  lemma {:induction false} SlotsAppend(a: seq<Owner>, b: seq<Owner>)
    ensures Slots(a + b) == Slots(a) + Slots(b) && Children(a + b) == Children(a) + Children(b)
  {
    if a == [] {
      assert a + b == b;
    } else {
      assert (a + b)[1..] == a[1..] + b;
      SlotsAppend(a[1..], b);
    }
  }

  lemma OwnerSplit(owners: seq<Owner>, o: nat)
    requires o < |owners|
    ensures Slots(owners) == Slots(RemoveOwner(owners, o)) + owners[o].slots
    ensures Children(owners) == Children(RemoveOwner(owners, o)) + owners[o].children
  {
    var before, at, behind := owners[..o], [owners[o]], owners[o + 1..];
    assert owners == before + (at + behind);
    SlotsAppend(before, at + behind);
    SlotsAppend(at, behind);
    SlotsAppend(before, behind);
    assert Slots(at) == owners[o].slots && Children(at) == owners[o].children;
    hide Slots, Children;
  }

  lemma OwnerSet(owners: seq<Owner>, o: nat, owner: Owner)
    requires o < |owners|
    ensures RemoveOwner(SetOwner(owners, o, owner), o) == RemoveOwner(owners, o)
  {
  }

  lemma {:induction false} ChildrenFit(owners: seq<Owner>)
    requires forall o :: o in owners ==> o.children <= o.slots
    ensures Children(owners) <= Slots(owners)
  {
    if owners != [] {
      assert owners[0] in owners;
      ChildrenFit(owners[1..]);
    }
  }

  lemma {:induction false} DetachedKeeps(owners: seq<Owner>)
    ensures Slots(Detached(owners)) == Slots(owners) && Children(Detached(owners)) == 0
    ensures forall o :: o in Detached(owners) ==> o.children == 0 && exists p :: p in owners && p.slots == o.slots
  {
    if owners != [] {
      DetachedKeeps(owners[1..]);
      var d := Detached(owners);
      assert d[1..] == Detached(owners[1..]);
      forall o | o in d ensures o.children == 0 && exists p :: p in owners && p.slots == o.slots {
        if o == d[0] { assert owners[0] in owners; }
      }
    }
  }

  lemma {:induction false} SumAppend(a: seq<Reservation>, r: Reservation)
    ensures Sum(a + [r]) == Sum(a) + r.slots
  {
    if a != [] {
      assert (a + [r])[1..] == a[1..] + [r];
      SumAppend(a[1..], r);
    }
  }

  lemma {:induction false} DropHolds(reservations: seq<Reservation>, id: Text, r: Reservation)
    ensures r in Drop(reservations, id) <==> r in reservations && r.id != id
  {
    if reservations != [] {
      DropHolds(reservations[1..], id, r);
    }
  }

  lemma {:induction false} DropUnique(reservations: seq<Reservation>, id: Text)
    requires UniqueIds(reservations)
    ensures UniqueIds(Drop(reservations, id))
  {
    if reservations != [] {
      DropUnique(reservations[1..], id);
      var rest := Drop(reservations[1..], id);
      forall k | 0 <= k < |rest| ensures rest[k].id != reservations[0].id {
        DropHolds(reservations[1..], id, rest[k]);
        var m :| 0 <= m < |reservations[1..]| && reservations[1..][m] == rest[k];
      }
    }
  }

  lemma DropKeeps(reservations: seq<Reservation>, id: Text)
    requires UniqueIds(reservations)
    ensures UniqueIds(Drop(reservations, id))
    ensures forall r :: r in Drop(reservations, id) <==> r in reservations && r.id != id
  {
    DropUnique(reservations, id);
    forall r ensures r in Drop(reservations, id) <==> r in reservations && r.id != id {
      DropHolds(reservations, id, r);
    }
  }

  lemma {:induction false} DropAbsent(reservations: seq<Reservation>, id: Text)
    requires forall r :: r in reservations ==> r.id != id
    ensures Drop(reservations, id) == reservations
  {
    if reservations != [] {
      assert reservations[0] in reservations;
      DropAbsent(reservations[1..], id);
    }
  }

  lemma {:induction false} DropTakes(reservations: seq<Reservation>, id: Text)
    requires UniqueIds(reservations)
    ensures Sum(Drop(reservations, id)) ==
      Sum(reservations) - (match Lookup(reservations, id) case Some(r) => r.slots case None => 0)
  {
    if reservations != [] {
      if reservations[0].id == id {
        forall r | r in reservations[1..] ensures r.id != id {
          var k :| 0 < k < |reservations| && reservations[k] == r;
        }
        DropAbsent(reservations[1..], id);
      } else {
        DropTakes(reservations[1..], id);
      }
    }
  }

  lemma {:induction false} SumNonNegative(reservations: seq<Reservation>)
    requires forall r :: r in reservations ==> r.slots >= 1
    ensures Sum(reservations) >= 0
  {
    if reservations != [] {
      assert reservations[0] in reservations;
      SumNonNegative(reservations[1..]);
    }
  }

  lemma DropSum(reservations: seq<Reservation>, id: Text)
    requires UniqueIds(reservations) && forall r :: r in reservations ==> r.slots >= 1
    ensures UniqueIds(Drop(reservations, id)) && forall r :: r in Drop(reservations, id) ==> r.slots >= 1
    ensures Sum(Drop(reservations, id)) ==
      Sum(reservations) - (match Lookup(reservations, id) case Some(r) => r.slots case None => 0)
    ensures Sum(reservations) >= 0
  {
    DropKeeps(reservations, id);
    DropTakes(reservations, id);
    SumNonNegative(reservations);
  }

  /** Slots in use are exactly those of the owners, so the clamp at zero never acts and registered
      children never exceed them. */
  lemma OccupiedIsActive(s: Pool)
    requires Inv(s)
    ensures Occupied(s) == s.activeChildren >= 0 && Children(s.owners) <= s.activeChildren && Reserved(s) >= 0
  {
    ChildrenFit(s.owners);
    DropSum(s.reservations, []);
  }

  lemma ConsumeKeeps(s: Pool, id: Text, slots: int, dispatch: Option<Invocation>, idLeq: (Text, Text) -> bool)
    requires Inv(s)
    ensures var (t, c) := Consume(s, id, slots, dispatch, idLeq);
      && Inv(t) && t.activeChildren == s.activeChildren && t.owners == s.owners && t.shuttingDown == s.shuttingDown
      && (c == Consumed ==>
            slots >= 1 && s.activeChildren + slots <= MAX_CHILDREN && Reserved(t) == Reserved(s) - slots)
      && (c != Consumed ==> t == s)
  {
    DropSum(s.reservations, id);
    OccupiedIsActive(s);
    var t := s.(reservations := Drop(s.reservations, id));
    DropSum(t.reservations, id);
  }

  lemma LaunchKeeps(s: Pool, slots: nat)
    requires Inv(s) && slots >= 1 && s.activeChildren + Reserved(s) + slots <= MAX_CHILDREN
    ensures Inv(Launching(s, slots))
  {
    SlotsAppend(s.owners, [Owner(slots, 0)]);
    assert Slots([Owner(slots, 0)]) == slots;
  }

  lemma SpawnKeeps(s: Pool, id: Text, invocation: Invocation, aborted: bool, idLeq: (Text, Text) -> bool)
    requires Inv(s)
    ensures Inv(Spawned(s, id, invocation, aborted, idLeq).0)
  {
    hide Inv;
    ConsumeKeeps(s, id, 1, Some(invocation), idLeq);
    var (t, c) := Consume(s, id, 1, Some(invocation), idLeq);
    OccupiedIsActive(t);
    Within(s);
    Within(t);
    if Spawned(s, id, invocation, aborted, idLeq).1.Launched? { LaunchKeeps(t, 1); }
  }

  lemma Within(s: Pool)
    requires Inv(s)
    ensures s.activeChildren + Reserved(s) <= MAX_CHILDREN
  {
  }

  lemma ParallelKeeps(s: Pool, id: Text, items: nat, invocation: Invocation, aborted: bool, idLeq: (Text, Text) -> bool)
    requires Inv(s) && items >= 1
    ensures Inv(Paralleled(s, id, items, invocation, aborted, idLeq).0)
  {
    hide Inv;
    ConsumeKeeps(s, id, 2, Some(invocation), idLeq);
    var (t, c) := Consume(s, id, 2, Some(invocation), idLeq);
    OccupiedIsActive(t);
    Within(s);
    Within(t);
    var launch := Paralleled(s, id, items, invocation, aborted, idLeq).1;
    if launch.Launched? { LaunchKeeps(t, launch.slots); }
  }

  lemma ReserveKeeps(s: Pool, id: Text, slots: int, dispatch: Option<Invocation>)
    requires Inv(s) && CanReserve(s, id, slots)
    ensures Inv(s.(reservations := s.reservations + [Reservation(id, slots, dispatch)]))
  {
    OccupiedIsActive(s);
    SumAppend(s.reservations, Reservation(id, slots, dispatch));
    var t := s.reservations + [Reservation(id, slots, dispatch)];
    forall i | 0 <= i < |s.reservations| ensures t[i].id != id {
      assert t[i] in s.reservations;
    }
  }

  lemma ReleaseKeeps(s: Pool, id: Text)
    requires Inv(s)
    ensures Inv(s.(reservations := Drop(s.reservations, id)))
  {
    DropSum(s.reservations, id);
  }

  lemma OwnerReleaseKeeps(s: Pool, o: nat)
    requires Inv(s) && o < |s.owners|
    ensures s.activeChildren >= s.owners[o].slots
    ensures Inv(s.(activeChildren := s.activeChildren - s.owners[o].slots, owners := RemoveOwner(s.owners, o)))
  {
    OwnerSplit(s.owners, o);
  }

  lemma DetachKeeps(s: Pool)
    requires Inv(s)
    ensures Inv(s.(owners := Detached(s.owners)))
  {
    DetachedKeeps(s.owners);
  }

  lemma ShutdownKeeps(s: Pool)
    requires Inv(s)
    ensures Inv(s.(shuttingDown := true, reservations := []))
  {
    OccupiedIsActive(s);
  }

  lemma EventKeeps(s: Pool, e: Event, idLeq: (Text, Text) -> bool)
    requires Inv(s)
    ensures Inv(Next(s, e, idLeq))
  {
    hide Inv, Spawned, Paralleled, Drop, Detached, CanReserve, SetOwner, RemoveOwner;
    match e
    case Reserve(id, slots, dispatch) =>
      if CanReserve(s, id, slots) { ReserveKeeps(s, id, slots, dispatch); }
    case ReleaseReservation(id) =>
      ReleaseKeeps(s, id);
    case Spawn(id, invocation, aborted) =>
      SpawnKeeps(s, id, invocation, aborted, idLeq);
    case Parallel(id, items, invocation, aborted) =>
      if items > 0 { ParallelKeeps(s, id, items, invocation, aborted, idLeq); }
    case ChildStarts(o) =>
      if o < |s.owners| && s.owners[o].children < s.owners[o].slots {
        OwnerCountKeeps(s, o, s.owners[o].children + 1);
      }
    case ChildSettles(o) =>
      if o < |s.owners| && s.owners[o].children > 0 { OwnerCountKeeps(s, o, s.owners[o].children - 1); }
    case OwnerReleased(o) =>
      if o < |s.owners| && s.owners[o].children == 0 { OwnerReleaseKeeps(s, o); }
    case Shutdown =>
      ShutdownKeeps(s);
    case DetachChildren =>
      DetachKeeps(s);
  }

  lemma OwnerCountKeeps(s: Pool, o: nat, children: nat)
    requires Inv(s) && o < |s.owners|
    requires children <= s.owners[o].slots || children <= s.owners[o].children
    ensures Inv(s.(owners := SetOwner(s.owners, o, s.owners[o].(children := children))))
  {
    assert s.owners[o] in s.owners;
    var owner := s.owners[o].(children := children);
    OwnerSplit(s.owners, o);
    OwnerSet(s.owners, o, owner);
    OwnerSplit(SetOwner(s.owners, o, owner), o);
  }

  // ---------------------------------------------------------------- theorems over all runs

  lemma {:induction false} EveryRunIsGood(events: seq<Event>, idLeq: (Text, Text) -> bool)
    ensures Inv(After(events, idLeq))
  {
    if events != [] {
      EveryRunIsGood(events[..|events| - 1], idLeq);
      EventKeeps(After(events[..|events| - 1], idLeq), events[|events| - 1], idLeq);
    }
  }

  /** Occupied and reserved children together never exceed the maximum. */
  lemma CapacityNeverExceeded(events: seq<Event>, idLeq: (Text, Text) -> bool)
    ensures var s := After(events, idLeq);
      0 <= Occupied(s) && 0 <= Reserved(s) && Occupied(s) + Reserved(s) <= MAX_CHILDREN
  {
    EveryRunIsGood(events, idLeq);
    OccupiedIsActive(After(events, idLeq));
  }

  /** A reserved launch whose dispatch matches is refused only by shutdown or abort: single spawns get
      their slot, parallel launches get both slots or as many as they have items. */
  lemma ReservedLaunchSucceeds(
      events: seq<Event>, idLeq: (Text, Text) -> bool, id: Text, invocation: Invocation, items: nat)
    requires var s := After(events, idLeq); !s.shuttingDown && items >= 1
    ensures var s := After(events, idLeq);
      && (Consume(s, id, 1, Some(invocation), idLeq).1 == Consumed ==>
            Spawned(s, id, invocation, false, idLeq).1 == Launched(1))
      && (Consume(s, id, 2, Some(invocation), idLeq).1 == Consumed ==>
            Paralleled(s, id, items, invocation, false, idLeq).1 == Launched(Min(2, items)))
  {
    var s := After(events, idLeq);
    EveryRunIsGood(events, idLeq);
    hide Inv;
    forall slots | slots == 1 || slots == 2
      ensures var (t, c) := Consume(s, id, slots, Some(invocation), idLeq);
        c == Consumed ==> Occupied(t) + slots <= MAX_CHILDREN && Occupied(t) >= 0 && t.shuttingDown == s.shuttingDown
    {
      ConsumeKeeps(s, id, slots, Some(invocation), idLeq);
      OccupiedIsActive(Consume(s, id, slots, Some(invocation), idLeq).0);
    }
  }

  // ---------------------------------------------------------------- what each call answers, exactly

  /** A reserve call with room for it. */
  ghost predicate MayReserve(s: Pool, id: Text, slots: int) {
    && !Blank(id) && slots >= 1 && !s.shuttingDown
    && (forall r :: r in s.reservations ==> r.id != id)
    && Slots(s.owners) + Sum(s.reservations) + slots <= MAX_CHILDREN
  }

  lemma CanReserveExactly(s: Pool, id: Text, slots: int)
    requires Inv(s)
    ensures CanReserve(s, id, slots) <==> MayReserve(s, id, slots)
  {
    OccupiedIsActive(s);
    var found := Lookup(s.reservations, id);
    hide Lookup, Sum, Slots, Children;
  }

  /** In every run a reserve call is granted, and then held, exactly when its id is not blank and not held
      already, it asks for at least one slot, the session is open, and the slots it asks for fit beside those
      occupied and those reserved. */
  lemma ReservesExactly(
      events: seq<Event>, idLeq: (Text, Text) -> bool, id: Text, slots: int, dispatch: Option<Invocation>)
    ensures var s := After(events, idLeq);
      var t := Next(s, Reserve(id, slots, dispatch), idLeq);
      && (MayReserve(s, id, slots) <==>
            && !Blank(id) && slots >= 1 && !s.shuttingDown && (forall r :: r in s.reservations ==> r.id != id)
            && Occupied(s) + Reserved(s) + slots <= MAX_CHILDREN)
      && t == s.(reservations :=
                   s.reservations + if MayReserve(s, id, slots) then [Reservation(id, slots, dispatch)] else [])
  {
    var s := After(events, idLeq);
    EveryRunIsGood(events, idLeq);
    OccupiedIsActive(s);
    CanReserveExactly(s, id, slots);
    hide CanReserve, Occupied, Slots, Sum;
    assert s.reservations + [] == s.reservations;
  }

  /** Releasing a reservation takes that one away, and no other. */
  lemma ReleasesExactly(s: Pool, id: Text, idLeq: (Text, Text) -> bool, r: Reservation)
    ensures var t := Next(s, ReleaseReservation(id), idLeq);
      && (r in t.reservations <==> r in s.reservations && r.id != id)
      && t == s.(reservations := t.reservations)
  {
    DropHolds(s.reservations, id, r);
  }

  /** A consumed reservation is taken away, and no other; nothing else changes, nor anything at all when none is
      consumed. A call misses exactly when it names no reservation. */
  lemma ConsumeTakes(
      s: Pool, id: Text, slots: int, dispatch: Option<Invocation>, idLeq: (Text, Text) -> bool, r: Reservation)
    ensures var (t, c) := Consume(s, id, slots, dispatch, idLeq);
      && (r in t.reservations <==> r in s.reservations && (c == Consumed ==> r.id != id))
      && t == s.(reservations := t.reservations) && (c != Consumed ==> t == s)
      && (c == Missing <==> !Blank(id) && slots >= 1 && forall x :: x in s.reservations ==> x.id != id)
  {
    DropHolds(s.reservations, id, r);
    var found := Lookup(s.reservations, id);
    hide Drop, Lookup;
  }

  lemma ConsumedRoom(s: Pool, id: Text, slots: nat, dispatch: Option<Invocation>, idLeq: (Text, Text) -> bool)
    requires Inv(s)
    ensures var (u, c) := Consume(s, id, slots, dispatch, idLeq);
      && u.shuttingDown == s.shuttingDown && u.owners == s.owners && u.activeChildren == s.activeChildren
      && Occupied(u) == Occupied(s) && (c != Consumed ==> u == s)
      && (c == Consumed ==> Occupied(s) + slots <= MAX_CHILDREN)
    ensures 0 <= Occupied(s) && 0 <= Reserved(s) && Occupied(s) + Reserved(s) <= MAX_CHILDREN
  {
    OccupiedIsActive(s);
    ConsumeKeeps(s, id, slots, dispatch, idLeq);
    OccupiedIsActive(Consume(s, id, slots, dispatch, idLeq).0);
    Within(s);
    hide Consume, Sum, Slots, Children;
  }

  /** In every run: a single launch is refused for a mismatch, for shutdown or abort, or, without a reservation of
      its own, exactly when no slot is left beside those occupied and reserved; else it occupies one slot. */
  lemma SpawnsExactly(events: seq<Event>, idLeq: (Text, Text) -> bool, id: Text, invocation: Invocation, aborted: bool)
    ensures var s := After(events, idLeq);
      var (u, c) := Consume(s, id, 1, Some(invocation), idLeq);
      var (t, launch) := Spawned(s, id, invocation, aborted, idLeq);
      && launch == (if c == Mismatch then DispatchMismatch
                    else if s.shuttingDown || aborted || (c == Missing && Occupied(s) + Reserved(s) + 1 > MAX_CHILDREN)
                    then TooMany else Launched(1))
      && t.reservations == u.reservations && t.shuttingDown == s.shuttingDown
      && t.owners == s.owners + (if launch.Launched? then [Owner(1, 0)] else [])
      && t.activeChildren == s.activeChildren + (if launch.Launched? then 1 else 0)
  {
    var s := After(events, idLeq);
    EveryRunIsGood(events, idLeq);
    hide Consume, Sum, Inv, Occupied, Reserved, After;
    ConsumedRoom(s, id, 1, Some(invocation), idLeq);
    assert s.owners + [] == s.owners;
  }

  /** In every run: a parallel launch is refused for a mismatch, for shutdown or abort, or, without a reservation
      of its own, exactly when no slot is left; else it occupies two slots if it reserved them and what is left
      otherwise, and never more than it has items. */
  lemma ParallelsExactly(
      events: seq<Event>, idLeq: (Text, Text) -> bool, id: Text, items: nat, invocation: Invocation, aborted: bool)
    requires items >= 1
    ensures var s := After(events, idLeq);
      var (u, c) := Consume(s, id, 2, Some(invocation), idLeq);
      var (t, launch) := Paralleled(s, id, items, invocation, aborted, idLeq);
      var left := MAX_CHILDREN - Occupied(s) - Reserved(s);
      var got: nat := if c == Consumed then Min(2, items) else Min(Max(left, 0), items);
      && launch == (if c == Mismatch then DispatchMismatch
                    else if s.shuttingDown || aborted || (c == Missing && left < 1) then TooMany
                    else Launched(got))
      && t.reservations == u.reservations && t.shuttingDown == s.shuttingDown
      && t.owners == s.owners + (if launch.Launched? then [Owner(got, 0)] else [])
      && t.activeChildren == s.activeChildren + (if launch.Launched? then got else 0)
  {
    var s := After(events, idLeq);
    EveryRunIsGood(events, idLeq);
    hide Consume, Sum, Inv, Occupied, Reserved, After;
    ConsumedRoom(s, id, 2, Some(invocation), idLeq);
    assert s.owners + [] == s.owners;
  }

  /** The snapshot tells the slots of launches under way from the slots reserved. */
  lemma SnapshotTells(s: Pool)
    requires Inv(s)
    ensures var n := Inspect(s);
      && n.max == MAX_CHILDREN && n.occupied == Slots(s.owners) && n.reserved == Sum(s.reservations)
      && n.available == (if s.shuttingDown then 0 else MAX_CHILDREN - n.occupied - n.reserved)
      && (n.accepting <==> n.available > 0)
  {
    OccupiedIsActive(s);
  }

  lemma OnlyOneWithId(reservations: seq<Reservation>, a: Reservation, b: Reservation)
    requires UniqueIds(reservations) && a in reservations && b in reservations && a.id == b.id
    ensures a == b
  {
    var i :| 0 <= i < |reservations| && reservations[i] == a;
    var j :| 0 <= j < |reservations| && reservations[j] == b;
  }

  /** A reservation is consumed exactly by a call with its id, its slot count, the same tool and the same
      branches, up to an order that only ids comparing equal can tell. */
  lemma ConsumedExactly(
      events: seq<Event>, idLeq: (Text, Text) -> bool, id: Text, slots: int, invocation: Invocation)
    requires TotalPreorder(idLeq)
    ensures var s := After(events, idLeq);
      Consume(s, id, slots, Some(invocation), idLeq).1 == Consumed <==>
        && !Blank(id)
        && exists r :: r in s.reservations && r.id == id && r.slots == slots
             && r.dispatch.Some? && r.dispatch.value.toolName == invocation.toolName
             && TiesAgree(r.dispatch.value.branches, invocation.branches, ById(idLeq))
  {
    hide SameInvocation, TiesAgree, TotalPreorder;
    var s := After(events, idLeq);
    EveryRunIsGood(events, idLeq);
    var found := Lookup(s.reservations, id);
    if found.Some? {
      forall r | r in s.reservations && r.id == id ensures r == found.value {
        OnlyOneWithId(s.reservations, r, found.value);
      }
      if found.value.dispatch.Some? {
        MatchingExactly(found.value.dispatch.value, invocation, idLeq);
      }
    }
  }

  ghost predicate Offered(events: seq<Event>, r: Reservation) {
    exists e :: e in events && e == Reserve(r.id, r.slots, r.dispatch)
  }

  /** Every reservation was asked for by a reserve call, word for word. */
  lemma {:induction false} ReservedWereOffered(events: seq<Event>, idLeq: (Text, Text) -> bool, r: Reservation)
    requires r in After(events, idLeq).reservations
    ensures Offered(events, r)
  {
    if events != [] {
      var init, e := events[..|events| - 1], events[|events| - 1];
      var s := After(init, idLeq);
      EveryRunIsGood(init, idLeq);
      ReservationsFrom(s, e, idLeq, r);
      if r in s.reservations {
        ReservedWereOffered(init, idLeq, r);
      }
      assert Reserve(r.id, r.slots, r.dispatch) in events;
    }
  }

  lemma ReservationsFrom(s: Pool, e: Event, idLeq: (Text, Text) -> bool, r: Reservation)
    requires Inv(s) && r in Next(s, e, idLeq).reservations
    ensures r in s.reservations || e == Reserve(r.id, r.slots, r.dispatch)
  {
    match e
    case ReleaseReservation(id) => DropKeeps(s.reservations, id);
    case Spawn(id, _, _) => DropKeeps(s.reservations, id);
    case Parallel(id, _, _, _) => DropKeeps(s.reservations, id);
    case _ =>
  }

  /** When every reserve call and the launch carry dispatches the parser accepted, and the order of ids
      separates them, a reservation is consumed exactly by an order-free equal dispatch. */
  lemma ConsumedOrderFree(
      events: seq<Event>, idLeq: (Text, Text) -> bool, id: Text, slots: int, invocation: Invocation)
    requires TotalOrder(idLeq) && Accepted(invocation)
    requires forall e :: e in events && e.Reserve? && e.dispatch.Some? ==> Accepted(e.dispatch.value)
    ensures var s := After(events, idLeq);
      Consume(s, id, slots, Some(invocation), idLeq).1 == Consumed <==>
        && !Blank(id)
        && exists r :: r in s.reservations && r.id == id && r.slots == slots
             && r.dispatch.Some? && OrderFreeEqual(r.dispatch.value, invocation)
  {
    assert TotalPreorder(idLeq);
    hide SameInvocation, TiesAgree, TotalOrder, TotalPreorder, Accepted, OrderFreeEqual, Consume;
    var s := After(events, idLeq);
    ConsumedExactly(events, idLeq, id, slots, invocation);
    forall r | r in s.reservations && r.dispatch.Some?
      ensures OrderFreeEqual(r.dispatch.value, invocation) <==>
        && r.dispatch.value.toolName == invocation.toolName
        && TiesAgree(r.dispatch.value.branches, invocation.branches, ById(idLeq))
    {
      ReservedWereOffered(events, idLeq, r);
      MatchingIsOrderFree(r.dispatch.value, invocation, idLeq);
      MatchingExactly(r.dispatch.value, invocation, idLeq);
    }
  }

  /** The snapshot passes its validator exactly outside shutdown or when the pool is full. */
  lemma SnapshotValidExactly(events: seq<Event>, idLeq: (Text, Text) -> bool)
    ensures var s := After(events, idLeq);
      ValidSnapshot(Inspect(s)) <==> !s.shuttingDown || Occupied(s) + Reserved(s) == MAX_CHILDREN
  {
    EveryRunIsGood(events, idLeq);
    SnapshotOf(After(events, idLeq));
  }

  lemma SnapshotOf(s: Pool)
    requires Inv(s)
    ensures ValidSnapshot(Inspect(s)) <==> !s.shuttingDown || Occupied(s) + Reserved(s) == MAX_CHILDREN
  {
    OccupiedIsActive(s);
  }

  /** A session that shuts down idle publishes a snapshot its own validator rejects. */
  lemma IdleShutdownSnapshotRejected(idLeq: (Text, Text) -> bool)
    ensures !ValidSnapshot(Inspect(After([Shutdown], idLeq)))
  {
    assert [Shutdown][..0] == [];
    assert After([Shutdown], idLeq) == Pool(0, [], [], true);
  }

  /** A lane that starts a child always finds fewer than the maximum registered: the "cleanup still
      unconfirmed" answer of the parallel worker is never given. */
  lemma LaneAlwaysFindsRoom(events: seq<Event>, idLeq: (Text, Text) -> bool, o: nat)
    requires var s := After(events, idLeq); o < |s.owners| && s.owners[o].children < s.owners[o].slots
    ensures Children(After(events, idLeq).owners) < MAX_CHILDREN
  {
    var s := After(events, idLeq);
    EveryRunIsGood(events, idLeq);
    OccupiedIsActive(s);
    OwnerSplit(s.owners, o);
    ChildrenFit(RemoveOwner(s.owners, o));
  }

  // ---------------------------------------------------------------- the extension's variables

  class SubAgentExtension {
    const idLeq: (Text, Text) -> bool
    var activeChildren: int
    var owners: seq<Owner>
    var reservations: seq<Reservation>
    var shuttingDown: bool

    ghost function State(): Pool
      reads this
    {
      Pool(activeChildren, owners, reservations, shuttingDown)
    }

    ghost predicate Valid()
      reads this
    {
      Inv(State())
    }

    constructor (idLeq: (Text, Text) -> bool)
      ensures Valid() && State() == EMPTY && this.idLeq == idLeq
    {
      this.idLeq := idLeq;
      activeChildren, owners, reservations, shuttingDown := 0, [], [], false;
    }

    function OccupiedChildren(): int
      reads this
    {
      Max(activeChildren, Children(owners))
    }

    method InspectCapacity() returns (snapshot: Snapshot)
      requires Valid()
      ensures snapshot == Inspect(State())
      ensures ValidSnapshot(snapshot) <==> !shuttingDown || snapshot.occupied + snapshot.reserved == MAX_CHILDREN
      ensures snapshot.occupied == Slots(owners) && snapshot.reserved == Sum(reservations)
    {
      OccupiedIsActive(State());
      var occupied, reserved := OccupiedChildren(), Sum(reservations);
      snapshot := Snapshot(MAX_CHILDREN, occupied, reserved,
                           if shuttingDown then 0 else Max(0, MAX_CHILDREN - occupied - reserved),
                           !shuttingDown && occupied + reserved < MAX_CHILDREN);
    }

    method TryReserve(id: Text, slots: int, dispatch: Option<Invocation>) returns (granted: bool)
      requires Valid()
      modifies this
      ensures Valid() && granted == MayReserve(old(State()), id, slots)
      ensures State() == Next(old(State()), Reserve(id, slots, dispatch), idLeq)
    {
      EventKeeps(State(), Reserve(id, slots, dispatch), idLeq);
      CanReserveExactly(State(), id, slots);
      hide Inv, MayReserve;
      if Blank(id) || slots < 1 { return false; }
      if shuttingDown || Lookup(reservations, id).Some? { return false; }
      var available := Max(0, MAX_CHILDREN - OccupiedChildren() - Sum(reservations));
      if slots > available { return false; }
      reservations := reservations + [Reservation(id, slots, dispatch)];
      return true;
    }

    method ConsumeReservation(id: Text, slots: int, dispatch: Option<Invocation>) returns (c: Consumption)
      modifies this`reservations
      ensures (State(), c) == Consume(old(State()), id, slots, dispatch, idLeq)
    {
      if Blank(id) || slots < 1 { return Mismatch; }
      var reservation := Lookup(reservations, id);
      if reservation.None? { return Missing; }
      if reservation.value.slots != slots || !SameDispatch(reservation.value.dispatch, dispatch, idLeq) {
        return Mismatch;
      }
      reservations := Drop(reservations, id);
      return Consumed;
    }

    method SpawnAgent(id: Text, invocation: Invocation, aborted: bool) returns (launch: Launch)
      requires Valid()
      modifies this
      ensures Valid() && (State(), launch) == Spawned(old(State()), id, invocation, aborted, idLeq)
    {
      SpawnKeeps(State(), id, invocation, aborted, idLeq);
      hide Inv, Consume;
      var reservationState := ConsumeReservation(id, 1, Some(invocation));
      if reservationState == Mismatch { return DispatchMismatch; }
      var consumed := reservationState == Consumed;
      if shuttingDown || aborted || OccupiedChildren() >= MAX_CHILDREN
        || (!consumed && OccupiedChildren() + Sum(reservations) >= MAX_CHILDREN)
      {
        return TooMany;
      }
      activeChildren := activeChildren + 1;
      owners := owners + [Owner(1, 0)];
      return Launched(1);
    }

    method ParallelAgents(id: Text, items: nat, invocation: Invocation, aborted: bool) returns (launch: Launch)
      requires Valid() && items >= 1
      modifies this
      ensures Valid() && (State(), launch) == Paralleled(old(State()), id, items, invocation, aborted, idLeq)
    {
      ParallelKeeps(State(), id, items, invocation, aborted, idLeq);
      hide Inv, Consume;
      var reservationState := ConsumeReservation(id, 2, Some(invocation));
      if reservationState == Mismatch { return DispatchMismatch; }
      var unreservedSlots := Max(0, MAX_CHILDREN - OccupiedChildren() - Sum(reservations));
      var slots := if reservationState == Consumed then Min(2, Max(0, MAX_CHILDREN - OccupiedChildren()))
                   else unreservedSlots;
      if shuttingDown || aborted || slots == 0 { return TooMany; }
      activeChildren := activeChildren + Min(slots, items);
      owners := owners + [Owner(Min(slots, items), 0)];
      return Launched(Min(slots, items));
    }

    /** An owner's release, in the finally clause of its tool call. */
    method ReleaseOwner(o: nat)
      requires Valid() && o < |owners| && owners[o].children == 0
      modifies this
      ensures Valid() && State() == Next(old(State()), OwnerReleased(o), idLeq)
      ensures activeChildren == old(activeChildren) - old(owners[o].slots)
      ensures owners == old(owners)[..o] + old(owners)[o + 1..]
    {
      EventKeeps(State(), OwnerReleased(o), idLeq);
      OwnerSplit(owners, o);
      activeChildren := Max(0, activeChildren - owners[o].slots);
      owners := RemoveOwner(owners, o);
    }

    /** A lane registers its child. */
    method Register(o: nat)
      requires Valid() && o < |owners| && owners[o].children < owners[o].slots
      modifies this
      ensures Valid() && State() == Next(old(State()), ChildStarts(o), idLeq)
      ensures Children(owners) <= MAX_CHILDREN
      ensures owners == old(owners)[o := Owner(old(owners[o].slots), old(owners[o].children) + 1)]
    {
      EventKeeps(State(), ChildStarts(o), idLeq);
      owners := SetOwner(owners, o, owners[o].(children := owners[o].children + 1));
      OccupiedIsActive(State());
      SumNonNegative(reservations);
    }

    method Unregister(o: nat)
      requires Valid() && o < |owners| && owners[o].children > 0
      modifies this
      ensures Valid() && State() == Next(old(State()), ChildSettles(o), idLeq)
      ensures owners == old(owners)[o := Owner(old(owners[o].slots), old(owners[o].children) - 1)]
    {
      EventKeeps(State(), ChildSettles(o), idLeq);
      owners := SetOwner(owners, o, owners[o].(children := owners[o].children - 1));
    }

    method SessionShutdown()
      requires Valid()
      modifies this
      ensures Valid() && State() == Next(old(State()), Shutdown, idLeq)
      ensures shuttingDown && reservations == []
    {
      EventKeeps(State(), Shutdown, idLeq);
      shuttingDown := true;
      reservations := [];
    }

    /** The end of a shutdown gives up whatever children are left. */
    method DetachRuns()
      requires Valid() && shuttingDown
      modifies this
      ensures Valid() && State() == Next(old(State()), DetachChildren, idLeq)
      ensures Children(owners) == 0
    {
      EventKeeps(State(), DetachChildren, idLeq);
      DetachedKeeps(owners);
      owners := Detached(owners);
    }
  }
}
