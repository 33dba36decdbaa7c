/** The lanes of `runPool` and the children their workers register (extensions/sub-agent.ts): why an owner
    never has more children than it holds slots. */
module LaneChildren {
  import opened Sequences
  import WorkerPool
  import ChildCapacity
  import opened DispatchContract
  import opened CanonicalJson

  /** `running` holds the lanes whose worker has a registered child. */
  datatype Lanes<+R> = Lanes(pool: WorkerPool.Pool<R>, running: set<nat>)

  datatype Event =
    | Turn(lane: nat)
    | ChildStarts(lane: nat)
    | ChildSettles(lane: nat)

  /** A worker answers only once its child has settled, and has at most one child at a time. */
  ghost predicate CanHappen<R>(s: Lanes<R>, e: Event) {
    && e.lane < |s.pool.lanes|
    && match e
       case Turn(l) => WorkerPool.Enabled(s.pool.lanes[l]) && l !in s.running
       case ChildStarts(l) => s.pool.lanes[l].Working? && l !in s.running
       case ChildSettles(l) => l in s.running
  }

  ghost predicate Inv<R>(s: Lanes<R>, items: nat, slots: int, worker: nat -> WorkerPool.Answer<R>) {
    && WorkerPool.Inv(s.pool, items, slots, worker)
    && forall l :: l in s.running ==> l < |s.pool.lanes| && s.pool.lanes[l].Working?
  }

  ghost function Next<R>(s: Lanes<R>, e: Event, items: nat, slots: int, worker: nat -> WorkerPool.Answer<R>): Lanes<R>
    requires Inv(s, items, slots, worker) && CanHappen(s, e)
  {
    match e
    case Turn(l) => s.(pool := WorkerPool.Step(s.pool, l, worker))
    case ChildStarts(l) => s.(running := s.running + {l})
    case ChildSettles(l) => s.(running := s.running - {l})
  }

  lemma InitialInv<R>(items: nat, slots: int, worker: nat -> WorkerPool.Answer<R>)
    ensures Inv(Lanes(WorkerPool.Initial(items, slots), {}), items, slots, worker)
  {
    WorkerPool.InitialInv(items, slots, worker);
  }

  lemma EventKeeps<R>(s: Lanes<R>, e: Event, items: nat, slots: int, worker: nat -> WorkerPool.Answer<R>)
    requires Inv(s, items, slots, worker) && CanHappen(s, e)
    ensures Inv(Next(s, e, items, slots, worker), items, slots, worker)
  {
    if e.Turn? { WorkerPool.StepKeeps(s.pool, items, slots, worker, e.lane); }
    hide WorkerPool.Inv;
  }

  /** Whenever a lane may start a child, fewer children run than the pool has lanes. */
  lemma StartHasRoom<R>(s: Lanes<R>, l: nat, items: nat, slots: int, worker: nat -> WorkerPool.Answer<R>)
    requires Inv(s, items, slots, worker) && CanHappen(s, ChildStarts(l))
    ensures |s.running| < WorkerPool.LaneCount(items, slots)
  {
    var lanes := Numbers(|s.pool.lanes|);
    assert s.running <= lanes - {l};
    Smaller(s.running, lanes - {l});
  }

  /** The numbers of `n` lanes. */
  ghost function Numbers(n: nat): (r: set<nat>)
    ensures |r| == n && forall i: nat :: i in r <==> i < n
  {
    if n == 0 then {} else Numbers(n - 1) + {n - 1}
  }

  lemma {:induction false} Smaller(a: set<nat>, b: set<nat>)
    requires a <= b
    ensures |a| <= |b|
  {
    if a != {} {
      var x :| x in a;
      Smaller(a - {x}, b - {x});
    }
  }

  /** The owner of a pool counts the children its lanes run; shutdown may have given some of them up. */
  ghost predicate Follows<R>(
      s: ChildCapacity.Pool, o: nat, lanes: Lanes<R>, items: nat, slots: int, worker: nat -> WorkerPool.Answer<R>)
  {
    && Inv(lanes, items, slots, worker)
    && o < |s.owners| && s.owners[o].slots == WorkerPool.LaneCount(items, slots)
    && s.owners[o].children <= |lanes.running|
  }

  /** A launch of `slots` over its items gives an owner that follows its new pool. */
  lemma LaunchFollows<R>(s: ChildCapacity.Pool, items: nat, slots: nat, worker: nat -> WorkerPool.Answer<R>)
    ensures var t := ChildCapacity.Launching(s, Min(slots, items));
      Follows(t, |s.owners|, Lanes(WorkerPool.Initial(items, slots), {}), items, slots, worker)
  {
    InitialInv(items, slots, worker);
  }

  /** A lane that may start a child always passes the guard of its owner, the child is counted, and the
      owner goes on following its pool: the guard is a consequence of how the lanes run. */
  lemma StartPassesGuard<R>(
      s: ChildCapacity.Pool, o: nat, lanes: Lanes<R>, l: nat, items: nat, slots: int,
      worker: nat -> WorkerPool.Answer<R>, idLeq: (Text, Text) -> bool)
    requires Follows(s, o, lanes, items, slots, worker) && CanHappen(lanes, ChildStarts(l))
    ensures s.owners[o].children < s.owners[o].slots
    ensures var t := ChildCapacity.Next(s, ChildCapacity.ChildStarts(o), idLeq);
      && o < |t.owners| && t.owners[o].children == s.owners[o].children + 1
      && Follows(t, o, Next(lanes, ChildStarts(l), items, slots, worker), items, slots, worker)
  {
    StartHasRoom(lanes, l, items, slots, worker);
    EventKeeps(lanes, ChildStarts(l), items, slots, worker);
    hide WorkerPool.Inv;
  }

  /** The other events of the lanes and of the owner keep it so too. */
  lemma OthersFollow<R>(
      s: ChildCapacity.Pool, o: nat, lanes: Lanes<R>, l: nat, items: nat, slots: int,
      worker: nat -> WorkerPool.Answer<R>, idLeq: (Text, Text) -> bool)
    requires Follows(s, o, lanes, items, slots, worker)
    ensures CanHappen(lanes, Turn(l)) ==>
      Follows(s, o, Next(lanes, Turn(l), items, slots, worker), items, slots, worker)
    ensures CanHappen(lanes, ChildSettles(l)) ==>
      Follows(ChildCapacity.Next(s, ChildCapacity.ChildSettles(o), idLeq), o,
              Next(lanes, ChildSettles(l), items, slots, worker), items, slots, worker)
    ensures s.shuttingDown ==>
      Follows(ChildCapacity.Next(s, ChildCapacity.DetachChildren, idLeq), o, lanes, items, slots, worker)
  {
    if CanHappen(lanes, Turn(l)) { EventKeeps(lanes, Turn(l), items, slots, worker); }
    if CanHappen(lanes, ChildSettles(l)) { EventKeeps(lanes, ChildSettles(l), items, slots, worker); }
    DetachedAt(s.owners, o);
    hide WorkerPool.Inv;
  }

  lemma {:induction false} DetachedAt(owners: seq<ChildCapacity.Owner>, o: nat)
    requires o < |owners|
    ensures |ChildCapacity.Detached(owners)| == |owners|
    ensures ChildCapacity.Detached(owners)[o] == owners[o].(children := 0)
  {
    if |owners| > 1 {
      DetachedAt(owners[1..], if o > 0 then o - 1 else 0);
    }
  }
}
