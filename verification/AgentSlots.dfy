/** The spawn queue of `SubAgentSystem` (src/agents/sub-agent-system.ts): `waitForSlot`, `releaseSlot`,
    `grantNextSlot`, `cancelQueuedSpawns` and the acquire/finally-release shape of `dispatch`.

    The maximum is read from the configuration at every call, so each event brings its own. A
    dispatch is known by the ticket of its `waitForSlot` call. */
module AgentSlots {
  import opened Sequences
  import opened Permits

  datatype Slots = Slots(
    active: int,
    queue: seq<Ticket>,
    calls: nat,               // waitForSlot calls so far
    grants: seq<Ticket>,      // resolved, in order
    rejections: seq<Ticket>,  // rejected by timeout or cancellation, in order
    finished: set<Ticket>)    // dispatches whose finally clause has run

  datatype Event =
    | Wait(max: int)
    | TimerFires(waiter: Ticket)
    | Finally(holder: Ticket, max': int)
    | CancelQueued

  function Initial(): Slots {
    Slots(0, [], 0, [], [], {})
  }

  /** At most one waiter gets a permit per call. */
  function GrantedNext(s: Slots, max: int): Slots {
    if s.queue == [] || s.active >= max then s
    else s.(queue := s.queue[1..], active := s.active + 1, grants := s.grants + [s.queue[0]])
  }

  function Next(s: Slots, e: Event): Slots {
    match e
    case Wait(max) =>
      if s.queue == [] && s.active < max
      then s.(calls := s.calls + 1, active := s.active + 1, grants := s.grants + [s.calls])
      else GrantedNext(s.(calls := s.calls + 1, queue := s.queue + [s.calls]), max)
    case TimerFires(w) =>
      if w in s.queue then s.(queue := Without(s.queue, w), rejections := s.rejections + [w]) else s
    case Finally(w, max) =>
      // only a dispatch that acquired reaches its finally clause, and it does so once
      if w !in s.grants || w in s.finished then s
      else
        var t := s.(finished := s.finished + {w});
        if t.active <= 0 then t else GrantedNext(t.(active := t.active - 1), max)
    case CancelQueued =>
      s.(queue := [], rejections := s.rejections + s.queue)
  }

  function After(events: seq<Event>): Slots {
    if events == [] then Initial()
    else Next(After(events[..|events| - 1]), events[|events| - 1])
  }

  function Abs(s: Slots): Pool {
    Pool(s.calls, s.queue, s.grants, Elements(s.rejections), s.finished)
  }

  ghost predicate Good(s: Slots) {
    && Fair(Abs(s))
    && s.active == |Held(Abs(s))|
    && Distinct(s.rejections)
  }

  /** The maximum in force during an event that grants. */
  function MaxOf(e: Event): int {
    match e
    case Wait(max) => max
    case Finally(_, max) => max
    case _ => 0
  }

  // ---------------------------------------------------------------- refinement of the abstract pool

  lemma GrantHead(s: Slots, max: int)
    requires Good(s) && s.queue != [] && s.active < max
    ensures Good(GrantedNext(s, max))
    ensures Play(Abs(s), Grant(max)) == Some(Abs(GrantedNext(s, max)))
  {
    hide Elements;
    var t := GrantedNext(s, max);
    FairStep(Abs(s), Grant(max));
    ElementsAppend(s.grants, s.queue[0]);
    var both := s.grants + s.queue;
    assert both[|s.grants|] == s.queue[0];
    forall k | 0 <= k < |s.grants| ensures s.grants[k] != s.queue[0] {
      assert both[k] == s.grants[k];
    }
    NotHeld(s, s.queue[0]);
    assert Held(Abs(t)) == Held(Abs(s)) + {s.queue[0]};
  }

  lemma NotHeld(s: Slots, w: Ticket)
    requires Fair(Abs(s)) && w !in s.grants
    ensures w !in Held(Abs(s)) && w !in s.finished
  {
  }

  lemma GrantedNextRefines(s: Slots, max: int) returns (moves: seq<Move>)
    requires Good(s)
    ensures Good(GrantedNext(s, max))
    ensures Plays(Abs(s), moves, Abs(GrantedNext(s, max))) && GrantsBelow(moves, max)
  {
    moves := [];
    if s.queue != [] && s.active < max {
      GrantHead(s, max);
      moves := [Grant(max)];
      PlaysOne(Abs(s), Grant(max), Abs(GrantedNext(s, max)));
    }
  }

  lemma WaitRefines(s: Slots, max: int) returns (moves: seq<Move>)
    requires Good(s)
    ensures Good(Next(s, Wait(max)))
    ensures Plays(Abs(s), moves, Abs(Next(s, Wait(max)))) && GrantsBelow(moves, max)
  {
    hide Fair;
    var t := s.(calls := s.calls + 1, queue := s.queue + [s.calls]);
    FairStep(Abs(s), Arrive);
    var more := GrantedNextRefines(t, max);
    assert Play(Abs(s), Arrive) == Some(Abs(t));
    moves := [Arrive] + more;
    assert moves[1..] == more;
    assert s.queue == [] ==> t.queue[1..] == s.queue;
  }

  lemma TimerRefines(s: Slots, w: Ticket) returns (moves: seq<Move>)
    requires Good(s) && w in s.queue
    ensures Good(Next(s, TimerFires(w)))
    ensures Plays(Abs(s), moves, Abs(Next(s, TimerFires(w)))) && moves == [Drop(w)]
  {
    var t := Next(s, TimerFires(w));
    QueuedIsFresh(s, w);
    hide Fair, Elements;
    ElementsAppend(s.rejections, w);
    FairStep(Abs(s), Drop(w));
    moves := [Drop(w)];
    PlaysOne(Abs(s), Drop(w), Abs(t));
  }

  lemma QueuedIsFresh(s: Slots, w: Ticket)
    requires Fair(Abs(s)) && w in s.queue
    ensures w !in s.rejections
  {
    assert w !in Abs(s).dropped;
  }

  lemma FinallyRefines(s: Slots, w: Ticket, max: int) returns (moves: seq<Move>)
    requires Good(s) && w in s.grants && w !in s.finished
    ensures s.active >= 1
    ensures Good(Next(s, Finally(w, max)))
    ensures Plays(Abs(s), moves, Abs(Next(s, Finally(w, max)))) && GrantsBelow(moves, max)
  {
    hide Fair;
    var t := s.(finished := s.finished + {w}, active := s.active - 1);
    assert w in Held(Abs(s));
    assert Held(Abs(s)) == Held(Abs(t)) + {w};
    FairStep(Abs(s), Return(w));
    var more := GrantedNextRefines(t, max);
    moves := [Return(w)] + more;
    assert moves[1..] == more;
  }

  lemma {:induction false} CancelRefines(s: Slots) returns (moves: seq<Move>)
    requires Good(s)
    ensures Good(Next(s, CancelQueued))
    ensures Plays(Abs(s), moves, Abs(Next(s, CancelQueued))) && forall m :: m in moves ==> m.Drop?
    decreases |s.queue|
  {
    hide Fair, Elements, Distinct, Held;
    if s.queue == [] {
      moves := [];
      assert s.rejections + s.queue == s.rejections;
    } else {
      var w := s.queue[0];
      var t := Next(s, TimerFires(w));
      var one := TimerRefines(s, w);
      HeadOut(s);
      var more := CancelRefines(t);
      assert s.rejections + s.queue == t.rejections + t.queue;
      PlaysAppend(Abs(s), one, Abs(t), more, Abs(Next(t, CancelQueued)));
      moves := one + more;
    }
  }

  lemma HeadOut(s: Slots)
    requires Fair(Abs(s)) && s.queue != []
    ensures Without(s.queue, s.queue[0]) == s.queue[1..]
  {
    var both := s.grants + s.queue;
    forall k | 0 < k < |s.queue| ensures s.queue[k] != s.queue[0] {
      assert both[|s.grants|] == s.queue[0] && both[|s.grants| + k] == s.queue[k];
    }
  }

  /** Every event is a sequence of steps of the abstract pool whose grants were made below the maximum
      in force, and the count stays exact. */
  lemma EventRefines(s: Slots, e: Event) returns (moves: seq<Move>)
    requires Good(s)
    ensures Good(Next(s, e))
    ensures Plays(Abs(s), moves, Abs(Next(s, e))) && GrantsBelow(moves, MaxOf(e))
  {
    hide Good;
    moves := [];
    match e
    case Wait(max) =>
      moves := WaitRefines(s, max);
    case TimerFires(w) =>
      if w in s.queue { moves := TimerRefines(s, w); }
    case Finally(w, max) =>
      if w in s.grants && w !in s.finished { moves := FinallyRefines(s, w, max); }
    case CancelQueued =>
      moves := CancelRefines(s);
  }

  lemma InitialGood()
    ensures Good(Initial())
  {
    var none: seq<Ticket> := [];
    assert Elements(none) == {};
    assert Abs(Initial()) == Pool(0, [], [], {}, {});
    assert Held(Abs(Initial())) == {};
    assert none + none == [];
  }

  /** In every reachable state, however the maximum moves: fair service, each dispatch granted,
      queued or rejected exactly once, and a count equal to the dispatches between their grant and
      their finally clause. */
  lemma {:induction false} EveryRunIsGood(events: seq<Event>)
    ensures Good(After(events))
  {
    if events == [] {
      InitialGood();
    } else {
      EveryRunIsGood(events[..|events| - 1]);
      var moves := EventRefines(After(events[..|events| - 1]), events[|events| - 1]);
    }
  }

  /** Grants and rejections are never taken back. */
  lemma ResolutionsAreFinal(s: Slots, e: Event)
    ensures s.grants <= Next(s, e).grants && s.rejections <= Next(s, e).rejections
  {
  }

  // ---------------------------------------------------------------- who is answered, and how

  /** Grants are given from the front of the queue, and nobody leaves it otherwise; `given` more were given. */
  ghost predicate Serves(s: Slots, arrived: seq<Ticket>, t: Slots, given: nat) {
    && t.grants + t.queue == s.grants + s.queue + arrived
    && |t.grants| == |s.grants| + given
    && t.rejections == s.rejections
  }

  /** A call joins the queue, and the head of the queue gets a permit exactly when one is free. */
  lemma WaitAnswers(s: Slots, max: int)
    ensures var t := Next(s, Wait(max));
      && t.calls == s.calls + 1 && t.finished == s.finished
      && Serves(s, [s.calls], t, if s.active < max then 1 else 0)
  {
  }

  /** A dispatch that ends returns its permit once, and the head of the queue gets one exactly when it is free
      then. */
  lemma FinallyAnswers(s: Slots, w: Ticket, max: int)
    requires Good(s)
    ensures var t := Next(s, Finally(w, max));
      if w !in s.grants || w in s.finished then t == s
      else
        && t.calls == s.calls && t.finished == s.finished + {w}
        && Serves(s, [], t, if s.queue != [] && s.active - 1 < max then 1 else 0)
  {
    if w in s.grants && w !in s.finished {
      HolderCounts(s, w);
      hide Good;
    }
  }

  lemma HolderCounts(s: Slots, w: Ticket)
    requires Good(s) && w in s.grants && w !in s.finished
    ensures s.active >= 1
  {
    hide Next;
    var moves := FinallyRefines(s, w, 0);
  }

  /** A timeout rejects its own waiter if that still waits, and nobody else. */
  lemma TimerAnswers(s: Slots, w: Ticket)
    ensures var t := Next(s, TimerFires(w));
      && t.grants == s.grants && t.calls == s.calls && t.finished == s.finished && w !in t.queue
      && (forall x :: x in t.queue <==> x in s.queue && x != w)
      && t.rejections == s.rejections + if w in s.queue then [w] else []
  {
  }

  /** A cancellation rejects every waiter, in order, and nobody waits afterwards. */
  lemma CancelAnswers(s: Slots)
    ensures var t := Next(s, CancelQueued);
      && t.queue == [] && t.rejections == s.rejections + s.queue
      && t.grants == s.grants && t.calls == s.calls && t.finished == s.finished && t.active == s.active
  {
  }

  /** The guard of `releaseSlot` never fires for a dispatch that holds a permit. */
  lemma ReleaseAlwaysCounts(events: seq<Event>, w: Ticket)
    requires w in After(events).grants && w !in After(events).finished
    ensures After(events).active >= 1
  {
    EveryRunIsGood(events);
    var moves := FinallyRefines(After(events), w, 0);
  }

  // ---------------------------------------------------------------- idle permits

  /** Somebody waits although a permit is free under `max`. */
  predicate Idle(s: Slots, max: int) {
    s.queue != [] && s.active < max
  }

  /** An arrival leaves an idle permit exactly when there was more than one to give away. */
  lemma WaitLeavesIdle(s: Slots, max: int)
    ensures Idle(Next(s, Wait(max)), max) <==> s.queue != [] && s.active + 1 < max
  {
  }

  /** A release leaves an idle permit exactly when somebody waits behind the one it serves and a
      permit was idle before. */
  lemma FinallyLeavesIdle(s: Slots, w: Ticket, max: int)
    requires Good(s) && w in s.grants && w !in s.finished
    ensures Idle(Next(s, Finally(w, max)), max) <==> |s.queue| >= 2 && s.active < max
  {
    var moves := FinallyRefines(s, w, max);
  }

  /** A timeout leaves an idle permit exactly when somebody else waits and a permit was idle before. */
  lemma TimerLeavesIdle(s: Slots, w: Ticket, max: int)
    requires w in s.queue
    ensures Idle(Next(s, TimerFires(w)), max) <==> Without(s.queue, w) != [] && s.active < max
  {
  }

  predicate Reads(e: Event) {
    e.Wait? || e.Finally?
  }

  /** Each maximum read is at most those read before it, and `max` is at most all of them. */
  ghost predicate Falling(events: seq<Event>, max: int) {
    && (forall i :: 0 <= i < |events| && Reads(events[i]) ==> max <= MaxOf(events[i]))
    && (forall i, j :: 0 <= i < j < |events| && Reads(events[i]) && Reads(events[j]) ==>
          MaxOf(events[j]) <= MaxOf(events[i]))
  }

  /** As long as the maximum never grows, nobody waits beside a free permit. */
  lemma {:induction false} FallingMaxNeverIdle(events: seq<Event>, max: int)
    requires Falling(events, max)
    ensures !Idle(After(events), max)
  {
    if events != [] {
      var init, e := events[..|events| - 1], events[|events| - 1];
      var s := After(init);
      assert forall i :: 0 <= i < |init| ==> init[i] == events[i];
      FallingMaxNeverIdle(init, if Reads(e) then MaxOf(e) else max);
      EveryRunIsGood(init);
      match e
      case Wait(m) =>
        WaitLeavesIdle(s, m);
      case Finally(w, m) =>
        if w in s.grants && w !in s.finished { FinallyLeavesIdle(s, w, m); }
      case TimerFires(w) =>
        if w in s.queue { TimerLeavesIdle(s, w, max); }
      case CancelQueued =>
    }
  }

  ghost predicate ConstantMax(events: seq<Event>, max: int) {
    forall e :: e in events && (e.Wait? || e.Finally?) ==> MaxOf(e) == max
  }

  /** Under one constant maximum the count stays within it and nobody waits beside a free permit. */
  lemma {:induction false} ConstantMaxNeverIdle(events: seq<Event>, max: nat)
    requires ConstantMax(events, max)
    ensures !Idle(After(events), max) && After(events).active <= max
  {
    if events != [] {
      var init, e := events[..|events| - 1], events[|events| - 1];
      var s := After(init);
      assert e in events && ConstantMax(init, max);
      ConstantMaxNeverIdle(init, max);
      EveryRunIsGood(init);
      if e.Finally? && e.holder in s.grants && e.holder !in s.finished {
        FinallyLeavesIdle(s, e.holder, max);
      }
      if e.TimerFires? && e.waiter in s.queue {
        assert s.queue != [];
      }
    }
  }

  /** When the maximum grows while dispatches wait, one release can leave a waiter beside free
      permits. */
  lemma GrowthCanLeaveIdle()
    ensures Idle(After([Wait(1), Wait(1), Wait(1), Finally(0, 3)]), 3)
  {
    hide Fair, Without;
    var e0, e1, e2, e3 := Wait(1), Wait(1), Wait(1), Finally(0, 3);
    assert [e0, e1, e2, e3][..3] == [e0, e1, e2];
    assert [e0, e1, e2][..2] == [e0, e1];
    assert [e0, e1][..1] == [e0];
    assert [e0][..0] == [];
    assert After([e0]) == Slots(1, [], 1, [0], [], {});
    assert After([e0, e1]) == Slots(1, [1], 2, [0], [], {});
    assert After([e0, e1, e2]) == Slots(1, [1, 2], 3, [0], [], {});
  }

  // ---------------------------------------------------------------- the class

  class SpawnQueue {
    var maxParallelAgents: int  // the configuration, which others may change between calls
    var activeAgentCount: int
    var spawnQueue: seq<Ticket>
    var calls: nat
    var grants: seq<Ticket>
    var rejections: seq<Ticket>
    var finished: set<Ticket>

    ghost function State(): Slots
      reads this
    {
      Slots(activeAgentCount, spawnQueue, calls, grants, rejections, finished)
    }

    constructor (max: int)
      ensures State() == Initial() && maxParallelAgents == max
    {
      maxParallelAgents, activeAgentCount, spawnQueue, calls := max, 0, [], 0;
      grants, rejections, finished := [], [], {};
    }

    method WaitForSlot() returns (w: Ticket)
      modifies this
      ensures w == old(calls) && maxParallelAgents == old(maxParallelAgents)
      ensures State() == Next(old(State()), Wait(maxParallelAgents))
    {
      w := calls;
      calls := calls + 1;
      if spawnQueue == [] && activeAgentCount < maxParallelAgents {
        activeAgentCount := activeAgentCount + 1;
        grants := grants + [w];
        return;
      }
      spawnQueue := spawnQueue + [w];
      GrantNextSlot();
    }

    method TimerFires(w: Ticket)
      modifies this
      ensures maxParallelAgents == old(maxParallelAgents)
      ensures State() == Next(old(State()), Event.TimerFires(w))
    {
      if w !in spawnQueue { return; }
      spawnQueue := Without(spawnQueue, w);
      rejections := rejections + [w];
    }

    /** The finally clause of the dispatch that was granted ticket `w`. */
    method FinallyRelease(w: Ticket)
      requires w in grants && w !in finished
      modifies this
      ensures maxParallelAgents == old(maxParallelAgents)
      ensures State() == Next(old(State()), Finally(w, maxParallelAgents))
    {
      finished := finished + {w};
      ReleaseSlot();
    }

    method ReleaseSlot()
      modifies this`activeAgentCount, this`spawnQueue, this`grants
      ensures State() == if old(activeAgentCount) <= 0 then old(State())
                         else GrantedNext(old(State()).(active := old(activeAgentCount) - 1), maxParallelAgents)
    {
      if activeAgentCount <= 0 { return; }
      activeAgentCount := activeAgentCount - 1;
      GrantNextSlot();
    }

    method GrantNextSlot()
      modifies this`activeAgentCount, this`spawnQueue, this`grants
      ensures State() == GrantedNext(old(State()), maxParallelAgents)
    {
      if spawnQueue == [] { return; }
      if activeAgentCount >= maxParallelAgents { return; }
      var w := spawnQueue[0];
      spawnQueue := spawnQueue[1..];
      activeAgentCount := activeAgentCount + 1;
      grants := grants + [w];
    }

    method CancelQueuedSpawns()
      modifies this
      ensures maxParallelAgents == old(maxParallelAgents)
      ensures State() == Next(old(State()), CancelQueued)
    {
      var waiters := spawnQueue;
      spawnQueue := [];
      for i := 0 to |waiters|
        invariant State() == old(State()).(queue := [], rejections := old(rejections) + waiters[..i])
        invariant maxParallelAgents == old(maxParallelAgents)
      {
        assert waiters[..i + 1] == waiters[..i] + [waiters[i]];
        rejections := rejections + [waiters[i]];
      }
      assert waiters[..|waiters|] == waiters;
    }
  }
}
