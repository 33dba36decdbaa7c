/** A bounded first-come first-served permit pool, as small steps.

    Both permit implementations of the repository, `BoundedFifoSlots` (extensions/workflow.ts) and
    the spawn queue of `SubAgentSystem` (src/agents/sub-agent-system.ts), are shown to refine it.
    A ticket is the number of an acquire call, so tickets are ordered by arrival. */
module Permits {
  import opened Sequences

  type Ticket = nat

  datatype Pool = Pool(
    arrivals: nat,
    queue: seq<Ticket>,
    granted: seq<Ticket>,  // in the order of the grants
    dropped: set<Ticket>,  // left the queue without a permit
    returned: set<Ticket>)

  datatype Move =
    | Arrive
    | Grant(capacity: int)
    | Drop(ticket: Ticket)
    | Return(ticket: Ticket)

  function Held(p: Pool): set<Ticket> {
    Elements(p.granted) - p.returned
  }

  function Without(queue: seq<Ticket>, t: Ticket): (rest: seq<Ticket>)
    ensures forall x :: x in rest <==> x in queue && x != t
    ensures t !in queue ==> rest == queue
  {
    if queue == [] then []
    else if queue[0] == t then Without(queue[1..], t)
    else [queue[0]] + Without(queue[1..], t)
  }

  /** One step; `None` when the pool does not allow it. */
  function Play(p: Pool, m: Move): Option<Pool> {
    match m
    case Arrive => Some(p.(arrivals := p.arrivals + 1, queue := p.queue + [p.arrivals]))
    case Grant(capacity) =>
      if p.queue != [] && |Held(p)| < capacity
      then Some(p.(queue := p.queue[1..], granted := p.granted + [p.queue[0]]))
      else None
    case Drop(t) =>
      if t in p.queue then Some(p.(queue := Without(p.queue, t), dropped := p.dropped + {t})) else None
    case Return(t) =>
      if t in Held(p) then Some(p.(returned := p.returned + {t})) else None
  }

  ghost predicate Plays(p: Pool, moves: seq<Move>, q: Pool)
    decreases |moves|
  {
    if moves == [] then p == q
    else Play(p, moves[0]).Some? && Plays(Play(p, moves[0]).value, moves[1..], q)
  }

  /** Every grant among `moves` was made below `capacity`. */
  ghost predicate GrantsBelow(moves: seq<Move>, capacity: int) {
    forall m :: m in moves && m.Grant? ==> m.capacity == capacity
  }

  ghost predicate Increasing(s: seq<Ticket>) {
    forall i, j :: 0 <= i < j < |s| ==> s[i] < s[j]
  }

  /** Grants follow arrival order and no queued ticket was overtaken; every arrival is exactly one of
      granted, queued and dropped; only granted permits are returned. */
  ghost predicate Fair(p: Pool) {
    && Increasing(p.granted + p.queue)
    && (forall t: Ticket :: t < p.arrivals <==> t in p.granted || t in p.queue || t in p.dropped)
    && (forall t: Ticket :: t in p.dropped ==> t !in p.granted && t !in p.queue)
    && p.returned <= Elements(p.granted)
  }

  lemma {:induction false} WithoutIncreasing(s: seq<Ticket>, t: Ticket)
    requires Increasing(s)
    ensures Increasing(Without(s, t))
  {
    if s != [] {
      WithoutIncreasing(s[1..], t);
      forall x | x in Without(s[1..], t) ensures s[0] < x {
        assert x in s[1..];
        var k :| 0 < k < |s| && s[k] == x;
      }
      var w := Without(s[1..], t);
      assert forall j :: 0 <= j < |w| ==> w[j] in w;
      assert forall j :: 0 < j < |w| + 1 ==> ([s[0]] + w)[j] == w[j - 1];
    }
  }

  lemma DropKeepsIncreasing(granted: seq<Ticket>, queue: seq<Ticket>, t: Ticket)
    requires Increasing(granted + queue)
    ensures Increasing(granted + Without(queue, t))
  {
    var both, rest := granted + queue, Without(queue, t);
    assert forall i, j :: 0 <= i < j < |queue| ==> queue[i] == both[|granted| + i] && queue[j] == both[|granted| + j];
    WithoutIncreasing(queue, t);
    forall i, j | 0 <= i < |granted| && 0 <= j < |rest| ensures granted[i] < rest[j] {
      assert rest[j] in queue;
      var k :| 0 <= k < |queue| && queue[k] == rest[j];
      assert both[i] == granted[i] && both[|granted| + k] == queue[k];
    }
    assert forall i, j :: 0 <= i < j < |granted| ==> both[i] == granted[i] && both[j] == granted[j];
  }

  lemma FairArrive(p: Pool)
    requires Fair(p)
    ensures Fair(Play(p, Arrive).value)
  {
    var both := p.granted + p.queue;
    forall k | 0 <= k < |both| ensures both[k] < p.arrivals {
      assert both[k] in p.granted || both[k] in p.queue;
    }
    assert p.granted + (p.queue + [p.arrivals]) == both + [p.arrivals];
  }

  lemma FairGrant(p: Pool, capacity: int)
    requires Fair(p) && Play(p, Grant(capacity)).Some?
    ensures Fair(Play(p, Grant(capacity)).value)
  {
    var q := Play(p, Grant(capacity)).value;
    assert q.granted + q.queue == p.granted + p.queue;
    forall t: Ticket
      ensures t < p.arrivals <==> t in q.granted || t in q.queue || t in q.dropped
      ensures t in q.dropped ==> t !in q.granted && t !in q.queue
    {
      assert p.queue == [p.queue[0]] + q.queue;
      assert t in p.queue <==> t == p.queue[0] || t in q.queue;
      assert t in q.granted <==> t == p.queue[0] || t in p.granted;
    }
    assert Elements(p.granted) <= Elements(q.granted);
  }

  lemma FairDrop(p: Pool, t: Ticket)
    requires Fair(p) && t in p.queue
    ensures Fair(Play(p, Drop(t)).value)
  {
    DropKeepsIncreasing(p.granted, p.queue, t);
    forall k | 0 <= k < |p.granted| ensures p.granted[k] != t {
      var j :| 0 <= j < |p.queue| && p.queue[j] == t;
      assert (p.granted + p.queue)[k] < (p.granted + p.queue)[|p.granted| + j];
    }
  }

  lemma FairStep(p: Pool, m: Move)
    requires Fair(p) && Play(p, m).Some?
    ensures Fair(Play(p, m).value)
  {
    match m
    case Arrive => FairArrive(p);
    case Grant(capacity) => FairGrant(p, capacity);
    case Drop(t) => FairDrop(p, t);
    case Return(t) =>
  }

  /** Fairness holds along every sequence of steps. */
  lemma {:induction false} FairRun(p: Pool, moves: seq<Move>, q: Pool)
    requires Fair(p) && Plays(p, moves, q)
    ensures Fair(q)
    decreases |moves|
  {
    if moves != [] {
      FairStep(p, moves[0]);
      FairRun(Play(p, moves[0]).value, moves[1..], q);
    }
  }

  lemma {:induction false} PlaysAppend(p: Pool, a: seq<Move>, q: Pool, b: seq<Move>, r: Pool)
    requires Plays(p, a, q) && Plays(q, b, r)
    ensures Plays(p, a + b, r)
    decreases |a|
  {
    if a == [] {
      assert a + b == b;
    } else {
      assert (a + b)[1..] == a[1..] + b;
      PlaysAppend(Play(p, a[0]).value, a[1..], q, b, r);
    }
  }

  lemma PlaysOne(p: Pool, m: Move, q: Pool)
    requires Play(p, m) == Some(q)
    ensures Plays(p, [m], q)
  {
    assert Plays(q, [][..], q);
    assert [m][1..] == [];
  }

  /** In a fair pool nobody behind a granted ticket was served first: everyone who arrived before a
      granted ticket was granted earlier or dropped. */
  lemma NoOvertaking(p: Pool, k: nat, t: Ticket)
    requires Fair(p) && k < |p.granted| && t < p.granted[k]
    ensures t in p.dropped || exists j :: 0 <= j < k && p.granted[j] == t
  {
    var both := p.granted + p.queue;
    assert both[k] == p.granted[k] && p.granted[k] in p.granted;
    forall j | 0 <= j < |p.queue| ensures p.queue[j] != t {
      assert both[|p.granted| + j] == p.queue[j];
    }
    if t !in p.dropped {
      var j :| 0 <= j < |p.granted| && p.granted[j] == t;
      assert both[j] == t;
    }
  }

  /** The permits in use are the grants not yet returned, counted. */
  lemma HeldCount(p: Pool)
    requires Fair(p)
    ensures |Held(p)| == |p.granted| - |p.returned|
  {
    assert forall i, j :: 0 <= i < j < |p.granted| ==>
      p.granted[i] == (p.granted + p.queue)[i] && p.granted[j] == (p.granted + p.queue)[j];
    DistinctSize(p.granted);
    assert Elements(p.granted) == Held(p) + p.returned;
  }

  lemma ElementsAppend(s: seq<Ticket>, t: Ticket)
    ensures Elements(s + [t]) == Elements(s) + {t}
  {
  }

  lemma {:induction false} DistinctSize(s: seq<Ticket>)
    requires Distinct(s)
    ensures |Elements(s)| == |s|
  {
    if s != [] {
      DistinctSize(s[1..]);
      assert Elements(s) == {s[0]} + Elements(s[1..]);
    }
  }
}
