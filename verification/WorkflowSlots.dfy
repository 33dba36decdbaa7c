/** `BoundedFifoSlots` (extensions/workflow.ts): a counter, a queue of waiters, abort listeners that
    may run while the queue is being drained, and release closures that tolerate repetition.

    A waiter is known by its ticket. An abort signal fires in two steps: first it reads as aborted,
    then its listeners run one by one, with anything else in between. */
module WorkflowSlots {
  import opened Sequences
  import opened Permits

  type Signal(==) = int

  datatype Slots = Slots(
    active: int,
    stopped: bool,
    waiters: seq<Ticket>,
    settled: set<Ticket>,
    released: set<Ticket>,           // release closures already used
    signals: seq<Option<Signal>>,    // what each acquire call passed
    aborted: set<Signal>,
    grants: seq<Ticket>,             // `resolve` calls with a release closure, in order
    refusals: seq<Ticket>)           // `resolve` calls with undefined, in order

  datatype Event =
    | Acquire(signal: Option<Signal>)
    | SignalFires(fired: Signal)
    | AbortListener(waiter: Ticket)
    | Release(holder: Ticket)
    | Stop

  function Initial(): Slots {
    Slots(0, false, [], {}, {}, [], {}, [], [])
  }

  predicate Aborted(s: Slots, w: Ticket) {
    w < |s.signals| && s.signals[w].Some? && s.signals[w].value in s.aborted
  }

  function Refuse(s: Slots, w: Ticket): Slots {
    s.(settled := s.settled + {w}, refusals := s.refusals + [w])
  }

  function GrantTo(s: Slots, w: Ticket): Slots {
    s.(settled := s.settled + {w}, active := s.active + 1, grants := s.grants + [w])
  }

  /** Serve the queue from its head while there is room, refusing heads whose signal has fired. */
  function Drained(limit: nat, s: Slots): Slots
    decreases |s.waiters|
  {
    if s.stopped || s.active >= limit || s.waiters == [] then s
    else
      var w, rest := s.waiters[0], s.(waiters := s.waiters[1..]);
      if w in s.settled then Drained(limit, rest)
      else if Aborted(s, w) then Drained(limit, Refuse(rest, w))
      else Drained(limit, GrantTo(rest, w))
  }

  function RefuseAll(s: Slots, queue: seq<Ticket>): Slots
    decreases |queue|
  {
    if queue == [] then s
    else RefuseAll(if queue[0] in s.settled then s else Refuse(s, queue[0]), queue[1..])
  }

  function Next(limit: nat, s: Slots, e: Event): Slots {
    match e
    case Acquire(signal) =>
      var w, called := |s.signals|, s.(signals := s.signals + [signal]);
      if s.stopped || (signal.Some? && signal.value in s.aborted) then Refuse(called, w)
      else Drained(limit, called.(waiters := s.waiters + [w]))
    case SignalFires(fired) => s.(aborted := s.aborted + {fired})
    case AbortListener(w) =>
      if w >= |s.signals| || w in s.settled then s
      else Drained(limit, Refuse(s.(waiters := Without(s.waiters, w)), w))
    case Release(w) =>
      if w !in s.grants || w in s.released then s
      else Drained(limit, s.(released := s.released + {w}, active := if s.active >= 1 then s.active - 1 else 0))
    case Stop => RefuseAll(s.(stopped := true, waiters := []), s.waiters)
  }

  function After(limit: nat, events: seq<Event>): Slots {
    if events == [] then Initial()
    else Next(limit, After(limit, events[..|events| - 1]), events[|events| - 1])
  }

  // ---------------------------------------------------------------- refinement of the abstract pool

  function Abs(s: Slots): Pool {
    Pool(|s.signals|, s.waiters, s.grants, Elements(s.refusals), s.released)
  }

  ghost predicate Good(limit: nat, s: Slots) {
    && Fair(Abs(s))
    && s.active == |Held(Abs(s))| <= limit
    && s.settled == Elements(s.grants) + Elements(s.refusals)
    && Distinct(s.refusals)
    && (s.stopped ==> s.waiters == [])
  }

  /** Nobody waits while a permit is free. */
  ghost predicate Busy(limit: nat, s: Slots) {
    s.waiters != [] ==> s.active == limit
  }

  lemma HeadFacts(s: Slots)
    requires Fair(Abs(s)) && s.waiters != []
    ensures s.waiters[0] < |s.signals|
    ensures s.waiters[0] !in s.grants && s.waiters[0] !in s.waiters[1..] && s.waiters[0] !in s.refusals
    ensures Without(s.waiters, s.waiters[0]) == s.waiters[1..]
  {
    var both := s.grants + s.waiters;
    assert both[|s.grants|] == s.waiters[0];
    assert s.waiters[0] in s.waiters;
    forall k | 0 < k < |s.waiters| ensures s.waiters[k] != s.waiters[0] {
      assert both[|s.grants| + k] == s.waiters[k];
    }
    forall k | 0 <= k < |s.grants| ensures s.grants[k] != s.waiters[0] {
      assert both[k] == s.grants[k];
    }
  }

  lemma RefuseHead(limit: nat, s: Slots)
    requires Good(limit, s) && s.waiters != []
    ensures Good(limit, Refuse(s.(waiters := s.waiters[1..]), s.waiters[0]))
    ensures Play(Abs(s), Drop(s.waiters[0])) == Some(Abs(Refuse(s.(waiters := s.waiters[1..]), s.waiters[0])))
  {
    hide Fair, Elements;
    var w := s.waiters[0];
    var t := Refuse(s.(waiters := s.waiters[1..]), w);
    HeadFacts(s);
    ElementsAppend(s.refusals, w);
    FairStep(Abs(s), Drop(w));
  }

  lemma GrantHead(limit: nat, s: Slots)
    requires Good(limit, s) && s.waiters != [] && s.active < limit && !s.stopped
    ensures Good(limit, GrantTo(s.(waiters := s.waiters[1..]), s.waiters[0]))
    ensures Play(Abs(s), Grant(limit)) == Some(Abs(GrantTo(s.(waiters := s.waiters[1..]), s.waiters[0])))
  {
    var w := s.waiters[0];
    var t := GrantTo(s.(waiters := s.waiters[1..]), w);
    HeadFacts(s);
    FairStep(Abs(s), Grant(limit));
    ElementsAppend(s.grants, w);
    assert Held(Abs(t)) == Held(Abs(s)) + {w};
  }

  /** Draining is a sequence of abstract grants and drops, and leaves no permit idle. */
  lemma {:induction false} DrainedRefines(limit: nat, s: Slots) returns (moves: seq<Move>)
    requires Good(limit, s)
    ensures Good(limit, Drained(limit, s))
    ensures Busy(limit, Drained(limit, s))
    ensures Plays(Abs(s), moves, Abs(Drained(limit, s))) && GrantsBelow(moves, limit)
    decreases |s.waiters|
  {
    if s.stopped || s.active >= limit || s.waiters == [] {
      moves := [];
    } else {
      HeadFacts(s);
      var w, rest := s.waiters[0], s.(waiters := s.waiters[1..]);
      var t, m := Refuse(rest, w), Drop(w);
      if Aborted(s, w) {
        RefuseHead(limit, s);
      } else {
        GrantHead(limit, s);
        t, m := GrantTo(rest, w), Grant(limit);
      }
      var more := DrainedRefines(limit, t);
      assert ([m] + more)[1..] == more;
      moves := [m] + more;
    }
  }

  lemma {:induction false} RefuseAllRefines(limit: nat, s: Slots) returns (moves: seq<Move>)
    requires Good(limit, s)
    ensures var t := RefuseAll(s.(stopped := true, waiters := []), s.waiters);
      Good(limit, t) && t.waiters == [] && Plays(Abs(s), moves, Abs(t)) && GrantsBelow(moves, limit)
    decreases |s.waiters|
  {
    if s.waiters == [] {
      moves := [];
    } else {
      HeadFacts(s);
      RefuseHead(limit, s);
      var w := s.waiters[0];
      var t := Refuse(s.(waiters := s.waiters[1..], stopped := false), w);
      var more := RefuseAllRefines(limit, t);
      assert ([Drop(w)] + more)[1..] == more;
      moves := [Drop(w)] + more;
    }
  }

  lemma {:induction false} WithoutAppend(queue: seq<Ticket>, t: Ticket)
    requires t !in queue
    ensures Without(queue + [t], t) == queue
  {
    if queue != [] {
      WithoutAppend(queue[1..], t);
      assert (queue + [t])[1..] == queue[1..] + [t];
    }
  }

  /** The state between joining the queue and draining it. */
  function Arrived(s: Slots, signal: Option<Signal>): Slots {
    s.(signals := s.signals + [signal], waiters := s.waiters + [|s.signals|])
  }

  lemma ArriveRefines(limit: nat, s: Slots, signal: Option<Signal>)
    requires Good(limit, s) && !s.stopped
    ensures Good(limit, Arrived(s, signal))
    ensures Play(Abs(s), Arrive) == Some(Abs(Arrived(s, signal)))
  {
    FairStep(Abs(s), Arrive);
  }

  lemma NewTicket(s: Slots)
    requires Fair(Abs(s))
    ensures |s.signals| !in s.waiters && |s.signals| !in s.grants && |s.signals| !in s.refusals
  {
    assert |s.signals| !in Abs(s).dropped;
  }

  lemma TurnedAwayRefines(limit: nat, s: Slots, signal: Option<Signal>) returns (moves: seq<Move>)
    requires Good(limit, s)
    ensures var t := Refuse(s.(signals := s.signals + [signal]), |s.signals|);
      Good(limit, t) && Plays(Abs(s), moves, Abs(t)) && GrantsBelow(moves, limit)
  {
    hide Fair, Elements;
    var w := |s.signals|;
    var p, t := Abs(Arrived(s, signal)), Refuse(s.(signals := s.signals + [signal]), w);
    FairStep(Abs(s), Arrive);
    NewTicket(s);
    WithoutAppend(s.waiters, w);
    ElementsAppend(s.refusals, w);
    assert Play(p, Drop(w)) == Some(Abs(t));
    FairStep(p, Drop(w));
    moves := [Arrive, Drop(w)];
    assert moves[1..] == [Drop(w)];
    PlaysOne(p, Drop(w), Abs(t));
  }

  lemma AcquireRefines(limit: nat, s: Slots, signal: Option<Signal>) returns (moves: seq<Move>)
    requires Good(limit, s) && !s.stopped
    ensures var t := Drained(limit, Arrived(s, signal));
      Good(limit, t) && Busy(limit, t) && Plays(Abs(s), moves, Abs(t)) && GrantsBelow(moves, limit)
  {
    ArriveRefines(limit, s, signal);
    var more := DrainedRefines(limit, Arrived(s, signal));
    moves := [Arrive] + more;
    assert moves[1..] == more;
  }

  /** Every event is a sequence of steps of the abstract pool, keeps the count exact and within the
      limit, and leaves nobody waiting beside a free permit. */
  lemma EventRefines(limit: nat, s: Slots, e: Event) returns (moves: seq<Move>)
    requires Good(limit, s) && Busy(limit, s)
    ensures Good(limit, Next(limit, s, e)) && Busy(limit, Next(limit, s, e))
    ensures Plays(Abs(s), moves, Abs(Next(limit, s, e))) && GrantsBelow(moves, limit)
  {
    hide Fair, Drained, RefuseAll, Distinct;
    match e
    case Acquire(signal) =>
      if s.stopped || (signal.Some? && signal.value in s.aborted) {
        moves := TurnedAwayRefines(limit, s, signal);
      } else {
        moves := AcquireRefines(limit, s, signal);
      }
    case SignalFires(fired) =>
      moves := [];
    case AbortListener(w) =>
      moves := [];
      if w < |s.signals| && w !in s.settled {
        moves := AbortRefines(limit, s, w);
      }
    case Release(w) =>
      moves := [];
      if w in s.grants && w !in s.released {
        moves := ReleaseRefines(limit, s, w);
      }
    case Stop =>
      moves := RefuseAllRefines(limit, s);
  }

  lemma UnsettledWaits(limit: nat, s: Slots, w: Ticket)
    requires Good(limit, s) && w < |s.signals| && w !in s.settled
    ensures w in s.waiters && w !in s.refusals
  {
    assert w < Abs(s).arrivals;
  }

  lemma AbortRefines(limit: nat, s: Slots, w: Ticket) returns (moves: seq<Move>)
    requires Good(limit, s) && w < |s.signals| && w !in s.settled
    ensures var t := Drained(limit, Refuse(s.(waiters := Without(s.waiters, w)), w));
      Good(limit, t) && Busy(limit, t) && Plays(Abs(s), moves, Abs(t)) && GrantsBelow(moves, limit)
  {
    hide Fair, Elements;
    UnsettledWaits(limit, s, w);
    var t := Refuse(s.(waiters := Without(s.waiters, w)), w);
    FairStep(Abs(s), Drop(w));
    ElementsAppend(s.refusals, w);
    var more := DrainedRefines(limit, t);
    moves := [Drop(w)] + more;
    assert moves[1..] == more;
  }

  lemma ReleaseRefines(limit: nat, s: Slots, w: Ticket) returns (moves: seq<Move>)
    requires Good(limit, s) && w in s.grants && w !in s.released
    ensures s.active >= 1
    ensures var t := Drained(limit, s.(released := s.released + {w}, active := s.active - 1));
      Good(limit, t) && Busy(limit, t) && Plays(Abs(s), moves, Abs(t)) && GrantsBelow(moves, limit)
  {
    var t := s.(released := s.released + {w}, active := s.active - 1);
    FairStep(Abs(s), Return(w));
    assert w in Held(Abs(s));
    assert Held(Abs(s)) == Held(Abs(t)) + {w};
    var more := DrainedRefines(limit, t);
    moves := [Return(w)] + more;
    assert moves[1..] == more;
  }

  // ---------------------------------------------------------------- whole runs

  lemma InitialGood(limit: nat)
    ensures Good(limit, Initial())
  {
    var none: seq<Ticket> := [];
    assert Elements(none) == {};
    assert Abs(Initial()) == Pool(0, [], [], {}, {});
    assert Held(Abs(Initial())) == {};
    assert none + none == [];
  }

  /** In every reachable state: fair service, an exact count within the limit, no idle permit. */
  lemma {:induction false} EveryRunIsGood(limit: nat, events: seq<Event>)
    ensures Good(limit, After(limit, events)) && Busy(limit, After(limit, events))
  {
    if events != [] {
      var before := After(limit, events[..|events| - 1]);
      EveryRunIsGood(limit, events[..|events| - 1]);
      var moves := EventRefines(limit, before, events[|events| - 1]);
    } else {
      InitialGood(limit);
    }
  }

  lemma GoodResolvesOnce(limit: nat, s: Slots)
    requires Good(limit, s)
    ensures Distinct(s.grants + s.refusals) && Increasing(s.grants)
  {
    var both := s.grants + s.waiters;
    forall i, j | 0 <= i < j < |s.grants| ensures s.grants[i] < s.grants[j] {
      assert s.grants[i] == both[i] && s.grants[j] == both[j];
    }
    forall i, j | 0 <= i < |s.grants| && 0 <= j < |s.refusals| ensures s.grants[i] != s.refusals[j] {
      assert s.refusals[j] in Abs(s).dropped;
      assert s.grants[i] in s.grants;
    }
  }

  /** The resolve calls: each ticket gets at most one, of either kind, and grants come in arrival
      order. */
  lemma ResolvedAtMostOnce(limit: nat, events: seq<Event>)
    ensures var s := After(limit, events);
      Distinct(s.grants + s.refusals) && Increasing(s.grants)
  {
    hide *;
    EveryRunIsGood(limit, events);
    GoodResolvesOnce(limit, After(limit, events));
  }

  lemma {:induction false} DrainedLogs(limit: nat, s: Slots)
    ensures s.grants <= Drained(limit, s).grants && s.refusals <= Drained(limit, s).refusals
    ensures Drained(limit, s).stopped == s.stopped && Drained(limit, s).aborted == s.aborted
    ensures Drained(limit, s).signals == s.signals
    ensures s.stopped ==> Drained(limit, s) == s
    ensures forall k :: |s.grants| <= k < |Drained(limit, s).grants| ==> !Aborted(s, Drained(limit, s).grants[k])
    decreases |s.waiters|
  {
    if !(s.stopped || s.active >= limit || s.waiters == []) {
      var w, rest := s.waiters[0], s.(waiters := s.waiters[1..]);
      if w in s.settled {
        DrainedLogs(limit, rest);
      } else if Aborted(s, w) {
        DrainedLogs(limit, Refuse(rest, w));
      } else {
        DrainedLogs(limit, GrantTo(rest, w));
        assert (s.grants + [w])[|s.grants|] == w;
      }
    }
  }

  lemma {:induction false} RefuseAllLogs(s: Slots, queue: seq<Ticket>)
    ensures var t := RefuseAll(s, queue);
      && t.grants == s.grants && t.stopped == s.stopped && s.refusals <= t.refusals
      && t.aborted == s.aborted && t.signals == s.signals
    decreases |queue|
  {
    if queue != [] {
      RefuseAllLogs(if queue[0] in s.settled then s else Refuse(s, queue[0]), queue[1..]);
    }
  }

  /** What is resolved stays resolved; once stopped, always stopped and never another grant; no
      grant goes to a waiter whose signal already reads as aborted. */
  lemma ResolutionsAreFinal(limit: nat, s: Slots, e: Event)
    ensures var t := Next(limit, s, e);
      && s.grants <= t.grants && s.refusals <= t.refusals
      && (s.stopped ==> t.stopped && t.grants == s.grants)
      && (e.Stop? ==> t.stopped && t.grants == s.grants)
      && forall k :: |s.grants| <= k < |t.grants| ==>
           var w := t.grants[k];
           !(w < |t.signals| && t.signals[w].Some? && t.signals[w].value in t.aborted)
  {
    match e
    case Acquire(signal) =>
      DrainedLogs(limit, s.(signals := s.signals + [signal], waiters := s.waiters + [|s.signals|]));
    case SignalFires(fired) =>
    case AbortListener(w) =>
      DrainedLogs(limit, Refuse(s.(waiters := Without(s.waiters, w)), w));
    case Release(w) =>
      DrainedLogs(limit, s.(released := s.released + {w}, active := if s.active >= 1 then s.active - 1 else 0));
    case Stop =>
      RefuseAllLogs(s.(stopped := true, waiters := []), s.waiters);
  }

  // ---------------------------------------------------------------- who is answered, and how

  lemma OnlyWaitersMove(limit: nat, s: Slots)
    requires s.stopped || s.active >= limit || s.waiters == []
    ensures Drained(limit, s) == s
  {
  }

  /** A call is refused at once exactly when the pool is stopped or its signal has already fired; otherwise it
      gets a permit at once exactly when one is free, and else waits. Nobody else is answered. */
  lemma AcquireAnswers(limit: nat, s: Slots, signal: Option<Signal>)
    requires Good(limit, s) && Busy(limit, s)
    ensures var t, w := Next(limit, s, Acquire(signal)), |s.signals|;
      var refused := s.stopped || (signal.Some? && signal.value in s.aborted);
      var granted := !refused && s.active < limit;
      && t.refusals == s.refusals + (if refused then [w] else [])
      && t.grants == s.grants + (if granted then [w] else [])
      && t.waiters == s.waiters + (if refused || granted then [] else [w])
      && t.signals == s.signals + [signal]
      && t.stopped == s.stopped && t.aborted == s.aborted && t.released == s.released
  {
    var w := |s.signals|;
    NewTicket(s);
    if !(s.stopped || (signal.Some? && signal.value in s.aborted)) {
      var called := Arrived(s, signal);
      assert !Aborted(called, w) && w !in s.settled;
      if s.active < limit {
        assert s.waiters == [] && called.waiters == [w] && called.waiters[1..] == [];
        OnlyWaitersMove(limit, GrantTo(called.(waiters := []), w));
      } else {
        OnlyWaitersMove(limit, called);
      }
    }
  }

  /** An abort listener answers its own waiter with a refusal if it has no answer yet, and nobody else. */
  lemma AbortAnswers(limit: nat, s: Slots, w: Ticket)
    requires Good(limit, s) && Busy(limit, s)
    ensures var t := Next(limit, s, AbortListener(w));
      && (w < |s.signals| ==> w in t.settled)
      && t.grants == s.grants && t.stopped == s.stopped && t.released == s.released && t.signals == s.signals
      && t.aborted == s.aborted
      && if w < |s.signals| && w !in s.settled
         then t.refusals == s.refusals + [w] && t.waiters == Without(s.waiters, w)
         else t == s
  {
    if w < |s.signals| && w !in s.settled {
      UnsettledWaits(limit, s, w);
      OnlyWaitersMove(limit, Refuse(s.(waiters := Without(s.waiters, w)), w));
    }
  }

  /** The first waiter whose signal has not fired; the number of waiters if there is none. */
  function FirstLive(s: Slots): nat {
    LiveFrom(s, 0)
  }

  function LiveFrom(s: Slots, i: nat): (r: nat)
    requires i <= |s.waiters|
    ensures i <= r <= |s.waiters|
    ensures forall k :: i <= k < r ==> Aborted(s, s.waiters[k])
    ensures r < |s.waiters| ==> !Aborted(s, s.waiters[r])
    decreases |s.waiters| - i
  {
    if i == |s.waiters| || !Aborted(s, s.waiters[i]) then i else LiveFrom(s, i + 1)
  }

  /** `t` serves one permit from the queue of `s`: the waiters before the `i`-th are refused, the `i`-th gets it. */
  ghost predicate ServesOne(s: Slots, t: Slots, i: nat)
    requires i <= |s.waiters|
  {
    && t.refusals == s.refusals + s.waiters[..i]
    && t.grants == s.grants + (if i < |s.waiters| then [s.waiters[i]] else [])
    && t.waiters == (if i < |s.waiters| then s.waiters[i + 1..] else [])
    && t.released == s.released && t.signals == s.signals && t.stopped == s.stopped && t.aborted == s.aborted
  }

  /** Nobody in the queue has an answer, nor stands in it twice. */
  ghost predicate Unanswered(s: Slots) {
    Distinct(s.waiters) && forall w :: w in s.waiters ==> w !in s.settled
  }

  lemma WaitersUnanswered(limit: nat, s: Slots)
    requires Good(limit, s)
    ensures Unanswered(s)
  {
    var both := s.grants + s.waiters;
    forall i | 0 <= i < |s.waiters| ensures s.waiters[i] !in s.settled {
      assert s.waiters[i] in s.waiters && both[|s.grants| + i] == s.waiters[i];
      forall k | 0 <= k < |s.grants| ensures s.grants[k] != s.waiters[i] { assert both[k] == s.grants[k]; }
    }
    forall i, j | 0 <= i < j < |s.waiters| ensures s.waiters[i] != s.waiters[j] {
      assert both[|s.grants| + i] == s.waiters[i] && both[|s.grants| + j] == s.waiters[j];
    }
  }

  lemma {:induction false} DrainedServesOne(limit: nat, s: Slots, i: nat)
    requires Unanswered(s) && !s.stopped && s.active + 1 == limit && i <= |s.waiters|
    requires forall k :: 0 <= k < i ==> Aborted(s, s.waiters[k])
    requires i < |s.waiters| ==> !Aborted(s, s.waiters[i])
    ensures ServesOne(s, Drained(limit, s), i)
    decreases i
  {
    if s.waiters != [] {
      var w, rest := s.waiters[0], s.(waiters := s.waiters[1..]);
      assert w in s.waiters;
      if i > 0 {
        assert Aborted(s, s.waiters[0]);
        var t := Refuse(rest, w);
        RefusedUnanswered(s);
        assert forall k :: 0 <= k < |t.waiters| ==> t.waiters[k] == s.waiters[k + 1];
        DrainedServesOne(limit, t, i - 1);
        hide Unanswered, Aborted;
        ServesOneMore(s, Drained(limit, s), i);
      } else {
        OnlyWaitersMove(limit, GrantTo(rest, w));
      }
    }
  }

  lemma RefusedUnanswered(s: Slots)
    requires Unanswered(s) && s.waiters != []
    ensures Unanswered(Refuse(s.(waiters := s.waiters[1..]), s.waiters[0]))
  {
  }

  lemma ServesOneMore(s: Slots, t: Slots, i: nat)
    requires 0 < i <= |s.waiters|
    requires ServesOne(Refuse(s.(waiters := s.waiters[1..]), s.waiters[0]), t, i - 1)
    ensures ServesOne(s, t, i)
  {
    assert s.waiters[..i] == [s.waiters[0]] + s.waiters[1..][..i - 1];
    if i < |s.waiters| { assert s.waiters[1..][i - 1] == s.waiters[i] && s.waiters[1..][i..] == s.waiters[i + 1..]; }
  }

  /** A release returns its permit once. Unless the pool is stopped, the permit goes to the first waiter whose
      signal has not fired, and exactly those before it are refused. */
  lemma ReleaseAnswers(limit: nat, s: Slots, w: Ticket)
    requires Good(limit, s) && Busy(limit, s)
    ensures var t, returned := Next(limit, s, Release(w)), s.(released := s.released + {w});
      if w !in s.grants || w in s.released then t == s
      else if s.stopped then
        t.grants == s.grants && t.refusals == s.refusals && t.waiters == [] && t.released == returned.released
      else ServesOne(returned, t, FirstLive(returned))
  {
    if w in s.grants && w !in s.released {
      var moves := ReleaseRefines(limit, s, w);
      var freed := s.(released := s.released + {w}, active := s.active - 1);
      if s.stopped || s.waiters == [] {
        OnlyWaitersMove(limit, freed);
      } else {
        WaitersUnanswered(limit, s);
        LiveTheSame(freed, s.(released := s.released + {w}), 0);
        DrainedServesOne(limit, freed, FirstLive(freed));
      }
    }
  }

  lemma LiveTheSame(s: Slots, t: Slots, i: nat)
    requires s.waiters == t.waiters && s.signals == t.signals && s.aborted == t.aborted && i <= |s.waiters|
    ensures LiveFrom(s, i) == LiveFrom(t, i)
    decreases |s.waiters| - i
  {
  }

  lemma {:induction false} RefuseAllAnswers(s: Slots, queue: seq<Ticket>)
    requires Distinct(queue) && forall w :: w in queue ==> w !in s.settled
    ensures RefuseAll(s, queue).refusals == s.refusals + queue && RefuseAll(s, queue).waiters == s.waiters
    ensures RefuseAll(s, queue).released == s.released
    decreases |queue|
  {
    if queue != [] {
      RefuseAllAnswers(Refuse(s, queue[0]), queue[1..]);
      assert queue == [queue[0]] + queue[1..];
    }
  }

  /** Stopping refuses every waiter, in order, and takes no permit back. */
  lemma StopAnswers(limit: nat, s: Slots)
    requires Good(limit, s)
    ensures var t := Next(limit, s, Stop);
      && t.stopped && t.waiters == [] && t.refusals == s.refusals + s.waiters && t.grants == s.grants
      && t.released == s.released
  {
    WaitersUnanswered(limit, s);
    RefuseAllAnswers(s.(stopped := true, waiters := []), s.waiters);
    RefuseAllLogs(s.(stopped := true, waiters := []), s.waiters);
  }

  /** Why `w` may be refused in the state `s` that `e` leads to. */
  predicate HasReason(s: Slots, e: Event, w: Ticket) {
    s.stopped || Aborted(s, w) || e == AbortListener(w)
  }

  lemma EventRefuses(limit: nat, s: Slots, e: Event, w: Ticket)
    requires Good(limit, s) && Busy(limit, s)
    requires w in Next(limit, s, e).refusals && w !in s.refusals
    ensures HasReason(Next(limit, s, e), e, w)
  {
    match e
    case Acquire(signal) =>
      AcquireAnswers(limit, s, signal);
    case SignalFires(fired) =>
    case AbortListener(x) =>
      AbortAnswers(limit, s, x);
    case Release(x) =>
      ReleaseAnswers(limit, s, x);
      if x in s.grants && x !in s.released && !s.stopped {
        var returned := s.(released := s.released + {x});
        var i := FirstLive(returned);
        assert w in returned.waiters[..i];
        var k :| 0 <= k < i && returned.waiters[k] == w;
        assert Aborted(returned, returned.waiters[k]);
      }
    case Stop =>
      StopAnswers(limit, s);
  }

  /** Calls keep their signals. */
  lemma SignalStays(limit: nat, s: Slots, e: Event, w: Ticket)
    ensures w < |s.signals| ==> w < |Next(limit, s, e).signals| && Next(limit, s, e).signals[w] == s.signals[w]
  {
    match e
    case Acquire(signal) =>
      DrainedLogs(limit, s.(signals := s.signals + [signal], waiters := s.waiters + [|s.signals|]));
    case SignalFires(fired) =>
    case AbortListener(x) =>
      DrainedLogs(limit, Refuse(s.(waiters := Without(s.waiters, x)), x));
    case Release(x) =>
      DrainedLogs(limit, s.(released := s.released + {x}, active := if s.active >= 1 then s.active - 1 else 0));
    case Stop =>
      RefuseAllLogs(s.(stopped := true, waiters := []), s.waiters);
  }

  /** In every run the pool is stopped exactly when a stop has come, and a signal reads as aborted exactly when
      it has fired. */
  lemma {:induction false} FlagsOfRun(limit: nat, events: seq<Event>, x: Signal)
    ensures After(limit, events).stopped <==> Stop in events
    ensures x in After(limit, events).aborted <==> SignalFires(x) in events
  {
    if events != [] {
      var init, e := events[..|events| - 1], events[|events| - 1];
      var s := After(limit, init);
      FlagsOfRun(limit, init, x);
      EveryRunIsGood(limit, init);
      assert events == init + [e];
      match e
      case Acquire(signal) => AcquireAnswers(limit, s, signal);
      case SignalFires(fired) =>
      case AbortListener(w) => AbortAnswers(limit, s, w);
      case Release(w) => ReleaseAnswers(limit, s, w); ReleaseFlags(limit, s, w);
      case Stop => RefuseAllLogs(s.(stopped := true, waiters := []), s.waiters);
    }
  }

  lemma ReleaseFlags(limit: nat, s: Slots, w: Ticket)
    ensures Next(limit, s, Release(w)).stopped == s.stopped && Next(limit, s, Release(w)).aborted == s.aborted
  {
    DrainedLogs(limit, s.(released := s.released + {w}, active := if s.active >= 1 then s.active - 1 else 0));
  }

  /** In every run, nobody is refused but after a stop, after the own signal has fired, or by the own abort
      listener. */
  lemma {:induction false} RefusedForAReason(limit: nat, events: seq<Event>, w: Ticket)
    requires w in After(limit, events).refusals
    ensures var s := After(limit, events);
      || Stop in events || AbortListener(w) in events
      || (w < |s.signals| && s.signals[w].Some? && SignalFires(s.signals[w].value) in events)
  {
    if events != [] {
      var init, e := events[..|events| - 1], events[|events| - 1];
      EveryRunIsGood(limit, init);
      if w in After(limit, init).refusals {
        RefusedForAReason(limit, init, w);
        SignalStays(limit, After(limit, init), e, w);
      } else {
        EventRefuses(limit, After(limit, init), e, w);
        var t := After(limit, events);
        FlagsOfRun(limit, events, if w < |t.signals| && t.signals[w].Some? then t.signals[w].value else 0);
      }
    }
  }

  /** The clamp at zero in the release closure never acts. */
  lemma ReleaseNeverClamps(limit: nat, events: seq<Event>, w: Ticket)
    requires w in After(limit, events).grants && w !in After(limit, events).released
    ensures After(limit, events).active >= 1
  {
    EveryRunIsGood(limit, events);
    var moves := ReleaseRefines(limit, After(limit, events), w);
  }

  // ---------------------------------------------------------------- the class

  lemma {:induction false} DrainedTwice(limit: nat, s: Slots)
    ensures Drained(limit, Drained(limit, s)) == Drained(limit, s)
    decreases |s.waiters|
  {
    if !(s.stopped || s.active >= limit || s.waiters == []) {
      var w, rest := s.waiters[0], s.(waiters := s.waiters[1..]);
      DrainedTwice(limit, if w in s.settled then rest else if Aborted(s, w) then Refuse(rest, w) else GrantTo(rest, w));
    }
  }

  /** Draining only takes waiters off the front. */
  lemma {:induction false} DrainedQueue(limit: nat, s: Slots)
    ensures var t := Drained(limit, s);
      |t.waiters| <= |s.waiters| && t.waiters == s.waiters[|s.waiters| - |t.waiters|..]
      && t.signals == s.signals && t.stopped == s.stopped
    decreases |s.waiters|
  {
    if !(s.stopped || s.active >= limit || s.waiters == []) {
      var w, rest := s.waiters[0], s.(waiters := s.waiters[1..]);
      DrainedQueue(limit, if w in s.settled then rest else if Aborted(s, w) then Refuse(rest, w) else GrantTo(rest, w));
    }
  }

  lemma {:induction false} WithoutShorter(queue: seq<Ticket>, t: Ticket)
    ensures |Without(queue, t)| <= |queue|
  {
    if queue != [] {
      WithoutShorter(queue[1..], t);
    }
  }

  lemma TailIncreasing(s: seq<Ticket>)
    requires s != [] && Increasing(s)
    ensures Increasing(s[1..]) && s[0] !in s[1..]
  {
  }

  /** Running the abort listener of the head just taken off the queue finishes the draining. */
  lemma AbortedHead(limit: nat, s: Slots)
    requires !s.stopped && s.active < limit && s.waiters != []
    requires s.waiters[0] !in s.settled && Aborted(s, s.waiters[0]) && s.waiters[0] !in s.waiters[1..]
    ensures Next(limit, s.(waiters := s.waiters[1..]), AbortListener(s.waiters[0])) == Drained(limit, s)
    ensures Drained(limit, Drained(limit, s)) == Drained(limit, s)
    ensures |Drained(limit, s).waiters| < |s.waiters| && !Drained(limit, s).stopped
  {
    DrainedTwice(limit, s);
    DrainedQueue(limit, Refuse(s.(waiters := s.waiters[1..]), s.waiters[0]));
  }

  class BoundedFifoSlots {
    const limit: nat
    var active: int
    var stopped: bool
    var waiters: seq<Ticket>
    var settled: set<Ticket>
    var released: set<Ticket>
    var signals: seq<Option<Signal>>
    var aborted: set<Signal>
    var grants: seq<Ticket>
    var refusals: seq<Ticket>

    ghost function State(): Slots
      reads this
    {
      Slots(active, stopped, waiters, settled, released, signals, aborted, grants, refusals)
    }

    ghost predicate Valid()
      reads this
    {
      Increasing(waiters) && forall i :: 0 <= i < |waiters| ==> waiters[i] < |signals|
    }

    constructor (limit: nat)
      ensures Valid() && State() == Initial() && this.limit == limit
    {
      this.limit := limit;
      active, stopped, waiters, settled, released := 0, false, [], {}, {};
      signals, aborted, grants, refusals := [], {}, [], [];
    }

    method Resolve(w: Ticket, granted: bool)
      modifies this`grants, this`refusals
      ensures State() == old(State()).(
        grants := if granted then old(grants) + [w] else old(grants),
        refusals := if granted then old(refusals) else old(refusals) + [w])
    {
      if granted {
        grants := grants + [w];
      } else {
        refusals := refusals + [w];
      }
    }

    method Acquire(signal: Option<Signal>) returns (w: Ticket)
      requires Valid()
      modifies this
      ensures Valid()
      ensures w == |old(signals)| && State() == Next(limit, old(State()), Event.Acquire(signal))
    {
      w := |signals|;
      signals := signals + [signal];
      if stopped || (signal.Some? && signal.value in aborted) {
        settled := settled + {w};
        Resolve(w, false);
      } else {
        waiters := waiters + [w];
        Drain();
      }
    }

    /** The environment's side of an abort: the signal now reads as aborted. */
    method SignalFires(fired: Signal)
      modifies this`aborted
      ensures State() == Next(limit, old(State()), Event.SignalFires(fired))
    {
      aborted := aborted + {fired};
    }

    /** The listener a waiter registered on its signal. It drains, and `Drain` may call it. */
    method OnAbort(w: Ticket)
      requires Valid() && w < |signals|
      modifies this
      ensures Valid() && State() == Next(limit, old(State()), Event.AbortListener(w))
      decreases |waiters|, 1
    {
      if w in settled { return; }
      settled := settled + {w};
      waiters := Without(waiters, w);
      WithoutShorter(old(waiters), w);
      WithoutIncreasing(old(waiters), w);
      forall i | 0 <= i < |waiters| ensures waiters[i] < |signals| {
        assert waiters[i] in waiters;
      }
      Resolve(w, false);
      Drain();
    }

    method Drain()
      requires Valid()
      modifies this
      ensures Valid() && State() == Drained(limit, old(State()))
      decreases |waiters|, 0
    {
      hide RefuseAll, Increasing, Next, Without;
      DrainedQueue(limit, State());
      if stopped { return; }
      while active < limit && waiters != []
        invariant Valid() && !stopped && |waiters| <= |old(waiters)|
        invariant Drained(limit, State()) == Drained(limit, old(State()))
        decreases |waiters|
      {
        ghost var before := State();
        var w := waiters[0];
        TailIncreasing(waiters);
        waiters := waiters[1..];
        if w in settled { continue; }
        if signals[w].Some? && signals[w].value in aborted {
          // The queue no longer holds `w` when its listener runs.
          AbortedHead(limit, before);
          OnAbort(w);
          continue;
        }
        settled := settled + {w};
        active := active + 1;
        Resolve(w, true);
      }
    }

    method Release(w: Ticket)
      requires Valid() && w in grants
      modifies this
      ensures Valid() && State() == Next(limit, old(State()), Event.Release(w))
    {
      if w in released { return; }
      released := released + {w};
      active := if active >= 1 then active - 1 else 0;
      Drain();
    }

    method Stop()
      requires Valid()
      modifies this
      ensures Valid() && State() == Next(limit, old(State()), Event.Stop)
    {
      stopped := true;
      var queue := waiters;
      waiters := [];
      ghost var start := State();
      for i := 0 to |queue|
        invariant stopped && waiters == []
        invariant RefuseAll(State(), queue[i..]) == RefuseAll(start, queue)
      {
        if queue[i] !in settled {
          settled := settled + {queue[i]};
          Resolve(queue[i], false);
        }
      }
    }
  }
}
