/** What the three kill ladders share: signal answers, terminal causes, leases and timed events.

    The operating system is a set of possible answers: what sending a signal reported, and whether the
    process tree is gone. Time is an integer in milliseconds; an armed timer fires at its deadline and
    nothing happens later than an armed deadline before it has fired. */
module Processes {
  import opened Sequences

  const KILL_GRACE_MS := 2000
  const KILL_WATCHDOG_MS := 1000

  datatype Cause = Timeout | Cancelled | Failed
  datatype Sent = Delivered | Gone | IdentityMismatch | Unverifiable | DeliveryFailed

  /** One attempt to signal the process group, with what a look at the tree said right after. */
  datatype Attempt = Attempt(sent: Sent, treeGone: bool)

  predicate NothingLeft(a: Attempt) {
    a.sent == Gone || a.treeGone
  }

  predicate SignalDelivered(a: Attempt) {
    a.sent == Delivered
  }

  /** After such an attempt there is nothing to wait for: nothing is left, or the signal went astray. */
  predicate EndsLadder(a: Attempt) {
    a.treeGone || a.sent != Delivered
  }

  /** Something may still be running after such an attempt. */
  predicate MayBeAlive(a: Attempt) {
    !a.treeGone && a.sent != Gone
  }

  datatype LeaseState = Active | Settling
  datatype Disposal = LeaseReleased | LeaseUnconfirmed

  /** `terminal.latch`: the first cause stays. */
  function Latch(cause: Option<Cause>, next: Cause): Option<Cause> {
    if cause.None? then Some(next) else cause
  }

  function MarkSettling(lease: Option<LeaseState>): Option<LeaseState> {
    if lease == Some(Active) then Some(Settling) else lease
  }

  predicate NotOverdue(timer: Option<int>, at: int) {
    timer.Some? ==> at <= timer.value
  }

  // ---------------------------------------------------------------- histories

  datatype Timed<+E> = At(time: int, event: E)

  /** `events` is a possible history from `s`, and `t` where it leads. */
  ghost predicate History<S(!new), E(!new)>(
      possible: (S, Timed<E>) -> bool, next: (S, Timed<E>) -> S, s: S, events: seq<Timed<E>>, t: S)
    decreases |events|
  {
    if events == [] then s == t
    else possible(s, events[0]) && History(possible, next, next(s, events[0]), events[1..], t)
  }

  /** What every possible event keeps holds along every possible history. */
  lemma {:induction false} HistoryKeeps<S(!new), E(!new)>(
      possible: (S, Timed<E>) -> bool, next: (S, Timed<E>) -> S, keeps: S -> bool, s: S, events: seq<Timed<E>>, t: S)
    requires keeps(s) && History(possible, next, s, events, t)
    requires forall x, e :: keeps(x) && possible(x, e) ==> keeps(next(x, e))
    ensures keeps(t)
    decreases |events|
  {
    if events != [] {
      HistoryKeeps(possible, next, keeps, next(s, events[0]), events[1..], t);
    }
  }

  /** What every possible event makes true of the history so far holds of every possible history. */
  lemma {:induction false} HistoryTells<S(!new), E(!new)>(
      possible: (S, Timed<E>) -> bool, next: (S, Timed<E>) -> S, tells: (seq<Timed<E>>, S) -> bool,
      past: seq<Timed<E>>, s: S, events: seq<Timed<E>>, t: S)
    requires tells(past, s) && History(possible, next, s, events, t)
    requires forall es, x, e :: tells(es, x) && possible(x, e) ==> tells(es + [e], next(x, e))
    ensures tells(past + events, t)
    decreases |events|
  {
    if events == [] {
      assert past + events == past;
    } else {
      HistoryTells(possible, next, tells, past + [events[0]], next(s, events[0]), events[1..], t);
      assert (past + [events[0]]) + events[1..] == past + events;
    }
  }

  /** The first event of a kind. */
  function FirstOf<E>(events: seq<Timed<E>>, kind: E -> bool): Option<Timed<E>> {
    if events == [] then None
    else
      var before := FirstOf(events[..|events| - 1], kind);
      if before.Some? then before
      else if kind(events[|events| - 1].event) then Some(events[|events| - 1])
      else None
  }

  function TimeOf<E>(e: Option<Timed<E>>): Option<int> {
    if e.None? then None else Some(e.value.time)
  }

  function Later(time: Option<int>, delay: int): Option<int> {
    if time.None? then None else Some(time.value + delay)
  }

  lemma FirstOfNext<E>(events: seq<Timed<E>>, e: Timed<E>, kind: E -> bool)
    ensures FirstOf(events + [e], kind) ==
      if FirstOf(events, kind).Some? then FirstOf(events, kind) else if kind(e.event) then Some(e) else None
  {
    assert (events + [e])[..|events|] == events;
  }

  lemma {:induction false} CountNext<E>(events: seq<Timed<E>>, e: Timed<E>, counts: E -> bool)
    ensures Count(events + [e], counts) == Count(events, counts) + if counts(e.event) then 1 else 0
  {
    if events == [] {
      assert [e][1..] == [];
    } else {
      assert (events + [e])[1..] == events[1..] + [e];
      CountNext(events[1..], e, counts);
    }
  }

  /** The first cause that any of the events brings. */
  function FirstCause<E>(events: seq<Timed<E>>, causeOf: E -> Option<Cause>): Option<Cause> {
    if events == [] then None
    else if causeOf(events[0].event).Some? then causeOf(events[0].event)
    else FirstCause(events[1..], causeOf)
  }

  /** The code of the last event that reports one, by exit; `before` if none does. */
  function LastExit<E>(before: Option<int>, events: seq<Timed<E>>, exitOf: E -> Option<Option<int>>): Option<int>
    decreases |events|
  {
    if events == [] then before
    else LastExit(if exitOf(events[0].event).Some? then exitOf(events[0].event).value else before, events[1..], exitOf)
  }

  function Count<E>(events: seq<Timed<E>>, counts: E -> bool): nat {
    if events == [] then 0
    else (if counts(events[0].event) then 1 else 0) + Count(events[1..], counts)
  }
}
