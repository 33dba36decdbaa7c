/** `runPiSubagent` (extensions/sub-agent-runtime.ts) once its child is spawned.

    Unlike a workflow step, an error event is not refused after termination has started, so a second
    watchdog can be armed over the first. The variable then forgets the first timer, which stays armed
    and fires on its own. */
module ChildLifecycle {
  import opened Sequences
  import opened Processes

  datatype RunResult = RunResult(success: bool, cause: Option<Cause>, cleanupFailed: bool, outcomeUnknown: bool)

  datatype Run = Run(
    now: int,
    settled: bool,
    began: Option<int>,        // when the ladder started, for the record
    timeoutAt: Option<int>,
    killAt: Option<int>,
    watchdog: Option<int>,     // what the variable refers to
    watchdogs: seq<int>,       // every watchdog timer still armed
    cause: Option<Cause>,
    exitCode: Option<int>,     // observedExitCode
    lease: Option<LeaseState>,
    results: seq<RunResult>,   // calls of `resolve`
    disposals: seq<Disposal>)

  datatype Event =
    | TimeoutFires(attempt: Attempt)
    | Abort(attempt: Attempt)
    | ErrorEvent(attempt: Attempt)
    | ExitEvent(code: Option<int>)
    | CloseEvent(code: Option<int>)
    | KillTimerFires(attempt: Attempt)
    | WatchdogFires(treeGone: bool)
    | Detach                   // session shutdown gives the child up

  type Timed = Processes.Timed<Event>

  function Launch(start: int, timeoutMs: nat, leased: bool): Run {
    Run(start, false, None, Some(start + timeoutMs), None, None, [], None, None,
        if leased then Some(Active) else None, [], [])
  }

  /** Clearing on release reaches only the watchdog the variable still refers to. */
  function Cleared(watchdogs: seq<int>, watchdog: Option<int>): seq<int> {
    if watchdog.None? then watchdogs else WithoutOne(watchdogs, watchdog.value)
  }

  function Finish(s: Run, r: RunResult): Run {
    if s.settled then s
    else s.(
      settled := true, timeoutAt := None, killAt := None, watchdog := None,
      watchdogs := Cleared(s.watchdogs, s.watchdog), lease := None,
      results := s.results + [r],
      disposals := if s.lease.None? then s.disposals
                   else s.disposals + [if r.cleanupFailed || r.outcomeUnknown then LeaseUnconfirmed else LeaseReleased])
  }

  function FinishTerminal(s: Run, unclean: bool): Run {
    Finish(s, RunResult(false, Some(if s.cause.Some? then s.cause.value else Failed), unclean, unclean))
  }

  function WatchForExit(s: Run): Run {
    s.(watchdog := Some(s.now + KILL_WATCHDOG_MS), watchdogs := s.watchdogs + [s.now + KILL_WATCHDOG_MS])
  }

  function Begin(s: Run): Run {
    s.(began := if s.began.None? then Some(s.now) else s.began)
  }

  function Terminate(s: Run, a: Attempt): Run {
    if s.settled || s.killAt.Some? || s.watchdog.Some? then s
    else
      var t := Begin(s).(cause := Latch(s.cause, Cancelled), lease := MarkSettling(s.lease));
      if NothingLeft(a) then FinishTerminal(t, false)
      else if !SignalDelivered(a) then FinishTerminal(t, true)
      else t.(killAt := Some(s.now + KILL_GRACE_MS))
  }

  /** SIGKILL, and what follows from its answer. */
  function Kill(s: Run, a: Attempt): Run {
    if NothingLeft(a) then FinishTerminal(s, false)
    else if !SignalDelivered(a) then FinishTerminal(s, true)
    else WatchForExit(s)
  }

  function OnError(s: Run, a: Attempt): Run {
    if s.settled then s
    else Kill(Begin(s).(cause := Latch(s.cause, Failed), lease := MarkSettling(s.lease)), a)
  }

  function OnClose(s: Run, code: Option<int>): Run {
    if s.settled then s
    else if s.cause.Some? then FinishTerminal(s, false)
    else if (if code.Some? then code else s.exitCode) == Some(0) then Finish(s, RunResult(true, None, false, false))
    else FinishTerminal(s.(cause := Some(Failed)), false)
  }

  function OnKillTimer(s: Run, a: Attempt): Run {
    if s.settled then s.(killAt := None) else Kill(s.(killAt := None), a)
  }

  function OnWatchdog(s: Run, treeGone: bool): Run {
    var t := s.(watchdog := None, watchdogs := WithoutOne(s.watchdogs, s.now));
    if s.settled then t else FinishTerminal(t, !treeGone)
  }

  function OnDetach(s: Run): Run {
    if s.lease.None? then s
    else s.(lease := None, disposals := s.disposals + [LeaseUnconfirmed])
  }

  function React(s: Run, e: Event): Run {
    match e
    case TimeoutFires(a) => Terminate(s.(timeoutAt := None, cause := Latch(s.cause, Timeout)), a)
    case Abort(a) => if s.settled then s else Terminate(s.(cause := Latch(s.cause, Cancelled)), a)
    case ErrorEvent(a) => OnError(s, a)
    case ExitEvent(code) => if s.settled then s else s.(exitCode := code)
    case CloseEvent(code) => OnClose(s, code)
    case KillTimerFires(a) => OnKillTimer(s, a)
    case WatchdogFires(gone) => OnWatchdog(s, gone)
    case Detach => OnDetach(s)
  }

  predicate CanHappen(s: Run, e: Timed) {
    && s.now <= e.time
    && NotOverdue(s.timeoutAt, e.time) && NotOverdue(s.killAt, e.time)
    && (forall w :: w in s.watchdogs ==> e.time <= w)
    && (e.event.TimeoutFires? ==> s.timeoutAt == Some(e.time))
    && (e.event.KillTimerFires? ==> s.killAt == Some(e.time))
    && (e.event.WatchdogFires? ==> e.time in s.watchdogs)
  }

  function Next(s: Run, e: Timed): Run {
    React(s.(now := e.time), e.event)
  }

  /** A signal already aborted at launch is acted on before the timeout is armed. */
  function LaunchAborted(start: int, timeoutMs: nat, leased: bool, attempt: Attempt): Run {
    React(Launch(start, timeoutMs, leased).(timeoutAt := None), Abort(attempt)).(timeoutAt := Some(start + timeoutMs))
  }

  ghost predicate Starts(s: Run, start: int, timeoutMs: nat, leased: bool) {
    s == Launch(start, timeoutMs, leased) || exists a: Attempt :: s == LaunchAborted(start, timeoutMs, leased, a)
  }

  ghost predicate Leads(s: Run, events: seq<Timed>, t: Run) {
    History(CanHappen, Next, s, events, t)
  }

  // ---------------------------------------------------------------- the invariant

  ghost predicate SettledOnce(s: Run, leased: bool) {
    && |s.results| == (if s.settled then 1 else 0)
    && |s.disposals| == (if leased && s.lease.None? then 1 else 0)
    && (s.lease.Some? ==> leased && !s.settled)
    && (!s.settled && leased && s.lease.None? ==> s.disposals == [LeaseUnconfirmed])
  }

  /** Until settlement: the timeout is armed, or the ladder has begun and one of its timers, due within
      the two periods, is armed. */
  ghost predicate OnTheClock(s: Run, start: int, timeoutMs: nat) {
    !s.settled ==>
      && start <= s.now
      && (s.timeoutAt.Some? ==> s.now <= s.timeoutAt.value == start + timeoutMs)
      && (s.watchdog.Some? ==> s.watchdog.value in s.watchdogs)
      && (s.watchdogs != [] <==> s.watchdog.Some?)
      && match s.began
         case None => s.timeoutAt.Some? && s.killAt.None? && s.watchdogs == []
         case Some(b) =>
           && start <= b <= s.now && b <= start + timeoutMs
           && (s.killAt.Some? || s.watchdogs != [])
           && (s.killAt.Some? ==> s.now <= s.killAt.value <= b + KILL_GRACE_MS)
           && (forall w :: w in s.watchdogs ==> s.now <= w)
           && (s.watchdogs != [] ==> exists w :: w in s.watchdogs && w <= b + KILL_GRACE_MS + KILL_WATCHDOG_MS)
           && s.cause.Some?
  }

  ghost predicate Good(s: Run, start: int, timeoutMs: nat, leased: bool) {
    SettledOnce(s, leased) && OnTheClock(s, start, timeoutMs)
  }

  lemma AdvanceKeeps(s: Run, e: Timed, start: int, timeoutMs: nat, leased: bool)
    requires Good(s, start, timeoutMs, leased) && CanHappen(s, e)
    ensures Good(s.(now := e.time), start, timeoutMs, leased)
  {
  }

  lemma EndsKeep(s: Run, unclean: bool, start: int, timeoutMs: nat, leased: bool)
    requires SettledOnce(s, leased) && !s.settled
    ensures Good(FinishTerminal(s, unclean), start, timeoutMs, leased)
  {
  }

  /** Arming one more watchdog never postpones the first. */
  lemma WatchKeeps(s: Run, start: int, timeoutMs: nat, leased: bool)
    requires SettledOnce(s, leased) && !s.settled && s.cause.Some?
    requires start <= s.now && (s.timeoutAt.Some? ==> s.now <= s.timeoutAt.value == start + timeoutMs)
    requires s.began.Some? && start <= s.began.value <= s.now && s.began.value <= start + timeoutMs
    requires s.killAt.Some? ==> s.now <= s.killAt.value <= s.began.value + KILL_GRACE_MS
    requires forall w :: w in s.watchdogs ==> s.now <= w
    requires s.now <= s.began.value + KILL_GRACE_MS
      || exists w :: w in s.watchdogs && w <= s.began.value + KILL_GRACE_MS + KILL_WATCHDOG_MS
    ensures Good(WatchForExit(s), start, timeoutMs, leased)
  {
    var t := WatchForExit(s);
    assert t.watchdog.value in t.watchdogs;
    forall w | w in s.watchdogs ensures w in t.watchdogs {
    }
  }

  lemma TerminateKeeps(s: Run, t: Run, a: Attempt, start: int, timeoutMs: nat, leased: bool)
    requires Good(s, start, timeoutMs, leased) && !s.settled
    requires t == s.(cause := t.cause, timeoutAt := t.timeoutAt)
    requires t.cause.Some? && (t.timeoutAt == s.timeoutAt || t.timeoutAt.None?)
    ensures Good(Terminate(t, a), start, timeoutMs, leased)
  {
    var u := Begin(t).(cause := Latch(t.cause, Cancelled), lease := MarkSettling(t.lease));
    EndsKeep(u, false, start, timeoutMs, leased);
    EndsKeep(u, true, start, timeoutMs, leased);
    hide FinishTerminal;
  }

  lemma ErrorKeeps(s: Run, a: Attempt, start: int, timeoutMs: nat, leased: bool)
    requires Good(s, start, timeoutMs, leased) && !s.settled
    ensures Good(OnError(s, a), start, timeoutMs, leased)
  {
    var t := Begin(s).(cause := Latch(s.cause, Failed), lease := MarkSettling(s.lease));
    EndsKeep(t, false, start, timeoutMs, leased);
    EndsKeep(t, true, start, timeoutMs, leased);
    WatchKeeps(t, start, timeoutMs, leased);
    hide FinishTerminal, WatchForExit;
  }

  lemma KillTimerKeeps(s: Run, a: Attempt, start: int, timeoutMs: nat, leased: bool)
    requires Good(s, start, timeoutMs, leased) && !s.settled && s.killAt == Some(s.now)
    ensures Good(OnKillTimer(s, a), start, timeoutMs, leased)
  {
    var t := s.(killAt := None);
    EndsKeep(t, false, start, timeoutMs, leased);
    EndsKeep(t, true, start, timeoutMs, leased);
    WatchKeeps(t, start, timeoutMs, leased);
    hide FinishTerminal, WatchForExit;
  }

  lemma CloseKeeps(s: Run, code: Option<int>, start: int, timeoutMs: nat, leased: bool)
    requires SettledOnce(s, leased) && !s.settled
    ensures Good(OnClose(s, code), start, timeoutMs, leased)
  {
    EndsKeep(s, false, start, timeoutMs, leased);
    EndsKeep(s.(cause := Some(Failed)), false, start, timeoutMs, leased);
    hide FinishTerminal;
  }

  lemma AfterSettled(s: Run, e: Event, start: int, timeoutMs: nat, leased: bool)
    requires Good(s, start, timeoutMs, leased) && s.settled
    ensures Good(React(s, e), start, timeoutMs, leased)
    ensures React(s, e).results == s.results && React(s, e).disposals == s.disposals
  {
  }

  lemma StepKeeps(s: Run, e: Timed, start: int, timeoutMs: nat, leased: bool)
    requires Good(s, start, timeoutMs, leased) && CanHappen(s, e)
    ensures Good(Next(s, e), start, timeoutMs, leased)
  {
    AdvanceKeeps(s, e, start, timeoutMs, leased);
    var t := s.(now := e.time);
    if t.settled {
      AfterSettled(t, e.event, start, timeoutMs, leased);
      return;
    }
    hide Terminate, OnError, OnClose, OnKillTimer, FinishTerminal;
    match e.event
    case TimeoutFires(a) =>
      TerminateKeeps(t, t.(timeoutAt := None, cause := Latch(t.cause, Timeout)), a, start, timeoutMs, leased);
    case Abort(a) =>
      TerminateKeeps(t, t.(cause := Latch(t.cause, Cancelled)), a, start, timeoutMs, leased);
    case ErrorEvent(a) =>
      ErrorKeeps(t, a, start, timeoutMs, leased);
    case ExitEvent(code) =>
    case CloseEvent(code) =>
      CloseKeeps(t, code, start, timeoutMs, leased);
    case KillTimerFires(a) =>
      KillTimerKeeps(t, a, start, timeoutMs, leased);
    case WatchdogFires(gone) =>
      EndsKeep(t.(watchdog := None, watchdogs := WithoutOne(t.watchdogs, t.now)), !gone, start, timeoutMs, leased);
    case Detach =>
  }

  lemma LeadsWell(s: Run, events: seq<Timed>, t: Run, start: int, timeoutMs: nat, leased: bool)
    requires Good(s, start, timeoutMs, leased) && Leads(s, events, t)
    ensures Good(t, start, timeoutMs, leased)
  {
    forall x: Run, e | Good(x, start, timeoutMs, leased) && CanHappen(x, e)
      ensures Good(Next(x, e), start, timeoutMs, leased)
    {
      StepKeeps(x, e, start, timeoutMs, leased);
    }
    hide Good, CanHappen, Next;
    HistoryKeeps(CanHappen, Next, (x: Run) => Good(x, start, timeoutMs, leased), s, events, t);
  }

  /** A launch is well, with the timeout armed even when an aborted signal settled the child at once. */
  lemma LaunchedWell(s: Run, start: int, timeoutMs: nat, leased: bool)
    requires Starts(s, start, timeoutMs, leased)
    ensures Good(s, start, timeoutMs, leased) && s.timeoutAt == Some(start + timeoutMs)
    ensures s.watchdogs == [] && s.exitCode.None? && (s.lease.Some? <==> leased && !s.settled)
    ensures s.settled ==> exists unclean :: s.results == [RunResult(false, Some(Cancelled), unclean, unclean)]
    ensures Tied(s, leased)
  {
    if s != Launch(start, timeoutMs, leased) {
      var a :| s == LaunchAborted(start, timeoutMs, leased, a);
      assert s.settled ==> s.results == [RunResult(false, Some(Cancelled), !NothingLeft(a), !NothingLeft(a))];
    }
  }

  // ---------------------------------------------------------------- theorems

  predicate IsError(e: Event) { e.ErrorEvent? }
  predicate IsKill(e: Event) { e.KillTimerFires? }
  predicate IsDetach(e: Event) { e.Detach? }
  predicate IsTimeout(e: Event) { e.TimeoutFires? }

  /** The lease goes with the result. */
  ghost predicate Tied(s: Run, leased: bool) {
    if s.settled then
      |s.results| == 1 && (leased ==> s.disposals == [DisposalOf(s.results[0])])
    else s.lease.Some? <==> leased
  }

  /** What becomes of the lease of a child that settles with `r` after `events`. */
  function LastDisposal(events: seq<Timed>, r: RunResult): Disposal {
    if Count(events, IsDetach) > 0 then LeaseUnconfirmed else DisposalOf(r)
  }

  function DisposalOf(r: RunResult): Disposal {
    if r.cleanupFailed || r.outcomeUnknown then LeaseUnconfirmed else LeaseReleased
  }

  /** Unsettled, with its lease if it was given one. */
  ghost predicate Undecided(s: Run, leased: bool) {
    !s.settled && s.results == [] && s.disposals == [] && (s.lease.Some? <==> leased)
  }

  lemma EndTies(s: Run, r: RunResult, leased: bool)
    requires Undecided(s, leased)
    ensures Finish(s, r).settled && Tied(Finish(s, r), leased)
  {
  }

  lemma TerminateTies(s: Run, a: Attempt, leased: bool)
    requires Undecided(s, leased)
    ensures Tied(Terminate(s, a), leased)
  {
    var t := Begin(s).(cause := Latch(s.cause, Cancelled), lease := MarkSettling(s.lease));
    var cause := Some(if t.cause.Some? then t.cause.value else Failed);
    EndTies(t, RunResult(false, cause, false, false), leased);
    EndTies(t, RunResult(false, cause, true, true), leased);
    hide Finish;
  }

  lemma KillTies(s: Run, a: Attempt, leased: bool)
    requires Undecided(s, leased)
    ensures Tied(Kill(s, a), leased)
  {
    var cause := Some(if s.cause.Some? then s.cause.value else Failed);
    EndTies(s, RunResult(false, cause, false, false), leased);
    EndTies(s, RunResult(false, cause, true, true), leased);
    hide Finish;
  }

  lemma CloseTies(s: Run, code: Option<int>, leased: bool)
    requires Undecided(s, leased)
    ensures Tied(OnClose(s, code), leased)
  {
  }

  lemma TiedStep(s: Run, e: Timed, start: int, timeoutMs: nat, leased: bool)
    requires Good(s, start, timeoutMs, leased) && CanHappen(s, e) && !IsDetach(e.event)
    requires Tied(s, leased)
    ensures Tied(Next(s, e), leased)
  {
    var t := s.(now := e.time);
    if s.settled {
      AfterSettled(t, e.event, start, timeoutMs, leased);
      SettledStays(t, e.event);
      return;
    }
    assert Undecided(t, leased);
    hide SettledOnce, OnTheClock, Terminate, Kill, OnClose, Finish, WithoutOne;
    match e.event
    case TimeoutFires(a) =>
      TerminateTies(t.(timeoutAt := None, cause := Latch(t.cause, Timeout)), a, leased);
    case Abort(a) =>
      TerminateTies(t.(cause := Latch(t.cause, Cancelled)), a, leased);
    case ErrorEvent(a) =>
      KillTies(Begin(t).(cause := Latch(t.cause, Failed), lease := MarkSettling(t.lease)), a, leased);
    case CloseEvent(code) =>
      CloseTies(t, code, leased);
    case KillTimerFires(a) =>
      KillTies(t.(killAt := None), a, leased);
    case WatchdogFires(gone) =>
      EndTies(t.(watchdog := None, watchdogs := WithoutOne(t.watchdogs, t.now)),
              RunResult(false, Some(if t.cause.Some? then t.cause.value else Failed), !gone, !gone), leased);
    case ExitEvent(code) =>
  }

  lemma SettledStays(s: Run, e: Event)
    requires s.settled
    ensures React(s, e).settled
  {
  }

  lemma {:induction false} TiedAlong(s: Run, events: seq<Timed>, t: Run, start: int, timeoutMs: nat, leased: bool)
    requires Good(s, start, timeoutMs, leased) && Leads(s, events, t) && Count(events, IsDetach) == 0
    requires Tied(s, leased)
    ensures Tied(t, leased)
    decreases |events|
  {
    hide Tied, Next, Good, CanHappen;
    if events != [] {
      TiedStep(s, events[0], start, timeoutMs, leased);
      StepKeeps(s, events[0], start, timeoutMs, leased);
      TiedAlong(Next(s, events[0]), events[1..], t, start, timeoutMs, leased);
    }
  }

  /** However its events interleave, a child settles at most once and gives up its lease at most once: at
      settlement, in accord with the result, or as unconfirmed and earlier if shutdown detached it. */
  lemma SettlesOnce(s0: Run, start: int, timeoutMs: nat, leased: bool, events: seq<Timed>, t: Run)
    requires Starts(s0, start, timeoutMs, leased) && Leads(s0, events, t)
    ensures |t.results| == if t.settled then 1 else 0
    ensures |t.disposals| <= 1
    ensures t.settled && leased ==> |t.disposals| == 1
    ensures t.settled && leased && Count(events, IsDetach) == 0 ==> t.disposals == [DisposalOf(t.results[0])]
    ensures !t.settled && leased && Count(events, IsDetach) > 0 ==> t.disposals == [LeaseUnconfirmed]
  {
    LaunchedWell(s0, start, timeoutMs, leased);
    LeadsWell(s0, events, t, start, timeoutMs, leased);
    if Count(events, IsDetach) == 0 {
      TiedAlong(s0, events, t, start, timeoutMs, leased);
    } else if !t.settled {
      TimersAndLease(s0, events, t, start, timeoutMs, leased);
    }
    hide Good, Starts;
  }

  /** An unsettled child is within its timeout, or within the grace and watchdog periods of the first
      terminate or error, and a timer that ends it by then is armed. */
  lemma SettlesInTime(s0: Run, start: int, timeoutMs: nat, leased: bool, events: seq<Timed>, t: Run)
    requires Starts(s0, start, timeoutMs, leased) && Leads(s0, events, t) && !t.settled
    ensures t.began.None? ==> t.timeoutAt == Some(start + timeoutMs) && t.now <= start + timeoutMs
    ensures t.began.Some? ==>
      && t.began.value <= start + timeoutMs
      && t.now <= t.began.value + KILL_GRACE_MS + KILL_WATCHDOG_MS
      && ((t.killAt.Some? && t.killAt.value <= t.began.value + KILL_GRACE_MS)
          || exists w :: w in t.watchdogs && w <= t.began.value + KILL_GRACE_MS + KILL_WATCHDOG_MS)
  {
    LaunchedWell(s0, start, timeoutMs, leased);
    LeadsWell(s0, events, t, start, timeoutMs, leased);
  }

  /** A watchdog settles the child whichever of several armed ones fires, even one the variable has
      forgotten. */
  lemma AnyWatchdogSettles(s: Run, treeGone: bool)
    ensures React(s, WatchdogFires(treeGone)).settled
  {
  }

  /** The cause an event tries to latch. */
  function CauseOf(e: Event): Option<Cause> {
    match e
    case TimeoutFires(_) => Some(Timeout)
    case Abort(_) => Some(Cancelled)
    case ErrorEvent(_) => Some(Failed)
    case _ => None
  }

  function ExitOf(e: Event): Option<Option<int>> {
    match e
    case ExitEvent(code) => Some(code)
    case _ => None
  }

  lemma SettledForGood(s: Run, events: seq<Timed>, t: Run)
    requires s.settled && Leads(s, events, t)
    ensures t.settled
  {
    HistoryKeeps(CanHappen, Next, (x: Run) => x.settled, s, events, t);
  }

  /** `t` keeps the cause and exit code of `s` and, if it has settled, blames that cause. */
  ghost predicate Blames(s: Run, t: Run) {
    && t.cause == s.cause && t.exitCode == s.exitCode
    && (t.settled ==>
          |t.results| == |s.results| + 1 && !t.results[|s.results|].success && t.results[|s.results|].cause == s.cause)
  }

  lemma EndBlames(s: Run, unclean: bool)
    requires !s.settled && s.cause.Some?
    ensures Blames(s, FinishTerminal(s, unclean))
  {
  }

  lemma LadderBlames(s: Run, a: Attempt)
    requires !s.settled && s.cause.Some?
    ensures Blames(s, Terminate(s, a)) && Blames(s, Kill(s, a))
  {
    var u := Begin(s).(cause := Latch(s.cause, Cancelled), lease := MarkSettling(s.lease));
    EndBlames(u, false);
    EndBlames(u, true);
    EndBlames(s, false);
    EndBlames(s, true);
    hide FinishTerminal;
  }

  lemma CloseOutcome(s: Run, code: Option<int>)
    requires !s.settled
    ensures var t := OnClose(s, code);
      && t.settled && |t.results| == |s.results| + 1
      && (t.results[|s.results|].success <==> s.cause.None? && (if code.Some? then code else s.exitCode) == Some(0))
      && (!t.results[|s.results|].success ==>
            t.results[|s.results|].cause == Some(if s.cause.Some? then s.cause.value else Failed))
  {
  }

  /** One event latches its cause unless one was latched before; a settlement other than by the end of the
      child blames the latched cause. */
  lemma EventBlames(s: Run, e: Timed, start: int, timeoutMs: nat, leased: bool)
    requires Good(s, start, timeoutMs, leased) && !s.settled && CanHappen(s, e) && !e.event.CloseEvent?
    ensures var cause := if s.cause.Some? then s.cause else CauseOf(e.event);
      && Blames(s.(cause := cause, exitCode := LastExit(s.exitCode, [e], ExitOf)), Next(s, e))
      && (Next(s, e).settled ==> cause.Some?)
  {
    var t := s.(now := e.time);
    assert [e][1..] == [];
    assert s.killAt.Some? || s.watchdogs != [] ==> s.cause.Some?;
    hide SettledOnce, OnTheClock, Terminate, Kill, FinishTerminal;
    match e.event
    case TimeoutFires(a) =>
      LadderBlames(t.(timeoutAt := None, cause := Latch(t.cause, Timeout)), a);
    case Abort(a) =>
      LadderBlames(t.(cause := Latch(t.cause, Cancelled)), a);
    case ErrorEvent(a) =>
      LadderBlames(Begin(t).(cause := Latch(t.cause, Failed), lease := MarkSettling(t.lease)), a);
    case KillTimerFires(a) =>
      LadderBlames(t.(killAt := None), a);
    case WatchdogFires(gone) =>
      EndBlames(t.(watchdog := None, watchdogs := WithoutOne(t.watchdogs, t.now)), !gone);
    case ExitEvent(code) =>
    case Detach =>
  }

  /** Until a child settles, its latched cause is that of the first event that brought one, and its exit
      code that of the last exit event. */
  lemma {:induction false} FirstCauseLatched(
      s: Run, events: seq<Timed>, t: Run, start: int, timeoutMs: nat, leased: bool)
    requires Good(s, start, timeoutMs, leased) && Leads(s, events, t) && !t.settled
    ensures t.cause == if s.cause.Some? then s.cause else FirstCause(events, CauseOf)
    ensures t.exitCode == LastExit(s.exitCode, events, ExitOf)
    decreases |events|
  {
    if s.settled {
      SettledForGood(s, events, t);
    } else if events != [] {
      if events[0].event.CloseEvent? {
        CloseOutcome(s.(now := events[0].time), events[0].event.code);
        SettledForGood(Next(s, events[0]), events[1..], t);
      } else {
        EventBlames(s, events[0], start, timeoutMs, leased);
        assert [events[0]][1..] == [];
      }
      hide Next, OnTheClock, SettledOnce, CanHappen;
      StepKeeps(s, events[0], start, timeoutMs, leased);
      FirstCauseLatched(Next(s, events[0]), events[1..], t, start, timeoutMs, leased);
    }
  }

  // ---------------------------------------------------------------- what the answers of the system decide

  predicate Begins(e: Event) { e.TimeoutFires? || e.Abort? || e.ErrorEvent? }

  /** Whether an event settles a child whose termination has begun, or has not. */
  predicate Settles(begun: bool, e: Event) {
    match e
    case TimeoutFires(a) => !begun && EndsLadder(a)
    case Abort(a) => !begun && EndsLadder(a)
    case ErrorEvent(a) => EndsLadder(a)
    case KillTimerFires(a) => EndsLadder(a)
    case CloseEvent(_) => true
    case WatchdogFires(_) => true
    case _ => false
  }

  /** Whether a child settled by an event is reported as not cleaned up. */
  predicate UncleanBy(e: Event) {
    match e
    case TimeoutFires(a) => MayBeAlive(a)
    case Abort(a) => MayBeAlive(a)
    case ErrorEvent(a) => MayBeAlive(a)
    case KillTimerFires(a) => MayBeAlive(a)
    case WatchdogFires(gone) => !gone
    case _ => false
  }

  /** `t` has settled, with one more result that says `unclean`. */
  ghost predicate Ends(s: Run, t: Run, unclean: bool) {
    && t.settled && |t.results| == |s.results| + 1
    && t.results[|s.results|].cleanupFailed == t.results[|s.results|].outcomeUnknown == unclean
  }

  lemma EndsSay(s: Run, unclean: bool)
    requires !s.settled
    ensures Ends(s, FinishTerminal(s, unclean), unclean)
  {
  }

  lemma TerminateSays(s: Run, a: Attempt)
    requires !s.settled
    ensures s.killAt.Some? || s.watchdog.Some? ==> Terminate(s, a) == s
    ensures s.killAt.None? && s.watchdog.None? ==>
      if EndsLadder(a) then Ends(s, Terminate(s, a), MayBeAlive(a))
      else Terminate(s, a) == Begin(s).(cause := Latch(s.cause, Cancelled), lease := MarkSettling(s.lease),
                                        killAt := Some(s.now + KILL_GRACE_MS))
  {
    var t := Begin(s).(cause := Latch(s.cause, Cancelled), lease := MarkSettling(s.lease));
    EndsSay(t, false);
    EndsSay(t, true);
    hide FinishTerminal;
  }

  lemma KillSays(s: Run, a: Attempt)
    requires !s.settled
    ensures if EndsLadder(a) then Ends(s, Kill(s, a), MayBeAlive(a)) else Kill(s, a) == WatchForExit(s)
  {
    EndsSay(s, false);
    EndsSay(s, true);
    hide FinishTerminal;
  }

  lemma CloseSays(s: Run, code: Option<int>)
    requires !s.settled
    ensures Ends(s, OnClose(s, code), false)
  {
  }

  /** One event settles an unsettled child exactly when the system's answer leaves nothing to wait for, and
      the result says exactly what that answer was. */
  lemma EventSays(s: Run, e: Timed, start: int, timeoutMs: nat, leased: bool)
    requires Good(s, start, timeoutMs, leased) && !s.settled && CanHappen(s, e)
    ensures Next(s, e).settled <==> Settles(s.began.Some?, e.event)
    ensures Next(s, e).settled ==> Ends(s, Next(s, e), UncleanBy(e.event))
  {
    var t := s.(now := e.time);
    assert s.began.Some? <==> s.killAt.Some? || s.watchdog.Some?;
    hide SettledOnce, OnTheClock, Terminate, Kill, OnClose, EndsLadder, MayBeAlive, FinishTerminal, WithoutOne;
    match e.event
    case TimeoutFires(a) => TerminateSays(t.(timeoutAt := None, cause := Latch(t.cause, Timeout)), a);
    case Abort(a) => TerminateSays(t.(cause := Latch(t.cause, Cancelled)), a);
    case ErrorEvent(a) => KillSays(Begin(t).(cause := Latch(t.cause, Failed), lease := MarkSettling(t.lease)), a);
    case ExitEvent(code) =>
    case CloseEvent(code) => CloseSays(t, code);
    case KillTimerFires(a) => KillSays(t.(killAt := None), a);
    case WatchdogFires(gone) =>
      EndsSay(t.(watchdog := None, watchdogs := WithoutOne(t.watchdogs, t.now)), !gone);
    case Detach =>
  }

  /** The watchdogs that error events and kill timers have armed, in order. */
  function Deadlines(events: seq<Timed>): seq<int> {
    if events == [] then []
    else
      var last := events[|events| - 1];
      Deadlines(events[..|events| - 1])
      + if IsError(last.event) || IsKill(last.event) then [last.time + KILL_WATCHDOG_MS] else []
  }

  /** The timers and the lease that a history calls for before settlement. TERM is followed by KILL after the
      whole grace period and not before, KILL by the watchdog after the whole of its own. */
  ghost predicate ClockOf(s0: Run, events: seq<Timed>, s: Run, start: int, timeoutMs: nat, leased: bool) {
    var first := FirstOf(events, Begins);
    var error := first.Some? && first.value.event.ErrorEvent?;
    && s.timeoutAt == (if Count(events, IsTimeout) == 0 then Some(start + timeoutMs) else None)
    && s.began == (if s0.began.Some? then s0.began else TimeOf(first))
    && s.killAt == (if Count(events, IsKill) > 0 then None
                    else if s0.began.Some? then s0.killAt
                    else if error then None else Later(TimeOf(first), KILL_GRACE_MS))
    && (Count(events, IsKill) > 0 ==> s.began.Some?)
    && s.watchdogs == Deadlines(events)
    && s.watchdog == (if s.watchdogs == [] then None else Some(s.watchdogs[|s.watchdogs| - 1]))
    && s.lease == (if !leased || Count(events, IsDetach) > 0 then None
                   else Some(if s.began.None? then Active else Settling))
  }

  ghost predicate Told(s0: Run, events: seq<Timed>, s: Run, start: int, timeoutMs: nat, leased: bool) {
    Good(s, start, timeoutMs, leased) && (s.settled || ClockOf(s0, events, s, start, timeoutMs, leased))
  }

  /** What an event does to an unsettled child that stays unsettled. */
  ghost predicate Waits(s: Run, e: Timed, t: Run) {
    var begun, arms := s.began.Some?, IsError(e.event) || IsKill(e.event);
    && t.timeoutAt == (if IsTimeout(e.event) then None else s.timeoutAt)
    && t.began == (if begun || !Begins(e.event) then s.began else Some(e.time))
    && t.killAt == (if !begun && Begins(e.event) && !IsError(e.event) then Some(e.time + KILL_GRACE_MS)
                    else if IsKill(e.event) then None else s.killAt)
    && t.watchdogs == s.watchdogs + (if arms then [e.time + KILL_WATCHDOG_MS] else [])
    && t.watchdog == (if arms then Some(e.time + KILL_WATCHDOG_MS) else s.watchdog)
    && t.lease == (if IsDetach(e.event) then None
                   else if IsError(e.event) || (!begun && Begins(e.event)) then MarkSettling(s.lease) else s.lease)
  }

  lemma EventWaits(s: Run, e: Timed, start: int, timeoutMs: nat, leased: bool)
    requires Good(s, start, timeoutMs, leased) && !s.settled && CanHappen(s, e) && !Next(s, e).settled
    ensures Waits(s, e, Next(s, e))
  {
    var t := s.(now := e.time);
    assert s.began.Some? <==> s.killAt.Some? || s.watchdog.Some?;
    EventSays(s, e, start, timeoutMs, leased);
    hide SettledOnce, OnTheClock, Terminate, Kill, EndsLadder, MayBeAlive, FinishTerminal, Ends;
    match e.event
    case TimeoutFires(a) => TerminateSays(t.(timeoutAt := None, cause := Latch(t.cause, Timeout)), a);
    case Abort(a) => TerminateSays(t.(cause := Latch(t.cause, Cancelled)), a);
    case ErrorEvent(a) => KillSays(Begin(t).(cause := Latch(t.cause, Failed), lease := MarkSettling(t.lease)), a);
    case KillTimerFires(a) => KillSays(t.(killAt := None), a);
    case ExitEvent(_) =>
    case Detach =>
  }

  lemma ClockNext(s0: Run, events: seq<Timed>, s: Run, e: Timed, t: Run, start: int, timeoutMs: nat, leased: bool)
    requires ClockOf(s0, events, s, start, timeoutMs, leased) && Waits(s, e, t)
    requires IsKill(e.event) ==> s.killAt.Some? && s.began.Some?
    ensures ClockOf(s0, events + [e], t, start, timeoutMs, leased)
  {
    FirstOfNext(events, e, Begins);
    CountNext(events, e, IsTimeout);
    CountNext(events, e, IsKill);
    CountNext(events, e, IsDetach);
    assert Deadlines(events + [e]) == Deadlines(events)
      + if IsError(e.event) || IsKill(e.event) then [e.time + KILL_WATCHDOG_MS] else [] by {
      assert (events + [e])[..|events|] == events;
    }
    hide FirstOf, Count, Deadlines;
  }

  lemma EventTold(s0: Run, events: seq<Timed>, s: Run, e: Timed, start: int, timeoutMs: nat, leased: bool)
    requires Told(s0, events, s, start, timeoutMs, leased) && CanHappen(s, e)
    ensures Told(s0, events + [e], Next(s, e), start, timeoutMs, leased)
  {
    StepKeeps(s, e, start, timeoutMs, leased);
    if s.settled {
      SettledStays(s.(now := e.time), e.event);
    } else if !Next(s, e).settled {
      EventWaits(s, e, start, timeoutMs, leased);
      assert IsKill(e.event) ==> s.killAt.Some? && s.began.Some?;
      hide Good, Next, CanHappen, ClockOf, Waits;
      ClockNext(s0, events, s, e, Next(s, e), start, timeoutMs, leased);
    }
  }

  lemma ToldClock(s0: Run, events: seq<Timed>, s: Run, start: int, timeoutMs: nat, leased: bool)
    requires Told(s0, events, s, start, timeoutMs, leased) && !s.settled
    ensures ClockOf(s0, events, s, start, timeoutMs, leased)
  {
  }

  lemma LaunchTold(s0: Run, start: int, timeoutMs: nat, leased: bool)
    requires Starts(s0, start, timeoutMs, leased)
    ensures Told(s0, [], s0, start, timeoutMs, leased)
  {
    LaunchedWell(s0, start, timeoutMs, leased);
  }

  /** In every history the timers and the lease of an unsettled child are those the history calls for. */
  lemma ClockOfHistory(s0: Run, start: int, timeoutMs: nat, leased: bool, events: seq<Timed>, s: Run)
    requires Starts(s0, start, timeoutMs, leased) && Leads(s0, events, s) && !s.settled
    ensures ClockOf(s0, events, s, start, timeoutMs, leased)
  {
    var tells := (es: seq<Timed>, x: Run) => Told(s0, es, x, start, timeoutMs, leased);
    forall es, x, e | tells(es, x) && CanHappen(x, e) ensures tells(es + [e], Next(x, e)) {
      EventTold(s0, es, x, e, start, timeoutMs, leased);
    }
    LaunchTold(s0, start, timeoutMs, leased);
    hide Told, CanHappen, Next, Starts;
    HistoryTells(CanHappen, Next, tells, [], s0, events, s);
    assert [] + events == events;
    ToldClock(s0, events, s, start, timeoutMs, leased);
  }

  /** In every history an event settles the child exactly when it is a close or a watchdog, or carries an
      answer that leaves nothing to wait for and is not refused because termination has begun. */
  lemma SettlesExactly(
      s0: Run, start: int, timeoutMs: nat, leased: bool, events: seq<Timed>, s: Run, e: Timed)
    requires Starts(s0, start, timeoutMs, leased) && Leads(s0, events, s) && !s.settled && CanHappen(s, e)
    ensures Next(s, e).settled <==> Settles(s0.began.Some? || FirstOf(events, Begins).Some?, e.event)
  {
    LaunchedWell(s0, start, timeoutMs, leased);
    LeadsWell(s0, events, s, start, timeoutMs, leased);
    ClockOfHistory(s0, start, timeoutMs, leased, events, s);
    EventSays(s, e, start, timeoutMs, leased);
    hide Next, CanHappen, Good, Starts;
  }

  /** What was reported and what became of the lease stands. */
  lemma ResultStands(s: Run, events: seq<Timed>, t: Run, start: int, timeoutMs: nat, leased: bool)
    requires Good(s, start, timeoutMs, leased) && s.settled && Leads(s, events, t)
    ensures t.settled && t.results == s.results && t.disposals == s.disposals
  {
    var stands := (x: Run) =>
      Good(x, start, timeoutMs, leased) && x.settled && x.results == s.results && x.disposals == s.disposals;
    forall x, e | stands(x) && CanHappen(x, e) ensures stands(Next(x, e)) {
      StepKeeps(x, e, start, timeoutMs, leased);
      AdvanceKeeps(x, e, start, timeoutMs, leased);
      AfterSettled(x.(now := e.time), e.event, start, timeoutMs, leased);
      SettledStays(x.(now := e.time), e.event);
    }
    hide Good, CanHappen, Next;
    HistoryKeeps(CanHappen, Next, stands, s, events, t);
  }

  /** Over whole histories: a sub-agent run succeeds exactly when no timeout, abort or error came and its
      child closes with exit code 0, reported at close or else by the last exit event; otherwise it
      blames the first of them to come, the settling event included, or failure if none did. The result says
      that cleanup failed exactly when the answer that settled it does, and the lease is given up in accord
      with it, unless shutdown took it before. */
  lemma OutcomeOfHistory(s0: Run, start: int, timeoutMs: nat, leased: bool, events: seq<Timed>, s: Run, e: Timed)
    requires Starts(s0, start, timeoutMs, leased) && Leads(s0, events, s) && !s.settled
    requires CanHappen(s, e) && Next(s, e).settled
    ensures |Next(s, e).results| == 1
    ensures var r := Next(s, e).results[0];
      var first := if s0.cause.Some? then s0.cause else FirstCause(events, CauseOf);
      && (r.success <==>
            && e.event.CloseEvent? && first.None?
            && (if e.event.code.Some? then e.event.code else LastExit(None, events, ExitOf)) == Some(0))
      && (!r.success ==>
            r.cause == if first.Some? then first
                       else if CauseOf(e.event).Some? then CauseOf(e.event) else Some(Failed))
      && r.cleanupFailed == r.outcomeUnknown == UncleanBy(e.event)
    ensures leased ==>
      Next(s, e).disposals == [LastDisposal(events, Next(s, e).results[0])]
  {
    LaunchedWell(s0, start, timeoutMs, leased);
    LeadsWell(s0, events, s, start, timeoutMs, leased);
    FirstCauseLatched(s0, events, s, start, timeoutMs, leased);
    StepKeeps(s, e, start, timeoutMs, leased);
    SettlingDisposal(s0, start, timeoutMs, leased, events, s, e);
    EventSays(s, e, start, timeoutMs, leased);
    if e.event.CloseEvent? {
      CloseOutcome(s.(now := e.time), e.event.code);
    } else {
      EventBlames(s, e, start, timeoutMs, leased);
    }
    hide Leads, Starts, OnTheClock, CanHappen, OnClose, Terminate, OnError, OnKillTimer, OnWatchdog;
  }

  lemma SettlingDisposal(s0: Run, start: int, timeoutMs: nat, leased: bool, events: seq<Timed>, s: Run, e: Timed)
    requires Starts(s0, start, timeoutMs, leased) && Leads(s0, events, s) && !s.settled
    requires CanHappen(s, e) && Next(s, e).settled
    ensures leased ==>
      && |Next(s, e).results| == 1
      && Next(s, e).disposals == [LastDisposal(events, Next(s, e).results[0])]
  {
    LaunchedWell(s0, start, timeoutMs, leased);
    LeadsWell(s0, events, s, start, timeoutMs, leased);
    if s0.settled { SettledForGood(s0, events, s); }
    TimersAndLease(s0, events, s, start, timeoutMs, leased);
    StepKeeps(s, e, start, timeoutMs, leased);
    if Count(events, IsDetach) == 0 {
      TiedStep(s, e, start, timeoutMs, leased);
    } else {
      DetachedKeeps(s, e);
    }
    hide Next, Leads, Starts, OnTheClock, CanHappen;
  }

  /** A lease already given up is not given up again. */
  lemma DetachedKeeps(s: Run, e: Timed)
    requires s.lease.None?
    ensures Next(s, e).disposals == s.disposals
  {
  }

  // ---------------------------------------------------------------- the timeout

  /** A launch settles at once exactly when its signal has fired and the attempt to terminate finds nothing
      left or cannot be delivered. */
  lemma SettledAtLaunch(start: int, timeoutMs: nat, leased: bool, a: Attempt)
    ensures !Launch(start, timeoutMs, leased).settled
    ensures var s := LaunchAborted(start, timeoutMs, leased, a);
      && (s.settled <==> EndsLadder(a))
      && (s.settled ==> s.results == [RunResult(false, Some(Cancelled), MayBeAlive(a), MayBeAlive(a))])
      && (!s.settled ==> s.began == Some(start) && s.killAt == Some(start + KILL_GRACE_MS))
  {
  }

  lemma SettlingClearsTimeout(s: Run, e: Timed)
    requires !s.settled && Next(s, e).settled
    ensures Next(s, e).timeoutAt.None?
  {
  }

  lemma SettledTimeout(s: Run, e: Timed)
    requires s.settled
    ensures Next(s, e).timeoutAt == if IsTimeout(e.event) then None else s.timeoutAt
  {
  }

  lemma {:induction false} TimeoutAlong(s: Run, events: seq<Timed>, t: Run)
    requires Leads(s, events, t) && t.settled
    ensures t.timeoutAt.Some? <==> s.settled && s.timeoutAt.Some? && Count(events, IsTimeout) == 0
    decreases |events|
  {
    hide Next, CanHappen;
    if events != [] {
      var next := Next(s, events[0]);
      if s.settled {
        SettledForGood(s, [events[0]], next) by { LeadsOne(s, events[0]); }
        SettledTimeout(s, events[0]);
      } else if next.settled {
        SettlingClearsTimeout(s, events[0]);
      }
      TimeoutAlong(next, events[1..], t);
    }
  }

  lemma LeadsOne(s: Run, e: Timed)
    requires CanHappen(s, e)
    ensures Leads(s, [e], Next(s, e))
  {
    hide Next, CanHappen;
    assert [e][1..] == [];
    assert Leads(Next(s, e), [], Next(s, e));
  }

  /** In every history the timeout of a settled child is still armed exactly when the child settled at launch
      and the timeout has not fired since: every later settlement clears it. */
  lemma TimeoutOutlivesExactly(
      s0: Run, start: int, timeoutMs: nat, leased: bool, events: seq<Timed>, t: Run)
    requires Starts(s0, start, timeoutMs, leased) && Leads(s0, events, t) && t.settled
    ensures t.timeoutAt.Some? <==> s0.settled && Count(events, IsTimeout) == 0
  {
    LaunchedWell(s0, start, timeoutMs, leased);
    TimeoutAlong(s0, events, t);
  }

  /** A child whose signal has fired and whose process is already gone settles at launch, its timeout armed. */
  lemma TimeoutOutlivesLaunch(start: int, timeoutMs: nat, leased: bool)
    ensures var s := LaunchAborted(start, timeoutMs, leased, Attempt(Gone, true));
      Starts(s, start, timeoutMs, leased) && s.settled && s.timeoutAt == Some(start + timeoutMs)
  {
    SettledAtLaunch(start, timeoutMs, leased, Attempt(Gone, true));
  }

  // ---------------------------------------------------------------- watchdogs

  lemma EndArms(s: Run, unclean: bool)
    requires !s.settled && (s.watchdog.Some? ==> s.watchdog.value in s.watchdogs)
    ensures |FinishTerminal(s, unclean).watchdogs| == |s.watchdogs| - (if s.watchdog.Some? then 1 else 0)
    ensures FinishTerminal(s, unclean).settled
  {
  }

  /** What one event does to the armed watchdogs, the kill timer and the lease of an unsettled child. */
  lemma EventArms(s: Run, e: Timed, start: int, timeoutMs: nat, leased: bool)
    requires Good(s, start, timeoutMs, leased) && !s.settled && CanHappen(s, e)
    ensures var t := Next(s, e);
      if t.settled then |t.watchdogs| == if s.watchdogs == [] then 0 else |s.watchdogs| - 1
      else
        && |t.watchdogs| == |s.watchdogs| + (if IsError(e.event) then 1 else 0) + (if IsKill(e.event) then 1 else 0)
        && (IsKill(e.event) || (s.killAt.None? && s.watchdog.Some?) ==> t.killAt.None? && t.watchdog.Some?)
        && (IsKill(e.event) ==> s.killAt.Some?)
        && (t.lease.Some? <==> s.lease.Some? && !IsDetach(e.event))
  {
    var t := s.(now := e.time);
    assert s.watchdog.Some? ==> s.watchdog.value in s.watchdogs;
    assert s.watchdogs != [] <==> s.watchdog.Some?;
    hide SettledOnce, OnTheClock, FinishTerminal, WithoutOne;
    match e.event
    case TimeoutFires(a) =>
      TerminateArms(t.(timeoutAt := None, cause := Latch(t.cause, Timeout)), a);
    case Abort(a) =>
      TerminateArms(t.(cause := Latch(t.cause, Cancelled)), a);
    case ErrorEvent(a) =>
      KillArms(Begin(t).(cause := Latch(t.cause, Failed), lease := MarkSettling(t.lease)), a);
    case ExitEvent(code) =>
    case CloseEvent(code) =>
      CloseArms(t, code);
    case KillTimerFires(a) =>
      KillArms(t.(killAt := None), a);
    case WatchdogFires(gone) =>
      var u := t.(watchdog := None, watchdogs := WithoutOne(t.watchdogs, t.now));
      EndArms(u, !gone);
      assert |u.watchdogs| == |s.watchdogs| - 1;
    case Detach =>
  }

  lemma TerminateArms(s: Run, a: Attempt)
    requires !s.settled && (s.watchdog.Some? ==> s.watchdog.value in s.watchdogs)
    ensures var t := Terminate(s, a);
      if t.settled then s.watchdog.None? && t.watchdogs == s.watchdogs
      else
        && t.watchdogs == s.watchdogs && t.watchdog == s.watchdog && (s.watchdog.Some? ==> t.killAt == s.killAt)
        && (t.lease.Some? <==> s.lease.Some?)
  {
  }

  lemma KillArms(s: Run, a: Attempt)
    requires !s.settled && (s.watchdog.Some? ==> s.watchdog.value in s.watchdogs)
    ensures var t := Kill(s, a);
      if t.settled then |t.watchdogs| == |s.watchdogs| - (if s.watchdog.Some? then 1 else 0)
      else |t.watchdogs| == |s.watchdogs| + 1 && t.watchdog.Some? && t.killAt == s.killAt && t.lease == s.lease
  {
    EndArms(s, false);
    EndArms(s, true);
    hide FinishTerminal;
  }

  lemma CloseArms(s: Run, code: Option<int>)
    requires !s.settled && (s.watchdog.Some? ==> s.watchdog.value in s.watchdogs)
    ensures OnClose(s, code).settled
    ensures |OnClose(s, code).watchdogs| == |s.watchdogs| - (if s.watchdog.Some? then 1 else 0)
  {
  }

  lemma {:induction false} TimersAndLease(s: Run, events: seq<Timed>, t: Run, start: int, timeoutMs: nat, leased: bool)
    requires Good(s, start, timeoutMs, leased) && Leads(s, events, t) && !t.settled
    ensures |t.watchdogs| == |s.watchdogs| + Count(events, IsError) + Count(events, IsKill)
    ensures Count(events, IsKill) <= if s.killAt.None? && s.watchdog.Some? then 0 else 1
    ensures t.lease.Some? <==> s.lease.Some? && Count(events, IsDetach) == 0
    decreases |events|
  {
    hide Next, Good, CanHappen;
    if s.settled {
      SettledForGood(s, events, t);
    } else if events != [] {
      var next := Next(s, events[0]);
      EventArms(s, events[0], start, timeoutMs, leased);
      StepKeeps(s, events[0], start, timeoutMs, leased);
      if next.settled { SettledForGood(next, events[1..], t); }
      TimersAndLease(next, events[1..], t, start, timeoutMs, leased);
    }
  }

  /** As many watchdogs are armed before settlement as error events and kill timers have come, and at most
      one kill timer comes: so with one error event there are never more than two, and two exactly when
      both have come. Release clears one of them: a watchdog outlives the settlement exactly when two or
      more were armed. */
  lemma WatchdogsExactly(s0: Run, start: int, timeoutMs: nat, leased: bool, events: seq<Timed>, s: Run, e: Timed)
    requires Starts(s0, start, timeoutMs, leased) && Leads(s0, events, s) && !s.settled && CanHappen(s, e)
    ensures |s.watchdogs| == Count(events, IsError) + Count(events, IsKill) && Count(events, IsKill) <= 1
    ensures Next(s, e).settled ==>
      (Next(s, e).watchdogs != [] <==> Count(events, IsError) + Count(events, IsKill) >= 2)
  {
    LaunchedWell(s0, start, timeoutMs, leased);
    LeadsWell(s0, events, s, start, timeoutMs, leased);
    TimersAndLease(s0, events, s, start, timeoutMs, leased);
    EventArms(s, e, start, timeoutMs, leased);
    hide Next, Good, Starts, CanHappen;
  }

  /** Two watchdogs can be armed at once, the earlier one forgotten by the variable, and that one outlives
      the settlement: terminate, an error late in the grace period, the end of that period, then the close. */
  lemma TwoWatchdogs(start: int)
    ensures var sent := Attempt(Delivered, false);
      var a, b, c := At(start, Abort(sent)), At(start + 1500, ErrorEvent(sent)), At(start + 2000, KillTimerFires(sent));
      var t := Next(Next(Next(Launch(start, 5000, true), a), b), c);
      var d := At(start + 2000, CloseEvent(None));
      && Leads(Launch(start, 5000, true), [a, b, c], t)
      && t.watchdogs == [start + 2500, start + 3000] && t.watchdog == Some(start + 3000) && !t.settled
      && CanHappen(t, d) && Next(t, d).settled && Next(t, d).watchdogs == [start + 2500]
  {
    var sent := Attempt(Delivered, false);
    var a, b, c := At(start, Abort(sent)), At(start + 1500, ErrorEvent(sent)), At(start + 2000, KillTimerFires(sent));
    var d := At(start + 2000, CloseEvent(None));
    var s := Launch(start, 5000, true);
    var s1 := Next(s, a);
    var s2 := Next(s1, b);
    var s3 := Next(s2, c);
    assert s1.killAt == Some(start + 2000) && s1.watchdogs == [];
    assert s2.killAt == Some(start + 2000) && s2.watchdogs == [start + 2500];
    assert CanHappen(s, a) && CanHappen(s1, b) && CanHappen(s2, c);
    assert [a, b, c][1..] == [b, c] && [b, c][1..] == [c] && [c][1..] == [];
    assert Leads(s3, [], s3);
    assert Leads(s2, [c], s3);
    assert Leads(s1, [b, c], s3);
    CloseForgets(s3, d, start + 2500, start + 3000);
    hide OnClose;
  }

  lemma CloseForgets(s: Run, e: Timed, first: int, second: int)
    requires !s.settled && s.watchdogs == [first, second] && s.watchdog == Some(second) && first != second
    requires e.event.CloseEvent?
    ensures Next(s, e).settled && Next(s, e).watchdogs == [first]
  {
    assert [first, second][1..] == [second] && [second][1..] == [];
  }

  // ---------------------------------------------------------------- the closures' shared variables

  class SubagentRun {
    var now: int
    var settled: bool
    ghost var began: Option<int>
    var timeoutAt: Option<int>
    var killAt: Option<int>
    var watchdog: Option<int>
    var watchdogs: seq<int>
    var cause: Option<Cause>
    var observedExitCode: Option<int>
    var ownedHandle: Option<LeaseState>
    var results: seq<RunResult>
    var disposals: seq<Disposal>

    ghost function State(): Run
      reads this
    {
      Run(now, settled, began, timeoutAt, killAt, watchdog, watchdogs, cause, observedExitCode, ownedHandle, results,
          disposals)
    }

    /** `aborted` is what the signal attempt reports when the abort signal has fired before the launch. */
    constructor (start: int, timeoutMs: nat, leased: bool, aborted: Option<Attempt>)
      ensures State() == if aborted.None? then Launch(start, timeoutMs, leased)
                         else LaunchAborted(start, timeoutMs, leased, aborted.value)
    {
      now, settled, began := start, false, None;
      timeoutAt, killAt, watchdog, watchdogs := None, None, None, [];
      cause, observedExitCode := None, None;
      ownedHandle := if leased then Some(Active) else None;
      results, disposals := [], [];
      new;
      hide Terminate;
      if aborted.Some? { Aborted(aborted.value); }
      timeoutAt := Some(start + timeoutMs);
    }

    method FinishWith(r: RunResult)
      modifies this
      ensures State() == Finish(old(State()), r)
    {
      hide Cleared;
      if settled { return; }
      settled := true;
      if ownedHandle.Some? {
        disposals := disposals + [if r.cleanupFailed || r.outcomeUnknown then LeaseUnconfirmed else LeaseReleased];
        ownedHandle := None;
      }
      watchdogs := Cleared(watchdogs, watchdog);
      timeoutAt, killAt, watchdog := None, None, None;
      results := results + [r];
    }

    method FinishTerminated(unclean: bool)
      modifies this
      ensures State() == FinishTerminal(old(State()), unclean)
    {
      FinishWith(RunResult(false, Some(if cause.Some? then cause.value else Failed), unclean, unclean));
    }

    method TerminateWith(a: Attempt)
      modifies this
      ensures State() == Terminate(old(State()), a)
    {
      if settled || killAt.Some? || watchdog.Some? { return; }
      began := if began.None? then Some(now) else began;
      cause, ownedHandle := Latch(cause, Cancelled), MarkSettling(ownedHandle);
      if NothingLeft(a) {
        FinishTerminated(false);
      } else if !SignalDelivered(a) {
        FinishTerminated(true);
      } else {
        killAt := Some(now + KILL_GRACE_MS);
      }
    }

    method KillNow(a: Attempt)
      modifies this
      ensures State() == Kill(old(State()), a)
    {
      if NothingLeft(a) {
        FinishTerminated(false);
      } else if !SignalDelivered(a) {
        FinishTerminated(true);
      } else {
        watchdog := Some(now + KILL_WATCHDOG_MS);
        watchdogs := watchdogs + [now + KILL_WATCHDOG_MS];
      }
    }

    method Closed(code: Option<int>)
      modifies this
      ensures State() == OnClose(old(State()), code)
    {
      if settled { return; }
      if cause.Some? {
        FinishTerminated(false);
      } else if (if code.Some? then code else observedExitCode) == Some(0) {
        FinishWith(RunResult(true, None, false, false));
      } else {
        cause := Some(Failed);
        FinishTerminated(false);
      }
    }

    method TimedOut(a: Attempt)
      modifies this
      ensures State() == React(old(State()), TimeoutFires(a))
    {
      hide Terminate;
      timeoutAt, cause := None, Latch(cause, Timeout);
      TerminateWith(a);
    }

    method Aborted(a: Attempt)
      modifies this
      ensures State() == React(old(State()), Abort(a))
    {
      hide Terminate;
      if settled { return; }
      cause := Latch(cause, Cancelled);
      TerminateWith(a);
    }

    method Errored(a: Attempt)
      modifies this
      ensures State() == OnError(old(State()), a)
    {
      hide Kill;
      if settled { return; }
      began := if began.None? then Some(now) else began;
      cause, ownedHandle := Latch(cause, Failed), MarkSettling(ownedHandle);
      KillNow(a);
    }

    method KillTimerFired(a: Attempt)
      modifies this
      ensures State() == OnKillTimer(old(State()), a)
    {
      hide Kill;
      killAt := None;
      if !settled { KillNow(a); }
    }

    method WatchdogFired(gone: bool)
      modifies this
      ensures State() == OnWatchdog(old(State()), gone)
    {
      hide FinishTerminal, WithoutOne;
      watchdog, watchdogs := None, WithoutOne(watchdogs, now);
      if !settled { FinishTerminated(!gone); }
    }

    method MarkDetachedUnconfirmed()
      modifies this`ownedHandle, this`disposals
      ensures State() == OnDetach(old(State()))
    {
      if ownedHandle.Some? {
        ownedHandle, disposals := None, disposals + [LeaseUnconfirmed];
      }
    }

    /** One event, whichever listener or timer it reaches. */
    method Handle(e: Timed)
      modifies this
      ensures State() == Next(old(State()), e)
    {
      hide Terminate, OnClose, OnError, OnKillTimer, OnWatchdog, OnDetach;
      now := e.time;
      match e.event {
        case TimeoutFires(a) => TimedOut(a);
        case Abort(a) => Aborted(a);
        case ErrorEvent(a) => Errored(a);
        case ExitEvent(code) => if !settled { observedExitCode := code; }
        case CloseEvent(code) => Closed(code);
        case KillTimerFires(a) => KillTimerFired(a);
        case WatchdogFires(gone) => WatchdogFired(gone);
        case Detach => MarkDetachedUnconfirmed();
      }
    }
  }
}
