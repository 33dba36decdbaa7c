/** `runStep` in extensions/workflow.ts once its child is spawned: TERM, a grace period, KILL, a
    watchdog, and a step that settles, disposes of its lease and returns its slot exactly once. */
module StepLifecycle {
  import opened Sequences
  import opened Processes

  datatype StepResult = StepResult(success: bool, cause: Option<Cause>, cleanupFailed: bool, outcomeUnknown: bool)

  datatype Run = Run(
    now: int,
    released: bool,
    terminationStarted: Option<int>,  // when
    timeoutAt: Option<int>,
    killAt: Option<int>,
    watchdogAt: Option<int>,
    cause: Option<Cause>,
    cleanupFailed: bool,
    outcomeUnknown: bool,
    lease: Option<LeaseState>,
    results: seq<StepResult>,         // calls of `resolve` through `publish`
    disposals: seq<Disposal>,         // what became of the lease
    slotsReturned: nat)               // calls of `releaseSlot`

  datatype Event =
    | TimeoutFires(attempt: Attempt)
    | Cancel(attempt: Attempt)        // the abort listener, or the session cancelling the run
    | ForceFinalize(attempt: Attempt)
    | ErrorEvent(attempt: Attempt)
    | CloseEvent(code: Option<int>)
    | KillTimerFires(attempt: Attempt)
    | WatchdogFires(treeGone: bool)

  type Timed = Processes.Timed<Event>

  function Launch(start: int, timeoutMs: nat, leased: bool): Run {
    Run(start, false, None, Some(start + timeoutMs), None, None, None, false, false,
        if leased then Some(Active) else None, [], [], 0)
  }

  // ---------------------------------------------------------------- the closures

  function Finish(s: Run, r: StepResult): Run {
    if s.released then s
    else s.(
      released := true, timeoutAt := None, killAt := None, watchdogAt := None, lease := None,
      results := s.results + [r],
      disposals := if s.lease.None? then s.disposals
                   else s.disposals + [if r.cleanupFailed || r.outcomeUnknown then LeaseUnconfirmed else LeaseReleased],
      slotsReturned := s.slotsReturned + 1)
  }

  function TerminalResult(s: Run): StepResult {
    StepResult(false, Some(if s.cause.Some? then s.cause.value else Failed), s.cleanupFailed, s.outcomeUnknown)
  }

  function FinishTerminal(s: Run): Run {
    Finish(s, TerminalResult(s))
  }

  function FinishUnclean(s: Run): Run {
    FinishTerminal(s.(cleanupFailed := true, outcomeUnknown := true))
  }

  function ForceKill(s: Run, a: Attempt): Run {
    var t := s.(lease := MarkSettling(s.lease));
    if NothingLeft(a) then FinishTerminal(t)
    else if !SignalDelivered(a) then FinishUnclean(t)
    else t.(watchdogAt := Some(s.now + KILL_WATCHDOG_MS))
  }

  function Terminate(s: Run, a: Attempt): Run {
    if s.released || s.terminationStarted.Some? then s
    else
      var t := s.(terminationStarted := Some(s.now), lease := MarkSettling(s.lease));
      if NothingLeft(a) then FinishTerminal(t)
      else if !SignalDelivered(a) then FinishUnclean(t)
      else t.(killAt := Some(s.now + KILL_GRACE_MS))
  }

  function OnForceFinalize(s: Run, a: Attempt): Run {
    if s.released then s
    else
      var t := s.(cause := Latch(s.cause, Cancelled), lease := MarkSettling(s.lease));
      if NothingLeft(a) then FinishTerminal(t) else FinishUnclean(t)
  }

  function OnError(s: Run, a: Attempt): Run {
    if s.released || s.terminationStarted.Some? then s
    else ForceKill(s.(cause := Latch(s.cause, Failed), terminationStarted := Some(s.now)), a)
  }

  function OnClose(s: Run, code: Option<int>): Run {
    if s.cause == Some(Cancelled) || s.cause == Some(Timeout) then FinishTerminal(s)
    else if code.None? || code == Some(0) then Finish(s, StepResult(true, None, false, false))
    else Finish(s, StepResult(code == Some(0), None, false, false))
  }

  function OnKillTimer(s: Run, a: Attempt): Run {
    var t := s.(killAt := None);
    if s.released then t else ForceKill(t, a)
  }

  function OnWatchdog(s: Run, treeGone: bool): Run {
    var t := s.(watchdogAt := None);
    if s.released then t else if treeGone then FinishTerminal(t) else FinishUnclean(t)
  }

  function React(s: Run, e: Event): Run {
    match e
    case TimeoutFires(a) => Terminate(s.(timeoutAt := None, cause := Latch(s.cause, Timeout)), a)
    case Cancel(a) => Terminate(s.(cause := Latch(s.cause, Cancelled)), a)
    case ForceFinalize(a) => OnForceFinalize(s, a)
    case ErrorEvent(a) => OnError(s, a)
    case CloseEvent(code) => if s.released then s else OnClose(s, code)
    case KillTimerFires(a) => OnKillTimer(s, a)
    case WatchdogFires(gone) => OnWatchdog(s, gone)
  }

  /** Events come in time order, no armed timer is overdue, and a timer fires at its deadline. */
  predicate CanHappen(s: Run, e: Timed) {
    && s.now <= e.time
    && NotOverdue(s.timeoutAt, e.time) && NotOverdue(s.killAt, e.time) && NotOverdue(s.watchdogAt, e.time)
    && (e.event.TimeoutFires? ==> s.timeoutAt == Some(e.time))
    && (e.event.KillTimerFires? ==> s.killAt == Some(e.time))
    && (e.event.WatchdogFires? ==> s.watchdogAt == Some(e.time))
  }

  function Next(s: Run, e: Timed): Run {
    React(s.(now := e.time), e.event)
  }

  /** `events` is a possible history from `s`, and `t` where it leads. */
  ghost predicate Leads(s: Run, events: seq<Timed>, t: Run) {
    History(CanHappen, Next, s, events, t)
  }

  // ---------------------------------------------------------------- the invariant

  /** Exactly one settlement, one disposal of a lease that exists, one slot returned: all at release. */
  ghost predicate SettledOnce(s: Run, leased: bool) {
    && |s.results| == (if s.released then 1 else 0)
    && s.slotsReturned == (if s.released then 1 else 0)
    && |s.disposals| == (if s.released && leased then 1 else 0)
    && (s.lease.Some? <==> leased && !s.released)
    && (s.released && leased ==>
          (s.disposals[0] == LeaseUnconfirmed <==> s.results[0].cleanupFailed || s.results[0].outcomeUnknown))
  }

  /** Before release some timer is armed: the timeout, then the grace period, then the watchdog. */
  ghost predicate OnTheClock(s: Run, start: int, timeoutMs: nat) {
    if s.released then s.timeoutAt.None? && s.killAt.None? && s.watchdogAt.None?
    else
      && start <= s.now <= start + timeoutMs + KILL_GRACE_MS + KILL_WATCHDOG_MS
      && (s.timeoutAt.Some? ==> s.timeoutAt.value == start + timeoutMs)
      && !s.cleanupFailed && !s.outcomeUnknown
      && match s.terminationStarted
         case None => s.timeoutAt.Some? && s.now <= s.timeoutAt.value && s.killAt.None? && s.watchdogAt.None?
         case Some(began) =>
           && start <= began <= s.now && began <= start + timeoutMs
           && s.cause.Some?
           && s.now <= began + KILL_GRACE_MS + KILL_WATCHDOG_MS
           && (s.killAt.Some? <==> s.watchdogAt.None?)
           && (s.killAt.Some? ==> s.now <= s.killAt.value == began + KILL_GRACE_MS)
           && (s.watchdogAt.Some? ==>
                 s.now <= s.watchdogAt.value <= began + KILL_GRACE_MS + KILL_WATCHDOG_MS)
  }

  ghost predicate Good(s: Run, start: int, timeoutMs: nat, leased: bool) {
    SettledOnce(s, leased) && OnTheClock(s, start, timeoutMs)
  }

  lemma AdvanceKeeps(s: Run, e: Timed, start: int, timeoutMs: nat, leased: bool)
    requires Good(s, start, timeoutMs, leased) && CanHappen(s, e)
    ensures Good(s.(now := e.time), start, timeoutMs, leased)
  {
  }

  /** Whatever ends the step ends it well. */
  lemma FinishKeeps(s: Run, r: StepResult, start: int, timeoutMs: nat, leased: bool)
    requires SettledOnce(s, leased) && !s.released
    ensures Good(Finish(s, r), start, timeoutMs, leased)
  {
  }

  lemma EndsKeep(s: Run, start: int, timeoutMs: nat, leased: bool)
    requires SettledOnce(s, leased) && !s.released
    ensures Good(FinishTerminal(s), start, timeoutMs, leased)
    ensures Good(FinishUnclean(s), start, timeoutMs, leased)
  {
    var t := s.(cleanupFailed := true, outcomeUnknown := true);
    FinishKeeps(s, TerminalResult(s), start, timeoutMs, leased);
    FinishKeeps(t, TerminalResult(t), start, timeoutMs, leased);
    hide Finish;
  }

  /** Before termination starts, any termination cause may be latched and the timeout may have fired. */
  lemma TerminateKeeps(s: Run, t: Run, a: Attempt, start: int, timeoutMs: nat, leased: bool)
    requires Good(s, start, timeoutMs, leased) && !s.released
    requires t.cause.Some? && (t.timeoutAt == s.timeoutAt || t.timeoutAt.None?)
    requires t == s.(cause := t.cause, timeoutAt := t.timeoutAt)
    ensures Good(Terminate(t, a), start, timeoutMs, leased)
  {
    if t.terminationStarted.None? {
      EndsKeep(t.(terminationStarted := Some(t.now), lease := MarkSettling(t.lease)), start, timeoutMs, leased);
      hide FinishTerminal, FinishUnclean;
    }
  }

  lemma ForceKillKeeps(s: Run, a: Attempt, start: int, timeoutMs: nat, leased: bool)
    requires SettledOnce(s, leased) && !s.released && s.killAt.None? && s.watchdogAt.None?
    requires OnTheClock(s.(watchdogAt := Some(s.now + KILL_WATCHDOG_MS)), start, timeoutMs)
    ensures Good(ForceKill(s, a), start, timeoutMs, leased)
  {
    EndsKeep(s.(lease := MarkSettling(s.lease)), start, timeoutMs, leased);
    hide FinishTerminal, FinishUnclean;
  }

  lemma ErrorKeeps(s: Run, a: Attempt, start: int, timeoutMs: nat, leased: bool)
    requires Good(s, start, timeoutMs, leased) && !s.released
    ensures Good(OnError(s, a), start, timeoutMs, leased)
  {
    hide ForceKill;
    if s.terminationStarted.None? {
      var t := s.(cause := Latch(s.cause, Failed), terminationStarted := Some(s.now));
      ForceKillKeeps(t, a, start, timeoutMs, leased);
    }
  }

  lemma CloseKeeps(s: Run, code: Option<int>, start: int, timeoutMs: nat, leased: bool)
    requires SettledOnce(s, leased) && !s.released
    ensures Good(OnClose(s, code), start, timeoutMs, leased)
  {
    EndsKeep(s, start, timeoutMs, leased);
    FinishKeeps(s, StepResult(true, None, false, false), start, timeoutMs, leased);
    FinishKeeps(s, StepResult(code == Some(0), None, false, false), start, timeoutMs, leased);
    hide Finish, FinishTerminal, FinishUnclean;
  }

  lemma ForceFinalizeKeeps(s: Run, a: Attempt, start: int, timeoutMs: nat, leased: bool)
    requires SettledOnce(s, leased) && !s.released
    ensures Good(OnForceFinalize(s, a), start, timeoutMs, leased)
  {
    EndsKeep(s.(cause := Latch(s.cause, Cancelled), lease := MarkSettling(s.lease)), start, timeoutMs, leased);
    hide FinishTerminal, FinishUnclean;
  }

  lemma KillTimerKeeps(s: Run, a: Attempt, start: int, timeoutMs: nat, leased: bool)
    requires Good(s, start, timeoutMs, leased) && !s.released && s.killAt == Some(s.now)
    ensures Good(OnKillTimer(s, a), start, timeoutMs, leased)
  {
    hide ForceKill;
    ForceKillKeeps(s.(killAt := None), a, start, timeoutMs, leased);
  }

  lemma WatchdogKeeps(s: Run, gone: bool, start: int, timeoutMs: nat, leased: bool)
    requires SettledOnce(s, leased) && !s.released
    ensures Good(OnWatchdog(s, gone), start, timeoutMs, leased)
  {
    EndsKeep(s.(watchdogAt := None), start, timeoutMs, leased);
    hide FinishTerminal, FinishUnclean;
  }

  lemma AfterRelease(s: Run, e: Event, start: int, timeoutMs: nat, leased: bool)
    requires Good(s, start, timeoutMs, leased) && s.released
    ensures Good(React(s, e), start, timeoutMs, leased)
    ensures React(s, e).results == s.results && React(s, e).disposals == s.disposals
  {
  }

  lemma StepKeeps(s: Run, e: Timed, start: int, timeoutMs: nat, leased: bool)
    requires Good(s, start, timeoutMs, leased) && CanHappen(s, e)
    ensures Good(Next(s, e), start, timeoutMs, leased)
  {
    AdvanceKeeps(s, e, start, timeoutMs, leased);
    var t := s.(now := e.time);
    if t.released {
      AfterRelease(t, e.event, start, timeoutMs, leased);
      return;
    }
    hide SettledOnce, OnTheClock, Terminate, OnForceFinalize, OnError, OnClose, OnKillTimer, OnWatchdog;
    match e.event
    case TimeoutFires(a) =>
      TerminateKeeps(t, t.(timeoutAt := None, cause := Latch(t.cause, Timeout)), a, start, timeoutMs, leased);
    case Cancel(a) =>
      TerminateKeeps(t, t.(cause := Latch(t.cause, Cancelled)), a, start, timeoutMs, leased);
    case ForceFinalize(a) =>
      ForceFinalizeKeeps(t, a, start, timeoutMs, leased);
    case ErrorEvent(a) =>
      ErrorKeeps(t, a, start, timeoutMs, leased);
    case CloseEvent(code) =>
      CloseKeeps(t, code, start, timeoutMs, leased);
    case KillTimerFires(a) =>
      KillTimerKeeps(t, a, start, timeoutMs, leased);
    case WatchdogFires(gone) =>
      WatchdogKeeps(t, gone, start, timeoutMs, leased);
  }

  /** Along every possible history. */
  lemma LeadsWell(s: Run, events: seq<Timed>, t: Run, start: int, timeoutMs: nat, leased: bool)
    requires Good(s, start, timeoutMs, leased) && Leads(s, events, t)
    ensures Good(t, start, timeoutMs, leased)
  {
    forall x: Run, e | Good(x, start, timeoutMs, leased) && CanHappen(x, e)
      ensures Good(Next(x, e), start, timeoutMs, leased)
    {
      StepKeeps(x, e, start, timeoutMs, leased);
    }
    hide Good, CanHappen, Next;
    HistoryKeeps(CanHappen, Next, (x: Run) => Good(x, start, timeoutMs, leased), s, events, t);
  }

  // ---------------------------------------------------------------- theorems

  /** However exits, errors, aborts, timers and signal answers interleave, the step settles at most once,
      and its result, its slot and its lease go together. */
  lemma SettlesOnce(start: int, timeoutMs: nat, leased: bool, events: seq<Timed>, t: Run)
    requires Leads(Launch(start, timeoutMs, leased), events, t)
    ensures |t.results| == t.slotsReturned == if t.released then 1 else 0
    ensures |t.disposals| == if t.released && leased then 1 else 0
    ensures t.released && leased ==>
      (t.disposals == [LeaseUnconfirmed] <==> t.results[0].cleanupFailed || t.results[0].outcomeUnknown)
  {
    LeadsWell(Launch(start, timeoutMs, leased), events, t, start, timeoutMs, leased);
  }

  /** Once termination starts the step settles within the grace and watchdog periods; altogether within
      its timeout plus both. A step that has not settled has a timer running that will make it. */
  lemma SettlesInTime(start: int, timeoutMs: nat, leased: bool, events: seq<Timed>, t: Run)
    requires Leads(Launch(start, timeoutMs, leased), events, t) && !t.released
    ensures t.now <= start + timeoutMs + KILL_GRACE_MS + KILL_WATCHDOG_MS
    ensures t.terminationStarted.Some? ==> t.now <= t.terminationStarted.value + KILL_GRACE_MS + KILL_WATCHDOG_MS
    ensures t.timeoutAt.Some? || t.killAt.Some? || t.watchdogAt.Some?
    ensures t.terminationStarted.Some? ==>
      var due := if t.killAt.Some? then t.killAt else t.watchdogAt;
      due.Some? && t.now <= due.value <= t.terminationStarted.value + KILL_GRACE_MS + KILL_WATCHDOG_MS
  {
    LeadsWell(Launch(start, timeoutMs, leased), events, t, start, timeoutMs, leased);
  }

  /** Forced finalisation, the watchdog and the end of the child settle the step on the spot. */
  lemma LastWordsSettle(s: Run, e: Event)
    requires e.ForceFinalize? || e.WatchdogFires? || e.CloseEvent?
    ensures React(s, e).released
  {
  }

  /** The cause an event tries to latch. */
  function CauseOf(e: Event): Option<Cause> {
    match e
    case TimeoutFires(_) => Some(Timeout)
    case Cancel(_) => Some(Cancelled)
    case ForceFinalize(_) => Some(Cancelled)
    case ErrorEvent(_) => Some(Failed)
    case _ => None
  }

  lemma ReleasedForGood(s: Run, events: seq<Timed>, t: Run)
    requires s.released && Leads(s, events, t)
    ensures t.released
  {
    HistoryKeeps(CanHappen, Next, (x: Run) => x.released, s, events, t);
  }

  /** `t` keeps the cause latched in `s` and, if it has settled, blames that cause. */
  ghost predicate Blames(s: Run, t: Run) {
    && t.cause == s.cause
    && (t.released ==>
          |t.results| == |s.results| + 1 && !t.results[|s.results|].success && t.results[|s.results|].cause == s.cause)
  }

  lemma EndsBlame(s: Run)
    requires !s.released && s.cause.Some?
    ensures Blames(s, FinishTerminal(s)) && Blames(s, FinishUnclean(s))
  {
  }

  lemma LadderBlames(s: Run, a: Attempt, gone: bool)
    requires !s.released && s.cause.Some?
    ensures Blames(s, Terminate(s, a)) && Blames(s, ForceKill(s, a))
    ensures Blames(s, OnKillTimer(s, a)) && Blames(s, OnWatchdog(s, gone))
  {
    EndsBlame(s.(terminationStarted := Some(s.now), lease := MarkSettling(s.lease)));
    EndsBlame(s.(lease := MarkSettling(s.lease)));
    EndsBlame(s.(killAt := None, lease := MarkSettling(s.lease)));
    EndsBlame(s.(watchdogAt := None));
    hide FinishTerminal, FinishUnclean;
  }

  lemma ForceBlames(s: Run, a: Attempt)
    requires !s.released
    ensures Blames(s.(cause := Latch(s.cause, Cancelled)), OnForceFinalize(s, a))
  {
    EndsBlame(s.(cause := Latch(s.cause, Cancelled), lease := MarkSettling(s.lease)));
    hide FinishTerminal, FinishUnclean;
  }

  lemma ErrorBlames(s: Run, a: Attempt)
    requires !s.released && (s.terminationStarted.Some? ==> s.cause.Some?)
    ensures Blames(s.(cause := Latch(s.cause, Failed)), OnError(s, a))
  {
    LadderBlames(s.(cause := Latch(s.cause, Failed), terminationStarted := Some(s.now)), a, false);
    hide ForceKill;
  }

  lemma CloseOutcome(s: Run, code: Option<int>)
    requires !s.released
    ensures var t, ended := OnClose(s, code), s.cause == Some(Timeout) || s.cause == Some(Cancelled);
      && t.released && t.cause == s.cause && |t.results| == |s.results| + 1
      && (t.results[|s.results|].success <==> !ended && (code.None? || code == Some(0)))
      && t.results[|s.results|].cause == if ended then s.cause else None
  {
  }

  /** One event latches its cause unless one was latched before, and a settlement other than by the end
      of the child blames the latched cause. */
  lemma EventBlames(s: Run, e: Timed, start: int, timeoutMs: nat, leased: bool)
    requires Good(s, start, timeoutMs, leased) && !s.released && !e.event.CloseEvent?
    requires CanHappen(s, e)
    ensures var cause := if s.cause.Some? then s.cause else CauseOf(e.event);
      Blames(s.(cause := cause), Next(s, e)) && (Next(s, e).released ==> cause.Some?)
  {
    var t := s.(now := e.time);
    assert s.terminationStarted.Some? ==> s.cause.Some?;
    assert s.killAt.Some? || s.watchdogAt.Some? ==> s.cause.Some?;
    hide SettledOnce, OnTheClock, Terminate, OnForceFinalize, OnError, OnKillTimer, OnWatchdog;
    match e.event
    case TimeoutFires(a) =>
      LadderBlames(t.(timeoutAt := None, cause := Latch(t.cause, Timeout)), a, false);
    case Cancel(a) =>
      LadderBlames(t.(cause := Latch(t.cause, Cancelled)), a, false);
    case ForceFinalize(a) =>
      ForceBlames(t, a);
    case ErrorEvent(a) =>
      ErrorBlames(t, a);
    case KillTimerFires(a) =>
      LadderBlames(t, a, false);
    case WatchdogFires(gone) =>
      LadderBlames(t, Attempt(Gone, true), gone);
  }

  /** While a step has not settled, its latched cause is that of the first event that brought one. */
  lemma {:induction false} FirstCauseLatched(
      s: Run, events: seq<Timed>, t: Run, start: int, timeoutMs: nat, leased: bool)
    requires Good(s, start, timeoutMs, leased) && Leads(s, events, t) && !t.released
    ensures t.cause == if s.cause.Some? then s.cause else FirstCause(events, CauseOf)
    decreases |events|
  {
    if s.released {
      ReleasedForGood(s, events, t);
    } else if events != [] {
      if !events[0].event.CloseEvent? {
        EventBlames(s, events[0], start, timeoutMs, leased);
      } else {
        CloseOutcome(s.(now := events[0].time), events[0].event.code);
        ReleasedForGood(Next(s, events[0]), events[1..], t);
      }
      hide Next, OnTheClock, SettledOnce, CanHappen, Blames;
      StepKeeps(s, events[0], start, timeoutMs, leased);
      FirstCauseLatched(Next(s, events[0]), events[1..], t, start, timeoutMs, leased);
    }
  }

  // ---------------------------------------------------------------- what the answers of the system decide

  predicate Begins(e: Event) { e.TimeoutFires? || e.Cancel? || e.ErrorEvent? }
  predicate IsTimeout(e: Event) { e.TimeoutFires? }
  predicate IsKill(e: Event) { e.KillTimerFires? }

  /** Whether an event settles a step whose termination has begun, or has not. */
  predicate Settles(begun: bool, e: Event) {
    match e
    case TimeoutFires(a) => !begun && EndsLadder(a)
    case Cancel(a) => !begun && EndsLadder(a)
    case ErrorEvent(a) => !begun && EndsLadder(a)
    case KillTimerFires(a) => EndsLadder(a)
    case _ => true
  }

  /** Whether a step settled by an event is reported as not cleaned up. */
  predicate UncleanBy(e: Event) {
    match e
    case TimeoutFires(a) => MayBeAlive(a)
    case Cancel(a) => MayBeAlive(a)
    case ForceFinalize(a) => MayBeAlive(a)
    case ErrorEvent(a) => MayBeAlive(a)
    case KillTimerFires(a) => MayBeAlive(a)
    case WatchdogFires(gone) => !gone
    case CloseEvent(_) => false
  }

  /** `t` has settled, with one more result that says `unclean`. */
  ghost predicate Ends(s: Run, t: Run, unclean: bool) {
    && t.released && |t.results| == |s.results| + 1
    && t.results[|s.results|].cleanupFailed == t.results[|s.results|].outcomeUnknown == unclean
  }

  lemma EndsSay(s: Run)
    requires !s.released && !s.cleanupFailed && !s.outcomeUnknown
    ensures Ends(s, FinishTerminal(s), false) && Ends(s, FinishUnclean(s), true)
  {
  }

  lemma ForceKillSays(s: Run, a: Attempt)
    requires !s.released && !s.cleanupFailed && !s.outcomeUnknown
    ensures ForceKill(s, a).released <==> EndsLadder(a)
    ensures EndsLadder(a) ==> Ends(s, ForceKill(s, a), MayBeAlive(a))
    ensures !EndsLadder(a) ==>
      ForceKill(s, a) == s.(lease := MarkSettling(s.lease), watchdogAt := Some(s.now + KILL_WATCHDOG_MS))
  {
    EndsSay(s.(lease := MarkSettling(s.lease)));
    hide FinishTerminal, FinishUnclean;
  }

  lemma TerminateSays(s: Run, a: Attempt)
    requires !s.released && !s.cleanupFailed && !s.outcomeUnknown
    ensures s.terminationStarted.Some? ==> Terminate(s, a) == s
    ensures s.terminationStarted.None? ==> (Terminate(s, a).released <==> EndsLadder(a))
    ensures s.terminationStarted.None? && EndsLadder(a) ==> Ends(s, Terminate(s, a), MayBeAlive(a))
    ensures s.terminationStarted.None? && !EndsLadder(a) ==>
      Terminate(s, a) == s.(terminationStarted := Some(s.now), lease := MarkSettling(s.lease),
                            killAt := Some(s.now + KILL_GRACE_MS))
  {
    EndsSay(s.(terminationStarted := Some(s.now), lease := MarkSettling(s.lease)));
    hide FinishTerminal, FinishUnclean;
  }

  lemma ForcedSays(s: Run, a: Attempt)
    requires !s.released && !s.cleanupFailed && !s.outcomeUnknown
    ensures Ends(s, OnForceFinalize(s, a), MayBeAlive(a))
  {
    EndsSay(s.(cause := Latch(s.cause, Cancelled), lease := MarkSettling(s.lease)));
    hide FinishTerminal, FinishUnclean;
  }

  lemma WatchdogSays(s: Run, gone: bool)
    requires !s.released && !s.cleanupFailed && !s.outcomeUnknown
    ensures Ends(s, OnWatchdog(s, gone), !gone)
  {
    EndsSay(s.(watchdogAt := None));
    hide FinishTerminal, FinishUnclean;
  }

  lemma CloseSays(s: Run, code: Option<int>)
    requires !s.released && !s.cleanupFailed && !s.outcomeUnknown
    ensures Ends(s, OnClose(s, code), false)
  {
  }

  /** One event settles an unsettled step exactly when the system's answer leaves nothing to wait for, and
      the result says exactly what that answer was. */
  lemma EventSays(s: Run, e: Timed, start: int, timeoutMs: nat, leased: bool)
    requires Good(s, start, timeoutMs, leased) && !s.released && CanHappen(s, e)
    ensures Next(s, e).released <==> Settles(s.terminationStarted.Some?, e.event)
    ensures Next(s, e).released ==> Ends(s, Next(s, e), UncleanBy(e.event))
  {
    var t := s.(now := e.time);
    assert !t.cleanupFailed && !t.outcomeUnknown;
    hide SettledOnce, OnTheClock, Terminate, ForceKill, OnForceFinalize, OnWatchdog, OnClose, EndsLadder, MayBeAlive;
    match e.event
    case TimeoutFires(a) => TerminateSays(t.(timeoutAt := None, cause := Latch(t.cause, Timeout)), a);
    case Cancel(a) => TerminateSays(t.(cause := Latch(t.cause, Cancelled)), a);
    case ForceFinalize(a) => ForcedSays(t, a);
    case ErrorEvent(a) => ForceKillSays(t.(cause := Latch(t.cause, Failed), terminationStarted := Some(t.now)), a);
    case CloseEvent(code) => CloseSays(t, code);
    case KillTimerFires(a) => ForceKillSays(t.(killAt := None), a);
    case WatchdogFires(gone) => WatchdogSays(t, gone);
  }

  /** The timers and the lease that a history calls for before settlement. TERM is followed by KILL after the
      whole grace period and not before, KILL by the watchdog after the whole of its own. */
  ghost predicate ClockOf(events: seq<Timed>, s: Run, start: int, timeoutMs: nat, leased: bool) {
    var first := FirstOf(events, Begins);
    var error := first.Some? && first.value.event.ErrorEvent?;
    && s.timeoutAt == (if Count(events, IsTimeout) == 0 then Some(start + timeoutMs) else None)
    && s.terminationStarted == TimeOf(first)
    && s.killAt == (if error || Count(events, IsKill) > 0 then None else Later(TimeOf(first), KILL_GRACE_MS))
    && s.watchdogAt == Later(if error then TimeOf(first) else TimeOf(FirstOf(events, IsKill)), KILL_WATCHDOG_MS)
    && (Count(events, IsKill) > 0 <==> FirstOf(events, IsKill).Some?)
    && s.lease == (if !leased then None else Some(if first.None? then Active else Settling))
  }

  ghost predicate Told(events: seq<Timed>, s: Run, start: int, timeoutMs: nat, leased: bool) {
    Good(s, start, timeoutMs, leased) && (s.released || ClockOf(events, s, start, timeoutMs, leased))
  }

  /** What an event does to an unsettled step that stays unsettled. */
  ghost predicate Waits(s: Run, e: Timed, t: Run) {
    var begun := s.terminationStarted.Some?;
    && t.timeoutAt == (if IsTimeout(e.event) then None else s.timeoutAt)
    && t.terminationStarted == (if begun || !Begins(e.event) then s.terminationStarted else Some(e.time))
    && t.killAt == (if !begun && Begins(e.event) && !e.event.ErrorEvent? then Some(e.time + KILL_GRACE_MS)
                    else if IsKill(e.event) then None else s.killAt)
    && t.watchdogAt == (if IsKill(e.event) || (!begun && e.event.ErrorEvent?) then Some(e.time + KILL_WATCHDOG_MS)
                        else s.watchdogAt)
    && t.lease == (if IsKill(e.event) || (!begun && Begins(e.event)) then MarkSettling(s.lease) else s.lease)
  }

  lemma EventWaits(s: Run, e: Timed, start: int, timeoutMs: nat, leased: bool)
    requires Good(s, start, timeoutMs, leased) && !s.released && CanHappen(s, e) && !Next(s, e).released
    ensures Waits(s, e, Next(s, e))
  {
    var t := s.(now := e.time);
    assert !t.cleanupFailed && !t.outcomeUnknown;
    hide SettledOnce, OnTheClock, Terminate, ForceKill, OnForceFinalize, OnWatchdog, OnClose, EndsLadder, MayBeAlive;
    match e.event
    case TimeoutFires(a) => TerminateSays(t.(timeoutAt := None, cause := Latch(t.cause, Timeout)), a);
    case Cancel(a) => TerminateSays(t.(cause := Latch(t.cause, Cancelled)), a);
    case ForceFinalize(a) => ForcedSays(t, a);
    case ErrorEvent(a) => ForceKillSays(t.(cause := Latch(t.cause, Failed), terminationStarted := Some(t.now)), a);
    case CloseEvent(code) => CloseSays(t, code);
    case KillTimerFires(a) => ForceKillSays(t.(killAt := None), a);
    case WatchdogFires(gone) => WatchdogSays(t, gone);
  }

  lemma NothingArmed(s: Run, start: int, timeoutMs: nat, leased: bool)
    requires Good(s, start, timeoutMs, leased) && !s.released
    ensures s.killAt.Some? || s.watchdogAt.Some? ==> s.terminationStarted.Some?
  {
  }

  lemma ClockNext(events: seq<Timed>, s: Run, e: Timed, t: Run, start: int, timeoutMs: nat, leased: bool)
    requires ClockOf(events, s, start, timeoutMs, leased) && Waits(s, e, t)
    requires IsKill(e.event) ==> s.killAt.Some?
    requires s.killAt.Some? || s.watchdogAt.Some? ==> s.terminationStarted.Some?
    ensures ClockOf(events + [e], t, start, timeoutMs, leased)
  {
    FirstOfNext(events, e, Begins);
    FirstOfNext(events, e, IsKill);
    CountNext(events, e, IsTimeout);
    CountNext(events, e, IsKill);
    hide FirstOf, Count;
  }

  lemma EventTold(events: seq<Timed>, s: Run, e: Timed, start: int, timeoutMs: nat, leased: bool)
    requires Told(events, s, start, timeoutMs, leased) && CanHappen(s, e)
    ensures Told(events + [e], Next(s, e), start, timeoutMs, leased)
  {
    StepKeeps(s, e, start, timeoutMs, leased);
    if s.released {
      ReleasedStays(s, e);
    } else if !Next(s, e).released {
      EventWaits(s, e, start, timeoutMs, leased);
      assert IsKill(e.event) ==> s.killAt.Some?;
      NothingArmed(s, start, timeoutMs, leased);
      hide Good, Next, CanHappen, ClockOf, Waits;
      ClockNext(events, s, e, Next(s, e), start, timeoutMs, leased);
    }
  }

  lemma ReleasedStays(s: Run, e: Timed)
    requires s.released
    ensures Next(s, e).released
  {
  }

  /** In every history the timers and the lease of an unsettled step are those the history calls for. */
  lemma ClockOfHistory(start: int, timeoutMs: nat, leased: bool, events: seq<Timed>, s: Run)
    requires Leads(Launch(start, timeoutMs, leased), events, s) && !s.released
    ensures ClockOf(events, s, start, timeoutMs, leased)
  {
    var tells := (es: seq<Timed>, x: Run) => Told(es, x, start, timeoutMs, leased);
    forall es, x, e | tells(es, x) && CanHappen(x, e) ensures tells(es + [e], Next(x, e)) {
      EventTold(es, x, e, start, timeoutMs, leased);
    }
    assert Told([], Launch(start, timeoutMs, leased), start, timeoutMs, leased);
    hide Told, CanHappen, Next;
    HistoryTells(CanHappen, Next, tells, [], Launch(start, timeoutMs, leased), events, s);
    assert [] + events == events;
    assert Told(events, s, start, timeoutMs, leased);
    assert ClockOf(events, s, start, timeoutMs, leased) by { ToldClock(events, s, start, timeoutMs, leased); }
  }

  lemma ToldClock(events: seq<Timed>, s: Run, start: int, timeoutMs: nat, leased: bool)
    requires Told(events, s, start, timeoutMs, leased) && !s.released
    ensures ClockOf(events, s, start, timeoutMs, leased)
  {
  }

  /** In every history an event settles the step exactly when it is forced, a close or a watchdog, or carries
      an answer that leaves nothing to wait for and is not refused because termination has begun. */
  lemma SettlesExactly(start: int, timeoutMs: nat, leased: bool, events: seq<Timed>, s: Run, e: Timed)
    requires Leads(Launch(start, timeoutMs, leased), events, s) && !s.released && CanHappen(s, e)
    ensures Next(s, e).released <==> Settles(FirstOf(events, Begins).Some?, e.event)
  {
    LeadsWell(Launch(start, timeoutMs, leased), events, s, start, timeoutMs, leased);
    ClockOfHistory(start, timeoutMs, leased, events, s);
    EventSays(s, e, start, timeoutMs, leased);
    hide Next, CanHappen, Good;
  }

  /** What was reported and what became of the lease stands. */
  lemma ResultStands(s: Run, events: seq<Timed>, t: Run, start: int, timeoutMs: nat, leased: bool)
    requires Good(s, start, timeoutMs, leased) && s.released && Leads(s, events, t)
    ensures t.released && t.results == s.results && t.disposals == s.disposals
  {
    var stands := (x: Run) =>
      Good(x, start, timeoutMs, leased) && x.released && x.results == s.results && x.disposals == s.disposals;
    forall x, e | stands(x) && CanHappen(x, e) ensures stands(Next(x, e)) {
      StepKeeps(x, e, start, timeoutMs, leased);
      AdvanceKeeps(x, e, start, timeoutMs, leased);
      AfterRelease(x.(now := e.time), e.event, start, timeoutMs, leased);
      ReleasedStays(x, e);
    }
    hide Good, CanHappen, Next;
    HistoryKeeps(CanHappen, Next, stands, s, events, t);
  }

  /** Over whole histories: a step succeeds exactly when its child closes with code 0 or without a code and
      the first of timeout, cancellation and error to arrive, if any, was an error; otherwise the reported
      cause is the first to arrive, the settling event included, and a bad exit code alone has none. The
      result says that cleanup failed exactly when the answer that settled it does. */
  lemma OutcomeOfHistory(start: int, timeoutMs: nat, leased: bool, events: seq<Timed>, s: Run, e: Timed)
    requires Leads(Launch(start, timeoutMs, leased), events, s) && !s.released
    requires CanHappen(s, e) && Next(s, e).released
    ensures |Next(s, e).results| == 1
    ensures var r, first := Next(s, e).results[0], FirstCause(events, CauseOf);
      var ended := first == Some(Timeout) || first == Some(Cancelled);
      if e.event.CloseEvent? then
        && (r.success <==> !ended && (e.event.code.None? || e.event.code == Some(0)))
        && r.cause == if ended then first else None
      else !r.success && r.cause.Some? && r.cause == if first.Some? then first else CauseOf(e.event)
    ensures var r := Next(s, e).results[0]; r.cleanupFailed == r.outcomeUnknown == UncleanBy(e.event)
    ensures Next(s, e).disposals ==
      if !leased then [] else [if UncleanBy(e.event) then LeaseUnconfirmed else LeaseReleased]
  {
    LeadsWell(Launch(start, timeoutMs, leased), events, s, start, timeoutMs, leased);
    FirstCauseLatched(Launch(start, timeoutMs, leased), events, s, start, timeoutMs, leased);
    StepKeeps(s, e, start, timeoutMs, leased);
    EventSays(s, e, start, timeoutMs, leased);
    hide Leads, OnTheClock, CanHappen, OnClose, Terminate, OnForceFinalize, OnError, OnKillTimer, OnWatchdog;
    if e.event.CloseEvent? {
      CloseOutcome(s.(now := e.time), e.event.code);
    } else {
      EventBlames(s, e, start, timeoutMs, leased);
    }
  }

  /** Success does not mean exit code 0, nor the absence of an error: an error event whose KILL was
      delivered, followed by a close without a code, reports success. */
  lemma SuccessWithoutExitCode(start: int, leased: bool)
    ensures var s := Launch(start, 5000, leased);
      var t := Next(Next(s, At(start, ErrorEvent(Attempt(Delivered, false)))), At(start, CloseEvent(None)));
      Leads(s, [At(start, ErrorEvent(Attempt(Delivered, false))), At(start, CloseEvent(None))], t)
      && t.released && t.results[0].success && t.cause == Some(Failed)
  {
    var s := Launch(start, 5000, leased);
    var a, b := At(start, ErrorEvent(Attempt(Delivered, false))), At(start, CloseEvent(None));
    assert [a, b][1..] == [b];
    assert [b][1..] == [];
  }

  // ---------------------------------------------------------------- the closures' shared variables

  class StepRun {
    var now: int
    var released: bool
    var terminationStarted: Option<int>
    var timeoutAt: Option<int>
    var killAt: Option<int>
    var watchdogAt: Option<int>
    var cause: Option<Cause>
    var cleanupFailed: bool
    var outcomeUnknown: bool
    var ownedHandle: Option<LeaseState>
    var results: seq<StepResult>
    var disposals: seq<Disposal>
    var slotsReturned: nat

    function State(): Run
      reads this
    {
      Run(now, released, terminationStarted, timeoutAt, killAt, watchdogAt, cause, cleanupFailed, outcomeUnknown,
          ownedHandle, results, disposals, slotsReturned)
    }

    constructor (start: int, timeoutMs: nat, leased: bool)
      ensures State() == Launch(start, timeoutMs, leased)
    {
      now, released, terminationStarted := start, false, None;
      timeoutAt, killAt, watchdogAt := Some(start + timeoutMs), None, None;
      cause, cleanupFailed, outcomeUnknown := None, false, false;
      ownedHandle := if leased then Some(Active) else None;
      results, disposals, slotsReturned := [], [], 0;
    }

    method Release()
      modifies this
      ensures State() == if old(released) then old(State()) else old(State()).(
        released := true, timeoutAt := None, killAt := None, watchdogAt := None,
        slotsReturned := old(slotsReturned) + 1)
    {
      if released { return; }
      released := true;
      timeoutAt, killAt, watchdogAt := None, None, None;
      slotsReturned := slotsReturned + 1;
    }

    method FinishWith(r: StepResult)
      requires released <==> results != []
      modifies this
      ensures State() == Finish(old(State()), r)
    {
      if released { return; }
      if ownedHandle.Some? {
        disposals := disposals + [if r.cleanupFailed || r.outcomeUnknown then LeaseUnconfirmed else LeaseReleased];
        ownedHandle := None;
      }
      if results == [] {  // publish: only the first result is resolved
        results := results + [r];
      }
      Release();
    }

    method FinishCleanupFailed()
      requires released <==> results != []
      modifies this
      ensures State() == FinishUnclean(old(State()))
    {
      cleanupFailed, outcomeUnknown := true, true;
      FinishWith(TerminalResult(State()));
    }

    method KillNow(a: Attempt)
      requires released <==> results != []
      modifies this
      ensures State() == ForceKill(old(State()), a)
    {
      ownedHandle := MarkSettling(ownedHandle);
      if NothingLeft(a) {
        FinishWith(TerminalResult(State()));
      } else if !SignalDelivered(a) {
        FinishCleanupFailed();
      } else {
        watchdogAt := Some(now + KILL_WATCHDOG_MS);
      }
    }

    method TerminateWith(a: Attempt)
      requires released <==> results != []
      modifies this
      ensures State() == Terminate(old(State()), a)
    {
      if released || terminationStarted.Some? { return; }
      terminationStarted := Some(now);
      ownedHandle := MarkSettling(ownedHandle);
      if NothingLeft(a) {
        FinishWith(TerminalResult(State()));
      } else if !SignalDelivered(a) {
        FinishCleanupFailed();
      } else {
        killAt := Some(now + KILL_GRACE_MS);
      }
    }

    method Closed(code: Option<int>)
      requires released <==> results != []
      modifies this
      ensures State() == OnClose(old(State()), code)
    {
      if cause == Some(Cancelled) || cause == Some(Timeout) {
        FinishWith(TerminalResult(State()));
      } else if code.None? || code == Some(0) {
        FinishWith(StepResult(true, None, false, false));
      } else {
        FinishWith(StepResult(code == Some(0), None, false, false));
      }
    }

    method TimedOut(a: Attempt)
      requires released <==> results != []
      modifies this
      ensures State() == React(old(State()), TimeoutFires(a))
    {
      hide Terminate;
      timeoutAt, cause := None, Latch(cause, Timeout);
      TerminateWith(a);
    }

    method CancelNow(a: Attempt)
      requires released <==> results != []
      modifies this
      ensures State() == React(old(State()), Cancel(a))
    {
      hide Terminate;
      cause := Latch(cause, Cancelled);
      TerminateWith(a);
    }

    method FinalizeNow(a: Attempt)
      requires released <==> results != []
      modifies this
      ensures State() == OnForceFinalize(old(State()), a)
    {
      if released { return; }
      cause, ownedHandle := Latch(cause, Cancelled), MarkSettling(ownedHandle);
      if NothingLeft(a) { FinishWith(TerminalResult(State())); } else { FinishCleanupFailed(); }
    }

    method Errored(a: Attempt)
      requires released <==> results != []
      modifies this
      ensures State() == OnError(old(State()), a)
    {
      hide ForceKill;
      if released || terminationStarted.Some? { return; }
      cause, terminationStarted := Latch(cause, Failed), Some(now);
      KillNow(a);
    }

    method KillTimerFired(a: Attempt)
      requires released <==> results != []
      modifies this
      ensures State() == OnKillTimer(old(State()), a)
    {
      hide ForceKill;
      killAt := None;
      if !released { KillNow(a); }
    }

    method ConfirmCleanup(treeGone: bool)
      requires released <==> results != []
      modifies this
      ensures State() == OnWatchdog(old(State()), treeGone)
    {
      watchdogAt := None;
      if released { return; }
      if treeGone { FinishWith(TerminalResult(State())); } else { FinishCleanupFailed(); }
    }

    /** One event, whichever listener or timer it reaches. */
    method Handle(e: Timed)
      requires released <==> results != []
      modifies this
      ensures State() == Next(old(State()), e)
    {
      hide Terminate, OnForceFinalize, OnError, OnClose, OnKillTimer, OnWatchdog;
      now := e.time;
      match e.event {
        case TimeoutFires(a) => TimedOut(a);
        case Cancel(a) => CancelNow(a);
        case ForceFinalize(a) => FinalizeNow(a);
        case ErrorEvent(a) => Errored(a);
        case CloseEvent(code) => if !released { Closed(code); }
        case KillTimerFires(a) => KillTimerFired(a);
        case WatchdogFires(gone) => ConfirmCleanup(gone);
      }
    }
  }
}
