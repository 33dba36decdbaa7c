/** A background task (extensions/background-task.ts) once its process runs: `killTask`,
    `watchForTaskExit`, `markCleanupFailed`, `forceShutdownFinalize`, `finish` and the process events. */
module BackgroundLifecycle {
  import opened Sequences
  import opened Processes

  datatype Status = Running | Completed | Ended(cause: Cause)

  /** An armed watchdog, and whether KILL already found nothing to kill. */
  datatype Watch = Watch(at: int, knownGone: bool)

  datatype Task = Task(
    now: int,
    settled: bool,
    began: Option<int>,            // when the ladder started, for the record
    timeoutAt: Option<int>,
    killAt: Option<int>,
    watchdog: Option<Watch>,
    watchdogs: seq<Watch>,
    terminalCause: Option<Cause>,  // latched together with requestedTerminalStatus
    status: Status,
    cleanupFailed: bool,
    outcomeUnknown: bool,
    observedExit: Option<int>,
    exitCode: Option<int>,
    lease: Option<LeaseState>,
    completions: nat,              // calls of `resolveCompletion`
    disposals: seq<Disposal>)

  datatype Event =
    | TimeoutFires(attempt: Attempt)
    | StopRequest(attempt: Attempt)  // task_stop, or session shutdown
    | ForceShutdown
    | ErrorEvent(attempt: Attempt)
    | ExitEvent(code: Option<int>)
    | CloseEvent(code: Option<int>)
    | KillTimerFires(attempt: Attempt)
    | WatchdogFires(watch: Watch, treeGone: bool)

  type Timed = Processes.Timed<Event>

  function Launch(start: int, timeoutMs: nat, leased: bool): Task {
    Task(start, false, None, Some(start + timeoutMs), None, None, [], None, Running, false, false, None, None,
         if leased then Some(Active) else None, 0, [])
  }

  /** Clearing on settlement reaches only the watchdog the variable still refers to. */
  function Cleared(watchdogs: seq<Watch>, watchdog: Option<Watch>): seq<Watch> {
    if watchdog.None? then watchdogs else WithoutOne(watchdogs, watchdog.value)
  }

  /** `settleOwnedTask`. */
  function GivenUp(disposals: seq<Disposal>, lease: Option<LeaseState>, unclean: bool): seq<Disposal> {
    if lease.None? then disposals else disposals + [if unclean then LeaseUnconfirmed else LeaseReleased]
  }

  function Finish(s: Task, status: Status, code: Option<int>): Task {
    if s.settled then s
    else s.(
      settled := true, status := status, exitCode := if code.Some? then code else s.exitCode,
      timeoutAt := None, killAt := None, watchdog := None, watchdogs := Cleared(s.watchdogs, s.watchdog),
      lease := None, disposals := GivenUp(s.disposals, s.lease, s.cleanupFailed || s.outcomeUnknown),
      completions := s.completions + 1)
  }

  function Resolved(s: Task, fallback: Cause): Status {
    Ended(if s.terminalCause.Some? then s.terminalCause.value else fallback)
  }

  /** `task.terminate`, after nothing was found left to kill. */
  function FinishGone(s: Task): Task {
    var fallback := if s.status == Ended(Timeout) || s.status == Ended(Cancelled) then s.status.cause else Failed;
    Finish(s.(outcomeUnknown := false), Resolved(s, fallback), None)
  }

  /** `markCleanupFailed`. */
  function FinishUnclean(s: Task, fallback: Cause): Task {
    if s.settled then s
    else Finish(s.(cleanupFailed := true, outcomeUnknown := true), Resolved(s, fallback), None)
  }

  function Watching(s: Task, knownGone: bool): Task {
    var w := Watch(s.now + KILL_WATCHDOG_MS, knownGone);
    s.(watchdog := Some(w), watchdogs := s.watchdogs + [w])
  }

  function Begin(s: Task): Task {
    s.(began := if s.began.None? then Some(s.now) else s.began)
  }

  function KillTask(s: Task, a: Attempt): Task {
    if s.settled || s.killAt.Some? || s.watchdog.Some? then s
    else
      var t := Begin(s).(lease := MarkSettling(s.lease));
      if NothingLeft(a) then FinishGone(t)
      else if !SignalDelivered(a) then FinishUnclean(t, Failed)
      else t.(killAt := Some(s.now + KILL_GRACE_MS))
  }

  function OnError(s: Task, a: Attempt): Task {
    if s.settled then s
    else
      var t := Begin(s).(terminalCause := Latch(s.terminalCause, Failed), lease := MarkSettling(s.lease));
      if NothingLeft(a) then Finish(t.(outcomeUnknown := false), Ended(Failed), None)
      else if !SignalDelivered(a) then FinishUnclean(t, Failed)
      else Watching(t, false)
  }

  /** The timeout and the stop request latch their causes before they kill. */
  function TimingOut(s: Task): Task {
    s.(timeoutAt := None, terminalCause := Latch(s.terminalCause, Timeout), status := Ended(Timeout))
  }

  function Stopping(s: Task): Task {
    s.(timeoutAt := None, terminalCause := Latch(s.terminalCause, Cancelled), status := Ended(Cancelled))
  }

  function CloseStatus(s: Task, code: Option<int>): Status {
    if s.terminalCause.Some? then Resolved(s, Failed) else if code == Some(0) then Completed else Ended(Failed)
  }

  function OnClose(s: Task, code: Option<int>): Task {
    Finish(s, CloseStatus(s, code), if code.Some? then code else s.observedExit)
  }

  function OnKillTimer(s: Task, a: Attempt): Task {
    var t := s.(killAt := None);
    if s.settled then t
    else if a.sent != Delivered && a.sent != Gone then FinishUnclean(t, Failed)
    else Watching(if a.sent == Gone then t.(outcomeUnknown := false) else t, a.sent == Gone)
  }

  function OnWatchdog(s: Task, w: Watch, treeGone: bool): Task {
    var t := s.(watchdog := None, watchdogs := WithoutOne(s.watchdogs, w));
    if s.settled then t else if w.knownGone || treeGone then FinishGone(t) else FinishUnclean(t, Failed)
  }

  function React(s: Task, e: Event): Task {
    match e
    case TimeoutFires(a) =>
      var t := s.(timeoutAt := None);
      if s.settled then t
      else KillTask(TimingOut(s), a)
    case StopRequest(a) =>
      if s.settled then s
      else KillTask(Stopping(s), a)
    case ForceShutdown => FinishUnclean(s, Cancelled)
    case ErrorEvent(a) => OnError(s, a)
    case ExitEvent(code) => if s.settled then s else s.(observedExit := code)
    case CloseEvent(code) => if s.settled then s else OnClose(s, code)
    case KillTimerFires(a) => OnKillTimer(s, a)
    case WatchdogFires(w, gone) => OnWatchdog(s, w, gone)
  }

  predicate CanHappen(s: Task, e: Timed) {
    && s.now <= e.time
    && NotOverdue(s.timeoutAt, e.time) && NotOverdue(s.killAt, e.time)
    && (forall w :: w in s.watchdogs ==> e.time <= w.at)
    && (e.event.TimeoutFires? ==> s.timeoutAt == Some(e.time))
    && (e.event.KillTimerFires? ==> s.killAt == Some(e.time))
    && (e.event.WatchdogFires? ==> e.event.watch in s.watchdogs && e.event.watch.at == e.time)
  }

  function Next(s: Task, e: Timed): Task {
    React(s.(now := e.time), e.event)
  }

  ghost predicate Leads(s: Task, events: seq<Timed>, t: Task) {
    History(CanHappen, Next, s, events, t)
  }

  // ---------------------------------------------------------------- the invariant

  ghost predicate SettledOnce(s: Task, leased: bool) {
    && s.completions == (if s.settled then 1 else 0)
    && (!s.settled ==> s.exitCode.None?)
    && |s.disposals| == (if s.settled && leased then 1 else 0)
    && (s.lease.Some? <==> leased && !s.settled)
    && (s.settled && leased ==> (s.disposals[0] == LeaseUnconfirmed <==> s.cleanupFailed || s.outcomeUnknown))
  }

  ghost predicate OnTheClock(s: Task, start: int, timeoutMs: nat) {
    !s.settled ==>
      && start <= s.now
      && !s.cleanupFailed && !s.outcomeUnknown
      && (s.timeoutAt.Some? ==> s.now <= s.timeoutAt.value == start + timeoutMs)
      && (s.watchdog.Some? ==> s.watchdog.value in s.watchdogs)
      && (s.watchdogs != [] <==> s.watchdog.Some?)
      && match s.began
         case None => s.timeoutAt.Some? && s.killAt.None? && s.watchdogs == [] && s.terminalCause.None?
         case Some(b) =>
           && start <= b <= s.now && b <= start + timeoutMs
           && (s.killAt.Some? || s.watchdogs != [])
           && (s.killAt.Some? ==> s.now <= s.killAt.value <= b + KILL_GRACE_MS)
           && (forall w :: w in s.watchdogs ==> s.now <= w.at)
           && (s.watchdogs != [] ==> exists w :: w in s.watchdogs && w.at <= b + KILL_GRACE_MS + KILL_WATCHDOG_MS)
           && s.terminalCause.Some?
  }

  ghost predicate Good(s: Task, start: int, timeoutMs: nat, leased: bool) {
    SettledOnce(s, leased) && OnTheClock(s, start, timeoutMs)
  }

  lemma AdvanceKeeps(s: Task, e: Timed, start: int, timeoutMs: nat, leased: bool)
    requires Good(s, start, timeoutMs, leased) && CanHappen(s, e)
    ensures Good(s.(now := e.time), start, timeoutMs, leased)
  {
  }

  lemma FinishKeeps(s: Task, status: Status, code: Option<int>, start: int, timeoutMs: nat, leased: bool)
    requires SettledOnce(s, leased) && !s.settled
    ensures Good(Finish(s, status, code), start, timeoutMs, leased)
  {
  }

  lemma EndsKeep(s: Task, fallback: Cause, start: int, timeoutMs: nat, leased: bool)
    requires SettledOnce(s, leased) && !s.settled
    ensures Good(FinishGone(s), start, timeoutMs, leased)
    ensures Good(FinishUnclean(s, fallback), start, timeoutMs, leased)
  {
    var gone := if s.status == Ended(Timeout) || s.status == Ended(Cancelled) then s.status.cause else Failed;
    FinishKeeps(s.(outcomeUnknown := false), Resolved(s, gone), None, start, timeoutMs, leased);
    var unclean := s.(cleanupFailed := true, outcomeUnknown := true);
    FinishKeeps(unclean, Resolved(s, fallback), None, start, timeoutMs, leased);
    hide Finish;
  }

  lemma WatchKeeps(s: Task, knownGone: bool, start: int, timeoutMs: nat, leased: bool)
    requires SettledOnce(s, leased) && !s.settled && s.terminalCause.Some? && !s.cleanupFailed && !s.outcomeUnknown
    requires start <= s.now && (s.timeoutAt.Some? ==> s.now <= s.timeoutAt.value == start + timeoutMs)
    requires s.began.Some? && start <= s.began.value <= s.now && s.began.value <= start + timeoutMs
    requires s.killAt.Some? ==> s.now <= s.killAt.value <= s.began.value + KILL_GRACE_MS
    requires forall w :: w in s.watchdogs ==> s.now <= w.at
    requires s.now <= s.began.value + KILL_GRACE_MS
      || exists w :: w in s.watchdogs && w.at <= s.began.value + KILL_GRACE_MS + KILL_WATCHDOG_MS
    ensures Good(Watching(s, knownGone), start, timeoutMs, leased)
  {
    var t := Watching(s, knownGone);
    assert t.watchdog.value in t.watchdogs;
    forall w | w in s.watchdogs ensures w in t.watchdogs {
    }
  }

  lemma KillTaskKeeps(s: Task, t: Task, a: Attempt, start: int, timeoutMs: nat, leased: bool)
    requires Good(s, start, timeoutMs, leased) && !s.settled
    requires t == s.(terminalCause := t.terminalCause, status := t.status, timeoutAt := t.timeoutAt)
    requires t.terminalCause.Some? && (t.timeoutAt == s.timeoutAt || t.timeoutAt.None?)
    ensures Good(KillTask(t, a), start, timeoutMs, leased)
  {
    EndsKeep(Begin(t).(lease := MarkSettling(t.lease)), Failed, start, timeoutMs, leased);
    hide FinishGone, FinishUnclean;
  }

  lemma ErrorKeeps(s: Task, a: Attempt, start: int, timeoutMs: nat, leased: bool)
    requires Good(s, start, timeoutMs, leased) && !s.settled
    ensures Good(OnError(s, a), start, timeoutMs, leased)
  {
    var t := Begin(s).(terminalCause := Latch(s.terminalCause, Failed), lease := MarkSettling(s.lease));
    FinishKeeps(t.(outcomeUnknown := false), Ended(Failed), None, start, timeoutMs, leased);
    EndsKeep(t, Failed, start, timeoutMs, leased);
    WatchKeeps(t, false, start, timeoutMs, leased);
    hide Finish, FinishUnclean, Watching;
  }

  lemma KillTimerKeeps(s: Task, a: Attempt, start: int, timeoutMs: nat, leased: bool)
    requires Good(s, start, timeoutMs, leased) && !s.settled && s.killAt == Some(s.now)
    ensures Good(OnKillTimer(s, a), start, timeoutMs, leased)
  {
    var t := s.(killAt := None);
    EndsKeep(t, Failed, start, timeoutMs, leased);
    WatchKeeps(t, a.sent == Gone, start, timeoutMs, leased);
    hide FinishUnclean, Watching;
  }

  lemma AfterSettled(s: Task, e: Event, start: int, timeoutMs: nat, leased: bool)
    requires Good(s, start, timeoutMs, leased) && s.settled
    ensures Good(React(s, e), start, timeoutMs, leased)
    ensures React(s, e).completions == s.completions && React(s, e).status == s.status
    ensures React(s, e).exitCode == s.exitCode && React(s, e).disposals == s.disposals
    ensures React(s, e).cleanupFailed == s.cleanupFailed && React(s, e).outcomeUnknown == s.outcomeUnknown
  {
  }

  lemma StepKeeps(s: Task, e: Timed, start: int, timeoutMs: nat, leased: bool)
    requires Good(s, start, timeoutMs, leased) && CanHappen(s, e)
    ensures Good(Next(s, e), start, timeoutMs, leased)
  {
    AdvanceKeeps(s, e, start, timeoutMs, leased);
    var t := s.(now := e.time);
    if t.settled {
      AfterSettled(t, e.event, start, timeoutMs, leased);
      return;
    }
    hide KillTask, OnError, OnKillTimer, Finish, FinishGone, FinishUnclean;
    match e.event
    case TimeoutFires(a) =>
      KillTaskKeeps(t, TimingOut(t), a, start, timeoutMs, leased);
    case StopRequest(a) =>
      KillTaskKeeps(t, Stopping(t), a, start, timeoutMs, leased);
    case ForceShutdown =>
      EndsKeep(t, Cancelled, start, timeoutMs, leased);
    case ErrorEvent(a) =>
      ErrorKeeps(t, a, start, timeoutMs, leased);
    case ExitEvent(code) =>
    case CloseEvent(code) =>
      FinishKeeps(t, CloseStatus(t, code), if code.Some? then code else t.observedExit, start, timeoutMs, leased);
    case KillTimerFires(a) =>
      KillTimerKeeps(t, a, start, timeoutMs, leased);
    case WatchdogFires(w, gone) =>
      EndsKeep(t.(watchdog := None, watchdogs := WithoutOne(t.watchdogs, w)), Failed, start, timeoutMs, leased);
  }

  lemma LeadsWell(s: Task, events: seq<Timed>, t: Task, start: int, timeoutMs: nat, leased: bool)
    requires Good(s, start, timeoutMs, leased) && Leads(s, events, t)
    ensures Good(t, start, timeoutMs, leased)
  {
    forall x: Task, e | Good(x, start, timeoutMs, leased) && CanHappen(x, e)
      ensures Good(Next(x, e), start, timeoutMs, leased)
    {
      StepKeeps(x, e, start, timeoutMs, leased);
    }
    hide Good, CanHappen, Next;
    HistoryKeeps(CanHappen, Next, (x: Task) => Good(x, start, timeoutMs, leased), s, events, t);
  }

  // ---------------------------------------------------------------- theorems

  /** A background task completes once, and its lease is released or marked unconfirmed, once, in accord
      with its cleanup flags. */
  lemma SettlesOnce(start: int, timeoutMs: nat, leased: bool, events: seq<Timed>, t: Task)
    requires Leads(Launch(start, timeoutMs, leased), events, t)
    ensures t.completions == if t.settled then 1 else 0
    ensures |t.disposals| == if t.settled && leased then 1 else 0
    ensures t.settled && leased ==> (t.disposals == [LeaseUnconfirmed] <==> t.cleanupFailed || t.outcomeUnknown)
  {
    LeadsWell(Launch(start, timeoutMs, leased), events, t, start, timeoutMs, leased);
  }

  /** An unsettled task is within its timeout or within both periods of the start of its ladder, and a
      timer that ends it by then is armed. */
  lemma SettlesInTime(start: int, timeoutMs: nat, leased: bool, events: seq<Timed>, t: Task)
    requires Leads(Launch(start, timeoutMs, leased), events, t) && !t.settled
    ensures t.began.None? ==> t.timeoutAt == Some(start + timeoutMs) && t.now <= start + timeoutMs
    ensures t.began.Some? ==>
      && t.began.value <= start + timeoutMs
      && t.now <= t.began.value + KILL_GRACE_MS + KILL_WATCHDOG_MS
      && ((t.killAt.Some? && t.killAt.value <= t.began.value + KILL_GRACE_MS)
          || exists w :: w in t.watchdogs && w.at <= t.began.value + KILL_GRACE_MS + KILL_WATCHDOG_MS)
  {
    LeadsWell(Launch(start, timeoutMs, leased), events, t, start, timeoutMs, leased);
  }

  /** When a terminated task settles, its status is the latched cause exactly unless an error event finds
      the tree gone after a timeout or a stop was latched: then it is reported as failed. */
  lemma StatusIsCauseExactly(s: Task, e: Event)
    requires !s.settled && React(s, e).settled && s.terminalCause.Some?
    ensures React(s, e).terminalCause == s.terminalCause
    ensures React(s, e).status == Ended(s.terminalCause.value) <==>
      !(e.ErrorEvent? && NothingLeft(e.attempt) && s.terminalCause != Some(Failed))
  {
    hide KillTask, OnError, OnWatchdog, OnKillTimer, WithoutOne;
    match e
    case TimeoutFires(a) =>
      KillTaskStatus(s.(timeoutAt := None, status := Ended(Timeout)), a);
    case StopRequest(a) =>
      KillTaskStatus(s.(timeoutAt := None, status := Ended(Cancelled)), a);
    case ErrorEvent(a) =>
      ErrorStatus(s, a);
    case KillTimerFires(a) =>
      KillTimerStatus(s, a);
    case WatchdogFires(w, gone) =>
      WatchdogStatus(s, w, gone);
    case _ =>
  }

  lemma KillTaskStatus(s: Task, a: Attempt)
    requires !s.settled && s.terminalCause.Some?
    ensures KillTask(s, a).terminalCause == s.terminalCause
    ensures KillTask(s, a).settled ==> KillTask(s, a).status == Ended(s.terminalCause.value)
  {
  }

  lemma ErrorStatus(s: Task, a: Attempt)
    requires !s.settled && s.terminalCause.Some?
    ensures OnError(s, a).terminalCause == s.terminalCause
    ensures OnError(s, a).settled ==>
      OnError(s, a).status == if NothingLeft(a) then Ended(Failed) else Ended(s.terminalCause.value)
  {
  }

  lemma KillTimerStatus(s: Task, a: Attempt)
    requires !s.settled && s.terminalCause.Some?
    ensures OnKillTimer(s, a).terminalCause == s.terminalCause
    ensures OnKillTimer(s, a).settled ==> OnKillTimer(s, a).status == Ended(s.terminalCause.value)
  {
  }

  lemma WatchdogStatus(s: Task, w: Watch, gone: bool)
    requires !s.settled && s.terminalCause.Some?
    ensures OnWatchdog(s, w, gone).terminalCause == s.terminalCause
    ensures OnWatchdog(s, w, gone).status == Ended(s.terminalCause.value)
  {
  }

  // over whole histories

  /** The cause an event tries to latch. */
  function CauseOf(e: Event): Option<Cause> {
    match e
    case TimeoutFires(_) => Some(Timeout)
    case StopRequest(_) => Some(Cancelled)
    case ErrorEvent(_) => Some(Failed)
    case _ => None
  }

  /** The status a task should end with when `e` settles it and `cause` was the first to come, if any did.
      An error event that finds nothing left overrides the cause. */
  function StatusBy(cause: Option<Cause>, e: Event): Status {
    match e
    case CloseEvent(code) =>
      if cause.Some? then Ended(cause.value) else if code == Some(0) then Completed else Ended(Failed)
    case ErrorEvent(a) =>
      Ended(if NothingLeft(a) || cause.None? then Failed else cause.value)
    case _ =>
      Ended(if cause.None? then Cancelled else cause.value)  // without a cause, only a forced shutdown settles
  }

  lemma SettledForGood(s: Task, events: seq<Timed>, t: Task)
    requires s.settled && Leads(s, events, t)
    ensures t.settled
  {
    HistoryKeeps(CanHappen, Next, (x: Task) => x.settled, s, events, t);
  }

  lemma EventStatus(s: Task, e: Timed, start: int, timeoutMs: nat, leased: bool)
    requires Good(s, start, timeoutMs, leased) && !s.settled && CanHappen(s, e)
    ensures var cause := if s.terminalCause.Some? then s.terminalCause else CauseOf(e.event);
      Next(s, e).terminalCause == cause && (Next(s, e).settled ==> Next(s, e).status == StatusBy(cause, e.event))
  {
    var t := s.(now := e.time);
    assert s.killAt.Some? || s.watchdogs != [] ==> s.terminalCause.Some?;
    hide SettledOnce, OnTheClock, KillTask, OnError, OnKillTimer, OnWatchdog, WithoutOne;
    match e.event
    case TimeoutFires(a) =>
      KillTaskStatus(TimingOut(t), a);
    case StopRequest(a) =>
      KillTaskStatus(Stopping(t), a);
    case ErrorEvent(a) =>
      ErrorLatches(t, a);
      ErrorStatus(t.(terminalCause := Latch(t.terminalCause, Failed)), a);
    case KillTimerFires(a) =>
      KillTimerStatus(t, a);
    case WatchdogFires(w, gone) =>
      WatchdogStatus(t, w, gone);
    case _ =>
  }

  lemma ErrorLatches(s: Task, a: Attempt)
    ensures !s.settled ==> OnError(s, a) == OnError(s.(terminalCause := Latch(s.terminalCause, Failed)), a)
  {
  }

  function ExitOf(e: Event): Option<Option<int>> {
    match e
    case ExitEvent(code) => Some(code)
    case _ => None
  }

  /** The exit code on record is that of the close, or else the one observed before; no other end of a
      task records one. */
  lemma EventExit(s: Task, e: Timed)
    requires !s.settled && s.exitCode.None?
    ensures var t := Next(s, e);
      if t.settled then
        t.exitCode == if !e.event.CloseEvent? then None else if e.event.code.Some? then e.event.code else s.observedExit
      else t.observedExit == LastExit(s.observedExit, [e], ExitOf)
  {
    var t := s.(now := e.time);
    assert [e][1..] == [];
    hide KillTask, OnError, OnKillTimer, OnWatchdog, FinishUnclean, WithoutOne;
    match e.event
    case TimeoutFires(a) =>
      KillTaskExit(TimingOut(t), a);
    case StopRequest(a) =>
      KillTaskExit(Stopping(t), a);
    case ForceShutdown =>
      UncleanExit(t, Cancelled);
    case ErrorEvent(a) =>
      ErrorExit(t, a);
    case KillTimerFires(a) =>
      KillTimerExit(t, a);
    case WatchdogFires(w, gone) =>
      WatchdogExit(t, w, gone);
    case _ =>
  }

  ghost predicate SameExit(s: Task, t: Task) {
    t.exitCode == s.exitCode && t.observedExit == s.observedExit
  }

  lemma UncleanExit(s: Task, fallback: Cause)
    ensures SameExit(s, FinishUnclean(s, fallback))
  {
  }

  lemma KillTaskExit(s: Task, a: Attempt)
    ensures SameExit(s, KillTask(s, a))
  {
  }

  lemma ErrorExit(s: Task, a: Attempt)
    ensures SameExit(s, OnError(s, a))
  {
  }

  lemma KillTimerExit(s: Task, a: Attempt)
    ensures SameExit(s, OnKillTimer(s, a))
  {
  }

  lemma WatchdogExit(s: Task, w: Watch, gone: bool)
    ensures SameExit(s, OnWatchdog(s, w, gone))
  {
  }

  /** Until a task settles, its latched cause is that of the first event that brought one, and its exit
      code that of the last exit event. */
  lemma {:induction false} FirstCauseLatched(
      s: Task, events: seq<Timed>, t: Task, start: int, timeoutMs: nat, leased: bool)
    requires Good(s, start, timeoutMs, leased) && Leads(s, events, t) && !t.settled
    ensures t.terminalCause == if s.terminalCause.Some? then s.terminalCause else FirstCause(events, CauseOf)
    ensures t.observedExit == LastExit(s.observedExit, events, ExitOf)
    decreases |events|
  {
    hide Next, OnTheClock, CanHappen;
    if s.settled {
      SettledForGood(s, events, t);
    } else if events != [] {
      var next := Next(s, events[0]);
      EventStatus(s, events[0], start, timeoutMs, leased);
      EventExit(s, events[0]);
      assert [events[0]][1..] == [];
      StepKeeps(s, events[0], start, timeoutMs, leased);
      hide SettledOnce;
      if next.settled { SettledForGood(next, events[1..], t); }
      FirstCauseLatched(next, events[1..], t, start, timeoutMs, leased);
    }
  }

  /** The exit code a task should have on record when `e` settles it after `events`. */
  function CodeBy(events: seq<Timed>, e: Event): Option<int> {
    if !e.CloseEvent? then None
    else if e.code.Some? then e.code
    else LastExit(None, events, ExitOf)
  }

  // what the answers of the system decide

  predicate Begins(e: Event) { e.TimeoutFires? || e.StopRequest? || e.ErrorEvent? }
  predicate IsError(e: Event) { e.ErrorEvent? }
  predicate IsKill(e: Event) { e.KillTimerFires? }
  predicate ClearsTimeout(e: Event) { e.TimeoutFires? || e.StopRequest? }

  /** Whether an event settles a task whose termination has begun, or has not. */
  predicate Settles(begun: bool, e: Event) {
    match e
    case TimeoutFires(a) => !begun && EndsLadder(a)
    case StopRequest(a) => !begun && EndsLadder(a)
    case ErrorEvent(a) => EndsLadder(a)
    case KillTimerFires(a) => a.sent != Delivered && a.sent != Gone  // a look at the tree comes later
    case ExitEvent(_) => false
    case _ => true
  }

  /** Whether a task settled by an event counts as not cleaned up. */
  predicate UncleanBy(e: Event) {
    match e
    case TimeoutFires(a) => MayBeAlive(a)
    case StopRequest(a) => MayBeAlive(a)
    case ErrorEvent(a) => MayBeAlive(a)
    case KillTimerFires(_) => true
    case ForceShutdown => true
    case WatchdogFires(w, gone) => !w.knownGone && !gone
    case _ => false
  }

  ghost predicate Ends(t: Task, unclean: bool) {
    t.settled && t.cleanupFailed == t.outcomeUnknown == unclean
  }

  lemma EndsSay(s: Task, status: Status, code: Option<int>, fallback: Cause)
    requires !s.settled && !s.cleanupFailed && !s.outcomeUnknown
    ensures Ends(Finish(s, status, code), false) && Ends(FinishGone(s), false) && Ends(FinishUnclean(s, fallback), true)
  {
  }

  lemma KillTaskSays(s: Task, a: Attempt)
    requires !s.settled && !s.cleanupFailed && !s.outcomeUnknown
    ensures s.killAt.Some? || s.watchdog.Some? ==> KillTask(s, a) == s
    ensures s.killAt.None? && s.watchdog.None? ==>
      if EndsLadder(a) then Ends(KillTask(s, a), MayBeAlive(a))
      else KillTask(s, a) == Begin(s).(lease := MarkSettling(s.lease), killAt := Some(s.now + KILL_GRACE_MS))
  {
    EndsSay(Begin(s).(lease := MarkSettling(s.lease)), Running, None, Failed);
    hide Finish, FinishGone, FinishUnclean;
  }

  lemma ErrorSays(s: Task, a: Attempt)
    requires !s.settled && !s.cleanupFailed && !s.outcomeUnknown
    ensures var t := Begin(s).(terminalCause := Latch(s.terminalCause, Failed), lease := MarkSettling(s.lease));
      if EndsLadder(a) then Ends(OnError(s, a), MayBeAlive(a)) else OnError(s, a) == Watching(t, false)
  {
    var t := Begin(s).(terminalCause := Latch(s.terminalCause, Failed), lease := MarkSettling(s.lease));
    EndsSay(t, Ended(Failed), None, Failed);
    EndsSay(t.(outcomeUnknown := false), Ended(Failed), None, Failed);
    hide Finish, FinishGone, FinishUnclean;
  }

  lemma KillTimerSays(s: Task, a: Attempt)
    requires !s.settled && !s.cleanupFailed && !s.outcomeUnknown
    ensures if a.sent != Delivered && a.sent != Gone then Ends(OnKillTimer(s, a), true)
            else OnKillTimer(s, a) == Watching(s.(killAt := None), a.sent == Gone)
  {
    EndsSay(s.(killAt := None), Running, None, Failed);
    hide Finish, FinishGone, FinishUnclean;
  }

  lemma WatchdogSays(s: Task, w: Watch, gone: bool)
    requires !s.settled && !s.cleanupFailed && !s.outcomeUnknown
    ensures Ends(OnWatchdog(s, w, gone), !w.knownGone && !gone)
  {
    EndsSay(s.(watchdog := None, watchdogs := WithoutOne(s.watchdogs, w)), Running, None, Failed);
    hide Finish, FinishGone, FinishUnclean, WithoutOne;
  }

  /** One event settles an unsettled task exactly when the system's answer leaves nothing to wait for, and the
      cleanup flags say exactly what that answer was. */
  lemma EventSays(s: Task, e: Timed, start: int, timeoutMs: nat, leased: bool)
    requires Good(s, start, timeoutMs, leased) && !s.settled && CanHappen(s, e)
    ensures Next(s, e).settled <==> Settles(s.began.Some?, e.event)
    ensures Next(s, e).settled ==> Ends(Next(s, e), UncleanBy(e.event))
  {
    var t := s.(now := e.time);
    assert s.began.Some? <==> s.killAt.Some? || s.watchdog.Some?;
    assert !t.cleanupFailed && !t.outcomeUnknown;
    hide SettledOnce, OnTheClock, KillTask, OnError, OnKillTimer, OnWatchdog, EndsLadder, MayBeAlive;
    hide Finish, FinishUnclean, WithoutOne;
    match e.event
    case TimeoutFires(a) => KillTaskSays(TimingOut(t), a);
    case StopRequest(a) => KillTaskSays(Stopping(t), a);
    case ForceShutdown => EndsSay(t, Running, None, Cancelled);
    case ErrorEvent(a) => ErrorSays(t, a);
    case ExitEvent(code) =>
    case CloseEvent(code) => EndsSay(t, CloseStatus(t, code), if code.Some? then code else t.observedExit, Failed);
    case KillTimerFires(a) => KillTimerSays(t, a);
    case WatchdogFires(w, gone) => WatchdogSays(t, w, gone);
  }

  /** The watchdogs that error events and kill timers have armed, in order. */
  function Watches(events: seq<Timed>): seq<Watch> {
    if events == [] then []
    else
      Watches(events[..|events| - 1]) + WatchOf(events[|events| - 1])
  }

  function WatchOf(e: Timed): seq<Watch> {
    match e.event
    case ErrorEvent(_) => [Watch(e.time + KILL_WATCHDOG_MS, false)]
    case KillTimerFires(a) => [Watch(e.time + KILL_WATCHDOG_MS, a.sent == Gone)]
    case _ => []
  }

  /** What an unsettled task shows: the last of timeout and stop request to come, and else that it runs. */
  function StatusShown(events: seq<Timed>): Status {
    if events == [] then Running
    else
      match events[|events| - 1].event
      case TimeoutFires(_) => Ended(Timeout)
      case StopRequest(_) => Ended(Cancelled)
      case _ => StatusShown(events[..|events| - 1])
  }

  /** The timers, the lease and the status that a history calls for before settlement. TERM is followed by KILL
      after the whole grace period and not before, KILL by the watchdog after the whole of its own. */
  ghost predicate ClockOf(events: seq<Timed>, s: Task, start: int, timeoutMs: nat, leased: bool) {
    var first := FirstOf(events, Begins);
    var error := first.Some? && first.value.event.ErrorEvent?;
    && s.timeoutAt == (if Count(events, ClearsTimeout) == 0 then Some(start + timeoutMs) else None)
    && s.began == TimeOf(first)
    && s.killAt == (if Count(events, IsKill) > 0 || error then None else Later(TimeOf(first), KILL_GRACE_MS))
    && (Count(events, IsKill) > 0 ==> s.began.Some?)
    && s.watchdogs == Watches(events)
    && s.watchdog == (if s.watchdogs == [] then None else Some(s.watchdogs[|s.watchdogs| - 1]))
    && s.lease == (if !leased then None else Some(if first.None? then Active else Settling))
    && s.status == StatusShown(events)
  }

  ghost predicate Told(events: seq<Timed>, s: Task, start: int, timeoutMs: nat, leased: bool) {
    Good(s, start, timeoutMs, leased) && (s.settled || ClockOf(events, s, start, timeoutMs, leased))
  }

  /** What an event does to an unsettled task that stays unsettled. */
  ghost predicate Waits(s: Task, e: Timed, t: Task) {
    var begun := s.began.Some?;
    && t.timeoutAt == (if ClearsTimeout(e.event) then None else s.timeoutAt)
    && t.began == (if begun || !Begins(e.event) then s.began else Some(e.time))
    && t.killAt == (if !begun && Begins(e.event) && !IsError(e.event) then Some(e.time + KILL_GRACE_MS)
                    else if IsKill(e.event) then None else s.killAt)
    && t.watchdogs == s.watchdogs + WatchOf(e)
    && t.watchdog == (if WatchOf(e) != [] then Some(WatchOf(e)[0]) else s.watchdog)
    && t.lease == (if IsError(e.event) || (!begun && Begins(e.event)) then MarkSettling(s.lease) else s.lease)
    && t.status == (match e.event
                    case TimeoutFires(_) => Ended(Timeout)
                    case StopRequest(_) => Ended(Cancelled)
                    case _ => s.status)
  }

  lemma EventWaits(s: Task, e: Timed, start: int, timeoutMs: nat, leased: bool)
    requires Good(s, start, timeoutMs, leased) && !s.settled && CanHappen(s, e) && !Next(s, e).settled
    ensures Waits(s, e, Next(s, e))
  {
    var t := s.(now := e.time);
    assert s.began.Some? <==> s.killAt.Some? || s.watchdog.Some?;
    assert !t.cleanupFailed && !t.outcomeUnknown;
    EventSays(s, e, start, timeoutMs, leased);
    hide SettledOnce, OnTheClock, KillTask, OnError, OnKillTimer, EndsLadder, MayBeAlive, Ends;
    match e.event
    case TimeoutFires(a) => KillTaskSays(TimingOut(t), a);
    case StopRequest(a) => KillTaskSays(Stopping(t), a);
    case ErrorEvent(a) => ErrorSays(t, a);
    case KillTimerFires(a) => KillTimerSays(t, a);
    case ExitEvent(_) =>
  }

  lemma ClockNext(events: seq<Timed>, s: Task, e: Timed, t: Task, start: int, timeoutMs: nat, leased: bool)
    requires ClockOf(events, s, start, timeoutMs, leased) && Waits(s, e, t)
    requires IsKill(e.event) ==> s.killAt.Some? && s.began.Some?
    ensures ClockOf(events + [e], t, start, timeoutMs, leased)
  {
    FirstOfNext(events, e, Begins);
    CountNext(events, e, ClearsTimeout);
    CountNext(events, e, IsKill);
    assert (events + [e])[..|events|] == events;
    hide FirstOf, Count;
  }

  lemma EventTold(events: seq<Timed>, s: Task, e: Timed, start: int, timeoutMs: nat, leased: bool)
    requires Told(events, s, start, timeoutMs, leased) && CanHappen(s, e)
    ensures Told(events + [e], Next(s, e), start, timeoutMs, leased)
  {
    StepKeeps(s, e, start, timeoutMs, leased);
    if s.settled {
      SettledStays(s, e);
    } else if !Next(s, e).settled {
      EventWaits(s, e, start, timeoutMs, leased);
      assert IsKill(e.event) ==> s.killAt.Some? && s.began.Some?;
      hide Good, Next, CanHappen, ClockOf, Waits;
      ClockNext(events, s, e, Next(s, e), start, timeoutMs, leased);
    }
  }

  lemma SettledStays(s: Task, e: Timed)
    requires s.settled
    ensures Next(s, e).settled
  {
  }

  lemma ToldClock(events: seq<Timed>, s: Task, start: int, timeoutMs: nat, leased: bool)
    requires Told(events, s, start, timeoutMs, leased) && !s.settled
    ensures ClockOf(events, s, start, timeoutMs, leased)
  {
  }

  /** In every history the timers, the lease and the status of an unsettled task are those the history calls
      for. */
  lemma ClockOfHistory(start: int, timeoutMs: nat, leased: bool, events: seq<Timed>, s: Task)
    requires Leads(Launch(start, timeoutMs, leased), events, s) && !s.settled
    ensures ClockOf(events, s, start, timeoutMs, leased)
  {
    var tells := (es: seq<Timed>, x: Task) => Told(es, x, start, timeoutMs, leased);
    forall es, x, e | tells(es, x) && CanHappen(x, e) ensures tells(es + [e], Next(x, e)) {
      EventTold(es, x, e, start, timeoutMs, leased);
    }
    assert Told([], Launch(start, timeoutMs, leased), start, timeoutMs, leased);
    hide Told, CanHappen, Next;
    HistoryTells(CanHappen, Next, tells, [], Launch(start, timeoutMs, leased), events, s);
    assert [] + events == events;
    ToldClock(events, s, start, timeoutMs, leased);
  }

  /** In every history an event settles the task exactly when it is forced, a close or a watchdog, or carries
      an answer that leaves nothing to wait for and is not refused because termination has begun. */
  lemma SettlesExactly(start: int, timeoutMs: nat, leased: bool, events: seq<Timed>, s: Task, e: Timed)
    requires Leads(Launch(start, timeoutMs, leased), events, s) && !s.settled && CanHappen(s, e)
    ensures Next(s, e).settled <==> Settles(FirstOf(events, Begins).Some?, e.event)
  {
    LeadsWell(Launch(start, timeoutMs, leased), events, s, start, timeoutMs, leased);
    ClockOfHistory(start, timeoutMs, leased, events, s);
    EventSays(s, e, start, timeoutMs, leased);
    hide Next, CanHappen, Good;
  }

  /** What an ended task shows. */
  ghost predicate SameEnd(s: Task, t: Task) {
    && t.settled && t.status == s.status && t.exitCode == s.exitCode && t.disposals == s.disposals
    && t.cleanupFailed == s.cleanupFailed && t.outcomeUnknown == s.outcomeUnknown
  }

  /** The end of a task stands. */
  lemma ResultStands(s: Task, events: seq<Timed>, t: Task, start: int, timeoutMs: nat, leased: bool)
    requires Good(s, start, timeoutMs, leased) && s.settled && Leads(s, events, t)
    ensures SameEnd(s, t)
  {
    var stands := (x: Task) => Good(x, start, timeoutMs, leased) && SameEnd(s, x);
    forall x, e | stands(x) && CanHappen(x, e) ensures stands(Next(x, e)) {
      StepKeeps(x, e, start, timeoutMs, leased);
      AdvanceKeeps(x, e, start, timeoutMs, leased);
      AfterSettled(x.(now := e.time), e.event, start, timeoutMs, leased);
      SettledStays(x, e);
    }
    hide Good, CanHappen, Next;
    HistoryKeeps(CanHappen, Next, stands, s, events, t);
  }

  /** A task ends with the status its history calls for, that of the first of timeout, stop and error to
      come, the settling event included; with the exit code of its close, or else the last observed; and with
      cleanup flags, hence a lease, that say exactly what the answer that settled it was. */
  lemma StatusOfHistory(start: int, timeoutMs: nat, leased: bool, events: seq<Timed>, s: Task, e: Timed)
    requires Leads(Launch(start, timeoutMs, leased), events, s) && !s.settled
    requires CanHappen(s, e) && Next(s, e).settled
    ensures Next(s, e).status ==
      StatusBy(if FirstCause(events, CauseOf).Some? then FirstCause(events, CauseOf) else CauseOf(e.event), e.event)
    ensures Next(s, e).exitCode == CodeBy(events, e.event)
    ensures Next(s, e).cleanupFailed == Next(s, e).outcomeUnknown == UncleanBy(e.event)
    ensures Next(s, e).disposals ==
      if !leased then [] else [if UncleanBy(e.event) then LeaseUnconfirmed else LeaseReleased]
  {
    LeadsWell(Launch(start, timeoutMs, leased), events, s, start, timeoutMs, leased);
    FirstCauseLatched(Launch(start, timeoutMs, leased), events, s, start, timeoutMs, leased);
    EventStatus(s, e, start, timeoutMs, leased);
    EventExit(s, e);
    EventSays(s, e, start, timeoutMs, leased);
    StepKeeps(s, e, start, timeoutMs, leased);
    hide Next, OnTheClock, CanHappen, Leads;
  }

  /** Completed and exit code 0 on record mean the same exactly unless the process closes with code 0 on
      record and either a timeout, stop or error came before or the close itself brought no code. */
  lemma ExitZeroExactly(start: int, timeoutMs: nat, leased: bool, events: seq<Timed>, s: Task, e: Timed)
    requires Leads(Launch(start, timeoutMs, leased), events, s) && !s.settled
    requires CanHappen(s, e) && Next(s, e).settled
    ensures (Next(s, e).status == Completed <==> Next(s, e).exitCode == Some(0)) <==>
      !(CodeBy(events, e.event) == Some(0) && (FirstCause(events, CauseOf).Some? || e.event.code.None?))
  {
    StatusOfHistory(start, timeoutMs, leased, events, s, e);
    hide Next, CanHappen, Leads;
  }

  /** A stopped task whose error event finds the tree gone ends as failed. */
  lemma StoppedButFailed(start: int)
    ensures var a, b := At(start, StopRequest(Attempt(Delivered, false))), At(start, ErrorEvent(Attempt(Gone, true)));
      var t := Next(Next(Launch(start, 5000, true), a), b);
      && Leads(Launch(start, 5000, true), [a, b], t)
      && t.settled && t.terminalCause == Some(Cancelled) && t.status == Ended(Failed)
  {
    var a, b := At(start, StopRequest(Attempt(Delivered, false))), At(start, ErrorEvent(Attempt(Gone, true)));
    TwoEvents(Launch(start, 5000, true), a, b);
  }

  /** A close without a code after an exit with code 0 ends as failed with exit code 0. */
  lemma FailedWithExitZero(start: int)
    ensures var a, b := At(start, ExitEvent(Some(0))), At(start, CloseEvent(None));
      var t := Next(Next(Launch(start, 5000, true), a), b);
      && Leads(Launch(start, 5000, true), [a, b], t)
      && t.settled && t.status == Ended(Failed) && t.exitCode == Some(0)
  {
    var a, b := At(start, ExitEvent(Some(0))), At(start, CloseEvent(None));
    TwoEvents(Launch(start, 5000, true), a, b);
  }

  lemma TwoEvents(s: Task, a: Timed, b: Timed)
    requires CanHappen(s, a) && CanHappen(Next(s, a), b)
    ensures Leads(s, [a, b], Next(Next(s, a), b))
  {
    hide CanHappen, Next;
    var t := Next(Next(s, a), b);
    assert [a, b][1..] == [b] && [b][1..] == [];
    assert Leads(t, [], t);
    assert Leads(Next(s, a), [b], t);
  }

  // ---------------------------------------------------------------- watchdogs

  /** The variable, when set, refers to an armed watchdog. */
  ghost predicate Refers(s: Task) {
    s.watchdog.Some? ==> s.watchdog.value in s.watchdogs
  }

  /** `t` settled with the variable's watchdog cleared, if `s` had one; or it did not, with `more` armed. */
  ghost predicate Armed(s: Task, t: Task, more: nat) {
    if t.settled then |t.watchdogs| == |s.watchdogs| - (if s.watchdog.Some? then 1 else 0)
    else
      && |t.watchdogs| == |s.watchdogs| + more && t.killAt == s.killAt
      && (t.watchdog.Some? <==> s.watchdog.Some? || more > 0)
  }

  lemma EndArms(s: Task, status: Status, code: Option<int>, fallback: Cause)
    requires !s.settled && Refers(s)
    ensures Armed(s, Finish(s, status, code), 0) && Finish(s, status, code).settled
    ensures Armed(s, FinishGone(s), 0) && FinishGone(s).settled
    ensures Armed(s, FinishUnclean(s, fallback), 0) && FinishUnclean(s, fallback).settled
  {
  }

  lemma KillTaskArms(s: Task, a: Attempt)
    requires !s.settled && Refers(s)
    ensures var t := KillTask(s, a);
      if s.watchdog.Some? then t == s else t.watchdogs == s.watchdogs && t.watchdog.None?
  {
  }

  lemma ErrorArms(s: Task, a: Attempt)
    requires !s.settled && Refers(s)
    ensures Armed(s, OnError(s, a), 1)
  {
    var t := Begin(s).(terminalCause := Latch(s.terminalCause, Failed), lease := MarkSettling(s.lease));
    EndArms(t, Ended(Failed), None, Failed);
    EndArms(t.(outcomeUnknown := false), Ended(Failed), None, Failed);
    hide Finish, FinishUnclean;
  }

  lemma KillTimerArms(s: Task, a: Attempt)
    requires !s.settled && Refers(s)
    ensures Armed(s.(killAt := None), OnKillTimer(s, a), 1)
  {
    EndArms(s.(killAt := None), Ended(Failed), None, Failed);
    hide FinishUnclean;
  }

  lemma WatchdogArms(s: Task, w: Watch, gone: bool)
    requires !s.settled && w in s.watchdogs
    ensures OnWatchdog(s, w, gone).settled && |OnWatchdog(s, w, gone).watchdogs| == |s.watchdogs| - 1
  {
    EndArms(s.(watchdog := None, watchdogs := WithoutOne(s.watchdogs, w)), Ended(Failed), None, Failed);
    hide FinishGone, FinishUnclean;
  }

  /** What one event does to the armed watchdogs and the kill timer of an unsettled task. */
  lemma EventArms(s: Task, e: Timed, start: int, timeoutMs: nat, leased: bool)
    requires Good(s, start, timeoutMs, leased) && !s.settled && CanHappen(s, e)
    ensures var t := Next(s, e);
      if t.settled then |t.watchdogs| == if s.watchdogs == [] then 0 else |s.watchdogs| - 1
      else
        && |t.watchdogs| == |s.watchdogs| + (if IsError(e.event) then 1 else 0) + (if IsKill(e.event) then 1 else 0)
        && (IsKill(e.event) || (s.killAt.None? && s.watchdog.Some?) ==> t.killAt.None? && t.watchdog.Some?)
        && (IsKill(e.event) ==> s.killAt.Some?)
  {
    var t := s.(now := e.time);
    assert Refers(t) && (s.watchdogs != [] <==> s.watchdog.Some?);
    hide SettledOnce, OnTheClock, KillTask, OnError, OnKillTimer, OnWatchdog, Finish, FinishUnclean, WithoutOne;
    match e.event
    case TimeoutFires(a) =>
      KillTaskArms(TimingOut(t), a);
    case StopRequest(a) =>
      KillTaskArms(Stopping(t), a);
    case ForceShutdown =>
      EndArms(t, Ended(Failed), None, Cancelled);
    case ErrorEvent(a) =>
      ErrorArms(t, a);
    case ExitEvent(code) =>
    case CloseEvent(code) =>
      EndArms(t, CloseStatus(t, code), if code.Some? then code else t.observedExit, Failed);
    case KillTimerFires(a) =>
      KillTimerArms(t, a);
    case WatchdogFires(w, gone) =>
      WatchdogArms(t, w, gone);
  }

  lemma {:induction false} WatchdogsCounted(
      s: Task, events: seq<Timed>, t: Task, start: int, timeoutMs: nat, leased: bool)
    requires Good(s, start, timeoutMs, leased) && Leads(s, events, t) && !t.settled
    ensures |t.watchdogs| == |s.watchdogs| + Count(events, IsError) + Count(events, IsKill)
    ensures Count(events, IsKill) <= if s.killAt.None? && s.watchdog.Some? then 0 else 1
    decreases |events|
  {
    hide Next, Good, CanHappen;
    if s.settled {
      SettledForGood(s, events, t);
    } else if events != [] {
      var next := Next(s, events[0]);
      EventArms(s, events[0], start, timeoutMs, leased);
      StepKeeps(s, events[0], start, timeoutMs, leased);
      if next.settled { SettledForGood(next, events[1..], t); }
      WatchdogsCounted(next, events[1..], t, start, timeoutMs, leased);
    }
  }

  /** As many watchdogs are armed before settlement as error events and kill timers have come, and at most
      one kill timer comes: so with one error event there are never more than two, and two exactly when
      both have come. Settlement clears one of them: a watchdog outlives it exactly when two or more were
      armed. */
  lemma WatchdogsExactly(start: int, timeoutMs: nat, leased: bool, events: seq<Timed>, s: Task, e: Timed)
    requires Leads(Launch(start, timeoutMs, leased), events, s) && !s.settled && CanHappen(s, e)
    ensures |s.watchdogs| == Count(events, IsError) + Count(events, IsKill) && Count(events, IsKill) <= 1
    ensures Next(s, e).settled ==>
      (Next(s, e).watchdogs != [] <==> Count(events, IsError) + Count(events, IsKill) >= 2)
  {
    LeadsWell(Launch(start, timeoutMs, leased), events, s, start, timeoutMs, leased);
    WatchdogsCounted(Launch(start, timeoutMs, leased), events, s, start, timeoutMs, leased);
    EventArms(s, e, start, timeoutMs, leased);
    hide Next, Good, CanHappen;
  }

  /** Two watchdogs can be armed at once, the earlier one forgotten by the variable, and that one outlives
      the settlement: a stop, an error late in the grace period, the end of that period, then the close. */
  lemma TwoWatchdogs(start: int)
    ensures var sent := Attempt(Delivered, false);
      var a, b := At(start, StopRequest(sent)), At(start + 1500, ErrorEvent(sent));
      var c, d := At(start + 2000, KillTimerFires(sent)), At(start + 2000, CloseEvent(None));
      var t := Next(Next(Next(Launch(start, 5000, true), a), b), c);
      && Leads(Launch(start, 5000, true), [a, b, c], t)
      && t.watchdogs == [Watch(start + 2500, false), Watch(start + 3000, false)]
      && t.watchdog == Some(Watch(start + 3000, false)) && !t.settled
      && CanHappen(t, d) && Next(t, d).settled && Next(t, d).watchdogs == [Watch(start + 2500, false)]
  {
    var sent := Attempt(Delivered, false);
    var a, b := At(start, StopRequest(sent)), At(start + 1500, ErrorEvent(sent));
    var c, d := At(start + 2000, KillTimerFires(sent)), At(start + 2000, CloseEvent(None));
    var s := Launch(start, 5000, true);
    KillTaskSays(Stopping(s), sent);
    hide KillTask, OnError, OnKillTimer, Ends;
    var s1 := Next(s, a);
    assert s1.killAt == Some(start + 2000) && s1.watchdogs == [];
    ErrorSays(s1.(now := start + 1500), sent);
    var s2 := Next(s1, b);
    assert s2.killAt == Some(start + 2000) && s2.watchdogs == [Watch(start + 2500, false)];
    assert CanHappen(s, a);
    KillTimerSays(s2.(now := start + 2000), sent);
    assert [a, b, c][1..] == [b, c];
    TwoEvents(s1, b, c);
    CloseForgets(Next(s2, c), d, Watch(start + 2500, false), Watch(start + 3000, false));
    hide OnClose;
  }

  lemma CloseForgets(s: Task, e: Timed, first: Watch, second: Watch)
    requires !s.settled && s.watchdogs == [first, second] && s.watchdog == Some(second) && first != second
    requires e.event.CloseEvent?
    ensures Next(s, e).settled && Next(s, e).watchdogs == [first]
  {
    assert [first, second][1..] == [second] && [second][1..] == [];
  }

  // ---------------------------------------------------------------- the task's fields

  class BgTask {
    var now: int
    var settled: bool
    ghost var began: Option<int>
    var timeoutAt: Option<int>
    var killAt: Option<int>
    var watchdog: Option<Watch>
    var watchdogs: seq<Watch>
    var terminalCause: Option<Cause>
    var status: Status
    var cleanupFailed: bool
    var outcomeUnknown: bool
    var observedExit: Option<int>
    var exitCode: Option<int>
    var ownedHandle: Option<LeaseState>
    var completions: nat
    var disposals: seq<Disposal>

    ghost function State(): Task
      reads this
    {
      Task(now, settled, began, timeoutAt, killAt, watchdog, watchdogs, terminalCause, status, cleanupFailed,
           outcomeUnknown, observedExit, exitCode, ownedHandle, completions, disposals)
    }

    constructor (start: int, timeoutMs: nat, leased: bool)
      ensures State() == Launch(start, timeoutMs, leased)
    {
      now, settled, began := start, false, None;
      timeoutAt, killAt, watchdog, watchdogs := Some(start + timeoutMs), None, None, [];
      terminalCause, status, cleanupFailed, outcomeUnknown := None, Running, false, false;
      observedExit, exitCode := None, None;
      ownedHandle := if leased then Some(Active) else None;
      completions, disposals := 0, [];
    }

    method SettleOwned()
      modifies this`ownedHandle, this`disposals
      ensures State() == old(State()).(
        lease := None, disposals := GivenUp(old(disposals), old(ownedHandle), cleanupFailed || outcomeUnknown))
    {
      if ownedHandle.Some? {
        disposals := disposals + [if cleanupFailed || outcomeUnknown then LeaseUnconfirmed else LeaseReleased];
        ownedHandle := None;
      }
    }

    method ClearTimers()
      modifies this`timeoutAt, this`killAt, this`watchdog, this`watchdogs
      ensures State() == old(State()).(
        timeoutAt := None, killAt := None, watchdog := None, watchdogs := Cleared(old(watchdogs), old(watchdog)))
    {
      watchdogs := Cleared(watchdogs, watchdog);
      timeoutAt, killAt, watchdog := None, None, None;
    }

    method Record(status': Status, code: Option<int>)
      modifies this`settled, this`status, this`exitCode
      ensures State() == old(State()).(
        settled := true, status := status', exitCode := if code.Some? then code else old(exitCode))
    {
      settled, status := true, status';
      if code.Some? { exitCode := code; }
    }

    method ResolveCompletion()
      modifies this`completions
      ensures State() == old(State()).(completions := old(completions) + 1)
    {
      completions := completions + 1;
    }

    method FinishWith(status': Status, code: Option<int>)
      modifies this
      ensures State() == Finish(old(State()), status', code)
    {
      hide Cleared, GivenUp;
      if settled { return; }
      Record(status', code);
      ClearTimers();
      SettleOwned();
      ResolveCompletion();
    }

    method TerminateGone()
      modifies this
      ensures State() == FinishGone(old(State()))
    {
      outcomeUnknown := false;
      var fallback := if status == Ended(Timeout) || status == Ended(Cancelled) then status.cause else Failed;
      FinishWith(Ended(if terminalCause.Some? then terminalCause.value else fallback), None);
    }

    method MarkCleanupFailed(fallback: Cause)
      modifies this
      ensures State() == FinishUnclean(old(State()), fallback)
    {
      if settled { return; }
      cleanupFailed, outcomeUnknown := true, true;
      FinishWith(Ended(if terminalCause.Some? then terminalCause.value else fallback), None);
    }

    method WatchForTaskExit(knownGone: bool)
      modifies this`watchdog, this`watchdogs
      ensures State() == Watching(old(State()), knownGone)
    {
      watchdog := Some(Watch(now + KILL_WATCHDOG_MS, knownGone));
      watchdogs := watchdogs + [watchdog.value];
    }

    method Kill(a: Attempt)
      modifies this
      ensures State() == KillTask(old(State()), a)
    {
      if settled || killAt.Some? || watchdog.Some? { return; }
      began := if began.None? then Some(now) else began;
      ownedHandle := MarkSettling(ownedHandle);
      if NothingLeft(a) {
        TerminateGone();
      } else if !SignalDelivered(a) {
        MarkCleanupFailed(Failed);
      } else {
        killAt := Some(now + KILL_GRACE_MS);
      }
    }

    method Errored(a: Attempt)
      modifies this
      ensures State() == OnError(old(State()), a)
    {
      hide Finish, FinishUnclean, WithoutOne;
      if settled { return; }
      began := if began.None? then Some(now) else began;
      terminalCause, ownedHandle := Latch(terminalCause, Failed), MarkSettling(ownedHandle);
      if NothingLeft(a) {
        outcomeUnknown := false;
        FinishWith(Ended(Failed), None);
      } else if !SignalDelivered(a) {
        MarkCleanupFailed(Failed);
      } else {
        WatchForTaskExit(false);
      }
    }

    method KillTimerFired(a: Attempt)
      modifies this
      ensures State() == OnKillTimer(old(State()), a)
    {
      killAt := None;
      if settled { return; }
      if a.sent != Delivered && a.sent != Gone {
        MarkCleanupFailed(Failed);
        return;
      }
      if a.sent == Gone { outcomeUnknown := false; }
      WatchForTaskExit(a.sent == Gone);
    }

    method WatchdogFired(w: Watch, treeGone: bool)
      modifies this
      ensures State() == OnWatchdog(old(State()), w, treeGone)
    {
      watchdog, watchdogs := None, WithoutOne(watchdogs, w);
      if settled { return; }
      if w.knownGone || treeGone { TerminateGone(); } else { MarkCleanupFailed(Failed); }
    }

    method TimedOut(a: Attempt)
      modifies this
      ensures State() == React(old(State()), TimeoutFires(a))
    {
      hide KillTask;
      timeoutAt := None;
      if settled { return; }
      terminalCause, status := Latch(terminalCause, Timeout), Ended(Timeout);
      Kill(a);
    }

    method Stop(a: Attempt)
      modifies this
      ensures State() == React(old(State()), StopRequest(a))
    {
      hide KillTask;
      if settled { return; }
      terminalCause, status, timeoutAt := Latch(terminalCause, Cancelled), Ended(Cancelled), None;
      Kill(a);
    }

    method Closed(code: Option<int>)
      modifies this
      ensures State() == React(old(State()), CloseEvent(code))
    {
      hide Finish;
      if settled { return; }
      var status' := if terminalCause.Some? then Ended(terminalCause.value)
                     else if code == Some(0) then Completed else Ended(Failed);
      FinishWith(status', if code.Some? then code else observedExit);
    }

    /** One event, whichever listener, timer or tool call it reaches. */
    method Handle(e: Timed)
      modifies this
      ensures State() == Next(old(State()), e)
    {
      hide KillTask, OnClose, FinishUnclean, OnError, OnKillTimer, OnWatchdog;
      now := e.time;
      match e.event {
        case TimeoutFires(a) => TimedOut(a);
        case StopRequest(a) => Stop(a);
        case ForceShutdown => MarkCleanupFailed(Cancelled);
        case ErrorEvent(a) => Errored(a);
        case ExitEvent(code) => if !settled { observedExit := code; }
        case CloseEvent(code) => Closed(code);
        case KillTimerFires(a) => KillTimerFired(a);
        case WatchdogFires(w, gone) => WatchdogFired(w, gone);
      }
    }
  }
}
