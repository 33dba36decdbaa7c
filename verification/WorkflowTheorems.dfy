/** What `Workflow.Final`, the state in which the scheduling loop stops, implies for every workflow,
    mode, concurrency limit and outcome of each step. */
module WorkflowTheorems {
  import opened Sequences
  import opened Sorting
  import opened Workflow

  lemma ChainSuffix(steps: seq<Step>, p: seq<string>, k: nat)
    requires Chain(steps, p) && k < |p|
    ensures Chain(steps, p[k..])
  {
    var q := p[k..];
    forall i | 0 <= i < |q| - 1 ensures DependsOn(steps, q[i], q[i + 1]) {
      assert q[i] == p[k + i] && q[i + 1] == p[(k + i) + 1];
    }
  }

  lemma ChainExtend(steps: seq<Step>, p: seq<string>, d: string)
    requires Chain(steps, p) && DependsOn(steps, p[|p| - 1], d)
    ensures Chain(steps, p + [d])
  {
  }

  // ---------------------------------------------------------------- what ran, ran on successes

  lemma RanIsRunnable(steps: seq<Step>, outcome: string -> Outcome, run: Run, r: StepResult)
    requires Inv(steps, outcome, run) && r in run.results
    ensures r.step in Names(steps) && r.outcome == outcome(r.step)
    ensures Runnable(steps, r.step, run.completed)
  {
    var i :| 0 <= i < |run.results| && run.results[i] == r;
    forall d | DependsOn(steps, r.step, d) ensures d in run.completed {
      assert HasSucceeded(run.results, d, i);
      assert StepResult(d, Succeeded) in run.results;
    }
  }

  /** A step that ran has no dependency path to a failed step. */
  lemma {:induction false} RanLeadsToNoFailure(
      steps: seq<Step>, outcome: string -> Outcome, run: Run, r: StepResult, p: seq<string>)
    requires Inv(steps, outcome, run) && r in run.results
    requires Chain(steps, p) && |p| >= 2 && p[0] == r.step
    ensures p[|p| - 1] !in run.failed
    decreases |p|
  {
    RanIsRunnable(steps, outcome, run, r);
    assert DependsOn(steps, p[0], p[1]);
    assert p[1] in run.completed;
    if |p| > 2 {
      assert StepResult(p[1], Succeeded) in run.results;
      ChainSuffix(steps, p, 1);
      RanLeadsToNoFailure(steps, outcome, run, StepResult(p[1], Succeeded), p[1..]);
    }
  }

  /** In a final state, only blocked steps have a dependency path to a failed step. */
  lemma {:induction false} PathToFailureIsBlocked(
      steps: seq<Step>, outcome: string -> Outcome, run: Run, p: seq<string>)
    requires Final(steps, outcome, run)
    requires Chain(steps, p) && |p| >= 2 && p[|p| - 1] in run.failed
    ensures p[0] in run.blocked
  {
    assert DependsOn(steps, p[0], p[1]);
    if p[0] in run.completed {
      RanLeadsToNoFailure(steps, outcome, run, StepResult(p[0], Succeeded), p);
    } else if p[0] in run.failed {
      RanLeadsToNoFailure(steps, outcome, run, StepResult(p[0], Failed), p);
    } else if p[0] in run.cancelled {
      RanLeadsToNoFailure(steps, outcome, run, StepResult(p[0], Cancelled), p);
    } else if |p| > 2 {
      ChainSuffix(steps, p, 1);
      PathToFailureIsBlocked(steps, outcome, run, p[1..]);
    }
  }

  /** Exact failure closure: blocked means exactly a nonempty dependency path to a failed step,
      and nothing blocked ever ran. */
  lemma BlockedExactly(steps: seq<Step>, outcome: string -> Outcome, run: Run, n: string)
    requires Final(steps, outcome, run)
    ensures n in run.blocked <==> LeadsInto(steps, n, run.failed)
    ensures n in run.blocked ==> forall o :: StepResult(n, o) !in run.results
  {
    if LeadsInto(steps, n, run.failed) {
      var p :| Chain(steps, p) && |p| >= 2 && p[0] == n && p[|p| - 1] in run.failed;
      PathToFailureIsBlocked(steps, outcome, run, p);
    }
    forall o | n in run.blocked ensures StepResult(n, o) !in run.results {
      match o
      case Succeeded => assert n !in run.completed;
      case Failed => assert n !in run.failed;
      case Cancelled => assert n !in run.cancelled;
    }
  }

  // ---------------------------------------------------------------- schedule independence

  lemma {:induction false} SucceededIsNecessary(
      steps: seq<Step>, outcome: string -> Outcome, run: Run, other: set<string>, i: nat)
    requires Inv(steps, outcome, run) && ClosedUnderSuccess(steps, outcome, other)
    requires i < |run.results| && run.results[i].outcome == Succeeded
    ensures run.results[i].step in other
    decreases i
  {
    var n := run.results[i].step;
    forall d | DependsOn(steps, n, d) ensures d in other {
      assert HasSucceeded(run.results, d, i);
      var j :| 0 <= j < i && run.results[j] == StepResult(d, Succeeded);
      SucceededIsNecessary(steps, outcome, run, other, j);
    }
  }

  lemma RunnableRan(steps: seq<Step>, outcome: string -> Outcome, run: Run, n: string)
    requires Final(steps, outcome, run)
    requires n in Names(steps) && Runnable(steps, n, run.completed)
    ensures StepResult(n, outcome(n)) in run.results
  {
    if n in run.blocked {
      var p :| Chain(steps, p) && |p| >= 2 && p[0] == n && p[|p| - 1] in run.failed;
      assert DependsOn(steps, p[0], p[1]);
      if |p| > 2 {
        assert StepResult(p[1], Succeeded) in run.results;
        ChainSuffix(steps, p, 1);
        RanLeadsToNoFailure(steps, outcome, run, StepResult(p[1], Succeeded), p[1..]);
      }
      assert false;
    }
    assert n in run.completed || n in run.failed || n in run.cancelled;
    var o :| StepResult(n, o) in run.results;
    RanIsRunnable(steps, outcome, run, StepResult(n, o));
  }

  /** A step ran exactly when its dependencies completed, and then with its own outcome. */
  lemma RanExactly(steps: seq<Step>, outcome: string -> Outcome, run: Run, n: string, o: Outcome)
    requires Final(steps, outcome, run)
    ensures StepResult(n, o) in run.results <==>
            n in Names(steps) && outcome(n) == o && Runnable(steps, n, run.completed)
  {
    if StepResult(n, o) in run.results {
      RanIsRunnable(steps, outcome, run, StepResult(n, o));
    } else if n in Names(steps) && Runnable(steps, n, run.completed) {
      RunnableRan(steps, outcome, run, n);
    }
  }

  lemma CompletedIsLeast(steps: seq<Step>, outcome: string -> Outcome, run: Run)
    requires Final(steps, outcome, run)
    ensures LeastSuccess(steps, outcome, run.completed)
  {
    forall n | n in Names(steps) && outcome(n) == Succeeded && Runnable(steps, n, run.completed)
      ensures n in run.completed
    {
      RunnableRan(steps, outcome, run, n);
    }
    forall other: set<string> | ClosedUnderSuccess(steps, outcome, other) ensures run.completed <= other {
      forall n | n in run.completed ensures n in other {
        var i :| 0 <= i < |run.results| && run.results[i] == StepResult(n, Succeeded);
        SucceededIsNecessary(steps, outcome, run, other, i);
      }
    }
  }

  /** The loop computes the workflow's meaning, which does not mention mode, limit or order. */
  lemma FinalHasMeaning(steps: seq<Step>, outcome: string -> Outcome, run: Run)
    requires Final(steps, outcome, run)
    ensures Meaning(steps, outcome, run)
  {
    hide Runnable, LeastSuccess, LeadsInto, Ordered, Propagated, NothingReady, WellFormed;
    CompletedIsLeast(steps, outcome, run);
    forall n ensures n in run.failed <==>
      n in Names(steps) && outcome(n) == Failed && Runnable(steps, n, run.completed)
    {
      RanExactly(steps, outcome, run, n, Failed);
    }
    forall n ensures n in run.cancelled <==>
      n in Names(steps) && outcome(n) == Cancelled && Runnable(steps, n, run.completed)
    {
      RanExactly(steps, outcome, run, n, Cancelled);
    }
    forall n ensures n in run.blocked <==> n in Names(steps) && LeadsInto(steps, n, run.failed) {
      BlockedExactly(steps, outcome, run, n);
    }
  }

  /** Two runs of one workflow that stop, whatever their modes and limits, end with the same sets
      and the same results up to order. */
  lemma ScheduleIndependence(steps: seq<Step>, outcome: string -> Outcome, a: Run, b: Run)
    requires Final(steps, outcome, a) && Final(steps, outcome, b)
    ensures a.completed == b.completed && a.failed == b.failed && a.cancelled == b.cancelled
    ensures a.blocked == b.blocked && a.pending == b.pending
    ensures multiset(a.results) == multiset(b.results)
  {
    FinalHasMeaning(steps, outcome, a);
    FinalHasMeaning(steps, outcome, b);
    assert a.completed <= b.completed && b.completed <= a.completed;
    assert a.failed == b.failed && a.cancelled == b.cancelled;
    forall r ensures r in a.results <==> r in b.results {
      match r.outcome
      case Succeeded => assert r in a.results <==> r.step in a.completed;
      case Failed => assert r in a.results <==> r.step in a.failed;
      case Cancelled => assert r in a.results <==> r.step in a.cancelled;
    }
    SameElements(a.results, b.results);
  }

  // ---------------------------------------------------------------- honest deadlock report

  /** A walk through leftover steps that ends on a cancelled step or closes a cycle. */
  ghost predicate Excuse(steps: seq<Step>, run: Run, p: seq<string>) {
    && Chain(steps, p) && |p| >= 2
    && (forall i :: 0 <= i < |p| - 1 ==> p[i] in run.pending)
    && (p[|p| - 1] in run.cancelled || exists k :: 0 <= k < |p| - 1 && p[k] == p[|p| - 1])
  }

  ghost predicate Awaits(steps: seq<Step>, run: Run, n: string, d: string) {
    DependsOn(steps, n, d) && (d in run.cancelled || d in run.pending)
  }

  lemma LeftoverAwaits(steps: seq<Step>, outcome: string -> Outcome, run: Run, n: string)
    requires Final(steps, outcome, run) && n in run.pending
    ensures exists d :: Awaits(steps, run, n, d)
  {
    var d :| DependsOn(steps, n, d) && d !in run.completed;
    assert d in Names(steps);
    assert Awaits(steps, run, n, d);
  }

  lemma {:induction false} ExtendExcuse(steps: seq<Step>, run: Run, p: seq<string>) returns (q: seq<string>)
    requires forall n :: n in run.pending ==> exists d :: Awaits(steps, run, n, d)
    requires Chain(steps, p) && Distinct(p) && forall n :: n in p ==> n in run.pending
    ensures Excuse(steps, run, q) && q[0] == p[0]
    decreases |run.pending| - |p|
  {
    var last := p[|p| - 1];
    assert last in p;
    var d :| Awaits(steps, run, last, d);
    q := p + [d];
    ChainExtend(steps, p, d);
    if d in p {
      var k :| 0 <= k < |p| && p[k] == d;
      assert q[k] == q[|q| - 1];
    } else if d !in run.cancelled {
      DistinctFits(q, run.pending);
      q := ExtendExcuse(steps, run, q);
    }
  }

  /** Every leftover step waits, through leftover steps, for a cancelled step or for a cycle. */
  lemma HonestDeadlock(steps: seq<Step>, outcome: string -> Outcome, run: Run, n: string)
    requires Final(steps, outcome, run) && n in run.pending
    ensures exists p :: Excuse(steps, run, p) && p[0] == n
  {
    forall m | m in run.pending ensures exists d :: Awaits(steps, run, m, d) {
      LeftoverAwaits(steps, outcome, run, m);
    }
    var q := ExtendExcuse(steps, run, [n]);
  }

  lemma SuccessRanksBelow(
      steps: seq<Step>, outcome: string -> Outcome, run: Run, p: seq<string>, k: nat, i: nat) returns (j: nat)
    requires Inv(steps, outcome, run) && Chain(steps, p) && k < |p|
    requires i < |run.results| && run.results[i].step == p[0]
    ensures j < |run.results| && run.results[j].step == p[k]
    ensures j <= i && (k > 0 ==> j < i)
  {
    j := i;
    for m := 0 to k
      invariant j < |run.results| && run.results[j].step == p[m]
      invariant j <= i && (m > 0 ==> j < i)
    {
      assert DependsOn(steps, p[m], p[m + 1]);
      assert HasSucceeded(run.results, p[m + 1], j);
      j :| 0 <= j < |run.results| && run.results[j] == StepResult(p[m + 1], Succeeded) && j < i;
    }
  }

  /** No step on a dependency cycle ever runs, in any state the scheduler passes through. */
  lemma CyclesNeverRun(steps: seq<Step>, outcome: string -> Outcome, run: Run, n: string)
    requires Inv(steps, outcome, run) && OnCycle(steps, n)
    ensures forall r :: r in run.results ==> r.step != n
  {
    if r :| r in run.results && r.step == n {
      var p :| Chain(steps, p) && |p| >= 2 && p[0] == n && p[|p| - 1] in {n};
      var i :| 0 <= i < |run.results| && run.results[i] == r;
      var j := SuccessRanksBelow(steps, outcome, run, p, |p| - 1, i);
      assert false;
    }
  }

  lemma RepeatIsCycle(steps: seq<Step>, p: seq<string>, k: nat)
    requires Chain(steps, p) && k < |p| - 1 && p[k] == p[|p| - 1]
    ensures OnCycle(steps, p[k])
  {
    var loop := p[k..];
    ChainSuffix(steps, p, k);
    assert Chain(steps, loop) && |loop| >= 2 && loop[0] == p[k] && loop[|loop| - 1] in {p[k]};
  }

  /** Without cancellation, leftover steps betray a cycle. */
  lemma LeftoverMeansCycle(steps: seq<Step>, outcome: string -> Outcome, run: Run, n: string)
    requires Final(steps, outcome, run) && n in run.pending && run.cancelled == {}
    ensures exists m :: m in run.pending && OnCycle(steps, m)
  {
    HonestDeadlock(steps, outcome, run, n);
    var p :| Excuse(steps, run, p) && p[0] == n;
    var k :| 0 <= k < |p| - 1 && p[k] == p[|p| - 1];
    RepeatIsCycle(steps, p, k);
  }

  /** Without cycles and without cancellation nothing is left over. */
  lemma AcyclicLeavesNothing(steps: seq<Step>, outcome: string -> Outcome, run: Run)
    requires Final(steps, outcome, run)
    requires forall n :: n in Names(steps) ==> !OnCycle(steps, n) && outcome(n) != Cancelled
    ensures run.pending == {} && run.cancelled == {}
  {
    forall n | n in run.cancelled ensures false {
      RanIsRunnable(steps, outcome, run, StepResult(n, Cancelled));
    }
    if n :| n in run.pending {
      LeftoverMeansCycle(steps, outcome, run, n);
    }
  }
}
