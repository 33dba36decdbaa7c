/** The `run_workflow` scheduling loop (extensions/workflow.ts): failure propagation, readiness,
    batching by mode and concurrency limit, and the report of what could not run.

    Running a step is the environment's business. Every step runs at most once, so whatever the
    environment does is captured by one function from step names to outcomes. */
module Workflow {
  import opened Sequences

  datatype Step = Step(name: string, dependsOn: seq<string>)
  datatype Mode = Sequential | Parallel | Dag
  datatype Outcome = Succeeded | Failed | Cancelled
  datatype StepResult = StepResult(step: string, outcome: Outcome)

  datatype Refusal =
    | BlankName
    | DuplicateName(name: string)
    | UnknownDependency(step: string, dependency: string)

  /** The scheduler's variables. `pending` holds the names of `remaining`. */
  datatype Run = Run(
    results: seq<StepResult>,
    completed: set<string>,
    failed: set<string>,
    cancelled: set<string>,
    blocked: set<string>,
    pending: set<string>)

  datatype Answer = Refused(reason: Refusal) | Finished(run: Run, isError: bool)

  // ---------------------------------------------------------------- the dependency graph

  function Names(steps: seq<Step>): set<string> {
    set s | s in steps :: s.name
  }

  ghost predicate UniqueNames(steps: seq<Step>) {
    forall i, j :: 0 <= i < j < |steps| ==> steps[i].name != steps[j].name
  }

  ghost predicate WellFormed(steps: seq<Step>) {
    && (forall s :: s in steps ==> s.name != "")
    && UniqueNames(steps)
    && (forall s, d :: s in steps && d in s.dependsOn ==> d in Names(steps))
  }

  ghost predicate DependsOn(steps: seq<Step>, name: string, dependency: string) {
    exists s :: s in steps && s.name == name && dependency in s.dependsOn
  }

  /** `p` walks along dependencies: each name depends on the next one. */
  ghost predicate Chain(steps: seq<Step>, p: seq<string>) {
    |p| > 0 && forall i :: 0 <= i < |p| - 1 ==> DependsOn(steps, p[i], p[i + 1])
  }

  /** A nonempty dependency path from `name` into `targets`. */
  ghost predicate LeadsInto(steps: seq<Step>, name: string, targets: set<string>) {
    exists p :: Chain(steps, p) && |p| >= 2 && p[0] == name && p[|p| - 1] in targets
  }

  /** The names a dependency path can revisit for ever. */
  ghost predicate OnCycle(steps: seq<Step>, name: string) {
    LeadsInto(steps, name, {name})
  }

  // ---------------------------------------------------------------- the meaning of a workflow

  ghost predicate Runnable(steps: seq<Step>, name: string, done: set<string>) {
    forall d :: DependsOn(steps, name, d) ==> d in done
  }

  ghost predicate ClosedUnderSuccess(steps: seq<Step>, outcome: string -> Outcome, done: set<string>) {
    forall n :: n in Names(steps) && outcome(n) == Succeeded && Runnable(steps, n, done) ==> n in done
  }

  /** `done` is the least set holding every succeeding step whose dependencies it holds. */
  ghost predicate LeastSuccess(steps: seq<Step>, outcome: string -> Outcome, done: set<string>) {
    && ClosedUnderSuccess(steps, outcome, done)
    && forall other: set<string> :: ClosedUnderSuccess(steps, outcome, other) ==> done <= other
  }

  /** What the final sets have to be, said without reference to mode, limit or order. */
  ghost predicate Meaning(steps: seq<Step>, outcome: string -> Outcome, run: Run) {
    && LeastSuccess(steps, outcome, run.completed)
    && (forall n :: n in run.failed <==>
          n in Names(steps) && outcome(n) == Failed && Runnable(steps, n, run.completed))
    && (forall n :: n in run.cancelled <==>
          n in Names(steps) && outcome(n) == Cancelled && Runnable(steps, n, run.completed))
    && (forall n :: n in run.blocked <==> n in Names(steps) && LeadsInto(steps, n, run.failed))
    && run.pending == Names(steps) - run.completed - run.failed - run.cancelled - run.blocked
  }

  // ---------------------------------------------------------------- the scheduler's invariant

  ghost predicate HasSucceeded(results: seq<StepResult>, name: string, before: nat) {
    exists j :: 0 <= j < before && j < |results| && results[j] == StepResult(name, Succeeded)
  }

  /** Results carry the environment's outcomes, name no step twice, and come after successful
      results of all their dependencies. */
  ghost predicate Ordered(steps: seq<Step>, outcome: string -> Outcome, results: seq<StepResult>) {
    && (forall i :: 0 <= i < |results| ==>
          results[i].step in Names(steps) && results[i].outcome == outcome(results[i].step))
    && (forall i, j :: 0 <= i < j < |results| ==> results[i].step != results[j].step)
    && (forall i, d :: 0 <= i < |results| && DependsOn(steps, results[i].step, d) ==>
          HasSucceeded(results, d, i))
  }

  ghost predicate Recorded(results: seq<StepResult>, o: Outcome, names: set<string>) {
    forall n :: n in names <==> StepResult(n, o) in results
  }

  /** Every step is in exactly one class. */
  ghost predicate Partitioned(steps: seq<Step>, run: Run) {
    && run.completed + run.failed + run.cancelled + run.blocked + run.pending == Names(steps)
    && run.completed !! run.failed !! run.cancelled !! run.blocked !! run.pending
  }

  ghost predicate Inv(steps: seq<Step>, outcome: string -> Outcome, run: Run) {
    && Ordered(steps, outcome, run.results)
    && Recorded(run.results, Succeeded, run.completed)
    && Recorded(run.results, Failed, run.failed)
    && Recorded(run.results, Cancelled, run.cancelled)
    && Partitioned(steps, run)
    && (forall n :: n in run.blocked ==> LeadsInto(steps, n, run.failed))
  }

  /** Failure has propagated: no pending step depends on a failed or blocked one. */
  ghost predicate Propagated(steps: seq<Step>, run: Run) {
    forall n, d :: n in run.pending && DependsOn(steps, n, d) ==> d !in run.failed && d !in run.blocked
  }

  ghost predicate NothingReady(steps: seq<Step>, run: Run) {
    forall n :: n in run.pending ==> !Runnable(steps, n, run.completed)
  }

  /** What the loop establishes. The theorems below draw their conclusions from it. */
  ghost predicate Final(steps: seq<Step>, outcome: string -> Outcome, run: Run) {
    WellFormed(steps) && Inv(steps, outcome, run) && Propagated(steps, run) && NothingReady(steps, run)
  }

  lemma InitialInv(steps: seq<Step>, outcome: string -> Outcome)
    ensures Inv(steps, outcome, Run([], {}, {}, {}, {}, Names(steps)))
  {
  }

  lemma NothingElse(steps: seq<Step>, outcome: string -> Outcome, run: Run)
    requires Inv(steps, outcome, run)
    ensures run.completed == Names(steps) <==>
            run.failed == {} && run.cancelled == {} && run.blocked == {} && run.pending == {}
  {
    if run.completed == Names(steps) {
      assert run.failed <= Names(steps) && run.cancelled <= Names(steps);
      assert run.blocked <= Names(steps) && run.pending <= Names(steps);
    }
  }

  // ---------------------------------------------------------------- one scheduling move at a time

  function Record(run: Run, r: StepResult): Run {
    run.(results := run.results + [r],
         completed := if r.outcome == Succeeded then run.completed + {r.step} else run.completed,
         cancelled := if r.outcome == Cancelled then run.cancelled + {r.step} else run.cancelled,
         failed := if r.outcome == Failed then run.failed + {r.step} else run.failed,
         pending := run.pending - {r.step})
  }

  lemma RecordKeepsOrder(steps: seq<Step>, outcome: string -> Outcome, run: Run, name: string)
    requires Inv(steps, outcome, run)
    requires name in run.pending && Runnable(steps, name, run.completed)
    ensures Ordered(steps, outcome, run.results + [StepResult(name, outcome(name))])
  {
    var old' := run.results;
    var new' := old' + [StepResult(name, outcome(name))];
    forall i | 0 <= i < |old'| ensures old'[i].step != name {
      assert old'[i] in old';
      assert old'[i] == StepResult(old'[i].step, old'[i].outcome);
    }
    forall i, d | 0 <= i < |new'| && DependsOn(steps, new'[i].step, d)
      ensures HasSucceeded(new', d, i)
    {
      if i < |old'| {
        assert HasSucceeded(old', d, i);
        var j :| 0 <= j < i && old'[j] == StepResult(d, Succeeded);
        assert new'[j] == StepResult(d, Succeeded);
      } else {
        assert StepResult(d, Succeeded) in old';
        var j :| 0 <= j < |old'| && old'[j] == StepResult(d, Succeeded);
        assert new'[j] == StepResult(d, Succeeded);
      }
    }
  }

  lemma RecordKeeps(steps: seq<Step>, outcome: string -> Outcome, run: Run, name: string)
    requires Inv(steps, outcome, run)
    requires name in run.pending && Runnable(steps, name, run.completed)
    ensures Inv(steps, outcome, Record(run, StepResult(name, outcome(name))))
  {
    RecordKeepsOrder(steps, outcome, run, name);
    var next := Record(run, StepResult(name, outcome(name)));
    forall n | n in next.blocked ensures LeadsInto(steps, n, next.failed) {
      var p :| Chain(steps, p) && |p| >= 2 && p[0] == n && p[|p| - 1] in run.failed;
      assert p[|p| - 1] in next.failed;
    }
  }

  /** Blocking steps that depend on a failed or blocked one. */
  lemma BlockKeeps(steps: seq<Step>, outcome: string -> Outcome, run: Run, newly: set<string>)
    requires Inv(steps, outcome, run)
    requires newly <= run.pending
    requires forall n :: n in newly ==> exists d :: DependsOn(steps, n, d) && (d in run.failed || d in run.blocked)
    ensures Inv(steps, outcome, run.(blocked := run.blocked + newly, pending := run.pending - newly))
  {
    forall n | n in newly ensures LeadsInto(steps, n, run.failed) {
      var d :| DependsOn(steps, n, d) && (d in run.failed || d in run.blocked);
      if d in run.failed {
        assert Chain(steps, [n, d]);
      } else {
        var p :| Chain(steps, p) && |p| >= 2 && p[0] == d && p[|p| - 1] in run.failed;
        assert Chain(steps, [n] + p);
      }
    }
  }
}
