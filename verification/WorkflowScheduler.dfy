/** The loops of `run_workflow` itself (extensions/workflow.ts), proved to stop in a `Workflow.Final`
    state whatever the mode, the concurrency limit and the outcome of each step. */
module WorkflowScheduler {
  import opened Sequences
  import opened Workflow
  import opened WorkflowTheorems

  // ---------------------------------------------------------------- the tool's own loops

  /** The first blank or repeated name. */
  method CheckNames(steps: seq<Step>) returns (refusal: Option<Refusal>)
    ensures refusal.None? <==> (forall s :: s in steps ==> s.name != "") && UniqueNames(steps)
    ensures refusal.Some? ==>
      match refusal.value
      case BlankName => exists s :: s in steps && s.name == ""
      case DuplicateName(n) => exists i, j :: 0 <= i < j < |steps| && steps[i].name == steps[j].name == n
      case UnknownDependency(_, _) => false
  {
    var names: set<string> := {};
    for i := 0 to |steps|
      invariant names == Names(steps[..i])
      invariant forall k :: 0 <= k < i ==> steps[k].name != ""
      invariant forall k, l :: 0 <= k < l < i ==> steps[k].name != steps[l].name
    {
      if steps[i].name == "" {
        return Some(BlankName);
      }
      if steps[i].name in names {
        var k :| 0 <= k < i && steps[k].name == steps[i].name;
        return Some(DuplicateName(steps[i].name));
      }
      assert steps[..i + 1] == steps[..i] + [steps[i]];
      names := names + {steps[i].name};
    }
    return None;
  }

  /** The first dependency on a step that does not exist. */
  method CheckDependencies(steps: seq<Step>) returns (refusal: Option<Refusal>)
    ensures refusal.None? <==> forall s, d :: s in steps && d in s.dependsOn ==> d in Names(steps)
    ensures refusal.Some? ==>
      && refusal.value.UnknownDependency?
      && DependsOn(steps, refusal.value.step, refusal.value.dependency) && refusal.value.dependency !in Names(steps)
  {
    var names := Names(steps);
    for i := 0 to |steps|
      invariant forall k, d :: 0 <= k < i && d in steps[k].dependsOn ==> d in names
    {
      for j := 0 to |steps[i].dependsOn|
        invariant forall k :: 0 <= k < j ==> steps[i].dependsOn[k] in names
      {
        var d := steps[i].dependsOn[j];
        if d !in names {
          assert steps[i] in steps && d in steps[i].dependsOn;
          assert DependsOn(steps, steps[i].name, d);
          return Some(UnknownDependency(steps[i].name, d));
        }
      }
    }
    return None;
  }

  /** The checks made before anything runs, with the first offence found. */
  method Validate(steps: seq<Step>) returns (refusal: Option<Refusal>)
    ensures refusal.None? <==> WellFormed(steps)
    ensures refusal.Some? ==>
      match refusal.value
      case BlankName => exists s :: s in steps && s.name == ""
      case DuplicateName(n) => exists i, j :: 0 <= i < j < |steps| && steps[i].name == steps[j].name == n
      case UnknownDependency(n, d) => UniqueNames(steps) && DependsOn(steps, n, d) && d !in Names(steps)
  {
    refusal := CheckNames(steps);
    if refusal.None? {
      refusal := CheckDependencies(steps);
    }
  }

  /** `remaining` lists exactly the pending steps. */
  ghost predicate Lists(steps: seq<Step>, remaining: seq<Step>, pending: set<string>) {
    && (forall s :: s in remaining ==> s in steps)
    && Names(remaining) == pending
  }

  lemma NameDeterminesStep(steps: seq<Step>, a: Step, b: Step)
    requires UniqueNames(steps) && a in steps && b in steps && a.name == b.name
    ensures a == b
  {
  }

  lemma AllListed(steps: seq<Step>)
    ensures Lists(steps, steps, Names(steps))
  {
  }

  lemma NothingListed(steps: seq<Step>, remaining: seq<Step>, pending: set<string>)
    requires Lists(steps, remaining, pending)
    ensures remaining == [] <==> pending == {}
  {
    if remaining != [] {
      assert remaining[0].name in pending;
    }
  }

  lemma NothingPending(steps: seq<Step>, run: Run)
    requires run.pending == {}
    ensures Propagated(steps, run) && NothingReady(steps, run)
  {
  }

  function Tainted(s: Step, failed: set<string>, blocked: set<string>): bool {
    exists d :: d in s.dependsOn && (d in failed || d in blocked)
  }

  /** The inner loop: mark every step that depends on a failed or blocked one, to a fixpoint. */
  method Propagate(steps: seq<Step>, ghost outcome: string -> Outcome, remaining: seq<Step>, run: Run)
    returns (remaining': seq<Step>, run': Run)
    requires WellFormed(steps) && Inv(steps, outcome, run) && Lists(steps, remaining, run.pending)
    requires UniqueNames(remaining)
    ensures Inv(steps, outcome, run') && Lists(steps, remaining', run'.pending)
    ensures UniqueNames(remaining') && |remaining'| <= |remaining|
    ensures run' == run.(blocked := run'.blocked, pending := run'.pending)
    ensures Propagated(steps, run')
  {
    remaining', run' := remaining, run;
    var more := true;
    while more
      invariant Inv(steps, outcome, run') && Lists(steps, remaining', run'.pending)
      invariant UniqueNames(remaining') && |remaining'| <= |remaining|
      invariant run' == run.(blocked := run'.blocked, pending := run'.pending)
      invariant !more ==> forall s :: s in remaining' ==> !Tainted(s, run'.failed, run'.blocked)
      decreases |remaining'|, more
    {
      var newly := Filter(remaining', (s: Step) => Tainted(s, run'.failed, run'.blocked));
      forall n | n in Names(newly)
        ensures exists d :: DependsOn(steps, n, d) && (d in run'.failed || d in run'.blocked)
      {
        var s :| s in newly && s.name == n;
        var d :| d in s.dependsOn && (d in run'.failed || d in run'.blocked);
        assert DependsOn(steps, n, d);
      }
      BlockKeeps(steps, outcome, run', Names(newly));
      var blocked := run'.blocked + Names(newly);
      var keep := (s: Step) => s.name !in blocked;
      FilterUniqueNames(remaining', keep);
      FilterNames(steps, remaining', keep, run'.pending, Names(newly));
      if newly != [] {
        assert newly[0] in remaining' && !keep(newly[0]);
        FilterShorter(remaining', keep);
      }
      remaining' := Filter(remaining', keep);
      run' := run'.(blocked := blocked, pending := run'.pending - Names(newly));
      more := newly != [];
    }
    forall n, d | n in run'.pending && DependsOn(steps, n, d)
      ensures d !in run'.failed && d !in run'.blocked
    {
      PendingStep(steps, remaining', run'.pending, n, d);
    }
  }

  lemma PendingStep(steps: seq<Step>, remaining: seq<Step>, pending: set<string>, n: string, d: string)
    requires UniqueNames(steps) && Lists(steps, remaining, pending) && n in pending && DependsOn(steps, n, d)
    ensures exists s :: s in remaining && s.name == n && d in s.dependsOn
  {
    var s :| s in steps && s.name == n && d in s.dependsOn;
    var t :| t in remaining && t.name == n;
    NameDeterminesStep(steps, s, t);
  }

  lemma {:induction false} FilterUniqueNames(s: seq<Step>, keep: Step -> bool)
    requires UniqueNames(s)
    ensures UniqueNames(Filter(s, keep))
  {
    if s != [] {
      FilterUniqueNames(s[1..], keep);
      forall x | x in Filter(s[1..], keep) ensures x.name != s[0].name {
        var k :| 0 < k < |s| && s[k] == x;
      }
    }
  }

  /** Filtering out exactly the names in `gone` leaves a list of the other pending steps. */
  lemma FilterNames(steps: seq<Step>, remaining: seq<Step>, keep: Step -> bool, pending: set<string>, gone: set<string>)
    requires Lists(steps, remaining, pending)
    requires forall s :: s in remaining ==> (keep(s) <==> s.name !in gone)
    ensures Lists(steps, Filter(remaining, keep), pending - gone)
  {
    var rest := Filter(remaining, keep);
    forall n | n in pending - gone ensures n in Names(rest) {
      var s :| s in remaining && s.name == n;
      assert s in rest;
    }
  }

  function Batch(mode: Mode, limit: nat, ready: seq<Step>): (batch: seq<Step>)
    requires limit >= 1 && ready != []
    ensures batch != [] && batch <= ready
    ensures |batch| == if mode == Sequential then 1 else Min(limit, |ready|)
  {
    if mode == Sequential then ready[..1]
    else if |ready| > limit then ready[..limit]
    else ready
  }

  lemma PendingNotBlocked(steps: seq<Step>, outcome: string -> Outcome, run: Run)
    requires Inv(steps, outcome, run)
    ensures run.pending !! run.blocked
  {
  }

  /** The results of a batch, in its order. */
  function ResultsOf(batch: seq<Step>, outcome: string -> Outcome): seq<StepResult> {
    seq(|batch|, i requires 0 <= i < |batch| => StepResult(batch[i].name, outcome(batch[i].name)))
  }

  /** Run one batch and record its results in batch order. */
  method RunBatch(steps: seq<Step>, outcome: string -> Outcome, batch: seq<Step>, run: Run) returns (run': Run)
    requires Inv(steps, outcome, run) && UniqueNames(batch)
    requires forall s :: s in batch ==> s in steps && s.name in run.pending && Runnable(steps, s.name, run.completed)
    ensures Inv(steps, outcome, run')
    ensures run'.pending == run.pending - Names(batch) && run'.blocked == run.blocked
    ensures run'.results == run.results + ResultsOf(batch, outcome)
  {
    hide Inv;
    run' := run;
    for k := 0 to |batch|
      invariant Inv(steps, outcome, run')
      invariant run.completed <= run'.completed
      invariant run'.pending == run.pending - Names(batch[..k]) && run'.blocked == run.blocked
      invariant run'.results == run.results + ResultsOf(batch[..k], outcome)
    {
      assert batch[k] in batch && batch[k].name !in Names(batch[..k]);
      RecordKeeps(steps, outcome, run', batch[k].name);
      run' := Record(run', StepResult(batch[k].name, outcome(batch[k].name)));
      assert batch[..k + 1] == batch[..k] + [batch[k]];
    }
    assert batch[..|batch|] == batch;
  }

  /** The steps all of whose dependencies completed, in order. */
  function ReadySteps(remaining: seq<Step>, completed: set<string>): seq<Step> {
    Filter(remaining, (s: Step) => forall d :: d in s.dependsOn ==> d in completed)
  }

  method Ready(steps: seq<Step>, remaining: seq<Step>, run: Run) returns (ready: seq<Step>)
    requires UniqueNames(steps) && UniqueNames(remaining) && Lists(steps, remaining, run.pending)
    ensures ready == ReadySteps(remaining, run.completed) && UniqueNames(ready)
    ensures forall s :: s in ready <==> s in remaining && Runnable(steps, s.name, run.completed)
    ensures ready == [] ==> NothingReady(steps, run)
  {
    var isReady := (s: Step) => forall d :: d in s.dependsOn ==> d in run.completed;
    forall s | s in remaining ensures isReady(s) <==> Runnable(steps, s.name, run.completed) {
      assert forall d :: d in s.dependsOn ==> DependsOn(steps, s.name, d);
      forall d | DependsOn(steps, s.name, d) ensures d in s.dependsOn {
        var t :| t in steps && t.name == s.name && d in t.dependsOn;
        NameDeterminesStep(steps, s, t);
      }
    }
    ready := Filter(remaining, isReady);
    FilterUniqueNames(remaining, isReady);
    forall n | ready == [] && n in run.pending ensures !Runnable(steps, n, run.completed) {
      var s :| s in remaining && s.name == n;
    }
  }

  /** Remove from `remaining` what has completed, failed or been cancelled. */
  method DropSettled(
      steps: seq<Step>, ghost outcome: string -> Outcome, remaining: seq<Step>, run: Run,
      ghost pending: set<string>, ghost batch: seq<Step>) returns (remaining': seq<Step>)
    requires Inv(steps, outcome, run) && Lists(steps, remaining, pending) && UniqueNames(remaining)
    requires run.pending == pending - Names(batch) && pending !! run.blocked
    requires batch != [] && forall s :: s in batch ==> s in remaining
    ensures Lists(steps, remaining', run.pending) && UniqueNames(remaining')
    ensures |remaining'| < |remaining|
  {
    var keep := (s: Step) => s.name !in run.completed && s.name !in run.failed && s.name !in run.cancelled;
    forall s | s in remaining ensures keep(s) <==> s.name !in Names(batch) {
      assert s.name in Names(remaining);
    }
    FilterUniqueNames(remaining, keep);
    FilterNames(steps, remaining, keep, pending, Names(batch));
    assert batch[0] in remaining && !keep(batch[0]);
    FilterShorter(remaining, keep);
    remaining' := Filter(remaining, keep);
  }

  /** Run the next batch of ready steps, if any step is ready. */
  method RunReady(
      steps: seq<Step>, mode: Mode, limit: nat, outcome: string -> Outcome, remaining: seq<Step>, run: Run)
    returns (remaining': seq<Step>, run': Run, progress: bool, ghost batch: seq<Step>)
    requires limit >= 1 && WellFormed(steps) && UniqueNames(remaining)
    requires Inv(steps, outcome, run) && Lists(steps, remaining, run.pending)
    ensures Inv(steps, outcome, run') && Lists(steps, remaining', run'.pending) && UniqueNames(remaining')
    ensures !progress ==> run' == run && remaining' == remaining
    ensures !progress ==> NothingReady(steps, run)
    ensures progress <==> ReadySteps(remaining, run.completed) != []
    ensures progress ==> batch == Batch(mode, limit, ReadySteps(remaining, run.completed))
    ensures progress ==> run'.results == run.results + ResultsOf(batch, outcome)
    ensures progress ==> |remaining'| < |remaining|
  {
    hide Inv, Runnable, ReadySteps;
    remaining', run', progress, batch := remaining, run, false, [];
    var ready := Ready(steps, remaining, run);
    if ready != [] {
      var next := Batch(mode, limit, ready);
      forall s | s in next ensures s in remaining && s.name in run.pending {
        assert s in ready;
      }
      PendingNotBlocked(steps, outcome, run);
      run' := RunBatch(steps, outcome, next, run);
      remaining' := DropSettled(steps, outcome, remaining, run', run.pending, next);
      batch := next;
      progress := true;
    }
  }

  /** The whole tool call. */
  method RunWorkflow(steps: seq<Step>, mode: Mode, limit: nat, outcome: string -> Outcome) returns (answer: Answer)
    requires limit >= 1
    ensures answer.Refused? <==> !WellFormed(steps)
    ensures answer.Finished? ==> Final(steps, outcome, answer.run) && Meaning(steps, outcome, answer.run)
    ensures answer.Finished? ==> (answer.isError <==> answer.run.completed != Names(steps))
  {
    var refusal := Validate(steps);
    if refusal.Some? {
      return Refused(refusal.value);
    }
    var remaining := steps;
    var run := Run([], {}, {}, {}, {}, Names(steps));
    hide Inv, Meaning, Lists, Names, UniqueNames, Propagated, NothingReady;
    InitialInv(steps, outcome);
    AllListed(steps);
    while remaining != []
      invariant Inv(steps, outcome, run) && Lists(steps, remaining, run.pending) && UniqueNames(remaining)
      decreases |remaining|
    {
      remaining, run := Propagate(steps, outcome, remaining, run);
      if remaining == [] { break; }
      var progress: bool;
      ghost var batch: seq<Step>;
      remaining, run, progress, batch := RunReady(steps, mode, limit, outcome, remaining, run);
      if !progress { break; }
    }
    assert Final(steps, outcome, run) by {
      if remaining == [] {
        NothingListed(steps, remaining, run.pending);
        NothingPending(steps, run);
      }
    }
    FinalHasMeaning(steps, outcome, run);
    NothingElse(steps, outcome, run);
    NothingListed(steps, remaining, run.pending);
    var isError := run.failed != {} || run.cancelled != {} || run.blocked != {} || remaining != [];
    return Finished(run, isError);
  }
}
