/** `runPool` (extensions/sub-agent.ts): lanes that share one `next` index and one results array.

    A lane runs from one await to the next without interruption, so a step is either taking the next
    index or getting a worker's answer. Each index is handed out at most once, so the workers' answers
    are a function of the index. */
module WorkerPool {
  import opened Sequences

  datatype Answer<+R> = Returned(value: R) | Rejected
  datatype Lane = Idle | Working(index: nat) | Finished | Dead(index: nat)

  datatype Pool<+R> = Pool(next: nat, lanes: seq<Lane>, results: seq<Option<R>>)

  predicate Enabled(lane: Lane) {
    lane.Idle? || lane.Working?
  }

  function LaneCount(items: nat, concurrency: int): nat {
    if concurrency <= 0 then 0 else if concurrency <= items then concurrency else items
  }

  function Initial<R>(items: nat, concurrency: int): Pool<R> {
    Pool(0, seq(LaneCount(items, concurrency), _ => Idle), seq(items, _ => None))
  }

  /** Lane `l` runs until its next await. */
  function Step<R>(s: Pool<R>, l: nat, worker: nat -> Answer<R>): Pool<R>
    requires l < |s.lanes| && Enabled(s.lanes[l])
    requires s.lanes[l].Working? ==> s.lanes[l].index < |s.results|
  {
    match s.lanes[l]
    case Idle =>
      if s.next < |s.results| then s.(next := s.next + 1, lanes := s.lanes[l := Working(s.next)])
      else s.(lanes := s.lanes[l := Finished])
    case Working(i) =>
      match worker(i) {
        case Returned(value) => s.(results := s.results[i := Some(value)], lanes := s.lanes[l := Idle])
        case Rejected => s.(lanes := s.lanes[l := Dead(i)])
      }
    case _ => s
  }

  ghost predicate Busy(s: Pool, i: nat) {
    exists l :: 0 <= l < |s.lanes| && s.lanes[l] == Working(i)
  }

  ghost predicate Killed(s: Pool, i: nat) {
    exists l :: 0 <= l < |s.lanes| && s.lanes[l] == Dead(i)
  }

  predicate Holds(lane: Lane, i: nat) {
    lane == Working(i) || lane == Dead(i)
  }

  /** Every index handed out is with exactly one lane, or answered; nothing else is touched. */
  ghost predicate Inv<R>(s: Pool<R>, items: nat, concurrency: int, worker: nat -> Answer<R>) {
    && |s.results| == items && |s.lanes| == LaneCount(items, concurrency) && s.next <= items
    && (s.lanes == [] ==> s.next == 0)
    && (forall l :: 0 <= l < |s.lanes| && (s.lanes[l].Working? || s.lanes[l].Dead?) ==>
          s.lanes[l].index < s.next && s.results[s.lanes[l].index].None?)
    && (forall l, m, i ::
          0 <= l < |s.lanes| && 0 <= m < |s.lanes| && Holds(s.lanes[l], i) && Holds(s.lanes[m], i) ==> l == m)
    && (forall l :: 0 <= l < |s.lanes| && s.lanes[l].Dead? ==> worker(s.lanes[l].index).Rejected?)
    && (forall l :: 0 <= l < |s.lanes| && s.lanes[l].Finished? ==> s.next == items)
    && (forall i :: 0 <= i < s.next ==> Busy(s, i) || Killed(s, i) || s.results[i].Some?)
    && (forall i :: 0 <= i < items && s.results[i].Some? ==> i < s.next && worker(i) == Returned(s.results[i].value))
  }

  lemma InitialInv<R>(items: nat, concurrency: int, worker: nat -> Answer<R>)
    ensures Inv(Initial(items, concurrency), items, concurrency, worker)
  {
  }

  lemma TakeKeeps<R>(s: Pool<R>, items: nat, concurrency: int, worker: nat -> Answer<R>, l: nat)
    requires Inv(s, items, concurrency, worker) && l < |s.lanes| && s.lanes[l].Idle?
    ensures Inv(Step(s, l, worker), items, concurrency, worker)
  {
    var t := Step(s, l, worker);
    forall i | 0 <= i < t.next ensures Busy(t, i) || Killed(t, i) || t.results[i].Some? {
      if i == s.next {
        assert t.lanes[l] == Working(i);
      } else if Busy(s, i) {
        var m :| 0 <= m < |s.lanes| && s.lanes[m] == Working(i);
        assert t.lanes[m] == Working(i);
      } else if Killed(s, i) {
        var m :| 0 <= m < |s.lanes| && s.lanes[m] == Dead(i);
        assert t.lanes[m] == Dead(i);
      }
    }
  }

  lemma AnswerKeeps<R>(s: Pool<R>, items: nat, concurrency: int, worker: nat -> Answer<R>, l: nat)
    requires Inv(s, items, concurrency, worker) && l < |s.lanes| && s.lanes[l].Working?
    ensures Inv(Step(s, l, worker), items, concurrency, worker)
  {
    var t, at := Step(s, l, worker), s.lanes[l].index;
    forall m, i | 0 <= m < |t.lanes| && Holds(t.lanes[m], i) ensures Holds(s.lanes[m], i) {
    }
    assert Holds(s.lanes[l], at);
    forall i | 0 <= i < t.next ensures Busy(t, i) || Killed(t, i) || t.results[i].Some? {
      if i == at {
        assert worker(at).Rejected? ==> t.lanes[l] == Dead(i);
      } else if Busy(s, i) {
        var m :| 0 <= m < |s.lanes| && s.lanes[m] == Working(i);
        assert t.lanes[m] == Working(i);
      } else if Killed(s, i) {
        var m :| 0 <= m < |s.lanes| && s.lanes[m] == Dead(i);
        assert t.lanes[m] == Dead(i);
      }
    }
  }

  lemma StepKeeps<R>(s: Pool<R>, items: nat, concurrency: int, worker: nat -> Answer<R>, l: nat)
    requires Inv(s, items, concurrency, worker) && l < |s.lanes| && Enabled(s.lanes[l])
    ensures Inv(Step(s, l, worker), items, concurrency, worker)
  {
    if s.lanes[l].Idle? {
      TakeKeeps(s, items, concurrency, worker, l);
    } else {
      AnswerKeeps(s, items, concurrency, worker, l);
    }
  }

  // ---------------------------------------------------------------- termination

  function Work(lanes: seq<Lane>): nat {
    if lanes == [] then 0
    else (match lanes[0] case Idle => 1 case Working(_) => 2 case _ => 0) + Work(lanes[1..])
  }

  function Measure<R>(s: Pool<R>): int {
    3 * (|s.results| - s.next) + Work(s.lanes)
  }

  lemma {:induction false} WorkUpdate(lanes: seq<Lane>, l: nat, lane: Lane)
    requires l < |lanes|
    ensures Work(lanes[l := lane]) ==
      Work(lanes) - (match lanes[l] case Idle => 1 case Working(_) => 2 case _ => 0)
                  + (match lane case Idle => 1 case Working(_) => 2 case _ => 0)
  {
    if l > 0 {
      assert lanes[l := lane][1..] == lanes[1..][l - 1 := lane];
      WorkUpdate(lanes[1..], l - 1, lane);
    } else {
      assert lanes[0 := lane][1..] == lanes[1..];
    }
  }

  /** Every step of every lane brings the pool strictly closer to its end. */
  lemma StepDecreases<R>(s: Pool<R>, worker: nat -> Answer<R>, l: nat)
    requires l < |s.lanes| && Enabled(s.lanes[l]) && s.next <= |s.results|
    requires s.lanes[l].Working? ==> s.lanes[l].index < |s.results|
    ensures 0 <= Measure(Step(s, l, worker)) < Measure(s)
  {
    var t := Step(s, l, worker);
    WorkUpdate(s.lanes, l, t.lanes[l]);
    assert t.lanes == s.lanes[l := t.lanes[l]];
  }

  // ---------------------------------------------------------------- outcomes

  function InFlight(lanes: seq<Lane>): nat {
    if lanes == [] then 0 else (if lanes[0].Working? then 1 else 0) + InFlight(lanes[1..])
  }

  lemma {:induction false} InFlightFits(lanes: seq<Lane>)
    ensures InFlight(lanes) <= |lanes|
  {
    if lanes != [] {
      InFlightFits(lanes[1..]);
    }
  }

  /** Never more workers under way than `concurrency`. */
  lemma InFlightBounded<R>(s: Pool<R>, items: nat, concurrency: nat, worker: nat -> Answer<R>)
    requires Inv(s, items, concurrency, worker)
    ensures InFlight(s.lanes) <= concurrency
  {
    InFlightFits(s.lanes);
  }

  ghost predicate Stopped<R>(s: Pool<R>) {
    forall l :: 0 <= l < |s.lanes| ==> !Enabled(s.lanes[l])
  }

  /** A stopped pool with a surviving lane has asked every index exactly once and holds every answer that
      was returned; an index without an answer killed its lane. */
  lemma StoppedHasAsked<R>(s: Pool<R>, items: nat, concurrency: int, worker: nat -> Answer<R>)
    requires Inv(s, items, concurrency, worker) && Stopped(s)
    requires exists l :: 0 <= l < |s.lanes| && s.lanes[l].Finished?
    ensures s.next == items
    ensures forall i :: 0 <= i < items ==>
      if worker(i).Returned? then s.results[i] == Some(worker(i).value) else s.results[i].None? && Killed(s, i)
  {
    forall i | 0 <= i < items
      ensures if worker(i).Returned? then s.results[i] == Some(worker(i).value) else s.results[i].None? && Killed(s, i)
    {
      assert Busy(s, i) || Killed(s, i) || s.results[i].Some?;
    }
  }

  /** With workers that never reject, a stopped pool holds every answer exactly when there was a lane or
      nothing to do. */
  lemma AllAnsweredExactly<R>(s: Pool<R>, items: nat, concurrency: int, worker: nat -> Answer<R>)
    requires Inv(s, items, concurrency, worker) && Stopped(s)
    requires forall i: nat :: i < items ==> worker(i).Returned?
    ensures (forall i :: 0 <= i < items ==> s.results[i] == Some(worker(i).value)) <==> items == 0 || concurrency >= 1
  {
    if items > 0 && concurrency >= 1 {
      assert !Enabled(s.lanes[0]) && !s.lanes[0].Dead?;
      StoppedHasAsked(s, items, concurrency, worker);
    } else if items > 0 {
      assert s.results[0].None?;
    }
  }

  ghost predicate SomeDead(lanes: seq<Lane>) {
    exists l :: 0 <= l < |lanes| && lanes[l].Dead?
  }

  /** A stopped pool lost a lane exactly when it had lanes and some worker rejected. */
  lemma DeadExactly<R>(s: Pool<R>, items: nat, concurrency: int, worker: nat -> Answer<R>)
    requires Inv(s, items, concurrency, worker) && Stopped(s)
    ensures SomeDead(s.lanes) <==> concurrency >= 1 && exists i: nat :: i < items && worker(i).Rejected?
  {
    if SomeDead(s.lanes) {
      var l :| 0 <= l < |s.lanes| && s.lanes[l].Dead?;
      assert worker(s.lanes[l].index).Rejected?;
    } else if concurrency >= 1 && items > 0 {
      assert !Enabled(s.lanes[0]) && s.lanes[0].Finished?;
      StoppedHasAsked(s, items, concurrency, worker);
      assert forall i :: !Killed(s, i);
    }
  }

  lemma ResultsAtStop<R>(s: Pool<R>, items: nat, concurrency: int, worker: nat -> Answer<R>)
    requires Inv(s, items, concurrency, worker) && Stopped(s) && !SomeDead(s.lanes)
    ensures forall i: nat :: concurrency >= 1 && i < items ==> worker(i).Returned?
    ensures forall i :: 0 <= i < items ==>
      if concurrency >= 1 then s.results[i] == Some(worker(i).value) else s.results[i] == None
    ensures concurrency >= 1 ==> s.next == items
  {
    DeadExactly(s, items, concurrency, worker);
    if concurrency >= 1 && items > 0 {
      assert !Enabled(s.lanes[0]) && s.lanes[0].Finished?;
      StoppedHasAsked(s, items, concurrency, worker);
    }
  }

  // ---------------------------------------------------------------- the pool itself

  /** One turn of one lane, on the pool's shared variables. */
  method RunLane<R>(next: nat, lanes: seq<Lane>, results: seq<Option<R>>, l: nat, worker: nat -> Answer<R>)
    returns (next': nat, lanes': seq<Lane>, results': seq<Option<R>>)
    requires l < |lanes| && Enabled(lanes[l]) && (lanes[l].Working? ==> lanes[l].index < |results|)
    ensures Pool(next', lanes', results') == Step(Pool(next, lanes, results), l, worker)
  {
    next', lanes', results' := next, lanes, results;
    match lanes[l] {
      case Idle =>
        if next < |results| {
          next', lanes' := next + 1, lanes[l := Working(next)];
        } else {
          lanes' := lanes[l := Finished];
        }
      case Working(i) =>
        match worker(i) {
          case Returned(value) =>
            results', lanes' := results[i := Some(value)], lanes[l := Idle];
          case Rejected =>
            lanes' := lanes[l := Dead(i)];
        }
    }
  }

  /** Lanes take turns in any order. `None` is the rejection that `runPool` rethrows; `starts` logs the
      indices handed to workers. */
  method RunPool<R(0)>(items: nat, concurrency: int, worker: nat -> Answer<R>)
    returns (outcome: Option<seq<Option<R>>>, ghost starts: seq<nat>)
    ensures outcome.Some? <==> concurrency <= 0 || forall i: nat :: i < items ==> worker(i).Returned?
    ensures outcome.Some? ==> |outcome.value| == items && forall i :: 0 <= i < items ==>
      if concurrency >= 1 then outcome.value[i] == Some(worker(i).value) else outcome.value[i] == None
    ensures |starts| <= items && forall k :: 0 <= k < |starts| ==> starts[k] == k
    ensures outcome.Some? && concurrency >= 1 ==> |starts| == items
  {
    var next: nat := 0;
    var lanes: seq<Lane> := seq(LaneCount(items, concurrency), _ => Idle);
    var results: seq<Option<R>> := seq(items, _ => None);
    starts := [];
    InitialInv(items, concurrency, worker);
    while exists l :: 0 <= l < |lanes| && Enabled(lanes[l])
      invariant Inv(Pool(next, lanes, results), items, concurrency, worker)
      invariant |starts| == next && forall k :: 0 <= k < |starts| ==> starts[k] == k
      decreases Measure(Pool(next, lanes, results))
    {
      var l :| 0 <= l < |lanes| && Enabled(lanes[l]);
      StepKeeps(Pool(next, lanes, results), items, concurrency, worker, l);
      StepDecreases(Pool(next, lanes, results), worker, l);
      hide Inv, Measure;
      ghost var took := lanes[l].Idle? && next < |results|;
      starts := if took then starts + [next] else starts;
      next, lanes, results := RunLane(next, lanes, results, l, worker);
    }
    ghost var s := Pool(next, lanes, results);
    DeadExactly(s, items, concurrency, worker);
    if exists l :: 0 <= l < |lanes| && lanes[l].Dead? {
      outcome := None;
    } else {
      ResultsAtStop(s, items, concurrency, worker);
      outcome := Some(results);
    }
  }
}
