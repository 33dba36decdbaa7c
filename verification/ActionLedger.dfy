/** The idempotency ledger of `DesktopActionDispatcher` (src/desktop-action/dispatcher.ts): `dispatch`,
    `completeLedgerEntry` and `pruneLedger`.

    The ledger is a map in insertion order. A promise is known by the number of the `dispatchOnce` run
    behind it; the hash is taken to be as telling as the canonical text it digests. */
module ActionLedger {
  import opened Sequences
  import opened Sorting
  import opened CanonicalJson

  datatype Action = Action(requestId: Text, payload: Json)
  datatype Progress = InFlight | Completed(at: int)
  datatype Entry = Entry(requestId: Text, hash: Text, run: nat, progress: Progress, lastAccessedAt: int)

  /** `ttl` and `max` after `normalizeNonNegativeInteger`. */
  datatype Limits = Limits(ttl: nat, max: nat)

  datatype Ledger = Ledger(
    entries: seq<Entry>,
    started: seq<Action>,   // the actions `dispatchOnce` was called with, in order
    finished: set<nat>)     // runs whose promise has settled

  datatype Reply = Promised(run: nat) | Conflict

  datatype Event =
    | Dispatch(action: Action, at: int)
    | Settle(run: nat, at': int)

  const EMPTY := Ledger([], [], {})

  // ---------------------------------------------------------------- pruning

  predicate Expired(e: Entry, now: int, ttl: nat) {
    e.progress.Completed? && now - e.progress.at >= ttl
  }

  predicate ByAccess(a: Entry, b: Entry) {
    a.lastAccessedAt <= b.lastAccessedAt
  }

  function Live(entries: seq<Entry>, now: int, ttl: nat): seq<Entry> {
    Filter(entries, (e: Entry) => !Expired(e, now, ttl))
  }

  function CompletedOf(entries: seq<Entry>): seq<Entry> {
    Filter(entries, (e: Entry) => e.progress.Completed?)
  }

  /** The least recently used completed entries beyond the limit. */
  function Overflow(live: seq<Entry>, max: nat): (r: seq<Entry>)
    ensures forall e :: e in r ==> e in live && e.progress.Completed?
  {
    var byAge := SortBy(CompletedOf(live), ByAccess);
    if |byAge| <= max then []
    else
      var out := byAge[..|byAge| - max];
      assert forall e :: e in out ==> e in byAge;
      out
  }

  function Pruned(entries: seq<Entry>, now: int, limits: Limits): seq<Entry> {
    var live := Live(entries, now, limits.ttl);
    var evicted := Overflow(live, limits.max);
    Filter(live, (e: Entry) => e !in evicted)
  }

  // ---------------------------------------------------------------- events

  function Find(entries: seq<Entry>, id: Text): (r: Option<Entry>)
    ensures r.Some? ==> r.value in entries && r.value.requestId == id
    ensures r.None? ==> forall e :: e in entries ==> e.requestId != id
  {
    if entries == [] then None
    else if entries[0].requestId == id then Some(entries[0])
    else Find(entries[1..], id)
  }

  /** Replace the entry of `e.requestId`, keeping its place. */
  function Put(entries: seq<Entry>, e: Entry): (r: seq<Entry>)
    ensures |r| == |entries|
    ensures forall i :: 0 <= i < |r| ==> r[i] == if entries[i].requestId == e.requestId then e else entries[i]
  {
    seq(|entries|, i requires 0 <= i < |entries| => if entries[i].requestId == e.requestId then e else entries[i])
  }

  function Dispatched(s: Ledger, action: Action, now: int, limits: Limits): (Ledger, Reply) {
    var hash := CanonicalText(action.payload);
    var kept := Pruned(s.entries, now, limits);
    match Find(kept, action.requestId)
    case Some(e) =>
      (s.(entries := Put(kept, e.(lastAccessedAt := now))), if e.hash == hash then Promised(e.run) else Conflict)
    case None =>
      var run := |s.started|;
      var e := Entry(action.requestId, hash, run, InFlight, now);
      (Ledger(kept + [e], s.started + [action], s.finished), Promised(run))
  }

  function Settled(s: Ledger, run: nat, now: int, limits: Limits): Ledger {
    if run >= |s.started| || run in s.finished then s  // a promise settles once
    else
      var t := s.(finished := s.finished + {run});
      match Find(s.entries, s.started[run].requestId)
      case Some(e) =>
        if e.run != run then t
        else t.(entries := Pruned(Put(s.entries, e.(progress := Completed(now), lastAccessedAt := now)), now, limits))
      case None => t
  }

  function Next(s: Ledger, e: Event, limits: Limits): Ledger {
    match e
    case Dispatch(action, now) => Dispatched(s, action, now, limits).0
    case Settle(run, now) => Settled(s, run, now, limits)
  }

  function After(events: seq<Event>, limits: Limits): Ledger {
    if events == [] then EMPTY
    else Next(After(events[..|events| - 1], limits), events[|events| - 1], limits)
  }

  // ---------------------------------------------------------------- what pruning keeps

  lemma ByAccessIsPreorder()
    ensures TotalPreorder(ByAccess)
  {
  }

  ghost predicate UniqueIds(entries: seq<Entry>) {
    forall i, j :: 0 <= i < j < |entries| ==> entries[i].requestId != entries[j].requestId
  }

  lemma {:induction false} FilterUnique(entries: seq<Entry>, keep: Entry -> bool)
    requires UniqueIds(entries)
    ensures UniqueIds(Filter(entries, keep))
  {
    if entries != [] {
      FilterUnique(entries[1..], keep);
      forall x | x in Filter(entries[1..], keep) ensures x.requestId != entries[0].requestId {
        var k :| 0 < k < |entries| && entries[k] == x;
      }
    }
  }

  lemma UniqueDistinct(entries: seq<Entry>)
    requires UniqueIds(entries)
    ensures Distinct(entries)
  {
  }

  /** A pruned ledger: the in-flight entries all stay, no expired entry stays, at most `max` completed
      entries stay, and among the unexpired only entries no more recently used than every completed
      survivor go, and only as many as the limit asks for. */
  ghost predicate WellPruned(entries: seq<Entry>, now: int, limits: Limits, kept: seq<Entry>) {
    && UniqueIds(kept)
    && (forall e :: e in kept ==> e in entries && !Expired(e, now, limits.ttl))
    && (forall e :: e in entries && e.progress.InFlight? ==> e in kept)
    && |CompletedOf(kept)| <= limits.max
    && (forall e, k ::
          e in entries && !Expired(e, now, limits.ttl) && e !in kept && k in kept && k.progress.Completed? ==>
            e.lastAccessedAt <= k.lastAccessedAt)
    && (forall e :: e in entries && !Expired(e, now, limits.ttl) && e !in kept ==> |CompletedOf(kept)| == limits.max)
  }

  function Spared(live: seq<Entry>, max: nat): seq<Entry> {
    Filter(live, (e: Entry) => e !in Overflow(live, max))
  }

  /** The completed entries from the least to the most recently used; the overflow is the old end. */
  function ByAge(live: seq<Entry>): seq<Entry> {
    SortBy(CompletedOf(live), ByAccess)
  }

  lemma ByAgeSorted(live: seq<Entry>)
    requires UniqueIds(live)
    ensures Distinct(ByAge(live)) && Sorted(ByAge(live), ByAccess)
  {
    ByAccessIsPreorder();
    FilterUnique(live, (e: Entry) => e.progress.Completed?);
    UniqueDistinct(CompletedOf(live));
    SortByDistinct(CompletedOf(live), ByAccess);
    SortBySorts(CompletedOf(live), ByAccess);
  }

  lemma HalvesDisjoint(s: seq<Entry>, n: nat, x: Entry)
    requires Distinct(s) && n <= |s|
    ensures x in s <==> x in s[..n] || x in s[n..]
    ensures x in s[n..] ==> x !in s[..n]
  {
    assert s == s[..n] + s[n..];
  }

  lemma SparedAreYoung(live: seq<Entry>, max: nat, x: Entry)
    requires UniqueIds(live)
    ensures x in CompletedOf(Spared(live, max)) <==> x in ByAge(live)[|Overflow(live, max)|..]
  {
    ByAgeSorted(live);
    HalvesDisjoint(ByAge(live), |Overflow(live, max)|, x);
  }

  lemma SparedCount(live: seq<Entry>, max: nat)
    requires UniqueIds(live)
    ensures |CompletedOf(Spared(live, max))| == |CompletedOf(live)| - |Overflow(live, max)|
  {
    var young, spared := ByAge(live)[|Overflow(live, max)|..], CompletedOf(Spared(live, max));
    forall x ensures x in spared <==> x in young {
      SparedAreYoung(live, max, x);
    }
    FilterUnique(live, (e: Entry) => e !in Overflow(live, max));
    FilterUnique(Spared(live, max), (e: Entry) => e.progress.Completed?);
    UniqueDistinct(spared);
    ByAgeSorted(live);
    SameElements(spared, young);
    SameLength(spared, young);
  }

  lemma OverflowIsOld(live: seq<Entry>, max: nat, e: Entry, k: Entry)
    requires UniqueIds(live)
    requires e in Overflow(live, max) && k in Spared(live, max) && k.progress.Completed?
    ensures e.lastAccessedAt <= k.lastAccessedAt
  {
    var byAge, n := ByAge(live), |Overflow(live, max)|;
    ByAgeSorted(live);
    SparedAreYoung(live, max, k);
    var i :| 0 <= i < n && byAge[i] == e;
    var j :| 0 <= j < |byAge| - n && byAge[n..][j] == k;
    assert ByAccess(byAge[i], byAge[n + j]);
  }

  lemma PruneIsWell(entries: seq<Entry>, now: int, limits: Limits)
    requires UniqueIds(entries)
    ensures WellPruned(entries, now, limits, Pruned(entries, now, limits))
  {
    var live := Live(entries, now, limits.ttl);
    FilterUnique(entries, (e: Entry) => !Expired(e, now, limits.ttl));
    FilterUnique(live, (e: Entry) => e !in Overflow(live, limits.max));
    SparedCount(live, limits.max);
    assert Pruned(entries, now, limits) == Spared(live, limits.max);
    forall e, k | e in Overflow(live, limits.max) && k in Spared(live, limits.max) && k.progress.Completed?
      ensures e.lastAccessedAt <= k.lastAccessedAt
    {
      OverflowIsOld(live, limits.max, e, k);
    }
  }

  // ---------------------------------------------------------------- the ledger's invariant

  ghost predicate HasRun(entries: seq<Entry>, run: nat) {
    exists e :: e in entries && e.run == run
  }

  /** Entries answer for runs that were started for their request, and every run whose promise has not
      settled is in the ledger, in flight. */
  ghost predicate Inv(s: Ledger, max: nat) {
    && UniqueIds(s.entries)
    && (forall e :: e in s.entries ==>
          && e.run < |s.started| && s.started[e.run].requestId == e.requestId
          && e.hash == CanonicalText(s.started[e.run].payload)
          && (e.progress.InFlight? <==> e.run !in s.finished))
    && (forall run :: 0 <= run < |s.started| && run !in s.finished ==> HasRun(s.entries, run))
    && |CompletedOf(s.entries)| <= max
    && (forall run :: run in s.finished ==> run < |s.started|)
  }

  /** Pruning keeps the invariant: no unsettled run loses its entry. */
  lemma PruneKeeps(s: Ledger, now: int, limits: Limits, max: nat)
    requires Inv(s, max)
    ensures Inv(s.(entries := Pruned(s.entries, now, limits)), limits.max)
  {
    hide Pruned, CompletedOf, UniqueIds;
    var kept := Pruned(s.entries, now, limits);
    PruneIsWell(s.entries, now, limits);
    forall run | 0 <= run < |s.started| && run !in s.finished ensures HasRun(kept, run) {
      var e :| e in s.entries && e.run == run;
      assert e in kept;
    }
  }

  lemma SameIdSameEntry(entries: seq<Entry>, a: Entry, b: Entry)
    requires UniqueIds(entries) && a in entries && b in entries && a.requestId == b.requestId
    ensures a == b
  {
  }

  lemma {:induction false} PutCompleted(entries: seq<Entry>, e: Entry)
    requires e.progress.InFlight? ==> forall x :: x in entries && x.requestId == e.requestId ==> x.progress.InFlight?
    requires e.progress.Completed? ==> forall x :: x in entries && x.requestId == e.requestId ==> x.progress.Completed?
    ensures |CompletedOf(Put(entries, e))| == |CompletedOf(entries)|
  {
    if entries != [] {
      PutCompleted(entries[1..], e);
      assert Put(entries, e)[1..] == Put(entries[1..], e);
    }
  }

  lemma PutKeeps(s: Ledger, old': Entry, e: Entry, max: nat, finished: set<nat>)
    requires Inv(s, max) && old' in s.entries
    requires e.requestId == old'.requestId && e.run == old'.run && e.hash == old'.hash
    requires finished == s.finished || finished == s.finished + {e.run}
    requires e.progress.InFlight? <==> e.run !in finished
    ensures var t := s.(entries := Put(s.entries, e), finished := finished);
      Inv(t, |CompletedOf(t.entries)|)
  {
    var t := s.(entries := Put(s.entries, e), finished := finished);
    forall x | x in t.entries
      ensures x.run < |t.started| && t.started[x.run].requestId == x.requestId
      ensures x.hash == CanonicalText(t.started[x.run].payload)
      ensures x.progress.InFlight? <==> x.run !in finished
    {
      var i :| 0 <= i < |t.entries| && t.entries[i] == x;
      assert s.entries[i] in s.entries;
      if s.entries[i].requestId == e.requestId {
        SameIdSameEntry(s.entries, s.entries[i], old');
      }
    }
    forall run | 0 <= run < |t.started| && run !in finished ensures HasRun(t.entries, run) {
      assert HasRun(s.entries, run);
      var x :| x in s.entries && x.run == run;
      var i :| 0 <= i < |s.entries| && s.entries[i] == x;
      if x.requestId == e.requestId { SameIdSameEntry(s.entries, x, old'); }
      assert t.entries[i] in t.entries && t.entries[i].run == run;
    }
    assert UniqueIds(t.entries);
  }

  lemma {:induction false} AppendInFlight(entries: seq<Entry>, e: Entry)
    requires e.progress.InFlight?
    ensures CompletedOf(entries + [e]) == CompletedOf(entries)
  {
    if entries != [] {
      assert (entries + [e])[1..] == entries[1..] + [e];
      AppendInFlight(entries[1..], e);
    }
  }

  lemma StartKeeps(s: Ledger, action: Action, now: int, max: nat)
    requires Inv(s, max) && Find(s.entries, action.requestId).None?
    ensures var e := Entry(action.requestId, CanonicalText(action.payload), |s.started|, InFlight, now);
      Inv(Ledger(s.entries + [e], s.started + [action], s.finished), max)
  {
    var e := Entry(action.requestId, CanonicalText(action.payload), |s.started|, InFlight, now);
    var t := Ledger(s.entries + [e], s.started + [action], s.finished);
    AppendInFlight(s.entries, e);
    forall run | 0 <= run < |t.started| && run !in t.finished ensures HasRun(t.entries, run) {
      if run == |s.started| {
        assert e in t.entries;
      } else {
        assert HasRun(s.entries, run);
        var x :| x in s.entries && x.run == run;
        assert x in t.entries;
      }
    }
    assert UniqueIds(t.entries);
  }

  lemma DispatchKeeps(s: Ledger, action: Action, now: int, limits: Limits)
    requires Inv(s, limits.max)
    ensures Inv(Dispatched(s, action, now, limits).0, limits.max)
  {
    var t := s.(entries := Pruned(s.entries, now, limits));
    PruneKeeps(s, now, limits, limits.max);
    match Find(t.entries, action.requestId)
    case Some(e) =>
      var touched := e.(lastAccessedAt := now);
      PutKeeps(t, e, touched, limits.max, t.finished);
      forall x | x in t.entries && x.requestId == e.requestId ensures x == e {
        SameIdSameEntry(t.entries, x, e);
      }
      PutCompleted(t.entries, touched);
    case None =>
      StartKeeps(t, action, now, limits.max);
  }

  /** Completion always finds its own entry, in flight: the identity check never fails. */
  lemma SettleFindsOwn(s: Ledger, run: nat, max: nat)
    requires Inv(s, max) && run < |s.started| && run !in s.finished
    ensures var found := Find(s.entries, s.started[run].requestId);
      found.Some? && found.value.run == run && found.value.progress.InFlight?
  {
    assert HasRun(s.entries, run);
    var e :| e in s.entries && e.run == run;
    var found := Find(s.entries, s.started[run].requestId);
    assert e.requestId == s.started[run].requestId;
    SameIdSameEntry(s.entries, e, found.value);
  }

  lemma SettleKeeps(s: Ledger, run: nat, now: int, limits: Limits)
    requires Inv(s, limits.max)
    ensures Inv(Settled(s, run, now, limits), limits.max)
  {
    if run < |s.started| && run !in s.finished {
      SettleFindsOwn(s, run, limits.max);
      hide Pruned;
      var e := Find(s.entries, s.started[run].requestId).value;
      var done := e.(progress := Completed(now), lastAccessedAt := now);
      var t := s.(entries := Put(s.entries, done), finished := s.finished + {run});
      PutKeeps(s, e, done, limits.max, s.finished + {run});
      PruneKeeps(t, now, limits, |CompletedOf(t.entries)|);
    }
  }

  // ---------------------------------------------------------------- whole runs

  lemma NextKeeps(s: Ledger, e: Event, limits: Limits)
    requires Inv(s, limits.max)
    ensures Inv(Next(s, e, limits), limits.max)
  {
    match e
    case Dispatch(action, now) => DispatchKeeps(s, action, now, limits);
    case Settle(run, now) => SettleKeeps(s, run, now, limits);
  }

  /** After any events, under any clock readings, the invariant holds. */
  lemma {:induction false} EveryRunIsGood(events: seq<Event>, limits: Limits)
    ensures Inv(After(events, limits), limits.max)
  {
    if events != [] {
      var s := After(events[..|events| - 1], limits);
      EveryRunIsGood(events[..|events| - 1], limits);
      NextKeeps(s, events[|events| - 1], limits);
    }
  }

  /** Two runs of the same request are never under way together. */
  lemma NoConcurrentRuns(events: seq<Event>, limits: Limits, r: nat, q: nat)
    requires var s := After(events, limits);
      r < q < |s.started| && r !in s.finished && q !in s.finished
    ensures After(events, limits).started[r].requestId != After(events, limits).started[q].requestId
  {
    var s := After(events, limits);
    EveryRunIsGood(events, limits);
    SettleFindsOwn(s, r, limits.max);
    SettleFindsOwn(s, q, limits.max);
  }

  lemma {:induction false} StartedAreValid(events: seq<Event>, limits: Limits)
    requires forall e :: e in events && e.Dispatch? ==> Valid(e.action.payload)
    ensures forall a :: a in After(events, limits).started ==> Valid(a.payload)
  {
    hide Pruned, CanonicalText, Valid;
    if events != [] {
      assert events[|events| - 1] in events;
      StartedAreValid(events[..|events| - 1], limits);
    }
  }

  /** A dispatch starts a run exactly when pruning left no entry for its request; otherwise an equal
      payload shares the recorded run and a different one conflicts, and nothing runs. */
  lemma DispatchDecides(events: seq<Event>, limits: Limits, action: Action, now: int)
    requires Valid(action.payload)
    requires forall e :: e in events && e.Dispatch? ==> Valid(e.action.payload)
    ensures var s := After(events, limits);
      var (t, reply) := Dispatched(s, action, now, limits);
      match Find(Pruned(s.entries, now, limits), action.requestId)
      case None => t.started == s.started + [action] && reply == Promised(|s.started|)
      case Some(e) =>
        && t.started == s.started && e.run < |s.started|
        && s.started[e.run].requestId == action.requestId
        && reply == if Same(s.started[e.run].payload, action.payload) then Promised(e.run) else Conflict
  {
    var s := After(events, limits);
    EveryRunIsGood(events, limits);
    PruneKeeps(s, now, limits, limits.max);
    StartedAreValid(events, limits);
    match Find(Pruned(s.entries, now, limits), action.requestId)
    case None =>
    case Some(e) =>
      assert s.started[e.run] in s.started;
      TextDecidesSame(s.started[e.run].payload, action.payload);
  }

  /** No step of the event, pruning included, leaves the ledger without an entry of `id`. */
  ghost predicate Stays(s: Ledger, e: Event, id: Text, limits: Limits) {
    && (e.Dispatch? ==> Find(Pruned(s.entries, e.at, limits), id).Some?)
    && Find(Next(s, e, limits).entries, id).Some?
  }

  lemma FindOnly(entries: seq<Entry>, e: Entry)
    requires UniqueIds(entries) && e in entries
    ensures Find(entries, e.requestId) == Some(e)
  {
    SameIdSameEntry(entries, e, Find(entries, e.requestId).value);
  }

  lemma PutFinds(entries: seq<Entry>, e: Entry, id: Text)
    requires UniqueIds(entries) && Find(entries, e.requestId).Some? && Find(entries, id).Some?
    ensures Find(Put(entries, e), id) == if id == e.requestId then Some(e) else Find(entries, id)
  {
    var x := Find(entries, id).value;
    var i :| 0 <= i < |entries| && entries[i] == x;
    var t := Put(entries, e);
    assert UniqueIds(t);
    assert t[i] in t;
    FindOnly(t, t[i]);
  }

  lemma PrunedFinds(entries: seq<Entry>, now: int, limits: Limits, id: Text)
    requires UniqueIds(entries) && Find(Pruned(entries, now, limits), id).Some?
    ensures Find(entries, id) == Find(Pruned(entries, now, limits), id)
  {
    PruneIsWell(entries, now, limits);
    FindOnly(entries, Find(Pruned(entries, now, limits), id).value);
  }

  /** An entry that stays keeps standing for the same run. */
  lemma SameRunWhileItStays(s: Ledger, e: Event, id: Text, limits: Limits)
    requires Inv(s, limits.max) && Find(s.entries, id).Some? && Stays(s, e, id, limits)
    ensures Find(Next(s, e, limits).entries, id).value.run == Find(s.entries, id).value.run
  {
    match e
    case Dispatch(action, now) =>
      var kept := Pruned(s.entries, now, limits);
      PruneIsWell(s.entries, now, limits);
      PrunedFinds(s.entries, now, limits, id);
      match Find(kept, action.requestId) {
        case Some(x) =>
          PutFinds(kept, x.(lastAccessedAt := now), id);
        case None =>
          StartKeepsFinding(s, kept, action, now, limits, id);
      }
    case Settle(run, now) =>
      if run < |s.started| && run !in s.finished {
        SettleFindsOwn(s, run, limits.max);
        var x := Find(s.entries, s.started[run].requestId).value;
        var done := x.(progress := Completed(now), lastAccessedAt := now);
        PutFinds(s.entries, done, id);
        assert UniqueIds(Put(s.entries, done));
        PrunedFinds(Put(s.entries, done), now, limits, id);
      }
  }

  lemma StartKeepsFinding(s: Ledger, kept: seq<Entry>, action: Action, now: int, limits: Limits, id: Text)
    requires Inv(s, limits.max) && kept == Pruned(s.entries, now, limits)
    requires Find(kept, action.requestId).None? && Find(kept, id).Some?
    ensures Find(Dispatched(s, action, now, limits).0.entries, id) == Find(kept, id)
  {
    var t := Dispatched(s, action, now, limits).0;
    DispatchKeeps(s, action, now, limits);
    var x := Find(kept, id).value;
    assert x in t.entries;
    FindOnly(t.entries, x);
  }

  // ---------------------------------------------------------------- when an entry was last accessed

  /** The event is an access to the entry of `id` that stands for `run`: a dispatch of the request, whatever its
      payload, or the settlement of the run. */
  predicate Touches(s: Ledger, e: Event, id: Text, run: nat) {
    match e
    case Dispatch(action, _) => action.requestId == id
    case Settle(r, _) => r == run && r < |s.started| && r !in s.finished
  }

  function TimeOf(e: Event): int {
    match e
    case Dispatch(_, at) => at
    case Settle(_, at) => at
  }

  function LastTouch(events: seq<Event>, limits: Limits, id: Text, run: nat): Option<int> {
    if events == [] then None
    else
      var init, e := events[..|events| - 1], events[|events| - 1];
      if Touches(After(init, limits), e, id, run) then Some(TimeOf(e)) else LastTouch(init, limits, id, run)
  }

  function SettledAt(events: seq<Event>, limits: Limits, run: nat): Option<int> {
    if events == [] then None
    else
      var init, e := events[..|events| - 1], events[|events| - 1];
      if e.Settle? && Touches(After(init, limits), e, [], run) then Some(TimeOf(e)) else SettledAt(init, limits, run)
  }

  /** `x` is an entry of `entries` but perhaps for the time of its last access. */
  ghost predicate Carried(entries: seq<Entry>, x: Entry) {
    exists y :: y in entries && x == y.(lastAccessedAt := x.lastAccessedAt)
  }

  lemma HitTouches(kept: seq<Entry>, found: Entry, now: int, x: Entry)
    requires found in kept && x in Put(kept, found.(lastAccessedAt := now))
    ensures if x.requestId == found.requestId then x == found.(lastAccessedAt := now) else x in kept
  {
    var touched := found.(lastAccessedAt := now);
    var i :| 0 <= i < |kept| && Put(kept, touched)[i] == x;
    assert kept[i] in kept;
  }

  lemma DispatchTouches(s: Ledger, action: Action, now: int, limits: Limits, x: Entry)
    requires UniqueIds(s.entries) && x in Dispatched(s, action, now, limits).0.entries
    ensures if x.requestId == action.requestId
            then x.lastAccessedAt == now && (x.progress.InFlight? || Carried(s.entries, x)) else x in s.entries
    ensures !Expired(x, now, limits.ttl)
  {
    var kept := Pruned(s.entries, now, limits);
    assert forall e :: e in kept ==> e in s.entries && !Expired(e, now, limits.ttl) by {
      PruneIsWell(s.entries, now, limits);
    }
    hide Pruned, Carried, UniqueIds, Put;
    var found := Find(kept, action.requestId);
    if found.Some? {
      HitTouches(kept, found.value, now, x);
      if x.requestId == action.requestId { CarriedFrom(s.entries, found.value, now); }
    }
  }

  lemma CarriedFrom(entries: seq<Entry>, e: Entry, now: int)
    requires e in entries
    ensures Carried(entries, e.(lastAccessedAt := now))
  {
    assert e.(lastAccessedAt := now) == e.(lastAccessedAt := e.(lastAccessedAt := now).lastAccessedAt);
  }

  lemma SettleTouches(s: Ledger, run: nat, now: int, limits: Limits, x: Entry)
    requires Inv(s, limits.max) && run < |s.started| && run !in s.finished
    requires x in Settled(s, run, now, limits).entries
    ensures if x.run == run then x.lastAccessedAt == now && x.progress == Completed(now) else x in s.entries
    ensures !Expired(x, now, limits.ttl)
  {
    SettleFindsOwn(s, run, limits.max);
    var own := Find(s.entries, s.started[run].requestId).value;
    var done := own.(progress := Completed(now), lastAccessedAt := now);
    PutKeeps(s, own, done, limits.max, s.finished + {run});
    PruneIsWell(Put(s.entries, done), now, limits);
    hide Pruned, WellPruned;
    SettledFrom(s, run, now, limits, own, done, x);
  }

  lemma SettledFrom(s: Ledger, run: nat, now: int, limits: Limits, own: Entry, done: Entry, x: Entry)
    requires Inv(s, limits.max) && run < |s.started| && run !in s.finished
    requires Find(s.entries, s.started[run].requestId) == Some(own) && own.run == run
    requires done == own.(progress := Completed(now), lastAccessedAt := now)
    requires WellPruned(Put(s.entries, done), now, limits, Pruned(Put(s.entries, done), now, limits))
    requires x in Settled(s, run, now, limits).entries
    ensures if x.run == run then x.lastAccessedAt == now && x.progress == Completed(now) else x in s.entries
    ensures !Expired(x, now, limits.ttl)
  {
    hide Pruned;
    assert x in Put(s.entries, done);
    var i :| 0 <= i < |s.entries| && Put(s.entries, done)[i] == x;
    assert s.entries[i] in s.entries;
    if s.entries[i].requestId != own.requestId {
      assert s.started[s.entries[i].run].requestId == s.entries[i].requestId;
    }
  }

  /** What one event leaves behind: an entry it touched has its time, any other is as it was. */
  lemma EventTouches(s: Ledger, e: Event, limits: Limits, x: Entry)
    requires Inv(s, limits.max) && x in Next(s, e, limits).entries
    ensures if Touches(s, e, x.requestId, x.run) then x.lastAccessedAt == TimeOf(e) else x in s.entries
    ensures if e.Settle? && Touches(s, e, [], x.run) then x.progress == Completed(TimeOf(e))
            else x.progress.InFlight? || Carried(s.entries, x)
  {
    hide Inv, Dispatched, Settled, Carried;
    match e
    case Dispatch(action, now) =>
      assert UniqueIds(s.entries) by { InvIsUnique(s, limits.max); }
      DispatchTouches(s, action, now, limits, x);
      if x in s.entries { CarriedFrom(s.entries, x, x.lastAccessedAt); }
    case Settle(run, now) =>
      SettledTwice(s, run, now, limits);
      if run < |s.started| && run !in s.finished { SettleTouches(s, run, now, limits, x); }
      if x in s.entries { CarriedFrom(s.entries, x, x.lastAccessedAt); }
  }

  lemma InvIsUnique(s: Ledger, max: nat)
    requires Inv(s, max)
    ensures UniqueIds(s.entries)
  {
  }

  /** In every run, each entry carries the time of the last event that dispatched its request or settled its run,
      and a completed one the time its run settled: the recency by which entries are evicted is real. */
  lemma {:induction false} AccessTimesAreReal(events: seq<Event>, limits: Limits, x: Entry)
    requires x in After(events, limits).entries
    ensures LastTouch(events, limits, x.requestId, x.run) == Some(x.lastAccessedAt)
    ensures x.progress.Completed? ==> SettledAt(events, limits, x.run) == Some(x.progress.at)
  {
    if events != [] {
      var init, e := events[..|events| - 1], events[|events| - 1];
      var s := After(init, limits);
      EveryRunIsGood(init, limits);
      hide Inv, Next;
      EventTouches(s, e, limits, x);
      if x in s.entries {
        AccessTimesAreReal(init, limits, x);
      } else if x.progress.Completed? && !(e.Settle? && Touches(s, e, [], x.run)) {
        var y :| y in s.entries && x == y.(lastAccessedAt := x.lastAccessedAt);
        AccessTimesAreReal(init, limits, y);
      }
    }
  }

  /** A run settles once. */
  lemma SettledTwice(s: Ledger, run: nat, now: int, limits: Limits)
    ensures run >= |s.started| || run in s.finished ==> Settled(s, run, now, limits) == s
    ensures run < |s.started| ==> Settled(s, run, now, limits).finished == s.finished + {run}
  {
    if run in s.finished { assert s.finished + {run} == s.finished; }
  }

  /** After a dispatch, and after the settlement of a run, no expired entry is left. */
  lemma NoneExpired(s: Ledger, e: Event, limits: Limits, x: Entry)
    requires Inv(s, limits.max) && (e.Settle? ==> e.run < |s.started| && e.run !in s.finished)
    requires x in Next(s, e, limits).entries
    ensures x.progress.Completed? ==> TimeOf(e) < x.progress.at + limits.ttl
  {
    hide Inv, Dispatched, Settled;
    match e
    case Dispatch(action, now) =>
      InvIsUnique(s, limits.max);
      DispatchTouches(s, action, now, limits, x);
    case Settle(run, now) =>
      SettleTouches(s, run, now, limits, x);
  }

  /** A dispatch leaves an entry of its own request, that of the run it answers with if it answers with one. */
  lemma DispatchLeavesOwn(s: Ledger, action: Action, now: int, limits: Limits)
    requires Inv(s, limits.max)
    ensures var (t, reply) := Dispatched(s, action, now, limits);
      var own := Find(t.entries, action.requestId);
      own.Some? && (reply.Promised? ==> own.value.run == reply.run)
  {
    var kept := Pruned(s.entries, now, limits);
    assert UniqueIds(kept) by { PruneIsWell(s.entries, now, limits); }
    hide Pruned, Inv;
    var found := Find(kept, action.requestId);
    if found.Some? {
      PutFinds(kept, found.value.(lastAccessedAt := now), action.requestId);
    } else {
      FindsLast(kept, Entry(action.requestId, CanonicalText(action.payload), |s.started|, InFlight, now));
    }
  }

  lemma {:induction false} FindsLast(entries: seq<Entry>, e: Entry)
    requires Find(entries, e.requestId).None?
    ensures Find(entries + [e], e.requestId) == Some(e)
  {
    if entries != [] {
      assert (entries + [e])[1..] == entries[1..] + [e];
      FindsLast(entries[1..], e);
    }
  }

  /** A settlement completes the entry of its run and prunes, and does nothing else to the ledger. */
  lemma SettlePrunes(s: Ledger, run: nat, now: int, limits: Limits)
    requires Inv(s, limits.max) && run < |s.started| && run !in s.finished
    ensures var own := Find(s.entries, s.started[run].requestId);
      && own.Some? && own.value.run == run
      && WellPruned(Put(s.entries, own.value.(progress := Completed(now), lastAccessedAt := now)), now, limits,
                    Settled(s, run, now, limits).entries)
    ensures Settled(s, run, now, limits).started == s.started
  {
    SettleFindsOwn(s, run, limits.max);
    var own := Find(s.entries, s.started[run].requestId).value;
    var done := own.(progress := Completed(now), lastAccessedAt := now);
    PutKeeps(s, own, done, limits.max, s.finished + {run});
    PruneIsWell(Put(s.entries, done), now, limits);
    hide Pruned, WellPruned, Inv;
  }

  /** A dispatch touches no other entry than its own but to prune it. */
  lemma OthersStay(s: Ledger, action: Action, now: int, limits: Limits, x: Entry)
    requires x.requestId != action.requestId
    ensures x in Dispatched(s, action, now, limits).0.entries <==> x in Pruned(s.entries, now, limits)
  {
    var kept := Pruned(s.entries, now, limits);
    hide Pruned;
    var found := Find(kept, action.requestId);
    if found.Some? {
      var touched := found.value.(lastAccessedAt := now);
      if x in kept {
        var i :| 0 <= i < |kept| && kept[i] == x;
        assert Put(kept, touched)[i] == x;
      }
    }
  }

  function Later(s: Ledger, events: seq<Event>, limits: Limits): Ledger
    decreases |events|
  {
    if events == [] then s else Later(Next(s, events[0], limits), events[1..], limits)
  }

  ghost predicate StaysThroughout(s: Ledger, events: seq<Event>, id: Text, limits: Limits)
    decreases |events|
  {
    events != [] ==>
      Stays(s, events[0], id, limits) && StaysThroughout(Next(s, events[0], limits), events[1..], id, limits)
  }

  lemma NothingStarts(s: Ledger, e: Event, id: Text, limits: Limits)
    requires Stays(s, e, id, limits)
    ensures var t := Next(s, e, limits);
      s.started <= t.started && forall k :: |s.started| <= k < |t.started| ==> t.started[k].requestId != id
  {
  }

  /** At most once: over any run during which a request stays in the ledger, whatever is dispatched and
      settled, its entry stands for one run and no other run of it starts. */
  lemma {:induction false} OneRunWhileItStays(s: Ledger, events: seq<Event>, id: Text, limits: Limits)
    requires Inv(s, limits.max) && Find(s.entries, id).Some? && StaysThroughout(s, events, id, limits)
    ensures var t := Later(s, events, limits);
      && Find(t.entries, id).Some? && Find(t.entries, id).value.run == Find(s.entries, id).value.run
      && s.started <= t.started && forall k :: |s.started| <= k < |t.started| ==> t.started[k].requestId != id
    decreases |events|
  {
    hide Inv;
    if events != [] {
      var next := Next(s, events[0], limits);
      NextKeeps(s, events[0], limits);
      NothingStarts(s, events[0], id, limits);
      SameRunWhileItStays(s, events[0], id, limits);
      hide Next, Dispatched, Settled, Pruned;
      OneRunWhileItStays(next, events[1..], id, limits);
      var t := Later(next, events[1..], limits);
      assert forall k :: |s.started| <= k < |next.started| ==> t.started[k] == next.started[k];
    }
  }

  // ---------------------------------------------------------------- the class

  lemma {:induction false} FilterTwice(s: seq<Entry>, p: Entry -> bool, q: Entry -> bool, both: Entry -> bool)
    requires forall e :: e in s ==> (both(e) <==> p(e) && q(e))
    ensures Filter(Filter(s, p), q) == Filter(s, both)
  {
    if s != [] {
      FilterTwice(s[1..], p, q, both);
      if p(s[0]) { assert ([s[0]] + Filter(s[1..], p))[1..] == Filter(s[1..], p); }
    }
  }

  lemma {:induction false} FilterSame(s: seq<Entry>, p: Entry -> bool, q: Entry -> bool)
    requires forall e :: e in s ==> (p(e) <==> q(e))
    ensures Filter(s, p) == Filter(s, q)
  {
    if s != [] {
      FilterSame(s[1..], p, q);
    }
  }

  function Delete(entries: seq<Entry>, id: Text): seq<Entry> {
    Filter(entries, (e: Entry) => e.requestId != id)
  }

  /** The entries left once the first `i` of `snapshot` were examined for expiry. */
  function Examined(snapshot: seq<Entry>, i: nat, now: int, ttl: nat): seq<Entry>
    requires i <= |snapshot|
  {
    Filter(snapshot, (e: Entry) => !(Expired(e, now, ttl) && e in snapshot[..i]))
  }

  lemma ExamineNext(snapshot: seq<Entry>, i: nat, now: int, ttl: nat)
    requires UniqueIds(snapshot) && i < |snapshot|
    ensures Examined(snapshot, i + 1, now, ttl) ==
      if Expired(snapshot[i], now, ttl) then Delete(Examined(snapshot, i, now, ttl), snapshot[i].requestId)
      else Examined(snapshot, i, now, ttl)
  {
    var x := snapshot[i];
    assert snapshot[..i + 1] == snapshot[..i] + [x];
    var before := (e: Entry) => !(Expired(e, now, ttl) && e in snapshot[..i]);
    var after := (e: Entry) => !(Expired(e, now, ttl) && e in snapshot[..i + 1]);
    if Expired(x, now, ttl) {
      forall e | e in snapshot ensures after(e) <==> before(e) && e.requestId != x.requestId {
        if e.requestId == x.requestId { SameIdSameEntry(snapshot, e, x); }
        UniqueBefore(snapshot, i);
      }
      FilterTwice(snapshot, before, (e: Entry) => e.requestId != x.requestId, after);
    } else {
      FilterSame(snapshot, before, after);
    }
  }

  lemma UniqueBefore(snapshot: seq<Entry>, i: nat)
    requires UniqueIds(snapshot) && i < |snapshot|
    ensures snapshot[i] !in snapshot[..i]
  {
  }

  lemma EvictNext(live: seq<Entry>, out: seq<Entry>, i: nat)
    requires UniqueIds(live) && i < |out| && forall e :: e in out ==> e in live
    ensures Filter(live, (e: Entry) => e !in out[..i + 1]) ==
            Delete(Filter(live, (e: Entry) => e !in out[..i]), out[i].requestId)
  {
    var x := out[i];
    assert out[..i + 1] == out[..i] + [x];
    forall e | e in live ensures e !in out[..i + 1] <==> e !in out[..i] && e.requestId != x.requestId {
      if e.requestId == x.requestId { SameIdSameEntry(live, e, x); }
      if e == x { assert e in out[..i + 1]; }
    }
    FilterTwice(live, (e: Entry) => e !in out[..i], (e: Entry) => e.requestId != x.requestId,
                (e: Entry) => e !in out[..i + 1]);
  }

  class DesktopActionDispatcher {
    const limits: Limits
    var ledger: seq<Entry>
    var started: seq<Action>
    var finished: set<nat>

    ghost function State(): Ledger
      reads this
    {
      Ledger(ledger, started, finished)
    }

    ghost predicate Valid()
      reads this
    {
      Inv(State(), limits.max)
    }

    constructor (limits: Limits)
      ensures Valid() && State() == EMPTY && this.limits == limits
    {
      this.limits := limits;
      ledger, started, finished := [], [], {};
    }

    method PruneLedger(now: int)
      requires UniqueIds(ledger)
      modifies this`ledger
      ensures ledger == Pruned(old(ledger), now, limits)
    {
      var snapshot := ledger;
      FilterAll(snapshot, (e: Entry) => !(Expired(e, now, limits.ttl) && e in snapshot[..0]));
      for i := 0 to |snapshot|
        invariant ledger == Examined(snapshot, i, now, limits.ttl)
      {
        ExamineNext(snapshot, i, now, limits.ttl);
        if Expired(snapshot[i], now, limits.ttl) {
          ledger := Delete(ledger, snapshot[i].requestId);
        }
      }
      assert snapshot[..|snapshot|] == snapshot;
      FilterSame(snapshot, (e: Entry) => !(Expired(e, now, limits.ttl) && e in snapshot[..|snapshot|]),
                 (e: Entry) => !Expired(e, now, limits.ttl));
      ghost var live := ledger;
      FilterUnique(snapshot, (e: Entry) => !Expired(e, now, limits.ttl));
      var completed := SortBy(CompletedOf(ledger), ByAccess);
      var overflow := |completed| - limits.max;
      ghost var out := Overflow(live, limits.max);
      FilterAll(live, (e: Entry) => e !in out[..0]);
      var index := 0;
      while index < overflow
        invariant 0 <= index <= |out|
        invariant ledger == Filter(live, (e: Entry) => e !in out[..index])
      {
        EvictNext(live, out, index);
        ledger := Delete(ledger, completed[index].requestId);
        index := index + 1;
      }
      assert out[..|out|] == out;
    }

    method Dispatch(action: Action, now: int) returns (reply: Reply)
      requires Valid()
      modifies this
      ensures Valid() && (State(), reply) == Dispatched(old(State()), action, now, limits)
    {
      DispatchKeeps(State(), action, now, limits);
      var hash := CanonicalText(action.payload);
      PruneLedger(now);
      var existing := Find(ledger, action.requestId);
      if existing.Some? {
        ledger := Put(ledger, existing.value.(lastAccessedAt := now));
        return if existing.value.hash == hash then Promised(existing.value.run) else Conflict;
      }
      var run := |started|;
      started := started + [action];
      ledger := ledger + [Entry(action.requestId, hash, run, InFlight, now)];
      return Promised(run);
    }

    /** The promise of `run` settles, and its continuation completes the entry. */
    method CompleteLedgerEntry(run: nat, now: int)
      requires Valid() && run < |started| && run !in finished
      modifies this
      ensures Valid() && State() == Settled(old(State()), run, now, limits)
    {
      SettleKeeps(State(), run, now, limits);
      hide Inv;
      finished := finished + {run};
      var found := Find(ledger, started[run].requestId);
      if found.None? || found.value.run != run { return; }
      ledger := Put(ledger, found.value.(progress := Completed(now), lastAccessedAt := now));
      PruneLedger(now);
    }
  }
}
