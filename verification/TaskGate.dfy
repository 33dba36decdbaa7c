/** The task manager (extensions/task-manager.ts): `task_create`, `task_update`, the gate on unfinished
    blockers, and the recovery of ids from the persisted state. Ids in requests arrive trimmed. */
module TaskGate {
  import opened Sequences

  datatype Status = Pending | InProgress | Completed | Blocked | Deleted
  datatype Task = Task(status: Status, blockedBy: seq<string>, blocks: seq<string>)
  datatype Manager = Manager(tasks: map<string, Task>, nextId: nat)

  datatype Event =
    | Create(status: Status, blockedBy: seq<string>)
    | Update(id: string, status': Option<Status>, addBlocks: seq<string>, addBlockedBy: seq<string>)
    | Restart(listing: seq<(string, Task)>)  // read back the state just written, tasks in any order

  // ---------------------------------------------------------------- ids are decimal numerals

  function Digit(d: nat): char
    requires d < 10
  {
    "0123456789"[d]
  }

  /** `String(n)`. */
  function Decimal(n: nat): string {
    if n < 10 then [Digit(n)] else Decimal(n / 10) + [Digit(n % 10)]
  }

  function DigitValue(c: char): nat {
    if '0' <= c <= '9' then c as nat - '0' as nat else 0
  }

  function Value(s: string): nat {
    if s == "" then 0 else 10 * Value(s[..|s| - 1]) + DigitValue(s[|s| - 1])
  }

  lemma {:induction false} ValueOfDecimal(n: nat)
    ensures Value(Decimal(n)) == n && Decimal(n) != "" && forall c :: c in Decimal(n) ==> '0' <= c <= '9'
  {
    if n >= 10 {
      ValueOfDecimal(n / 10);
      assert Decimal(n)[..|Decimal(n)| - 1] == Decimal(n / 10);
    } else {
      assert Decimal(n)[..0] == "";
    }
  }

  lemma DecimalInjective(m: nat, n: nat)
    ensures Decimal(m) == Decimal(n) <==> m == n
  {
    ValueOfDecimal(m);
    ValueOfDecimal(n);
  }

  predicate CanonicalId(s: string) {
    s != "" && (forall c :: c in s ==> '0' <= c <= '9') && Value(s) > 0 && Decimal(Value(s)) == s
  }

  // ---------------------------------------------------------------- small list operations

  function AddUnique(ids: seq<string>, id: string): seq<string> {
    if id in ids then ids else ids + [id]
  }

  /** `uniqueIds` after trimming: nonempty ids, each once, in order. */
  function UniqueIds(ids: seq<string>): (r: seq<string>)
    ensures forall x :: x in r <==> x in ids && x != ""
    ensures Distinct(r)
  {
    if ids == [] then []
    else
      var before := UniqueIds(ids[..|ids| - 1]);
      if ids[|ids| - 1] == "" then before else AddUnique(before, ids[|ids| - 1])
  }

  predicate Finished(tasks: map<string, Task>, id: string) {
    id in tasks && tasks[id].status == Completed
  }

  function UnfinishedBlockers(tasks: map<string, Task>, task: Task): (r: seq<string>)
    ensures forall x :: x in r <==> x in task.blockedBy && !Finished(tasks, x)
  {
    Filter(task.blockedBy, x => !Finished(tasks, x))
  }

  predicate Starts(s: Status) {
    s == InProgress || s == Completed
  }

  // ---------------------------------------------------------------- edges

  /** `id` blocks `other`: recorded at `id`, and at `other` if there is such a task. */
  function LinkBlocks(tasks: map<string, Task>, id: string, other: string): map<string, Task>
    requires id in tasks
  {
    var t := tasks[id := tasks[id].(blocks := AddUnique(tasks[id].blocks, other))];
    if other in t then t[other := t[other].(blockedBy := AddUnique(t[other].blockedBy, id))] else t
  }

  function LinkBlockedBy(tasks: map<string, Task>, id: string, other: string): map<string, Task>
    requires id in tasks
  {
    var t := tasks[id := tasks[id].(blockedBy := AddUnique(tasks[id].blockedBy, other))];
    if other in t then t[other := t[other].(blocks := AddUnique(t[other].blocks, id))] else t
  }

  /** Only the far end: what a new task does for blockers it already lists. */
  function NoteBlocker(tasks: map<string, Task>, id: string, blocker: string): map<string, Task> {
    if blocker !in tasks then tasks
    else tasks[blocker := tasks[blocker].(blocks := AddUnique(tasks[blocker].blocks, id))]
  }

  function LinkAllBlocks(tasks: map<string, Task>, id: string, ids: seq<string>): (r: map<string, Task>)
    requires id in tasks
    ensures r.Keys == tasks.Keys
  {
    if ids == [] then tasks else LinkBlocks(LinkAllBlocks(tasks, id, ids[..|ids| - 1]), id, ids[|ids| - 1])
  }

  function LinkAllBlockedBy(tasks: map<string, Task>, id: string, ids: seq<string>): (r: map<string, Task>)
    requires id in tasks
    ensures r.Keys == tasks.Keys
  {
    if ids == [] then tasks else LinkBlockedBy(LinkAllBlockedBy(tasks, id, ids[..|ids| - 1]), id, ids[|ids| - 1])
  }

  function NoteAllBlockers(tasks: map<string, Task>, id: string, ids: seq<string>): (r: map<string, Task>)
    ensures r.Keys == tasks.Keys
  {
    if ids == [] then tasks else NoteBlocker(NoteAllBlockers(tasks, id, ids[..|ids| - 1]), id, ids[|ids| - 1])
  }

  // ---------------------------------------------------------------- the two tools

  function NewTask(status: Status, blockedBy: seq<string>): Task {
    Task(status, UniqueIds(blockedBy), [])
  }

  function Created(m: Manager, status: Status, blockedBy: seq<string>): (Manager, bool) {
    var id, task := Decimal(m.nextId), NewTask(status, blockedBy);
    if Starts(status) && UnfinishedBlockers(m.tasks, task) != [] then (m.(nextId := m.nextId + 1), false)
    else (Manager(NoteAllBlockers(m.tasks[id := task], id, task.blockedBy), m.nextId + 1), true)
  }

  function Candidate(m: Manager, id: string, addBlocks: seq<string>, addBlockedBy: seq<string>): (r: map<string, Task>)
    requires id in m.tasks
    ensures r.Keys == m.tasks.Keys
  {
    LinkAllBlockedBy(LinkAllBlocks(m.tasks, id, UniqueIds(addBlocks)), id, UniqueIds(addBlockedBy))
  }

  /** `false` when the task is unknown here, or the gate refuses. */
  function Updated(m: Manager, id: string, status: Option<Status>, addBlocks: seq<string>, addBlockedBy: seq<string>)
    : (Manager, bool)
  {
    if id !in m.tasks then (m, false)
    else
      var c := Candidate(m, id, addBlocks, addBlockedBy);
      if status.Some? && Starts(status.value) && UnfinishedBlockers(c, c[id]) != [] then (m, false)
      else (m.(tasks := if status.Some? then c[id := c[id].(status := status.value)] else c), true)
  }

  ghost function Next(m: Manager, e: Event): Manager {
    match e
    case Create(status, blockedBy) => Created(m, status, blockedBy).0
    case Update(id, status, addBlocks, addBlockedBy) => Updated(m, id, status, addBlocks, addBlockedBy).0
    case Restart(listing) => if ListingOf(m, listing) then Restored(Load(Snapshot(m.nextId, listing))) else m
  }

  /** A state that cannot be read back would be lost. */
  function Restored(loaded: Option<Manager>): Manager {
    match loaded
    case Some(m) => m
    case None => Manager(map[], 1)
  }

  ghost function After(m: Manager, events: seq<Event>): Manager {
    if events == [] then m else Next(After(m, events[..|events| - 1]), events[|events| - 1])
  }

  // ---------------------------------------------------------------- edges only accumulate

  /** `t` has every task of `s`, with the same status and at least the same edges. */
  ghost predicate Grows(s: map<string, Task>, t: map<string, Task>) {
    forall id :: id in s ==>
      id in t && t[id].status == s[id].status && s[id].blockedBy <= t[id].blockedBy && s[id].blocks <= t[id].blocks
  }

  lemma GrowsThrough(s: map<string, Task>, t: map<string, Task>, u: map<string, Task>)
    requires Grows(s, t) && Grows(t, u)
    ensures Grows(s, u)
  {
  }

  lemma AddUniqueGrows(ids: seq<string>, id: string)
    ensures ids <= AddUnique(ids, id)
  {
  }

  lemma LinkBlocksGrows(tasks: map<string, Task>, id: string, other: string)
    requires id in tasks
    ensures Grows(tasks, LinkBlocks(tasks, id, other))
  {
    AddUniqueGrows(tasks[id].blocks, other);
    if other in tasks { AddUniqueGrows(tasks[other].blockedBy, id); }
    hide AddUnique;
  }

  lemma LinkBlockedByGrows(tasks: map<string, Task>, id: string, other: string)
    requires id in tasks
    ensures Grows(tasks, LinkBlockedBy(tasks, id, other))
  {
    AddUniqueGrows(tasks[id].blockedBy, other);
    if other in tasks { AddUniqueGrows(tasks[other].blocks, id); }
    hide AddUnique;
  }

  lemma {:induction false} LinksGrow(tasks: map<string, Task>, id: string, ids: seq<string>)
    requires id in tasks
    ensures Grows(tasks, LinkAllBlocks(tasks, id, ids)) && Grows(tasks, LinkAllBlockedBy(tasks, id, ids))
  {
    if ids != [] {
      var init, last := ids[..|ids| - 1], ids[|ids| - 1];
      LinksGrow(tasks, id, init);
      var t, u := LinkAllBlocks(tasks, id, init), LinkAllBlockedBy(tasks, id, init);
      LinkBlocksGrows(t, id, last);
      LinkBlockedByGrows(u, id, last);
      hide Grows, LinkBlocks, LinkBlockedBy;
      GrowsThrough(tasks, t, LinkBlocks(t, id, last));
      GrowsThrough(tasks, u, LinkBlockedBy(u, id, last));
    }
  }

  lemma {:induction false} NotesGrow(tasks: map<string, Task>, id: string, ids: seq<string>)
    ensures Grows(tasks, NoteAllBlockers(tasks, id, ids))
    ensures forall x :: x in tasks ==> NoteAllBlockers(tasks, id, ids)[x].blockedBy == tasks[x].blockedBy
  {
    if ids != [] {
      NotesGrow(tasks, id, ids[..|ids| - 1]);
    }
  }

  lemma CandidateGrows(m: Manager, id: string, addBlocks: seq<string>, addBlockedBy: seq<string>)
    requires id in m.tasks
    ensures Grows(m.tasks, Candidate(m, id, addBlocks, addBlockedBy))
  {
    LinksGrow(m.tasks, id, UniqueIds(addBlocks));
    LinksGrow(LinkAllBlocks(m.tasks, id, UniqueIds(addBlocks)), id, UniqueIds(addBlockedBy));
    GrowsThrough(m.tasks, LinkAllBlocks(m.tasks, id, UniqueIds(addBlocks)), Candidate(m, id, addBlocks, addBlockedBy));
  }

  /** Ids in use are numerals of numbers already given out. */
  ghost predicate Fresh(m: Manager) {
    m.nextId >= 1 && forall id :: id in m.tasks ==> exists n: nat :: 1 <= n < m.nextId && id == Decimal(n)
  }

  lemma NewIdIsNew(m: Manager)
    requires Fresh(m)
    ensures Decimal(m.nextId) !in m.tasks
  {
    if Decimal(m.nextId) in m.tasks {
      var n: nat :| 1 <= n < m.nextId && Decimal(m.nextId) == Decimal(n);
      DecimalInjective(m.nextId, n);
    }
  }

  /** What holds of every manager the tools and the state file produce. */
  ghost predicate Sound(m: Manager) {
    Fresh(m) && Tidy(m.tasks)
  }

  lemma RestartChangesNothing(m: Manager, e: Event)
    requires Sound(m) && e.Restart?
    ensures Next(m, e) == m
  {
    if ListingOf(m, e.listing) { SaveThenLoad(m, e.listing); }
  }

  lemma EventKeepsSound(m: Manager, e: Event)
    requires Sound(m)
    ensures Sound(Next(m, e)) && m.nextId <= Next(m, e).nextId
    ensures e.Create? ==> Next(m, e).nextId == m.nextId + 1
  {
    EventKeepsTidy(m, e);
    hide Decimal, Tidy, Load;
    if e.Restart? { RestartChangesNothing(m, e); }
  }

  lemma NewTaskGrows(m: Manager, status: Status, blockedBy: seq<string>)
    ensures var id, task := Decimal(m.nextId), NewTask(status, blockedBy);
      var before := m.tasks[id := task];
      var after := NoteAllBlockers(before, id, task.blockedBy);
      Grows(before, after) && forall x :: x in before ==> after[x].blockedBy == before[x].blockedBy
  {
    var task := NewTask(status, blockedBy);
    NotesGrow(m.tasks[Decimal(m.nextId) := task], Decimal(m.nextId), task.blockedBy);
  }

  /** One event never removes a task nor a `blockedBy` edge. */
  lemma EdgesStay(m: Manager, e: Event)
    requires Sound(m)
    ensures forall id :: id in m.tasks ==>
      id in Next(m, e).tasks && m.tasks[id].blockedBy <= Next(m, e).tasks[id].blockedBy
  {
    match e
    case Create(status, blockedBy) =>
      NewIdIsNew(m);
      NewTaskGrows(m, status, blockedBy);
    case Update(id, status, addBlocks, addBlockedBy) =>
      if id in m.tasks { CandidateGrows(m, id, addBlocks, addBlockedBy); }
    case Restart(_) =>
      RestartChangesNothing(m, e);
  }

  /** Over any run of creates, updates and restarts, edges never disappear and numbers only grow. */
  lemma {:induction false} EdgesStayForever(m: Manager, events: seq<Event>)
    requires Sound(m)
    ensures Sound(After(m, events)) && m.nextId <= After(m, events).nextId
    ensures forall id :: id in m.tasks ==>
      id in After(m, events).tasks && m.tasks[id].blockedBy <= After(m, events).tasks[id].blockedBy
  {
    if events != [] {
      var s := After(m, events[..|events| - 1]);
      EdgesStayForever(m, events[..|events| - 1]);
      EventKeepsSound(s, events[|events| - 1]);
      EdgesStay(s, events[|events| - 1]);
    }
  }

  /** Whatever happens between two creates, refused or not, restarts included, they give out different ids,
      and a create never reuses the id of a task. */
  lemma IdsNeverReused(m: Manager, e: Event, between: seq<Event>)
    requires Sound(m) && e.Create?
    ensures var later := After(Next(m, e), between);
      Decimal(later.nextId) != Decimal(m.nextId) && Decimal(later.nextId) !in later.tasks
  {
    EventKeepsSound(m, e);
    EdgesStayForever(Next(m, e), between);
    NewIdIsNew(After(Next(m, e), between));
    DecimalInjective(After(Next(m, e), between).nextId, m.nextId);
  }

  // ---------------------------------------------------------------- the gate

  /** An update that starts or completes a task is accepted exactly when every blocker the task would
      then have is already completed. */
  lemma UpdateGate(m: Manager, id: string, status: Status, addBlocks: seq<string>, addBlockedBy: seq<string>)
    requires id in m.tasks && Starts(status)
    ensures Updated(m, id, Some(status), addBlocks, addBlockedBy).1 <==>
      forall b :: b in Candidate(m, id, addBlocks, addBlockedBy)[id].blockedBy ==> Finished(m.tasks, b)
  {
    CandidateGrows(m, id, addBlocks, addBlockedBy);
    var c := Candidate(m, id, addBlocks, addBlockedBy);
    hide Candidate;
    forall b ensures Finished(c, b) <==> Finished(m.tasks, b) {
      if b in m.tasks { GrowsAt(m.tasks, c, b); }
    }
    hide Grows;
    var u := UnfinishedBlockers(c, c[id]);
    if u != [] { assert u[0] in u; }
  }

  /** A create that starts or completes a task is accepted exactly when every named blocker is completed. */
  lemma CreateGate(m: Manager, status: Status, blockedBy: seq<string>)
    requires Starts(status)
    ensures Created(m, status, blockedBy).1 <==> forall b :: b in blockedBy && b != "" ==> Finished(m.tasks, b)
  {
    var u := UnfinishedBlockers(m.tasks, NewTask(status, blockedBy));
    if u != [] { assert u[0] in u; }
  }

  lemma LinkBlocksEdges(tasks: map<string, Task>, id: string, other: string, x: string, y: string)
    requires id in tasks && x in tasks
    ensures var t := LinkBlocks(tasks, id, other);
      && x in t
      && (y in t[x].blocks <==> y in tasks[x].blocks || (x == id && y == other))
      && (y in t[x].blockedBy <==> y in tasks[x].blockedBy || (x == other && y == id))
  {
  }

  lemma LinkBlockedByEdges(tasks: map<string, Task>, id: string, other: string, x: string, y: string)
    requires id in tasks && x in tasks
    ensures var t := LinkBlockedBy(tasks, id, other);
      && x in t
      && (y in t[x].blockedBy <==> y in tasks[x].blockedBy || (x == id && y == other))
      && (y in t[x].blocks <==> y in tasks[x].blocks || (x == other && y == id))
  {
  }

  lemma {:induction false} AllBlocksEdges(tasks: map<string, Task>, id: string, ids: seq<string>, x: string, y: string)
    requires id in tasks && x in tasks
    ensures var t := LinkAllBlocks(tasks, id, ids);
      && (y in t[x].blocks <==> y in tasks[x].blocks || (x == id && y in ids))
      && (y in t[x].blockedBy <==> y in tasks[x].blockedBy || (x in ids && y == id))
  {
    hide LinkBlocks;
    if ids != [] {
      AllBlocksEdges(tasks, id, ids[..|ids| - 1], x, y);
      LinkBlocksEdges(LinkAllBlocks(tasks, id, ids[..|ids| - 1]), id, ids[|ids| - 1], x, y);
      assert ids == ids[..|ids| - 1] + [ids[|ids| - 1]];
    }
  }

  lemma {:induction false} AllBlockedByEdges(
      tasks: map<string, Task>, id: string, ids: seq<string>, x: string, y: string)
    requires id in tasks && x in tasks
    ensures var t := LinkAllBlockedBy(tasks, id, ids);
      && (y in t[x].blockedBy <==> y in tasks[x].blockedBy || (x == id && y in ids))
      && (y in t[x].blocks <==> y in tasks[x].blocks || (x in ids && y == id))
  {
    hide LinkBlockedBy;
    if ids != [] {
      AllBlockedByEdges(tasks, id, ids[..|ids| - 1], x, y);
      LinkBlockedByEdges(LinkAllBlockedBy(tasks, id, ids[..|ids| - 1]), id, ids[|ids| - 1], x, y);
      assert ids == ids[..|ids| - 1] + [ids[|ids| - 1]];
    }
  }

  /** The edges an update adds are the ones asked for, at both ends where there is a task, for every task. */
  lemma CandidateEdges(
      m: Manager, id: string, addBlocks: seq<string>, addBlockedBy: seq<string>, x: string, y: string)
    requires id in m.tasks && x in m.tasks && x != ""
    ensures var t := Candidate(m, id, addBlocks, addBlockedBy);
      && (y in t[x].blockedBy <==>
            || y in m.tasks[x].blockedBy
            || (x == id && y in addBlockedBy && y != "")
            || (y == id && x in addBlocks))
      && (y in t[x].blocks <==>
            || y in m.tasks[x].blocks
            || (x == id && y in addBlocks && y != "")
            || (y == id && x in addBlockedBy))
  {
    AllBlocksEdges(m.tasks, id, UniqueIds(addBlocks), x, y);
    AllBlockedByEdges(LinkAllBlocks(m.tasks, id, UniqueIds(addBlocks)), id, UniqueIds(addBlockedBy), x, y);
  }

  /** An update is refused exactly when it starts or completes a task with an unfinished blocker, or knows no
      such task; refused, it changes nothing; accepted, it adds its edges, sets the status asked for, and
      leaves every other status and the numbering alone. */
  lemma UpdatedExactly(
      m: Manager, id: string, status: Option<Status>, addBlocks: seq<string>, addBlockedBy: seq<string>)
    ensures var (n, ok) := Updated(m, id, status, addBlocks, addBlockedBy);
      && (id !in m.tasks ==> !ok)
      && (id in m.tasks && !(status.Some? && Starts(status.value)) ==> ok)
      && (!ok ==> n == m)
      && (ok ==>
            && n.nextId == m.nextId && n.tasks.Keys == m.tasks.Keys
            && forall x :: x in m.tasks ==>
                 && n.tasks[x].blockedBy == Candidate(m, id, addBlocks, addBlockedBy)[x].blockedBy
                 && n.tasks[x].blocks == Candidate(m, id, addBlocks, addBlockedBy)[x].blocks
                 && n.tasks[x].status == if x == id && status.Some? then status.value else m.tasks[x].status)
  {
    if id in m.tasks {
      CandidateGrows(m, id, addBlocks, addBlockedBy);
      hide Candidate, UnfinishedBlockers;
    }
  }

  /** A create is accepted unless it starts or completes a task with an unfinished blocker; refused, it changes
      nothing but the numbering; accepted, it adds one task under the next number, with the status and blockers
      asked for, and notes it at each blocker that exists. */
  lemma CreatedExactly(m: Manager, status: Status, blockedBy: seq<string>, y: string)
    requires Fresh(m)
    ensures var (n, ok) := Created(m, status, blockedBy);
      var id := Decimal(m.nextId);
      && (!Starts(status) ==> ok)
      && n.nextId == m.nextId + 1
      && (!ok ==> n.tasks == m.tasks)
      && (ok ==>
            && n.tasks.Keys == m.tasks.Keys + {id}
            && n.tasks[id].status == status
            && (y in n.tasks[id].blockedBy <==> y in blockedBy && y != "")
            && (y in n.tasks[id].blocks <==> y == id && id in blockedBy)
            && forall x :: x in m.tasks ==>
                 && n.tasks[x].status == m.tasks[x].status && n.tasks[x].blockedBy == m.tasks[x].blockedBy
                 && (y in n.tasks[x].blocks <==> y in m.tasks[x].blocks || (y == id && x in blockedBy && x != "")))
  {
    var id, task := Decimal(m.nextId), NewTask(status, blockedBy);
    NewIdIsNew(m);
    NotesAre(m.tasks[id := task], id, task.blockedBy);
    assert id != "" by { ValueOfDecimal(m.nextId); }
    hide Decimal, NoteAllBlockers, UniqueIds, UnfinishedBlockers;
  }

  // ---------------------------------------------------------------- deadlock

  ghost predicate WaitsFor(m: Manager, id: string, others: set<string>)
    requires id in m.tasks
  {
    exists b :: b in m.tasks[id].blockedBy && b in others
  }

  /** Unfinished tasks each of which waits for another of them. */
  ghost predicate Stuck(m: Manager, stuck: set<string>) {
    forall id :: id in stuck ==> id in m.tasks && m.tasks[id].status != Completed && WaitsFor(m, id, stuck)
  }

  ghost predicate Cycle(m: Manager, c: seq<string>) {
    && c != []
    && (forall i :: 0 <= i < |c| ==> c[i] in m.tasks && m.tasks[c[i]].status != Completed)
    && (forall i :: 0 <= i < |c| ==> c[(i + 1) % |c|] in m.tasks[c[i]].blockedBy)
  }

  lemma CycleIsStuck(m: Manager, c: seq<string>)
    requires Cycle(m, c)
    ensures Stuck(m, Elements(c))
  {
    forall id | id in Elements(c)
      ensures id in m.tasks && m.tasks[id].status != Completed && WaitsFor(m, id, Elements(c))
    {
      var i :| 0 <= i < |c| && c[i] == id;
      assert c[(i + 1) % |c|] in Elements(c);
    }
  }

  /** No event completes or starts a stuck task, and stuck tasks stay stuck. */
  lemma StuckStaysStuck(m: Manager, e: Event, stuck: set<string>)
    requires Sound(m) && Stuck(m, stuck)
    ensures Stuck(Next(m, e), stuck)
    ensures forall id :: id in stuck && Next(m, e).tasks[id].status == InProgress ==> m.tasks[id].status == InProgress
  {
    hide Next, Sound;
    var n := Next(m, e);
    forall id | id in stuck
      ensures id in n.tasks && n.tasks[id].status != Completed && WaitsFor(n, id, stuck)
      ensures n.tasks[id].status == InProgress ==> m.tasks[id].status == InProgress
    {
      StuckOne(m, e, stuck, id);
    }
  }

  lemma StuckOne(m: Manager, e: Event, stuck: set<string>, id: string)
    requires Sound(m) && Stuck(m, stuck) && id in stuck
    ensures var n := Next(m, e);
      && id in n.tasks && n.tasks[id].status != Completed && WaitsFor(n, id, stuck)
      && (n.tasks[id].status == InProgress ==> m.tasks[id].status == InProgress)
  {
    EdgesStay(m, e);
    hide Sound, Created, Updated;
    match e {
      case Create(status, blockedBy) => CreateKeepsStatuses(m, status, blockedBy);
      case Update(x, status, addBlocks, addBlockedBy) =>
        UpdateKeepsStuck(m, x, status, addBlocks, addBlockedBy, stuck, id);
      case Restart(_) => RestartChangesNothing(m, e);
    }
    var b :| b in m.tasks[id].blockedBy && b in stuck;
    assert b in Next(m, e).tasks[id].blockedBy;
  }

  lemma CreateKeepsStatuses(m: Manager, status: Status, blockedBy: seq<string>)
    requires Fresh(m)
    ensures var n := Created(m, status, blockedBy).0;
      forall id :: id in m.tasks ==> id in n.tasks && n.tasks[id].status == m.tasks[id].status
  {
    NewIdIsNew(m);
    NewTaskGrows(m, status, blockedBy);
  }

  lemma GrowsAt(s: map<string, Task>, t: map<string, Task>, id: string)
    requires Grows(s, t) && id in s
    ensures id in t && t[id].status == s[id].status
    ensures forall b :: b in s[id].blockedBy ==> b in t[id].blockedBy
  {
  }

  lemma UpdateKeepsStuck(
      m: Manager, id: string, status: Option<Status>, addBlocks: seq<string>, addBlockedBy: seq<string>,
      stuck: set<string>, x: string)
    requires Stuck(m, stuck) && x in stuck
    ensures var n := Updated(m, id, status, addBlocks, addBlockedBy).0;
      && x in n.tasks && n.tasks[x].status != Completed
      && (n.tasks[x].status == InProgress ==> m.tasks[x].status == InProgress)
  {
    if id in m.tasks {
      if id == x && status.Some? && Starts(status.value) {
        StuckIsRefused(m, id, status.value, addBlocks, addBlockedBy, stuck);
      }
      CandidateGrows(m, id, addBlocks, addBlockedBy);
      GrowsAt(m.tasks, Candidate(m, id, addBlocks, addBlockedBy), x);
      UpdatedStatus(m, id, status, addBlocks, addBlockedBy, x);
      hide Candidate, Updated, Grows, WaitsFor;
    }
  }

  /** An accepted update changes at most the status of its own task, to the one asked for. */
  lemma UpdatedStatus(
      m: Manager, id: string, status: Option<Status>, addBlocks: seq<string>, addBlockedBy: seq<string>, x: string)
    requires id in m.tasks && x in m.tasks
    ensures var (n, ok) := Updated(m, id, status, addBlocks, addBlockedBy);
      && (ok || n == m) && x in n.tasks
      && (ok ==> n.tasks[x].status == if x == id && status.Some? then status.value
                                      else Candidate(m, id, addBlocks, addBlockedBy)[x].status)
  {
    hide Candidate, UnfinishedBlockers;
  }

  /** Starting or completing a stuck task is refused. */
  lemma StuckIsRefused(
      m: Manager, id: string, status: Status, addBlocks: seq<string>, addBlockedBy: seq<string>, stuck: set<string>)
    requires Stuck(m, stuck) && id in stuck && Starts(status)
    ensures !Updated(m, id, Some(status), addBlocks, addBlockedBy).1
  {
    hide Candidate, Updated, Created, Grows;
    var c := Candidate(m, id, addBlocks, addBlockedBy);
    CandidateGrows(m, id, addBlocks, addBlockedBy);
    GrowsAt(m.tasks, c, id);
    var b :| b in m.tasks[id].blockedBy && b in stuck;
    assert b in c[id].blockedBy && !Finished(m.tasks, b);
    UpdateGate(m, id, status, addBlocks, addBlockedBy);
  }

  /** Once unfinished tasks wait for each other in a cycle, no run of creates, updates and restarts ever
      completes any of them, nor starts one that was not already in progress. */
  lemma {:induction false} CycleNeverMoves(m: Manager, c: seq<string>, events: seq<Event>)
    requires Sound(m) && Cycle(m, c)
    ensures var t := After(m, events);
      && Sound(t) && Stuck(t, Elements(c))
      && forall id :: id in c ==>
           && id in t.tasks && t.tasks[id].status != Completed
           && (t.tasks[id].status == InProgress ==> m.tasks[id].status == InProgress)
  {
    if events == [] {
      CycleIsStuck(m, c);
    } else {
      var s := After(m, events[..|events| - 1]);
      CycleNeverMoves(m, c, events[..|events| - 1]);
      EventKeepsSound(s, events[|events| - 1]);
      StuckStaysStuck(s, events[|events| - 1], Elements(c));
      forall id | id in c ensures id in Elements(c) {
      }
    }
  }

  // ---------------------------------------------------------------- the two directions of an edge

  /** Between existing tasks, `blockedBy` and `blocks` say the same. */
  ghost predicate Symmetric(tasks: map<string, Task>) {
    forall a, b :: a in tasks && b in tasks ==> (b in tasks[a].blockedBy <==> a in tasks[b].blocks)
  }

  lemma LinkBlocksSymmetric(tasks: map<string, Task>, id: string, other: string)
    requires Symmetric(tasks) && id in tasks
    ensures Symmetric(LinkBlocks(tasks, id, other))
  {
  }

  lemma LinkBlockedBySymmetric(tasks: map<string, Task>, id: string, other: string)
    requires Symmetric(tasks) && id in tasks
    ensures Symmetric(LinkBlockedBy(tasks, id, other))
  {
  }

  lemma {:induction false} LinksSymmetric(tasks: map<string, Task>, id: string, ids: seq<string>)
    requires Symmetric(tasks) && id in tasks
    ensures Symmetric(LinkAllBlocks(tasks, id, ids)) && Symmetric(LinkAllBlockedBy(tasks, id, ids))
  {
    if ids != [] {
      LinksSymmetric(tasks, id, ids[..|ids| - 1]);
      LinkBlocksSymmetric(LinkAllBlocks(tasks, id, ids[..|ids| - 1]), id, ids[|ids| - 1]);
      LinkBlockedBySymmetric(LinkAllBlockedBy(tasks, id, ids[..|ids| - 1]), id, ids[|ids| - 1]);
    }
  }

  lemma UpdateKeepsSymmetry(m: Manager, e: Event)
    requires Symmetric(m.tasks) && e.Update?
    ensures Symmetric(Next(m, e).tasks)
  {
    if e.id in m.tasks {
      LinksSymmetric(m.tasks, e.id, UniqueIds(e.addBlocks));
      LinksSymmetric(LinkAllBlocks(m.tasks, e.id, UniqueIds(e.addBlocks)), e.id, UniqueIds(e.addBlockedBy));
      var c := Candidate(m, e.id, e.addBlocks, e.addBlockedBy);
      assert Symmetric(c);
    }
  }

  lemma {:induction false} NotesAre(tasks: map<string, Task>, id: string, ids: seq<string>)
    ensures var t := NoteAllBlockers(tasks, id, ids);
      forall x :: x in tasks ==>
        && t[x].blockedBy == tasks[x].blockedBy && t[x].status == tasks[x].status
        && forall y :: y in t[x].blocks <==> y in tasks[x].blocks || (y == id && x in ids)
  {
    if ids != [] {
      NotesAre(tasks, id, ids[..|ids| - 1]);
      assert ids == ids[..|ids| - 1] + [ids[|ids| - 1]];
    }
  }

  /** An accepted create keeps the two directions in step exactly when no task already names the new id
      as its blocker, and every task that already claims to block the new id is among its blockers. */
  lemma CreateKeepsSymmetryExactly(m: Manager, status: Status, blockedBy: seq<string>)
    requires Fresh(m) && Symmetric(m.tasks) && Created(m, status, blockedBy).1
    ensures Symmetric(Created(m, status, blockedBy).0.tasks) <==>
      forall a :: a in m.tasks ==>
        && Decimal(m.nextId) !in m.tasks[a].blockedBy
        && (Decimal(m.nextId) in m.tasks[a].blocks ==> a in UniqueIds(blockedBy))
  {
    var id, task := Decimal(m.nextId), NewTask(status, blockedBy);
    var with := m.tasks[id := task];
    var t := Created(m, status, blockedBy).0.tasks;
    NewIdIsNew(m);
    NotesAre(with, id, task.blockedBy);
    hide Decimal, UniqueIds;
    forall a | a in m.tasks ensures with[a] == m.tasks[a] {
    }
    assert with[id] == task;
    assert forall y :: y in t[id].blocks <==> y == id && id in task.blockedBy;
    if Symmetric(t) {
      forall a | a in m.tasks
        ensures id !in m.tasks[a].blockedBy && (id in m.tasks[a].blocks ==> a in task.blockedBy)
      {
        assert id in t[a].blockedBy <==> a in t[id].blocks;
        assert a in t[id].blockedBy <==> id in t[a].blocks;
      }
    }
  }

  /** A task that names an id not yet given out loses the symmetry once that id is: the new task's `blocks`
      does not name it back. */
  lemma NamedTooEarly()
    ensures var m := After(Manager(map[], 1), [Create(Pending, ["2"]), Create(Pending, [])]);
      !Symmetric(m.tasks) && Sound(m)
  {
    var a, b := Create(Pending, ["2"]), Create(Pending, []);
    var m0 := Manager(map[], 1);
    assert [a, b][..1] == [a] && [a][..0] == [];
    EdgesStayForever(m0, [a, b]);
    hide NoteAllBlockers;
    assert Decimal(1) == "1" && Decimal(2) == "2";
    var m1 := Next(m0, a);
    assert UniqueIds(["2"]) == ["2"] by { UniqueIdsIdentity(["2"]); }
    NotesAre(map["1" := Task(Pending, ["2"], [])], "1", ["2"]);
    assert m1.tasks["1"].blockedBy == ["2"] && "2" !in m1.tasks;
    var with := m1.tasks["2" := Task(Pending, [], [])];
    NotesAre(with, "2", []);
    var m2 := Next(m1, b);
    assert "2" in m2.tasks["1"].blockedBy && "1" !in m2.tasks["2"].blocks;
  }

  // ---------------------------------------------------------------- persistence

  /** The state file: what was written, or anything else that has its shape. */
  datatype Snapshot = Snapshot(nextId: nat, tasks: seq<(string, Task)>)

  function MaxId(tasks: seq<(string, Task)>): (r: nat)
    ensures forall x :: x in tasks ==> Value(x.0) <= r
  {
    if tasks == [] then 0
    else
      var rest := MaxId(tasks[1..]);
      if Value(tasks[0].0) > rest then Value(tasks[0].0) else rest
  }

  function ToMap(tasks: seq<(string, Task)>): (r: map<string, Task>)
    ensures forall id :: id in r <==> exists x :: x in tasks && x.0 == id
  {
    if tasks == [] then map[]
    else ToMap(tasks[..|tasks| - 1])[tasks[|tasks| - 1].0 := tasks[|tasks| - 1].1]
  }

  /** `parseTask` cleans the id lists. */
  function Clean(t: Task): Task {
    t.(blockedBy := UniqueIds(t.blockedBy), blocks := UniqueIds(t.blocks))
  }

  function CleanAll(tasks: seq<(string, Task)>): (r: seq<(string, Task)>)
    ensures |r| == |tasks| && forall i :: 0 <= i < |r| ==> r[i] == (tasks[i].0, Clean(tasks[i].1))
  {
    seq(|tasks|, i requires 0 <= i < |tasks| => (tasks[i].0, Clean(tasks[i].1)))
  }

  ghost predicate DistinctKeys(tasks: seq<(string, Task)>) {
    forall i, j :: 0 <= i < j < |tasks| ==> tasks[i].0 != tasks[j].0
  }

  /** `readTaskManagerState`, for a file of the right shape. */
  ghost function Load(s: Snapshot): Option<Manager> {
    if (exists x :: x in s.tasks && !CanonicalId(x.0)) || !DistinctKeys(s.tasks) then None
    else
      var least := MaxId(s.tasks) + 1;
      Some(Manager(ToMap(CleanAll(s.tasks)), if s.nextId > least then s.nextId else least))
  }

  /** However the file came about, the ids it restores are all in the past, and the id lists are clean: any
      run may start from a restored state. */
  lemma LoadedIsSound(s: Snapshot)
    requires Load(s).Some?
    ensures Sound(Load(s).value)
  {
    var m := Load(s).value;
    forall id | id in m.tasks
      ensures id != "" && exists n: nat :: 1 <= n < m.nextId && id == Decimal(n)
      ensures exists t: Task :: m.tasks[id] == Clean(t)
    {
      var i := WhereLoaded(s, id);
      LoadedId(s, i);
    }
    hide Load, Decimal;
  }

  /** Every task of the file comes back with its status and its nonblank ids, and numbering goes on behind both
      the number in the file and every id in it. */
  lemma LoadedExactly(s: Snapshot, i: nat, y: string)
    requires Load(s).Some? && i < |s.tasks|
    ensures var m, (id, t) := Load(s).value, s.tasks[i];
      && id in m.tasks && m.tasks[id].status == t.status
      && (y in m.tasks[id].blockedBy <==> y in t.blockedBy && y != "")
      && (y in m.tasks[id].blocks <==> y in t.blocks && y != "")
      && m.nextId >= s.nextId && m.nextId > Value(id)
    ensures |Load(s).value.tasks| <= |s.tasks|
  {
    hide CanonicalId, Value, UniqueIds;
    assert s.tasks[i] in s.tasks;
    ToMapLooksUp(CleanAll(s.tasks), i);
    ToMapFits(CleanAll(s.tasks));
    hide ToMap;
  }

  lemma {:induction false} ToMapFits(tasks: seq<(string, Task)>)
    ensures |ToMap(tasks)| <= |tasks|
  {
    if tasks != [] {
      var before, last := ToMap(tasks[..|tasks| - 1]), tasks[|tasks| - 1];
      ToMapFits(tasks[..|tasks| - 1]);
      assert ToMap(tasks).Keys == before.Keys + {last.0};
      assert |ToMap(tasks)| == |ToMap(tasks).Keys| && |before| == |before.Keys|;
    }
  }

  lemma WhereLoaded(s: Snapshot, id: string) returns (i: nat)
    requires Load(s).Some? && id in Load(s).value.tasks
    ensures i < |s.tasks| && s.tasks[i].0 == id && Load(s).value.tasks[id] == Clean(s.tasks[i].1)
  {
    hide CanonicalId, MaxId, Clean, ToMap;
    var clean := CleanAll(s.tasks);
    var x :| x in clean && x.0 == id;
    i :| 0 <= i < |clean| && clean[i] == x;
    ToMapLooksUp(clean, i);
  }

  lemma LoadedId(s: Snapshot, i: nat)
    requires Load(s).Some? && i < |s.tasks|
    ensures s.tasks[i].0 != "" && 1 <= Value(s.tasks[i].0) < Load(s).value.nextId
    ensures s.tasks[i].0 == Decimal(Value(s.tasks[i].0))
  {
    assert s.tasks[i] in s.tasks && CanonicalId(s.tasks[i].0);
  }

  /** Id lists without repetition and without blanks. */
  ghost predicate Tidy(tasks: map<string, Task>) {
    forall id :: id in tasks ==>
      && id != "" && Distinct(tasks[id].blockedBy) && Distinct(tasks[id].blocks)
      && "" !in tasks[id].blockedBy && "" !in tasks[id].blocks
  }

  lemma AddUniqueTidy(ids: seq<string>, id: string)
    requires Distinct(ids) && "" !in ids && id != ""
    ensures Distinct(AddUnique(ids, id)) && "" !in AddUnique(ids, id)
  {
  }

  lemma LinkTidy(tasks: map<string, Task>, id: string, other: string)
    requires Tidy(tasks) && other != ""
    ensures id in tasks ==> Tidy(LinkBlocks(tasks, id, other)) && Tidy(LinkBlockedBy(tasks, id, other))
    ensures id != "" ==> Tidy(NoteBlocker(tasks, id, other))
  {
    hide Distinct;
    if id != "" {
      forall x | x in tasks
        ensures Distinct(AddUnique(tasks[x].blocks, id)) && "" !in AddUnique(tasks[x].blocks, id)
        ensures Distinct(AddUnique(tasks[x].blockedBy, id)) && "" !in AddUnique(tasks[x].blockedBy, id)
      {
        AddUniqueTidy(tasks[x].blocks, id);
        AddUniqueTidy(tasks[x].blockedBy, id);
      }
    }
    if id in tasks {
      AddUniqueTidy(tasks[id].blocks, other);
      AddUniqueTidy(tasks[id].blockedBy, other);
      if other == id {
        AddUniqueTidy(AddUnique(tasks[id].blocks, other), id);
        AddUniqueTidy(AddUnique(tasks[id].blockedBy, other), id);
      }
    }
  }

  lemma {:induction false} LinksTidy(tasks: map<string, Task>, id: string, ids: seq<string>)
    requires Tidy(tasks) && "" !in ids && id in tasks
    ensures Tidy(LinkAllBlocks(tasks, id, ids)) && Tidy(LinkAllBlockedBy(tasks, id, ids))
    ensures Tidy(NoteAllBlockers(tasks, id, ids))
  {
    if ids != [] {
      var init, last := ids[..|ids| - 1], ids[|ids| - 1];
      assert id != "" && last in ids;
      LinksTidy(tasks, id, init);
      hide Tidy, LinkBlocks, LinkBlockedBy, NoteBlocker;
      LinkTidy(LinkAllBlocks(tasks, id, init), id, last);
      LinkTidy(LinkAllBlockedBy(tasks, id, init), id, last);
      LinkTidy(NoteAllBlockers(tasks, id, init), id, last);
    }
  }

  lemma CreateKeepsTidy(m: Manager, status: Status, blockedBy: seq<string>)
    requires Tidy(m.tasks)
    ensures Tidy(Created(m, status, blockedBy).0.tasks)
  {
    hide LinkAllBlocks, LinkAllBlockedBy, Decimal, Value, UniqueIds;
    ValueOfDecimal(m.nextId);
    var id, task := Decimal(m.nextId), NewTask(status, blockedBy);
    assert Tidy(m.tasks[id := task]);
    LinksTidy(m.tasks[id := task], id, task.blockedBy);
  }

  lemma UpdateKeepsTidy(
      m: Manager, id: string, status: Option<Status>, addBlocks: seq<string>, addBlockedBy: seq<string>)
    requires Tidy(m.tasks)
    ensures Tidy(Updated(m, id, status, addBlocks, addBlockedBy).0.tasks)
  {
    if id in m.tasks {
      hide NoteAllBlockers, UniqueIds;
      LinksTidy(m.tasks, id, UniqueIds(addBlocks));
      LinksTidy(LinkAllBlocks(m.tasks, id, UniqueIds(addBlocks)), id, UniqueIds(addBlockedBy));
      var c := Candidate(m, id, addBlocks, addBlockedBy);
      assert Tidy(c);
      hide Candidate, LinkAllBlocks, LinkAllBlockedBy;
    }
  }

  lemma EventKeepsTidy(m: Manager, e: Event)
    requires Sound(m)
    ensures Tidy(Next(m, e).tasks)
  {
    hide Tidy, Created, Updated;
    match e
    case Create(status, blockedBy) => CreateKeepsTidy(m, status, blockedBy);
    case Update(id, status, addBlocks, addBlockedBy) => UpdateKeepsTidy(m, id, status, addBlocks, addBlockedBy);
    case Restart(_) => RestartChangesNothing(m, e);
  }

  lemma {:induction false} UniqueIdsIdentity(ids: seq<string>)
    requires Distinct(ids) && "" !in ids
    ensures UniqueIds(ids) == ids
  {
    if ids != [] {
      var init := ids[..|ids| - 1];
      UniqueIdsIdentity(init);
      assert ids == init + [ids[|ids| - 1]];
      assert ids[|ids| - 1] !in init;
    }
  }

  lemma {:induction false} ToMapLooksUp(tasks: seq<(string, Task)>, i: nat)
    requires DistinctKeys(tasks) && i < |tasks|
    ensures tasks[i].0 in ToMap(tasks) && ToMap(tasks)[tasks[i].0] == tasks[i].1
    decreases |tasks|
  {
    if i < |tasks| - 1 {
      ToMapLooksUp(tasks[..|tasks| - 1], i);
      assert tasks[i].0 != tasks[|tasks| - 1].0;
    }
  }

  /** `listing` writes down the tasks of `m`, each once. */
  ghost predicate ListingOf(m: Manager, listing: seq<(string, Task)>) {
    && DistinctKeys(listing)
    && (forall x :: x in listing ==> x.0 in m.tasks && m.tasks[x.0] == x.1)
    && (forall id :: id in m.tasks ==> exists x :: x in listing && x.0 == id)
  }

  lemma ListingIsMap(m: Manager, listing: seq<(string, Task)>)
    requires ListingOf(m, listing)
    ensures ToMap(listing) == m.tasks
  {
    hide ToMap;
    forall id | id in m.tasks ensures id in ToMap(listing) && ToMap(listing)[id] == m.tasks[id] {
      var x :| x in listing && x.0 == id;
      var i :| 0 <= i < |listing| && listing[i] == x;
      ToMapLooksUp(listing, i);
    }
    forall id | id in ToMap(listing) ensures id in m.tasks {
      var x :| x in listing && x.0 == id;
    }
  }

  lemma ListedIsCanonical(m: Manager, listing: seq<(string, Task)>, x: (string, Task))
    requires Fresh(m) && Tidy(m.tasks) && ListingOf(m, listing) && x in listing
    ensures CanonicalId(x.0) && Value(x.0) < m.nextId && Clean(x.1) == x.1
  {
    var n: nat :| 1 <= n < m.nextId && x.0 == Decimal(n);
    ValueOfDecimal(n);
    UniqueIdsIdentity(x.1.blockedBy);
    UniqueIdsIdentity(x.1.blocks);
  }

  /** Writing the state and reading it back gives the same manager, in every state reached from a tidy
      one whose ids are in the past. */
  lemma SaveThenLoad(m: Manager, listing: seq<(string, Task)>)
    requires Fresh(m) && Tidy(m.tasks) && ListingOf(m, listing)
    ensures Load(Snapshot(m.nextId, listing)) == Some(m)
  {
    forall x | x in listing ensures CanonicalId(x.0) && Value(x.0) < m.nextId && Clean(x.1) == x.1 {
      ListedIsCanonical(m, listing, x);
    }
    hide CanonicalId, Value, Clean, ToMap, MaxId, Tidy;
    assert CleanAll(listing) == listing by {
      forall i | 0 <= i < |listing| ensures CleanAll(listing)[i] == listing[i] {
        assert listing[i] in listing;
      }
    }
    ListingIsMap(m, listing);
    MaxIdBelow(listing, m.nextId);
  }

  lemma {:induction false} MaxIdBelow(tasks: seq<(string, Task)>, bound: nat)
    requires bound >= 1 && forall x :: x in tasks ==> Value(x.0) < bound
    ensures MaxId(tasks) < bound
  {
    if tasks != [] {
      assert tasks[0] in tasks;
      MaxIdBelow(tasks[1..], bound);
    }
  }

  // ---------------------------------------------------------------- the tools' variables

  class TaskManager {
    var tasks: map<string, Task>
    var nextId: nat

    function State(): Manager
      reads this
    {
      Manager(tasks, nextId)
    }

    ghost predicate Valid()
      reads this
    {
      Sound(State())
    }

    constructor ()
      ensures Valid() && State() == Manager(map[], 1)
    {
      tasks, nextId := map[], 1;
    }

    method NoteBlockers(id: string, blockers: seq<string>)
      modifies this`tasks
      ensures tasks == NoteAllBlockers(old(tasks), id, blockers)
    {
      for i := 0 to |blockers|
        invariant tasks == NoteAllBlockers(old(tasks), id, blockers[..i])
      {
        assert blockers[..i + 1][..i] == blockers[..i];
        tasks := NoteBlocker(tasks, id, blockers[i]);
      }
      assert blockers[..|blockers|] == blockers;
    }

    method TaskCreate(status: Status, blockedBy: seq<string>) returns (id: string, ok: bool)
      requires Valid()
      modifies this
      ensures Valid() && (State(), ok) == Created(old(State()), status, blockedBy) && id == Decimal(old(nextId))
    {
      EventKeepsSound(State(), Create(status, blockedBy));
      hide Sound, Decimal, NoteAllBlockers;
      id := Decimal(nextId);
      nextId := nextId + 1;
      var task := NewTask(status, blockedBy);
      if Starts(status) && UnfinishedBlockers(tasks, task) != [] {
        return id, false;
      }
      tasks := tasks[id := task];
      NoteBlockers(id, task.blockedBy);
      ok := true;
    }

    static method ApplyBlocks(tasks: map<string, Task>, id: string, ids: seq<string>) returns (r: map<string, Task>)
      requires id in tasks
      ensures r == LinkAllBlocks(tasks, id, ids)
    {
      r := tasks;
      for i := 0 to |ids|
        invariant id in r && r == LinkAllBlocks(tasks, id, ids[..i])
      {
        assert ids[..i + 1][..i] == ids[..i];
        r := LinkBlocks(r, id, ids[i]);
      }
      assert ids[..|ids|] == ids;
    }

    static method ApplyBlockedBy(tasks: map<string, Task>, id: string, ids: seq<string>) returns (r: map<string, Task>)
      requires id in tasks
      ensures r == LinkAllBlockedBy(tasks, id, ids)
    {
      r := tasks;
      for i := 0 to |ids|
        invariant id in r && r == LinkAllBlockedBy(tasks, id, ids[..i])
      {
        assert ids[..i + 1][..i] == ids[..i];
        r := LinkBlockedBy(r, id, ids[i]);
      }
      assert ids[..|ids|] == ids;
    }

    method TaskUpdate(id: string, status: Option<Status>, addBlocks: seq<string>, addBlockedBy: seq<string>)
      returns (ok: bool)
      requires Valid()
      modifies this
      ensures Valid() && (State(), ok) == Updated(old(State()), id, status, addBlocks, addBlockedBy)
    {
      EventKeepsSound(State(), Update(id, status, addBlocks, addBlockedBy));
      hide Sound, LinkAllBlocks, LinkAllBlockedBy, UnfinishedBlockers;
      if id !in tasks { return false; }
      var candidate := ApplyBlocks(tasks, id, UniqueIds(addBlocks));
      candidate := ApplyBlockedBy(candidate, id, UniqueIds(addBlockedBy));
      if status.Some? && Starts(status.value) && UnfinishedBlockers(candidate, candidate[id]) != [] {
        return false;
      }
      if status.Some? { candidate := candidate[id := candidate[id].(status := status.value)]; }
      tasks := candidate;
      ok := true;
    }
  }
}
