/** `CanvasStore.traverse` (extensions/canvast-core.ts): a breadth-first search that marks nodes when
    they leave the queue, with duplicates in the queue, a depth cut, a node cut and edges whose ends
    may not be stored. */
module CanvasTraversal {
  import opened Sequences

  datatype GraphNode = GraphNode(id: string, kind: string)
  datatype GraphEdge = GraphEdge(id: string, kind: string, fromNodeId: string, toNodeId: string)
  datatype Entry = Entry(nodeId: string, depth: nat)

  // ---------------------------------------------------------------- distance, by levels and by paths

  ghost predicate Adjacent(edges: seq<GraphEdge>, v: string, w: string) {
    exists e :: e in edges && ((e.fromNodeId == v && e.toNodeId == w) || (e.toNodeId == v && e.fromNodeId == w))
  }

  /** The stored nodes within `k` undirected steps of `start`, through stored nodes only. */
  ghost function Reach(nodes: set<string>, edges: seq<GraphEdge>, start: string, k: nat): set<string> {
    if k == 0 then
      if start in nodes then {start} else {}
    else
      var near := Reach(nodes, edges, start, k - 1);
      near + set w | w in nodes && exists v :: v in near && Adjacent(edges, v, w)
  }

  /** The shortest distance of `v` is exactly `k`. */
  ghost predicate AtDistance(nodes: set<string>, edges: seq<GraphEdge>, start: string, v: string, k: nat) {
    v in Reach(nodes, edges, start, k) && (k > 0 ==> v !in Reach(nodes, edges, start, k - 1))
  }

  ghost predicate Path(nodes: set<string>, edges: seq<GraphEdge>, p: seq<string>) {
    && |p| > 0
    && (forall i :: 0 <= i < |p| ==> p[i] in nodes)
    && (forall i :: 0 < i < |p| ==> Adjacent(edges, p[i - 1], p[i]))
  }

  lemma {:induction false} ReachGrows(nodes: set<string>, edges: seq<GraphEdge>, start: string, j: nat, k: nat)
    requires j <= k
    ensures Reach(nodes, edges, start, j) <= Reach(nodes, edges, start, k)
    decreases k - j
  {
    if j < k {
      ReachGrows(nodes, edges, start, j, k - 1);
    }
  }

  lemma {:induction false} PathReaches(nodes: set<string>, edges: seq<GraphEdge>, p: seq<string>, k: nat)
    requires Path(nodes, edges, p) && |p| <= k + 1
    ensures p[|p| - 1] in Reach(nodes, edges, p[0], k)
    decreases k
  {
    if |p| == 1 {
      ReachGrows(nodes, edges, p[0], 0, k);
    } else {
      var q := p[..|p| - 1];
      PathReaches(nodes, edges, q, k - 1);
      assert Adjacent(edges, p[|p| - 2], p[|p| - 1]);
    }
  }

  lemma {:induction false} ReachHasPath(
      nodes: set<string>, edges: seq<GraphEdge>, start: string, v: string, k: nat) returns (p: seq<string>)
    requires v in Reach(nodes, edges, start, k)
    ensures Path(nodes, edges, p) && p[0] == start && p[|p| - 1] == v && |p| <= k + 1
    decreases k
  {
    if k == 0 {
      p := [start];
    } else if v in Reach(nodes, edges, start, k - 1) {
      p := ReachHasPath(nodes, edges, start, v, k - 1);
    } else {
      var u :| u in Reach(nodes, edges, start, k - 1) && Adjacent(edges, u, v);
      var q := ReachHasPath(nodes, edges, start, u, k - 1);
      p := q + [v];
    }
  }

  /** The level sets are the ends of undirected paths through stored nodes. */
  lemma ReachIsPaths(nodes: set<string>, edges: seq<GraphEdge>, start: string, v: string, k: nat)
    ensures v in Reach(nodes, edges, start, k) <==>
            exists p :: Path(nodes, edges, p) && p[0] == start && p[|p| - 1] == v && |p| <= k + 1
  {
    if v in Reach(nodes, edges, start, k) {
      var p := ReachHasPath(nodes, edges, start, v, k);
    }
    forall p | Path(nodes, edges, p) && p[0] == start && p[|p| - 1] == v && |p| <= k + 1
      ensures v in Reach(nodes, edges, start, k)
    {
      PathReaches(nodes, edges, p, k);
    }
  }

  // ---------------------------------------------------------------- the search invariant

  /** A search in progress: what it looks at, what it has found at which depth, what it will look at. */
  datatype Search = Search(
    nodes: set<string>, edges: seq<GraphEdge>, start: string, maxDepth: int,
    visited: set<string>, found: seq<string>, depths: seq<nat>, queue: seq<Entry>)

  ghost predicate Exact(s: Search) {
    && |s.found| == |s.depths|
    && Distinct(s.found)
    && (forall v :: v in s.found <==> v in s.visited && v in s.nodes)
    && (forall i :: 0 <= i < |s.found| ==>
          s.depths[i] <= s.maxDepth && AtDistance(s.nodes, s.edges, s.start, s.found[i], s.depths[i]))
  }

  /** Depths never decrease along what was found and then along the queue, which spans two levels. */
  ghost predicate Levelled(s: Search) {
    && (forall i, j :: 0 <= i < j < |s.depths| ==> s.depths[i] <= s.depths[j])
    && (forall i, j :: 0 <= i < j < |s.queue| ==> s.queue[i].depth <= s.queue[j].depth)
    && (forall i, j :: 0 <= i < |s.depths| && 0 <= j < |s.queue| ==> s.depths[i] <= s.queue[j].depth)
    && (forall j :: 0 <= j < |s.queue| ==> s.queue[j].depth <= s.queue[0].depth + 1)
  }

  ghost predicate QueueReachable(s: Search) {
    forall q :: q in s.queue && q.nodeId in s.nodes ==> q.nodeId in Reach(s.nodes, s.edges, s.start, q.depth)
  }

  ghost predicate FoundBy(s: Search, w: string, d: nat) {
    exists i :: 0 <= i < |s.found| && i < |s.depths| && s.found[i] == w && s.depths[i] <= d
  }

  ghost predicate QueuedBy(s: Search, w: string, d: nat) {
    exists q :: q in s.queue && q.nodeId == w && q.depth <= d
  }

  /** Every stored neighbour of a found node was found, or is queued, one level deeper at most. */
  ghost predicate NeighboursCovered(s: Search)
    requires |s.found| == |s.depths|
  {
    && (s.start in s.nodes && 0 <= s.maxDepth ==> FoundBy(s, s.start, 0) || QueuedBy(s, s.start, 0))
    && (forall i, w :: 0 <= i < |s.found| && w in s.nodes && Adjacent(s.edges, s.found[i], w) ==>
          (s.depths[i] + 1 <= s.maxDepth ==> FoundBy(s, w, s.depths[i] + 1) || QueuedBy(s, w, s.depths[i] + 1)))
  }

  ghost predicate Inv(s: Search) {
    Exact(s) && Levelled(s) && QueueReachable(s) && NeighboursCovered(s)
  }

  lemma QueuedMeansHead(s: Search, w: string, d: nat)
    requires Levelled(s) && QueuedBy(s, w, d)
    ensures s.queue != [] && s.queue[0].depth <= d
  {
  }

  /** Everything within `k` steps has been found no deeper than `k`, or the search is not past `k`. */
  lemma {:induction false} ReachFound(s: Search, x: string, k: nat)
    requires Inv(s)
    requires k <= s.maxDepth && x in Reach(s.nodes, s.edges, s.start, k)
    ensures FoundBy(s, x, k) || (s.queue != [] && s.queue[0].depth <= k)
    decreases k
  {
    if k == 0 {
      if QueuedBy(s, x, 0) { QueuedMeansHead(s, x, 0); }
    } else if x in Reach(s.nodes, s.edges, s.start, k - 1) {
      ReachFound(s, x, k - 1);
    } else {
      var v :| v in Reach(s.nodes, s.edges, s.start, k - 1) && Adjacent(s.edges, v, x);
      ReachFound(s, v, k - 1);
      if FoundBy(s, v, k - 1) {
        var i :| 0 <= i < |s.found| && s.found[i] == v && s.depths[i] <= k - 1;
        if QueuedBy(s, x, s.depths[i] + 1) { QueuedMeansHead(s, x, s.depths[i] + 1); }
      }
    }
  }

  lemma StartInv(nodes: set<string>, edges: seq<GraphEdge>, start: string, maxDepth: int)
    ensures Inv(Search(nodes, edges, start, maxDepth, {}, [], [], [Entry(start, 0)]))
  {
    var s := Search(nodes, edges, start, maxDepth, {}, [], [], [Entry(start, 0)]);
    assert Entry(start, 0) in s.queue;
    assert QueuedBy(s, start, 0);
  }

  // ---------------------------------------------------------------- one turn of the loop

  /** A head already visited or too deep is dropped. */
  lemma SkipKeeps(s: Search)
    requires Inv(s) && s.queue != []
    requires s.queue[0].nodeId in s.visited || s.queue[0].depth > s.maxDepth
    ensures Inv(s.(queue := s.queue[1..]))
  {
    var t := s.(queue := s.queue[1..]);
    PopLevelled(s);
    forall w, d: nat | QueuedBy(s, w, d) && w in s.nodes && d <= s.maxDepth
      ensures FoundBy(t, w, d) || QueuedBy(t, w, d)
    {
      StillCovered(s, t, w, d);
    }
    forall w, d: nat | FoundBy(s, w, d) ensures FoundBy(t, w, d) {
    }
  }

  lemma PopLevelled(s: Search)
    requires Levelled(s) && s.queue != []
    ensures Levelled(s.(queue := s.queue[1..]))
  {
  }

  lemma StillCovered(s: Search, t: Search, w: string, d: nat)
    requires Exact(s) && Levelled(s) && s.queue != [] && t == s.(queue := s.queue[1..])
    requires s.queue[0].nodeId in s.visited || s.queue[0].depth > s.maxDepth
    requires QueuedBy(s, w, d) && w in s.nodes && d <= s.maxDepth
    ensures FoundBy(t, w, d) || QueuedBy(t, w, d)
  {
    var q :| q in s.queue && q.nodeId == w && q.depth <= d;
    if q in t.queue {
    } else {
      assert q == s.queue[0];
      var i :| 0 <= i < |s.found| && s.found[i] == w;
      assert s.depths[i] <= s.queue[0].depth;
    }
  }

  /** A head that is not stored is only marked. */
  lemma DanglingKeeps(s: Search)
    requires Inv(s) && s.queue != [] && s.queue[0].nodeId !in s.nodes
    ensures Inv(s.(queue := s.queue[1..], visited := s.visited + {s.queue[0].nodeId}))
  {
    var t := s.(queue := s.queue[1..], visited := s.visited + {s.queue[0].nodeId});
    PopLevelled(s);
    forall w, d: nat | QueuedBy(s, w, d) && w in s.nodes ensures QueuedBy(t, w, d) {
      var q :| q in s.queue && q.nodeId == w && q.depth <= d;
      assert q in t.queue;
    }
    forall w, d: nat | FoundBy(s, w, d) ensures FoundBy(t, w, d) {
    }
  }

  /** A stored head not seen before is at exactly its queue depth. */
  lemma HeadIsExact(s: Search)
    requires Inv(s) && s.queue != []
    requires s.queue[0].nodeId in s.nodes && s.queue[0].nodeId !in s.visited && s.queue[0].depth <= s.maxDepth
    ensures AtDistance(s.nodes, s.edges, s.start, s.queue[0].nodeId, s.queue[0].depth)
  {
    var q := s.queue[0];
    assert q in s.queue;
    if q.depth > 0 && q.nodeId in Reach(s.nodes, s.edges, s.start, q.depth - 1) {
      assert !FoundBy(s, q.nodeId, q.depth - 1);
      ReachFound(s, q.nodeId, q.depth - 1);
    }
  }

  /** What the inner loop pushes for the node it expands: unvisited neighbours, one level deeper,
      and every unvisited neighbour among them. */
  ghost predicate Pushes(edges: seq<GraphEdge>, visited: set<string>, q: Entry, pushed: seq<Entry>) {
    && (forall e :: e in pushed ==>
          e.depth == q.depth + 1 && Adjacent(edges, q.nodeId, e.nodeId) && e.nodeId !in visited)
    && (forall w :: Adjacent(edges, q.nodeId, w) && w !in visited ==> Entry(w, q.depth + 1) in pushed)
  }

  function Expanded(s: Search, pushed: seq<Entry>): Search
    requires s.queue != []
  {
    s.(visited := s.visited + {s.queue[0].nodeId},
       found := s.found + [s.queue[0].nodeId],
       depths := s.depths + [s.queue[0].depth],
       queue := s.queue[1..] + pushed)
  }

  ghost predicate Expandable(s: Search, pushed: seq<Entry>) {
    && Inv(s) && s.queue != []
    && s.queue[0].nodeId in s.nodes && s.queue[0].nodeId !in s.visited && s.queue[0].depth <= s.maxDepth
    && Pushes(s.edges, s.visited + {s.queue[0].nodeId}, s.queue[0], pushed)
  }

  lemma ExpandExact(s: Search, pushed: seq<Entry>)
    requires Expandable(s, pushed)
    ensures Exact(Expanded(s, pushed))
  {
    HeadIsExact(s);
  }

  lemma ExpandLevelled(s: Search, pushed: seq<Entry>)
    requires Expandable(s, pushed)
    ensures Levelled(Expanded(s, pushed))
  {
    var t, head := Expanded(s, pushed), s.queue[0];
    forall j | 0 <= j < |t.queue|
      ensures head.depth <= t.queue[j].depth <= head.depth + 1
      ensures j < |s.queue| - 1 ==> t.queue[j] == s.queue[j + 1]
      ensures j >= |s.queue| - 1 ==> t.queue[j].depth == head.depth + 1
    {
      if j >= |s.queue| - 1 {
        assert t.queue[j] == pushed[j - (|s.queue| - 1)];
        assert t.queue[j] in pushed;
      }
    }
  }

  lemma ExpandReachable(s: Search, pushed: seq<Entry>)
    requires Expandable(s, pushed)
    ensures QueueReachable(Expanded(s, pushed))
  {
    var t, head := Expanded(s, pushed), s.queue[0];
    assert head in s.queue;
    forall q | q in t.queue && q.nodeId in t.nodes
      ensures q.nodeId in Reach(t.nodes, t.edges, t.start, q.depth)
    {
      if q in pushed {
        assert Adjacent(s.edges, head.nodeId, q.nodeId);
      } else {
        assert q in s.queue;
      }
    }
  }

  lemma ExpandCovered(s: Search, pushed: seq<Entry>)
    requires Expandable(s, pushed)
    ensures |s.found| == |s.depths| && NeighboursCovered(Expanded(s, pushed))
  {
    hide Reach, AtDistance, QueueReachable, Distinct;
    var t, head, n := Expanded(s, pushed), s.queue[0], |s.found|;
    assert t.found[n] == head.nodeId && t.depths[n] == head.depth;
    forall w, d: nat | FoundBy(s, w, d) ensures FoundBy(t, w, d) {
      var i :| 0 <= i < |s.found| && s.found[i] == w && s.depths[i] <= d;
      assert t.found[i] == w && t.depths[i] == s.depths[i];
    }
    forall w, d: nat | QueuedBy(s, w, d) ensures FoundBy(t, w, d) || QueuedBy(t, w, d) {
      var q :| q in s.queue && q.nodeId == w && q.depth <= d;
      assert q == head || q in t.queue;
    }
    forall w | w in s.nodes && Adjacent(s.edges, head.nodeId, w)
      ensures FoundBy(t, w, head.depth + 1) || QueuedBy(t, w, head.depth + 1)
    {
      if w in s.visited {
        var i :| 0 <= i < |s.found| && s.found[i] == w;
        assert t.found[i] == w && t.depths[i] <= head.depth;
      } else if w != head.nodeId {
        assert Entry(w, head.depth + 1) in pushed;
        assert Entry(w, head.depth + 1) in t.queue;
      }
    }
  }

  lemma ExpandKeeps(s: Search, pushed: seq<Entry>)
    requires Expandable(s, pushed)
    ensures Inv(Expanded(s, pushed))
  {
    ExpandExact(s, pushed);
    ExpandLevelled(s, pushed);
    ExpandReachable(s, pushed);
    ExpandCovered(s, pushed);
  }

  // ---------------------------------------------------------------- what the search returns

  /** Distinct stored nodes in non-decreasing shortest distance, all within `maxDepth`. */
  ghost predicate InDistanceOrder(
      nodes: set<string>, edges: seq<GraphEdge>, start: string, maxDepth: int, ids: seq<string>, depths: seq<nat>) {
    && |ids| == |depths| && Distinct(ids)
    && (forall i :: 0 <= i < |ids| ==>
          ids[i] in nodes && depths[i] <= maxDepth && AtDistance(nodes, edges, start, ids[i], depths[i]))
    && (forall i, j :: 0 <= i < j < |ids| ==> depths[i] <= depths[j])
  }

  lemma InvMeansOrder(s: Search)
    requires Inv(s)
    ensures InDistanceOrder(s.nodes, s.edges, s.start, s.maxDepth, s.found, s.depths)
  {
  }

  lemma ExhaustedFindsAll(s: Search, v: string, k: nat)
    requires Inv(s) && s.queue == []
    requires k <= s.maxDepth && v in Reach(s.nodes, s.edges, s.start, k)
    ensures v in s.found
  {
    ReachFound(s, v, k);
  }

  /** Whatever was not found when the node cut strikes is at least as far as everything found. */
  lemma OmittedIsFarther(s: Search, v: string, k: nat, i: nat)
    requires Inv(s) && v !in s.found
    requires v in Reach(s.nodes, s.edges, s.start, k) && i < |s.depths|
    ensures s.depths[i] <= k
  {
    if k <= s.maxDepth {
      ReachFound(s, v, k);
    }
  }

  function Ids(nodes: seq<GraphNode>): (ids: seq<string>)
    ensures |ids| == |nodes| && forall i :: 0 <= i < |nodes| ==> ids[i] == nodes[i].id
  {
    seq(|nodes|, i requires 0 <= i < |nodes| => nodes[i].id)
  }

  class CanvasStore {
    var nodes: map<string, GraphNode>  // each under its own id
    var edges: seq<GraphEdge>          // in insertion order

    ghost predicate Valid()
      reads this
    {
      forall k :: k in nodes ==> nodes[k].id == k
    }

    function GetEdgesFrom(nodeId: string): seq<GraphEdge>
      reads this
    {
      Filter(edges, (e: GraphEdge) => e.fromNodeId == nodeId)
    }

    function GetEdgesTo(nodeId: string): seq<GraphEdge>
      reads this
    {
      Filter(edges, (e: GraphEdge) => e.toNodeId == nodeId)
    }

    /** The inner loop: push every unvisited end of an edge at `q`. */
    method PushNeighbours(q: Entry, visited: set<string>) returns (pushed: seq<Entry>)
      ensures Pushes(edges, visited, q, pushed)
      ensures forall e :: e in pushed ==> exists d :: d in edges && e.nodeId in {d.fromNodeId, d.toNodeId}
    {
      var incident := GetEdgesFrom(q.nodeId) + GetEdgesTo(q.nodeId);
      assert forall e :: e in incident <==> e in edges && q.nodeId in {e.fromNodeId, e.toNodeId};
      pushed := [];
      for i := 0 to |incident|
        invariant forall e :: e in pushed ==>
          e.depth == q.depth + 1 && Adjacent(edges, q.nodeId, e.nodeId) && e.nodeId !in visited
        invariant forall e :: e in pushed ==> exists d :: d in edges && e.nodeId in {d.fromNodeId, d.toNodeId}
        invariant forall j :: 0 <= j < i ==>
          var next := OtherEnd(incident[j], q.nodeId);
          next in visited || Entry(next, q.depth + 1) in pushed
      {
        var e := incident[i];
        assert e in incident;
        var next := OtherEnd(e, q.nodeId);
        if next !in visited {
          assert Adjacent(edges, q.nodeId, next);
          pushed := pushed + [Entry(next, q.depth + 1)];
        }
      }
      forall w | Adjacent(edges, q.nodeId, w) && w !in visited ensures Entry(w, q.depth + 1) in pushed {
        var e :| e in edges
          && ((e.fromNodeId == q.nodeId && e.toNodeId == w) || (e.toNodeId == q.nodeId && e.fromNodeId == w));
        assert e in incident;
        var j :| 0 <= j < |incident| && incident[j] == e;
        assert OtherEnd(e, q.nodeId) == w;
      }
    }

    method Traverse(fromNodeId: string, maxDepth: int, maxNodes: int)
      returns (result: seq<GraphNode>, ghost depths: seq<nat>)
      requires Valid()
      ensures forall n :: n in result ==> n.id in nodes && nodes[n.id] == n
      ensures InDistanceOrder(nodes.Keys, edges, fromNodeId, maxDepth, Ids(result), depths)
      ensures |result| <= if maxNodes > 0 then maxNodes else 0
      ensures |result| < maxNodes ==>
        forall v, k: nat :: k <= maxDepth && v in Reach(nodes.Keys, edges, fromNodeId, k) ==> v in Ids(result)
      ensures forall v, k: nat, i ::
        v in Reach(nodes.Keys, edges, fromNodeId, k) && v !in Ids(result) && 0 <= i < |depths| ==> depths[i] <= k
    {
      hide Inv, InDistanceOrder, Reach, Pushes;
      ghost var universe := {fromNodeId} + (set e | e in edges :: e.fromNodeId) + set e | e in edges :: e.toNodeId;
      var visited: set<string> := {};
      var queue := [Entry(fromNodeId, 0)];
      result, depths := [], [];
      ghost var s := Search(nodes.Keys, edges, fromNodeId, maxDepth, {}, [], [], queue);
      StartInv(nodes.Keys, edges, fromNodeId, maxDepth);
      while queue != [] && |result| < maxNodes
        invariant Inv(s)
        invariant s == Search(nodes.Keys, edges, fromNodeId, maxDepth, visited, Ids(result), depths, queue)
        invariant forall n :: n in result ==> n.id in nodes && nodes[n.id] == n
        invariant |result| <= if maxNodes > 0 then maxNodes else 0
        invariant forall q :: q in queue ==> q.nodeId in universe
        decreases universe - visited, |queue|
      {
        var cur := queue[0];
        assert cur in queue;
        if cur.nodeId in visited || cur.depth > maxDepth {
          SkipKeeps(s);
          queue := queue[1..];
          s := s.(queue := queue);
          continue;
        }
        if cur.nodeId in nodes {
          var pushed := PushNeighbours(cur, visited + {cur.nodeId});
          ExpandKeeps(s, pushed);
          s := Expanded(s, pushed);
          visited, queue := visited + {cur.nodeId}, queue[1..] + pushed;
          result, depths := result + [nodes[cur.nodeId]], depths + [cur.depth];
          assert Ids(result) == s.found;
        } else {
          DanglingKeeps(s);
          visited, queue := visited + {cur.nodeId}, queue[1..];
          s := s.(queue := queue, visited := visited);
        }
        assert cur.nodeId in universe;
      }
      InvMeansOrder(s);
      forall v, k: nat | queue == [] && k <= maxDepth && v in Reach(nodes.Keys, edges, fromNodeId, k)
        ensures v in Ids(result)
      {
        ExhaustedFindsAll(s, v, k);
      }
      forall v, k: nat, i | v in Reach(nodes.Keys, edges, fromNodeId, k) && v !in Ids(result) && 0 <= i < |depths|
        ensures depths[i] <= k
      {
        OmittedIsFarther(s, v, k, i);
      }
    }
  }

  /** The end of an edge that is not the given one; the given one itself for a self-loop. */
  function OtherEnd(e: GraphEdge, nodeId: string): string {
    if e.fromNodeId == nodeId then e.toNodeId else e.fromNodeId
  }
}
