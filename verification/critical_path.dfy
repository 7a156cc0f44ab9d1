/** computeCriticalPath: breadth-first search with whole paths in the queue, nodes marked
    when they leave it, then the detection of single points of failure and bottlenecks. */
module CriticalPath {
  import opened Topology

  datatype Entry = Entry(id: Id, path: Path)

  // ------------------------------------------------------------------ lookups

  function Listed(m: map<Id, seq<Id>>, id: Id): seq<Id> {
    if id in m then m[id] else []
  }

  method BuildAdjacency(edges: seq<Edge>) returns (downstream: map<Id, seq<Id>>, upstream: map<Id, seq<Id>>)
    ensures forall id :: Listed(downstream, id) == Targets(edges, id)
    ensures forall id :: Listed(upstream, id) == Sources(edges, id)
    ensures forall id :: id in downstream ==> downstream[id] != []
  {
    downstream, upstream := map[], map[];
    for i := 0 to |edges|
      invariant ListsTargets(downstream, edges[..i]) && ListsSources(upstream, edges[..i])
    {
      var e := edges[i];
      assert edges[..i + 1][..i] == edges[..i] && edges[..i + 1][i] == e;
      ListsOneMore(downstream, upstream, edges[..i + 1]);
      downstream := downstream[e.source := Listed(downstream, e.source) + [e.target]];
      upstream := upstream[e.target := Listed(upstream, e.target) + [e.source]];
    }
    assert edges[..|edges|] == edges;
  }

  ghost predicate ListsTargets(m: map<Id, seq<Id>>, edges: seq<Edge>) {
    (forall id :: Listed(m, id) == Targets(edges, id)) && (forall id :: id in m ==> m[id] != [])
  }

  ghost predicate ListsSources(m: map<Id, seq<Id>>, edges: seq<Edge>) {
    forall id :: Listed(m, id) == Sources(edges, id)
  }

  lemma ListsOneMore(downstream: map<Id, seq<Id>>, upstream: map<Id, seq<Id>>, edges: seq<Edge>)
    requires edges != []
    requires ListsTargets(downstream, edges[..|edges| - 1]) && ListsSources(upstream, edges[..|edges| - 1])
    ensures var e := edges[|edges| - 1];
      && ListsTargets(downstream[e.source := Listed(downstream, e.source) + [e.target]], edges)
      && ListsSources(upstream[e.target := Listed(upstream, e.target) + [e.source]], edges)
  {
    var e := edges[|edges| - 1];
    forall id
      ensures Listed(downstream[e.source := Listed(downstream, e.source) + [e.target]], id) == Targets(edges, id)
    {
      assert Targets(edges[..|edges| - 1], id) + [] == Targets(edges[..|edges| - 1], id);
    }
    forall id ensures Listed(upstream[e.target := Listed(upstream, e.target) + [e.source]], id) == Sources(edges, id) {
      assert Sources(edges[..|edges| - 1], id) + [] == Sources(edges[..|edges| - 1], id);
    }
  }

  method BuildNodeMap(nodes: seq<Node>) returns (nodeMap: map<Id, Node>)
    ensures nodeMap == NodeMap(nodes)
  {
    nodeMap := map[];
    for i := 0 to |nodes|
      invariant nodeMap == NodeMap(nodes[..i])
    {
      assert nodes[..i + 1][..i] == nodes[..i];
      nodeMap := nodeMap[nodes[i].id := nodes[i]];
    }
    assert nodes[..|nodes|] == nodes;
  }

  method CollectKinds(g: Graph, nodeMap: map<Id, Node>, kinds: set<Kind>) returns (ids: seq<Id>)
    requires nodeMap == NodeMap(g.nodes)
    ensures ids == OfKinds(g, kinds, |g.nodes|)
  {
    ids := [];
    for i := 0 to |g.nodes|
      invariant ids == OfKinds(g, kinds, i)
    {
      if InScope(nodeMap, g.ns, g.nodes[i].id) && g.nodes[i].kind in kinds {
        ids := ids + [g.nodes[i].id];
      }
    }
  }

  method FindEntryPoints(g: Graph, nodeMap: map<Id, Node>) returns (ids: seq<Id>)
    requires nodeMap == NodeMap(g.nodes)
    ensures ids == EntryPoints(g)
  {
    ids := CollectKinds(g, nodeMap, {Ingress});
    if |ids| == 0 {
      ids := CollectKinds(g, nodeMap, {Service});
    }
    if |ids| == 0 {
      ids := CollectKinds(g, nodeMap, {Deployment, StatefulSet});
    }
  }

  // ------------------------------------------------------------------ the search

  type Best = map<Id, Path>   // the path each visited node was reached by

  /** v was visited by a path of at most n nodes, or waits in the queue with one. */
  ghost predicate Found(best: Best, queue: seq<Entry>, v: Id, n: nat) {
    (v in best && |best[v]| <= n) || Queued(queue, v, n)
  }

  ghost predicate Queued(queue: seq<Entry>, v: Id, n: nat) {
    exists k :: 0 <= k < |queue| && queue[k].id == v && |queue[k].path| <= n
  }

  ghost predicate GoodEntry(g: Graph, best: Best, e: Entry) {
    && Walk(g, e.path) && Last(e.path) == e.id && Simple(e.path)
    && forall i :: 0 <= i < |e.path| - 1 ==> e.path[i] in best
  }

  /** The queue holds good entries in order of length, spread over at most two lengths. */
  ghost predicate GoodQueue(g: Graph, best: Best, queue: seq<Entry>) {
    && (forall k :: 0 <= k < |queue| ==> GoodEntry(g, best, queue[k]))
    && (forall j, k :: 0 <= j <= k < |queue| ==> |queue[j].path| <= |queue[k].path| <= |queue[j].path| + 1)
  }

  /** Every visited node was reached by a shortest path, none longer than depth. */
  ghost predicate GoodBest(g: Graph, best: Best, depth: nat) {
    forall v :: v in best ==> Shortest(g, best[v]) && Simple(best[v]) && Last(best[v]) == v && |best[v]| <= depth
  }

  /** Nothing was forgotten: entry points, and in-scope targets of visited nodes, are found. */
  ghost predicate Frontier(g: Graph, best: Best, queue: seq<Entry>) {
    && (forall e :: e in EntryPoints(g) ==> Found(best, queue, e, 1))
    && (forall v, w :: v in best && Linked(g, v, w) && Scope(g, w) ==> Found(best, queue, w, |best[v]| + 1))
  }

  /** Along a walk, each node is found in time, unless the queue still has shorter work. */
  lemma {:induction false} FoundAlong(g: Graph, best: Best, queue: seq<Entry>, q: Path)
    requires GoodQueue(g, best, queue) && Frontier(g, best, queue) && Walk(g, q)
    ensures Found(best, queue, Last(q), |q|) || (queue != [] && |queue[0].path| <= |q|)
    decreases |q|
  {
    if |q| > 1 {
      var front := q[..|q| - 1];
      WalkPrefix(g, q, |q| - 1);
      FoundAlong(g, best, queue, front);
      assert Linked(g, Last(front), Last(q));
    }
  }

  /** The first entry of the queue, if its node is new, carries a shortest path. */
  lemma FirstIsShortest(g: Graph, best: Best, queue: seq<Entry>)
    requires GoodQueue(g, best, queue) && Frontier(g, best, queue) && queue != [] && queue[0].id !in best
    ensures Shortest(g, queue[0].path)
  {
    forall q | Walk(g, q) && Last(q) == queue[0].id ensures |queue[0].path| <= |q| {
      FoundAlong(g, best, queue, q);
    }
  }

  /** Taking the first entry off the queue loses nothing, once its node is visited. */
  lemma FoundAfterPop(best: Best, queue: seq<Entry>, v: Id, n: nat)
    requires queue != [] && Found(best, queue, v, n)
    requires queue[0].id in best ==> |best[queue[0].id]| <= |queue[0].path|
    requires queue[0].id !in best ==> forall k :: 0 <= k < |queue| ==> |queue[0].path| <= |queue[k].path|
    ensures var b := if queue[0].id in best then best else best[queue[0].id := queue[0].path];
            Found(b, queue[1..], v, n)
  {
    if !(v in best && |best[v]| <= n) {
      var k :| 0 <= k < |queue| && queue[k].id == v && |queue[k].path| <= n;
      if k > 0 {
        assert queue[1..][k - 1] == queue[k];
      }
    }
  }

  lemma FoundMore(best: Best, queue: seq<Entry>, more: seq<Entry>, v: Id, n: nat)
    requires Found(best, queue, v, n)
    ensures Found(best, queue + more, v, n)
  {
    if !(v in best && |best[v]| <= n) {
      var k :| 0 <= k < |queue| && queue[k].id == v && |queue[k].path| <= n;
      assert (queue + more)[k] == queue[k];
    }
  }

  /** The entries one visited node adds: one for each unvisited in-scope target. */
  function Expand(g: Graph, cur: Entry, visited: set<Id>, targets: seq<Id>): seq<Entry> {
    if targets == [] then []
    else
      var next := targets[|targets| - 1];
      Expand(g, cur, visited, targets[..|targets| - 1])
      + (if next !in visited && Scope(g, next) then [Entry(next, cur.path + [next])] else [])
  }

  lemma {:induction false} ExpandFinds(g: Graph, cur: Entry, visited: set<Id>, targets: seq<Id>, w: Id)
    requires w in targets && w !in visited && Scope(g, w)
    ensures Queued(Expand(g, cur, visited, targets), w, |cur.path| + 1)
  {
    var front, next := targets[..|targets| - 1], targets[|targets| - 1];
    var rest, all := Expand(g, cur, visited, front), Expand(g, cur, visited, targets);
    if w == next {
      assert all[|all| - 1].id == w;
    } else {
      ExpandFinds(g, cur, visited, front, w);
      var k :| 0 <= k < |rest| && rest[k].id == w && |rest[k].path| <= |cur.path| + 1;
      assert all[k] == rest[k];
    }
  }

  lemma {:induction false} ExpandEntries(g: Graph, cur: Entry, visited: set<Id>, targets: seq<Id>)
    ensures forall e :: e in Expand(g, cur, visited, targets) ==>
              e.id in targets && e.id !in visited && Scope(g, e.id) && e.path == cur.path + [e.id]
  {
    if targets != [] {
      ExpandEntries(g, cur, visited, targets[..|targets| - 1]);
    }
  }

  /** Everything that holds whenever the loop looks at the queue. */
  ghost predicate SearchInv(g: Graph, best: Best, queue: seq<Entry>, longest: Path) {
    && GoodQueue(g, best, queue)
    && GoodBest(g, best, |longest|)
    && (queue != [] ==> GoodBest(g, best, |queue[0].path|))
    && Frontier(g, best, queue)
    && (longest != [] ==> Shortest(g, longest) && Simple(longest))
  }

  function Start(entries: seq<Id>): seq<Entry> {
    if entries == [] then [] else Start(entries[..|entries| - 1]) + [Entry(Last(entries), [Last(entries)])]
  }

  lemma {:induction false} StartEntries(entries: seq<Id>)
    ensures |Start(entries)| == |entries|
    ensures forall k :: 0 <= k < |entries| ==> Start(entries)[k] == Entry(entries[k], [entries[k]])
  {
    if entries != [] {
      StartEntries(entries[..|entries| - 1]);
    }
  }

  lemma SearchStarts(g: Graph)
    ensures SearchInv(g, map[], Start(EntryPoints(g)), [])
  {
    var entries := EntryPoints(g);
    var queue := Start(entries);
    StartEntries(entries);
    forall k | 0 <= k < |queue| ensures GoodEntry(g, map[], queue[k]) {
      EntryPointsInScope(g, entries[k]);
    }
    forall e | e in entries ensures Found(map[], queue, e, 1) {
      var k :| 0 <= k < |entries| && entries[k] == e;
      assert queue[k].id == e;
    }
  }

  /** The queue without its first entry. */
  lemma QueueTail(g: Graph, best: Best, queue: seq<Entry>)
    requires GoodQueue(g, best, queue) && queue != []
    ensures GoodQueue(g, best, queue[1..])
    ensures queue[1..] != [] ==> |queue[0].path| <= |queue[1..][0].path|
  {
  }

  /** An entry whose node was visited already is dropped. */
  lemma SkipVisited(g: Graph, best: Best, queue: seq<Entry>, longest: Path)
    requires SearchInv(g, best, queue, longest) && queue != [] && queue[0].id in best
    ensures SearchInv(g, best, queue[1..], longest)
  {
    QueueTail(g, best, queue);
    forall v, n | Found(best, queue, v, n) ensures Found(best, queue[1..], v, n) {
      FoundAfterPop(best, queue, v, n);
    }
  }

  function Visit(best: Best, cur: Entry): Best {
    best[cur.id := cur.path]
  }

  /** The queue after visiting its first entry. */
  function Advance(g: Graph, best: Best, queue: seq<Entry>): seq<Entry>
    requires queue != []
  {
    queue[1..] + Expand(g, queue[0], Visit(best, queue[0]).Keys, Targets(g.edges, queue[0].id))
  }

  lemma VisitQueue(g: Graph, best: Best, queue: seq<Entry>)
    requires GoodQueue(g, best, queue) && queue != []
    ensures GoodQueue(g, Visit(best, queue[0]), Advance(g, best, queue))
  {
    var cur, b := queue[0], Visit(best, queue[0]);
    var more := Expand(g, cur, b.Keys, Targets(g.edges, cur.id));
    ExpandEntries(g, cur, b.Keys, Targets(g.edges, cur.id));
    forall e | e in more ensures GoodEntry(g, b, e) {
      WalkExtend(g, cur.path, e.id);
    }
    forall k | 0 <= k < |more| ensures more[k] in more && |more[k].path| == |cur.path| + 1 {
    }
  }

  lemma VisitFrontier(g: Graph, best: Best, queue: seq<Entry>)
    requires GoodQueue(g, best, queue) && Frontier(g, best, queue) && queue != [] && queue[0].id !in best
    requires GoodBest(g, best, |queue[0].path|)
    ensures Frontier(g, Visit(best, queue[0]), Advance(g, best, queue))
  {
    var cur, b := queue[0], Visit(best, queue[0]);
    var more := Expand(g, cur, b.Keys, Targets(g.edges, cur.id));
    forall v, n | Found(best, queue, v, n) ensures Found(b, queue[1..] + more, v, n) {
      FoundAfterPop(best, queue, v, n);
      FoundMore(b, queue[1..], more, v, n);
    }
    forall v, w | v in b && Linked(g, v, w) && Scope(g, w) ensures Found(b, queue[1..] + more, w, |b[v]| + 1) {
      if v == cur.id && w !in b {
        ExpandFinds(g, cur, b.Keys, Targets(g.edges, cur.id), w);
        QueuedAfter(queue[1..], more, w, |cur.path| + 1);
      }
    }
  }

  lemma QueuedAfter(queue: seq<Entry>, more: seq<Entry>, v: Id, n: nat)
    requires Queued(more, v, n)
    ensures Queued(queue + more, v, n)
  {
    var k :| 0 <= k < |more| && more[k].id == v && |more[k].path| <= n;
    assert (queue + more)[|queue| + k] == more[k];
  }

  /** A new node is visited by a shortest path, and its targets join the queue. */
  lemma VisitNew(g: Graph, best: Best, queue: seq<Entry>, longest: Path)
    requires SearchInv(g, best, queue, longest) && queue != [] && queue[0].id !in best
    ensures SearchInv(g, Visit(best, queue[0]), Advance(g, best, queue),
                      if |queue[0].path| > |longest| then queue[0].path else longest)
  {
    FirstIsShortest(g, best, queue);
    VisitQueue(g, best, queue);
    VisitFrontier(g, best, queue);
    AdvanceDepth(g, best, queue);
    var cur := queue[0];
    VisitBest(g, best, cur, |cur.path|, |cur.path|);
    var next := if |cur.path| > |longest| then cur.path else longest;
    VisitBest(g, best, cur, |longest|, |next|);
    if Advance(g, best, queue) != [] {
      VisitBest(g, best, cur, |cur.path|, |Advance(g, best, queue)[0].path|);
    }
  }

  lemma VisitBest(g: Graph, best: Best, cur: Entry, depth: nat, n: nat)
    requires GoodBest(g, best, depth) && depth <= n && |cur.path| <= n
    requires Shortest(g, cur.path) && Simple(cur.path) && Last(cur.path) == cur.id
    ensures GoodBest(g, Visit(best, cur), n)
  {
  }

  lemma AdvanceDepth(g: Graph, best: Best, queue: seq<Entry>)
    requires GoodQueue(g, best, queue) && queue != []
    ensures Advance(g, best, queue) != [] ==> |queue[0].path| <= |Advance(g, best, queue)[0].path|
  {
    ExpandEntries(g, queue[0], Visit(best, queue[0]).Keys, Targets(g.edges, queue[0].id));
    var next := Advance(g, best, queue);
    if next != [] && |queue| == 1 {
      assert next[0] in Expand(g, queue[0], Visit(best, queue[0]).Keys, Targets(g.edges, queue[0].id));
    }
  }

  /** With an empty queue, exactly the reachable nodes have been visited. */
  lemma SearchEnds(g: Graph, best: Best, longest: Path)
    requires SearchInv(g, best, [], longest)
    requires (best == map[] ==> longest == []) && (longest != [] ==> Last(longest) in best)
    requires best != map[] ==> longest != []
    ensures forall v :: v in best <==> Reachable(g, v)
    ensures Deepest(g, longest)
  {
    forall q | Walk(g, q) ensures Last(q) in best && |best[Last(q)]| <= |q| {
      FoundAlong(g, best, [], q);
    }
    forall v | v in best ensures Reachable(g, v) && Within(g, v, |longest|) {
    }
    if EntryPoints(g) != [] {
      assert Found(best, [], EntryPoints(g)[0], 1);
    }
  }

  method AddTargets(g: Graph, nodeMap: map<Id, Node>, cur: Entry, targets: seq<Id>, visited: set<Id>, queue: seq<Entry>)
    returns (r: seq<Entry>)
    requires nodeMap == NodeMap(g.nodes)
    ensures r == queue + Expand(g, cur, visited, targets)
  {
    r := queue;
    for j := 0 to |targets|
      invariant r == queue + Expand(g, cur, visited, targets[..j])
    {
      assert targets[..j + 1][..j] == targets[..j];
      var next := targets[j];
      if next !in visited && InScope(nodeMap, g.ns, next) {
        r := r + [Entry(next, cur.path + [next])];
      }
    }
    assert targets[..|targets|] == targets;
  }

  /** All ids that can enter the queue. */
  function Universe(g: Graph): set<Id> {
    (set id | id in EntryPoints(g)) + (set e | e in g.edges :: e.target)
  }

  lemma {:induction false} TargetsInEdges(edges: seq<Edge>, id: Id)
    ensures forall w :: w in Targets(edges, id) ==> exists e :: e in edges && e.target == w
  {
    if edges != [] {
      TargetsInEdges(edges[..|edges| - 1], id);
      assert forall e :: e in edges[..|edges| - 1] ==> e in edges;
    }
  }

  ghost predicate LoopInv(g: Graph, best: Best, queue: seq<Entry>, longest: Path) {
    && SearchInv(g, best, queue, longest)
    && (best == map[] <==> longest == []) && (longest != [] ==> Last(longest) in best)
    && best.Keys <= Universe(g) && (forall e :: e in queue ==> e.id in Universe(g))
  }

  lemma LoopVisits(g: Graph, best: Best, queue: seq<Entry>, longest: Path)
    requires LoopInv(g, best, queue, longest) && queue != [] && queue[0].id !in best
    ensures LoopInv(g, Visit(best, queue[0]), Advance(g, best, queue),
                    if |queue[0].path| > |longest| then queue[0].path else longest)
    ensures Universe(g) - Visit(best, queue[0]).Keys < Universe(g) - best.Keys
  {
    VisitNew(g, best, queue, longest);
    AdvanceInUniverse(g, best, queue);
    assert queue[0] in queue && queue[0].id in Universe(g) - best.Keys;
    assert GoodEntry(g, best, queue[0]);
  }

  datatype SearchState = SearchState(best: Best, queue: seq<Entry>, longest: Path)

  /** One round of the loop. */
  function Round(g: Graph, s: SearchState): SearchState
    requires s.queue != []
  {
    var cur := s.queue[0];
    if cur.id in s.best then s.(queue := s.queue[1..])
    else SearchState(Visit(s.best, cur), Advance(g, s.best, s.queue),
                     if |cur.path| > |s.longest| then cur.path else s.longest)
  }

  /** The state after n rounds, or when the queue ran empty. */
  function Rounds(g: Graph, n: nat): SearchState {
    if n == 0 then SearchState(map[], Start(EntryPoints(g)), [])
    else
      var s := Rounds(g, n - 1);
      if s.queue == [] then s else Round(g, s)
  }

  ghost predicate StateInv(g: Graph, s: SearchState) {
    LoopInv(g, s.best, s.queue, s.longest)
  }

  lemma RoundKeepsInv(g: Graph, s: SearchState)
    requires s.queue != [] && StateInv(g, s)
    ensures StateInv(g, Round(g, s))
  {
    if s.queue[0].id in s.best {
      SkipVisited(g, s.best, s.queue, s.longest);
    } else {
      LoopVisits(g, s.best, s.queue, s.longest);
    }
  }

  /** What every round keeps holds after any number of them. */
  lemma {:induction false} RoundsKeep(g: Graph, n: nat, inv: SearchState -> bool)
    requires inv(Rounds(g, 0))
    requires forall s: SearchState :: s.queue != [] && inv(s) ==> inv(Round(g, s))
    ensures inv(Rounds(g, n))
  {
    if n > 0 {
      RoundsKeep(g, n - 1, inv);
      var s := Rounds(g, n - 1);
      assert s.queue != [] ==> inv(Round(g, s));
    }
  }

  lemma RoundsKeepInv(g: Graph, n: nat)
    ensures StateInv(g, Rounds(g, n))
  {
    SearchStarts(g);
    QueueInUniverse(g);
    forall s: SearchState | s.queue != [] && StateInv(g, s) ensures StateInv(g, Round(g, s)) {
      RoundKeepsInv(g, s);
    }
    RoundsKeep(g, n, s => StateInv(g, s));
  }

  /** Each round visits a node of the universe or shortens the queue. */
  lemma RoundLowers(g: Graph, n: nat)
    requires Rounds(g, n).queue != []
    ensures var s, t := Rounds(g, n), Rounds(g, n + 1);
            || Universe(g) - t.best.Keys < Universe(g) - s.best.Keys
            || (t.best == s.best && |t.queue| < |s.queue|)
  {
    RoundsKeepInv(g, n);
    var s := Rounds(g, n);
    if s.queue[0].id !in s.best {
      LoopVisits(g, s.best, s.queue, s.longest);
    }
  }

  lemma SearchResult(g: Graph, n: nat)
    requires Rounds(g, n).queue == []
    ensures Deepest(g, Rounds(g, n).longest) && Simple(Rounds(g, n).longest)
    ensures forall v :: v in Rounds(g, n).best <==> Reachable(g, v)
  {
    RoundsKeepInv(g, n);
    SearchEnds(g, Rounds(g, n).best, Rounds(g, n).longest);
  }

  /** The path the search holds at its end. */
  ghost predicate FirstFound(g: Graph, path: Path) {
    exists n: nat :: Rounds(g, n).queue == [] && path == Rounds(g, n).longest
  }

  /** The search gives a path up for a longer one only: of the deepest it keeps the first. */
  lemma {:induction false} KeepsFirst(g: Graph, m: nat, n: nat)
    requires m <= n
    ensures |Rounds(g, m).longest| <= |Rounds(g, n).longest|
    ensures |Rounds(g, m).longest| == |Rounds(g, n).longest| ==> Rounds(g, m).longest == Rounds(g, n).longest
    decreases n
  {
    if m < n {
      KeepsFirst(g, m, n - 1);
    }
  }

  method StartQueue(entries: seq<Id>) returns (queue: seq<Entry>)
    ensures queue == Start(entries)
  {
    queue := [];
    for i := 0 to |entries|
      invariant queue == Start(entries[..i])
    {
      assert entries[..i + 1][..i] == entries[..i];
      queue := queue + [Entry(entries[i], [entries[i]])];
    }
    assert entries[..|entries|] == entries;
  }

  method Search(g: Graph, nodeMap: map<Id, Node>, downstream: map<Id, seq<Id>>, entries: seq<Id>)
    returns (longest: Path, visited: set<Id>)
    requires nodeMap == NodeMap(g.nodes) && entries == EntryPoints(g)
    requires forall id :: Listed(downstream, id) == Targets(g.edges, id)
    ensures Deepest(g, longest) && Simple(longest) && FirstFound(g, longest)
    ensures forall v :: v in visited <==> Reachable(g, v)
  {
    longest, visited := [], {};
    var queue := StartQueue(entries);
    ghost var best: Best := map[];
    ghost var n := 0;
    while |queue| > 0
      invariant visited == best.Keys
      invariant SearchState(best, queue, longest) == Rounds(g, n)
      decreases Universe(g) - best.Keys, |queue|
    {
      RoundLowers(g, n);
      n := n + 1;
      longest, visited, queue, best := TakeFirst(g, nodeMap, downstream, longest, visited, queue, best);
    }
    SearchResult(g, n);
  }

  /** The body of the search loop. */
  method TakeFirst(g: Graph, nodeMap: map<Id, Node>, downstream: map<Id, seq<Id>>, longest0: Path, visited0: set<Id>,
                   queue0: seq<Entry>, ghost best0: Best)
    returns (longest: Path, visited: set<Id>, queue: seq<Entry>, ghost best: Best)
    requires nodeMap == NodeMap(g.nodes) && forall id :: Listed(downstream, id) == Targets(g.edges, id)
    requires queue0 != [] && visited0 == best0.Keys
    ensures visited == best.Keys
    ensures SearchState(best, queue, longest) == Round(g, SearchState(best0, queue0, longest0))
  {
    longest, visited, queue, best := longest0, visited0, queue0[1..], best0;
    var cur := queue0[0];
    if cur.id !in visited {
      visited := visited + {cur.id};
      if |cur.path| > |longest| {
        longest := cur.path;
      }
      queue := AddTargets(g, nodeMap, cur, Listed(downstream, cur.id), visited, queue);
      best := Visit(best, cur);
    }
  }

  lemma QueueInUniverse(g: Graph)
    ensures forall e :: e in Start(EntryPoints(g)) ==> e.id in Universe(g)
  {
    StartEntries(EntryPoints(g));
  }

  lemma AdvanceInUniverse(g: Graph, best: Best, queue: seq<Entry>)
    requires queue != [] && forall e :: e in queue ==> e.id in Universe(g)
    ensures forall e :: e in Advance(g, best, queue) ==> e.id in Universe(g)
  {
    ExpandEntries(g, queue[0], Visit(best, queue[0]).Keys, Targets(g.edges, queue[0].id));
    TargetsInEdges(g.edges, queue[0].id);
  }

  // ------------------------------------------------------------------ single points of failure

  predicate SingleReplica(nodeMap: map<Id, Node>, id: Id) {
    id in nodeMap && (nodeMap[id].kind == Deployment || nodeMap[id].kind == StatefulSet) && nodeMap[id].replicas <= 1
  }

  /** All providers of a node lie on the path. */
  predicate AllOnPath(providers: seq<Id>, path: Path) {
    forall u :: u in providers ==> u in path
  }

  /** When the detection flags a node of the path. */
  predicate Flagged(g: Graph, path: Path, id: Id) {
    var providers := Sources(g.edges, id);
    providers != [] && (SingleReplica(NodeMap(g.nodes), id) || (AllOnPath(providers, path) && |providers| == 1))
  }

  method ProvidersOnPath(providers: seq<Id>, path: Path) returns (all: bool)
    ensures all == AllOnPath(providers, path)
  {
    all := true;
    for i := 0 to |providers|
      invariant all && AllOnPath(providers[..i], path)
    {
      if providers[i] !in path {
        return false;
      }
    }
    assert providers[..|providers|] == providers;
  }

  method FindSpofs(g: Graph, nodeMap: map<Id, Node>, upstream: map<Id, seq<Id>>, path: Path) returns (spofs: set<Id>)
    requires nodeMap == NodeMap(g.nodes) && forall id :: Listed(upstream, id) == Sources(g.edges, id)
    ensures forall id :: id in spofs <==> id in path && Flagged(g, path, id)
  {
    spofs := {};
    for i := 0 to |path|
      invariant forall id :: id in spofs <==> id in path[..i] && Flagged(g, path, id)
    {
      var id := path[i];
      var providers := Listed(upstream, id);
      assert path[..i + 1] == path[..i] + [id];
      if |providers| != 0 {
        var all := ProvidersOnPath(providers, path);
        if SingleReplica(nodeMap, id) {
          spofs := spofs + {id};
        }
        if all && |providers| == 1 {
          spofs := spofs + {id};
        }
      }
    }
    assert path[..|path|] == path;
  }

  /** In-scope nodes with at least three downstream connections. */
  predicate Bottleneck(g: Graph, id: Id) {
    |Targets(g.edges, id)| >= 3 && id in NodeMap(g.nodes) && Scope(g, id)
  }

  method FindBottlenecks(g: Graph, nodeMap: map<Id, Node>, downstream: map<Id, seq<Id>>) returns (ids: set<Id>)
    requires nodeMap == NodeMap(g.nodes) && forall id :: Listed(downstream, id) == Targets(g.edges, id)
    ensures forall id :: id in ids <==> Bottleneck(g, id)
  {
    ids := {};
    var todo := downstream.Keys;
    while todo != {}
      invariant todo <= downstream.Keys
      invariant forall id :: id in ids <==> id in downstream && id !in todo && Bottleneck(g, id)
      decreases todo
    {
      var id :| id in todo;
      if |downstream[id]| >= 3 && id in nodeMap && InScope(nodeMap, g.ns, id) {
        ids := ids + {id};
      }
      todo := todo - {id};
    }
  }

  method ComputeCriticalPath(g: Graph) returns (path: Path, spofs: set<Id>, bottlenecks: set<Id>)
    ensures Deepest(g, path) && Simple(path) && FirstFound(g, path)
    ensures forall id :: id in spofs <==> id in path && Flagged(g, path, id) && id in NodeMap(g.nodes)
    ensures forall id :: id in bottlenecks <==> Bottleneck(g, id)
    ensures path == [] <==> !Present(g, {Ingress}) && !Present(g, {Service}) && !Present(g, {Deployment, StatefulSet})
    ensures path != [] ==> StartsSearch(g, path[0])
  {
    var downstream, upstream := BuildAdjacency(g.edges);
    var nodeMap := BuildNodeMap(g.nodes);
    var entries := FindEntryPoints(g, nodeMap);
    ghost var visited;
    path, visited := Search(g, nodeMap, downstream, entries);
    var flagged := FindSpofs(g, nodeMap, upstream, path);
    spofs := set id | id in flagged && id in nodeMap;
    bottlenecks := FindBottlenecks(g, nodeMap, downstream);
    PathStarts(g, path);
  }

  lemma PathStarts(g: Graph, path: Path)
    requires Deepest(g, path)
    ensures path == [] <==> !Present(g, {Ingress}) && !Present(g, {Service}) && !Present(g, {Deployment, StatefulSet})
    ensures path != [] ==> StartsSearch(g, path[0])
  {
    NoEntryPoints(g);
    WalkMeans(g, path);
  }

  /** The detection, told from the edges: the node has incoming edges, and it is a workload of
      at most one replica or its only incoming edge comes from the path. */
  lemma FlaggedInEdges(g: Graph, path: Path, id: Id)
    ensures Flagged(g, path, id) <==>
      && InEdges(g.edges, id) != {}
      && (LoneWorkload(g, id) || (|InEdges(g.edges, id)| == 1 && exists u :: u in path && Joined(g.edges, u, id)))
  {
    var providers := Sources(g.edges, id);
    SourcesMean(g.edges, id);
    assert providers != [] <==> InEdges(g.edges, id) != {};
    LoneWorkloadMeans(g, id);
    if |providers| == 1 {
      assert providers[0] in providers && forall u :: u in providers <==> u == providers[0];
      assert AllOnPath(providers, path) <==> providers[0] in path;
    }
  }

  lemma LoneWorkloadMeans(g: Graph, id: Id)
    ensures SingleReplica(NodeMap(g.nodes), id) <==> LoneWorkload(g, id)
  {
    NodeMapMeans(g.nodes, id);
  }

  ghost predicate LoneWorkload(g: Graph, id: Id) {
    exists k :: LastWith(g.nodes, k, id) && g.nodes[k].kind in {Deployment, StatefulSet} && g.nodes[k].replicas <= 1
  }

  /** Bottlenecks have three outgoing edges or more, are listed and visible. */
  lemma BottleneckInEdges(g: Graph, id: Id)
    ensures Bottleneck(g, id) <==>
            |OutEdges(g.edges, id)| >= 3 && Visible(g, id) && exists k :: 0 <= k < |g.nodes| && g.nodes[k].id == id
  {
    TargetsMean(g.edges, id);
    ScopeMeans(g, id);
    NamedNode(g.nodes, id);
  }

  lemma {:induction false} NamedNode(nodes: seq<Node>, id: Id)
    ensures id in NodeMap(nodes) <==> exists k :: 0 <= k < |nodes| && nodes[k].id == id
  {
    if nodes != [] {
      NamedNode(nodes[..|nodes| - 1], id);
    }
  }

  // ------------------------------------------------------------------ what the flags mean

  /** On a deepest path no node but the first is an entry point. */
  lemma NoLaterEntryPoint(g: Graph, path: Path, i: nat)
    requires Deepest(g, path) && 0 < i < |path|
    ensures path[i] !in EntryPoints(g)
  {
    if path[i] in EntryPoints(g) {
      WalkFromEntry(g, path, i);
    }
  }

  /** Past the first node the test of the providers against the path is redundant: a node is
      flagged exactly when it is a single-replica workload or has exactly one incoming edge. */
  lemma FlaggedMeans(g: Graph, path: Path, i: nat)
    requires Deepest(g, path) && 0 < i < |path|
    ensures Flagged(g, path, path[i]) <==> SingleReplica(NodeMap(g.nodes), path[i]) || |Sources(g.edges, path[i])| == 1
  {
    ProviderBefore(g, path, i);
    var providers := Sources(g.edges, path[i]);
    if |providers| == 1 {
      assert providers == [path[i - 1]];
    }
  }

  lemma ProviderBefore(g: Graph, q: Path, i: nat)
    requires Walk(g, q) && 0 < i < |q|
    ensures q[i - 1] in Sources(g.edges, q[i])
  {
    LinkedBothWays(g.edges, q[i - 1], q[i]);
  }

  /** A node with one incoming edge is a true single point of failure of its provider: every
      in-scope path from any entry point to it passes through the node before it. */
  lemma SpofIsUnavoidable(g: Graph, path: Path, i: nat, q: Path)
    requires Deepest(g, path) && 0 < i < |path| && |Sources(g.edges, path[i])| == 1
    requires Walk(g, q) && Last(q) == path[i]
    ensures Flagged(g, path, path[i])
    ensures |q| >= 2 && q[|q| - 2] == path[i - 1]
  {
    FlaggedMeans(g, path, i);
    OneIsSole(Sources(g.edges, path[i]));
    OnlyProvider(g, path, i, q);
  }

  lemma OneIsSole(s: seq<Id>)
    requires |s| == 1
    ensures Sole(s)
  {
  }

  /** All elements are the same. */
  predicate Sole(s: seq<Id>) {
    forall u, v :: u in s && v in s ==> u == v
  }

  /** Any walk to a later node of the path comes through its only provider. */
  lemma OnlyProvider(g: Graph, path: Path, i: nat, q: Path)
    requires Deepest(g, path) && 0 < i < |path|
    requires Sole(Sources(g.edges, path[i]))
    requires Walk(g, q) && Last(q) == path[i]
    ensures |q| >= 2 && q[|q| - 2] == path[i - 1]
  {
    NoLaterEntryPoint(g, path, i);
    assert |q| >= 2;
    ProviderBefore(g, path, i);
    ProviderBefore(g, q, |q| - 1);
  }

  /** Every in-scope path from an entry point to path[i] comes in from the node before it. */
  ghost predicate OnlyWayIn(g: Graph, path: Path, i: nat)
    requires 0 < i < |path|
  {
    forall q :: Walk(g, q) && Last(q) == path[i] ==> |q| >= 2 && q[|q| - 2] == path[i - 1]
  }

  /** Among the providers of path[i] only the node before it can be reached. */
  ghost predicate OnlyReachedProvider(g: Graph, path: Path, i: nat)
    requires 0 < i < |path|
  {
    forall u :: u in Sources(g.edges, path[i]) && Reachable(g, u) ==> u == path[i - 1]
  }

  lemma OnlyWayInExactly(g: Graph, path: Path, i: nat)
    requires Deepest(g, path) && 0 < i < |path|
    ensures OnlyWayIn(g, path, i) <==> OnlyReachedProvider(g, path, i)
  {
    NoLaterEntryPoint(g, path, i);
    if OnlyReachedProvider(g, path, i) {
      forall q | Walk(g, q) && Last(q) == path[i] ensures |q| >= 2 && q[|q| - 2] == path[i - 1] {
        assert |q| >= 2;
        ProviderBefore(g, q, |q| - 1);
        WalkPrefix(g, q, |q| - 1);
        assert Last(q[..|q| - 1]) == q[|q| - 2];
      }
    }
    if OnlyWayIn(g, path, i) {
      forall u | u in Sources(g.edges, path[i]) && Reachable(g, u) ensures u == path[i - 1] {
        WayInFrom(g, path, i, u);
      }
    }
  }

  lemma WayInFrom(g: Graph, path: Path, i: nat, u: Id)
    requires Walk(g, path) && 0 < i < |path| && OnlyWayIn(g, path, i)
    requires u in Sources(g.edges, path[i]) && Reachable(g, u)
    ensures u == path[i - 1]
  {
    var p :| Walk(g, p) && Last(p) == u;
    LinkedBothWays(g.edges, u, path[i]);
    WalkExtend(g, p, path[i]);
    assert Last(p + [path[i]]) == path[i];
  }

  /** The detection misses a node with only one way in exactly when that node has several
      incoming edges, all reachable ones from the node before it, and is no single-replica
      workload.  What it flags although there is another way in are single replicas. */
  lemma SpofMissedExactly(g: Graph, path: Path, i: nat)
    requires Deepest(g, path) && 0 < i < |path|
    ensures var single, providers := SingleReplica(NodeMap(g.nodes), path[i]), Sources(g.edges, path[i]);
      && (OnlyWayIn(g, path, i) && !Flagged(g, path, path[i]) <==>
           OnlyReachedProvider(g, path, i) && |providers| > 1 && !single)
      && (Flagged(g, path, path[i]) && !OnlyWayIn(g, path, i) <==>
           single && exists u :: u in providers && Reachable(g, u) && u != path[i - 1])
  {
    FlaggedMeans(g, path, i);
    ProviderBefore(g, path, i);
    OnlyWayInExactly(g, path, i);
    if |Sources(g.edges, path[i])| == 1 {
      OneIsSole(Sources(g.edges, path[i]));
    }
  }

  /** Parallel edges from the one provider hide such a node: it is flagged only as a single
      replica. */
  lemma ParallelEdgesHideSpof(g: Graph, path: Path, i: nat)
    requires Deepest(g, path) && 0 < i < |path| && |Sources(g.edges, path[i])| > 1
    requires forall u :: u in Sources(g.edges, path[i]) ==> u == path[i - 1]
    ensures OnlyWayIn(g, path, i)
    ensures Flagged(g, path, path[i]) <==> SingleReplica(NodeMap(g.nodes), path[i])
  {
    FlaggedMeans(g, path, i);
    OnlyWayInExactly(g, path, i);
  }

  /** An ingress and a service behind it; the service is also the target of a node that nothing
      reaches. */
  function StrayProvider(i: Id, s: Id, c: Id): Graph {
    Graph([Node(i, Ingress, i, "", 1), Node(s, Service, s, "", 1), Node(c, OtherKind, c, "", 1)],
          [Edge(i, s, ""), Edge(c, s, "")], "")
  }

  /** The stray provider hides the service just the same. */
  lemma StrayProviderHidesSpof(i: Id, s: Id, c: Id)
    requires i != s && i != c && s != c
    ensures var g := StrayProvider(i, s, c);
      Deepest(g, [i, s]) && OnlyWayIn(g, [i, s], 1) && !Flagged(g, [i, s], s)
  {
    var g := StrayProvider(i, s, c);
    StrayEdges(i, s, c);
    StrayEntry(i, s, c);
    assert Walk(g, [i, s]) && Walk(g, [i]) && Last([i]) == i && Last([i, s]) == s;
    forall q | Walk(g, q) ensures q == [i] || q == [i, s] {
      StrayWalk(i, s, c, q);
    }
    forall v | Reachable(g, v) ensures Within(g, v, 2) {
    }
    StrayNodes(i, s, c);
  }

  lemma StrayEdges(i: Id, s: Id, c: Id)
    requires i != s && i != c && s != c
    ensures var edges := StrayProvider(i, s, c).edges;
      && Sources(edges, s) == [i, c]
      && forall u, v :: v in Targets(edges, u) <==> (u == i || u == c) && v == s
  {
    var edges := StrayProvider(i, s, c).edges;
    assert edges[..1] == [Edge(i, s, "")] && edges[..1][..0] == [];
    assert Sources(edges[..1], s) == [i];
    forall u, v ensures v in Targets(edges, u) <==> (u == i || u == c) && v == s {
      assert Targets(edges[..1], u) == if u == i then [s] else [];
    }
  }

  lemma StrayEntry(i: Id, s: Id, c: Id)
    requires i != s && i != c && s != c
    ensures EntryPoints(StrayProvider(i, s, c)) == [i]
  {
    var g := StrayProvider(i, s, c);
    assert OfKinds(g, {Ingress}, 1) == [i];
    assert OfKinds(g, {Ingress}, 2) == [i];
    assert OfKinds(g, {Ingress}, 3) == [i];
  }

  lemma StrayNodes(i: Id, s: Id, c: Id)
    requires i != s && i != c && s != c
    ensures !SingleReplica(NodeMap(StrayProvider(i, s, c).nodes), s)
  {
    var nodes := StrayProvider(i, s, c).nodes;
    assert nodes[..2][..1] == nodes[..1];
    assert NodeMap(nodes[..2])[s].kind == Service;
    assert NodeMap(nodes)[s].kind == Service;
  }

  lemma StrayWalk(i: Id, s: Id, c: Id, q: Path)
    requires i != s && i != c && s != c
    requires Walk(StrayProvider(i, s, c), q)
    ensures q == [i] || q == [i, s]
  {
    var g := StrayProvider(i, s, c);
    StrayEdges(i, s, c);
    StrayEntry(i, s, c);
    assert |q| > 1 ==> Linked(g, q[0], q[1]);
    assert |q| > 2 ==> Linked(g, q[1], q[2]);
  }
}
