/** The cluster topology as the critical-path search sees it, and the paths in it. */
module Topology {

  type Id = string

  datatype Kind = Ingress | Service | Deployment | StatefulSet | OtherKind

  datatype Node = Node(id: Id, kind: Kind, name: string, namespace: string, replicas: int)

  datatype Edge = Edge(source: Id, target: Id, relationship: string)

  /** A topology and the namespace to look at; "" means all of them. */
  datatype Graph = Graph(nodes: seq<Node>, edges: seq<Edge>, ns: string)

  type Path = seq<Id>

  /** The last node listed with an id is the one that counts. */
  function NodeMap(nodes: seq<Node>): map<Id, Node> {
    if nodes == [] then map[]
    else NodeMap(nodes[..|nodes| - 1])[nodes[|nodes| - 1].id := nodes[|nodes| - 1]]
  }

  predicate InScope(nodeMap: map<Id, Node>, ns: string, id: Id) {
    ns == "" || (id in nodeMap && (nodeMap[id].namespace == ns || nodeMap[id].namespace == ""))
  }

  predicate Scope(g: Graph, id: Id) {
    InScope(NodeMap(g.nodes), g.ns, id)
  }

  /** Targets of the edges that leave an id, in the order of the edges. */
  function Targets(edges: seq<Edge>, id: Id): seq<Id> {
    if edges == [] then []
    else
      var e := edges[|edges| - 1];
      Targets(edges[..|edges| - 1], id) + (if e.source == id then [e.target] else [])
  }

  /** Sources of the edges that enter an id, in the order of the edges. */
  function Sources(edges: seq<Edge>, id: Id): seq<Id> {
    if edges == [] then []
    else
      var e := edges[|edges| - 1];
      Sources(edges[..|edges| - 1], id) + (if e.target == id then [e.source] else [])
  }

  predicate Linked(g: Graph, u: Id, v: Id) {
    v in Targets(g.edges, u)
  }

  lemma {:induction false} LinkedBothWays(edges: seq<Edge>, u: Id, v: Id)
    ensures v in Targets(edges, u) <==> u in Sources(edges, v)
  {
    if edges != [] {
      LinkedBothWays(edges[..|edges| - 1], u, v);
    }
  }

  /** The in-scope ids of the given kinds, in the order of the first n nodes. */
  function OfKinds(g: Graph, kinds: set<Kind>, n: nat): seq<Id>
    requires n <= |g.nodes|
  {
    if n == 0 then []
    else
      var v := g.nodes[n - 1];
      OfKinds(g, kinds, n - 1) + (if Scope(g, v.id) && v.kind in kinds then [v.id] else [])
  }

  /** Ingresses; without any, Services; without those, workloads. */
  function EntryPoints(g: Graph): seq<Id> {
    var ingresses := OfKinds(g, {Ingress}, |g.nodes|);
    if ingresses != [] then ingresses
    else
      var services := OfKinds(g, {Service}, |g.nodes|);
      if services != [] then services else OfKinds(g, {Deployment, StatefulSet}, |g.nodes|)
  }

  lemma {:induction false} OfKindsInScope(g: Graph, kinds: set<Kind>, n: nat, id: Id)
    requires n <= |g.nodes| && id in OfKinds(g, kinds, n)
    ensures Scope(g, id)
  {
    if id in OfKinds(g, kinds, n - 1) {
      OfKindsInScope(g, kinds, n - 1, id);
    }
  }

  lemma EntryPointsInScope(g: Graph, id: Id)
    requires id in EntryPoints(g)
    ensures Scope(g, id)
  {
    if id in OfKinds(g, {Ingress}, |g.nodes|) {
      OfKindsInScope(g, {Ingress}, |g.nodes|, id);
    } else if id in OfKinds(g, {Service}, |g.nodes|) {
      OfKindsInScope(g, {Service}, |g.nodes|, id);
    } else {
      OfKindsInScope(g, {Deployment, StatefulSet}, |g.nodes|, id);
    }
  }

  /** A path of in-scope nodes along edges, from an entry point. */
  ghost predicate Walk(g: Graph, p: Path) {
    && p != []
    && p[0] in EntryPoints(g)
    && (forall i :: 0 <= i < |p| ==> Scope(g, p[i]))
    && (forall i :: 0 < i < |p| ==> Linked(g, p[i - 1], p[i]))
  }

  function Last(p: Path): Id
    requires p != []
  {
    p[|p| - 1]
  }

  ghost predicate Shortest(g: Graph, p: Path) {
    Walk(g, p) && forall q :: Walk(g, q) && Last(q) == Last(p) ==> |p| <= |q|
  }

  ghost predicate Reachable(g: Graph, v: Id) {
    exists p :: Walk(g, p) && Last(p) == v
  }

  /** Some walk of at most n nodes ends in v. */
  ghost predicate Within(g: Graph, v: Id, n: nat) {
    exists p :: Walk(g, p) && Last(p) == v && |p| <= n
  }

  predicate Simple(p: Path) {
    forall i, j :: 0 <= i < j < |p| ==> p[i] != p[j]
  }

  /** A deepest path: a shortest one to its end, and no reachable node is farther away. */
  ghost predicate Deepest(g: Graph, p: Path) {
    if p == [] then EntryPoints(g) == []
    else Shortest(g, p) && forall v :: Reachable(g, v) ==> Within(g, v, |p|)
  }

  /** All deepest paths are equally long: one more than the greatest distance. */
  lemma DeepestLength(g: Graph, p: Path, q: Path)
    requires Deepest(g, p) && Deepest(g, q)
    ensures |p| == |q|
  {
    if p != [] && q != [] {
      assert Reachable(g, Last(p)) && Reachable(g, Last(q));
      assert Within(g, Last(q), |p|) && Within(g, Last(p), |q|);
    }
  }

  lemma WalkPrefix(g: Graph, p: Path, n: nat)
    requires Walk(g, p) && 0 < n <= |p|
    ensures Walk(g, p[..n])
  {
  }

  lemma WalkExtend(g: Graph, p: Path, v: Id)
    requires Walk(g, p) && Linked(g, Last(p), v) && Scope(g, v)
    ensures Walk(g, p + [v])
  {
  }

  /** A walk may be cut at any entry point it passes. */
  lemma WalkFromEntry(g: Graph, p: Path, i: nat)
    requires Walk(g, p) && i < |p| && p[i] in EntryPoints(g)
    ensures Walk(g, p[i..]) && Last(p[i..]) == Last(p)
  {
    forall k | 0 < k < |p[i..]| ensures Linked(g, p[i..][k - 1], p[i..][k]) {
      assert p[i..][k - 1] == p[i + k - 1] && p[i..][k] == p[i + k];
    }
  }

  // ------------------------------------------------------------------ told from the lists alone

  /** nodes[k] is the last node listed with the id. */
  predicate LastWith(nodes: seq<Node>, k: int, id: Id) {
    0 <= k < |nodes| && nodes[k].id == id && forall j :: k < j < |nodes| ==> nodes[j].id != id
  }

  lemma {:induction false} NodeMapMeans(nodes: seq<Node>, id: Id)
    ensures id in NodeMap(nodes) <==> exists k :: LastWith(nodes, k, id)
    ensures forall k :: LastWith(nodes, k, id) ==> id in NodeMap(nodes) && NodeMap(nodes)[id] == nodes[k]
  {
    if nodes != [] {
      var front, n := nodes[..|nodes| - 1], |nodes| - 1;
      NodeMapMeans(front, id);
      if nodes[n].id == id {
        assert LastWith(nodes, n, id);
      } else {
        forall k ensures LastWith(nodes, k, id) <==> LastWith(front, k, id) {
        }
      }
    }
  }

  /** The id is in scope: no namespace was asked for, or its node is in that one or in none. */
  ghost predicate Visible(g: Graph, id: Id) {
    g.ns == "" || exists k :: LastWith(g.nodes, k, id) && g.nodes[k].namespace in {g.ns, ""}
  }

  lemma ScopeMeans(g: Graph, id: Id)
    ensures Scope(g, id) <==> Visible(g, id)
  {
    NodeMapMeans(g.nodes, id);
  }

  /** A visible node of one of these kinds is listed with the id. */
  ghost predicate Offers(g: Graph, id: Id, kinds: set<Kind>) {
    Visible(g, id) && exists k :: 0 <= k < |g.nodes| && g.nodes[k].id == id && g.nodes[k].kind in kinds
  }

  ghost predicate Present(g: Graph, kinds: set<Kind>) {
    exists id :: Offers(g, id, kinds)
  }

  lemma {:induction false} OfKindsMeans(g: Graph, kinds: set<Kind>, n: nat, id: Id)
    requires n <= |g.nodes|
    ensures id in OfKinds(g, kinds, n) <==>
            Visible(g, id) && exists k :: 0 <= k < n && g.nodes[k].id == id && g.nodes[k].kind in kinds
  {
    if n > 0 {
      var v := g.nodes[n - 1];
      OfKindsMeans(g, kinds, n - 1, id);
      ScopeMeans(g, v.id);
      assert id in OfKinds(g, kinds, n) <==>
               id in OfKinds(g, kinds, n - 1) || (id == v.id && Scope(g, id) && v.kind in kinds);
    }
  }

  lemma NoneOfKinds(g: Graph, kinds: set<Kind>)
    ensures OfKinds(g, kinds, |g.nodes|) != [] <==> Present(g, kinds)
  {
    var ids := OfKinds(g, kinds, |g.nodes|);
    if ids != [] {
      OfKindsMeans(g, kinds, |g.nodes|, ids[0]);
      assert Offers(g, ids[0], kinds);
    }
    if Present(g, kinds) {
      var id :| Offers(g, id, kinds);
      OfKindsMeans(g, kinds, |g.nodes|, id);
    }
  }

  /** Ingresses if any is visible; services if there is none; workloads with neither. */
  lemma EntryPointsMean(g: Graph, id: Id)
    ensures Present(g, {Ingress}) ==> (id in EntryPoints(g) <==> Offers(g, id, {Ingress}))
    ensures !Present(g, {Ingress}) && Present(g, {Service}) ==> (id in EntryPoints(g) <==> Offers(g, id, {Service}))
    ensures !Present(g, {Ingress}) && !Present(g, {Service}) ==>
              (id in EntryPoints(g) <==> Offers(g, id, {Deployment, StatefulSet}))
  {
    NoneOfKinds(g, {Ingress});
    NoneOfKinds(g, {Service});
    OfKindsMeans(g, {Ingress}, |g.nodes|, id);
    OfKindsMeans(g, {Service}, |g.nodes|, id);
    OfKindsMeans(g, {Deployment, StatefulSet}, |g.nodes|, id);
  }

  /** The nodes among the first n that offer such an entry. */
  ghost function Offering(g: Graph, kinds: set<Kind>, n: nat): set<int>
    requires n <= |g.nodes|
  {
    set k | 0 <= k < n && g.nodes[k].kind in kinds && Scope(g, g.nodes[k].id)
  }

  lemma {:induction false} OfKindsCount(g: Graph, kinds: set<Kind>, n: nat)
    requires n <= |g.nodes|
    ensures |OfKinds(g, kinds, n)| == |Offering(g, kinds, n)|
  {
    if n > 0 {
      OfKindsCount(g, kinds, n - 1);
      assert Offering(g, kinds, n)
          == Offering(g, kinds, n - 1) + if n - 1 in Offering(g, kinds, n) then {n - 1} else {};
    }
  }

  lemma {:induction false} OfKindsInOrder(g: Graph, kinds: set<Kind>, n: nat, i: nat)
    requires i < n <= |g.nodes| && i in Offering(g, kinds, n)
    ensures var ids := OfKinds(g, kinds, n);
      |Offering(g, kinds, i)| < |ids| == |Offering(g, kinds, n)| && ids[|Offering(g, kinds, i)|] == g.nodes[i].id
  {
    OfKindsCount(g, kinds, n);
    if i < n - 1 {
      OfKindsInOrder(g, kinds, n - 1, i);
    } else {
      OfKindsCount(g, kinds, i);
    }
  }

  ghost function EntryKinds(g: Graph): set<Kind> {
    if Present(g, {Ingress}) then {Ingress} else if Present(g, {Service}) then {Service} else {Deployment, StatefulSet}
  }

  /** The entry points come in the order of the nodes, once for each time they are listed. */
  lemma EntryPointsInOrder(g: Graph, i: nat)
    requires i < |g.nodes| && i in Offering(g, EntryKinds(g), |g.nodes|)
    ensures var before := |Offering(g, EntryKinds(g), i)|;
      && before < |EntryPoints(g)| == |Offering(g, EntryKinds(g), |g.nodes|)|
      && EntryPoints(g)[before] == g.nodes[i].id
  {
    NoneOfKinds(g, {Ingress});
    NoneOfKinds(g, {Service});
    OfKindsInOrder(g, EntryKinds(g), |g.nodes|, i);
  }

  /** A search may start here. */
  ghost predicate StartsSearch(g: Graph, id: Id) {
    if Present(g, {Ingress}) then Offers(g, id, {Ingress})
    else if Present(g, {Service}) then Offers(g, id, {Service})
    else Offers(g, id, {Deployment, StatefulSet})
  }

  lemma NoEntryPoints(g: Graph)
    ensures EntryPoints(g) == [] <==>
            !Present(g, {Ingress}) && !Present(g, {Service}) && !Present(g, {Deployment, StatefulSet})
  {
    NoneOfKinds(g, {Ingress});
    NoneOfKinds(g, {Service});
    NoneOfKinds(g, {Deployment, StatefulSet});
  }

  ghost function OutEdges(edges: seq<Edge>, id: Id): set<int> {
    set i | 0 <= i < |edges| && edges[i].source == id
  }

  ghost function InEdges(edges: seq<Edge>, id: Id): set<int> {
    set i | 0 <= i < |edges| && edges[i].target == id
  }

  predicate Joined(edges: seq<Edge>, u: Id, v: Id) {
    exists i :: 0 <= i < |edges| && edges[i].source == u && edges[i].target == v
  }

  /** A node has one target for each edge that leaves it. */
  lemma {:induction false} TargetsMean(edges: seq<Edge>, u: Id)
    ensures |Targets(edges, u)| == |OutEdges(edges, u)|
    ensures forall v :: v in Targets(edges, u) <==> Joined(edges, u, v)
  {
    if edges != [] {
      var n := |edges| - 1;
      TargetsMean(edges[..n], u);
      assert OutEdges(edges, u) == OutEdges(edges[..n], u) + if edges[n].source == u then {n} else {};
      forall v
        ensures Joined(edges, u, v) <==> Joined(edges[..n], u, v) || (edges[n].source == u && edges[n].target == v)
      {
      }
    }
  }

  /** The targets come in the order of the edges. */
  lemma {:induction false} TargetsInOrder(edges: seq<Edge>, u: Id, i: nat)
    requires i < |edges| && edges[i].source == u
    ensures |OutEdges(edges[..i], u)| < |Targets(edges, u)|
    ensures Targets(edges, u)[|OutEdges(edges[..i], u)|] == edges[i].target
  {
    var front := edges[..|edges| - 1];
    if i < |front| {
      assert front[..i] == edges[..i];
      TargetsInOrder(front, u, i);
    } else {
      TargetsMean(front, u);
    }
  }

  /** And one source for each edge that enters it. */
  lemma {:induction false} SourcesMean(edges: seq<Edge>, v: Id)
    ensures |Sources(edges, v)| == |InEdges(edges, v)|
    ensures forall u :: u in Sources(edges, v) <==> Joined(edges, u, v)
  {
    if edges != [] {
      var n := |edges| - 1;
      SourcesMean(edges[..n], v);
      assert InEdges(edges, v) == InEdges(edges[..n], v) + if edges[n].target == v then {n} else {};
      forall u
        ensures Joined(edges, u, v) <==> Joined(edges[..n], u, v) || (edges[n].source == u && edges[n].target == v)
      {
      }
    }
  }

  /** A walk starts where a search may start, stays among visible ids and follows edges. */
  lemma WalkMeans(g: Graph, p: Path)
    ensures Walk(g, p) <==>
      && p != [] && StartsSearch(g, p[0])
      && (forall i :: 0 <= i < |p| ==> Visible(g, p[i]))
      && (forall i :: 0 < i < |p| ==> Joined(g.edges, p[i - 1], p[i]))
  {
    if p != [] {
      EntryPointsMean(g, p[0]);
      forall i | 0 <= i < |p| ensures Scope(g, p[i]) <==> Visible(g, p[i]) {
        ScopeMeans(g, p[i]);
      }
      forall i | 0 < i < |p| ensures Linked(g, p[i - 1], p[i]) <==> Joined(g.edges, p[i - 1], p[i]) {
        TargetsMean(g.edges, p[i - 1]);
      }
    }
  }
}
