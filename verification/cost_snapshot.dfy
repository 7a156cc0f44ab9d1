/** The cost pipeline's snapshot: aggregation, ranking, the cut to the top twenty, and the
    ring of past snapshots. */
module CostSnapshot {
  import opened Sorting
  import opened Cost

  // ------------------------------------------------------------------ sums

  lemma SumBySnoc<T>(xs: seq<T>, x: T, f: T -> real)
    ensures SumBy(xs + [x], f) == SumBy(xs, f) + f(x)
  {
    assert (xs + [x])[..|xs|] == xs;
  }

  lemma {:induction false} SumByConcat<T>(a: seq<T>, b: seq<T>, f: T -> real)
    ensures SumBy(a + b, f) == SumBy(a, f) + SumBy(b, f)
  {
    if b == [] {
      assert a + b == a;
    } else {
      assert a + b == (a + b[..|b| - 1]) + [b[|b| - 1]];
      SumBySnoc(a + b[..|b| - 1], b[|b| - 1], f);
      SumByConcat(a, b[..|b| - 1], f);
    }
  }

  lemma TakeOut<T>(b: seq<T>, k: nat, f: T -> real)
    requires k < |b|
    ensures multiset(b) == multiset(b[..k] + b[k + 1..]) + multiset{b[k]}
    ensures SumBy(b, f) == SumBy(b[..k] + b[k + 1..], f) + f(b[k])
  {
    Apart(b, k);
    SumBetween(b[..k], b[k], b[k + 1..], f);
  }

  lemma Apart<T>(b: seq<T>, k: nat)
    requires k < |b|
    ensures b == b[..k] + [b[k]] + b[k + 1..]
    ensures multiset(b) == multiset(b[..k] + b[k + 1..]) + multiset{b[k]}
  {
    assert b == b[..k] + [b[k]] + b[k + 1..];
  }

  lemma SumBetween<T>(a: seq<T>, x: T, b: seq<T>, f: T -> real)
    ensures SumBy(a + [x] + b, f) == SumBy(a + b, f) + f(x)
  {
    SumByConcat(a + [x], b, f);
    SumBySnoc(a, x, f);
    SumByConcat(a, b, f);
  }

  /** A sum does not depend on the order of its terms. */
  lemma {:induction false} SumByForgetsOrder<T>(a: seq<T>, b: seq<T>, f: T -> real)
    requires multiset(a) == multiset(b)
    ensures SumBy(a, f) == SumBy(b, f)
    decreases |a|
  {
    SameSize(a, b);
    if a != [] {
      var front, x := a[..|a| - 1], a[|a| - 1];
      assert a == front + [x];
      assert x in multiset(b);
      var k :| 0 <= k < |b| && b[k] == x;
      TakeOut(b, k, f);
      assert multiset(front) == multiset(a) - multiset{x};
      assert multiset(b[..k] + b[k + 1..]) == multiset(b) - multiset{x};
      SumByForgetsOrder(front, b[..k] + b[k + 1..], f);
    }
  }

  lemma {:induction false} SumBySign<T>(xs: seq<T>, f: T -> real)
    requires forall x :: x in xs ==> f(x) >= 0.0
    ensures SumBy(xs, f) >= 0.0
  {
    if xs != [] {
      SumBySign(xs[..|xs| - 1], f);
    }
  }

  /** The first of any ranking of the same items sum to at most the whole. */
  lemma TopSum<T>(all: seq<T>, ranked: seq<T>, n: nat, f: T -> real)
    requires multiset(ranked) == multiset(all) && n <= |ranked|
    requires forall x :: x in all ==> f(x) >= 0.0
    ensures SumBy(ranked[..n], f) <= SumBy(all, f)
  {
    SumByForgetsOrder(all, ranked, f);
    assert ranked == ranked[..n] + ranked[n..];
    SumByConcat(ranked[..n], ranked[n..], f);
    forall x | x in ranked[n..] ensures f(x) >= 0.0 {
      assert x in multiset(ranked) && x in multiset(all);
    }
    SumBySign(ranked[n..], f);
  }

  // ------------------------------------------------------------------ aggregation

  function Get<K>(m: map<K, real>, k: K): real {
    if k in m then m[k] else 0.0
  }

  function HourOf(c: ResourceCost): real {
    c.hour
  }

  function ByType(costs: seq<ResourceCost>): map<ResourceType, real> {
    if costs == [] then map[]
    else
      var m, c := ByType(costs[..|costs| - 1]), costs[|costs| - 1];
      m[c.kind := Get(m, c.kind) + c.hour]
  }

  function ByNamespace(costs: seq<ResourceCost>): map<string, real> {
    if costs == [] then map[]
    else
      var m, c := ByNamespace(costs[..|costs| - 1]), costs[|costs| - 1];
      if c.namespace != "" then m[c.namespace := Get(m, c.namespace) + c.hour] else m
  }

  method AggregateClusterCost(costs: seq<ResourceCost>)
    returns (totalHour: real, byNamespace: map<string, real>, byType: map<ResourceType, real>)
    ensures totalHour == SumBy(costs, HourOf) && byNamespace == ByNamespace(costs) && byType == ByType(costs)
  {
    totalHour, byNamespace, byType := 0.0, map[], map[];
    for i := 0 to |costs|
      invariant totalHour == SumBy(costs[..i], HourOf)
      invariant byNamespace == ByNamespace(costs[..i]) && byType == ByType(costs[..i])
    {
      assert costs[..i + 1][..i] == costs[..i];
      var r := costs[i];
      totalHour := totalHour + r.hour;
      if r.namespace != "" {
        byNamespace := byNamespace[r.namespace := Get(byNamespace, r.namespace) + r.hour];
      }
      byType := byType[r.kind := Get(byType, r.kind) + r.hour];
    }
    assert costs[..|costs|] == costs;
  }

  function SumOfTypes(m: map<ResourceType, real>): real {
    Get(m, PodType) + Get(m, NodeType) + Get(m, VolumeType) + Get(m, LoadBalancerType)
  }

  lemma SumOfTypesUpdate(m: map<ResourceType, real>, k: ResourceType, v: real)
    ensures SumOfTypes(m[k := Get(m, k) + v]) == SumOfTypes(m) + v
  {
  }

  /** The totals by type add up to the cluster total. */
  lemma {:induction false} TypesSumToTotal(costs: seq<ResourceCost>)
    ensures SumOfTypes(ByType(costs)) == SumBy(costs, HourOf)
  {
    if costs != [] {
      var front, c := costs[..|costs| - 1], costs[|costs| - 1];
      TypesSumToTotal(front);
      SumOfTypesUpdate(ByType(front), c.kind, c.hour);
    }
  }

  /** The hourly cost of a resource that belongs to a namespace; none otherwise. */
  function NamespacedHour(c: ResourceCost): real {
    if c.namespace != "" then c.hour else 0.0
  }

  /** The sum of a map's values, in whatever order its keys are visited. */
  function SumOver(m: map<string, real>, keys: seq<string>): real {
    if keys == [] then 0.0 else SumOver(m, keys[..|keys| - 1]) + Get(m, keys[|keys| - 1])
  }

  predicate Distinct(keys: seq<string>) {
    forall i, j :: 0 <= i < j < |keys| ==> keys[i] != keys[j]
  }

  lemma {:induction false} SumOverUpdate(m: map<string, real>, keys: seq<string>, k: string, v: real)
    requires Distinct(keys)
    ensures SumOver(m[k := Get(m, k) + v], keys) == SumOver(m, keys) + (if k in keys then v else 0.0)
  {
    if keys != [] {
      var front, last := keys[..|keys| - 1], keys[|keys| - 1];
      SumOverUpdate(m, front, k, v);
      assert keys == front + [last];
    }
  }

  lemma {:induction false} SumOverEmpty(keys: seq<string>)
    ensures SumOver(map[], keys) == 0.0
  {
    if keys != [] {
      SumOverEmpty(keys[..|keys| - 1]);
    }
  }

  /** Visiting every namespace once, in any order, the totals by namespace add up to the cost
      of everything that belongs to one. */
  lemma {:induction false} NamespacesSumToNamespaced(costs: seq<ResourceCost>, keys: seq<string>)
    requires Distinct(keys) && forall c :: c in costs && c.namespace != "" ==> c.namespace in keys
    ensures SumOver(ByNamespace(costs), keys) == SumBy(costs, NamespacedHour)
  {
    if costs == [] {
      SumOverEmpty(keys);
    } else {
      var front, c := costs[..|costs| - 1], costs[|costs| - 1];
      assert forall d :: d in front ==> d in costs;
      assert c in costs;
      NamespacesSumToNamespaced(front, keys);
      SumOverUpdate(ByNamespace(front), keys, c.namespace, c.hour);
    }
  }

  lemma {:induction false} NamespaceKeys(costs: seq<ResourceCost>)
    ensures forall ns :: ns in ByNamespace(costs) <==> ns != "" && exists c :: c in costs && c.namespace == ns
  {
    if costs != [] {
      var front, last := costs[..|costs| - 1], costs[|costs| - 1];
      NamespaceKeys(front);
      assert costs == front + [last];
      assert forall c :: c in costs <==> c in front || c == last;
    }
  }

  // ------------------------------------------------------------------ the snapshot

  const TOP := 20

  predicate MoreSavings(a: Optimization, b: Optimization) {
    a.savings >= b.savings
  }

  predicate MoreWaste(a: Score, b: Score) {
    a.waste >= b.waste
  }

  function Cut<T>(xs: seq<T>): seq<T> {
    if |xs| > TOP then xs[..TOP] else xs
  }

  datatype Snapshot = Snapshot(hour: real, day: real, month: real,
                               byNamespace: map<string, real>, byType: map<ResourceType, real>,
                               count: nat, scores: seq<Score>, optimizations: seq<Optimization>)

  /** What the pods contribute, one after the other: costs, scores and recommendations. */
  datatype Findings = Findings(costs: seq<ResourceCost>, scores: seq<Score>, opts: seq<Optimization>)

  function OfPods(p: Pricing, pods: seq<Pod>): Findings {
    if pods == [] then Findings([], [], [])
    else
      var f, pod := OfPods(p, pods[..|pods| - 1]), pods[|pods| - 1];
      Findings(f.costs + [PodCost(p, pod)], f.scores + [PodScore(p, pod)], f.opts + PodOpts(p, pod))
  }

  function OfNodes(p: Pricing, f0: Findings, nodes: seq<Node>): Findings {
    if nodes == [] then f0
    else
      var f, node := OfNodes(p, f0, nodes[..|nodes| - 1]), nodes[|nodes| - 1];
      Findings(f.costs + [NodeCost(p, node)], f.scores + [NodeScore(p, node)], f.opts + NodeOpts(p, node))
  }

  function OfVolumes(p: Pricing, f0: Findings, volumes: seq<Volume>): Findings {
    if volumes == [] then f0
    else
      var f := OfVolumes(p, f0, volumes[..|volumes| - 1]);
      f.(costs := f.costs + [VolumeCost(p, volumes[|volumes| - 1])])
  }

  function OfServices(p: Pricing, f0: Findings, services: seq<Service>): Findings {
    if services == [] then f0
    else
      var f := OfServices(p, f0, services[..|services| - 1]);
      f.(costs := f.costs + ServiceCost(p, services[|services| - 1]))
  }

  function FindingsOf(p: Pricing, c: Cluster): Findings {
    OfServices(p, OfVolumes(p, OfNodes(p, OfPods(p, c.pods), c.nodes), c.volumes), c.services)
  }

  function SnapshotOf(p: Pricing, c: Cluster): Snapshot {
    var f := FindingsOf(p, c);
    var hour := SumBy(f.costs, HourOf);
    Snapshot(hour, hour * 24.0, hour * 24.0 * 30.0, ByNamespace(f.costs), ByType(f.costs), |f.costs|,
             Cut(Sort(f.scores, MoreWaste)), Cut(Sort(f.opts, MoreSavings)))
  }

  // ------------------------------------------------------------------ the pipeline

  const MAX_SNAPSHOTS := 30

  function Recorded(snapshots: seq<Snapshot>, s: Snapshot): seq<Snapshot> {
    (if |snapshots| >= MAX_SNAPSHOTS then snapshots[1..] else snapshots) + [s]
  }

  class CostPipeline {
    var pricing: Pricing
    var snapshots: seq<Snapshot>
    var lastSnapshot: seq<Snapshot>   // empty until the first scrape

    constructor (pricing: Pricing)
      ensures this.pricing == pricing && snapshots == [] && lastSnapshot == []
    {
      this.pricing, snapshots, lastSnapshot := pricing, [], [];
    }

    method SetCustomPricing(pricing: Pricing)
      modifies this`pricing
      ensures this.pricing == pricing
    {
      this.pricing := pricing;
    }

    method RecordSnapshot(snap: Snapshot)
      modifies this`snapshots
      ensures snapshots == Recorded(old(snapshots), snap)
    {
      if |snapshots| >= MAX_SNAPSHOTS {
        snapshots := snapshots[1..];
      }
      snapshots := snapshots + [snap];
    }

    method Collect(c: Cluster) returns (f: Findings)
      ensures f == FindingsOf(pricing, c)
    {
      f := Findings([], [], []);
      for i := 0 to |c.pods|
        invariant f == OfPods(pricing, c.pods[..i])
      {
        assert c.pods[..i + 1][..i] == c.pods[..i];
        f := Findings(f.costs + [PodCost(pricing, c.pods[i])], f.scores + [PodScore(pricing, c.pods[i])],
                      f.opts + PodOpts(pricing, c.pods[i]));
      }
      assert c.pods[..|c.pods|] == c.pods;
      for i := 0 to |c.nodes|
        invariant f == OfNodes(pricing, OfPods(pricing, c.pods), c.nodes[..i])
      {
        assert c.nodes[..i + 1][..i] == c.nodes[..i];
        f := Findings(f.costs + [NodeCost(pricing, c.nodes[i])], f.scores + [NodeScore(pricing, c.nodes[i])],
                      f.opts + NodeOpts(pricing, c.nodes[i]));
      }
      assert c.nodes[..|c.nodes|] == c.nodes;
      f := CollectRest(f, c);
    }

    method CollectRest(f0: Findings, c: Cluster) returns (f: Findings)
      ensures f == OfServices(pricing, OfVolumes(pricing, f0, c.volumes), c.services)
    {
      f := f0;
      for i := 0 to |c.volumes|
        invariant f == OfVolumes(pricing, f0, c.volumes[..i])
      {
        assert c.volumes[..i + 1][..i] == c.volumes[..i];
        f := f.(costs := f.costs + [VolumeCost(pricing, c.volumes[i])]);
      }
      assert c.volumes[..|c.volumes|] == c.volumes;
      for i := 0 to |c.services|
        invariant f == OfServices(pricing, OfVolumes(pricing, f0, c.volumes), c.services[..i])
      {
        assert c.services[..i + 1][..i] == c.services[..i];
        f := f.(costs := f.costs + ServiceCost(pricing, c.services[i]));
      }
      assert c.services[..|c.services|] == c.services;
    }

    method Scrape(c: Cluster) returns (snap: Snapshot)
      modifies this`snapshots, this`lastSnapshot
      ensures snap == SnapshotOf(pricing, c) && lastSnapshot == [snap] && snapshots == Recorded(old(snapshots), snap)
    {
      var f := Collect(c);
      var hour, byNamespace, byType := AggregateClusterCost(f.costs);
      snap := Snapshot(hour, hour * 24.0, hour * 24.0 * 30.0, byNamespace, byType, |f.costs|,
                       Cut(Sort(f.scores, MoreWaste)), Cut(Sort(f.opts, MoreSavings)));
      lastSnapshot := [snap];
      RecordSnapshot(snap);
    }
  }

  function RecordedAll(snapshots: seq<Snapshot>): seq<Snapshot> {
    if snapshots == [] then [] else Recorded(RecordedAll(snapshots[..|snapshots| - 1]), snapshots[|snapshots| - 1])
  }

  /** The ring always holds the last thirty snapshots, oldest first. */
  lemma {:induction false} RingHoldsLast(all: seq<Snapshot>)
    ensures RecordedAll(all) == if |all| > 30 then all[|all| - 30..] else all
  {
    if all != [] {
      RingHoldsLast(all[..|all| - 1]);
    }
  }

  // ------------------------------------------------------------------ savings against cost

  predicate PodNotNegative(x: Pod) {
    x.reqCPU >= 0.0 && x.reqMem >= 0.0 && x.actCPU >= 0.0 && x.actMem >= 0.0
  }

  ghost predicate NotNegative(c: Cluster) {
    && (forall x :: x in c.pods ==> PodNotNegative(x))
    && (forall x :: x in c.nodes ==> x.totalCPU >= 0.0 && x.totalMem >= 0.0)
    && (forall x :: x in c.volumes ==> x.sizeGB >= 0.0)
  }

  /** Savings and waste of the findings are covered by their hourly cost. */
  ghost predicate Covered(f: Findings) {
    && TotalSavings(f.opts) <= SumBy(f.costs, HourOf) * 720.0
    && SumBy(f.scores, WasteOf) <= SumBy(f.costs, HourOf) * 720.0
    && (forall o :: o in f.opts ==> o.savings >= 0.0)
    && (forall s :: s in f.scores ==> s.waste >= 0.0)
  }

  function WasteOf(s: Score): real {
    s.waste
  }

  lemma CoverMore(f: Findings, c: ResourceCost, s: Score, opts: seq<Optimization>)
    requires Covered(f) && Sensible(opts, c.month) && 0.0 <= s.waste <= c.month && c.month == c.hour * 24.0 * 30.0
    ensures Covered(Findings(f.costs + [c], f.scores + [s], f.opts + opts))
  {
    SumBySnoc(f.costs, c, HourOf);
    SumBySnoc(f.scores, s, WasteOf);
    SumByConcat(f.opts, opts, SavingsOf);
  }

  lemma CoverCost(f: Findings, c: ResourceCost)
    requires Covered(f) && c.hour >= 0.0
    ensures Covered(f.(costs := f.costs + [c]))
  {
    SumBySnoc(f.costs, c, HourOf);
  }

  lemma {:induction false} PodsCovered(p: Pricing, pods: seq<Pod>)
    requires FairPrices(p)
    requires forall x :: x in pods ==> PodNotNegative(x)
    ensures Covered(OfPods(p, pods))
  {
    if pods != [] {
      var front, pod := pods[..|pods| - 1], pods[|pods| - 1];
      assert pod in pods && forall x :: x in front ==> x in pods;
      PodsCovered(p, front);
      WasteWithinCost(p, pod);
      var e := Effective(pod);
      PodSavings(p, e.name, e.namespace, e.reqCPU, e.actCPU, e.reqMem, e.actMem, 720.0);
      CoverMore(OfPods(p, front), PodCost(p, pod), PodScore(p, pod), PodOpts(p, pod));
    }
  }

  lemma {:induction false} NodesCovered(p: Pricing, f0: Findings, nodes: seq<Node>)
    requires FairPrices(p) && Covered(f0) && forall x :: x in nodes ==> x.totalCPU >= 0.0 && x.totalMem >= 0.0
    ensures Covered(OfNodes(p, f0, nodes))
  {
    if nodes != [] {
      var front, node := nodes[..|nodes| - 1], nodes[|nodes| - 1];
      assert node in nodes && forall x :: x in front ==> x in nodes;
      NodesCovered(p, f0, front);
      NodeWasteWithinCost(p, node);
      var e := EffectiveNode(node);
      NodeSavings(p, e.name, e.totalCPU, e.usedCPU, e.totalMem, e.usedMem);
      CoverMore(OfNodes(p, f0, front), NodeCost(p, node), NodeScore(p, node), NodeOpts(p, node));
    }
  }

  lemma {:induction false} VolumesCovered(p: Pricing, f0: Findings, volumes: seq<Volume>)
    requires FairPrices(p) && Covered(f0) && forall x :: x in volumes ==> x.sizeGB >= 0.0
    ensures Covered(OfVolumes(p, f0, volumes))
  {
    if volumes != [] {
      var front, v := volumes[..|volumes| - 1], volumes[|volumes| - 1];
      assert v in volumes && forall x :: x in front ==> x in volumes;
      VolumesCovered(p, f0, front);
      Amount(OrElse(v.sizeGB, 10.0), p.storageGBMonth);
      CoverCost(OfVolumes(p, f0, front), VolumeCost(p, v));
    }
  }

  lemma {:induction false} ServicesCovered(p: Pricing, f0: Findings, services: seq<Service>)
    requires FairPrices(p) && Covered(f0)
    ensures Covered(OfServices(p, f0, services))
  {
    if services != [] {
      var front, s := services[..|services| - 1], services[|services| - 1];
      ServicesCovered(p, f0, front);
      Amount(100.0, p.networkGB);
      if s.loadBalancer {
        CoverCost(OfServices(p, f0, front), CalculateLoadBalancerCost(p, s.name, s.namespace, 100.0));
      } else {
        assert OfServices(p, f0, front).costs + [] == OfServices(p, f0, front).costs;
      }
    }
  }

  lemma FindingsCovered(p: Pricing, c: Cluster)
    requires FairPrices(p) && NotNegative(c)
    ensures Covered(FindingsOf(p, c))
  {
    PodsCovered(p, c.pods);
    NodesCovered(p, OfPods(p, c.pods), c.nodes);
    VolumesCovered(p, OfNodes(p, OfPods(p, c.pods), c.nodes), c.volumes);
    ServicesCovered(p, OfVolumes(p, OfNodes(p, OfPods(p, c.pods), c.nodes), c.volumes), c.services);
  }

  /** The listed savings, and the listed waste, never exceed the cluster's monthly cost. */
  lemma SavingsNeverExceedCost(p: Pricing, c: Cluster)
    requires FairPrices(p) && NotNegative(c)
    ensures var s := SnapshotOf(p, c);
      0.0 <= TotalSavings(s.optimizations) <= s.month && SumBy(s.scores, WasteOf) <= s.month
  {
    var f := FindingsOf(p, c);
    FindingsCovered(p, c);
    SortPermutes(f.opts, MoreSavings);
    SortPermutes(f.scores, MoreWaste);
    AnyRankingIsCovered(f, Sort(f.opts, MoreSavings), Sort(f.scores, MoreWaste));
  }

  /** The same for every way of breaking ties: any ranking will do. */
  lemma AnyRankingIsCovered(f: Findings, opts: seq<Optimization>, scores: seq<Score>)
    requires Covered(f) && multiset(opts) == multiset(f.opts) && multiset(scores) == multiset(f.scores)
    ensures 0.0 <= TotalSavings(Cut(opts)) <= SumBy(f.costs, HourOf) * 720.0
    ensures SumBy(Cut(scores), WasteOf) <= SumBy(f.costs, HourOf) * 720.0
  {
    var n, k := if |opts| > TOP then TOP else |opts|, if |scores| > TOP then TOP else |scores|;
    TopSum(f.opts, opts, n, SavingsOf);
    TopSum(f.scores, scores, k, WasteOf);
    assert Cut(opts) == opts[..n] && Cut(scores) == scores[..k];
    forall o | o in opts[..n] ensures SavingsOf(o) >= 0.0 {
      assert o in multiset(opts) && o in multiset(f.opts);
    }
    SumBySign(opts[..n], SavingsOf);
  }

  /** The cut keeps the best: nothing left out saves more than anything listed. */
  lemma TopIsBest(p: Pricing, c: Cluster, i: nat, j: nat)
    requires var ranked := Sort(FindingsOf(p, c).opts, MoreSavings); i < |Cut(ranked)| && |Cut(ranked)| <= j < |ranked|
    ensures var ranked := Sort(FindingsOf(p, c).opts, MoreSavings);
      && SnapshotOf(p, c).optimizations[i].savings >= ranked[j].savings
      && multiset(ranked) == multiset(FindingsOf(p, c).opts)
  {
    SortSorts(FindingsOf(p, c).opts, MoreSavings);
    SortPermutes(FindingsOf(p, c).opts, MoreSavings);
    var ranked := Sort(FindingsOf(p, c).opts, MoreSavings);
    assert MoreSavings(ranked[i], ranked[j]);
  }
}
