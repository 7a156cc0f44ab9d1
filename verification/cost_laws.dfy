/** What the cost figures mean: prices, scores, waste, recommendations and the snapshot, told
    from the resources and the price list. */
module CostLaws {
  import opened Sorting
  import opened Cost
  import opened CostSnapshot

  // ------------------------------------------------------------------ prices

  /** A day is 24 hours and a month 30 days, for every kind of resource. */
  predicate InProportion(c: ResourceCost) {
    c.day == 24.0 * c.hour && c.month == 720.0 * c.hour
  }

  /** What each resource costs in a month, who it belongs to, and what a missing size means. */
  lemma PodPrice(p: Pricing, pod: Pod)
    ensures var c, e := PodCost(p, pod), Effective(pod);
      && c.month == 720.0 * (e.reqCPU * p.cpuHour + e.reqMem * p.memGBHour) && InProportion(c)
      && c.kind == PodType && c.name == pod.name && c.namespace == pod.namespace
    ensures var e := Effective(pod);
      && (if pod.reqCPU == 0.0 then e.reqCPU == 1.0 else e.reqCPU == pod.reqCPU)
      && (if pod.reqMem == 0.0 then e.reqMem == 0.5 else e.reqMem == pod.reqMem)
      && (if pod.actCPU == 0.0 then 10.0 * e.actCPU == 6.0 * e.reqCPU else e.actCPU == pod.actCPU)
      && (if pod.actMem == 0.0 then 10.0 * e.actMem == 6.0 * e.reqMem else e.actMem == pod.actMem)
  {
  }

  lemma NodePrice(p: Pricing, node: Node)
    ensures var c, e := NodeCost(p, node), EffectiveNode(node);
      && c.month == 720.0 * (e.totalCPU * p.cpuHour + e.totalMem * p.memGBHour) && InProportion(c)
      && c.kind == NodeType && c.name == node.name && c.namespace == ""
    ensures var e := EffectiveNode(node);
      && (if node.totalCPU == 0.0 then e.totalCPU == 4.0 else e.totalCPU == node.totalCPU)
      && (if node.totalMem == 0.0 then e.totalMem == 16.0 else e.totalMem == node.totalMem)
      && (if node.usedCPU == 0.0 then 2.0 * e.usedCPU == e.totalCPU else e.usedCPU == node.usedCPU)
      && (if node.usedMem == 0.0 then 2.0 * e.usedMem == e.totalMem else e.usedMem == node.usedMem)
  {
  }

  lemma OtherPrices(p: Pricing, v: Volume, s: Service)
    ensures var c := VolumeCost(p, v);
      && c.month == (if v.sizeGB == 0.0 then 10.0 else v.sizeGB) * p.storageGBMonth && InProportion(c)
      && c.kind == VolumeType && c.name == v.name && c.namespace == v.namespace
    ensures !s.loadBalancer <==> ServiceCost(p, s) == []
    ensures s.loadBalancer ==> var c := ServiceCost(p, s);
      && |c| == 1 && c[0].month == 720.0 * p.loadBalancerHour + 100.0 * p.networkGB && InProportion(c[0])
      && c[0].kind == LoadBalancerType && c[0].name == s.name && c[0].namespace == s.namespace
  {
  }

  // ------------------------------------------------------------------ the score

  lemma Utilization(used: real, total: real)
    requires total > 0.0
    ensures used >= total ==> used / total * 100.0 >= 100.0
    ensures used < total ==> used / total * 100.0 < 100.0
    ensures used <= 0.0 ==> used / total * 100.0 <= 0.0
    ensures used > 0.0 ==> used / total * 100.0 > 0.0
    ensures used / total * 100.0 * total == used * 100.0
  {
    var u := used / total;
    assert u * total == used;
    if u >= 1.0 {
      Amount(u - 1.0, total);
    } else {
      Amount(1.0 - u, total);
    }
  }

  lemma UtilizationRises(used: real, more: real, total: real)
    requires total > 0.0 && used <= more
    ensures used / total * 100.0 <= more / total * 100.0
    ensures used < more ==> used / total * 100.0 < more / total * 100.0
  {
    Utilization(more - used, total);
    assert (more - used) / total == more / total - used / total;
  }

  /** The score is full exactly when both resources are used to at least what there is of
      them, and nil exactly when neither is used at all. */
  lemma FullScore(used: real, total: real, usedMem: real, totalMem: real)
    requires total > 0.0 && totalMem > 0.0
    ensures Efficiency(used, total, usedMem, totalMem) == 100.0 <==> used >= total && usedMem >= totalMem
    ensures Efficiency(used, total, usedMem, totalMem) == 0.0 <==> used <= 0.0 && usedMem <= 0.0
  {
    Utilization(used, total);
    Utilization(usedMem, totalMem);
  }

  /** It never falls when more is used, and rises when more of what was free is. */
  lemma ScoreRises(used: real, total: real, usedMem: real, totalMem: real, more: real, moreMem: real)
    requires total > 0.0 && totalMem > 0.0 && used <= more && usedMem <= moreMem
    ensures Efficiency(used, total, usedMem, totalMem) <= Efficiency(more, total, moreMem, totalMem)
    ensures 0.0 <= used < more && used < total ==>
              Efficiency(used, total, usedMem, totalMem) < Efficiency(more, total, moreMem, totalMem)
    ensures 0.0 <= usedMem < moreMem && usedMem < totalMem ==>
              Efficiency(used, total, usedMem, totalMem) < Efficiency(more, total, moreMem, totalMem)
  {
    UtilizationRises(used, more, total);
    UtilizationRises(usedMem, moreMem, totalMem);
    Utilization(used, total);
    Utilization(usedMem, totalMem);
  }

  /** Below the limits both resources weigh the same. */
  lemma ScoreIsMean(used: real, total: real, usedMem: real, totalMem: real)
    requires 0.0 <= used <= total && 0.0 <= usedMem <= totalMem && total > 0.0 && totalMem > 0.0
    ensures 2.0 * Efficiency(used, total, usedMem, totalMem) == used / total * 100.0 + usedMem / totalMem * 100.0
  {
    Utilization(used, total);
    Utilization(usedMem, totalMem);
  }

  // ------------------------------------------------------------------ waste

  /** The waste and the used share of the cost make up the cost. */
  predicate Balanced(cost: real, s: Score) {
    100.0 * s.waste + s.overall * cost == 100.0 * cost
  }

  lemma WastedBalances(cost: real, overall: real)
    ensures 100.0 * Wasted(cost, overall) + overall * cost == 100.0 * cost
  {
  }

  lemma BalancedWaste(cost: real, s: Score)
    requires Balanced(cost, s) && cost > 0.0
    ensures s.waste == 0.0 <==> s.overall == 100.0
  {
    if s.waste == 0.0 {
      assert (100.0 - s.overall) * cost == 0.0;
      NoFactor(100.0 - s.overall, cost);
    }
  }

  lemma NoFactor(x: real, cost: real)
    requires cost > 0.0 && x * cost == 0.0
    ensures x == 0.0
  {
  }

  /** A pod that costs something wastes nothing exactly when it uses what it requests. */
  lemma PodWasteMeans(p: Pricing, pod: Pod)
    requires FairPrices(p) && pod.reqCPU >= 0.0 && pod.reqMem >= 0.0
    ensures Balanced(PodCost(p, pod).month, PodScore(p, pod))
    ensures PodScore(p, pod).name == pod.name && PodScore(p, pod).namespace == pod.namespace
    ensures PodCost(p, pod).month > 0.0 ==>
              (PodScore(p, pod).waste == 0.0 <==>
                Effective(pod).actCPU >= Effective(pod).reqCPU && Effective(pod).actMem >= Effective(pod).reqMem)
  {
    var e := Effective(pod);
    WastedBalances(PodCost(p, pod).month, PodScore(p, pod).overall);
    FullScore(e.actCPU, e.reqCPU, e.actMem, e.reqMem);
    if PodCost(p, pod).month > 0.0 {
      BalancedWaste(PodCost(p, pod).month, PodScore(p, pod));
    }
  }

  lemma NodeWasteMeans(p: Pricing, node: Node)
    requires FairPrices(p) && node.totalCPU >= 0.0 && node.totalMem >= 0.0
    ensures Balanced(NodeCost(p, node).month, NodeScore(p, node))
    ensures NodeScore(p, node).name == node.name && NodeScore(p, node).namespace == ""
    ensures NodeCost(p, node).month > 0.0 ==>
              (NodeScore(p, node).waste == 0.0 <==>
                && EffectiveNode(node).usedCPU >= EffectiveNode(node).totalCPU
                && EffectiveNode(node).usedMem >= EffectiveNode(node).totalMem)
  {
    var e := EffectiveNode(node);
    WastedBalances(NodeCost(p, node).month, NodeScore(p, node).overall);
    FullScore(e.usedCPU, e.totalCPU, e.usedMem, e.totalMem);
    if NodeCost(p, node).month > 0.0 {
      BalancedWaste(NodeCost(p, node).month, NodeScore(p, node));
    }
  }

  /** At equal cost the higher score is the smaller waste: between any two pods or nodes, since
      the scores of both are balanced. */
  lemma HigherScoreWastesLess(cost: real, a: Score, b: Score)
    requires cost > 0.0 && Balanced(cost, a) && Balanced(cost, b)
    ensures a.overall > b.overall <==> a.waste < b.waste
  {
    assert 100.0 * (b.waste - a.waste) == (a.overall - b.overall) * cost;
    if a.overall > b.overall {
      Positive(a.overall - b.overall, cost);
    } else {
      Amount(b.overall - a.overall, cost);
    }
  }

  lemma Positive(x: real, y: real)
    requires x > 0.0 && y > 0.0
    ensures x * y > 0.0
  {
  }

  /** Where nothing is known of its usage a pod scores 60 and a node 50. */
  lemma UnknownUsage(p: Pricing, pod: Pod, node: Node)
    requires pod.reqCPU >= 0.0 && pod.reqMem >= 0.0 && node.totalCPU >= 0.0 && node.totalMem >= 0.0
    ensures pod.actCPU == 0.0 && pod.actMem == 0.0 ==> PodScore(p, pod).overall == 60.0
    ensures node.usedCPU == 0.0 && node.usedMem == 0.0 ==> NodeScore(p, node).overall == 50.0
  {
    var e, n := Effective(pod), EffectiveNode(node);
    FixedShare(e.reqCPU, 0.6);
    FixedShare(e.reqMem, 0.6);
    FixedShare(n.totalCPU, 0.5);
    FixedShare(n.totalMem, 0.5);
  }

  lemma FixedShare(total: real, f: real)
    requires total > 0.0
    ensures total * f / total == f
  {
  }

  /** Of two pods, or two nodes, at the same cost the one with the higher score wastes less. */
  lemma EqualCostPods(p: Pricing, a: Pod, b: Pod)
    requires FairPrices(p) && a.reqCPU >= 0.0 && a.reqMem >= 0.0 && b.reqCPU >= 0.0 && b.reqMem >= 0.0
    requires PodCost(p, a).month == PodCost(p, b).month > 0.0
    ensures PodScore(p, a).overall > PodScore(p, b).overall <==> PodScore(p, a).waste < PodScore(p, b).waste
  {
    PodWasteMeans(p, a);
    PodWasteMeans(p, b);
    HigherScoreWastesLess(PodCost(p, a).month, PodScore(p, a), PodScore(p, b));
  }

  lemma EqualCostNodes(p: Pricing, a: Node, b: Node)
    requires FairPrices(p) && a.totalCPU >= 0.0 && a.totalMem >= 0.0 && b.totalCPU >= 0.0 && b.totalMem >= 0.0
    requires NodeCost(p, a).month == NodeCost(p, b).month > 0.0
    ensures NodeScore(p, a).overall > NodeScore(p, b).overall <==> NodeScore(p, a).waste < NodeScore(p, b).waste
  {
    NodeWasteMeans(p, a);
    NodeWasteMeans(p, b);
    HigherScoreWastesLess(NodeCost(p, a).month, NodeScore(p, a), NodeScore(p, b));
  }

  // ------------------------------------------------------------------ recommendations

  /** What an analysis of a pod recommends: a fifth more than is used, where less than three
      tenths of a request are; to drop it, where nothing has been used for a day. */
  lemma PodAdviceMeans(p: Pricing, name: string, ns: string, reqCPU: real, actCPU: real, reqMem: real, actMem: real,
                       hours: real)
    requires reqCPU >= 0.0 && reqMem >= 0.0
    ensures var r := PodOptimizations(p, name, ns, reqCPU, actCPU, reqMem, actMem, hours);
      var cpu, mem := 0.0 < 10.0 * actCPU < 3.0 * reqCPU, 0.0 < 10.0 * actMem < 3.0 * reqMem;
      var idle := actCPU == 0.0 && actMem == 0.0 && hours > 24.0;
      && |r| == (if cpu then 1 else 0) + (if mem then 1 else 0) + (if idle then 1 else 0)
      && (forall i :: 0 <= i < |r| ==> IsAbout(r[i], PodType, name, ns) && Adds(r[i])
                                       && (r[i].kind == IdleResource <==> idle) && r[i].kind != Underutilized)
      && (cpu ==> r[0].savings == 720.0 * ((reqCPU - 1.2 * actCPU) * p.cpuHour))
      && (mem ==> r[|r| - 1].savings == 720.0 * ((reqMem - 1.2 * actMem) * p.memGBHour))
      && (idle ==> r[0].savings == 720.0 * (reqCPU * p.cpuHour + reqMem * p.memGBHour))
  {
    SavedPart(reqCPU, actCPU * 1.2, p.cpuHour, reqMem * p.memGBHour);
    SavedPart(reqMem, actMem * 1.2, p.memGBHour, reqCPU * p.cpuHour);
  }

  predicate IsAbout(o: Optimization, kind: ResourceType, name: string, ns: string) {
    o.resource == kind && o.name == name && o.namespace == ns
  }

  predicate Adds(o: Optimization) {
    o.savings == o.current - o.optimized
  }

  lemma SavedPart(req: real, less: real, price: real, other: real)
    ensures (req * price + other) - (less * price + other) == (req - less) * price
  {
  }

  /** A node is to go when the mean of its two utilizations is below three tenths. */
  lemma NodeAdviceMeans(p: Pricing, name: string, totalCPU: real, usedCPU: real, totalMem: real, usedMem: real)
    requires totalCPU > 0.0 && totalMem > 0.0
    ensures var r := NodeOptimizations(p, name, totalCPU, usedCPU, totalMem, usedMem);
      && (r != [] <==> usedCPU / totalCPU + usedMem / totalMem < 0.6)
      && (r != [] ==>
           && |r| == 1 && r[0].kind == Underutilized && IsAbout(r[0], NodeType, name, "") && Adds(r[0])
           && r[0].savings == 720.0 * (totalCPU * p.cpuHour + totalMem * p.memGBHour))
  {
  }

  /** The pipeline never finds a pod idle: usage that reads as zero is taken for unknown. */
  lemma NoPodIsIdle(p: Pricing, pod: Pod)
    requires pod.reqCPU >= 0.0 && pod.reqMem >= 0.0
    ensures forall i :: 0 <= i < |PodOpts(p, pod)| ==> PodOpts(p, pod)[i].kind == Overprovisioned
  {
    var e := Effective(pod);
    PodAdviceMeans(p, e.name, e.namespace, e.reqCPU, e.actCPU, e.reqMem, e.actMem, 720.0);
  }

  // ------------------------------------------------------------------ the snapshot

  /** Every pod, then every node, is costed and scored once, in order. */
  lemma {:induction false} PodsFound(p: Pricing, pods: seq<Pod>)
    ensures var f := OfPods(p, pods);
      && f.costs == seq(|pods|, i requires 0 <= i < |pods| => PodCost(p, pods[i]))
      && f.scores == seq(|pods|, i requires 0 <= i < |pods| => PodScore(p, pods[i]))
      && forall i :: 0 <= i < |pods| ==> forall o :: o in PodOpts(p, pods[i]) ==> o in f.opts
  {
    if pods != [] {
      var front := pods[..|pods| - 1];
      PodsFound(p, front);
      assert forall i :: 0 <= i < |front| ==> front[i] == pods[i];
    }
  }

  lemma {:induction false} NodesFound(p: Pricing, f0: Findings, nodes: seq<Node>)
    ensures var f := OfNodes(p, f0, nodes);
      && f.costs == f0.costs + seq(|nodes|, i requires 0 <= i < |nodes| => NodeCost(p, nodes[i]))
      && f.scores == f0.scores + seq(|nodes|, i requires 0 <= i < |nodes| => NodeScore(p, nodes[i]))
      && (forall o :: o in f0.opts ==> o in f.opts)
      && forall i :: 0 <= i < |nodes| ==> forall o :: o in NodeOpts(p, nodes[i]) ==> o in f.opts
  {
    if nodes != [] {
      var front := nodes[..|nodes| - 1];
      NodesFound(p, f0, front);
      assert forall i :: 0 <= i < |front| ==> front[i] == nodes[i];
    }
  }

  function LoadBalancers(services: seq<Service>): nat {
    if services == [] then 0
    else LoadBalancers(services[..|services| - 1]) + (if services[|services| - 1].loadBalancer then 1 else 0)
  }

  /** Volumes and load balancers add costs only. */
  lemma {:induction false} VolumesFound(p: Pricing, f0: Findings, volumes: seq<Volume>)
    ensures var f := OfVolumes(p, f0, volumes);
      && f.costs == f0.costs + seq(|volumes|, i requires 0 <= i < |volumes| => VolumeCost(p, volumes[i]))
      && f.scores == f0.scores && f.opts == f0.opts
  {
    if volumes != [] {
      VolumesFound(p, f0, volumes[..|volumes| - 1]);
    }
  }

  lemma {:induction false} ServicesFound(p: Pricing, f0: Findings, services: seq<Service>)
    ensures var f := OfServices(p, f0, services);
      && f.scores == f0.scores && f.opts == f0.opts
      && |f.costs| == |f0.costs| + LoadBalancers(services) && f0.costs <= f.costs
      && forall i :: 0 <= i < |services| && services[i].loadBalancer ==> ServiceCost(p, services[i])[0] in f.costs
  {
    if services != [] {
      var front, last := services[..|services| - 1], services[|services| - 1];
      ServicesFound(p, f0, front);
      var f := OfServices(p, f0, services);
      assert f.costs == OfServices(p, f0, front).costs + ServiceCost(p, last);
      forall i | 0 <= i < |services| && services[i].loadBalancer ensures ServiceCost(p, services[i])[0] in f.costs {
        assert i < |front| ==> front[i] == services[i];
      }
    }
  }

  /** The snapshot counts every pod, node, volume and load balancer. */
  lemma EverythingIsCounted(p: Pricing, c: Cluster)
    ensures SnapshotOf(p, c).count == |c.pods| + |c.nodes| + |c.volumes| + LoadBalancers(c.services)
    ensures |FindingsOf(p, c).scores| == |c.pods| + |c.nodes|
  {
    var pods, nodes := OfPods(p, c.pods), OfNodes(p, OfPods(p, c.pods), c.nodes);
    PodsFound(p, c.pods);
    NodesFound(p, pods, c.nodes);
    VolumesFound(p, nodes, c.volumes);
    ServicesFound(p, OfVolumes(p, nodes, c.volumes), c.services);
  }

  /** What one namespace, or one type, is charged: the hours of its own resources. */
  function OwnHour(ns: string): ResourceCost -> real {
    (c: ResourceCost) => if c.namespace == ns then c.hour else 0.0
  }

  lemma {:induction false} NamespaceIsChargedItsOwn(costs: seq<ResourceCost>, ns: string)
    requires ns != ""
    ensures Get(ByNamespace(costs), ns) == SumBy(costs, OwnHour(ns))
  {
    if costs != [] {
      NamespaceIsChargedItsOwn(costs[..|costs| - 1], ns);
    }
  }

  function TypeHour(kind: ResourceType): ResourceCost -> real {
    (c: ResourceCost) => if c.kind == kind then c.hour else 0.0
  }

  lemma {:induction false} TypeIsChargedItsOwn(costs: seq<ResourceCost>, kind: ResourceType)
    ensures Get(ByType(costs), kind) == SumBy(costs, TypeHour(kind))
  {
    if costs != [] {
      TypeIsChargedItsOwn(costs[..|costs| - 1], kind);
    }
  }

  function MonthOf(c: ResourceCost): real {
    c.month
  }

  lemma {:induction false} MonthsInProportion(costs: seq<ResourceCost>)
    requires forall c :: c in costs ==> InProportion(c)
    ensures SumBy(costs, MonthOf) == 720.0 * SumBy(costs, HourOf)
  {
    if costs != [] {
      var last := costs[|costs| - 1];
      MonthsInProportion(costs[..|costs| - 1]);
      assert InProportion(last) && MonthOf(last) == 720.0 * HourOf(last);
    }
  }

  /** The monthly total is the sum of what the resources cost in a month. */
  lemma MonthIsSum(p: Pricing, c: Cluster)
    ensures SnapshotOf(p, c).month == SumBy(FindingsOf(p, c).costs, MonthOf)
    ensures SnapshotOf(p, c).day == 24.0 * SnapshotOf(p, c).hour
    ensures SnapshotOf(p, c).month == 30.0 * SnapshotOf(p, c).day
  {
    AllInProportion(p, c);
    MonthsInProportion(FindingsOf(p, c).costs);
  }

  lemma AllInProportion(p: Pricing, c: Cluster)
    ensures forall x :: x in FindingsOf(p, c).costs ==> InProportion(x)
  {
    PodsInProportion(p, c.pods);
    NodesInProportion(p, OfPods(p, c.pods), c.nodes);
    VolumesInProportion(p, OfNodes(p, OfPods(p, c.pods), c.nodes), c.volumes);
    ServicesInProportion(p, OfVolumes(p, OfNodes(p, OfPods(p, c.pods), c.nodes), c.volumes), c.services);
  }

  lemma {:induction false} PodsInProportion(p: Pricing, pods: seq<Pod>)
    ensures forall x :: x in OfPods(p, pods).costs ==> InProportion(x)
  {
    if pods != [] {
      PodsInProportion(p, pods[..|pods| - 1]);
      PodPrice(p, pods[|pods| - 1]);
    }
  }

  lemma {:induction false} NodesInProportion(p: Pricing, f0: Findings, nodes: seq<Node>)
    requires forall x :: x in f0.costs ==> InProportion(x)
    ensures forall x :: x in OfNodes(p, f0, nodes).costs ==> InProportion(x)
  {
    if nodes != [] {
      NodesInProportion(p, f0, nodes[..|nodes| - 1]);
      NodePrice(p, nodes[|nodes| - 1]);
    }
  }

  lemma {:induction false} VolumesInProportion(p: Pricing, f0: Findings, volumes: seq<Volume>)
    requires forall x :: x in f0.costs ==> InProportion(x)
    ensures forall x :: x in OfVolumes(p, f0, volumes).costs ==> InProportion(x)
  {
    if volumes != [] {
      VolumesInProportion(p, f0, volumes[..|volumes| - 1]);
      OtherPrices(p, volumes[|volumes| - 1], Service("", "", false));
    }
  }

  lemma {:induction false} ServicesInProportion(p: Pricing, f0: Findings, services: seq<Service>)
    requires forall x :: x in f0.costs ==> InProportion(x)
    ensures forall x :: x in OfServices(p, f0, services).costs ==> InProportion(x)
  {
    if services != [] {
      ServicesInProportion(p, f0, services[..|services| - 1]);
      OtherPrices(p, Volume("", "", 0.0), services[|services| - 1]);
    }
  }

  /** The list of the wasteful keeps the worst: nothing left out wastes more than anything
      listed, and the list is twenty long or complete. */
  lemma TopWasteIsWorst(p: Pricing, c: Cluster, i: nat, j: nat)
    requires var ranked := Sort(FindingsOf(p, c).scores, MoreWaste); i < |Cut(ranked)| && |Cut(ranked)| <= j < |ranked|
    ensures var ranked := Sort(FindingsOf(p, c).scores, MoreWaste);
      && SnapshotOf(p, c).scores[i].waste >= ranked[j].waste
      && multiset(ranked) == multiset(FindingsOf(p, c).scores) && |SnapshotOf(p, c).scores| == 20
  {
    SortSorts(FindingsOf(p, c).scores, MoreWaste);
    SortPermutes(FindingsOf(p, c).scores, MoreWaste);
    var ranked := Sort(FindingsOf(p, c).scores, MoreWaste);
    assert MoreWaste(ranked[i], ranked[j]);
  }

  /** Both lists come in order, the most first. */
  lemma ListsAreRanked(p: Pricing, c: Cluster)
    ensures var s := SnapshotOf(p, c);
      && (forall i, j :: 0 <= i < j < |s.scores| ==> s.scores[i].waste >= s.scores[j].waste)
      && (forall i, j :: 0 <= i < j < |s.optimizations| ==> s.optimizations[i].savings >= s.optimizations[j].savings)
  {
    SortSorts(FindingsOf(p, c).scores, MoreWaste);
    SortSorts(FindingsOf(p, c).opts, MoreSavings);
    RankedByWaste(SnapshotOf(p, c).scores);
    RankedBySavings(SnapshotOf(p, c).optimizations);
  }

  lemma RankedByWaste(s: seq<Score>)
    requires SortedBy(s, MoreWaste)
    ensures forall i, j :: 0 <= i < j < |s| ==> s[i].waste >= s[j].waste
  {
    forall i, j | 0 <= i < j < |s| ensures s[i].waste >= s[j].waste {
      assert MoreWaste(s[i], s[j]);
    }
  }

  lemma RankedBySavings(s: seq<Optimization>)
    requires SortedBy(s, MoreSavings)
    ensures forall i, j :: 0 <= i < j < |s| ==> s[i].savings >= s[j].savings
  {
    forall i, j | 0 <= i < j < |s| ensures s[i].savings >= s[j].savings {
      assert MoreSavings(s[i], s[j]);
    }
  }
}
