/** Cost of pods, nodes, volumes and load balancers, the optimizer's recommendations, and
    the snapshot that ties them together.  Amounts are real numbers. */
module Cost {

  datatype Pricing = Pricing(cpuHour: real, memGBHour: real, storageGBMonth: real, networkGB: real,
                             loadBalancerHour: real)

  datatype ResourceType = PodType | NodeType | VolumeType | LoadBalancerType

  datatype ResourceCost = ResourceCost(kind: ResourceType, name: string, namespace: string,
                                       hour: real, day: real, month: real)

  // ------------------------------------------------------------------ calculator

  function PodHour(p: Pricing, cpu: real, mem: real): real {
    cpu * p.cpuHour + mem * p.memGBHour
  }

  function CalculatePodCost(p: Pricing, name: string, namespace: string, cpu: real, mem: real): ResourceCost {
    var hour := PodHour(p, cpu, mem);
    ResourceCost(PodType, name, namespace, hour, hour * 24.0, hour * 24.0 * 30.0)
  }

  function CalculateNodeCost(p: Pricing, name: string, cpu: real, mem: real): ResourceCost {
    var hour := PodHour(p, cpu, mem);
    ResourceCost(NodeType, name, "", hour, hour * 24.0, hour * 24.0 * 30.0)
  }

  function CalculateVolumeCost(p: Pricing, name: string, namespace: string, sizeGB: real): ResourceCost {
    var month := sizeGB * p.storageGBMonth;
    var hour := month / (24.0 * 30.0);
    ResourceCost(VolumeType, name, namespace, hour, hour * 24.0, month)
  }

  function CalculateLoadBalancerCost(p: Pricing, name: string, namespace: string, transferGB: real): ResourceCost {
    var hour := p.loadBalancerHour + transferGB * p.networkGB / (24.0 * 30.0);
    ResourceCost(LoadBalancerType, name, namespace, hour, hour * 24.0, hour * 24.0 * 30.0)
  }

  // ------------------------------------------------------------------ optimizer

  datatype OptimizationType = Overprovisioned | IdleResource | Underutilized

  datatype Optimization = Optimization(kind: OptimizationType, resource: ResourceType, name: string, namespace: string,
                                       current: real, optimized: real, savings: real)

  method AnalyzePodOptimization(p: Pricing, name: string, namespace: string, reqCPU: real, actCPU: real,
                                reqMem: real, actMem: real, hours: real) returns (r: seq<Optimization>)
    ensures r == PodOptimizations(p, name, namespace, reqCPU, actCPU, reqMem, actMem, hours)
  {
    r := [];
    var current := CalculatePodCost(p, name, namespace, reqCPU, reqMem).month;
    if actCPU > 0.0 && actCPU < reqCPU * 0.3 {
      var optimized := CalculatePodCost(p, name, namespace, actCPU * 1.2, reqMem).month;
      r := r + [Optimization(Overprovisioned, PodType, name, namespace, current, optimized, current - optimized)];
    }
    if actMem > 0.0 && actMem < reqMem * 0.3 {
      var optimized := CalculatePodCost(p, name, namespace, reqCPU, actMem * 1.2).month;
      r := r + [Optimization(Overprovisioned, PodType, name, namespace, current, optimized, current - optimized)];
    }
    if actCPU == 0.0 && actMem == 0.0 && hours > 24.0 {
      r := r + [Optimization(IdleResource, PodType, name, namespace, current, 0.0, current)];
    }
  }

  function PodOptimizations(p: Pricing, name: string, namespace: string, reqCPU: real, actCPU: real,
                            reqMem: real, actMem: real, hours: real): seq<Optimization>
  {
    PodAdvice(name, namespace,
              CalculatePodCost(p, name, namespace, reqCPU, reqMem).month,
              CalculatePodCost(p, name, namespace, actCPU * 1.2, reqMem).month,
              CalculatePodCost(p, name, namespace, reqCPU, actMem * 1.2).month,
              0.0 < actCPU < reqCPU * 0.3, 0.0 < actMem < reqMem * 0.3, actCPU == 0.0 && actMem == 0.0 && hours > 24.0)
  }

  /** The recommendations from the current cost and the costs with either request reduced. */
  function PodAdvice(name: string, namespace: string, current: real, lessCPU: real, lessMem: real,
                     shrinkCPU: bool, shrinkMem: bool, idle: bool): seq<Optimization>
  {
    (if shrinkCPU then [Optimization(Overprovisioned, PodType, name, namespace, current, lessCPU, current - lessCPU)]
     else [])
    + (if shrinkMem then [Optimization(Overprovisioned, PodType, name, namespace, current, lessMem, current - lessMem)]
       else [])
    + (if idle then [Optimization(IdleResource, PodType, name, namespace, current, 0.0, current)] else [])
  }

  function NodeOptimizations(p: Pricing, name: string, totalCPU: real, usedCPU: real, totalMem: real, usedMem: real)
    : seq<Optimization>
    requires totalCPU != 0.0 && totalMem != 0.0
  {
    var current := CalculateNodeCost(p, name, totalCPU, totalMem).month;
    if (usedCPU / totalCPU + usedMem / totalMem) / 2.0 < 0.3
    then [Optimization(Underutilized, NodeType, name, "", current, 0.0, current)] else []
  }

  /** The sum of one figure over a sequence. */
  function SumBy<T>(xs: seq<T>, f: T -> real): real {
    if xs == [] then 0.0 else SumBy(xs[..|xs| - 1], f) + f(xs[|xs| - 1])
  }

  function SavingsOf(o: Optimization): real {
    o.savings
  }

  function TotalSavings(opts: seq<Optimization>): real {
    SumBy(opts, SavingsOf)
  }

  method CalculateTotalSavings(opts: seq<Optimization>) returns (total: real)
    ensures total == TotalSavings(opts)
  {
    total := 0.0;
    for i := 0 to |opts|
      invariant total == TotalSavings(opts[..i])
    {
      assert opts[..i + 1][..i] == opts[..i];
      total := total + opts[i].savings;
    }
    assert opts[..|opts|] == opts;
  }

  // ------------------------------------------------------------------ one pod, one node

  ghost predicate FairPrices(p: Pricing) {
    p.cpuHour >= 0.0 && p.memGBHour >= 0.0 && p.storageGBMonth >= 0.0 && p.networkGB >= 0.0 && p.loadBalancerHour >= 0.0
  }

  lemma Amount(x: real, price: real)
    requires x >= 0.0 && price >= 0.0
    ensures x * price >= 0.0
  {
  }

  lemma LessAmount(x: real, y: real, price: real)
    requires x <= y && price >= 0.0
    ensures x * price <= y * price
  {
    Amount(y - x, price);
    assert y * price - x * price == (y - x) * price;
  }

  /** Shrinking one request saves at most that request's part of the cost. */
  lemma ShrinkSaves(price: real, req: real, act: real, other: real)
    requires price >= 0.0 && 0.0 <= act && act * 1.2 <= req
    ensures 0.0 <= (req * price + other) - (act * 1.2 * price + other) <= req * price
  {
    LessAmount(act * 1.2, req, price);
    Amount(act * 1.2, price);
  }

  predicate Sensible(opts: seq<Optimization>, cost: real) {
    0.0 <= TotalSavings(opts) <= cost && forall i :: 0 <= i < |opts| ==> 0.0 <= opts[i].savings
  }

  lemma AdviceIsSensible(name: string, namespace: string, current: real, lessCPU: real, lessMem: real,
                         shrinkCPU: bool, shrinkMem: bool, idle: bool, cpuPart: real, memPart: real)
    requires 0.0 <= cpuPart && 0.0 <= memPart && cpuPart + memPart == current
    requires shrinkCPU ==> 0.0 <= current - lessCPU <= cpuPart
    requires shrinkMem ==> 0.0 <= current - lessMem <= memPart
    requires idle ==> !shrinkCPU && !shrinkMem
    ensures Sensible(PodAdvice(name, namespace, current, lessCPU, lessMem, shrinkCPU, shrinkMem, idle), current)
  {
    TotalOfFew(PodAdvice(name, namespace, current, lessCPU, lessMem, shrinkCPU, shrinkMem, idle));
  }

  lemma ShrinkCPU(p: Pricing, name: string, namespace: string, reqCPU: real, actCPU: real, reqMem: real)
    requires FairPrices(p) && 0.0 <= actCPU < reqCPU * 0.3
    ensures var saved := CalculatePodCost(p, name, namespace, reqCPU, reqMem).month
                         - CalculatePodCost(p, name, namespace, actCPU * 1.2, reqMem).month;
      0.0 <= saved <= reqCPU * p.cpuHour * 24.0 * 30.0
  {
    ShrinkSaves(p.cpuHour, reqCPU, actCPU, reqMem * p.memGBHour);
  }

  lemma ShrinkMem(p: Pricing, name: string, namespace: string, reqCPU: real, reqMem: real, actMem: real)
    requires FairPrices(p) && 0.0 <= actMem < reqMem * 0.3
    ensures var saved := CalculatePodCost(p, name, namespace, reqCPU, reqMem).month
                         - CalculatePodCost(p, name, namespace, reqCPU, actMem * 1.2).month;
      0.0 <= saved <= reqMem * p.memGBHour * 24.0 * 30.0
  {
    ShrinkSaves(p.memGBHour, reqMem, actMem, reqCPU * p.cpuHour);
  }

  /** Each recommendation for a pod saves something, and together they save no more than the
      pod costs. */
  lemma PodSavings(p: Pricing, name: string, namespace: string, reqCPU: real, actCPU: real,
                   reqMem: real, actMem: real, hours: real)
    requires FairPrices(p) && reqCPU >= 0.0 && actCPU >= 0.0 && reqMem >= 0.0 && actMem >= 0.0
    ensures Sensible(PodOptimizations(p, name, namespace, reqCPU, actCPU, reqMem, actMem, hours),
                     CalculatePodCost(p, name, namespace, reqCPU, reqMem).month)
  {
    var cpu, mem := reqCPU * p.cpuHour, reqMem * p.memGBHour;
    Amount(reqCPU, p.cpuHour);
    Amount(reqMem, p.memGBHour);
    if actCPU < reqCPU * 0.3 {
      ShrinkCPU(p, name, namespace, reqCPU, actCPU, reqMem);
    }
    if actMem < reqMem * 0.3 {
      ShrinkMem(p, name, namespace, reqCPU, reqMem, actMem);
    }
    AdviceIsSensible(name, namespace, CalculatePodCost(p, name, namespace, reqCPU, reqMem).month,
                     CalculatePodCost(p, name, namespace, actCPU * 1.2, reqMem).month,
                     CalculatePodCost(p, name, namespace, reqCPU, actMem * 1.2).month,
                     0.0 < actCPU < reqCPU * 0.3, 0.0 < actMem < reqMem * 0.3,
                     actCPU == 0.0 && actMem == 0.0 && hours > 24.0, cpu * 24.0 * 30.0, mem * 24.0 * 30.0);
  }

  lemma TotalOfFew(opts: seq<Optimization>)
    requires |opts| <= 2
    ensures |opts| == 0 ==> TotalSavings(opts) == 0.0
    ensures |opts| == 1 ==> TotalSavings(opts) == opts[0].savings
    ensures |opts| == 2 ==> TotalSavings(opts) == opts[0].savings + opts[1].savings
  {
    if opts != [] {
      TotalOfFew(opts[..|opts| - 1]);
      assert TotalSavings(opts) == TotalSavings(opts[..|opts| - 1]) + opts[|opts| - 1].savings;
    }
  }

  lemma NodeSavings(p: Pricing, name: string, totalCPU: real, usedCPU: real, totalMem: real, usedMem: real)
    requires FairPrices(p) && totalCPU > 0.0 && totalMem > 0.0
    ensures Sensible(NodeOptimizations(p, name, totalCPU, usedCPU, totalMem, usedMem),
                     CalculateNodeCost(p, name, totalCPU, totalMem).month)
  {
    Amount(totalCPU, p.cpuHour);
    Amount(totalMem, p.memGBHour);
    TotalOfFew(NodeOptimizations(p, name, totalCPU, usedCPU, totalMem, usedMem));
  }

  // ------------------------------------------------------------------ the cluster

  /** What the scrape read about each resource; zero means the figure is missing. */
  datatype Pod = Pod(name: string, namespace: string, reqCPU: real, reqMem: real, actCPU: real, actMem: real)

  datatype Node = Node(name: string, totalCPU: real, totalMem: real, usedCPU: real, usedMem: real)

  datatype Volume = Volume(name: string, namespace: string, sizeGB: real)

  datatype Service = Service(name: string, namespace: string, loadBalancer: bool)

  datatype Cluster = Cluster(pods: seq<Pod>, nodes: seq<Node>, volumes: seq<Volume>, services: seq<Service>)

  function OrElse(x: real, default: real): real {
    if x == 0.0 then default else x
  }

  function Effective(pod: Pod): Pod {
    var cpu, mem := OrElse(pod.reqCPU, 1.0), OrElse(pod.reqMem, 0.5);
    pod.(reqCPU := cpu, reqMem := mem, actCPU := OrElse(pod.actCPU, cpu * 0.6), actMem := OrElse(pod.actMem, mem * 0.6))
  }

  function EffectiveNode(node: Node): Node {
    var cpu, mem := OrElse(node.totalCPU, 4.0), OrElse(node.totalMem, 16.0);
    node.(totalCPU := cpu, totalMem := mem,
          usedCPU := OrElse(node.usedCPU, cpu * 0.5), usedMem := OrElse(node.usedMem, mem * 0.5))
  }

  function Clamp(v: real, lo: real, hi: real): real {
    if v < lo then lo else if v > hi then hi else v
  }

  /** Mean of the two utilizations in percent, each between 0 and 100. */
  function Efficiency(used: real, total: real, usedMem: real, totalMem: real): real
    requires total != 0.0 && totalMem != 0.0
  {
    (Clamp(used / total * 100.0, 0.0, 100.0) + Clamp(usedMem / totalMem * 100.0, 0.0, 100.0)) / 2.0
  }

  datatype Score = Score(name: string, namespace: string, overall: real, waste: real)

  function Wasted(cost: real, overall: real): real {
    cost * (1.0 - overall / 100.0)
  }

  function PodCost(p: Pricing, pod: Pod): ResourceCost {
    var e := Effective(pod);
    CalculatePodCost(p, e.name, e.namespace, e.reqCPU, e.reqMem)
  }

  function PodScore(p: Pricing, pod: Pod): Score {
    var e := Effective(pod);
    var overall := Efficiency(e.actCPU, e.reqCPU, e.actMem, e.reqMem);
    Score(e.name, e.namespace, overall, Wasted(PodCost(p, pod).month, overall))
  }

  function PodOpts(p: Pricing, pod: Pod): seq<Optimization> {
    var e := Effective(pod);
    PodOptimizations(p, e.name, e.namespace, e.reqCPU, e.actCPU, e.reqMem, e.actMem, 720.0)
  }

  function NodeCost(p: Pricing, node: Node): ResourceCost {
    var e := EffectiveNode(node);
    CalculateNodeCost(p, e.name, e.totalCPU, e.totalMem)
  }

  function NodeScore(p: Pricing, node: Node): Score {
    var e := EffectiveNode(node);
    var overall := Efficiency(e.usedCPU, e.totalCPU, e.usedMem, e.totalMem);
    Score(e.name, "", overall, Wasted(NodeCost(p, node).month, overall))
  }

  function NodeOpts(p: Pricing, node: Node): seq<Optimization> {
    var e := EffectiveNode(node);
    NodeOptimizations(p, e.name, e.totalCPU, e.usedCPU, e.totalMem, e.usedMem)
  }

  function VolumeCost(p: Pricing, v: Volume): ResourceCost {
    CalculateVolumeCost(p, v.name, v.namespace, OrElse(v.sizeGB, 10.0))
  }

  /** Only services of type LoadBalancer cost anything. */
  function ServiceCost(p: Pricing, s: Service): seq<ResourceCost> {
    if s.loadBalancer then [CalculateLoadBalancerCost(p, s.name, s.namespace, 100.0)] else []
  }

  /** The score never leaves the range from 0 to 100, so the waste lies between nothing and
      the whole cost. */
  lemma WasteWithinCost(p: Pricing, pod: Pod)
    requires FairPrices(p) && pod.reqCPU >= 0.0 && pod.reqMem >= 0.0
    ensures 0.0 <= PodScore(p, pod).overall <= 100.0
    ensures 0.0 <= PodScore(p, pod).waste <= PodCost(p, pod).month
  {
    var e := Effective(pod);
    Amount(e.reqCPU, p.cpuHour);
    Amount(e.reqMem, p.memGBHour);
    Share(PodCost(p, pod).month, PodScore(p, pod).overall);
  }

  lemma NodeWasteWithinCost(p: Pricing, node: Node)
    requires FairPrices(p) && node.totalCPU >= 0.0 && node.totalMem >= 0.0
    ensures 0.0 <= NodeScore(p, node).overall <= 100.0
    ensures 0.0 <= NodeScore(p, node).waste <= NodeCost(p, node).month
  {
    var e := EffectiveNode(node);
    Amount(e.totalCPU, p.cpuHour);
    Amount(e.totalMem, p.memGBHour);
    Share(NodeCost(p, node).month, NodeScore(p, node).overall);
  }

  lemma Share(cost: real, overall: real)
    requires cost >= 0.0 && 0.0 <= overall <= 100.0
    ensures 0.0 <= Wasted(cost, overall) <= cost
  {
    Fraction(overall);
    PartOf(cost, 1.0 - overall / 100.0);
  }

  lemma Fraction(overall: real)
    requires 0.0 <= overall <= 100.0
    ensures 0.0 <= 1.0 - overall / 100.0 <= 1.0
  {
  }

  lemma PartOf(cost: real, f: real)
    requires cost >= 0.0 && 0.0 <= f <= 1.0
    ensures 0.0 <= cost * f <= cost
  {
  }
}
