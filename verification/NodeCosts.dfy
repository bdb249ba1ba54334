/** Requests, usage and node cost by namespace and by node.

    One pass over the pods feeds the namespace records, the node records and the cluster totals,
    and hands every pod a share of its node's price.  The theorems say that the views agree and
    when a node is handed out more than once. */
module NodeCosts {
  import opened Ledger
  import opened Network
  import opened Order

  /** Measured CPU and memory by pod key. */
  type Measured = map<string, (int, int)>

  /** `load` is the CPU and memory requested and the hourly cost those requests earn; `usage` the
      CPU and memory used; `net` the bytes sent and received and their cost. */
  datatype NsRecord = NsRecord(namespace: string, podCount: nat, load: Amount, usage: Amount, net: Amount)

  datatype NodeRecord = NodeRecord(node: Node, podCount: nat, usage: Amount)

  /** `requests` and `usage` are the cluster totals of CPU and memory. */
  datatype Costs = Costs(
    namespaces: map<string, NsRecord>,
    nodes: map<string, NodeRecord>,
    requests: Amount,
    usage: Amount)

  function NewRecord(namespace: string): NsRecord
  {
    NsRecord(namespace, 0, ZERO, ZERO, ZERO)
  }

  function NamespaceRecords(names: seq<string>): map<string, NsRecord>
  {
    map n | n in names :: NewRecord(n)
  }

  /** A later node of the same name wins. */
  function NodeRecords(nodes: seq<Node>): map<string, NodeRecord>
  {
    if nodes == [] then map[]
    else
      var node := nodes[|nodes| - 1];
      NodeRecords(nodes[..|nodes| - 1])[node.name := NodeRecord(node, 0, ZERO)]
  }

  /** `totalNodeCost`: every listed node, repeated names included. */
  function TotalPrice(nodes: seq<Node>): real
  {
    if nodes == [] then 0.0 else TotalPrice(nodes[..|nodes| - 1]) + nodes[|nodes| - 1].hourlyCost
  }

  /** `skipPod` */
  predicate Skip(pod: Pod)
  {
    pod.node == "" || pod.terminating
  }

  function Requests(containers: seq<(int, int)>): Amount
  {
    if containers == [] then ZERO
    else
      var last := containers[|containers| - 1];
      Plus(Requests(containers[..|containers| - 1]), Amount(last.0, last.1, 0.0))
  }

  /** Requests add up container by container, CPU with CPU and memory with memory. */
  lemma {:induction false} RequestsAdd(xs: seq<(int, int)>, ys: seq<(int, int)>, cpu: int, memory: int)
    ensures Requests(xs + ys) == Plus(Requests(xs), Requests(ys))
    ensures Requests([(cpu, memory)]) == Amount(cpu, memory, 0.0)
  {
    assert Requests([]) == ZERO && [(cpu, memory)][..0] == [];
    PlusZero(Amount(cpu, memory, 0.0));
    hide Plus;
    if ys == [] {
      assert xs + ys == xs;
      PlusZero(Requests(xs));
    } else {
      var init, last := ys[..|ys| - 1], ys[|ys| - 1];
      RequestsAdd(xs, init, cpu, memory);
      assert (xs + ys)[..|xs + ys| - 1] == xs + init;
      PlusSwap(Requests(xs), Requests(init), Amount(last.0, last.1, 0.0));
    }
  }

  /** `sumPodRequests` over containers, init containers and ephemeral containers in turn. */
  method SumPodRequests(containers: seq<(int, int)>) returns (cpu: int, memory: int)
    ensures Amount(cpu, memory, 0.0) == Requests(containers)
  {
    cpu, memory := 0, 0;
    for i := 0 to |containers|
      invariant Amount(cpu, memory, 0.0) == Requests(containers[..i])
    {
      assert containers[..i + 1][..i] == containers[..i];
      cpu, memory := cpu + containers[i].0, memory + containers[i].1;
    }
    assert containers[..|containers|] == containers;
  }

  /** Measured CPU and memory by pod key; a zero reading falls back to the request. */
  function UsedBy(measured: Measured, pod: Pod): Amount
  {
    var reading := if KeyOf(pod) in measured then measured[KeyOf(pod)] else (0, 0);
    var requested := Requests(pod.requests);
    Amount(if reading.0 == 0 then requested.tx else reading.0,
           if reading.1 == 0 then requested.rx else reading.1, 0.0)
  }

  predicate Shares(nodes: map<string, NodeRecord>, pod: Pod)
  {
    && pod.node in nodes
    && nodes[pod.node].node.allocatableCpu > 0 && nodes[pod.node].node.hourlyCost > 0.0
    && Requests(pod.requests).tx > 0
  }

  /** The part of its node's price that a pod earns: requested over allocatable CPU, at most 1. */
  function ShareOf(nodes: map<string, NodeRecord>, pod: Pod): real
  {
    if !Shares(nodes, pod) then 0.0
    else
      var share := Requests(pod.requests).tx as real / nodes[pod.node].node.allocatableCpu as real;
      (if share > 1.0 then 1.0 else share) * nodes[pod.node].node.hourlyCost
  }

  function LoadOf(nodes: map<string, NodeRecord>, pod: Pod): Amount
  {
    var requested := Requests(pod.requests);
    Amount(requested.tx, requested.rx, ShareOf(nodes, pod))
  }

  function Loaded(rec: NsRecord, load: Amount, used: Amount): NsRecord
  {
    rec.(podCount := rec.podCount + 1, load := Plus(rec.load, load), usage := Plus(rec.usage, used))
  }

  function RecordAt(namespaces: map<string, NsRecord>, name: string): NsRecord
  {
    if name in namespaces then namespaces[name] else NewRecord(name)
  }

  function CountPod(c: Costs, measured: Measured, pod: Pod): Costs
  {
    if Skip(pod) then c
    else
      var used := UsedBy(measured, pod);
      Costs(
        c.namespaces[pod.namespace := Loaded(RecordAt(c.namespaces, pod.namespace), LoadOf(c.nodes, pod), used)],
        if pod.node !in c.nodes then c.nodes
        else
          var rec := c.nodes[pod.node];
          c.nodes[pod.node := rec.(podCount := rec.podCount + 1, usage := Plus(rec.usage, used))],
        Plus(c.requests, Requests(pod.requests)),
        Plus(c.usage, used))
  }

  function CountPods(c: Costs, measured: Measured, pods: seq<Pod>): Costs
  {
    if pods == [] then c
    else CountPod(CountPods(c, measured, pods[..|pods| - 1]), measured, pods[|pods| - 1])
  }

  function StartOf(names: seq<string>, nodes: seq<Node>): Costs
  {
    Costs(NamespaceRecords(names), NodeRecords(nodes), ZERO, ZERO)
  }

  /** The first two loops of `Build` and its cost loop. */
  method AllocateCosts(names: seq<string>, nodes: seq<Node>, pods: seq<Pod>, measured: Measured)
    returns (costs: Costs, totalNodeCost: real)
    ensures costs == CountPods(StartOf(names, nodes), measured, pods)
    ensures totalNodeCost == TotalPrice(nodes)
  {
    hide CountPod;
    var namespaces: map<string, NsRecord> := map[];
    for i := 0 to |names|
      invariant namespaces == NamespaceRecords(names[..i])
    {
      assert names[..i + 1] == names[..i] + [names[i]];
      namespaces := namespaces[names[i] := NewRecord(names[i])];
    }
    assert names[..|names|] == names;
    var nodeRecords: map<string, NodeRecord> := map[];
    totalNodeCost := 0.0;
    for i := 0 to |nodes|
      invariant nodeRecords == NodeRecords(nodes[..i])
      invariant totalNodeCost == TotalPrice(nodes[..i])
    {
      assert nodes[..i + 1][..i] == nodes[..i];
      totalNodeCost := totalNodeCost + nodes[i].hourlyCost;
      nodeRecords := nodeRecords[nodes[i].name := NodeRecord(nodes[i], 0, ZERO)];
    }
    assert nodes[..|nodes|] == nodes;
    costs := Costs(namespaces, nodeRecords, ZERO, ZERO);
    for i := 0 to |pods|
      invariant costs == CountPods(StartOf(names, nodes), measured, pods[..i])
    {
      assert pods[..i + 1][..i] == pods[..i];
      costs := AllocatePod(costs, measured, pods[i]);
    }
    assert pods[..|pods|] == pods;
  }

  /** One turn of the cost loop. */
  method AllocatePod(c: Costs, measured: Measured, pod: Pod) returns (r: Costs)
    ensures r == CountPod(c, measured, pod)
  {
    hide Plus, Loaded, RecordAt, Requests, KeyOf;
    r := c;
    if Skip(pod) {
      return;
    }
    var ns := RecordAt(r.namespaces, pod.namespace);
    var cpuReq, memReq := SumPodRequests(pod.requests);
    var cpuUsage, memUsage := 0, 0;
    if KeyOf(pod) in measured {
      cpuUsage, memUsage := measured[KeyOf(pod)].0, measured[KeyOf(pod)].1;
    }
    if cpuUsage == 0 {
      cpuUsage := cpuReq;
    }
    if memUsage == 0 {
      memUsage := memReq;
    }
    var requested, used := Amount(cpuReq, memReq, 0.0), Amount(cpuUsage, memUsage, 0.0);
    assert used == UsedBy(measured, pod);
    var hourly := 0.0;
    if pod.node in r.nodes {
      var agg := r.nodes[pod.node];
      var allocatable := agg.node.allocatableCpu;
      if allocatable > 0 && agg.node.hourlyCost > 0.0 && cpuReq > 0 {
        var share := cpuReq as real / allocatable as real;
        if share > 1.0 {
          share := 1.0;
        }
        hourly := share * agg.node.hourlyCost;
      }
      r := r.(nodes := r.nodes[pod.node := agg.(podCount := agg.podCount + 1, usage := Plus(agg.usage, used))]);
    }
    assert hourly == ShareOf(c.nodes, pod);
    r := r.(namespaces := r.namespaces[pod.namespace := Loaded(ns, Amount(cpuReq, memReq, hourly), used)],
            requests := Plus(r.requests, requested), usage := Plus(r.usage, used));
  }

  /** `clampPercent` of a share of the allocatable amount, zero without one. */
  function Percent(used: int, allocatable: int): (p: real)
    ensures 0.0 <= p <= 100.0
  {
    if allocatable <= 0 then 0.0
    else
      var value := used as real / allocatable as real * 100.0;
      if value < 0.0 then 0.0 else if value > 100.0 then 100.0 else value
  }

  lemma RatioSign(x: real, size: real)
    requires size > 0.0
    ensures x / size * size == x
    ensures x / size <= 0.0 <==> x <= 0.0
    ensures x / size >= 1.0 <==> x >= size
  {
    var q := x / size;
    assert q * size == x;
    if q > 0.0 {
      assert q * size > 0.0;
    }
    if q >= 1.0 {
      assert q * size >= 1.0 * size;
    } else {
      assert q * size < 1.0 * size;
    }
  }

  /** Zero exactly without anything allocatable or used, 100 exactly when all of it or more is used,
      and the exact percentage in between. */
  lemma PercentMeaning(used: int, allocatable: int)
    ensures var p := Percent(used, allocatable);
            && (p == 0.0 <==> allocatable <= 0 || used <= 0)
            && (p == 100.0 <==> 0 < allocatable <= used)
            && (0 <= used <= allocatable && allocatable > 0 ==> p * allocatable as real == 100.0 * used as real)
  {
    if allocatable > 0 {
      var x, size := used as real, allocatable as real;
      RatioSign(x, size);
      var q := x / size;
      assert Percent(used, allocatable) == if q * 100.0 < 0.0 then 0.0 else if q * 100.0 > 100.0 then 100.0 else q * 100.0;
      hide Percent;
      assert q * 100.0 * size == 100.0 * (q * size);
    }
  }

  // ---------------------------------------------------------------- the views as ledgers

  function Loads(namespaces: map<string, NsRecord>): map<string, Amount>
  {
    map n | n in namespaces :: namespaces[n].load
  }

  function Usages(namespaces: map<string, NsRecord>): map<string, Amount>
  {
    map n | n in namespaces :: namespaces[n].usage
  }

  /** What the pods book under `key`, the counted ones only. */
  function Bookings(key: Pod -> string, amount: Pod -> Amount, pods: seq<Pod>): seq<Entry<string>>
  {
    if pods == [] then []
    else
      var init, pod := Bookings(key, amount, pods[..|pods| - 1]), pods[|pods| - 1];
      if Skip(pod) then init else init + [(key(pod), amount(pod))]
  }

  function ByNamespace(): Pod -> string
  {
    (pod: Pod) => pod.namespace
  }

  function ByNode(): Pod -> string
  {
    (pod: Pod) => pod.node
  }

  function LoadOn(nodes: map<string, NodeRecord>): Pod -> Amount
  {
    (pod: Pod) => LoadOf(nodes, pod)
  }

  /** Counting pods changes no node's description, so shares may be taken from the start. */
  predicate SameNodes(a: map<string, NodeRecord>, b: map<string, NodeRecord>)
  {
    a.Keys == b.Keys && forall n :: n in a ==> a[n].node == b[n].node
  }

  lemma {:induction false} NodesStay(c: Costs, measured: Measured, pods: seq<Pod>)
    ensures SameNodes(CountPods(c, measured, pods).nodes, c.nodes)
  {
    hide LoadOf, UsedBy, Loaded;
    if pods != [] {
      NodesStay(c, measured, pods[..|pods| - 1]);
    }
  }

  lemma SameShare(a: map<string, NodeRecord>, b: map<string, NodeRecord>, pod: Pod)
    requires SameNodes(a, b)
    ensures LoadOf(a, pod) == LoadOf(b, pod)
  {
  }

  lemma LoadsStep(c: Costs, measured: Measured, pod: Pod)
    requires !Skip(pod)
    ensures Loads(CountPod(c, measured, pod).namespaces) == Post(Loads(c.namespaces), pod.namespace, LoadOf(c.nodes, pod))
  {
    hide LoadOf, UsedBy;
  }

  lemma UsagesStep(c: Costs, measured: Measured, pod: Pod)
    requires !Skip(pod)
    ensures Usages(CountPod(c, measured, pod).namespaces) == Post(Usages(c.namespaces), pod.namespace, UsedBy(measured, pod))
  {
    hide LoadOf, UsedBy;
  }

  /** The namespace records are the rollup of the pods' loads. */
  lemma {:induction false} LoadsAreGrouped(c: Costs, measured: Measured, pods: seq<Pod>)
    ensures Loads(CountPods(c, measured, pods).namespaces) ==
      PostAll(Loads(c.namespaces), Bookings(ByNamespace(), LoadOn(c.nodes), pods))
  {
    hide CountPod, LoadOf, Loads, Post;
    if pods != [] {
      var init, pod := pods[..|pods| - 1], pods[|pods| - 1];
      LoadsAreGrouped(c, measured, init);
      if Skip(pod) {
        SkippedChangesNothing(CountPods(c, measured, init), measured, pod);
      } else {
        LoadsStep(CountPods(c, measured, init), measured, pod);
        NodesStay(c, measured, init);
        SameShare(CountPods(c, measured, init).nodes, c.nodes, pod);
        PostAllSnoc(Loads(c.namespaces), Bookings(ByNamespace(), LoadOn(c.nodes), init), (pod.namespace, LoadOf(c.nodes, pod)));
      }
    }
  }

  lemma SkippedChangesNothing(c: Costs, measured: Measured, pod: Pod)
    requires Skip(pod)
    ensures CountPod(c, measured, pod) == c
  {
  }

  /** Everything the pass keeps in step: the namespace records add up to the cluster totals, and
      every counted pod has its namespace record and its node counted it. */
  ghost predicate InStep(c: Costs)
  {
    && Total(Loads(c.namespaces)).tx == c.requests.tx && Total(Loads(c.namespaces)).rx == c.requests.rx
    && Total(Usages(c.namespaces)) == c.usage
  }

  lemma ClusterStep(c: Costs, measured: Measured, pod: Pod)
    requires !Skip(pod)
    ensures CountPod(c, measured, pod).usage == Plus(c.usage, UsedBy(measured, pod))
    ensures CountPod(c, measured, pod).requests.tx == c.requests.tx + LoadOf(c.nodes, pod).tx
    ensures CountPod(c, measured, pod).requests.rx == c.requests.rx + LoadOf(c.nodes, pod).rx
  {
    hide UsedBy, Requests, ShareOf;
  }

  lemma InStepAfter(c: Costs, measured: Measured, pod: Pod)
    requires InStep(c)
    ensures InStep(CountPod(c, measured, pod))
  {
    hide Loads, Usages, Total, Post, UsedBy, LoadOf, CountPod;
    if Skip(pod) {
      SkippedChangesNothing(c, measured, pod);
    } else {
      ClusterStep(c, measured, pod);
      LoadsStep(c, measured, pod);
      UsagesStep(c, measured, pod);
      TotalPost(Loads(c.namespaces), pod.namespace, LoadOf(c.nodes, pod));
      TotalPost(Usages(c.namespaces), pod.namespace, UsedBy(measured, pod));
    }
  }

  lemma StartInStep(names: seq<string>, nodes: seq<Node>)
    ensures InStep(StartOf(names, nodes))
  {
    hide TotalAt, NodeRecords;
    var c := StartOf(names, nodes);
    ZeroTotal(Loads(c.namespaces), Loads(c.namespaces).Keys);
    ZeroTotal(Usages(c.namespaces), Usages(c.namespaces).Keys);
  }

  /** Requests and usage, summed over the namespaces, are the cluster totals. */
  lemma {:induction false} NamespacesMakeTheCluster(names: seq<string>, nodes: seq<Node>, measured: Measured, pods: seq<Pod>)
    ensures InStep(CountPods(StartOf(names, nodes), measured, pods))
  {
    hide InStep, CountPod, StartOf;
    if pods == [] {
      StartInStep(names, nodes);
    } else {
      NamespacesMakeTheCluster(names, nodes, measured, pods[..|pods| - 1]);
      InStepAfter(CountPods(StartOf(names, nodes), measured, pods[..|pods| - 1]), measured, pods[|pods| - 1]);
    }
  }

  /** The later network loop finds the namespace of every pod it does not skip. */
  lemma {:induction false} NamespacesPresent(c: Costs, measured: Measured, pods: seq<Pod>)
    ensures forall p :: p in pods && !Skip(p) ==> p.namespace in CountPods(c, measured, pods).namespaces
  {
    hide LoadOf, UsedBy, Loaded;
    if pods != [] {
      NamespacesPresent(c, measured, pods[..|pods| - 1]);
      assert pods == pods[..|pods| - 1] + [pods[|pods| - 1]];
    }
  }

  // ---------------------------------------------------------------- handing out the nodes

  /** What the pods of one node are charged. */
  function Charged(nodes: map<string, NodeRecord>, name: string, pods: seq<Pod>): real
  {
    SumFor(Bookings(ByNode(), LoadOn(nodes), pods), name).cost
  }

  /** Exchange of sums: what namespaces are charged is what nodes hand out. */
  lemma ChargedByNamespaceIsChargedByNode(names: seq<string>, nodes: seq<Node>, measured: Measured, pods: seq<Pod>)
    ensures Total(Loads(CountPods(StartOf(names, nodes), measured, pods).namespaces)) ==
      Total(Group(Bookings(ByNode(), LoadOn(NodeRecords(nodes)), pods)))
  {
    hide CountPods;
    var c := StartOf(names, nodes);
    LoadsAreGrouped(c, measured, pods);
    PostAllTotal(Loads(c.namespaces), Bookings(ByNamespace(), LoadOn(c.nodes), pods));
    ZeroTotal(Loads(c.namespaces), Loads(c.namespaces).Keys);
    GroupTotal(Bookings(ByNode(), LoadOn(c.nodes), pods));
    SameSum(ByNamespace(), ByNode(), LoadOn(c.nodes), pods);
  }

  lemma {:induction false} SameSum(f: Pod -> string, g: Pod -> string, amount: Pod -> Amount, pods: seq<Pod>)
    ensures Sum(Bookings(f, amount, pods)) == Sum(Bookings(g, amount, pods))
  {
    if pods != [] {
      var init, pod := pods[..|pods| - 1], pods[|pods| - 1];
      SameSum(f, g, amount, init);
      BookingsSnoc(f, amount, pods);
      BookingsSnoc(g, amount, pods);
      hide Bookings, Sum, Skip, Plus;
      SumSnoc(Bookings(f, amount, init), (f(pod), amount(pod)));
      SumSnoc(Bookings(g, amount, init), (g(pod), amount(pod)));
    }
  }

  lemma BookingsSnoc(key: Pod -> string, amount: Pod -> Amount, pods: seq<Pod>)
    requires pods != []
    ensures var init, pod := pods[..|pods| - 1], pods[|pods| - 1];
            Bookings(key, amount, pods) ==
              if Skip(pod) then Bookings(key, amount, init) else Bookings(key, amount, init) + [(key(pod), amount(pod))]
  {
  }

  /** What a pod adds to the clipped requests of a node. */
  function Part(nodes: map<string, NodeRecord>, name: string, pod: Pod): int
    requires name in nodes
  {
    if Skip(pod) || pod.node != name || !Shares(nodes, pod) then 0
    else Min(Requests(pod.requests).tx, nodes[name].node.allocatableCpu)
  }

  /** The counted pods that earn a share of the node, and their requests clipped to its size. */
  function Clipped(nodes: map<string, NodeRecord>, name: string, pods: seq<Pod>): (r: int)
    requires name in nodes
    ensures nodes[name].node.allocatableCpu > 0 ==> r >= 0
  {
    if pods == [] then 0
    else Clipped(nodes, name, pods[..|pods| - 1]) + Part(nodes, name, pods[|pods| - 1])
  }

  lemma ChargedPart(nodes: map<string, NodeRecord>, name: string, pods: seq<Pod>)
    requires pods != [] && name in nodes && nodes[name].node.allocatableCpu > 0
    ensures var node := nodes[name].node;
            Charged(nodes, name, pods) == Charged(nodes, name, pods[..|pods| - 1]) +
              Part(nodes, name, pods[|pods| - 1]) as real / node.allocatableCpu as real * node.hourlyCost
  {
    hide Charged, ShareOf, Requests, Min;
    var pod := pods[|pods| - 1];
    ChargedStep(nodes, name, pods);
    if !Skip(pod) && pod.node == name {
      if Shares(nodes, pod) {
        ShareIsClipped(nodes, pod);
      } else {
        NoShare(nodes, pod);
      }
    }
  }

  /** The pods of a node are charged its price times the clipped requests over its size. */
  lemma {:induction false} ChargedIsClipped(nodes: map<string, NodeRecord>, name: string, pods: seq<Pod>)
    requires name in nodes && nodes[name].node.allocatableCpu > 0
    ensures Charged(nodes, name, pods) ==
      Clipped(nodes, name, pods) as real / nodes[name].node.allocatableCpu as real * nodes[name].node.hourlyCost
  {
    hide Charged, Part;
    if pods == [] {
      NothingCharged(nodes, name);
    } else {
      var init := pods[..|pods| - 1];
      ChargedIsClipped(nodes, name, init);
      ChargedPart(nodes, name, pods);
      Distribute(Clipped(nodes, name, init), Part(nodes, name, pods[|pods| - 1]),
        nodes[name].node.allocatableCpu as real, nodes[name].node.hourlyCost);
    }
  }

  lemma NoShare(nodes: map<string, NodeRecord>, pod: Pod)
    requires !Shares(nodes, pod)
    ensures ShareOf(nodes, pod) == 0.0
  {
  }

  lemma Distribute(x: int, y: int, size: real, price: real)
    requires size > 0.0
    ensures (x + y) as real / size * price == x as real / size * price + y as real / size * price
  {
    assert (x + y) as real / size == x as real / size + y as real / size;
  }

  lemma ChargedStep(nodes: map<string, NodeRecord>, name: string, pods: seq<Pod>)
    requires pods != []
    ensures var init, pod := pods[..|pods| - 1], pods[|pods| - 1];
            Charged(nodes, name, pods) ==
              Charged(nodes, name, init) + if !Skip(pod) && pod.node == name then ShareOf(nodes, pod) else 0.0
  {
    hide ShareOf;
    var init, pod := pods[..|pods| - 1], pods[|pods| - 1];
    if !Skip(pod) {
      var es := Bookings(ByNode(), LoadOn(nodes), init);
      assert (es + [(pod.node, LoadOf(nodes, pod))])[..|es|] == es;
    }
  }

  lemma ShareIsClipped(nodes: map<string, NodeRecord>, pod: Pod)
    requires Shares(nodes, pod)
    ensures var node := nodes[pod.node].node;
            ShareOf(nodes, pod) ==
              Min(Requests(pod.requests).tx, node.allocatableCpu) as real / node.allocatableCpu as real * node.hourlyCost
  {
    var node := nodes[pod.node].node;
    var x, size := Requests(pod.requests).tx as real, node.allocatableCpu as real;
    if Requests(pod.requests).tx < node.allocatableCpu {
      assert x / size <= 1.0;
    } else {
      assert x / size >= 1.0;
      assert size / size == 1.0;
    }
  }

  /** A node is handed out at most once exactly when the clipped requests fit it. */
  lemma HandedOutOnceIff(nodes: map<string, NodeRecord>, name: string, pods: seq<Pod>)
    requires name in nodes && nodes[name].node.allocatableCpu > 0 && nodes[name].node.hourlyCost > 0.0
    ensures Charged(nodes, name, pods) <= nodes[name].node.hourlyCost <==>
      Clipped(nodes, name, pods) <= nodes[name].node.allocatableCpu
  {
    hide Charged, Clipped;
    ChargedIsClipped(nodes, name, pods);
    var node := nodes[name].node;
    RatioAtMostOne(Clipped(nodes, name, pods) as real, node.allocatableCpu as real, node.hourlyCost);
  }

  lemma RatioAtMostOne(x: real, size: real, price: real)
    requires size > 0.0 && price > 0.0
    ensures x / size * price <= price <==> x <= size
  {
    var q := x / size;
    assert q * size == x;
    if x <= size {
      assert q <= 1.0;
      assert q * price <= 1.0 * price;
    } else {
      assert q > 1.0;
      assert q * price > 1.0 * price;
    }
  }

  /** The clipped requests of the counted pods fit every node that has CPU and a price. */
  ghost predicate Fits(nodes: map<string, NodeRecord>, pods: seq<Pod>)
  {
    forall n :: n in nodes && nodes[n].node.allocatableCpu > 0 && nodes[n].node.hourlyCost > 0.0 ==>
      Clipped(nodes, n, pods) <= nodes[n].node.allocatableCpu
  }

  predicate PricesAtLeastZero(nodes: seq<Node>)
  {
    forall i :: 0 <= i < |nodes| ==> nodes[i].hourlyCost >= 0.0
  }

  function PriceList(nodes: map<string, NodeRecord>): map<string, Amount>
  {
    map n | n in nodes :: Amount(0, 0, nodes[n].node.hourlyCost)
  }

  lemma {:induction false} ListedPricesCover(nodes: seq<Node>)
    requires PricesAtLeastZero(nodes)
    ensures Total(PriceList(NodeRecords(nodes))).cost <= TotalPrice(nodes)
    ensures forall n :: n in NodeRecords(nodes) ==> NodeRecords(nodes)[n].node.hourlyCost >= 0.0
  {
    if nodes != [] {
      var init, node := nodes[..|nodes| - 1], nodes[|nodes| - 1];
      ListedPricesCover(init);
      var before, after := PriceList(NodeRecords(init)), PriceList(NodeRecords(nodes));
      assert after == before[node.name := Amount(0, 0, node.hourlyCost)];
      TotalSet(before, node.name, Amount(0, 0, node.hourlyCost));
    }
  }

  /** Pods on unknown nodes are charged nothing, and so are pods on nodes without CPU or price. */
  lemma {:induction false} UnpricedIsFree(nodes: map<string, NodeRecord>, name: string, pods: seq<Pod>)
    requires name !in nodes || nodes[name].node.allocatableCpu <= 0 || nodes[name].node.hourlyCost <= 0.0
    ensures Charged(nodes, name, pods) == 0.0
  {
    if pods != [] {
      UnpricedIsFree(nodes, name, pods[..|pods| - 1]);
      ChargedStep(nodes, name, pods);
    }
  }

  /** No node is handed out more than once exactly when the clipped requests fit. */
  lemma NoNodeTwiceIff(nodes: map<string, NodeRecord>, pods: seq<Pod>)
    requires forall n :: n in nodes ==> nodes[n].node.hourlyCost >= 0.0
    ensures Fits(nodes, pods) <==> forall n :: n in nodes ==> Charged(nodes, n, pods) <= nodes[n].node.hourlyCost
  {
    hide Charged, Clipped;
    forall n | n in nodes
      ensures Charged(nodes, n, pods) <= nodes[n].node.hourlyCost <==>
        (nodes[n].node.allocatableCpu > 0 && nodes[n].node.hourlyCost > 0.0 ==>
           Clipped(nodes, n, pods) <= nodes[n].node.allocatableCpu)
    {
      if nodes[n].node.allocatableCpu > 0 && nodes[n].node.hourlyCost > 0.0 {
        HandedOutOnceIff(nodes, n, pods);
      } else {
        UnpricedIsFree(nodes, n, pods);
      }
    }
  }

  lemma FittingNode(nodes: map<string, NodeRecord>, name: string, pods: seq<Pod>)
    requires Fits(nodes, pods) && forall n :: n in nodes ==> nodes[n].node.hourlyCost >= 0.0
    ensures At(Group(Bookings(ByNode(), LoadOn(nodes), pods)), name).cost <= At(PriceList(nodes), name).cost
  {
    hide Bookings, Fits;
    NoNodeTwiceIff(nodes, pods);
    PostAllAt(map[], Bookings(ByNode(), LoadOn(nodes), pods), name);
    if name !in nodes {
      UnpricedIsFree(nodes, name, pods);
    }
  }

  /** When the clipped requests of the counted pods fit, the namespaces together are charged at most
      what the cluster's nodes cost. */
  lemma ChargedAtMostNodeCost(names: seq<string>, nodes: seq<Node>, measured: Measured, pods: seq<Pod>)
    requires PricesAtLeastZero(nodes) && Fits(NodeRecords(nodes), pods)
    ensures Total(Loads(CountPods(StartOf(names, nodes), measured, pods).namespaces)).cost <= TotalPrice(nodes)
  {
    hide CountPods, StartOf, Loads, Bookings, NodeRecords, PriceList, Fits;
    ListedPricesCover(nodes);
    var byNode, prices := Group(Bookings(ByNode(), LoadOn(NodeRecords(nodes)), pods)), PriceList(NodeRecords(nodes));
    ChargedByNamespaceIsChargedByNode(names, nodes, measured, pods);
    var ks := byNode.Keys + prices.Keys;
    forall n | n in ks ensures At(byNode, n).cost <= At(prices, n).cost {
      FittingNode(NodeRecords(nodes), n, pods);
    }
    TotalCostAtMost(byNode, prices, ks);
    TotalWider(byNode, ks);
    TotalWider(prices, ks);
  }

  /** Every pod of a node pays at most its price, so whatever was requested the node is charged at
      most once per counted pod. */
  lemma {:induction false} ChargedPerPod(c: Costs, measured: Measured, name: string, pods: seq<Pod>)
    requires name in c.nodes && c.nodes[name].node.hourlyCost >= 0.0 && c.nodes[name].podCount == 0
    ensures var counted := CountPods(c, measured, pods).nodes;
            name in counted && Charged(c.nodes, name, pods) <= counted[name].podCount as real * c.nodes[name].node.hourlyCost
  {
    hide LoadOf, UsedBy, Loaded, ShareOf, Charged;
    if pods == [] {
      assert Charged(c.nodes, name, pods) == 0.0 by { NothingCharged(c.nodes, name); }
    } else {
      var init, pod := pods[..|pods| - 1], pods[|pods| - 1];
      ChargedPerPod(c, measured, name, init);
      NodesStay(c, measured, init);
      ChargedStep(c.nodes, name, pods);
      if !Skip(pod) && pod.node == name {
        ShareAtMostPrice(c.nodes, pod);
        var count := CountPods(c, measured, init).nodes[name].podCount as real;
        var price := c.nodes[name].node.hourlyCost;
        assert (count + 1.0) * price == count * price + price;
      }
    }
  }

  lemma NothingCharged(nodes: map<string, NodeRecord>, name: string)
    ensures Charged(nodes, name, []) == 0.0
  {
  }

  lemma ShareAtMostPrice(nodes: map<string, NodeRecord>, pod: Pod)
    requires pod.node in nodes && nodes[pod.node].node.hourlyCost >= 0.0
    ensures ShareOf(nodes, pod) <= nodes[pod.node].node.hourlyCost
  {
    if Shares(nodes, pod) {
      var share := Requests(pod.requests).tx as real / nodes[pod.node].node.allocatableCpu as real;
      var price := nodes[pod.node].node.hourlyCost;
      if share <= 1.0 {
        assert share * price <= 1.0 * price;
      }
    }
  }

  function CountedPrices(nodes: map<string, NodeRecord>): map<string, Amount>
  {
    map n | n in nodes :: Amount(0, 0, nodes[n].podCount as real * nodes[n].node.hourlyCost)
  }

  lemma {:induction false} NodesStartUncounted(nodes: seq<Node>)
    ensures forall n :: n in NodeRecords(nodes) ==> NodeRecords(nodes)[n].podCount == 0
  {
    if nodes != [] {
      NodesStartUncounted(nodes[..|nodes| - 1]);
    }
  }

  lemma GroupIsCharged(nodes: map<string, NodeRecord>, name: string, pods: seq<Pod>)
    ensures At(Group(Bookings(ByNode(), LoadOn(nodes), pods)), name).cost == Charged(nodes, name, pods)
  {
    hide Bookings;
    PostAllAt(map[], Bookings(ByNode(), LoadOn(nodes), pods), name);
  }

  lemma CountedPriceAt(nodes: map<string, NodeRecord>, name: string)
    ensures At(CountedPrices(nodes), name).cost ==
      if name in nodes then nodes[name].podCount as real * nodes[name].node.hourlyCost else 0.0
  {
  }

  lemma CountedNode(c: Costs, measured: Measured, pods: seq<Pod>, name: string)
    requires forall n :: n in c.nodes ==> c.nodes[n].node.hourlyCost >= 0.0 && c.nodes[n].podCount == 0
    ensures At(Group(Bookings(ByNode(), LoadOn(c.nodes), pods)), name).cost <=
      At(CountedPrices(CountPods(c, measured, pods).nodes), name).cost
  {
    hide Bookings, CountPods, CountedPrices, Group, Charged;
    NodesStay(c, measured, pods);
    GroupIsCharged(c.nodes, name, pods);
    CountedPriceAt(CountPods(c, measured, pods).nodes, name);
    if name in c.nodes {
      ChargedPerPod(c, measured, name, pods);
    } else {
      UnpricedIsFree(c.nodes, name, pods);
    }
  }

  /** Whatever was requested, the namespaces together are charged at most every node's price once
      per pod counted on it. */
  lemma ChargedAtMostOncePerPod(names: seq<string>, nodes: seq<Node>, measured: Measured, pods: seq<Pod>)
    requires PricesAtLeastZero(nodes)
    ensures var c := CountPods(StartOf(names, nodes), measured, pods);
            Total(Loads(c.namespaces)).cost <= Total(CountedPrices(c.nodes)).cost
  {
    ListedPricesCover(nodes);
    NodesStartUncounted(nodes);
    var c := StartOf(names, nodes);
    hide CountPods, Loads, Bookings, NodeRecords, CountedPrices;
    var byNode := Group(Bookings(ByNode(), LoadOn(NodeRecords(nodes)), pods));
    var prices := CountedPrices(CountPods(StartOf(names, nodes), measured, pods).nodes);
    ChargedByNamespaceIsChargedByNode(names, nodes, measured, pods);
    var ks := byNode.Keys + prices.Keys;
    forall n | n in ks ensures At(byNode, n).cost <= At(prices, n).cost {
      CountedNode(c, measured, pods, n);
    }
    TotalCostAtMost(byNode, prices, ks);
    TotalWider(byNode, ks);
    TotalWider(prices, ks);
  }

  /** The bound of `ChargedAtMostNodeCost` fails without its hypothesis: two pods that each request
      a whole node are each charged all of it. */
  lemma OversubscribedNodeIsChargedTwice(node: Node, pod: Pod, twin: Pod)
    requires TakesAll(node, pod) && TakesAll(node, twin)
    ensures Total(Loads(CountPods(StartOf([], [node]), map[], [pod, twin]).namespaces)).cost == 2.0 * TotalPrice([node])
  {
    var nodes := NodeRecords([node]);
    OneNode(node);
    FullLoad(node, pod);
    FullLoad(node, twin);
    hide CountPods, StartOf, Loads, LoadOf, NodeRecords, TakesAll, Total, Group, Bookings, Sum;
    ChargedByNamespaceIsChargedByNode([], [node], map[], [pod, twin]);
    GroupTotal(Bookings(ByNode(), LoadOn(nodes), [pod, twin]));
    TwoBookings(ByNode(), LoadOn(nodes), pod, twin);
  }

  /** A counted pod whose only container requests everything its priced node has. */
  predicate TakesAll(node: Node, pod: Pod)
  {
    && !Skip(pod) && pod.node == node.name
    && node.allocatableCpu > 0 && node.hourlyCost > 0.0 && pod.requests == [(node.allocatableCpu, 0)]
  }

  lemma TwoBookings(key: Pod -> string, amount: Pod -> Amount, p: Pod, q: Pod)
    requires !Skip(p) && !Skip(q)
    ensures Sum(Bookings(key, amount, [p, q])) == Plus(amount(p), amount(q))
  {
    assert [p, q][..1] == [p] && [p][..0] == [];
    var none, one, two := Bookings(key, amount, []), Bookings(key, amount, [p]), Bookings(key, amount, [p, q]);
    assert [p][0] == p && [p, q][1] == q;
    assert one == none + [(key(p), amount(p))];
    assert two == one + [(key(q), amount(q))];
    hide Bookings;
    assert two[..1] == one && two[1].1 == amount(q);
    assert Sum(one) == amount(p) by {
      assert one[..0] == [];
    }
  }

  lemma OneNode(node: Node)
    ensures NodeRecords([node]) == map[node.name := NodeRecord(node, 0, ZERO)]
    ensures TotalPrice([node]) == node.hourlyCost
  {
    assert [node][..0] == [];
  }

  lemma FullLoad(node: Node, pod: Pod)
    requires TakesAll(node, pod)
    ensures LoadOf(NodeRecords([node]), pod).cost == node.hourlyCost
  {
    OneNode(node);
    var nodes := NodeRecords([node]);
    assert pod.requests[..0] == [];
    assert Requests(pod.requests).tx == node.allocatableCpu;
    hide Requests, NodeRecords;
    ShareIsClipped(nodes, pod);
    var size := node.allocatableCpu as real;
    assert size / size == 1.0;
  }
}
