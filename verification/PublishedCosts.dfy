/** The namespaces, the nodes and the cluster totals of a published snapshot, each stated outright as
    a sum over the pods. */
module PublishedCosts {
  import opened Builder
  import opened BuilderTheorems
  import opened Connections
  import opened Ledger
  import opened Lists
  import opened Network
  import opened NetworkTotals
  import opened NodeCosts
  import opened Order
  import opened Services

  // ---------------------------------------------------------------- what one pod counts for

  /** Pods without a node and pods that are gone or going do not count. */
  predicate Counts(p: Pod)
  {
    p.node != "" && !p.terminating
  }

  function CpuOf(containers: seq<(int, int)>): int
  {
    if containers == [] then 0 else CpuOf(containers[..|containers| - 1]) + containers[|containers| - 1].0
  }

  function MemoryOf(containers: seq<(int, int)>): int
  {
    if containers == [] then 0 else MemoryOf(containers[..|containers| - 1]) + containers[|containers| - 1].1
  }

  /** Measured CPU and memory, each replaced by the request when it is missing or zero. */
  function UsageLike(measured: Measured, p: Pod): Amount
  {
    var key := p.namespace + "/" + p.name;
    Amount(if key in measured && measured[key].0 != 0 then measured[key].0 else CpuOf(p.requests),
           if key in measured && measured[key].1 != 0 then measured[key].1 else MemoryOf(p.requests), 0.0)
  }

  /** The last listed node of that name. */
  function NodeNamed(nodes: seq<Node>, name: string): Option<Node>
  {
    if nodes == [] then None
    else if nodes[|nodes| - 1].name == name then Some(nodes[|nodes| - 1])
    else NodeNamed(nodes[..|nodes| - 1], name)
  }

  /** The part of its node's price a pod is charged: its requested CPU, but no more than the node has,
      over what the node has. */
  function ChargeLike(nodes: seq<Node>, p: Pod): real
  {
    match NodeNamed(nodes, p.node)
    case None => 0.0
    case Some(n) =>
      var cpu := CpuOf(p.requests);
      if n.allocatableCpu <= 0 || n.hourlyCost <= 0.0 || cpu <= 0 then 0.0
      else (if cpu < n.allocatableCpu then cpu else n.allocatableCpu) as real / n.allocatableCpu as real * n.hourlyCost
  }

  function LoadLike(nodes: seq<Node>, p: Pod): Amount
  {
    Amount(CpuOf(p.requests), MemoryOf(p.requests), ChargeLike(nodes, p))
  }

  lemma {:induction false} RequestsAre(containers: seq<(int, int)>)
    ensures Requests(containers) == Amount(CpuOf(containers), MemoryOf(containers), 0.0)
  {
    if containers != [] {
      RequestsAre(containers[..|containers| - 1]);
    }
  }

  lemma UsedIsLike(measured: Measured, p: Pod)
    ensures UsedBy(measured, p) == UsageLike(measured, p)
  {
    RequestsAre(p.requests);
    hide Requests, CpuOf, MemoryOf;
  }

  lemma {:induction false} RecordOfNode(nodes: seq<Node>, name: string)
    ensures name in NodeRecords(nodes) <==> NodeNamed(nodes, name).Some?
    ensures name in NodeRecords(nodes) ==> NodeRecords(nodes)[name] == NodeRecord(NodeNamed(nodes, name).value, 0, ZERO)
  {
    if nodes != [] {
      RecordOfNode(nodes[..|nodes| - 1], name);
    }
  }

  lemma LoadIsLike(nodes: seq<Node>, p: Pod)
    ensures LoadOf(NodeRecords(nodes), p) == LoadLike(nodes, p)
  {
    RequestsAre(p.requests);
    RecordOfNode(nodes, p.node);
    hide NodeRecords, NodeNamed, Requests, CpuOf, MemoryOf;
    if Shares(NodeRecords(nodes), p) {
      ShareIsClipped(NodeRecords(nodes), p);
    }
  }

  // ---------------------------------------------------------------- sums over the pods

  function LoadsIn(nodes: seq<Node>, namespace: string): Pod -> Amount
  {
    (p: Pod) => if Counts(p) && p.namespace == namespace then LoadLike(nodes, p) else ZERO
  }

  function UsagesIn(measured: Measured, namespace: string): Pod -> Amount
  {
    (p: Pod) => if Counts(p) && p.namespace == namespace then UsageLike(measured, p) else ZERO
  }

  function UsagesOn(measured: Measured, node: string): Pod -> Amount
  {
    (p: Pod) => if Counts(p) && p.node == node then UsageLike(measured, p) else ZERO
  }

  function CountIn(pods: seq<Pod>, namespace: string): nat
  {
    if pods == [] then 0
    else
      var last := pods[|pods| - 1];
      CountIn(pods[..|pods| - 1], namespace) + if Counts(last) && last.namespace == namespace then 1 else 0
  }

  function CountOn(pods: seq<Pod>, node: string): nat
  {
    if pods == [] then 0
    else
      var last := pods[|pods| - 1];
      CountOn(pods[..|pods| - 1], node) + if Counts(last) && last.node == node then 1 else 0
  }

  /** The record of a namespace before any traffic is booked. */
  function NamespaceOf(nodes: seq<Node>, measured: Measured, pods: seq<Pod>, namespace: string): NsRecord
  {
    NsRecord(namespace, CountIn(pods, namespace), SumOf(LoadsIn(nodes, namespace), pods),
             SumOf(UsagesIn(measured, namespace), pods), ZERO)
  }

  lemma NamespaceSnoc(nodes: seq<Node>, measured: Measured, pods: seq<Pod>, p: Pod, namespace: string)
    ensures var r := NamespaceOf(nodes, measured, pods, namespace);
            NamespaceOf(nodes, measured, pods + [p], namespace) ==
              if Counts(p) && p.namespace == namespace
              then NsRecord(namespace, r.podCount + 1, Plus(r.load, LoadLike(nodes, p)), Plus(r.usage, UsageLike(measured, p)), ZERO)
              else r
  {
    hide SumOf, Plus, LoadLike, UsageLike, Counts;
    assert (pods + [p])[..|pods|] == pods;
    SumOfSnoc(LoadsIn(nodes, namespace), pods, p);
    SumOfSnoc(UsagesIn(measured, namespace), pods, p);
    PlusZero(SumOf(LoadsIn(nodes, namespace), pods));
    PlusZero(SumOf(UsagesIn(measured, namespace), pods));
  }

  /** `r` is what the pass keeps for a namespace: a record if it is listed or has pods. */
  predicate Keeps(c: Costs, listed: bool, namespace: string, r: NsRecord)
  {
    && (namespace in c.namespaces <==> listed || r.podCount > 0)
    && (namespace in c.namespaces ==> c.namespaces[namespace] == r)
    && (namespace !in c.namespaces ==> r == NewRecord(namespace))
  }

  lemma KeepsAfterPod(nodes: seq<Node>, measured: Measured, c: Costs, listed: bool, namespace: string, r: NsRecord, p: Pod)
    requires Keeps(c, listed, namespace, r) && r.namespace == namespace && r.net == ZERO
    requires LoadOf(c.nodes, p) == LoadLike(nodes, p)
    ensures Keeps(CountPod(c, measured, p), listed, namespace,
      if Counts(p) && p.namespace == namespace
      then NsRecord(namespace, r.podCount + 1, Plus(r.load, LoadLike(nodes, p)), Plus(r.usage, UsageLike(measured, p)), ZERO)
      else r)
  {
    NamespaceAfterPod(nodes, measured, c, p, namespace);
    assert RecordAt(c.namespaces, namespace) == r;
    LoadedIs(r, LoadLike(nodes, p), UsageLike(measured, p));
    hide LoadLike, UsageLike, Counts, CountPod, Plus, Loaded, NewRecord, RecordAt;
  }

  lemma LoadedIs(r: NsRecord, load: Amount, usage: Amount)
    ensures Loaded(r, load, usage) == NsRecord(r.namespace, r.podCount + 1, Plus(r.load, load), Plus(r.usage, usage), r.net)
  {
  }

  lemma NamespaceAfterPod(nodes: seq<Node>, measured: Measured, c: Costs, p: Pod, namespace: string)
    requires LoadOf(c.nodes, p) == LoadLike(nodes, p)
    ensures var d := CountPod(c, measured, p);
            var here := Counts(p) && p.namespace == namespace;
            && (namespace in d.namespaces <==> namespace in c.namespaces || here)
            && (namespace in d.namespaces ==>
                  var r := RecordAt(c.namespaces, namespace);
                  d.namespaces[namespace] ==
                    if here then Loaded(r, LoadLike(nodes, p), UsageLike(measured, p)) else c.namespaces[namespace])
  {
    UsedIsLike(measured, p);
    hide LoadOf, LoadLike, UsedBy, UsageLike, Requests, Loaded, Plus;
  }

  lemma {:induction false} NamespacesCounted(names: seq<string>, nodes: seq<Node>, measured: Measured, pods: seq<Pod>, namespace: string)
    ensures Keeps(CountPods(StartOf(names, nodes), measured, pods), namespace in names, namespace,
                  NamespaceOf(nodes, measured, pods, namespace))
  {
    var start := StartOf(names, nodes);
    hide CountPod, Keeps, LoadOf, LoadLike, SumOf, CountIn;
    if pods == [] {
      NothingCounted(names, nodes, measured, namespace);
    } else {
      var init, last := pods[..|pods| - 1], pods[|pods| - 1];
      NamespacesCounted(names, nodes, measured, init, namespace);
      NodesStay(start, measured, init);
      SameShare(CountPods(start, measured, init).nodes, start.nodes, last);
      LoadIsLike(nodes, last);
      assert start.nodes == NodeRecords(nodes);
      KeepsAfterPod(nodes, measured, CountPods(start, measured, init), namespace in names, namespace,
                    NamespaceOf(nodes, measured, init, namespace), last);
      NamespaceSnoc(nodes, measured, init, last, namespace);
      assert init + [last] == pods;
    }
  }

  lemma NothingCounted(names: seq<string>, nodes: seq<Node>, measured: Measured, namespace: string)
    ensures Keeps(CountPods(StartOf(names, nodes), measured, []), namespace in names, namespace,
                  NamespaceOf(nodes, measured, [], namespace))
  {
    hide NodeRecords;
  }

  lemma {:induction false} NodesCounted(names: seq<string>, nodes: seq<Node>, measured: Measured, pods: seq<Pod>, name: string)
    ensures var m := CountPods(StartOf(names, nodes), measured, pods).nodes;
            && (name in m <==> NodeNamed(nodes, name).Some?)
            && (name in m ==>
                  var used := SumOf(UsagesOn(measured, name), pods);
                  m[name] == NodeRecord(NodeNamed(nodes, name).value, CountOn(pods, name), used))
  {
    hide NodeNamed, LoadOf, Loaded, UsedBy, UsageLike, Plus, SumOf;
    if pods == [] {
      RecordOfNode(nodes, name);
      assert SumOf(UsagesOn(measured, name), []) == ZERO by { SumOfNothing(UsagesOn(measured, name)); }
    } else {
      var init, last := pods[..|pods| - 1], pods[|pods| - 1];
      NodesCounted(names, nodes, measured, init, name);
      UsedIsLike(measured, last);
      assert init + [last] == pods;
      SumOfSnoc(UsagesOn(measured, name), init, last);
      PlusZero(SumOf(UsagesOn(measured, name), init));
    }
  }

  // ---------------------------------------------------------------- what is published

  /** Bytes and egress cost of a pod's traffic, for the pods of a namespace. */
  ghost function TrafficIn(prices: Prices, usage: map<string, Usage>, namespace: string): Pod -> Amount
  {
    (p: Pod) => if Counts(p) && p.namespace == namespace then AmountUsed(prices, UsageOf(usage, KeyOf(p))) else ZERO
  }

  lemma {:induction false} TrafficBooked(prices: Prices, b: Books, usage: map<string, Usage>, pods: seq<Pod>, namespace: string)
    requires forall p :: p in pods && !Skip(p) ==> p.namespace in b.costs
    ensures var r := BookedPods(prices, b, usage, pods);
            && (namespace in r.costs <==> namespace in b.costs)
            && (namespace in r.costs ==>
                  var sent := SumOf(TrafficIn(prices, usage, namespace), pods);
                  r.costs[namespace] == b.costs[namespace].(net := Plus(b.costs[namespace].net, sent)))
  {
    hide AmountUsed, Classes, Booked, ClassList, Plus, SumOf;
    var traffic := TrafficIn(prices, usage, namespace);
    if pods == [] {
      SumOfNothing(traffic);
      if namespace in b.costs {
        PlusZero(b.costs[namespace].net);
      }
    } else {
      var init, last := pods[..|pods| - 1], pods[|pods| - 1];
      TrafficBooked(prices, b, usage, init, namespace);
      assert init + [last] == pods && last in pods;
      SumOfSnoc(traffic, init, last);
      PlusZero(SumOf(traffic, init));
      if namespace in b.costs {
        PlusSwap(b.costs[namespace].net, SumOf(traffic, init), traffic(last));
      }
    }
  }

  lemma CostsOfCluster(cl: Cluster, namespace: string)
    ensures Keeps(CostsFor(cl), namespace in cl.namespaces, namespace, NamespaceOf(cl.nodes, cl.measured, cl.pods, namespace))
    ensures StartBooks(cl).costs == CostsFor(cl).namespaces
  {
    hide Keeps, CountPods, StartOf, NamespaceOf;
    NamespacesCounted(cl.namespaces, cl.nodes, cl.measured, cl.pods, namespace);
  }

  /** The published namespaces are the listed ones and those of the pods, each with the number of its
      pods and the sums of what they request, are charged, use and send. */
  lemma PublishedNamespace(global: Addr -> bool, prices: Prices, cl: Cluster, c: Collection, r: NsRecord)
    ensures var s := SnapshotOf(global, prices, cl, c);
            var usage := UsageFrom(global, InfoByIP(Zones(cl.nodes), cl.pods), c);
            r in s.namespaces <==>
              && (r.namespace in cl.namespaces || r.podCount > 0)
              && r == NamespaceOf(cl.nodes, cl.measured, cl.pods, r.namespace).(
                        net := SumOf(TrafficIn(prices, usage, r.namespace), cl.pods))
  {
    var usage := UsageFrom(global, InfoByIP(Zones(cl.nodes), cl.pods), c);
    var books := BooksOf(global, prices, cl, c);
    StartHasNamespaces(cl);
    CostsNamed(cl);
    CostsOfCluster(cl, r.namespace);
    BooksWellNamed(prices, StartBooks(cl), usage, cl.pods);
    TrafficBooked(prices, StartBooks(cl), usage, cl.pods, r.namespace);
    PlusZero(SumOf(TrafficIn(prices, usage, r.namespace), cl.pods));
    hide BookedPods, UsageFrom, CostsFor, Graph, ServiceGraph, ConnectionList, ClassList,
      NodeViews, NetViews, Sort, SortedValues, ByName, SumOf, CountIn, Plus, StartBooks;
    ListedIffStored(ByName(Builder.NameOfNamespace()), books.costs, r);
  }

  /** The share of `size` in per cent: zero without a size or without use, 100 when all of it or more
      is used. */
  predicate IsPercent(p: real, used: int, size: int)
  {
    && (size <= 0 || used <= 0 ==> p == 0.0)
    && (0 < size <= used ==> p == 100.0)
    && (0 < used < size ==> p * size as real == 100.0 * used as real)
  }

  lemma PercentIs(used: int, size: int)
    ensures IsPercent(Percent(used, size), used, size)
  {
    PercentMeaning(used, size);
    hide Percent;
  }

  /** The published nodes are the listed ones, the last of each name, with the number of their pods and
      how much of their CPU and of their memory those use. */
  lemma PublishedNode(global: Addr -> bool, prices: Prices, cl: Cluster, c: Collection, v: NodeView)
    ensures v in SnapshotOf(global, prices, cl, c).nodes ==>
      var used := SumOf(UsagesOn(cl.measured, v.node.name), cl.pods);
      && NodeNamed(cl.nodes, v.node.name) == Some(v.node) && v.podCount == CountOn(cl.pods, v.node.name)
      && IsPercent(v.cpuPercent, used.tx, v.node.allocatableCpu)
      && IsPercent(v.memoryPercent, used.rx, v.node.allocatableMemory)
    ensures forall name :: NodeNamed(cl.nodes, name).Some? ==>
      exists w :: w in SnapshotOf(global, prices, cl, c).nodes && w.node == NodeNamed(cl.nodes, name).value
  {
    var nodes := CostsFor(cl).nodes;
    NodesOfSnapshot(global, prices, cl, c);
    CostsNamed(cl);
    hide SnapshotOf, SortedValues, ByName, SumOf, CountOn, NodeNamed, Percent, CountPods, StartOf, IsPercent;
    ListedIffStored(ByName(Builder.NameOfNode()), NodeViews(nodes), v);
    if k :| k in NodeViews(nodes) && NodeViews(nodes)[k] == v {
      NodesCounted(cl.namespaces, cl.nodes, cl.measured, cl.pods, k);
      NodeNamedIs(cl.nodes, k);
      PercentIs(nodes[k].usage.tx, v.node.allocatableCpu);
      PercentIs(nodes[k].usage.rx, v.node.allocatableMemory);
    }
    forall name | NodeNamed(cl.nodes, name).Some?
      ensures exists w :: w in SnapshotOf(global, prices, cl, c).nodes && w.node == NodeNamed(cl.nodes, name).value
    {
      NodesCounted(cl.namespaces, cl.nodes, cl.measured, cl.pods, name);
      var w := NodeViews(nodes)[name];
      ListedIffStored(ByName(Builder.NameOfNode()), NodeViews(nodes), w);
    }
  }

  lemma {:induction false} NodeNamedIs(nodes: seq<Node>, name: string)
    ensures NodeNamed(nodes, name).Some? ==> NodeNamed(nodes, name).value.name == name
  {
    if nodes != [] {
      NodeNamedIs(nodes[..|nodes| - 1], name);
    }
  }

  lemma NodesOfSnapshot(global: Addr -> bool, prices: Prices, cl: Cluster, c: Collection)
    ensures SnapshotOf(global, prices, cl, c).nodes == SortedValues(ByName(Builder.NameOfNode()), NodeViews(CostsFor(cl).nodes))
  {
    hide BooksFor, CostsFor, AggregateFlows, Graph, ServiceGraph, ConnectionList, ClassList,
      NodeViews, NetViews, Sort, SortedValues, UsageFrom, IndexOf;
  }
}
