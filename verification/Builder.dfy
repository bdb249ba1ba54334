/** `Build`: the snapshot of a cluster as a function of what the agent sees. */
module Builder {
  import opened Connections
  import opened Ledger
  import opened Network
  import opened NetworkTotals
  import opened NodeCosts
  import opened Order
  import opened Services

  /** Namespace names, nodes, pods, services, and measured CPU and memory by pod key. */
  datatype Cluster = Cluster(
    namespaces: seq<string>,
    nodes: seq<Node>,
    pods: seq<Pod>,
    catalog: Catalog,
    measured: Measured)

  datatype NodeView = NodeView(node: Node, podCount: nat, cpuPercent: real, memoryPercent: real)

  datatype NsNetView = NsNetView(namespace: string, amount: Amount, byClass: seq<ClassTotals>)

  datatype Snapshot = Snapshot(
    namespaces: seq<NsRecord>,
    nodes: seq<NodeView>,
    requests: Amount,
    usage: Amount,
    totalNodeCost: real,
    network: Amount,
    byClass: seq<ClassTotals>,
    pods: seq<PodNet>,
    namespaceNets: seq<NsNetView>,
    podConnections: seq<Connection>,
    workloadConnections: seq<Connection>,
    namespaceConnections: seq<Connection>,
    serviceConnections: seq<Connection>)

  // ---------------------------------------------------------------- the pieces of the snapshot

  function ViewOf(rec: NodeRecord): NodeView
  {
    NodeView(rec.node, rec.podCount,
             Percent(rec.usage.tx, rec.node.allocatableCpu), Percent(rec.usage.rx, rec.node.allocatableMemory))
  }

  function NodeViews(nodes: map<string, NodeRecord>): map<string, NodeView>
  {
    map n | n in nodes :: ViewOf(nodes[n])
  }

  ghost function NetViews(nets: map<string, NsNet>): map<string, NsNetView>
  {
    map n | n in nets :: NsNetView(nets[n].namespace, nets[n].amount, ClassList(nets[n].byClass))
  }

  function NameOfNamespace(): NsRecord -> string
  {
    (r: NsRecord) => r.namespace
  }

  function NameOfNode(): NodeView -> string
  {
    (v: NodeView) => v.node.name
  }

  function NameOfNet(): NsNetView -> string
  {
    (v: NsNetView) => v.namespace
  }

  predicate PodLess(a: PodNet, b: PodNet)
  {
    if a.namespace == b.namespace then StrLess(a.pod, b.pod) else StrLess(a.namespace, b.namespace)
  }

  function NamesOf(r: PodNet): (string, string)
  {
    (r.namespace, r.pod)
  }

  lemma PodLessIsOrder()
    ensures StrictOrder(PodLess)
  {
    hide StrLess;
    assert forall a, b :: PodLess(a, b) <==> PairLess(NamesOf(a), NamesOf(b));
    hide PodLess, PairLess;
    forall a ensures !PodLess(a, a) {
      PairTrichotomy(NamesOf(a), NamesOf(a));
    }
    forall a, b, c | PodLess(a, b) && PodLess(b, c) ensures PodLess(a, c) {
      PairTransitive(NamesOf(a), NamesOf(b), NamesOf(c));
    }
  }

  /** When no pod is listed twice, the published pod list is the one sorted permutation of the
      records. */
  lemma PodListUnique(pods: seq<PodNet>, r: seq<PodNet>)
    requires forall i, j :: 0 <= i < j < |pods| ==> NamesOf(pods[i]) != NamesOf(pods[j])
    ensures StrictlySorted(PodLess, r) && multiset(r) == multiset(pods) <==> r == Sort(PodLess, pods)
  {
    hide StrLess, Sort;
    PodLessIsOrder();
    forall i, j | 0 <= i < j < |pods| ensures PodLess(pods[i], pods[j]) || PodLess(pods[j], pods[i]) {
      PairTrichotomy(NamesOf(pods[i]), NamesOf(pods[j]));
    }
    SortSorts(PodLess, pods);
    if StrictlySorted(PodLess, r) && multiset(r) == multiset(pods) {
      SortedIsUnique(PodLess, r, Sort(PodLess, pods));
    }
  }

  function BlankNets(names: seq<string>): map<string, NsNet>
  {
    map n | n in names :: NsNet(n, ZERO, map[])
  }

  /** The collector's usage, or the recomputed one when it has none. */
  function UsageFrom(global: Addr -> bool, info: map<Addr, PodInfo>, c: Collection): map<string, Usage>
  {
    if c.podUsage == map[] then AggregateFlows(global, c.flows, info) else c.podUsage
  }

  function CostsFor(cl: Cluster): Costs
  {
    CountPods(StartOf(cl.namespaces, cl.nodes), cl.measured, cl.pods)
  }

  function StartBooks(cl: Cluster): Books
  {
    Books(CostsFor(cl).namespaces, Accounts(map[], BlankNets(cl.namespaces)), [], ZERO)
  }

  ghost function BooksFor(prices: Prices, cl: Cluster, usage: map<string, Usage>): Books
  {
    NamespacesPresent(StartOf(cl.namespaces, cl.nodes), cl.measured, cl.pods);
    BookedPods(prices, StartBooks(cl), usage, cl.pods)
  }

  function SettingFor(global: Addr -> bool, prices: Prices, cl: Cluster): (s: Setting)
    ensures ValidIndex(s.index)
  {
    Setting(global, prices, IndexOf(cl.nodes, cl.pods))
  }

  ghost function SnapshotOf(global: Addr -> bool, prices: Prices, cl: Cluster, c: Collection): Snapshot
  {
    var s, costs := SettingFor(global, prices, cl), CostsFor(cl);
    var books := BooksFor(prices, cl, UsageFrom(global, s.index.info, c));
    Snapshot(
      SortedValues(ByName(NameOfNamespace()), books.costs),
      SortedValues(ByName(NameOfNode()), NodeViews(costs.nodes)),
      costs.requests, costs.usage, TotalPrice(cl.nodes), books.cluster,
      ClassList(books.accounts.byClass),
      Sort(PodLess, books.pods),
      SortedValues(ByName(NameOfNet()), NetViews(books.accounts.nets)),
      ConnectionList(Graph(s, PodLevel, c.flows)),
      ConnectionList(Graph(s, WorkloadLevel, c.flows)),
      ConnectionList(Graph(s, NamespaceLevel, c.flows)),
      ConnectionList(ServiceGraph(s, cl.catalog, c.flows)))
  }

  // ---------------------------------------------------------------- the method

  method AddToUsage(usage: Usage, cls: string, tx: nat, rx: nat) returns (r: Usage)
    ensures r == AddFlow(usage, cls, tx, rx)
  {
    r := usage.(tx := usage.tx + tx, rx := usage.rx + rx);
    r := r.(txByClass := r.txByClass[cls := CountOf(r.txByClass, cls) + tx]);
    r := r.(rxByClass := r.rxByClass[cls := CountOf(r.rxByClass, cls) + rx]);
  }

  method AggregatePodUsage(global: Addr -> bool, flows: seq<Flow>, podByIP: map<Addr, PodInfo>)
    returns (result: map<string, Usage>)
    ensures result == AggregateFlows(global, flows, podByIP)
  {
    result := map[];
    for i := 0 to |flows|
      invariant result == AggregateFlows(global, flows[..i], podByIP)
    {
      hide ClassifyEgress, AddFlow, PodKey;
      assert flows[..i + 1][..i] == flows[..i];
      var flow := flows[i];
      if flow.src in podByIP {
        var srcPod := podByIP[flow.src];
        var cls := ClassifyEgress(global, srcPod, flow.dst, podByIP);
        var key := PodKey(srcPod.namespace, srcPod.pod);
        var usage := AddToUsage(UsageOf(result, key), cls, flow.tx, flow.rx);
        result := result[key := usage];
      }
    }
    assert flows[..|flows|] == flows;
  }

  method FlattenNodes(nodes: map<string, NodeRecord>) returns (r: seq<NodeView>)
    requires forall n :: n in nodes ==> nodes[n].node.name == n
    ensures r == SortedValues(ByName(NameOfNode()), NodeViews(nodes))
  {
    r := FlattenNamed(NameOfNode(), NodeViews(nodes));
  }

  lemma ViewedOne(nets: map<string, NsNet>, todo: set<string>, n: string)
    requires n in nets && n in todo
    ensures NetViews(nets - (todo - {n})) ==
      NetViews(nets - todo)[n := NsNetView(nets[n].namespace, nets[n].amount, ClassList(nets[n].byClass))]
  {
    hide ClassList;
  }

  lemma ViewedAll(nets: map<string, NsNet>)
    ensures NetViews(nets - nets.Keys) == map[]
    ensures NetViews(nets - {}) == NetViews(nets)
  {
    hide ClassList;
    assert nets - {} == nets;
  }

  /** The loop that flattens the classes of every namespace, in any order. */
  method ViewNets(nets: map<string, NsNet>) returns (views: map<string, NsNetView>)
    ensures views == NetViews(nets)
  {
    hide ClassList, Flattens, NetViews;
    ViewedAll(nets);
    views := map[];
    var todo := nets.Keys;
    while todo != {}
      invariant todo <= nets.Keys
      invariant views == NetViews(nets - todo)
      decreases todo
    {
      var n :| n in todo;
      ViewedOne(nets, todo, n);
      var byClass := FlattenTotals(nets[n].byClass);
      views := views[n := NsNetView(nets[n].namespace, nets[n].amount, byClass)];
      todo := todo - {n};
    }
  }

  method FlattenNets(nets: map<string, NsNet>) returns (r: seq<NsNetView>)
    requires forall n :: n in nets ==> nets[n].namespace == n
    ensures r == SortedValues(ByName(NameOfNet()), NetViews(nets))
  {
    hide ClassList, ByName, SortedValues, Flattens;
    var views := ViewNets(nets);
    r := FlattenNamed(NameOfNet(), views);
  }

  /** Records keep the name they are stored under. */
  ghost predicate WellNamed(b: Books)
  {
    && (forall n :: n in b.costs ==> b.costs[n].namespace == n)
    && (forall n :: n in b.accounts.nets ==> b.accounts.nets[n].namespace == n)
  }

  lemma {:induction false} BooksWellNamed(prices: Prices, b: Books, usage: map<string, Usage>, pods: seq<Pod>)
    requires forall p :: p in pods && !Skip(p) ==> p.namespace in b.costs
    requires WellNamed(b)
    ensures WellNamed(BookedPods(prices, b, usage, pods))
  {
    hide Classes, AmountUsed, Total, Merge, ClassList;
    if pods != [] {
      BooksWellNamed(prices, b, usage, pods[..|pods| - 1]);
      if !Skip(pods[|pods| - 1]) {
        assert pods[|pods| - 1] in pods;
      }
    }
  }

  ghost predicate CostsWellNamed(c: Costs)
  {
    && (forall n :: n in c.namespaces ==> c.namespaces[n].namespace == n && c.namespaces[n].net == ZERO)
    && (forall n :: n in c.nodes ==> c.nodes[n].node.name == n)
  }

  lemma {:induction false} CountingKeepsNames(c: Costs, measured: Measured, pods: seq<Pod>)
    requires CostsWellNamed(c)
    ensures CostsWellNamed(CountPods(c, measured, pods))
  {
    hide LoadOf, UsedBy;
    if pods != [] {
      CountingKeepsNames(c, measured, pods[..|pods| - 1]);
    }
  }

  lemma {:induction false} NodeRecordsNamed(nodes: seq<Node>)
    ensures forall n :: n in NodeRecords(nodes) ==> NodeRecords(nodes)[n].node.name == n
  {
    if nodes != [] {
      NodeRecordsNamed(nodes[..|nodes| - 1]);
    }
  }

  lemma CostsNamed(cl: Cluster)
    ensures CostsWellNamed(CostsFor(cl)) && WellNamed(StartBooks(cl)) && Blank(StartBooks(cl))
  {
    NodeRecordsNamed(cl.nodes);
    CountingKeepsNames(StartOf(cl.namespaces, cl.nodes), cl.measured, cl.pods);
  }

  method Build(global: Addr -> bool, prices: Prices, cl: Cluster, c: Collection) returns (snapshot: Snapshot)
    ensures snapshot == SnapshotOf(global, prices, cl, c)
  {
    hide CountPods, BookedPods, AggregateFlows, Graph, ServiceGraph, Indexes, Recorded, SortedValues, Sort,
      ClassList, ConnectionList, NodeViews, NetViews, StartOf, IndexOf, ByName, Flattens, BlankNets;
    CostsNamed(cl);
    NamespacesPresent(StartOf(cl.namespaces, cl.nodes), cl.measured, cl.pods);
    var costs, totalNodeCost := AllocateCosts(cl.namespaces, cl.nodes, cl.pods, cl.measured);
    IndexIsValid(cl.nodes, cl.pods);
    var index := IndexPods(cl.nodes, cl.pods);
    var s := Setting(global, prices, index);
    var nodes := FlattenNodes(costs.nodes);
    var podConnections, namespaceConnections, workloadConnections := ConnectFlows(s, c.flows);
    var directory := BuildDirectory(cl.catalog);
    var serviceConnections := ConnectFlowServices(s, directory, cl.catalog, c.flows);
    var networkUsage := c.podUsage;
    if |networkUsage| == 0 {
      networkUsage := AggregatePodUsage(global, c.flows, index.info);
    }
    var start := Books(costs.namespaces, Accounts(map[], BlankNets(cl.namespaces)), [], ZERO);
    BooksWellNamed(prices, start, networkUsage, cl.pods);
    var books := BookPods(prices, start, networkUsage, cl.pods);
    var namespaces := FlattenNamed(NameOfNamespace(), books.costs);
    var namespaceNets := FlattenNets(books.accounts.nets);
    var byClass := FlattenTotals(books.accounts.byClass);
    var podList := FlattenConnections(podConnections, Graph(s, PodLevel, c.flows));
    var workloadList := FlattenConnections(workloadConnections, Graph(s, WorkloadLevel, c.flows));
    var namespaceList := FlattenConnections(namespaceConnections, Graph(s, NamespaceLevel, c.flows));
    var serviceList := FlattenConnections(serviceConnections, ServiceGraph(s, cl.catalog, c.flows));
    snapshot := Snapshot(namespaces, nodes, costs.requests, costs.usage, totalNodeCost, books.cluster,
      byClass, Sort(PodLess, books.pods), namespaceNets, podList, workloadList, namespaceList, serviceList);
  }
}
