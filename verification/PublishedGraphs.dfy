/** The four connection lists of a published snapshot: what the lists say about each other, about
    the flows and about the pods, without the graphs they were made from. */
module PublishedGraphs {
  import opened Builder
  import opened BuilderTheorems
  import opened Connections
  import opened Ledger
  import opened Lists
  import opened Network
  import opened Order
  import opened Services

  // ---------------------------------------------------------------- a list as a ledger

  function KeyOfConnection(c: Connection): ConnKey
  {
    ConnKey(c.source, c.destination, c.cls)
  }

  /** The amounts of the listed connections under one key. */
  function Under(k: ConnKey): Connection -> Amount
  {
    (c: Connection) => if KeyOfConnection(c) == k then c.amount else ZERO
  }

  /** What a list of connections says: under each key the amounts listed there. */
  ghost function LedgerOf(list: seq<Connection>): map<ConnKey, Amount>
  {
    map k | k in (set c | c in list :: KeyOfConnection(c)) :: SumOf(Under(k), list)
  }

  lemma UnderOne(ledger: map<ConnKey, Amount>, k: ConnKey)
    requires k in ledger
    ensures Total(Amounts(Recorded(ledger), Under(k))) == ledger[k]
  {
    var picked := Amounts(Recorded(ledger), Under(k));
    UnderAll(ledger, k);
    hide Amounts, Recorded, Under, TotalAt;
    TotalAtRemove(picked, picked.Keys, k);
    hide Plus, At;
    NothingElse(picked, picked.Keys - {k});
    PlusZero(ledger[k]);
  }

  lemma UnderAll(ledger: map<ConnKey, Amount>, k: ConnKey)
    requires k in ledger
    ensures var picked := Amounts(Recorded(ledger), Under(k));
            k in picked && picked[k] == ledger[k] && forall l :: l in picked.Keys - {k} ==> At(picked, l) == ZERO
  {
    forall l | l in ledger.Keys ensures KeyOfConnection(Recorded(ledger)[l]) == l {
    }
  }

  lemma NothingElse<K>(m: map<K, Amount>, ks: set<K>)
    requires forall k :: k in ks ==> At(m, k) == ZERO
    ensures TotalAt(m, ks) == ZERO
  {
    TotalAtMissing(m, {}, ks);
    assert {} + ks == ks;
  }

  lemma ListedKeys(ledger: map<ConnKey, Amount>, k: ConnKey)
    ensures k in LedgerOf(ConnectionList(ledger)) <==> k in ledger
  {
    hide SumOf, SortedValues, ConnLess;
    var list, m := ConnectionList(ledger), Recorded(ledger);
    ListHasValues(m, list, ledger);
    if k in ledger {
      ValuesAtRemove(m, m.Keys, k);
      assert m[k] in multiset(list);
      assert m[k] in list && KeyOfConnection(m[k]) == k;
    }
    if k in LedgerOf(list) {
      var c :| c in list && KeyOfConnection(c) == k;
      assert c in multiset(list);
      ValueHasKey(m, m.Keys, c);
    }
  }

  lemma ListHasValues(m: map<ConnKey, Connection>, list: seq<Connection>, ledger: map<ConnKey, Amount>)
    requires m == Recorded(ledger) && list == ConnectionList(ledger)
    ensures multiset(list) == ValuesAt(m, m.Keys) && StrictlySorted(ConnLess, list)
  {
    hide ConnLess, Recorded;
    ConnectionsUnique(ledger, list);
  }

  /** Publishing loses nothing: the list of a ledger says what the ledger says. */
  lemma LedgerOfList(ledger: map<ConnKey, Amount>)
    ensures LedgerOf(ConnectionList(ledger)) == ledger
  {
    var list := ConnectionList(ledger);
    hide ConnectionList, SumOf, Under, KeyOfConnection;
    forall k ensures k in LedgerOf(list) <==> k in ledger {
      ListedKeys(ledger, k);
    }
    forall k | k in ledger ensures LedgerOf(list)[k] == ledger[k] {
      ListedKeys(ledger, k);
      ListedAmount(ledger, k);
    }
  }

  lemma ListedAmount(ledger: map<ConnKey, Amount>, k: ConnKey)
    requires k in ledger
    ensures SumOf(Under(k), ConnectionList(ledger)) == ledger[k]
  {
    hide SumOf, SortedValues, ConnLess;
    PublishedSum(ConnLess, Recorded(ledger), Under(k));
    UnderOne(ledger, k);
  }

  // ---------------------------------------------------------------- rollups

  /** A pod's end moves to its namespace; the outside stays. */
  function NamespaceEnd(e: Endpoint): Endpoint
  {
    if e.kind == "pod" then Endpoint("namespace", "", e.namespace) else e
  }

  function ToNamespaces(): ConnKey -> ConnKey
  {
    (k: ConnKey) => ConnKey(NamespaceEnd(k.src), NamespaceEnd(k.dst), k.cls)
  }

  /** A pod's end moves to the controller of the last listed pod of its key, or to the pod itself as
      a workload when it has none; the outside stays. */
  function OwnerEnd(pods: seq<Pod>, e: Endpoint): Endpoint
  {
    if pods == [] || e.kind != "pod" then e
    else
      var last := pods[|pods| - 1];
      if KeyOf(last) != PodKey(e.namespace, e.name) then OwnerEnd(pods[..|pods| - 1], e)
      else
        match last.controller
        case Some((kind, name)) => Endpoint("workload", last.namespace, kind + "/" + name)
        case None => Endpoint("workload", last.namespace, "Pod/" + last.name)
  }

  function ToOwners(pods: seq<Pod>): ConnKey -> ConnKey
  {
    (k: ConnKey) => ConnKey(OwnerEnd(pods, k.src), OwnerEnd(pods, k.dst), k.cls)
  }

  lemma RegroupSame<K, L>(m: map<K, Amount>, f: K -> L, g: K -> L)
    requires forall k :: k in m ==> f(k) == g(k)
    ensures Regroup(m, f) == Regroup(m, g)
  {
    var fs, gs := set k | k in m :: f(k), set k | k in m :: g(k);
    assert fs == gs;
    forall l | l in fs ensures Fibre(m, f, l) == Fibre(m, g, l) {
    }
  }

  /** A listed pod or the outside. */
  ghost predicate PodOrOutside(pods: seq<Pod>, e: Endpoint)
  {
    || e == Endpoint("external", "", e.name)
    || exists p :: p in pods && e == Endpoint("pod", p.namespace, p.name)
  }

  lemma FlowEnds(global: Addr -> bool, prices: Prices, cl: Cluster, flow: Flow)
    requires flow.src in PodsByIP(cl.pods)
    ensures var k := FlowEntry(SettingFor(global, prices, cl), PodLevel, flow).0;
            && PodOrOutside(cl.pods, k.src) && PodOrOutside(cl.pods, k.dst) && k.src.kind == "pod"
  {
    PodsByIPHas(cl.pods, flow.src);
    if flow.dst in PodsByIP(cl.pods) {
      PodsByIPHas(cl.pods, flow.dst);
    }
    hide PodsByIP, Zones, ClassifyEgress, EgressCost, Workloads;
  }

  lemma {:induction false} EntryEnds(global: Addr -> bool, prices: Prices, cl: Cluster, flows: seq<Flow>, i: nat)
    requires i < |FlowEntries(SettingFor(global, prices, cl), PodLevel, flows)|
    ensures var k := FlowEntries(SettingFor(global, prices, cl), PodLevel, flows)[i].0;
            && PodOrOutside(cl.pods, k.src) && PodOrOutside(cl.pods, k.dst) && k.src.kind == "pod"
  {
    hide PodOrOutside, FlowEntry;
    var s, init := SettingFor(global, prices, cl), flows[..|flows| - 1];
    if i < |FlowEntries(s, PodLevel, init)| {
      EntryEnds(global, prices, cl, init, i);
    } else {
      FlowEnds(global, prices, cl, flows[|flows| - 1]);
    }
  }

  lemma GraphEnds(global: Addr -> bool, prices: Prices, cl: Cluster, flows: seq<Flow>, k: ConnKey)
    requires k in Graph(SettingFor(global, prices, cl), PodLevel, flows)
    ensures PodOrOutside(cl.pods, k.src) && PodOrOutside(cl.pods, k.dst) && k.src.kind == "pod"
  {
    var entries := FlowEntries(SettingFor(global, prices, cl), PodLevel, flows);
    hide FlowEntries, PodOrOutside;
    PostAllKeys(map[], entries, k);
    var i :| 0 <= i < |entries| && entries[i].0 == k;
    EntryEnds(global, prices, cl, flows, i);
  }

  lemma {:induction false} OwnerIsWorkload(pods: seq<Pod>, e: Endpoint)
    requires e.kind == "pod" && PodKey(e.namespace, e.name) in Workloads(pods)
    ensures OwnerEnd(pods, e) == Workloads(pods)[PodKey(e.namespace, e.name)]
    ensures OwnerEnd(pods, e).kind == "workload"
  {
    hide PodKey;
    if KeyOf(pods[|pods| - 1]) != PodKey(e.namespace, e.name) {
      OwnerIsWorkload(pods[..|pods| - 1], e);
    }
  }

  lemma EndsMove(nodes: seq<Node>, pods: seq<Pod>, e: Endpoint)
    requires PodOrOutside(pods, e)
    ensures LiftEnd(IndexOf(nodes, pods), NamespaceLevel, e) == NamespaceEnd(e)
    ensures LiftEnd(IndexOf(nodes, pods), WorkloadLevel, e) == OwnerEnd(pods, e)
  {
    if e.kind == "pod" {
      var p :| p in pods && e == Endpoint("pod", p.namespace, p.name);
      var q := LastWorkload(pods, p);
      OwnerIsWorkload(pods, e);
      hide PodsByIP, Zones, Workloads, OwnerEnd, PodKey;
    } else {
      hide PodsByIP, Zones, Workloads;
    }
  }

  lemma GraphRollups(global: Addr -> bool, prices: Prices, cl: Cluster, flows: seq<Flow>)
    ensures var s := SettingFor(global, prices, cl);
            var pods := Graph(s, PodLevel, flows);
            && Graph(s, NamespaceLevel, flows) == Regroup(pods, ToNamespaces())
            && Graph(s, WorkloadLevel, flows) == Regroup(pods, ToOwners(cl.pods))
  {
    var s := SettingFor(global, prices, cl);
    var pods := Graph(s, PodLevel, flows);
    RollUp(s, NamespaceLevel, flows);
    RollUp(s, WorkloadLevel, flows);
    hide Graph, IndexOf, LiftEnd, NamespaceEnd, OwnerEnd, PodOrOutside, Regroup;
    assert s.index == IndexOf(cl.nodes, cl.pods);
    forall k | k in pods
      ensures Lift(s.index, NamespaceLevel)(k) == ToNamespaces()(k)
      ensures Lift(s.index, WorkloadLevel)(k) == ToOwners(cl.pods)(k)
    {
      GraphEnds(global, prices, cl, flows, k);
      EndsMove(cl.nodes, cl.pods, k.src);
      EndsMove(cl.nodes, cl.pods, k.dst);
    }
    RegroupSame(pods, Lift(s.index, NamespaceLevel), ToNamespaces());
    RegroupSame(pods, Lift(s.index, WorkloadLevel), ToOwners(cl.pods));
  }

  lemma ListsOf(global: Addr -> bool, prices: Prices, cl: Cluster, c: Collection)
    ensures var s, t := SnapshotOf(global, prices, cl, c), SettingFor(global, prices, cl);
            && s.podConnections == ConnectionList(Graph(t, PodLevel, c.flows))
            && s.namespaceConnections == ConnectionList(Graph(t, NamespaceLevel, c.flows))
            && s.workloadConnections == ConnectionList(Graph(t, WorkloadLevel, c.flows))
            && s.serviceConnections == ConnectionList(ServiceGraph(t, cl.catalog, c.flows))
  {
    hide BooksFor, CostsFor, AggregateFlows, Graph, ServiceGraph, ConnectionList, NodeViews, NetViews,
      Sort, SortedValues, UsageFrom, IndexOf;
  }

  /** The published namespace connections are the published pod connections with every pod moved to
      its namespace, and the published workload connections are the same with every pod moved to its
      controller: bytes, cost, class and the outside are kept, and every list is strictly sorted, so
      nothing is listed twice. */
  lemma PublishedRollups(global: Addr -> bool, prices: Prices, cl: Cluster, c: Collection)
    ensures var s := SnapshotOf(global, prices, cl, c);
            && LedgerOf(s.namespaceConnections) == Regroup(LedgerOf(s.podConnections), ToNamespaces())
            && LedgerOf(s.workloadConnections) == Regroup(LedgerOf(s.podConnections), ToOwners(cl.pods))
            && StrictlySorted(ConnLess, s.podConnections) && StrictlySorted(ConnLess, s.namespaceConnections)
            && StrictlySorted(ConnLess, s.workloadConnections) && StrictlySorted(ConnLess, s.serviceConnections)
  {
    var t := SettingFor(global, prices, cl);
    ListsOf(global, prices, cl, c);
    GraphRollups(global, prices, cl, c.flows);
    hide SnapshotOf, Graph, ServiceGraph, ConnectionList, LedgerOf, Regroup, ConnLess;
    LedgerOfList(Graph(t, PodLevel, c.flows));
    LedgerOfList(Graph(t, NamespaceLevel, c.flows));
    LedgerOfList(Graph(t, WorkloadLevel, c.flows));
    ListIsSorted(Graph(t, PodLevel, c.flows));
    ListIsSorted(Graph(t, NamespaceLevel, c.flows));
    ListIsSorted(Graph(t, WorkloadLevel, c.flows));
    ListIsSorted(ServiceGraph(t, cl.catalog, c.flows));
  }

  lemma ListIsSorted(ledger: map<ConnKey, Amount>)
    ensures StrictlySorted(ConnLess, ConnectionList(ledger))
  {
    ListHasValues(Recorded(ledger), ConnectionList(ledger), ledger);
  }

  lemma ListedIsRecorded(ledger: map<ConnKey, Amount>, c: Connection)
    requires c in ConnectionList(ledger)
    ensures KeyOfConnection(c) in ledger && c.amount == ledger[KeyOfConnection(c)]
  {
    hide SortedValues, ConnLess;
    var list, m := ConnectionList(ledger), Recorded(ledger);
    ListHasValues(m, list, ledger);
    assert c in multiset(list);
    ValueHasKey(m, m.Keys, c);
  }

  ghost predicate EndsAt(kind: string, c: Connection)
  {
    c.source.kind == kind && (c.destination.kind == kind || c.destination == Endpoint("external", "", c.cls))
  }

  /** Pod connections are between listed pods, namespace, workload and service connections between
      what their name says; the other end may be the outside, named by the class; and but for
      services, the class says which. */
  lemma PublishedEnds(global: Addr -> bool, prices: Prices, cl: Cluster, c: Collection, x: Connection)
    ensures var s := SnapshotOf(global, prices, cl, c);
            && (x in s.podConnections ==>
                  PodOrOutside(cl.pods, x.source) && PodOrOutside(cl.pods, x.destination) && EndsAt("pod", x))
            && (x in s.namespaceConnections ==> EndsAt("namespace", x))
            && (x in s.workloadConnections ==> EndsAt("workload", x))
            && (x in s.serviceConnections ==> EndsAt("service", x))
            && (x in s.podConnections || x in s.namespaceConnections || x in s.workloadConnections ==>
                  Directed(x.destination, x.cls))
  {
    var s, t := SnapshotOf(global, prices, cl, c), SettingFor(global, prices, cl);
    ListsOf(global, prices, cl, c);
    hide SnapshotOf, Graph, ServiceGraph, ConnectionList;
    if x in s.podConnections {
      PodEnds(global, prices, cl, c.flows, x);
    }
    if x in s.namespaceConnections {
      NamespaceEnds(global, prices, cl, c.flows, x);
    }
    if x in s.workloadConnections {
      WorkloadEnds(global, prices, cl, c.flows, x);
    }
    if x in s.serviceConnections {
      ListedIsRecorded(ServiceGraph(t, cl.catalog, c.flows), x);
      ServiceEnds(t, cl.catalog, c.flows, KeyOfConnection(x));
    }
  }

  lemma PodEnds(global: Addr -> bool, prices: Prices, cl: Cluster, flows: seq<Flow>, x: Connection)
    requires x in ConnectionList(Graph(SettingFor(global, prices, cl), PodLevel, flows))
    ensures PodOrOutside(cl.pods, x.source) && PodOrOutside(cl.pods, x.destination)
    ensures EndsAt("pod", x) && Directed(x.destination, x.cls)
  {
    var t := SettingFor(global, prices, cl);
    hide Graph, ConnectionList, IndexOf;
    ListedIsRecorded(Graph(t, PodLevel, flows), x);
    GraphEnds(global, prices, cl, flows, KeyOfConnection(x));
    ConnectionsDirected(cl.nodes, cl.pods, t, PodLevel, flows, KeyOfConnection(x));
  }

  lemma NamespaceEnds(global: Addr -> bool, prices: Prices, cl: Cluster, flows: seq<Flow>, x: Connection)
    requires x in ConnectionList(Graph(SettingFor(global, prices, cl), NamespaceLevel, flows))
    ensures EndsAt("namespace", x) && Directed(x.destination, x.cls)
  {
    var t := SettingFor(global, prices, cl);
    hide Graph, ConnectionList, IndexOf, PodOrOutside;
    var k := KeyOfConnection(x);
    ListedIsRecorded(Graph(t, NamespaceLevel, flows), x);
    ConnectionsDirected(cl.nodes, cl.pods, t, NamespaceLevel, flows, k);
    GraphRollups(global, prices, cl, flows);
    var j :| j in Graph(t, PodLevel, flows) && ToNamespaces()(j) == k;
    GraphEnds(global, prices, cl, flows, j);
    NamespaceEndKind(cl.pods, j.src);
    NamespaceEndKind(cl.pods, j.dst);
  }

  lemma NamespaceEndKind(pods: seq<Pod>, e: Endpoint)
    requires PodOrOutside(pods, e)
    ensures e.kind == "pod" ==> NamespaceEnd(e).kind == "namespace"
    ensures e.kind != "pod" ==> NamespaceEnd(e) == Endpoint("external", "", e.name)
  {
  }

  lemma WorkloadEnds(global: Addr -> bool, prices: Prices, cl: Cluster, flows: seq<Flow>, x: Connection)
    requires x in ConnectionList(Graph(SettingFor(global, prices, cl), WorkloadLevel, flows))
    ensures EndsAt("workload", x) && Directed(x.destination, x.cls)
  {
    var t := SettingFor(global, prices, cl);
    hide Graph, ConnectionList, IndexOf, PodOrOutside, OwnerEnd;
    var k := KeyOfConnection(x);
    ListedIsRecorded(Graph(t, WorkloadLevel, flows), x);
    ConnectionsDirected(cl.nodes, cl.pods, t, WorkloadLevel, flows, k);
    GraphRollups(global, prices, cl, flows);
    var j :| j in Graph(t, PodLevel, flows) && ToOwners(cl.pods)(j) == k;
    GraphEnds(global, prices, cl, flows, j);
    OwnerEndKind(cl.pods, j.src);
    OwnerEndKind(cl.pods, j.dst);
  }

  lemma OwnerEndKind(pods: seq<Pod>, e: Endpoint)
    requires PodOrOutside(pods, e)
    ensures e.kind == "pod" ==> OwnerEnd(pods, e).kind == "workload"
    ensures e.kind != "pod" ==> OwnerEnd(pods, e) == Endpoint("external", "", e.name)
  {
    if e.kind == "pod" {
      var p :| p in pods && e == Endpoint("pod", p.namespace, p.name);
      var q := LastWorkload(pods, p);
      OwnerIsWorkload(pods, e);
    }
  }

  // ---------------------------------------------------------------- the lists against the flows

  /** What the address of a flow's end shows as. */
  function EndOf(pods: seq<Pod>, ip: Addr, cls: string): Endpoint
  {
    if ip in PodsByIP(pods) then Endpoint("pod", PodsByIP(pods)[ip].namespace, PodsByIP(pods)[ip].name)
    else Endpoint("external", "", cls)
  }

  /** Bytes and egress cost of a flow: the price of its class is per 2^30 bytes sent. */
  function WorthOf(prices: Prices, flow: Flow, cls: string): Amount
  {
    Amount(flow.tx, flow.rx, flow.tx as real / 1073741824.0 * PriceOf(prices, cls))
  }

  function ClassIn(global: Addr -> bool, cl: Cluster, flow: Flow): string
    requires flow.src in PodsByIP(cl.pods)
  {
    var info := InfoByIP(Zones(cl.nodes), cl.pods);
    ClassifyEgress(global, info[flow.src], flow.dst, info)
  }

  /** The flows between two ends in one class, added up. */
  function FlowsUnder(global: Addr -> bool, prices: Prices, cl: Cluster, flows: seq<Flow>, k: ConnKey): Amount
  {
    if flows == [] then ZERO
    else
      var init, flow := FlowsUnder(global, prices, cl, flows[..|flows| - 1], k), flows[|flows| - 1];
      if && flow.src in PodsByIP(cl.pods) && ClassIn(global, cl, flow) == k.cls
         && EndOf(cl.pods, flow.src, k.cls) == k.src && EndOf(cl.pods, flow.dst, k.cls) == k.dst
      then Plus(init, WorthOf(prices, flow, k.cls)) else init
  }

  /** All flows that leave a pod, added up. */
  function FlowsTotal(global: Addr -> bool, prices: Prices, cl: Cluster, flows: seq<Flow>): Amount
  {
    if flows == [] then ZERO
    else
      var init, flow := FlowsTotal(global, prices, cl, flows[..|flows| - 1]), flows[|flows| - 1];
      if flow.src in PodsByIP(cl.pods) then Plus(init, WorthOf(prices, flow, ClassIn(global, cl, flow))) else init
  }

  lemma FlowEntryIs(global: Addr -> bool, prices: Prices, cl: Cluster, flow: Flow)
    requires flow.src in PodsByIP(cl.pods)
    ensures var cls := ClassIn(global, cl, flow);
            FlowEntry(SettingFor(global, prices, cl), PodLevel, flow) ==
              (ConnKey(EndOf(cl.pods, flow.src, cls), EndOf(cl.pods, flow.dst, cls), cls), WorthOf(prices, flow, cls))
  {
    hide PodsByIP, Zones, ClassifyEgress, PriceOf, Workloads;
    var t, cls := SettingFor(global, prices, cl), ClassIn(global, cl, flow);
    assert ClassOf(t, flow) == cls;
    assert EgressCost(prices, cls, flow.tx) == flow.tx as real / 1073741824.0 * PriceOf(prices, cls);
    assert AmountOf(t, flow) == WorthOf(prices, flow, cls);
  }

  lemma {:induction false} FlowsUnderIs(global: Addr -> bool, prices: Prices, cl: Cluster, flows: seq<Flow>, k: ConnKey)
    ensures var entries := FlowEntries(SettingFor(global, prices, cl), PodLevel, flows);
            && SumFor(entries, k) == FlowsUnder(global, prices, cl, flows, k)
            && Sum(entries) == FlowsTotal(global, prices, cl, flows)
  {
    hide FlowEntry, PodsByIP, WorthOf, ClassIn, EndOf, Plus, Workloads;
    if flows != [] {
      var t, init, flow := SettingFor(global, prices, cl), flows[..|flows| - 1], flows[|flows| - 1];
      FlowsUnderIs(global, prices, cl, init, k);
      if flow.src in PodsByIP(cl.pods) {
        FlowEntryIs(global, prices, cl, flow);
        SumForSnoc(FlowEntries(t, PodLevel, init), FlowEntry(t, PodLevel, flow), k);
        SumSnoc(FlowEntries(t, PodLevel, init), FlowEntry(t, PodLevel, flow));
        PlusZero(SumFor(FlowEntries(t, PodLevel, init), k));
      }
    }
  }

  /** What a published pod connection carries: the bytes and the egress cost of the flows between its
      two ends in its class. */
  lemma PublishedConnectionIsItsFlows(global: Addr -> bool, prices: Prices, cl: Cluster, c: Collection, k: ConnKey)
    ensures At(LedgerOf(SnapshotOf(global, prices, cl, c).podConnections), k) ==
      FlowsUnder(global, prices, cl, c.flows, k)
  {
    var t := SettingFor(global, prices, cl);
    ListsOf(global, prices, cl, c);
    hide SnapshotOf, LedgerOf, FlowEntries, SumFor;
    LedgerOfList(Graph(t, PodLevel, c.flows));
    PostAllAt(map[], FlowEntries(t, PodLevel, c.flows), k);
    FlowsUnderIs(global, prices, cl, c.flows, k);
    PlusZero(SumFor(FlowEntries(t, PodLevel, c.flows), k));
  }

  function AmountIn(): Connection -> Amount
  {
    (c: Connection) => c.amount
  }

  lemma ListTotal(ledger: map<ConnKey, Amount>)
    ensures SumOf(AmountIn(), ConnectionList(ledger)) == Total(ledger)
  {
    hide ConnLess, SortedValues, SumOf;
    PublishedSum(ConnLess, Recorded(ledger), AmountIn());
    assert Amounts(Recorded(ledger), AmountIn()) == ledger;
  }

  /** The published pod, namespace and workload connections each add up to all flows that leave a
      pod; the service connections to every flow as often as it has pairs of services. */
  lemma PublishedConnectionsAddUp(global: Addr -> bool, prices: Prices, cl: Cluster, c: Collection)
    ensures var s := SnapshotOf(global, prices, cl, c);
            && SumOf(AmountIn(), s.podConnections) == FlowsTotal(global, prices, cl, c.flows)
            && SumOf(AmountIn(), s.namespaceConnections) == FlowsTotal(global, prices, cl, c.flows)
            && SumOf(AmountIn(), s.workloadConnections) == FlowsTotal(global, prices, cl, c.flows)
            && SumOf(AmountIn(), s.serviceConnections) ==
                 WeightedSum(SettingFor(global, prices, cl), cl.catalog, c.flows)
  {
    var t := SettingFor(global, prices, cl);
    ListsOf(global, prices, cl, c);
    FlowsUnderIs(global, prices, cl, c.flows, ConnKey(Endpoint("", "", ""), Endpoint("", "", ""), ""));
    GroupTotal(FlowEntries(t, PodLevel, c.flows));
    hide SnapshotOf, FlowEntries, ServiceGraph, ConnectionList, Total, SumOf, FlowsTotal, WeightedSum;
    SameTotal(t, NamespaceLevel, c.flows);
    SameTotal(t, WorkloadLevel, c.flows);
    ServiceTotalIsWeighted(t, cl.catalog, c.flows);
    ListTotal(Graph(t, PodLevel, c.flows));
    ListTotal(Graph(t, NamespaceLevel, c.flows));
    ListTotal(Graph(t, WorkloadLevel, c.flows));
    ListTotal(ServiceGraph(t, cl.catalog, c.flows));
  }
}
