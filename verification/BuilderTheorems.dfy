/** What the views of a snapshot have to do with each other, and with the flows. */
module BuilderTheorems {
  import opened Builder
  import opened Collector
  import opened Connections
  import opened Ledger
  import opened Lists
  import opened Network
  import opened NetworkTotals
  import opened NodeCosts
  import opened Order
  import opened Services

  // ---------------------------------------------------------------- collected or recomputed usage

  lemma SentAgree(prices: Prices, sparse: map<string, nat>, full: map<string, nat>)
    requires Sparse(sparse, full)
    ensures forall c :: c in sparse.Keys + full.Keys ==> At(Sent(prices, sparse), c) == At(Sent(prices, full), c)
    ensures forall c :: c in sparse.Keys + full.Keys ==> At(Received(sparse), c) == At(Received(full), c)
  {
    hide EgressCost;
    forall c | c in sparse.Keys + full.Keys
      ensures At(Sent(prices, sparse), c) == At(Sent(prices, full), c)
      ensures At(Received(sparse), c) == At(Received(full), c)
    {
      EgressCostAdds(prices, c, 0, 0);
    }
  }

  lemma ClassKeys(prices: Prices, u: Usage, cls: string)
    ensures cls in Classes(prices, u) <==>
      exists c :: c in Effective(u).txByClass.Keys + Effective(u).rxByClass.Keys && Norm(c) == cls
  {
    var e := Effective(u);
    hide Effective, EgressCost;
    var sent, received := Sent(prices, e.txByClass), Received(e.rxByClass);
    assert sent.Keys == e.txByClass.Keys && received.Keys == e.rxByClass.Keys;
    assert cls in Regroup(sent, Norm) <==> exists c :: c in sent && Norm(c) == cls;
    assert cls in Regroup(received, Norm) <==> exists c :: c in received && Norm(c) == cls;
  }

  lemma NoFallback(kept: Usage, full: Usage)
    requires UsageRefines(kept, full)
    ensures Effective(kept) == kept && Effective(full) == full
    ensures kept.txByClass.Keys + kept.rxByClass.Keys == full.txByClass.Keys + full.rxByClass.Keys
  {
  }

  lemma SameClassKeys(prices: Prices, kept: Usage, full: Usage)
    requires UsageRefines(kept, full)
    ensures Classes(prices, kept).Keys == Classes(prices, full).Keys
  {
    NoFallback(kept, full);
    hide UsageRefines, Classes, Effective, Norm;
    forall cls: string ensures cls in Classes(prices, kept) <==> cls in Classes(prices, full) {
      ClassKeys(prices, kept, cls);
      ClassKeys(prices, full, cls);
    }
  }

  lemma SameClassAt(prices: Prices, kept: Usage, full: Usage, cls: string)
    requires UsageRefines(kept, full)
    ensures At(Classes(prices, kept), cls) == At(Classes(prices, full), cls)
  {
    NoFallback(kept, full);
    SentAgree(prices, kept.txByClass, full.txByClass);
    SentAgree(prices, kept.rxByClass, full.rxByClass);
    var sk, sf := Sent(prices, kept.txByClass), Sent(prices, full.txByClass);
    var rk, rf := Received(kept.rxByClass), Received(full.rxByClass);
    assert sk.Keys == kept.txByClass.Keys && sf.Keys == full.txByClass.Keys;
    assert rk.Keys == kept.rxByClass.Keys && rf.Keys == full.rxByClass.Keys;
    hide UsageRefines, Sent, Received, Regroup, Merge, At, Norm, Effective;
    RegroupAgree(sk, sf, Norm, cls);
    RegroupAgree(rk, rf, Norm, cls);
    MergeAt(Regroup(sk, Norm), Regroup(rk, Norm), cls);
    MergeAt(Regroup(sf, Norm), Regroup(rf, Norm), cls);
  }

  lemma SameClasses(prices: Prices, kept: Usage, full: Usage)
    requires UsageRefines(kept, full)
    ensures Classes(prices, kept) == Classes(prices, full)
  {
    hide UsageRefines, Classes, At;
    SameClassKeys(prices, kept, full);
    forall cls | cls in Classes(prices, kept)
      ensures At(Classes(prices, kept), cls) == At(Classes(prices, full), cls)
    {
      SameClassAt(prices, kept, full, cls);
    }
    SameRecords(Classes(prices, kept), Classes(prices, full));
  }

  lemma SameAmount(prices: Prices, kept: Usage, full: Usage)
    requires UsageRefines(kept, full)
    ensures AmountUsed(prices, kept) == AmountUsed(prices, full)
  {
    NoFallback(kept, full);
    SentAgree(prices, kept.txByClass, full.txByClass);
    assert Sent(prices, kept.txByClass).Keys == kept.txByClass.Keys;
    assert Sent(prices, full.txByClass).Keys == full.txByClass.Keys;
    hide Sent, Effective, Total;
    TotalAgree(Sent(prices, kept.txByClass), Sent(prices, full.txByClass));
  }

  lemma {:induction false} SameBooks(prices: Prices, b: Books, kept: map<string, Usage>, full: map<string, Usage>, pods: seq<Pod>)
    requires forall p :: p in pods && !Skip(p) ==> p.namespace in b.costs
    requires Refines(kept, full)
    ensures BookedPods(prices, b, kept, pods) == BookedPods(prices, b, full, pods)
  {
    hide UsageRefines, Classes, AmountUsed, ClassList, Booked;
    if pods != [] {
      var pod := pods[|pods| - 1];
      SameBooks(prices, b, kept, full, pods[..|pods| - 1]);
      if !Skip(pod) {
        assert pod in pods;
        if KeyOf(pod) in kept {
          SameClasses(prices, kept[KeyOf(pod)], full[KeyOf(pod)]);
          SameAmount(prices, kept[KeyOf(pod)], full[KeyOf(pod)]);
        }
      }
    }
  }

  /** A collection that one scrape of the collector produced for this cluster. */
  ghost predicate Collected(global: Addr -> bool, cl: Cluster, c: Collection)
  {
    exists last, readings ::
      c == VisitAll(global, InfoByIP(Zones(cl.nodes), cl.pods), Scrape(last, Collection(map[], [])), readings).collection
  }

  lemma CollectedRefines(global: Addr -> bool, cl: Cluster, c: Collection)
    requires Collected(global, cl, c)
    ensures Refines(c.podUsage, AggregateFlows(global, c.flows, InfoByIP(Zones(cl.nodes), cl.pods)))
  {
    hide Refines, VisitAll;
    var podByIP := InfoByIP(Zones(cl.nodes), cl.pods);
    var last, readings :| c == VisitAll(global, podByIP, Scrape(last, Collection(map[], [])), readings).collection;
    CollectedUsageRefines(global, podByIP, last, readings);
  }

  /** The per-pod usage the collector sends along is redundant: the builder publishes the same
      snapshot from the flows alone. */
  lemma UsageIsRedundant(global: Addr -> bool, prices: Prices, cl: Cluster, c: Collection)
    requires Collected(global, cl, c)
    ensures SnapshotOf(global, prices, cl, c) == SnapshotOf(global, prices, cl, Collection(map[], c.flows))
  {
    CollectedRefines(global, cl, c);
    hide Collected, Refines, AggregateFlows, BookedPods, CostsFor, Graph, ServiceGraph, SortedValues, Sort,
      ClassList, ConnectionList, NodeViews, NetViews;
    var info := InfoByIP(Zones(cl.nodes), cl.pods);
    var full := AggregateFlows(global, c.flows, info);
    NamespacesPresent(StartOf(cl.namespaces, cl.nodes), cl.measured, cl.pods);
    StartHasNamespaces(cl);
    SameBooks(prices, StartBooks(cl), c.podUsage, full, cl.pods);
    assert BooksFor(prices, cl, c.podUsage) == BooksFor(prices, cl, full);
  }

  lemma StartHasNamespaces(cl: Cluster)
    ensures forall p :: p in cl.pods && !Skip(p) ==> p.namespace in StartBooks(cl).costs
  {
    NamespacesPresent(StartOf(cl.namespaces, cl.nodes), cl.measured, cl.pods);
  }

  // ---------------------------------------------------------------- the order of the flows

  function UsageStep(global: Addr -> bool, podByIP: map<Addr, PodInfo>): (map<string, Usage>, Flow) -> map<string, Usage>
  {
    (m: map<string, Usage>, flow: Flow) =>
      if flow.src !in podByIP then m
      else
        var src := podByIP[flow.src];
        var key := PodKey(src.namespace, src.pod);
        m[key := AddFlow(UsageOf(m, key), ClassifyEgress(global, src, flow.dst, podByIP), flow.tx, flow.rx)]
  }

  lemma {:induction false} AggregateIsFold(global: Addr -> bool, podByIP: map<Addr, PodInfo>, flows: seq<Flow>)
    ensures AggregateFlows(global, flows, podByIP) == Fold(UsageStep(global, podByIP), map[], flows)
  {
    hide ClassifyEgress, AddFlow;
    if flows != [] {
      AggregateIsFold(global, podByIP, flows[..|flows| - 1]);
    }
  }

  lemma AddFlowCommutes(u: Usage, c: string, tx: nat, rx: nat, d: string, tx': nat, rx': nat)
    ensures AddFlow(AddFlow(u, c, tx, rx), d, tx', rx') == AddFlow(AddFlow(u, d, tx', rx'), c, tx, rx)
  {
    hide Bumped, AddFlow, CountOf;
    BumpsBoth(u, c, tx, rx);
    BumpsBoth(u, d, tx', rx');
    BumpsBoth(AddFlow(u, c, tx, rx), d, tx', rx');
    BumpsBoth(AddFlow(u, d, tx', rx'), c, tx, rx);
    CountsCommute(u.txByClass, c, tx, d, tx');
    CountsCommute(u.rxByClass, c, rx, d, rx');
  }

  lemma BumpsBoth(u: Usage, cls: string, tx: nat, rx: nat)
    ensures AddFlow(u, cls, tx, rx) ==
      Usage(u.tx + tx, u.rx + rx, Bumped(u.txByClass, cls, tx), Bumped(u.rxByClass, cls, rx))
  {
  }

  function Bumped(m: map<string, nat>, cls: string, n: nat): map<string, nat>
  {
    m[cls := CountOf(m, cls) + n]
  }

  lemma CountsCommute(m: map<string, nat>, c: string, x: nat, d: string, y: nat)
    ensures Bumped(Bumped(m, c, x), d, y) == Bumped(Bumped(m, d, y), c, x)
  {
  }

  lemma UsageBooksCommute(m: map<string, Usage>, k: string, c: string, tx: nat, rx: nat, l: string, d: string, tx': nat, rx': nat)
    ensures var x := m[k := AddFlow(UsageOf(m, k), c, tx, rx)];
            var y := m[l := AddFlow(UsageOf(m, l), d, tx', rx')];
            x[l := AddFlow(UsageOf(x, l), d, tx', rx')] == y[k := AddFlow(UsageOf(y, k), c, tx, rx)]
  {
    hide AddFlow;
    AddFlowCommutes(UsageOf(m, k), c, tx, rx, d, tx', rx');
  }

  lemma UsageStepsCommute(global: Addr -> bool, podByIP: map<Addr, PodInfo>)
    ensures Commutes(UsageStep(global, podByIP))
  {
    hide ClassifyEgress, AddFlow, PodKey, UsageOf;
    var step := UsageStep(global, podByIP);
    forall m: map<string, Usage>, x: Flow, y: Flow ensures step(step(m, x), y) == step(step(m, y), x) {
      if x.src in podByIP && y.src in podByIP {
        var p, q := podByIP[x.src], podByIP[y.src];
        UsageBooksCommute(m, PodKey(p.namespace, p.pod), ClassifyEgress(global, p, x.dst, podByIP), x.tx, x.rx,
          PodKey(q.namespace, q.pod), ClassifyEgress(global, q, y.dst, podByIP), y.tx, y.rx);
      }
    }
  }

  function GraphStep(s: Setting, level: Level): (map<ConnKey, Amount>, Flow) -> map<ConnKey, Amount>
    requires ValidIndex(s.index)
  {
    (m: map<ConnKey, Amount>, flow: Flow) =>
      if flow.src !in s.index.podByIP then m
      else
        var e := FlowEntry(s, level, flow);
        Post(m, e.0, e.1)
  }

  lemma {:induction false} GraphIsFold(s: Setting, level: Level, flows: seq<Flow>)
    requires ValidIndex(s.index)
    ensures Graph(s, level, flows) == Fold(GraphStep(s, level), map[], flows)
  {
    hide FlowEntry, Post, Graph;
    if flows == [] {
      assert Graph(s, level, []) == map[] by { NoFlows(s, level); }
    } else {
      GraphIsFold(s, level, flows[..|flows| - 1]);
      GraphGrows(s, level, flows, |flows| - 1);
      assert flows[..|flows| - 1 + 1] == flows;
    }
  }

  lemma NoFlows(s: Setting, level: Level)
    requires ValidIndex(s.index)
    ensures Graph(s, level, []) == map[]
  {
  }

  lemma GraphStepsCommute(s: Setting, level: Level)
    requires ValidIndex(s.index)
    ensures Commutes(GraphStep(s, level))
  {
    hide FlowEntry, Post;
    var step := GraphStep(s, level);
    forall m: map<ConnKey, Amount>, x: Flow, y: Flow ensures step(step(m, x), y) == step(step(m, y), x) {
      if x.src in s.index.podByIP && y.src in s.index.podByIP {
        var d, e := FlowEntry(s, level, x), FlowEntry(s, level, y);
        PostCommutes(m, d.0, d.1, e.0, e.1);
      }
    }
  }

  lemma GraphIgnoresOrder(s: Setting, level: Level, xs: seq<Flow>, ys: seq<Flow>)
    requires ValidIndex(s.index) && multiset(xs) == multiset(ys)
    ensures Graph(s, level, xs) == Graph(s, level, ys)
  {
    hide Graph, GraphStep;
    GraphIsFold(s, level, xs);
    GraphIsFold(s, level, ys);
    GraphStepsCommute(s, level);
    FoldIgnoresOrder(GraphStep(s, level), map[], xs, ys);
  }

  function ServiceStep(s: Setting, catalog: Catalog): (map<ConnKey, Amount>, Flow) -> map<ConnKey, Amount>
    requires ValidIndex(s.index)
  {
    (m: map<ConnKey, Amount>, flow: Flow) =>
      if flow.src in s.index.podByIP then PostAll(m, FlowPairs(s, catalog, flow)) else m
  }

  lemma {:induction false} ServiceGraphIsFold(s: Setting, catalog: Catalog, flows: seq<Flow>)
    requires ValidIndex(s.index)
    ensures ServiceGraph(s, catalog, flows) == Fold(ServiceStep(s, catalog), map[], flows)
  {
    hide FlowPairs, PostAll;
    if flows != [] {
      ServiceGraphIsFold(s, catalog, flows[..|flows| - 1]);
    }
  }

  lemma ServiceGraphIgnoresOrder(s: Setting, catalog: Catalog, xs: seq<Flow>, ys: seq<Flow>)
    requires ValidIndex(s.index) && multiset(xs) == multiset(ys)
    ensures ServiceGraph(s, catalog, xs) == ServiceGraph(s, catalog, ys)
  {
    hide FlowPairs, PostAll, ServiceGraph;
    var step := ServiceStep(s, catalog);
    forall m: map<ConnKey, Amount>, x: Flow, y: Flow ensures step(step(m, x), y) == step(step(m, y), x) {
      if x.src in s.index.podByIP && y.src in s.index.podByIP {
        PostAllCommutes(m, FlowPairs(s, catalog, x), FlowPairs(s, catalog, y));
      }
    }
    ServiceGraphIsFold(s, catalog, xs);
    ServiceGraphIsFold(s, catalog, ys);
    FoldIgnoresOrder(step, map[], xs, ys);
  }

  lemma SnapshotOfFlowsIgnoresOrder(global: Addr -> bool, prices: Prices, cl: Cluster, xs: seq<Flow>, ys: seq<Flow>)
    requires multiset(xs) == multiset(ys)
    ensures SnapshotOf(global, prices, cl, Collection(map[], xs)) == SnapshotOf(global, prices, cl, Collection(map[], ys))
  {
    hide AggregateFlows, BookedPods, CostsFor, Graph, ServiceGraph, SortedValues, Sort, ClassList, ConnectionList,
      NodeViews, NetViews, UsageStep, StartBooks, IndexOf;
    var s := SettingFor(global, prices, cl);
    AggregateIsFold(global, s.index.info, xs);
    AggregateIsFold(global, s.index.info, ys);
    UsageStepsCommute(global, s.index.info);
    FoldIgnoresOrder(UsageStep(global, s.index.info), map[], xs, ys);
    GraphIgnoresOrder(s, PodLevel, xs, ys);
    GraphIgnoresOrder(s, NamespaceLevel, xs, ys);
    GraphIgnoresOrder(s, WorkloadLevel, xs, ys);
    ServiceGraphIgnoresOrder(s, cl.catalog, xs, ys);
  }

  /** The flows come out of a kernel map in no particular order; the snapshot is the same for every
      order, with or without the collector's usage. */
  lemma SnapshotIgnoresFlowOrder(global: Addr -> bool, prices: Prices, cl: Cluster, c: Collection, d: Collection)
    requires c.podUsage == map[] || Collected(global, cl, c)
    requires d.podUsage == map[] || Collected(global, cl, d)
    requires multiset(c.flows) == multiset(d.flows)
    ensures SnapshotOf(global, prices, cl, c) == SnapshotOf(global, prices, cl, d)
  {
    hide SnapshotOf, Collected;
    FromFlowsAlone(global, prices, cl, c);
    FromFlowsAlone(global, prices, cl, d);
    SnapshotOfFlowsIgnoresOrder(global, prices, cl, c.flows, d.flows);
  }

  lemma FromFlowsAlone(global: Addr -> bool, prices: Prices, cl: Cluster, c: Collection)
    requires c.podUsage == map[] || Collected(global, cl, c)
    ensures SnapshotOf(global, prices, cl, c) == SnapshotOf(global, prices, cl, Collection(map[], c.flows))
  {
    hide SnapshotOf, Collected;
    if c.podUsage != map[] {
      UsageIsRedundant(global, prices, cl, c);
    } else {
      assert c == Collection(map[], c.flows);
    }
  }

  // ---------------------------------------------------------------- balance

  /** Class entries that add up. */
  ghost predicate Whole(u: Usage)
  {
    && u.txByClass.Keys == u.rxByClass.Keys != {}
    && Total(Received(u.txByClass)).rx == u.tx && Total(Received(u.rxByClass)).rx == u.rx
  }

  lemma ReceivedPost(m: map<string, nat>, cls: string, n: nat)
    ensures Total(Received(m[cls := CountOf(m, cls) + n])).rx == Total(Received(m)).rx + n
  {
    var a := Amount(0, n, 0.0);
    assert Received(m[cls := CountOf(m, cls) + n]) == Post(Received(m), cls, a);
    hide Received, Total, Post;
    TotalPost(Received(m), cls, a);
  }

  lemma AddKeepsWhole(u: Usage, cls: string, tx: nat, rx: nat)
    requires Whole(u) || u == NO_USAGE
    ensures Whole(AddFlow(u, cls, tx, rx))
  {
    NothingReceived();
    ReceivedPost(u.txByClass, cls, tx);
    ReceivedPost(u.rxByClass, cls, rx);
    hide Received, Total;
    assert cls in AddFlow(u, cls, tx, rx).txByClass;
  }

  lemma {:induction false} AggregatedIsWhole(global: Addr -> bool, flows: seq<Flow>, podByIP: map<Addr, PodInfo>, key: string)
    ensures var u := UsageOf(AggregateFlows(global, flows, podByIP), key);
            Whole(u) || u == NO_USAGE
  {
    hide ClassifyEgress, AddFlow, Whole;
    if flows != [] {
      AggregatedIsWhole(global, flows[..|flows| - 1], podByIP, key);
      var flow := flows[|flows| - 1];
      if flow.src in podByIP {
        var src := podByIP[flow.src];
        if PodKey(src.namespace, src.pod) == key {
          AddKeepsWhole(UsageOf(AggregateFlows(global, flows[..|flows| - 1], podByIP), key),
            ClassifyEgress(global, src, flow.dst, podByIP), flow.tx, flow.rx);
        }
      }
    }
  }

  lemma RefinedIsBalanced(prices: Prices, kept: Usage, full: Usage)
    requires UsageRefines(kept, full) && Whole(full)
    ensures Balanced(kept)
  {
    assert Balanced(full);
    hide UsageRefines, Whole, Balanced, Classes, AmountUsed, Total;
    SameClasses(prices, kept, full);
    SameAmount(prices, kept, full);
    SameAmountIffBalanced(prices, full);
    SameAmountIffBalanced(prices, kept);
  }

  /** Usage that comes from flows adds up, whether recomputed or collected alongside. */
  lemma FlowUsageIsBalanced(global: Addr -> bool, prices: Prices, cl: Cluster, c: Collection)
    requires c.podUsage == map[] || Collected(global, cl, c)
    ensures AllBalanced(UsageFrom(global, InfoByIP(Zones(cl.nodes), cl.pods), c), cl.pods)
  {
    var info := InfoByIP(Zones(cl.nodes), cl.pods);
    var full := AggregateFlows(global, c.flows, info);
    if c.podUsage != map[] {
      CollectedRefines(global, cl, c);
    }
    forall p | p in cl.pods && !Skip(p) ensures Balanced(UsageOf(UsageFrom(global, info, c), KeyOf(p))) {
      AggregatedIsWhole(global, c.flows, info, KeyOf(p));
      NothingReceived();
      if c.podUsage != map[] && KeyOf(p) in full {
        hide UsageRefines, Balanced, Collected, AggregateFlows, ClassifyEgress;
        NotEmptyUsage(c.podUsage[KeyOf(p)], full[KeyOf(p)]);
        RefinedIsBalanced(prices, c.podUsage[KeyOf(p)], full[KeyOf(p)]);
      }
    }
  }

  lemma NotEmptyUsage(kept: Usage, full: Usage)
    requires UsageRefines(kept, full)
    ensures full != NO_USAGE
  {
  }

  // ---------------------------------------------------------------- sums over the published lists

  function OfClass(): ClassTotals -> Amount
  {
    (t: ClassTotals) => t.amount
  }

  function OfNet(): NsNetView -> Amount
  {
    (v: NsNetView) => v.amount
  }

  function NetOf(): NsRecord -> Amount
  {
    (r: NsRecord) => r.net
  }

  function LoadIn(): NsRecord -> Amount
  {
    (r: NsRecord) => r.load
  }

  function UsageIn(): NsRecord -> Amount
  {
    (r: NsRecord) => r.usage
  }

  /** The five lists and totals of traffic in a snapshot. */
  ghost predicate BytesBalance(s: Snapshot)
  {
    SumOf(OfPod(), s.pods) == s.network == SumOf(NetOf(), s.namespaces)
  }

  ghost predicate ClassesBalance(s: Snapshot)
  {
    SumOf(OfClass(), s.byClass) == SumOf(OfNet(), s.namespaceNets)
  }

  lemma ClassListSum(totals: map<string, Amount>)
    ensures SumOf(OfClass(), ClassList(totals)) == Total(totals)
  {
    PublishedSum(ByName(ByClassName()), Titled(totals), OfClass());
    assert Amounts(Titled(totals), OfClass()) == totals;
  }

  lemma NetListSum(nets: map<string, NsNet>)
    ensures SumOf(OfNet(), SortedValues(ByName(NameOfNet()), NetViews(nets))) == Total(NetAmounts(nets))
  {
    hide ClassList;
    PublishedSum(ByName(NameOfNet()), NetViews(nets), OfNet());
    assert Amounts(NetViews(nets), OfNet()) == NetAmounts(nets);
  }

  lemma NamespaceListSum(costs: map<string, NsRecord>)
    ensures SumOf(NetOf(), SortedValues(ByName(NameOfNamespace()), costs)) == Total(Nets(costs))
    ensures SumOf(LoadIn(), SortedValues(ByName(NameOfNamespace()), costs)) == Total(Loads(costs))
    ensures SumOf(UsageIn(), SortedValues(ByName(NameOfNamespace()), costs)) == Total(Usages(costs))
  {
    hide Nets, Loads, Usages, Amounts, Total, SumOf, SortedValues, ByName;
    PublishedSum(ByName(NameOfNamespace()), costs, NetOf());
    PublishedSum(ByName(NameOfNamespace()), costs, LoadIn());
    PublishedSum(ByName(NameOfNamespace()), costs, UsageIn());
    NamespaceAmounts(costs);
  }

  lemma NamespaceAmounts(costs: map<string, NsRecord>)
    ensures Amounts(costs, NetOf()) == Nets(costs)
    ensures Amounts(costs, LoadIn()) == Loads(costs)
    ensures Amounts(costs, UsageIn()) == Usages(costs)
  {
  }

  ghost function BooksOf(global: Addr -> bool, prices: Prices, cl: Cluster, c: Collection): Books
  {
    BooksFor(prices, cl, UsageFrom(global, InfoByIP(Zones(cl.nodes), cl.pods), c))
  }

  /** For any usage whatever, the pod list, the namespace list and the cluster totals of a snapshot
      agree on bytes and cost, the class list and the namespace network list agree with each other,
      and on cost all five agree. */
  lemma PublishedViewsAgree(global: Addr -> bool, prices: Prices, cl: Cluster, c: Collection)
    ensures var s := SnapshotOf(global, prices, cl, c);
            BytesBalance(s) && ClassesBalance(s) && SumOf(OfClass(), s.byClass).cost == s.network.cost
  {
    var usage := UsageFrom(global, InfoByIP(Zones(cl.nodes), cl.pods), c);
    CostsNamed(cl);
    StartHasNamespaces(cl);
    var b := BooksOf(global, prices, cl, c);
    hide BookedPods, StartBooks, UsageFrom, CostsFor, Graph, ServiceGraph, ConnectionList, ClassList, NodeViews, NetViews,
      Nets, NetAmounts, Total, Column, Sort, SortedValues;
    ViewsAgree(prices, StartBooks(cl), usage, cl.pods);
    CostsAlwaysAgree(prices, StartBooks(cl), usage, cl.pods);
    ClassListSum(b.accounts.byClass);
    NetListSum(b.accounts.nets);
    NamespaceListSum(b.costs);
    SumOfPermuted(OfPod(), Sort(PodLess, b.pods), b.pods);
  }

  /** When the traffic comes from flows, the five agree on everything. */
  lemma AllPublishedViewsAgree(global: Addr -> bool, prices: Prices, cl: Cluster, c: Collection)
    requires c.podUsage == map[] || Collected(global, cl, c)
    ensures var s := SnapshotOf(global, prices, cl, c);
            BytesBalance(s) && ClassesBalance(s) && SumOf(OfClass(), s.byClass) == s.network
  {
    PublishedViewsAgree(global, prices, cl, c);
    var usage := UsageFrom(global, InfoByIP(Zones(cl.nodes), cl.pods), c);
    FlowUsageIsBalanced(global, prices, cl, c);
    CostsNamed(cl);
    StartHasNamespaces(cl);
    var b := BooksOf(global, prices, cl, c);
    hide BookedPods, StartBooks, UsageFrom, CostsFor, Graph, ServiceGraph, ConnectionList, ClassList, NodeViews, NetViews,
      Nets, NetAmounts, Total, Sort, SortedValues, BytesBalance, ClassesBalance, Collected, AllBalanced;
    AllViewsAgree(prices, StartBooks(cl), usage, cl.pods);
    ClassListSum(b.accounts.byClass);
  }

  // ---------------------------------------------------------------- costs

  lemma {:induction false} BookingKeepsLoads(prices: Prices, b: Books, usage: map<string, Usage>, pods: seq<Pod>)
    requires forall p :: p in pods && !Skip(p) ==> p.namespace in b.costs
    ensures Loads(BookedPods(prices, b, usage, pods).costs) == Loads(b.costs)
    ensures Usages(BookedPods(prices, b, usage, pods).costs) == Usages(b.costs)
  {
    hide Classes, AmountUsed, ClassList, Booked;
    if pods != [] {
      BookingKeepsLoads(prices, b, usage, pods[..|pods| - 1]);
      if !Skip(pods[|pods| - 1]) {
        assert pods[|pods| - 1] in pods;
      }
    }
  }

  /** The published namespaces carry the requests and the usage of the cluster. */
  lemma PublishedLoadsAgree(global: Addr -> bool, prices: Prices, cl: Cluster, c: Collection)
    ensures var s := SnapshotOf(global, prices, cl, c);
            && SumOf(LoadIn(), s.namespaces) == s.requests.(cost := SumOf(LoadIn(), s.namespaces).cost)
            && SumOf(UsageIn(), s.namespaces) == s.usage
            && SumOf(LoadIn(), s.namespaces) == Total(Loads(CostsFor(cl).namespaces))
  {
    var usage := UsageFrom(global, InfoByIP(Zones(cl.nodes), cl.pods), c);
    StartHasNamespaces(cl);
    var b := BooksOf(global, prices, cl, c);
    NamespacesMakeTheCluster(cl.namespaces, cl.nodes, cl.measured, cl.pods);
    hide BookedPods, UsageFrom, CountPods, Graph, ServiceGraph, ConnectionList, ClassList, NodeViews, NetViews,
      Loads, Usages, Total, Sort, SortedValues;
    BookingKeepsLoads(prices, StartBooks(cl), usage, cl.pods);
    NamespaceListSum(b.costs);
  }

  /** When clipped requests fit their nodes, the published namespaces are together charged at most the
      published total node cost. */
  lemma PublishedChargesFit(global: Addr -> bool, prices: Prices, cl: Cluster, c: Collection)
    requires PricesAtLeastZero(cl.nodes) && Fits(NodeRecords(cl.nodes), cl.pods)
    ensures var s := SnapshotOf(global, prices, cl, c);
            SumOf(LoadIn(), s.namespaces).cost <= s.totalNodeCost
  {
    PublishedLoadsAgree(global, prices, cl, c);
    ChargedAtMostNodeCost(cl.namespaces, cl.nodes, cl.measured, cl.pods);
    hide BookedPods, UsageFrom, CountPods, Graph, ServiceGraph, ConnectionList, ClassList, NodeViews, NetViews,
      Loads, Total, Sort, SortedValues, Fits, NodeRecords;
  }

  // ---------------------------------------------------------------- pods against connections

  function Source(): ConnKey -> Endpoint
  {
    (k: ConnKey) => k.src
  }

  /** The sum of the pod connections that leave a pod. */
  ghost function Leaving(s: Setting, flows: seq<Flow>, namespace: string, name: string): Amount
    requires ValidIndex(s.index)
  {
    At(Regroup(Graph(s, PodLevel, flows), Source()), Endpoint("pod", namespace, name))
  }

  /** Different pods have different keys. */
  ghost predicate KeysTellPodsApart(pods: seq<Pod>)
  {
    forall p, q :: p in pods && q in pods && KeyOf(p) == KeyOf(q) ==> p.namespace == q.namespace && p.name == q.name
  }

  lemma LeavingGrows(s: Setting, flows: seq<Flow>, namespace: string, name: string)
    requires ValidIndex(s.index) && flows != []
    ensures var init, flow := flows[..|flows| - 1], flows[|flows| - 1];
            Leaving(s, flows, namespace, name) ==
              if flow.src in s.index.podByIP &&
                 s.index.podByIP[flow.src].namespace == namespace && s.index.podByIP[flow.src].name == name
              then Plus(Leaving(s, init, namespace, name), AmountOf(s, flow))
              else Leaving(s, init, namespace, name)
  {
    hide ClassOf, Graph, Regroup, Post, AmountOf;
    var n, flow := |flows| - 1, flows[|flows| - 1];
    assert flows[..n + 1] == flows;
    GraphGrows(s, PodLevel, flows, n);
    if flow.src in s.index.podByIP {
      var e, g := FlowEntry(s, PodLevel, flow), Graph(s, PodLevel, flows[..n]);
      RegroupPost(g, e.0, e.1, Source());
      PostAt(Regroup(g, Source()), Source()(e.0), e.1, Endpoint("pod", namespace, name));
    }
  }

  lemma AddUsed(prices: Prices, u: Usage, cls: string, tx: nat, rx: nat)
    requires Whole(u) || u == NO_USAGE
    ensures AmountUsed(prices, AddFlow(u, cls, tx, rx)) ==
      Plus(AmountUsed(prices, u), Amount(tx, rx, EgressCost(prices, cls, tx)))
  {
    var a := Amount(tx, 0, EgressCost(prices, cls, tx));
    SentPost(prices, u.txByClass, cls, tx);
    AddedIsEffective(u, cls, tx, rx);
    hide Sent, Total, Post, EgressCost, Effective, AddFlow, Whole;
    TotalPost(Sent(prices, u.txByClass), cls, a);
  }

  lemma AddedIsEffective(u: Usage, cls: string, tx: nat, rx: nat)
    requires Whole(u) || u == NO_USAGE
    ensures var v := AddFlow(u, cls, tx, rx);
            && Effective(u) == u && Effective(v) == v && v.tx == u.tx + tx && v.rx == u.rx + rx
            && v.txByClass == u.txByClass[cls := CountOf(u.txByClass, cls) + tx]
  {
    hide Received, Total;
    assert cls in AddFlow(u, cls, tx, rx).txByClass && cls in AddFlow(u, cls, tx, rx).rxByClass;
  }

  lemma SentPost(prices: Prices, m: map<string, nat>, cls: string, tx: nat)
    ensures Sent(prices, m[cls := CountOf(m, cls) + tx]) == Post(Sent(prices, m), cls, Amount(tx, 0, EgressCost(prices, cls, tx)))
  {
    EgressCostAdds(prices, cls, CountOf(m, cls), tx);
    hide EgressCost;
  }

  lemma {:induction false} UsageIsLeaving(global: Addr -> bool, prices: Prices, cl: Cluster, flows: seq<Flow>, p: Pod)
    requires KeysTellPodsApart(cl.pods) && p in cl.pods
    ensures var s := SettingFor(global, prices, cl);
            AmountUsed(prices, UsageOf(AggregateFlows(global, flows, s.index.info), KeyOf(p))) ==
              Leaving(s, flows, p.namespace, p.name)
  {
    var s := SettingFor(global, prices, cl);
    hide ClassifyEgress, AddFlow, Graph, Regroup, EgressCost, AmountUsed, Leaving, Whole, PodKey;
    if flows == [] {
      NothingLeaves(s, prices, p.namespace, p.name);
    } else {
      var init, flow := flows[..|flows| - 1], flows[|flows| - 1];
      UsageIsLeaving(global, prices, cl, init, p);
      LeavingGrows(s, flows, p.namespace, p.name);
      if flow.src in s.index.podByIP {
        PodsByIPHas(cl.pods, flow.src);
        var q := s.index.podByIP[flow.src];
        if KeyOf(q) == KeyOf(p) {
          var u := UsageOf(AggregateFlows(global, init, s.index.info), KeyOf(p));
          AggregatedIsWhole(global, init, s.index.info, KeyOf(p));
          AddUsed(prices, u, ClassOf(s, flow), flow.tx, flow.rx);
        }
      }
    }
  }

  lemma NothingLeaves(s: Setting, prices: Prices, namespace: string, name: string)
    requires ValidIndex(s.index)
    ensures Leaving(s, [], namespace, name) == ZERO && AmountUsed(prices, NO_USAGE) == ZERO
  {
    NoFlows(s, PodLevel);
  }

  lemma {:induction false} RecordsComeFromPods(prices: Prices, b: Books, usage: map<string, Usage>, pods: seq<Pod>, r: PodNet)
    returns (p: Pod)
    requires forall p :: p in pods && !Skip(p) ==> p.namespace in b.costs
    requires b.pods == [] && r in BookedPods(prices, b, usage, pods).pods
    ensures p in pods && !Skip(p) && r.namespace == p.namespace && r.pod == p.name
    ensures r.amount == AmountUsed(prices, UsageOf(usage, KeyOf(p)))
  {
    hide Classes, AmountUsed, ClassList, Booked;
    var init, last := pods[..|pods| - 1], pods[|pods| - 1];
    assert last in pods;
    if !Skip(last) && BookedPods(prices, b, usage, pods).pods[|BookedPods(prices, b, usage, init).pods|] == r {
      p := last;
    } else {
      p := RecordsComeFromPods(prices, b, usage, init, r);
    }
  }

  lemma RecordsFromFlows(global: Addr -> bool, prices: Prices, cl: Cluster, flows: seq<Flow>, r: PodNet)
    requires KeysTellPodsApart(cl.pods)
    requires r in BooksOf(global, prices, cl, Collection(map[], flows)).pods
    ensures r.amount == Leaving(SettingFor(global, prices, cl), flows, r.namespace, r.pod)
  {
    var usage := AggregateFlows(global, flows, InfoByIP(Zones(cl.nodes), cl.pods));
    StartHasNamespaces(cl);
    hide BookedPods, CostsFor, AggregateFlows, KeysTellPodsApart, AmountUsed, Leaving;
    var p := RecordsComeFromPods(prices, StartBooks(cl), usage, cl.pods, r);
    UsageIsLeaving(global, prices, cl, flows, p);
  }

  lemma PublishedPods(global: Addr -> bool, prices: Prices, cl: Cluster, c: Collection, r: PodNet)
    ensures r in SnapshotOf(global, prices, cl, c).pods ==> r in BooksOf(global, prices, cl, c).pods
  {
    hide BooksFor, CostsFor, AggregateFlows, Graph, ServiceGraph, ConnectionList, ClassList, NodeViews, NetViews,
      Sort, SortedValues;
    var pods := Sort(PodLess, BooksOf(global, prices, cl, c).pods);
    assert r in pods <==> r in multiset(pods);
  }

  /** The amounts of the listed connections whose source is `e`. */
  function FromSource(e: Endpoint): Connection -> Amount
  {
    (c: Connection) => if c.source == e then c.amount else ZERO
  }

  /** Summing the published list from a source is looking the source up in the regrouped ledger. */
  lemma ListFromSource(ledger: map<ConnKey, Amount>, e: Endpoint)
    ensures SumOf(FromSource(e), ConnectionList(ledger)) == At(Regroup(ledger, Source()), e)
  {
    var picked, fibre := Amounts(Recorded(ledger), FromSource(e)), Fibre(ledger, Source(), e);
    hide SumOf, SortedValues, ConnLess;
    PublishedSum(ConnLess, Recorded(ledger), FromSource(e));
    RegroupAt(ledger, Source(), e);
    forall k | k in ledger.Keys - fibre ensures At(picked, k) == ZERO {
      assert Recorded(ledger)[k].source == k.src;
    }
    TotalAtMissing(picked, fibre, ledger.Keys - fibre);
    assert fibre + (ledger.Keys - fibre) == picked.Keys;
    TotalAtAgree(picked, ledger, fibre);
  }

  lemma PodRecordIsItsConnections(global: Addr -> bool, prices: Prices, cl: Cluster, c: Collection, r: PodNet)
    requires c.podUsage == map[] || Collected(global, cl, c)
    requires KeysTellPodsApart(cl.pods)
    ensures r in SnapshotOf(global, prices, cl, c).pods ==>
      r.amount == SumOf(FromSource(Endpoint("pod", r.namespace, r.pod)), SnapshotOf(global, prices, cl, c).podConnections)
  {
    var s := SettingFor(global, prices, cl);
    ListFromSource(Graph(s, PodLevel, c.flows), Endpoint("pod", r.namespace, r.pod));
    assert SnapshotOf(global, prices, cl, c).podConnections == ConnectionList(Graph(s, PodLevel, c.flows));
    hide SnapshotOf, BooksOf, KeysTellPodsApart, Collected, Graph, ConnectionList, SumOf, Regroup;
    if r in SnapshotOf(global, prices, cl, c).pods {
      FromFlowsAlone(global, prices, cl, c);
      PublishedPods(global, prices, cl, Collection(map[], c.flows), r);
      RecordsFromFlows(global, prices, cl, c.flows, r);
    }
  }

  /** Every published pod record is the sum of the published pod connections that leave the pod:
      bytes sent, bytes received and egress cost. */
  lemma PodRecordsAreTheirConnections(global: Addr -> bool, prices: Prices, cl: Cluster, c: Collection)
    requires c.podUsage == map[] || Collected(global, cl, c)
    requires KeysTellPodsApart(cl.pods)
    ensures var s := SnapshotOf(global, prices, cl, c);
            forall r :: r in s.pods ==>
              r.amount == SumOf(FromSource(Endpoint("pod", r.namespace, r.pod)), s.podConnections)
  {
    hide SnapshotOf, KeysTellPodsApart, Collected, SumOf;
    var s := SnapshotOf(global, prices, cl, c);
    forall r | r in s.pods
      ensures r.amount == SumOf(FromSource(Endpoint("pod", r.namespace, r.pod)), s.podConnections)
    {
      PodRecordIsItsConnections(global, prices, cl, c, r);
    }
  }

  function Counted(pods: seq<Pod>): nat
  {
    if pods == [] then 0
    else Counted(pods[..|pods| - 1]) + if Skip(pods[|pods| - 1]) then 0 else 1
  }

  ghost predicate HasRecord(records: seq<PodNet>, p: Pod)
  {
    exists r :: r in records && r.namespace == p.namespace && r.pod == p.name && r.node == p.node
  }

  lemma {:induction false} PodsAreBooked(prices: Prices, b: Books, usage: map<string, Usage>, pods: seq<Pod>)
    requires forall p :: p in pods && !Skip(p) ==> p.namespace in b.costs
    requires b.pods == []
    ensures var r := BookedPods(prices, b, usage, pods);
            |r.pods| == Counted(pods) && forall p :: p in pods && !Skip(p) ==> HasRecord(r.pods, p)
  {
    hide Classes, AmountUsed, ClassList, Booked;
    if pods != [] {
      var init, last := pods[..|pods| - 1], pods[|pods| - 1];
      PodsAreBooked(prices, b, usage, init);
      assert pods == init + [last];
      var before, after := BookedPods(prices, b, usage, init).pods, BookedPods(prices, b, usage, pods).pods;
      if !Skip(last) {
        assert last in pods;
        assert after[..|before|] == before && after[|before|] in after;
        assert HasRecord(after, last);
      }
      forall p | p in init && !Skip(p) ensures HasRecord(after, p) {
        assert HasRecord(before, p);
        var r :| r in before && r.namespace == p.namespace && r.pod == p.name && r.node == p.node;
        assert r in after;
      }
    }
  }

  /** Every pod that is not skipped has a published record, and there are no others. */
  lemma CountedPodsArePublished(global: Addr -> bool, prices: Prices, cl: Cluster, c: Collection)
    ensures var s := SnapshotOf(global, prices, cl, c);
            |s.pods| == Counted(cl.pods) && forall p :: p in cl.pods && !Skip(p) ==> HasRecord(s.pods, p)
  {
    var usage := UsageFrom(global, InfoByIP(Zones(cl.nodes), cl.pods), c);
    StartHasNamespaces(cl);
    var records := BooksOf(global, prices, cl, c).pods;
    hide BookedPods, UsageFrom, CostsFor, Graph, ServiceGraph, ConnectionList, ClassList, NodeViews, NetViews,
      Sort, SortedValues, HasRecord;
    PodsAreBooked(prices, StartBooks(cl), usage, cl.pods);
    assert |multiset(Sort(PodLess, records))| == |multiset(records)|;
    forall p | p in cl.pods && !Skip(p) ensures HasRecord(Sort(PodLess, records), p) {
      RecordsPermuted(records, Sort(PodLess, records), p);
    }
  }

  lemma RecordsPermuted(xs: seq<PodNet>, ys: seq<PodNet>, p: Pod)
    requires multiset(xs) == multiset(ys) && HasRecord(xs, p)
    ensures HasRecord(ys, p)
  {
    var r :| r in xs && r.namespace == p.namespace && r.pod == p.name && r.node == p.node;
    assert r in multiset(ys);
  }
}
