/** The cost aggregator: one pass over the pods that groups the same costs by pod, namespace,
    node, label and cluster, and from the nodes by instance type.

    `CostIsOneNumber` says that the groupings conserve the cost and that it is the cost of the
    total usage; `LabelTotals` what the label view adds up to. */
module Aggregator {
  import opened Ledger
  import opened Order
  import Network
  import NodeCosts

  /** Prices per core hour and per GiB hour. */
  datatype Rates = Rates(core: real, gib: real)

  function CostFor(rates: Rates, cpuMilli: int, memoryBytes: int): real
  {
    cpuMilli as real / 1000.0 * rates.core + memoryBytes as real / Network.GIB * rates.gib
  }

  type Labels = map<string, string>

  datatype PodSpec = PodSpec(
    namespace: string,
    name: string,
    node: string,
    labels: Labels,
    ownerKind: string,
    ownerName: string,
    containers: seq<(int, int)>)

  datatype NodeSpec = NodeSpec(name: string, instanceType: string)

  /** Namespaces carry a name and labels; `measured` is CPU and memory by pod key. */
  datatype Cluster = Cluster(
    namespaces: seq<(string, Labels)>,
    nodes: seq<NodeSpec>,
    pods: seq<PodSpec>,
    measured: NodeCosts.Measured)

  /** `merge` is the label enricher; `nodePrices` the node pricer, empty when there is none. */
  datatype Tariff = Tariff(rates: Rates, nodePrices: map<string, real>, merge: (Labels, Labels) -> Labels)

  /** `amount` is CPU and memory used and the hourly cost; `requests` has no cost. */
  datatype PodCost = PodCost(
    namespace: string,
    pod: string,
    node: string,
    amount: Amount,
    requests: Amount,
    labels: Labels,
    ownerKind: string,
    ownerName: string)

  datatype NamespaceCost = NamespaceCost(namespace: string, podCount: nat, amount: Amount, requests: Amount, labels: Labels)

  /** `amount` is CPU and memory used and the allocated cost. */
  datatype NodeCost = NodeCost(name: string, instanceType: string, price: real, amount: Amount)

  datatype LabelCost = LabelCost(key: string, value: string, amount: Amount)

  datatype TypeCost = TypeCost(instanceType: string, nodeCount: int, price: real, allocatedCost: real)

  datatype Data = Data(
    cost: real,
    requests: Amount,
    podCount: nat,
    nodeCount: nat,
    namespaces: seq<NamespaceCost>,
    pods: seq<PodCost>,
    nodes: seq<NodeCost>,
    labels: seq<LabelCost>,
    byType: seq<TypeCost>,
    costByLabel: map<string, seq<LabelCost>>)

  const NO_DATA := Data(0.0, ZERO, 0, 0, [], [], [], [], [], map[])

  // ---------------------------------------------------------------- one pod

  function NamespaceLabels(namespaces: seq<(string, Labels)>): map<string, Labels>
  {
    if namespaces == [] then map[]
    else
      var last := namespaces[|namespaces| - 1];
      NamespaceLabels(namespaces[..|namespaces| - 1])[last.0 := last.1]
  }

  function NodePrice(t: Tariff, instanceType: string): real
  {
    if instanceType != "" && instanceType in t.nodePrices then t.nodePrices[instanceType] else 0.0
  }

  function Prepared(t: Tariff, nodes: seq<NodeSpec>): map<string, NodeCost>
  {
    if nodes == [] then map[]
    else
      var n := nodes[|nodes| - 1];
      Prepared(t, nodes[..|nodes| - 1])[n.name := NodeCost(n.name, n.instanceType, NodePrice(t, n.instanceType), ZERO)]
  }

  /** Usage falls back to the request where there is no reading, and is what costs. */
  function Costed(t: Tariff, nsLabels: map<string, Labels>, measured: NodeCosts.Measured, pod: PodSpec): PodCost
  {
    var requests := NodeCosts.Requests(pod.containers);
    var key := Network.PodKey(pod.namespace, pod.name);
    var reading := if key in measured then measured[key] else (0, 0);
    var cpu := if reading.0 == 0 then requests.tx else reading.0;
    var memory := if reading.1 == 0 then requests.rx else reading.1;
    var own := if pod.namespace in nsLabels then nsLabels[pod.namespace] else map[];
    PodCost(pod.namespace, pod.name, pod.node, Amount(cpu, memory, CostFor(t.rates, cpu, memory)), requests,
            t.merge(own, pod.labels), pod.ownerKind, pod.ownerName)
  }

  // ---------------------------------------------------------------- the loop

  type LabelKey = (string, string)

  /** `used` is what the program keeps as usage per node until the end. */
  datatype Books = Books(
    pods: seq<PodCost>,
    namespaces: map<string, NamespaceCost>,
    nodes: map<string, NodeCost>,
    labels: map<LabelKey, Amount>,
    used: map<string, Amount>,
    requests: Amount,
    cost: real)

  function CostOnly(a: Amount): Amount
  {
    Amount(0, 0, a.cost)
  }

  function UsageOnly(a: Amount): Amount
  {
    Amount(a.tx, a.rx, 0.0)
  }

  /** The label view of one pod: its cost under every label with a value. */
  function LabelLedger(p: PodCost): map<LabelKey, Amount>
  {
    map l | l in p.labels.Items && l.1 != "" :: CostOnly(p.amount)
  }

  function BookNamespace(namespaces: map<string, NamespaceCost>, p: PodCost): map<string, NamespaceCost>
  {
    var n := if p.namespace in namespaces then namespaces[p.namespace] else NamespaceCost(p.namespace, 0, ZERO, ZERO, p.labels);
    namespaces[p.namespace :=
      n.(podCount := n.podCount + 1, amount := Plus(n.amount, p.amount), requests := Plus(n.requests, p.requests))]
  }

  function BookNode(nodes: map<string, NodeCost>, p: PodCost): map<string, NodeCost>
  {
    var n := if p.node in nodes then nodes[p.node] else NodeCost(p.node, "", 0.0, ZERO);
    nodes[p.node := n.(amount := Plus(n.amount, CostOnly(p.amount)))]
  }

  function Book(b: Books, p: PodCost): Books
  {
    Books(b.pods + [p], BookNamespace(b.namespaces, p), BookNode(b.nodes, p), Merge(b.labels, LabelLedger(p)),
          Post(b.used, p.node, UsageOnly(p.amount)), Plus(b.requests, p.requests), b.cost + p.amount.cost)
  }

  function BookAll(t: Tariff, cl: Cluster, pods: seq<PodSpec>): Books
  {
    if pods == [] then Books([], map[], Prepared(t, cl.nodes), map[], map[], ZERO, 0.0)
    else
      Book(BookAll(t, cl, pods[..|pods| - 1]),
           Costed(t, NamespaceLabels(cl.namespaces), cl.measured, pods[|pods| - 1]))
  }

  /** The label loop over one pod, in any order. */
  method BookLabels(labels: map<LabelKey, Amount>, p: PodCost) returns (r: map<LabelKey, Amount>)
    ensures r == Merge(labels, LabelLedger(p))
  {
    r := labels;
    var todo := p.labels.Keys;
    ghost var seen: map<LabelKey, Amount> := map[];
    MergeNothing(labels);
    while todo != {}
      invariant todo <= p.labels.Keys
      invariant r == Merge(labels, seen)
      invariant seen == map l | l in LabelLedger(p) && l.0 !in todo :: CostOnly(p.amount)
      decreases todo
    {
      var k :| k in todo;
      var v := p.labels[k];
      ghost var before := seen;
      seen := map l | l in LabelLedger(p) && l.0 !in todo - {k} :: CostOnly(p.amount);
      LabelTurn(p, todo, k, before, seen);
      hide Merge, Post, LabelLedger;
      if v != "" {
        MergePost(labels, before, (k, v), CostOnly(p.amount));
        var booked := At(r, (k, v));
        r := r[(k, v) := Amount(booked.tx, booked.rx, booked.cost + p.amount.cost)];
        assert r == Post(Merge(labels, before), (k, v), CostOnly(p.amount)) by {
          PostCost(Merge(labels, before), (k, v), p.amount);
        }
      }
      todo := todo - {k};
    }
    assert seen == LabelLedger(p);
  }

  lemma PostCost<K>(m: map<K, Amount>, k: K, a: Amount)
    ensures Post(m, k, CostOnly(a)) == m[k := Amount(At(m, k).tx, At(m, k).rx, At(m, k).cost + a.cost)]
  {
  }

  lemma LabelTurn(p: PodCost, todo: set<string>, k: string, before: map<LabelKey, Amount>, after: map<LabelKey, Amount>)
    requires todo <= p.labels.Keys && k in todo
    requires before == map l | l in LabelLedger(p) && l.0 !in todo :: CostOnly(p.amount)
    requires after == map l | l in LabelLedger(p) && l.0 !in todo - {k} :: CostOnly(p.amount)
    ensures after == if p.labels[k] != "" then Post(before, (k, p.labels[k]), CostOnly(p.amount)) else before
  {
    var l := (k, p.labels[k]);
    assert l in p.labels.Items;
    assert l !in before;
    forall m: LabelKey ensures m in after <==> m in before || (m == l && p.labels[k] != "") {
    }
    if p.labels[k] != "" {
      PostFresh(before, l, CostOnly(p.amount));
    }
  }

  /** The usage, cost and labels of one pod. */
  method CostPod(t: Tariff, nsLabels: map<string, Labels>, measured: NodeCosts.Measured, pod: PodSpec) returns (p: PodCost)
    ensures p == Costed(t, nsLabels, measured, pod)
  {
    var cpuReq, memReq := NodeCosts.SumPodRequests(pod.containers);
    var key := Network.PodKey(pod.namespace, pod.name);
    var cpuUsage, memUsage := 0, 0;
    if key in measured {
      cpuUsage, memUsage := measured[key].0, measured[key].1;
    }
    if cpuUsage == 0 {
      cpuUsage := cpuReq;
    }
    if memUsage == 0 {
      memUsage := memReq;
    }
    var cost := CostFor(t.rates, cpuUsage, memUsage);
    var labels := t.merge(if pod.namespace in nsLabels then nsLabels[pod.namespace] else map[], pod.labels);
    p := PodCost(pod.namespace, pod.name, pod.node, Amount(cpuUsage, memUsage, cost), Amount(cpuReq, memReq, 0.0), labels,
      pod.ownerKind, pod.ownerName);
  }

  /** One turn of the pod loop. */
  method BookPod(t: Tariff, nsLabels: map<string, Labels>, measured: NodeCosts.Measured, b: Books, pod: PodSpec)
    returns (r: Books)
    ensures r == Book(b, Costed(t, nsLabels, measured, pod))
  {
    hide Merge, LabelLedger, Costed, BookNamespace, BookNode, Post;
    var p := CostPod(t, nsLabels, measured, pod);
    var namespaces := AddToNamespace(b.namespaces, p);
    var nodes := AddToNode(b.nodes, p);
    var labels := BookLabels(b.labels, p);
    var used := Post(b.used, p.node, Amount(p.amount.tx, p.amount.rx, 0.0));
    r := Books(b.pods + [p], namespaces, nodes, labels, used, Plus(b.requests, p.requests), b.cost + p.amount.cost);
  }

  method AddToNamespace(namespaces: map<string, NamespaceCost>, p: PodCost) returns (r: map<string, NamespaceCost>)
    ensures r == BookNamespace(namespaces, p)
  {
    r := namespaces;
    if p.namespace !in r {
      r := r[p.namespace := NamespaceCost(p.namespace, 0, ZERO, ZERO, p.labels)];
    }
    var n := r[p.namespace];
    r := r[p.namespace := NamespaceCost(n.namespace, n.podCount + 1,
      Plus(n.amount, p.amount), Plus(n.requests, p.requests), n.labels)];
  }

  method AddToNode(nodes: map<string, NodeCost>, p: PodCost) returns (r: map<string, NodeCost>)
    ensures r == BookNode(nodes, p)
  {
    r := nodes;
    if p.node !in r {
      r := r[p.node := NodeCost(p.node, "", 0.0, ZERO)];
    }
    var n := r[p.node];
    r := r[p.node := n.(amount := Amount(n.amount.tx, n.amount.rx, n.amount.cost + p.amount.cost))];
  }

  // ---------------------------------------------------------------- the lists

  /** The loop over the usage per node: used CPU and memory replace what the node had. */
  function WithUsage(nodes: map<string, NodeCost>, used: map<string, Amount>): map<string, NodeCost>
  {
    map n | n in nodes ::
      if n in used then nodes[n].(amount := Amount(used[n].tx, used[n].rx, nodes[n].amount.cost)) else nodes[n]
  }

  method SetUsage(nodes: map<string, NodeCost>, used: map<string, Amount>) returns (r: map<string, NodeCost>)
    ensures r == WithUsage(nodes, used)
  {
    r := nodes;
    var todo := used.Keys;
    while todo != {}
      invariant todo <= used.Keys && r.Keys == nodes.Keys
      invariant forall n :: n in nodes && n in todo ==> r[n] == nodes[n]
      invariant forall n :: n in nodes && n !in todo ==> r[n] == WithUsage(nodes, used)[n]
      decreases todo
    {
      var n :| n in todo;
      if n in r {
        r := r[n := r[n].(amount := Amount(used[n].tx, used[n].rx, r[n].amount.cost))];
      }
      todo := todo - {n};
    }
  }

  /** Allocated cost and count of the nodes that have a type. */
  function Typed(nodes: map<string, NodeCost>): map<string, Amount>
  {
    map n | n in nodes && nodes[n].instanceType != "" :: Amount(1, 0, nodes[n].amount.cost)
  }

  function TypedPrices(nodes: map<string, NodeCost>): map<string, Amount>
  {
    map n | n in nodes && nodes[n].instanceType != "" :: Amount(0, 0, nodes[n].price)
  }

  function TypeOf(nodes: map<string, NodeCost>): string -> string
  {
    (n: string) => if n in nodes then nodes[n].instanceType else ""
  }

  function TypeRecords(totals: map<string, Amount>, prices: map<string, Amount>): map<string, TypeCost>
  {
    map k | k in totals :: TypeCost(k, totals[k].tx, At(prices, k).cost, totals[k].cost)
  }

  ghost function Records(nodes: map<string, NodeCost>, f: string -> string): map<string, TypeCost>
  {
    TypeRecords(Regroup(Typed(nodes), f), Regroup(TypedPrices(nodes), f))
  }

  /** The nodes' counts, prices and allocated costs by instance type. */
  ghost function TypeTotals(nodes: map<string, NodeCost>): map<string, TypeCost>
  {
    Records(nodes, TypeOf(nodes))
  }

  lemma SameTypes(nodes: map<string, NodeCost>, f: string -> string)
    ensures Regroup(Typed(nodes), f).Keys == Regroup(TypedPrices(nodes), f).Keys
  {
    assert Typed(nodes).Keys == TypedPrices(nodes).Keys;
    hide Typed, TypedPrices;
  }

  lemma TypedTurn(nodes: map<string, NodeCost>, todo: set<string>, n: string, f: string -> string)
    requires n in nodes && n in todo && nodes[n].instanceType != ""
    ensures Regroup(Typed(nodes - (todo - {n})), f) ==
      Post(Regroup(Typed(nodes - todo), f), f(n), Amount(1, 0, nodes[n].amount.cost))
  {
    var before, a := Typed(nodes - todo), Amount(1, 0, nodes[n].amount.cost);
    PostFresh(before, n, a);
    assert Typed(nodes - (todo - {n})) == Post(before, n, a);
    hide Typed, Post, Regroup;
    RegroupPost(before, n, a, f);
  }

  lemma PricesTurn(nodes: map<string, NodeCost>, todo: set<string>, n: string, f: string -> string)
    requires n in nodes && n in todo && nodes[n].instanceType != ""
    ensures Regroup(TypedPrices(nodes - (todo - {n})), f) ==
      Post(Regroup(TypedPrices(nodes - todo), f), f(n), Amount(0, 0, nodes[n].price))
  {
    var before, a := TypedPrices(nodes - todo), Amount(0, 0, nodes[n].price);
    PostFresh(before, n, a);
    assert TypedPrices(nodes - (todo - {n})) == Post(before, n, a);
    hide TypedPrices, Post, Regroup;
    RegroupPost(before, n, a, f);
  }

  lemma UntypedTurn(nodes: map<string, NodeCost>, todo: set<string>, n: string)
    requires n in nodes && n in todo && nodes[n].instanceType == ""
    ensures Typed(nodes - (todo - {n})) == Typed(nodes - todo)
    ensures TypedPrices(nodes - (todo - {n})) == TypedPrices(nodes - todo)
  {
  }

  function AddType(r: map<string, TypeCost>, k: string, cost: real, price: real): map<string, TypeCost>
  {
    var it := if k in r then r[k] else TypeCost(k, 0, 0.0, 0.0);
    r[k := it.(nodeCount := it.nodeCount + 1, price := it.price + price, allocatedCost := it.allocatedCost + cost)]
  }

  lemma TypeRecordsPost(totals: map<string, Amount>, prices: map<string, Amount>, k: string, cost: real, price: real)
    requires totals.Keys == prices.Keys
    ensures AddType(TypeRecords(totals, prices), k, cost, price) ==
      TypeRecords(Post(totals, k, Amount(1, 0, cost)), Post(prices, k, Amount(0, 0, price)))
  {
  }

  lemma RecordsTurn(nodes: map<string, NodeCost>, todo: set<string>, n: string, f: string -> string)
    requires n in nodes && n in todo
    ensures Records(nodes - (todo - {n}), f) ==
      if nodes[n].instanceType == "" then Records(nodes - todo, f)
      else AddType(Records(nodes - todo, f), f(n), nodes[n].amount.cost, nodes[n].price)
  {
    hide Typed, TypedPrices, Regroup, Post, TypeRecords, AddType;
    if nodes[n].instanceType == "" {
      UntypedTurn(nodes, todo, n);
    } else {
      TypedTurn(nodes, todo, n, f);
      PricesTurn(nodes, todo, n, f);
      SameTypes(nodes - todo, f);
      TypeRecordsPost(Regroup(Typed(nodes - todo), f), Regroup(TypedPrices(nodes - todo), f), f(n),
        nodes[n].amount.cost, nodes[n].price);
    }
  }

  lemma NoRecords(nodes: map<string, NodeCost>, f: string -> string)
    ensures Records(nodes - nodes.Keys, f) == map[]
  {
    assert Typed(nodes - nodes.Keys).Keys == {};
    assert Regroup(Typed(nodes - nodes.Keys), f).Keys == {};
    hide TypedPrices;
  }

  /** The loop over the nodes that fills the instance type totals, in any order. */
  method CollectTypes(nodes: map<string, NodeCost>) returns (r: map<string, TypeCost>)
    ensures r == TypeTotals(nodes)
  {
    hide Records;
    r := map[];
    var todo := nodes.Keys;
    NoRecords(nodes, TypeOf(nodes));
    while todo != {}
      invariant todo <= nodes.Keys
      invariant r == Records(nodes - todo, TypeOf(nodes))
      decreases todo
    {
      var n :| n in todo;
      var node := nodes[n];
      RecordsTurn(nodes, todo, n, TypeOf(nodes));
      if node.instanceType != "" {
        if node.instanceType !in r {
          r := r[node.instanceType := TypeCost(node.instanceType, 0, 0.0, 0.0)];
        }
        var it := r[node.instanceType];
        r := r[node.instanceType :=
          it.(nodeCount := it.nodeCount + 1, price := it.price + node.price,
              allocatedCost := it.allocatedCost + node.amount.cost)];
      }
      todo := todo - {n};
    }
    assert nodes - {} == nodes;
  }

  predicate LabelLess(a: LabelCost, b: LabelCost)
  {
    if a.key == b.key then StrLess(a.value, b.value) else StrLess(a.key, b.key)
  }

  function LabelRecords(labels: map<LabelKey, Amount>): map<LabelKey, LabelCost>
  {
    map l | l in labels :: LabelCost(l.0, l.1, labels[l])
  }

  function KeyAndValue(l: LabelCost): (string, string)
  {
    (l.key, l.value)
  }

  lemma LabelLessIsOrder()
    ensures StrictOrder(LabelLess)
  {
    hide StrLess;
    assert forall a, b :: LabelLess(a, b) <==> PairLess(KeyAndValue(a), KeyAndValue(b));
    hide LabelLess, PairLess;
    forall a ensures !LabelLess(a, a) {
      PairTrichotomy(KeyAndValue(a), KeyAndValue(a));
    }
    forall a, b, c | LabelLess(a, b) && LabelLess(b, c) ensures LabelLess(a, c) {
      PairTransitive(KeyAndValue(a), KeyAndValue(b), KeyAndValue(c));
    }
  }

  lemma LabelsSeparate(labels: map<LabelKey, Amount>)
    ensures KeysSeparate(LabelLess, LabelRecords(labels))
  {
    hide StrLess;
    var m := LabelRecords(labels);
    forall k, l | k in m && l in m && k != l ensures LabelLess(m[k], m[l]) || LabelLess(m[l], m[k]) {
      PairTrichotomy(k, l);
    }
  }

  method FlattenLabels(labels: map<LabelKey, Amount>) returns (r: seq<LabelCost>)
    ensures r == SortedValues(LabelLess, LabelRecords(labels))
  {
    LabelLessIsOrder();
    LabelsSeparate(labels);
    r := Flatten(LabelLess, LabelRecords(labels));
  }

  /** The entries of one label. */
  function Picked(labels: map<LabelKey, Amount>, key: string): map<LabelKey, Amount>
  {
    map l | l in labels && l.0 == key :: labels[l]
  }

  const LISTED_LABELS := ["team", "env"]

  /** The entries of the listed labels that have any, by value. */
  ghost function ByLabel(labels: map<LabelKey, Amount>, keys: seq<string>): map<string, seq<LabelCost>>
  {
    map key | key in keys && Picked(labels, key) != map[] :: SortedValues(LabelLess, LabelRecords(Picked(labels, key)))
  }

  lemma ByLabelSnoc(labels: map<LabelKey, Amount>, keys: seq<string>, i: nat)
    requires i < |keys|
    ensures var values := Picked(labels, keys[i]);
            ByLabel(labels, keys[..i + 1]) ==
              if values == map[] then ByLabel(labels, keys[..i])
              else ByLabel(labels, keys[..i])[keys[i] := SortedValues(LabelLess, LabelRecords(values))]
  {
    hide SortedValues, LabelRecords, LabelLess, Picked;
    assert keys[..i + 1] == keys[..i] + [keys[i]];
  }

  /** `filterCostByLabel`; within one label the order by key and value is the order by value. */
  method FilterCostByLabel(labels: map<LabelKey, Amount>, keys: seq<string>) returns (result: map<string, seq<LabelCost>>)
    ensures result == ByLabel(labels, keys)
  {
    result := map[];
    for i := 0 to |keys|
      invariant result == ByLabel(labels, keys[..i])
    {
      hide SortedValues, LabelRecords, LabelLess, Picked, ByLabel;
      ByLabelSnoc(labels, keys, i);
      var values := Picked(labels, keys[i]);
      if |values| == 0 {
        continue;
      }
      var list := FlattenLabels(values);
      result := result[keys[i] := list];
    }
    assert keys[..|keys|] == keys;
  }

  function NameOfNamespace(): NamespaceCost -> string
  {
    (n: NamespaceCost) => n.namespace
  }

  function NameOfNode(): NodeCost -> string
  {
    (n: NodeCost) => n.name
  }

  function NameOfType(): TypeCost -> string
  {
    (t: TypeCost) => t.instanceType
  }

  ghost function DataOf(t: Tariff, cl: Cluster): Data
  {
    var b := BookAll(t, cl, cl.pods);
    var nodes := WithUsage(b.nodes, b.used);
    Data(b.cost, b.requests, |cl.pods|, |cl.nodes|,
         SortedValues(ByName(NameOfNamespace()), b.namespaces), b.pods,
         SortedValues(ByName(NameOfNode()), nodes),
         SortedValues(LabelLess, LabelRecords(b.labels)),
         SortedValues(ByName(NameOfType()), TypeTotals(nodes)),
         ByLabel(b.labels, LISTED_LABELS))
  }

  ghost predicate WellNamed(b: Books)
  {
    && (forall n :: n in b.namespaces ==> b.namespaces[n].namespace == n)
    && (forall n :: n in b.nodes ==> b.nodes[n].name == n)
  }

  lemma {:induction false} PreparedNamed(t: Tariff, nodes: seq<NodeSpec>)
    ensures forall n :: n in Prepared(t, nodes) ==> Prepared(t, nodes)[n].name == n && Prepared(t, nodes)[n].amount == ZERO
  {
    if nodes != [] {
      PreparedNamed(t, nodes[..|nodes| - 1]);
    }
  }

  lemma {:induction false} BooksNamed(t: Tariff, cl: Cluster, pods: seq<PodSpec>)
    ensures WellNamed(BookAll(t, cl, pods))
  {
    hide WellNamed, Book, Costed;
    if pods == [] {
      NothingNamed(t, cl);
    } else {
      BooksNamed(t, cl, pods[..|pods| - 1]);
      BookNamed(BookAll(t, cl, pods[..|pods| - 1]),
                Costed(t, NamespaceLabels(cl.namespaces), cl.measured, pods[|pods| - 1]));
    }
  }

  lemma NothingNamed(t: Tariff, cl: Cluster)
    ensures WellNamed(BookAll(t, cl, []))
  {
    PreparedNamed(t, cl.nodes);
  }

  lemma BookNamed(b: Books, p: PodCost)
    requires WellNamed(b)
    ensures WellNamed(Book(b, p))
  {
    hide Merge, LabelLedger, Post, Plus;
  }

  class CostAggregator {
    var data: Data
    const tariff: Tariff

    constructor (tariff: Tariff)
      ensures this.tariff == tariff && data == NO_DATA
    {
      this.tariff := tariff;
      data := NO_DATA;
    }

    /** `Aggregate` computes fresh data, keeps it and returns it. */
    method Aggregate(cl: Cluster) returns (result: Data)
      modifies this
      ensures result == data == DataOf(tariff, cl)
    {
      hide Book, Costed, SortedValues, ByLabel, ByName, Flattens, TypeTotals, WithUsage, LabelRecords, LabelLess;
      var nsLabels: map<string, Labels> := map[];
      for i := 0 to |cl.namespaces|
        invariant nsLabels == NamespaceLabels(cl.namespaces[..i])
      {
        assert cl.namespaces[..i + 1][..i] == cl.namespaces[..i];
        nsLabels := nsLabels[cl.namespaces[i].0 := cl.namespaces[i].1];
      }
      assert cl.namespaces[..|cl.namespaces|] == cl.namespaces;
      var nodeMap: map<string, NodeCost> := map[];
      for i := 0 to |cl.nodes|
        invariant nodeMap == Prepared(tariff, cl.nodes[..i])
      {
        assert cl.nodes[..i + 1][..i] == cl.nodes[..i];
        var n := cl.nodes[i];
        nodeMap := nodeMap[n.name := NodeCost(n.name, n.instanceType, NodePrice(tariff, n.instanceType), ZERO)];
      }
      assert cl.nodes[..|cl.nodes|] == cl.nodes;
      var b := Books([], map[], nodeMap, map[], map[], ZERO, 0.0);
      for i := 0 to |cl.pods|
        invariant b == BookAll(tariff, cl, cl.pods[..i])
      {
        assert cl.pods[..i + 1][..i] == cl.pods[..i];
        b := BookPod(tariff, nsLabels, cl.measured, b, cl.pods[i]);
      }
      assert cl.pods[..|cl.pods|] == cl.pods;
      BooksNamed(tariff, cl, cl.pods);
      result := Assemble(b, |cl.pods|, |cl.nodes|);
      data := result;
    }
  }

  method Assemble(b: Books, podCount: nat, nodeCount: nat) returns (result: Data)
    requires WellNamed(b)
    ensures result == Data(b.cost, b.requests, podCount, nodeCount,
      SortedValues(ByName(NameOfNamespace()), b.namespaces), b.pods,
      SortedValues(ByName(NameOfNode()), WithUsage(b.nodes, b.used)),
      SortedValues(LabelLess, LabelRecords(b.labels)),
      SortedValues(ByName(NameOfType()), TypeTotals(WithUsage(b.nodes, b.used))),
      ByLabel(b.labels, LISTED_LABELS))
  {
    hide SortedValues, ByLabel, ByName, Flattens, LabelRecords, LabelLess, Regroup, Typed, TypedPrices;
    var namespaces := FlattenNamed(NameOfNamespace(), b.namespaces);
    var nodeMap := SetUsage(b.nodes, b.used);
    var types := CollectTypes(nodeMap);
    var nodes := FlattenNamed(NameOfNode(), nodeMap);
    var labels := FlattenLabels(b.labels);
    var byType := FlattenNamed(NameOfType(), types);
    var costByLabel := FilterCostByLabel(b.labels, LISTED_LABELS);
    result := Data(b.cost, b.requests, podCount, nodeCount, namespaces, b.pods, nodes, labels, byType, costByLabel);
  }
}
