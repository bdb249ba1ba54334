/** The groupings of the cost aggregator against each other. */
module AggregatorTheorems {
  import opened Aggregator
  import opened Ledger
  import opened Lists
  import Network
  import opened Order

  function OfPod(): PodCost -> Amount
  {
    (p: PodCost) => p.amount
  }

  function OfNamespace(): NamespaceCost -> Amount
  {
    (n: NamespaceCost) => n.amount
  }

  function RequestsOf(): NamespaceCost -> Amount
  {
    (n: NamespaceCost) => n.requests
  }

  function OfNode(): NodeCost -> Amount
  {
    (n: NodeCost) => n.amount
  }

  // ---------------------------------------------------------------- the pass keeps its views in step

  ghost predicate TotalsInStep(b: Books)
  {
    var sum := SumOf(OfPod(), b.pods);
    && Total(Amounts(b.namespaces, OfNamespace())) == sum
    && Total(Amounts(b.namespaces, RequestsOf())) == b.requests
    && Total(Amounts(b.nodes, OfNode())) == CostOnly(sum)
    && Total(b.used) == UsageOnly(sum)
    && b.cost == sum.cost
  }

  ghost predicate Priced(t: Tariff, b: Books)
  {
    var sum := SumOf(OfPod(), b.pods);
    sum.cost == CostFor(t.rates, sum.tx, sum.rx)
  }

  ghost predicate InStep(t: Tariff, b: Books)
  {
    TotalsInStep(b) && Priced(t, b)
  }

  /** Until the end a node has cost but no usage, and the usage is of known nodes. */
  ghost predicate UsageApart(b: Books)
  {
    && b.used.Keys <= b.nodes.Keys
    && (forall n :: n in b.nodes ==> UsageOnly(b.nodes[n].amount) == ZERO)
    && (forall n :: n in b.used ==> b.used[n].cost == 0.0)
  }

  lemma CostForAdds(rates: Rates, cpu: int, memory: int, cpu': int, memory': int)
    ensures CostFor(rates, cpu + cpu', memory + memory') == CostFor(rates, cpu, memory) + CostFor(rates, cpu', memory')
    ensures CostFor(rates, 0, 0) == 0.0
  {
    assert (cpu + cpu') as real / 1000.0 == cpu as real / 1000.0 + cpu' as real / 1000.0;
    assert (memory + memory') as real / Network.GIB == memory as real / Network.GIB + memory' as real / Network.GIB;
  }

  lemma NamespacesAfter(b: Books, p: PodCost)
    ensures Total(Amounts(Book(b, p).namespaces, OfNamespace())) == Plus(Total(Amounts(b.namespaces, OfNamespace())), p.amount)
  {
    hide Merge, LabelLedger, Total;
    assert Amounts(Book(b, p).namespaces, OfNamespace()) == Post(Amounts(b.namespaces, OfNamespace()), p.namespace, p.amount);
    TotalPost(Amounts(b.namespaces, OfNamespace()), p.namespace, p.amount);
  }

  lemma RequestsAfter(b: Books, p: PodCost)
    ensures Total(Amounts(Book(b, p).namespaces, RequestsOf())) == Plus(Total(Amounts(b.namespaces, RequestsOf())), p.requests)
  {
    hide Merge, LabelLedger, Total;
    assert Amounts(Book(b, p).namespaces, RequestsOf()) == Post(Amounts(b.namespaces, RequestsOf()), p.namespace, p.requests);
    TotalPost(Amounts(b.namespaces, RequestsOf()), p.namespace, p.requests);
  }

  lemma NodesAfter(b: Books, p: PodCost)
    ensures Total(Amounts(Book(b, p).nodes, OfNode())) == Plus(Total(Amounts(b.nodes, OfNode())), CostOnly(p.amount))
  {
    hide Merge, LabelLedger, Total;
    assert Amounts(Book(b, p).nodes, OfNode()) == Post(Amounts(b.nodes, OfNode()), p.node, CostOnly(p.amount));
    TotalPost(Amounts(b.nodes, OfNode()), p.node, CostOnly(p.amount));
  }

  lemma RestAfter(b: Books, p: PodCost)
    ensures SumOf(OfPod(), Book(b, p).pods) == Plus(SumOf(OfPod(), b.pods), p.amount)
    ensures Total(Book(b, p).used) == Plus(Total(b.used), UsageOnly(p.amount))
    ensures Book(b, p).requests == Plus(b.requests, p.requests) && Book(b, p).cost == b.cost + p.amount.cost
  {
    hide Merge, LabelLedger, Total, SumOf, Post;
    SumOfSnoc(OfPod(), b.pods, p);
    TotalPost(b.used, p.node, UsageOnly(p.amount));
  }

  lemma TotalsAfter(b: Books, p: PodCost)
    requires TotalsInStep(b)
    ensures TotalsInStep(Book(b, p))
  {
    hide Amounts, Total, Book, SumOf;
    NamespacesAfter(b, p);
    RequestsAfter(b, p);
    NodesAfter(b, p);
    RestAfter(b, p);
  }

  lemma PricedAfter(t: Tariff, b: Books, p: PodCost)
    requires Priced(t, b) && p.amount.cost == CostFor(t.rates, p.amount.tx, p.amount.rx)
    ensures Priced(t, Book(b, p))
  {
    hide CostFor, Book, SumOf;
    var sum := SumOf(OfPod(), b.pods);
    RestAfter(b, p);
    CostForAdds(t.rates, sum.tx, sum.rx, p.amount.tx, p.amount.rx);
  }

  lemma InStepAfter(t: Tariff, b: Books, p: PodCost)
    requires InStep(t, b) && p.amount.cost == CostFor(t.rates, p.amount.tx, p.amount.rx)
    ensures InStep(t, Book(b, p))
  {
    hide TotalsInStep, Priced;
    TotalsAfter(b, p);
    PricedAfter(t, b, p);
  }

  lemma UsageApartAfter(b: Books, p: PodCost)
    requires UsageApart(b)
    ensures UsageApart(Book(b, p))
  {
    hide Merge, LabelLedger;
  }

  lemma StartInStep(t: Tariff, cl: Cluster)
    ensures InStep(t, BookAll(t, cl, [])) && UsageApart(BookAll(t, cl, []))
  {
    PreparedNamed(t, cl.nodes);
    var nodes := Amounts(Prepared(t, cl.nodes), OfNode());
    ZeroTotal(nodes, nodes.Keys);
    CostForAdds(t.rates, 0, 0, 0, 0);
  }

  lemma {:induction false} PassInStep(t: Tariff, cl: Cluster, pods: seq<PodSpec>)
    ensures InStep(t, BookAll(t, cl, pods)) && UsageApart(BookAll(t, cl, pods))
  {
    hide InStep, UsageApart, Book, CostFor;
    if pods == [] {
      StartInStep(t, cl);
    } else {
      PassInStep(t, cl, pods[..|pods| - 1]);
      var p := Costed(t, NamespaceLabels(cl.namespaces), cl.measured, pods[|pods| - 1]);
      InStepAfter(t, BookAll(t, cl, pods[..|pods| - 1]), p);
      UsageApartAfter(BookAll(t, cl, pods[..|pods| - 1]), p);
    }
  }

  lemma FinalNodes(b: Books)
    requires UsageApart(b)
    ensures Amounts(WithUsage(b.nodes, b.used), OfNode()) == Merge(Amounts(b.nodes, OfNode()), b.used)
  {
    var x, y := Amounts(WithUsage(b.nodes, b.used), OfNode()), Merge(Amounts(b.nodes, OfNode()), b.used);
    assert x.Keys == y.Keys;
    forall n | n in x ensures At(x, n) == At(y, n) {
      assert UsageOnly(b.nodes[n].amount) == ZERO;
    }
    SameRecords(x, y);
  }

  /** The cost of a snapshot is one number, however it is grouped: by pod, by namespace, by node
      (unlisted nodes included) and for the cluster; the three lists carry the same CPU and memory
      too, and the cost is the price of that much usage. */
  lemma CostIsOneNumber(t: Tariff, cl: Cluster)
    ensures var d := DataOf(t, cl);
            var sum := SumOf(OfPod(), d.pods);
            && SumOf(OfNamespace(), d.namespaces) == sum && SumOf(OfNode(), d.nodes) == sum
            && d.cost == sum.cost == CostFor(t.rates, sum.tx, sum.rx)
            && SumOf(RequestsOf(), d.namespaces) == d.requests
  {
    PassInStep(t, cl, cl.pods);
    var b := BookAll(t, cl, cl.pods);
    FinalNodes(b);
    hide BookAll, Amounts, Total, Merge, WithUsage, UsageApart, CostFor, SumOf, SortedValues, ByName, TypeTotals;
    TotalMerge(Amounts(b.nodes, OfNode()), b.used);
    PublishedSum(ByName(NameOfNamespace()), b.namespaces, OfNamespace());
    PublishedSum(ByName(NameOfNamespace()), b.namespaces, RequestsOf());
    PublishedSum(ByName(NameOfNode()), WithUsage(b.nodes, b.used), OfNode());
  }

  // ---------------------------------------------------------------- instance types

  function OfType(): TypeCost -> Amount
  {
    (c: TypeCost) => Amount(c.nodeCount, 0, c.allocatedCost)
  }

  /** A node of a known type: one node and its allocated cost. */
  function TypedPart(): NodeCost -> Amount
  {
    (n: NodeCost) => if n.instanceType == "" then ZERO else Amount(1, 0, n.amount.cost)
  }

  function UntypedPart(): NodeCost -> Amount
  {
    (n: NodeCost) => if n.instanceType == "" then CostOnly(n.amount) else ZERO
  }

  lemma TypeTotalsSum(nodes: map<string, NodeCost>)
    ensures Total(Amounts(TypeTotals(nodes), OfType())) == Total(Typed(nodes))
  {
    var totals := Regroup(Typed(nodes), TypeOf(nodes));
    TypedCounts(nodes, TypeOf(nodes));
    TypeAmounts(totals, Regroup(TypedPrices(nodes), TypeOf(nodes)));
    hide Typed, TypedPrices, Regroup, TypeRecords;
    RegroupTotal(Typed(nodes), TypeOf(nodes));
  }

  lemma TypeAmounts(totals: map<string, Amount>, prices: map<string, Amount>)
    requires forall k :: k in totals ==> totals[k].rx == 0
    ensures Amounts(TypeRecords(totals, prices), OfType()) == totals
  {
    SameRecords(Amounts(TypeRecords(totals, prices), OfType()), totals);
  }

  lemma {:induction false} NothingReceivedAt(m: map<string, Amount>, ks: set<string>)
    requires forall k :: k in m ==> m[k].rx == 0
    ensures TotalAt(m, ks).rx == 0
  {
    if ks != {} {
      var k := TotalAtUnfold(m, ks);
      NothingReceivedAt(m, ks - {k});
    }
  }

  lemma TypedCounts(nodes: map<string, NodeCost>, f: string -> string)
    ensures forall k :: k in Regroup(Typed(nodes), f) ==> Regroup(Typed(nodes), f)[k].rx == 0
  {
    forall k | k in Regroup(Typed(nodes), f) ensures Regroup(Typed(nodes), f)[k].rx == 0 {
      NothingReceivedAt(Typed(nodes), Fibre(Typed(nodes), f, k));
    }
  }

  lemma TypedTotal(nodes: map<string, NodeCost>)
    ensures Total(Amounts(nodes, TypedPart())) == Total(Typed(nodes))
  {
    TotalAgree(Amounts(nodes, TypedPart()), Typed(nodes));
  }

  lemma {:induction false} PartsMakeTheWhole(nodes: seq<NodeCost>)
    ensures SumOf(TypedPart(), nodes).cost + SumOf(UntypedPart(), nodes).cost == SumOf(OfNode(), nodes).cost
  {
    if nodes != [] {
      PartsMakeTheWhole(nodes[..|nodes| - 1]);
    }
  }

  /** The instance type list counts every typed node once and allocates what those nodes were
      allocated; with the untyped nodes that is the whole cost. */
  lemma TypesAndUntypedMakeTheCost(t: Tariff, cl: Cluster)
    ensures var d := DataOf(t, cl);
            && SumOf(OfType(), d.byType) == SumOf(TypedPart(), d.nodes)
            && SumOf(OfType(), d.byType).cost + SumOf(UntypedPart(), d.nodes).cost == d.cost
  {
    var b := BookAll(t, cl, cl.pods);
    var nodes := WithUsage(b.nodes, b.used);
    CostIsOneNumber(t, cl);
    PartsMakeTheWhole(DataOf(t, cl).nodes);
    TypeTotalsSum(nodes);
    TypedTotal(nodes);
    hide BookAll, WithUsage, Amounts, Total, Typed, TypeTotals, SumOf, SortedValues, ByName, CostFor;
    PublishedSum(ByName(NameOfType()), TypeTotals(nodes), OfType());
    PublishedSum(ByName(NameOfNode()), nodes, TypedPart());
  }

  // ---------------------------------------------------------------- labels

  predicate Carries(p: PodCost, key: string)
  {
    key in p.labels && p.labels[key] != ""
  }

  /** The cost of a pod that carries the label with this value. */
  function Bearing(key: string, value: string): PodCost -> Amount
  {
    (p: PodCost) => if Carries(p, key) && p.labels[key] == value then CostOnly(p.amount) else ZERO
  }

  /** The cost of a pod that carries the label at all. */
  function Carrying(key: string): PodCost -> Amount
  {
    (p: PodCost) => if Carries(p, key) then CostOnly(p.amount) else ZERO
  }

  lemma LabelLedgerAt(p: PodCost, key: string, value: string)
    ensures At(LabelLedger(p), (key, value)) == Bearing(key, value)(p)
    ensures (key, value) in LabelLedger(p) <==> Carries(p, key) && p.labels[key] == value
  {
    assert (key, value) in p.labels.Items <==> key in p.labels && p.labels[key] == value;
  }

  lemma {:induction false} LabelsAreSums(t: Tariff, cl: Cluster, pods: seq<PodSpec>, key: string, value: string)
    ensures At(BookAll(t, cl, pods).labels, (key, value)) == SumOf(Bearing(key, value), BookAll(t, cl, pods).pods)
  {
    hide Costed, LabelLedger, BookNamespace, BookNode, Post, SumOf, Merge, Bearing;
    if pods == [] {
      assert SumOf(Bearing(key, value), []) == ZERO by { SumOfNothing(Bearing(key, value)); }
    } else {
      LabelsAreSums(t, cl, pods[..|pods| - 1], key, value);
      var before := BookAll(t, cl, pods[..|pods| - 1]);
      var p := Costed(t, NamespaceLabels(cl.namespaces), cl.measured, pods[|pods| - 1]);
      LabelLedgerAt(p, key, value);
      MergeAt(before.labels, LabelLedger(p), (key, value));
      SumOfSnoc(Bearing(key, value), before.pods, p);
    }
  }

  ghost predicate SomeBear(pods: seq<PodCost>, key: string, value: string)
  {
    exists p :: p in pods && Carries(p, key) && p.labels[key] == value
  }

  lemma {:induction false} LabelsArePresent(t: Tariff, cl: Cluster, pods: seq<PodSpec>, key: string, value: string)
    ensures (key, value) in BookAll(t, cl, pods).labels <==> SomeBear(BookAll(t, cl, pods).pods, key, value)
  {
    hide Costed, LabelLedger, BookNamespace, BookNode, Post;
    if pods != [] {
      LabelsArePresent(t, cl, pods[..|pods| - 1], key, value);
      var before := BookAll(t, cl, pods[..|pods| - 1]);
      var p := Costed(t, NamespaceLabels(cl.namespaces), cl.measured, pods[|pods| - 1]);
      LabelLedgerAt(p, key, value);
      assert (key, value) in Merge(before.labels, LabelLedger(p)) <==>
        (key, value) in before.labels || (key, value) in LabelLedger(p);
      hide Merge, Carries;
      assert p in before.pods + [p];
    }
  }

  /** A published label entry is the cost of the pods with that label and value, and there is one
      exactly for the values some pod has. */
  lemma LabelEntries(t: Tariff, cl: Cluster, l: LabelCost)
    ensures var d := DataOf(t, cl);
            l in d.labels <==>
              SomeBear(d.pods, l.key, l.value) && l.amount == SumOf(Bearing(l.key, l.value), d.pods)
  {
    var b := BookAll(t, cl, cl.pods);
    var records := LabelRecords(b.labels);
    var list := SortedValues(LabelLess, records);
    LabelsAreSums(t, cl, cl.pods, l.key, l.value);
    LabelsArePresent(t, cl, cl.pods, l.key, l.value);
    assert l in list <==> l in multiset(list);
    hide BookAll, WithUsage, TypeTotals, SumOf, SortedValues, ByName, LabelLess, Bearing, SomeBear;
    if l in ValuesAt(records, records.Keys) {
      ValueHasKey(records, records.Keys, l);
    }
    if (l.key, l.value) in b.labels && records[(l.key, l.value)] == l {
      ValuesAtRemove(records, records.Keys, (l.key, l.value));
    }
  }

  function LabelFor(key: string): LabelCost -> Amount
  {
    (l: LabelCost) => if l.key == key then l.amount else ZERO
  }

  lemma PickedTotal(labels: map<LabelKey, Amount>, key: string)
    ensures Total(Amounts(LabelRecords(labels), LabelFor(key))) == Total(Picked(labels, key))
  {
    TotalAgree(Amounts(LabelRecords(labels), LabelFor(key)), Picked(labels, key));
  }

  lemma PickedMerge(labels: map<LabelKey, Amount>, more: map<LabelKey, Amount>, key: string)
    ensures Total(Picked(Merge(labels, more), key)) == Plus(Total(Picked(labels, key)), Total(Picked(more, key)))
  {
    TotalAgree(Picked(Merge(labels, more), key), Merge(Picked(labels, key), Picked(more, key)));
    TotalMerge(Picked(labels, key), Picked(more, key));
  }

  lemma PickedOfPod(p: PodCost, key: string)
    ensures Total(Picked(LabelLedger(p), key)) == Carrying(key)(p)
  {
    var m := Picked(LabelLedger(p), key);
    forall l | l in m ensures Carries(p, key) && l == (key, p.labels[key]) {
      LabelLedgerAt(p, l.0, l.1);
    }
    if Carries(p, key) {
      var l := (key, p.labels[key]);
      LabelLedgerAt(p, l.0, l.1);
      assert m.Keys == {l};
      TotalAtRemove(m, m.Keys, l);
      assert m.Keys - {l} == {};
    } else {
      assert m.Keys == {};
    }
  }

  lemma {:induction false} LabelKeyTotal(t: Tariff, cl: Cluster, pods: seq<PodSpec>, key: string)
    ensures Total(Picked(BookAll(t, cl, pods).labels, key)) == SumOf(Carrying(key), BookAll(t, cl, pods).pods)
  {
    hide Costed, LabelLedger, BookNamespace, BookNode, Post, Picked, Total, Merge, Carrying;
    if pods == [] {
      NothingPicked(key);
    } else {
      LabelKeyTotal(t, cl, pods[..|pods| - 1], key);
      var before := BookAll(t, cl, pods[..|pods| - 1]);
      var p := Costed(t, NamespaceLabels(cl.namespaces), cl.measured, pods[|pods| - 1]);
      PickedMerge(before.labels, LabelLedger(p), key);
      PickedOfPod(p, key);
      assert (before.pods + [p])[..|before.pods|] == before.pods;
    }
  }

  lemma NothingPicked(key: string)
    ensures Total(Picked(map[], key)) == ZERO
  {
  }

  /** The entries of a label add up to the cost of the pods that carry it with some value. */
  lemma LabelTotals(t: Tariff, cl: Cluster, key: string)
    ensures var d := DataOf(t, cl);
            SumOf(LabelFor(key), d.labels) == SumOf(Carrying(key), d.pods)
  {
    var b := BookAll(t, cl, cl.pods);
    hide BookAll, WithUsage, TypeTotals, Picked, Total, Amounts, SumOf, SortedValues, ByName, LabelLess, LabelRecords;
    LabelKeyTotal(t, cl, cl.pods, key);
    PickedTotal(b.labels, key);
    PublishedSum(LabelLess, LabelRecords(b.labels), LabelFor(key));
  }

  function OfLabel(): LabelCost -> Amount
  {
    (l: LabelCost) => l.amount
  }

  lemma PickedList(labels: map<LabelKey, Amount>, key: string)
    ensures SumOf(OfLabel(), SortedValues(LabelLess, LabelRecords(Picked(labels, key)))) == Total(Picked(labels, key))
  {
    var records := LabelRecords(Picked(labels, key));
    assert Amounts(records, OfLabel()) == Picked(labels, key);
    hide SortedValues, SumOf, LabelLess, LabelRecords, Picked, Amounts;
    PublishedSum(LabelLess, records, OfLabel());
  }

  lemma SomeCarry(t: Tariff, cl: Cluster, key: string)
    ensures var b := BookAll(t, cl, cl.pods);
            Picked(b.labels, key) != map[] <==> exists p :: p in b.pods && Carries(p, key)
  {
    var b := BookAll(t, cl, cl.pods);
    hide BookAll, Carries;
    if p :| p in b.pods && Carries(p, key) {
      CarriedValue(p, key);
      LabelsArePresent(t, cl, cl.pods, key, p.labels[key]);
      assert (key, p.labels[key]) in Picked(b.labels, key);
    }
    if l :| l in Picked(b.labels, key) {
      LabelsArePresent(t, cl, cl.pods, l.0, l.1);
    }
  }

  lemma CarriedValue(p: PodCost, key: string)
    requires Carries(p, key)
    ensures key in p.labels
  {
  }

  /** The cluster summary lists team and environment exactly when some pod carries them, and what
      it lists adds up to the cost of the pods that do. */
  lemma ListedLabelTotals(t: Tariff, cl: Cluster, key: string)
    ensures var d := DataOf(t, cl);
            && (key in d.costByLabel <==> key in ["team", "env"] && exists p :: p in d.pods && Carries(p, key))
            && (key in d.costByLabel ==> SumOf(OfLabel(), d.costByLabel[key]) == SumOf(Carrying(key), d.pods))
  {
    var b := BookAll(t, cl, cl.pods);
    SomeCarry(t, cl, key);
    hide BookAll, WithUsage, TypeTotals, Picked, Total, SumOf, SortedValues, ByName, LabelLess, LabelRecords, Carries;
    LabelKeyTotal(t, cl, cl.pods, key);
    PickedList(b.labels, key);
  }

  // ---------------------------------------------------------------- what the records say

  lemma {:induction false} PodsInOrder(t: Tariff, cl: Cluster, pods: seq<PodSpec>, i: nat)
    requires i < |pods|
    ensures var b := BookAll(t, cl, pods);
            |b.pods| == |pods| && b.pods[i] == Costed(t, NamespaceLabels(cl.namespaces), cl.measured, pods[i])
  {
    hide Costed, BookNamespace, BookNode, Merge, LabelLedger, Post;
    PodCount(t, cl, pods);
    if i < |pods| - 1 {
      PodsInOrder(t, cl, pods[..|pods| - 1], i);
    } else {
      PodCount(t, cl, pods[..|pods| - 1]);
    }
  }

  lemma {:induction false} PodCount(t: Tariff, cl: Cluster, pods: seq<PodSpec>)
    ensures |BookAll(t, cl, pods).pods| == |pods|
  {
    hide Costed, BookNamespace, BookNode, Merge, LabelLedger, Post;
    if pods != [] {
      PodCount(t, cl, pods[..|pods| - 1]);
    }
  }

  /** The labels of the last listed namespace of that name. */
  function LabelsOf(namespaces: seq<(string, Labels)>, name: string): Labels
  {
    if namespaces == [] then map[]
    else if namespaces[|namespaces| - 1].0 == name then namespaces[|namespaces| - 1].1
    else LabelsOf(namespaces[..|namespaces| - 1], name)
  }

  lemma {:induction false} LabelsOfNamespace(namespaces: seq<(string, Labels)>, name: string)
    ensures var m := NamespaceLabels(namespaces);
            LabelsOf(namespaces, name) == if name in m then m[name] else map[]
  {
    if namespaces != [] {
      LabelsOfNamespace(namespaces[..|namespaces| - 1], name);
    }
  }

  /** What a pod is published as: under its own names, with what it requested, with what was measured
      unless that is zero or missing, at the price per core (1000 milli) and per GiB of that, and
      with the labels of its namespace and its own merged. */
  ghost predicate Describes(t: Tariff, cl: Cluster, q: PodSpec, p: PodCost)
  {
    var key := q.namespace + "/" + q.name;
    var reading := if key in cl.measured then cl.measured[key] else (0, 0);
    && p.namespace == q.namespace && p.pod == q.name && p.node == q.node
    && p.ownerKind == q.ownerKind && p.ownerName == q.ownerName
    && p.requests == NodeCosts.Requests(q.containers)
    && p.amount.tx == (if reading.0 != 0 then reading.0 else p.requests.tx)
    && p.amount.rx == (if reading.1 != 0 then reading.1 else p.requests.rx)
    && p.amount.cost == p.amount.tx as real / 1000.0 * t.rates.core + p.amount.rx as real / 1073741824.0 * t.rates.gib
    && p.labels == t.merge(LabelsOf(cl.namespaces, q.namespace), q.labels)
  }

  lemma CostedDescribes(t: Tariff, cl: Cluster, q: PodSpec)
    ensures Describes(t, cl, q, Costed(t, NamespaceLabels(cl.namespaces), cl.measured, q))
  {
    LabelsOfNamespace(cl.namespaces, q.namespace);
    hide NamespaceLabels, LabelsOf, NodeCosts.Requests;
  }

  /** Pods are published one by one and in order. */
  lemma PublishedPod(t: Tariff, cl: Cluster, i: nat)
    requires i < |cl.pods|
    ensures var d := DataOf(t, cl);
            && |d.pods| == |cl.pods| == d.podCount && d.nodeCount == |cl.nodes|
            && Describes(t, cl, cl.pods[i], d.pods[i])
  {
    PodsInOrder(t, cl, cl.pods, i);
    CostedDescribes(t, cl, cl.pods[i]);
    hide BookAll, WithUsage, TypeTotals, SortedValues, ByName, Costed, ByLabel, Describes;
  }

  function In(namespace: string): PodCost -> Amount
  {
    (p: PodCost) => if p.namespace == namespace then p.amount else ZERO
  }

  function RequestedIn(namespace: string): PodCost -> Amount
  {
    (p: PodCost) => if p.namespace == namespace then p.requests else ZERO
  }

  function On(node: string): PodCost -> Amount
  {
    (p: PodCost) => if p.node == node then p.amount else ZERO
  }

  function CountIn(pods: seq<PodCost>, namespace: string): nat
  {
    if pods == [] then 0
    else CountIn(pods[..|pods| - 1], namespace) + if pods[|pods| - 1].namespace == namespace then 1 else 0
  }

  /** The labels of the first pod of a namespace. */
  function FirstLabels(pods: seq<PodCost>, namespace: string): Labels
  {
    if pods == [] then map[]
    else if CountIn(pods[..|pods| - 1], namespace) > 0 then FirstLabels(pods[..|pods| - 1], namespace)
    else if pods[|pods| - 1].namespace == namespace then pods[|pods| - 1].labels
    else map[]
  }

  /** The number, the cost, the usage and the requests of the pods of a namespace, and the labels of
      the first of them. */
  function SumUp(pods: seq<PodCost>, namespace: string): NamespaceCost
  {
    NamespaceCost(namespace, CountIn(pods, namespace), SumOf(In(namespace), pods), SumOf(RequestedIn(namespace), pods),
                  FirstLabels(pods, namespace))
  }

  ghost predicate Summed(b: Books, namespace: string)
  {
    && (namespace in b.namespaces <==> CountIn(b.pods, namespace) > 0)
    && (namespace in b.namespaces ==> b.namespaces[namespace] == SumUp(b.pods, namespace))
    && (namespace !in b.namespaces ==> SumUp(b.pods, namespace) == NamespaceCost(namespace, 0, ZERO, ZERO, map[]))
  }

  lemma SumUpSnoc(pods: seq<PodCost>, p: PodCost, namespace: string)
    ensures var n := SumUp(pods, namespace);
            SumUp(pods + [p], namespace) ==
              if p.namespace != namespace then
                if n.podCount > 0 then n else n.(labels := map[])
              else
                NamespaceCost(namespace, n.podCount + 1, Plus(n.amount, p.amount), Plus(n.requests, p.requests),
                              if n.podCount > 0 then n.labels else p.labels)
  {
    hide SumOf, Plus;
    assert (pods + [p])[..|pods|] == pods;
    SumOfSnoc(In(namespace), pods, p);
    SumOfSnoc(RequestedIn(namespace), pods, p);
    PlusZero(SumOf(In(namespace), pods));
    PlusZero(SumOf(RequestedIn(namespace), pods));
  }

  lemma SummedStep(b: Books, p: PodCost, namespace: string)
    requires Summed(b, namespace)
    ensures Summed(Book(b, p), namespace)
  {
    SumUpSnoc(b.pods, p, namespace);
    CountIsInSum(b.pods, namespace);
    CountIsInSum(b.pods + [p], namespace);
    PlusZero(p.amount);
    PlusZero(p.requests);
    hide SumUp, CountIn, BookNode, Merge, LabelLedger, Post, Plus;
  }

  lemma CountIsInSum(pods: seq<PodCost>, namespace: string)
    ensures SumUp(pods, namespace).podCount == CountIn(pods, namespace) && SumUp(pods, namespace).namespace == namespace
  {
  }

  lemma {:induction false} NamespaceBooked(t: Tariff, cl: Cluster, pods: seq<PodSpec>, namespace: string)
    ensures Summed(BookAll(t, cl, pods), namespace)
  {
    hide Costed, Book, Summed;
    if pods == [] {
      NothingSummed(t, cl, namespace);
    } else {
      NamespaceBooked(t, cl, pods[..|pods| - 1], namespace);
      SummedStep(BookAll(t, cl, pods[..|pods| - 1]),
                 Costed(t, NamespaceLabels(cl.namespaces), cl.measured, pods[|pods| - 1]), namespace);
    }
  }

  lemma NothingSummed(t: Tariff, cl: Cluster, namespace: string)
    ensures Summed(BookAll(t, cl, []), namespace)
  {
    hide Prepared;
  }

  /** The published namespaces are those of the pods, each summed up over exactly its pods. */
  lemma PublishedNamespace(t: Tariff, cl: Cluster, n: NamespaceCost)
    ensures var d := DataOf(t, cl);
            n in d.namespaces <==> n.podCount > 0 && n == SumUp(d.pods, n.namespace)
  {
    var b := BookAll(t, cl, cl.pods);
    NamespaceBooked(t, cl, cl.pods, n.namespace);
    BooksNamed(t, cl, cl.pods);
    CountIsInSum(b.pods, n.namespace);
    hide BookAll, WithUsage, TypeTotals, SortedValues, ByName, ByLabel, CountIn, SumUp;
    ListedIffStored(ByName(NameOfNamespace()), b.namespaces, n);
  }

  /** The last listed node of that name. */
  function ListedNode(nodes: seq<NodeSpec>, name: string): Network.Option<NodeSpec>
  {
    if nodes == [] then Network.None
    else if nodes[|nodes| - 1].name == name then Network.Some(nodes[|nodes| - 1])
    else ListedNode(nodes[..|nodes| - 1], name)
  }

  /** Instance type and price of a node; one that is not listed, or whose type has no price, costs
      nothing. */
  function TypeAndPrice(t: Tariff, nodes: seq<NodeSpec>, name: string): (string, real)
  {
    match ListedNode(nodes, name)
    case None => ("", 0.0)
    case Some(n) =>
      (n.instanceType,
       if n.instanceType == "" || n.instanceType !in t.nodePrices then 0.0 else t.nodePrices[n.instanceType])
  }

  lemma {:induction false} PreparedNode(t: Tariff, nodes: seq<NodeSpec>, name: string)
    ensures var m, w := Prepared(t, nodes), TypeAndPrice(t, nodes, name);
            && (name in m <==> ListedNode(nodes, name).Some?)
            && (name in m ==> m[name] == NodeCost(name, w.0, w.1, ZERO))
  {
    if nodes != [] {
      PreparedNode(t, nodes[..|nodes| - 1], name);
    }
  }

  ghost predicate HasPodOn(pods: seq<PodCost>, node: string)
  {
    exists p :: p in pods && p.node == node
  }

  lemma HasPodSnoc(pods: seq<PodCost>, p: PodCost, node: string)
    ensures HasPodOn(pods + [p], node) <==> HasPodOn(pods, node) || p.node == node
  {
    assert (pods + [p])[|pods|] == p;
    if HasPodOn(pods, node) {
      var q :| q in pods && q.node == node;
      assert q in pods + [p];
    }
  }

  /** A node with the usage and the cost of its pods. */
  function Loaded(t: Tariff, nodes: seq<NodeSpec>, pods: seq<PodCost>, name: string): NodeCost
  {
    var w := TypeAndPrice(t, nodes, name);
    NodeCost(name, w.0, w.1, SumOf(On(name), pods))
  }

  ghost predicate NodeSummed(t: Tariff, nodes: seq<NodeSpec>, b: Books, name: string)
  {
    var n := Loaded(t, nodes, b.pods, name);
    && (name in b.nodes <==> ListedNode(nodes, name).Some? || HasPodOn(b.pods, name))
    && (name in b.nodes ==> b.nodes[name] == n.(amount := CostOnly(n.amount)))
    && (name in b.used <==> HasPodOn(b.pods, name))
    && At(b.used, name) == UsageOnly(n.amount)
    && (name !in b.nodes ==> n == NodeCost(name, "", 0.0, ZERO))
    && (name !in b.used ==> n.amount == ZERO)
  }

  lemma LoadedSnoc(t: Tariff, nodes: seq<NodeSpec>, pods: seq<PodCost>, p: PodCost, name: string)
    ensures var n := Loaded(t, nodes, pods, name);
            Loaded(t, nodes, pods + [p], name) == if p.node == name then n.(amount := Plus(n.amount, p.amount)) else n
  {
    hide SumOf, TypeAndPrice, Plus;
    SumOfSnoc(On(name), pods, p);
    PlusZero(SumOf(On(name), pods));
  }

  lemma NodeSummedStep(t: Tariff, nodes: seq<NodeSpec>, b: Books, p: PodCost, name: string)
    requires NodeSummed(t, nodes, b, name)
    ensures NodeSummed(t, nodes, Book(b, p), name)
  {
    LoadedSnoc(t, nodes, b.pods, p, name);
    HasPodSnoc(b.pods, p, name);
    PostAt(b.used, p.node, UsageOnly(p.amount), name);
    hide Loaded, HasPodOn, ListedNode, BookNamespace, Merge, LabelLedger, Post;
  }

  lemma {:induction false} NodeBooked(t: Tariff, cl: Cluster, pods: seq<PodSpec>, name: string)
    ensures NodeSummed(t, cl.nodes, BookAll(t, cl, pods), name)
  {
    hide Costed, Book, NodeSummed;
    if pods == [] {
      PreparedNode(t, cl.nodes, name);
      NoPodsOn(t, cl, name);
    } else {
      NodeBooked(t, cl, pods[..|pods| - 1], name);
      NodeSummedStep(t, cl.nodes, BookAll(t, cl, pods[..|pods| - 1]),
                     Costed(t, NamespaceLabels(cl.namespaces), cl.measured, pods[|pods| - 1]), name);
    }
  }

  lemma NoPodsOn(t: Tariff, cl: Cluster, name: string)
    ensures NodeSummed(t, cl.nodes, BookAll(t, cl, []), name)
  {
    PreparedNode(t, cl.nodes, name);
    hide Prepared, ListedNode;
  }

  lemma FinalNode(t: Tariff, nodes: seq<NodeSpec>, b: Books, name: string)
    requires NodeSummed(t, nodes, b, name)
    ensures var m := WithUsage(b.nodes, b.used);
            && (name in m <==> ListedNode(nodes, name).Some? || HasPodOn(b.pods, name))
            && (name in m ==> m[name] == Loaded(t, nodes, b.pods, name))
  {
    hide Loaded, ListedNode, HasPodOn;
  }

  /** The published nodes are the listed ones and those that some pod names, each with its type and
      price and with the usage and the cost of exactly its pods. */
  lemma PublishedNode(t: Tariff, cl: Cluster, n: NodeCost)
    ensures var d := DataOf(t, cl);
            n in d.nodes <==>
              && (ListedNode(cl.nodes, n.name).Some? || HasPodOn(d.pods, n.name))
              && n == Loaded(t, cl.nodes, d.pods, n.name)
  {
    var b := BookAll(t, cl, cl.pods);
    NodeBooked(t, cl, cl.pods, n.name);
    FinalNode(t, cl.nodes, b, n.name);
    BooksNamed(t, cl, cl.pods);
    var m := WithUsage(b.nodes, b.used);
    assert forall k :: k in m ==> m[k].name == k;
    hide BookAll, WithUsage, TypeTotals, SortedValues, ByName, ByLabel, Loaded, NodeSummed, ListedNode, HasPodOn;
    ListedIffStored(ByName(NameOfNode()), m, n);
  }

  // ---------------------------------------------------------------- instance types, one by one

  function OneOf(instanceType: string): NodeCost -> Amount
  {
    (n: NodeCost) => if n.instanceType == instanceType then Amount(1, 0, n.amount.cost) else ZERO
  }

  function PriceOfOne(instanceType: string): NodeCost -> Amount
  {
    (n: NodeCost) => if n.instanceType == instanceType then Amount(0, 0, n.price) else ZERO
  }

  lemma TypeAt(nodes: map<string, NodeCost>, k: string)
    requires k != ""
    ensures At(Regroup(Typed(nodes), TypeOf(nodes)), k) == Total(Amounts(nodes, OneOf(k)))
    ensures At(Regroup(TypedPrices(nodes), TypeOf(nodes)), k) == Total(Amounts(nodes, PriceOfOne(k)))
    ensures k in Regroup(Typed(nodes), TypeOf(nodes)) <==> exists n :: n in nodes && nodes[n].instanceType == k
  {
    var f := TypeOf(nodes);
    RegroupAt(Typed(nodes), f, k);
    RegroupAt(TypedPrices(nodes), f, k);
    var ns := Fibre(Typed(nodes), f, k);
    assert ns == Fibre(TypedPrices(nodes), f, k);
    OnlyAt(Typed(nodes), Amounts(nodes, OneOf(k)), ns);
    OnlyAt(TypedPrices(nodes), Amounts(nodes, PriceOfOne(k)), ns);
    if n :| n in nodes && nodes[n].instanceType == k {
      assert n in Typed(nodes) && f(n) == k;
    }
  }

  /** Two ledgers that agree on some keys, where the second is zero elsewhere. */
  lemma OnlyAt(m: map<string, Amount>, n: map<string, Amount>, ks: set<string>)
    requires ks <= n.Keys && forall k :: k in ks ==> At(m, k) == At(n, k)
    requires forall k :: k in n.Keys - ks ==> At(n, k) == ZERO
    ensures TotalAt(m, ks) == Total(n)
  {
    TotalAtMissing(n, ks, n.Keys - ks);
    assert ks + (n.Keys - ks) == n.Keys;
    TotalAtAgree(m, n, ks);
  }

  /** The published instance types are those of the nodes, each with the number, the price and the
      allocated cost of exactly its nodes. */
  lemma PublishedType(t: Tariff, cl: Cluster, c: TypeCost)
    ensures var d := DataOf(t, cl);
            c in d.byType <==>
              && c.instanceType != "" && (exists n :: n in d.nodes && n.instanceType == c.instanceType)
              && c.nodeCount == SumOf(OneOf(c.instanceType), d.nodes).tx
              && c.allocatedCost == SumOf(OneOf(c.instanceType), d.nodes).cost
              && c.price == SumOf(PriceOfOne(c.instanceType), d.nodes).cost
  {
    var b := BookAll(t, cl, cl.pods);
    var nodes := WithUsage(b.nodes, b.used);
    var k, list := c.instanceType, SortedValues(ByName(NameOfNode()), nodes);
    hide BookAll, WithUsage, SortedValues, ByName, ByLabel, SumOf, TypeTotals;
    PublishedSum(ByName(NameOfNode()), nodes, OneOf(k));
    PublishedSum(ByName(NameOfNode()), nodes, PriceOfOne(k));
    ListedIffStored(ByName(NameOfType()), TypeTotals(nodes), c);
    TypeRecordAt(nodes, c);
    if n :| n in list && n.instanceType == k {
      ListedIffStored(ByName(NameOfNode()), nodes, n);
    }
    if x :| x in nodes && nodes[x].instanceType == k {
      ListedIffStored(ByName(NameOfNode()), nodes, nodes[x]);
    }
  }

  lemma TypeRecordAt(nodes: map<string, NodeCost>, c: TypeCost)
    ensures var k := c.instanceType;
            (exists j :: j in TypeTotals(nodes) && TypeTotals(nodes)[j] == c) <==>
              && k != "" && (exists n :: n in nodes && nodes[n].instanceType == k)
              && c.nodeCount == Total(Amounts(nodes, OneOf(k))).tx
              && c.allocatedCost == Total(Amounts(nodes, OneOf(k))).cost
              && c.price == Total(Amounts(nodes, PriceOfOne(k))).cost
  {
    var k, m := c.instanceType, TypeTotals(nodes);
    NoEmptyType(nodes);
    if k != "" {
      TypeAt(nodes, k);
    }
    hide Regroup, Typed, TypedPrices, Amounts, Total, TypeOf;
    assert forall j :: j in m ==> m[j].instanceType == j;
    assert (exists j :: j in m && m[j] == c) <==> k in m && m[k] == c;
  }

  lemma NoEmptyType(nodes: map<string, NodeCost>)
    ensures "" !in Regroup(Typed(nodes), TypeOf(nodes))
  {
  }
}
