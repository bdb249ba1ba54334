/** The connection graphs of a snapshot: pod, namespace and workload level.

    One loop over the flows fills all three.  `RollUp` says that the two coarse graphs are
    regroupings of the pod graph, and `ConnectionsUnique` that a published list is a function of
    the map behind it. */
module Connections {
  import opened Ledger
  import opened Network
  import opened Order

  datatype Endpoint = Endpoint(kind: string, namespace: string, name: string)

  /** `connectionKey`, with its seven strings grouped by endpoint. */
  datatype ConnKey = ConnKey(src: Endpoint, dst: Endpoint, cls: string)

  datatype Connection = Connection(source: Endpoint, destination: Endpoint, cls: string, amount: Amount)

  /** Egress prices per GiB; the keys of `byClass` are lower case. */
  datatype Prices = Prices(base: real, byClass: map<string, real>)

  function Lower(s: string): string
  {
    seq(|s|, i requires 0 <= i < |s| => if 'A' <= s[i] <= 'Z' then s[i] - 'A' + 'a' else s[i])
  }

  function PriceOf(prices: Prices, cls: string): real
  {
    if Lower(cls) in prices.byClass then prices.byClass[Lower(cls)] else prices.base
  }

  function EgressCost(prices: Prices, cls: string, tx: int): real
  {
    tx as real / GIB * PriceOf(prices, cls)
  }

  lemma EgressCostAdds(prices: Prices, cls: string, x: int, y: int)
    ensures EgressCost(prices, cls, x + y) == EgressCost(prices, cls, x) + EgressCost(prices, cls, y)
    ensures EgressCost(prices, cls, 0) == 0.0
  {
    var price := PriceOf(prices, cls);
    assert (x + y) as real / GIB == x as real / GIB + y as real / GIB;
    assert (x as real / GIB + y as real / GIB) * price == x as real / GIB * price + y as real / GIB * price;
  }

  /** Lower-casing works letter by letter, on the 26 letters and on nothing else. */
  lemma LowerMeaning(s: string, t: string)
    ensures Lower(s + t) == Lower(s) + Lower(t)
    ensures (forall i :: 0 <= i < |s| ==> !('A' <= s[i] <= 'Z')) ==> Lower(s) == s
    ensures Lower("ABCDEFGHIJKLMNOPQRSTUVWXYZ") == "abcdefghijklmnopqrstuvwxyz"
  {
  }

  /** The price of a GiB: that of the class if the table has one, else the base price; and what is
      sent costs its share of it. */
  lemma PriceMeaning(prices: Prices, cls: string, tx: int)
    requires cls in {INTRA_NODE, INTRA_AZ, INTER_AZ, VPC_PRIVATE, PUBLIC_INTERNET, UNKNOWN}
    ensures var price := if cls in prices.byClass then prices.byClass[cls] else prices.base;
            && EgressCost(prices, cls, 1_073_741_824) == price
            && EgressCost(prices, cls, tx) * 1_073_741_824.0 == tx as real * price
  {
    LowerMeaning(cls, "");
    hide Lower;
    var price := if cls in prices.byClass then prices.byClass[cls] else prices.base;
    assert PriceOf(prices, cls) == price;
    hide PriceOf;
    assert EgressCost(prices, cls, tx) == tx as real / 1_073_741_824.0 * price;
  }

  /** Accumulators replace a missing class by `unknown`. */
  function Norm(cls: string): string
  {
    if cls == "" then UNKNOWN else cls
  }

  // ---------------------------------------------------------------- the maps behind the graphs

  /** A ledger of connections, as the map of records the program keeps. */
  function Recorded(ledger: map<ConnKey, Amount>): map<ConnKey, Connection>
  {
    map k | k in ledger :: Connection(k.src, k.dst, k.cls, ledger[k])
  }

  method AccumulateConnection(target: map<ConnKey, Connection>, ghost ledger: map<ConnKey, Amount>,
      src: Endpoint, dst: Endpoint, cls: string, tx: nat, rx: nat, cost: real)
    returns (r: map<ConnKey, Connection>)
    requires target == Recorded(ledger)
    ensures r == Recorded(Post(ledger, ConnKey(src, dst, Norm(cls)), Amount(tx, rx, cost)))
  {
    var trafficClass := cls;
    if trafficClass == "" {
      trafficClass := UNKNOWN;
    }
    var key := ConnKey(src, dst, trafficClass);
    RecordedPost(ledger, key, Amount(tx, rx, cost));
    hide Recorded, Post;
    r := target;
    if key !in r {
      r := r[key := Connection(src, dst, trafficClass, ZERO)];
    }
    var conn := r[key];
    var amount := Amount(conn.amount.tx + tx, conn.amount.rx + rx, conn.amount.cost + cost);
    r := r[key := conn.(amount := amount)];
    SetTwice(target, key, Connection(src, dst, trafficClass, ZERO), conn.(amount := amount));
  }

  lemma SetTwice<K, V>(m: map<K, V>, k: K, v: V, w: V)
    ensures m[k := v][k := w] == m[k := w]
  {
  }

  lemma RecordedPost(ledger: map<ConnKey, Amount>, k: ConnKey, a: Amount)
    ensures Recorded(Post(ledger, k, a)) ==
      Recorded(ledger)[k := Connection(k.src, k.dst, k.cls, Plus(At(ledger, k), a))]
    ensures k in Recorded(ledger) <==> k in ledger
    ensures k in ledger ==> Recorded(ledger)[k] == Connection(k.src, k.dst, k.cls, ledger[k])
  {
  }

  // ---------------------------------------------------------------- flattening

  /** The comparator of `flattenConnections`. */
  predicate ConnLess(a: Connection, b: Connection)
  {
    if a.source.kind == b.source.kind then
      if a.source.namespace == b.source.namespace then
        if a.source.name == b.source.name then
          if a.destination.kind == b.destination.kind then
            if a.destination.namespace == b.destination.namespace then
              if a.destination.name == b.destination.name then
                StrLess(a.cls, b.cls)
              else StrLess(a.destination.name, b.destination.name)
            else StrLess(a.destination.namespace, b.destination.namespace)
          else StrLess(a.destination.kind, b.destination.kind)
        else StrLess(a.source.name, b.source.name)
      else StrLess(a.source.namespace, b.source.namespace)
    else StrLess(a.source.kind, b.source.kind)
  }

  function Fields(c: Connection): (fields: seq<string>)
    ensures |fields| == 7
  {
    [c.source.kind, c.source.namespace, c.source.name,
     c.destination.kind, c.destination.namespace, c.destination.name, c.cls]
  }

  lemma TupleHead(a: seq<string>, b: seq<string>)
    requires |a| == |b| > 0
    ensures TupleLess(a, b) <==> if a[0] == b[0] then TupleLess(a[1..], b[1..]) else StrLess(a[0], b[0])
  {
  }

  lemma {:induction false} TupleFrom(a: seq<string>, b: seq<string>, i: nat)
    requires |a| == |b| && i < |a|
    ensures TupleLess(a[i..], b[i..]) <==>
      if a[i] == b[i] then TupleLess(a[i + 1..], b[i + 1..]) else StrLess(a[i], b[i])
  {
    hide TupleLess, StrLess;
    TupleHead(a[i..], b[i..]);
    assert a[i..][1..] == a[i + 1..] && b[i..][1..] == b[i + 1..];
  }

  lemma ConnLessIsLexicographic(a: Connection, b: Connection)
    ensures ConnLess(a, b) <==> TupleLess(Fields(a), Fields(b))
  {
    hide TupleLess, StrLess;
    var x, y := Fields(a), Fields(b);
    TupleFrom(x, y, 0);
    TupleFrom(x, y, 1);
    TupleFrom(x, y, 2);
    TupleFrom(x, y, 3);
    TupleFrom(x, y, 4);
    TupleFrom(x, y, 5);
    LastField(x[6..], y[6..]);
    assert x[0..] == x && y[0..] == y;
  }

  lemma LastField(x: seq<string>, y: seq<string>)
    requires |x| == |y| == 1
    ensures TupleLess(x, y) <==> StrLess(x[0], y[0])
  {
    StrTrichotomy(x[0], x[0]);
  }

  lemma ConnLessIsOrder()
    ensures StrictOrder(ConnLess)
  {
    hide ConnLess, TupleLess;
    forall a ensures !ConnLess(a, a) {
      ConnLessIsLexicographic(a, a);
      TupleTrichotomy(Fields(a), Fields(a));
    }
    forall a, b, c | ConnLess(a, b) && ConnLess(b, c) ensures ConnLess(a, c) {
      ConnLessIsLexicographic(a, b);
      ConnLessIsLexicographic(b, c);
      ConnLessIsLexicographic(a, c);
      TupleTransitive(Fields(a), Fields(b), Fields(c));
    }
  }

  lemma SameFields(k: ConnKey, l: ConnKey, a: Amount, b: Amount)
    requires Fields(Connection(k.src, k.dst, k.cls, a)) == Fields(Connection(l.src, l.dst, l.cls, b))
    ensures k == l
  {
    var x, y := Fields(Connection(k.src, k.dst, k.cls, a)), Fields(Connection(l.src, l.dst, l.cls, b));
    assert x[0] == y[0] && x[1] == y[1] && x[2] == y[2] && x[3] == y[3];
    assert x[4] == y[4] && x[5] == y[5] && x[6] == y[6];
  }

  lemma KeysSeparateConnections(ledger: map<ConnKey, Amount>)
    ensures KeysSeparate(ConnLess, Recorded(ledger))
  {
    hide ConnLess, TupleLess, Fields;
    var m := Recorded(ledger);
    forall k, l | k in m && l in m && k != l ensures ConnLess(m[k], m[l]) || ConnLess(m[l], m[k]) {
      ConnLessIsLexicographic(m[k], m[l]);
      ConnLessIsLexicographic(m[l], m[k]);
      TupleTrichotomy(Fields(m[k]), Fields(m[l]));
      if Fields(m[k]) == Fields(m[l]) {
        SameFields(k, l, ledger[k], ledger[l]);
      }
    }
  }

  ghost function ConnectionList(ledger: map<ConnKey, Amount>): seq<Connection>
  {
    SortedValues(ConnLess, Recorded(ledger))
  }

  /** A strictly sorted list of the records is the published one, whatever order the map was
      visited in; and there is one. */
  lemma ConnectionsUnique(ledger: map<ConnKey, Amount>, r: seq<Connection>)
    ensures Flattens(ConnLess, Recorded(ledger), r) <==> r == ConnectionList(ledger)
  {
    ConnLessIsOrder();
    KeysSeparateConnections(ledger);
    SortedValuesFlatten(ConnLess, Recorded(ledger));
    if Flattens(ConnLess, Recorded(ledger), r) {
      FlattensUnique(ConnLess, Recorded(ledger), r);
    }
  }

  method FlattenConnections(target: map<ConnKey, Connection>, ghost ledger: map<ConnKey, Amount>)
    returns (r: seq<Connection>)
    requires target == Recorded(ledger)
    ensures r == ConnectionList(ledger)
    ensures StrictlySorted(ConnLess, r) && multiset(r) == ValuesAt(target, target.Keys)
  {
    ConnLessIsOrder();
    KeysSeparateConnections(ledger);
    r := Flatten(ConnLess, target);
  }

  // ---------------------------------------------------------------- the indexes over pods

  /** `workloadEndpoint` */
  function WorkloadOf(pod: Pod): Endpoint
  {
    match pod.controller
    case Some((kind, name)) => Endpoint("workload", pod.namespace, kind + "/" + name)
    case None => Endpoint("workload", pod.namespace, "Pod/" + pod.name)
  }

  function Workloads(pods: seq<Pod>): map<string, Endpoint>
  {
    if pods == [] then map[]
    else Workloads(pods[..|pods| - 1])[KeyOf(pods[|pods| - 1]) := WorkloadOf(pods[|pods| - 1])]
  }

  datatype Index = Index(podByIP: map<Addr, Pod>, info: map<Addr, PodInfo>, workloads: map<string, Endpoint>)

  function IndexOf(nodes: seq<Node>, pods: seq<Pod>): Index
  {
    Index(PodsByIP(pods), InfoByIP(Zones(nodes), pods), Workloads(pods))
  }

  method IndexPods(nodes: seq<Node>, pods: seq<Pod>) returns (index: Index)
    ensures index == IndexOf(nodes, pods)
  {
    var zones: map<string, string> := map[];
    for i := 0 to |nodes|
      invariant zones == Zones(nodes[..i])
    {
      assert nodes[..i + 1][..i] == nodes[..i];
      zones := zones[nodes[i].name := nodes[i].zone];
    }
    assert nodes[..|nodes|] == nodes;
    var podByIP: map<Addr, Pod> := map[];
    var info: map<Addr, PodInfo> := map[];
    var workloads: map<string, Endpoint> := map[];
    for i := 0 to |pods|
      invariant podByIP == PodsByIP(pods[..i])
      invariant info == InfoByIP(zones, pods[..i])
      invariant workloads == Workloads(pods[..i])
    {
      assert pods[..i + 1][..i] == pods[..i];
      var pod := pods[i];
      if pod.ip.Some? {
        podByIP := podByIP[pod.ip.value := pod];
        info := info[pod.ip.value := PodInfo(pod.namespace, pod.name, pod.node, ZoneOf(zones, pod.node))];
      }
      workloads := workloads[KeyOf(pod) := WorkloadOf(pod)];
    }
    assert pods[..|pods|] == pods;
    index := Index(podByIP, info, workloads);
  }

  // ---------------------------------------------------------------- the three graphs

  datatype Level = PodLevel | NamespaceLevel | WorkloadLevel

  /** Where a graph puts a pod; the workload level has the fallback of the code. */
  function PlaceOf(index: Index, level: Level, namespace: string, name: string): Endpoint
  {
    match level
    case PodLevel => Endpoint("pod", namespace, name)
    case NamespaceLevel => Endpoint("namespace", "", namespace)
    case WorkloadLevel =>
      var key := PodKey(namespace, name);
      if key in index.workloads && index.workloads[key].kind != "" then index.workloads[key]
      else Endpoint("workload", namespace, name)
  }

  function TargetOf(index: Index, level: Level, dst: Addr, cls: string): Endpoint
  {
    if dst in index.podByIP then PlaceOf(index, level, index.podByIP[dst].namespace, index.podByIP[dst].name)
    else Endpoint("external", "", cls)
  }

  datatype Setting = Setting(global: Addr -> bool, prices: Prices, index: Index)

  /** Every address of a pod has its pod info. */
  predicate ValidIndex(index: Index)
  {
    index.info.Keys == index.podByIP.Keys
  }

  function ClassOf(s: Setting, flow: Flow): string
    requires ValidIndex(s.index) && flow.src in s.index.podByIP
  {
    ClassifyEgress(s.global, s.index.info[flow.src], flow.dst, s.index.info)
  }

  function AmountOf(s: Setting, flow: Flow): Amount
    requires ValidIndex(s.index) && flow.src in s.index.podByIP
  {
    Amount(flow.tx, flow.rx, EgressCost(s.prices, ClassOf(s, flow), flow.tx))
  }

  /** What one flow books in the graph of a level. */
  function FlowEntry(s: Setting, level: Level, flow: Flow): Entry<ConnKey>
    requires ValidIndex(s.index) && flow.src in s.index.podByIP
  {
    var src, cls := s.index.podByIP[flow.src], ClassOf(s, flow);
    (ConnKey(PlaceOf(s.index, level, src.namespace, src.name), TargetOf(s.index, level, flow.dst, cls), cls),
     AmountOf(s, flow))
  }

  function FlowEntries(s: Setting, level: Level, flows: seq<Flow>): seq<Entry<ConnKey>>
    requires ValidIndex(s.index)
  {
    if flows == [] then []
    else
      var init, flow := FlowEntries(s, level, flows[..|flows| - 1]), flows[|flows| - 1];
      if flow.src in s.index.podByIP then init + [FlowEntry(s, level, flow)] else init
  }

  /** The graph of a level as a ledger. */
  function Graph(s: Setting, level: Level, flows: seq<Flow>): map<ConnKey, Amount>
    requires ValidIndex(s.index)
  {
    Group(FlowEntries(s, level, flows))
  }

  /** The flow loop of `Build`. */
  method ConnectFlows(s: Setting, flows: seq<Flow>)
    returns (pods: map<ConnKey, Connection>, namespaces: map<ConnKey, Connection>, workloads: map<ConnKey, Connection>)
    requires ValidIndex(s.index)
    ensures pods == Recorded(Graph(s, PodLevel, flows))
    ensures namespaces == Recorded(Graph(s, NamespaceLevel, flows))
    ensures workloads == Recorded(Graph(s, WorkloadLevel, flows))
  {
    hide Recorded, ClassifyEgress, Post, EgressCost;
    EmptyGraph();
    pods, namespaces, workloads := map[], map[], map[];
    for i := 0 to |flows|
      invariant pods == Recorded(Graph(s, PodLevel, flows[..i]))
      invariant namespaces == Recorded(Graph(s, NamespaceLevel, flows[..i]))
      invariant workloads == Recorded(Graph(s, WorkloadLevel, flows[..i]))
    {
      var flow := flows[i];
      if flow.src in s.index.podByIP {
        var srcPod := s.index.podByIP[flow.src];
        var cls := ClassifyEgress(s.global, s.index.info[flow.src], flow.dst, s.index.info);
        var cost := EgressCost(s.prices, cls, flow.tx);
        var srcPodEndpoint := Endpoint("pod", srcPod.namespace, srcPod.name);
        var srcNsEndpoint := Endpoint("namespace", "", srcPod.namespace);
        var srcWorkload := WorkloadEndpoint(s.index, srcPod);
        var dstPodEndpoint := Endpoint("external", "", cls);
        var dstNsEndpoint, dstWorkload := dstPodEndpoint, dstPodEndpoint;
        if flow.dst in s.index.podByIP {
          var dstPod := s.index.podByIP[flow.dst];
          dstPodEndpoint := Endpoint("pod", dstPod.namespace, dstPod.name);
          dstNsEndpoint := Endpoint("namespace", "", dstPod.namespace);
          dstWorkload := WorkloadEndpoint(s.index, dstPod);
        }
        pods := AccumulateConnection(pods, Graph(s, PodLevel, flows[..i]),
          srcPodEndpoint, dstPodEndpoint, cls, flow.tx, flow.rx, cost);
        namespaces := AccumulateConnection(namespaces, Graph(s, NamespaceLevel, flows[..i]),
          srcNsEndpoint, dstNsEndpoint, cls, flow.tx, flow.rx, cost);
        workloads := AccumulateConnection(workloads, Graph(s, WorkloadLevel, flows[..i]),
          srcWorkload, dstWorkload, cls, flow.tx, flow.rx, cost);
      }
      GraphGrows(s, PodLevel, flows, i);
      GraphGrows(s, NamespaceLevel, flows, i);
      GraphGrows(s, WorkloadLevel, flows, i);
    }
    assert flows[..|flows|] == flows;
  }

  method WorkloadEndpoint(index: Index, pod: Pod) returns (e: Endpoint)
    ensures e == PlaceOf(index, WorkloadLevel, pod.namespace, pod.name)
  {
    e := if KeyOf(pod) in index.workloads then index.workloads[KeyOf(pod)] else Endpoint("", "", "");
    if e.kind == "" {
      e := Endpoint("workload", pod.namespace, pod.name);
    }
  }

  lemma EmptyGraph()
    ensures Recorded(map[]) == map[]
  {
  }

  lemma GraphGrows(s: Setting, level: Level, flows: seq<Flow>, i: nat)
    requires ValidIndex(s.index) && i < |flows|
    ensures Graph(s, level, flows[..i + 1]) ==
      if flows[i].src !in s.index.podByIP then Graph(s, level, flows[..i])
      else
        var e := FlowEntry(s, level, flows[i]);
        Post(Graph(s, level, flows[..i]), e.0, e.1)
    ensures flows[i].src in s.index.podByIP ==> ClassOf(s, flows[i]) != ""
  {
    hide ClassifyEgress, FlowEntry, Post;
    assert flows[..i + 1][..i] == flows[..i];
    if flows[i].src in s.index.podByIP {
      PostAllSnoc(map[], FlowEntries(s, level, flows[..i]), FlowEntry(s, level, flows[i]));
    }
  }

  // ---------------------------------------------------------------- the graphs against each other

  /** Pod endpoints move to their place at the level; external endpoints stay. */
  function Lift(index: Index, level: Level): ConnKey -> ConnKey
  {
    (k: ConnKey) => ConnKey(LiftEnd(index, level, k.src), LiftEnd(index, level, k.dst), k.cls)
  }

  function LiftEnd(index: Index, level: Level, e: Endpoint): Endpoint
  {
    if e.kind == "pod" then PlaceOf(index, level, e.namespace, e.name) else e
  }

  lemma {:induction false} EntriesLift(s: Setting, level: Level, flows: seq<Flow>)
    requires ValidIndex(s.index)
    ensures FlowEntries(s, level, flows) == Rekey(FlowEntries(s, PodLevel, flows), Lift(s.index, level))
  {
    hide ClassifyEgress, EgressCost;
    if flows != [] {
      EntriesLift(s, level, flows[..|flows| - 1]);
      var flow := flows[|flows| - 1];
      if flow.src in s.index.podByIP {
        EntryLifts(s, level, flow);
      }
    }
  }

  lemma EntryLifts(s: Setting, level: Level, flow: Flow)
    requires ValidIndex(s.index) && flow.src in s.index.podByIP
    ensures var e := FlowEntry(s, PodLevel, flow);
            FlowEntry(s, level, flow) == (Lift(s.index, level)(e.0), e.1)
  {
    hide ClassifyEgress, EgressCost;
  }

  /** The namespace and workload graphs are the pod graph with its pods regrouped: every byte and
      every cost lands under the pod's namespace or controller, with class and outside endpoints
      unchanged. */
  lemma RollUp(s: Setting, level: Level, flows: seq<Flow>)
    requires ValidIndex(s.index)
    ensures Graph(s, level, flows) == Regroup(Graph(s, PodLevel, flows), Lift(s.index, level))
  {
    EntriesLift(s, level, flows);
    RegroupGroup(FlowEntries(s, PodLevel, flows), Lift(s.index, level));
  }

  /** All three graphs carry the same total. */
  lemma SameTotal(s: Setting, level: Level, flows: seq<Flow>)
    requires ValidIndex(s.index)
    ensures Total(Graph(s, level, flows)) == Total(Graph(s, PodLevel, flows))
  {
    GroupTotal(FlowEntries(s, level, flows));
    GroupTotal(FlowEntries(s, PodLevel, flows));
    EntriesLift(s, level, flows);
    RekeySum(FlowEntries(s, PodLevel, flows), Lift(s.index, level));
  }

  lemma {:induction false} RekeySum<K, L>(es: seq<Entry<K>>, f: K -> L)
    ensures Sum(Rekey(es, f)) == Sum(es)
  {
    if es != [] {
      RekeySum(es[..|es| - 1], f);
      assert Rekey(es, f)[..|es| - 1] == Rekey(es[..|es| - 1], f);
    }
  }

  /** Workload entries are workloads. */
  ghost predicate WorkloadsNamed(index: Index)
  {
    forall key :: key in index.workloads ==> index.workloads[key].kind == "workload"
  }

  /** What a destination shows: inside the cluster a class of traffic between pods, outside its own
      name as the class, and that is an outside class; `unknown` may be either. */
  predicate Directed(dst: Endpoint, cls: string)
  {
    if dst.kind == "external" then dst.name == cls && cls in {VPC_PRIVATE, PUBLIC_INTERNET, UNKNOWN}
    else cls in {INTRA_NODE, INTRA_AZ, INTER_AZ, UNKNOWN}
  }

  predicate WellDirected(k: ConnKey)
  {
    k.src.kind != "external" && Directed(k.dst, k.cls)
  }

  lemma FlowDirected(s: Setting, level: Level, flow: Flow)
    requires ValidIndex(s.index) && WorkloadsNamed(s.index) && flow.src in s.index.podByIP
    ensures WellDirected(FlowEntry(s, level, flow).0)
  {
    hide EgressCost, IsPrivate;
    if flow.dst == NoAddr {
      assert ClassOf(s, flow) == UNKNOWN;
    }
  }

  lemma {:induction false} EntriesDirected(s: Setting, level: Level, flows: seq<Flow>)
    requires ValidIndex(s.index) && WorkloadsNamed(s.index)
    ensures forall i :: 0 <= i < |FlowEntries(s, level, flows)| ==> WellDirected(FlowEntries(s, level, flows)[i].0)
  {
    hide WellDirected, FlowEntry;
    if flows != [] {
      EntriesDirected(s, level, flows[..|flows| - 1]);
      if flows[|flows| - 1].src in s.index.podByIP {
        FlowDirected(s, level, flows[|flows| - 1]);
      }
    }
  }

  /** Every recorded connection is directed according to its class. */
  lemma ConnectionsDirected(nodes: seq<Node>, pods: seq<Pod>, s: Setting, level: Level, flows: seq<Flow>, k: ConnKey)
    requires s.index == IndexOf(nodes, pods) && ValidIndex(s.index)
    ensures k in Graph(s, level, flows) ==> WellDirected(k)
  {
    WorkloadKinds(pods);
    hide WellDirected, FlowEntry, FlowEntries;
    EntriesDirected(s, level, flows);
    PostAllKeys(map[], FlowEntries(s, level, flows), k);
  }

  lemma {:induction false} WorkloadKinds(pods: seq<Pod>)
    ensures forall key :: key in Workloads(pods) ==> Workloads(pods)[key].kind == "workload"
  {
    if pods != [] {
      WorkloadKinds(pods[..|pods| - 1]);
    }
  }

  lemma IndexIsValid(nodes: seq<Node>, pods: seq<Pod>)
    ensures ValidIndex(IndexOf(nodes, pods))
  {
  }

  lemma {:induction false} LastWorkload(pods: seq<Pod>, p: Pod) returns (q: Pod)
    requires p in pods
    ensures q in pods && KeyOf(q) == KeyOf(p)
    ensures KeyOf(p) in Workloads(pods) && Workloads(pods)[KeyOf(p)] == WorkloadOf(q)
  {
    hide PodKey, WorkloadOf;
    var init, last := pods[..|pods| - 1], pods[|pods| - 1];
    if KeyOf(last) == KeyOf(p) {
      q := last;
    } else {
      assert pods == init + [last];
      q := LastWorkload(init, p);
    }
  }

  /** The fallback for a pod without a workload is never taken: every pod that a flow can reach
      is placed under the controller of the last listed pod of its key. */
  lemma FallbackUnreachable(nodes: seq<Node>, pods: seq<Pod>, ip: Addr) returns (q: Pod)
    requires ip in PodsByIP(pods)
    ensures var p := PodsByIP(pods)[ip];
            && q in pods && KeyOf(q) == KeyOf(p)
            && PlaceOf(IndexOf(nodes, pods), WorkloadLevel, p.namespace, p.name) == WorkloadOf(q)
  {
    PodsByIPHas(pods, ip);
    q := LastWorkload(pods, PodsByIP(pods)[ip]);
  }
}
