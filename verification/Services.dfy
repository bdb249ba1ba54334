/** The service graph, the one view that is not a rollup: a flow is booked once per pair of a
    service in front of its source and a service in front of its destination.
    `ServiceTotalIsWeighted` states the multiplicity exactly, and `ServiceGraphDirectedIff` when no
    pod is shown as an outside endpoint. */
module Services {
  import opened Connections
  import opened Ledger
  import opened Network

  /** An endpoint slice: the service it is labelled with and the addresses of its endpoints in
      order, `None` where one does not parse. */
  datatype Slice = Slice(namespace: string, service: string, addresses: seq<Option<Addr>>)

  datatype Service = Service(namespace: string, name: string)

  /** What the cluster knows about services. */
  datatype Catalog = Catalog(slices: seq<Slice>, services: seq<Service>)

  /** The two indexes the program builds from it. */
  datatype Directory = Directory(keysByIP: map<Addr, seq<string>>, endpoints: map<string, Endpoint>)

  function ServiceKey(namespace: string, name: string): string
  {
    if namespace == "" || name == "" then "" else namespace + "/" + name
  }

  function KeysIn(index: map<Addr, seq<string>>, ip: Addr): seq<string>
  {
    if ip in index then index[ip] else []
  }

  /** One copy of `key` for every occurrence of `ip`. */
  function Copies(key: string, addresses: seq<Option<Addr>>, ip: Addr): seq<string>
  {
    if addresses == [] then []
    else
      Copies(key, addresses[..|addresses| - 1], ip) + if addresses[|addresses| - 1] == Some(ip) then [key] else []
  }

  /** The service keys an address is listed under, with repetitions and in order. */
  function KeysAt(slices: seq<Slice>, ip: Addr): seq<string>
  {
    if slices == [] then []
    else
      var init, slice := KeysAt(slices[..|slices| - 1], ip), slices[|slices| - 1];
      if slice.service == "" then init
      else init + Copies(ServiceKey(slice.namespace, slice.service), slice.addresses, ip)
  }

  /** `buildServiceIndex` */
  method BuildServiceIndex(slices: seq<Slice>) returns (result: map<Addr, seq<string>>)
    ensures forall ip :: KeysIn(result, ip) == KeysAt(slices, ip)
  {
    result := map[];
    for i := 0 to |slices|
      invariant forall ip :: KeysIn(result, ip) == KeysAt(slices[..i], ip)
    {
      assert slices[..i + 1][..i] == slices[..i];
      if slices[i].service != "" {
        result := IndexSlice(result, ServiceKey(slices[i].namespace, slices[i].service), slices[i].addresses);
      }
    }
    assert slices[..|slices|] == slices;
  }

  lemma IndexOne(index: map<Addr, seq<string>>, before: map<Addr, seq<string>>, after: map<Addr, seq<string>>,
      key: string, addresses: seq<Option<Addr>>, j: nat, ip: Addr)
    requires j < |addresses|
    requires KeysIn(before, ip) == KeysIn(index, ip) + Copies(key, addresses[..j], ip)
    requires after == if addresses[j].None? then before
                      else before[addresses[j].value := KeysIn(before, addresses[j].value) + [key]]
    ensures KeysIn(after, ip) == KeysIn(index, ip) + Copies(key, addresses[..j + 1], ip)
  {
    CopiesSnoc(key, addresses, j, ip);
    hide Copies;
  }

  lemma CopiesSnoc(key: string, addresses: seq<Option<Addr>>, j: nat, ip: Addr)
    requires j < |addresses|
    ensures Copies(key, addresses[..j + 1], ip) ==
      Copies(key, addresses[..j], ip) + if addresses[j] == Some(ip) then [key] else []
  {
    assert addresses[..j + 1][..j] == addresses[..j];
  }

  method IndexSlice(index: map<Addr, seq<string>>, key: string, addresses: seq<Option<Addr>>)
    returns (result: map<Addr, seq<string>>)
    ensures forall ip :: KeysIn(result, ip) == KeysIn(index, ip) + Copies(key, addresses, ip)
  {
    result := index;
    for j := 0 to |addresses|
      invariant forall ip :: KeysIn(result, ip) == KeysIn(index, ip) + Copies(key, addresses[..j], ip)
    {
      hide Copies, KeysIn;
      ghost var before := result;
      if addresses[j].Some? {
        result := result[addresses[j].value := KeysIn(result, addresses[j].value) + [key]];
      }
      forall ip ensures KeysIn(result, ip) == KeysIn(index, ip) + Copies(key, addresses[..j + 1], ip) {
        IndexOne(index, before, result, key, addresses, j, ip);
      }
    }
    assert addresses[..|addresses|] == addresses;
  }

  /** Known services by key; a later one of the same key wins. */
  function EndpointsOf(services: seq<Service>): map<string, Endpoint>
  {
    if services == [] then map[]
    else
      var s := services[|services| - 1];
      EndpointsOf(services[..|services| - 1])[ServiceKey(s.namespace, s.name) := Endpoint("service", s.namespace, s.name)]
  }

  function Resolve(keys: seq<string>, endpoints: map<string, Endpoint>): seq<Endpoint>
  {
    if keys == [] then []
    else
      var init, key := Resolve(keys[..|keys| - 1], endpoints), keys[|keys| - 1];
      if key in endpoints then init + [endpoints[key]] else init
  }

  /** `servicesForIP` */
  method ServicesForIP(ip: Addr, d: Directory) returns (result: seq<Endpoint>)
    ensures result == Resolve(KeysIn(d.keysByIP, ip), d.endpoints)
  {
    result := [];
    var keys := KeysIn(d.keysByIP, ip);
    for i := 0 to |keys|
      invariant result == Resolve(keys[..i], d.endpoints)
    {
      assert keys[..i + 1][..i] == keys[..i];
      if keys[i] in d.endpoints {
        result := result + [d.endpoints[keys[i]]];
      }
    }
    assert keys[..|keys|] == keys;
  }

  ghost predicate Indexes(d: Directory, catalog: Catalog)
  {
    d.endpoints == EndpointsOf(catalog.services) && forall ip :: KeysIn(d.keysByIP, ip) == KeysAt(catalog.slices, ip)
  }

  method BuildDirectory(catalog: Catalog) returns (d: Directory)
    ensures Indexes(d, catalog)
  {
    var services := catalog.services;
    var keysByIP := BuildServiceIndex(catalog.slices);
    var endpoints: map<string, Endpoint> := map[];
    for i := 0 to |services|
      invariant endpoints == EndpointsOf(services[..i])
    {
      assert services[..i + 1][..i] == services[..i];
      endpoints := endpoints[ServiceKey(services[i].namespace, services[i].name) :=
        Endpoint("service", services[i].namespace, services[i].name)];
    }
    assert services[..|services|] == services;
    d := Directory(keysByIP, endpoints);
  }

  // ---------------------------------------------------------------- the graph

  function SourcesOf(catalog: Catalog, flow: Flow): seq<Endpoint>
  {
    Resolve(KeysAt(catalog.slices, flow.src), EndpointsOf(catalog.services))
  }

  /** Services in front of the destination pod, or the class as an outside endpoint when there are
      none: also for a pod without a service. */
  function TargetsOf(s: Setting, catalog: Catalog, flow: Flow): (r: seq<Endpoint>)
    requires ValidIndex(s.index) && flow.src in s.index.podByIP
    ensures |r| > 0
  {
    var services :=
      if flow.dst !in s.index.podByIP then []
      else Resolve(KeysAt(catalog.slices, flow.dst), EndpointsOf(catalog.services));
    if services == [] then [Endpoint("external", "", ClassOf(s, flow))] else services
  }

  function Fan(src: Endpoint, targets: seq<Endpoint>, cls: string, a: Amount): seq<Entry<ConnKey>>
  {
    if targets == [] then []
    else Fan(src, targets[..|targets| - 1], cls, a) + [(ConnKey(src, targets[|targets| - 1], cls), a)]
  }

  function Pairs(sources: seq<Endpoint>, targets: seq<Endpoint>, cls: string, a: Amount): seq<Entry<ConnKey>>
  {
    if sources == [] then []
    else Pairs(sources[..|sources| - 1], targets, cls, a) + Fan(sources[|sources| - 1], targets, cls, a)
  }

  function FlowPairs(s: Setting, catalog: Catalog, flow: Flow): seq<Entry<ConnKey>>
    requires ValidIndex(s.index) && flow.src in s.index.podByIP
  {
    Pairs(SourcesOf(catalog, flow), TargetsOf(s, catalog, flow), ClassOf(s, flow), AmountOf(s, flow))
  }

  function ServiceGraph(s: Setting, catalog: Catalog, flows: seq<Flow>): map<ConnKey, Amount>
    requires ValidIndex(s.index)
  {
    if flows == [] then map[]
    else
      var init, flow := ServiceGraph(s, catalog, flows[..|flows| - 1]), flows[|flows| - 1];
      if flow.src in s.index.podByIP then PostAll(init, FlowPairs(s, catalog, flow)) else init
  }

  /** The inner loop: one source against every target. */
  method ConnectSource(conns: map<ConnKey, Connection>, ghost ledger: map<ConnKey, Amount>,
      src: Endpoint, targets: seq<Endpoint>, cls: string, tx: nat, rx: nat, cost: real)
    returns (r: map<ConnKey, Connection>)
    requires conns == Recorded(ledger) && cls != ""
    ensures r == Recorded(PostAll(ledger, Fan(src, targets, cls, Amount(tx, rx, cost))))
  {
    hide Recorded, Post;
    ghost var a := Amount(tx, rx, cost);
    r := conns;
    for j := 0 to |targets|
      invariant r == Recorded(PostAll(ledger, Fan(src, targets[..j], cls, a)))
    {
      assert targets[..j + 1][..j] == targets[..j];
      PostAllSnoc(ledger, Fan(src, targets[..j], cls, a), (ConnKey(src, targets[j], cls), a));
      r := AccumulateConnection(r, PostAll(ledger, Fan(src, targets[..j], cls, a)), src, targets[j], cls, tx, rx, cost);
    }
    assert targets[..|targets|] == targets;
  }

  /** What the flow loop does for services. */
  method ConnectServices(conns: map<ConnKey, Connection>, ghost ledger: map<ConnKey, Amount>,
      sources: seq<Endpoint>, targets: seq<Endpoint>, cls: string, tx: nat, rx: nat, cost: real)
    returns (r: map<ConnKey, Connection>)
    requires conns == Recorded(ledger) && cls != ""
    ensures r == Recorded(PostAll(ledger,
      Pairs(sources, if targets == [] then [Endpoint("external", "", cls)] else targets, cls, Amount(tx, rx, cost))))
  {
    hide Recorded, Post, Fan;
    ghost var a := Amount(tx, rx, cost);
    r := conns;
    if |sources| > 0 && |targets| > 0 {
      for i := 0 to |sources|
        invariant r == Recorded(PostAll(ledger, Pairs(sources[..i], targets, cls, a)))
      {
        assert sources[..i + 1][..i] == sources[..i];
        PostAllAppend(ledger, Pairs(sources[..i], targets, cls, a), Fan(sources[i], targets, cls, a));
        r := ConnectSource(r, PostAll(ledger, Pairs(sources[..i], targets, cls, a)), sources[i], targets, cls, tx, rx, cost);
      }
      assert sources[..|sources|] == sources;
    } else if |sources| > 0 {
      var external := [Endpoint("external", "", cls)];
      for i := 0 to |sources|
        invariant r == Recorded(PostAll(ledger, Pairs(sources[..i], external, cls, a)))
      {
        assert sources[..i + 1][..i] == sources[..i];
        PostAllAppend(ledger, Pairs(sources[..i], external, cls, a), Fan(sources[i], external, cls, a));
        r := ConnectSource(r, PostAll(ledger, Pairs(sources[..i], external, cls, a)), sources[i], external, cls, tx, rx, cost);
      }
      assert sources[..|sources|] == sources;
    }
  }

  /** The part of the flow loop of `Build` that concerns services. */
  method ConnectFlowServices(s: Setting, d: Directory, ghost catalog: Catalog, flows: seq<Flow>)
    returns (conns: map<ConnKey, Connection>)
    requires ValidIndex(s.index) && Indexes(d, catalog)
    ensures conns == Recorded(ServiceGraph(s, catalog, flows))
  {
    hide Recorded, ClassifyEgress, Pairs, Resolve, EgressCost;
    EmptyGraph();
    conns := map[];
    for i := 0 to |flows|
      invariant conns == Recorded(ServiceGraph(s, catalog, flows[..i]))
    {
      var flow := flows[i];
      assert flows[..i + 1][..i] == flows[..i];
      if flow.src in s.index.podByIP {
        var cls := ClassifyEgress(s.global, s.index.info[flow.src], flow.dst, s.index.info);
        var cost := EgressCost(s.prices, cls, flow.tx);
        var targets := [];
        if flow.dst in s.index.podByIP {
          targets := ServicesForIP(flow.dst, d);
        }
        var sources := ServicesForIP(flow.src, d);
        conns := ConnectServices(conns, ServiceGraph(s, catalog, flows[..i]), sources, targets, cls, flow.tx, flow.rx, cost);
      }
    }
    assert flows[..|flows|] == flows;
  }

  // ---------------------------------------------------------------- multiplicity

  function Times(n: nat, a: Amount): Amount
  {
    Amount(n * a.tx, n * a.rx, n as real * a.cost)
  }

  /** How often a flow is booked: sources times targets. */
  function Weight(s: Setting, catalog: Catalog, flow: Flow): nat
    requires ValidIndex(s.index) && flow.src in s.index.podByIP
  {
    |SourcesOf(catalog, flow)| * |TargetsOf(s, catalog, flow)|
  }

  function WeightedSum(s: Setting, catalog: Catalog, flows: seq<Flow>): Amount
    requires ValidIndex(s.index)
  {
    if flows == [] then ZERO
    else
      var init, flow := WeightedSum(s, catalog, flows[..|flows| - 1]), flows[|flows| - 1];
      if flow.src in s.index.podByIP then Plus(init, Times(Weight(s, catalog, flow), AmountOf(s, flow))) else init
  }

  lemma TimesAdds(m: nat, n: nat, a: Amount)
    ensures Times(m + n, a) == Plus(Times(m, a), Times(n, a))
  {
    assert (m + n) as real * a.cost == m as real * a.cost + n as real * a.cost;
  }

  lemma {:induction false} FanSum(src: Endpoint, targets: seq<Endpoint>, cls: string, a: Amount)
    ensures Sum(Fan(src, targets, cls, a)) == Times(|targets|, a)
  {
    if targets != [] {
      var init := targets[..|targets| - 1];
      FanSum(src, init, cls, a);
      TimesAdds(|init|, 1, a);
      assert Fan(src, targets, cls, a)[..|Fan(src, init, cls, a)|] == Fan(src, init, cls, a);
    }
  }

  lemma {:induction false} PairsSum(sources: seq<Endpoint>, targets: seq<Endpoint>, cls: string, a: Amount)
    ensures Sum(Pairs(sources, targets, cls, a)) == Times(|sources| * |targets|, a)
  {
    hide Fan, Sum, Times;
    if sources == [] {
      assert Sum<ConnKey>([]) == Times(0, a) by { NoPairs(a); }
    } else {
      var init := sources[..|sources| - 1];
      PairsSum(init, targets, cls, a);
      FanSum(sources[|sources| - 1], targets, cls, a);
      SumAppend(Pairs(init, targets, cls, a), Fan(sources[|sources| - 1], targets, cls, a));
      TimesAdds(|init| * |targets|, |targets|, a);
      assert |init| * |targets| + |targets| == |sources| * |targets|;
    }
  }

  lemma NoPairs(a: Amount)
    ensures Sum<ConnKey>([]) == Times(0, a)
  {
  }

  /** The service graph carries every flow exactly as often as it has pairs of services: never for
      a source without a service, and once per source service when the destination has none. */
  lemma {:induction false} ServiceTotalIsWeighted(s: Setting, catalog: Catalog, flows: seq<Flow>)
    requires ValidIndex(s.index)
    ensures Total(ServiceGraph(s, catalog, flows)) == WeightedSum(s, catalog, flows)
  {
    hide Total, Pairs, Times, ClassOf, Resolve, AmountOf;
    if flows == [] {
      assert Total<ConnKey>(map[]) == ZERO by { NothingTotal<ConnKey>(); }
    } else {
      var flow := flows[|flows| - 1];
      ServiceTotalIsWeighted(s, catalog, flows[..|flows| - 1]);
      if flow.src in s.index.podByIP {
        PostAllTotal(ServiceGraph(s, catalog, flows[..|flows| - 1]), FlowPairs(s, catalog, flow));
        PairsSum(SourcesOf(catalog, flow), TargetsOf(s, catalog, flow), ClassOf(s, flow), AmountOf(s, flow));
      }
    }
  }

  // ---------------------------------------------------------------- who is in front of an address

  predicate AllServices(endpoints: seq<Endpoint>)
  {
    forall i :: 0 <= i < |endpoints| ==> endpoints[i].kind == "service"
  }

  lemma {:induction false} KnownAreServices(services: seq<Service>, key: string)
    requires key in EndpointsOf(services)
    ensures EndpointsOf(services)[key].kind == "service"
  {
    var last := services[|services| - 1];
    hide ServiceKey;
    if key != ServiceKey(last.namespace, last.name) {
      KnownAreServices(services[..|services| - 1], key);
    }
  }

  lemma {:induction false} ResolvedAreServices(keys: seq<string>, services: seq<Service>)
    ensures AllServices(Resolve(keys, EndpointsOf(services)))
  {
    hide EndpointsOf;
    if keys != [] {
      var key := keys[|keys| - 1];
      ResolvedAreServices(keys[..|keys| - 1], services);
      if key in EndpointsOf(services) {
        KnownAreServices(services, key);
      }
    }
  }

  /** A slice or a service is found under its namespace and name, one without either under neither. */
  predicate SameName(namespace: string, name: string, namespace2: string, name2: string)
  {
    if namespace == "" || name == "" then namespace2 == "" || name2 == ""
    else namespace2 != "" && name2 != "" && namespace + "/" + name == namespace2 + "/" + name2
  }

  /** The last known service of that name. */
  function Known(services: seq<Service>, namespace: string, name: string): Option<Endpoint>
  {
    if services == [] then None
    else
      var last := services[|services| - 1];
      if SameName(last.namespace, last.name, namespace, name) then Some(Endpoint("service", last.namespace, last.name))
      else Known(services[..|services| - 1], namespace, name)
  }

  /** How often the labelled slices of service `e` list an address. */
  function Listings(catalog: Catalog, slices: seq<Slice>, ip: Addr, e: Endpoint): nat
  {
    if slices == [] then 0
    else
      var init, last := Listings(catalog, slices[..|slices| - 1], ip, e), slices[|slices| - 1];
      if last.service != "" && Known(catalog.services, last.namespace, last.service) == Some(e)
      then init + multiset(last.addresses)[Some(ip)] else init
  }

  lemma SameNameIsSameKey(namespace: string, name: string, namespace2: string, name2: string)
    ensures SameName(namespace, name, namespace2, name2) <==> ServiceKey(namespace, name) == ServiceKey(namespace2, name2)
  {
    if namespace != "" && name != "" {
      assert |namespace + "/" + name| > 0;
    }
    if namespace2 != "" && name2 != "" {
      assert |namespace2 + "/" + name2| > 0;
    }
  }

  lemma {:induction false} KnownIsEndpoint(services: seq<Service>, namespace: string, name: string)
    ensures var key := ServiceKey(namespace, name);
            Known(services, namespace, name) ==
              if key in EndpointsOf(services) then Some(EndpointsOf(services)[key]) else None
  {
    hide SameName, ServiceKey;
    if services != [] {
      var last := services[|services| - 1];
      SameNameIsSameKey(last.namespace, last.name, namespace, name);
      KnownIsEndpoint(services[..|services| - 1], namespace, name);
    }
  }

  lemma {:induction false} ResolveAppend(xs: seq<string>, ys: seq<string>, endpoints: map<string, Endpoint>)
    ensures Resolve(xs + ys, endpoints) == Resolve(xs, endpoints) + Resolve(ys, endpoints)
  {
    if ys == [] {
      assert xs + ys == xs;
    } else {
      assert (xs + ys)[..|xs + ys| - 1] == xs + ys[..|ys| - 1];
      ResolveAppend(xs, ys[..|ys| - 1], endpoints);
    }
  }

  lemma {:induction false} ResolveCopies(key: string, addresses: seq<Option<Addr>>, ip: Addr,
      endpoints: map<string, Endpoint>, e: Endpoint)
    ensures multiset(Resolve(Copies(key, addresses, ip), endpoints))[e] ==
      if key in endpoints && endpoints[key] == e then multiset(addresses)[Some(ip)] else 0
  {
    if addresses != [] {
      var init, last := addresses[..|addresses| - 1], addresses[|addresses| - 1];
      var more := if last == Some(ip) then [key] else [];
      assert addresses == init + [last];
      assert Copies(key, addresses, ip) == Copies(key, init, ip) + more;
      ResolveCopies(key, init, ip, endpoints, e);
      hide Copies;
      ResolveAppend(Copies(key, init, ip), more, endpoints);
      assert Resolve([], endpoints) == [] && [key][..0] == [];
    }
  }

  lemma {:induction false} ResolveKeysAt(catalog: Catalog, slices: seq<Slice>, ip: Addr, e: Endpoint)
    ensures multiset(Resolve(KeysAt(slices, ip), EndpointsOf(catalog.services)))[e] == Listings(catalog, slices, ip, e)
  {
    hide ServiceKey, Known, EndpointsOf;
    if slices != [] {
      var init, last := slices[..|slices| - 1], slices[|slices| - 1];
      var key := ServiceKey(last.namespace, last.service);
      ResolveKeysAt(catalog, init, ip, e);
      if last.service != "" {
        ResolveAppend(KeysAt(init, ip), Copies(key, last.addresses, ip), EndpointsOf(catalog.services));
        ResolveCopies(key, last.addresses, ip, EndpointsOf(catalog.services), e);
        KnownIsEndpoint(catalog.services, last.namespace, last.service);
      }
    }
  }

  /** The services in front of the source of a flow are those whose slices list its address, each as
      often as they do; likewise in front of a destination pod, and only when there are none the
      destination is the outside under the name of the class. */
  lemma EndsOfFlow(s: Setting, catalog: Catalog, flow: Flow, e: Endpoint)
    requires ValidIndex(s.index) && flow.src in s.index.podByIP
    ensures multiset(SourcesOf(catalog, flow))[e] == Listings(catalog, catalog.slices, flow.src, e)
    ensures var found := if flow.dst in s.index.podByIP then Listings(catalog, catalog.slices, flow.dst, e) else 0;
            var outside := Endpoint("external", "", ClassOf(s, flow));
            && (found > 0 ==> multiset(TargetsOf(s, catalog, flow))[e] == found)
            && (found == 0 && e != outside ==> e !in TargetsOf(s, catalog, flow))
            && (outside in TargetsOf(s, catalog, flow) <==>
                  TargetsOf(s, catalog, flow) == [outside])
            && (outside !in TargetsOf(s, catalog, flow) <==>
                  flow.dst in s.index.podByIP && exists f :: Listings(catalog, catalog.slices, flow.dst, f) > 0)
  {
    ResolveKeysAt(catalog, catalog.slices, flow.src, e);
    ResolveKeysAt(catalog, catalog.slices, flow.dst, e);
    ResolvedAreServices(KeysAt(catalog.slices, flow.dst), catalog.services);
    var found, targets := Resolve(KeysAt(catalog.slices, flow.dst), EndpointsOf(catalog.services)), TargetsOf(s, catalog, flow);
    if flow.dst in s.index.podByIP && found != [] {
      ResolveKeysAt(catalog, catalog.slices, flow.dst, found[0]);
      assert found[0] in multiset(found);
    }
    forall f ensures Listings(catalog, catalog.slices, flow.dst, f) > 0 ==> found != [] {
      ResolveKeysAt(catalog, catalog.slices, flow.dst, f);
    }
    hide ClassOf, Resolve, KeysAt, EndpointsOf, Listings;
    assert forall f :: f in targets <==> f in multiset(targets);
  }

  // ---------------------------------------------------------------- connections against flows

  lemma {:induction false} FanFor(src: Endpoint, targets: seq<Endpoint>, cls: string, a: Amount, k: ConnKey)
    ensures SumFor(Fan(src, targets, cls, a), k) ==
      Times(if k.src == src && k.cls == cls then multiset(targets)[k.dst] else 0, a)
  {
    if targets == [] {
      assert SumFor([], k) == Times(0, a) by { NoPairs(a); }
    } else {
      var init, last := targets[..|targets| - 1], targets[|targets| - 1];
      var n := multiset(init)[k.dst];
      assert targets == init + [last];
      assert Fan(src, targets, cls, a) == Fan(src, init, cls, a) + [(ConnKey(src, last, cls), a)];
      hide SumFor, Times, Plus, Fan;
      FanFor(src, init, cls, a, k);
      SumForSnoc(Fan(src, init, cls, a), (ConnKey(src, last, cls), a), k);
      if k == ConnKey(src, last, cls) {
        assert multiset(targets)[k.dst] == n + 1;
        TimesAdds(n, 1, a);
        TimesOne(a);
      } else {
        PlusZero(SumFor(Fan(src, init, cls, a), k));
        assert k.src == src && k.cls == cls ==> multiset(targets)[k.dst] == n;
      }
    }
  }

  lemma TimesOne(a: Amount)
    ensures Times(1, a) == a
  {
  }

  lemma {:induction false} PairsFor(sources: seq<Endpoint>, targets: seq<Endpoint>, cls: string, a: Amount, k: ConnKey)
    ensures SumFor(Pairs(sources, targets, cls, a), k) ==
      Times(if k.cls == cls then multiset(sources)[k.src] * multiset(targets)[k.dst] else 0, a)
  {
    hide Fan, SumFor, Times;
    if sources == [] {
      assert SumFor<ConnKey>([], k) == Times(0, a) by { NothingFor(k, a); }
    } else {
      var init, last := sources[..|sources| - 1], sources[|sources| - 1];
      assert sources == init + [last];
      var m, n := multiset(init)[k.src], multiset(targets)[k.dst];
      PairsFor(init, targets, cls, a, k);
      FanFor(last, targets, cls, a, k);
      SumForAppend(Pairs(init, targets, cls, a), Fan(last, targets, cls, a), k);
      TimesAdds(m * n, n, a);
      TimesAdds(m * n, 0, a);
      TimesAdds(0, 0, a);
      assert (m + 1) * n == m * n + n;
    }
  }

  lemma NothingFor(k: ConnKey, a: Amount)
    ensures SumFor<ConnKey>([], k) == Times(0, a)
  {
  }

  /** The flows of a class between two services, each as often as it has that pair. */
  function PairFlows(s: Setting, catalog: Catalog, flows: seq<Flow>, k: ConnKey): Amount
    requires ValidIndex(s.index)
  {
    if flows == [] then ZERO
    else
      var init, flow := PairFlows(s, catalog, flows[..|flows| - 1], k), flows[|flows| - 1];
      if flow.src !in s.index.podByIP || ClassOf(s, flow) != k.cls then init
      else
        var pairs := multiset(SourcesOf(catalog, flow))[k.src] * multiset(TargetsOf(s, catalog, flow))[k.dst];
        Plus(init, Times(pairs, AmountOf(s, flow)))
  }

  /** What a service connection carries. */
  lemma {:induction false} ServiceConnectionIsItsFlows(s: Setting, catalog: Catalog, flows: seq<Flow>, k: ConnKey)
    requires ValidIndex(s.index)
    ensures At(ServiceGraph(s, catalog, flows), k) == PairFlows(s, catalog, flows, k)
  {
    hide Pairs, Times, ClassOf, Resolve, AmountOf, PostAll, Plus, SumFor, TargetsOf, SourcesOf;
    if flows != [] {
      var init, flow := flows[..|flows| - 1], flows[|flows| - 1];
      ServiceConnectionIsItsFlows(s, catalog, init, k);
      if flow.src in s.index.podByIP {
        PostAllAt(ServiceGraph(s, catalog, init), FlowPairs(s, catalog, flow), k);
        PairsFor(SourcesOf(catalog, flow), TargetsOf(s, catalog, flow), ClassOf(s, flow), AmountOf(s, flow), k);
        NoTimes(PairFlows(s, catalog, init, k), AmountOf(s, flow));
      }
    }
  }

  lemma NoTimes(x: Amount, a: Amount)
    ensures Plus(x, Times(0, a)) == x
  {
  }

  // ---------------------------------------------------------------- direction

  predicate AllDirected(entries: seq<Entry<ConnKey>>)
  {
    forall i :: 0 <= i < |entries| ==> WellDirected(entries[i].0)
  }

  predicate AllReach(targets: seq<Endpoint>, cls: string)
  {
    forall j :: 0 <= j < |targets| ==> Directed(targets[j], cls)
  }

  lemma AllDirectedAppend(xs: seq<Entry<ConnKey>>, ys: seq<Entry<ConnKey>>)
    ensures AllDirected(xs + ys) <==> AllDirected(xs) && AllDirected(ys)
  {
    hide WellDirected;
    if AllDirected(xs + ys) {
      forall i | 0 <= i < |xs| ensures WellDirected(xs[i].0) {
        assert (xs + ys)[i] == xs[i];
      }
      forall i | 0 <= i < |ys| ensures WellDirected(ys[i].0) {
        assert (xs + ys)[|xs| + i] == ys[i];
      }
    }
  }

  lemma AllReachSnoc(targets: seq<Endpoint>, cls: string)
    requires targets != []
    ensures AllReach(targets, cls) <==>
      AllReach(targets[..|targets| - 1], cls) && Directed(targets[|targets| - 1], cls)
  {
    hide Directed;
    var last := |targets| - 1;
    assert forall j :: 0 <= j < last ==> targets[..last][j] == targets[j];
  }

  lemma {:induction false} FanDirected(src: Endpoint, targets: seq<Endpoint>, cls: string, a: Amount)
    requires src.kind == "service"
    ensures AllDirected(Fan(src, targets, cls, a)) <==> AllReach(targets, cls)
  {
    if targets != [] {
      var init, last := targets[..|targets| - 1], targets[|targets| - 1];
      FanDirected(src, init, cls, a);
      AllReachSnoc(targets, cls);
      AllDirectedAppend(Fan(src, init, cls, a), [(ConnKey(src, last, cls), a)]);
      OneDirected(ConnKey(src, last, cls), a);
      hide Directed, AllDirected, AllReach;
    }
  }

  lemma OneDirected(k: ConnKey, a: Amount)
    ensures AllDirected([(k, a)]) <==> WellDirected(k)
  {
    hide WellDirected;
    assert [(k, a)][0].0 == k;
  }

  lemma {:induction false} PairsDirected(sources: seq<Endpoint>, targets: seq<Endpoint>, cls: string, a: Amount)
    requires AllServices(sources)
    ensures AllDirected(Pairs(sources, targets, cls, a)) <==> sources == [] || AllReach(targets, cls)
  {
    hide AllReach, Fan, WellDirected;
    if sources != [] {
      var init, last := sources[..|sources| - 1], sources[|sources| - 1];
      PairsDirected(init, targets, cls, a);
      FanDirected(last, targets, cls, a);
      AllDirectedAppend(Pairs(init, targets, cls, a), Fan(last, targets, cls, a));
    }
  }

  /** The destination of a flow shows as what it is: it has no entry, is no pod, has a known service
      in front of it, or its class is unknown. */
  predicate ShowsDestination(s: Setting, catalog: Catalog, flow: Flow)
    requires ValidIndex(s.index) && flow.src in s.index.podByIP
  {
    || SourcesOf(catalog, flow) == []
    || flow.dst !in s.index.podByIP
    || Resolve(KeysAt(catalog.slices, flow.dst), EndpointsOf(catalog.services)) != []
    || ClassOf(s, flow) == UNKNOWN
  }

  lemma InsideClass(s: Setting, flow: Flow)
    requires ValidIndex(s.index) && flow.src in s.index.podByIP
    ensures if flow.dst in s.index.podByIP then ClassOf(s, flow) in {INTRA_NODE, INTRA_AZ, INTER_AZ, UNKNOWN}
            else ClassOf(s, flow) in {VPC_PRIVATE, PUBLIC_INTERNET, UNKNOWN}
  {
    hide IsPrivate;
  }

  lemma TargetsReach(s: Setting, catalog: Catalog, flow: Flow)
    requires ValidIndex(s.index) && flow.src in s.index.podByIP
    ensures AllReach(TargetsOf(s, catalog, flow), ClassOf(s, flow)) <==>
      || flow.dst !in s.index.podByIP
      || Resolve(KeysAt(catalog.slices, flow.dst), EndpointsOf(catalog.services)) != []
      || ClassOf(s, flow) == UNKNOWN
  {
    var targets := TargetsOf(s, catalog, flow);
    ResolvedAreServices(KeysAt(catalog.slices, flow.dst), catalog.services);
    InsideClass(s, flow);
    hide ClassOf, Resolve, KeysAt, EndpointsOf;
    assert AllReach(targets, ClassOf(s, flow)) ==> Directed(targets[0], ClassOf(s, flow));
  }

  /** A flow between services is directed according to its class exactly when its destination shows
      as what it is: a pod without a service shows as an outside endpoint. */
  lemma FlowServicesDirectedIff(s: Setting, catalog: Catalog, flow: Flow)
    requires ValidIndex(s.index) && flow.src in s.index.podByIP
    ensures AllDirected(FlowPairs(s, catalog, flow)) <==> ShowsDestination(s, catalog, flow)
  {
    ResolvedAreServices(KeysAt(catalog.slices, flow.src), catalog.services);
    TargetsReach(s, catalog, flow);
    hide AllDirected, AllReach, TargetsOf, ClassOf, Resolve, KeysAt, EndpointsOf, AllServices;
    PairsDirected(SourcesOf(catalog, flow), TargetsOf(s, catalog, flow), ClassOf(s, flow), AmountOf(s, flow));
  }

  /** Service connections leave a service and reach a service or the outside. */
  predicate BetweenServices(k: ConnKey)
  {
    k.src.kind == "service" && (k.dst.kind == "service" || k.dst == Endpoint("external", "", k.cls))
  }

  lemma {:induction false} FanEnds(src: Endpoint, targets: seq<Endpoint>, cls: string, a: Amount, i: nat)
    requires i < |Fan(src, targets, cls, a)|
    requires src.kind == "service" && (AllServices(targets) || targets == [Endpoint("external", "", cls)])
    ensures BetweenServices(Fan(src, targets, cls, a)[i].0)
  {
    var init := targets[..|targets| - 1];
    if i < |Fan(src, init, cls, a)| {
      FanEnds(src, init, cls, a, i);
    }
  }

  lemma {:induction false} PairsEnds(sources: seq<Endpoint>, targets: seq<Endpoint>, cls: string, a: Amount, i: nat)
    requires i < |Pairs(sources, targets, cls, a)|
    requires AllServices(sources) && (AllServices(targets) || targets == [Endpoint("external", "", cls)])
    ensures BetweenServices(Pairs(sources, targets, cls, a)[i].0)
  {
    hide Fan, BetweenServices;
    var init := sources[..|sources| - 1];
    if i < |Pairs(init, targets, cls, a)| {
      PairsEnds(init, targets, cls, a, i);
    } else {
      FanEnds(sources[|sources| - 1], targets, cls, a, i - |Pairs(init, targets, cls, a)|);
    }
  }

  lemma FlowPairsEnds(s: Setting, catalog: Catalog, flow: Flow, k: ConnKey)
    requires ValidIndex(s.index) && flow.src in s.index.podByIP && Mentions(FlowPairs(s, catalog, flow), k)
    ensures BetweenServices(k)
  {
    ResolvedAreServices(KeysAt(catalog.slices, flow.src), catalog.services);
    ResolvedAreServices(KeysAt(catalog.slices, flow.dst), catalog.services);
    hide ClassOf, Resolve, KeysAt, EndpointsOf, Pairs, AmountOf, BetweenServices, AllServices;
    var pairs := FlowPairs(s, catalog, flow);
    var i :| 0 <= i < |pairs| && pairs[i].0 == k;
    PairsEnds(SourcesOf(catalog, flow), TargetsOf(s, catalog, flow), ClassOf(s, flow), AmountOf(s, flow), i);
  }

  lemma {:induction false} ServiceEnds(s: Setting, catalog: Catalog, flows: seq<Flow>, k: ConnKey)
    requires ValidIndex(s.index) && k in ServiceGraph(s, catalog, flows)
    ensures BetweenServices(k)
  {
    hide FlowPairs, BetweenServices, PostAll;
    var init, flow := flows[..|flows| - 1], flows[|flows| - 1];
    if k in ServiceGraph(s, catalog, init) {
      ServiceEnds(s, catalog, init, k);
    } else {
      PostAllKeys(ServiceGraph(s, catalog, init), FlowPairs(s, catalog, flow), k);
      FlowPairsEnds(s, catalog, flow, k);
    }
  }

  ghost predicate GraphDirected(g: map<ConnKey, Amount>)
  {
    forall k :: k in g ==> WellDirected(k)
  }

  lemma PostAllDirected(g: map<ConnKey, Amount>, entries: seq<Entry<ConnKey>>)
    ensures GraphDirected(PostAll(g, entries)) <==> GraphDirected(g) && AllDirected(entries)
  {
    hide WellDirected, PostAll;
    forall k ensures k in PostAll(g, entries) <==> k in g || Mentions(entries, k) {
      PostAllKeys(g, entries, k);
    }
    if GraphDirected(PostAll(g, entries)) {
      forall i | 0 <= i < |entries| ensures WellDirected(entries[i].0) {
        assert Mentions(entries, entries[i].0);
      }
    }
  }

  /** Every connection of the service graph is directed according to its class if and only if the
      destination of every flow that leaves a pod shows as what it is. */
  lemma {:induction false} ServiceGraphDirectedIff(s: Setting, catalog: Catalog, flows: seq<Flow>)
    requires ValidIndex(s.index)
    ensures GraphDirected(ServiceGraph(s, catalog, flows)) <==>
      forall i :: 0 <= i < |flows| && flows[i].src in s.index.podByIP ==> ShowsDestination(s, catalog, flows[i])
  {
    hide ShowsDestination, WellDirected, FlowPairs, PostAll;
    if flows != [] {
      var init, flow := flows[..|flows| - 1], flows[|flows| - 1];
      ServiceGraphDirectedIff(s, catalog, init);
      assert forall i :: 0 <= i < |init| ==> init[i] == flows[i];
      if flow.src in s.index.podByIP {
        FlowServicesDirectedIff(s, catalog, flow);
        PostAllDirected(ServiceGraph(s, catalog, init), FlowPairs(s, catalog, flow));
      }
    }
  }

  /** Two pods on one node; the first is behind a service and the second is not. */
  const WEB := Pod("shop", "web-0", "node", Some(V4(10, 0, 0, 1)), None, false, [])
  const DB := Pod("shop", "db-0", "node", Some(V4(10, 0, 0, 2)), None, false, [])
  const SHOP_NODES := [Node("node", "zone", 1000, 1000, 1.0)]
  const SHOP := Catalog([Slice("shop", "web", [WEB.ip])], [Service("shop", "web")])
  const QUERY := Flow(V4(10, 0, 0, 1), V4(10, 0, 0, 2), 1, 1)

  lemma OneSlice(slice: Slice, x: Option<Addr>, ip: Addr)
    requires slice.service != "" && slice.addresses == [x]
    ensures KeysAt([slice], ip) == if x == Some(ip) then [ServiceKey(slice.namespace, slice.service)] else []
  {
    assert [slice][..0] == [] && [x][..0] == [];
    assert Copies(ServiceKey(slice.namespace, slice.service), [], ip) == [] && KeysAt([], ip) == [];
  }

  lemma OneService(service: Service)
    ensures var key := ServiceKey(service.namespace, service.name);
            Resolve([key], EndpointsOf([service])) == [Endpoint("service", service.namespace, service.name)]
  {
    var key := ServiceKey(service.namespace, service.name);
    assert [service][..0] == [] && [key][..0] == [];
    assert Resolve([], EndpointsOf([service])) == [];
  }

  lemma TwoPods(p: Pod, q: Pod)
    requires p.ip.Some? && q.ip.Some?
    ensures PodsByIP([p, q]) == map[p.ip.value := p][q.ip.value := q]
  {
    assert [p, q][..1] == [p] && [p][..0] == [];
    assert PodsByIP([]) == map[];
  }

  lemma OnePair(src: Endpoint, dst: Endpoint, cls: string, a: Amount)
    ensures Pairs([src], [dst], cls, a) == [(ConnKey(src, dst, cls), a)]
  {
    assert [src][..0] == [] && [dst][..0] == [];
    assert Pairs([], [dst], cls, a) == [] && Fan(src, [], cls, a) == [];
  }

  lemma OneRecord(s: Setting, catalog: Catalog, flow: Flow, k: ConnKey, a: Amount)
    requires ValidIndex(s.index) && flow.src in s.index.podByIP && FlowPairs(s, catalog, flow) == [(k, a)]
    ensures ServiceGraph(s, catalog, [flow]).Keys == {k}
  {
    hide FlowPairs;
    assert [flow][..0] == [] && [(k, a)][..0] == [];
    assert ServiceGraph(s, catalog, []) == map[] && PostAll<ConnKey>(map[], []) == map[];
  }

  lemma ShopSources()
    ensures SourcesOf(SHOP, QUERY) == [Endpoint("service", "shop", "web")]
    ensures KeysAt(SHOP.slices, QUERY.dst) == []
  {
    OneSlice(SHOP.slices[0], WEB.ip, QUERY.src);
    OneSlice(SHOP.slices[0], WEB.ip, QUERY.dst);
    OneService(SHOP.services[0]);
    hide KeysAt, Resolve, EndpointsOf;
  }

  lemma ShopTargets(s: Setting)
    requires s.index == IndexOf(SHOP_NODES, [WEB, DB])
    ensures ValidIndex(s.index) && QUERY.src in s.index.podByIP && QUERY.dst in s.index.podByIP
    ensures ClassOf(s, QUERY) == INTRA_NODE
    ensures TargetsOf(s, SHOP, QUERY) == [Endpoint("external", "", INTRA_NODE)]
  {
    TwoPods(WEB, DB);
    ShopSources();
    assert Resolve([], EndpointsOf(SHOP.services)) == [];
    hide KeysAt, PodsByIP, Zones;
  }

  lemma ShopPairs(s: Setting)
    requires s.index == IndexOf(SHOP_NODES, [WEB, DB])
    ensures ValidIndex(s.index) && QUERY.src in s.index.podByIP && QUERY.dst in s.index.podByIP
    ensures var k := ConnKey(Endpoint("service", "shop", "web"), Endpoint("external", "", INTRA_NODE), INTRA_NODE);
            FlowPairs(s, SHOP, QUERY) == [(k, AmountOf(s, QUERY))]
  {
    ShopSources();
    ShopTargets(s);
    hide SourcesOf, TargetsOf, ClassOf, AmountOf, Pairs, IndexOf;
    OnePair(Endpoint("service", "shop", "web"), Endpoint("external", "", INTRA_NODE), INTRA_NODE, AmountOf(s, QUERY));
  }

  /** The traffic of the first pod to the second is published as going to an external endpoint
      called `intra_node`, and nothing else is. */
  lemma PodWithoutServiceLooksExternal(s: Setting)
    requires s.index == IndexOf(SHOP_NODES, [WEB, DB])
    ensures QUERY.src in s.index.podByIP && QUERY.dst in s.index.podByIP
    ensures ServiceGraph(s, SHOP, [QUERY]).Keys ==
      {ConnKey(Endpoint("service", "shop", "web"), Endpoint("external", "", INTRA_NODE), INTRA_NODE)}
    ensures !GraphDirected(ServiceGraph(s, SHOP, [QUERY]))
  {
    var k := ConnKey(Endpoint("service", "shop", "web"), Endpoint("external", "", INTRA_NODE), INTRA_NODE);
    hide IndexOf, ServiceGraph, FlowPairs, AmountOf;
    ShopPairs(s);
    OneRecord(s, SHOP, QUERY, k, AmountOf(s, QUERY));
    assert k in ServiceGraph(s, SHOP, [QUERY]) && !WellDirected(k);
  }
}
