/** Traffic totals by class, pod, namespace and cluster.

    One pass over the pods books each pod's usage in five places.  The theorems say which of the
    five always agree, and that the others agree exactly as far as every pod's class totals add
    up to its byte totals. */
module NetworkTotals {
  import opened Ledger
  import opened Network
  import opened Order
  import opened NodeCosts
  import opened Connections

  datatype ClassTotals = ClassTotals(cls: string, amount: Amount)

  datatype PodNet = PodNet(namespace: string, pod: string, node: string, amount: Amount, byClass: seq<ClassTotals>)

  datatype NsNet = NsNet(namespace: string, amount: Amount, byClass: map<string, Amount>)

  /** Class totals of the cluster, and the records behind the namespace view. */
  datatype Accounts = Accounts(byClass: map<string, Amount>, nets: map<string, NsNet>)

  /** `costs` are the namespace records of the cost loop; their `net` part is booked here. */
  datatype Books = Books(costs: map<string, NsRecord>, accounts: Accounts, pods: seq<PodNet>, cluster: Amount)

  // ---------------------------------------------------------------- one pod's usage

  /** Bytes without any class entry count as `unknown`. */
  function Effective(u: Usage): Usage
  {
    Usage(u.tx, u.rx,
          if u.tx > 0 && u.txByClass == map[] then map[UNKNOWN := u.tx] else u.txByClass,
          if u.rx > 0 && u.rxByClass == map[] then map[UNKNOWN := u.rx] else u.rxByClass)
  }

  function Sent(prices: Prices, byClass: map<string, nat>): map<string, Amount>
  {
    map c | c in byClass :: Amount(byClass[c], 0, EgressCost(prices, c, byClass[c]))
  }

  function Received(byClass: map<string, nat>): map<string, Amount>
  {
    map c | c in byClass :: Amount(0, byClass[c], 0.0)
  }

  /** The class totals of a pod. */
  ghost function Classes(prices: Prices, u: Usage): map<string, Amount>
  {
    Merge(Regroup(Sent(prices, Effective(u).txByClass), Norm), Regroup(Received(Effective(u).rxByClass), Norm))
  }

  /** Bytes and cost of a pod. */
  ghost function AmountUsed(prices: Prices, u: Usage): Amount
  {
    Amount(u.tx, u.rx, Total(Sent(prices, Effective(u).txByClass)).cost)
  }

  function ByClassName(): ClassTotals -> string
  {
    (t: ClassTotals) => t.cls
  }

  function Titled(totals: map<string, Amount>): map<string, ClassTotals>
  {
    map c | c in totals :: ClassTotals(c, totals[c])
  }

  /** `flattenNetworkTotals` */
  ghost function ClassList(totals: map<string, Amount>): seq<ClassTotals>
  {
    SortedValues(ByName(ByClassName()), Titled(totals))
  }

  method FlattenTotals(totals: map<string, Amount>) returns (r: seq<ClassTotals>)
    ensures r == ClassList(totals)
    ensures Flattens(ByName(ByClassName()), Titled(totals), r)
  {
    r := FlattenNamed(ByClassName(), Titled(totals));
  }

  // ---------------------------------------------------------------- booking

  function NetAt(nets: map<string, NsNet>, ns: string): NsNet
  {
    if ns in nets then nets[ns] else NsNet(ns, ZERO, map[])
  }

  /** `accumulateNetworkTotals` */
  method AccumulateTotals(target: map<string, Amount>, cls: string, tx: nat, rx: nat, cost: real)
    returns (r: map<string, Amount>)
    ensures r == Post(target, Norm(cls), Amount(tx, rx, cost))
  {
    var trafficClass := cls;
    if trafficClass == "" {
      trafficClass := UNKNOWN;
    }
    r := target;
    if trafficClass !in r {
      r := r[trafficClass := ZERO];
    }
    var t := r[trafficClass];
    r := r[trafficClass := Amount(t.tx + tx, t.rx + rx, t.cost + cost)];
  }

  /** Booking class totals under a namespace: the record appears with the first class. */
  ghost function Booked(a: Accounts, ns: string, classes: map<string, Amount>): Accounts
  {
    if classes == map[] then a
    else
      var n := NetAt(a.nets, ns);
      Accounts(Merge(a.byClass, classes),
               a.nets[ns := NsNet(n.namespace, Plus(n.amount, Total(classes)), Merge(n.byClass, classes))])
  }

  /** Booking one more class entry. */
  function BookedOne(a: Accounts, ns: string, cls: string, x: Amount): Accounts
  {
    var n := NetAt(a.nets, ns);
    Accounts(Post(a.byClass, Norm(cls), x),
             a.nets[ns := NsNet(n.namespace, Plus(n.amount, x), Post(n.byClass, Norm(cls), x))])
  }

  lemma BookedNet(a: Accounts, ns: string, classes: map<string, Amount>)
    ensures Booked(a, ns, classes).byClass == Merge(a.byClass, classes)
    ensures var n := NetAt(a.nets, ns);
            NetAt(Booked(a, ns, classes).nets, ns) ==
              NsNet(n.namespace, Plus(n.amount, Total(classes)), Merge(n.byClass, classes))
  {
    hide Merge;
    MergeNothing(a.byClass);
    MergeNothing(NetAt(a.nets, ns).byClass);
    if classes == map[] {
      assert Total(classes) == ZERO;
    }
  }

  lemma BookedOver(a: Accounts, ns: string, classes: map<string, Amount>, r: NsNet)
    ensures Booked(a, ns, classes).nets[ns := r] == a.nets[ns := r]
  {
  }

  lemma BookMore(a: Accounts, ns: string, classes: map<string, Amount>, cls: string, x: Amount)
    ensures BookedOne(Booked(a, ns, classes), ns, cls, x) == Booked(a, ns, Post(classes, Norm(cls), x))
  {
    var more, n := Post(classes, Norm(cls), x), NetAt(a.nets, ns);
    assert Norm(cls) in more;
    BookedOver(a, ns, classes, NsNet(n.namespace, Plus(n.amount, Total(more)), Merge(n.byClass, more)));
    BookedNet(a, ns, classes);
    assert Booked(a, ns, more) ==
      Accounts(Merge(a.byClass, more), a.nets[ns := NsNet(n.namespace, Plus(n.amount, Total(more)), Merge(n.byClass, more))]);
    hide Booked, Merge, Post, Total, Norm, NetAt;
    MergePost(a.byClass, classes, Norm(cls), x);
    MergePost(n.byClass, classes, Norm(cls), x);
    TotalPost(classes, Norm(cls), x);
    assert Plus(Plus(n.amount, Total(classes)), x) == Plus(n.amount, Total(more));
  }

  ghost function BookedPod(prices: Prices, b: Books, pod: Pod, u: Usage): Books
    requires pod.namespace in b.costs
  {
    var rec, used, classes := b.costs[pod.namespace], AmountUsed(prices, u), Classes(prices, u);
    Books(b.costs[pod.namespace := rec.(net := Plus(rec.net, used))],
          Booked(b.accounts, pod.namespace, classes),
          b.pods + [PodNet(pod.namespace, pod.name, pod.node, used, ClassList(classes))],
          Plus(b.cluster, used))
  }

  /** The part of a ledger at the keys already visited. */
  function Visited<K>(m: map<K, Amount>, ks: set<K>): map<K, Amount>
  {
    map k | k in m && k in ks :: m[k]
  }

  lemma VisitOne<K>(m: map<K, Amount>, done: set<K>, k: K)
    requires k in m && k !in done
    ensures Visited(m, done + {k}) == Post(Visited(m, done), k, m[k])
  {
    PostFresh(Visited(m, done), k, m[k]);
  }

  lemma VisitedAll<K>(m: map<K, Amount>)
    ensures Visited(m, m.Keys) == m && Visited(m, {}) == map[]
  {
  }

  /** The body of either class loop. */
  method BookClass(a: Accounts, podTotals: map<string, Amount>, ns: string, cls: string, tx: nat, rx: nat, cost: real,
      ghost start: Accounts)
    returns (r: Accounts, totals: map<string, Amount>)
    requires a == Booked(start, ns, podTotals)
    ensures totals == Post(podTotals, Norm(cls), Amount(tx, rx, cost))
    ensures r == Booked(start, ns, totals)
  {
    BookMore(start, ns, podTotals, cls, Amount(tx, rx, cost));
    hide Booked, Post;
    totals := AccumulateTotals(podTotals, cls, tx, rx, cost);
    var byClass := AccumulateTotals(a.byClass, cls, tx, rx, cost);
    var net := NetAt(a.nets, ns);
    var nsByClass := AccumulateTotals(net.byClass, cls, tx, rx, cost);
    var amount := net.amount;
    r := Accounts(byClass, a.nets[ns := NsNet(net.namespace,
      Amount(amount.tx + tx, amount.rx + rx, amount.cost + cost), nsByClass)]);
  }

  lemma BookedNothing(a: Accounts, ns: string)
    ensures Booked(a, ns, map[]) == a
    ensures Regroup(map[], Norm) == map[] && Total<string>(map[]) == ZERO
  {
  }

  /** The loop over `TxBytesByClass`, in any order. */
  method BookSent(prices: Prices, a: Accounts, ns: string, byClass: map<string, nat>)
    returns (r: Accounts, totals: map<string, Amount>, cost: real)
    ensures totals == Regroup(Sent(prices, byClass), Norm)
    ensures cost == Total(Sent(prices, byClass)).cost
    ensures r == Booked(a, ns, totals)
  {
    var todo := byClass.Keys;
    ghost var sent, done := Sent(prices, byClass), {};
    r, totals, cost := a, map[], 0.0;
    BookedNothing(a, ns);
    VisitedAll(sent);
    hide Booked, Regroup, Total, Visited, Post, EgressCost, Norm;
    while todo != {}
      invariant todo <= byClass.Keys && done == byClass.Keys - todo
      invariant totals == Regroup(Visited(sent, done), Norm)
      invariant cost == Total(Visited(sent, done)).cost
      invariant r == Booked(a, ns, totals)
      decreases todo
    {
      var cls :| cls in todo;
      VisitOne(sent, done, cls);
      RegroupPost(Visited(sent, done), cls, sent[cls], Norm);
      TotalPost(Visited(sent, done), cls, sent[cls]);
      var price := EgressCost(prices, cls, byClass[cls]);
      cost := cost + price;
      r, totals := BookClass(r, totals, ns, cls, byClass[cls], 0, price, a);
      todo, done := todo - {cls}, done + {cls};
    }
    assert done == sent.Keys;
  }

  /** The loop over `RxBytesByClass`, on top of what was sent. */
  method BookReceived(a: Accounts, sent: map<string, Amount>, ns: string, byClass: map<string, nat>, ghost start: Accounts)
    returns (r: Accounts, totals: map<string, Amount>)
    requires a == Booked(start, ns, sent)
    ensures totals == Merge(sent, Regroup(Received(byClass), Norm))
    ensures r == Booked(start, ns, totals)
  {
    var todo := byClass.Keys;
    ghost var received, done := Received(byClass), {};
    r, totals := a, sent;
    VisitedAll(received);
    MergeNothing(sent);
    BookedNothing(a, ns);
    hide Booked, Regroup, Visited, Post, Merge, Norm;
    while todo != {}
      invariant todo <= byClass.Keys && done == byClass.Keys - todo
      invariant totals == Merge(sent, Regroup(Visited(received, done), Norm))
      invariant r == Booked(start, ns, totals)
      decreases todo
    {
      var cls :| cls in todo;
      VisitOne(received, done, cls);
      RegroupPost(Visited(received, done), cls, received[cls], Norm);
      MergePost(sent, Regroup(Visited(received, done), Norm), Norm(cls), received[cls]);
      r, totals := BookClass(r, totals, ns, cls, 0, byClass[cls], 0.0, start);
      todo, done := todo - {cls}, done + {cls};
    }
    assert done == received.Keys;
  }

  /** One turn of the network loop. */
  method BookPod(prices: Prices, b: Books, pod: Pod, usage: Usage) returns (r: Books)
    requires pod.namespace in b.costs
    ensures r == BookedPod(prices, b, pod, usage)
  {
    hide Booked, Merge, Regroup, Total, ClassList, Sent, Received, Flattens, Titled, Norm, Plus;
    var netUsage := usage;
    if netUsage.tx > 0 && |netUsage.txByClass| == 0 {
      netUsage := netUsage.(txByClass := map[UNKNOWN := netUsage.tx]);
    }
    if netUsage.rx > 0 && |netUsage.rxByClass| == 0 {
      netUsage := netUsage.(rxByClass := map[UNKNOWN := netUsage.rx]);
    }
    assert netUsage == Effective(usage);
    hide Effective;
    var costs, cluster := b.costs, b.cluster;
    if netUsage.tx > 0 || netUsage.rx > 0 {
      var ns := costs[pod.namespace];
      var bytes := Amount(netUsage.tx, netUsage.rx, 0.0);
      costs := costs[pod.namespace := ns.(net := Plus(ns.net, bytes))];
      cluster := Plus(cluster, bytes);
    }
    var accounts, sent, cost := BookSent(prices, b.accounts, pod.namespace, netUsage.txByClass);
    var ns := costs[pod.namespace];
    costs := costs[pod.namespace := ns.(net := Plus(ns.net, Amount(0, 0, cost)))];
    ghost var atFirst := b.accounts;
    var totals;
    accounts, totals := BookReceived(accounts, sent, pod.namespace, netUsage.rxByClass, atFirst);
    var list := FlattenTotals(totals);
    var record := PodNet(pod.namespace, pod.name, pod.node, Amount(netUsage.tx, netUsage.rx, cost), list);
    r := Books(costs, accounts, b.pods + [record], Plus(cluster, Amount(0, 0, cost)));
    BytesThenCost(b.costs[pod.namespace].net, netUsage.tx, netUsage.rx, cost);
    BytesThenCost(b.cluster, netUsage.tx, netUsage.rx, cost);
    CostsAgree(b.costs, costs, pod.namespace, AmountUsed(prices, usage));
  }

  lemma BytesThenCost(a: Amount, tx: nat, rx: nat, cost: real)
    ensures Plus(if tx > 0 || rx > 0 then Plus(a, Amount(tx, rx, 0.0)) else a, Amount(0, 0, cost)) ==
      Plus(a, Amount(tx, rx, cost))
  {
  }

  lemma CostsAgree(m: map<string, NsRecord>, n: map<string, NsRecord>, ns: string, a: Amount)
    requires ns in m && n.Keys == m.Keys
    requires n[ns] == m[ns].(net := Plus(m[ns].net, a))
    requires forall k :: k in m && k != ns ==> n[k] == m[k]
    ensures n == m[ns := m[ns].(net := Plus(m[ns].net, a))]
  {
  }

  /** The network loop; `usage` is keyed by pod key. */
  ghost function BookedPods(prices: Prices, b: Books, usage: map<string, Usage>, pods: seq<Pod>): (r: Books)
    requires forall p :: p in pods && !Skip(p) ==> p.namespace in b.costs
    ensures r.costs.Keys == b.costs.Keys
  {
    if pods == [] then b
    else
      var init, pod := BookedPods(prices, b, usage, pods[..|pods| - 1]), pods[|pods| - 1];
      if Skip(pod) then init else BookedPod(prices, init, pod, UsageOf(usage, KeyOf(pod)))
  }

  method BookPods(prices: Prices, b: Books, usage: map<string, Usage>, pods: seq<Pod>) returns (r: Books)
    requires forall p :: p in pods && !Skip(p) ==> p.namespace in b.costs
    ensures r == BookedPods(prices, b, usage, pods)
  {
    r := b;
    for i := 0 to |pods|
      invariant r == BookedPods(prices, b, usage, pods[..i])
    {
      hide BookedPod;
      assert pods[..i + 1][..i] == pods[..i];
      if !Skip(pods[i]) {
        r := BookPod(prices, r, pods[i], UsageOf(usage, KeyOf(pods[i])));
      }
    }
    assert pods[..|pods|] == pods;
  }

  // ---------------------------------------------------------------- the views against each other

  function Nets(costs: map<string, NsRecord>): map<string, Amount>
  {
    map n | n in costs :: costs[n].net
  }

  function NetAmounts(nets: map<string, NsNet>): map<string, Amount>
  {
    map n | n in nets :: nets[n].amount
  }

  /** What every namespace booked under one class. */
  function Column(nets: map<string, NsNet>, cls: string): map<string, Amount>
  {
    map n | n in nets :: At(nets[n].byClass, cls)
  }

  function OfPod(): PodNet -> Amount
  {
    (r: PodNet) => r.amount
  }

  /** The sum of all class entries of the counted pods. */
  ghost function SumClasses(prices: Prices, usage: map<string, Usage>, pods: seq<Pod>): Amount
  {
    if pods == [] then ZERO
    else
      var init, pod := SumClasses(prices, usage, pods[..|pods| - 1]), pods[|pods| - 1];
      if Skip(pod) then init else Plus(init, Total(Classes(prices, UsageOf(usage, KeyOf(pod)))))
  }

  /** By pod, by namespace record and for the cluster. */
  ghost predicate BytesAgree(b: Books)
  {
    Total(Nets(b.costs)) == b.cluster && SumOf(OfPod(), b.pods) == b.cluster
  }

  /** By class and by namespace network record, and class by class. */
  ghost predicate ClassesAgree(a: Accounts)
  {
    && Total(NetAmounts(a.nets)) == Total(a.byClass)
    && (forall n :: n in a.nets ==> Total(a.nets[n].byClass) == a.nets[n].amount)
    && (forall cls: string :: Total(Column(a.nets, cls)) == At(a.byClass, cls))
  }

  lemma NetsAfter(prices: Prices, b: Books, pod: Pod, u: Usage)
    requires pod.namespace in b.costs
    ensures Nets(BookedPod(prices, b, pod, u).costs) == Post(Nets(b.costs), pod.namespace, AmountUsed(prices, u))
  {
    hide AmountUsed, Classes, Booked, ClassList;
  }

  lemma BytesAgreeAfter(prices: Prices, b: Books, pod: Pod, u: Usage)
    requires pod.namespace in b.costs && BytesAgree(b)
    ensures BytesAgree(BookedPod(prices, b, pod, u))
  {
    var used := AmountUsed(prices, u);
    var next := BookedPod(prices, b, pod, u);
    NetsAfter(prices, b, pod, u);
    hide AmountUsed, Nets, Total, Classes, Booked, ClassList;
    TotalPost(Nets(b.costs), pod.namespace, used);
    assert next.pods[..|b.pods|] == b.pods;
  }

  lemma ColumnPost(a: Accounts, ns: string, classes: map<string, Amount>, cls: string)
    requires classes != map[]
    ensures Column(Booked(a, ns, classes).nets, cls) == Post(Column(a.nets, cls), ns, At(classes, cls))
  {
    hide Total, Merge;
    MergeAt(NetAt(a.nets, ns).byClass, classes, cls);
  }

  lemma ColumnAfter(a: Accounts, ns: string, classes: map<string, Amount>, cls: string)
    requires Total(Column(a.nets, cls)) == At(a.byClass, cls)
    ensures var next := Booked(a, ns, classes);
            Total(Column(next.nets, cls)) == At(next.byClass, cls)
  {
    if classes != map[] {
      hide Total, Merge;
      MergeAt(a.byClass, classes, cls);
      ColumnPost(a, ns, classes, cls);
      hide Column, Post;
      TotalPost(Column(a.nets, cls), ns, At(classes, cls));
    }
  }

  lemma ClassesAgreeAfter(a: Accounts, ns: string, classes: map<string, Amount>)
    requires ClassesAgree(a)
    ensures ClassesAgree(Booked(a, ns, classes))
  {
    if classes != map[] {
      var next := Booked(a, ns, classes);
      NetAmountsAfter(a, ns, classes);
      forall cls: string ensures Total(Column(next.nets, cls)) == At(next.byClass, cls) {
        ColumnAfter(a, ns, classes, cls);
      }
      hide Total, Merge, Column;
      TotalPost(NetAmounts(a.nets), ns, Total(classes));
      TotalMerge(a.byClass, classes);
      RowAfter(a, ns, classes);
    }
  }

  lemma NetAmountsAfter(a: Accounts, ns: string, classes: map<string, Amount>)
    requires classes != map[]
    ensures NetAmounts(Booked(a, ns, classes).nets) == Post(NetAmounts(a.nets), ns, Total(classes))
  {
    hide Total;
  }

  lemma RowAfter(a: Accounts, ns: string, classes: map<string, Amount>)
    requires ClassesAgree(a) && classes != map[]
    ensures var next := Booked(a, ns, classes);
            forall n :: n in next.nets ==> Total(next.nets[n].byClass) == next.nets[n].amount
  {
    var row := NetAt(a.nets, ns);
    assert Total(row.byClass) == row.amount;
    TotalMerge(row.byClass, classes);
    hide Total, Merge, Column;
  }

  lemma ClassTotalAfter(a: Accounts, ns: string, classes: map<string, Amount>)
    ensures Total(Booked(a, ns, classes).byClass) == Plus(Total(a.byClass), Total(classes))
  {
    BookedNet(a, ns, classes);
    TotalMerge(a.byClass, classes);
  }

  /** Nothing booked yet. */
  ghost predicate Blank(b: Books)
  {
    && (forall n :: n in b.costs ==> b.costs[n].net == ZERO)
    && b.accounts.byClass == map[]
    && (forall n :: n in b.accounts.nets ==> b.accounts.nets[n] == NsNet(n, ZERO, map[]))
    && b.pods == [] && b.cluster == ZERO
  }

  lemma BlankAgrees(b: Books)
    requires Blank(b)
    ensures BytesAgree(b) && ClassesAgree(b.accounts)
  {
    ZeroTotal(Nets(b.costs), Nets(b.costs).Keys);
    ZeroTotal(NetAmounts(b.accounts.nets), NetAmounts(b.accounts.nets).Keys);
    forall cls: string ensures Total(Column(b.accounts.nets, cls)) == At(b.accounts.byClass, cls) {
      ZeroTotal(Column(b.accounts.nets, cls), Column(b.accounts.nets, cls).Keys);
    }
  }

  /** Whatever the usage: pods, namespace records and cluster carry the same bytes and cost; class
      totals and namespace network records carry the same, class by class; and the latter is the
      sum of the pods' class entries. */
  lemma {:induction false} ViewsAgree(prices: Prices, b: Books, usage: map<string, Usage>, pods: seq<Pod>)
    requires forall p :: p in pods && !Skip(p) ==> p.namespace in b.costs
    requires Blank(b)
    ensures var r := BookedPods(prices, b, usage, pods);
            BytesAgree(r) && ClassesAgree(r.accounts) && Total(r.accounts.byClass) == SumClasses(prices, usage, pods)
  {
    hide BytesAgree, ClassesAgree, Classes, AmountUsed, Booked, Total, ClassList;
    if pods == [] {
      BlankAgrees(b);
      NothingTotal<string>();
    } else {
      var init, pod := pods[..|pods| - 1], pods[|pods| - 1];
      ViewsAgree(prices, b, usage, init);
      if !Skip(pod) {
        assert pod in pods;
        var before, u := BookedPods(prices, b, usage, init), UsageOf(usage, KeyOf(pod));
        BytesAgreeAfter(prices, before, pod, u);
        ClassesAgreeAfter(before.accounts, pod.namespace, Classes(prices, u));
        ClassTotalAfter(before.accounts, pod.namespace, Classes(prices, u));
      }
    }
  }

  /** The class entries of a pod add up to its bytes, or there are none. */
  ghost predicate Balanced(u: Usage)
  {
    && (u.txByClass == map[] || Total(Received(u.txByClass)).rx == u.tx)
    && (u.rxByClass == map[] || Total(Received(u.rxByClass)).rx == u.rx)
  }

  lemma {:induction false} SentTotal(prices: Prices, m: map<string, nat>, ks: set<string>)
    requires ks <= m.Keys
    ensures TotalAt(Sent(prices, m), ks).tx == TotalAt(Received(m), ks).rx
    ensures TotalAt(Sent(prices, m), ks).rx == 0
    ensures TotalAt(Received(m), ks).tx == 0 && TotalAt(Received(m), ks).cost == 0.0
  {
    hide EgressCost;
    if ks != {} {
      var k := TotalAtUnfold(Sent(prices, m), ks);
      TotalAtRemove(Received(m), ks, k);
      SentTotal(prices, m, ks - {k});
    }
  }

  /** One side of a class, where bytes without a class count as `unknown`. */
  function SideOf(m: map<string, Amount>, cls: string): Amount
  {
    if cls == "" then ZERO
    else if cls == "unknown" then Plus(At(m, ""), At(m, "unknown"))
    else At(m, cls)
  }

  lemma RegroupWithin(m: map<string, Amount>, cls: string, all: set<string>)
    requires forall c :: c in m && Norm(c) == cls ==> c in all
    requires forall c :: c in all && c in m ==> Norm(c) == cls
    ensures At(Regroup(m, Norm), cls) == TotalAt(m, all)
  {
    var ks := Fibre(m, Norm, cls);
    RegroupAt(m, Norm, cls);
    hide TotalAt, Regroup;
    TotalAtMissing(m, ks, all - ks);
    assert ks + (all - ks) == all;
  }

  lemma TotalOne(m: map<string, Amount>, c: string)
    ensures TotalAt(m, {c}) == At(m, c)
  {
    TotalAtRemove(m, {c}, c);
    assert {c} - {c} == {};
    PlusZero(At(m, c));
  }

  lemma TotalTwo(m: map<string, Amount>, c: string, d: string)
    requires c != d
    ensures TotalAt(m, {c, d}) == Plus(At(m, c), At(m, d))
  {
    hide TotalAt;
    TotalAtRemove(m, {c, d}, d);
    assert {c, d} - {d} == {c};
    TotalOne(m, c);
  }

  lemma SideIsRegrouped(m: map<string, Amount>, cls: string)
    ensures At(Regroup(m, Norm), cls) == SideOf(m, cls)
  {
    hide Regroup, TotalAt;
    if cls == "" {
      RegroupWithin(m, cls, {});
      assert TotalAt(m, {}) == ZERO by { NoneAt(m); }
    } else if cls == "unknown" {
      RegroupWithin(m, cls, {"", "unknown"});
      TotalTwo(m, "", "unknown");
    } else {
      RegroupWithin(m, cls, {cls});
      TotalOne(m, cls);
    }
  }

  lemma NoneAt(m: map<string, Amount>)
    ensures TotalAt(m, {}) == ZERO
  {
  }

  /** What a pod counts under a class: the bytes sent and their cost, and the bytes received; a missing
      class is `unknown`, and nothing is counted without a class. */
  lemma ClassesMeaning(prices: Prices, u: Usage, cls: string)
    ensures At(Classes(prices, u), cls) ==
      Plus(SideOf(Sent(prices, Effective(u).txByClass), cls), SideOf(Received(Effective(u).rxByClass), cls))
    ensures "" !in Classes(prices, u)
  {
    var sent, received := Sent(prices, Effective(u).txByClass), Received(Effective(u).rxByClass);
    SideIsRegrouped(sent, cls);
    SideIsRegrouped(received, cls);
    MergeAt(Regroup(sent, Norm), Regroup(received, Norm), cls);
    hide Sent, Received, Effective, SideOf, Plus;
  }

  lemma ClassesParts(prices: Prices, u: Usage)
    ensures Total(Classes(prices, u)) ==
      Plus(Total(Sent(prices, Effective(u).txByClass)), Total(Received(Effective(u).rxByClass)))
  {
    var sent, received := Sent(prices, Effective(u).txByClass), Received(Effective(u).rxByClass);
    hide Sent, Received, Regroup, Merge, Effective, Total, Plus;
    RegroupTotal(sent, Norm);
    RegroupTotal(received, Norm);
    TotalMerge(Regroup(sent, Norm), Regroup(received, Norm));
  }

  /** What a pod's class entries add up to. */
  lemma ClassesTotal(prices: Prices, u: Usage)
    ensures var e := Effective(u);
            Total(Classes(prices, u)) ==
              Amount(Total(Received(e.txByClass)).rx, Total(Received(e.rxByClass)).rx, AmountUsed(prices, u).cost)
  {
    hide Sent, Received, Effective, Total, Classes;
    ClassesParts(prices, u);
    SidesTotal(prices, Effective(u).txByClass);
    SidesTotal(prices, Effective(u).rxByClass);
  }

  lemma SidesTotal(prices: Prices, m: map<string, nat>)
    ensures Total(Sent(prices, m)).tx == Total(Received(m)).rx && Total(Sent(prices, m)).rx == 0
    ensures Total(Received(m)).tx == 0 && Total(Received(m)).cost == 0.0
  {
    assert Sent(prices, m).Keys == m.Keys && Received(m).Keys == m.Keys;
    hide Sent, Received, TotalAt;
    SentTotal(prices, m, m.Keys);
  }

  lemma OneClass(bytes: nat)
    ensures Total(Received(map[UNKNOWN := bytes])).rx == bytes
  {
    var m := Received(map[UNKNOWN := bytes]);
    assert m == map[UNKNOWN := Amount(0, bytes, 0.0)];
    TotalAtRemove(m, m.Keys, UNKNOWN);
    assert m.Keys - {UNKNOWN} == {};
  }

  /** A pod's class view and byte view are the same amount exactly when it is balanced, or has
      neither bytes nor entries in a direction. */
  lemma SameAmountIffBalanced(prices: Prices, u: Usage)
    ensures Total(Classes(prices, u)) == AmountUsed(prices, u) <==> Balanced(u)
  {
    ClassesTotal(prices, u);
    OneClass(u.tx);
    OneClass(u.rx);
    NothingReceived();
    hide Total, Classes, Received;
  }

  lemma NothingReceived()
    ensures Total(Received(map[])).rx == 0
  {
  }

  ghost predicate AllBalanced(usage: map<string, Usage>, pods: seq<Pod>)
  {
    forall p :: p in pods && !Skip(p) ==> Balanced(UsageOf(usage, KeyOf(p)))
  }

  /** With balanced usage the five views of the traffic are one. */
  lemma {:induction false} AllViewsAgree(prices: Prices, b: Books, usage: map<string, Usage>, pods: seq<Pod>)
    requires forall p :: p in pods && !Skip(p) ==> p.namespace in b.costs
    requires Blank(b) && AllBalanced(usage, pods)
    ensures var r := BookedPods(prices, b, usage, pods);
            && r.cluster == SumOf(OfPod(), r.pods) == Total(Nets(r.costs))
            && r.cluster == Total(r.accounts.byClass) == Total(NetAmounts(r.accounts.nets))
  {
    ViewsAgree(prices, b, usage, pods);
    ClusterIsClasses(prices, b, usage, pods);
  }

  lemma {:induction false} ClusterIsClasses(prices: Prices, b: Books, usage: map<string, Usage>, pods: seq<Pod>)
    requires forall p :: p in pods && !Skip(p) ==> p.namespace in b.costs
    requires Blank(b) && AllBalanced(usage, pods)
    ensures BookedPods(prices, b, usage, pods).cluster == SumClasses(prices, usage, pods)
  {
    hide Classes, AmountUsed, Booked, Total, ClassList, Balanced;
    if pods != [] {
      var init, pod := pods[..|pods| - 1], pods[|pods| - 1];
      ClusterIsClasses(prices, b, usage, init);
      if !Skip(pod) {
        assert pod in pods;
        SameAmountIffBalanced(prices, UsageOf(usage, KeyOf(pod)));
      }
    }
  }

  /** The cost never depends on balance: all five views charge the same. */
  lemma {:induction false} CostsAlwaysAgree(prices: Prices, b: Books, usage: map<string, Usage>, pods: seq<Pod>)
    requires forall p :: p in pods && !Skip(p) ==> p.namespace in b.costs
    requires Blank(b)
    ensures BookedPods(prices, b, usage, pods).cluster.cost == SumClasses(prices, usage, pods).cost
  {
    hide Classes, AmountUsed, Booked, Total, ClassList;
    if pods != [] {
      var init, pod := pods[..|pods| - 1], pods[|pods| - 1];
      CostsAlwaysAgree(prices, b, usage, init);
      if !Skip(pod) {
        assert pod in pods;
        ClassesTotal(prices, UsageOf(usage, KeyOf(pod)));
      }
    }
  }
}
