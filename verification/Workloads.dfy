/** Workloads from pod costs: one record per controller, and the label value most of its pods have. */
module Workloads {
  import opened Aggregator
  import opened Ledger
  import opened Lists
  import opened Order

  // ---------------------------------------------------------------- the most common value

  /** Among `ks`: the value counted most often, the smallest one on a tie, "" when nothing counts. */
  predicate MostCommon(freq: map<string, nat>, ks: set<string>, v: string)
    requires ks <= freq.Keys
  {
    || (v == "" && forall w :: w in ks ==> freq[w] == 0)
    || (v in ks && freq[v] > 0 && forall w :: w in ks ==> freq[w] < freq[v] || (freq[w] == freq[v] && !StrLess(w, v)))
  }

  /** So whatever order the map is visited in, there is only one answer. */
  lemma MostCommonIsUnique(freq: map<string, nat>, v: string, w: string)
    requires MostCommon(freq, freq.Keys, v) && MostCommon(freq, freq.Keys, w)
    ensures v == w
  {
    StrTrichotomy(v, w);
  }

  /** `mostCommonValue` */
  method MostCommonValue(freq: map<string, nat>) returns (bestValue: string)
    ensures MostCommon(freq, freq.Keys, bestValue)
  {
    hide StrLess;
    bestValue := "";
    var bestCount := 0;
    var todo := freq.Keys;
    while todo != {}
      invariant todo <= freq.Keys
      invariant MostCommon(freq, freq.Keys - todo, bestValue)
      invariant bestCount == if bestValue in freq.Keys - todo then freq[bestValue] else 0
      decreases todo
    {
      var value :| value in todo;
      var count := freq[value];
      BetterValue(freq, freq.Keys - todo, bestValue, value, bestCount);
      if count > bestCount || (count == bestCount && StrLess(value, bestValue)) {
        bestValue, bestCount := value, count;
      }
      assert freq.Keys - (todo - {value}) == freq.Keys - todo + {value};
      todo := todo - {value};
    }
    assert freq.Keys - {} == freq.Keys;
  }

  lemma BetterValue(freq: map<string, nat>, seen: set<string>, best: string, value: string, bestCount: nat)
    requires seen <= freq.Keys && value in freq && value !in seen
    requires MostCommon(freq, seen, best) && bestCount == if best in seen then freq[best] else 0
    ensures var better := freq[value] > bestCount || (freq[value] == bestCount && StrLess(value, best));
            var next := if better then value else best;
            && MostCommon(freq, seen + {value}, next)
            && (if better then freq[value] else bestCount) == if next in seen + {value} then freq[next] else 0
  {
    hide StrLess;
    NothingBelowEmpty(value);
    StrTrichotomy(value, best);
    StrTrichotomy(value, value);
    if freq[value] == bestCount && StrLess(value, best) {
      forall w | w in seen ensures freq[w] < freq[value] || (freq[w] == freq[value] && !StrLess(w, value)) {
        if StrLess(w, value) {
          StrTransitive(w, value, best);
        }
      }
    }
  }

  lemma NothingBelowEmpty(v: string)
    ensures !StrLess(v, "")
  {
  }

  // ---------------------------------------------------------------- aggregation by controller

  datatype WorkloadKey = WorkloadKey(namespace: string, kind: string, name: string)

  datatype Tally = Tally(
    amount: Amount,
    requests: Amount,
    replicas: nat,
    nodes: set<string>,
    team: map<string, nat>,
    env: map<string, nat>)

  const NO_TALLY := Tally(ZERO, ZERO, 0, {}, map[], map[])

  datatype Workload = Workload(
    namespace: string,
    kind: string,
    name: string,
    team: string,
    env: string,
    replicas: nat,
    amount: Amount,
    requests: Amount,
    nodes: seq<string>)

  predicate Owned(p: PodCost)
  {
    p.ownerKind != "" && p.ownerName != ""
  }

  function KeyFor(p: PodCost): WorkloadKey
  {
    WorkloadKey(p.namespace, p.ownerKind, p.ownerName)
  }

  function LabelOf(p: PodCost, key: string): string
  {
    if key in p.labels then p.labels[key] else ""
  }

  function Counted(freq: map<string, nat>, value: string): map<string, nat>
  {
    if value == "" then freq else freq[value := (if value in freq then freq[value] else 0) + 1]
  }

  function TallyPod(a: Tally, p: PodCost): Tally
  {
    Tally(Plus(a.amount, p.amount), Plus(a.requests, p.requests), a.replicas + 1,
          if p.node == "" then a.nodes else a.nodes + {p.node},
          Counted(a.team, LabelOf(p, "team")), Counted(a.env, LabelOf(p, "env")))
  }

  function TallyAt(m: map<WorkloadKey, Tally>, k: WorkloadKey): Tally
  {
    if k in m then m[k] else NO_TALLY
  }

  function TallyAll(pods: seq<PodCost>): map<WorkloadKey, Tally>
  {
    if pods == [] then map[]
    else
      var init, p := TallyAll(pods[..|pods| - 1]), pods[|pods| - 1];
      if Owned(p) then init[KeyFor(p) := TallyPod(TallyAt(init, KeyFor(p)), p)] else init
  }

  /** A published workload against the tally it was made from. */
  ghost predicate Publishes(k: WorkloadKey, a: Tally, w: Workload)
  {
    && w.namespace == k.namespace && w.kind == k.kind && w.name == k.name
    && w.replicas == a.replicas && w.amount == a.amount && w.requests == a.requests
    && MostCommon(a.team, a.team.Keys, w.team) && MostCommon(a.env, a.env.Keys, w.env)
    && StrictlySorted(StrLess, w.nodes) && multiset(w.nodes) == multiset(a.nodes)
  }

  predicate WorkloadLess(a: Workload, b: Workload)
  {
    if a.namespace == b.namespace then
      if a.kind == b.kind then StrLess(a.name, b.name) else StrLess(a.kind, b.kind)
    else StrLess(a.namespace, b.namespace)
  }

  function Names(w: Workload): (r: seq<string>)
    ensures |r| == 3
  {
    [w.namespace, w.kind, w.name]
  }

  lemma WorkloadLessIsLexicographic(a: Workload, b: Workload)
    ensures WorkloadLess(a, b) <==> TupleLess(Names(a), Names(b))
  {
    var x, y := Names(a), Names(b);
    assert x[1..][1..] == x[2..] && y[1..][1..] == y[2..] && |x[2..]| == |y[2..]| == 1;
    StrTrichotomy(a.name, a.name);
    hide StrLess;
    assert TupleLess(x[2..], y[2..]) <==> StrLess(a.name, b.name);
    assert TupleLess(x[1..], y[1..]) <==> if a.kind == b.kind then TupleLess(x[2..], y[2..]) else StrLess(a.kind, b.kind);
  }

  lemma WorkloadLessIsOrder()
    ensures StrictOrder(WorkloadLess)
  {
    hide WorkloadLess, TupleLess;
    forall a ensures !WorkloadLess(a, a) {
      WorkloadLessIsLexicographic(a, a);
      TupleTrichotomy(Names(a), Names(a));
    }
    forall a, b, c | WorkloadLess(a, b) && WorkloadLess(b, c) ensures WorkloadLess(a, c) {
      WorkloadLessIsLexicographic(a, b);
      WorkloadLessIsLexicographic(b, c);
      WorkloadLessIsLexicographic(a, c);
      TupleTransitive(Names(a), Names(b), Names(c));
    }
  }

  lemma SameNames(a: Workload, b: Workload)
    ensures Names(a) == Names(b) ==> a.namespace == b.namespace && a.kind == b.kind && a.name == b.name
  {
    var x, y := Names(a), Names(b);
    assert x[0] == a.namespace && x[1] == a.kind && x[2] == a.name;
    assert y[0] == b.namespace && y[1] == b.kind && y[2] == b.name;
  }

  lemma WorkloadsSeparate(m: map<WorkloadKey, Workload>)
    requires forall k :: k in m ==> m[k].namespace == k.namespace && m[k].kind == k.kind && m[k].name == k.name
    ensures KeysSeparate(WorkloadLess, m)
  {
    hide WorkloadLess, TupleLess;
    forall k, l | k in m && l in m && k != l ensures WorkloadLess(m[k], m[l]) || WorkloadLess(m[l], m[k]) {
      WorkloadLessIsLexicographic(m[k], m[l]);
      WorkloadLessIsLexicographic(m[l], m[k]);
      TupleTrichotomy(Names(m[k]), Names(m[l]));
      SameNames(m[k], m[l]);
    }
  }

  function Self(): string -> string
  {
    (s: string) => s
  }

  lemma {:induction false} SetValues(nodes: set<string>, ks: set<string>)
    requires ks <= nodes
    ensures ValuesAt(map n | n in nodes :: n, ks) == multiset(ks)
  {
    if k :| k in ks {
      ValuesAtRemove(map n | n in nodes :: n, ks, k);
      SetValues(nodes, ks - {k});
      assert ks == ks - {k} + {k};
    }
  }

  /** Collecting a set of strings and sorting it. */
  method SortStrings(nodes: set<string>) returns (r: seq<string>)
    ensures StrictlySorted(StrLess, r) && multiset(r) == multiset(nodes)
  {
    hide StrLess;
    var m := map n | n in nodes :: n;
    r := FlattenNamed(Self(), m);
    assert m.Keys == nodes;
    SetValues(nodes, nodes);
    forall i, j | 0 <= i < j < |r| ensures StrLess(r[i], r[j]) {
      assert ByName(Self())(r[i], r[j]);
    }
  }

  method Publish(k: WorkloadKey, a: Tally) returns (w: Workload)
    ensures Publishes(k, a, w)
  {
    hide MostCommon, StrLess;
    var nodes := SortStrings(a.nodes);
    var team := MostCommonValue(a.team);
    var env := MostCommonValue(a.env);
    w := Workload(k.namespace, k.kind, k.name, team, env, a.replicas, a.amount, a.requests, nodes);
  }

  /** One published workload per tally. */
  ghost predicate PublishesAll(m: map<WorkloadKey, Tally>, r: seq<Workload>)
  {
    exists records: map<WorkloadKey, Workload> ::
      && records.Keys == m.Keys && (forall k :: k in m ==> Publishes(k, m[k], records[k]))
      && Flattens(WorkloadLess, records, r)
  }

  method TallyPods(pods: seq<PodCost>) returns (m: map<WorkloadKey, Tally>)
    ensures m == TallyAll(pods)
  {
    m := map[];
    for i := 0 to |pods|
      invariant m == TallyAll(pods[..i])
    {
      assert pods[..i + 1][..i] == pods[..i];
      var p := pods[i];
      if p.ownerKind != "" && p.ownerName != "" {
        m := TallyOne(m, p);
      }
    }
    assert pods[..|pods|] == pods;
  }

  method TallyOne(m: map<WorkloadKey, Tally>, p: PodCost) returns (r: map<WorkloadKey, Tally>)
    ensures r == m[KeyFor(p) := TallyPod(TallyAt(m, KeyFor(p)), p)]
  {
    var k := WorkloadKey(p.namespace, p.ownerKind, p.ownerName);
    r := m;
    if k !in r {
      r := r[k := NO_TALLY];
    }
    var a := r[k];
    var nodes := a.nodes;
    if p.node != "" {
      nodes := nodes + {p.node};
    }
    var team := CountLabel(a.team, p, "team");
    var env := CountLabel(a.env, p, "env");
    r := r[k := Tally(Plus(a.amount, p.amount), Plus(a.requests, p.requests), a.replicas + 1, nodes, team, env)];
  }

  method CountLabel(freq: map<string, nat>, p: PodCost, key: string) returns (r: map<string, nat>)
    ensures r == Counted(freq, LabelOf(p, key))
  {
    r := freq;
    var val := if key in p.labels then p.labels[key] else "";
    if val != "" {
      r := r[val := (if val in r then r[val] else 0) + 1];
    }
  }

  /** `WorkloadsFromPods` */
  method WorkloadsFromPods(pods: seq<PodCost>) returns (r: seq<Workload>)
    ensures PublishesAll(TallyAll(pods), r)
  {
    hide TallyAll, Publishes, Flattens, WorkloadLess;
    var m := TallyPods(pods);
    var records: map<WorkloadKey, Workload> := map[];
    var todo := m.Keys;
    while todo != {}
      invariant todo <= m.Keys && records.Keys == m.Keys - todo
      invariant forall k :: k in records ==> Publishes(k, m[k], records[k])
      decreases todo
    {
      var k :| k in todo;
      var w := Publish(k, m[k]);
      records, todo := records[k := w], todo - {k};
    }
    forall k | k in records ensures records[k].namespace == k.namespace && records[k].kind == k.kind && records[k].name == k.name {
      PublishedNames(k, m[k], records[k]);
    }
    WorkloadLessIsOrder();
    WorkloadsSeparate(records);
    r := Flatten(WorkloadLess, records);
  }

  lemma PublishedNames(k: WorkloadKey, a: Tally, w: Workload)
    requires Publishes(k, a, w)
    ensures w.namespace == k.namespace && w.kind == k.kind && w.name == k.name
  {
  }

  lemma OnePublication(k: WorkloadKey, a: Tally, v: Workload, w: Workload)
    requires Publishes(k, a, v) && Publishes(k, a, w)
    ensures v == w
  {
    hide MostCommon, StrLess;
    MostCommonIsUnique(a.team, v.team, w.team);
    MostCommonIsUnique(a.env, v.env, w.env);
    StrLessIsOrder();
    SortedIsUnique(StrLess, v.nodes, w.nodes);
  }

  /** The workload list is a function of the pods: no map order shows. */
  lemma WorkloadsAreUnique(m: map<WorkloadKey, Tally>, r: seq<Workload>, s: seq<Workload>)
    requires PublishesAll(m, r) && PublishesAll(m, s)
    ensures r == s
  {
    hide Publishes, WorkloadLess, Flattens;
    var x: map<WorkloadKey, Workload> :|
      x.Keys == m.Keys && (forall k :: k in m ==> Publishes(k, m[k], x[k])) && Flattens(WorkloadLess, x, r);
    var y: map<WorkloadKey, Workload> :|
      y.Keys == m.Keys && (forall k :: k in m ==> Publishes(k, m[k], y[k])) && Flattens(WorkloadLess, y, s);
    forall k | k in m ensures x[k] == y[k] {
      OnePublication(k, m[k], x[k], y[k]);
    }
    assert x == y;
    SameList(x, r, s);
  }

  lemma SameList(m: map<WorkloadKey, Workload>, r: seq<Workload>, s: seq<Workload>)
    requires Flattens(WorkloadLess, m, r) && Flattens(WorkloadLess, m, s)
    ensures r == s
  {
    WorkloadLessIsOrder();
    hide WorkloadLess, StrictOrder, StrictlySorted, ValuesAt;
    SortedIsUnique(WorkloadLess, r, s);
  }

  // ---------------------------------------------------------------- what the list adds up to

  predicate Belongs(p: PodCost, k: WorkloadKey)
  {
    p.namespace == k.namespace && p.ownerKind == k.kind != "" && p.ownerName == k.name != ""
  }

  /** A pod of the workload, as cost and usage. */
  function PartOf(k: WorkloadKey): PodCost -> Amount
  {
    (p: PodCost) => if Belongs(p, k) then p.amount else ZERO
  }

  function Replicas(pods: seq<PodCost>, k: WorkloadKey): nat
  {
    if pods == [] then 0
    else Replicas(pods[..|pods| - 1], k) + if Belongs(pods[|pods| - 1], k) then 1 else 0
  }

  /** The pods of the workload whose label has the value. */
  function Labelled(pods: seq<PodCost>, k: WorkloadKey, key: string, value: string): nat
  {
    if pods == [] then 0
    else
      var p := pods[|pods| - 1];
      Labelled(pods[..|pods| - 1], k, key, value) + if Belongs(p, k) && key in p.labels && p.labels[key] == value then 1 else 0
  }

  function FreqAt(freq: map<string, nat>, value: string): nat
  {
    if value in freq then freq[value] else 0
  }

  lemma TallyGrows(pods: seq<PodCost>, k: WorkloadKey)
    requires pods != []
    ensures TallyAt(TallyAll(pods), k).amount ==
      Plus(TallyAt(TallyAll(pods[..|pods| - 1]), k).amount, PartOf(k)(pods[|pods| - 1]))
  {
    hide Counted, LabelOf, Plus;
    var init, p := TallyAll(pods[..|pods| - 1]), pods[|pods| - 1];
    if Belongs(p, k) {
      assert TallyAt(TallyAll(pods), k) == TallyPod(TallyAt(init, k), p);
    } else {
      assert TallyAt(TallyAll(pods), k) == TallyAt(init, k);
      PlusZero(TallyAt(init, k).amount);
    }
  }

  /** A tally is the sum over the pods of its controller ... */
  lemma {:induction false} TallyIsSum(pods: seq<PodCost>, k: WorkloadKey)
    ensures TallyAt(TallyAll(pods), k).amount == SumOf(PartOf(k), pods)
  {
    hide TallyAt, TallyPod, PartOf;
    if pods == [] {
      assert TallyAt(TallyAll(pods), k).amount == ZERO by { NoPods(k); }
    } else {
      TallyGrows(pods, k);
      TallyIsSum(pods[..|pods| - 1], k);
    }
  }

  lemma NoPods(k: WorkloadKey)
    ensures TallyAt(TallyAll([]), k) == NO_TALLY
  {
  }

  /** ... counts each of them once, and exists when there are any. */
  lemma {:induction false} TallyCountsReplicas(pods: seq<PodCost>, k: WorkloadKey)
    ensures TallyAt(TallyAll(pods), k).replicas == Replicas(pods, k)
    ensures k in TallyAll(pods) <==> Replicas(pods, k) > 0
  {
    hide Counted, LabelOf;
    if pods != [] {
      TallyCountsReplicas(pods[..|pods| - 1], k);
    }
  }

  /** Its label counts are the numbers of its pods with each value, which is what the published
      team and environment are the most common of. */
  lemma {:induction false} TallyCountsLabels(pods: seq<PodCost>, k: WorkloadKey, value: string)
    requires value != ""
    ensures var a := TallyAt(TallyAll(pods), k);
            FreqAt(a.team, value) == Labelled(pods, k, "team", value) && FreqAt(a.env, value) == Labelled(pods, k, "env", value)
  {
    if pods != [] {
      TallyCountsLabels(pods[..|pods| - 1], k, value);
    }
  }

  /** Its nodes are those its pods name, and its requests the sum of theirs. */
  lemma {:induction false} TallyCollectsNodes(pods: seq<PodCost>, k: WorkloadKey, node: string)
    ensures node in TallyAt(TallyAll(pods), k).nodes <==> node != "" && exists p :: p in pods && Belongs(p, k) && p.node == node
  {
    hide Counted, LabelOf;
    if pods != [] {
      var init, last := pods[..|pods| - 1], pods[|pods| - 1];
      TallyCollectsNodes(init, k, node);
      assert pods == init + [last];
      hide Belongs;
      assert (exists p :: p in pods && Belongs(p, k) && p.node == node) <==>
        (exists p :: p in init && Belongs(p, k) && p.node == node) || (Belongs(last, k) && last.node == node);
    }
  }

  function RequestsIn(k: WorkloadKey): PodCost -> Amount
  {
    (p: PodCost) => if Belongs(p, k) then p.requests else ZERO
  }

  lemma {:induction false} TallyRequests(pods: seq<PodCost>, k: WorkloadKey)
    ensures TallyAt(TallyAll(pods), k).requests == SumOf(RequestsIn(k), pods)
  {
    hide Counted, LabelOf, Plus;
    if pods != [] {
      var init := pods[..|pods| - 1];
      TallyRequests(init, k);
      PlusZero(SumOf(RequestsIn(k), init));
    }
  }

  function OfTally(): Tally -> Amount
  {
    (a: Tally) => a.amount
  }

  function OfWorkload(): Workload -> Amount
  {
    (w: Workload) => w.amount
  }

  function OwnedPart(): PodCost -> Amount
  {
    (p: PodCost) => if Owned(p) then p.amount else ZERO
  }

  lemma TalliesGrow(pods: seq<PodCost>)
    requires pods != []
    ensures var init, p := TallyAll(pods[..|pods| - 1]), pods[|pods| - 1];
            Total(Amounts(TallyAll(pods), OfTally())) ==
              if Owned(p) then Plus(Total(Amounts(init, OfTally())), p.amount) else Total(Amounts(init, OfTally()))
  {
    hide Counted, LabelOf, Total, Post, Amounts, Plus;
    var init, p := TallyAll(pods[..|pods| - 1]), pods[|pods| - 1];
    if Owned(p) {
      TallyPosts(init, p);
      TotalPost(Amounts(init, OfTally()), KeyFor(p), p.amount);
    }
  }

  lemma {:induction false} TalliesSum(pods: seq<PodCost>)
    ensures Total(Amounts(TallyAll(pods), OfTally())) == SumOf(OwnedPart(), pods)
  {
    if pods == [] {
      NothingTallied();
    } else {
      var init := pods[..|pods| - 1];
      TalliesGrow(pods);
      TalliesSum(init);
      PlusZero(SumOf(OwnedPart(), init));
      hide TallyAll, Total, Amounts, Plus, Owned;
    }
  }

  lemma NothingTallied()
    ensures Total(Amounts(TallyAll([]), OfTally())) == ZERO
  {
  }

  lemma TallyPosts(m: map<WorkloadKey, Tally>, p: PodCost)
    ensures Amounts(m[KeyFor(p) := TallyPod(TallyAt(m, KeyFor(p)), p)], OfTally()) == Post(Amounts(m, OfTally()), KeyFor(p), p.amount)
  {
    hide Counted, LabelOf;
  }

  lemma PublishedAmounts(m: map<WorkloadKey, Tally>, x: map<WorkloadKey, Workload>)
    requires x.Keys == m.Keys && forall k :: k in m ==> Publishes(k, m[k], x[k])
    ensures Amounts(x, OfWorkload()) == Amounts(m, OfTally()) && Amounts(x, OfWorkload()).Keys == x.Keys
  {
    hide MostCommon, StrLess;
  }

  /** The published workloads carry exactly the cost and usage of the pods that have a controller. */
  lemma WorkloadsCarryOwnedPods(pods: seq<PodCost>, r: seq<Workload>)
    requires PublishesAll(TallyAll(pods), r)
    ensures SumOf(OfWorkload(), r) == SumOf(OwnedPart(), pods)
  {
    var m := TallyAll(pods);
    var x: map<WorkloadKey, Workload> :|
      x.Keys == m.Keys && (forall k :: k in m ==> Publishes(k, m[k], x[k])) && Flattens(WorkloadLess, x, r);
    PublishedAmounts(m, x);
    hide Publishes, WorkloadLess, TallyAll, Amounts, SumOf;
    SumOfValues(x, x.Keys, OfWorkload(), r);
    TalliesSum(pods);
  }

  /** The value of a label that most pods of a workload have, the smallest of them on a tie, empty when
      none has any. */
  ghost predicate MostHave(pods: seq<PodCost>, k: WorkloadKey, key: string, best: string)
  {
    forall value :: value != "" && value != best ==>
      var n, m := Labelled(pods, k, key, value), if best == "" then 0 else Labelled(pods, k, key, best);
      n < m || (n == m && (m == 0 || StrLess(best, value)))
  }

  /** The whole record of a workload in terms of its pods. */
  ghost predicate Summarises(pods: seq<PodCost>, w: Workload)
  {
    var k := WorkloadKey(w.namespace, w.kind, w.name);
    && w.replicas == Replicas(pods, k) > 0
    && w.amount == SumOf(PartOf(k), pods) && w.requests == SumOf(RequestsIn(k), pods)
    && StrictlySorted(StrLess, w.nodes)
    && (forall n :: n in w.nodes <==> n != "" && exists p :: p in pods && Belongs(p, k) && p.node == n)
    && MostHave(pods, k, "team", w.team) && (w.team != "" ==> Labelled(pods, k, "team", w.team) > 0)
    && MostHave(pods, k, "env", w.env) && (w.env != "" ==> Labelled(pods, k, "env", w.env) > 0)
  }

  lemma MostCommonIsMost(pods: seq<PodCost>, k: WorkloadKey, key: string, freq: map<string, nat>, best: string)
    requires "" !in freq && MostCommon(freq, freq.Keys, best)
    requires forall value :: value != "" ==> FreqAt(freq, value) == Labelled(pods, k, key, value)
    ensures MostHave(pods, k, key, best) && (best != "" ==> Labelled(pods, k, key, best) > 0)
  {
    hide Labelled, StrLess;
    forall value | value != "" && value != best
      ensures var n, m := Labelled(pods, k, key, value), if best == "" then 0 else Labelled(pods, k, key, best);
              n < m || (n == m && (m == 0 || StrLess(best, value)))
    {
      StrTrichotomy(best, value);
      assert FreqAt(freq, value) == Labelled(pods, k, key, value);
      if best != "" {
        assert FreqAt(freq, best) == Labelled(pods, k, key, best);
      }
    }
  }

  lemma {:induction false} NoEmptyLabel(pods: seq<PodCost>, k: WorkloadKey)
    ensures var a := TallyAt(TallyAll(pods), k);
            "" !in a.team && "" !in a.env
  {
    hide LabelOf, Owned;
    if pods != [] {
      NoEmptyLabel(pods[..|pods| - 1], k);
    }
  }

  lemma TallySummarises(pods: seq<PodCost>, k: WorkloadKey, w: Workload)
    requires k in TallyAll(pods) && Publishes(k, TallyAll(pods)[k], w)
    ensures Summarises(pods, w)
  {
    var a := TallyAll(pods)[k];
    assert TallyAt(TallyAll(pods), k) == a;
    TallyIsSum(pods, k);
    TallyRequests(pods, k);
    TallyCountsReplicas(pods, k);
    NoEmptyLabel(pods, k);
    hide MostCommon, StrLess, TallyAll, Replicas, SumOf, Labelled, Belongs, TallyAt, FreqAt, MostHave;
    forall value | value != ""
      ensures FreqAt(a.team, value) == Labelled(pods, k, "team", value)
      ensures FreqAt(a.env, value) == Labelled(pods, k, "env", value)
    {
      TallyCountsLabels(pods, k, value);
    }
    MostCommonIsMost(pods, k, "team", a.team, w.team);
    MostCommonIsMost(pods, k, "env", a.env, w.env);
    forall n ensures n in w.nodes <==> n != "" && exists p :: p in pods && Belongs(p, k) && p.node == n {
      TallyCollectsNodes(pods, k, n);
      assert n in w.nodes <==> n in multiset(w.nodes);
    }
  }

  /** Every published workload is the summary of its pods, and every pod with a controller has its
      workload published. */
  lemma PublishedWorkloads(pods: seq<PodCost>, r: seq<Workload>)
    requires PublishesAll(TallyAll(pods), r)
    ensures forall w :: w in r ==> Summarises(pods, w)
    ensures forall p :: p in pods && p.ownerKind != "" && p.ownerName != "" ==>
      exists w :: w in r && w.namespace == p.namespace && w.kind == p.ownerKind && w.name == p.ownerName
  {
    var m := TallyAll(pods);
    hide Publishes, WorkloadLess, TallyAll, Summarises;
    var x: map<WorkloadKey, Workload> :|
      x.Keys == m.Keys && (forall k :: k in m ==> Publishes(k, m[k], x[k])) && Flattens(WorkloadLess, x, r);
    forall w | w in r ensures Summarises(pods, w) {
      assert w in multiset(r);
      ValueHasKey(x, x.Keys, w);
      var k :| k in x && x[k] == w;
      TallySummarises(pods, k, w);
    }
    forall p | p in pods && p.ownerKind != "" && p.ownerName != ""
      ensures exists w :: w in r && w.namespace == p.namespace && w.kind == p.ownerKind && w.name == p.ownerName
    {
      var k := WorkloadKey(p.namespace, p.ownerKind, p.ownerName);
      HasReplica(pods, p);
      TallyCountsReplicas(pods, k);
      ValuesAtRemove(x, x.Keys, k);
      assert x[k] in multiset(r);
      PublishedNames(k, m[k], x[k]);
      assert x[k] in r;
    }
  }

  lemma {:induction false} HasReplica(pods: seq<PodCost>, p: PodCost)
    requires p in pods && p.ownerKind != "" && p.ownerName != ""
    ensures Replicas(pods, WorkloadKey(p.namespace, p.ownerKind, p.ownerName)) > 0
  {
    var init, last := pods[..|pods| - 1], pods[|pods| - 1];
    if last != p {
      assert pods == init + [last];
      HasReplica(init, p);
    }
  }
}
