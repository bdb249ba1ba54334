/** Totals kept in maps of records that loops update in place.

    Every rollup in the program has the same shape: look the key up, create a zero record when
    it is missing, add to the record.  `Post` is that step, `Group` a whole loop of it, and the
    lemmas say what such a loop computes: a total per key that ignores the order of the loop
    (`GroupIgnoresOrder`), keeps the grand total (`GroupTotal`), and can be rolled up further
    (`RegroupGroup`). */
module Ledger {

  /** Bytes sent, bytes received and cost; the cost aggregator reuses the first two for CPU
      and memory.  Counters are unbounded and money is exact. */
  datatype Amount = Amount(tx: int, rx: int, cost: real)

  const ZERO := Amount(0, 0, 0.0)

  function Plus(a: Amount, b: Amount): Amount
  {
    Amount(a.tx + b.tx, a.rx + b.rx, a.cost + b.cost)
  }

  lemma PlusZero(a: Amount)
    ensures Plus(a, ZERO) == a && Plus(ZERO, a) == a
  {
  }

  lemma PlusSwap(a: Amount, b: Amount, c: Amount)
    ensures Plus(Plus(a, b), c) == Plus(Plus(a, c), b) == Plus(a, Plus(b, c))
  {
  }

  lemma PlusPairs(a: Amount, b: Amount, c: Amount, d: Amount)
    ensures Plus(Plus(a, b), Plus(c, d)) == Plus(Plus(a, c), Plus(b, d))
  {
  }

  type Entry<K> = (K, Amount)

  /** The amount booked under a key, zero when there is no record. */
  function At<K>(m: map<K, Amount>, k: K): Amount
  {
    if k in m then m[k] else ZERO
  }

  function Post<K>(m: map<K, Amount>, k: K, a: Amount): map<K, Amount>
  {
    m[k := Plus(At(m, k), a)]
  }

  function PostAll<K>(m: map<K, Amount>, entries: seq<Entry<K>>): map<K, Amount>
  {
    if entries == [] then m
    else
      var last := entries[|entries| - 1];
      Post(PostAll(m, entries[..|entries| - 1]), last.0, last.1)
  }

  function Group<K>(entries: seq<Entry<K>>): map<K, Amount>
  {
    PostAll(map[], entries)
  }

  /** Unfolding for loops that book one more entry. */
  lemma PostAllSnoc<K>(m: map<K, Amount>, entries: seq<Entry<K>>, e: Entry<K>)
    ensures PostAll(m, entries + [e]) == Post(PostAll(m, entries), e.0, e.1)
  {
    assert (entries + [e])[..|entries|] == entries;
  }

  /** The sum of all entries. */
  function Sum<K>(entries: seq<Entry<K>>): Amount
  {
    if entries == [] then ZERO
    else Plus(Sum(entries[..|entries| - 1]), entries[|entries| - 1].1)
  }

  /** The sum of the entries booked under one key. */
  function SumFor<K(==)>(entries: seq<Entry<K>>, k: K): Amount
  {
    if entries == [] then ZERO
    else
      var last := entries[|entries| - 1];
      Plus(SumFor(entries[..|entries| - 1], k), if last.0 == k then last.1 else ZERO)
  }

  lemma {:induction false} PostAllAppend<K>(m: map<K, Amount>, xs: seq<Entry<K>>, ys: seq<Entry<K>>)
    ensures PostAll(m, xs + ys) == PostAll(PostAll(m, xs), ys)
  {
    if ys == [] {
      assert xs + ys == xs;
    } else {
      PostAllAppend(m, xs, ys[..|ys| - 1]);
      assert (xs + ys)[..|xs + ys| - 1] == xs + ys[..|ys| - 1];
    }
  }

  lemma {:induction false} SumAppend<K>(xs: seq<Entry<K>>, ys: seq<Entry<K>>)
    ensures Sum(xs + ys) == Plus(Sum(xs), Sum(ys))
  {
    if ys == [] {
      assert xs + ys == xs;
    } else {
      assert (xs + ys)[..|xs + ys| - 1] == xs + ys[..|ys| - 1];
      SumAppend(xs, ys[..|ys| - 1]);
    }
  }

  ghost predicate Mentions<K>(entries: seq<Entry<K>>, k: K)
  {
    exists i :: 0 <= i < |entries| && entries[i].0 == k
  }

  /** A loop of postings leaves a record exactly at the old keys and the mentioned ones ... */
  lemma {:induction false} PostAllKeys<K>(m: map<K, Amount>, entries: seq<Entry<K>>, k: K)
    ensures k in PostAll(m, entries) <==> k in m || Mentions(entries, k)
  {
    if entries != [] {
      var init, last := entries[..|entries| - 1], entries[|entries| - 1];
      PostAllKeys(m, init, k);
      MentionsSnoc(init, last, k);
      assert entries == init + [last];
    }
  }

  /** ... and in it what was there plus the entries of that key. */
  lemma {:induction false} PostAllAt<K>(m: map<K, Amount>, entries: seq<Entry<K>>, k: K)
    ensures At(PostAll(m, entries), k) == Plus(At(m, k), SumFor(entries, k))
  {
    if entries != [] {
      var init, last := entries[..|entries| - 1], entries[|entries| - 1];
      PostAllAt(m, init, k);
      PostAt(PostAll(m, init), last.0, last.1, k);
    }
  }

  lemma MentionsSnoc<K>(entries: seq<Entry<K>>, e: Entry<K>, k: K)
    ensures Mentions(entries + [e], k) <==> Mentions(entries, k) || e.0 == k
  {
    var more := entries + [e];
    if Mentions(entries, k) {
      var i :| 0 <= i < |entries| && entries[i].0 == k;
      assert more[i].0 == k;
    }
    if e.0 == k {
      assert more[|entries|].0 == k;
    }
  }

  lemma PostAt<K>(m: map<K, Amount>, k: K, a: Amount, l: K)
    ensures At(Post(m, k, a), l) == if l == k then Plus(At(m, k), a) else At(m, l)
    ensures l in Post(m, k, a) <==> l in m || l == k
  {
  }

  lemma {:induction false} SumForAppend<K>(xs: seq<Entry<K>>, ys: seq<Entry<K>>, k: K)
    ensures SumFor(xs + ys, k) == Plus(SumFor(xs, k), SumFor(ys, k))
  {
    if ys == [] {
      assert xs + ys == xs;
    } else {
      assert (xs + ys)[..|xs + ys| - 1] == xs + ys[..|ys| - 1];
      SumForAppend(xs, ys[..|ys| - 1], k);
    }
  }

  lemma SumForTakeOut<K>(ys: seq<Entry<K>>, j: nat, k: K)
    requires j < |ys|
    ensures SumFor(ys, k) == Plus(SumFor(ys[..j] + ys[j + 1..], k), if ys[j].0 == k then ys[j].1 else ZERO)
  {
    hide SumFor, Plus;
    Parted(ys, j);
    SumForAround(ys[..j], ys[j], ys[j + 1..], k);
  }

  lemma Parted<T>(ys: seq<T>, j: nat)
    requires j < |ys|
    ensures ys == ys[..j] + [ys[j]] + ys[j + 1..]
  {
  }

  lemma SumForAround<K>(front: seq<Entry<K>>, y: Entry<K>, back: seq<Entry<K>>, k: K)
    ensures SumFor(front + [y] + back, k) == Plus(SumFor(front + back, k), if y.0 == k then y.1 else ZERO)
  {
    hide SumFor, Plus;
    SumForSnoc(front, y, k);
    SumForAppend(front + [y], back, k);
    SumForAppend(front, back, k);
    PlusSwap(SumFor(front, k), if y.0 == k then y.1 else ZERO, SumFor(back, k));
  }

  lemma SumForSnoc<K>(xs: seq<Entry<K>>, e: Entry<K>, k: K)
    ensures SumFor(xs + [e], k) == Plus(SumFor(xs, k), if e.0 == k then e.1 else ZERO)
  {
    assert (xs + [e])[..|xs|] == xs;
  }

  lemma SumSnoc<K>(xs: seq<Entry<K>>, e: Entry<K>)
    ensures Sum(xs + [e]) == Plus(Sum(xs), e.1)
  {
    assert (xs + [e])[..|xs|] == xs;
  }

  lemma TakeOut<T>(xs: seq<T>, ys: seq<T>) returns (j: nat)
    requires xs != [] && multiset(xs) == multiset(ys)
    ensures j < |ys| && ys[j] == xs[|xs| - 1]
    ensures multiset(xs[..|xs| - 1]) == multiset(ys[..j] + ys[j + 1..])
  {
    var x := xs[|xs| - 1];
    assert x in multiset(xs);
    j := Position(ys, x);
    Without(xs, |xs| - 1);
    Without(ys, j);
    assert xs[..|xs| - 1] + xs[|xs|..] == xs[..|xs| - 1];
  }

  lemma Position<T>(ys: seq<T>, x: T) returns (j: nat)
    requires x in multiset(ys)
    ensures j < |ys| && ys[j] == x
  {
    j :| 0 <= j < |ys| && ys[j] == x;
  }

  lemma Without<T>(ys: seq<T>, j: nat)
    requires j < |ys|
    ensures multiset(ys[..j] + ys[j + 1..]) == multiset(ys) - multiset{ys[j]}
  {
    Parted(ys, j);
    assert multiset(ys[..j] + [ys[j]] + ys[j + 1..]) == multiset(ys[..j] + ys[j + 1..]) + multiset{ys[j]};
  }

  lemma {:induction false} SumForPermuted<K>(xs: seq<Entry<K>>, ys: seq<Entry<K>>, k: K)
    requires multiset(xs) == multiset(ys)
    ensures SumFor(xs, k) == SumFor(ys, k)
    decreases |xs|
  {
    if xs == [] {
      assert |multiset(ys)| == 0;
    } else {
      var j := TakeOut(xs, ys);
      SumForTakeOut(ys, j, k);
      SumForPermuted(xs[..|xs| - 1], ys[..j] + ys[j + 1..], k);
    }
  }

  /** The sum of the amounts in a list of records. */
  function SumOf<V>(amount: V -> Amount, values: seq<V>): Amount
  {
    if values == [] then ZERO
    else Plus(SumOf(amount, values[..|values| - 1]), amount(values[|values| - 1]))
  }

  lemma SumOfSnoc<V>(amount: V -> Amount, xs: seq<V>, x: V)
    ensures SumOf(amount, xs + [x]) == Plus(SumOf(amount, xs), amount(x))
  {
    assert (xs + [x])[..|xs|] == xs;
  }

  lemma {:induction false} SumOfTakeOut<V>(amount: V -> Amount, ys: seq<V>, j: nat)
    requires j < |ys|
    ensures SumOf(amount, ys) == Plus(SumOf(amount, ys[..j] + ys[j + 1..]), amount(ys[j]))
  {
    var n := |ys| - 1;
    if j == n {
      assert ys[..j] + ys[j + 1..] == ys[..n];
    } else {
      SumOfTakeOut(amount, ys[..n], j);
      assert ys[..n][..j] + ys[..n][j + 1..] == (ys[..j] + ys[j + 1..])[..n - 1];
    }
  }

  lemma {:induction false} SumOfPermuted<V>(amount: V -> Amount, xs: seq<V>, ys: seq<V>)
    requires multiset(xs) == multiset(ys)
    ensures SumOf(amount, xs) == SumOf(amount, ys)
    decreases |xs|
  {
    if xs == [] {
      assert |multiset(ys)| == 0;
    } else {
      var j := TakeOut(xs, ys);
      SumOfTakeOut(amount, ys, j);
      SumOfPermuted(amount, xs[..|xs| - 1], ys[..j] + ys[j + 1..]);
    }
  }

  lemma MentionsPermuted<K>(xs: seq<Entry<K>>, ys: seq<Entry<K>>, k: K)
    requires multiset(xs) == multiset(ys)
    ensures Mentions(xs, k) ==> Mentions(ys, k)
  {
    if Mentions(xs, k) {
      var i :| 0 <= i < |xs| && xs[i].0 == k;
      assert xs[i] in multiset(ys);
    }
  }

  lemma GroupKeysPermuted<K>(xs: seq<Entry<K>>, ys: seq<Entry<K>>)
    requires multiset(xs) == multiset(ys)
    ensures Group(xs).Keys <= Group(ys).Keys
  {
    forall k | k in Group(xs).Keys ensures k in Group(ys).Keys {
      PostAllKeys(map[], xs, k);
      PostAllKeys(map[], ys, k);
      MentionsPermuted(xs, ys, k);
    }
  }

  lemma SameRecords<K>(m: map<K, Amount>, n: map<K, Amount>)
    requires m.Keys == n.Keys
    requires forall k :: k in m ==> At(m, k) == At(n, k)
    ensures m == n
  {
    forall k | k in m ensures m[k] == n[k] {
      assert At(m, k) == At(n, k);
    }
  }

  /** The order in which a loop meets its entries does not show in the map it fills. */
  lemma GroupIgnoresOrder<K>(xs: seq<Entry<K>>, ys: seq<Entry<K>>)
    requires multiset(xs) == multiset(ys)
    ensures Group(xs) == Group(ys)
  {
    GroupKeysPermuted(xs, ys);
    GroupKeysPermuted(ys, xs);
    forall k | k in Group(xs) ensures At(Group(xs), k) == At(Group(ys), k) {
      PostAllAt(map[], xs, k);
      PostAllAt(map[], ys, k);
      SumForPermuted(xs, ys, k);
    }
    SameRecords(Group(xs), Group(ys));
  }

  /** The sum of the records at the keys `ks`. */
  ghost function TotalAt<K>(m: map<K, Amount>, ks: set<K>): Amount
  {
    if ks == {} then ZERO
    else
      var k :| k in ks;
      Plus(TotalAt(m, ks - {k}), At(m, k))
  }

  ghost function Total<K>(m: map<K, Amount>): Amount
  {
    TotalAt(m, m.Keys)
  }

  /** Some key whose record `TotalAt` adds last. */
  lemma TotalAtUnfold<K>(m: map<K, Amount>, ks: set<K>) returns (k: K)
    requires ks != {}
    ensures k in ks && TotalAt(m, ks) == Plus(TotalAt(m, ks - {k}), At(m, k))
  {
    k :| k in ks && TotalAt(m, ks) == Plus(TotalAt(m, ks - {k}), At(m, k));
  }

  lemma {:induction false} TotalAtRemove<K>(m: map<K, Amount>, ks: set<K>, k: K)
    requires k in ks
    ensures TotalAt(m, ks) == Plus(TotalAt(m, ks - {k}), At(m, k))
  {
    var k0 := TotalAtUnfold(m, ks);
    if k0 != k {
      TotalAtRemove(m, ks - {k0}, k);
      TotalAtRemove(m, ks - {k}, k0);
      assert (ks - {k0}) - {k} == (ks - {k}) - {k0};
    }
  }

  /** Only the records at `ks` matter, and only through `At`. */
  lemma {:induction false} TotalAtAgree<K>(m: map<K, Amount>, n: map<K, Amount>, ks: set<K>)
    requires forall k :: k in ks ==> At(m, k) == At(n, k)
    ensures TotalAt(m, ks) == TotalAt(n, ks)
  {
    if ks != {} {
      var k := TotalAtUnfold(m, ks);
      TotalAtAgree(m, n, ks - {k});
      TotalAtRemove(n, ks, k);
    }
  }

  /** Keys without a record add nothing. */
  lemma {:induction false} TotalAtMissing<K>(m: map<K, Amount>, ks: set<K>, more: set<K>)
    requires forall k :: k in more ==> At(m, k) == ZERO
    ensures TotalAt(m, ks + more) == TotalAt(m, ks)
    decreases more
  {
    hide TotalAt, At, Plus;
    if k :| k in more {
      TotalAtMissing(m, ks, more - {k});
      PlusZero(TotalAt(m, ks));
      if k in ks {
        assert ks + more == ks + (more - {k});
      } else {
        TotalAtRemove(m, ks + more, k);
        assert (ks + more) - {k} == ks + (more - {k});
      }
    } else {
      assert ks + more == ks;
    }
  }

  lemma TotalPost<K>(m: map<K, Amount>, k: K, a: Amount)
    ensures Total(Post(m, k, a)) == Plus(Total(m), a)
  {
    hide TotalAt;
    var n := Post(m, k, a);
    var rest := TotalAt(m, m.Keys - {k});
    assert n.Keys - {k} == m.Keys - {k};
    TotalAtRemove(n, n.Keys, k);
    TotalAtAgree(n, m, n.Keys - {k});
    PlusSwap(rest, At(m, k), a);
    if k in m {
      TotalAtRemove(m, m.Keys, k);
    } else {
      assert m.Keys - {k} == m.Keys;
      PlusZero(rest);
    }
    hide Plus, Post, At;
  }

  /** A rollup keeps the grand total. */
  lemma {:induction false} PostAllTotal<K>(m: map<K, Amount>, entries: seq<Entry<K>>)
    ensures Total(PostAll(m, entries)) == Plus(Total(m), Sum(entries))
  {
    if entries != [] {
      var init, last := entries[..|entries| - 1], entries[|entries| - 1];
      PostAllTotal(m, init);
      TotalPost(PostAll(m, init), last.0, last.1);
    }
  }

  lemma GroupTotal<K>(entries: seq<Entry<K>>)
    ensures Total(Group(entries)) == Sum(entries)
  {
    PostAllTotal(map[], entries);
  }

  lemma NothingTotal<K>()
    ensures Total<K>(map[]) == ZERO
  {
  }

  lemma {:induction false} ZeroTotal<K>(m: map<K, Amount>, ks: set<K>)
    requires forall k :: k in ks ==> At(m, k) == ZERO
    ensures TotalAt(m, ks) == ZERO
  {
    if ks != {} {
      var k := TotalAtUnfold(m, ks);
      ZeroTotal(m, ks - {k});
    }
  }

  lemma TotalSet<K>(m: map<K, Amount>, k: K, a: Amount)
    ensures Plus(Total(m[k := a]), At(m, k)) == Plus(Total(m), a)
  {
    var n := m[k := a];
    var ks := m.Keys + {k};
    assert n.Keys == ks;
    TotalWider(m, ks);
    TotalAtRemove(m, ks, k);
    TotalAtRemove(n, ks, k);
    TotalAtAgree(m, n, ks - {k});
  }

  lemma {:induction false} TotalCostAtMost<K>(m: map<K, Amount>, n: map<K, Amount>, ks: set<K>)
    requires forall k :: k in ks ==> At(m, k).cost <= At(n, k).cost
    ensures TotalAt(m, ks).cost <= TotalAt(n, ks).cost
  {
    if ks != {} {
      var k := TotalAtUnfold(m, ks);
      TotalCostAtMost(m, n, ks - {k});
      TotalAtRemove(n, ks, k);
    }
  }

  /** The keys of `m` that `f` sends to `l`. */
  ghost function Fibre<K, L>(m: map<K, Amount>, f: K -> L, l: L): set<K>
  {
    set k | k in m && f(k) == l
  }

  /** Rolling a map of totals up along `f`: one record per image, holding the sum of the records
      that `f` sends there. */
  ghost function Regroup<K, L>(m: map<K, Amount>, f: K -> L): map<L, Amount>
  {
    map l | l in (set k | k in m :: f(k)) :: TotalAt(m, Fibre(m, f, l))
  }

  lemma RegroupPostElsewhere<K, L>(m: map<K, Amount>, k: K, a: Amount, f: K -> L, l: L)
    requires l != f(k)
    ensures At(Regroup(Post(m, k, a), f), l) == At(Regroup(m, f), l)
  {
    assert Fibre(Post(m, k, a), f, l) == Fibre(m, f, l);
    TotalAtAgree(Post(m, k, a), m, Fibre(m, f, l));
  }

  lemma RegroupPostThere<K, L>(m: map<K, Amount>, k: K, a: Amount, f: K -> L)
    ensures TotalAt(Post(m, k, a), Fibre(Post(m, k, a), f, f(k))) == Plus(TotalAt(m, Fibre(m, f, f(k))), a)
  {
    var n := Post(m, k, a);
    var fibre := Fibre(m, f, f(k)) + {k};
    assert Fibre(n, f, f(k)) == fibre;
    TotalAtRemove(n, fibre, k);
    TotalAtAgree(n, m, fibre - {k});
    if k in m {
      assert fibre == Fibre(m, f, f(k));
      TotalAtRemove(m, fibre, k);
    } else {
      assert fibre - {k} == Fibre(m, f, f(k));
    }
  }

  lemma RegroupAt<K, L>(m: map<K, Amount>, f: K -> L, l: L)
    ensures At(Regroup(m, f), l) == TotalAt(m, Fibre(m, f, l))
  {
    if l !in Regroup(m, f) {
      assert Fibre(m, f, l) == {};
    }
  }

  lemma RegroupPostKeys<K, L>(m: map<K, Amount>, k: K, a: Amount, f: K -> L)
    ensures Regroup(Post(m, k, a), f).Keys == Regroup(m, f).Keys + {f(k)}
  {
    var n := Post(m, k, a);
    assert k in n;
    forall l | l in Regroup(m, f).Keys ensures l in Regroup(n, f).Keys {
      var k1 :| k1 in m && f(k1) == l;
      assert k1 in n;
    }
  }

  lemma RegroupPostAt<K, L>(m: map<K, Amount>, k: K, a: Amount, f: K -> L, l: L)
    ensures At(Regroup(Post(m, k, a), f), l) == At(Post(Regroup(m, f), f(k), a), l)
  {
    PostAt(Regroup(m, f), f(k), a, l);
    if l != f(k) {
      RegroupPostElsewhere(m, k, a, f, l);
    } else {
      RegroupAt(Post(m, k, a), f, l);
      RegroupAt(m, f, l);
      RegroupPostThere(m, k, a, f);
    }
  }

  lemma RegroupPost<K, L>(m: map<K, Amount>, k: K, a: Amount, f: K -> L)
    ensures Regroup(Post(m, k, a), f) == Post(Regroup(m, f), f(k), a)
  {
    RegroupPostKeys(m, k, a, f);
    forall l | l in Regroup(Post(m, k, a), f)
      ensures At(Regroup(Post(m, k, a), f), l) == At(Post(Regroup(m, f), f(k), a), l)
    {
      RegroupPostAt(m, k, a, f, l);
    }
    SameRecords(Regroup(Post(m, k, a), f), Post(Regroup(m, f), f(k), a));
  }

  /** Maps that book the same under every key, zero records aside, have the same totals ... */
  lemma TotalAgree<K>(m: map<K, Amount>, n: map<K, Amount>)
    requires forall k :: k in m.Keys + n.Keys ==> At(m, k) == At(n, k)
    ensures Total(m) == Total(n)
  {
    var ks := m.Keys + n.Keys;
    TotalWider(m, ks);
    TotalWider(n, ks);
    TotalAtAgree(m, n, ks);
  }

  /** ... and the same rollups. */
  lemma RegroupAgree<K, L>(m: map<K, Amount>, n: map<K, Amount>, f: K -> L, l: L)
    requires forall k :: k in m.Keys + n.Keys ==> At(m, k) == At(n, k)
    ensures At(Regroup(m, f), l) == At(Regroup(n, f), l)
  {
    var x, y := Fibre(m, f, l), Fibre(n, f, l);
    hide TotalAt, Regroup;
    RegroupAt(m, f, l);
    RegroupAt(n, f, l);
    TotalAtMissing(m, x, y - x);
    TotalAtMissing(n, y, x - y);
    assert x + (y - x) == y + (x - y);
    TotalAtAgree(m, n, x + (y - x));
  }

  /** The same entries, booked under renamed keys. */
  function Rekey<K, L>(entries: seq<Entry<K>>, f: K -> L): (r: seq<Entry<L>>)
    ensures |r| == |entries|
    ensures forall i :: 0 <= i < |r| ==> r[i] == (f(entries[i].0), entries[i].1)
  {
    seq(|entries|, i requires 0 <= i < |entries| => (f(entries[i].0), entries[i].1))
  }

  /** A coarse rollup of the entries is the fine rollup, rolled up again. */
  lemma {:induction false} RegroupGroup<K, L>(entries: seq<Entry<K>>, f: K -> L)
    ensures Regroup(Group(entries), f) == Group(Rekey(entries, f))
  {
    if entries != [] {
      var init, last := entries[..|entries| - 1], entries[|entries| - 1];
      RegroupGroup(init, f);
      RegroupPost(Group(init), last.0, last.1, f);
      assert Rekey(entries, f)[..|entries| - 1] == Rekey(init, f);
    }
  }

  lemma PostFresh<K>(m: map<K, Amount>, k: K, a: Amount)
    requires k !in m
    ensures Post(m, k, a) == m[k := a]
  {
    assert Plus(ZERO, a) == a;
  }

  /** Rolling up keeps the grand total. */
  lemma {:induction false} RegroupTotal<K, L>(m: map<K, Amount>, f: K -> L)
    ensures Total(Regroup(m, f)) == Total(m)
    decreases m.Keys
  {
    if k :| k in m {
      var rest := m - {k};
      PostFresh(rest, k, m[k]);
      assert rest[k := m[k]] == m;
      RegroupTotal(rest, f);
      RegroupPost(rest, k, m[k], f);
      TotalPost(rest, k, m[k]);
      TotalPost(Regroup(rest, f), f(k), m[k]);
    } else {
      assert m == map[];
    }
  }

  lemma MergeNothing<K>(m: map<K, Amount>)
    ensures Merge(m, map[]) == m && Merge(map[], m) == m
  {
    SameRecords(Merge(m, map[]), m);
    SameRecords(Merge(map[], m), m);
  }

  /** Adding a whole map of totals into another, key by key. */
  function Merge<K>(m: map<K, Amount>, d: map<K, Amount>): map<K, Amount>
  {
    map k | k in m.Keys + d.Keys :: Plus(At(m, k), At(d, k))
  }

  lemma MergeAt<K>(m: map<K, Amount>, d: map<K, Amount>, k: K)
    ensures At(Merge(m, d), k) == Plus(At(m, k), At(d, k))
  {
  }

  lemma MergePost<K>(m: map<K, Amount>, d: map<K, Amount>, k: K, a: Amount)
    ensures Merge(m, Post(d, k, a)) == Post(Merge(m, d), k, a)
  {
    var left, right := Merge(m, Post(d, k, a)), Post(Merge(m, d), k, a);
    assert left.Keys == right.Keys;
    forall l | l in left ensures At(left, l) == At(right, l) {
      MergeAt(m, Post(d, k, a), l);
      MergeAt(m, d, l);
    }
    SameRecords(left, right);
  }

  lemma {:induction false} TotalAtMerge<K>(m: map<K, Amount>, d: map<K, Amount>, ks: set<K>)
    ensures TotalAt(Merge(m, d), ks) == Plus(TotalAt(m, ks), TotalAt(d, ks))
  {
    if ks != {} {
      hide TotalAt, Merge, Plus, At;
      var k := TotalAtUnfold(m, ks);
      TotalAtMerge(m, d, ks - {k});
      MergeAt(m, d, k);
      TotalAtRemove(d, ks, k);
      TotalAtRemove(Merge(m, d), ks, k);
      PlusPairs(TotalAt(m, ks - {k}), TotalAt(d, ks - {k}), At(m, k), At(d, k));
    }
  }

  /** Totals may be taken over any keys that include the recorded ones. */
  lemma TotalWider<K>(m: map<K, Amount>, ks: set<K>)
    requires m.Keys <= ks
    ensures TotalAt(m, ks) == Total(m)
  {
    TotalAtMissing(m, m.Keys, ks - m.Keys);
    assert m.Keys + (ks - m.Keys) == ks;
  }

  lemma TotalMerge<K>(m: map<K, Amount>, d: map<K, Amount>)
    ensures Total(Merge(m, d)) == Plus(Total(m), Total(d))
  {
    var ks := m.Keys + d.Keys;
    assert Merge(m, d).Keys == ks;
    TotalAtMerge(m, d, ks);
    TotalWider(m, ks);
    TotalWider(d, ks);
  }

  /** A loop as a function. */
  function Fold<S, T>(step: (S, T) -> S, s: S, xs: seq<T>): S
  {
    if xs == [] then s else step(Fold(step, s, xs[..|xs| - 1]), xs[|xs| - 1])
  }

  ghost predicate Commutes<S(!new), T(!new)>(step: (S, T) -> S)
  {
    forall s, x, y :: step(step(s, x), y) == step(step(s, y), x)
  }

  lemma {:induction false} FoldMoveLast<S(!new), T(!new)>(step: (S, T) -> S, s: S, xs: seq<T>, j: nat)
    requires Commutes(step) && j < |xs|
    ensures Fold(step, s, xs) == step(Fold(step, s, xs[..j] + xs[j + 1..]), xs[j])
  {
    var n := |xs| - 1;
    var rest := xs[..j] + xs[j + 1..];
    if j == n {
      assert rest == xs[..n];
    } else {
      FoldMoveLast(step, s, xs[..n], j);
      assert xs[..n][..j] + xs[..n][j + 1..] == rest[..n - 1];
      assert rest[n - 1] == xs[n];
    }
  }

  /** A loop whose turns commute computes the same whatever order it takes its items in. */
  lemma {:induction false} FoldIgnoresOrder<S(!new), T(!new)>(step: (S, T) -> S, s: S, xs: seq<T>, ys: seq<T>)
    requires Commutes(step) && multiset(xs) == multiset(ys)
    ensures Fold(step, s, xs) == Fold(step, s, ys)
    decreases |xs|
  {
    if xs == [] {
      assert |multiset(ys)| == 0;
    } else {
      var j := TakeOut(xs, ys);
      FoldIgnoresOrder(step, s, xs[..|xs| - 1], ys[..j] + ys[j + 1..]);
      FoldMoveLast(step, s, ys, j);
    }
  }

  lemma PostCommutes<K>(m: map<K, Amount>, k: K, a: Amount, l: K, b: Amount)
    ensures Post(Post(m, k, a), l, b) == Post(Post(m, l, b), k, a)
  {
  }

  function PostOne<K>(): (map<K, Amount>, Entry<K>) -> map<K, Amount>
  {
    (m: map<K, Amount>, e: Entry<K>) => Post(m, e.0, e.1)
  }

  lemma {:induction false} PostAllIsFold<K>(m: map<K, Amount>, es: seq<Entry<K>>)
    ensures PostAll(m, es) == Fold(PostOne(), m, es)
  {
    hide Post;
    if es != [] {
      PostAllIsFold(m, es[..|es| - 1]);
    }
  }

  lemma PostAllCommutes<K(!new)>(m: map<K, Amount>, xs: seq<Entry<K>>, ys: seq<Entry<K>>)
    ensures PostAll(PostAll(m, xs), ys) == PostAll(PostAll(m, ys), xs)
  {
    hide Post, PostAll, Fold;
    forall n: map<K, Amount>, d: Entry<K>, e: Entry<K> ensures PostOne()(PostOne()(n, d), e) == PostOne()(PostOne()(n, e), d) {
      PostCommutes(n, d.0, d.1, e.0, e.1);
    }
    PostAllAppend(m, xs, ys);
    PostAllAppend(m, ys, xs);
    PostAllIsFold(m, xs + ys);
    PostAllIsFold(m, ys + xs);
    FoldIgnoresOrder(PostOne(), m, xs + ys, ys + xs);
  }
}
