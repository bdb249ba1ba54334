/** Sums over published lists: adding up a flattened map is adding up the map. */
module Lists {
  import opened Ledger
  import opened Order

  function Amounts<K, V>(m: map<K, V>, amount: V -> Amount): map<K, Amount>
  {
    map k | k in m :: amount(m[k])
  }

  lemma SomeValues<K, V>(m: map<K, V>, ks: set<K>)
    requires ks <= m.Keys
    ensures ks != {} ==> |ValuesAt(m, ks)| > 0
  {
    if k :| k in ks {
      ValuesAtRemove(m, ks, k);
    }
  }

  lemma {:induction false} SumOfValues<K, V>(m: map<K, V>, ks: set<K>, amount: V -> Amount, values: seq<V>)
    requires ks <= m.Keys && multiset(values) == ValuesAt(m, ks)
    ensures SumOf(amount, values) == TotalAt(Amounts(m, amount), ks)
    decreases |values|
  {
    if values == [] {
      SomeValues(m, ks);
    } else {
      var init, v := values[..|values| - 1], values[|values| - 1];
      assert values == init + [v];
      var k := LastValue(m, ks, init, v);
      SumOfValues(m, ks - {k}, amount, init);
      TotalAtRemove(Amounts(m, amount), ks, k);
    }
  }

  lemma PublishedSum<K, V>(less: (V, V) -> bool, m: map<K, V>, amount: V -> Amount)
    ensures SumOf(amount, SortedValues(less, m)) == Total(Amounts(m, amount))
  {
    SumOfValues(m, m.Keys, amount, SortedValues(less, m));
    assert Amounts(m, amount).Keys == m.Keys;
  }

  lemma SumOfNothing<V>(amount: V -> Amount)
    ensures SumOf(amount, []) == ZERO
  {
  }

  /** A published list holds the values of its map and no others. */
  lemma ListedIffStored<K, V>(less: (V, V) -> bool, m: map<K, V>, v: V)
    ensures v in SortedValues(less, m) <==> exists k :: k in m && m[k] == v
  {
    var list := SortedValues(less, m);
    assert v in list <==> v in multiset(list);
    if v in list {
      ValueHasKey(m, m.Keys, v);
    }
    if k :| k in m && m[k] == v {
      ValuesAtRemove(m, m.Keys, k);
    }
  }
}
