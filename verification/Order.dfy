/** The order Go gives strings, its lexicographic lift to tuples of strings, and sorting.

    The program sorts every list it publishes, because the lists come out of maps whose
    iteration order is unspecified.  `SortedIsUnique` is why that is enough to make the
    published lists a function of the maps. */
module Order {

  /** The smaller of two numbers. */
  function Min(a: int, b: int): int
  {
    if a <= b then a else b
  }

  /** Go's `<` on strings (bytewise; Dafny's own `<` on sequences is "proper prefix"). */
  predicate StrLess(a: string, b: string)
  {
    b != "" && (a == "" || a[0] < b[0] || (a[0] == b[0] && StrLess(a[1..], b[1..])))
  }

  lemma {:induction false} StrTrichotomy(a: string, b: string)
    ensures StrLess(a, b) || StrLess(b, a) || a == b
    ensures !(StrLess(a, b) && StrLess(b, a))
    ensures !StrLess(a, a)
  {
    if a != "" && b != "" {
      StrTrichotomy(a[1..], b[1..]);
      if a[0] == b[0] && a[1..] == b[1..] {
        assert a == [a[0]] + a[1..] == b;
      }
    }
    if a != "" && b == "" {
      StrTrichotomy(a[1..], "");
    }
  }

  lemma {:induction false} StrTransitive(a: string, b: string, c: string)
    requires StrLess(a, b) && StrLess(b, c)
    ensures StrLess(a, c)
  {
    if a != "" && a[0] == b[0] == c[0] {
      StrTransitive(a[1..], b[1..], c[1..]);
    }
  }

  /** Two-level comparators: by the first string, then by the second. */
  predicate PairLess(a: (string, string), b: (string, string))
  {
    if a.0 == b.0 then StrLess(a.1, b.1) else StrLess(a.0, b.0)
  }

  lemma PairTrichotomy(a: (string, string), b: (string, string))
    ensures PairLess(a, b) || PairLess(b, a) || a == b
    ensures !PairLess(a, a)
  {
    StrTrichotomy(a.0, b.0);
    StrTrichotomy(a.1, b.1);
    StrTrichotomy(a.1, a.1);
  }

  lemma PairTransitive(a: (string, string), b: (string, string), c: (string, string))
    requires PairLess(a, b) && PairLess(b, c)
    ensures PairLess(a, c)
  {
    StrTrichotomy(a.0, b.0);
    StrTrichotomy(b.0, c.0);
    if a.0 == b.0 == c.0 {
      StrTransitive(a.1, b.1, c.1);
    } else if a.0 != b.0 && b.0 != c.0 {
      StrTransitive(a.0, b.0, c.0);
      StrTrichotomy(a.0, c.0);
    }
  }

  /** Lexicographic order on tuples of equal length. */
  predicate TupleLess(a: seq<string>, b: seq<string>)
    requires |a| == |b|
  {
    a != [] && if a[0] == b[0] then TupleLess(a[1..], b[1..]) else StrLess(a[0], b[0])
  }

  lemma {:induction false} TupleTrichotomy(a: seq<string>, b: seq<string>)
    requires |a| == |b|
    ensures TupleLess(a, b) || TupleLess(b, a) || a == b
    ensures !TupleLess(a, a)
  {
    if a != [] {
      TupleTrichotomy(a[1..], b[1..]);
      StrTrichotomy(a[0], b[0]);
      if a[0] == b[0] && a[1..] == b[1..] {
        assert a == [a[0]] + a[1..] == b;
      }
    }
  }

  lemma {:induction false} TupleTransitive(a: seq<string>, b: seq<string>, c: seq<string>)
    requires |a| == |b| == |c|
    requires TupleLess(a, b) && TupleLess(b, c)
    ensures TupleLess(a, c)
  {
    StrTrichotomy(a[0], b[0]);
    if a[0] == b[0] == c[0] {
      TupleTransitive(a[1..], b[1..], c[1..]);
    } else if a[0] != b[0] && b[0] != c[0] {
      StrTransitive(a[0], b[0], c[0]);
      StrTrichotomy(a[0], c[0]);
    }
  }

  ghost predicate StrictOrder<T(!new)>(less: (T, T) -> bool)
  {
    && (forall x :: !less(x, x))
    && (forall x, y, z :: less(x, y) && less(y, z) ==> less(x, z))
  }

  lemma StrLessIsOrder()
    ensures StrictOrder(StrLess)
  {
    hide StrLess;
    forall x ensures !StrLess(x, x) {
      StrTrichotomy(x, x);
    }
    forall x, y, z | StrLess(x, y) && StrLess(y, z) ensures StrLess(x, z) {
      StrTransitive(x, y, z);
    }
  }

  predicate StrictlySorted<T>(less: (T, T) -> bool, s: seq<T>)
  {
    forall i, j :: 0 <= i < j < |s| ==> less(s[i], s[j])
  }

  lemma SameHead<T(!new)>(less: (T, T) -> bool, s: seq<T>, t: seq<T>)
    requires StrictOrder(less)
    requires StrictlySorted(less, s) && StrictlySorted(less, t)
    requires s != [] && multiset(s) == multiset(t)
    ensures t != [] && s[0] == t[0]
  {
    assert s[0] in multiset(t);
    assert t[0] in multiset(s);
    var i :| 0 <= i < |t| && t[i] == s[0];
    var j :| 0 <= j < |s| && s[j] == t[0];
  }

  lemma TailMultiset<T>(s: seq<T>)
    requires s != []
    ensures multiset(s[1..]) == multiset(s) - multiset{s[0]}
    ensures s == [s[0]] + s[1..]
  {
    assert s == [s[0]] + s[1..];
  }

  lemma TailSorted<T>(less: (T, T) -> bool, s: seq<T>)
    requires s != [] && StrictlySorted(less, s)
    ensures StrictlySorted(less, s[1..])
  {
  }

  /** A strictly sorted list is determined by its elements. */
  lemma {:induction false} SortedIsUnique<T(!new)>(less: (T, T) -> bool, s: seq<T>, t: seq<T>)
    requires StrictOrder(less)
    requires StrictlySorted(less, s) && StrictlySorted(less, t)
    requires multiset(s) == multiset(t)
    ensures s == t
  {
    if s == [] {
      assert |multiset(t)| == 0;
    } else {
      SameHead(less, s, t);
      TailMultiset(s);
      TailMultiset(t);
      TailSorted(less, s);
      TailSorted(less, t);
      hide StrictlySorted, StrictOrder;
      SortedIsUnique(less, s[1..], t[1..]);
    }
  }

  function Insert<T>(less: (T, T) -> bool, x: T, s: seq<T>): (r: seq<T>)
    ensures multiset(r) == multiset(s) + multiset{x}
  {
    if s == [] then [x]
    else if less(x, s[0]) then [x] + s
    else
      assert s == [s[0]] + s[1..];
      [s[0]] + Insert(less, x, s[1..])
  }

  lemma {:induction false} InsertSorted<T(!new)>(less: (T, T) -> bool, x: T, s: seq<T>)
    requires StrictOrder(less) && StrictlySorted(less, s)
    requires forall y :: y in s ==> less(x, y) || less(y, x)
    ensures StrictlySorted(less, Insert(less, x, s))
  {
    if s != [] {
      if less(x, s[0]) {
        forall j | 1 <= j < |s| ensures less(x, s[j]) {
          assert less(s[0], s[j]);
        }
      } else {
        InsertSorted(less, x, s[1..]);
        var r := Insert(less, x, s[1..]);
        forall y | y in r ensures less(s[0], y) {
          assert y in multiset(r);
          assert y in multiset(s[1..]) || y == x;
        }
      }
    }
  }

  /** What `sort.Slice` is relied on for: an ordered permutation. */
  function Sort<T>(less: (T, T) -> bool, s: seq<T>): (r: seq<T>)
    ensures multiset(r) == multiset(s)
  {
    if s == [] then []
    else
      assert s == [s[0]] + s[1..];
      Insert(less, s[0], Sort(less, s[1..]))
  }

  /** Elements at different positions are ordered one way or the other. */
  ghost predicate Comparable<T>(less: (T, T) -> bool, s: seq<T>)
  {
    forall i, j :: 0 <= i < j < |s| ==> less(s[i], s[j]) || less(s[j], s[i])
  }

  lemma {:induction false} SortSorts<T(!new)>(less: (T, T) -> bool, s: seq<T>)
    requires StrictOrder(less) && Comparable(less, s)
    ensures StrictlySorted(less, Sort(less, s))
  {
    if s != [] {
      SortSorts(less, s[1..]);
      forall y | y in Sort(less, s[1..]) ensures less(s[0], y) || less(y, s[0]) {
        assert y in multiset(s[1..]);
        var j :| 0 <= j < |s[1..]| && s[1..][j] == y;
        assert s[j + 1] == y;
      }
      InsertSorted(less, s[0], Sort(less, s[1..]));
    }
  }

  /** The values a map holds at the keys `ks`, with multiplicity. */
  ghost function ValuesAt<K, V>(m: map<K, V>, ks: set<K>): multiset<V>
    requires ks <= m.Keys
  {
    if ks == {} then multiset{}
    else
      var k :| k in ks;
      ValuesAt(m, ks - {k}) + multiset{m[k]}
  }

  lemma {:induction false} ValuesAtRemove<K, V>(m: map<K, V>, ks: set<K>, k: K)
    requires k in ks && ks <= m.Keys
    ensures ValuesAt(m, ks) == ValuesAt(m, ks - {k}) + multiset{m[k]}
  {
    var k0 :| k0 in ks && ValuesAt(m, ks) == ValuesAt(m, ks - {k0}) + multiset{m[k0]};
    if k0 != k {
      ValuesAtRemove(m, ks - {k0}, k);
      ValuesAtRemove(m, ks - {k}, k0);
      assert (ks - {k0}) - {k} == (ks - {k}) - {k0};
    }
  }

  /** `r` lists the values of `m`, each once, in order. */
  ghost predicate Flattens<K, V>(less: (V, V) -> bool, m: map<K, V>, r: seq<V>)
  {
    StrictlySorted(less, r) && multiset(r) == ValuesAt(m, m.Keys)
  }

  /** Values stored under different keys are ordered one way or the other. */
  ghost predicate KeysSeparate<K, V>(less: (V, V) -> bool, m: map<K, V>)
  {
    forall k, l :: k in m && l in m && k != l ==> less(m[k], m[l]) || less(m[l], m[k])
  }

  /** `for _, v := range m { values = append(values, v) }`: any visiting order. */
  method CollectValues<K(==), V>(m: map<K, V>) returns (values: seq<V>)
    ensures multiset(values) == ValuesAt(m, m.Keys)
  {
    values := [];
    var rest := m.Keys;
    while rest != {}
      invariant rest <= m.Keys
      invariant ValuesAt(m, m.Keys) == multiset(values) + ValuesAt(m, rest)
      decreases rest
    {
      var k :| k in rest;
      ValuesAtRemove(m, rest, k);
      values, rest := values + [m[k]], rest - {k};
    }
  }

  lemma {:induction false} ValueHasKey<K, V>(m: map<K, V>, ks: set<K>, v: V)
    requires ks <= m.Keys && v in ValuesAt(m, ks)
    ensures exists k :: k in ks && m[k] == v
  {
    var k :| k in ks && ValuesAt(m, ks) == ValuesAt(m, ks - {k}) + multiset{m[k]};
    if m[k] != v {
      ValueHasKey(m, ks - {k}, v);
    }
  }

  lemma LastValue<K, V>(m: map<K, V>, ks: set<K>, init: seq<V>, v: V) returns (k: K)
    requires ks <= m.Keys && multiset(init + [v]) == ValuesAt(m, ks)
    ensures k in ks && m[k] == v && multiset(init) == ValuesAt(m, ks - {k})
  {
    assert v in multiset(init + [v]);
    ValueHasKey(m, ks, v);
    k :| k in ks && m[k] == v;
    ValuesAtRemove(m, ks, k);
    assert multiset(init) == multiset(init + [v]) - multiset{v};
  }

  lemma ElementsAreValues<K, V>(m: map<K, V>, ks: set<K>, values: seq<V>)
    requires ks <= m.Keys && multiset(values) == ValuesAt(m, ks)
    ensures forall i :: 0 <= i < |values| ==> exists k :: k in ks && m[k] == values[i]
  {
    forall i | 0 <= i < |values| ensures exists k :: k in ks && m[k] == values[i] {
      assert values[i] in multiset(values);
      ValueHasKey(m, ks, values[i]);
    }
  }

  lemma {:induction false} ValuesComparable<K, V>(less: (V, V) -> bool, m: map<K, V>, ks: set<K>, values: seq<V>)
    requires KeysSeparate(less, m)
    requires ks <= m.Keys && multiset(values) == ValuesAt(m, ks)
    ensures Comparable(less, values)
    decreases |values|
  {
    if values != [] {
      var init, v := values[..|values| - 1], values[|values| - 1];
      assert values == init + [v];
      var k := LastValue(m, ks, init, v);
      ValuesComparable(less, m, ks - {k}, init);
      ElementsAreValues(m, ks - {k}, init);
    }
  }

  /** The values at `ks` in some order. */
  ghost function Enumerated<K, V>(m: map<K, V>, ks: set<K>): (r: seq<V>)
    requires ks <= m.Keys
    ensures multiset(r) == ValuesAt(m, ks)
  {
    if ks == {} then []
    else
      var k :| k in ks;
      ValuesAtRemove(m, ks, k);
      Enumerated(m, ks - {k}) + [m[k]]
  }

  /** The values of a map in the order of `less`: `FlattensUnique` says it is the only such list. */
  ghost function SortedValues<K, V>(less: (V, V) -> bool, m: map<K, V>): seq<V>
  {
    Sort(less, Enumerated(m, m.Keys))
  }

  lemma SortedValuesFlatten<K, V(!new)>(less: (V, V) -> bool, m: map<K, V>)
    requires StrictOrder(less) && KeysSeparate(less, m)
    ensures Flattens(less, m, SortedValues(less, m))
  {
    ValuesComparable(less, m, m.Keys, Enumerated(m, m.Keys));
    SortSorts(less, Enumerated(m, m.Keys));
  }

  lemma FlattensUnique<K, V(!new)>(less: (V, V) -> bool, m: map<K, V>, r: seq<V>)
    requires StrictOrder(less) && KeysSeparate(less, m) && Flattens(less, m, r)
    ensures r == SortedValues(less, m)
  {
    SortedValuesFlatten(less, m);
    SortedIsUnique(less, r, SortedValues(less, m));
  }

  /** The range-over-map-then-sort idiom of every flatten function: whatever order the map is
      visited in, the result is the one sorted list of its values. */
  method Flatten<K(==), V(!new)>(less: (V, V) -> bool, m: map<K, V>) returns (r: seq<V>)
    requires StrictOrder(less) && KeysSeparate(less, m)
    ensures Flattens(less, m, r) && r == SortedValues(less, m)
  {
    var values := CollectValues(m);
    ValuesComparable(less, m, m.Keys, values);
    SortSorts(less, values);
    r := Sort(less, values);
    FlattensUnique(less, m, r);
  }

  /** Ordering records by a name. */
  function ByName<V>(name: V -> string): (V, V) -> bool
  {
    (a, b) => StrLess(name(a), name(b))
  }

  lemma ByNameIsOrder<V(!new)>(name: V -> string)
    ensures StrictOrder(ByName(name))
  {
    var less := ByName(name);
    forall x ensures !less(x, x) {
      StrTrichotomy(name(x), name(x));
    }
    forall x, y, z | less(x, y) && less(y, z) ensures less(x, z) {
      StrTransitive(name(x), name(y), name(z));
    }
  }

  /** Records stored under their own names. */
  ghost predicate Named<V>(name: V -> string, m: map<string, V>)
  {
    forall k :: k in m ==> name(m[k]) == k
  }

  lemma NamedSeparate<V>(name: V -> string, m: map<string, V>)
    requires Named(name, m)
    ensures KeysSeparate(ByName(name), m)
  {
    var less := ByName(name);
    forall k, l | k in m && l in m && k != l ensures less(m[k], m[l]) || less(m[l], m[k]) {
      StrTrichotomy(k, l);
    }
  }

  method FlattenNamed<V(!new)>(name: V -> string, m: map<string, V>) returns (r: seq<V>)
    requires Named(name, m)
    ensures Flattens(ByName(name), m, r) && r == SortedValues(ByName(name), m)
  {
    ByNameIsOrder(name);
    NamedSeparate(name, m);
    r := Flatten(ByName(name), m);
  }
}
