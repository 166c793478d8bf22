/**
 * Sums over finite tables, and SQL's `GROUP BY` over them.
 *
 * A table is a map from primary key to row, so a column of amounts is a
 * `map<K, int>`. `Total` is SQL's `sum`, `GroupSums` its `sum ... GROUP BY`.
 * The two laws everything else uses: grouping conserves the total, and
 * grouping twice is grouping once by the composed key.
 */
module Totals {
  import opened Prelude

  /** The sum of a column over some of its rows. */
  ghost function Sum<K(!new)>(keys: set<K>, m: map<K, int>): int
    requires keys <= m.Keys
    decreases |keys|
  {
    if keys == {} then 0
    else
      var k :| k in keys;
      m[k] + Sum(keys - {k}, m)
  }

  /** The sum of a column. */
  ghost function Total<K(!new)>(m: map<K, int>): int {
    Sum(m.Keys, m)
  }

  /** The order in which rows are added does not matter. */
  lemma {:induction false} SumRemove<K(!new)>(keys: set<K>, m: map<K, int>, k: K)
    requires k in keys && keys <= m.Keys
    ensures Sum(keys, m) == m[k] + Sum(keys - {k}, m)
    decreases |keys|
  {
    var j :| j in keys && Sum(keys, m) == m[j] + Sum(keys - {j}, m);
    if j != k {
      SumRemove(keys - {j}, m, k);
      SumRemove(keys - {k}, m, j);
      assert keys - {j} - {k} == keys - {k} - {j};
    }
  }

  /** Only the rows summed matter. */
  lemma {:induction false} SumSame<K(!new)>(keys: set<K>, a: map<K, int>, b: map<K, int>)
    requires keys <= a.Keys && keys <= b.Keys
    requires forall k | k in keys :: a[k] == b[k]
    ensures Sum(keys, a) == Sum(keys, b)
    decreases |keys|
  {
    if keys != {} {
      var k :| k in keys;
      SumRemove(keys, a, k);
      SumRemove(keys, b, k);
      SumSame(keys - {k}, a, b);
    }
  }

  /** The same rows with the same amounts. */
  ghost predicate Same<K(!new), V(!new)>(a: map<K, V>, b: map<K, V>) {
    && a.Keys == b.Keys
    && forall k | k in a :: a[k] == b[k]
  }

  lemma TotalSame<K(!new)>(a: map<K, int>, b: map<K, int>)
    requires Same(a, b)
    ensures Total(a) == Total(b)
  {
    SumSame(a.Keys, a, b);
  }

  lemma {:induction false} SumUnion<K(!new)>(a: set<K>, b: set<K>, m: map<K, int>)
    requires a !! b && a + b <= m.Keys
    ensures Sum(a + b, m) == Sum(a, m) + Sum(b, m)
    decreases |b|
  {
    if b == {} {
      assert a + b == a;
    } else {
      var k :| k in b;
      SumUnion(a, b - {k}, m);
      SumRemove(b, m, k);
      SumRemove(a + b, m, k);
      assert a + b - {k} == a + (b - {k});
    }
  }

  lemma {:induction false} SumZeros<K(!new)>(keys: set<K>, m: map<K, int>)
    requires keys <= m.Keys && forall k | k in keys :: m[k] == 0
    ensures Sum(keys, m) == 0
    decreases |keys|
  {
    if keys != {} {
      var k :| k in keys;
      SumRemove(keys, m, k);
      SumZeros(keys - {k}, m);
    }
  }

  /** Columns added row by row add up to their sums. */
  lemma {:induction false} SumAdds<K(!new)>(keys: set<K>, a: map<K, int>, b: map<K, int>, both: map<K, int>)
    requires keys <= a.Keys && keys <= b.Keys && keys <= both.Keys
    requires forall k | k in keys :: both[k] == a[k] + b[k]
    ensures Sum(keys, both) == Sum(keys, a) + Sum(keys, b)
    decreases |keys|
  {
    if keys != {} {
      var k :| k in keys;
      SumRemove(keys, a, k);
      SumRemove(keys, b, k);
      SumRemove(keys, both, k);
      SumAdds(keys - {k}, a, b, both);
    }
  }

  lemma TotalInsert<K(!new)>(m: map<K, int>, k: K, v: int)
    requires k !in m
    ensures Total(m[k := v]) == Total(m) + v
  {
    var m' := m[k := v];
    SumRemove(m'.Keys, m', k);
    assert m'.Keys - {k} == m.Keys;
    SumSame(m.Keys, m, m');
  }

  /** One per row: summed, it is SQL's `count(*)`. */
  ghost function Ones<K(!new)>(keys: set<K>): map<K, int> {
    map k | k in keys :: 1
  }

  lemma {:induction false} SumOnes<K(!new)>(keys: set<K>, m: map<K, int>)
    requires keys <= m.Keys && forall k | k in keys :: m[k] == 1
    ensures Sum(keys, m) == |keys|
    decreases |keys|
  {
    if keys != {} {
      var k :| k in keys;
      SumRemove(keys, m, k);
      SumOnes(keys - {k}, m);
    }
  }

  /** Each key paired with `a`. */
  ghost function Pairs<A(!new), B(!new)>(a: A, some: set<B>): set<(A, B)> {
    set x | x in some :: (a, x)
  }

  lemma InPairs<A(!new), B(!new)>(a: A, some: set<B>, k: (A, B))
    ensures k in Pairs(a, some) <==> k.0 == a && k.1 in some
  {
  }

  /** A table and the same table under paired keys have the same sums. */
  lemma {:induction false} SumPaired<A(!new), B(!new)>(a: A, some: set<B>, m: map<B, int>, paired: map<(A, B), int>)
    requires some <= m.Keys && forall x | x in some :: (a, x) in paired && paired[(a, x)] == m[x]
    ensures Pairs(a, some) <= paired.Keys
    ensures Sum(Pairs(a, some), paired) == Sum(some, m)
    decreases |some|
  {
    if some != {} {
      var x :| x in some;
      SumPaired(a, some - {x}, m, paired);
      assert Pairs(a, some) - {(a, x)} == Pairs(a, some - {x});
      SumRemove(some, m, x);
      SumRemove(Pairs(a, some), paired, (a, x));
    }
  }

  ghost function Image<K(!new), G(!new)>(keys: set<K>, f: map<K, G>): set<G>
    requires keys <= f.Keys
  {
    set k | k in keys :: f[k]
  }

  /** Different keys with different values: as many values as keys. */
  lemma {:induction false} OneToOne<K(!new), G(!new)>(keys: set<K>, f: map<K, G>)
    requires keys <= f.Keys && forall j, k | j in keys && k in keys && f[j] == f[k] :: j == k
    ensures |Image(keys, f)| == |keys|
    decreases |keys|
  {
    if keys != {} {
      var k :| k in keys;
      OneToOne(keys - {k}, f);
      assert Image(keys, f) == Image(keys - {k}, f) + {f[k]};
    }
  }

  /** Rows renamed one to one have the same sum. */
  lemma {:induction false} SumImage<K(!new), G(!new)>(keys: set<K>, f: map<K, G>, m: map<K, int>, n: map<G, int>)
    requires keys <= f.Keys && keys <= m.Keys
    requires forall j, k | j in keys && k in keys && f[j] == f[k] :: j == k
    requires forall k | k in keys :: f[k] in n && n[f[k]] == m[k]
    ensures Image(keys, f) <= n.Keys && Sum(Image(keys, f), n) == Sum(keys, m)
    decreases |keys|
  {
    if keys != {} {
      var k :| k in keys;
      SumImage(keys - {k}, f, m, n);
      SumRemove(keys, m, k);
      SumRemove(Image(keys, f), n, f[k]);
      assert Image(keys, f) - {f[k]} == Image(keys - {k}, f);
    }
  }

  // --- GROUP BY -------------------------------------------------------------------

  /** The rows whose group is `g`. */
  ghost function Fibre<K(!new), G(!new)>(keys: set<K>, key: map<K, G>, g: G): set<K>
    requires keys <= key.Keys
  {
    set k | k in keys && key[k] == g
  }

  ghost function Groups<K(!new), G(!new)>(keys: set<K>, key: map<K, G>): set<G>
    requires keys <= key.Keys
  {
    set k | k in keys :: key[k]
  }

  /** `SELECT key, sum(m) ... GROUP BY key`. */
  ghost function GroupSums<K(!new), G(!new)>(m: map<K, int>, key: map<K, G>): (sums: map<G, int>)
    requires m.Keys <= key.Keys
    ensures sums.Keys == Groups(m.Keys, key)
  {
    map g | g in Groups(m.Keys, key) :: Sum(Fibre(m.Keys, key, g), m)
  }

  /** A group that has no row counts as zero. */
  function At<G>(sums: map<G, int>, g: G): int {
    if g in sums then sums[g] else 0
  }

  lemma AtGroup<K(!new), G(!new)>(m: map<K, int>, key: map<K, G>, g: G)
    requires m.Keys <= key.Keys
    ensures At(GroupSums(m, key), g) == Sum(Fibre(m.Keys, key, g), m)
  {
  }

  /** Adding one row adds its amount to its group and touches no other. */
  lemma GroupInsert<K(!new), G(!new)>(m: map<K, int>, key: map<K, G>, k: K, v: int)
    requires k !in m && k in key && m.Keys <= key.Keys
    ensures var sums := GroupSums(m, key);
            Same(GroupSums(m[k := v], key), sums[key[k] := At(sums, key[k]) + v])
  {
    var m' := m[k := v];
    forall g ensures At(GroupSums(m', key), g) == At(GroupSums(m, key), g) + (if g == key[k] then v else 0) {
      AtInsert(m, key, k, v, g);
    }
    assert k in m'.Keys && m'.Keys == m.Keys + {k};
    assert Groups(m'.Keys, key) == Groups(m.Keys, key) + {key[k]};
    var sums', expected := GroupSums(m', key), GroupSums(m, key)[key[k] := At(GroupSums(m, key), key[k]) + v];
    forall g | g in sums' ensures sums'[g] == expected[g] {
      assert sums'[g] == At(sums', g);
    }
  }

  lemma AtInsert<K(!new), G(!new)>(m: map<K, int>, key: map<K, G>, k: K, v: int, g: G)
    requires k !in m && k in key && m.Keys <= key.Keys
    ensures At(GroupSums(m[k := v], key), g) == At(GroupSums(m, key), g) + (if g == key[k] then v else 0)
  {
    var m' := m[k := v];
    AtGroup(m, key, g);
    AtGroup(m', key, g);
    var fibre, fibre' := Fibre(m.Keys, key, g), Fibre(m'.Keys, key, g);
    SumSame(fibre, m, m');
    if g == key[k] {
      assert fibre' - {k} == fibre;
      SumRemove(fibre', m', k);
    } else {
      assert fibre' == fibre;
    }
  }

  /** Two tables grouped separately and then added, group by group. */
  ghost function AddSums<G(!new)>(a: map<G, int>, b: map<G, int>): map<G, int> {
    map g | g in a.Keys + b.Keys :: At(a, g) + At(b, g)
  }

  /** Python's `totals[key] += amount`, for every row of an answer. */
  method Accumulate<G(!new, ==)>(totals: map<G, int>, answer: map<G, int>) returns (sums: map<G, int>)
    ensures Same(sums, AddSums(totals, answer))
  {
    sums := totals;
    var todo := answer.Keys;
    while todo != {}
      invariant todo <= answer.Keys && sums.Keys == totals.Keys + (answer.Keys - todo)
      invariant forall g | g in sums :: sums[g] == At(totals, g) + (if g in todo then 0 else At(answer, g))
      decreases todo
    {
      var g := Pick(todo);
      sums := sums[g := At(sums, g) + answer[g]];
      todo := todo - {g};
    }
  }

  /** Two answers accumulated one after the other. */
  lemma AccumulatedTwice<G(!new)>(a: map<G, int>, b: map<G, int>, once: map<G, int>, twice: map<G, int>)
    requires Same(once, AddSums(map[], a)) && Same(twice, AddSums(once, b))
    ensures forall g :: (g in twice <==> g in a || g in b) && At(twice, g) == At(a, g) + At(b, g)
  {
  }

  /** The groups in `some` add up to their rows. */
  lemma {:induction false} SomeGroups<K(!new), G(!new)>(m: map<K, int>, key: map<K, G>, some: set<G>, rows: set<K>)
    requires m.Keys <= key.Keys && some <= Groups(m.Keys, key)
    requires rows == set k | k in m && key[k] in some
    ensures Sum(some, GroupSums(m, key)) == Sum(rows, m)
    decreases |some|
  {
    if some != {} {
      var g :| g in some;
      var fibre := Fibre(m.Keys, key, g);
      SomeGroups(m, key, some - {g}, rows - fibre);
      SumRemove(some, GroupSums(m, key), g);
      assert rows == (rows - fibre) + fibre;
      SumUnion(rows - fibre, fibre, m);
    }
  }

  /** Grouping conserves the total. */
  lemma GroupConserves<K(!new), G(!new)>(m: map<K, int>, key: map<K, G>)
    requires m.Keys <= key.Keys
    ensures Total(GroupSums(m, key)) == Total(m)
  {
    SomeGroups(m, key, Groups(m.Keys, key), m.Keys);
  }

  /** The total of each of several tables. */
  ghost function EachTotal<K(!new), G(!new)>(contents: map<G, map<K, int>>): map<G, int> {
    map g | g in contents :: Total(contents[g])
  }

  /** The rows of `m` are shared out among the parts, each part being `contents`
    * of it; a part may be empty. */
  lemma PartsAddUp<K(!new), G(!new)>(m: map<K, int>, key: map<K, G>, contents: map<G, map<K, int>>)
    requires m.Keys <= key.Keys && forall k | k in m :: key[k] in contents
    requires forall g | g in contents ::
               contents[g].Keys == Fibre(m.Keys, key, g) && forall k | k in contents[g] :: contents[g][k] == m[k]
    ensures Total(m) == Total(EachTotal(contents))
  {
    var totals, sums := EachTotal(contents), GroupSums(m, key);
    var empty := contents.Keys - sums.Keys;
    forall g | g in contents ensures totals[g] == At(sums, g) {
      AtGroup(m, key, g);
      SumSame(contents[g].Keys, contents[g], m);
    }
    assert totals.Keys == sums.Keys + empty;
    SumUnion(sums.Keys, empty, totals);
    SumZeros(empty, totals);
    SumSame(sums.Keys, sums, totals);
    GroupConserves(m, key);
  }

  /** Each row's group of groups. */
  ghost function Compose<K(!new), G(!new), H(!new)>(inner: map<K, G>, outer: map<G, H>): map<K, H>
    requires forall k | k in inner :: inner[k] in outer
  {
    map k | k in inner :: outer[inner[k]]
  }

  /** Grouping twice is grouping once by the composed key. */
  lemma Regroup<K(!new), G(!new), H(!new)>(m: map<K, int>, inner: map<K, G>, outer: map<G, H>)
    requires m.Keys <= inner.Keys
    requires forall k | k in inner :: inner[k] in outer
    ensures Groups(m.Keys, inner) <= outer.Keys
    ensures Same(GroupSums(GroupSums(m, inner), outer), GroupSums(m, Compose(inner, outer)))
  {
    var sums, direct := GroupSums(m, inner), Compose(inner, outer);
    forall g | g in Groups(m.Keys, inner) ensures g in outer {
      var k :| k in m && inner[k] == g;
    }
    assert Groups(sums.Keys, outer) == Groups(m.Keys, direct) by {
      forall k | k in m ensures inner[k] in sums && direct[k] == outer[inner[k]] {}
      forall g | g in sums ensures exists k :: k in m && direct[k] == outer[g] {
        var k :| k in m && inner[k] == g;
        assert direct[k] == outer[g];
      }
    }
    forall h | h in Groups(m.Keys, direct)
      ensures GroupSums(sums, outer)[h] == GroupSums(m, direct)[h]
    {
      SomeGroups(m, inner, Fibre(sums.Keys, outer, h), Fibre(m.Keys, direct, h));
    }
  }

  lemma GroupHasRows<K(!new), G(!new)>(m: map<K, int>, key: map<K, G>, g: G)
    requires m.Keys <= key.Keys
    ensures g in GroupSums(m, key) <==> Fibre(m.Keys, key, g) != {}
  {
    if g in Groups(m.Keys, key) {
      var k :| k in m && key[k] == g;
      assert k in Fibre(m.Keys, key, g);
    }
    if Fibre(m.Keys, key, g) != {} {
      var k := Any(Fibre(m.Keys, key, g));
      assert key[k] == g;
    }
  }

  /** One group of groups: the rows whose group is in it. */
  lemma RegroupAt<K(!new), G(!new), H(!new)>(m: map<K, int>, inner: map<K, G>, outer: map<G, H>, h: H, rows: set<K>)
    requires m.Keys == inner.Keys && rows <= m.Keys
    requires forall k | k in inner :: inner[k] in outer && (k in rows <==> outer[inner[k]] == h)
    ensures GroupSums(m, inner).Keys <= outer.Keys
    ensures At(GroupSums(GroupSums(m, inner), outer), h) == Sum(rows, m)
    ensures h in GroupSums(GroupSums(m, inner), outer) <==> rows != {}
  {
    Regroup(m, inner, outer);
    AtGroup(m, Compose(inner, outer), h);
    GroupHasRows(m, Compose(inner, outer), h);
    assert Fibre(m.Keys, Compose(inner, outer), h) == rows;
  }

  /** The database's `GROUP BY`, row by row in whatever order the rows come. */
  method GroupBy<K(!new, ==), G(!new, ==)>(m: map<K, int>, key: map<K, G>) returns (sums: map<G, int>)
    requires m.Keys <= key.Keys
    ensures Same(sums, GroupSums(m, key))
  {
    sums := map[];
    var todo := m.Keys;
    ghost var done: map<K, int> := map[];
    while todo != {}
      invariant todo <= m.Keys && done.Keys == m.Keys - todo
      invariant forall k | k in done :: done[k] == m[k]
      invariant Same(sums, GroupSums(done, key))
      decreases todo
    {
      var k := Pick(todo);
      GroupInsert(done, key, k, m[k]);
      sums := sums[key[k] := At(sums, key[k]) + m[k]];
      done := done[k := m[k]];
      todo := todo - {k};
    }
    assert done == m;
  }

  // --- An answer spread over dictionaries ------------------------------------------------------

  function Inner<A(==), B, V>(nested: map<A, map<B, V>>, a: A): map<B, V> {
    if a in nested then nested[a] else map[]
  }

  ghost predicate Spreads<A(!new), B(!new), V(!new)>(answer: map<(A, B), V>, todo: set<(A, B)>,
                                                     nested: map<A, map<B, V>>) {
    forall a, x ::
      && (x in Inner(nested, a) <==> (a, x) in answer && (a, x) !in todo)
      && (x in Inner(nested, a) && (a, x) in answer ==> Inner(nested, a)[x] == answer[(a, x)])
  }

  /** Python's `nested[a].append((b, value))`, for every row of an answer. */
  method Spread<A(!new, ==), B(!new, ==), V(!new)>(answer: map<(A, B), V>) returns (nested: map<A, map<B, V>>)
    ensures Spreads(answer, {}, nested)
  {
    nested := map[];
    var todo := answer.Keys;
    while todo != {}
      invariant todo <= answer.Keys && Spreads(answer, todo, nested)
      decreases todo
    {
      var k := Pick(todo);
      todo := todo - {k};
      nested := nested[k.0 := Inner(nested, k.0)[k.1 := answer[k]]];
    }
  }

  /** Python's `sum(...)` over some of the rows. */
  method SumOver<K(!new, ==)>(keys: set<K>, m: map<K, int>) returns (total: int)
    requires keys <= m.Keys
    ensures total == Sum(keys, m)
  {
    total := 0;
    var todo := keys;
    while todo != {}
      invariant todo <= keys && total + Sum(todo, m) == Sum(keys, m)
      decreases todo
    {
      var k := Pick(todo);
      SumRemove(todo, m, k);
      total := total + m[k];
      todo := todo - {k};
    }
  }
}
