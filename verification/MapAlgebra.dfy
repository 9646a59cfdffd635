/** Tables merged key by key, the shape of every rollup accumulator. */
module MapAlgebra {

  /** Union of two tables; `op` combines the entries of shared keys. */
  function Merge<K, V>(a: map<K, V>, b: map<K, V>, op: (V, V) -> V): map<K, V> {
    map k | k in a.Keys + b.Keys ::
      if k !in b then a[k] else if k !in a then b[k] else op(a[k], b[k])
  }

  /** `m[k] op= d` on a dictionary whose default adds nothing. */
  function Bump<K, V>(m: map<K, V>, k: K, d: V, op: (V, V) -> V): map<K, V> {
    m[k := if k in m then op(m[k], d) else d]
  }

  ghost predicate Associative<V(!new)>(op: (V, V) -> V) {
    forall x, y, z :: op(op(x, y), z) == op(x, op(y, z))
  }

  ghost predicate Commutative<V(!new)>(op: (V, V) -> V) {
    forall x, y :: op(x, y) == op(y, x)
  }

  lemma MergeAssociative<K, V(!new)>(a: map<K, V>, b: map<K, V>, c: map<K, V>, op: (V, V) -> V)
    requires Associative(op)
    ensures Merge(Merge(a, b, op), c, op) == Merge(a, Merge(b, c, op), op)
  {
    var x, y := Merge(Merge(a, b, op), c, op), Merge(a, Merge(b, c, op), op);
    forall k | k in x.Keys ensures x[k] == y[k] {
      if k in a && k in b && k in c {
        assert op(op(a[k], b[k]), c[k]) == op(a[k], op(b[k], c[k]));
      }
    }
  }

  lemma MergeCommutative<K, V(!new)>(a: map<K, V>, b: map<K, V>, op: (V, V) -> V)
    requires Commutative(op)
    ensures Merge(a, b, op) == Merge(b, a, op)
  {
    forall k | k in a && k in b ensures op(a[k], b[k]) == op(b[k], a[k]) {}
  }

  lemma MergeUnit<K, V>(a: map<K, V>, op: (V, V) -> V)
    ensures Merge(a, map[], op) == a && Merge(map[], a, op) == a
  {
  }

  lemma BumpIsMerge<K, V>(m: map<K, V>, k: K, d: V, op: (V, V) -> V)
    ensures Bump(m, k, d, op) == Merge(m, map[k := d], op)
  {
  }

  // ---- Sums ------------------------------------------------------------------

  /** The sum of the values of the keys in `keys`. */
  ghost function SumOver<K>(keys: set<K>, m: map<K, int>): int
    requires keys <= m.Keys
    decreases |keys|
  {
    if keys == {} then 0
    else
      var k :| k in keys;
      m[k] + SumOver(keys - {k}, m)
  }

  /** The sum of a table's values. */
  ghost function Sum<K>(m: map<K, int>): int {
    SumOver(m.Keys, m)
  }

  /** Any key can be taken out first. */
  lemma {:induction false} SumSplit<K>(keys: set<K>, m: map<K, int>, k: K)
    requires keys <= m.Keys && k in keys
    ensures SumOver(keys, m) == m[k] + SumOver(keys - {k}, m)
    decreases |keys|
  {
    var j :| j in keys && SumOver(keys, m) == m[j] + SumOver(keys - {j}, m);
    if j != k {
      SumSplit(keys - {j}, m, k);
      SumSplit(keys - {k}, m, j);
      assert keys - {j} - {k} == keys - {k} - {j};
    }
  }

  /** Only the values under the keys matter. */
  lemma {:induction false} SumSame<K>(keys: set<K>, m: map<K, int>, n: map<K, int>)
    requires keys <= m.Keys && keys <= n.Keys && forall k :: k in keys ==> m[k] == n[k]
    ensures SumOver(keys, m) == SumOver(keys, n)
    decreases |keys|
  {
    if keys != {} {
      var k :| k in keys;
      SumSplit(keys, m, k);
      SumSplit(keys, n, k);
      SumSame(keys - {k}, m, n);
    }
  }

  /** Setting one key replaces its share of the sum. */
  lemma SumSet<K>(m: map<K, int>, k: K, v: int)
    ensures Sum(m[k := v]) == Sum(m) + v - (if k in m then m[k] else 0)
  {
    var n := m[k := v];
    SumSplit(n.Keys, n, k);
    assert n.Keys - {k} == m.Keys - {k};
    SumSame(m.Keys - {k}, m, n);
    if k in m {
      SumSplit(m.Keys, m, k);
    } else {
      assert m.Keys - {k} == m.Keys;
    }
  }

  lemma SumBump<K>(m: map<K, int>, k: K, d: int, op: (int, int) -> int)
    requires forall x, y :: op(x, y) == x + y
    ensures Sum(Bump(m, k, d, op)) == Sum(m) + d
  {
    SumSet(m, k, if k in m then op(m[k], d) else d);
  }

  /** One measure of every entry. */
  function Measure<K, V>(m: map<K, V>, f: V -> int): map<K, int> {
    map k | k in m :: f(m[k])
  }

  /** Merging one more entry adds its measure to the total. */
  lemma SumMergeOne<K, V(!new)>(m: map<K, V>, k: K, d: V, op: (V, V) -> V, f: V -> int)
    requires forall x, y :: f(op(x, y)) == f(x) + f(y)
    ensures Sum(Measure(Merge(m, map[k := d], op), f)) == Sum(Measure(m, f)) + f(d)
  {
    var add := (x: int, y: int) => x + y;
    var merged := Measure(Merge(m, map[k := d], op), f);
    assert merged == Bump(Measure(m, f), k, f(d), add);
    SumBump(Measure(m, f), k, f(d), add);
  }

  // ---- Folding a stream into a commutative monoid ----------------------------------

  ghost predicate Monoid<A(!new)>(op: (A, A) -> A, unit: A) {
    Associative(op) && Commutative(op) && forall x :: op(unit, x) == x
  }

  /** The accumulator after the stream, each element contributing `single(x)`. */
  function Fold<E, A>(xs: seq<E>, single: E -> A, op: (A, A) -> A, unit: A): A {
    if xs == [] then unit else op(Fold(xs[..|xs| - 1], single, op, unit), single(xs[|xs| - 1]))
  }

  lemma FoldSnoc<E, A>(xs: seq<E>, x: E, single: E -> A, op: (A, A) -> A, unit: A)
    ensures Fold(xs + [x], single, op, unit) == op(Fold(xs, single, op, unit), single(x))
  {
    assert (xs + [x])[..|xs|] == xs;
  }

  /** Two rollups of two streams combine into the rollup of both. */
  lemma {:induction false} FoldConcat<E, A(!new)>(xs: seq<E>, ys: seq<E>, single: E -> A, op: (A, A) -> A, unit: A)
    requires Monoid(op, unit)
    ensures Fold(xs + ys, single, op, unit) == op(Fold(xs, single, op, unit), Fold(ys, single, op, unit))
  {
    var a := Fold(xs, single, op, unit);
    if ys == [] {
      assert xs + ys == xs;
      assert op(a, unit) == op(unit, a);
    } else {
      var front, y := ys[..|ys| - 1], ys[|ys| - 1];
      FoldConcat(xs, front, single, op, unit);
      assert xs + ys == (xs + front) + [y];
      FoldSnoc(xs + front, y, single, op, unit);
      assert op(op(a, Fold(front, single, op, unit)), single(y)) == op(a, op(Fold(front, single, op, unit), single(y)));
    }
  }

  /** Any element can be folded last. */
  lemma FoldPick<E, A(!new)>(xs: seq<E>, i: nat, single: E -> A, op: (A, A) -> A, unit: A)
    requires Monoid(op, unit) && i < |xs|
    ensures Fold(xs, single, op, unit) == op(Fold(xs[..i] + xs[i + 1..], single, op, unit), single(xs[i]))
  {
    var u, x, v := xs[..i], xs[i], xs[i + 1..];
    var fu, fv, fx := Fold(u, single, op, unit), Fold(v, single, op, unit), single(x);
    assert xs == (u + [x]) + v;
    FoldConcat(u + [x], v, single, op, unit);
    FoldSnoc(u, x, single, op, unit);
    FoldConcat(u, v, single, op, unit);
    assert op(op(fu, fx), fv) == op(fu, op(fx, fv));
    assert op(fx, fv) == op(fv, fx);
    assert op(op(fu, fv), fx) == op(fu, op(fv, fx));
  }

  /** The rollup depends only on which elements the stream holds and how often. */
  lemma {:induction false} FoldPermuted<E, A(!new)>(xs: seq<E>, ys: seq<E>, single: E -> A, op: (A, A) -> A, unit: A)
    requires Monoid(op, unit) && multiset(xs) == multiset(ys)
    ensures Fold(xs, single, op, unit) == Fold(ys, single, op, unit)
    decreases |xs|
  {
    assert |xs| == |multiset(xs)| == |multiset(ys)| == |ys|;
    if xs != [] {
      var front, x := xs[..|xs| - 1], xs[|xs| - 1];
      var i := TakeOut(xs, ys);
      FoldPermuted(front, ys[..i] + ys[i + 1..], single, op, unit);
      FoldPick(ys, i, single, op, unit);
    }
  }

  lemma Without<E>(ys: seq<E>, i: nat)
    requires i < |ys|
    ensures multiset(ys[..i] + ys[i + 1..]) == multiset(ys) - multiset{ys[i]}
  {
    var u, v := ys[..i], ys[i + 1..];
    assert ys == (u + [ys[i]]) + v;
    assert multiset(ys) == (multiset(u) + multiset{ys[i]}) + multiset(v);
  }

  /** The last element of one list can be taken out of a permutation of it. */
  lemma TakeOut<E>(xs: seq<E>, ys: seq<E>) returns (i: nat)
    requires xs != [] && multiset(xs) == multiset(ys)
    ensures i < |ys| && ys[i] == xs[|xs| - 1]
    ensures multiset(xs[..|xs| - 1]) == multiset(ys[..i] + ys[i + 1..])
  {
    var n := |xs| - 1;
    assert xs[n] in multiset(ys);
    i :| 0 <= i < |ys| && ys[i] == xs[n];
    Without(xs, n);
    Without(ys, i);
    assert xs[..n] + xs[n + 1..] == xs[..n];
  }
}
