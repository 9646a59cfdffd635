/** Left folds whose step may raise: None is a raised exception and ends the fold. */
module Folds {
  import opened Text
  import opened Sorting

  function Run<S, E>(step: (S, E) -> Option<S>, start: S, es: seq<E>): Option<S> {
    if es == [] then Some(start)
    else
      var s := Run(step, start, es[..|es| - 1]);
      if s.None? then None else step(s.value, es[|es| - 1])
  }

  /** The fold of a step that cannot raise. */
  function Total<S, E>(step: (S, E) -> S, start: S, es: seq<E>): S {
    if es == [] then start else step(Total(step, start, es[..|es| - 1]), es[|es| - 1])
  }

  lemma RunSnoc<S, E>(step: (S, E) -> Option<S>, start: S, es: seq<E>, e: E)
    ensures Run(step, start, es + [e]) ==
            var s := Run(step, start, es); if s.None? then None else step(s.value, e)
  {
    assert (es + [e])[..|es|] == es;
  }

  /** Once the fold has raised, no later event brings it back. */
  lemma {:induction false} RunStops<S, E>(step: (S, E) -> Option<S>, start: S, es: seq<E>, more: seq<E>)
    requires Run(step, start, es).None?
    ensures Run(step, start, es + more).None?
  {
    if more == [] {
      assert es + more == es;
    } else {
      var front := more[..|more| - 1];
      RunStops(step, start, es, front);
      assert es + more == (es + front) + [more[|more| - 1]];
      RunSnoc(step, start, es + front, more[|more| - 1]);
    }
  }

  // ---- Folds into a keyed table ---------------------------------------------

  /** One step of a fold into a table: update the entry of the event's key, creating it first if needed. */
  function Upsert<K, V, E>(keyOf: E -> K, create: E -> Option<V>, absorb: (V, E) -> V)
    : (map<K, V>, E) -> Option<map<K, V>>
  {
    (m: map<K, V>, e: E) =>
      if keyOf(e) in m then Some(m[keyOf(e) := absorb(m[keyOf(e)], e)])
      else if create(e).None? then None
      else Some(m[keyOf(e) := absorb(create(e).value, e)])
  }

  lemma UpsertStep<K, V, E>(keyOf: E -> K, create: E -> Option<V>, absorb: (V, E) -> V, m: map<K, V>, e: E)
    ensures Upsert(keyOf, create, absorb)(m, e) ==
            var entry := if keyOf(e) in m then Some(m[keyOf(e)]) else create(e);
            if entry.None? then None else Some(m[keyOf(e) := absorb(entry.value, e)])
  {
  }

  function WithKey<K(==), E>(keyOf: E -> K, k: K): E -> bool {
    (e: E) => keyOf(e) == k
  }

  lemma WithKeySnoc<K, E>(keyOf: E -> K, k: K, es: seq<E>, e: E)
    ensures Filter(es + [e], WithKey(keyOf, k)) ==
            Filter(es, WithKey(keyOf, k)) + (if keyOf(e) == k then [e] else [])
  {
    FilterConcat(es, [e], WithKey(keyOf, k));
  }

  lemma WithKeyOnly<K, E>(keyOf: E -> K, k: K, es: seq<E>)
    ensures forall e :: e in Filter(es, WithKey(keyOf, k)) ==> keyOf(e) == k
  {
    forall e | e in Filter(es, WithKey(keyOf, k)) ensures keyOf(e) == k {
      FilterMember(es, WithKey(keyOf, k), e);
    }
  }

  /** Events of other keys never affect entry `k`: folding them away changes nothing about it. */
  lemma {:induction false} Locality<K, V, E>(keyOf: E -> K, create: E -> Option<V>, absorb: (V, E) -> V,
                                            es: seq<E>, k: K)
    requires Run(Upsert(keyOf, create, absorb), map[], es).Some?
    ensures var all, own := Run(Upsert(keyOf, create, absorb), map[], es),
                            Run(Upsert(keyOf, create, absorb), map[], Filter(es, WithKey(keyOf, k)));
            own.Some? && (k in all.value <==> k in own.value) &&
            (k in all.value ==> all.value[k] == own.value[k])
  {
    if es != [] {
      var front, e := es[..|es| - 1], es[|es| - 1];
      assert es == front + [e];
      var step, own := Upsert(keyOf, create, absorb), Filter(front, WithKey(keyOf, k));
      RunSnoc(step, map[], front, e);
      RunSnoc(step, map[], own, e);
      WithKeySnoc(keyOf, k, front, e);
      Locality(keyOf, create, absorb, front, k);
      if keyOf(e) == k {
        assert Filter(es, WithKey(keyOf, k)) == own + [e];
      } else {
        assert Filter(es, WithKey(keyOf, k)) == own;
      }
    }
  }

  /** The fold of a one-key stream, in closed form. */
  lemma {:induction false} OneKeyFold<K, V, E>(keyOf: E -> K, create: E -> Option<V>, absorb: (V, E) -> V,
                                              es: seq<E>, k: K)
    requires es != [] && forall e :: e in es ==> keyOf(e) == k
    ensures Run(Upsert(keyOf, create, absorb), map[], es) ==
            var v := create(es[0]); if v.None? then None else Some(map[k := Total(absorb, v.value, es)])
  {
    var front, e := es[..|es| - 1], es[|es| - 1];
    assert es == front + [e];
    var step := Upsert(keyOf, create, absorb);
    RunSnoc(step, map[], front, e);
    if front == [] {
      assert Run(step, map[], front) == Some(map[]);
      if create(e).Some? {
        assert Total(absorb, create(e).value, front) == create(e).value;
      }
    } else {
      OneKeyFold(keyOf, create, absorb, front, k);
      if create(es[0]).Some? {
        var v := Total(absorb, create(es[0]).value, front);
        assert map[k := v][k := absorb(v, e)] == map[k := absorb(v, e)];
      }
    }
  }

  lemma {:induction false} RaisingKey<K, V, E>(keyOf: E -> K, create: E -> Option<V>, absorb: (V, E) -> V,
                                              es: seq<E>) returns (k: K)
    requires Run(Upsert(keyOf, create, absorb), map[], es).None?
    ensures var own := Filter(es, WithKey(keyOf, k)); own != [] && create(own[0]).None?
  {
    var front, e := es[..|es| - 1], es[|es| - 1];
    assert es == front + [e];
    if Run(Upsert(keyOf, create, absorb), map[], front).None? {
      k := RaisingKey(keyOf, create, absorb, front);
      WithKeySnoc(keyOf, k, front, e);
    } else {
      k := keyOf(e);
      Locality(keyOf, create, absorb, front, k);
      WithKeyOnly(keyOf, k, front);
      if Filter(front, WithKey(keyOf, k)) != [] {
        OneKeyFold(keyOf, create, absorb, Filter(front, WithKey(keyOf, k)), k);
      }
      WithKeySnoc(keyOf, k, front, e);
    }
  }
}
