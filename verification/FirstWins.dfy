/** First-wins union by id: the rule of `dedupe_events`, for any kind of record and any id. */
module FirstWins {
  import opened Text
  import opened Sorting

  ghost predicate IdIn<E>(idOf: E -> string, id: string, es: seq<E>) {
    exists e :: e in es && idOf(e) == id
  }

  predicate Seen<E>(idOf: E -> string, id: string, es: seq<E>) {
    exists i :: 0 <= i < |es| && idOf(es[i]) == id
  }

  /** The first record of each non-blank id, in arrival order. */
  function Firsts<E>(idOf: E -> string, es: seq<E>): (r: seq<E>)
    ensures forall e :: e in r ==> e in es && idOf(e) != ""
    ensures forall i, j :: 0 <= i < j < |r| ==> idOf(r[i]) != idOf(r[j])
  {
    if es == [] then []
    else
      var front, e := Firsts(idOf, es[..|es| - 1]), es[|es| - 1];
      if idOf(e) != "" && !Seen(idOf, idOf(e), front) then front + [e] else front
  }

  function ByIdKey<E>(idOf: E -> string): E -> Key {
    (e: E) => [Codes(idOf(e))]
  }

  /** The union of several streams, sorted by id. */
  function Union<E>(idOf: E -> string, streams: seq<seq<E>>): seq<E> {
    SortBy(Firsts(idOf, Flatten(streams)), ByIdKey(idOf))
  }

  /** Equal ids mean equal records. */
  ghost predicate IdsDetermine<E(!new)>(idOf: E -> string, es: seq<E>) {
    forall e, f :: e in es && f in es && idOf(e) != "" && idOf(e) == idOf(f) ==> e == f
  }

  ghost predicate SameRecords<E(!new)>(idOf: E -> string, a: seq<E>, b: seq<E>) {
    forall e :: idOf(e) != "" ==> (e in a <==> e in b)
  }

  lemma FirstsSnoc<E>(idOf: E -> string, es: seq<E>, e: E)
    ensures Firsts(idOf, es + [e]) ==
            var front := Firsts(idOf, es);
            if idOf(e) != "" && !IdIn(idOf, idOf(e), front) then front + [e] else front
  {
    assert (es + [e])[..|es|] == es;
    var front := Firsts(idOf, es);
    forall i | 0 <= i < |front| ensures front[i] in front {}
  }

  lemma {:induction false} FirstsCover<E>(idOf: E -> string, es: seq<E>, id: string)
    requires id != "" && IdIn(idOf, id, es)
    ensures IdIn(idOf, id, Firsts(idOf, es))
  {
    var front, e := es[..|es| - 1], es[|es| - 1];
    assert es == front + [e];
    FirstsSnoc(idOf, front, e);
    if IdIn(idOf, id, front) {
      FirstsCover(idOf, front, id);
      var w :| w in Firsts(idOf, front) && idOf(w) == id;
      assert w in Firsts(idOf, es);
    } else if !IdIn(idOf, id, Firsts(idOf, front)) {
      assert e in Firsts(idOf, es);
    }
  }

  lemma FirstsNoDup<E>(idOf: E -> string, es: seq<E>)
    ensures NoDup(Firsts(idOf, es))
  {
    var r := Firsts(idOf, es);
    forall i, j | 0 <= i < j < |r| ensures r[i] != r[j] {
      assert idOf(r[i]) != idOf(r[j]);
    }
  }

  lemma FirstsApart<E>(idOf: E -> string, es: seq<E>, x: E, y: E)
    requires x in Firsts(idOf, es) && y in Firsts(idOf, es) && ByIdKey(idOf)(x) == ByIdKey(idOf)(y)
    ensures x == y
  {
    var r := Firsts(idOf, es);
    assert Codes(idOf(x)) == ByIdKey(idOf)(x)[0] == ByIdKey(idOf)(y)[0] == Codes(idOf(y));
    CodesInjective(idOf(x), idOf(y));
    var i :| 0 <= i < |r| && r[i] == x;
    var j :| 0 <= j < |r| && r[j] == y;
  }

  /** With determined ids the union holds every record that has an id, and nothing else. */
  lemma UnionMembers<E(!new)>(idOf: E -> string, streams: seq<seq<E>>)
    requires IdsDetermine(idOf, Flatten(streams))
    ensures forall e :: e in Union(idOf, streams) <==> e in Flatten(streams) && idOf(e) != ""
  {
    var es := Flatten(streams);
    SortMembers(Firsts(idOf, es), ByIdKey(idOf));
    forall e | e in es && idOf(e) != "" ensures e in Firsts(idOf, es) {
      FirstsCover(idOf, es, idOf(e));
      var w :| w in Firsts(idOf, es) && idOf(w) == idOf(e);
    }
  }

  /** The union is a function of the set of records, down to the order of the output list. */
  lemma UnionCanonical<E(!new)>(idOf: E -> string, a: seq<seq<E>>, b: seq<seq<E>>)
    requires IdsDetermine(idOf, Flatten(a)) && SameRecords(idOf, Flatten(a), Flatten(b))
    ensures Union(idOf, a) == Union(idOf, b)
  {
    var x, y := Firsts(idOf, Flatten(a)), Firsts(idOf, Flatten(b));
    FirstsNoDup(idOf, Flatten(a));
    FirstsNoDup(idOf, Flatten(b));
    forall e ensures e in x <==> e in y {
      if e in Flatten(a) && idOf(e) != "" {
        FirstsCover(idOf, Flatten(a), idOf(e));
        FirstsCover(idOf, Flatten(b), idOf(e));
        var w :| w in x && idOf(w) == idOf(e);
        var v :| v in y && idOf(v) == idOf(e);
        assert v in Flatten(a);
      }
    }
    NoDupMultiset(x, y);
    forall e, f | e in x && f in x && ByIdKey(idOf)(e) == ByIdKey(idOf)(f) ensures e == f {
      FirstsApart(idOf, Flatten(a), e, f);
    }
    SortCanonical(x, y, ByIdKey(idOf));
  }

  /** The record at `i` is the first with its id. */
  ghost predicate FirstAt<E>(idOf: E -> string, es: seq<E>, i: nat) {
    i < |es| && idOf(es[i]) != "" && forall j :: 0 <= j < i ==> idOf(es[j]) != idOf(es[i])
  }

  lemma {:induction false} FirstIsKept<E>(idOf: E -> string, es: seq<E>, i: nat)
    requires FirstAt(idOf, es, i)
    ensures es[i] in Firsts(idOf, es)
  {
    var front, last := es[..|es| - 1], es[|es| - 1];
    assert es == front + [last];
    FirstsSnoc(idOf, front, last);
    if i < |front| {
      FirstIsKept(idOf, front, i);
    } else {
      forall w | w in Firsts(idOf, front) ensures idOf(w) != idOf(last) {
        var j :| 0 <= j < |front| && front[j] == w;
        assert es[j] == w;
      }
    }
  }

  lemma {:induction false} KeptIsFirst<E>(idOf: E -> string, es: seq<E>, e: E) returns (i: nat)
    requires e in Firsts(idOf, es)
    ensures FirstAt(idOf, es, i) && es[i] == e
  {
    var front, last := es[..|es| - 1], es[|es| - 1];
    assert es == front + [last];
    FirstsSnoc(idOf, front, last);
    if e in Firsts(idOf, front) {
      i := KeptIsFirst(idOf, front, e);
    } else {
      i := |front|;
      forall j | 0 <= j < i ensures idOf(es[j]) != idOf(last) {
        if idOf(es[j]) == idOf(last) {
          assert front[j] in front;
          FirstsCover(idOf, front, idOf(last));
        }
      }
    }
  }

  lemma UnionIsFirsts<E>(idOf: E -> string, streams: seq<seq<E>>, e: E)
    ensures e in Union(idOf, streams) <==> e in Firsts(idOf, Flatten(streams))
  {
    SortMembers(Firsts(idOf, Flatten(streams)), ByIdKey(idOf));
  }

  /** Of the records with one id, the union holds exactly the one read first, for any streams whatever. */
  lemma UnionHoldsFirsts<E>(idOf: E -> string, streams: seq<seq<E>>, e: E)
    ensures e in Union(idOf, streams) <==>
            exists i: nat :: FirstAt(idOf, Flatten(streams), i) && Flatten(streams)[i] == e
  {
    var es := Flatten(streams);
    UnionIsFirsts(idOf, streams, e);
    if e in Firsts(idOf, es) {
      var i := KeptIsFirst(idOf, es, e);
    }
    if i: nat :| FirstAt(idOf, es, i) && es[i] == e {
      FirstIsKept(idOf, es, i);
    }
  }

  /** The record read first wins; no other record with its id gets in. */
  lemma UnionKeepsFirst<E>(idOf: E -> string, streams: seq<seq<E>>, i: nat, f: E)
    requires FirstAt(idOf, Flatten(streams), i) && idOf(f) == idOf(Flatten(streams)[i])
    ensures f in Union(idOf, streams) <==> f == Flatten(streams)[i]
  {
    var e := Flatten(streams)[i];
    UnionHoldsFirsts(idOf, streams, e);
    UnionTidy(idOf, streams);
  }

  /** No two records of a union share an id. */
  lemma UnionTidy<E>(idOf: E -> string, streams: seq<seq<E>>)
    ensures Tidy(idOf, Union(idOf, streams))
    ensures forall e :: e in Union(idOf, streams) ==> e in Flatten(streams)
  {
    var r, u := Firsts(idOf, Flatten(streams)), Union(idOf, streams);
    forall e | e in u ensures e in r {
      UnionIsFirsts(idOf, streams, e);
    }
    forall e, f | e in u && f in u && idOf(e) == idOf(f) ensures e == f {
      var i :| 0 <= i < |r| && r[i] == e;
      var j :| 0 <= j < |r| && r[j] == f;
    }
  }

  /** A union ascends by id. */
  lemma UnionAscends<E>(idOf: E -> string, streams: seq<seq<E>>, i: nat, j: nat)
    requires i < j < |Union(idOf, streams)|
    ensures var u := Union(idOf, streams); Le(idOf(u[i]), idOf(u[j])) && idOf(u[i]) != idOf(u[j])
  {
    var r, u := Firsts(idOf, Flatten(streams)), Union(idOf, streams);
    SortLaws(r, ByIdKey(idOf));
    FirstsNoDup(idOf, Flatten(streams));
    PermutedNoDup(r, u);
    UnionTidy(idOf, streams);
    assert u[i] in u && u[j] in u && u[i] != u[j];
    assert [Codes(idOf(u[i]))][1..] == [] && [Codes(idOf(u[j]))][1..] == [];
    if Codes(idOf(u[i])) == Codes(idOf(u[j])) {
      CodesInjective(idOf(u[i]), idOf(u[j]));
      assert false;
    }
    assert KeyLe(ByIdKey(idOf)(u[i]), ByIdKey(idOf)(u[j]));
  }

  /** A list in which every record has an id and ids tell records apart. */
  ghost predicate Tidy<E>(idOf: E -> string, es: seq<E>) {
    && (forall e :: e in es ==> idOf(e) != "")
    && (forall e, f :: e in es && f in es && idOf(e) == idOf(f) ==> e == f)
  }

  /** A union keeps every record of a tidy list that is read first, whatever is read after it. */
  lemma UnionKeepsOwn<E>(idOf: E -> string, own: seq<E>, more: seq<E>)
    requires Tidy(idOf, own)
    ensures forall e :: e in own ==> e in Union(idOf, [own, more])
  {
    FlattenPair(own, more);
    forall e | e in own ensures e in Union(idOf, [own, more]) {
      var i := FirstOf(idOf, own, e);
      assert (own + more)[i] == own[i] == e;
      assert FirstAt(idOf, own + more, i);
      UnionHoldsFirsts(idOf, [own, more], e);
    }
  }

  /** What a union of two lists takes from `own` and `more`: all of the first, and of the second what has a new id. */
  ghost predicate Taken<E>(idOf: E -> string, own: seq<E>, more: seq<E>, e: E) {
    e in own || (e in more && !IdIn(idOf, idOf(e), own))
  }

  /** The union of two tidy lists, with no condition between them. */
  lemma UnionOfTidy<E>(idOf: E -> string, own: seq<E>, more: seq<E>, e: E)
    requires Tidy(idOf, own) && Tidy(idOf, more)
    ensures e in Union(idOf, [own, more]) <==> Taken(idOf, own, more, e)
  {
    FlattenPair(own, more);
    UnionTidy(idOf, [own, more]);
    UnionKeepsOwn(idOf, own, more);
    if e in more && !IdIn(idOf, idOf(e), own) {
      assert e in own + more;
      FirstsCover(idOf, own + more, idOf(e));
      var x :| x in Firsts(idOf, own + more) && idOf(x) == idOf(e);
      UnionIsFirsts(idOf, [own, more], x);
    }
  }

  lemma {:induction false} FirstOf<E>(idOf: E -> string, own: seq<E>, e: E) returns (i: nat)
    requires Tidy(idOf, own) && e in own
    ensures FirstAt(idOf, own, i) && own[i] == e
  {
    FirstsCover(idOf, own, idOf(e));
    var w :| w in Firsts(idOf, own) && idOf(w) == idOf(e);
    i := KeptIsFirst(idOf, own, w);
  }

  // ---- Exactly when the order of reading does not matter ------------------------------

  lemma FlattenOne<E>(es: seq<E>)
    ensures Flatten([es]) == es
  {
    assert Flatten([es]) == es + Flatten([]);
  }

  lemma ReadFirst<E>(idOf: E -> string, e: E, rest: seq<E>)
    requires idOf(e) != ""
    ensures e in Union(idOf, [[e] + rest])
  {
    FlattenOne([e] + rest);
    assert FirstAt(idOf, [e] + rest, 0);
    UnionHoldsFirsts(idOf, [[e] + rest], e);
  }

  /** Bringing one record of a list to the front. */
  function Fronted<E>(es: seq<E>, i: nat): seq<E>
    requires i < |es|
  {
    [es[i]] + (es[..i] + es[i + 1..])
  }

  lemma FrontedPermutes<E>(es: seq<E>, i: nat)
    requires i < |es|
    ensures multiset(Fronted(es, i)) == multiset(es)
  {
    assert es == es[..i] + [es[i]] + es[i + 1..];
  }

  /** The union of every reordering is the same exactly when equal ids mean equal records. */
  lemma UnionIgnoresOrderIff<E(!new)>(idOf: E -> string, es: seq<E>)
    ensures IdsDetermine(idOf, es) <==>
            forall p :: multiset(p) == multiset(es) ==> Union(idOf, [p]) == Union(idOf, [es])
  {
    if IdsDetermine(idOf, es) {
      forall p | multiset(p) == multiset(es) ensures Union(idOf, [p]) == Union(idOf, [es]) {
        ReorderedUnion(idOf, es, p);
      }
    } else {
      var e, f :| e in es && f in es && idOf(e) != "" && idOf(e) == idOf(f) && e != f;
      var i :| 0 <= i < |es| && es[i] == e;
      var j :| 0 <= j < |es| && es[j] == f;
      FrontedPermutes(es, i);
      FrontedPermutes(es, j);
      ReadFirst(idOf, e, es[..i] + es[i + 1..]);
      ReadFirst(idOf, f, es[..j] + es[j + 1..]);
      UnionTidy(idOf, [es]);
      assert Union(idOf, [Fronted(es, i)]) != Union(idOf, [es]) || Union(idOf, [Fronted(es, j)]) != Union(idOf, [es]);
    }
  }

  /** And so is the union of all streams that hold the same records. */
  lemma UnionCanonicalIff<E(!new)>(idOf: E -> string, a: seq<seq<E>>)
    ensures IdsDetermine(idOf, Flatten(a)) <==>
            forall b :: SameRecords(idOf, Flatten(a), Flatten(b)) ==> Union(idOf, b) == Union(idOf, a)
  {
    var es := Flatten(a);
    FlattenOne(es);
    if IdsDetermine(idOf, es) {
      forall b | SameRecords(idOf, es, Flatten(b)) ensures Union(idOf, b) == Union(idOf, a) {
        UnionCanonical(idOf, a, b);
      }
    } else {
      UnionIgnoresOrderIff(idOf, es);
      var p :| multiset(p) == multiset(es) && Union(idOf, [p]) != Union(idOf, [es]);
      SameMembers(p, es);
      FlattenOne(p);
      assert SameRecords(idOf, es, Flatten([p]));
      assert Union(idOf, [es]) == Union(idOf, a);
    }
  }

  lemma ReorderedUnion<E(!new)>(idOf: E -> string, es: seq<E>, p: seq<E>)
    requires IdsDetermine(idOf, es) && multiset(p) == multiset(es)
    ensures Union(idOf, [p]) == Union(idOf, [es])
  {
    SameMembers(p, es);
    FlattenOne(p);
    FlattenOne(es);
    UnionCanonical(idOf, [es], [p]);
  }

  // ---- The loops

  /** The dictionary `by_id` has exactly the ids of the records kept so far. */
  ghost predicate Indexes<E>(idOf: E -> string, byId: map<string, E>, kept: seq<E>) {
    forall id :: id in byId <==> IdIn(idOf, id, kept)
  }

  lemma IndexesSnoc<E>(idOf: E -> string, byId: map<string, E>, kept: seq<E>, e: E)
    requires Indexes(idOf, byId, kept)
    ensures Indexes(idOf, byId[idOf(e) := e], kept + [e])
  {
    forall id ensures id in byId[idOf(e) := e] <==> IdIn(idOf, id, kept + [e]) {
      assert e in kept + [e];
      if IdIn(idOf, id, kept) {
        var w :| w in kept && idOf(w) == id;
        assert w in kept + [e];
      }
    }
  }

  /** One turn of the inner loop. */
  lemma AddOne<E>(idOf: E -> string, byId: map<string, E>, kept: seq<E>, seen: seq<E>, e: E)
    requires kept == Firsts(idOf, seen) && Indexes(idOf, byId, kept)
    ensures var isNew := idOf(e) != "" && idOf(e) !in byId;
            && Firsts(idOf, seen + [e]) == (if isNew then kept + [e] else kept)
            && (isNew ==> Indexes(idOf, byId[idOf(e) := e], kept + [e]))
  {
    FirstsSnoc(idOf, seen, e);
    IndexesSnoc(idOf, byId, kept, e);
    assert idOf(e) in byId <==> IdIn(idOf, idOf(e), kept);
  }

  lemma TakeOneMore<E>(seen: seq<E>, stream: seq<E>, j: nat)
    requires j < |stream|
    ensures seen + stream[..j + 1] == (seen + stream[..j]) + [stream[j]]
  {
  }

  /** The inner loop; a Python dict keeps its keys in insertion order, as `kept` does. */
  method AddStream<E>(idOf: E -> string, byId0: map<string, E>, kept0: seq<E>, stream: seq<E>, ghost seen: seq<E>)
    returns (byId: map<string, E>, kept: seq<E>)
    requires kept0 == Firsts(idOf, seen) && Indexes(idOf, byId0, kept0)
    ensures kept == Firsts(idOf, seen + stream) && Indexes(idOf, byId, kept)
  {
    byId, kept := byId0, kept0;
    assert seen + stream[..0] == seen;
    for j := 0 to |stream|
      invariant kept == Firsts(idOf, seen + stream[..j]) && Indexes(idOf, byId, kept)
    {
      var e := stream[j];
      TakeOneMore(seen, stream, j);
      AddOne(idOf, byId, kept, seen + stream[..j], e);
      if idOf(e) != "" && idOf(e) !in byId {
        byId, kept := byId[idOf(e) := e], kept + [e];
      }
    }
    assert stream[..|stream|] == stream;
  }

  /** The loop over streams, then the records in sorted-id order. */
  method UnionLoop<E>(idOf: E -> string, streams: seq<seq<E>>) returns (r: seq<E>)
    ensures r == Union(idOf, streams)
  {
    var byId: map<string, E> := map[];
    var kept: seq<E> := [];
    for i := 0 to |streams|
      invariant kept == Firsts(idOf, Flatten(streams[..i])) && Indexes(idOf, byId, kept)
    {
      assert streams[..i + 1] == streams[..i] + [streams[i]];
      FlattenSnoc(streams[..i], streams[i]);
      byId, kept := AddStream(idOf, byId, kept, streams[i], Flatten(streams[..i]));
    }
    assert streams[..|streams|] == streams;
    r := SortBy(kept, ByIdKey(idOf));
  }
}
