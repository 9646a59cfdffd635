/** `dedupe_events`: the idempotent union of task ledgers, and what materialising it depends on. */
module TaskMerge {
  import opened Text
  import opened Sorting
  import opened FirstWins
  import opened TaskEvents

  function IdOf(e: Event): string {
    Strip(e.eventId)
  }

  /** `dedupe_events`: first event wins, blank ids are dropped, the result is sorted by id. */
  function Deduped(streams: seq<seq<Event>>): seq<Event> {
    Union(IdOf, streams)
  }

  method DedupeEvents(streams: seq<seq<Event>>) returns (r: seq<Event>)
    ensures r == Deduped(streams)
  {
    r := UnionLoop(IdOf, streams);
  }

  /** Line `i` has a non-blank id, trimmed, that no line before it has. */
  predicate FirstLine(es: seq<Event>, i: nat) {
    i < |es| && Strip(es[i].eventId) != "" && forall j :: 0 <= j < i ==> Strip(es[j].eventId) != Strip(es[i].eventId)
  }

  /** The union holds exactly those lines, ascending by id. */
  lemma DedupeReads(streams: seq<seq<Event>>)
    ensures var d, es := Deduped(streams), Flatten(streams);
            && (forall e :: e in d <==> exists i: nat :: FirstLine(es, i) && es[i] == e)
            && forall i, j :: 0 <= i < j < |d| ==>
                 Le(Strip(d[i].eventId), Strip(d[j].eventId)) && Strip(d[i].eventId) != Strip(d[j].eventId)
  {
    var d, es := Deduped(streams), Flatten(streams);
    assert forall i: nat :: FirstLine(es, i) <==> FirstAt(IdOf, es, i);
    forall e ensures e in d <==> exists i: nat :: FirstLine(es, i) && es[i] == e {
      UnionHoldsFirsts(IdOf, streams, e);
      if i: nat :| FirstLine(es, i) && es[i] == e {
        assert FirstAt(IdOf, es, i);
      }
      if i: nat :| FirstAt(IdOf, es, i) && es[i] == e {
        assert FirstLine(es, i);
      }
    }
    forall i, j | 0 <= i < j < |d|
      ensures Le(Strip(d[i].eventId), Strip(d[j].eventId)) && Strip(d[i].eventId) != Strip(d[j].eventId)
    {
      UnionAscends(IdOf, streams, i, j);
    }
  }

  /** Materialisation depends on the event set alone: stream order, order inside streams, repetition
      and grouping do not matter. */
  lemma MaterializeCanonical(a: seq<seq<Event>>, b: seq<seq<Event>>)
    requires IdsDetermine(IdOf, Flatten(a)) && SameRecords(IdOf, Flatten(a), Flatten(b))
    ensures Deduped(a) == Deduped(b)
    ensures Materialized(Deduped(a)) == Materialized(Deduped(b))
  {
    UnionCanonical(IdOf, a, b);
  }

  /** The state is insensitive even to the order of the list it is folded from. */
  lemma MaterializeIgnoresOrder(events: seq<Event>, shuffled: seq<Event>)
    requires multiset(events) == multiset(shuffled)
    requires forall e, f :: e in events && f in events && e.eventId == f.eventId ==> e == f
    ensures Materialized(events) == Materialized(shuffled)
  {
    forall x, y | x in events && y in events && EventKey(x) == EventKey(y) ensures x == y {
      assert Codes(x.eventId) == EventKey(x)[1] == EventKey(y)[1] == Codes(y.eventId);
      CodesInjective(x.eventId, y.eventId);
    }
    SortCanonical(events, shuffled, EventKey);
  }

  /** Determined ids are exactly what the guarantee needs: otherwise some ledgers with the same events
      give another union. */
  lemma DedupeCanonicalIff(a: seq<seq<Event>>)
    ensures IdsDetermine(IdOf, Flatten(a)) <==>
            forall b :: SameRecords(IdOf, Flatten(a), Flatten(b)) ==> Deduped(b) == Deduped(a)
  {
    UnionCanonicalIff(IdOf, a);
    if forall b :: SameRecords(IdOf, Flatten(a), Flatten(b)) ==> Deduped(b) == Deduped(a) {
      forall b | SameRecords(IdOf, Flatten(a), Flatten(b)) ensures Union(IdOf, b) == Union(IdOf, a) {
        assert Deduped(b) == Deduped(a);
      }
    } else {
      var b :| SameRecords(IdOf, Flatten(a), Flatten(b)) && Deduped(b) != Deduped(a);
      assert Union(IdOf, b) != Union(IdOf, a);
    }
  }

  /** And exactly what order-independence needs: otherwise two orders of the very same lines differ. */
  lemma DedupeOrderIff(es: seq<Event>)
    ensures IdsDetermine(IdOf, es) <==>
            forall p :: multiset(p) == multiset(es) ==> Deduped([p]) == Deduped([es])
  {
    UnionIgnoresOrderIff(IdOf, es);
    if forall p :: multiset(p) == multiset(es) ==> Deduped([p]) == Deduped([es]) {
      forall p | multiset(p) == multiset(es) ensures Union(IdOf, [p]) == Union(IdOf, [es]) {
        assert Deduped([p]) == Deduped([es]);
      }
    } else {
      var p :| multiset(p) == multiset(es) && Deduped([p]) != Deduped([es]);
      assert Union(IdOf, [p]) != Union(IdOf, [es]);
    }
  }

  /** Merging is associative and idempotent: grouping ledgers before the union changes nothing. */
  lemma DedupeRegroups(a: seq<Event>, b: seq<Event>, c: seq<Event>)
    requires IdsDetermine(IdOf, a + b + c)
    ensures Deduped([Deduped([a, b]), c]) == Deduped([a, Deduped([b, c])])
    ensures Deduped([Deduped([a, b]), Deduped([a, b])]) == Deduped([a, b])
  {
    var ab, bc := Deduped([a, b]), Deduped([b, c]);
    FlattenPair(a, b);
    FlattenPair(b, c);
    FlattenPair(ab, c);
    FlattenPair(a, bc);
    FlattenPair(ab, ab);
    UnionMembers(IdOf, [a, b]);
    UnionMembers(IdOf, [b, c]);
    UnionCanonical(IdOf, [ab, c], [a, bc]);
    UnionCanonical(IdOf, [ab, ab], [a, b]);
  }
}
