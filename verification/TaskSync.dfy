/** `canon task sync` and the local reads around it (src/canon_systems/tasks_cli.py). */
module TaskSync {
  import opened Text
  import opened Sorting
  import opened FirstWins
  import opened TaskEvents
  import opened TaskMerge
  import LedgerSync
  import LedgerIdentity
  import LedgerServer
  import LedgerConvergence

  /** The server backfill: a pushed event without a company gets the machine's. */
  function Stamped(company: string): Event -> Event {
    (e: Event) => if Strip(e.companyId) == "" then e.(companyId := company) else e
  }

  /** `_combined_state`: repository ledger, company ledger and, when reachable, the server stream. */
  function CombinedState(repo: seq<Event>, company: seq<Event>, fetched: Option<seq<Event>>): Option<State> {
    Materialized(Deduped([repo, company] + (if fetched.Some? then [fetched.value] else [])))
  }

  /** The push loop with its counters. */
  method PushAll<E>(sent: seq<E>, accepts: E -> bool) returns (accepted: seq<E>, failed: nat)
    ensures accepted == Filter(sent, accepts) && |accepted| + failed == |sent|
  {
    accepted, failed := [], 0;
    for i := 0 to |sent|
      invariant accepted == Filter(sent[..i], accepts) && |accepted| + failed == i
    {
      ghost var rest := FilterSplit(sent, i, accepts);
      if accepts(sent[i]) {
        accepted := accepted + [sent[i]];
      } else {
        failed := failed + 1;
      }
    }
    assert sent[..|sent|] == sent;
  }

  /** One machine's company ledger and the commands that touch it. */
  class Workstation {
    var ledger: seq<Event>

    constructor ()
      ensures ledger == []
    {
      ledger := [];
    }

    /** `_append_event` on the company ledger. */
    method Record(e: Event)
      modifies this
      ensures ledger == old(ledger) + [e]
    {
      ledger := ledger + [e];
    }

    /** The object path of `_cmd_sync` up to the put; `got` is None when the get failed.
        `body` is what the put will write. */
    method SyncObject(got: Option<seq<Event>>, pullOnly: bool) returns (body: Option<seq<Event>>)
      modifies this
      ensures ledger == Deduped([old(ledger), got.GetOr([])])
      ensures body == if pullOnly then None else Some(ledger)
    {
      var remote := if got.Some? then got.value else [];
      var merged := DedupeEvents([ledger, remote]);
      ledger := merged;
      body := if pullOnly then None else Some(merged);
    }

    /** The server path of `_cmd_sync`: push every local event, then merge what a fetch returned.
        `accepts` stands for the server's answer to each push. */
    method SyncServer(repo: seq<Event>, scanned: seq<seq<Event>>, company: string, accepts: Event -> bool,
                      fetched: Option<seq<Event>>)
      returns (accepted: seq<Event>, failed: nat)
      modifies this
      ensures var sent := Map(Deduped([repo, old(ledger)] + scanned), Stamped(company));
              accepted == Filter(sent, accepts) && |accepted| + failed == |sent|
      ensures ledger == if fetched.None? then old(ledger) else Deduped([old(ledger), fetched.value])
    {
      var local := DedupeEvents([repo, ledger] + scanned);
      accepted, failed := PushAll(Map(local, Stamped(company)), accepts);
      if fetched.Some? {
        ledger := DedupeEvents([ledger, fetched.value]);
      }
    }
  }

  /** The backfill changes no event that names its company, so pushed copies keep their identity. */
  lemma BackfillKeepsNamed(e: Event, company: string)
    ensures Stamped(company)(e) == e <==> (NonBlank(e.companyId) || e.companyId == company)
    ensures IdOf(Stamped(company)(e)) == IdOf(e)
    ensures Stamped(company)(e) == e.(companyId := if Strip(e.companyId) != "" then e.companyId else company)
  {
  }

  /** A server line under an id that one of the two ledgers has is never seen. */
  lemma ServerLineUnread(repo: seq<Event>, company: seq<Event>, fetched: seq<Event>, e: Event)
    requires Strip(e.eventId) != "" && IdIn(IdOf, Strip(e.eventId), repo + company)
    ensures CombinedState(repo, company, Some(fetched + [e])) == CombinedState(repo, company, Some(fetched))
  {
    var read := repo + company + fetched;
    FlatStreams(repo, company, Some(fetched));
    FlatStreams(repo, company, Some(fetched + [e]));
    assert repo + company + (fetched + [e]) == read + [e];
    LaterLineUnread(read, e);
  }

  /** A company line under an id that the repository ledger has is never seen. */
  lemma CompanyLineUnread(repo: seq<Event>, company: seq<Event>, e: Event)
    requires Strip(e.eventId) != "" && IdIn(IdOf, Strip(e.eventId), repo)
    ensures CombinedState(repo, company + [e], None) == CombinedState(repo, company, None)
  {
    var read := repo + company;
    FlatStreams(repo, company, None);
    FlatStreams(repo, company + [e], None);
    assert repo + company + [] == read && repo + (company + [e]) + [] == read + [e];
    LaterLineUnread(read, e);
  }

  /** The repository ledger is read first, then the company ledger, then the server: a later line under an id that an
      earlier ledger has is never seen. */
  lemma CombinedStateReadsInOrder(repo: seq<Event>, company: seq<Event>, fetched: seq<Event>, e: Event)
    ensures Strip(e.eventId) != "" && IdIn(IdOf, Strip(e.eventId), repo) ==>
              CombinedState(repo, company + [e], None) == CombinedState(repo, company, None)
    ensures Strip(e.eventId) != "" && IdIn(IdOf, Strip(e.eventId), repo + company) ==>
              CombinedState(repo, company, Some(fetched + [e])) == CombinedState(repo, company, Some(fetched))
  {
    if Strip(e.eventId) != "" && IdIn(IdOf, Strip(e.eventId), repo + company) {
      ServerLineUnread(repo, company, fetched, e);
    }
    if Strip(e.eventId) != "" && IdIn(IdOf, Strip(e.eventId), repo) {
      CompanyLineUnread(repo, company, e);
    }
  }

  lemma LaterLineUnread(es: seq<Event>, e: Event)
    requires Strip(e.eventId) != "" && IdIn(IdOf, Strip(e.eventId), es)
    ensures Firsts(IdOf, es + [e]) == Firsts(IdOf, es)
  {
    FirstsCover(IdOf, es, IdOf(e));
    FirstsSnoc(IdOf, es, e);
  }

  /** What a reader sees depends on the union only: splitting events between repository ledger, company
      ledger and server stream in another way changes nothing. */
  lemma CombinedStateIgnoresPlacement(repo: seq<Event>, company: seq<Event>, fetched: Option<seq<Event>>,
                                      repo': seq<Event>, company': seq<Event>, fetched': Option<seq<Event>>)
    requires IdsDetermine(IdOf, repo + company + fetched.GetOr([]))
    requires SameRecords(IdOf, repo + company + fetched.GetOr([]), repo' + company' + fetched'.GetOr([]))
    ensures CombinedState(repo, company, fetched) == CombinedState(repo', company', fetched')
  {
    FlatStreams(repo, company, fetched);
    FlatStreams(repo', company', fetched');
    MaterializeCanonical([repo, company] + (if fetched.Some? then [fetched.value] else []),
                         [repo', company'] + (if fetched'.Some? then [fetched'.value] else []));
  }

  lemma FlatStreams<E>(a: seq<E>, b: seq<E>, c: Option<seq<E>>)
    ensures Flatten([a, b] + (if c.Some? then [c.value] else [])) == a + b + c.GetOr([])
  {
    FlattenPair(a, b);
    if c.Some? {
      FlattenSnoc([a, b], c.value);
    } else {
      assert [a, b] + [] == [a, b] && a + b + [] == a + b;
    }
  }

  // ---- Recording -----------------------------------------------------------------------

  /** A recorded event is in what the next reader sees, and hides nothing that was there. */
  lemma RecordedEventIsSeen(repo: seq<Event>, company: seq<Event>, fetched: Option<seq<Event>>, e: Event)
    requires IdOf(e) != "" && !IdIn(IdOf, IdOf(e), repo + company + fetched.GetOr([]))
    ensures var tail := if fetched.Some? then [fetched.value] else [];
            forall x :: x in Deduped([repo, company + [e]] + tail) <==> x == e || x in Deduped([repo, company] + tail)
  {
    var more := fetched.GetOr([]);
    var before, after := repo + company + more, repo + (company + [e]) + more;
    var tail := if fetched.Some? then [fetched.value] else [];
    FlatStreams(repo, company, fetched);
    FlatStreams(repo, company + [e], fetched);
    assert before == (repo + company) + more && after == (repo + company) + [e] + more;
    forall x ensures x in Deduped([repo, company + [e]] + tail) <==> x == e || x in Deduped([repo, company] + tail) {
      UnionIsFirsts(IdOf, [repo, company + [e]] + tail, x);
      UnionIsFirsts(IdOf, [repo, company] + tail, x);
      FirstsInsert(IdOf, repo + company, e, more, x);
    }
  }

  /** Inserting a record with a new id into a stream adds that record and no other. */
  lemma {:induction false} FirstsInsert<E>(idOf: E -> string, front: seq<E>, e: E, more: seq<E>, x: E)
    requires idOf(e) != "" && !IdIn(idOf, idOf(e), front + more)
    ensures x in Firsts(idOf, front + [e] + more) <==> x == e || x in Firsts(idOf, front + more)
  {
    if more == [] {
      assert front + [e] + more == front + [e] && front + more == front;
      FirstsSnoc(idOf, front, e);
      FirstsFrom(idOf, front, idOf(e));
    } else {
      var rest, last := more[..|more| - 1], more[|more| - 1];
      assert front + more == (front + rest) + [last] && front + [e] + more == (front + [e] + rest) + [last];
      forall y | y in front + rest ensures y in front + more {}
      assert last in front + more;
      forall y ensures y in Firsts(idOf, front + [e] + rest) <==> y == e || y in Firsts(idOf, front + rest) {
        FirstsInsert(idOf, front, e, rest, y);
      }
      FirstsSnoc(idOf, front + rest, last);
      FirstsSnoc(idOf, front + [e] + rest, last);
      assert IdIn(idOf, idOf(last), Firsts(idOf, front + [e] + rest)) <==>
             IdIn(idOf, idOf(last), Firsts(idOf, front + rest));
    }
  }

  lemma FirstsFrom<E>(idOf: E -> string, es: seq<E>, id: string)
    requires !IdIn(idOf, id, es)
    ensures !IdIn(idOf, id, Firsts(idOf, es))
  {
  }

  // ---- Convergence of what users see ------------------------------------------------------

  predicate NamesCompany(e: Event, company: string) {
    NonBlank(e.companyId) || e.companyId == company
  }

  lemma StampedKeepsIds(company: string)
    ensures LedgerIdentity.KeepsIds(IdOf, Stamped(company))
  {
    forall e ensures IdOf(Stamped(company)(e)) == IdOf(e) {
      BackfillKeepsNamed(e, company);
    }
  }

  /** After any run that has gone quiet, two rounds of full syncs bring all company ledgers to the same list exactly
      when ids tell their events apart; the list and the state are then those of the union of all ledgers. */
  lemma CompanyStatesConvergeIff(n: nat, company: string, run: seq<LedgerSync.Action<Event>>,
                                 first: seq<nat>, second: seq<nat>)
    requires LedgerSync.CanRun(IdOf, Stamped(company), LedgerSync.Start(n), run)
    requires LedgerConvergence.Quiet(LedgerSync.After(IdOf, Stamped(company), LedgerSync.Start(n), run))
    requires LedgerConvergence.Visits(first, n) && LedgerConvergence.Visits(second, n)
    ensures var w := LedgerSync.After(IdOf, Stamped(company), LedgerSync.Start(n), run);
            var rounds := LedgerConvergence.Syncs(first) + LedgerConvergence.Syncs(second);
            && LedgerSync.CanRun(IdOf, Stamped(company), w, rounds)
            && var v := LedgerSync.After(IdOf, Stamped(company), w, rounds);
               && |v.ledgers| == n
               && (LedgerConvergence.AllAlike(v) <==> LedgerConvergence.CompanyTold(IdOf, w))
               && (LedgerConvergence.CompanyTold(IdOf, w) ==> SeesEverything(v.ledgers, w.ledgers))
  {
    var stamp := Stamped(company);
    LedgerSync.StartSound<Event>(IdOf, n);
    LedgerSync.RunSound(IdOf, stamp, LedgerSync.Start(n), run);
    var w := LedgerSync.After(IdOf, stamp, LedgerSync.Start(n), run);
    LedgerConvergence.RoundsConvergeIff(IdOf, stamp, w, first, second);
    var rounds: seq<LedgerSync.Action<Event>> := LedgerConvergence.Syncs(first) + LedgerConvergence.Syncs(second);
    LedgerSync.RunSound(IdOf, stamp, w, rounds);
    if LedgerConvergence.CompanyTold(IdOf, w) {
      LedgerConvergence.TwoRoundsConverge(IdOf, stamp, w, first, second);
      LedgerConvergence.LedgersFlat(w);
      DedupeTwice(w.ledgers);
    }
  }

  /** Every ledger is the union of all ledgers before, and materialises as it. */
  ghost predicate SeesEverything(after: seq<seq<Event>>, before: seq<seq<Event>>) {
    forall m :: 0 <= m < |after| ==>
      after[m] == Deduped(before) && Materialized(Deduped([after[m]])) == Materialized(Deduped(before))
  }

  /** Runs that record only events of a kind keep ids determining events, on every ledger and the server, exactly when
      each event of that kind names a company, or the very company the backfill would fill in. */
  lemma NamedCompaniesIff(n: nat, company: string, allowed: Event -> bool)
    requires n > 0
    ensures (forall e :: allowed(e) && IdOf(e) != "" ==> NamesCompany(e, company)) <==>
            (forall run :: LedgerSync.CanRun(IdOf, Stamped(company), LedgerSync.Start(n), run) &&
                           LedgerIdentity.RecordsOnly(run, allowed) ==>
               LedgerIdentity.Inv(IdOf, LedgerSync.After(IdOf, Stamped(company), LedgerSync.Start(n), run)))
  {
    StampedKeepsIds(company);
    forall e ensures Stamped(company)(e) == e <==> NamesCompany(e, company) {
      BackfillKeepsNamed(e, company);
    }
    LedgerIdentity.NamedEventsIff(IdOf, Stamped(company), n, allowed);
  }

  /** So machines that only record events naming a company converge. */
  lemma NamedRunsConverge(n: nat, company: string, run: seq<LedgerSync.Action<Event>>,
                          first: seq<nat>, second: seq<nat>)
    requires LedgerSync.CanRun(IdOf, Stamped(company), LedgerSync.Start(n), run)
    requires forall i :: 0 <= i < |run| && run[i].Record? ==> NamesCompany(run[i].e, company)
    requires LedgerConvergence.Quiet(LedgerSync.After(IdOf, Stamped(company), LedgerSync.Start(n), run))
    requires LedgerConvergence.Visits(first, n) && LedgerConvergence.Visits(second, n)
    ensures var w := LedgerSync.After(IdOf, Stamped(company), LedgerSync.Start(n), run);
            var rounds := LedgerConvergence.Syncs(first) + LedgerConvergence.Syncs(second);
            && LedgerSync.CanRun(IdOf, Stamped(company), w, rounds)
            && SeesEverything(LedgerSync.After(IdOf, Stamped(company), w, rounds).ledgers, w.ledgers)
  {
    var stamp, named := Stamped(company), (e: Event) => NamesCompany(e, company);
    StampedKeepsIds(company);
    forall e ensures stamp(e) == e <==> named(e) {
      BackfillKeepsNamed(e, company);
    }
    LedgerIdentity.StartInv<Event>(IdOf, n);
    LedgerIdentity.NamedRunInv(IdOf, stamp, LedgerSync.Start(n), run, named);
    CompanyStatesConvergeIff(n, company, run, first, second);
  }

  /** With a server and no push failing, two rounds of push everything and fetch everything bring the company ledgers
      of machines that only record such events to one list: everything recorded on any of them. */
  lemma NamedServerRoundsConverge(n: nat, company: string, run: seq<LedgerSync.Action<Event>>,
                                  first: seq<nat>, second: seq<nat>, listing: seq<Event> -> seq<Event>)
    requires LedgerSync.CanRun(IdOf, Stamped(company), LedgerSync.Start(n), run) && n > 0
    requires forall i :: 0 <= i < |run| && run[i].Record? ==> NamesCompany(run[i].e, company)
    requires LedgerConvergence.Visits(first, n) && LedgerConvergence.Visits(second, n)
    requires LedgerServer.Complete(listing)
    ensures var w := LedgerSync.After(IdOf, Stamped(company), LedgerSync.Start(n), run);
            && |w.ledgers| == n == |w.repos|
            && var rounds := LedgerServer.TwoRoundActions(IdOf, Stamped(company), w, first, second, listing);
               && LedgerSync.CanRun(IdOf, Stamped(company), w, rounds)
               && var v := LedgerSync.After(IdOf, Stamped(company), w, rounds);
                  |v.ledgers| == n && forall m :: 0 <= m < n ==> v.ledgers[m] == Deduped(w.ledgers + w.repos)
  {
    var stamp, named := Stamped(company), (e: Event) => NamesCompany(e, company);
    StampedKeepsIds(company);
    forall e ensures (stamp(e) == e <==> named(e)) && stamp(stamp(e)) == stamp(e) {
      BackfillKeepsNamed(e, company);
      BackfillKeepsNamed(stamp(e), company);
    }
    LedgerIdentity.StartInv<Event>(IdOf, n);
    LedgerIdentity.NamedRunInv(IdOf, stamp, LedgerSync.Start(n), run, named);
    LedgerSync.RunSound(IdOf, stamp, LedgerSync.Start(n), run);
    LedgerServer.RunStamps(IdOf, stamp, LedgerSync.Start(n), run);
    var w := LedgerSync.After(IdOf, stamp, LedgerSync.Start(n), run);
    LedgerServer.NamedPool(IdOf, stamp, w);
    LedgerServer.ServerRoundsConvergeIff(IdOf, stamp, w, first, second, listing);
  }

  /** One ledger line without a company is enough: pushed with the backfill and fetched by a second machine, it leaves
      the two ledgers different for good, whatever syncs follow. */
  lemma BackfilledCopyNeverConverges(e: Event, company: string, more: seq<LedgerSync.Action<Event>>)
    requires IdOf(e) != "" && !NamesCompany(e, company)
    requires LedgerSync.CanRun(IdOf, Stamped(company), LedgerSync.Start(2), CopyRun(e, company))
    requires LedgerSync.CanRun(IdOf, Stamped(company), AfterCopy(e, company), more)
    ensures var v := LedgerSync.After(IdOf, Stamped(company), AfterCopy(e, company), more);
            && |v.ledgers| == 2 && e in v.ledgers[0] && e !in v.ledgers[1] && !LedgerConvergence.AllAlike(v)
  {
    BackfillKeepsNamed(e, company);
    LedgerConvergence.StampedCopyNeverConverges(IdOf, Stamped(company), e, more);
  }

  /** One machine records and pushes the event, another fetches the stored copy. */
  function CopyRun(e: Event, company: string): seq<LedgerSync.Action<Event>> {
    LedgerConvergence.CopyRun(e, Stamped(company)(e))
  }

  ghost function AfterCopy(e: Event, company: string): LedgerSync.World<Event>
    requires LedgerSync.CanRun(IdOf, Stamped(company), LedgerSync.Start(2), CopyRun(e, company))
  {
    LedgerSync.After(IdOf, Stamped(company), LedgerSync.Start(2), CopyRun(e, company))
  }

  lemma DedupeTwice(streams: seq<seq<Event>>)
    requires IdsDetermine(IdOf, Flatten(streams))
    ensures Deduped([Deduped(streams)]) == Deduped(streams)
  {
    var d := Deduped(streams);
    UnionMembers(IdOf, streams);
    assert Flatten([d]) == d by { assert [d][1..] == [] && d + [] == d; }
    UnionCanonical(IdOf, [d], streams);
  }
}
