/** What the rollup guarantees: mergeability, order independence, exact contents and conservation. */
module MetricsLaws {
  import opened Text
  import opened Sorting
  import opened MapAlgebra
  import opened MetricsRollup

  // ---- Mergeable, whatever the order ------------------------------------------------

  lemma EntriesCombine()
    ensures Associative(Widen) && Commutative(Widen)
    ensures Associative(AddTokens) && Commutative(AddTokens)
    ensures Associative(AddInt) && Commutative(AddInt)
    ensures Associative(AddBucket) && Commutative(AddBucket)
  {
  }

  lemma CollectionsCombine()
    ensures Associative(AddStamps) && Commutative(AddStamps)
    ensures Associative(Join) && Commutative(Join)
  {
    forall a, b, c ensures AddStamps(AddStamps(a, b), c) == AddStamps(a, AddStamps(b, c)) {}
    forall a, b ensures AddStamps(a, b) == AddStamps(b, a) {}
    forall a, b, c ensures Join(Join(a, b), c) == Join(a, Join(b, c)) {}
    forall a, b ensures Join(a, b) == Join(b, a) {}
  }

  lemma MergeRegroups(a: Rollup, b: Rollup, c: Rollup)
    ensures MergeRollups(MergeRollups(a, b), c) == MergeRollups(a, MergeRollups(b, c))
  {
    EntriesCombine();
    CollectionsCombine();
    MergeAssociative(a.lead, b.lead, c.lead, Widen);
    MergeAssociative(a.stamps, b.stamps, c.stamps, AddStamps);
    MergeAssociative(a.runs, b.runs, c.runs, Join);
    MergeAssociative(a.dor, b.dor, c.dor, AddInt);
    MergeAssociative(a.stalls, b.stalls, c.stalls, AddInt);
    MergeAssociative(a.byPhase, b.byPhase, c.byPhase, AddTokens);
    MergeAssociative(a.byAgent, b.byAgent, c.byAgent, AddTokens);
    MergeAssociative(a.bySource, b.bySource, c.bySource, AddTokens);
    MergeAssociative(a.buckets, b.buckets, c.buckets, AddBucket);
  }

  lemma MergeCommutes(a: Rollup, b: Rollup)
    ensures MergeRollups(a, b) == MergeRollups(b, a)
  {
    EntriesCombine();
    CollectionsCombine();
    MergeCommutative(a.lead, b.lead, Widen);
    MergeCommutative(a.stamps, b.stamps, AddStamps);
    MergeCommutative(a.runs, b.runs, Join);
    MergeCommutative(a.dor, b.dor, AddInt);
    MergeCommutative(a.stalls, b.stalls, AddInt);
    MergeCommutative(a.byPhase, b.byPhase, AddTokens);
    MergeCommutative(a.byAgent, b.byAgent, AddTokens);
    MergeCommutative(a.bySource, b.bySource, AddTokens);
    MergeCommutative(a.buckets, b.buckets, AddBucket);
  }

  lemma MergesRegroup()
    ensures Associative(MergeRollups)
  {
    forall a, b, c ensures MergeRollups(MergeRollups(a, b), c) == MergeRollups(a, MergeRollups(b, c)) {
      MergeRegroups(a, b, c);
    }
  }

  lemma MergesCommute()
    ensures Commutative(MergeRollups)
  {
    forall a, b ensures MergeRollups(a, b) == MergeRollups(b, a) {
      MergeCommutes(a, b);
    }
  }

  lemma EmptyAddsNothing(a: Rollup)
    ensures MergeRollups(EMPTY, a) == a
  {
    MergeUnit(a.lead, Widen);
    MergeUnit(a.stamps, AddStamps);
    MergeUnit(a.runs, Join);
    MergeUnit(a.dor, AddInt);
    MergeUnit(a.stalls, AddInt);
    MergeUnit(a.byPhase, AddTokens);
    MergeUnit(a.byAgent, AddTokens);
    MergeUnit(a.bySource, AddTokens);
    MergeUnit(a.buckets, AddBucket);
    assert AddCounters(NOTHING, a.counters) == a.counters;
  }

  lemma RollupsFormMonoid()
    ensures Monoid(MergeRollups, EMPTY)
  {
    MergesRegroup();
    MergesCommute();
    forall a ensures MergeRollups(EMPTY, a) == a {
      EmptyAddsNothing(a);
    }
  }

  /** Rolling up two halves and merging is rolling up the whole stream. */
  lemma AggregateMerges(xs: seq<Event>, ys: seq<Event>, q: Query)
    ensures Aggregated(xs + ys, q) == MergeRollups(Aggregated(xs, q), Aggregated(ys, q))
  {
    RollupsFormMonoid();
    FilterConcat(xs, ys, Keeps(q));
    FoldConcat(Filter(xs, Keeps(q)), Filter(ys, Keeps(q)), Single(q.compareBy), MergeRollups, EMPTY);
  }

  /** The rollup depends only on the multiset of events. */
  lemma AggregateIgnoresOrder(xs: seq<Event>, ys: seq<Event>, q: Query)
    requires multiset(xs) == multiset(ys)
    ensures Aggregated(xs, q) == Aggregated(ys, q)
  {
    RollupsFormMonoid();
    FilterPermuted(xs, ys, Keeps(q));
    FoldPermuted(Filter(xs, Keeps(q)), Filter(ys, Keeps(q)), Single(q.compareBy), MergeRollups, EMPTY);
  }

  /** One more event: every accumulator merges the event's own contribution. */
  lemma RollupSnoc(front: seq<Event>, e: Event, cmp: Option<CompareBy>)
    ensures RollupOf(front + [e], cmp) == MergeRollups(RollupOf(front, cmp), Single(cmp)(e))
  {
    FoldSnoc(front, e, Single(cmp), MergeRollups, EMPTY);
  }

  lemma BucketsSnoc(front: seq<Event>, e: Event, cmp: Option<CompareBy>)
    ensures RollupOf(front + [e], cmp).buckets == Merge(RollupOf(front, cmp).buckets, BucketsOf(e, cmp), AddBucket)
    ensures RollupOf(front + [e], cmp).counters.tokens == AddTokens(RollupOf(front, cmp).counters.tokens, TotalsOf(e))
  {
    RollupSnoc(front, e, cmp);
  }

  // ---- Exact contents ------------------------------------------------------------------

  ghost function RunIds(events: seq<Event>, task: string, phase: string): set<string> {
    set e | e in events && CountsRun(e) && e.taskId == task && e.agent == phase :: e.runId
  }

  lemma RunIdsSnoc(front: seq<Event>, e: Event, task: string, phase: string)
    ensures RunIds(front + [e], task, phase)
         == RunIds(front, task, phase) + if CountsRun(e) && e.taskId == task && e.agent == phase then {e.runId} else {}
  {
    forall x | x in front ensures x in front + [e] {}
    assert e in front + [e];
  }

  ghost predicate RunsAre(runs: map<(string, string), set<string>>, k: (string, string), ids: set<string>) {
    (k in runs <==> ids != {}) && (k in runs ==> runs[k] == ids)
  }

  lemma RunsStep(runs: map<(string, string), set<string>>, k: (string, string), ids: set<string>, e: Event)
    requires RunsAre(runs, k, ids)
    ensures RunsAre(Merge(runs, RunsOf(e), Join), k,
                    ids + if CountsRun(e) && (e.taskId, e.agent) == k then {e.runId} else {})
  {
  }

  /** The recorded runs of a task and phase are its distinct run ids; no entry means no run. */
  lemma {:induction false} RunsAreDistinctIds(events: seq<Event>, cmp: Option<CompareBy>, task: string, phase: string)
    ensures RunsAre(RollupOf(events, cmp).runs, (task, phase), RunIds(events, task, phase))
  {
    if events != [] {
      var front, e := events[..|events| - 1], events[|events| - 1];
      assert events == front + [e];
      RunsAreDistinctIds(front, cmp, task, phase);
      RollupSnoc(front, e, cmp);
      RunsStep(RollupOf(front, cmp).runs, (task, phase), RunIds(front, task, phase), e);
      RunIdsSnoc(front, e, task, phase);
    }
  }

  /** The usable timestamps of one task. */
  ghost function TaskStamps(events: seq<Event>, task: string): set<int> {
    set e | e in events && e.taskId == task && StampOf(e) != EARLIEST :: StampOf(e)
  }

  lemma TaskStampsSnoc(front: seq<Event>, e: Event, task: string)
    ensures TaskStamps(front + [e], task)
         == TaskStamps(front, task) + if e.taskId == task && StampOf(e) != EARLIEST then {StampOf(e)} else {}
  {
    forall x | x in front ensures x in front + [e] {}
    assert e in front + [e];
  }

  /** The task's span is the least and the greatest of its stamps. */
  ghost predicate LeadIs(lead: map<string, Span>, task: string, stamps: set<int>) {
    && (task in lead <==> stamps != {})
    && (task in lead ==>
        && lead[task].first in stamps && lead[task].last in stamps
        && forall t :: t in stamps ==> lead[task].first <= t <= lead[task].last)
  }

  lemma LeadStep(lead: map<string, Span>, task: string, stamps: set<int>, e: Event)
    requires task != "" && LeadIs(lead, task, stamps)
    ensures LeadIs(Merge(lead, LeadOf(e), Widen), task,
                   stamps + if e.taskId == task && StampOf(e) != EARLIEST then {StampOf(e)} else {})
  {
  }

  /** Lead time runs from the earliest to the latest usable timestamp of the task. */
  lemma {:induction false} LeadSpansTask(events: seq<Event>, cmp: Option<CompareBy>, task: string)
    requires task != ""
    ensures LeadIs(RollupOf(events, cmp).lead, task, TaskStamps(events, task))
  {
    if events != [] {
      var front, e := events[..|events| - 1], events[|events| - 1];
      assert events == front + [e];
      LeadSpansTask(front, cmp, task);
      RollupSnoc(front, e, cmp);
      LeadStep(RollupOf(front, cmp).lead, task, TaskStamps(front, task), e);
      TaskStampsSnoc(front, e, task);
    }
  }

  /** Tokens of the retrieval events that `p` selects. */
  ghost function TokenTotal(events: seq<Event>, p: Event -> bool): Tokens {
    if events == [] then Tokens(0, 0)
    else
      var e := events[|events| - 1];
      AddTokens(TokenTotal(events[..|events| - 1], p), if p(e) then TotalsOf(e) else Tokens(0, 0))
  }

  ghost function Entry(table: map<string, Tokens>, k: string): Tokens {
    if k in table then table[k] else Tokens(0, 0)
  }

  lemma AgentStep(table: map<string, Tokens>, agent: string, e: Event)
    requires agent != ""
    ensures Entry(Merge(table, AgentTokensOf(e), AddTokens), agent)
         == AddTokens(Entry(table, agent), if e.agent == agent then TotalsOf(e) else Tokens(0, 0))
  {
    EntryMerges(table, AgentTokensOf(e), agent);
    AgentEntry(agent, e);
  }

  lemma AgentEntry(agent: string, e: Event)
    requires agent != ""
    ensures Entry(AgentTokensOf(e), agent) == if e.agent == agent then TotalsOf(e) else Tokens(0, 0)
  {
  }

  lemma EntryMerges(a: map<string, Tokens>, b: map<string, Tokens>, k: string)
    ensures Entry(Merge(a, b, AddTokens), k) == AddTokens(Entry(a, k), Entry(b, k))
  {
  }

  /** Each agent's entry is the tokens of exactly its own events. */
  lemma {:induction false} AgentTokensAreTheirOwn(events: seq<Event>, cmp: Option<CompareBy>, agent: string)
    requires agent != ""
    ensures Entry(RollupOf(events, cmp).byAgent, agent) == TokenTotal(events, (e: Event) => e.agent == agent)
  {
    if events != [] {
      var front, e := events[..|events| - 1], events[|events| - 1];
      assert events == front + [e];
      AgentTokensAreTheirOwn(front, cmp, agent);
      RollupSnoc(front, e, cmp);
      AgentStep(RollupOf(front, cmp).byAgent, agent, e);
    }
  }

  // ---- Conservation ---------------------------------------------------------------------

  function OnlyPhases(byAgent: map<string, Tokens>): map<string, Tokens> {
    map a | a in byAgent && IsPhase(a) :: byAgent[a]
  }

  lemma PhasesStep(byAgent: map<string, Tokens>, e: Event)
    ensures OnlyPhases(Merge(byAgent, AgentTokensOf(e), AddTokens))
         == Merge(OnlyPhases(byAgent), PhaseTokensOf(e), AddTokens)
  {
  }

  /** The phase table is the agent table restricted to the five phases. */
  lemma {:induction false} PhasesAreAgents(events: seq<Event>, cmp: Option<CompareBy>)
    ensures RollupOf(events, cmp).byPhase == OnlyPhases(RollupOf(events, cmp).byAgent)
  {
    if events != [] {
      var front, e := events[..|events| - 1], events[|events| - 1];
      assert events == front + [e];
      PhasesAreAgents(front, cmp);
      RollupSnoc(front, e, cmp);
      PhasesStep(RollupOf(front, cmp).byAgent, e);
    }
  }

  function BucketIn(b: Bucket): int { b.tokens.tin }
  function BucketOut(b: Bucket): int { b.tokens.tout }
  function BucketSeen(b: Bucket): int { b.seen }

  lemma BucketStep(buckets: map<string, Bucket>, e: Event, cmp: Option<CompareBy>, f: Bucket -> int)
    requires cmp.Some? && forall x, y :: f(AddBucket(x, y)) == f(x) + f(y)
    ensures Sum(Measure(Merge(buckets, BucketsOf(e, cmp), AddBucket), f))
         == Sum(Measure(buckets, f)) + if BucketDelta(e.kind).Some? then f(BucketDelta(e.kind).value) else 0
  {
    if BucketDelta(e.kind).Some? {
      SumMergeOne(buckets, BucketKey(e.comparison, cmp.value), BucketDelta(e.kind).value, AddBucket, f);
    } else {
      MergeUnit(buckets, AddBucket);
    }
  }

  lemma DeltaCarriesTokens(e: Event)
    ensures BucketDelta(e.kind).Some? ==> BucketDelta(e.kind).value.tokens == TotalsOf(e)
    ensures BucketDelta(e.kind).None? ==> TotalsOf(e) == Tokens(0, 0)
  {
  }

  lemma BucketsAddTotals(buckets: map<string, Bucket>, e: Event, cmp: Option<CompareBy>)
    requires cmp.Some?
    ensures Sum(Measure(Merge(buckets, BucketsOf(e, cmp), AddBucket), BucketIn))
         == Sum(Measure(buckets, BucketIn)) + TotalsOf(e).tin
    ensures Sum(Measure(Merge(buckets, BucketsOf(e, cmp), AddBucket), BucketOut))
         == Sum(Measure(buckets, BucketOut)) + TotalsOf(e).tout
  {
    DeltaCarriesTokens(e);
    BucketStep(buckets, e, cmp, BucketIn);
    BucketStep(buckets, e, cmp, BucketOut);
  }

  /** The buckets' tokens sum to the token counters. */
  ghost predicate BucketsSum(r: Rollup) {
    && Sum(Measure(r.buckets, BucketIn)) == r.counters.tokens.tin
    && Sum(Measure(r.buckets, BucketOut)) == r.counters.tokens.tout
  }

  lemma BucketsSumStep(r: Rollup, t: Rollup, more: map<string, Bucket>, add: Tokens)
    requires BucketsSum(r)
    requires t.buckets == Merge(r.buckets, more, AddBucket) && t.counters.tokens == AddTokens(r.counters.tokens, add)
    requires Sum(Measure(Merge(r.buckets, more, AddBucket), BucketIn)) == Sum(Measure(r.buckets, BucketIn)) + add.tin
    requires Sum(Measure(Merge(r.buckets, more, AddBucket), BucketOut)) == Sum(Measure(r.buckets, BucketOut)) + add.tout
    ensures BucketsSum(t)
  {
  }

  ghost predicate TokensKept(events: seq<Event>, cmp: Option<CompareBy>) {
    BucketsSum(RollupOf(events, cmp))
  }

  lemma TokensKeptEmpty(cmp: Option<CompareBy>)
    ensures TokensKept([], cmp)
  {
  }

  lemma TokensKeptSnoc(front: seq<Event>, e: Event, cmp: Option<CompareBy>)
    requires cmp.Some? && TokensKept(front, cmp)
    ensures TokensKept(front + [e], cmp)
  {
    BucketsSnoc(front, e, cmp);
    BucketsAddTotals(RollupOf(front, cmp).buckets, e, cmp);
    BucketsSumStep(RollupOf(front, cmp), RollupOf(front + [e], cmp), BucketsOf(e, cmp), TotalsOf(e));
  }

  /** Comparison buckets split the token totals without loss. */
  lemma {:induction false} BucketsConserveTokens(events: seq<Event>, cmp: Option<CompareBy>)
    requires cmp.Some?
    ensures TokensKept(events, cmp)
  {
    if events == [] {
      TokensKeptEmpty(cmp);
    } else {
      var front, e := events[..|events| - 1], events[|events| - 1];
      assert events == front + [e];
      BucketsConserveTokens(front, cmp);
      TokensKeptSnoc(front, e, cmp);
    }
  }

  predicate IsOutcome(e: Event) { e.kind.TaskOutcome? }

  ghost predicate SeenSum(buckets: map<string, Bucket>, n: int) {
    Sum(Measure(buckets, BucketSeen)) == n
  }

  ghost predicate OutcomesKept(events: seq<Event>, cmp: Option<CompareBy>) {
    SeenSum(RollupOf(events, cmp).buckets, |Filter(events, IsOutcome)|)
  }

  lemma SeenStep(buckets: map<string, Bucket>, e: Event, cmp: Option<CompareBy>, n: int)
    requires cmp.Some? && SeenSum(buckets, n)
    ensures SeenSum(Merge(buckets, BucketsOf(e, cmp), AddBucket), n + if IsOutcome(e) then 1 else 0)
  {
    BucketStep(buckets, e, cmp, BucketSeen);
  }

  lemma CountOneMore(front: seq<Event>, e: Event, p: Event -> bool)
    ensures |Filter(front + [e], p)| == |Filter(front, p)| + if p(e) then 1 else 0
  {
    FilterConcat(front, [e], p);
    assert [e][1..] == [];
  }

  lemma OutcomesKeptSnoc(front: seq<Event>, e: Event, cmp: Option<CompareBy>)
    requires cmp.Some? && OutcomesKept(front, cmp)
    ensures OutcomesKept(front + [e], cmp)
  {
    BucketsSnoc(front, e, cmp);
    CountOneMore(front, e, IsOutcome);
    SeenStep(RollupOf(front, cmp).buckets, e, cmp, |Filter(front, IsOutcome)|);
  }

  lemma OutcomesKeptEmpty(cmp: Option<CompareBy>)
    ensures OutcomesKept([], cmp)
  {
  }

  /** Every task outcome is counted in exactly one bucket. */
  lemma {:induction false} BucketsConserveOutcomes(events: seq<Event>, cmp: Option<CompareBy>)
    requires cmp.Some?
    ensures OutcomesKept(events, cmp)
  {
    if events == [] {
      OutcomesKeptEmpty(cmp);
    } else {
      var front, e := events[..|events| - 1], events[|events| - 1];
      assert events == front + [e];
      BucketsConserveOutcomes(front, cmp);
      OutcomesKeptSnoc(front, e, cmp);
    }
  }

  function Same(n: int): int { n }
  predicate IsDorFailure(e: Event) { e.kind.DorFailure? }
  predicate IsStall(e: Event) { e.kind.LeaseStall? }
  predicate IsTaskStall(e: Event) { e.kind.LeaseStall? && e.taskId != "" }

  ghost predicate IncidentsKept(r: Rollup, events: seq<Event>) {
    && Sum(Measure(r.dor, Same)) == |Filter(events, IsDorFailure)|
    && Sum(Measure(r.stalls, Same)) == |Filter(events, IsTaskStall)|
    && r.counters.stalls == |Filter(events, IsStall)|
    && r.counters.events == |events|
  }

  lemma DorStep(dor: map<string, int>, e: Event)
    ensures Sum(Measure(Merge(dor, DorOf(e), AddInt), Same))
         == Sum(Measure(dor, Same)) + if IsDorFailure(e) then 1 else 0
  {
    if e.kind.DorFailure? {
      SumMergeOne(dor, if e.kind.stage == "" then "unknown" else e.kind.stage, 1, AddInt, Same);
    } else {
      MergeUnit(dor, AddInt);
    }
  }

  lemma StallStep(stalls: map<string, int>, e: Event)
    ensures Sum(Measure(Merge(stalls, StallsOf(e), AddInt), Same))
         == Sum(Measure(stalls, Same)) + if IsTaskStall(e) then 1 else 0
  {
    if IsTaskStall(e) {
      SumMergeOne(stalls, e.taskId, 1, AddInt, Same);
    } else {
      MergeUnit(stalls, AddInt);
    }
  }

  lemma IncidentsStep(r: Rollup, front: seq<Event>, e: Event, cmp: Option<CompareBy>)
    requires IncidentsKept(r, front)
    ensures IncidentsKept(MergeRollups(r, Single(cmp)(e)), front + [e])
  {
    DorStep(r.dor, e);
    StallStep(r.stalls, e);
    CountOneMore(front, e, IsDorFailure);
    CountOneMore(front, e, IsTaskStall);
    CountOneMore(front, e, IsStall);
  }

  /** DoR causes sum to the DoR failures, and per-task stalls to the stalls that name a task. */
  lemma {:induction false} IncidentsConserved(events: seq<Event>, cmp: Option<CompareBy>)
    ensures IncidentsKept(RollupOf(events, cmp), events)
  {
    if events == [] {
      IncidentsNone();
      assert RollupOf(events, cmp) == EMPTY;
    } else {
      var front, e := events[..|events| - 1], events[|events| - 1];
      assert events == front + [e];
      IncidentsConserved(front, cmp);
      RollupSnoc(front, e, cmp);
      IncidentsStep(RollupOf(front, cmp), front, e, cmp);
    }
  }

  lemma IncidentsNone()
    ensures IncidentsKept(EMPTY, [])
  {
  }

  // ---- Final figures -----------------------------------------------------------------------

  /** One entry per task and phase run more than once, holding runs minus one. */
  ghost predicate RetriesOf(runs: map<(string, string), set<string>>, out: map<(string, string), int>) {
    && (forall k :: k in out <==> k in runs && |runs[k]| > 1)
    && (forall k :: k in out ==> out[k] == |runs[k]| - 1)
  }

  /** The loop over the recorded runs that fills the retry table and its total. */
  method FinalizeRetries(runs: map<(string, string), set<string>>)
    returns (out: map<(string, string), int>, total: int)
    ensures RetriesOf(runs, out)
    ensures total == Sum(out)
  {
    out, total := map[], 0;
    var left := runs.Keys;
    while left != {}
      invariant left <= runs.Keys
      invariant forall k :: k in out <==> k in runs && k !in left && |runs[k]| > 1
      invariant forall k :: k in out ==> out[k] == |runs[k]| - 1
      invariant total == Sum(out)
      decreases |left|
    {
      var k :| k in left;
      left := left - {k};
      var count := if |runs[k]| - 1 > 0 then |runs[k]| - 1 else 0;
      if count > 0 {
        SumSet(out, k, count);
        out := out[k := count];
        total := total + count;
      }
    }
  }

  /** Retries of a task and phase are its distinct run ids minus one, end to end. */
  lemma RetriesCountRepeatedRuns(events: seq<Event>, cmp: Option<CompareBy>, out: map<(string, string), int>,
                                 task: string, phase: string)
    requires RetriesOf(RollupOf(events, cmp).runs, out)
    ensures (task, phase) in out <==> |RunIds(events, task, phase)| > 1
    ensures (task, phase) in out ==> out[(task, phase)] == |RunIds(events, task, phase)| - 1
  {
    RunsAreDistinctIds(events, cmp, task, phase);
  }

  /** `avg_elapsed` of `_finalize_compare_buckets`. */
  function Average(sum: int, n: nat): int {
    if n == 0 then 0 else (sum + n / 2) / n
  }

  /** The average is the nearest integer: times `n` it is within half of `n` of the sum. */
  lemma AverageIsNearest(sum: int, n: nat)
    requires n > 0
    ensures 2 * (Average(sum, n) * n - sum) <= n
    ensures 2 * (sum - Average(sum, n) * n) <= n
  {
    var t := sum + n / 2;
    assert t == (t / n) * n + t % n;
  }
}
