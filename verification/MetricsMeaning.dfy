/** What every figure of the rollup says about the events (src/canon_systems/metrics_rollup.py). */
module MetricsMeaning {
  import opened Text
  import opened Sorting
  import opened MapAlgebra
  import opened MetricsRollup
  import MetricsLaws

  // ---- Which events count -----------------------------------------------------------------

  predicate Between(ts: int, since: Option<int>, until: Option<int>) {
    (since.None? || since.value <= ts) && (until.None? || ts <= until.value)
  }

  /** The event meets every filter the query names. */
  predicate Selected(e: Event, q: Query) {
    && (q.company == "" || q.company == e.company)
    && (q.repository == "" || q.repository == e.repository)
    && (q.plan == "" || q.plan == e.plan)
    && ((q.since.None? && q.until.None?) || (e.ts.Some? && Between(e.ts.value, q.since, q.until)))
    && ((q.experiment == "" && q.mode == "") ||
        (e.comparison.Some? && (q.experiment == "" || q.experiment == e.comparison.value.experimentId)
         && (q.mode == "" || q.mode == e.comparison.value.memoryMode)))
  }

  lemma KeepsReads(e: Event, q: Query)
    ensures Keeps(q)(e) <==> Selected(e, q)
  {
  }

  lemma SelectedSnoc(front: seq<Event>, e: Event, q: Query)
    ensures Aggregated(front + [e], q) ==
            if Selected(e, q) then MergeRollups(Aggregated(front, q), Single(q.compareBy)(e)) else Aggregated(front, q)
  {
    KeepsReads(e, q);
    FilterConcat(front, [e], Keeps(q));
    assert [e][1..] == [];
    if Selected(e, q) {
      assert Filter(front + [e], Keeps(q)) == Filter(front, Keeps(q)) + [e];
      MetricsLaws.RollupSnoc(Filter(front, Keeps(q)), e, q.compareBy);
    } else {
      assert Filter(front + [e], Keeps(q)) == Filter(front, Keeps(q));
    }
  }

  /** The shares of the selected events, summed. */
  ghost function Total(events: seq<Event>, q: Query, share: Event -> int): int {
    if events == [] then 0
    else
      var e := events[|events| - 1];
      Total(events[..|events| - 1], q, share) + if Selected(e, q) then share(e) else 0
  }

  ghost predicate Occurs(events: seq<Event>, q: Query, named: Event -> bool) {
    exists e :: e in events && Selected(e, q) && named(e)
  }

  lemma OccursSnoc(front: seq<Event>, e: Event, q: Query, named: Event -> bool)
    ensures Occurs(front + [e], q, named) <==> Occurs(front, q, named) || (Selected(e, q) && named(e))
  {
    if x :| x in front && Selected(x, q) && named(x) {
      assert x in front + [e];
    }
    if Selected(e, q) && named(e) {
      assert e in front + [e];
    }
  }

  // ---- Plain counters -----------------------------------------------------------------------

  /** How many selected events there are of a kind. */
  ghost function Count(events: seq<Event>, q: Query, of: Event -> bool): int {
    Total(events, q, (e: Event) => if of(e) then 1 else 0)
  }

  /** One counter of the rollup: what each event adds to it is its share. */
  lemma {:induction false} CounterReads(events: seq<Event>, q: Query, c: Counters -> int, share: Event -> int)
    requires c(NOTHING) == 0 && forall x, y :: c(AddCounters(x, y)) == c(x) + c(y)
    requires forall e :: c(CountersOf(e)) == share(e)
    ensures c(Aggregated(events, q).counters) == Total(events, q, share)
  {
    if events != [] {
      var front, e := events[..|events| - 1], events[|events| - 1];
      assert events == front + [e];
      CounterReads(front, q, c, share);
      SelectedSnoc(front, e, q);
    }
  }

  function TokensInOf(e: Event): int {
    if e.kind.Retrieval? && e.kind.totals.Some? then e.kind.totals.value.tin else 0
  }

  function TokensOutOf(e: Event): int {
    if e.kind.Retrieval? && e.kind.totals.Some? then e.kind.totals.value.tout else 0
  }

  /** The events, the stalls, the notifications and the tokens of the selected events. */
  lemma CountersRead(events: seq<Event>, q: Query)
    ensures var c := Aggregated(events, q).counters;
            && c.events == Count(events, q, (e: Event) => true)
            && c.stalls == Count(events, q, (e: Event) => e.kind.LeaseStall?)
            && c.notified == Count(events, q, (e: Event) => e.kind.VaultNotified?)
            && c.tokens.tin == Total(events, q, TokensInOf)
            && c.tokens.tout == Total(events, q, TokensOutOf)
  {
    EachCounts(events, q, (c: Counters) => c.events, (e: Event) => true);
    EachCounts(events, q, (c: Counters) => c.stalls, (e: Event) => e.kind.LeaseStall?);
    EachCounts(events, q, (c: Counters) => c.notified, (e: Event) => e.kind.VaultNotified?);
    CounterReads(events, q, (c: Counters) => c.tokens.tin, TokensInOf);
    CounterReads(events, q, (c: Counters) => c.tokens.tout, TokensOutOf);
  }

  /** The publishes that went through and those that failed. */
  lemma PublishesRead(events: seq<Event>, q: Query)
    ensures var c := Aggregated(events, q).counters;
            && c.published == Count(events, q, (e: Event) => e.kind.SynthPublish? && e.kind.status.PublishOk?)
            && c.failed == Count(events, q, (e: Event) => e.kind.SynthPublish? && e.kind.status.PublishFailed?)
  {
    EachCounts(events, q, (c: Counters) => c.published,
               (e: Event) => e.kind.SynthPublish? && e.kind.status.PublishOk?);
    EachCounts(events, q, (c: Counters) => c.failed,
               (e: Event) => e.kind.SynthPublish? && e.kind.status.PublishFailed?);
  }

  lemma EachCounts(events: seq<Event>, q: Query, c: Counters -> int, of: Event -> bool)
    requires c(NOTHING) == 0 && forall x, y :: c(AddCounters(x, y)) == c(x) + c(y)
    requires forall e :: c(CountersOf(e)) == if of(e) then 1 else 0
    ensures c(Aggregated(events, q).counters) == Count(events, q, of)
  {
    CounterReads(events, q, c, (e: Event) => if of(e) then 1 else 0);
  }

  // ---- Tables ---------------------------------------------------------------------------------

  ghost function EntryOf<K, V>(table: map<K, V>, k: K, f: V -> int): int {
    if k in table then f(table[k]) else 0
  }

  /** The table has an entry at `k` exactly when a selected event names it, and the entry sums the shares. */
  ghost predicate TableIs<K, V>(table: map<K, V>, k: K, f: V -> int, events: seq<Event>, q: Query,
                                named: Event -> bool, share: Event -> int)
  {
    (k in table <==> Occurs(events, q, named)) && EntryOf(table, k, f) == Total(events, q, share)
  }

  lemma MergedEntry<K, V>(a: map<K, V>, b: map<K, V>, op: (V, V) -> V, k: K, f: V -> int)
    requires forall x, y :: f(op(x, y)) == f(x) + f(y)
    ensures EntryOf(Merge(a, b, op), k, f) == EntryOf(a, k, f) + EntryOf(b, k, f)
    ensures k in Merge(a, b, op) <==> k in a || k in b
  {
  }

  /** A table merged from what each selected event contributes. */
  ghost function TableOf<K, V>(events: seq<Event>, q: Query, one: Event -> map<K, V>, op: (V, V) -> V): map<K, V> {
    if events == [] then map[]
    else
      var before, e := TableOf(events[..|events| - 1], q, one, op), events[|events| - 1];
      if Selected(e, q) then Merge(before, one(e), op) else before
  }

  function BucketsBy(cmp: Option<CompareBy>): Event -> map<string, Bucket> {
    (e: Event) => BucketsOf(e, cmp)
  }

  /** The tables of the rollup are such tables. */
  ghost predicate TablesAre(r: Rollup, events: seq<Event>, q: Query) {
    && r.dor == TableOf(events, q, DorOf, AddInt) && r.stalls == TableOf(events, q, StallsOf, AddInt)
    && r.byPhase == TableOf(events, q, PhaseTokensOf, AddTokens)
    && r.byAgent == TableOf(events, q, AgentTokensOf, AddTokens)
    && r.bySource == TableOf(events, q, SourceTokensOf, AddTokens)
    && r.buckets == TableOf(events, q, BucketsBy(q.compareBy), AddBucket)
    && r.stamps == TableOf(events, q, StampsOf, AddStamps)
  }

  lemma {:induction false} RollupTables(events: seq<Event>, q: Query)
    ensures TablesAre(Aggregated(events, q), events, q)
  {
    if events != [] {
      var front, e := events[..|events| - 1], events[|events| - 1];
      assert events == front + [e];
      RollupTables(front, q);
      SelectedSnoc(front, e, q);
    }
  }

  ghost predicate Adds<V(!new)>(f: V -> int, op: (V, V) -> V) {
    forall x, y :: f(op(x, y)) == f(x) + f(y)
  }

  /** What one event puts into a table at `k`. */
  ghost predicate Puts<K, V>(one: Event -> map<K, V>, k: K, f: V -> int, named: Event -> bool, share: Event -> int) {
    forall e :: (k in one(e) <==> named(e)) && EntryOf(one(e), k, f) == share(e)
  }

  /** A table of the rollup at one key, given what each event puts there. */
  lemma {:induction false} TableReads<K, V(!new)>(
      events: seq<Event>, q: Query, one: Event -> map<K, V>, op: (V, V) -> V, k: K, f: V -> int,
      named: Event -> bool, share: Event -> int)
    requires Adds(f, op) && Puts(one, k, f, named, share)
    ensures TableIs(TableOf(events, q, one, op), k, f, events, q, named, share)
  {
    if events != [] {
      var front, e := events[..|events| - 1], events[|events| - 1];
      assert events == front + [e];
      TableReads(front, q, one, op, k, f, named, share);
      OccursSnoc(front, e, q, named);
      if Selected(e, q) {
        MergedEntry(TableOf(front, q, one, op), one(e), op, k, f);
      }
    }
  }

  // ---- Incidents ------------------------------------------------------------------------------

  /** A failure of definition of ready at the stage, "unknown" when it names none. */
  predicate FailsAt(e: Event, stage: string) {
    e.kind.DorFailure? && stage == if e.kind.stage == "" then "unknown" else e.kind.stage
  }

  predicate StallsTask(e: Event, task: string) {
    e.kind.LeaseStall? && e.taskId == task && task != ""
  }

  function Itself(n: int): int { n }

  function One(of: Event -> bool): Event -> int {
    (e: Event) => if of(e) then 1 else 0
  }

  /** A stage or task is listed exactly when it failed or stalled, with how often. */
  lemma IncidentsRead(events: seq<Event>, q: Query, stage: string, task: string)
    ensures var fails := (e: Event) => FailsAt(e, stage);
            TableIs(Aggregated(events, q).dor, stage, Itself, events, q, fails, One(fails))
    ensures var stalls := (e: Event) => StallsTask(e, task);
            TableIs(Aggregated(events, q).stalls, task, Itself, events, q, stalls, One(stalls))
  {
    var fails, stalls := (e: Event) => FailsAt(e, stage), (e: Event) => StallsTask(e, task);
    RollupTables(events, q);
    TableReads(events, q, DorOf, AddInt, stage, Itself, fails, One(fails));
    TableReads(events, q, StallsOf, AddInt, task, Itself, stalls, One(stalls));
  }

  // ---- Tokens -----------------------------------------------------------------------------------

  function In(t: Tokens): int { t.tin }
  function Out(t: Tokens): int { t.tout }

  /** The agent's own retrieval, with totals. */
  predicate RetrievedBy(e: Event, agent: string) {
    e.kind.Retrieval? && e.kind.totals.Some? && e.agent == agent && agent != ""
  }

  predicate NamesPhase(agent: string) {
    || agent == "scoper" || agent == "cursor-pilot" || agent == "implementer" || agent == "qa-gate"
    || agent == "release-orchestrator"
  }

  function Share(of: Event -> bool, share: Event -> int): Event -> int {
    (e: Event) => if of(e) then share(e) else 0
  }

  /** The tokens of each agent are those of its retrievals; the phases are the five agents. */
  lemma AgentsRead(events: seq<Event>, q: Query, agent: string)
    ensures var own := (e: Event) => RetrievedBy(e, agent);
            && TableIs(Aggregated(events, q).byAgent, agent, In, events, q, own, Share(own, TokensInOf))
            && TableIs(Aggregated(events, q).byAgent, agent, Out, events, q, own, Share(own, TokensOutOf))
  {
    var own := (e: Event) => RetrievedBy(e, agent);
    RollupTables(events, q);
    TableReads(events, q, AgentTokensOf, AddTokens, agent, In, own, Share(own, TokensInOf));
    TableReads(events, q, AgentTokensOf, AddTokens, agent, Out, own, Share(own, TokensOutOf));
  }

  /** Only the five phases have an entry in the phase table. */
  lemma PhasesRead(events: seq<Event>, q: Query, agent: string)
    ensures var own := (e: Event) => RetrievedBy(e, agent) && NamesPhase(agent);
            && TableIs(Aggregated(events, q).byPhase, agent, In, events, q, own, Share(own, TokensInOf))
            && TableIs(Aggregated(events, q).byPhase, agent, Out, events, q, own, Share(own, TokensOutOf))
  {
    var own := (e: Event) => RetrievedBy(e, agent) && NamesPhase(agent);
    RollupTables(events, q);
    TableReads(events, q, PhaseTokensOf, AddTokens, agent, In, own, Share(own, TokensInOf));
    TableReads(events, q, PhaseTokensOf, AddTokens, agent, Out, own, Share(own, TokensOutOf));
  }

  /** The counts a retrieval lists under a source, summed. */
  ghost function UnderSource(sources: seq<(string, Tokens)>, src: string, f: Tokens -> int): int {
    if sources == [] then 0
    else
      UnderSource(sources[..|sources| - 1], src, f)
      + if sources[|sources| - 1].0 == src then f(sources[|sources| - 1].1) else 0
  }

  lemma {:induction false} SourceEntry(sources: seq<(string, Tokens)>, src: string, f: Tokens -> int)
    requires Adds(f, AddTokens)
    ensures src in SourceTokens(sources) <==> exists i :: 0 <= i < |sources| && sources[i].0 == src
    ensures EntryOf(SourceTokens(sources), src, f) == UnderSource(sources, src, f)
  {
    if sources != [] {
      SourceEntry(sources[..|sources| - 1], src, f);
    }
  }

  predicate ListsSource(e: Event, src: string) {
    e.kind.Retrieval? && exists i :: 0 <= i < |e.kind.sources| && e.kind.sources[i].0 == src
  }

  ghost function FromSource(src: string, f: Tokens -> int): Event -> int {
    (e: Event) => if e.kind.Retrieval? then UnderSource(e.kind.sources, src, f) else 0
  }

  /** The tokens of each source are what the retrievals list under it. */
  lemma SourcesRead(events: seq<Event>, q: Query, src: string)
    ensures var own := (e: Event) => ListsSource(e, src);
            && TableIs(Aggregated(events, q).bySource, src, In, events, q, own, FromSource(src, In))
            && TableIs(Aggregated(events, q).bySource, src, Out, events, q, own, FromSource(src, Out))
  {
    var own := (e: Event) => ListsSource(e, src);
    RollupTables(events, q);
    forall e: Event
      ensures src in SourceTokensOf(e) <==> own(e)
      ensures EntryOf(SourceTokensOf(e), src, In) == FromSource(src, In)(e)
      ensures EntryOf(SourceTokensOf(e), src, Out) == FromSource(src, Out)(e)
    {
      if e.kind.Retrieval? {
        SourceEntry(e.kind.sources, src, In);
        SourceEntry(e.kind.sources, src, Out);
      }
    }
    TableReads(events, q, SourceTokensOf, AddTokens, src, In, own, FromSource(src, In));
    TableReads(events, q, SourceTokensOf, AddTokens, src, Out, own, FromSource(src, Out));
  }

  // ---- Comparison buckets -------------------------------------------------------------------------

  /** A retrieval or outcome whose bucket has the name. */
  predicate Labelled(e: Event, cmp: Option<CompareBy>, name: string) {
    && cmp.Some? && (e.kind.Retrieval? || e.kind.TaskOutcome?)
    && name == match e.comparison
               case None => "unlabeled"
               case Some(c) => if cmp == Some(ByMemoryMode) then c.memoryMode else c.experimentId
  }

  /** One figure of one bucket sums the shares of the selected events labelled so. */
  ghost predicate BucketIs(events: seq<Event>, q: Query, name: string, f: Bucket -> int, share: Event -> int) {
    var own := (e: Event) => Labelled(e, q.compareBy, name);
    TableIs(Aggregated(events, q).buckets, name, f, events, q, own, Share(own, share))
  }

  lemma BucketFigure(events: seq<Event>, q: Query, name: string, f: Bucket -> int, share: Event -> int)
    requires Adds(f, AddBucket)
    requires forall e: Event :: BucketDelta(e.kind).Some? ==> f(BucketDelta(e.kind).value) == share(e)
    ensures BucketIs(events, q, name, f, share)
  {
    var own := (e: Event) => Labelled(e, q.compareBy, name);
    RollupTables(events, q);
    TableReads(events, q, BucketsBy(q.compareBy), AddBucket, name, f, own, Share(own, share));
  }

  predicate Outcome(e: Event) { e.kind.TaskOutcome? }
  predicate FinishedOutcome(e: Event) { e.kind.TaskOutcome? && e.kind.finished }
  predicate PassedOutcome(e: Event) { e.kind.TaskOutcome? && e.kind.gate.GatePass? }
  predicate FailedOutcome(e: Event) { e.kind.TaskOutcome? && e.kind.gate.GateFail? }
  function Elapsed(e: Event): int { if e.kind.TaskOutcome? then e.kind.elapsed else 0 }
  function Retries(e: Event): int { if e.kind.TaskOutcome? then e.kind.retries else 0 }
  function Reopens(e: Event): int { if e.kind.TaskOutcome? then e.kind.reopens else 0 }
  function Reworks(e: Event): int { if e.kind.TaskOutcome? then e.kind.reworks else 0 }

  /** The tokens of the retrievals. */
  lemma BucketTokens(events: seq<Event>, q: Query, name: string)
    ensures BucketIs(events, q, name, (b: Bucket) => b.tokens.tin, TokensInOf)
    ensures BucketIs(events, q, name, (b: Bucket) => b.tokens.tout, TokensOutOf)
  {
    BucketFigure(events, q, name, (b: Bucket) => b.tokens.tin, TokensInOf);
    BucketFigure(events, q, name, (b: Bucket) => b.tokens.tout, TokensOutOf);
  }

  /** How many outcomes there are, and how many of them finished. */
  lemma BucketOutcomes(events: seq<Event>, q: Query, name: string)
    ensures BucketIs(events, q, name, (b: Bucket) => b.seen, One(Outcome))
    ensures BucketIs(events, q, name, (b: Bucket) => b.finished, One(FinishedOutcome))
  {
    BucketFigure(events, q, name, (b: Bucket) => b.seen, One(Outcome));
    BucketFigure(events, q, name, (b: Bucket) => b.finished, One(FinishedOutcome));
  }

  /** How many outcomes passed the gate, and how many failed it. */
  lemma BucketGates(events: seq<Event>, q: Query, name: string)
    ensures BucketIs(events, q, name, (b: Bucket) => b.pass, One(PassedOutcome))
    ensures BucketIs(events, q, name, (b: Bucket) => b.fail, One(FailedOutcome))
  {
    BucketFigure(events, q, name, (b: Bucket) => b.pass, One(PassedOutcome));
    BucketFigure(events, q, name, (b: Bucket) => b.fail, One(FailedOutcome));
  }

  /** The outcomes' seconds, retries, reopens and reworks. */
  lemma BucketSums(events: seq<Event>, q: Query, name: string)
    ensures BucketIs(events, q, name, (b: Bucket) => b.elapsed, Elapsed)
    ensures BucketIs(events, q, name, (b: Bucket) => b.retries, Retries)
    ensures BucketIs(events, q, name, (b: Bucket) => b.reopens, Reopens)
    ensures BucketIs(events, q, name, (b: Bucket) => b.reworks, Reworks)
  {
    BucketFigure(events, q, name, (b: Bucket) => b.elapsed, Elapsed);
    BucketFigure(events, q, name, (b: Bucket) => b.retries, Retries);
    BucketFigure(events, q, name, (b: Bucket) => b.reopens, Reopens);
    BucketFigure(events, q, name, (b: Bucket) => b.reworks, Reworks);
  }

  // ---- Times and runs -----------------------------------------------------------------------------

  /** The events the rollup accumulates are the selected ones. */
  lemma KeptMembers(events: seq<Event>, q: Query)
    ensures forall e :: e in Filter(events, Keeps(q)) <==> e in events && Selected(e, q)
  {
    FilterMembers(events, Keeps(q));
    forall e ensures e in Filter(events, Keeps(q)) <==> e in events && Selected(e, q) {
      KeepsReads(e, q);
    }
  }

  /** A run of the phase on the task: an event of it with an id and a run id. */
  predicate RunOf(e: Event, task: string, phase: string, run: string) {
    && e.taskId == task && task != "" && e.agent == phase && NamesPhase(phase)
    && e.runId == run && run != "" && e.eventId != ""
  }

  function IsRun(task: string, phase: string, run: string): Event -> bool {
    (e: Event) => RunOf(e, task, phase, run)
  }

  lemma RunCounts(e: Event, task: string, phase: string, run: string)
    ensures CountsRun(e) && e.taskId == task && e.agent == phase && e.runId == run <==> RunOf(e, task, phase, run)
  {
  }

  lemma RunIdOccurs(events: seq<Event>, kept: seq<Event>, q: Query, task: string, phase: string, run: string)
    requires forall e :: e in kept <==> e in events && Selected(e, q)
    ensures run in MetricsLaws.RunIds(kept, task, phase) <==> Occurs(events, q, IsRun(task, phase, run))
  {
    forall e: Event
      ensures CountsRun(e) && e.taskId == task && e.agent == phase && e.runId == run
         <==> IsRun(task, phase, run)(e)
    {
      RunCounts(e, task, phase, run);
    }
  }

  /** A run id is recorded under a task and phase exactly when a selected event is a run of it. */
  lemma RunsRead(events: seq<Event>, q: Query, task: string, phase: string, run: string)
    ensures var runs := Aggregated(events, q).runs;
            && ((task, phase) in runs && run in runs[(task, phase)] <==> Occurs(events, q, IsRun(task, phase, run)))
            && ((task, phase) in runs ==> runs[(task, phase)] != {})
  {
    var kept := Filter(events, Keeps(q));
    MetricsLaws.RunsAreDistinctIds(kept, q.compareBy, task, phase);
    KeptMembers(events, q);
    RunIdOccurs(events, kept, q, task, phase, run);
  }

  /** An event of the task at the instant; the earliest instant stands for no usable timestamp. */
  function At(task: string, ts: int): Event -> bool {
    (e: Event) => e.taskId == task && e.ts == Some(ts) && ts != 0
  }

  /** The span covers exactly what the instants cover, and ends at two of them. */
  ghost predicate Spans(lead: map<string, Span>, events: seq<Event>, q: Query, task: string) {
    && (task in lead ==>
          Occurs(events, q, At(task, lead[task].first)) && Occurs(events, q, At(task, lead[task].last)))
    && (forall ts :: Occurs(events, q, At(task, ts)) ==>
          task in lead && lead[task].first <= ts <= lead[task].last)
  }

  lemma StampOccurs(events: seq<Event>, kept: seq<Event>, q: Query, task: string, ts: int)
    requires forall e :: e in kept <==> e in events && Selected(e, q)
    ensures ts in MetricsLaws.TaskStamps(kept, task) <==> Occurs(events, q, At(task, ts))
  {
    if ts in MetricsLaws.TaskStamps(kept, task) {
      var e :| e in kept && e.taskId == task && StampOf(e) != EARLIEST && StampOf(e) == ts;
      assert At(task, ts)(e);
    }
    if Occurs(events, q, At(task, ts)) {
      var e :| e in events && Selected(e, q) && At(task, ts)(e);
      assert e in kept && StampOf(e) == ts;
    }
  }

  /** A task's lead time is the span of the instants of its selected events. */
  lemma LeadReads(events: seq<Event>, q: Query, task: string)
    requires task != ""
    ensures Spans(Aggregated(events, q).lead, events, q, task)
  {
    var kept := Filter(events, Keeps(q));
    MetricsLaws.LeadSpansTask(kept, q.compareBy, task);
    KeptMembers(events, q);
    forall ts ensures ts in MetricsLaws.TaskStamps(kept, task) <==> Occurs(events, q, At(task, ts)) {
      StampOccurs(events, kept, q, task, ts);
    }
    SpansStamps(Aggregated(events, q).lead, events, q, task, MetricsLaws.TaskStamps(kept, task));
  }

  lemma SpansStamps(lead: map<string, Span>, events: seq<Event>, q: Query, task: string, stamps: set<int>)
    requires MetricsLaws.LeadIs(lead, task, stamps)
    requires forall ts :: ts in stamps <==> Occurs(events, q, At(task, ts))
    ensures Spans(lead, events, q, task)
  {
  }

  /** An event of the phase on the task. */
  function OnTask(phase: string, task: string): Event -> bool {
    (e: Event) => e.agent == phase && NamesPhase(phase) && e.taskId == task && task != ""
  }

  /** One at the instant, or the earliest instant when its timestamp does not parse. */
  function OnTaskAt(phase: string, task: string, ts: int): Event -> bool {
    (e: Event) => OnTask(phase, task)(e) && ts == if e.ts.Some? then e.ts.value else 0
  }

  function HowOften(ts: int): multiset<int> -> int {
    (m: multiset<int>) => m[ts]
  }

  lemma StampPut(phase: string, task: string, ts: int)
    ensures Adds(HowOften(ts), AddStamps)
    ensures Puts(StampsOf, (phase, task), HowOften(ts), OnTask(phase, task), One(OnTaskAt(phase, task, ts)))
  {
  }

  /** A phase's instants on a task are recorded as often as its selected events have them. */
  lemma StampsRead(events: seq<Event>, q: Query, phase: string, task: string, ts: int)
    ensures TableIs(Aggregated(events, q).stamps, (phase, task), HowOften(ts), events, q, OnTask(phase, task),
                    One(OnTaskAt(phase, task, ts)))
  {
    RollupTables(events, q);
    StampPut(phase, task, ts);
    TableReads(events, q, StampsOf, AddStamps, (phase, task), HowOften(ts), OnTask(phase, task),
               One(OnTaskAt(phase, task, ts)));
  }
}
