/** The canonical-event rollup (src/canon_systems/metrics_rollup.py). */
module MetricsRollup {
  import opened Text
  import opened Sorting
  import opened MapAlgebra

  // ---- Events ------------------------------------------------------------------

  datatype Tokens = Tokens(tin: int, tout: int)

  datatype Comparison = Comparison(experimentId: string, memoryMode: string)

  datatype Gate = GatePass | GateFail | GateOther
  datatype PublishStatus = PublishOk | PublishFailed | PublishOther

  /** The event type with the payload fields the rollup reads. `totals` is None when it is not a mapping. */
  datatype Kind =
    | DorFailure(stage: string)
    | LeaseStall
    | Retrieval(totals: Option<Tokens>, sources: seq<(string, Tokens)>)
    | SynthPublish(status: PublishStatus)
    | VaultNotified
    | TaskOutcome(finished: bool, gate: Gate, elapsed: int, retries: int, reopens: int, reworks: int)
    | OtherKind

  /** One parsed event. `ts` is the instant in microseconds from the earliest datetime, None when it does not parse. */
  datatype Event = Event(
    company: string, repository: string, plan: string, ts: Option<int>, taskId: string, agent: string,
    eventId: string, runId: string, comparison: Option<Comparison>, kind: Kind)

  const PHASES: seq<string> := ["scoper", "cursor-pilot", "implementer", "qa-gate", "release-orchestrator"]

  predicate IsPhase(agent: string) {
    agent in PHASES
  }

  datatype CompareBy = ByMemoryMode | ByExperiment

  /** The filters of a query; blank strings and None select everything. */
  datatype Query = Query(
    company: string, repository: string, plan: string, since: Option<int>, until: Option<int>,
    experiment: string, mode: string, compareBy: Option<CompareBy>)

  predicate InScope(e: Event, q: Query) {
    && (q.company != "" ==> e.company == q.company)
    && (q.repository != "" ==> e.repository == q.repository)
    && (q.plan != "" ==> e.plan == q.plan)
  }

  predicate InWindow(ts: Option<int>, q: Query) {
    ts.Some? && (q.since.Some? ==> q.since.value <= ts.value) && (q.until.Some? ==> ts.value <= q.until.value)
  }

  predicate MatchesExperiment(e: Event, q: Query) {
    e.comparison.Some? &&
    (q.experiment != "" ==> e.comparison.value.experimentId == q.experiment) &&
    (q.mode != "" ==> e.comparison.value.memoryMode == q.mode)
  }

  function Keeps(q: Query): Event -> bool {
    (e: Event) =>
      && InScope(e, q)
      && (q.since.Some? || q.until.Some? ==> InWindow(e.ts, q))
      && (q.experiment != "" || q.mode != "" ==> MatchesExperiment(e, q))
  }

  /** `datetime.min`, which also stands for a timestamp that does not parse. */
  const EARLIEST := 0

  function StampOf(e: Event): int {
    e.ts.GetOr(EARLIEST)
  }

  // ---- Accumulators ------------------------------------------------------------------

  datatype Span = Span(first: int, last: int)

  function Widen(a: Span, b: Span): Span {
    Span(if b.first < a.first then b.first else a.first, if b.last > a.last then b.last else a.last)
  }

  function AddTokens(a: Tokens, b: Tokens): Tokens {
    Tokens(a.tin + b.tin, a.tout + b.tout)
  }

  function AddInt(a: int, b: int): int {
    a + b
  }

  function AddStamps(a: multiset<int>, b: multiset<int>): multiset<int> {
    a + b
  }

  function Join(a: set<string>, b: set<string>): set<string> {
    a + b
  }

  /** `_CompareBucket`. */
  datatype Bucket = Bucket(
    tokens: Tokens, seen: int, finished: int, pass: int, fail: int, elapsed: int, retries: int, reopens: int,
    reworks: int)

  function AddBucket(a: Bucket, b: Bucket): Bucket {
    Bucket(AddTokens(a.tokens, b.tokens), a.seen + b.seen, a.finished + b.finished, a.pass + b.pass, a.fail + b.fail,
           a.elapsed + b.elapsed, a.retries + b.retries, a.reopens + b.reopens, a.reworks + b.reworks)
  }

  datatype Counters = Counters(events: int, stalls: int, tokens: Tokens, published: int, failed: int, notified: int)

  function AddCounters(a: Counters, b: Counters): Counters {
    Counters(a.events + b.events, a.stalls + b.stalls, AddTokens(a.tokens, b.tokens),
             a.published + b.published, a.failed + b.failed, a.notified + b.notified)
  }

  /** Everything the loop accumulates. Stamps are keyed by phase and task, runs by task and phase. */
  datatype Rollup = Rollup(
    counters: Counters,
    lead: map<string, Span>,
    stamps: map<(string, string), multiset<int>>,
    runs: map<(string, string), set<string>>,
    dor: map<string, int>,
    stalls: map<string, int>,
    byPhase: map<string, Tokens>,
    byAgent: map<string, Tokens>,
    bySource: map<string, Tokens>,
    buckets: map<string, Bucket>)

  const NOTHING := Counters(0, 0, Tokens(0, 0), 0, 0, 0)
  const EMPTY := Rollup(NOTHING, map[], map[], map[], map[], map[], map[], map[], map[], map[])

  /** The componentwise merge of two rollups. */
  function MergeRollups(a: Rollup, b: Rollup): Rollup {
    Rollup(AddCounters(a.counters, b.counters),
           Merge(a.lead, b.lead, Widen), Merge(a.stamps, b.stamps, AddStamps), Merge(a.runs, b.runs, Join),
           Merge(a.dor, b.dor, AddInt), Merge(a.stalls, b.stalls, AddInt),
           Merge(a.byPhase, b.byPhase, AddTokens), Merge(a.byAgent, b.byAgent, AddTokens),
           Merge(a.bySource, b.bySource, AddTokens), Merge(a.buckets, b.buckets, AddBucket))
  }

  // ---- What one event contributes -----------------------------------------------------

  function LeadOf(e: Event): map<string, Span> {
    if e.taskId != "" && StampOf(e) != EARLIEST then map[e.taskId := Span(StampOf(e), StampOf(e))] else map[]
  }

  function StampsOf(e: Event): map<(string, string), multiset<int>> {
    if e.taskId != "" && IsPhase(e.agent) then map[(e.agent, e.taskId) := multiset{StampOf(e)}] else map[]
  }

  predicate CountsRun(e: Event) {
    e.taskId != "" && IsPhase(e.agent) && e.runId != "" && e.eventId != ""
  }

  function RunsOf(e: Event): map<(string, string), set<string>> {
    if CountsRun(e) then map[(e.taskId, e.agent) := {e.runId}] else map[]
  }

  function DorOf(e: Event): map<string, int> {
    if e.kind.DorFailure? then map[(if e.kind.stage == "" then "unknown" else e.kind.stage) := 1] else map[]
  }

  function StallsOf(e: Event): map<string, int> {
    if e.kind.LeaseStall? && e.taskId != "" then map[e.taskId := 1] else map[]
  }

  function AgentTokensOf(e: Event): map<string, Tokens> {
    if e.kind.Retrieval? && e.kind.totals.Some? && e.agent != "" then map[e.agent := e.kind.totals.value] else map[]
  }

  function PhaseTokensOf(e: Event): map<string, Tokens> {
    if e.kind.Retrieval? && e.kind.totals.Some? && e.agent != "" && IsPhase(e.agent)
    then map[e.agent := e.kind.totals.value] else map[]
  }

  function SourceTokens(sources: seq<(string, Tokens)>): map<string, Tokens> {
    if sources == [] then map[]
    else
      var (src, t) := sources[|sources| - 1];
      Bump(SourceTokens(sources[..|sources| - 1]), src, t, AddTokens)
  }

  function SourceTokensOf(e: Event): map<string, Tokens> {
    if e.kind.Retrieval? then SourceTokens(e.kind.sources) else map[]
  }

  /** `_compare_bucket_key`. */
  function BucketKey(c: Option<Comparison>, cmp: CompareBy): string {
    match c
    case None => "unlabeled"
    case Some(x) => if cmp.ByMemoryMode? then x.memoryMode else x.experimentId
  }

  function BucketDelta(k: Kind): Option<Bucket> {
    match k
    case Retrieval(totals, _) => Some(Bucket(totals.GetOr(Tokens(0, 0)), 0, 0, 0, 0, 0, 0, 0, 0))
    case TaskOutcome(finished, gate, elapsed, retries, reopens, reworks) =>
      Some(Bucket(Tokens(0, 0), 1, if finished then 1 else 0, if gate.GatePass? then 1 else 0,
                  if gate.GateFail? then 1 else 0, elapsed, retries, reopens, reworks))
    case _ => None
  }

  function BucketsOf(e: Event, cmp: Option<CompareBy>): map<string, Bucket> {
    if cmp.Some? && BucketDelta(e.kind).Some?
    then map[BucketKey(e.comparison, cmp.value) := BucketDelta(e.kind).value] else map[]
  }

  /** The totals of a retrieval event. */
  function TotalsOf(e: Event): Tokens {
    if e.kind.Retrieval? then e.kind.totals.GetOr(Tokens(0, 0)) else Tokens(0, 0)
  }

  function CountersOf(e: Event): Counters {
    Counters(1, if e.kind.LeaseStall? then 1 else 0,
             TotalsOf(e),
             if e.kind == SynthPublish(PublishOk) then 1 else 0,
             if e.kind == SynthPublish(PublishFailed) then 1 else 0,
             if e.kind.VaultNotified? then 1 else 0)
  }

  function Single(cmp: Option<CompareBy>): Event -> Rollup {
    (e: Event) => Rollup(CountersOf(e), LeadOf(e), StampsOf(e), RunsOf(e), DorOf(e), StallsOf(e),
                         PhaseTokensOf(e), AgentTokensOf(e), SourceTokensOf(e), BucketsOf(e, cmp))
  }

  /** The accumulators after a stream of kept events. */
  function RollupOf(events: seq<Event>, cmp: Option<CompareBy>): Rollup {
    Fold(events, Single(cmp), MergeRollups, EMPTY)
  }

  function Aggregated(events: seq<Event>, q: Query): Rollup {
    RollupOf(Filter(events, Keeps(q)), q.compareBy)
  }

  // ---- The loop code --------------------------------------------------------------------

  /** The per-source loop: `token_by_source[src] += counts`. */
  method AddSources(table: map<string, Tokens>, sources: seq<(string, Tokens)>) returns (r: map<string, Tokens>)
    ensures r == Merge(table, SourceTokens(sources), AddTokens)
  {
    r := table;
    MergeUnit(table, AddTokens);
    TokensLaws();
    for i := 0 to |sources|
      invariant r == Merge(table, SourceTokens(sources[..i]), AddTokens)
    {
      assert sources[..i + 1][..i] == sources[..i];
      BumpIsMerge(r, sources[i].0, sources[i].1, AddTokens);
      BumpIsMerge(SourceTokens(sources[..i]), sources[i].0, sources[i].1, AddTokens);
      MergeAssociative(table, SourceTokens(sources[..i]), map[sources[i].0 := sources[i].1], AddTokens);
      r := Bump(r, sources[i].0, sources[i].1, AddTokens);
    }
    assert sources[..|sources|] == sources;
  }

  lemma TokensLaws()
    ensures Associative(AddTokens) && Commutative(AddTokens)
  {
  }

  /** The updates for times and runs. */
  method RecordTask(acc: Rollup, e: Event) returns (r: Rollup)
    ensures r == acc.(lead := Merge(acc.lead, LeadOf(e), Widen), stamps := Merge(acc.stamps, StampsOf(e), AddStamps),
                      runs := Merge(acc.runs, RunsOf(e), Join))
  {
    var lead, stamps, runs := acc.lead, acc.stamps, acc.runs;
    MergeUnit(lead, Widen);
    MergeUnit(stamps, AddStamps);
    MergeUnit(runs, Join);
    var ts := StampOf(e);
    if e.taskId != "" && ts != EARLIEST {
      BumpIsMerge(lead, e.taskId, Span(ts, ts), Widen);
      lead := Bump(lead, e.taskId, Span(ts, ts), Widen);
    }
    if e.taskId != "" && IsPhase(e.agent) {
      BumpIsMerge(stamps, (e.agent, e.taskId), multiset{ts}, AddStamps);
      stamps := Bump(stamps, (e.agent, e.taskId), multiset{ts}, AddStamps);
      if e.runId != "" && e.eventId != "" {
        BumpIsMerge(runs, (e.taskId, e.agent), {e.runId}, Join);
        runs := Bump(runs, (e.taskId, e.agent), {e.runId}, Join);
      }
    }
    r := acc.(lead := lead, stamps := stamps, runs := runs);
  }

  /** The updates for DoR causes and stalls. */
  method RecordIncidents(acc: Rollup, e: Event) returns (r: Rollup)
    ensures r == acc.(dor := Merge(acc.dor, DorOf(e), AddInt), stalls := Merge(acc.stalls, StallsOf(e), AddInt))
  {
    var dor, stalls := acc.dor, acc.stalls;
    MergeUnit(dor, AddInt);
    MergeUnit(stalls, AddInt);
    if e.kind.DorFailure? {
      var stage := if e.kind.stage == "" then "unknown" else e.kind.stage;
      BumpIsMerge(dor, stage, 1, AddInt);
      dor := Bump(dor, stage, 1, AddInt);
    }
    if e.kind.LeaseStall? && e.taskId != "" {
      BumpIsMerge(stalls, e.taskId, 1, AddInt);
      stalls := Bump(stalls, e.taskId, 1, AddInt);
    }
    r := acc.(dor := dor, stalls := stalls);
  }

  /** The updates for token tables. */
  method RecordTokens(acc: Rollup, e: Event) returns (r: Rollup)
    ensures r == acc.(byPhase := Merge(acc.byPhase, PhaseTokensOf(e), AddTokens),
                      byAgent := Merge(acc.byAgent, AgentTokensOf(e), AddTokens),
                      bySource := Merge(acc.bySource, SourceTokensOf(e), AddTokens))
  {
    var byPhase, byAgent, bySource := acc.byPhase, acc.byAgent, acc.bySource;
    MergeUnit(byPhase, AddTokens);
    MergeUnit(byAgent, AddTokens);
    MergeUnit(bySource, AddTokens);
    if e.kind.Retrieval? {
      if e.kind.totals.Some? && e.agent != "" {
        BumpIsMerge(byAgent, e.agent, e.kind.totals.value, AddTokens);
        byAgent := Bump(byAgent, e.agent, e.kind.totals.value, AddTokens);
        if IsPhase(e.agent) {
          BumpIsMerge(byPhase, e.agent, e.kind.totals.value, AddTokens);
          byPhase := Bump(byPhase, e.agent, e.kind.totals.value, AddTokens);
        }
      }
      bySource := AddSources(bySource, e.kind.sources);
    }
    r := acc.(byPhase := byPhase, byAgent := byAgent, bySource := bySource);
  }

  /** The updates for the comparison buckets. */
  method RecordBucket(acc: Rollup, e: Event, cmp: Option<CompareBy>) returns (r: Rollup)
    ensures r == acc.(buckets := Merge(acc.buckets, BucketsOf(e, cmp), AddBucket))
  {
    var buckets := acc.buckets;
    MergeUnit(buckets, AddBucket);
    if cmp.Some? {
      var delta := BucketDelta(e.kind);
      if delta.Some? {
        BumpIsMerge(buckets, BucketKey(e.comparison, cmp.value), delta.value, AddBucket);
        buckets := Bump(buckets, BucketKey(e.comparison, cmp.value), delta.value, AddBucket);
      }
    }
    r := acc.(buckets := buckets);
  }

  /** The updates for the plain counters. */
  method RecordCounters(acc: Rollup, e: Event) returns (r: Rollup)
    ensures r == acc.(counters := AddCounters(acc.counters, CountersOf(e)))
  {
    var c := acc.counters;
    c := c.(events := c.events + 1);
    if e.kind.LeaseStall? {
      c := c.(stalls := c.stalls + 1);
    }
    if e.kind.Retrieval? && e.kind.totals.Some? {
      c := c.(tokens := AddTokens(c.tokens, e.kind.totals.value));
    }
    if e.kind == SynthPublish(PublishOk) {
      c := c.(published := c.published + 1);
    } else if e.kind == SynthPublish(PublishFailed) {
      c := c.(failed := c.failed + 1);
    }
    if e.kind.VaultNotified? {
      c := c.(notified := c.notified + 1);
    }
    r := acc.(counters := c);
  }

  /** `aggregate` up to the accumulators: the filter loop, then the accumulation loop. */
  method Aggregate(events: seq<Event>, q: Query) returns (acc: Rollup)
    ensures acc == Aggregated(events, q)
  {
    var kept: seq<Event> := [];
    for i := 0 to |events|
      invariant kept == Filter(events[..i], Keeps(q))
    {
      ghost var rest := FilterSplit(events, i, Keeps(q));
      if Keeps(q)(events[i]) {
        kept := kept + [events[i]];
      }
    }
    assert events[..|events|] == events;
    acc := EMPTY;
    for i := 0 to |kept|
      invariant acc == RollupOf(kept[..i], q.compareBy)
    {
      assert kept[..i + 1] == kept[..i] + [kept[i]];
      FoldSnoc(kept[..i], kept[i], Single(q.compareBy), MergeRollups, EMPTY);
      acc := RecordTask(acc, kept[i]);
      acc := RecordIncidents(acc, kept[i]);
      acc := RecordTokens(acc, kept[i]);
      acc := RecordBucket(acc, kept[i], q.compareBy);
      acc := RecordCounters(acc, kept[i]);
    }
    assert kept[..|kept|] == kept;
  }
}
