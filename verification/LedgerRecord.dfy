/** Validation of run-ledger records (backend/shared/canon_backend_shared/run_ledger.py).
    None stands for a rejected record or part. */
module LedgerRecord {
  import opened Text
  import opened StoreKeys
  import ArchiveKeys

  // ---- Lists and text fields ---------------------------------------------------------

  /** Every element normalised in order, or nothing. */
  function Each<T>(xs: seq<T>, f: T -> Option<T>): Option<seq<T>> {
    if xs == [] then Some([])
    else
      var before := Each(xs[..|xs| - 1], f);
      var last := f(xs[|xs| - 1]);
      if before.None? || last.None? then None else Some(before.value + [last.value])
  }

  /** The loop behind `Each`. */
  method NormalizeEach<T>(xs: seq<T>, f: T -> Option<T>) returns (r: Option<seq<T>>)
    ensures r == Each(xs, f)
  {
    var out: seq<T> := [];
    for i := 0 to |xs|
      invariant Each(xs[..i], f) == Some(out)
    {
      assert xs[..i + 1][..i] == xs[..i];
      var y := f(xs[i]);
      if y.None? {
        RejectionStays(xs, i + 1, f);
        return None;
      }
      out := out + [y.value];
    }
    assert xs[..|xs|] == xs;
    r := Some(out);
  }

  lemma {:induction false} RejectionStays<T>(xs: seq<T>, n: nat, f: T -> Option<T>)
    requires n <= |xs| && Each(xs[..n], f).None?
    ensures Each(xs, f).None?
  {
    if n == |xs| {
      assert xs[..n] == xs;
    } else {
      assert xs[..|xs| - 1][..n] == xs[..n];
      RejectionStays(xs[..|xs| - 1], n, f);
    }
  }

  /** The text entries of an object; None is a JSON null. */
  type Fields = map<string, Option<string>>

  /** Neither null nor the empty string. */
  predicate Present(fields: Fields, k: string) {
    k in fields && fields[k].Some? && fields[k].value != ""
  }

  predicate AllAccepted(fields: Fields, keys: seq<string>, f: (string, string) -> Option<string>) {
    forall k :: k in keys && Present(fields, k) ==> f(k, fields[k].value).Some?
  }

  /** The normalised entries under `keys`, or nothing when one is rejected. */
  function Texts(fields: Fields, keys: seq<string>, f: (string, string) -> Option<string>): Option<Fields> {
    if AllAccepted(fields, keys, f) then Some(map k | k in keys && Present(fields, k) :: f(k, fields[k].value))
    else None
  }

  /** The loop over `keys` that skips nulls and empty strings. */
  method FillTexts(fields: Fields, keys: seq<string>, f: (string, string) -> Option<string>) returns (r: Option<Fields>)
    ensures r == Texts(fields, keys, f)
  {
    var out: Fields := map[];
    for i := 0 to |keys|
      invariant forall k :: k in out <==> k in keys[..i] && Present(fields, k)
      invariant forall k :: k in out ==> out[k].Some? && out[k] == f(k, fields[k].value)
    {
      assert forall k :: k in keys[..i + 1] <==> k in keys[..i] || k == keys[i];
      if Present(fields, keys[i]) {
        var t := f(keys[i], fields[keys[i]].value);
        if t.None? {
          assert keys[i] in keys;
          return None;
        }
        out := out[keys[i] := t];
      }
    }
    assert keys[..|keys|] == keys;
    assert AllAccepted(fields, keys, f);
    assert out == Texts(fields, keys, f).value;
    r := Some(out);
  }

  /** Trimmed text of bounded length. */
  function Bounded(s: string, max: nat): Option<string> {
    if |Strip(s)| > max then None else Some(Strip(s))
  }

  /** `_normalize_optional_str`, with blank results left out of the record. */
  function Optional(v: Option<string>, max: nat): Option<Option<string>> {
    if v.None? then Some(None)
    else
      var s := Bounded(v.value, max);
      if s.None? then None else if s.value == "" then Some(None) else Some(s)
  }

  // ---- Parts ------------------------------------------------------------------------------

  const BODY_KEYS: set<string> := {"body_base64", "body", "content"}

  datatype Number = Absent | Given(n: int) | Garbled

  datatype Commit = Commit(sha: Option<string>, title: Option<string>)

  datatype PullRequest = PullRequest(url: Option<string>, number: Number, otherKeys: set<string>)

  datatype Deployment = Deployment(environment: Option<string>, status: Option<string>, extras: Fields)

  /** The texts of one validation outcome and its exit code. */
  datatype Slot = Slot(texts: Fields, exitCode: Number)

  /** A JSON value of an archive record. */
  datatype Value = Null | Str(text: string) | Num(number: int)

  predicate DateLike(s: string) {
    |s| >= 11 && s[4] == '-' && s[7] == '-' && s[10] == 'T' &&
    forall i :: 0 <= i < 10 && i != 4 && i != 7 ==> '0' <= s[i] <= '9'
  }

  /** `_normalize_timestamp` of an optional stamp. */
  function Timestamp(v: Option<string>): Option<Option<string>> {
    if v.None? || v.value == "" then Some(None)
    else if |Strip(v.value)| > 64 || !DateLike(Strip(v.value)) then None
    else Some(Some(Strip(v.value)))
  }

  predicate IsSha(s: string) {
    7 <= |s| <= 40 && forall i :: 0 <= i < |s| ==> ArchiveKeys.IsHex(s[i])
  }

  function NormalCommit(c: Commit): Option<Commit> {
    if c.sha.None? then None
    else
      var sha, title := Lower(Strip(c.sha.value)), Optional(c.title, 256);
      if !IsSha(sha) || title.None? then None else Some(Commit(Some(sha), title.value))
  }

  function NormalPullRequest(p: PullRequest): Option<PullRequest> {
    if p.url.None? then None
    else
      var s := Strip(p.url.value);
      if !("https://" <= s || "http://" <= s) || |s| > 4096 then None
      else if p.number.Garbled? || (p.number.Given? && p.number.n < 1) || p.otherKeys * BODY_KEYS != {} then None
      else Some(PullRequest(Some(s), p.number, {}))
  }

  const DEPLOY_KEYS: seq<string> := ["deployed_at", "endpoint_url", "detail_uri"]

  function LongText(k: string, s: string): Option<string> {
    Bounded(s, 4096)
  }

  function DropBlank(fields: Fields): Fields {
    map k | k in fields && fields[k] != Some("") :: fields[k]
  }

  function NormalDeployment(d: Deployment): Option<Deployment> {
    var extras := Texts(d.extras, DEPLOY_KEYS, LongText);
    if d.extras.Keys * BODY_KEYS != {} || d.environment.None? || d.status.None? || extras.None? then None
    else
      var env, status := LedgerSegment(d.environment.value, "deployment.environment"), Optional(d.status, 128);
      if env.Err? || status.None? || status.value.None? then None
      else Some(Deployment(Some(env.value), status.value, DropBlank(extras.value)))
  }

  const SLOTS: set<string> :=
    {"qa_validate", "flow_audit", "memory_health", "ci", "deployment_smoke", "merge_readiness"}
  const SLOT_KEYS: seq<string> := ["status", "verdict", "summary", "checked_at", "job_url", "artifact_uri"]

  function SlotText(k: string, s: string): Option<string> {
    Bounded(s, 2048)
  }

  function NormalSlot(s: Slot): Option<Slot> {
    var texts := Texts(s.texts, SLOT_KEYS, SlotText);
    if s.texts.Keys * BODY_KEYS != {} || texts.None? || s.exitCode.Garbled? then None
    else Some(Slot(texts.value, s.exitCode))
  }

  /** An entry of `validation_outcomes`; None is a null slot. */
  type Outcomes = map<string, Option<Slot>>

  predicate Empty(s: Slot) {
    s == Slot(map[], Absent)
  }

  predicate SlotsAccepted(o: Outcomes) {
    o.Keys <= SLOTS && forall k :: k in o && o[k].Some? ==> NormalSlot(o[k].value).Some?
  }

  predicate KeptSlot(o: Outcomes, k: string) {
    k in o && o[k].Some? && NormalSlot(o[k].value).Some? && !Empty(NormalSlot(o[k].value).value)
  }

  /** `_normalize_validation_outcomes`. */
  function NormalOutcomes(o: Outcomes): Option<Outcomes> {
    if SlotsAccepted(o) then Some(map k | k in o && KeptSlot(o, k) :: NormalSlot(o[k].value)) else None
  }

  const EVIDENCE_KEYS: seq<string> :=
    ["ref_kind", "uri", "label", "content_sha256", "s3_uri", "s3_key", "evidence_kind"]

  function Digest(s: string): Option<string> {
    var d := ArchiveKeys.NormalizeDigest(s);
    if d.Ok? then Some(d.value) else None
  }

  function EvidenceText(k: string, s: string): Option<string> {
    if k == "content_sha256" then Digest(s) else Bounded(s, 4096)
  }

  /** `_normalize_evidence_ref_item`. */
  function NormalEvidence(fields: Fields): Option<Fields> {
    var out := Texts(fields, EVIDENCE_KEYS, EvidenceText);
    if fields.Keys * BODY_KEYS != {} || out.None? || out.value == map[] then None else out
  }

  const ARCHIVE_KEYS: set<string> := {
    "s3_uri", "s3_key", "s3_bucket", "content_sha256", "artifact_kind", "phase", "status", "outcome",
    "evidence_subtype", "source_label", "created_at", "byte_length", "content_type", "schema_version",
    "archive_event_id", "agent_run_id", "actor_id", "s3_version_id", "company_id", "repository_id", "plan_id",
    "task_id", "workstream_id", "handoff_id"}

  type Archive = map<string, Value>

  const SHA := "content_sha256"

  /** A value stored by reference: the digest normalised when it is text, anything else as it is. */
  function ArchiveValue(k: string, v: Value): Option<Value> {
    if k == SHA && v.Str? then
      var d := Digest(v.text);
      if d.Some? then Some(Str(d.value)) else None
    else Some(v)
  }

  predicate Stored(r: Archive, k: string) {
    k in r && k in ARCHIVE_KEYS && r[k] != Null
  }

  /** `archive_record_to_ledger_reference`. */
  function ArchiveReference(r: Archive): Option<Archive> {
    if r.Keys * BODY_KEYS != {} || !Stored(r, SHA) || !Stored(r, "artifact_kind") then None
    else if ArchiveValue(SHA, r[SHA]).None? then None
    else Some(map k | k in r && Stored(r, k) :: if k == SHA then ArchiveValue(SHA, r[SHA]).value else r[k])
  }

  /** The loop of `archive_record_to_ledger_reference` over the record's items. */
  method MapArchiveRecord(r: Archive) returns (out: Option<Archive>)
    ensures out == ArchiveReference(r)
  {
    if r.Keys * BODY_KEYS != {} {
      return None;
    }
    var acc: Archive := map[];
    var left := r.Keys;
    while left != {}
      invariant left <= r.Keys
      invariant forall k :: k in acc <==> Stored(r, k) && k !in left
      invariant forall k :: k in acc ==> ArchiveValue(k, r[k]) == Some(acc[k])
      decreases |left|
    {
      var k :| k in left;
      left := left - {k};
      if k in ARCHIVE_KEYS && r[k] != Null {
        var v := ArchiveValue(k, r[k]);
        if v.None? {
          return None;
        }
        acc := acc[k := v.value];
      }
    }
    if SHA !in acc || "artifact_kind" !in acc {
      return None;
    }
    assert acc == ArchiveReference(r).value;
    out := Some(acc);
  }

  /** `_normalize_evidence_ref_item`. */
  method ValidateEvidence(fields: Fields) returns (r: Option<Fields>)
    ensures r == NormalEvidence(fields)
  {
    if fields.Keys * BODY_KEYS != {} {
      return None;
    }
    r := FillTexts(fields, EVIDENCE_KEYS, EvidenceText);
    if r.Some? && r.value == map[] {
      r := None;
    }
  }

  /** One slot of `_normalize_validation_outcomes`. */
  method ValidateSlot(s: Slot) returns (r: Option<Slot>)
    ensures r == NormalSlot(s)
  {
    if s.texts.Keys * BODY_KEYS != {} {
      return None;
    }
    var texts := FillTexts(s.texts, SLOT_KEYS, SlotText);
    if texts.None? || s.exitCode.Garbled? {
      return None;
    }
    r := Some(Slot(texts.value, s.exitCode));
  }

  /** The loop of `_normalize_validation_outcomes` over the known slots. */
  method ValidateOutcomes(o: Outcomes) returns (r: Option<Outcomes>)
    ensures r == NormalOutcomes(o)
  {
    if !(o.Keys <= SLOTS) {
      return None;
    }
    var out: Outcomes := map[];
    var left := SLOTS;
    while left != {}
      invariant left <= SLOTS
      invariant forall k :: k in o && k !in left && o[k].Some? ==> NormalSlot(o[k].value).Some?
      invariant forall k :: k in out <==> k in o && k !in left && KeptSlot(o, k)
      invariant forall k :: k in out ==> out[k] == NormalSlot(o[k].value)
      decreases |left|
    {
      var slot :| slot in left;
      left := left - {slot};
      if slot in o && o[slot].Some? {
        var block := ValidateSlot(o[slot].value);
        if block.None? {
          return None;
        }
        if !Empty(block.value) {
          out := out[slot := block];
        }
      }
    }
    assert out == NormalOutcomes(o).value;
    r := Some(out);
  }

  // ---- The record ----------------------------------------------------------------------------

  /** A ledger record; in a normalised one blank optional fields are None. */
  datatype Record = Record(
    otherKeys: set<string>, version: int, runId: string,
    company: string, repository: string, plan: string, task: string, workstream: string, handoff: string, phase: string,
    phaseStatus: Option<string>, createdAt: Option<string>, updatedAt: Option<string>, verdict: Option<string>,
    archiveRefs: seq<Archive>, evidenceRefs: seq<Fields>, outcomes: Outcomes, commits: seq<Commit>,
    pullRequest: Option<PullRequest>, deployment: Option<Deployment>, sourceEventIds: seq<string>,
    agentRunId: Option<string>, actorId: Option<string>)

  function Segments(r: Record): seq<(string, string)> {
    [(r.company, "company_id"), (r.repository, "repository_id"), (r.plan, "plan_id"), (r.task, "task_id"),
     (r.workstream, "workstream_id"), (r.handoff, "handoff_id"), (r.phase, "phase")]
  }

  /** `parse_ledger_run_id`; `uuid` is the canonical form of a UUID text. */
  function RunId(s: string, uuid: string -> Option<string>): Option<string> {
    if Strip(s) == "" || |Strip(s)| > 256 then None else uuid(Strip(s))
  }

  function SourceId(s: string): Option<string> {
    if Strip(s) == "" then None else Bounded(s, 256)
  }

  function Maybe<T>(x: Option<T>, f: T -> Option<T>): Option<Option<T>> {
    if x.None? then Some(None) else if f(x.value).None? then None else Some(f(x.value))
  }

  /** The single-valued fields. */
  function NormalScalars(r: Record, uuid: string -> Option<string>): Option<Record> {
    var run, segs := RunId(r.runId, uuid), Sanitized(Segments(r), LedgerSegment);
    var status, verdict := Optional(r.phaseStatus, 128), Optional(r.verdict, 128);
    var created, updated := Timestamp(r.createdAt), Timestamp(r.updatedAt);
    var agentRun, actor := Optional(r.agentRunId, 256), Optional(r.actorId, 256);
    if r.otherKeys * BODY_KEYS != {} || r.version != 1 || run.None? || segs.Err? then None
    else if status.None? || status.value.None? || created.None? || created.value.None? || updated.None? then None
    else if verdict.None? || agentRun.None? || actor.None? then None
    else
      var s := segs.value;
      Some(r.(otherKeys := {}, runId := run.value, company := s[0], repository := s[1], plan := s[2], task := s[3],
              workstream := s[4], handoff := s[5], phase := s[6], phaseStatus := status.value,
              createdAt := created.value, updatedAt := updated.value, verdict := verdict.value,
              agentRunId := agentRun.value, actorId := actor.value))
  }

  predicate WithinLimits(r: Record) {
    |r.evidenceRefs| <= 256 && |r.commits| <= 64 && |r.sourceEventIds| <= 256
  }

  /** The lists and objects beside the archive references. */
  function NormalObjects(r: Record): Option<Record> {
    var evidence, outcomes := Each(r.evidenceRefs, NormalEvidence), NormalOutcomes(r.outcomes);
    var commits, sources := Each(r.commits, NormalCommit), Each(r.sourceEventIds, SourceId);
    var pr, deploy := Maybe(r.pullRequest, NormalPullRequest), Maybe(r.deployment, NormalDeployment);
    if !WithinLimits(r) || evidence.None? || outcomes.None? || commits.None? || pr.None? || deploy.None? ||
       sources.None?
    then None
    else Some(r.(evidenceRefs := evidence.value, outcomes := outcomes.value, commits := commits.value,
                 pullRequest := pr.value, deployment := deploy.value, sourceEventIds := sources.value))
  }

  function NormalArchives(refs: seq<Archive>): Option<seq<Archive>> {
    if |refs| <= 512 then Each(refs, ArchiveReference) else None
  }

  function WithArchives(objects: Option<Record>, archives: Option<seq<Archive>>): Option<Record> {
    if archives.None? || objects.None? then None else Some(objects.value.(archiveRefs := archives.value))
  }

  function NormalParts(r: Record): Option<Record> {
    WithArchives(NormalObjects(r), NormalArchives(r.archiveRefs))
  }

  /** `validate_run_ledger_record`. */
  function Validated(r: Record, uuid: string -> Option<string>): Option<Record> {
    var scalars := NormalScalars(r, uuid);
    if scalars.None? then None else NormalParts(scalars.value)
  }

  /** `merge_archive_snapshots_into_record`. */
  function Merged(base: Record, snaps: seq<Archive>, uuid: string -> Option<string>): Option<Record> {
    var refs := Each(snaps, ArchiveReference);
    if refs.None? then None else Validated(base.(archiveRefs := base.archiveRefs + refs.value), uuid)
  }

  /** The loop that appends one reference per snapshot. */
  method MergeSnapshots(base: Record, snaps: seq<Archive>, uuid: string -> Option<string>) returns (r: Option<Record>)
    ensures r == Merged(base, snaps, uuid)
  {
    var existing := base.archiveRefs;
    for i := 0 to |snaps|
      invariant Each(snaps[..i], ArchiveReference).Some?
      invariant existing == base.archiveRefs + Each(snaps[..i], ArchiveReference).value
    {
      assert snaps[..i + 1][..i] == snaps[..i];
      var ref := MapArchiveRecord(snaps[i]);
      if ref.None? {
        RejectionStays(snaps, i + 1, ArchiveReference);
        return None;
      }
      existing := existing + [ref.value];
    }
    assert snaps[..|snaps|] == snaps;
    r := Validated(base.(archiveRefs := existing), uuid);
  }
}
