/** What a validated ledger record stores, field by field, and which records are accepted
    (backend/shared/canon_backend_shared/run_ledger.py). */
module LedgerStored {
  import opened Text
  import opened StoreKeys
  import opened KeyReading
  import opened LedgerRecord

  // ---- Texts --------------------------------------------------------------------------------

  /** The trimmed text, or nothing when there is none or it is blank. */
  predicate Trims(raw: Option<string>, out: Option<string>) {
    out == if raw.Some? && Strip(raw.value) != "" then Some(Strip(raw.value)) else None
  }

  predicate Fits(raw: Option<string>, max: nat) {
    raw.Some? ==> |Strip(raw.value)| <= max
  }

  lemma OptionalReads(raw: Option<string>, max: nat)
    ensures Optional(raw, max).Some? <==> Fits(raw, max)
    ensures Optional(raw, max).Some? ==> Trims(raw, Optional(raw, max).value)
  {
  }

  /** A date and the letter T begin the trimmed text, which is short enough. */
  predicate StampText(raw: string) {
    var s := Strip(raw);
    && 11 <= |s| <= 64 && s[4] == '-' && s[7] == '-' && s[10] == 'T'
    && forall i :: 0 <= i < 10 && i != 4 && i != 7 ==> '0' <= s[i] <= '9'
  }

  lemma StampReads(raw: Option<string>)
    ensures Timestamp(raw).Some? <==> (raw.Some? && raw.value != "" ==> StampText(raw.value))
    ensures Timestamp(raw).Some? ==>
              Timestamp(raw).value == if raw.Some? && raw.value != "" then Some(Strip(raw.value)) else None
  {
  }

  lemma DigestReads(raw: string)
    ensures Digest(raw).Some? <==> HexDigest(raw)
    ensures Digest(raw).Some? ==> Digest(raw).value == Lower(Strip(raw))
  {
  }

  predicate IsBodyKey(k: string) {
    k == "body_base64" || k == "body" || k == "content"
  }

  ghost predicate NoBody(keys: set<string>) {
    forall k :: k in keys ==> !IsBodyKey(k)
  }

  lemma NoBodyReads(keys: set<string>)
    ensures keys * BODY_KEYS == {} <==> NoBody(keys)
  {
    assert forall k :: k in BODY_KEYS <==> IsBodyKey(k);
    if keys * BODY_KEYS != {} {
      var k :| k in keys * BODY_KEYS;
    }
    if k :| k in keys && IsBodyKey(k) {
      assert k in keys * BODY_KEYS;
    }
  }

  // ---- The single-valued fields -------------------------------------------------------------

  predicate SafeSegments(r: Record) {
    && SafeField(r.company) && SafeField(r.repository) && SafeField(r.plan) && SafeField(r.task)
    && SafeField(r.workstream) && SafeField(r.handoff) && SafeField(r.phase)
  }

  predicate TrimmedSegments(r: Record, v: Record) {
    && v.company == Strip(r.company) && v.repository == Strip(r.repository) && v.plan == Strip(r.plan)
    && v.task == Strip(r.task) && v.workstream == Strip(r.workstream) && v.handoff == Strip(r.handoff)
    && v.phase == Strip(r.phase)
  }

  ghost predicate AcceptedScalars(r: Record, uuid: string -> Option<string>) {
    && NoBody(r.otherKeys) && r.version == 1
    && Strip(r.runId) != "" && |Strip(r.runId)| <= 256 && uuid(Strip(r.runId)).Some?
    && SafeSegments(r)
    && r.phaseStatus.Some? && Strip(r.phaseStatus.value) != "" && Fits(r.phaseStatus, 128)
    && r.createdAt.Some? && r.createdAt.value != "" && StampText(r.createdAt.value)
    && (r.updatedAt.Some? && r.updatedAt.value != "" ==> StampText(r.updatedAt.value))
    && Fits(r.verdict, 128) && Fits(r.agentRunId, 256) && Fits(r.actorId, 256)
  }

  /** Each field is stored from the field of the same name. */
  ghost predicate StoredScalars(r: Record, v: Record, uuid: string -> Option<string>) {
    && v.version == 1 && Some(v.runId) == uuid(Strip(r.runId)) && TrimmedSegments(r, v)
    && Trims(r.phaseStatus, v.phaseStatus) && Trims(r.createdAt, v.createdAt) && Trims(r.updatedAt, v.updatedAt)
    && Trims(r.verdict, v.verdict) && Trims(r.agentRunId, v.agentRunId) && Trims(r.actorId, v.actorId)
  }

  lemma SevenSegments(r: Record)
    ensures Sanitized(Segments(r), LedgerSegment).Ok? <==> SafeSegments(r)
    ensures Sanitized(Segments(r), LedgerSegment).Ok? ==>
      Sanitized(Segments(r), LedgerSegment).value == [Strip(r.company), Strip(r.repository), Strip(r.plan),
        Strip(r.task), Strip(r.workstream), Strip(r.handoff), Strip(r.phase)]
  {
    var raws := Segments(r);
    SegmentsRead(raws);
    SevenOf(raws, r);
  }

  lemma SevenOf(raws: seq<(string, string)>, r: Record)
    requires raws == Segments(r)
    ensures |raws| == 7
    ensures raws[0].0 == r.company && raws[1].0 == r.repository && raws[2].0 == r.plan && raws[3].0 == r.task
    ensures raws[4].0 == r.workstream && raws[5].0 == r.handoff && raws[6].0 == r.phase
    ensures (forall i :: 0 <= i < |raws| ==> SafeField(raws[i].0)) <==> SafeSegments(r)
  {
    assert raws[0].0 == r.company && raws[1].0 == r.repository && raws[2].0 == r.plan && raws[3].0 == r.task;
    assert raws[4].0 == r.workstream && raws[5].0 == r.handoff && raws[6].0 == r.phase;
  }

  lemma {:induction false} SegmentsRead(raws: seq<(string, string)>)
    ensures Sanitized(raws, LedgerSegment).Ok? <==> forall i :: 0 <= i < |raws| ==> SafeField(raws[i].0)
    ensures Sanitized(raws, LedgerSegment).Ok? ==>
      forall i :: 0 <= i < |raws| ==> Sanitized(raws, LedgerSegment).value[i] == Strip(raws[i].0)
  {
    if raws != [] {
      LedgerSegmentReads(raws[0].0, raws[0].1);
      SegmentsRead(raws[1..]);
    }
  }

  lemma StampTrims(raw: Option<string>)
    requires Timestamp(raw).Some?
    ensures Trims(raw, Timestamp(raw).value)
  {
    StampReads(raw);
    if raw.Some? && raw.value == "" {
      assert Strip("") == "";
    }
  }

  lemma ScalarsRead(r: Record, uuid: string -> Option<string>)
    ensures NormalScalars(r, uuid).Some? <==> AcceptedScalars(r, uuid)
    ensures NormalScalars(r, uuid).Some? ==>
      StoredScalars(r, NormalScalars(r, uuid).value, uuid) && OnlyScalars(r, NormalScalars(r, uuid).value)
  {
    NoBodyReads(r.otherKeys);
    SevenSegments(r);
    OptionalReads(r.phaseStatus, 128);
    OptionalReads(r.verdict, 128);
    OptionalReads(r.agentRunId, 256);
    OptionalReads(r.actorId, 256);
    StampReads(r.createdAt);
    StampReads(r.updatedAt);
    if Timestamp(r.createdAt).Some? {
      StampTrims(r.createdAt);
    }
    if Timestamp(r.updatedAt).Some? {
      StampTrims(r.updatedAt);
    }
  }

  /** The lists and objects are those of `r`. */
  ghost predicate OnlyScalars(r: Record, v: Record) {
    && v.archiveRefs == r.archiveRefs && v.evidenceRefs == r.evidenceRefs && v.outcomes == r.outcomes
    && v.commits == r.commits && v.pullRequest == r.pullRequest && v.deployment == r.deployment
    && v.sourceEventIds == r.sourceEventIds
  }

  // ---- Lists and objects --------------------------------------------------------------------

  lemma {:induction false} EachReads<T>(xs: seq<T>, f: T -> Option<T>)
    ensures Each(xs, f).Some? <==> forall i :: 0 <= i < |xs| ==> f(xs[i]).Some?
    ensures Each(xs, f).Some? ==>
      var ys := Each(xs, f).value; |ys| == |xs| && forall i :: 0 <= i < |xs| ==> f(xs[i]) == Some(ys[i])
  {
    if xs != [] {
      EachReads(xs[..|xs| - 1], f);
    }
  }

  predicate Given(fields: Fields, k: string) {
    k in fields && fields[k].Some? && fields[k].value != ""
  }

  predicate IsEvidenceKey(k: string) {
    k == "ref_kind" || k == "uri" || k == "label" || k == "content_sha256" || k == "s3_uri" || k == "s3_key" ||
    k == "evidence_kind"
  }

  /** An evidence text is stored trimmed, the digest in lower case too. */
  function EvidenceStored(k: string, raw: string): string {
    if k == "content_sha256" then Lower(Strip(raw)) else Strip(raw)
  }

  predicate EvidenceTextOk(k: string, raw: string) {
    if k == "content_sha256" then HexDigest(raw) else |Strip(raw)| <= 4096
  }

  ghost predicate AcceptedEvidence(x: Fields) {
    && NoBody(x.Keys) && (forall k :: IsEvidenceKey(k) && Given(x, k) ==> EvidenceTextOk(k, x[k].value))
    && exists k :: IsEvidenceKey(k) && Given(x, k)
  }

  ghost predicate StoredEvidence(x: Fields, y: Fields) {
    && (forall k :: k in y <==> IsEvidenceKey(k) && Given(x, k))
    && forall k :: k in y ==> y[k] == Some(EvidenceStored(k, x[k].value))
  }

  lemma EvidenceKeysAre(k: string)
    ensures k in EVIDENCE_KEYS <==> IsEvidenceKey(k)
  {
    assert EVIDENCE_KEYS[0] == "ref_kind" && EVIDENCE_KEYS[1] == "uri" && EVIDENCE_KEYS[2] == "label";
    assert EVIDENCE_KEYS[3] == "content_sha256" && EVIDENCE_KEYS[4] == "s3_uri" && EVIDENCE_KEYS[5] == "s3_key";
    assert EVIDENCE_KEYS[6] == "evidence_kind";
  }

  lemma EvidenceTextReads(k: string, raw: string)
    ensures EvidenceText(k, raw).Some? <==> EvidenceTextOk(k, raw)
    ensures EvidenceText(k, raw).Some? ==> EvidenceText(k, raw).value == EvidenceStored(k, raw)
  {
    DigestReads(raw);
  }

  lemma TextsRead(x: Fields, keys: seq<string>, f: (string, string) -> Option<string>)
    ensures Texts(x, keys, f).Some? <==> forall k :: k in keys && Given(x, k) ==> f(k, x[k].value).Some?
    ensures Texts(x, keys, f).Some? ==>
      var y := Texts(x, keys, f).value;
      (forall k :: k in y <==> k in keys && Given(x, k)) && forall k :: k in y ==> y[k] == f(k, x[k].value)
  {
  }

  lemma EvidenceReads(x: Fields)
    ensures NormalEvidence(x).Some? <==> AcceptedEvidence(x)
    ensures NormalEvidence(x).Some? ==> StoredEvidence(x, NormalEvidence(x).value)
  {
    NoBodyReads(x.Keys);
    TextsRead(x, EVIDENCE_KEYS, EvidenceText);
    forall k ensures k in EVIDENCE_KEYS <==> IsEvidenceKey(k) {
      EvidenceKeysAre(k);
    }
    forall k | k in x && x[k].Some?
      ensures EvidenceText(k, x[k].value).Some? <==> EvidenceTextOk(k, x[k].value)
      ensures EvidenceText(k, x[k].value).Some? ==> EvidenceText(k, x[k].value).value == EvidenceStored(k, x[k].value)
    {
      EvidenceTextReads(k, x[k].value);
    }
    if Texts(x, EVIDENCE_KEYS, EvidenceText).Some? {
      var y := Texts(x, EVIDENCE_KEYS, EvidenceText).value;
      if y != map[] {
        var k :| k in y;
      }
    }
  }

  ghost predicate AcceptedArchive(x: Archive) {
    && NoBody(x.Keys) && SHA in x && x[SHA] != Null && (x[SHA].Str? ==> HexDigest(x[SHA].text))
    && "artifact_kind" in x && x["artifact_kind"] != Null
  }

  ghost predicate StoredArchive(x: Archive, y: Archive) {
    && (forall k :: k in y <==> IsArchiveKey(k) && k in x && x[k] != Null)
    && (forall k :: k in y && k != "content_sha256" ==> y[k] == x[k])
    && (SHA in y && x[SHA].Str? ==> y[SHA] == Str(Lower(Strip(x[SHA].text))))
    && (SHA in y && !x[SHA].Str? ==> y[SHA] == x[SHA])
  }

  /** What a reference says about where the object lies, what it is and where it comes from. */
  predicate IsArchiveKey(k: string) {
    || k == "s3_uri" || k == "s3_key" || k == "s3_bucket" || k == "s3_version_id" || k == "content_sha256"
    || k == "byte_length" || k == "content_type" || k == "schema_version" || k == "artifact_kind"
    || k == "evidence_subtype" || k == "source_label" || k == "phase" || k == "status" || k == "outcome"
    || k == "created_at" || k == "archive_event_id" || k == "agent_run_id" || k == "actor_id" || k == "company_id"
    || k == "repository_id" || k == "plan_id" || k == "task_id" || k == "workstream_id" || k == "handoff_id"
  }

  lemma ArchiveKeysAre(k: string)
    ensures k in ARCHIVE_KEYS <==> IsArchiveKey(k)
  {
  }

  lemma ArchiveReads(x: Archive)
    ensures ArchiveReference(x).Some? <==> AcceptedArchive(x)
    ensures ArchiveReference(x).Some? ==> StoredArchive(x, ArchiveReference(x).value)
  {
    NoBodyReads(x.Keys);
    ArchiveKeysAre("artifact_kind");
    forall k ensures k in ARCHIVE_KEYS <==> IsArchiveKey(k) {
      ArchiveKeysAre(k);
    }
    if SHA in x && x[SHA].Str? {
      DigestReads(x[SHA].text);
    }
  }

  predicate IsSlotKey(k: string) {
    k == "status" || k == "verdict" || k == "summary" || k == "checked_at" || k == "job_url" || k == "artifact_uri"
  }

  lemma SlotKeysAre(k: string)
    ensures k in SLOT_KEYS <==> IsSlotKey(k)
  {
    assert SLOT_KEYS[0] == "status" && SLOT_KEYS[1] == "verdict" && SLOT_KEYS[2] == "summary";
    assert SLOT_KEYS[3] == "checked_at" && SLOT_KEYS[4] == "job_url" && SLOT_KEYS[5] == "artifact_uri";
  }

  ghost predicate AcceptedSlot(s: Slot) {
    && NoBody(s.texts.Keys) && !s.exitCode.Garbled?
    && forall k :: IsSlotKey(k) && Given(s.texts, k) ==> |Strip(s.texts[k].value)| <= 2048
  }

  ghost predicate StoredSlot(s: Slot, t: Slot) {
    && t.exitCode == s.exitCode
    && (forall k :: k in t.texts <==> IsSlotKey(k) && Given(s.texts, k))
    && forall k :: k in t.texts ==> t.texts[k] == Some(Strip(s.texts[k].value))
  }

  lemma SlotReads(s: Slot)
    ensures NormalSlot(s).Some? <==> AcceptedSlot(s)
    ensures NormalSlot(s).Some? ==> StoredSlot(s, NormalSlot(s).value)
  {
    NoBodyReads(s.texts.Keys);
    TextsRead(s.texts, SLOT_KEYS, SlotText);
    forall k ensures k in SLOT_KEYS <==> IsSlotKey(k) {
      SlotKeysAre(k);
    }
  }

  predicate IsSlotName(k: string) {
    k == "qa_validate" || k == "flow_audit" || k == "memory_health" || k == "ci" || k == "deployment_smoke" ||
    k == "merge_readiness"
  }

  /** The slot has something to store: a text, or an exit code. */
  ghost predicate Filled(s: Slot) {
    s.exitCode.Given? || exists k :: IsSlotKey(k) && Given(s.texts, k)
  }

  ghost predicate AcceptedOutcomes(o: Outcomes) {
    && (forall k :: k in o ==> IsSlotName(k))
    && forall k :: k in o && o[k].Some? ==> AcceptedSlot(o[k].value)
  }

  ghost predicate StoredOutcomes(o: Outcomes, p: Outcomes) {
    && (forall k :: k in p <==> k in o && o[k].Some? && Filled(o[k].value))
    && forall k :: k in p ==> p[k].Some? && StoredSlot(o[k].value, p[k].value)
  }

  lemma FilledReads(s: Slot)
    requires NormalSlot(s).Some?
    ensures !Empty(NormalSlot(s).value) <==> Filled(s)
  {
    SlotReads(s);
    var t := NormalSlot(s).value;
    if t.texts != map[] {
      var k :| k in t.texts;
    }
  }

  lemma OutcomesRead(o: Outcomes)
    ensures NormalOutcomes(o).Some? <==> AcceptedOutcomes(o)
    ensures NormalOutcomes(o).Some? ==> StoredOutcomes(o, NormalOutcomes(o).value)
  {
    assert forall k :: k in SLOTS <==> IsSlotName(k);
    forall k | k in o && o[k].Some?
      ensures NormalSlot(o[k].value).Some? <==> AcceptedSlot(o[k].value)
      ensures NormalSlot(o[k].value).Some? ==>
        StoredSlot(o[k].value, NormalSlot(o[k].value).value) &&
        (!Empty(NormalSlot(o[k].value).value) <==> Filled(o[k].value))
    {
      SlotReads(o[k].value);
      if NormalSlot(o[k].value).Some? {
        FilledReads(o[k].value);
      }
    }
  }

  ghost predicate AcceptedCommit(c: Commit) {
    && c.sha.Some? && Fits(c.title, 256)
    && var d := Lower(Strip(c.sha.value));
       7 <= |d| <= 40 && forall i :: 0 <= i < |d| ==> '0' <= d[i] <= '9' || 'a' <= d[i] <= 'f'
  }

  predicate StoredCommit(c: Commit, d: Commit) {
    c.sha.Some? && d.sha == Some(Lower(Strip(c.sha.value))) && Trims(c.title, d.title)
  }

  lemma CommitReads(c: Commit)
    ensures NormalCommit(c).Some? <==> AcceptedCommit(c)
    ensures NormalCommit(c).Some? ==> StoredCommit(c, NormalCommit(c).value)
  {
    OptionalReads(c.title, 256);
  }

  ghost predicate AcceptedPullRequest(p: PullRequest) {
    && NoBody(p.otherKeys) && p.url.Some? && |Strip(p.url.value)| <= 4096
    && ("https://" <= Strip(p.url.value) || "http://" <= Strip(p.url.value))
    && !p.number.Garbled? && (p.number.Given? ==> p.number.n >= 1)
  }

  predicate StoredPullRequest(p: PullRequest, q: PullRequest) {
    p.url.Some? && q.url == Some(Strip(p.url.value)) && q.number == p.number
  }

  lemma PullRequestReads(p: PullRequest)
    ensures NormalPullRequest(p).Some? <==> AcceptedPullRequest(p)
    ensures NormalPullRequest(p).Some? ==> StoredPullRequest(p, NormalPullRequest(p).value)
  {
    NoBodyReads(p.otherKeys);
  }

  predicate IsDeployKey(k: string) {
    k == "deployed_at" || k == "endpoint_url" || k == "detail_uri"
  }

  ghost predicate AcceptedDeployment(d: Deployment) {
    && NoBody(d.extras.Keys) && d.environment.Some? && SafeField(d.environment.value)
    && d.status.Some? && Strip(d.status.value) != "" && |Strip(d.status.value)| <= 128
    && forall k :: IsDeployKey(k) && Given(d.extras, k) ==> |Strip(d.extras[k].value)| <= 4096
  }

  ghost predicate StoredDeployment(d: Deployment, e: Deployment) {
    && d.environment.Some? && e.environment == Some(Strip(d.environment.value)) && Trims(d.status, e.status)
    && (forall k :: k in e.extras <==> IsDeployKey(k) && Given(d.extras, k) && Strip(d.extras[k].value) != "")
    && forall k :: k in e.extras ==> e.extras[k] == Some(Strip(d.extras[k].value))
  }

  lemma DeploymentReads(d: Deployment)
    ensures NormalDeployment(d).Some? <==> AcceptedDeployment(d)
    ensures NormalDeployment(d).Some? ==> StoredDeployment(d, NormalDeployment(d).value)
  {
    NoBodyReads(d.extras.Keys);
    TextsRead(d.extras, DEPLOY_KEYS, LongText);
    assert DEPLOY_KEYS[0] == "deployed_at" && DEPLOY_KEYS[1] == "endpoint_url" && DEPLOY_KEYS[2] == "detail_uri";
    assert forall k :: k in DEPLOY_KEYS <==> IsDeployKey(k);
    OptionalReads(d.status, 128);
    if d.environment.Some? {
      LedgerSegmentReads(d.environment.value, "deployment.environment");
    }
  }

  predicate AcceptedSource(s: string) {
    Strip(s) != "" && |Strip(s)| <= 256
  }

  // ---- The record ----------------------------------------------------------------------------

  ghost predicate AcceptedParts(r: Record) {
    && |r.archiveRefs| <= 512 && |r.evidenceRefs| <= 256 && |r.commits| <= 64 && |r.sourceEventIds| <= 256
    && (forall i :: 0 <= i < |r.archiveRefs| ==> AcceptedArchive(r.archiveRefs[i]))
    && (forall i :: 0 <= i < |r.evidenceRefs| ==> AcceptedEvidence(r.evidenceRefs[i]))
    && (forall i :: 0 <= i < |r.commits| ==> AcceptedCommit(r.commits[i]))
    && (forall i :: 0 <= i < |r.sourceEventIds| ==> AcceptedSource(r.sourceEventIds[i]))
    && AcceptedOutcomes(r.outcomes)
    && (r.pullRequest.Some? ==> AcceptedPullRequest(r.pullRequest.value))
    && (r.deployment.Some? ==> AcceptedDeployment(r.deployment.value))
  }

  ghost predicate StoredLists(r: Record, v: Record) {
    && |v.archiveRefs| == |r.archiveRefs| && |v.evidenceRefs| == |r.evidenceRefs|
    && |v.commits| == |r.commits| && |v.sourceEventIds| == |r.sourceEventIds|
    && (forall i :: 0 <= i < |r.archiveRefs| ==> StoredArchive(r.archiveRefs[i], v.archiveRefs[i]))
    && (forall i :: 0 <= i < |r.evidenceRefs| ==> StoredEvidence(r.evidenceRefs[i], v.evidenceRefs[i]))
    && (forall i :: 0 <= i < |r.commits| ==> StoredCommit(r.commits[i], v.commits[i]))
    && (forall i :: 0 <= i < |r.sourceEventIds| ==> v.sourceEventIds[i] == Strip(r.sourceEventIds[i]))
  }

  ghost predicate StoredObjects(r: Record, v: Record) {
    && StoredOutcomes(r.outcomes, v.outcomes)
    && (v.pullRequest.Some? <==> r.pullRequest.Some?) && (v.deployment.Some? <==> r.deployment.Some?)
    && (r.pullRequest.Some? ==> StoredPullRequest(r.pullRequest.value, v.pullRequest.value))
    && (r.deployment.Some? ==> StoredDeployment(r.deployment.value, v.deployment.value))
  }

  lemma ArchivesRead(xs: seq<Archive>)
    ensures Each(xs, ArchiveReference).Some? <==> forall i :: 0 <= i < |xs| ==> AcceptedArchive(xs[i])
    ensures Each(xs, ArchiveReference).Some? ==>
      var ys := Each(xs, ArchiveReference).value;
      |ys| == |xs| && forall i :: 0 <= i < |xs| ==> StoredArchive(xs[i], ys[i])
  {
    EachReads(xs, ArchiveReference);
    forall i | 0 <= i < |xs|
      ensures ArchiveReference(xs[i]).Some? <==> AcceptedArchive(xs[i])
      ensures ArchiveReference(xs[i]).Some? ==> StoredArchive(xs[i], ArchiveReference(xs[i]).value)
    {
      ArchiveReads(xs[i]);
    }
  }

  lemma EvidencesRead(xs: seq<Fields>)
    ensures Each(xs, NormalEvidence).Some? <==> forall i :: 0 <= i < |xs| ==> AcceptedEvidence(xs[i])
    ensures Each(xs, NormalEvidence).Some? ==>
      var ys := Each(xs, NormalEvidence).value;
      |ys| == |xs| && forall i :: 0 <= i < |xs| ==> StoredEvidence(xs[i], ys[i])
  {
    EachReads(xs, NormalEvidence);
    forall i | 0 <= i < |xs|
      ensures NormalEvidence(xs[i]).Some? <==> AcceptedEvidence(xs[i])
      ensures NormalEvidence(xs[i]).Some? ==> StoredEvidence(xs[i], NormalEvidence(xs[i]).value)
    {
      EvidenceReads(xs[i]);
    }
  }

  lemma CommitsRead(xs: seq<Commit>)
    ensures Each(xs, NormalCommit).Some? <==> forall i :: 0 <= i < |xs| ==> AcceptedCommit(xs[i])
    ensures Each(xs, NormalCommit).Some? ==>
      var ys := Each(xs, NormalCommit).value;
      |ys| == |xs| && forall i :: 0 <= i < |xs| ==> StoredCommit(xs[i], ys[i])
  {
    EachReads(xs, NormalCommit);
    forall i | 0 <= i < |xs|
      ensures NormalCommit(xs[i]).Some? <==> AcceptedCommit(xs[i])
      ensures NormalCommit(xs[i]).Some? ==> StoredCommit(xs[i], NormalCommit(xs[i]).value)
    {
      CommitReads(xs[i]);
    }
  }

  lemma SourcesRead(xs: seq<string>)
    ensures Each(xs, SourceId).Some? <==> forall i :: 0 <= i < |xs| ==> AcceptedSource(xs[i])
    ensures Each(xs, SourceId).Some? ==>
      var ys := Each(xs, SourceId).value; |ys| == |xs| && forall i :: 0 <= i < |xs| ==> ys[i] == Strip(xs[i])
  {
    EachReads(xs, SourceId);
  }

  lemma ObjectsRead(r: Record)
    ensures Maybe(r.pullRequest, NormalPullRequest).Some? <==>
            (r.pullRequest.Some? ==> AcceptedPullRequest(r.pullRequest.value))
    ensures Maybe(r.deployment, NormalDeployment).Some? <==>
            (r.deployment.Some? ==> AcceptedDeployment(r.deployment.value))
    ensures Maybe(r.pullRequest, NormalPullRequest).Some? ==>
      var q := Maybe(r.pullRequest, NormalPullRequest).value;
      (q.Some? <==> r.pullRequest.Some?) && (q.Some? ==> StoredPullRequest(r.pullRequest.value, q.value))
    ensures Maybe(r.deployment, NormalDeployment).Some? ==>
      var e := Maybe(r.deployment, NormalDeployment).value;
      (e.Some? <==> r.deployment.Some?) && (e.Some? ==> StoredDeployment(r.deployment.value, e.value))
  {
    if r.pullRequest.Some? {
      PullRequestReads(r.pullRequest.value);
    }
    if r.deployment.Some? {
      DeploymentReads(r.deployment.value);
    }
  }

  lemma PartsRead(r: Record)
    ensures NormalParts(r).Some? <==> AcceptedParts(r)
    ensures NormalParts(r).Some? ==> StoredLists(r, NormalParts(r).value) && StoredObjects(r, NormalParts(r).value)
  {
    ArchivesRead(r.archiveRefs);
    EvidencesRead(r.evidenceRefs);
    CommitsRead(r.commits);
    SourcesRead(r.sourceEventIds);
    OutcomesRead(r.outcomes);
    ObjectsRead(r);
  }

  /** A record is accepted exactly when each of its fields is, and then stores each from the field of the same name. */
  lemma ValidatedReads(r: Record, uuid: string -> Option<string>)
    ensures Validated(r, uuid).Some? <==> AcceptedScalars(r, uuid) && AcceptedParts(r)
    ensures Validated(r, uuid).Some? ==>
      var v := Validated(r, uuid).value; StoredScalars(r, v, uuid) && StoredLists(r, v) && StoredObjects(r, v)
  {
    ScalarsRead(r, uuid);
    if NormalScalars(r, uuid).Some? {
      var s := NormalScalars(r, uuid).value;
      PartsRead(s);
      SameParts(r, s);
      if NormalParts(s).Some? {
        PartsKeepScalars(s);
        StoredThrough(r, s, NormalParts(s).value, uuid);
      }
    }
  }

  lemma SameParts(r: Record, s: Record)
    requires OnlyScalars(r, s)
    ensures AcceptedParts(s) <==> AcceptedParts(r)
  {
  }

  lemma PartsKeepScalars(s: Record)
    requires NormalParts(s).Some?
    ensures NormalParts(s).value == s.(archiveRefs := NormalParts(s).value.archiveRefs,
              evidenceRefs := NormalParts(s).value.evidenceRefs, outcomes := NormalParts(s).value.outcomes,
              commits := NormalParts(s).value.commits, pullRequest := NormalParts(s).value.pullRequest,
              deployment := NormalParts(s).value.deployment, sourceEventIds := NormalParts(s).value.sourceEventIds)
  {
  }

  lemma StoredThrough(r: Record, s: Record, v: Record, uuid: string -> Option<string>)
    requires StoredScalars(r, s, uuid) && OnlyScalars(r, s) && StoredLists(s, v) && StoredObjects(s, v)
    requires v == s.(archiveRefs := v.archiveRefs, evidenceRefs := v.evidenceRefs, outcomes := v.outcomes,
                     commits := v.commits, pullRequest := v.pullRequest, deployment := v.deployment,
                     sourceEventIds := v.sourceEventIds)
    ensures StoredScalars(r, v, uuid) && StoredLists(r, v) && StoredObjects(r, v)
  {
  }
}
