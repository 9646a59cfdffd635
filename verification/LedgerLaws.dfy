/** When validating a ledger record twice is the same as validating it once, and what merging snapshots does. */
module LedgerLaws {
  import opened Text
  import opened StoreKeys
  import ArchiveKeys
  import opened LedgerRecord

  // ---- Lists ------------------------------------------------------------------------------

  /** `f` accepts its own result unchanged exactly for the inputs `ok` describes. */
  ghost predicate FixedWhen<T(!new)>(f: T -> Option<T>, ok: T -> bool) {
    forall x {:trigger ok(x)} :: f(x).Some? ==> (f(f(x).value) == f(x) <==> ok(x))
  }

  ghost predicate AllOk<T>(xs: seq<T>, ok: T -> bool) {
    forall i :: 0 <= i < |xs| ==> ok(xs[i])
  }

  lemma {:induction false} EachFixedIff<T(!new)>(xs: seq<T>, f: T -> Option<T>, ok: T -> bool)
    requires FixedWhen(f, ok) && Each(xs, f).Some?
    ensures Each(Each(xs, f).value, f) == Each(xs, f) <==> AllOk(xs, ok)
  {
    if xs != [] {
      var front, x := xs[..|xs| - 1], xs[|xs| - 1];
      var ys, y := Each(front, f).value, f(x).value;
      EachFixedIff(front, f, ok);
      EachLength(front, f);
      EachLength(ys, f);
      assert (ys + [y])[..|ys|] == ys;
      var a := Each(ys, f);
      if a.Some? && f(y).Some? {
        assert (a.value + [f(y).value])[..|ys|] == a.value && (a.value + [f(y).value])[|ys|] == f(y).value;
      }
      assert AllOk(xs, ok) <==> AllOk(front, ok) && ok(x);
    }
  }

  /** `f` accepts its own result exactly for the inputs `ok` describes. */
  ghost predicate AcceptedWhen<T(!new)>(f: T -> Option<T>, ok: T -> bool) {
    forall x {:trigger ok(x)} :: f(x).Some? ==> (f(f(x).value).Some? <==> ok(x))
  }

  lemma {:induction false} EachAcceptedIff<T(!new)>(xs: seq<T>, f: T -> Option<T>, ok: T -> bool)
    requires AcceptedWhen(f, ok) && Each(xs, f).Some?
    ensures Each(Each(xs, f).value, f).Some? <==> AllOk(xs, ok)
  {
    if xs != [] {
      var front, x := xs[..|xs| - 1], xs[|xs| - 1];
      var ys := Each(front, f).value;
      EachAcceptedIff(front, f, ok);
      assert (ys + [f(x).value])[..|ys|] == ys;
      assert AllOk(xs, ok) <==> AllOk(front, ok) && ok(x);
    }
  }

  lemma {:induction false} EachLength<T>(xs: seq<T>, f: T -> Option<T>)
    ensures Each(xs, f).Some? ==> |Each(xs, f).value| == |xs|
  {
    if xs != [] {
      EachLength(xs[..|xs| - 1], f);
    }
  }

  lemma {:induction false} EachConcat<T>(xs: seq<T>, ys: seq<T>, f: T -> Option<T>)
    ensures Each(xs + ys, f) == if Each(xs, f).None? || Each(ys, f).None? then None
                                else Some(Each(xs, f).value + Each(ys, f).value)
  {
    if ys == [] {
      assert xs + ys == xs;
      assert Each(xs, f).Some? ==> Each(xs, f).value + [] == Each(xs, f).value;
    } else {
      var front, y := ys[..|ys| - 1], ys[|ys| - 1];
      EachConcat(xs, front, f);
      var all := xs + ys;
      assert all[..|all| - 1] == xs + front && all[|all| - 1] == y;
      if Each(xs, f).Some? && Each(front, f).Some? && f(y).Some? {
        assert (Each(xs, f).value + Each(front, f).value) + [f(y).value] == Each(xs, f).value + Each(ys, f).value;
      }
    }
  }

  // ---- Text entries ------------------------------------------------------------------------

  /** No entry that is there is only white space. */
  ghost predicate NoBlank(fields: Fields, keys: seq<string>) {
    forall k :: k in keys && Present(fields, k) ==> Strip(fields[k].value) != ""
  }

  /** A normaliser that is stable on its results and gives the empty text for white space only. */
  ghost predicate StableText(f: (string, string) -> Option<string>) {
    forall k, s :: f(k, s).Some? ==>
      var t := f(k, s).value;
      (t == "" <==> Strip(s) == "") && (t != "" ==> f(k, t) == Some(t))
  }

  lemma TextsFixedIff(fields: Fields, keys: seq<string>, f: (string, string) -> Option<string>)
    requires StableText(f) && Texts(fields, keys, f).Some?
    ensures Texts(Texts(fields, keys, f).value, keys, f) == Texts(fields, keys, f) <==> NoBlank(fields, keys)
    ensures Texts(Texts(fields, keys, f).value, keys, f).Some?
  {
    var out := Texts(fields, keys, f).value;
    forall k | k in keys && Present(out, k) ensures f(k, out[k].value) == out[k] {
      assert f(k, fields[k].value) == out[k];
    }
    var again := Texts(out, keys, f).value;
    if NoBlank(fields, keys) {
      forall k | k in out ensures k in again && again[k] == out[k] {
        assert f(k, fields[k].value) == out[k];
      }
      assert again == out;
    } else {
      var k :| k in keys && Present(fields, k) && Strip(fields[k].value) == "";
      assert f(k, fields[k].value) == Some("");
      assert k in out && k !in again;
    }
  }

  ghost predicate HasWords(fields: Fields, keys: seq<string>) {
    exists k :: k in keys && Present(fields, k) && Strip(fields[k].value) != ""
  }

  /** A second pass keeps some entry exactly when some entry says something. */
  lemma TextsKeptIff(fields: Fields, keys: seq<string>, f: (string, string) -> Option<string>)
    requires StableText(f) && Texts(fields, keys, f).Some?
    ensures var again := Texts(Texts(fields, keys, f).value, keys, f);
            again.Some? && (again.value != map[] <==> HasWords(fields, keys))
  {
    TextsFixedIff(fields, keys, f);
    var out := Texts(fields, keys, f).value;
    var again := Texts(out, keys, f).value;
    forall k | k in keys && Present(fields, k) ensures k in again <==> Strip(fields[k].value) != "" {
      assert f(k, fields[k].value) == out[k];
    }
    if again == map[] {
      assert forall k :: k !in again;
    } else {
      var k :| k in again;
      assert k in keys && Present(fields, k);
    }
  }

  lemma BoundedStable(s: string, max: nat)
    ensures Bounded(s, max).Some? ==> Bounded(Bounded(s, max).value, max) == Bounded(s, max)
  {
    StripIdempotent(s);
  }

  lemma LongTextStable()
    ensures StableText(LongText)
  {
    forall k, s ensures LongText(k, s).Some? ==> LongText(k, LongText(k, s).value) == LongText(k, s) {
      BoundedStable(s, 4096);
    }
  }

  lemma SlotTextStable()
    ensures StableText(SlotText)
  {
    forall k, s ensures SlotText(k, s).Some? ==> SlotText(k, SlotText(k, s).value) == SlotText(k, s) {
      BoundedStable(s, 2048);
    }
  }

  lemma {:induction false} LowerHex(s: string)
    requires forall i :: 0 <= i < |s| ==> ArchiveKeys.IsHex(s[i])
    ensures Lower(s) == s
  {
    if s != "" {
      LowerHex(s[1..]);
      assert [s[0]] + s[1..] == s;
    }
  }

  lemma HexIsStripped(s: string)
    requires forall i :: 0 <= i < |s| ==> ArchiveKeys.IsHex(s[i])
    ensures Strip(s) == s && Lower(s) == s
  {
    StripIdempotent(s);
    LowerHex(s);
  }

  lemma DigestStable(s: string)
    ensures Digest(s).Some? ==> Digest(Digest(s).value) == Digest(s) && Strip(s) != "" && Digest(s).value != ""
  {
    if Digest(s).Some? {
      HexIsStripped(Digest(s).value);
    }
  }

  lemma EvidenceTextStable()
    ensures StableText(EvidenceText)
  {
    forall k, s ensures EvidenceText(k, s).Some? ==>
      var t := EvidenceText(k, s).value;
      (t == "" <==> Strip(s) == "") && (t != "" ==> EvidenceText(k, t) == Some(t))
    {
      DigestStable(s);
      BoundedStable(s, 4096);
    }
  }

  // ---- Parts -------------------------------------------------------------------------------

  ghost predicate EvidenceOk(fields: Fields) {
    NoBlank(fields, EVIDENCE_KEYS)
  }

  lemma EvidenceFixedIff(fields: Fields)
    requires NormalEvidence(fields).Some?
    ensures NormalEvidence(NormalEvidence(fields).value) == NormalEvidence(fields) <==> EvidenceOk(fields)
  {
    EvidenceTextStable();
    TextsFixedIff(fields, EVIDENCE_KEYS, EvidenceText);
    var out := NormalEvidence(fields).value;
    NoBodyKeys(EVIDENCE_KEYS);
    assert forall k :: k in out ==> k in EVIDENCE_KEYS;
  }

  /** Some copied text is not only white space. */
  ghost predicate Worded(fields: Fields) {
    HasWords(fields, EVIDENCE_KEYS)
  }

  lemma EvidenceAcceptedIff(fields: Fields)
    requires NormalEvidence(fields).Some?
    ensures NormalEvidence(NormalEvidence(fields).value).Some? <==> Worded(fields)
  {
    EvidenceTextStable();
    TextsKeptIff(fields, EVIDENCE_KEYS, EvidenceText);
    NoBodyKeys(EVIDENCE_KEYS);
    assert forall k :: k in NormalEvidence(fields).value ==> k in EVIDENCE_KEYS;
  }

  /** None of the copied keys is a body key. */
  lemma NoBodyKeys(keys: seq<string>)
    requires keys == EVIDENCE_KEYS || keys == SLOT_KEYS || keys == DEPLOY_KEYS
    ensures forall k :: k in keys ==> k !in BODY_KEYS
  {
  }

  ghost predicate SlotOk(s: Slot) {
    NoBlank(s.texts, SLOT_KEYS)
  }

  lemma SlotFixedIff(s: Slot)
    requires NormalSlot(s).Some?
    ensures NormalSlot(NormalSlot(s).value).Some?
    ensures NormalSlot(NormalSlot(s).value) == NormalSlot(s) <==> SlotOk(s)
  {
    SlotTextStable();
    TextsFixedIff(s.texts, SLOT_KEYS, SlotText);
    NoBodyKeys(SLOT_KEYS);
    assert forall k :: k in NormalSlot(s).value.texts ==> k in SLOT_KEYS;
  }

  ghost predicate OutcomesOk(o: Outcomes) {
    forall k :: k in o && o[k].Some? ==> SlotOk(o[k].value)
  }

  lemma OutcomesFixedIff(o: Outcomes)
    requires NormalOutcomes(o).Some?
    ensures NormalOutcomes(NormalOutcomes(o).value).Some?
    ensures NormalOutcomes(NormalOutcomes(o).value) == NormalOutcomes(o) <==> OutcomesOk(o)
  {
    var out := NormalOutcomes(o).value;
    forall k | k in out ensures KeptSlot(o, k) && out[k] == NormalSlot(o[k].value) && NormalSlot(out[k].value).Some? {
      SlotFixedIff(o[k].value);
    }
    assert SlotsAccepted(out);
    var again := NormalOutcomes(out).value;
    if OutcomesOk(o) {
      forall k | k in out ensures KeptSlot(out, k) && again[k] == out[k] {
        SlotFixedIff(o[k].value);
      }
      assert again == out;
    } else {
      var k :| k in o && o[k].Some? && !SlotOk(o[k].value);
      BlankSlotKept(o[k].value);
      SlotFixedIff(o[k].value);
      assert k in out;
      assert k in again ==> again[k] != out[k];
    }
  }

  lemma BlankSlotKept(s: Slot)
    requires NormalSlot(s).Some? && !SlotOk(s)
    ensures !Empty(NormalSlot(s).value)
  {
    var k :| k in SLOT_KEYS && Present(s.texts, k) && Strip(s.texts[k].value) == "";
    assert k in NormalSlot(s).value.texts;
  }

  lemma OptionalFixed(v: Option<string>, max: nat)
    ensures Optional(v, max).Some? ==> Optional(Optional(v, max).value, max) == Optional(v, max)
  {
    if v.Some? {
      BoundedStable(v.value, max);
    }
  }

  lemma TimestampFixed(v: Option<string>)
    ensures Timestamp(v).Some? ==> Timestamp(Timestamp(v).value) == Timestamp(v)
  {
    if v.Some? {
      StripIdempotent(v.value);
    }
  }

  lemma CommitFixed(c: Commit)
    ensures NormalCommit(c).Some? ==> NormalCommit(NormalCommit(c).value) == NormalCommit(c)
  {
    if NormalCommit(c).Some? {
      HexIsStripped(Lower(Strip(c.sha.value)));
      OptionalFixed(c.title, 256);
    }
  }

  lemma PullRequestFixed(p: PullRequest)
    ensures NormalPullRequest(p).Some? ==> NormalPullRequest(NormalPullRequest(p).value) == NormalPullRequest(p)
  {
    if p.url.Some? {
      StripIdempotent(p.url.value);
    }
  }

  lemma ExtrasFixed(extras: Fields)
    requires Texts(extras, DEPLOY_KEYS, LongText).Some?
    ensures var d := DropBlank(Texts(extras, DEPLOY_KEYS, LongText).value);
            Texts(d, DEPLOY_KEYS, LongText) == Some(d) && DropBlank(d) == d
  {
    LongTextStable();
    var out := Texts(extras, DEPLOY_KEYS, LongText).value;
    var d := DropBlank(out);
    forall k | k in d ensures Present(d, k) && LongText(k, d[k].value) == d[k] {
      assert LongText(k, extras[k].value) == out[k];
    }
    assert AllAccepted(d, DEPLOY_KEYS, LongText);
    assert Texts(d, DEPLOY_KEYS, LongText).value == d;
  }

  lemma LedgerSegmentFixed(raw: string, name: string)
    ensures LedgerSegment(raw, name).Ok? ==>
              LedgerSegment(LedgerSegment(raw, name).value, name) == LedgerSegment(raw, name)
  {
    StripIdempotent(raw);
  }

  lemma DeploymentFixed(d: Deployment)
    ensures NormalDeployment(d).Some? ==> NormalDeployment(NormalDeployment(d).value) == NormalDeployment(d)
  {
    if NormalDeployment(d).Some? {
      ExtrasFixed(d.extras);
      NoBodyKeys(DEPLOY_KEYS);
      LedgerSegmentFixed(d.environment.value, "deployment.environment");
      OptionalFixed(d.status, 128);
      assert forall k :: k in NormalDeployment(d).value.extras ==> k in DEPLOY_KEYS;
    }
  }

  lemma SourceIdFixed(s: string)
    ensures SourceId(s).Some? ==> SourceId(SourceId(s).value) == SourceId(s)
  {
    BoundedStable(s, 256);
  }

  lemma ArchiveFixed(r: Archive)
    ensures ArchiveReference(r).Some? ==> ArchiveReference(ArchiveReference(r).value) == ArchiveReference(r)
  {
    if ArchiveReference(r).Some? {
      var out := ArchiveReference(r).value;
      if r[SHA].Str? {
        DigestStable(r[SHA].text);
      }
      assert BODY_KEYS * ARCHIVE_KEYS == {};
      assert forall k :: k in out <==> Stored(r, k);
      assert forall k :: Stored(r, k) ==> Stored(out, k);
      assert ArchiveReference(out).value == out;
    }
  }

  // ---- The record ----------------------------------------------------------------------------

  /** A canonical UUID is its own canonical form, trimmed and short. */
  ghost predicate Canonical(uuid: string -> Option<string>) {
    forall s {:trigger uuid(s)} :: uuid(s).Some? ==>
      var c := uuid(s).value;
      uuid(c) == Some(c) && Strip(c) == c && c != "" && |c| <= 256
  }

  /** The scalar fields of two records agree. */
  ghost predicate SameScalars(r: Record, t: Record) {
    && r.otherKeys == t.otherKeys && r.version == t.version && r.runId == t.runId
    && Segments(r) == Segments(t)
    && r.phaseStatus == t.phaseStatus && r.createdAt == t.createdAt && r.updatedAt == t.updatedAt
    && r.verdict == t.verdict && r.agentRunId == t.agentRunId && r.actorId == t.actorId
  }

  lemma RunIdFixed(s: string, uuid: string -> Option<string>)
    requires Canonical(uuid)
    ensures RunId(s, uuid).Some? ==> RunId(RunId(s, uuid).value, uuid) == RunId(s, uuid)
  {
  }

  lemma {:induction false} SegmentsFixed(raws: seq<(string, string)>, again: seq<(string, string)>)
    requires Sanitized(raws, LedgerSegment).Ok? && |again| == |raws|
    requires forall i :: 0 <= i < |raws| ==> again[i] == (Sanitized(raws, LedgerSegment).value[i], raws[i].1)
    ensures Sanitized(again, LedgerSegment) == Sanitized(raws, LedgerSegment)
  {
    if raws != [] {
      LedgerSegmentFixed(raws[0].0, raws[0].1);
      SegmentsFixed(raws[1..], again[1..]);
    }
  }

  lemma SegmentsStay(r: Record, t: Record)
    requires Sanitized(Segments(r), LedgerSegment).Ok?
    requires var s := Sanitized(Segments(r), LedgerSegment).value;
             && t.company == s[0] && t.repository == s[1] && t.plan == s[2] && t.task == s[3]
             && t.workstream == s[4] && t.handoff == s[5] && t.phase == s[6]
    ensures Sanitized(Segments(t), LedgerSegment) == Sanitized(Segments(r), LedgerSegment)
  {
    SegmentsFixed(Segments(r), Segments(t));
  }

  /** Normalised scalars stay as they are, whatever the parts beside them. */
  lemma ScalarsStay(r: Record, t: Record, uuid: string -> Option<string>)
    requires Canonical(uuid) && NormalScalars(r, uuid).Some? && SameScalars(NormalScalars(r, uuid).value, t)
    ensures NormalScalars(t, uuid) == Some(t)
  {
    SegmentsStay(r, t);
    RunIdFixed(r.runId, uuid);
    OptionalFixed(r.phaseStatus, 128);
    OptionalFixed(r.verdict, 128);
    TimestampFixed(r.createdAt);
    TimestampFixed(r.updatedAt);
    OptionalFixed(r.agentRunId, 256);
    OptionalFixed(r.actorId, 256);
  }

  /** No evidence or outcome text under a copied key is only white space. */
  ghost predicate NoBlankTexts(r: Record) {
    AllOk(r.evidenceRefs, EvidenceOk) && OutcomesOk(r.outcomes)
  }

  ghost predicate Always<T>(x: T) {
    true
  }

  lemma SimpleListsFixed(r: Record)
    ensures Each(r.archiveRefs, ArchiveReference).Some? ==>
      Each(Each(r.archiveRefs, ArchiveReference).value, ArchiveReference) == Each(r.archiveRefs, ArchiveReference)
    ensures Each(r.commits, NormalCommit).Some? ==>
      Each(Each(r.commits, NormalCommit).value, NormalCommit) == Each(r.commits, NormalCommit)
    ensures Each(r.sourceEventIds, SourceId).Some? ==>
      Each(Each(r.sourceEventIds, SourceId).value, SourceId) == Each(r.sourceEventIds, SourceId)
  {
    ArchivesFixed(r.archiveRefs);
    CommitsFixed(r.commits);
    SourceIdsFixed(r.sourceEventIds);
  }

  lemma ArchivesFixed(xs: seq<Archive>)
    ensures Each(xs, ArchiveReference).Some? ==>
      Each(Each(xs, ArchiveReference).value, ArchiveReference) == Each(xs, ArchiveReference)
  {
    forall x ensures ArchiveReference(x).Some? ==> ArchiveReference(ArchiveReference(x).value) == ArchiveReference(x) {
      ArchiveFixed(x);
    }
    if Each(xs, ArchiveReference).Some? {
      EachFixedIff(xs, ArchiveReference, Always<Archive>);
    }
  }

  lemma CommitsFixed(xs: seq<Commit>)
    ensures Each(xs, NormalCommit).Some? ==> Each(Each(xs, NormalCommit).value, NormalCommit) == Each(xs, NormalCommit)
  {
    forall x ensures NormalCommit(x).Some? ==> NormalCommit(NormalCommit(x).value) == NormalCommit(x) {
      CommitFixed(x);
    }
    if Each(xs, NormalCommit).Some? {
      EachFixedIff(xs, NormalCommit, Always<Commit>);
    }
  }

  lemma SourceIdsFixed(xs: seq<string>)
    ensures Each(xs, SourceId).Some? ==> Each(Each(xs, SourceId).value, SourceId) == Each(xs, SourceId)
  {
    forall x ensures SourceId(x).Some? ==> SourceId(SourceId(x).value) == SourceId(x) {
      SourceIdFixed(x);
    }
    if Each(xs, SourceId).Some? {
      EachFixedIff(xs, SourceId, Always<string>);
    }
  }

  lemma EvidencesFixedIff(xs: seq<Fields>)
    ensures Each(xs, NormalEvidence).Some? ==>
      (Each(Each(xs, NormalEvidence).value, NormalEvidence) == Each(xs, NormalEvidence) <==> AllOk(xs, EvidenceOk))
  {
    forall x | NormalEvidence(x).Some?
      ensures NormalEvidence(NormalEvidence(x).value) == NormalEvidence(x) <==> EvidenceOk(x)
    {
      EvidenceFixedIff(x);
    }
    if Each(xs, NormalEvidence).Some? {
      EachFixedIff(xs, NormalEvidence, EvidenceOk);
    }
  }

  lemma ObjectsFixed(r: Record)
    ensures Maybe(r.pullRequest, NormalPullRequest).Some? ==>
      Maybe(Maybe(r.pullRequest, NormalPullRequest).value, NormalPullRequest) == Maybe(r.pullRequest, NormalPullRequest)
    ensures Maybe(r.deployment, NormalDeployment).Some? ==>
      Maybe(Maybe(r.deployment, NormalDeployment).value, NormalDeployment) == Maybe(r.deployment, NormalDeployment)
  {
    if r.pullRequest.Some? {
      PullRequestFixed(r.pullRequest.value);
    }
    if r.deployment.Some? {
      DeploymentFixed(r.deployment.value);
    }
  }

  lemma ObjectsFixedIff(r: Record)
    requires NormalObjects(r).Some?
    ensures NormalObjects(NormalObjects(r).value) == NormalObjects(r) <==> NoBlankTexts(r)
  {
    SimpleListsFixed(r);
    EvidencesFixedIff(r.evidenceRefs);
    OutcomesFixedIff(r.outcomes);
    ObjectsFixed(r);
    EachLength(r.evidenceRefs, NormalEvidence);
    EachLength(r.commits, NormalCommit);
    EachLength(r.sourceEventIds, SourceId);
  }

  lemma EvidencesAcceptedIff(xs: seq<Fields>)
    ensures Each(xs, NormalEvidence).Some? ==>
      (Each(Each(xs, NormalEvidence).value, NormalEvidence).Some? <==> AllOk(xs, Worded))
  {
    forall x | NormalEvidence(x).Some? ensures NormalEvidence(NormalEvidence(x).value).Some? <==> Worded(x) {
      EvidenceAcceptedIff(x);
    }
    if Each(xs, NormalEvidence).Some? {
      EachAcceptedIff(xs, NormalEvidence, Worded);
    }
  }

  /** Beside its evidence, a normal form is accepted again. */
  lemma OthersAccepted(r: Record, o: Record)
    requires NormalObjects(r) == Some(o)
    ensures WithinLimits(o) && Each(o.commits, NormalCommit).Some? && Each(o.sourceEventIds, SourceId).Some?
    ensures NormalOutcomes(o.outcomes).Some?
    ensures Maybe(o.pullRequest, NormalPullRequest).Some? && Maybe(o.deployment, NormalDeployment).Some?
  {
    SimpleListsFixed(r);
    OutcomesFixedIff(r.outcomes);
    ObjectsFixed(r);
    EachLength(r.evidenceRefs, NormalEvidence);
    EachLength(r.commits, NormalCommit);
    EachLength(r.sourceEventIds, SourceId);
  }

  lemma ObjectsAcceptedIff(r: Record)
    requires NormalObjects(r).Some?
    ensures NormalObjects(NormalObjects(r).value).Some? <==> AllOk(r.evidenceRefs, Worded)
  {
    OthersAccepted(r, NormalObjects(r).value);
    EvidencesAcceptedIff(r.evidenceRefs);
  }

  lemma PartsAcceptedIff(r: Record)
    requires NormalParts(r).Some?
    ensures NormalParts(NormalParts(r).value).Some? <==> AllOk(r.evidenceRefs, Worded)
  {
    var objects := NormalObjects(r).value;
    ArchivesFixed(r.archiveRefs);
    EachLength(r.archiveRefs, ArchiveReference);
    ObjectsIgnoreArchives(objects, NormalArchives(r.archiveRefs).value);
    ObjectsAcceptedIff(r);
  }

  lemma PartsFixedIff(r: Record)
    requires NormalParts(r).Some?
    ensures NormalParts(NormalParts(r).value) == NormalParts(r) <==> NoBlankTexts(r)
  {
    var objects := NormalObjects(r).value;
    ArchivesFixed(r.archiveRefs);
    EachLength(r.archiveRefs, ArchiveReference);
    ObjectsIgnoreArchives(objects, NormalArchives(r.archiveRefs).value);
    ObjectsKeepArchives(objects, r);
    ObjectsFixedIff(r);
  }

  lemma ObjectsKeepArchives(objects: Record, r: Record)
    requires NormalObjects(r) == Some(objects)
    ensures objects.archiveRefs == r.archiveRefs
    ensures NormalObjects(objects).Some? ==> NormalObjects(objects).value.archiveRefs == r.archiveRefs
  {
  }

  /** Validating an accepted record again changes nothing exactly when none of its texts was only white space. */
  lemma ValidatedTwiceIff(r: Record, uuid: string -> Option<string>)
    requires Canonical(uuid)
    ensures Validated(r, uuid).Some? ==>
      (Validated(Validated(r, uuid).value, uuid) == Validated(r, uuid) <==> NoBlankTexts(r))
  {
    if Validated(r, uuid).Some? {
      var scalars := NormalScalars(r, uuid).value;
      var v := NormalParts(scalars).value;
      ScalarsStay(r, v, uuid);
      PartsFixedIff(scalars);
    }
  }

  function KeyFields(r: Record): LedgerFields {
    LedgerFields(r.company, r.repository, r.plan, r.task, r.workstream, r.runId)
  }

  /** `ledger_keys_for_record`. */
  function KeysFor(r: Record, uuid: string -> Option<string>): Option<Result<(string, string)>> {
    var v := Validated(r, uuid);
    if v.None? then None else Some(LedgerKey(KeyFields(v.value)))
  }

  /** The keys of an accepted record are those of its normal form exactly when every evidence reference has a copied
      text that is not only white space; otherwise the normal form is itself rejected. */
  lemma KeysAgreeIff(r: Record, uuid: string -> Option<string>)
    requires Canonical(uuid)
    ensures Validated(r, uuid).Some? ==>
      (KeysFor(Validated(r, uuid).value, uuid) == KeysFor(r, uuid) <==> AllOk(r.evidenceRefs, Worded))
    ensures Validated(r, uuid).Some? && !AllOk(r.evidenceRefs, Worded) ==>
      Validated(Validated(r, uuid).value, uuid).None?
  {
    if Validated(r, uuid).Some? {
      var scalars := NormalScalars(r, uuid).value;
      var v := NormalParts(scalars).value;
      ScalarsStay(r, v, uuid);
      PartsAcceptedIff(scalars);
    }
  }

  /** Merging appends exactly the normalised references, and is accepted exactly when record, snapshots and count
      are. */
  lemma MergeAppends(base: Record, snaps: seq<Archive>, uuid: string -> Option<string>)
    ensures var refs := Each(snaps, ArchiveReference);
            Appends(Validated(base, uuid), refs.GetOr([]), refs.Some? && |base.archiveRefs| + |snaps| <= 512,
                    Merged(base, snaps, uuid))
  {
    var refs := Each(snaps, ArchiveReference);
    if refs.Some? {
      EachLength(snaps, ArchiveReference);
      ArchivesFixed(snaps);
      ScalarsIgnoreArchives(base, base.archiveRefs + refs.value, uuid);
      if NormalScalars(base, uuid).Some? {
        var s := NormalScalars(base, uuid).value;
        PartsAppend(s, s.(archiveRefs := s.archiveRefs + refs.value), refs.value);
      }
    }
  }

  /** `after` is `before` with `refs` appended, accepted exactly when `before` is and the count fits. */
  ghost predicate Appends(before: Option<Record>, refs: seq<Archive>, fits: bool, after: Option<Record>) {
    after == if before.Some? && fits then Some(before.value.(archiveRefs := before.value.archiveRefs + refs)) else None
  }

  lemma PartsAppend(s: Record, t: Record, refs: seq<Archive>)
    requires Each(refs, ArchiveReference) == Some(refs) && t == s.(archiveRefs := s.archiveRefs + refs)
    ensures Appends(NormalParts(s), refs, |t.archiveRefs| <= 512, NormalParts(t))
  {
    ObjectsIgnoreArchives(s, t.archiveRefs);
    ArchivesAppend(s.archiveRefs, refs);
    CombineAppends(NormalObjects(s), NormalObjects(t), t.archiveRefs,
                   NormalArchives(s.archiveRefs), NormalArchives(t.archiveRefs), refs, |t.archiveRefs| <= 512);
  }

  lemma ArchivesAppend(earlier: seq<Archive>, refs: seq<Archive>)
    requires Each(refs, ArchiveReference) == Some(refs)
    ensures NormalArchives(earlier + refs)
         == if NormalArchives(earlier).Some? && |earlier + refs| <= 512
            then Some(NormalArchives(earlier).value + refs) else None
  {
    EachConcat(earlier, refs, ArchiveReference);
  }

  lemma CombineAppends(o: Option<Record>, o': Option<Record>, all: seq<Archive>,
                       a: Option<seq<Archive>>, a': Option<seq<Archive>>, refs: seq<Archive>, fits: bool)
    requires o' == if o.None? then None else Some(o.value.(archiveRefs := all))
    requires a' == if a.Some? && fits then Some(a.value + refs) else None
    ensures Appends(WithArchives(o, a), refs, fits, WithArchives(o', a'))
  {
  }

  lemma ObjectsIgnoreArchives(s: Record, refs: seq<Archive>)
    ensures NormalObjects(s.(archiveRefs := refs))
         == if NormalObjects(s).None? then None else Some(NormalObjects(s).value.(archiveRefs := refs))
  {
  }

  lemma ScalarsIgnoreArchives(base: Record, refs: seq<Archive>, uuid: string -> Option<string>)
    ensures NormalScalars(base.(archiveRefs := refs), uuid)
         == if NormalScalars(base, uuid).None? then None
            else Some(NormalScalars(base, uuid).value.(archiveRefs := refs))
  {
    assert Segments(base.(archiveRefs := refs)) == Segments(base);
  }
}
