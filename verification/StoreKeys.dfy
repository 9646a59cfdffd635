/** Database and archive keys (backend/shared/canon_backend_shared/{run_ledger,packet_archive,tasks}.py). */
module StoreKeys {
  import opened Text
  import opened Delimited

  datatype KeyError =
    | Blank(name: string) | Separator(name: string) | Traversal(name: string) | TooLong(name: string) | BadDigest

  datatype Result<+T> = Ok(value: T) | Err(error: KeyError)

  // ---- Segments -----------------------------------------------------------------------

  predicate HasDotDot(s: string) {
    exists i :: 0 <= i < |s| - 1 && s[i] == '.' && s[i + 1] == '.'
  }

  /** `sanitize_key_segment`. */
  function ArchiveSegment(raw: string, name: string): Result<string> {
    var s := Strip(raw);
    if s == "" then Err(Blank(name))
    else if '/' in s || '\\' in s then Err(Separator(name))
    else if s == "." || HasDotDot(s) then Err(Traversal(name))
    else if |s| > 256 then Err(TooLong(name))
    else Ok(s)
  }

  predicate CorruptsKeys(s: string) {
    '#' in s || '|' in s || '\\' in s || '/' in s
  }

  /** `sanitize_ledger_segment`. */
  function LedgerSegment(raw: string, name: string): Result<string> {
    var r := ArchiveSegment(raw, name);
    if r.Ok? && CorruptsKeys(r.value) then Err(Separator(name)) else r
  }

  /** `sanitize_segment` of the task plane. */
  function TaskSegment(raw: string, name: string): Result<string> {
    var s := Strip(raw);
    if s == "" then Err(Blank(name)) else if CorruptsKeys(s) then Err(Separator(name)) else Ok(s)
  }

  /** Raw segments with the names used in errors, sanitised in order; the first failure wins. */
  function Sanitized(raws: seq<(string, string)>, f: (string, string) -> Result<string>): (r: Result<seq<string>>)
    ensures r.Ok? ==> |r.value| == |raws|
  {
    if raws == [] then Ok([])
    else
      var head := f(raws[0].0, raws[0].1);
      if head.Err? then Err(head.error)
      else
        var rest := Sanitized(raws[1..], f);
        if rest.Err? then rest else Ok([head.value] + rest.value)
  }

  /** `f` only trims, and never lets `sep` or a blank segment through. */
  ghost predicate Trims(f: (string, string) -> Result<string>, sep: char) {
    forall raw, name :: f(raw, name).Ok? ==>
      f(raw, name).value == Strip(raw) && sep !in f(raw, name).value && f(raw, name).value != ""
  }

  function Trimmed(raws: seq<(string, string)>): (r: seq<string>)
    ensures |r| == |raws|
  {
    if raws == [] then [] else [Strip(raws[0].0)] + Trimmed(raws[1..])
  }

  lemma {:induction false} SanitizedTrims(raws: seq<(string, string)>, f: (string, string) -> Result<string>, sep: char)
    requires Trims(f, sep) && Sanitized(raws, f).Ok?
    ensures Sanitized(raws, f).value == Trimmed(raws) && Clear(Trimmed(raws), sep)
  {
    if raws != [] {
      SanitizedTrims(raws[1..], f, sep);
    }
  }

  lemma SegmentsTrim()
    ensures Trims(ArchiveSegment, '/') && Trims(LedgerSegment, '#') && Trims(TaskSegment, '#')
  {
  }

  // ---- Ledger keys ------------------------------------------------------------------------

  const RUN_LEDGER := "run_ledger"
  const TASKS := "tasks"
  const EVT := "evt"

  datatype LedgerFields = LedgerFields(
    company: string, repository: string, plan: string, task: string, workstream: string, runId: string)

  function LedgerPkParts(f: LedgerFields): seq<(string, string)> {
    [(f.company, "company_id"), (f.repository, "repository_id")]
  }

  function LedgerSkParts(f: LedgerFields): seq<(string, string)> {
    [(f.plan, "plan_id"), (f.task, "task_id"), (f.workstream, "workstream_id"), (f.runId, "ledger_run_id")]
  }

  /** `build_run_ledger_pk` and `build_run_ledger_sk`. */
  function LedgerKey(f: LedgerFields): Result<(string, string)> {
    var p := Sanitized(LedgerPkParts(f), LedgerSegment);
    var s := Sanitized(LedgerSkParts(f), LedgerSegment);
    if p.Err? then Err(p.error) else if s.Err? then Err(s.error)
    else Ok((Join(p.value + [RUN_LEDGER], '#'), Join(s.value, '#')))
  }

  /** Ledger keys determine every trimmed field. */
  lemma LedgerKeyInjective(f: LedgerFields, g: LedgerFields)
    requires LedgerKey(f).Ok? && LedgerKey(f) == LedgerKey(g)
    ensures Trimmed(LedgerPkParts(f)) == Trimmed(LedgerPkParts(g))
    ensures Trimmed(LedgerSkParts(f)) == Trimmed(LedgerSkParts(g))
  {
    LedgerKeyParts(f);
    LedgerKeyParts(g);
    var a, b := Trimmed(LedgerPkParts(f)), Trimmed(LedgerPkParts(g));
    JoinInjective(a + [RUN_LEDGER], b + [RUN_LEDGER], '#');
    assert a == (a + [RUN_LEDGER])[..2] && b == (b + [RUN_LEDGER])[..2];
    JoinInjective(Trimmed(LedgerSkParts(f)), Trimmed(LedgerSkParts(g)), '#');
  }

  lemma LedgerKeyParts(f: LedgerFields)
    requires LedgerKey(f).Ok?
    ensures Clear(Trimmed(LedgerPkParts(f)) + [RUN_LEDGER], '#') && Clear(Trimmed(LedgerSkParts(f)), '#')
    ensures LedgerKey(f).value
         == (Join(Trimmed(LedgerPkParts(f)) + [RUN_LEDGER], '#'), Join(Trimmed(LedgerSkParts(f)), '#'))
  {
    SegmentsTrim();
    SanitizedTrims(LedgerPkParts(f), LedgerSegment, '#');
    SanitizedTrims(LedgerSkParts(f), LedgerSegment, '#');
  }

  // ---- Task keys ------------------------------------------------------------------------------

  /** `event_keys`. */
  function TaskKey(company: string, ref: string, id: string): Result<(string, string)> {
    var c := TaskSegment(company, "company_id");
    var t := TaskSegment(ref, "task_ref");
    var e := TaskSegment(id, "event_id");
    if c.Err? then Err(c.error) else if t.Err? then Err(t.error) else if e.Err? then Err(e.error)
    else Ok((Join([c.value, TASKS], '#'), Join([t.value, EVT, e.value], '#')))
  }

  lemma TaskKeyParts(company: string, ref: string, id: string)
    requires TaskKey(company, ref, id).Ok?
    ensures Clear([Strip(company), TASKS], '#') && Clear([Strip(ref), EVT, Strip(id)], '#')
    ensures TaskKey(company, ref, id).value
         == (Join([Strip(company), TASKS], '#'), Join([Strip(ref), EVT, Strip(id)], '#'))
  {
  }

  lemma TaskKeyInjective(c: string, t: string, e: string, c': string, t': string, e': string)
    requires TaskKey(c, t, e).Ok? && TaskKey(c, t, e) == TaskKey(c', t', e')
    ensures Strip(c) == Strip(c') && Strip(t) == Strip(t') && Strip(e) == Strip(e')
  {
    TaskKeyParts(c, t, e);
    TaskKeyParts(c', t', e');
    var pk, pk' := [Strip(c), TASKS], [Strip(c'), TASKS];
    var sk, sk' := [Strip(t), EVT, Strip(e)], [Strip(t'), EVT, Strip(e')];
    JoinInjective(pk, pk', '#');
    JoinInjective(sk, sk', '#');
    assert pk[0] == pk'[0] && sk[0] == sk'[0] && sk[2] == sk'[2];
  }

  /** `task_event_sk_prefix`. */
  function TaskPrefix(ref: string): Result<string> {
    var t := TaskSegment(ref, "task_ref");
    if t.Err? then t else Ok(t.value + "#" + EVT + "#")
  }

  /** A row is under a task's prefix exactly when it belongs to that task. */
  lemma PrefixSelectsTask(company: string, ref: string, id: string, wanted: string)
    requires TaskKey(company, ref, id).Ok? && TaskPrefix(wanted).Ok?
    ensures TaskPrefix(wanted).value <= TaskKey(company, ref, id).value.1 <==> Strip(ref) == Strip(wanted)
  {
    TaskKeyParts(company, ref, id);
    PrefixIff(Strip(ref), Strip(id), Strip(wanted));
  }

  lemma PrefixIff(t: string, e: string, w: string)
    requires '#' !in t && '#' !in w
    ensures w + "#" + EVT + "#" <= Join([t, EVT, e], '#') <==> t == w
  {
    var sk := Join([t, EVT, e], '#');
    assert Join([EVT, e], '#') == EVT + ['#'] + e;
    assert sk == t + ['#'] + (EVT + "#" + e);
    var p := w + "#" + EVT + "#";
    if p <= sk {
      assert sk == w + ['#'] + (EVT + "#" + sk[|p|..]);
      HeadDetermined(t, EVT + "#" + e, w, EVT + "#" + sk[|p|..], '#');
    }
    if t == w {
      assert sk[..|p|] == p;
    }
  }

  // ---- Disjointness -----------------------------------------------------------------------------

  /** Checkpoint rows: `company#repository` and `plan#task#workstream`, segments free of '#'. */
  function CheckpointPk(c: string, r: string): string { Join([c, r], '#') }
  function CheckpointSk(p: string, t: string, w: string): string { Join([p, t, w], '#') }

  /** Ledger partition keys are never those of checkpoints or task events. */
  lemma LedgerKeysDisjoint(f: LedgerFields, c: string, r: string)
    requires LedgerKey(f).Ok? && '#' !in c && '#' !in r
    ensures LedgerKey(f).value.0 != CheckpointPk(c, r)
  {
    LedgerKeyParts(f);
    if LedgerKey(f).value.0 == CheckpointPk(c, r) {
      JoinInjective(Trimmed(LedgerPkParts(f)) + [RUN_LEDGER], [c, r], '#');
      assert false;
    }
  }

  lemma LedgerKeysNotTaskKeys(f: LedgerFields, company: string, ref: string, id: string)
    requires LedgerKey(f).Ok? && TaskKey(company, ref, id).Ok?
    ensures LedgerKey(f).value.0 != TaskKey(company, ref, id).value.0
  {
    TaskKeyParts(company, ref, id);
    LedgerKeysDisjoint(f, Strip(company), TASKS);
  }

  /** A task event shares its key with a checkpoint exactly for repository "tasks" and task "evt". */
  lemma TaskKeyMeetsCheckpointIff(company: string, ref: string, id: string,
                                  c: string, r: string, p: string, t: string, w: string)
    requires TaskKey(company, ref, id).Ok? && Clear([c, r], '#') && Clear([p, t, w], '#')
    ensures TaskKey(company, ref, id).value == (CheckpointPk(c, r), CheckpointSk(p, t, w))
       <==> r == TASKS && t == EVT && c == Strip(company) && p == Strip(ref) && w == Strip(id)
  {
    TaskKeyParts(company, ref, id);
    var pk, sk := [Strip(company), TASKS], [Strip(ref), EVT, Strip(id)];
    if TaskKey(company, ref, id).value == (CheckpointPk(c, r), CheckpointSk(p, t, w)) {
      JoinInjective(pk, [c, r], '#');
      JoinInjective(sk, [p, t, w], '#');
      assert pk[0] == [c, r][0] && pk[1] == [c, r][1];
      assert sk[0] == [p, t, w][0] && sk[1] == [p, t, w][1] && sk[2] == [p, t, w][2];
    }
  }
}
