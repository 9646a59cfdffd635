/** The layout of the keys and which fields they are built from
    (backend/shared/canon_backend_shared/{run_ledger,packet_archive,tasks}.py). */
module KeyReading {
  import opened Text
  import opened Delimited
  import opened StoreKeys
  import opened ArchiveKeys

  // ---- Ledger and task keys -----------------------------------------------------------------

  /** Not blank, and free of the characters that separate keys. */
  predicate SafeName(raw: string) {
    var s := Strip(raw);
    s != "" && '/' !in s && '\\' !in s && '#' !in s && '|' !in s
  }

  predicate NoTraversal(raw: string) {
    var s := Strip(raw);
    |s| <= 256 && s != "." && forall i :: 0 <= i < |s| - 1 ==> s[i] != '.' || s[i + 1] != '.'
  }

  predicate SafeField(raw: string) {
    SafeName(raw) && NoTraversal(raw)
  }

  lemma LedgerSegmentReads(raw: string, name: string)
    ensures LedgerSegment(raw, name).Ok? <==> SafeField(raw)
    ensures LedgerSegment(raw, name).Ok? ==> LedgerSegment(raw, name).value == Strip(raw)
  {
  }

  lemma TaskSegmentReads(raw: string, name: string)
    ensures TaskSegment(raw, name).Ok? <==> SafeName(raw)
    ensures TaskSegment(raw, name).Ok? ==> TaskSegment(raw, name).value == Strip(raw)
  {
  }

  lemma JoinTwo(a: string, b: string, sep: char)
    ensures Join([a, b], sep) == a + [sep] + b
  {
    assert [a, b][1..] == [b];
  }

  lemma JoinThree(a: string, b: string, c: string, sep: char)
    ensures Join([a, b, c], sep) == a + [sep] + b + [sep] + c
  {
    assert [a, b, c][1..] == [b, c];
    JoinTwo(b, c, sep);
  }

  lemma JoinFour(a: string, b: string, c: string, d: string, sep: char)
    ensures Join([a, b, c, d], sep) == a + [sep] + b + [sep] + c + [sep] + d
  {
    assert [a, b, c, d][1..] == [b, c, d];
    JoinThree(b, c, d, sep);
  }

  predicate SafeFields(f: LedgerFields) {
    && SafeField(f.company) && SafeField(f.repository) && SafeField(f.plan) && SafeField(f.task)
    && SafeField(f.workstream) && SafeField(f.runId)
  }

  /** A list of texts is accepted exactly when each of them is. */
  lemma {:induction false} SanitizedIff(raws: seq<(string, string)>, f: (string, string) -> Result<string>)
    ensures Sanitized(raws, f).Ok? <==> forall i :: 0 <= i < |raws| ==> f(raws[i].0, raws[i].1).Ok?
  {
    if raws != [] {
      var rest := raws[1..];
      SanitizedIff(rest, f);
      assert raws == [raws[0]] + rest;
      assert (forall i :: 0 <= i < |raws| ==> f(raws[i].0, raws[i].1).Ok?) ==>
             forall i :: 0 <= i < |rest| ==> f(rest[i].0, rest[i].1).Ok?;
    }
  }

  lemma LedgerAccepted(f: LedgerFields)
    ensures LedgerKey(f).Ok? <==> SafeFields(f)
  {
    var pk, sk := LedgerPkParts(f), LedgerSkParts(f);
    SanitizedIff(pk, LedgerSegment);
    SanitizedIff(sk, LedgerSegment);
    assert pk[0].0 == f.company && pk[1].0 == f.repository;
    assert sk[0].0 == f.plan && sk[1].0 == f.task && sk[2].0 == f.workstream && sk[3].0 == f.runId;
    forall raw, name ensures LedgerSegment(raw, name).Ok? <==> SafeField(raw) {
      LedgerSegmentReads(raw, name);
    }
  }

  /** Ledger rows lie at `company#repository#run_ledger` and `plan#task#workstream#run`, accepted exactly when every
      field is safe. */
  lemma LedgerKeyReads(f: LedgerFields)
    ensures LedgerKey(f).Ok? <==> SafeFields(f)
    ensures LedgerKey(f).Ok? ==>
              && LedgerKey(f).value.0 == Strip(f.company) + "#" + Strip(f.repository) + "#" + "run_ledger"
              && LedgerKey(f).value.1 ==
                 Strip(f.plan) + "#" + Strip(f.task) + "#" + Strip(f.workstream) + "#" + Strip(f.runId)
  {
    LedgerAccepted(f);
    if LedgerKey(f).Ok? {
      LedgerKeyParts(f);
      var a, b := LedgerPkParts(f), LedgerSkParts(f);
      TrimmedAt(a);
      TrimmedAt(b);
      assert Trimmed(a) + [RUN_LEDGER] == [Strip(f.company), Strip(f.repository), RUN_LEDGER];
      assert Trimmed(b) == [Strip(f.plan), Strip(f.task), Strip(f.workstream), Strip(f.runId)];
      JoinThree(Strip(f.company), Strip(f.repository), RUN_LEDGER, '#');
      JoinFour(Strip(f.plan), Strip(f.task), Strip(f.workstream), Strip(f.runId), '#');
    }
  }

  lemma {:induction false} TrimmedAt(raws: seq<(string, string)>)
    ensures forall i :: 0 <= i < |raws| ==> Trimmed(raws)[i] == Strip(raws[i].0)
  {
    if raws != [] {
      TrimmedAt(raws[1..]);
      forall i | 1 <= i < |raws| ensures Trimmed(raws)[i] == Strip(raws[i].0) {
        assert raws[i] == raws[1..][i - 1] && Trimmed(raws)[i] == Trimmed(raws[1..])[i - 1];
      }
    }
  }

  /** Task events lie at `company#tasks` and `ref#evt#id`, and a task's rows share the prefix `ref#evt#`. */
  lemma TaskKeyReads(company: string, ref: string, id: string)
    ensures TaskKey(company, ref, id).Ok? <==> SafeName(company) && SafeName(ref) && SafeName(id)
    ensures TaskKey(company, ref, id).Ok? ==>
              && TaskKey(company, ref, id).value.0 == Strip(company) + "#" + "tasks"
              && TaskKey(company, ref, id).value.1 == Strip(ref) + "#" + "evt" + "#" + Strip(id)
    ensures TaskPrefix(ref).Ok? <==> SafeName(ref)
    ensures TaskPrefix(ref).Ok? ==> TaskPrefix(ref).value == Strip(ref) + "#" + "evt" + "#"
  {
    TaskSegmentReads(company, "company_id");
    TaskSegmentReads(ref, "task_ref");
    TaskSegmentReads(id, "event_id");
    JoinTwo(Strip(company), TASKS, '#');
    JoinThree(Strip(ref), EVT, Strip(id), '#');
  }

  // ---- Archive keys -------------------------------------------------------------------------

  /** Not blank, without path separators, and no step up the tree. */
  predicate SafeStep(raw: string) {
    var s := Strip(raw);
    s != "" && '/' !in s && '\\' !in s && NoTraversal(raw)
  }

  lemma ArchiveSegmentReads(raw: string, name: string)
    ensures ArchiveSegment(raw, name).Ok? <==> SafeStep(raw)
    ensures ArchiveSegment(raw, name).Ok? ==> ArchiveSegment(raw, name).value == Strip(raw)
  {
  }

  /** The digest in lower case is 64 hexadecimal digits. */
  predicate HexDigest(raw: string) {
    var d := Lower(Strip(raw));
    |d| == 64 && forall i :: 0 <= i < 64 ==> '0' <= d[i] <= '9' || 'a' <= d[i] <= 'f'
  }

  lemma HexDigestReads(raw: string)
    ensures NormalizeDigest(raw).Ok? <==> HexDigest(raw)
    ensures NormalizeDigest(raw).Ok? ==> NormalizeDigest(raw).value == Lower(Strip(raw))
  {
  }

  /** The trimmed pieces that are not blank, in order. */
  function Named(pieces: seq<string>): seq<string> {
    if pieces == [] then []
    else
      var last := Strip(pieces[|pieces| - 1]);
      Named(pieces[..|pieces| - 1]) + if last == "" then [] else [last]
  }

  ghost predicate SafePieces(pieces: seq<string>) {
    forall i :: 0 <= i < |pieces| ==> Strip(pieces[i]) == "" || SafeStep(pieces[i])
  }

  lemma {:induction false} PartsRead(pieces: seq<string>)
    ensures PrefixParts(pieces).Ok? <==> SafePieces(pieces)
    ensures PrefixParts(pieces).Ok? ==> PrefixParts(pieces).value == Named(pieces)
  {
    if pieces != [] {
      var front, last := pieces[..|pieces| - 1], pieces[|pieces| - 1];
      PartsRead(front);
      StripIdempotent(last);
      ArchiveSegmentReads(Strip(last), PREFIX_SEGMENT);
      assert pieces == front + [last];
      assert SafePieces(pieces) <==> SafePieces(front) && (Strip(last) == "" || SafeStep(last));
    }
  }

  // ---- Trimming the prefix leaves its pieces' meaning -----------------------------------------

  /** Fronts that mean the same still do with one more piece. */
  lemma OneMorePiece(a: seq<string>, b: seq<string>, last: string)
    requires PrefixParts(a) == PrefixParts(b)
    ensures PrefixParts(a + [last]) == PrefixParts(b + [last])
  {
    assert (a + [last])[..|a|] == a && (b + [last])[..|b|] == b;
  }

  lemma {:induction false} HeadTrimmed(p: string, q: string, rest: seq<string>)
    requires Strip(p) == Strip(q)
    ensures PrefixParts([p] + rest) == PrefixParts([q] + rest)
  {
    if rest == [] {
      assert [p] + rest == [p] && [q] + rest == [q] && [p][..0] == [] && [q][..0] == [];
    } else {
      var front, last := rest[..|rest| - 1], rest[|rest| - 1];
      HeadTrimmed(p, q, front);
      OneMorePiece([p] + front, [q] + front, last);
      assert [p] + rest == [p] + front + [last] && [q] + rest == [q] + front + [last];
    }
  }

  lemma {:induction false} BlankHead(p: string, rest: seq<string>)
    requires Strip(p) == ""
    ensures PrefixParts([p] + rest) == PrefixParts(rest)
  {
    if rest == [] {
      assert [p] + rest == [p] && [p][..0] == [];
    } else {
      var front, last := rest[..|rest| - 1], rest[|rest| - 1];
      BlankHead(p, front);
      OneMorePiece([p] + front, front, last);
      assert [p] + rest == [p] + front + [last] && rest == front + [last];
    }
  }

  lemma DropFirst(s: string)
    requires s != "" && (IsSpace(s[0]) || s[0] == '/')
    ensures PrefixParts(Split(s, '/')) == PrefixParts(Split(s[1..], '/'))
  {
    var rest := Split(s[1..], '/');
    if s[0] == '/' {
      BlankHead([], rest);
    } else {
      assert ([s[0]] + rest[0])[1..] == rest[0];
      HeadTrimmed([s[0]] + rest[0], rest[0], rest[1..]);
      assert [rest[0]] + rest[1..] == rest;
    }
  }

  /** The parts with one more character at the end. */
  function Extended(parts: seq<string>, c: char): seq<string>
    requires parts != []
  {
    if c == '/' then parts + [[]] else parts[..|parts| - 1] + [parts[|parts| - 1] + [c]]
  }

  lemma SplitChar(c: char)
    ensures Split([c], '/') == Extended([[]], c)
  {
    var none: string := [];
    assert [c][1..] == none && Split(none, '/') == [none];
    assert [c] + none == [c] && none + [c] == [c];
    assert [[c]] + [none][1..] == [[c]] && [none][..0] + [[c]] == [[c]];
  }

  /** Splitting a text from its first character. */
  lemma SplitCons(first: char, t: string)
    ensures Split([first] + t, '/') ==
            if first == '/' then [[]] + Split(t, '/') else [[first] + Split(t, '/')[0]] + Split(t, '/')[1..]
  {
    assert ([first] + t)[1..] == t;
  }

  lemma {:induction false} SplitSnoc(t: string, c: char)
    ensures Split(t + [c], '/') == Extended(Split(t, '/'), c)
  {
    if t == "" {
      assert t + [c] == [c];
      SplitChar(c);
    } else {
      var first, rest := t[0], t[1..];
      SplitSnoc(rest, c);
      SplitCons(first, rest);
      SplitCons(first, rest + [c]);
      assert t == [first] + rest && t + [c] == [first] + (rest + [c]);
      ExtendedTail(first, Split(rest, '/'), c);
    }
  }

  lemma ExtendedTail(first: char, rest: seq<string>, c: char)
    requires rest != []
    ensures Extended([[]] + rest, c) == [[]] + Extended(rest, c)
    ensures Extended([[first] + rest[0]] + rest[1..], c)
         == [[first] + Extended(rest, c)[0]] + Extended(rest, c)[1..]
  {
    if c != '/' && |rest| == 1 {
      assert [first] + (rest[0] + [c]) == [first] + rest[0] + [c];
    }
  }

  lemma {:induction false} SpaceAfter(x: string, c: char)
    requires IsSpace(c)
    ensures StripLeft(x + [c]) == if StripLeft(x) == "" then "" else StripLeft(x) + [c]
  {
    if x == "" {
      assert x + [c] == [c] && [c][1..] == "";
    } else if IsSpace(x[0]) {
      assert (x + [c])[1..] == x[1..] + [c];
      SpaceAfter(x[1..], c);
    }
  }

  lemma StripDropsSpace(x: string, c: char)
    requires IsSpace(c)
    ensures Strip(x + [c]) == Strip(x)
  {
    SpaceAfter(x, c);
    var l := StripLeft(x);
    assert (l + [c])[..|l|] == l;
  }

  /** A blank last piece counts for nothing, and of the others only the trimmed text counts. */
  lemma LastTrimmed(front: seq<string>, p: string, q: string)
    ensures Strip(p) == Strip(q) ==> PrefixParts(front + [p]) == PrefixParts(front + [q])
    ensures Strip(p) == "" ==> PrefixParts(front + [p]) == PrefixParts(front)
  {
    assert (front + [p])[..|front|] == front && (front + [q])[..|front|] == front;
  }

  lemma DropSnoc(t: string, c: char)
    requires IsSpace(c) || c == '/'
    ensures PrefixParts(Split(t + [c], '/')) == PrefixParts(Split(t, '/'))
  {
    var parts := Split(t, '/');
    SplitSnoc(t, c);
    LastExtended(parts, c);
  }

  lemma DropLast(s: string, t: string, c: char)
    requires s == t + [c] && (IsSpace(c) || c == '/')
    ensures PrefixParts(Split(s, '/')) == PrefixParts(Split(t, '/'))
  {
    DropSnoc(t, c);
  }

  lemma LastExtended(parts: seq<string>, c: char)
    requires parts != [] && (IsSpace(c) || c == '/')
    ensures PrefixParts(Extended(parts, c)) == PrefixParts(parts)
  {
    var front, last := parts[..|parts| - 1], parts[|parts| - 1];
    assert parts == front + [last];
    if c == '/' {
      LastTrimmed(parts, [], []);
    } else {
      StripDropsSpace(last, c);
      LastTrimmed(front, last + [c], last);
    }
  }

  lemma {:induction false} TrimLeft(s: string)
    ensures PrefixParts(Split(StripLeft(s), '/')) == PrefixParts(Split(s, '/'))
    ensures PrefixParts(Split(StripSlashesLeft(s), '/')) == PrefixParts(Split(s, '/'))
    decreases |s|
  {
    if s != "" && (IsSpace(s[0]) || s[0] == '/') {
      TrimLeft(s[1..]);
      DropFirst(s);
    }
  }

  lemma {:induction false} TrimSpaces(s: string)
    ensures PrefixParts(Split(StripRight(s), '/')) == PrefixParts(Split(s, '/'))
  {
    if s != "" && IsSpace(s[|s| - 1]) {
      var t, c := s[..|s| - 1], s[|s| - 1];
      assert s == t + [c];
      TrimSpaces(t);
      DropLast(s, t, c);
    }
  }

  lemma {:induction false} TrimSlashes(s: string)
    ensures PrefixParts(Split(StripSlashesRight(s), '/')) == PrefixParts(Split(s, '/'))
  {
    if s != "" && s[|s| - 1] == '/' {
      var t, c := s[..|s| - 1], s[|s| - 1];
      assert s == t + [c];
      TrimSlashes(t);
      DropLast(s, t, c);
    }
  }

  /** Trimming a prefix first changes nothing about what its pieces come to. */
  lemma PrefixIsItsParts(prefix: string)
    ensures var parts := PrefixParts(Split(prefix, '/'));
            NormalizedPrefix(prefix) == if parts.Err? then Err(parts.error) else Ok(Join(parts.value, '/'))
  {
    TrimLeft(prefix);
    TrimSpaces(StripLeft(prefix));
    TrimLeft(Strip(prefix));
    TrimSlashes(StripSlashesLeft(Strip(prefix)));
    var p := StripSlashes(Strip(prefix));
    assert p == "" ==> PrefixParts(Split(p, '/')) == Ok([]) by {
      if p == "" { BlankHead([], []); assert [[]] + [] == Split(p, '/'); }
    }
  }

  /** A prefix is accepted exactly when its pieces between slashes are safe or blank, and is then the trimmed pieces
      that are not blank, joined again. */
  lemma PrefixReads(prefix: string)
    ensures NormalizedPrefix(prefix).Ok? <==> SafePieces(Split(prefix, '/'))
    ensures NormalizedPrefix(prefix).Ok? ==> NormalizedPrefix(prefix).value == Join(Named(Split(prefix, '/')), '/')
  {
    PrefixIsItsParts(prefix);
    PartsRead(Split(prefix, '/'));
  }

  // ---- Object keys ----------------------------------------------------------------------------

  predicate SafeScope(f: ArchiveFields) {
    && SafeStep(f.company) && SafeStep(f.repository) && SafeStep(f.plan) && SafeStep(f.task)
    && SafeStep(f.workstream) && SafeStep(f.handoff) && SafeStep(f.phase) && SafeStep(f.kind)
    && (Strip(f.subtype) == "" || SafeStep(f.subtype))
  }

  predicate SafeArchiveFields(f: ArchiveFields) {
    SafeScope(f) && HexDigest(f.digest)
  }

  lemma ArchiveAccepted(prefix: string, f: ArchiveFields)
    ensures ArchiveKey(prefix, f).Ok? <==> NormalizedPrefix(prefix).Ok? && SafeArchiveFields(f)
  {
    HexDigestReads(f.digest);
    ScopeAccepted(f);
  }

  lemma ScopeAccepted(f: ArchiveFields)
    ensures Sanitized(ScopeParts(f) + SubtypeParts(f), ArchiveSegment).Ok? <==> SafeScope(f)
  {
    var scope, sub := ScopeParts(f), SubtypeParts(f);
    var parts := scope + sub;
    SanitizedIff(parts, ArchiveSegment);
    forall raw, name ensures ArchiveSegment(raw, name).Ok? <==> SafeStep(raw) {
      ArchiveSegmentReads(raw, name);
    }
    assert parts[0].0 == f.company && parts[1].0 == f.repository && parts[2].0 == f.plan && parts[3].0 == f.task;
    assert parts[4].0 == f.workstream && parts[5].0 == f.handoff && parts[6].0 == f.phase && parts[7].0 == f.kind;
    assert sub != [] ==> parts[8].0 == f.subtype;
    assert |parts| == 8 + |sub| && |sub| <= 1;
  }

  /** The steps of a path, each after a slash. */
  function Path(steps: seq<string>): string {
    if steps == [] then "" else "/" + steps[0] + Path(steps[1..])
  }

  lemma {:induction false} JoinPath(first: string, steps: seq<string>)
    ensures Join([first] + steps, '/') == first + Path(steps)
    decreases |steps|
  {
    assert ([first] + steps)[1..] == steps;
    if steps != [] {
      JoinPath(steps[0], steps[1..]);
      assert [steps[0]] + steps[1..] == steps;
    }
  }

  /** The trimmed fields in order, the subtype if there is one, and the digest in lower case. */
  function Steps(f: ArchiveFields): seq<string> {
    [Strip(f.company), Strip(f.repository), Strip(f.plan), Strip(f.task), Strip(f.workstream), Strip(f.handoff),
     Strip(f.phase), Strip(f.kind)]
    + (if Strip(f.subtype) == "" then [] else [Strip(f.subtype)]) + [Lower(Strip(f.digest))]
  }

  lemma EightTrimmed(raws: seq<(string, string)>)
    requires |raws| == 8
    ensures Trimmed(raws) == [Strip(raws[0].0), Strip(raws[1].0), Strip(raws[2].0), Strip(raws[3].0),
                              Strip(raws[4].0), Strip(raws[5].0), Strip(raws[6].0), Strip(raws[7].0)]
  {
    TrimmedAt(raws);
  }

  lemma ScopeTrimmed(f: ArchiveFields)
    ensures Trimmed(ScopeParts(f)) == [Strip(f.company), Strip(f.repository), Strip(f.plan), Strip(f.task),
                                       Strip(f.workstream), Strip(f.handoff), Strip(f.phase), Strip(f.kind)]
  {
    EightTrimmed(ScopeParts(f));
  }

  lemma SubtypeTrimmed(f: ArchiveFields)
    ensures Trimmed(SubtypeParts(f)) == if Strip(f.subtype) == "" then [] else [Strip(f.subtype)]
  {
    TrimmedAt(SubtypeParts(f));
  }

  lemma StepsRead(f: ArchiveFields)
    requires NormalizeDigest(f.digest).Ok?
    ensures KeyParts(f) == [V1] + Steps(f)
  {
    var scope, sub, digest := Trimmed(ScopeParts(f)), Trimmed(SubtypeParts(f)), [NormalizeDigest(f.digest).value];
    HexDigestReads(f.digest);
    ScopeTrimmed(f);
    SubtypeTrimmed(f);
    TrimmedConcat(ScopeParts(f), SubtypeParts(f));
    assert Steps(f) == scope + sub + digest;
    assert [V1] + (scope + sub) + digest == [V1] + (scope + sub + digest);
  }

  /** An object lies at its prefix, `v1` and the steps of its fields; it is accepted exactly when prefix, fields and
      digest are safe. */
  lemma ArchiveKeyReads(prefix: string, f: ArchiveFields)
    ensures ArchiveKey(prefix, f).Ok? <==> SafePieces(Split(prefix, '/')) && SafeArchiveFields(f)
    ensures ArchiveKey(prefix, f).Ok? ==>
              var start := Join(Named(Split(prefix, '/')), '/');
              ArchiveKey(prefix, f).value == (if start == "" then "" else start + "/") + ("v1" + Path(Steps(f)))
  {
    ArchiveAccepted(prefix, f);
    PrefixReads(prefix);
    if ArchiveKey(prefix, f).Ok? {
      ArchiveKeyParts(prefix, f);
      StepsRead(f);
      JoinPath(V1, Steps(f));
    }
  }

  // ---- Rejections -----------------------------------------------------------------------------

  /** Why an archive field is rejected. */
  ghost predicate Faulty(raw: string, name: string, error: KeyError) {
    var s := Strip(raw);
    error == if s == "" then Blank(name)
             else if '/' in s || '\\' in s then Separator(name)
             else if s == "." || exists i :: 0 <= i < |s| - 1 && s[i] == '.' && s[i + 1] == '.' then Traversal(name)
             else TooLong(name)
  }

  /** Why a ledger field is rejected: an archive field's reason, or a character that separates keys. */
  ghost predicate LedgerFaulty(raw: string, name: string, error: KeyError) {
    if SafeStep(raw) then error == Separator(name) else Faulty(raw, name, error)
  }

  predicate TaskFaulty(raw: string, name: string, error: KeyError) {
    error == if Strip(raw) == "" then Blank(name) else Separator(name)
  }

  lemma FaultsRead(raw: string, name: string)
    ensures ArchiveSegment(raw, name).Err? ==> Faulty(raw, name, ArchiveSegment(raw, name).error)
    ensures LedgerSegment(raw, name).Err? ==> LedgerFaulty(raw, name, LedgerSegment(raw, name).error)
    ensures TaskSegment(raw, name).Err? ==> TaskFaulty(raw, name, TaskSegment(raw, name).error)
  {
    ArchiveSegmentReads(raw, name);
  }

  /** The first text that is rejected gives the error. */
  ghost predicate FirstRejected(raws: seq<(string, string)>, f: (string, string) -> Result<string>, i: nat,
                                error: KeyError)
  {
    && i < |raws| && f(raws[i].0, raws[i].1) == Err(error)
    && forall j :: 0 <= j < i ==> f(raws[j].0, raws[j].1).Ok?
  }

  lemma {:induction false} SanitizedRejects(raws: seq<(string, string)>, f: (string, string) -> Result<string>)
      returns (i: nat)
    requires Sanitized(raws, f).Err?
    ensures FirstRejected(raws, f, i, Sanitized(raws, f).error)
  {
    if f(raws[0].0, raws[0].1).Err? {
      i := 0;
    } else {
      i := SanitizedRejects(raws[1..], f);
      i := i + 1;
    }
  }

  /** The fields of a ledger key with their names, in the order they are checked. */
  function LedgerNames(f: LedgerFields): seq<(string, string)> {
    [(f.company, "company_id"), (f.repository, "repository_id"), (f.plan, "plan_id"), (f.task, "task_id"),
     (f.workstream, "workstream_id"), (f.runId, "ledger_run_id")]
  }

  /** A rejected ledger key names its first unsafe field and what is wrong with it. */
  lemma LedgerKeyRejects(f: LedgerFields) returns (i: nat)
    requires LedgerKey(f).Err?
    ensures i < 6 && !SafeField(LedgerNames(f)[i].0) && forall j :: 0 <= j < i ==> SafeField(LedgerNames(f)[j].0)
    ensures LedgerFaulty(LedgerNames(f)[i].0, LedgerNames(f)[i].1, LedgerKey(f).error)
  {
    var pk, sk, all := LedgerPkParts(f), LedgerSkParts(f), LedgerNames(f);
    assert all == pk + sk;
    if Sanitized(pk, LedgerSegment).Err? {
      i := SanitizedRejects(pk, LedgerSegment);
    } else {
      i := SanitizedRejects(sk, LedgerSegment);
      SanitizedIff(pk, LedgerSegment);
      i := i + 2;
    }
    assert FirstRejected(all, LedgerSegment, i, LedgerKey(f).error);
    FaultsRead(all[i].0, all[i].1);
    forall j | 0 <= j <= i ensures LedgerSegment(all[j].0, all[j].1).Ok? <==> SafeField(all[j].0) {
      LedgerSegmentReads(all[j].0, all[j].1);
    }
  }

  /** A rejected task key names the first of company, ref and event id that is blank or holds a separator. */
  lemma TaskKeyRejects(company: string, ref: string, id: string)
    requires TaskKey(company, ref, id).Err?
    ensures var error := TaskKey(company, ref, id).error;
            if !SafeName(company) then TaskFaulty(company, "company_id", error)
            else if !SafeName(ref) then TaskFaulty(ref, "task_ref", error)
            else !SafeName(id) && TaskFaulty(id, "event_id", error)
    ensures TaskPrefix(ref).Err? ==> TaskFaulty(ref, "task_ref", TaskPrefix(ref).error)
  {
    TaskSegmentReads(company, "company_id");
    TaskSegmentReads(ref, "task_ref");
    TaskSegmentReads(id, "event_id");
  }

  /** The fields of an archive key with their names, in the order they are checked. */
  function ArchiveNames(f: ArchiveFields): seq<(string, string)> {
    [(f.company, "company_id"), (f.repository, "repository_id"), (f.plan, "plan_id"), (f.task, "task_id"),
     (f.workstream, "workstream_id"), (f.handoff, "handoff_id"), (f.phase, "phase"), (f.kind, "artifact_kind")]
    + if Strip(f.subtype) == "" then [] else [(f.subtype, "evidence_subtype")]
  }

  ghost predicate FirstUnsafe(raws: seq<(string, string)>, i: nat, error: KeyError) {
    && i < |raws| && !SafeStep(raws[i].0) && Faulty(raws[i].0, raws[i].1, error)
    && forall j :: 0 <= j < i ==> SafeStep(raws[j].0)
  }

  lemma ScopeRejects(raws: seq<(string, string)>) returns (i: nat)
    requires Sanitized(raws, ArchiveSegment).Err?
    ensures FirstUnsafe(raws, i, Sanitized(raws, ArchiveSegment).error)
  {
    i := SanitizedRejects(raws, ArchiveSegment);
    FaultsRead(raws[i].0, raws[i].1);
    forall j | 0 <= j <= i ensures ArchiveSegment(raws[j].0, raws[j].1).Ok? <==> SafeStep(raws[j].0) {
      ArchiveSegmentReads(raws[j].0, raws[j].1);
    }
  }

  /** A rejected archive key: a bad prefix comes first, then the digest, then the first unsafe field. */
  lemma ArchiveKeyRejects(prefix: string, f: ArchiveFields) returns (i: nat)
    requires ArchiveKey(prefix, f).Err?
    ensures !SafePieces(Split(prefix, '/')) ==> ArchiveKey(prefix, f) == NormalizedPrefix(prefix)
    ensures SafePieces(Split(prefix, '/')) && !HexDigest(f.digest) ==> ArchiveKey(prefix, f) == Err(BadDigest)
    ensures SafePieces(Split(prefix, '/')) && HexDigest(f.digest) ==>
              FirstUnsafe(ArchiveNames(f), i, ArchiveKey(prefix, f).error)
  {
    i := 0;
    PrefixReads(prefix);
    HexDigestReads(f.digest);
    assert ScopeParts(f) + SubtypeParts(f) == ArchiveNames(f);
    if Sanitized(ArchiveNames(f), ArchiveSegment).Err? {
      i := ScopeRejects(ArchiveNames(f));
    }
  }

  /** A rejected prefix names its first unsafe piece. */
  lemma {:induction false} PartsReject(pieces: seq<string>) returns (i: nat)
    requires PrefixParts(pieces).Err?
    ensures i < |pieces| && Strip(pieces[i]) != "" && !SafeStep(pieces[i]) && SafePieces(pieces[..i])
    ensures Faulty(pieces[i], "archive_prefix_segment", PrefixParts(pieces).error)
  {
    var n := |pieces| - 1;
    if PrefixParts(pieces[..n]).Err? {
      i := PartsReject(pieces[..n]);
      assert pieces[..n][..i] == pieces[..i];
    } else {
      i := n;
      PartsRead(pieces[..n]);
      StripIdempotent(pieces[n]);
      ArchiveSegmentReads(Strip(pieces[n]), PREFIX_SEGMENT);
      FaultsRead(Strip(pieces[n]), PREFIX_SEGMENT);
    }
  }

  lemma PrefixRejects(prefix: string) returns (i: nat)
    requires NormalizedPrefix(prefix).Err?
    ensures var pieces := Split(prefix, '/');
            && i < |pieces| && Strip(pieces[i]) != "" && !SafeStep(pieces[i]) && SafePieces(pieces[..i])
            && Faulty(pieces[i], "archive_prefix_segment", NormalizedPrefix(prefix).error)
  {
    PrefixReads(prefix);
    PartsRead(Split(prefix, '/'));
    PrefixIsItsParts(prefix);
    i := PartsReject(Split(prefix, '/'));
  }
}
