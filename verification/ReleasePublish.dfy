/** `canon release publish-on-pass` (src/canon_systems/release_publish.py). */
module ReleasePublish {
  import opened Text
  import opened Sorting
  import opened Delimited

  // ---- Gates ------------------------------------------------------------------------

  /** `str.upper` on the characters whose upper case can be part of "PASS" or is an ASCII letter. */
  function UpperChar(c: char): string {
    if 'a' <= c <= 'z' then [((c as int) - 32) as char]
    else if c == '\U{17F}' then "S"
    else if c == '\U{DF}' then "SS"
    else [c]
  }

  function Upper(s: string): string {
    if s == "" then "" else UpperChar(s[0]) + Upper(s[1..])
  }

  const GATES: seq<string> := ["qa_gate", "ci_gate", "merge_gate"]

  predicate Passes(status: map<string, string>, gate: string) {
    gate in status && Upper(status[gate]) == "PASS"
  }

  predicate AllPass(status: map<string, string>) {
    Passes(status, "qa_gate") && Passes(status, "ci_gate") && Passes(status, "merge_gate")
  }

  /** `_should_publish`: the gates in order, the first one that does not pass decides. */
  method ShouldPublish(status: map<string, string>) returns (failing: Option<string>)
    ensures failing.None? <==> AllPass(status)
    ensures failing.Some? ==> exists i :: 0 <= i < 3 && GATES[i] == failing.value && !Passes(status, GATES[i])
                                && forall j :: 0 <= j < i ==> Passes(status, GATES[j])
  {
    for i := 0 to 3
      invariant forall j :: 0 <= j < i ==> Passes(status, GATES[j])
    {
      var val := if GATES[i] in status then Upper(status[GATES[i]]) else "";
      if val != "PASS" {
        return Some(GATES[i]);
      }
    }
    assert Passes(status, GATES[0]) && Passes(status, GATES[1]) && Passes(status, GATES[2]);
    failing := None;
  }

  // ---- Retries ----------------------------------------------------------------------------

  function Clamp(n: int, lo: int, hi: int): (r: int)
    requires lo <= hi
    ensures lo <= r <= hi
    ensures lo <= n <= hi ==> r == n
  {
    var capped := if n < hi then n else hi;
    if capped > lo then capped else lo
  }

  function Power2(k: nat): nat {
    if k == 0 then 1 else 2 * Power2(k - 1)
  }

  /** The pause after the k-th failed run. */
  function Delay(base: real, cap: real, k: nat): real
    requires k >= 1
  {
    var d := base * Power2(k - 1) as real;
    if d < cap then d else cap
  }

  /** Pauses never shrink from one retry to the next and never exceed the cap. */
  lemma DelaysGrowToCap(base: real, cap: real, k: nat)
    requires k >= 1 && base >= 0.0
    ensures Delay(base, cap, k) <= Delay(base, cap, k + 1) <= cap
  {
    assert base * Power2(k) as real == 2.0 * (base * Power2(k - 1) as real);
  }

  /** The first pause is the base, and each next one twice the one before, all within the cap. */
  lemma DelayReads(base: real, cap: real, k: nat)
    requires k >= 1 && base >= 0.0 && cap >= 0.0
    ensures Delay(base, cap, 1) == if base < cap then base else cap
    ensures Delay(base, cap, k + 1) == if 2.0 * Delay(base, cap, k) < cap then 2.0 * Delay(base, cap, k) else cap
  {
    assert Power2(0) == 1;
    assert base * Power2(k) as real == 2.0 * (base * Power2(k - 1) as real);
  }

  /** The run that decides: the first to exit 0, else the last of `n`. */
  ghost predicate Decides(codes: nat -> int, n: nat, last: nat) {
    && 1 <= last <= n
    && (forall k: nat {:trigger codes(k)} :: 1 <= k < last ==> codes(k) != 0)
    && (codes(last) == 0 || last == n)
  }

  lemma DecisionUnique(codes: nat -> int, n: nat, a: nat, b: nat)
    requires Decides(codes, n, a) && Decides(codes, n, b)
    ensures a == b
  {
    assert a < b ==> codes(a) != 0;
    assert b < a ==> codes(b) != 0;
  }

  function DecidingRun(codes: nat -> int, n: nat, k: nat): nat
    requires 1 <= k <= n
    decreases n - k
  {
    if codes(k) == 0 || k == n then k else DecidingRun(codes, n, k + 1)
  }

  /** `_invoke_publish`: `codes(k)` is the exit code of the k-th subprocess; `runs` counts the subprocesses. */
  method InvokePublish(codes: nat -> int, retries: int, base: real, cap: real)
    returns (code: int, sleeps: seq<real>, runs: nat)
    ensures Decides(codes, Clamp(retries, 1, 10), runs) && code == codes(runs)
    ensures |sleeps| == runs - 1 && forall k :: 1 <= k < runs ==> sleeps[k - 1] == Delay(base, cap, k)
  {
    var limit := Clamp(retries, 1, 10);
    sleeps, runs := [], 0;
    for attempt := 1 to limit + 1
      invariant runs == attempt - 1 == |sleeps|
      invariant forall k: nat {:trigger codes(k)} :: 1 <= k < attempt ==> codes(k) != 0
      invariant forall k :: 1 <= k < attempt ==> sleeps[k - 1] == Delay(base, cap, k)
      invariant attempt <= limit
    {
      runs := runs + 1;
      code := codes(attempt);
      if code == 0 {
        return;
      }
      if attempt == limit {
        return;
      }
      sleeps := sleeps + [Delay(base, cap, attempt)];
    }
    assert false;
  }

  // ---- The sentinel -------------------------------------------------------------------------

  predicate IsSafe(c: char) {
    'a' <= c <= 'z' || 'A' <= c <= 'Z' || '0' <= c <= '9' || c == '.' || c == '_' || c == '-'
  }

  /** Every run of unsafe characters becomes one underscore. */
  function SafeRelease(id: string): string {
    if id == "" then ""
    else if IsSafe(id[0]) then [id[0]] + SafeRelease(id[1..])
    else if |id| > 1 && !IsSafe(id[1]) then SafeRelease(id[1..])
    else "_" + SafeRelease(id[1..])
  }

  lemma {:induction false} SafeNameStays(id: string)
    requires forall i :: 0 <= i < |id| ==> IsSafe(id[i])
    ensures SafeRelease(id) == id
  {
    if id != "" {
      SafeNameStays(id[1..]);
      assert [id[0]] + id[1..] == id;
    }
  }

  /** The components of an absolute path. */
  type Sentinel = seq<string>

  /** `stateDir` is the resolved state directory of the invocation. */
  datatype Invocation = Invocation(
    status: map<string, string>, configured: bool, stateDir: seq<string>, plan: string, release: string, dryRun: bool,
    retries: int, base: real, cap: real, codes: nat -> int)

  predicate Counts(piece: string) {
    piece != "" && piece != "."
  }

  /** The components of a path as text: empty and `.` pieces drop out. */
  function Pieces(path: string): seq<string> {
    Filter(Split(path, '/'), Counts)
  }

  /** `state_dir / plan_id`: an absolute plan id replaces the state directory. */
  function PlanDir(inv: Invocation): seq<string> {
    if inv.plan != "" && inv.plan[0] == '/' then Pieces(inv.plan) else inv.stateDir + Pieces(inv.plan)
  }

  function FileName(release: string): string {
    SafeRelease(release) + ".json"
  }

  /** `_sentinel_path`. */
  function SentinelOf(inv: Invocation): Sentinel {
    PlanDir(inv) + [FileName(inv.release)]
  }

  // ---- The sentinel path, piece by piece --------------------------------------------------

  predicate SafeChar(c: char) {
    ('a' <= c && c <= 'z') || ('A' <= c && c <= 'Z') || ('0' <= c && c <= '9') || c == '.' || c == '_' || c == '-'
  }

  /** A release's safe form keeps its safe characters and has one underscore for each run of others. */
  lemma {:induction false} SafeFormReads(run: string, c: char, rest: string)
    requires run != "" && forall i :: 0 <= i < |run| ==> !SafeChar(run[i])
    requires SafeChar(c)
    ensures SafeRelease("") == ""
    ensures SafeRelease([c] + rest) == [c] + SafeRelease(rest)
    ensures SafeRelease(run) == "_"
    ensures SafeRelease(run + [c] + rest) == "_" + SafeRelease([c] + rest)
  {
    assert ([c] + rest)[1..] == rest;
    var all, tail := run + [c] + rest, run[1..];
    assert all[1..] == tail + [c] + rest;
    if tail == [] {
      assert tail + [c] + rest == [c] + rest;
    } else {
      SafeFormReads(tail, c, rest);
    }
  }

  /** The pieces of a path that are neither empty nor a dot, in order. */
  function Steps(pieces: seq<string>): seq<string> {
    if pieces == [] then []
    else if pieces[0] == "" || pieces[0] == "." then Steps(pieces[1..])
    else [pieces[0]] + Steps(pieces[1..])
  }

  lemma {:induction false} StepsRead(pieces: seq<string>)
    ensures Filter(pieces, Counts) == Steps(pieces)
  {
    if pieces != [] {
      StepsRead(pieces[1..]);
    }
  }

  /** The sentinel lies in the directory the plan id names, below the state directory unless the id is absolute. */
  lemma SentinelReads(inv: Invocation)
    ensures SentinelOf(inv) == (if inv.plan != "" && inv.plan[0] == '/' then [] else inv.stateDir)
                               + Steps(Split(inv.plan, '/')) + [SafeRelease(inv.release) + ".json"]
  {
    StepsRead(Split(inv.plan, '/'));
  }

  /** Two invocations share a sentinel exactly when their plan ids name one directory and their releases one file. */
  lemma SameSentinelIff(a: Invocation, b: Invocation)
    ensures SentinelOf(a) == SentinelOf(b) <==>
            PlanDir(a) == PlanDir(b) && SafeRelease(a.release) == SafeRelease(b.release)
  {
    var x, y := SentinelOf(a), SentinelOf(b);
    if x == y {
      assert PlanDir(a) == x[..|x| - 1] == y[..|y| - 1] == PlanDir(b);
      var f, g := FileName(a.release), FileName(b.release);
      assert f == x[|x| - 1] == y[|y| - 1] == g;
      assert SafeRelease(a.release) == f[..|f| - 5] == g[..|g| - 5] == SafeRelease(b.release);
    }
  }

  datatype Report =
    | NotPassing
    | MissingConfig
    | AlreadyPublished
    | PublishFailed(code: int, failedAttempts: nat)
    | Published(attempts: nat)

  /** What one invocation reports when `marks` are the sentinels present. */
  function ReportOf(marks: set<Sentinel>, inv: Invocation): Report {
    if !AllPass(inv.status) then NotPassing
    else if !inv.configured then MissingConfig
    else if SentinelOf(inv) in marks then AlreadyPublished
    else
      var last := DecidingRun(inv.codes, Clamp(inv.retries, 1, 10), 1);
      if inv.codes(last) == 0 then Published(last) else PublishFailed(inv.codes(last), Clamp(inv.retries, 1, 10))
  }

  predicate Marks(inv: Invocation, r: Report) {
    r.Published? && !inv.dryRun
  }

  function MarksAfter(marks: set<Sentinel>, inv: Invocation): set<Sentinel> {
    if Marks(inv, ReportOf(marks, inv)) then marks + {SentinelOf(inv)} else marks
  }

  lemma {:induction false} DecidingRunDecides(codes: nat -> int, n: nat, k: nat)
    requires 1 <= k <= n && forall j: nat {:trigger codes(j)} :: 1 <= j < k ==> codes(j) != 0
    ensures Decides(codes, n, DecidingRun(codes, n, k))
    decreases n - k
  {
    if codes(k) != 0 && k < n {
      DecidingRunDecides(codes, n, k + 1);
    }
  }

  // ---- What a report means ----------------------------------------------------------------------

  predicate OneOf(c: char, lower: char, upper: char) {
    c == lower || c == upper
  }

  /** The text is "pass" in any case, a long or a sharp s among its letters included. */
  predicate SaysPass(s: string) {
    && |s| >= 3 && OneOf(s[0], 'p', 'P') && OneOf(s[1], 'a', 'A')
    && ((|s| == 3 && s[2] == '\U{DF}') ||
        (|s| == 4 && (OneOf(s[2], 's', 'S') || s[2] == '\U{17F}') && (OneOf(s[3], 's', 'S') || s[3] == '\U{17F}')))
  }

  lemma UpperFirst(s: string, c: char, rest: string)
    requires s != "" && Upper(s) == [c] + rest && s[0] != '\U{DF}'
    ensures UpperChar(s[0]) == [c] && Upper(s[1..]) == rest
  {
    assert |UpperChar(s[0])| == 1 && Upper(s)[0] == UpperChar(s[0])[0] && Upper(s)[1..] == Upper(s[1..]);
    assert Upper(s)[1..] == rest;
  }

  lemma PassReads(s: string)
    ensures Upper(s) == "PASS" <==> SaysPass(s)
  {
    if Upper(s) == "PASS" {
      assert "PASS" == ['P'] + "ASS" && "ASS" == ['A'] + "SS" && "SS" == ['S'] + "S" && "S" == ['S'] + "";
      assert s[0] != '\U{DF}' by { assert Upper(s)[0] == 'P'; }
      UpperFirst(s, 'P', "ASS");
      assert s[1..][0] != '\U{DF}' by { assert Upper(s[1..])[0] == 'A'; }
      UpperFirst(s[1..], 'A', "SS");
      var t := s[1..][1..];
      assert t == s[2..] && Upper(t) == "SS";
      if t[0] == '\U{DF}' {
        assert Upper(t) == "SS" + Upper(t[1..]);
        assert |Upper(t[1..])| == 0;
        NothingUpper(t[1..]);
      } else {
        UpperFirst(t, 'S', "S");
        assert t[1..][0] != '\U{DF}' by { assert |Upper(t[1..])| == 1; }
        UpperFirst(t[1..], 'S', "");
        NothingUpper(t[1..][1..]);
      }
    }
    if SaysPass(s) {
      assert Upper(s[2..]) == "SS" by { UpperTail(s[2..]); }
      assert s[1..][1..] == s[2..];
      assert Upper(s[1..]) == "A" + "SS";
      assert Upper(s) == "P" + "ASS";
    }
  }

  lemma UpperTail(t: string)
    requires (|t| == 1 && t[0] == '\U{DF}') ||
             (|t| == 2 && (OneOf(t[0], 's', 'S') || t[0] == '\U{17F}') && (OneOf(t[1], 's', 'S') || t[1] == '\U{17F}'))
    ensures Upper(t) == "SS"
  {
    if |t| == 1 {
      assert t[1..] == "" && Upper("") == "";
    } else {
      assert t[1..][1..] == "" && Upper("") == "";
      assert Upper(t[1..]) == "S";
    }
  }

  lemma NothingUpper(s: string)
    requires Upper(s) == ""
    ensures s == ""
  {
  }

  /** The three gates are given and say pass. */
  predicate GatesPass(status: map<string, string>) {
    && "qa_gate" in status && SaysPass(status["qa_gate"])
    && "ci_gate" in status && SaysPass(status["ci_gate"])
    && "merge_gate" in status && SaysPass(status["merge_gate"])
  }

  /** The runs allowed: between one and ten. */
  function Limit(retries: int): nat {
    if retries < 1 then 1 else if retries > 10 then 10 else retries
  }

  /** Run `k` is the first within the limit to exit 0. */
  ghost predicate FirstSuccess(inv: Invocation, k: nat) {
    && 1 <= k <= Limit(inv.retries) && inv.codes(k) == 0
    && forall j: nat {:trigger inv.codes(j)} :: 1 <= j < k ==> inv.codes(j) != 0
  }

  ghost predicate Succeeds(inv: Invocation) {
    exists k: nat {:trigger inv.codes(k)} :: 1 <= k <= Limit(inv.retries) && inv.codes(k) == 0
  }

  /** It gets as far as publishing. */
  predicate Tries(marks: set<Sentinel>, inv: Invocation) {
    GatesPass(inv.status) && inv.configured && SentinelOf(inv) !in marks
  }

  ghost predicate Writes(marks: set<Sentinel>, inv: Invocation) {
    Tries(marks, inv) && Succeeds(inv) && !inv.dryRun
  }

  /** What is reported: published with the first run that exits 0, or failed with the last run allowed and its code. */
  ghost predicate Reported(marks: set<Sentinel>, inv: Invocation, r: Report) {
    && (!GatesPass(inv.status) ==> r == NotPassing)
    && (GatesPass(inv.status) && !inv.configured ==> r == MissingConfig)
    && (GatesPass(inv.status) && inv.configured && SentinelOf(inv) in marks ==> r == AlreadyPublished)
    && (Tries(marks, inv) && Succeeds(inv) ==> r.Published? && FirstSuccess(inv, r.attempts))
    && (Tries(marks, inv) && !Succeeds(inv) ==>
         r == PublishFailed(inv.codes(Limit(inv.retries)), Limit(inv.retries)))
  }

  lemma GatesRead(status: map<string, string>)
    ensures AllPass(status) <==> GatesPass(status)
  {
    forall gate | gate in status ensures Upper(status[gate]) == "PASS" <==> SaysPass(status[gate]) {
      PassReads(status[gate]);
    }
  }

  lemma ReportReads(marks: set<Sentinel>, inv: Invocation)
    ensures Reported(marks, inv, ReportOf(marks, inv))
    ensures MarksAfter(marks, inv) == if Writes(marks, inv) then marks + {SentinelOf(inv)} else marks
  {
    GatesRead(inv.status);
    var limit := Limit(inv.retries);
    assert limit == Clamp(inv.retries, 1, 10);
    DecidingRunDecides(inv.codes, limit, 1);
    var last := DecidingRun(inv.codes, limit, 1);
    if inv.codes(last) == 0 {
      assert FirstSuccess(inv, last) && Succeeds(inv);
    } else {
      assert last == limit && !Succeeds(inv);
    }
  }

  class StateDir {
    var marks: set<Sentinel>

    /** `run`: gates, configuration, sentinel check, publish, sentinel write; the attempts it reports are its runs. */
    method Run(inv: Invocation) returns (report: Report, runs: nat)
      modifies this
      ensures report == ReportOf(old(marks), inv) && marks == MarksAfter(old(marks), inv)
      ensures Reported(old(marks), inv, report)
      ensures marks == if Writes(old(marks), inv) then old(marks) + {SentinelOf(inv)} else old(marks)
      ensures report.Published? ==> runs == report.attempts
      ensures report.PublishFailed? ==> runs == report.failedAttempts
      ensures !report.Published? && !report.PublishFailed? ==> runs == 0
    {
      ReportReads(marks, inv);
      runs := 0;
      var failing := ShouldPublish(inv.status);
      if failing.Some? {
        return NotPassing, 0;
      }
      if !inv.configured {
        return MissingConfig, 0;
      }
      if SentinelOf(inv) in marks {
        return AlreadyPublished, 0;
      }
      var retries := Clamp(inv.retries, 1, 10);
      var code, sleeps;
      code, sleeps, runs := InvokePublish(inv.codes, retries, inv.base, inv.cap);
      DecidingRunDecides(inv.codes, retries, 1);
      DecisionUnique(inv.codes, retries, runs, DecidingRun(inv.codes, retries, 1));
      var attempts := if code == 0 then |sleeps| + 1 else retries;
      if code != 0 {
        return PublishFailed(code, attempts), runs;
      }
      if !inv.dryRun {
        marks := marks + {SentinelOf(inv)};
      }
      report := Published(attempts);
    }
  }

  // ---- Sequences of invocations -----------------------------------------------------------------

  /** The sentinels after sequential invocations. */
  function MarksAfterAll(marks: set<Sentinel>, invs: seq<Invocation>): set<Sentinel> {
    if invs == [] then marks else MarksAfter(MarksAfterAll(marks, invs[..|invs| - 1]), invs[|invs| - 1])
  }

  function ReportAt(marks: set<Sentinel>, invs: seq<Invocation>, i: nat): Report
    requires i < |invs|
  {
    ReportOf(MarksAfterAll(marks, invs[..i]), invs[i])
  }

  ghost predicate PublishedBefore(marks: set<Sentinel>, invs: seq<Invocation>, n: nat, s: Sentinel)
    requires n <= |invs|
  {
    s in marks || exists j :: 0 <= j < n && Wrote(marks, invs, j, s)
  }

  /** Invocation `j` is a real publish that wrote `s`. */
  ghost predicate Wrote(marks: set<Sentinel>, invs: seq<Invocation>, j: nat, s: Sentinel)
    requires j < |invs|
  {
    SentinelOf(invs[j]) == s && Marks(invs[j], ReportAt(marks, invs, j))
  }

  /** A sentinel is present exactly when it was there at the start or a real publish wrote it. */
  lemma {:induction false} MarksArePublished(marks: set<Sentinel>, invs: seq<Invocation>, n: nat, s: Sentinel)
    requires n <= |invs|
    ensures s in MarksAfterAll(marks, invs[..n]) <==> PublishedBefore(marks, invs, n, s)
  {
    if n > 0 {
      MarksArePublished(marks, invs, n - 1, s);
      assert invs[..n][..n - 1] == invs[..n - 1];
      MarksAddOne(MarksAfterAll(marks, invs[..n - 1]), invs[n - 1], s);
      if Wrote(marks, invs, n - 1, s) {
        assert PublishedBefore(marks, invs, n, s);
      }
    }
  }

  lemma MarksAddOne(marks: set<Sentinel>, inv: Invocation, s: Sentinel)
    ensures s in MarksAfter(marks, inv) <==> s in marks || (SentinelOf(inv) == s && Marks(inv, ReportOf(marks, inv)))
  {
  }

  /** A passing, configured invocation is skipped exactly when its sentinel's release was published before. */
  lemma SkippedIffPublishedBefore(marks: set<Sentinel>, invs: seq<Invocation>, i: nat)
    requires i < |invs| && AllPass(invs[i].status) && invs[i].configured
    ensures ReportAt(marks, invs, i).AlreadyPublished? <==> PublishedBefore(marks, invs, i, SentinelOf(invs[i]))
  {
    MarksArePublished(marks, invs, i, SentinelOf(invs[i]));
  }

  /** Of all invocations sharing a sentinel, at most one real publish succeeds. */
  lemma AtMostOnePublish(marks: set<Sentinel>, invs: seq<Invocation>, i: nat, j: nat)
    requires i < j < |invs| && SentinelOf(invs[i]) == SentinelOf(invs[j])
    requires Marks(invs[i], ReportAt(marks, invs, i))
    ensures !ReportAt(marks, invs, j).Published?
  {
    assert Wrote(marks, invs, i, SentinelOf(invs[j]));
    MarksArePublished(marks, invs, j, SentinelOf(invs[j]));
  }

  // ---- Which releases share a sentinel ------------------------------------------------------

  /** What `run` takes as a release id: trimmed, and never empty. */
  predicate ReleaseName(id: string) {
    id != "" && Stripped(id)
  }

  /** Every character is safe and none is the underscore that stands for unsafe ones. */
  predicate Plain(id: string) {
    forall i :: 0 <= i < |id| ==> IsSafe(id[i]) && id[i] != '_'
  }

  lemma {:induction false} SafeNameIsSafe(id: string)
    ensures forall i :: 0 <= i < |SafeRelease(id)| ==> IsSafe(SafeRelease(id)[i])
    ensures id != "" ==> SafeRelease(id) != ""
  {
    if id != "" {
      SafeNameIsSafe(id[1..]);
    }
  }

  lemma {:induction false} UnsafeLeavesUnderscore(id: string, i: nat)
    requires i < |id| && !IsSafe(id[i])
    ensures '_' in SafeRelease(id)
  {
    if i > 0 {
      UnsafeLeavesUnderscore(id[1..], i - 1);
    } else if |id| > 1 && !IsSafe(id[1]) {
      UnsafeLeavesUnderscore(id[1..], 0);
    }
  }

  /** Names without unsafe characters never share a sentinel. */
  lemma SafeNamesApart(a: string, b: string)
    requires forall i :: 0 <= i < |a| ==> IsSafe(a[i])
    requires forall i :: 0 <= i < |b| ==> IsSafe(b[i])
    requires SafeRelease(a) == SafeRelease(b)
    ensures a == b
  {
    SafeNameStays(a);
    SafeNameStays(b);
  }

  /** A plain name shares its sentinel with no other name. */
  lemma PlainIsAlone(id: string, other: string)
    requires Plain(id) && SafeRelease(other) == SafeRelease(id)
    ensures other == id
  {
    SafeNameStays(id);
    assert '_' !in id;
    forall i | 0 <= i < |other| ensures IsSafe(other[i]) {
      if !IsSafe(other[i]) {
        UnsafeLeavesUnderscore(other, i);
      }
    }
    SafeNameStays(other);
  }

  lemma {:induction false} SafePrefixStays(front: string, rest: string)
    requires forall i :: 0 <= i < |front| ==> IsSafe(front[i])
    ensures SafeRelease(front + rest) == front + SafeRelease(rest)
  {
    if front == "" {
      assert front + rest == rest;
    } else {
      SafePrefixStays(front[1..], rest);
      assert (front + rest)[1..] == front[1..] + rest;
      assert front == [front[0]] + front[1..];
    }
  }

  /** One unsafe character between safe ones becomes an underscore. */
  lemma SlashedIsLookalike(front: string, slash: char, back: string)
    requires forall i :: 0 <= i < |front| ==> IsSafe(front[i])
    requires forall i :: 0 <= i < |back| ==> IsSafe(back[i])
    requires !IsSafe(slash)
    ensures SafeRelease(front + ([slash] + back)) == front + ("_" + back)
  {
    SafePrefixStays(front, [slash] + back);
    SlashBecomesUnderscore(slash, back);
  }

  lemma NoSpaceInside(s: string)
    requires s != "" && forall i :: 0 <= i < |s| ==> IsSafe(s[i]) || s[i] == '/'
    ensures ReleaseName(s)
  {
    assert IsSafe(s[0]) || s[0] == '/';
    assert IsSafe(s[|s| - 1]) || s[|s| - 1] == '/';
  }

  lemma SafeFormIsLookalike(id: string, u: nat)
    requires u < |id| && !IsSafe(id[u])
    ensures ReleaseName(SafeRelease(id)) && SafeRelease(id) != id && SafeRelease(SafeRelease(id)) == SafeRelease(id)
  {
    SafeNameIsSafe(id);
    SafeNameStays(SafeRelease(id));
    NoSpaceInside(SafeRelease(id));
  }

  lemma SlashedNameIsLookalike(id: string, i: nat) returns (other: string)
    requires i < |id| && id[i] == '_' && forall k :: 0 <= k < |id| ==> IsSafe(id[k])
    ensures ReleaseName(other) && other != id && SafeRelease(other) == SafeRelease(id)
  {
    var slash, front, back := '/', id[..i], id[i + 1..];
    other := front + ([slash] + back);
    SlashedIsLookalike(front, slash, back);
    NoSpaceInside(other);
    SafeNameStays(id);
    assert id == front + ("_" + back);
    assert other[i] == slash;
  }

  /** Every other name has a look-alike: its own safe form, or itself with an underscore turned into a slash. */
  lemma LookalikeOf(id: string) returns (other: string)
    requires ReleaseName(id) && !Plain(id)
    ensures ReleaseName(other) && other != id && SafeRelease(other) == SafeRelease(id)
  {
    if u: nat :| u < |id| && !IsSafe(id[u]) {
      SafeFormIsLookalike(id, u);
      other := SafeRelease(id);
    } else {
      var i :| 0 <= i < |id| && id[i] == '_';
      other := SlashedNameIsLookalike(id, i);
    }
  }

  lemma SlashBecomesUnderscore(slash: char, back: string)
    requires forall i :: 0 <= i < |back| ==> IsSafe(back[i])
    requires !IsSafe(slash)
    ensures SafeRelease([slash] + back) == "_" + back
  {
    var s := [slash] + back;
    assert s[1..] == back && s[0] == slash && (|s| > 1 ==> s[1] == back[0]);
    SafeNameStays(back);
  }

  /** A release shares its sentinel with no other exactly when its name is plain. */
  lemma AloneIffPlain(id: string)
    requires ReleaseName(id)
    ensures (forall other :: ReleaseName(other) && SafeRelease(other) == SafeRelease(id) ==> other == id) <==> Plain(id)
  {
    if Plain(id) {
      forall other | ReleaseName(other) && SafeRelease(other) == SafeRelease(id) ensures other == id {
        PlainIsAlone(id, other);
      }
    } else {
      var other := LookalikeOf(id);
    }
  }

  /** A real publish of the very same release for the plan directory `dir`, before invocation `n`. */
  ghost predicate SameReleaseBefore(invs: seq<Invocation>, n: nat, dir: seq<string>, release: string)
    requires n <= |invs|
  {
    exists j :: 0 <= j < n && SameRelease(invs, j, dir, release)
  }

  ghost predicate SameRelease(invs: seq<Invocation>, j: nat, dir: seq<string>, release: string)
    requires j < |invs|
  {
    PlanDir(invs[j]) == dir && invs[j].release == release && Marks(invs[j], ReportAt({}, invs, j))
  }

  /** From a fresh state a plainly named release is skipped exactly when that same release was published before for the
      same plan directory. */
  lemma PlainReleaseSkippedIff(invs: seq<Invocation>, i: nat)
    requires i < |invs| && AllPass(invs[i].status) && invs[i].configured && Plain(invs[i].release)
    ensures ReportAt({}, invs, i).AlreadyPublished? <==>
            SameReleaseBefore(invs, i, PlanDir(invs[i]), invs[i].release)
  {
    SkippedIffPublishedBefore({}, invs, i);
    forall j | 0 <= j < i
      ensures Wrote({}, invs, j, SentinelOf(invs[i])) <==> SameRelease(invs, j, PlanDir(invs[i]), invs[i].release)
    {
      SameSentinelIff(invs[j], invs[i]);
      if SafeRelease(invs[j].release) == SafeRelease(invs[i].release) {
        PlainIsAlone(invs[i].release, invs[j].release);
      }
    }
  }

  // ---- Which plan ids name one directory ------------------------------------------------------

  /** A plan id that is one component of a path. */
  predicate PlanName(plan: string) {
    Counts(plan) && '/' !in plan
  }

  lemma PlanNamePieces(plan: string)
    requires PlanName(plan)
    ensures Pieces(plan) == [plan]
  {
    SplitOne(plan, '/');
  }

  /** Plan ids of one component name one directory only when they are the same. */
  lemma PlanNamesApart(a: Invocation, b: Invocation)
    requires PlanName(a.plan) && PlanName(b.plan) && a.stateDir == b.stateDir
    ensures PlanDir(a) == PlanDir(b) <==> a.plan == b.plan
  {
    PlanNamePieces(a.plan);
    PlanNamePieces(b.plan);
    assert a.plan[0] in a.plan && b.plan[0] in b.plan;
    var x, y := PlanDir(a), PlanDir(b);
    assert x[|x| - 1] == a.plan && y[|y| - 1] == b.plan;
  }

  /** So where all plan ids are such names, the release was published before for that very plan id. */
  lemma NamedPlanSkippedIff(invs: seq<Invocation>, i: nat)
    requires i < |invs| && AllPass(invs[i].status) && invs[i].configured && Plain(invs[i].release)
    requires forall j :: 0 <= j <= i ==> PlanName(invs[j].plan) && invs[j].stateDir == invs[i].stateDir
    ensures ReportAt({}, invs, i).AlreadyPublished? <==>
            exists j :: 0 <= j < i && invs[j].plan == invs[i].plan && invs[j].release == invs[i].release &&
                        Marks(invs[j], ReportAt({}, invs, j))
  {
    PlainReleaseSkippedIff(invs, i);
    var dir, release := PlanDir(invs[i]), invs[i].release;
    forall j | 0 <= j < i
      ensures SameRelease(invs, j, dir, release) <==>
              invs[j].plan == invs[i].plan && invs[j].release == release && Marks(invs[j], ReportAt({}, invs, j))
    {
      PlanNamesApart(invs[j], invs[i]);
    }
  }

  /** For a plainly named release of such a plan the sentinel is `<state dir>/<plan>/<release>.json`. */
  lemma PlainSentinel(inv: Invocation)
    requires PlanName(inv.plan) && Plain(inv.release)
    ensures SentinelOf(inv) == inv.stateDir + [inv.plan, inv.release + ".json"]
  {
    PlanNamePieces(inv.plan);
    SafeNameStays(inv.release);
    assert inv.plan[0] in inv.plan;
  }

  /** A trailing slash names the same directory. */
  lemma SlashedPlanPieces(plan: string)
    requires PlanName(plan)
    ensures Pieces(plan + "/") == [plan]
  {
    var parts := [plan, ""];
    assert Join(parts[1..], '/') == "";
    assert Join(parts, '/') == plan + "/";
    SplitJoin(parts, '/');
    assert parts[1..] == [""] && [""][1..] == [];
    assert Filter([""], Counts) == [];
  }

  /** Any plan id of one component has another spelling whose publish makes even a plainly named release be skipped. */
  lemma RespelledPlanIsSkipped(first: Invocation, second: Invocation)
    requires PlanName(second.plan) && first.plan == second.plan + "/"
    requires first.release == second.release && first.stateDir == second.stateDir
    requires AllPass(second.status) && second.configured
    requires AllPass(first.status) && first.configured && !first.dryRun && first.codes(1) == 0
    ensures first.plan != second.plan
    ensures var invs := [first, second]; ReportAt({}, invs, 0).Published? && ReportAt({}, invs, 1).AlreadyPublished?
  {
    SlashedPlanPieces(second.plan);
    PlanNamePieces(second.plan);
    assert second.plan[0] in second.plan && first.plan[0] == second.plan[0];
    SkippedAfter(first, second);
  }

  /** A real success makes the next invocation with its sentinel be skipped. */
  lemma SkippedAfter(first: Invocation, second: Invocation)
    requires SentinelOf(first) == SentinelOf(second) && AllPass(second.status) && second.configured
    requires AllPass(first.status) && first.configured && !first.dryRun && first.codes(1) == 0
    ensures var invs := [first, second]; ReportAt({}, invs, 0).Published? && ReportAt({}, invs, 1).AlreadyPublished?
  {
    var invs := [first, second];
    assert invs[..0] == [] && MarksAfterAll({}, invs[..0]) == {};
    assert Marks(invs[0], ReportAt({}, invs, 0));
    SkippedIffPublishedBefore({}, invs, 1);
  }

  /** Any other release has a look-alike whose publish makes it be skipped, though it was never published itself. */
  lemma LookalikeReleaseIsSkipped(first: Invocation, second: Invocation) returns (other: string)
    requires ReleaseName(second.release) && !Plain(second.release) && PlanDir(first) == PlanDir(second)
    requires AllPass(second.status) && second.configured
    requires AllPass(first.status) && first.configured && !first.dryRun && first.codes(1) == 0
    ensures ReleaseName(other) && other != second.release
    ensures var invs := [first.(release := other), second];
            ReportAt({}, invs, 0).Published? && ReportAt({}, invs, 1).AlreadyPublished?
  {
    other := LookalikeOf(second.release);
    SkippedAfter(first.(release := other), second);
  }
}
