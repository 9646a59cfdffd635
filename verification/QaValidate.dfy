/** The merge gate over a whole packet: region, parsing, evidence checks (src/canon_systems/qa_validate.py). */
module QaValidate {
  import opened Text
  import opened Sorting
  import opened Delimited
  import opened QaItem
  import opened QaGrammar
  import opened QaLaws

  // ---- Lines -------------------------------------------------------------------

  function LeadingSpaces(s: string): (n: nat)
    ensures n <= |s|
  {
    if s != "" && s[0] == ' ' then 1 + LeadingSpaces(s[1..]) else 0
  }

  function ReadLine(raw: string): Line {
    var s := Strip(raw);
    Line(LeadingSpaces(raw), s == "", "acceptance_criteria:" <= s, "- criterion" <= s, "- criterion:" <= s,
         "covering_tests:" <= s, ItemBody(raw).Some?, ParseItem(raw))
  }

  lemma KeyLinesNotBlank(raws: seq<string>)
    ensures KeysNotBlank(Map(raws, ReadLine))
  {
    var ls := Map(raws, ReadLine);
    forall i | 0 <= i < |ls| && ls[i].blank ensures !ls[i].tests && !ls[i].criterion {
      KeyLineNotBlank(raws[i]);
    }
  }

  lemma KeyLineNotBlank(raw: string)
    ensures ReadLine(raw).blank ==> !ReadLine(raw).tests && !ReadLine(raw).criterion
  {
    var s := Strip(raw);
    if "covering_tests:" <= s {
      assert |s| >= 15;
    }
    if "- criterion:" <= s {
      assert |s| >= 12;
    }
  }

  predicate StartsRegion(raw: string) {
    var s := Strip(raw);
    s == "GATE_RESULTS" || "GATE_RESULTS " <= s
  }

  function Contains(s: string, part: string): bool {
    part <= s || (s != "" && Contains(s[1..], part))
  }

  /** First index from `i` on whose line satisfies `p`. */
  function FirstFrom(raws: seq<string>, i: nat, p: string -> bool): (r: Option<nat>)
    requires i <= |raws|
    ensures r.Some? ==> i <= r.value < |raws| && p(raws[r.value])
    ensures r.Some? ==> forall k :: i <= k < r.value ==> !p(raws[k])
    ensures r.None? ==> forall k :: i <= k < |raws| ==> !p(raws[k])
    decreases |raws| - i
  {
    if i == |raws| then None else if p(raws[i]) then Some(i) else FirstFrom(raws, i + 1, p)
  }

  predicate EndsRegion(raw: string) {
    Contains(raw, "END_GATE_RESULTS")
  }

  /** `start .. end` runs from the first line that starts a region to the first line from there on that ends one. */
  predicate IsRegion(raws: seq<string>, start: nat, end: nat) {
    && start <= end < |raws|
    && StartsRegion(raws[start]) && (forall k :: 0 <= k < start ==> !StartsRegion(raws[k]))
    && EndsRegion(raws[end]) && (forall k :: start <= k < end ==> !EndsRegion(raws[k]))
  }

  /** The gate region, as first and last line index. */
  function Region(raws: seq<string>): (r: Option<(nat, nat)>)
    ensures r.Some? ==> IsRegion(raws, r.value.0, r.value.1)
    ensures r.None? ==> forall i, j :: 0 <= i <= j < |raws| && StartsRegion(raws[i]) ==>
                          !EndsRegion(raws[j]) || exists k :: 0 <= k < i && StartsRegion(raws[k])
  {
    var start := FirstFrom(raws, 0, StartsRegion);
    if start.None? then None
    else
      var end := FirstFrom(raws, start.value, EndsRegion);
      if end.None? then None else Some((start.value, end.value))
  }

  // ---- The packet text ---------------------------------------------------------------

  /** `splitlines` on newlines: a final newline begins no further line. */
  function LinesOf(text: string): seq<string> {
    var parts := Split(text, '\n');
    if parts[|parts| - 1] == "" then parts[..|parts| - 1] else parts
  }

  /** `text.find(part)`. */
  function Find(text: string, part: string): (r: Option<nat>)
    ensures r.Some? ==> r.value <= |text| && part <= text[r.value..]
    ensures r.Some? ==> forall k :: 0 <= k < r.value ==> !(part <= text[k..])
    ensures r.None? ==> forall k :: 0 <= k <= |text| ==> !(part <= text[k..])
  {
    if part <= text then Some(0)
    else if text == "" then None
    else
      var rest := Find(text[1..], part);
      assert forall k :: 1 <= k <= |text| ==> text[k..] == text[1..][k - 1..];
      if rest.None? then None else Some(rest.value + 1)
  }

  const GATE := "GATE_RESULTS"
  const END_GATE := "END_GATE_RESULTS"

  /** `_extract_gate_block`; empty when the packet has none. */
  function GateBlock(text: string): string {
    var start, end := Find(text, GATE), Find(text, END_GATE);
    if start.None? || end.None? || end.value <= start.value then "" else text[start.value..end.value + |END_GATE|]
  }

  // ---- Evidence checks -------------------------------------------------------------

  datatype EvidenceError =
    | EmptyText(line: nat, kind: string)
    | EmptyReference(line: nat)
    | EmptyPath(line: nat)
    | MissingFile(line: nat, path: string)

  /** `s.strip(c)` for one character. */
  function StripCharLeft(s: string, c: char): string {
    if s != "" && s[0] == c then StripCharLeft(s[1..], c) else s
  }

  function StripCharRight(s: string, c: char): string {
    if s != "" && s[|s| - 1] == c then StripCharRight(s[..|s| - 1], c) else s
  }

  function StripChar(s: string, c: char): string {
    StripCharRight(StripCharLeft(s, c), c)
  }

  function Reference(text: string): string {
    StripChar(StripChar(Strip(text), '"'), '\'')
  }

  function PathPart(ref: string): string {
    Strip(ref[..FirstDoubleColon(ref)])
  }

  /** What one entry lacks; `exists_` answers whether a path exists under the repository root. */
  function EvidenceOf(exists_: string -> bool): TestEntry -> seq<EvidenceError> {
    (e: TestEntry) =>
      if e.kind == "manual" || e.kind == "shell" || e.kind == "browser" then
        if Strip(e.text) == "" then [EmptyText(e.line, e.kind)] else []
      else if e.kind != "pytest" then []
      else
        var ref := Reference(e.text);
        if ref == "" then [EmptyReference(e.line)]
        else if PathPart(ref) == "" then [EmptyPath(e.line)]
        else if !exists_(PathPart(ref)) then [MissingFile(e.line, PathPart(ref))]
        else []
  }

  // ---- The gate ------------------------------------------------------------------------

  /** What `_collect_errors` reports, by source. `none` is the error for a region without any entry. */
  datatype Report = Report(
    missingTokens: seq<string>, badVerdict: bool,
    parse: seq<ParseError>, structure: seq<StructureError>, evidence: seq<EvidenceError>, none: bool)
  {
    /** No error about evidence. */
    predicate EvidenceClean() {
      parse == [] && structure == [] && evidence == [] && !none
    }
  }

  const REQUIRED_TOKENS := ["handoff_id:", "verdict:", "acceptance_criteria:", "regression_checked:"]

  function BlocksOf(raws: seq<string>): seq<Block> {
    var r := Region(raws);
    if r.None? then [] else Blocks(Map(raws, ReadLine), r.value.0, r.value.1 + 1, None)
  }

  function Absent(block: string): string -> bool {
    (token: string) => !Contains(block, token)
  }

  /** The report a packet deserves, block by block. */
  function ReportOf(block: string, text: string, verdict: string, requirePass: bool, exists_: string -> bool)
    : Report
  {
    var raws := LinesOf(text);
    var blocks := BlocksOf(raws);
    var entries, parse, structure := EntriesOf(AllItems(blocks)), ErrorsOf(AllItems(blocks)), StructureErrors(blocks);
    Report(Filter(REQUIRED_TOKENS, Absent(block)), requirePass && verdict != "PASS", parse, structure,
           FlatMap(entries, EvidenceOf(exists_)),
           Region(raws).Some? && entries == [] && parse == [] && structure == [])
  }

  /** `_collect_errors`; `verdict` is the captured verdict, empty when there is none. */
  method CollectErrors(block: string, text: string, verdict: string, requirePass: bool, exists_: string -> bool)
    returns (report: Report)
    ensures report == ReportOf(block, text, verdict, requirePass, exists_)
  {
    var missing := MissingTokens(block, REQUIRED_TOKENS);
    var raws := LinesOf(text);
    var entries, parse, structure := CoveringTests(raws);
    var evidence := CheckEvidence(entries, exists_);
    var none := entries == [] && parse == [] && structure == [] && Region(raws).Some?;
    report := Report(missing, requirePass && verdict != "PASS", parse, structure, evidence, none);
  }

  /** What these blocks are read as. */
  predicate Read(blocks: seq<Block>, entries: seq<TestEntry>, parse: seq<ParseError>, structure: seq<StructureError>) {
    && entries == EntriesOf(AllItems(blocks)) && parse == ErrorsOf(AllItems(blocks))
    && structure == StructureErrors(blocks)
  }

  method ReadRegion(ls: seq<Line>, start: nat, n: nat)
    returns (entries: seq<TestEntry>, parse: seq<ParseError>, structure: seq<StructureError>)
    requires start <= n <= |ls|
    ensures Read(Blocks(ls, start, n, None), entries, parse, structure)
  {
    entries, parse, structure := ExtractEntries(ls, start, n);
  }

  /** `_covering_tests_entries_from_packet`. */
  method CoveringTests(raws: seq<string>)
    returns (entries: seq<TestEntry>, parse: seq<ParseError>, structure: seq<StructureError>)
    ensures Read(BlocksOf(raws), entries, parse, structure)
  {
    var region := Region(raws);
    if region.None? {
      return [], [], [];
    }
    var lines := Map(raws, ReadLine);
    entries, parse, structure := ReadRegion(lines, region.value.0, region.value.1 + 1);
  }

  /** The loop over required tokens. */
  method MissingTokens(block: string, required: seq<string>) returns (missing: seq<string>)
    ensures missing == Filter(required, Absent(block))
  {
    missing := [];
    for i := 0 to |required|
      invariant missing == Filter(required[..i], Absent(block))
    {
      ghost var rest := FilterSplit(required, i, Absent(block));
      if !Contains(block, required[i]) {
        missing := missing + [required[i]];
      }
    }
    assert required[..|required|] == required;
  }

  /** The loop over entries. */
  method CheckEvidence(entries: seq<TestEntry>, exists_: string -> bool) returns (errors: seq<EvidenceError>)
    ensures errors == FlatMap(entries, EvidenceOf(exists_))
  {
    errors := [];
    for i := 0 to |entries|
      invariant errors == FlatMap(entries[..i], EvidenceOf(exists_))
    {
      var e := entries[i];
      assert entries[..i + 1] == entries[..i] + [e];
      FlatMapSnoc(entries[..i], e, EvidenceOf(exists_));
      if e.kind == "manual" || e.kind == "shell" || e.kind == "browser" {
        if Strip(e.text) == "" {
          errors := errors + [EmptyText(e.line, e.kind)];
        }
        continue;
      }
      if e.kind != "pytest" {
        continue;
      }
      var ref := Reference(e.text);
      if ref == "" {
        errors := errors + [EmptyReference(e.line)];
        continue;
      }
      if PathPart(ref) == "" {
        errors := errors + [EmptyPath(e.line)];
        continue;
      }
      if !exists_(PathPart(ref)) {
        errors := errors + [MissingFile(e.line, PathPart(ref))];
      }
    }
    assert entries[..|entries|] == entries;
  }

  /** The text of a described check is not blank; a pytest reference names a path, and the path exists. */
  predicate Supported(e: TestEntry, exists_: string -> bool) {
    if e.kind == "pytest" then
      var path := PathPart(Reference(e.text));
      path != "" && exists_(path)
    else e.kind in KINDS ==> Strip(e.text) != ""
  }

  /** An entry is reported at most once, at its own line, and exactly when it lacks its evidence. */
  lemma EvidenceReportedIff(e: TestEntry, exists_: string -> bool)
    ensures EvidenceOf(exists_)(e) == [] <==> Supported(e, exists_)
    ensures |EvidenceOf(exists_)(e)| <= 1 && forall x :: x in EvidenceOf(exists_)(e) ==> x.line == e.line
  {
    assert KINDS == ["pytest", "manual", "shell", "browser"];
    assert Strip("") == "" && FirstDoubleColon("") == 0;
    assert Reference(e.text) == "" ==> PathPart(Reference(e.text)) == "";
  }

  /** There is a criterion, every criterion has an entry, and every entry has its evidence. */
  ghost predicate WellEvidenced(blocks: seq<Block>, exists_: string -> bool) {
    && blocks != []
    && (forall i :: 0 <= i < |blocks| ==> EntriesOf(BlockItems(blocks[i])) != [])
    && (forall e :: e in EntriesOf(AllItems(blocks)) ==> Supported(e, exists_))
  }

  lemma CleanBlocksWellEvidenced(blocks: seq<Block>, exists_: string -> bool)
    requires ErrorsOf(AllItems(blocks)) == [] && StructureErrors(blocks) == [] && EntriesOf(AllItems(blocks)) != []
    requires FlatMap(EntriesOf(AllItems(blocks)), EvidenceOf(exists_)) == []
    ensures WellEvidenced(blocks, exists_)
  {
    var entries := EntriesOf(AllItems(blocks));
    forall i | 0 <= i < |blocks| ensures EntriesOf(BlockItems(blocks[i])) != [] {
      CleanMeansCovered(blocks, i);
    }
    FlatMapEmpty(entries, EvidenceOf(exists_));
    forall e | e in entries ensures Supported(e, exists_) {
      var i :| 0 <= i < |entries| && entries[i] == e;
      EvidenceReportedIff(e, exists_);
    }
  }

  lemma CoveredBlockIsStructured(b: Block)
    requires EntriesOf(BlockItems(b)) != []
    ensures StructureOf(b) == []
  {
    assert b.lists == [] ==> BlockItems(b) == [];
  }

  lemma WellEvidencedIsClean(blocks: seq<Block>, exists_: string -> bool)
    requires WellEvidenced(blocks, exists_) && ErrorsOf(AllItems(blocks)) == []
    ensures StructureErrors(blocks) == [] && EntriesOf(AllItems(blocks)) != []
    ensures FlatMap(EntriesOf(AllItems(blocks)), EvidenceOf(exists_)) == []
  {
    forall i | 0 <= i < |blocks| ensures StructureOf(blocks[i]) == [] {
      CoveredBlockIsStructured(blocks[i]);
    }
    FlatMapEmpty(blocks, StructureOf);
    var entries := EntriesOf(AllItems(blocks));
    forall i | 0 <= i < |entries| ensures EvidenceOf(exists_)(entries[i]) == [] {
      EvidenceReportedIff(entries[i], exists_);
    }
    FlatMapEmpty(entries, EvidenceOf(exists_));
    CleanMeansCovered(blocks, 0);
    assert EntriesOf(BlockItems(blocks[0]))[0] in entries;
  }

  /** A report free of evidence errors means a parsed, well evidenced packet, with one exact exception: a packet in
      which no gate region is recognised line by line is never faulted for its evidence. */
  lemma EvidenceCleanIff(text: string, verdict: string, requirePass: bool, exists_: string -> bool)
    ensures var blocks := BlocksOf(LinesOf(text));
            ReportOf(GateBlock(text), text, verdict, requirePass, exists_).EvidenceClean() <==>
            Region(LinesOf(text)).None? || (WellEvidenced(blocks, exists_) && ErrorsOf(AllItems(blocks)) == [])
  {
    var blocks := BlocksOf(LinesOf(text));
    if Region(LinesOf(text)).Some? {
      if ReportOf(GateBlock(text), text, verdict, requirePass, exists_).EvidenceClean() {
        CleanBlocksWellEvidenced(blocks, exists_);
      } else if WellEvidenced(blocks, exists_) && ErrorsOf(AllItems(blocks)) == [] {
        WellEvidencedIsClean(blocks, exists_);
        assert false;
      }
    }
  }

  // ---- A packet that is never faulted ------------------------------------------------------

  /** A packet whose heading is marked up, as in Markdown, around any lines at all. */
  function Marked(body: seq<string>): seq<string> {
    ["# GATE_RESULTS"] + body + ["END_GATE_RESULTS"]
  }

  lemma MarkedHeadStartsNothing()
    ensures !StartsRegion("# GATE_RESULTS") && !StartsRegion("END_GATE_RESULTS")
  {
    var a, b := "# GATE_RESULTS", "END_GATE_RESULTS";
    StripIdempotent(a);
    StripIdempotent(b);
    assert a[0] == '#' && b[0] == 'E' && "GATE_RESULTS"[0] == 'G' && "GATE_RESULTS "[0] == 'G';
  }

  lemma MarkedStartsNothing(body: seq<string>)
    requires forall i :: 0 <= i < |body| ==> !StartsRegion(body[i])
    ensures forall i :: 0 <= i < |Marked(body)| ==> !StartsRegion(Marked(body)[i])
  {
    MarkedHeadStartsNothing();
  }

  lemma MarkedLines(body: seq<string>)
    requires Clear(body, '\n')
    ensures LinesOf(Join(Marked(body), '\n')) == Marked(body)
  {
    var raws := Marked(body);
    assert Clear(raws, '\n') by {
      assert '\n' !in "# GATE_RESULTS" && '\n' !in "END_GATE_RESULTS";
    }
    SplitJoin(raws, '\n');
    assert raws[|raws| - 1] == "END_GATE_RESULTS";
  }

  /** `first` is found before `last`, which ends the text and cannot begin up to `at`. */
  lemma FoundInOrder(text: string, first: string, last: string, at: nat)
    requires at < |text| && first <= text[at..] && last != "" && forall i :: 0 <= i <= at ==> text[i] != last[0]
    requires |text| >= |last| && text[|text| - |last|..] == last
    ensures Find(text, first).Some? && Find(text, last).Some? && Find(text, first).value <= at < Find(text, last).value
  {
    assert last <= text[|text| - |last|..];
    var end := Find(text, last);
    assert text[end.value..][0] == last[0];
  }

  /** A text that shows the opening mark early and ends with the closing one has a block. */
  lemma BlockFound(text: string, at: nat)
    requires at < |text| && GATE <= text[at..] && forall i :: 0 <= i <= at ==> text[i] != 'E'
    requires |text| >= |END_GATE| && text[|text| - |END_GATE|..] == END_GATE
    ensures GateBlock(text) != ""
  {
    FoundInOrder(text, GATE, END_GATE, at);
  }

  lemma MarkedBlock(body: seq<string>)
    ensures GateBlock(Join(Marked(body), '\n')) != ""
  {
    var raws := Marked(body);
    var text := Join(raws, '\n');
    var rest := Join(raws[1..], '\n');
    assert text == "# GATE_RESULTS" + ['\n'] + rest;
    assert text[2..] == GATE + (['\n'] + rest);
    EndsWithLast(raws, '\n');
    BlockFound(text, 2);
  }

  lemma {:induction false} EndsWithLast(parts: seq<string>, sep: char)
    requires parts != []
    ensures var text, last := Join(parts, sep), parts[|parts| - 1];
            |last| <= |text| && text[|text| - |last|..] == last
  {
    if |parts| > 1 {
      EndsWithLast(parts[1..], sep);
      var rest := Join(parts[1..], sep);
      assert Join(parts, sep) == parts[0] + [sep] + rest;
    }
  }

  lemma NoStartNoRegion(raws: seq<string>)
    requires forall i :: 0 <= i < |raws| ==> !StartsRegion(raws[i])
    ensures Region(raws).None? && BlocksOf(raws) == []
  {
  }

  /** Such a packet has the block the command asks for, yet its evidence is never faulted, whatever criteria stand
      in its lines. */
  lemma MarkedPacketNeverFaulted(body: seq<string>, verdict: string, requirePass: bool, exists_: string -> bool)
    requires Clear(body, '\n') && forall i :: 0 <= i < |body| ==> !StartsRegion(body[i])
    ensures var text := Join(Marked(body), '\n');
            && GateBlock(text) != "" && BlocksOf(LinesOf(text)) == []
            && ReportOf(GateBlock(text), text, verdict, requirePass, exists_).EvidenceClean()
  {
    MarkedLines(body);
    MarkedBlock(body);
    MarkedStartsNothing(body);
    NoStartNoRegion(Marked(body));
    EvidenceCleanIff(Join(Marked(body), '\n'), verdict, requirePass, exists_);
  }
}
