/** Which criterion lines the merge gate covers: exactly those two columns deeper than an open section. */
module QaCoverage {
  import opened Text
  import opened Sorting
  import opened Delimited
  import opened QaItem
  import opened QaGrammar
  import opened QaLaws
  import opened QaValidate

  lemma NoErrorNoBadItem(items: seq<ItemLine>, x: ItemLine)
    requires ErrorsOf(items) == [] && x in items
    ensures !x.line.item.Bad?
  {
    FlatMapEmpty(items, ErrorOf);
    var i :| 0 <= i < |items| && items[i] == x;
    assert ErrorOf(items[i]) == [];
  }

  /** Without parse errors no criterion line is swallowed. */
  lemma CriterionRecognised(ls: seq<Line>, i: nat, n: nat, x: nat)
    requires i <= x < n <= |ls| && KeysNotBlank(ls) && IsCriterion(ls, i, x, None) && ls[x].item.Bad?
    requires ErrorsOf(AllItems(Blocks(ls, i, n, None))) == []
    ensures Begins(Blocks(ls, i, n, None), x)
  {
    CriterionBeginsBlock(ls, i, n, None, x);
    var items := AllItems(Blocks(ls, i, n, None));
    if ItemLine(x, ls[x]) in items {
      NoErrorNoBadItem(items, ItemLine(x, ls[x]));
    }
  }

  /** Lines as `ReadLine` reads them. */
  ghost predicate RealLines(ls: seq<Line>) {
    KeysNotBlank(ls) && forall i :: 0 <= i < |ls| && ls[i].criterion ==> ls[i].item.Bad?
  }

  lemma CriterionLineIsBad(raw: string)
    ensures ReadLine(raw).criterion ==> ReadLine(raw).item.Bad?
  {
    if "- criterion:" <= Strip(raw) {
      CriterionItemIsBad(raw);
    }
  }

  lemma LinesAreReal(raws: seq<string>)
    ensures RealLines(Map(raws, ReadLine))
  {
    KeyLinesNotBlank(raws);
    var ls := Map(raws, ReadLine);
    forall i | 0 <= i < |ls| && ls[i].criterion ensures ls[i].item.Bad? {
      CriterionLineIsBad(raws[i]);
    }
  }

  /** A block begins at line `x` and reports an entry. */
  ghost predicate Covered(blocks: seq<Block>, x: nat) {
    exists i :: 0 <= i < |blocks| && blocks[i].head == x && EntriesOf(BlockItems(blocks[i])) != []
  }

  ghost predicate Clean(blocks: seq<Block>) {
    ErrorsOf(AllItems(blocks)) == [] && StructureErrors(blocks) == []
  }

  lemma BegunIsCovered(blocks: seq<Block>, x: nat)
    requires Clean(blocks)
    ensures Covered(blocks, x) <==> Begins(blocks, x)
  {
    if Begins(blocks, x) {
      var b :| b in blocks && b.head == x;
      var i :| 0 <= i < |blocks| && blocks[i] == b;
      CleanMeansCovered(blocks, i);
    }
  }

  /** In lines without parse or structure errors a line is covered exactly when it is a criterion line two columns
      deeper than the section open there. */
  lemma LineCoveredIff(ls: seq<Line>, start: nat, n: nat, x: nat)
    requires start <= x < n <= |ls| && RealLines(ls) && Clean(Blocks(ls, start, n, None))
    ensures Covered(Blocks(ls, start, n, None), x) <==> IsCriterion(ls, start, x, None)
  {
    var blocks := Blocks(ls, start, n, None);
    BegunIsCovered(blocks, x);
    if IsCriterion(ls, start, x, None) {
      CriterionRecognised(ls, start, n, x);
    }
    if Begins(blocks, x) {
      BlockBeginsAtCriterion(ls, start, n, None, x);
    }
  }

  lemma RegionBlocks(raws: seq<string>, start: nat, end: nat)
    requires Region(raws) == Some((start, end))
    ensures end < |raws| && BlocksOf(raws) == Blocks(Map(raws, ReadLine), start, end + 1, None)
  {
  }

  /** So in a packet with a region and no such error. */
  lemma CleanPacketCoversIff(raws: seq<string>, ls: seq<Line>, blocks: seq<Block>, start: nat, end: nat, x: nat)
    requires ls == Map(raws, ReadLine) && blocks == BlocksOf(raws) && Clean(blocks)
    requires Region(raws) == Some((start, end)) && start <= x <= end < |ls|
    ensures Covered(blocks, x) <==> IsCriterion(ls, start, x, None)
  {
    LinesAreReal(raws);
    RegionBlocks(raws, start, end);
    LineCoveredIff(ls, start, end + 1, x);
  }

  // ---- A criterion line that is never covered -----------------------------------------------

  function Spaces(n: nat): (s: string)
    ensures |s| == n && forall i :: 0 <= i < n ==> s[i] == ' '
  {
    seq(n, _ => ' ')
  }

  lemma {:induction false} LeadingPad(pad: string, body: string)
    requires body != "" && body[0] != ' ' && forall i :: 0 <= i < |pad| ==> pad[i] == ' '
    ensures LeadingSpaces(pad + body) == |pad|
  {
    if pad == "" {
      assert pad + body == body;
    } else {
      LeadingPad(pad[1..], body);
      assert (pad + body)[1..] == pad[1..] + body;
    }
  }

  /** An indented line is read at its depth, by its text. */
  lemma PaddedLine(n: nat, body: string)
    requires body != "" && Stripped(body)
    ensures var l := ReadLine(Spaces(n) + body);
            && l.indent == n && !l.blank && Strip(Spaces(n) + body) == body
            && (l.section <==> "acceptance_criteria:" <= body) && (l.dash <==> "- criterion" <= body)
            && (l.criterion <==> "- criterion:" <= body) && (l.tests <==> "covering_tests:" <= body)
  {
    LeadingPad(Spaces(n), body);
    StripLeftPad(Spaces(n), body);
    StripIdempotent(body);
    assert StripLeft(body) == body;
  }

  /** A section, one criterion with one entry, and a line as deep as the entry's key that is no head of the section. */
  predicate DeepShape(ls: seq<Line>, d: nat, k: nat, c: nat) {
    && |ls| == 7 && d < c <= k && c != d + 2
    && !ls[0].section && ls[1].section && ls[1].indent == d
    && ls[2].criterion && ls[2].indent == d + 2
    && ls[3].tests && !ls[3].criterion && ls[3].indent == k
    && !ls[4].blank && ls[4].indent > k && ls[4].item.Entry?
    && !ls[5].blank && !ls[5].tests && ls[5].indent == c
    && !ls[6].blank && !ls[6].dash && ls[6].indent == 0
  }

  lemma DeepBlocks(ls: seq<Line>, d: nat, k: nat, c: nat)
    requires DeepShape(ls, d, k, c)
    ensures Blocks(ls, 0, 7, None) == [Block(2, [TestList(3, [ItemLine(4, ls[4])])])]
  {
    DeepTail(ls, d, k, c);
    assert Blocks(ls, 2, 7, Some(d)) == [Block(2, BlockLists(ls, 3, 7, d))] + Blocks(ls, 6, 7, Some(d));
    assert Blocks(ls, 1, 7, None) == Blocks(ls, 2, 7, Some(d));
  }

  lemma DeepTail(ls: seq<Line>, d: nat, k: nat, c: nat)
    requires DeepShape(ls, d, k, c)
    ensures BlockEnd(ls, 3, 7, d) == 6 && BlockLists(ls, 3, 7, d) == [TestList(3, [ItemLine(4, ls[4])])]
    ensures Blocks(ls, 6, 7, Some(d)) == []
  {
    assert ListEnd(ls, 5, 7, k) == 5;
    assert ListEnd(ls, 4, 7, k) == 5;
    assert NonBlank(ls, 4, 4) == [];
    assert NonBlank(ls, 4, 5) == [] + [ItemLine(4, ls[4])] == [ItemLine(4, ls[4])];
    assert BlockEnd(ls, 6, 7, d) == 6 && BlockLists(ls, 6, 7, d) == [];
    assert BlockEnd(ls, 5, 7, d) == 6 && BlockLists(ls, 5, 7, d) == [];
    assert BlockLists(ls, 3, 7, d) == [TestList(3, NonBlank(ls, 4, 5))] + [];
    assert Blocks(ls, 7, 7, None) == [];
  }

  /** One block with one item that is an entry. */
  lemma OneEntry(blocks: seq<Block>, x: ItemLine)
    requires blocks == [Block(2, [TestList(3, [x])])] && x.line.item.Entry?
    ensures AllItems(blocks) == [x] && BlockItems(blocks[0]) == [x] && ErrorsOf([x]) == []
    ensures EntriesOf([x]) == [TestEntry(x.index + 1, x.line.item.kind, x.line.item.text)]
    ensures Clean(blocks)
  {
    var b := Block(2, [TestList(3, [x])]);
    One(b.lists[0], ListItems);
    One(b, BlockItems);
    One(b, StructureOf);
    One(x, EntryOf);
    One(x, ErrorOf);
  }

  lemma One<T, U>(x: T, f: T -> seq<U>)
    ensures FlatMap([x], f) == f(x)
  {
    FlatMapSnoc([], x, f);
    assert [] + [x] == [x] && FlatMap([], f) == [];
  }

  /** A packet with a second criterion at depth `c`, after the list of the first. */
  function DeepPacket(d: nat, k: nat, j: nat, c: nat, head: string, entry: string, deep: string): seq<string> {
    [GATE, Spaces(d) + "acceptance_criteria:", Spaces(d + 2) + head, Spaces(k) + "covering_tests:",
     Spaces(j) + "- " + ("manual::" + entry), Spaces(c) + deep, END_GATE]
  }

  /** A criterion line as the parser recognises its text. */
  predicate CriterionText(s: string) {
    Stripped(s) && "- criterion:" <= s
  }

  lemma CriterionTextLine(n: nat, s: string)
    requires CriterionText(s)
    ensures var l := ReadLine(Spaces(n) + s); l.indent == n && !l.blank && l.criterion && !l.tests
  {
    PaddedLine(n, s);
    assert s[0] == '-' && "covering_tests:"[0] == 'c';
  }

  lemma SectionLine(n: nat)
    ensures var l := ReadLine(Spaces(n) + "acceptance_criteria:"); l.indent == n && l.section
  {
    PaddedLine(n, "acceptance_criteria:");
  }

  lemma KeyLine(n: nat)
    ensures var l := ReadLine(Spaces(n) + "covering_tests:"); l.indent == n && l.tests && !l.criterion
  {
    var s := "covering_tests:";
    assert s[0] == 'c' && "- criterion:"[0] == '-';
    PaddedLine(n, s);
  }

  lemma EdgeLine(s: string)
    requires (s == GATE || s == END_GATE)
    ensures var l := ReadLine(s); l.indent == 0 && !l.blank && !l.section && !l.dash && Strip(s) == s
  {
    assert Spaces(0) + s == s;
    assert s[0] != 'a' && s[0] != '-' && "- criterion"[0] == '-' && "acceptance_criteria:"[0] == 'a';
    PaddedLine(0, s);
  }

  lemma EntryLine(n: nat, entry: string)
    requires Stripped(entry) && entry != ""
    ensures var l := ReadLine(Spaces(n) + "- " + ("manual::" + entry));
            l.indent == n && !l.blank && l.item == Entry("manual", entry)
  {
    var body := "- " + ("manual::" + entry);
    assert "manual" in KINDS by { assert KINDS[1] == "manual"; }
    assert body[|body| - 1] == entry[|entry| - 1] && body[0] == '-';
    assert Spaces(n) + "- " + ("manual::" + entry) == Spaces(n) + body;
    assert "manual::" + entry == "manual" + "::" + entry;
    PaddedLine(n, body);
    ItemRoundTrip(Spaces(n), "manual", entry);
  }

  lemma SevenLines(a: string, b: string, c: string, d: string, e: string, f: string, g: string)
    ensures Map([a, b, c, d, e, f, g], ReadLine)
         == [ReadLine(a), ReadLine(b), ReadLine(c), ReadLine(d), ReadLine(e), ReadLine(f), ReadLine(g)]
  {
  }

  lemma DeepPacketShape(d: nat, k: nat, j: nat, c: nat, head: string, entry: string, deep: string)
    requires d < c <= k < j && c != d + 2
    requires CriterionText(head) && CriterionText(deep) && Stripped(entry) && entry != ""
    ensures var ls := Map(DeepPacket(d, k, j, c, head, entry, deep), ReadLine);
            DeepShape(ls, d, k, c) && ls[4].item == Entry("manual", entry) && ls[5].criterion
  {
    EdgeLine(GATE);
    EdgeLine(END_GATE);
    SectionLine(d);
    CriterionTextLine(d + 2, head);
    KeyLine(k);
    EntryLine(j, entry);
    CriterionTextLine(c, deep);
    SevenLines(GATE, Spaces(d) + "acceptance_criteria:", Spaces(d + 2) + head, Spaces(k) + "covering_tests:",
               Spaces(j) + "- " + ("manual::" + entry), Spaces(c) + deep, END_GATE);
  }

  lemma {:induction false} NotShown(s: string, part: string)
    requires part != "" && (part[0] !in s || |s| < |part|)
    ensures !Contains(s, part)
  {
    if s != "" {
      assert forall x :: x in s[1..] ==> x in s;
      NotShown(s[1..], part);
    }
  }

  lemma {:induction false} PadShowsNothing(pad: string, s: string, part: string)
    requires part != "" && part[0] !in pad && !Contains(s, part)
    ensures !Contains(pad + s, part)
  {
    if pad == "" {
      assert pad + s == s;
    } else {
      assert forall x :: x in pad[1..] ==> x in pad;
      PadShowsNothing(pad[1..], s, part);
      assert (pad + s)[1..] == pad[1..] + s && (pad + s)[0] == pad[0];
    }
  }

  lemma RegionIs(raws: seq<string>, start: nat, end: nat)
    requires IsRegion(raws, start, end)
    ensures Region(raws) == Some((start, end))
  {
  }

  lemma PlainLineOpen(n: nat, s: string)
    requires 'E' !in s
    ensures !EndsRegion(Spaces(n) + s)
  {
    assert END_GATE[0] == 'E';
    NotShown(Spaces(n) + s, END_GATE);
  }

  lemma PaddedLineOpen(n: nat, s: string)
    requires !Contains(s, END_GATE)
    ensures !EndsRegion(Spaces(n) + s)
  {
    assert END_GATE[0] == 'E';
    PadShowsNothing(Spaces(n), s, END_GATE);
  }

  lemma FrontedLineOpen(n: nat, front: string, s: string)
    requires 'E' !in front && !Contains(s, END_GATE)
    ensures !EndsRegion(Spaces(n) + (front + s))
  {
    assert END_GATE[0] == 'E';
    PadShowsNothing(front, s, END_GATE);
    PaddedLineOpen(n, front + s);
  }

  lemma EntryLineOpen(n: nat, entry: string)
    requires !Contains(entry, END_GATE)
    ensures !EndsRegion(Spaces(n) + "- " + ("manual::" + entry))
  {
    FrontedLineOpen(n, "- " + "manual::", entry);
    assert Spaces(n) + "- " + ("manual::" + entry) == Spaces(n) + ("- " + "manual::" + entry);
  }

  lemma MarksBound()
    ensures StartsRegion(GATE) && !EndsRegion(GATE) && EndsRegion(END_GATE)
  {
    EdgeLine(GATE);
    NotShown(GATE, END_GATE);
  }

  lemma SevenOpen(raws: seq<string>, a: string, b: string, c: string, d: string, e: string, f: string, g: string)
    requires raws == [a, b, c, d, e, f, g] && StartsRegion(a) && EndsRegion(g)
    requires !EndsRegion(a) && !EndsRegion(b) && !EndsRegion(c) && !EndsRegion(d) && !EndsRegion(e) && !EndsRegion(f)
    ensures Region(raws) == Some((0, 6))
  {
    RegionIs(raws, 0, 6);
  }

  /** The closing mark shows in none of these lines. */
  lemma FiveOpen(b: string, c: string, d: string, e: string, f: string)
    requires !EndsRegion(b) && !EndsRegion(c) && !EndsRegion(d) && !EndsRegion(e) && !EndsRegion(f)
    ensures Region([GATE, b, c, d, e, f, END_GATE]) == Some((0, 6))
  {
    MarksBound();
    SevenOpen([GATE, b, c, d, e, f, END_GATE], GATE, b, c, d, e, f, END_GATE);
  }

  lemma DeepRegion(raws: seq<string>, d: nat, k: nat, j: nat, c: nat, head: string, entry: string, deep: string)
    requires raws == DeepPacket(d, k, j, c, head, entry, deep)
    requires !Contains(head, END_GATE) && !Contains(entry, END_GATE) && !Contains(deep, END_GATE)
    ensures Region(raws) == Some((0, 6))
  {
    PlainLineOpen(d, "acceptance_criteria:");
    PaddedLineOpen(d + 2, head);
    PlainLineOpen(k, "covering_tests:");
    EntryLineOpen(j, entry);
    PaddedLineOpen(c, deep);
    FiveOpen(Spaces(d) + "acceptance_criteria:", Spaces(d + 2) + head, Spaces(k) + "covering_tests:",
             Spaces(j) + "- " + ("manual::" + entry), Spaces(c) + deep);
  }

  lemma OneEntryPasses(blocks: seq<Block>, x: ItemLine, exists_: string -> bool)
    requires blocks == [Block(2, [TestList(3, [x])])] && x.line.item.Entry?
    requires Supported(TestEntry(x.index + 1, x.line.item.kind, x.line.item.text), exists_)
    ensures WellEvidenced(blocks, exists_) && Clean(blocks) && !Covered(blocks, 5)
  {
    OneEntry(blocks, x);
  }

  lemma DeepPacketPasses(raws: seq<string>, ls: seq<Line>, d: nat, k: nat, c: nat, entry: string,
                         exists_: string -> bool)
    requires Region(raws) == Some((0, 6)) && |raws| == 7 && Stripped(entry) && entry != ""
    requires ls == Map(raws, ReadLine) && DeepShape(ls, d, k, c) && ls[4].item == Entry("manual", entry)
    ensures WellEvidenced(BlocksOf(raws), exists_) && Clean(BlocksOf(raws)) && !Covered(BlocksOf(raws), 5)
  {
    DeepBlocks(ls, d, k, c);
    RegionBlocks(raws, 0, 6);
    StripIdempotent(entry);
    OneEntryPasses(Blocks(ls, 0, 7, None), ItemLine(4, ls[4]), exists_);
  }

  /** A packet of clear lines between the marks has a block, and is read line by line. */
  lemma MarkedText(body: seq<string>)
    requires Clear(body, '\n')
    ensures var raws := [GATE] + body + [END_GATE];
            LinesOf(Join(raws, '\n')) == raws && GateBlock(Join(raws, '\n')) != ""
  {
    var raws := [GATE] + body + [END_GATE];
    var text := Join(raws, '\n');
    assert Clear(raws, '\n') by {
      assert '\n' !in GATE && '\n' !in END_GATE;
    }
    SplitJoin(raws, '\n');
    assert raws[|raws| - 1] == END_GATE;
    assert text == GATE + (['\n'] + Join(raws[1..], '\n'));
    EndsWithLast(raws, '\n');
    assert text[0..] == text && text[0] == GATE[0] == 'G';
    BlockFound(text, 0);
  }

  lemma DeepLinesClear(d: nat, k: nat, j: nat, c: nat, head: string, entry: string, deep: string)
    requires Clear([head, entry, deep], '\n')
    ensures var raws := DeepPacket(d, k, j, c, head, entry, deep);
            raws == [GATE] + raws[1..6] + [END_GATE] && Clear(raws[1..6], '\n')
  {
    assert [head, entry, deep][0] == head && [head, entry, deep][1] == entry && [head, entry, deep][2] == deep;
    assert '\n' !in "acceptance_criteria:" && '\n' !in "covering_tests:" && '\n' !in "- " && '\n' !in "manual::";
  }

  /** A criterion line after a list, at any depth from the section's to the list key's but two columns below the
      section, has no block and no evidence, and yet the packet passes. */
  lemma DeepCriterionPasses(d: nat, k: nat, j: nat, c: nat, head: string, entry: string, deep: string,
                            verdict: string, requirePass: bool, exists_: string -> bool)
    requires d < c <= k < j && c != d + 2
    requires CriterionText(head) && CriterionText(deep) && Stripped(entry) && entry != ""
    requires !Contains(head, END_GATE) && !Contains(entry, END_GATE) && !Contains(deep, END_GATE)
    requires Clear([head, entry, deep], '\n')
    ensures var raws := DeepPacket(d, k, j, c, head, entry, deep);
            var text := Join(raws, '\n');
            && LinesOf(text) == raws && GateBlock(text) != ""
            && ReadLine(raws[5]).criterion && !Covered(BlocksOf(raws), 5)
            && ReportOf(GateBlock(text), text, verdict, requirePass, exists_).EvidenceClean()
  {
    var raws := DeepPacket(d, k, j, c, head, entry, deep);
    DeepLinesClear(d, k, j, c, head, entry, deep);
    MarkedText(raws[1..6]);
    DeepPacketShape(d, k, j, c, head, entry, deep);
    DeepRegion(raws, d, k, j, c, head, entry, deep);
    DeepPacketPasses(raws, Map(raws, ReadLine), d, k, c, entry, exists_);
    EvidenceCleanIff(Join(raws, '\n'), verdict, requirePass, exists_);
  }
}
