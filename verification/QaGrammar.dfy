/** The criterion-block grammar of a QA packet, and the three nested loops that parse it
    (src/canon_systems/qa_validate.py). */
module QaGrammar {
  import opened Text
  import opened Sorting
  import opened QaItem

  /** What the parser looks at in one line. */
  datatype Line = Line(
    indent: nat,       // leading spaces
    blank: bool,       // nothing but whitespace
    section: bool,     // starts with `acceptance_criteria:`
    dash: bool,        // starts with `- criterion`
    criterion: bool,   // starts with `- criterion:`
    tests: bool,       // starts with `covering_tests:`
    marker: bool,      // matches the list-item pattern
    item: Item)        // the line read as a list item

  // ---- Grammar -----------------------------------------------------------------

  /** A numbered line read as a list item. */
  datatype ItemLine = ItemLine(index: nat, line: Line)

  /** One `covering_tests:` list: its key line and the lines read as its items. */
  datatype TestList = TestList(key: nat, items: seq<ItemLine>)

  /** One `- criterion:` block. */
  datatype Block = Block(head: nat, lists: seq<TestList>)

  predicate IsHead(l: Line, ac: nat) {
    l.indent == ac + 2 && l.criterion
  }

  predicate Dedents(l: Line, k: nat) {
    !l.blank && l.indent <= k
  }

  /** A list runs to the first non-blank line that is not deeper than its key. */
  function ListEnd(ls: seq<Line>, i: nat, n: nat, k: nat): (j: nat)
    requires i <= n <= |ls|
    ensures i <= j <= n
    decreases n - i
  {
    if i == n || Dedents(ls[i], k) then i else ListEnd(ls, i + 1, n, k)
  }

  /** The non-blank lines of `i .. j`. */
  function NonBlank(ls: seq<Line>, i: nat, j: nat): seq<ItemLine>
    requires i <= j <= |ls|
    decreases j
  {
    if i == j then []
    else NonBlank(ls, i, j - 1) + if ls[j - 1].blank then [] else [ItemLine(j - 1, ls[j - 1])]
  }

  /** A block runs to the next head, or to a line back at the section's depth; a list inside it is read whole. */
  function BlockEnd(ls: seq<Line>, i: nat, n: nat, ac: nat): (j: nat)
    requires i <= n <= |ls|
    ensures i <= j <= n
    decreases n - i
  {
    if i == n || IsHead(ls[i], ac) || Dedents(ls[i], ac) then i
    else if ls[i].tests then BlockEnd(ls, ListEnd(ls, i + 1, n, ls[i].indent), n, ac)
    else BlockEnd(ls, i + 1, n, ac)
  }

  function BlockLists(ls: seq<Line>, i: nat, n: nat, ac: nat): seq<TestList>
    requires i <= n <= |ls|
    decreases n - i
  {
    if i == n || IsHead(ls[i], ac) || Dedents(ls[i], ac) then []
    else if ls[i].tests then
      var j := ListEnd(ls, i + 1, n, ls[i].indent);
      [TestList(i, NonBlank(ls, i + 1, j))] + BlockLists(ls, j, n, ac)
    else BlockLists(ls, i + 1, n, ac)
  }

  /** The blocks of the sections in `i .. n`; `ac` is the depth of the open section, if any. */
  function Blocks(ls: seq<Line>, i: nat, n: nat, ac: Option<nat>): seq<Block>
    requires i <= n <= |ls|
    decreases n - i
  {
    if i == n then []
    else if ac.None? then Blocks(ls, i + 1, n, if ls[i].section then Some(ls[i].indent) else None)
    else if Dedents(ls[i], ac.value) && !ls[i].dash then Blocks(ls, i + 1, n, None)
    else if IsHead(ls[i], ac.value) then
      [Block(i, BlockLists(ls, i + 1, n, ac.value))] + Blocks(ls, BlockEnd(ls, i + 1, n, ac.value), n, ac)
    else Blocks(ls, i + 1, n, ac)
  }

  // ---- What a block means --------------------------------------------------------

  datatype TestEntry = TestEntry(line: nat, kind: string, text: string)
  datatype ParseError = ParseError(line: nat, error: ItemError)
  datatype StructureError = MissingKey(line: nat) | NoItems(line: nat)

  /** Line numbers in messages start at 1. */
  function EntryOf(x: ItemLine): seq<TestEntry> {
    if x.line.item.Entry? then [TestEntry(x.index + 1, x.line.item.kind, x.line.item.text)] else []
  }

  function ErrorOf(x: ItemLine): seq<ParseError> {
    if x.line.item.Bad? then [ParseError(x.index + 1, x.line.item.error)] else []
  }

  function MarkerOf(x: ItemLine): seq<nat> {
    if x.line.marker then [x.index + 1] else []
  }

  function EntriesOf(items: seq<ItemLine>): seq<TestEntry> {
    FlatMap(items, EntryOf)
  }

  function ErrorsOf(items: seq<ItemLine>): seq<ParseError> {
    FlatMap(items, ErrorOf)
  }

  function Markers(items: seq<ItemLine>): nat {
    |FlatMap(items, MarkerOf)|
  }

  function ListItems(l: TestList): seq<ItemLine> {
    l.items
  }

  function BlockItems(b: Block): seq<ItemLine> {
    FlatMap(b.lists, ListItems)
  }

  function AllItems(blocks: seq<Block>): seq<ItemLine> {
    FlatMap(blocks, BlockItems)
  }

  /** The structure errors of one block: a missing key, or no entry in any of its lists and no list marker
      in the last one. */
  function StructureOf(b: Block): seq<StructureError> {
    if b.lists == [] then [MissingKey(b.head + 1)]
    else
      var last := b.lists[|b.lists| - 1];
      if |EntriesOf(BlockItems(b))| == 0 && Markers(last.items) == 0 then [NoItems(last.key + 1)] else []
  }

  function StructureErrors(blocks: seq<Block>): seq<StructureError> {
    FlatMap(blocks, StructureOf)
  }

  lemma ReadItem(items: seq<ItemLine>, x: ItemLine)
    ensures EntriesOf(items + [x]) == EntriesOf(items) + EntryOf(x)
    ensures ErrorsOf(items + [x]) == ErrorsOf(items) + ErrorOf(x)
    ensures Markers(items + [x]) == Markers(items) + if x.line.marker then 1 else 0
  {
    FlatMapSnoc(items, x, EntryOf);
    FlatMapSnoc(items, x, ErrorOf);
    FlatMapSnoc(items, x, MarkerOf);
  }

  lemma ReadMore(a: seq<ItemLine>, b: seq<ItemLine>)
    ensures EntriesOf(a + b) == EntriesOf(a) + EntriesOf(b)
    ensures ErrorsOf(a + b) == ErrorsOf(a) + ErrorsOf(b)
  {
    FlatMapConcat(a, b, EntryOf);
    FlatMapConcat(a, b, ErrorOf);
  }

  // ---- The loop code ----------------------------------------------------------------

  /** The innermost loop stands at line `i`, having read what is listed. */
  ghost predicate InList(ls: seq<Line>, start: nat, i: nat, n: nat, k: nat,
                         entries: seq<TestEntry>, errors: seq<ParseError>, markers: nat)
    requires start <= n <= |ls|
  {
    && start <= i <= n && ListEnd(ls, i, n, k) == ListEnd(ls, start, n, k)
    && entries == EntriesOf(NonBlank(ls, start, i)) && errors == ErrorsOf(NonBlank(ls, start, i))
    && markers == Markers(NonBlank(ls, start, i))
  }

  lemma BlankPassed(ls: seq<Line>, start: nat, i: nat, n: nat, k: nat,
                    entries: seq<TestEntry>, errors: seq<ParseError>, markers: nat)
    requires start <= n <= |ls| && i < n && InList(ls, start, i, n, k, entries, errors, markers) && ls[i].blank
    ensures InList(ls, start, i + 1, n, k, entries, errors, markers)
  {
    assert NonBlank(ls, start, i) + [] == NonBlank(ls, start, i);
  }

  lemma ItemPassed(ls: seq<Line>, start: nat, i: nat, n: nat, k: nat,
                   entries: seq<TestEntry>, errors: seq<ParseError>, markers: nat)
    requires start <= n <= |ls| && i < n && InList(ls, start, i, n, k, entries, errors, markers)
    requires !ls[i].blank && !Dedents(ls[i], k)
    ensures var x := ItemLine(i, ls[i]);
            InList(ls, start, i + 1, n, k, entries + EntryOf(x), errors + ErrorOf(x),
                   markers + if ls[i].marker then 1 else 0)
  {
    ReadItem(NonBlank(ls, start, i), ItemLine(i, ls[i]));
  }

  /** The innermost loop: the lines under one `covering_tests:` key of depth `k`. */
  method ParseList(ls: seq<Line>, start: nat, n: nat, k: nat)
    returns (i: nat, entries: seq<TestEntry>, errors: seq<ParseError>, markers: nat)
    requires start <= n <= |ls|
    ensures i == ListEnd(ls, start, n, k)
    ensures entries == EntriesOf(NonBlank(ls, start, i)) && errors == ErrorsOf(NonBlank(ls, start, i))
    ensures markers == Markers(NonBlank(ls, start, i))
  {
    i, entries, errors, markers := start, [], [], 0;
    while i < n
      invariant InList(ls, start, i, n, k, entries, errors, markers)
    {
      var line := ls[i];
      if line.blank {
        BlankPassed(ls, start, i, n, k, entries, errors, markers);
        i := i + 1;
        continue;
      }
      if line.indent <= k {
        break;
      }
      ItemPassed(ls, start, i, n, k, entries, errors, markers);
      if line.marker {
        markers := markers + 1;
      }
      match line.item {
        case Bad(error) => errors := errors + [ParseError(i + 1, error)];
        case Entry(kind, text) => entries := entries + [TestEntry(i + 1, kind, text)];
      }
      i := i + 1;
    }
  }

  /** Everything the block loop has accumulated when it has read `lists`. */
  datatype Progress = Progress(
    entries: seq<TestEntry>, errors: seq<ParseError>,
    hasKey: bool, keyLine: Option<nat>, itemCount: nat, markers: nat)

  ghost predicate Read(lists: seq<TestList>, p: Progress) {
    && p.entries == EntriesOf(FlatMap(lists, ListItems)) && p.errors == ErrorsOf(FlatMap(lists, ListItems))
    && p.itemCount == |p.entries|
    && (p.hasKey <==> lists != [])
    && (lists != [] ==>
          p.keyLine == Some(lists[|lists| - 1].key + 1) && p.markers == Markers(lists[|lists| - 1].items))
  }

  /** `_finalize_criterion_covering_tests_structure`. */
  method FinalizeBlock(head: nat, p: Progress, ghost lists: seq<TestList>) returns (errors: seq<StructureError>)
    requires Read(lists, p)
    ensures errors == StructureOf(Block(head, lists))
  {
    errors := [];
    if !p.hasKey {
      return errors + [MissingKey(head + 1)];
    }
    if p.itemCount == 0 && p.markers == 0 && p.keyLine.Some? {
      errors := errors + [NoItems(p.keyLine.value)];
    }
  }

  /** One step of the block grammar at a line that neither starts nor ends a block. */
  lemma {:induction false} BlockStep(ls: seq<Line>, i: nat, n: nat, ac: nat)
    requires i < n <= |ls| && !IsHead(ls[i], ac) && !Dedents(ls[i], ac)
    ensures var j := if ls[i].tests then ListEnd(ls, i + 1, n, ls[i].indent) else i + 1;
            && BlockEnd(ls, i, n, ac) == BlockEnd(ls, j, n, ac)
            && BlockLists(ls, i, n, ac) ==
               if ls[i].tests then [TestList(i, NonBlank(ls, i + 1, j))] + BlockLists(ls, j, n, ac)
               else BlockLists(ls, j, n, ac)
  {
  }

  /** What reading one more list adds. */
  function AddList(p: Progress, key: nat, es: seq<TestEntry>, ps: seq<ParseError>, markers: nat): Progress {
    Progress(p.entries + es, p.errors + ps, true, Some(key + 1), p.itemCount + |es|, markers)
  }

  lemma {:induction false} ReadSnoc(lists: seq<TestList>, p: Progress, list: TestList)
    requires Read(lists, p)
    ensures Read(lists + [list],
                 AddList(p, list.key, EntriesOf(list.items), ErrorsOf(list.items), Markers(list.items)))
  {
    FlatMapSnoc(lists, list, ListItems);
    ReadMore(FlatMap(lists, ListItems), list.items);
  }

  /** The middle loop stands at line `i` of the block that starts at `head`, having read `lists`. */
  ghost predicate InBlock(ls: seq<Line>, head: nat, i: nat, n: nat, ac: nat, lists: seq<TestList>, p: Progress)
    requires head < n <= |ls|
  {
    && head < i <= n && Read(lists, p)
    && BlockEnd(ls, i, n, ac) == BlockEnd(ls, head + 1, n, ac)
    && BlockLists(ls, head + 1, n, ac) == lists + BlockLists(ls, i, n, ac)
  }

  lemma {:induction false} LinePassed(ls: seq<Line>, head: nat, i: nat, n: nat, ac: nat, lists: seq<TestList>,
                                      p: Progress)
    requires head < n <= |ls| && i < n && InBlock(ls, head, i, n, ac, lists, p)
    requires !IsHead(ls[i], ac) && !Dedents(ls[i], ac) && !ls[i].tests
    ensures InBlock(ls, head, i + 1, n, ac, lists, p)
  {
    BlockStep(ls, i, n, ac);
  }

  lemma {:induction false} ListPassed(ls: seq<Line>, head: nat, i: nat, n: nat, ac: nat, lists: seq<TestList>,
                                      p: Progress, list: TestList)
    requires head < n <= |ls| && i < n && InBlock(ls, head, i, n, ac, lists, p)
    requires !IsHead(ls[i], ac) && !Dedents(ls[i], ac) && ls[i].tests
    requires list == TestList(i, NonBlank(ls, i + 1, ListEnd(ls, i + 1, n, ls[i].indent)))
    ensures InBlock(ls, head, ListEnd(ls, i + 1, n, ls[i].indent), n, ac, lists + [list],
                    AddList(p, i, EntriesOf(list.items), ErrorsOf(list.items), Markers(list.items)))
  {
    var j := ListEnd(ls, i + 1, n, ls[i].indent);
    BlockStep(ls, i, n, ac);
    assert BlockLists(ls, i, n, ac) == [list] + BlockLists(ls, j, n, ac);
    ReadSnoc(lists, p, list);
    Shift(lists, list, BlockLists(ls, j, n, ac));
  }

  lemma Shift<T>(done: seq<T>, x: T, rest: seq<T>)
    ensures done + ([x] + rest) == (done + [x]) + rest
  {
  }

  lemma {:induction false} BlockOver(ls: seq<Line>, head: nat, i: nat, n: nat, ac: nat, lists: seq<TestList>,
                                     p: Progress)
    requires head < n <= |ls| && InBlock(ls, head, i, n, ac, lists, p)
    requires i == n || IsHead(ls[i], ac) || Dedents(ls[i], ac)
    ensures BlockEnd(ls, head + 1, n, ac) == i && BlockLists(ls, head + 1, n, ac) == lists
  {
    assert lists + [] == lists;
  }

  /** The middle loop: one block, from its head line. */
  method ParseBlock(ls: seq<Line>, head: nat, n: nat, ac: nat)
    returns (i: nat, entries: seq<TestEntry>, errors: seq<ParseError>, structure: seq<StructureError>)
    requires head < n <= |ls|
    ensures i == BlockEnd(ls, head + 1, n, ac)
    ensures var lists := BlockLists(ls, head + 1, n, ac);
            && entries == EntriesOf(FlatMap(lists, ListItems)) && errors == ErrorsOf(FlatMap(lists, ListItems))
            && structure == StructureOf(Block(head, lists))
  {
    i, structure := head + 1, [];
    var p := Progress([], [], false, None, 0, 0);
    ghost var lists: seq<TestList> := [];
    assert [] + BlockLists(ls, head + 1, n, ac) == BlockLists(ls, head + 1, n, ac);
    while i < n
      invariant InBlock(ls, head, i, n, ac, lists, p) && structure == []
      decreases n - i
    {
      if ls[i].indent == ac + 2 && ls[i].criterion {
        var found := FinalizeBlock(head, p, lists);
        structure := structure + found;
        break;
      }
      if !ls[i].blank && ls[i].indent <= ac {
        var found := FinalizeBlock(head, p, lists);
        structure := structure + found;
        break;
      }
      if ls[i].tests {
        var key := i;
        var es, ps, markers;
        i, es, ps, markers := ParseList(ls, i + 1, n, ls[i].indent);
        ghost var list := TestList(key, NonBlank(ls, key + 1, i));
        ListPassed(ls, head, key, n, ac, lists, p, list);
        p := AddList(p, key, es, ps, markers);
        lists := lists + [list];
        continue;
      }
      LinePassed(ls, head, i, n, ac, lists, p);
      i := i + 1;
    }
    if i == n {
      var found := FinalizeBlock(head, p, lists);
      structure := structure + found;
    }
    BlockOver(ls, head, i, n, ac, lists, p);
    entries, errors := p.entries, p.errors;
  }

  /** `_extract_covering_tests_entries`: the outer loop over the gate region `start .. n`. */
  method ExtractEntries(ls: seq<Line>, start: nat, n: nat)
    returns (entries: seq<TestEntry>, errors: seq<ParseError>, structure: seq<StructureError>)
    requires start <= n <= |ls|
    ensures var blocks := Blocks(ls, start, n, None);
            && entries == EntriesOf(AllItems(blocks)) && errors == ErrorsOf(AllItems(blocks))
            && structure == StructureErrors(blocks)
  {
    entries, errors, structure := [], [], [];
    var ac: Option<nat>, i := None, start;
    ghost var all, done := Blocks(ls, start, n, None), [];
    while i < n
      invariant start <= i <= n && all == done + Blocks(ls, i, n, ac)
      invariant entries == EntriesOf(AllItems(done)) && errors == ErrorsOf(AllItems(done))
      invariant structure == StructureErrors(done)
      decreases n - i
    {
      if ac.None? {
        if ls[i].section {
          ac := Some(ls[i].indent);
        }
        i := i + 1;
        continue;
      }
      if !ls[i].blank && ls[i].indent <= ac.value && !ls[i].dash {
        ac := None;
        i := i + 1;
        continue;
      }
      if ls[i].indent == ac.value + 2 && ls[i].criterion {
        ghost var b := Block(i, BlockLists(ls, i + 1, n, ac.value));
        var es, ps, ss;
        Shift(done, b, Blocks(ls, BlockEnd(ls, i + 1, n, ac.value), n, ac));
        i, es, ps, ss := ParseBlock(ls, i, n, ac.value);
        ReadMore(AllItems(done), BlockItems(b));
        FlatMapSnoc(done, b, BlockItems);
        FlatMapSnoc(done, b, StructureOf);
        done := done + [b];
        entries, errors, structure := entries + es, errors + ps, structure + ss;
        continue;
      }
      i := i + 1;
    }
    assert done == all;
  }
}
