/** What the block grammar guarantees to the merge gate. */
module QaLaws {
  import opened Text
  import opened Sorting
  import opened QaGrammar

  // ---- Every item line is accounted for exactly once --------------------------------

  /** Each item becomes one entry or one parse error, never both, never neither. */
  lemma {:induction false} ItemsSplit(items: seq<ItemLine>)
    ensures |EntriesOf(items)| + |ErrorsOf(items)| == |items|
  {
    if items != [] {
      var front, x := items[..|items| - 1], items[|items| - 1];
      ItemsSplit(front);
      assert items == front + [x];
      ReadItem(front, x);
    }
  }

  /** The items lie in `lo .. hi`, in strictly increasing line order. */
  ghost predicate Span(items: seq<ItemLine>, lo: int, hi: int) {
    && (forall i :: 0 <= i < |items| ==> lo <= items[i].index < hi)
    && (forall i, j :: 0 <= i < j < |items| ==> items[i].index < items[j].index)
  }

  lemma SpanConcat(a: seq<ItemLine>, b: seq<ItemLine>, lo: int, mid: int, hi: int)
    requires Span(a, lo, mid) && Span(b, mid, hi) && lo <= mid <= hi
    ensures Span(a + b, lo, hi)
  {
  }

  lemma {:induction false} NonBlankSpan(ls: seq<Line>, i: nat, j: nat)
    requires i <= j <= |ls|
    ensures Span(NonBlank(ls, i, j), i, j)
    decreases j
  {
    if i < j {
      NonBlankSpan(ls, i, j - 1);
    }
  }

  /** Nothing non-blank in the range is left out. */
  lemma {:induction false} NonBlankComplete(ls: seq<Line>, i: nat, j: nat, x: ItemLine)
    requires i <= j <= |ls|
    ensures x in NonBlank(ls, i, j) <==> i <= x.index < j && x.line == ls[x.index] && !x.line.blank
    decreases j
  {
    if i < j {
      NonBlankComplete(ls, i, j - 1, x);
    }
  }

  lemma {:induction false} BlockSpan(ls: seq<Line>, i: nat, n: nat, ac: nat)
    requires i <= n <= |ls|
    ensures Span(FlatMap(BlockLists(ls, i, n, ac), ListItems), i, BlockEnd(ls, i, n, ac))
    decreases n - i
  {
    if i < n && !IsHead(ls[i], ac) && !Dedents(ls[i], ac) {
      BlockStep(ls, i, n, ac);
      if ls[i].tests {
        var j := ListEnd(ls, i + 1, n, ls[i].indent);
        var list, rest := TestList(i, NonBlank(ls, i + 1, j)), BlockLists(ls, j, n, ac);
        BlockSpan(ls, j, n, ac);
        NonBlankSpan(ls, i + 1, j);
        HeadItems(list, rest);
        SpanConcat(list.items, FlatMap(rest, ListItems), i, j, BlockEnd(ls, i, n, ac));
      } else {
        BlockSpan(ls, i + 1, n, ac);
      }
    }
  }

  lemma HeadItems(list: TestList, rest: seq<TestList>)
    ensures FlatMap([list] + rest, ListItems) == list.items + FlatMap(rest, ListItems)
  {
    FlatMapConcat([list], rest, ListItems);
    assert FlatMap([list], ListItems) == list.items by {
      assert [list][..0] == [];
    }
  }

  lemma HeadBlock(b: Block, rest: seq<Block>)
    ensures AllItems([b] + rest) == BlockItems(b) + AllItems(rest)
  {
    FlatMapConcat([b], rest, BlockItems);
    assert FlatMap([b], BlockItems) == BlockItems(b) by {
      assert [b][..0] == [];
    }
  }

  /** Over the whole gate region the item lines come in strictly increasing order: no line is read as an
      item twice, whatever the nesting of sections, blocks and lists. */
  lemma {:induction false} AllItemsSpan(ls: seq<Line>, i: nat, n: nat, ac: Option<nat>)
    requires i <= n <= |ls|
    ensures Span(AllItems(Blocks(ls, i, n, ac)), i, n)
    decreases n - i
  {
    if i == n {
    } else if ac.None? {
      AllItemsSpan(ls, i + 1, n, if ls[i].section then Some(ls[i].indent) else None);
    } else if Dedents(ls[i], ac.value) && !ls[i].dash {
      AllItemsSpan(ls, i + 1, n, None);
    } else if IsHead(ls[i], ac.value) {
      var b := Block(i, BlockLists(ls, i + 1, n, ac.value));
      var j := BlockEnd(ls, i + 1, n, ac.value);
      BlockSpan(ls, i + 1, n, ac.value);
      AllItemsSpan(ls, j, n, ac);
      HeadBlock(b, Blocks(ls, j, n, ac));
      SpanConcat(BlockItems(b), AllItems(Blocks(ls, j, n, ac)), i, j, n);
    } else {
      AllItemsSpan(ls, i + 1, n, ac);
    }
  }

  /** What a list takes: every non-blank line after its key up to the first one that is not deeper. */
  lemma {:induction false} ListTakes(ls: seq<Line>, i: nat, n: nat, k: nat)
    requires i <= n <= |ls|
    ensures var j := ListEnd(ls, i, n, k);
            && (forall x :: i <= x < j ==> ls[x].blank || ls[x].indent > k)
            && (j < n ==> !ls[j].blank && ls[j].indent <= k)
    decreases n - i
  {
    if i < n && !Dedents(ls[i], k) {
      ListTakes(ls, i + 1, n, k);
    }
  }

  // ---- Clean packets cover every criterion -------------------------------------------

  lemma BlockItemsIncluded(blocks: seq<Block>, i: nat, x: ItemLine)
    requires i < |blocks| && x in BlockItems(blocks[i])
    ensures x in AllItems(blocks)
  {
    FlatMapMember(blocks, BlockItems, x);
  }

  lemma NoErrorsAllEntries(items: seq<ItemLine>, x: ItemLine)
    requires x in items && ErrorsOf(items) == []
    ensures EntriesOf(items) != []
  {
    ItemsSplit(items);
  }

  /** A criterion whose block has no structure error and no parse error contributes an entry. */
  lemma CleanBlockHasEntry(b: Block)
    requires StructureOf(b) == [] && ErrorsOf(BlockItems(b)) == []
    ensures EntriesOf(BlockItems(b)) != []
  {
    var last := b.lists[|b.lists| - 1];
    if Markers(last.items) > 0 {
      assert last.items != [];
      FlatMapMember(b.lists, ListItems, last.items[0]);
      assert last.items[0] in ListItems(b.lists[|b.lists| - 1]);
      NoErrorsAllEntries(BlockItems(b), last.items[0]);
    }
  }

  /** No parse error and no structure error: every recognised criterion contributed at least one entry, and
      its entries are among those reported. */
  lemma CleanMeansCovered(blocks: seq<Block>, i: nat)
    requires ErrorsOf(AllItems(blocks)) == [] && StructureErrors(blocks) == []
    requires i < |blocks|
    ensures EntriesOf(BlockItems(blocks[i])) != []
    ensures forall e :: e in EntriesOf(BlockItems(blocks[i])) ==> e in EntriesOf(AllItems(blocks))
  {
    var b := blocks[i];
    FlatMapEmpty(blocks, StructureOf);
    assert StructureOf(b) == [];
    FlatMapEmpty(AllItems(blocks), ErrorOf);
    assert ErrorsOf(BlockItems(b)) == [] by {
      forall k | 0 <= k < |BlockItems(b)| ensures ErrorOf(BlockItems(b)[k]) == [] {
        BlockItemsIncluded(blocks, i, BlockItems(b)[k]);
        var h :| 0 <= h < |AllItems(blocks)| && AllItems(blocks)[h] == BlockItems(b)[k];
      }
      FlatMapEmpty(BlockItems(b), ErrorOf);
    }
    CleanBlockHasEntry(b);
    forall e | e in EntriesOf(BlockItems(b)) ensures e in EntriesOf(AllItems(blocks)) {
      FlatMapMember(BlockItems(b), EntryOf, e);
      var k :| 0 <= k < |BlockItems(b)| && e in EntryOf(BlockItems(b)[k]);
      BlockItemsIncluded(blocks, i, BlockItems(b)[k]);
      var h :| 0 <= h < |AllItems(blocks)| && AllItems(blocks)[h] == BlockItems(b)[k];
      FlatMapMember(AllItems(blocks), EntryOf, e);
    }
  }

  // ---- When a criterion head is read as an item ----------------------------------------

  /** Lines that begin a list or a criterion are not blank. */
  predicate KeysNotBlank(ls: seq<Line>) {
    forall i :: 0 <= i < |ls| && ls[i].blank ==> !ls[i].tests && !ls[i].criterion
  }

  /** Every list of a block was read at its key, which lies deeper than the section. */
  lemma {:induction false} ListIsRead(ls: seq<Line>, i: nat, n: nat, ac: nat, list: TestList)
    requires i <= n <= |ls| && KeysNotBlank(ls) && list in BlockLists(ls, i, n, ac)
    ensures i <= list.key < n && ls[list.key].tests && ls[list.key].indent > ac
    ensures list.items == NonBlank(ls, list.key + 1, ListEnd(ls, list.key + 1, n, ls[list.key].indent))
    decreases n - i
  {
    BlockStep(ls, i, n, ac);
    if ls[i].tests {
      var j := ListEnd(ls, i + 1, n, ls[i].indent);
      if list != TestList(i, NonBlank(ls, i + 1, j)) {
        ListIsRead(ls, j, n, ac, list);
      }
    } else {
      ListIsRead(ls, i + 1, n, ac, list);
    }
  }

  /** A list reaches a line exactly when no line up to it dedents to the key. */
  lemma ListReaches(ls: seq<Line>, i: nat, n: nat, k: nat, x: nat)
    requires i <= x < n <= |ls|
    ensures x < ListEnd(ls, i, n, k) <==> forall y :: i <= y <= x ==> !Dedents(ls[y], k)
  {
    ListTakes(ls, i, n, k);
    var j := ListEnd(ls, i, n, k);
    if j <= x {
      assert Dedents(ls[j], k);
    }
  }

  /** A list swallows a criterion head of its section exactly when its key sits one column deeper than the section
      and no line between the two ends the list. */
  lemma HeadSwallowedIff(ls: seq<Line>, i: nat, n: nat, ac: nat, list: TestList, x: nat)
    requires i <= n <= |ls| && KeysNotBlank(ls) && list in BlockLists(ls, i, n, ac)
    requires list.key < x < n && IsHead(ls[x], ac)
    ensures ItemLine(x, ls[x]) in list.items <==>
            ls[list.key].indent == ac + 1 && forall y :: list.key < y < x ==> !Dedents(ls[y], ac + 1)
  {
    ListIsRead(ls, i, n, ac, list);
    var k := ls[list.key].indent;
    NonBlankComplete(ls, list.key + 1, ListEnd(ls, list.key + 1, n, k), ItemLine(x, ls[x]));
    HeadReachedIff(ls, list.key + 1, n, k, ac, x);
  }

  lemma HeadReachedIff(ls: seq<Line>, i: nat, n: nat, k: nat, ac: nat, x: nat)
    requires i <= x < n <= |ls| && IsHead(ls[x], ac) && !ls[x].blank && k > ac
    ensures x < ListEnd(ls, i, n, k) <==> k == ac + 1 && forall y :: i <= y < x ==> !Dedents(ls[y], ac + 1)
  {
    ListReaches(ls, i, n, k, x);
    if k > ac + 1 {
      assert Dedents(ls[x], k);
    } else {
      assert !Dedents(ls[x], k);
    }
  }

  // ---- Every criterion is recognised or swallowed ------------------------------------------

  /** The depth of the section open before line `x`, when the lines from `i` on are scanned one by one. */
  function SectionDepth(ls: seq<Line>, i: nat, x: nat, ac: Option<nat>): Option<nat>
    requires i <= x <= |ls|
    decreases x
  {
    if x == i then ac
    else
      var before := SectionDepth(ls, i, x - 1, ac);
      if before.None? then (if ls[x - 1].section then Some(ls[x - 1].indent) else None)
      else if Dedents(ls[x - 1], before.value) && !ls[x - 1].dash then None
      else before
  }

  lemma {:induction false} DepthSplits(ls: seq<Line>, i: nat, j: nat, x: nat, ac: Option<nat>)
    requires i <= j <= x <= |ls|
    ensures SectionDepth(ls, i, x, ac) == SectionDepth(ls, j, x, SectionDepth(ls, i, j, ac))
    decreases x
  {
    if j < x {
      DepthSplits(ls, i, j, x - 1, ac);
    }
  }

  lemma {:induction false} DepthStays(ls: seq<Line>, i: nat, x: nat, ac: nat)
    requires i <= x <= |ls| && forall y :: i <= y < x ==> !Dedents(ls[y], ac)
    ensures SectionDepth(ls, i, x, Some(ac)) == Some(ac)
    decreases x
  {
    if i < x {
      DepthStays(ls, i, x - 1, ac);
    }
  }

  lemma ListInterior(ls: seq<Line>, i: nat, n: nat, k: nat, ac: nat, x: nat)
    requires i <= n <= |ls| && i <= x < ListEnd(ls, i, n, k) && k > ac
    ensures !Dedents(ls[x], ac)
    ensures !ls[x].blank ==> ItemLine(x, ls[x]) in NonBlank(ls, i, ListEnd(ls, i, n, k))
  {
    ListTakes(ls, i, n, k);
    NonBlankComplete(ls, i, ListEnd(ls, i, n, k), ItemLine(x, ls[x]));
  }

  /** Inside a block no line ends the section, and a criterion head there is an item of one of its lists. */
  lemma {:induction false} BlockInterior(ls: seq<Line>, i: nat, n: nat, ac: nat, x: nat)
    requires i <= n <= |ls| && KeysNotBlank(ls) && i <= x < BlockEnd(ls, i, n, ac)
    ensures !Dedents(ls[x], ac)
    ensures IsHead(ls[x], ac) ==> ItemLine(x, ls[x]) in FlatMap(BlockLists(ls, i, n, ac), ListItems)
    decreases n - i
  {
    BlockStep(ls, i, n, ac);
    if ls[i].tests {
      var j := ListEnd(ls, i + 1, n, ls[i].indent);
      var list, rest := TestList(i, NonBlank(ls, i + 1, j)), BlockLists(ls, j, n, ac);
      HeadItems(list, rest);
      if x >= j {
        BlockInterior(ls, j, n, ac, x);
      } else if x > i {
        ListInterior(ls, i + 1, n, ls[i].indent, ac, x);
      }
    } else if x > i {
      BlockInterior(ls, i + 1, n, ac, x);
    }
  }

  ghost predicate Begins(blocks: seq<Block>, x: nat) {
    exists b :: b in blocks && b.head == x
  }

  /** Line `x` begins a criterion of the section open there. */
  ghost predicate IsCriterion(ls: seq<Line>, i: nat, x: nat, ac: Option<nat>)
    requires i <= x < |ls|
  {
    var d := SectionDepth(ls, i, x, ac);
    d.Some? && IsHead(ls[x], d.value)
  }

  /** A criterion line begins a block of its own, or is read as an item of another block's list. */
  lemma {:induction false} CriterionBeginsBlock(ls: seq<Line>, i: nat, n: nat, ac: Option<nat>, x: nat)
    requires i <= x < n <= |ls| && KeysNotBlank(ls) && IsCriterion(ls, i, x, ac)
    ensures var blocks := Blocks(ls, i, n, ac); Begins(blocks, x) || ItemLine(x, ls[x]) in AllItems(blocks)
    decreases n - i
  {
    if ac.Some? && !(Dedents(ls[i], ac.value) && !ls[i].dash) && IsHead(ls[i], ac.value) {
      CriterionInBlock(ls, i, n, ac.value, x);
    } else {
      assert x != i;
      DepthSplits(ls, i, i + 1, x, ac);
      CriterionBeginsBlock(ls, i + 1, n, SectionDepth(ls, i, i + 1, ac), x);
    }
  }

  lemma {:induction false} CriterionInBlock(ls: seq<Line>, i: nat, n: nat, ac: nat, x: nat)
    requires i <= x < n <= |ls| && KeysNotBlank(ls) && IsCriterion(ls, i, x, Some(ac))
    requires IsHead(ls[i], ac) && !(Dedents(ls[i], ac) && !ls[i].dash)
    ensures var blocks := Blocks(ls, i, n, Some(ac)); Begins(blocks, x) || ItemLine(x, ls[x]) in AllItems(blocks)
    decreases n - i, 0
  {
    var b, j := Block(i, BlockLists(ls, i + 1, n, ac)), BlockEnd(ls, i + 1, n, ac);
    var rest := Blocks(ls, j, n, Some(ac));
    HeadBlock(b, rest);
    assert b in [b] + rest;
    forall y | i <= y < j ensures !Dedents(ls[y], ac) {
      if y > i { BlockInterior(ls, i + 1, n, ac, y); }
    }
    if x >= j {
      DepthSplits(ls, i, j, x, Some(ac));
      DepthStays(ls, i, j, ac);
      CriterionBeginsBlock(ls, j, n, Some(ac), x);
      assert forall c :: c in rest ==> c in [b] + rest;
    } else if x > i {
      DepthStays(ls, i, x, ac);
      BlockInterior(ls, i + 1, n, ac, x);
    }
  }

  /** And only such a line begins a block. */
  lemma {:induction false} BlockBeginsAtCriterion(ls: seq<Line>, i: nat, n: nat, ac: Option<nat>, x: nat)
    requires i <= n <= |ls| && KeysNotBlank(ls) && Begins(Blocks(ls, i, n, ac), x)
    ensures i <= x < n && IsCriterion(ls, i, x, ac)
    decreases n - i
  {
    assert i < n;
    if ac.Some? && !(Dedents(ls[i], ac.value) && !ls[i].dash) && IsHead(ls[i], ac.value) {
      var b, j := Block(i, BlockLists(ls, i + 1, n, ac.value)), BlockEnd(ls, i + 1, n, ac.value);
      var rest := Blocks(ls, j, n, ac);
      HeadBlock(b, rest);
      if x != i {
        var c :| c in [b] + rest && c.head == x;
        assert c in rest;
        BlockBeginsAtCriterion(ls, j, n, ac, x);
        forall y | i <= y < j ensures !Dedents(ls[y], ac.value) {
          if y > i { BlockInterior(ls, i + 1, n, ac.value, y); }
        }
        DepthSplits(ls, i, j, x, ac);
        DepthStays(ls, i, j, ac.value);
      }
    } else {
      assert Blocks(ls, i, n, ac) == Blocks(ls, i + 1, n, SectionDepth(ls, i, i + 1, ac)) by {
        assert SectionDepth(ls, i, i, ac) == ac;
      }
      BlockBeginsAtCriterion(ls, i + 1, n, SectionDepth(ls, i, i + 1, ac), x);
      DepthSplits(ls, i, i + 1, x, ac);
    }
  }
}
