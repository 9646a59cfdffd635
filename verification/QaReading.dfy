/** How every form of a `covering_tests:` item is read, and what that means at the gate
    (src/canon_systems/qa_validate.py). */
module QaReading {
  import opened Text
  import opened Sorting
  import opened QaItem
  import opened QaGrammar
  import opened QaValidate

  // ---- Forms of a body --------------------------------------------------------------------

  predicate IsKind(s: string) {
    s == "pytest" || s == "manual" || s == "shell" || s == "browser"
  }

  lemma KindsAre(s: string)
    ensures s in KINDS <==> IsKind(s)
  {
    assert KINDS[0] == "pytest" && KINDS[1] == "manual" && KINDS[2] == "shell" && KINDS[3] == "browser";
  }

  predicate Quoted(body: string) {
    |body| >= 2 && body[0] == body[|body| - 1] && (body[0] == '"' || body[0] == '\'')
  }

  /** `raw` is the trimmed text without the quotes around it. */
  predicate Bares(body: string, raw: string) {
    if Quoted(Strip(body)) then raw == Strip(Strip(body)[1..|Strip(body)| - 1]) else raw == Strip(body)
  }

  lemma UnquoteReads(body: string)
    ensures Bares(body, Unquote(body)) && Stripped(Unquote(body))
  {
    StripIdempotent(body);
    if Quoted(Strip(body)) {
      StripIdempotent(Strip(body)[1..|Strip(body)| - 1]);
    }
  }

  /** A name, then white space, then a colon at `m`: the name is the first `n` characters. */
  predicate LabelAt(body: string, n: nat, m: nat) {
    && 0 < n <= m < |body| && IsNameStart(body[0]) && body[m] == ':'
    && (forall i :: 0 <= i < n ==> IsNameChar(body[i])) && (forall i :: n <= i < m ==> IsSpace(body[i]))
  }

  ghost predicate HasLabel(body: string) {
    exists n: nat, m: nat :: LabelAt(body, n, m)
  }

  predicate ColonsAt(s: string, n: nat) {
    n + 1 < |s| && s[n] == ':' && s[n + 1] == ':'
  }

  /** The first `::` is at `n`. */
  predicate HeadEnds(s: string, n: nat) {
    ColonsAt(s, n) && forall i :: 0 <= i < n ==> !ColonsAt(s, i)
  }

  predicate NoColons(s: string) {
    forall i :: 0 <= i < |s| ==> !ColonsAt(s, i)
  }

  /** The text has a slash or ends in `.py`. */
  predicate PathLike(head: string) {
    '/' in head || (|head| >= 3 && head[|head| - 3..] == ".py")
  }

  predicate KindPrefix(raw: string, kind: string) {
    IsKind(kind) && kind + "::" <= raw
  }

  ghost predicate HasKind(raw: string) {
    exists kind :: KindPrefix(raw, kind)
  }

  // ---- What each form is read as ----------------------------------------------------------

  lemma {:induction false} NameRuns(s: string)
    ensures var n := NameLength(s);
            (forall i :: 0 <= i < n ==> IsNameChar(s[i])) && (n < |s| ==> !IsNameChar(s[n]))
  {
    if s != "" && IsNameChar(s[0]) {
      NameRuns(s[1..]);
    }
  }

  lemma ColonIsPlain()
    ensures !IsSpace(':') && !IsNameChar(':') && forall c :: IsSpace(c) ==> !IsNameChar(c)
  {
  }

  lemma LabelUnique(body: string, n: nat, m: nat)
    requires LabelAt(body, n, m)
    ensures Labeled(body) == Some((body[..n], StripLeft(body[m + 1..])))
  {
    ColonIsPlain();
    assert IsNameChar(body[0]);
    NameRunsTo(body, n);
    SpacesThenColon(body[n..], m - n);
    assert body[n..][m - n..] == body[m..];
  }

  lemma {:induction false} SpacesThenColon(s: string, k: nat)
    requires k < |s| && s[k] == ':' && forall i :: 0 <= i < k ==> IsSpace(s[i])
    ensures StripLeft(s) == s[k..]
  {
    if k > 0 {
      SpacesThenColon(s[1..], k - 1);
    }
  }

  lemma LabelFound(body: string)
    ensures Labeled(body).Some? <==> HasLabel(body)
  {
    if n: nat, m: nat :| LabelAt(body, n, m) {
      LabelUnique(body, n, m);
    }
    if Labeled(body).Some? {
      var n := NameLength(body);
      NameRuns(body);
      assert n > 0 by { assert IsNameChar(body[0]); }
      var rest := StripLeft(body[n..]);
      StripLeftLaws(body[n..]);
      var m := |body| - |rest|;
      assert rest == body[n..][|body| - n - |rest|..] == body[m..];
      assert LabelAt(body, n, m);
    }
  }

  lemma {:induction false} FirstColonsRead(s: string)
    ensures FirstDoubleColon(s) == |s| <==> NoColons(s)
    ensures FirstDoubleColon(s) < |s| ==> HeadEnds(s, FirstDoubleColon(s))
  {
    if |s| >= 2 && s[0] == ':' && s[1] == ':' {
      assert ColonsAt(s, 0);
    } else if |s| >= 2 {
      FirstColonsRead(s[1..]);
      assert forall i :: 0 < i < |s| ==> (ColonsAt(s, i) <==> ColonsAt(s[1..], i - 1));
      assert NoColons(s) <==> NoColons(s[1..]) by {
        assert forall i :: 0 <= i < |s[1..]| ==> (ColonsAt(s[1..], i) <==> ColonsAt(s, i + 1));
      }
    }
  }

  lemma {:induction false} PrefixFound(raw: string, kinds: seq<string>)
    ensures PrefixKind(raw, kinds).Some? <==> exists kind :: kind in kinds && kind + "::" <= raw
  {
    if kinds != [] {
      PrefixFound(raw, kinds[1..]);
      assert forall k :: k in kinds <==> k == kinds[0] || k in kinds[1..];
    }
  }

  lemma PrefixReads(raw: string)
    ensures PrefixKind(raw, KINDS).Some? <==> HasKind(raw)
    ensures PrefixKind(raw, KINDS).Some? ==> KindPrefix(raw, PrefixKind(raw, KINDS).value)
  {
    PrefixFound(raw, KINDS);
    forall k ensures k in KINDS <==> IsKind(k) {
      KindsAre(k);
    }
    if kind :| KindPrefix(raw, kind) {
      assert kind in KINDS && kind + "::" <= raw;
    }
    if PrefixKind(raw, KINDS).Some? {
      assert KindPrefix(raw, PrefixKind(raw, KINDS).value);
    }
  }

  /** A head before `::` that has a kind's name is no path, and starting with `tests/` means having a slash. */
  lemma PathLikeReads(head: string)
    ensures LooksLikePath(head) <==> PathLike(head)
  {
    KindsAre(head);
    assert "pytest"[3..] == "est" && "manual"[3..] == "ual" && "shell"[2..] == "ell" && "browser"[4..] == "ser";
    assert ".py"[0] == '.' && "est"[0] == 'e' && "ual"[0] == 'u' && "ell"[0] == 'e' && "ser"[0] == 's';
    assert '/' !in "pytest" && '/' !in "manual" && '/' !in "shell" && '/' !in "browser";
    if "tests/" <= head {
      assert "tests/"[5] == '/' && head[5] == '/';
    }
  }

  /** What a body is read as, form by form. */
  ghost predicate BodyReads(body: string, raw: string, item: Item) {
    && (raw == "" ==> item == Bad(EmptyEntry))
    && (raw != "" && raw[0] == ':' ==> item == Bad(EmptyKind))
    && (raw != "" && raw[0] != ':' ==>
         && (forall kind :: KindPrefix(raw, kind) ==> item == Entry(kind, raw[|kind| + 2..]))
         && (!HasKind(raw) && HasLabel(body) ==> LabelReads(body, item))
         && (!HasKind(raw) && !HasLabel(body) ==> PathReads(raw, item)))
  }

  /** A known label, in any case, gives its kind and the bare text after it; any other is an error. */
  ghost predicate LabelReads(body: string, item: Item) {
    forall n: nat, m: nat :: LabelAt(body, n, m) ==>
      var name := body[..n];
      if IsKind(Lower(name)) then item.Entry? && item.kind == Lower(name) && Bares(body[m + 1..], item.text)
      else item == Bad(UnknownKind(name))
  }

  /** A text without `::`, or with a path before the first one, is a pytest reference as it stands; any other head is an
      error. */
  ghost predicate PathReads(raw: string, item: Item) {
    && (NoColons(raw) ==> item == Entry("pytest", raw))
    && (forall n: nat :: HeadEnds(raw, n) ==>
          if PathLike(raw[..n]) then item == Entry("pytest", raw) else item == Bad(UnknownKind(raw[..n])))
  }

  lemma KindPrefixUnique(raw: string, a: string, b: string)
    requires KindPrefix(raw, a) && KindPrefix(raw, b)
    ensures a == b
  {
    KindsAre(a);
    KindsAre(b);
    KindLetters(a);
    KindLetters(b);
    assert a[0] == (a + "::")[0] == raw[0] == (b + "::")[0] == b[0];
  }

  lemma LabelCase(body: string, n: nat, m: nat)
    requires LabelAt(body, n, m)
    ensures Labeled(body).Some? && Labeled(body).value.0 == body[..n]
    ensures Bares(body[m + 1..], Unquote(Labeled(body).value.1))
  {
    LabelUnique(body, n, m);
    StripAfterLeft(body[m + 1..]);
    UnquoteReads(StripLeft(body[m + 1..]));
  }

  lemma StripAfterLeft(s: string)
    ensures Strip(StripLeft(s)) == Strip(s)
  {
    StripLeftLaws(s);
    var t := StripLeft(s);
    assert t == "" || !IsSpace(t[0]);
    assert StripLeft(t) == t;
  }

  lemma HeadUnique(raw: string, n: nat)
    requires HeadEnds(raw, n)
    ensures FirstDoubleColon(raw) == n
  {
    FirstColonsRead(raw);
    assert ColonsAt(raw, n);
  }

  lemma PathCase(raw: string, item: Item)
    requires raw != ""
    requires var n := FirstDoubleColon(raw);
             item == if n == |raw| || LooksLikePath(raw[..n]) then Entry("pytest", raw) else Bad(UnknownKind(raw[..n]))
    ensures PathReads(raw, item)
  {
    FirstColonsRead(raw);
    forall n: nat | HeadEnds(raw, n)
      ensures FirstDoubleColon(raw) == n && (LooksLikePath(raw[..n]) <==> PathLike(raw[..n]))
    {
      HeadUnique(raw, n);
      PathLikeReads(raw[..n]);
    }
  }

  lemma ParseBodyReads(body: string)
    ensures BodyReads(body, Unquote(body), ParseBody(body))
  {
    var raw := Unquote(body);
    UnquoteReads(body);
    StripIdempotent(raw);
    PrefixReads(raw);
    LabelFound(body);
    if raw != "" && raw[0] != ':' {
      if HasKind(raw) {
        forall kind | KindPrefix(raw, kind) ensures kind == PrefixKind(raw, KINDS).value {
          KindPrefixUnique(raw, kind, PrefixKind(raw, KINDS).value);
        }
      } else if HasLabel(body) {
        KindsAre(Lower(Labeled(body).value.0));
        forall n: nat, m: nat | LabelAt(body, n, m)
          ensures Labeled(body).value.0 == body[..n] && Bares(body[m + 1..], Unquote(Labeled(body).value.1))
        {
          LabelCase(body, n, m);
        }
      } else {
        PathCase(raw, ParseBody(body));
      }
    }
  }

  /** An item written at any depth, with any trimmed text after the dash. */
  lemma ItemReads(pad: string, body: string)
    requires forall i :: 0 <= i < |pad| ==> pad[i] == ' '
    requires body != "" && Stripped(body)
    ensures BodyReads(body, if Quoted(body) then Strip(body[1..|body| - 1]) else body, ParseItem(pad + "- " + body))
  {
    ItemBodyFinds(pad, body);
    StripIdempotent(body);
    UnquoteReads(body);
    ParseBodyReads(body);
  }

  // ---- At the gate ------------------------------------------------------------------------

  predicate IsQuote(c: char) {
    c == '"' || c == '\''
  }

  /** A reference as it is usually written: a path, then nothing or `::` and a test name, without quotes around it. */
  ghost predicate PlainReference(path: string, tail: string) {
    && path != "" && Stripped(path) && PathLike(path) && NoColons(path)
    && path[0] != ':' && path[|path| - 1] != ':' && (tail == "" || "::" <= tail)
    && Stripped(path + tail) && !IsQuote(path[0]) && !IsQuote((path + tail)[|path + tail| - 1])
    && !HasLabel(path + tail) && !HasKind(path + tail)
  }

  lemma ReferenceHead(path: string, tail: string)
    requires PlainReference(path, tail)
    ensures if tail == "" then NoColons(path + tail) else HeadEnds(path + tail, |path|)
    ensures (path + tail)[..|path|] == path
    ensures FirstDoubleColon(path + tail) == |path|
  {
    var t := path + tail;
    forall i | 0 <= i < |path| ensures !ColonsAt(t, i) {
      assert t[i] == path[i] && !ColonsAt(path, i);
      if i + 1 < |path| {
        assert t[i + 1] == path[i + 1];
      }
    }
    if tail == "" {
      assert t == path;
    } else {
      assert t[|path|] == tail[0] == "::"[0] == ':' && t[|path| + 1] == tail[1] == "::"[1] == ':';
      assert ColonsAt(t, |path|);
    }
    FirstColonsRead(t);
    if tail != "" {
      HeadUnique(t, |path|);
    }
  }

  /** It is read as a pytest entry with the whole text, at any depth. */
  lemma ReferenceReads(pad: string, path: string, tail: string)
    requires forall i :: 0 <= i < |pad| ==> pad[i] == ' '
    requires PlainReference(path, tail)
    ensures ParseItem(pad + "- " + (path + tail)) == Entry("pytest", path + tail)
  {
    var t := path + tail;
    ReferenceHead(path, tail);
    ItemReads(pad, t);
    assert !Quoted(t) && t[0] == path[0];
  }

  lemma NoQuotesToStrip(s: string)
    requires s != "" && !IsQuote(s[0]) && !IsQuote(s[|s| - 1])
    ensures StripChar(StripChar(s, '"'), '\'') == s
  {
  }

  lemma ReferencePath(path: string, tail: string)
    requires PlainReference(path, tail)
    ensures Reference(path + tail) == path + tail && PathPart(path + tail) == path
  {
    var t := path + tail;
    StripIdempotent(t);
    NoQuotesToStrip(t);
    ReferenceHead(path, tail);
    StripIdempotent(path);
  }

  /** What an entry without its evidence is reported as. */
  lemma ErrorReads(e: TestEntry, exists_: string -> bool)
    ensures (e.kind == "manual" || e.kind == "shell" || e.kind == "browser") && Strip(e.text) == "" ==>
              EvidenceOf(exists_)(e) == [EmptyText(e.line, e.kind)]
    ensures e.kind == "pytest" && Strip(e.text) == "" ==> EvidenceOf(exists_)(e) == [EmptyReference(e.line)]
  {
    KindsTellApart();
    if Strip(e.text) == "" {
      assert StripChar("", '"') == "" && StripChar("", '\'') == "";
      assert Reference(e.text) == "";
    }
  }

  lemma MissingFileReads(line: nat, path: string, tail: string, exists_: string -> bool)
    requires PlainReference(path, tail) && !exists_(path)
    ensures EvidenceOf(exists_)(TestEntry(line, "pytest", path + tail)) == [MissingFile(line, path)]
    ensures !Supported(TestEntry(line, "pytest", path + tail), exists_)
  {
    KindsTellApart();
    ReferencePath(path, tail);
  }

  lemma KindsTellApart()
    ensures "pytest" != "manual" && "pytest" != "shell" && "pytest" != "browser"
  {
    assert "pytest"[0] == 'p' && "manual"[0] == 'm' && "shell"[0] == 's' && "browser"[0] == 'b';
  }

  lemma UnsupportedIsReported(items: seq<ItemLine>, x: ItemLine, exists_: string -> bool)
    requires x in items && x.line.item.Entry?
    requires !Supported(TestEntry(x.index + 1, x.line.item.kind, x.line.item.text), exists_)
    ensures FlatMap(EntriesOf(items), EvidenceOf(exists_)) != []
    ensures var e := TestEntry(x.index + 1, x.line.item.kind, x.line.item.text);
            forall error :: error in EvidenceOf(exists_)(e) ==> error in FlatMap(EntriesOf(items), EvidenceOf(exists_))
  {
    var e := TestEntry(x.index + 1, x.line.item.kind, x.line.item.text);
    var entries := EntriesOf(items);
    var i :| 0 <= i < |items| && items[i] == x;
    FlatMapMember(items, EntryOf, e);
    assert e in EntryOf(items[i]) && e in entries;
    EvidenceReportedIff(e, exists_);
    var j :| 0 <= j < |entries| && entries[j] == e;
    FlatMapEmpty(entries, EvidenceOf(exists_));
    assert EvidenceOf(exists_)(entries[j]) != [];
    forall error | error in EvidenceOf(exists_)(e) ensures error in FlatMap(entries, EvidenceOf(exists_)) {
      FlatMapMember(entries, EvidenceOf(exists_), error);
    }
  }

  lemma ReferenceLine(raw: string, pad: string, path: string, tail: string)
    requires forall i :: 0 <= i < |pad| ==> pad[i] == ' '
    requires PlainReference(path, tail) && raw == pad + "- " + (path + tail)
    ensures ReadLine(raw).item == Entry("pytest", path + tail)
  {
    ReferenceReads(pad, path, tail);
  }

  lemma ReportedEvidence(block: string, text: string, verdict: string, requirePass: bool, exists_: string -> bool)
    ensures ReportOf(block, text, verdict, requirePass, exists_).evidence
         == FlatMap(EntriesOf(AllItems(BlocksOf(LinesOf(text)))), EvidenceOf(exists_))
  {
  }

  /** A dash and a space make a list marker, whatever follows. */
  lemma MarkerReads(pad: string, body: string)
    requires (forall i :: 0 <= i < |pad| ==> pad[i] == ' ') && body != "" && !IsSpace(body[0])
    ensures ReadLine(pad + "- " + body).marker
  {
    ItemBodyFinds(pad, body);
  }

  lemma MissingEntryIsReported(text: string, blocks: seq<Block>, x: ItemLine, path: string, tail: string,
                               verdict: string, requirePass: bool, exists_: string -> bool)
    requires PlainReference(path, tail) && !exists_(path) && blocks == BlocksOf(LinesOf(text))
    requires x in AllItems(blocks) && x.line.item == Entry("pytest", path + tail)
    ensures var report := ReportOf(GateBlock(text), text, verdict, requirePass, exists_);
            !report.EvidenceClean() && MissingFile(x.index + 1, path) in report.evidence
  {
    MissingFileReads(x.index + 1, path, tail, exists_);
    UnsupportedIsReported(AllItems(blocks), x, exists_);
    ReportedEvidence(GateBlock(text), text, verdict, requirePass, exists_);
  }

  /** A packet with such an item for a missing file is reported, with the line and the path. */
  lemma MissingFileIsReported(text: string, blocks: seq<Block>, x: ItemLine, raw: string, pad: string, path: string,
                              tail: string, verdict: string, requirePass: bool, exists_: string -> bool)
    requires forall i :: 0 <= i < |pad| ==> pad[i] == ' '
    requires PlainReference(path, tail) && !exists_(path) && raw == pad + "- " + (path + tail)
    requires blocks == BlocksOf(LinesOf(text)) && x in AllItems(blocks) && x.line == ReadLine(raw)
    ensures var report := ReportOf(GateBlock(text), text, verdict, requirePass, exists_);
            !report.EvidenceClean() && MissingFile(x.index + 1, path) in report.evidence
  {
    ReferenceLine(raw, pad, path, tail);
    MissingEntryIsReported(text, blocks, x, path, tail, verdict, requirePass, exists_);
  }

  // ---- The report, error by error ------------------------------------------------------------

  predicate Occurs(part: string, s: string) {
    exists i :: 0 <= i <= |s| && part <= s[i..]
  }

  lemma {:induction false} ContainsReads(s: string, part: string)
    ensures Contains(s, part) <==> Occurs(part, s)
  {
    if part <= s {
      assert part <= s[0..];
    } else if s != "" {
      ContainsReads(s[1..], part);
      if i :| 0 <= i <= |s[1..]| && part <= s[1..][i..] {
        assert s[1..][i..] == s[i + 1..];
      }
      if i :| 0 <= i <= |s| && part <= s[i..] {
        assert i > 0 && s[1..][i - 1..] == s[i..];
      }
    }
  }

  /** The tokens asked for that the block does not show. */
  lemma TokensRead(block: string, token: string)
    ensures token in Filter(REQUIRED_TOKENS, Absent(block)) <==>
            (token == "handoff_id:" || token == "verdict:" || token == "acceptance_criteria:" ||
             token == "regression_checked:") && !Occurs(token, block)
  {
    FilterMember(REQUIRED_TOKENS, Absent(block), token);
    ContainsReads(block, token);
    assert REQUIRED_TOKENS[0] == "handoff_id:" && REQUIRED_TOKENS[1] == "verdict:";
    assert REQUIRED_TOKENS[2] == "acceptance_criteria:" && REQUIRED_TOKENS[3] == "regression_checked:";
  }

  /** Each bad item is an error at its own line, and nothing else is; each good one an entry. */
  lemma ItemsRead(items: seq<ItemLine>)
    ensures forall error :: error in ErrorsOf(items) <==>
              exists x :: x in items && x.line.item.Bad? && error == ParseError(x.index + 1, x.line.item.error)
    ensures forall e :: e in EntriesOf(items) <==>
              exists x :: x in items && x.line.item.Entry? &&
                          e == TestEntry(x.index + 1, x.line.item.kind, x.line.item.text)
  {
    forall error ensures error in ErrorsOf(items) <==>
              exists x :: x in items && x.line.item.Bad? && error == ParseError(x.index + 1, x.line.item.error)
    {
      FlatMapMember(items, ErrorOf, error);
      if x :| x in items && x.line.item.Bad? && error == ParseError(x.index + 1, x.line.item.error) {
        var i :| 0 <= i < |items| && items[i] == x;
        assert error in ErrorOf(items[i]);
      }
    }
    forall e ensures e in EntriesOf(items) <==>
              exists x :: x in items && x.line.item.Entry? &&
                          e == TestEntry(x.index + 1, x.line.item.kind, x.line.item.text)
    {
      FlatMapMember(items, EntryOf, e);
      if x :| x in items && x.line.item.Entry? && e == TestEntry(x.index + 1, x.line.item.kind, x.line.item.text) {
        var i :| 0 <= i < |items| && items[i] == x;
        assert e in EntryOf(items[i]);
      }
    }
  }

  /** The block has no key at all. */
  predicate Keyless(b: Block) {
    b.lists == []
  }

  /** It has, but no item of any of its lists is an entry and no line of the last one has a list marker. */
  ghost predicate Itemless(b: Block) {
    && b.lists != []
    && (forall l, x :: l in b.lists && x in l.items ==> !x.line.item.Entry?)
    && (forall x :: x in b.lists[|b.lists| - 1].items ==> !x.line.marker)
  }

  lemma StructureReads(b: Block)
    ensures StructureOf(b) == if Keyless(b) then [MissingKey(b.head + 1)]
                              else if Itemless(b) then [NoItems(b.lists[|b.lists| - 1].key + 1)] else []
  {
    if !Keyless(b) {
      NoEntriesRead(b);
      NoMarkersRead(b.lists[|b.lists| - 1].items);
    }
  }

  lemma NoEntriesRead(b: Block)
    ensures EntriesOf(BlockItems(b)) == [] <==> forall l, x :: l in b.lists && x in l.items ==> !x.line.item.Entry?
  {
    var items := BlockItems(b);
    FlatMapEmpty(items, EntryOf);
    if EntriesOf(items) == [] {
      forall l, x | l in b.lists && x in l.items ensures !x.line.item.Entry? {
        var i :| 0 <= i < |b.lists| && b.lists[i] == l;
        FlatMapMember(b.lists, ListItems, x);
        var j :| 0 <= j < |items| && items[j] == x;
        assert EntryOf(items[j]) == [];
      }
    }
    if forall l, x :: l in b.lists && x in l.items ==> !x.line.item.Entry? {
      forall j | 0 <= j < |items| ensures EntryOf(items[j]) == [] {
        FlatMapMember(b.lists, ListItems, items[j]);
        assert items[j] in items;
        var i :| 0 <= i < |b.lists| && items[j] in ListItems(b.lists[i]);
        assert b.lists[i] in b.lists && items[j] in b.lists[i].items;
      }
    }
  }

  lemma NoMarkersRead(items: seq<ItemLine>)
    ensures Markers(items) == 0 <==> forall x :: x in items ==> !x.line.marker
  {
    FlatMapEmpty(items, MarkerOf);
    if Markers(items) == 0 {
      forall x | x in items ensures !x.line.marker {
        var i :| 0 <= i < |items| && items[i] == x;
        assert MarkerOf(items[i]) == [];
      }
    } else {
      assert FlatMap(items, MarkerOf) != [];
      var i :| 0 <= i < |items| && MarkerOf(items[i]) != [];
      assert items[i] in items;
    }
  }

  /** The whole report, source by source: missing tokens, a verdict that is not the one asked for, bad items, blocks
      without evidence lines, and a region in which nothing was found at all. */
  lemma ReportReads(block: string, text: string, verdict: string, requirePass: bool, exists_: string -> bool)
    ensures var report, blocks := ReportOf(block, text, verdict, requirePass, exists_), BlocksOf(LinesOf(text));
            && (forall token :: token in report.missingTokens <==>
                 (token == "handoff_id:" || token == "verdict:" || token == "acceptance_criteria:" ||
                  token == "regression_checked:") && !Occurs(token, block))
            && (report.badVerdict <==> requirePass && verdict != "PASS")
            && (forall error :: error in report.parse <==>
                  exists x :: x in AllItems(blocks) && x.line.item.Bad? &&
                              error == ParseError(x.index + 1, x.line.item.error))
            && (forall error :: error in report.structure <==> exists b :: b in blocks && Lacks(b, error))
            && (report.none <==> Region(LinesOf(text)).Some? && EntriesOf(AllItems(blocks)) == [] &&
                                 report.parse == [] && report.structure == [])
  {
    var blocks := BlocksOf(LinesOf(text));
    forall token ensures token in Filter(REQUIRED_TOKENS, Absent(block)) <==>
                 (token == "handoff_id:" || token == "verdict:" || token == "acceptance_criteria:" ||
                  token == "regression_checked:") && !Occurs(token, block)
    {
      TokensRead(block, token);
    }
    ItemsRead(AllItems(blocks));
    forall error ensures error in StructureErrors(blocks) <==> exists b :: b in blocks && Lacks(b, error) {
      StructureErrorsRead(blocks, error);
    }
  }

  ghost predicate Lacks(b: Block, error: StructureError) {
    || (Keyless(b) && error == MissingKey(b.head + 1))
    || (Itemless(b) && error == NoItems(b.lists[|b.lists| - 1].key + 1))
  }

  lemma StructureErrorsRead(blocks: seq<Block>, error: StructureError)
    ensures error in StructureErrors(blocks) <==> exists b :: b in blocks && Lacks(b, error)
  {
    FlatMapMember(blocks, StructureOf, error);
    if i :| 0 <= i < |blocks| && error in StructureOf(blocks[i]) {
      StructureReads(blocks[i]);
      assert blocks[i] in blocks && Lacks(blocks[i], error);
    }
    if b :| b in blocks && Lacks(b, error) {
      var i :| 0 <= i < |blocks| && blocks[i] == b;
      StructureReads(b);
      assert error in StructureOf(blocks[i]);
    }
  }
}
