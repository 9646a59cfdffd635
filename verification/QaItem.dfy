/** One `covering_tests` list item, down to the characters (src/canon_systems/qa_validate.py). */
module QaItem {
  import opened Text

  datatype ItemError = MalformedItem | EmptyEntry | EmptyKind | UnknownKind(kind: string)

  datatype Item = Entry(kind: string, text: string) | Bad(error: ItemError)

  const KINDS: seq<string> := ["pytest", "manual", "shell", "browser"]

  /** The group of `^\s*-\s+(.*)$`. */
  function ItemBody(line: string): Option<string> {
    var t := StripLeft(line);
    if |t| >= 2 && t[0] == '-' && IsSpace(t[1]) then Some(StripLeft(t[1..])) else None
  }

  function Unquote(raw: string): string {
    var s := Strip(raw);
    if |s| >= 2 && s[0] == s[|s| - 1] && (s[0] == '"' || s[0] == '\'') then Strip(s[1..|s| - 1]) else s
  }

  predicate IsNameStart(c: char) {
    'a' <= c <= 'z' || 'A' <= c <= 'Z' || c == '_'
  }

  predicate IsNameChar(c: char) {
    IsNameStart(c) || '0' <= c <= '9'
  }

  function NameLength(s: string): (n: nat)
    ensures n <= |s|
  {
    if s != "" && IsNameChar(s[0]) then 1 + NameLength(s[1..]) else 0
  }

  /** The groups of `^([a-zA-Z_][a-zA-Z0-9_]*)\s*:\s*(.*)$`. */
  function Labeled(s: string): Option<(string, string)> {
    if s == "" || !IsNameStart(s[0]) then None
    else
      var n := NameLength(s);
      var rest := StripLeft(s[n..]);
      if rest != "" && rest[0] == ':' then Some((s[..n], StripLeft(rest[1..]))) else None
  }

  /** The kind whose `kind::` prefix the text carries, tried in order. */
  function PrefixKind(raw: string, kinds: seq<string>): (r: Option<string>)
    ensures r.Some? ==> r.value in kinds && r.value + "::" <= raw
  {
    if kinds == [] then None
    else if kinds[0] + "::" <= raw then Some(kinds[0])
    else PrefixKind(raw, kinds[1..])
  }

  /** Index of the first `::`, or the length. */
  function FirstDoubleColon(s: string): (n: nat)
    ensures n <= |s|
    ensures n < |s| ==> n + 1 < |s| && s[n] == ':' && s[n + 1] == ':'
  {
    if |s| < 2 then |s|
    else if s[0] == ':' && s[1] == ':' then 0
    else 1 + FirstDoubleColon(s[1..])
  }

  predicate EndsWith(s: string, suffix: string) {
    |suffix| <= |s| && s[|s| - |suffix|..] == suffix
  }

  /** `_head_looks_like_unprefixed_pytest_path`. */
  predicate LooksLikePath(head: string) {
    head != "" && head !in KINDS && ('/' in head || EndsWith(head, ".py") || "tests/" <= head)
  }

  /** `_parse_covering_tests_item_line`. */
  function ParseItem(line: string): Item {
    var group := ItemBody(line);
    if group.None? then Bad(MalformedItem)
    else ParseBody(Strip(group.value))
  }

  function ParseBody(body: string): Item {
    var raw := Unquote(body);
    if Strip(raw) == "" then Bad(EmptyEntry)
    else if raw[0] == ':' then Bad(EmptyKind)
    else
      var kind := PrefixKind(raw, KINDS);
      if kind.Some? then Entry(kind.value, raw[|kind.value| + 2..])
      else
        var tag := Labeled(body);
        if tag.Some? then
          if Lower(tag.value.0) in KINDS then Entry(Lower(tag.value.0), Unquote(tag.value.1))
          else Bad(UnknownKind(tag.value.0))
        else
          var n := FirstDoubleColon(raw);
          if n == |raw| || LooksLikePath(raw[..n]) then Entry("pytest", raw)
          else Bad(UnknownKind(raw[..n]))
  }

  /** Only the four kinds ever come out. */
  lemma EntryKindsAllowed(line: string)
    ensures ParseItem(line).Entry? ==> ParseItem(line).kind in KINDS
  {
    assert "pytest" in KINDS by { assert KINDS[0] == "pytest"; }
  }

  // ---- Round trip ------------------------------------------------------------

  lemma {:induction false} StripLeftPad(pad: string, s: string)
    requires forall i :: 0 <= i < |pad| ==> IsSpace(pad[i])
    requires s != "" && !IsSpace(s[0])
    ensures StripLeft(pad + s) == s
  {
    if pad == "" {
      assert pad + s == s;
    } else {
      StripLeftPad(pad[1..], s);
      assert (pad + s)[1..] == pad[1..] + s;
    }
  }

  lemma KindLetters(kind: string)
    requires kind in KINDS
    ensures |kind| >= 5 && kind[0] in {'p', 'm', 's', 'b'} && !IsSpace(kind[0])
    ensures kind == KINDS[0] <==> kind[0] == 'p'
    ensures kind == KINDS[1] <==> kind[0] == 'm'
    ensures kind == KINDS[2] <==> kind[0] == 's'
    ensures kind == KINDS[3] <==> kind[0] == 'b'
  {
    assert KINDS[0][0] == 'p' && KINDS[1][0] == 'm' && KINDS[2][0] == 's' && KINDS[3][0] == 'b';
  }

  lemma {:induction false} PrefixKindFinds(kind: string, text: string, kinds: seq<string>)
    requires kind in kinds && kind != ""
    requires forall i :: 0 <= i < |kinds| ==> kinds[i] != "" && (kinds[i][0] == kind[0] ==> kinds[i] == kind)
    ensures PrefixKind(kind + "::" + text, kinds) == Some(kind)
  {
    var raw := kind + "::" + text;
    if kinds[0] == kind {
      assert raw[..|kind| + 2] == kind + "::";
    } else {
      assert kinds[0][0] == (kinds[0] + "::")[0] && raw[0] == kind[0];
      assert kind in kinds[1..] by { assert kinds == [kinds[0]] + kinds[1..]; }
      PrefixKindFinds(kind, text, kinds[1..]);
    }
  }

  lemma UnquoteKeeps(s: string)
    requires Stripped(s) && s != "" && s[0] != '"' && s[0] != '\''
    ensures Unquote(s) == s
  {
    StripIdempotent(s);
  }

  lemma ItemBodyFinds(pad: string, body: string)
    requires forall i :: 0 <= i < |pad| ==> pad[i] == ' '
    requires body != "" && !IsSpace(body[0])
    ensures ItemBody(pad + "- " + body) == Some(body)
  {
    assert pad + "- " + body == pad + ("- " + body);
    StripLeftPad(pad, "- " + body);
    assert ("- " + body)[1..] == " " + body;
    StripLeftPad(" ", body);
  }

  lemma PrefixAmongKinds(kind: string, text: string)
    requires kind in KINDS
    ensures PrefixKind(kind + "::" + text, KINDS) == Some(kind)
  {
    KindLetters(kind);
    forall i | 0 <= i < |KINDS| ensures KINDS[i] != "" && (KINDS[i][0] == kind[0] ==> KINDS[i] == kind) {
      KindLetters(KINDS[i]);
    }
    PrefixKindFinds(kind, text, KINDS);
  }

  lemma BodyIsPlain(kind: string, text: string)
    requires kind in KINDS && Stripped(text)
    ensures var body := kind + "::" + text;
            Stripped(body) && Unquote(body) == body && Strip(body) == body && body != "" && body[0] != ':'
  {
    var body := kind + "::" + text;
    KindLetters(kind);
    assert body[0] == kind[0];
    assert body[|body| - 1] == if text == "" then ':' else text[|text| - 1];
    UnquoteKeeps(body);
    StripIdempotent(body);
  }

  /** The branch of `ParseBody` that an explicit `kind::` prefix takes. */
  lemma PrefixBranch(body: string, kind: string)
    requires Unquote(body) == body && Strip(body) == body && body != "" && body[0] != ':'
    requires PrefixKind(body, KINDS) == Some(kind)
    ensures ParseBody(body) == Entry(kind, body[|kind| + 2..])
  {
  }

  lemma BodyRoundTrip(kind: string, text: string)
    requires kind in KINDS && Stripped(text)
    ensures ParseBody(kind + "::" + text) == Entry(kind, text)
  {
    var body := kind + "::" + text;
    BodyIsPlain(kind, text);
    PrefixAmongKinds(kind, text);
    PrefixBranch(body, kind);
    assert body[|kind| + 2..] == text;
  }

  /** An item written as `- kind::text` is read back as that kind and that text. */
  lemma ItemRoundTrip(pad: string, kind: string, text: string)
    requires forall i :: 0 <= i < |pad| ==> pad[i] == ' '
    requires kind in KINDS && Stripped(text)
    ensures ParseItem(pad + "- " + (kind + "::" + text)) == Entry(kind, text)
  {
    var body := kind + "::" + text;
    KindLetters(kind);
    assert body[0] == kind[0];
    ItemBodyFinds(pad, body);
    BodyIsPlain(kind, text);
    BodyRoundTrip(kind, text);
  }

  // ---- A criterion line is no evidence -----------------------------------------------

  const CRITERION := "criterion"

  lemma {:induction false} NameRunsTo(s: string, k: nat)
    requires k < |s| && !IsNameChar(s[k]) && forall i :: 0 <= i < k ==> IsNameChar(s[i])
    ensures NameLength(s) == k
  {
    if k > 0 {
      NameRunsTo(s[1..], k - 1);
    }
  }

  lemma {:induction false} NoKindStarts(raw: string, kinds: seq<string>)
    requires raw != "" && forall i :: 0 <= i < |kinds| ==> kinds[i] != "" && kinds[i][0] != raw[0]
    ensures PrefixKind(raw, kinds).None?
  {
    if kinds != [] {
      NoKindStarts(raw, kinds[1..]);
    }
  }

  lemma CriterionIsLabel(body: string)
    requires CRITERION <= body && |body| > 9 && body[9] == ':'
    ensures Labeled(body).Some? && Labeled(body).value.0 == CRITERION
  {
    assert body[..9] == CRITERION;
    forall i | 0 <= i < 9 ensures IsNameChar(body[i]) {
      assert body[i] == CRITERION[i];
    }
    NameRunsTo(body, 9);
    assert StripLeft(body[9..]) == body[9..];
  }

  lemma CriterionIsNoKind()
    ensures Lower(CRITERION) !in KINDS
  {
    var s := CRITERION;
    assert |Lower(s)| == 9;
    assert forall i :: 0 <= i < |KINDS| ==> |KINDS[i]| < 9;
  }

  lemma CriterionBody(body: string)
    requires CRITERION <= body && |body| > 9 && body[9] == ':' && Stripped(body)
    ensures ParseBody(body) == Bad(UnknownKind(CRITERION))
  {
    assert body[0] == CRITERION[0] == 'c';
    UnquoteKeeps(body);
    StripIdempotent(body);
    NoKindStarts(body, KINDS);
    CriterionIsLabel(body);
    CriterionIsNoKind();
  }

  /** A line that begins a criterion, read as a list item, is always a parse error. */
  lemma CriterionItemIsBad(line: string)
    requires "- criterion:" <= Strip(line)
    ensures ParseItem(line) == Bad(UnknownKind(CRITERION))
  {
    var t := StripLeft(line);
    StripRightLaws(t);
    assert "- criterion:" <= t;
    var group := t[2..];
    assert t[0] == '-' && t[1] == ' ' && t[2] == 'c';
    assert t[1..][1..] == group && StripLeft(t[1..]) == StripLeft(group) == group;
    StripRightLaws(group);
    var body := StripRight(group);
    assert group[9] == t[11] == ':' && !IsSpace(group[9]);
    forall i | 0 <= i < 9 ensures group[i] == CRITERION[i] {
      assert group[i] == t[i + 2] == "- criterion:"[i + 2];
    }
    assert |body| > 9;
    assert body[..9] == CRITERION;
    CriterionBody(body);
  }
}
