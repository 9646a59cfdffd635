/** Content-addressed archive object keys (backend/shared/canon_backend_shared/packet_archive.py). */
module ArchiveKeys {
  import opened Text
  import opened Delimited
  import opened StoreKeys

  // ---- Digests ----------------------------------------------------------------------------

  predicate IsHex(c: char) {
    '0' <= c <= '9' || 'a' <= c <= 'f'
  }

  /** `normalize_sha256_hex`. */
  function NormalizeDigest(value: string): (r: Result<string>)
    ensures r.Ok? ==> |r.value| == 64 && '/' !in r.value
  {
    var v := Lower(Strip(value));
    if |v| == 64 && forall i :: 0 <= i < |v| ==> IsHex(v[i]) then Ok(v) else Err(BadDigest)
  }

  // ---- The prefix ---------------------------------------------------------------------------

  function StripSlashesLeft(s: string): string {
    if s != "" && s[0] == '/' then StripSlashesLeft(s[1..]) else s
  }

  function StripSlashesRight(s: string): string {
    if s != "" && s[|s| - 1] == '/' then StripSlashesRight(s[..|s| - 1]) else s
  }

  /** `str.strip("/")`. */
  function StripSlashes(s: string): string {
    StripSlashesRight(StripSlashesLeft(s))
  }

  const PREFIX_SEGMENT := "archive_prefix_segment"

  /** The sanitised non-blank pieces, in order. */
  function PrefixParts(pieces: seq<string>): Result<seq<string>> {
    if pieces == [] then Ok([])
    else
      var before := PrefixParts(pieces[..|pieces| - 1]);
      var piece := Strip(pieces[|pieces| - 1]);
      if before.Err? || piece == "" then before
      else
        var s := ArchiveSegment(piece, PREFIX_SEGMENT);
        if s.Err? then Err(s.error) else Ok(before.value + [s.value])
  }

  function NormalizedPrefix(prefix: string): Result<string> {
    var p := StripSlashes(Strip(prefix));
    if p == "" then Ok("")
    else
      var parts := PrefixParts(Split(p, '/'));
      if parts.Err? then Err(parts.error) else Ok(Join(parts.value, '/'))
  }

  /** `normalize_archive_prefix`: the loop over the pieces. */
  method NormalizeArchivePrefix(prefix: string) returns (r: Result<string>)
    ensures r == NormalizedPrefix(prefix)
  {
    var p := StripSlashes(Strip(prefix));
    if p == "" {
      return Ok("");
    }
    var pieces := Split(p, '/');
    var parts: seq<string> := [];
    for i := 0 to |pieces|
      invariant PrefixParts(pieces[..i]) == Ok(parts)
    {
      assert pieces[..i + 1][..i] == pieces[..i];
      var piece := Strip(pieces[i]);
      if piece != "" {
        var s := ArchiveSegment(piece, PREFIX_SEGMENT);
        if s.Err? {
          FailureStays(pieces, i + 1);
          return Err(s.error);
        }
        parts := parts + [s.value];
      }
    }
    assert pieces[..|pieces|] == pieces;
    r := Ok(Join(parts, '/'));
  }

  lemma {:induction false} FailureStays(pieces: seq<string>, n: nat)
    requires n <= |pieces| && PrefixParts(pieces[..n]).Err?
    ensures PrefixParts(pieces) == PrefixParts(pieces[..n])
  {
    if n == |pieces| {
      assert pieces[..n] == pieces;
    } else {
      assert pieces[..|pieces| - 1][..n] == pieces[..n];
      FailureStays(pieces[..|pieces| - 1], n);
    }
  }

  /** A segment that sanitising accepts unchanged. */
  ghost predicate CleanPart(s: string) {
    ArchiveSegment(s, PREFIX_SEGMENT) == Ok(s) && Strip(s) == s && s != "" && '/' !in s
  }

  ghost predicate CleanParts(parts: seq<string>) {
    forall i :: 0 <= i < |parts| ==> CleanPart(parts[i])
  }

  lemma SegmentIsClean(piece: string)
    requires ArchiveSegment(piece, PREFIX_SEGMENT).Ok?
    ensures CleanPart(ArchiveSegment(piece, PREFIX_SEGMENT).value)
  {
    StripIdempotent(piece);
  }

  lemma {:induction false} PrefixPartsClean(pieces: seq<string>)
    requires PrefixParts(pieces).Ok?
    ensures CleanParts(PrefixParts(pieces).value)
  {
    if pieces != [] {
      PrefixPartsClean(pieces[..|pieces| - 1]);
      var piece := Strip(pieces[|pieces| - 1]);
      if piece != "" {
        SegmentIsClean(piece);
      }
    }
  }

  lemma {:induction false} CleanPartsStay(parts: seq<string>)
    requires CleanParts(parts)
    ensures PrefixParts(parts) == Ok(parts)
  {
    if parts != [] {
      var front, last := parts[..|parts| - 1], parts[|parts| - 1];
      assert forall i :: 0 <= i < |front| ==> front[i] == parts[i];
      CleanPartsStay(front);
      assert CleanPart(last);
      assert front + [last] == parts;
    }
  }

  /** The join of clean parts begins and ends with neither a space nor a slash. */
  lemma {:induction false} JoinEnds(parts: seq<string>)
    requires |parts| >= 1 && CleanParts(parts)
    ensures var q := Join(parts, '/');
            q != "" && q[0] == parts[0][0] && q[|q| - 1] == parts[|parts| - 1][|parts[|parts| - 1]| - 1]
  {
    assert CleanPart(parts[0]);
    if |parts| > 1 {
      assert CleanParts(parts[1..]);
      JoinEnds(parts[1..]);
    }
  }

  lemma CleanPartEnds(s: string)
    requires CleanPart(s)
    ensures !IsSpace(s[0]) && !IsSpace(s[|s| - 1]) && s[0] != '/' && s[|s| - 1] != '/'
  {
    StripIdempotent(s);
  }

  lemma EndsStay(q: string)
    requires q != "" && !IsSpace(q[0]) && !IsSpace(q[|q| - 1]) && q[0] != '/' && q[|q| - 1] != '/'
    ensures StripSlashes(Strip(q)) == q
  {
    StripIdempotent(q);
  }

  lemma JoinNormal(parts: seq<string>)
    requires CleanParts(parts)
    ensures NormalizedPrefix(Join(parts, '/')) == Ok(Join(parts, '/'))
  {
    if |parts| >= 1 {
      JoinEnds(parts);
      CleanPartEnds(parts[0]);
      CleanPartEnds(parts[|parts| - 1]);
      EndsStay(Join(parts, '/'));
      CleanPartsStay(parts);
      SplitJoin(parts, '/');
    }
  }

  /** A normalised prefix is a fixed point of normalisation. */
  lemma PrefixNormalForm(prefix: string)
    requires NormalizedPrefix(prefix).Ok?
    ensures NormalizedPrefix(NormalizedPrefix(prefix).value) == NormalizedPrefix(prefix)
  {
    var p := StripSlashes(Strip(prefix));
    if p != "" {
      PrefixPartsClean(Split(p, '/'));
      JoinNormal(PrefixParts(Split(p, '/')).value);
    }
  }

  // ---- Object keys -----------------------------------------------------------------------------

  /** The scope fields, kind, digest and optional subtype of one archived object. */
  datatype ArchiveFields = ArchiveFields(
    company: string, repository: string, plan: string, task: string, workstream: string, handoff: string,
    phase: string, kind: string, digest: string, subtype: string)

  function ScopeParts(f: ArchiveFields): seq<(string, string)> {
    [(f.company, "company_id"), (f.repository, "repository_id"), (f.plan, "plan_id"), (f.task, "task_id"),
     (f.workstream, "workstream_id"), (f.handoff, "handoff_id"), (f.phase, "phase"), (f.kind, "artifact_kind")]
  }

  function SubtypeParts(f: ArchiveFields): seq<(string, string)> {
    if Strip(f.subtype) == "" then [] else [(f.subtype, "evidence_subtype")]
  }

  const V1 := "v1"

  /** `build_archive_object_key`. */
  function ArchiveKey(prefix: string, f: ArchiveFields): Result<string> {
    var norm := NormalizedPrefix(prefix);
    var digest := NormalizeDigest(f.digest);
    var segments := Sanitized(ScopeParts(f) + SubtypeParts(f), ArchiveSegment);
    if norm.Err? then norm else if digest.Err? then digest else if segments.Err? then Err(segments.error)
    else
      var tail := Join([V1] + segments.value + [digest.value], '/');
      Ok(if norm.value != "" then norm.value + "/" + tail else tail)
  }

  /** The segments of a key after the prefix. */
  function KeyParts(f: ArchiveFields): seq<string>
    requires NormalizeDigest(f.digest).Ok?
  {
    [V1] + Trimmed(ScopeParts(f) + SubtypeParts(f)) + [NormalizeDigest(f.digest).value]
  }

  lemma ArchiveKeyParts(prefix: string, f: ArchiveFields)
    requires ArchiveKey(prefix, f).Ok?
    ensures NormalizeDigest(f.digest).Ok? && Clear(KeyParts(f), '/')
    ensures var norm := NormalizedPrefix(prefix).value;
            ArchiveKey(prefix, f).value == (if norm != "" then norm + "/" else "") + Join(KeyParts(f), '/')
  {
    SegmentsTrim();
    SanitizedTrims(ScopeParts(f) + SubtypeParts(f), ArchiveSegment, '/');
  }

  /** Under one prefix a key determines every trimmed field, the digest and the subtype, present or not. */
  lemma ArchiveKeyInjective(prefix: string, f: ArchiveFields, g: ArchiveFields)
    requires ArchiveKey(prefix, f).Ok? && ArchiveKey(prefix, f) == ArchiveKey(prefix, g)
    ensures Trimmed(ScopeParts(f)) == Trimmed(ScopeParts(g))
    ensures Strip(f.subtype) == Strip(g.subtype) && NormalizeDigest(f.digest) == NormalizeDigest(g.digest)
  {
    ArchiveKeyParts(prefix, f);
    ArchiveKeyParts(prefix, g);
    var norm := NormalizedPrefix(prefix).value;
    var start := if norm != "" then norm + "/" else "";
    var a, b := KeyParts(f), KeyParts(g);
    assert (start + Join(a, '/'))[|start|..] == Join(a, '/') && (start + Join(b, '/'))[|start|..] == Join(b, '/');
    JoinInjective(a, b, '/');
    PartsDetermine(f, g);
  }

  lemma {:induction false} TrimmedConcat(a: seq<(string, string)>, b: seq<(string, string)>)
    ensures Trimmed(a + b) == Trimmed(a) + Trimmed(b)
  {
    if a == [] {
      assert a + b == b;
    } else {
      TrimmedConcat(a[1..], b);
      assert (a + b)[1..] == a[1..] + b && (a + b)[0] == a[0];
      var h, t, u := [Strip(a[0].0)], Trimmed(a[1..]), Trimmed(b);
      assert h + (t + u) == (h + t) + u;
    }
  }

  lemma PartsDetermine(f: ArchiveFields, g: ArchiveFields)
    requires NormalizeDigest(f.digest).Ok? && NormalizeDigest(g.digest).Ok? && KeyParts(f) == KeyParts(g)
    ensures Trimmed(ScopeParts(f)) == Trimmed(ScopeParts(g))
    ensures Strip(f.subtype) == Strip(g.subtype) && NormalizeDigest(f.digest) == NormalizeDigest(g.digest)
  {
    TrimmedConcat(ScopeParts(f), SubtypeParts(f));
    TrimmedConcat(ScopeParts(g), SubtypeParts(g));
    var a, b := KeyParts(f), KeyParts(g);
    assert |a| == 10 + |SubtypeParts(f)| && |b| == 10 + |SubtypeParts(g)|;
    assert Trimmed(ScopeParts(f)) == a[1..9] && Trimmed(ScopeParts(g)) == b[1..9];
    assert a[|a| - 1] == NormalizeDigest(f.digest).value && b[|b| - 1] == NormalizeDigest(g.digest).value;
    if |SubtypeParts(f)| == 1 {
      assert a[9] == Trimmed(SubtypeParts(f))[0] && b[9] == Trimmed(SubtypeParts(g))[0];
    }
  }
}
