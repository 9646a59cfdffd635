/** Identifier allocation of a live-plan session (src/canon_systems/live_plan.py, `_next_id`). */
module LivePlanIds {

  // ---- `f"{prefix}-{n:03d}"` -------------------------------------------------------

  function Digit(d: nat): char
    requires d < 10
  {
    ('0' as int + d) as char
  }

  /** The decimal digits of `n`. */
  function Decimal(n: nat): string {
    if n < 10 then [Digit(n)] else Decimal(n / 10) + [Digit(n % 10)]
  }

  /** Leading zeros up to three characters. */
  function Pad3(s: string): string
    decreases 3 - |s|
  {
    if |s| < 3 then Pad3("0" + s) else s
  }

  function IdOf(prefix: string, n: nat): string {
    prefix + "-" + Pad3(Decimal(n))
  }

  /** The number a digit string denotes; other characters count as their distance from '0'. */
  function Number(s: string): int {
    if s == "" then 0 else 10 * Number(s[..|s| - 1]) + (s[|s| - 1] as int - '0' as int)
  }

  lemma {:induction false} DecimalRoundTrip(n: nat)
    ensures Number(Decimal(n)) == n
  {
    if n >= 10 {
      DecimalRoundTrip(n / 10);
      assert Decimal(n)[..|Decimal(n)| - 1] == Decimal(n / 10);
    }
  }

  lemma {:induction false} LeadingZero(s: string)
    ensures Number("0" + s) == Number(s)
  {
    if s == "" {
      assert "0" + s == "0";
    } else {
      LeadingZero(s[..|s| - 1]);
      assert ("0" + s)[..|s|] == "0" + s[..|s| - 1];
    }
  }

  lemma {:induction false} PaddingKeepsNumber(s: string)
    ensures Number(Pad3(s)) == Number(s)
    decreases 3 - |s|
  {
    if |s| < 3 {
      PaddingKeepsNumber("0" + s);
      LeadingZero(s);
    }
  }

  /** Different numbers give different ids. */
  lemma IdsDiffer(prefix: string, m: nat, n: nat)
    requires IdOf(prefix, m) == IdOf(prefix, n)
    ensures m == n
  {
    var a, b := Pad3(Decimal(m)), Pad3(Decimal(n));
    assert IdOf(prefix, m)[|prefix| + 1..] == a;
    assert IdOf(prefix, n)[|prefix| + 1..] == b;
    PaddingKeepsNumber(Decimal(m));
    PaddingKeepsNumber(Decimal(n));
    DecimalRoundTrip(m);
    DecimalRoundTrip(n);
  }

  // ---- The search --------------------------------------------------------------------

  /** Every number from `lo` up to `n` is already used. */
  ghost predicate Used(ids: set<string>, prefix: string, lo: nat, n: nat) {
    forall m: nat {:trigger IdOf(prefix, m)} :: lo <= m < n ==> IdOf(prefix, m) in ids
  }

  /** A list of ids uses up at most as many numbers as it is long. */
  lemma {:induction false} UsedBounded(ids: set<string>, prefix: string, lo: nat, n: nat)
    requires lo <= n && Used(ids, prefix, lo, n)
    ensures n - lo <= |ids|
    decreases n
  {
    if lo < n {
      var last := IdOf(prefix, n - 1);
      forall m: nat | lo <= m < n - 1 ensures IdOf(prefix, m) in ids - {last} {
        if IdOf(prefix, m) == last {
          IdsDiffer(prefix, m, n - 1);
        }
      }
      UsedBounded(ids - {last}, prefix, lo, n - 1);
    }
  }

  lemma {:induction false} MembersBounded(ids: seq<string>, members: set<string>)
    requires members == set x | x in ids
    ensures |members| <= |ids|
  {
    if ids != [] {
      var front := ids[..|ids| - 1];
      MembersBounded(front, (set x | x in front));
      assert ids == front + [ids[|ids| - 1]];
      assert members == (set x | x in front) + {ids[|ids| - 1]};
    }
  }

  /** The first unused number from `n` on. */
  ghost function FirstUnused(ids: seq<string>, prefix: string, n: nat): (k: nat)
    requires n > |ids| && Used((set x | x in ids), prefix, |ids| + 1, n)
    ensures k >= n && IdOf(prefix, k) !in ids
    ensures forall m: nat {:trigger IdOf(prefix, m)} :: n <= m < k ==> IdOf(prefix, m) in ids
    decreases 2 * |ids| + 2 - n
  {
    if IdOf(prefix, n) in ids then
      var members := set x | x in ids;
      UsedBounded(members, prefix, |ids| + 1, n + 1);
      MembersBounded(ids, members);
      FirstUnused(ids, prefix, n + 1)
    else n
  }

  ghost function NextId(ids: seq<string>, prefix: string): (id: string)
    ensures id !in ids
  {
    IdOf(prefix, FirstUnused(ids, prefix, |ids| + 1))
  }

  /** `_next_id`: terminates on any list, with an id not in the list. */
  method FindNextId(ids: seq<string>, prefix: string) returns (id: string)
    ensures id == NextId(ids, prefix)
  {
    var n: nat := |ids| + 1;
    ghost var members := set x | x in ids;
    MembersBounded(ids, members);
    while IdOf(prefix, n) in ids
      invariant n > |ids| && Used(members, prefix, |ids| + 1, n)
      invariant FirstUnused(ids, prefix, n) == FirstUnused(ids, prefix, |ids| + 1)
      decreases 2 * |ids| + 2 - n
    {
      UsedBounded(members, prefix, |ids| + 1, n + 1);
      n := n + 1;
    }
    id := IdOf(prefix, n);
  }

  /** While ids were only ever allocated here, the next id is just the next number. */
  lemma NumberedListContinues(ids: seq<string>, prefix: string)
    requires forall i :: 0 <= i < |ids| ==> ids[i] == IdOf(prefix, i + 1)
    ensures NextId(ids, prefix) == IdOf(prefix, |ids| + 1)
  {
    var next := IdOf(prefix, |ids| + 1);
    if next in ids {
      var i :| 0 <= i < |ids| && ids[i] == next;
      IdsDiffer(prefix, i + 1, |ids| + 1);
    }
  }

  /** At least three digits, and no more than needed beyond three. */
  predicate Digits(d: string) {
    && |d| >= 3 && (|d| > 3 ==> d[0] != '0')
    && forall i :: 0 <= i < |d| ==> '0' <= d[i] <= '9'
  }

  /** An id is the prefix, a hyphen and the digits of its number. */
  lemma IdReads(prefix: string, n: nat)
    ensures var d := Pad3(Decimal(n)); IdOf(prefix, n) == prefix + "-" + d && Digits(d) && Number(d) == n
  {
    DecimalDigits(n);
    PaddedDigits(Decimal(n));
    DecimalRoundTrip(n);
    PaddingKeepsNumber(Decimal(n));
  }

  lemma {:induction false} DecimalDigits(n: nat)
    ensures var d := Decimal(n);
            |d| >= 1 && (|d| > 1 ==> d[0] != '0') && forall i :: 0 <= i < |d| ==> '0' <= d[i] <= '9'
    ensures n > 0 ==> Decimal(n)[0] != '0'
  {
    if n >= 10 {
      DecimalDigits(n / 10);
    }
  }

  lemma {:induction false} PaddedDigits(s: string)
    requires |s| > 3 ==> s[0] != '0'
    requires forall i :: 0 <= i < |s| ==> '0' <= s[i] <= '9'
    ensures Digits(Pad3(s))
    decreases 3 - |s|
  {
    if |s| < 3 {
      PaddedDigits("0" + s);
    }
  }

  /** The next id has the least number above the length of the list whose id is not in it. */
  lemma NextIdReads(ids: seq<string>, prefix: string) returns (k: nat)
    ensures k > |ids| && NextId(ids, prefix) == IdOf(prefix, k) && IdOf(prefix, k) !in ids
    ensures forall m: nat {:trigger IdOf(prefix, m)} :: |ids| < m < k ==> IdOf(prefix, m) in ids
  {
    k := FirstUnused(ids, prefix, |ids| + 1);
  }
}
