/** The report's arithmetic and list clean-up: `_avg` (analyzer.py:28-29),
    the clamped per-category scores, `_dedup_issues` (analyzer.py:32-40) and
    the `list(dict.fromkeys(...))` dedup of "good" lists. */
module Scoring {
  import opened Common
  import opened Config
  import opened Dedup

  /** An issue record: `issue`, `description`, and the optional `severity`
      and `value` ("" when absent). */
  datatype Issue = Issue(name: string, description: string, severity: string, value: string)

  // ---------------------------------------------------------------------------
  // _avg

  /** Python's `round(n / d)`: the nearest integer, halves to the even one. */
  function RoundHalfEven(n: int, d: int): (r: int)
    requires d > 0
    ensures -d <= 2 * (n - r * d) <= d
    ensures (2 * (n - r * d) == d || 2 * (n - r * d) == -d) ==> r % 2 == 0
  {
    var q, rem := n / d, n % d;
    if 2 * rem < d then q
    else if 2 * rem > d then q + 1
    else if q % 2 == 0 then q
    else q + 1
  }

  /** `_avg`: 0 for an empty list, otherwise the rounded mean. */
  function Avg(s: seq<int>): int {
    if s == [] then 0 else RoundHalfEven(Sum(s), |s|)
  }

  lemma {:induction false} SumBounds(s: seq<int>, lo: int, hi: int)
    requires forall i :: 0 <= i < |s| ==> lo <= s[i] <= hi
    ensures |s| * lo <= Sum(s) <= |s| * hi
    decreases |s|
  {
    if s != [] {
      SumBounds(s[..|s| - 1], lo, hi);
      assert |s| * lo == (|s| - 1) * lo + lo;
      assert |s| * hi == (|s| - 1) * hi + hi;
    }
  }

  /** The average lies within any bounds of its items, so averaged scores
      stay scores. */
  lemma AvgWithin(s: seq<int>, lo: int, hi: int)
    requires s != []
    requires forall i :: 0 <= i < |s| ==> lo <= s[i] <= hi
    ensures lo <= Avg(s) <= hi
  {
    SumBounds(s, lo, hi);
    var d, n, r := |s|, Sum(s), Avg(s);
    assert -d <= 2 * (n - r * d) <= d;
    if r < lo {
      FarBelow(d, n, r, lo);
      assert false;
    }
    if r > hi {
      FarAbove(d, n, r, hi);
      assert false;
    }
  }

  /** A quotient below the lower bound would leave more than half a divisor over. */
  lemma FarBelow(d: int, n: int, r: int, lo: int)
    requires d > 0 && d * lo <= n && r < lo
    ensures 2 * (n - r * d) > d
  {
    MulLe(d, r, lo - 1);
    assert d * (lo - 1) == d * lo - d;
    assert r * d == d * r;
  }

  /** A quotient above the upper bound would overshoot by more than half a divisor. */
  lemma FarAbove(d: int, n: int, r: int, hi: int)
    requires d > 0 && n <= d * hi && r > hi
    ensures 2 * (n - r * d) < -d
  {
    MulLe(d, hi + 1, r);
    assert d * (hi + 1) == d * hi + d;
    assert r * d == d * r;
  }

  lemma MulLe(d: int, x: int, y: int)
    requires d >= 0 && x <= y
    ensures d * x <= d * y
  {
    assert d * y - d * x == d * (y - x);
  }

  /** Worked averages: no scores give 0, `[80, 100]` gives 90, and halves
      go to the even neighbour. */
  lemma AvgExamples()
    ensures Avg([]) == 0
    ensures Avg([80, 100]) == 90
    ensures Avg([1, 2]) == 2 && Avg([2, 3]) == 2
  {
    assert Sum([80, 100]) == 180 by { assert [80, 100][..1] == [80]; }
    assert Sum([1, 2]) == 3 by { assert [1, 2][..1] == [1]; }
    assert Sum([2, 3]) == 5 by { assert [2, 3][..1] == [2]; }
  }

  /** A one-element list averages to its element (the security score is the
      average of exactly one score). */
  lemma AvgSingleton(x: int)
    ensures Avg([x]) == x
  {
    assert [x][..0] == [];
    assert Sum([x]) == x;
    assert x / 1 == x && x % 1 == 0;
  }

  // ---------------------------------------------------------------------------
  // Clamped scores

  /** `max(0, 100 - count * per)`: the performance (per 15), SEO (10),
      accessibility (12), mobile (15) and security (15) scores. */
  function DeductionScore(count: int, per: int): (r: int)
    ensures r >= 0
    ensures r == 0 <==> count * per >= 100
    ensures r > 0 ==> r == 100 - count * per
    ensures count >= 0 && per >= 0 ==> r <= 100
  {
    if 100 - count * per < 0 then 0 else 100 - count * per
  }

  /** More issues never raise a score. */
  lemma DeductionScoreMonotone(count: nat, count': nat, per: nat)
    requires count <= count'
    ensures DeductionScore(count', per) <= DeductionScore(count, per)
  {
    assert count * per <= count' * per by {
      assert count' * per == count * per + (count' - count) * per;
    }
  }

  /** The deduction constants: seven performance issues, ten SEO issues,
      nine accessibility issues bring their score to 0; no issue keeps 100. */
  lemma DeductionScoreExamples()
    ensures DeductionScore(0, PerfDeductionPerIssue) == 100
    ensures DeductionScore(6, PerfDeductionPerIssue) == 10 && DeductionScore(7, PerfDeductionPerIssue) == 0
    ensures DeductionScore(9, SeoDeductionPerIssue) == 10 && DeductionScore(10, SeoDeductionPerIssue) == 0
    ensures DeductionScore(8, AccDeductionPerIssue) == 4 && DeductionScore(9, AccDeductionPerIssue) == 0
  {
  }

  function CountSeverity(issues: seq<Issue>, severity: string): (r: nat)
    ensures r <= |issues|
    decreases |issues|
  {
    if issues == [] then 0
    else CountSeverity(issues[..|issues| - 1], severity) +
         (if issues[|issues| - 1].severity == severity then 1 else 0)
  }

  /** The rendering score: 20 per high, 10 per medium, 5 per low issue,
      floored at 0. */
  function RenderScore(issues: seq<Issue>): (r: int)
    ensures 0 <= r <= 100
  {
    var penalty := CountSeverity(issues, "high") * RenderDeductionHigh +
                   CountSeverity(issues, "medium") * RenderDeductionMedium +
                   CountSeverity(issues, "low") * RenderDeductionLow;
    if 100 - penalty < 0 then 0 else 100 - penalty
  }

  /** Each issue costs at most 20 points and costs nothing without a
      recognised severity. */
  lemma {:induction false} RenderPenaltyBounds(issues: seq<Issue>)
    ensures CountSeverity(issues, "high") + CountSeverity(issues, "medium") +
            CountSeverity(issues, "low") <= |issues|
    decreases |issues|
  {
    if issues != [] {
      RenderPenaltyBounds(issues[..|issues| - 1]);
    }
  }

  /** The rendering score is at least what 20 points per issue would leave. */
  lemma RenderScoreFloor(issues: seq<Issue>)
    ensures RenderScore(issues) >= DeductionScore(|issues|, RenderDeductionHigh)
  {
    RenderPenaltyBounds(issues);
  }

  /** Issues without a "high", "medium" or "low" severity cost nothing. */
  lemma {:induction false} RenderIgnoresUnrated(issues: seq<Issue>, extra: seq<Issue>)
    requires forall k :: 0 <= k < |extra| ==> extra[k].severity !in {"high", "medium", "low"}
    ensures RenderScore(issues + extra) == RenderScore(issues)
    decreases |extra|
  {
    if extra != [] {
      var init := extra[..|extra| - 1];
      assert (issues + extra)[..|issues + extra| - 1] == issues + init;
      RenderIgnoresUnrated(issues, init);
      var x := extra[|extra| - 1];
      assert x.severity != "high" && x.severity != "medium" && x.severity != "low";
    } else {
      assert issues + extra == issues;
    }
  }

  // ---------------------------------------------------------------------------
  // Dedup of issues and of good lists

  /** `_dedup_issues`'s key: the issue name followed by the first 60
      characters of the description, as one string. */
  function IssueKey(i: Issue): string {
    i.name + Take(i.description, 60)
  }

  /** `_dedup_issues`. */
  method DedupIssues(issues: seq<Issue>) returns (out: seq<Issue>)
    ensures out == FirstByKey(issues, IssueKey)
  {
    var seen: set<string> := {};
    out := [];
    var i := 0;
    while i < |issues|
      invariant 0 <= i <= |issues|
      invariant seen == KeySet(issues[..i], IssueKey)
      invariant out == FirstByKey(issues[..i], IssueKey)
    {
      assert issues[..i + 1][..i] == issues[..i];
      var key := IssueKey(issues[i]);
      if key !in seen {
        seen := seen + {key};
        out := out + [issues[i]];
      }
      i := i + 1;
    }
    assert issues[..|issues|] == issues;
  }

  /** What `_dedup_issues` keeps: an in-order subsequence of its input with
      one issue per key, the first of each, and every key still present;
      running it again changes nothing. */
  lemma DedupIssuesProperties(issues: seq<Issue>)
    ensures var out := FirstByKey(issues, IssueKey);
            IsSubseq(out, issues) &&
            DistinctKeys(out, IssueKey) &&
            KeySet(out, IssueKey) == KeySet(issues, IssueKey) &&
            (forall i :: 0 <= i < |issues| && FirstOccurrence(issues, IssueKey, i) ==> issues[i] in out) &&
            FirstByKey(out, IssueKey) == out
  {
    FirstByKeySubseq(issues, IssueKey);
    FirstByKeyDistinct(issues, IssueKey);
    FirstByKeyKeys(issues, IssueKey);
    FirstByKeyIdempotent(issues, IssueKey);
    forall i | 0 <= i < |issues| && FirstOccurrence(issues, IssueKey, i)
      ensures issues[i] in FirstByKey(issues, IssueKey)
    {
      FirstByKeyKeepsFirst(issues, IssueKey, i);
    }
  }

  /** Because the key is a concatenation, two different issues can share it:
      "ab" + "c" and "a" + "bc" are the same key, and the second is dropped. */
  lemma IssueKeyCollision()
    ensures var first := Issue("ab", "c", "", "");
            var second := Issue("a", "bc", "", "");
            first != second && FirstByKey([first, second], IssueKey) == [first]
  {
    var first := Issue("ab", "c", "", "");
    var second := Issue("a", "bc", "", "");
    assert IssueKey(first) == IssueKey(second);
    assert [first, second] == [first] + [second];
    assert [first] == [] + [first];
    FirstByKeyAppend([], first, IssueKey);
    KeySetAppend([], first, IssueKey);
    FirstByKeyAppend([first], second, IssueKey);
  }

  /** Descriptions that agree on their first 60 characters count as the same
      issue. */
  lemma LongDescriptionsMerge(name: string, d1: string, d2: string, s1: string, s2: string)
    requires |d1| >= 60 && |d2| >= 60 && d1[..60] == d2[..60]
    ensures IssueKey(Issue(name, d1, s1, "")) == IssueKey(Issue(name, d2, s2, ""))
  {
  }

  /** `list(dict.fromkeys(s))`: each distinct string once, at its first position. */
  function FromKeys(s: seq<string>): seq<string> {
    FirstByKey(s, (x: string) => x)
  }

  lemma FromKeysProperties(s: seq<string>)
    ensures var out := FromKeys(s);
            IsSubseq(out, s) &&
            (forall i, j :: 0 <= i < j < |out| ==> out[i] != out[j]) &&
            (forall x :: x in s <==> x in out) &&
            FromKeys(out) == out
  {
    var id := (x: string) => x;
    var out := FromKeys(s);
    FirstByKeySubseq(s, id);
    FirstByKeyDistinct(s, id);
    FirstByKeyKeys(s, id);
    FirstByKeyIdempotent(s, id);
    forall x ensures x in s <==> x in out {
      KeySetMember(s, id, x);
      KeySetMember(out, id, x);
    }
    forall i, j | 0 <= i < j < |out| ensures out[i] != out[j] {
      assert id(out[i]) != id(out[j]);
    }
  }
}
