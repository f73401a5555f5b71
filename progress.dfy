/** The job queue's progress percentage (`_STAGE_PROGRESS` and the
    computation inside `_progress`, app.py:53-90): a default per stage,
    refined for the "analysing" and "crawling" stages when the detail
    message carries a page counter "N/M". */
module Progress {
  import opened Common
  import opened Numerals

  /** `_STAGE_PROGRESS.get(stage, 50)` */
  function StageDefault(stage: string): (r: int)
    ensures 5 <= r <= 100
  {
    if stage == "queued" then 5
    else if stage == "crawling" then 20
    else if stage == "security" then 40
    else if stage == "analysing" then 60
    else if stage == "done" || stage == "error" then 100
    else 50
  }

  /** `s.split(c)[0]`: the text before the first `c`, all of `s` when there
      is none. */
  function Before(s: string, c: char): (r: string)
    ensures StartsWith(s, r) && c !in r
    ensures |r| < |s| ==> s[|r|] == c
    decreases |s|
  {
    if s == [] || s[0] == c then []
    else
      var rest := Before(s[1..], c);
      assert s == [s[0]] + s[1..];
      [s[0]] + rest
  }

  /** What follows the first `c`, if there is one; `s.split(c)[1]` is the
      `Before` of it, and the split raises `IndexError` when it is `None`. */
  function After(s: string, c: char): (r: Option<string>)
    ensures r.None? <==> c !in s
    ensures r.Some? ==> s == Before(s, c) + [c] + r.value
    decreases |s|
  {
    if s == [] then None
    else if s[0] == c then Some(s[1..])
    else
      assert s == [s[0]] + s[1..];
      After(s[1..], c)
  }

  /** The longest suffix of `t` without whitespace. */
  function TrailingWord(t: string): (r: string)
    ensures |r| <= |t| && r == t[|t| - |r|..]
    ensures forall i :: 0 <= i < |r| ==> !IsSpace(r[i])
    ensures |r| < |t| ==> IsSpace(t[|t| - |r| - 1])
    decreases |t|
  {
    if t == [] || IsSpace(t[|t| - 1]) then []
    else
      var front := TrailingWord(t[..|t| - 1]);
      front + [t[|t| - 1]]
  }

  /** `s.split()[-1]`: the last whitespace-separated word; `None` where
      the index raises `IndexError` (no word at all). */
  function LastWord(s: string): (r: Option<string>)
    ensures r.None? <==> forall i :: 0 <= i < |s| ==> IsSpace(s[i])
    ensures r.Some? ==> r.value != [] && forall i :: 0 <= i < |r.value| ==> !IsSpace(r.value[i])
  {
    var t := TrimRight(s);
    if t == [] then None
    else
      assert !IsSpace(t[|t| - 1]);
      Some(TrailingWord(t))
  }

  /** The counter of a detail message: `current`, the last word before the
      first '/', and `total`, the text between the first '/' and the next
      '/' cut at the first ':', both read with `int`. `None` is the case the
      source catches (`ValueError` or `IndexError`). */
  function ParseFraction(detail: string): Option<(int, int)> {
    match After(detail, '/')
    case None => None
    case Some(tail) =>
      match LastWord(Before(detail, '/'))
      case None => None
      case Some(word) =>
        match (ParseInt(word), ParseInt(Before(Before(tail, '/'), ':')))
        case (Some(current), Some(total)) => Some((current, total))
        case _ => None
  }

  /** Python's `int(a / b)` for `b > 0`: the quotient truncated toward zero. */
  function TruncDiv(a: int, b: int): int
    requires b > 0
  {
    if a >= 0 then a / b else -((-a) / b)
  }

  /** The refined percentage `int(base + current / total * span)` when the
      detail parses with a positive total, `default` otherwise. */
  function Scaled(counter: Option<(int, int)>, base: int, span: int, default: int): int {
    match counter
    case Some((current, total)) => if total > 0 then TruncDiv(base * total + span * current, total) else default
    case None => default
  }

  /** The percentage `_progress` records for a callback `(stage, detail)`. */
  function ProgressFor(stage: string, detail: Option<string>): int {
    var default := StageDefault(stage);
    if detail.None? || detail.value == "" then default
    else if stage == "analysing" then Scaled(ParseFraction(detail.value), 40, 55, default)
    else if stage == "crawling" then Scaled(ParseFraction(detail.value), 10, 25, default)
    else default
  }

  // ---------------------------------------------------------------------------
  // Properties

  lemma MulMono(t: int, x: int, y: int)
    requires t >= 0 && x <= y
    ensures t * x <= t * y
  {
    assert t * y - t * x == t * (y - x);
  }

  /** Integer division by a positive number keeps bounds that hold of the
      exact quotient. */
  lemma {:induction false} DivWithin(a: int, t: int, lo: int, hi: int)
    requires t > 0 && t * lo <= a <= t * hi
    ensures lo <= a / t <= hi
  {
    var q, m := a / t, a % t;
    assert a == t * q + m && 0 <= m < t;
    if q < lo {
      MulMono(t, q + 1, lo);
      assert false;
    }
    if q > hi {
      MulMono(t, hi + 1, q);
      assert false;
    }
  }

  lemma DivMono(a: int, a': int, t: int)
    requires t > 0 && 0 <= a <= a'
    ensures a / t <= a' / t
  {
    var q := a / t;
    assert a == t * q + a % t;
    MulMono(a', 1, t);
    DivWithin(a', t, q, a');
  }

  /** Where the refinement gives way: a stage other than "analysing" and
      "crawling", a missing or empty detail, a detail without a counter, or
      a total that is not positive all leave the stage's default. */
  lemma DefaultStands(stage: string, detail: Option<string>)
    requires (stage != "analysing" && stage != "crawling") ||
             detail.None? || detail.value == "" ||
             ParseFraction(detail.value).None? ||
             ParseFraction(detail.value).value.1 <= 0
    ensures ProgressFor(stage, detail) == StageDefault(stage)
  {
  }

  /** An unknown stage reports 50. */
  lemma UnknownStage(stage: string, detail: Option<string>)
    requires stage !in {"queued", "crawling", "security", "analysing", "done", "error"}
    ensures ProgressFor(stage, detail) == 50
  {
  }

  /** How the two refined stages read their detail: "analysing" spans
      40 to 95 from a default of 60, "crawling" 10 to 35 from 20. */
  lemma RefinedStages(detail: string)
    requires detail != ""
    ensures ProgressFor("analysing", Some(detail)) == Scaled(ParseFraction(detail), 40, 55, 60)
    ensures ProgressFor("crawling", Some(detail)) == Scaled(ParseFraction(detail), 10, 25, 20)
  {
  }

  /** With a counter `0 <= current <= total`, the analysing stage reports a
      percentage in [40, 95] and the crawling stage one in [10, 35]. */
  lemma RefinedWithin(detail: string, current: int, total: int)
    requires detail != "" && ParseFraction(detail) == Some((current, total))
    requires 0 <= current <= total && total > 0
    ensures 40 <= ProgressFor("analysing", Some(detail)) <= 95
    ensures 10 <= ProgressFor("crawling", Some(detail)) <= 35
  {
    RefinedStages(detail);
    CounterWithin(ParseFraction(detail), 40, 55, 60, current, total);
    CounterWithin(ParseFraction(detail), 10, 25, 20, current, total);
  }

  lemma CounterWithin(counter: Option<(int, int)>, base: int, span: nat, default: int, current: int, total: int)
    requires counter == Some((current, total)) && 0 <= current <= total && total > 0 && base >= 0
    ensures base <= Scaled(counter, base, span, default) <= base + span
  {
    ScaledWithin(total, current, base, span);
  }

  lemma ScaledWithin(total: int, current: int, base: int, span: nat)
    requires 0 <= current <= total && total > 0 && base >= 0
    ensures base <= TruncDiv(base * total + span * current, total) <= base + span
  {
    var a := base * total + span * current;
    MulMono(span, 0, current);
    MulMono(span, current, total);
    assert total * base <= a;
    assert a <= total * (base + span);
    DivWithin(a, total, base, base + span);
  }

  /** A later page of the same run never reports less. */
  lemma ScaledMonotone(total: int, current: int, current': int, base: nat, span: nat)
    requires 0 <= current <= current' && total > 0
    ensures TruncDiv(base * total + span * current, total) <= TruncDiv(base * total + span * current', total)
  {
    MulMono(span, current, current');
    MulMono(total, 0, base);
    MulMono(span, 0, current);
    DivMono(base * total + span * current, base * total + span * current', total);
  }

  // ---------------------------------------------------------------------------
  // Reading back the counters the analyzer writes

  lemma {:induction false} SplitFirst(a: string, b: string, c: char)
    requires c !in a
    ensures Before(a + [c] + b, c) == a && After(a + [c] + b, c) == Some(b)
    decreases |a|
  {
    var s := a + [c] + b;
    if a != [] {
      assert s[0] == a[0] && s[1..] == a[1..] + [c] + b;
      SplitFirst(a[1..], b, c);
      assert [a[0]] + a[1..] == a;
    } else {
      assert s == [c] + b;
    }
  }

  lemma {:induction false} BeforeAppend(a: string, b: string, c: char)
    requires c !in a
    ensures Before(a + b, c) == a + Before(b, c)
    decreases |a|
  {
    if a != [] {
      var s := a + b;
      assert s[0] == a[0] && s[1..] == a[1..] + b;
      BeforeAppend(a[1..], b, c);
      assert [a[0]] + (a[1..] + Before(b, c)) == a + Before(b, c);
    } else {
      assert a + b == b;
    }
  }

  lemma {:induction false} TrailingWordAppend(p: string, w: string)
    requires p != [] && IsSpace(p[|p| - 1])
    requires forall i :: 0 <= i < |w| ==> !IsSpace(w[i])
    ensures TrailingWord(p + w) == w
    decreases |w|
  {
    if w == [] {
      assert p + w == p;
    } else {
      var s := p + w;
      var w' := w[..|w| - 1];
      assert s[..|s| - 1] == p + w';
      TrailingWordAppend(p, w');
      assert w' + [w[|w| - 1]] == w;
    }
  }

  /** After a space, a word is the last word. */
  lemma LastWordAfterSpace(p: string, w: string)
    requires p != [] && IsSpace(p[|p| - 1])
    requires w != [] && forall i :: 0 <= i < |w| ==> !IsSpace(w[i])
    ensures LastWord(p + w) == Some(w)
  {
    var s := p + w;
    assert s[|s| - 1] == w[|w| - 1];
    assert TrimRight(s) == s;
    TrailingWordAppend(p, w);
  }

  lemma NoCharInNumeral(n: int, c: char)
    requires c != '-' && !IsDigit(c)
    ensures c !in IntStr(n)
  {
    if n < 0 {
      assert IntStr(n) == "-" + NatStr(-n);
    }
  }

  /** The text after the first '/' of "M: <anything>" reads back as M. */
  lemma TotalField(total: int, rest: string)
    ensures ParseInt(Before(Before(IntStr(total) + ": " + rest, '/'), ':')) == Some(total)
  {
    TotalSlash(total, rest);
    TotalColon(total, Before(rest, '/'));
    ParseIntStr(total);
  }

  lemma TotalSlash(total: int, rest: string)
    ensures Before(IntStr(total) + ": " + rest, '/') == IntStr(total) + ": " + Before(rest, '/')
  {
    var m := IntStr(total);
    NoCharInNumeral(total, '/');
    assert m + ": " + rest == (m + ": ") + rest;
    BeforeAppend(m + ": ", rest, '/');
  }

  lemma TotalColon(total: int, rest: string)
    ensures Before(IntStr(total) + ": " + rest, ':') == IntStr(total)
  {
    var m := IntStr(total);
    NoCharInNumeral(total, ':');
    assert m + ": " + rest == m + [':'] + (" " + rest);
    SplitFirst(m, " " + rest, ':');
  }

  /** The last word of "<text ending in a space>N" reads back as N. */
  lemma CurrentField(prefix: string, current: nat)
    requires prefix != [] && IsSpace(prefix[|prefix| - 1])
    ensures LastWord(prefix + NatStr(current)) == Some(NatStr(current))
    ensures ParseInt(NatStr(current)) == Some(current)
  {
    LastWordAfterSpace(prefix, NatStr(current));
    assert IntStr(current) == NatStr(current);
    ParseIntStr(current);
  }

  /** A detail split at its first '/' parses to the counter its two
      fields read as. */
  lemma ParseSplit(a: string, b: string, word: string, current: int, total: int)
    requires '/' !in a && LastWord(a) == Some(word)
    requires ParseInt(word) == Some(current) && ParseInt(Before(Before(b, '/'), ':')) == Some(total)
    ensures ParseFraction(a + ['/'] + b) == Some((current, total))
  {
    SplitFirst(a, b, '/');
  }

  /** A detail of the form "<text ending in a space>N/M: <anything>", with
      the numbers printed by `str`, reads back as the counter (N, M). */
  lemma ParseCounter(prefix: string, current: nat, total: int, rest: string)
    requires prefix != [] && IsSpace(prefix[|prefix| - 1]) && '/' !in prefix
    ensures ParseFraction(prefix + NatStr(current) + "/" + IntStr(total) + ": " + rest) == Some((current, total))
  {
    var a := prefix + NatStr(current);
    var b := IntStr(total) + ": " + rest;
    assert '/' !in a by {
      NoCharInNumeral(current, '/');
    }
    CurrentField(prefix, current);
    TotalField(total, rest);
    ParseSplit(a, b, NatStr(current), current, total);
    Regroup(a, "/", IntStr(total), ": ", rest);
  }

  /** Regrouping a concatenation of five parts behind the second. */
  lemma Regroup<T>(a: seq<T>, s: seq<T>, x: seq<T>, c: seq<T>, r: seq<T>)
    ensures a + s + x + c + r == a + s + (x + c + r)
  {
  }

  /** A detail without '/' carries no counter. */
  lemma NoCounter(detail: string)
    requires '/' !in detail
    ensures ParseFraction(detail) == None
  {
  }
}
