/** Decimal numerals: Python's `str(n)` on integers, as the analyzer's
    progress messages print them, and `int(s)` on strings, as the job
    queue reads them back. */
module Numerals {
  import opened Common

  function DigitChar(d: int): char
    requires 0 <= d < 10
  {
    ('0' as int + d) as char
  }

  function DigitValue(c: char): int
    requires IsDigit(c)
  {
    c as int - '0' as int
  }

  predicate AllDigits(s: string) {
    forall i :: 0 <= i < |s| ==> IsDigit(s[i])
  }

  /** `str(n)` for `n >= 0`: decimal digits, no leading zero. */
  function NatStr(n: nat): (r: string)
    ensures r != [] && AllDigits(r)
    ensures |r| > 1 ==> r[0] != '0'
    decreases n
  {
    if n < 10 then [DigitChar(n)]
    else
      var front := NatStr(n / 10);
      assert (front + [DigitChar(n % 10)])[0] == front[0];
      front + [DigitChar(n % 10)]
  }

  /** `str(n)` */
  function IntStr(n: int): string {
    if n < 0 then "-" + NatStr(-n) else NatStr(n)
  }

  /** The value of a string of decimal digits. */
  function DigitsValue(s: string): nat
    requires AllDigits(s)
    decreases |s|
  {
    if s == [] then 0 else DigitsValue(s[..|s| - 1]) * 10 + DigitValue(s[|s| - 1])
  }

  /** Python's `int(s)` on a string: optional surrounding whitespace, an
      optional sign, then one or more ASCII digits. Any other string makes
      `int` raise `ValueError`, which is `None` here. */
  function ParseInt(s: string): Option<int> {
    ParseStripped(Strip(s))
  }

  /** `int` on text without surrounding whitespace. */
  function ParseStripped(t: string): Option<int> {
    if t == [] then None
    else if t[0] == '-' || t[0] == '+' then
      var ds := t[1..];
      if ds != [] && AllDigits(ds) then
        var v: int := DigitsValue(ds);
        Some(if t[0] == '-' then -v else v)
      else None
    else if AllDigits(t) then Some(DigitsValue(t))
    else None
  }

  lemma {:induction false} DigitsValueOfNatStr(n: nat)
    ensures DigitsValue(NatStr(n)) == n
    decreases n
  {
    if n >= 10 {
      var front := NatStr(n / 10);
      var s := front + [DigitChar(n % 10)];
      assert s[..|s| - 1] == front;
      DigitsValueOfNatStr(n / 10);
    }
  }

  /** A string without surrounding whitespace is its own strip. */
  lemma StripFixed(s: string)
    requires s != [] && !IsSpace(s[0]) && !IsSpace(s[|s| - 1])
    ensures Strip(s) == s
  {
  }

  /** `int(str(n)) == n`: the counters the analyzer prints are read back
      exactly. */
  lemma ParseIntStr(n: int)
    ensures ParseInt(IntStr(n)) == Some(n)
  {
    var s := IntStr(n);
    if n < 0 {
      var digits := NatStr(-n);
      assert s[1..] == digits;
      assert !IsSpace(s[|s| - 1]) by { assert s[|s| - 1] == digits[|digits| - 1]; }
      StripFixed(s);
      DigitsValueOfNatStr(-n);
    } else {
      StripFixed(s);
      DigitsValueOfNatStr(n);
    }
  }

  /** `int` strips whitespace of every kind around the numeral: `int("7\x1f")`
      is 7. */
  lemma ParseIntPadded(n: int, pre: string, post: string)
    requires forall i :: 0 <= i < |pre| ==> IsSpace(pre[i])
    requires forall i :: 0 <= i < |post| ==> IsSpace(post[i])
    ensures ParseInt(pre + IntStr(n) + post) == Some(n)
  {
    var s := IntStr(n);
    ParseIntStr(n);
    IntStrTrimmed(n);
    StripPadded(pre, s, post);
    assert ParseInt(pre + s + post) == ParseStripped(s) == ParseInt(s);
  }

  /** `str(n)` neither starts nor ends with whitespace. */
  lemma IntStrTrimmed(n: int)
    ensures var s := IntStr(n);
            s != [] && !IsSpace(s[0]) && !IsSpace(s[|s| - 1]) && Strip(s) == s
  {
    var s := IntStr(n);
    if n < 0 {
      var digits := NatStr(-n);
      assert s[1..] == digits;
      assert s[|s| - 1] == digits[|digits| - 1];
    }
    StripFixed(s);
  }

  lemma UnitSeparatorStripped()
    ensures ParseInt("7\U{1F}") == Some(7)
  {
    assert IntStr(7) == "7";
    ParseIntPadded(7, "", "\U{1F}");
    assert "" + "7" + "\U{1F}" == "7\U{1F}";
  }

  /** A word that is not a numeral raises: `int("pages)")` fails. */
  lemma ParseIntRejects(s: string)
    requires s != [] && !IsSpace(s[0]) && !IsSpace(s[|s| - 1])
    requires s[0] != '-' && s[0] != '+' && !IsDigit(s[0])
    ensures ParseInt(s) == None
  {
    StripFixed(s);
  }
}
