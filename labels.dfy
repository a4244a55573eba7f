/**
 * The x-axis labels of the sales trend: `f"{year}-{m:02d}"` for the twelve
 * months of a year and `f"{month}-{d:02d}"` for the days of a month, with the
 * decimal rendering of Python's `str(int)` and the `02d` zero padding.
 */
module Labels {
  import opened Ordering

  function DigitChar(d: int): (c: char)
    requires 0 <= d <= 9
    ensures '0' <= c <= '9' && c as int - '0' as int == d
  {
    ('0' as int + d) as char
  }

  function DigitValue(c: char): int
  {
    c as int - '0' as int
  }

  /** Decimal digits of `n`, most significant first, without leading zeros. */
  function NatToString(n: nat): (s: string)
    ensures |s| >= 1
    ensures forall i :: 0 <= i < |s| ==> '0' <= s[i] <= '9'
    ensures |s| > 1 ==> s[0] != '0'
  {
    if n < 10 then [DigitChar(n)] else NatToString(n / 10) + [DigitChar(n % 10)]
  }

  /** Python's `str(i)` for an integer: a minus sign before the digits of a negative number. */
  function IntToString(i: int): (s: string)
    ensures |s| >= 1 && (s[0] == '-' <==> i < 0)
    ensures forall k :: (if i < 0 then 1 else 0) <= k < |s| ==> '0' <= s[k] <= '9'
    ensures var d := if i < 0 then 1 else 0; |s| > d && (|s| > d + 1 ==> s[d] != '0')
  {
    if i < 0 then "-" + NatToString(-i) else NatToString(i)
  }

  /** The value of a string of decimal digits. */
  function ParseNat(s: string): int
  {
    if s == [] then 0 else 10 * ParseNat(s[..|s| - 1]) + DigitValue(s[|s| - 1])
  }

  function ParseInt(s: string): int
  {
    if |s| > 0 && s[0] == '-' then -ParseNat(s[1..]) else ParseNat(s)
  }

  lemma {:induction false} NatToStringRoundTrip(n: nat)
    ensures ParseNat(NatToString(n)) == n
  {
    if n >= 10 {
      var s := NatToString(n);
      assert s[..|s| - 1] == NatToString(n / 10);
      NatToStringRoundTrip(n / 10);
    }
  }

  lemma IntToStringRoundTrip(i: int)
    ensures ParseInt(IntToString(i)) == i
  {
    NatToStringRoundTrip(if i < 0 then -i else i);
    if i < 0 {
      assert ("-" + NatToString(-i))[1..] == NatToString(-i);
    }
  }

  /** `f"{n:02d}"` for `n` below 100: exactly two digits. */
  function Pad2(n: nat): (s: string)
    requires n < 100
    ensures |s| == 2 && '0' <= s[0] <= '9' && '0' <= s[1] <= '9'
    ensures ParseNat(s) == n
  {
    var s := [DigitChar(n / 10), DigitChar(n % 10)];
    assert s[..1] == [DigitChar(n / 10)];
    assert ParseNat(s[..1]) == n / 10 by { assert s[..1][..0] == []; }
    assert n == 10 * (n / 10) + n % 10;
    s
  }

  /** The twelve labels of the monthly trend. */
  function MonthLabels(year: int): (labels: seq<string>)
    ensures |labels| == 12
  {
    seq(12, i requires 0 <= i < 12 => IntToString(year) + "-" + Pad2(i + 1))
  }

  /**
   * A label of `MonthLabels(year)` is the year's decimal text, a dash and two
   * digits, and it reads back as the year and the month number.
   */
  lemma MonthLabelsDecode(year: int, i: int)
    requires 0 <= i < 12
    ensures var l := MonthLabels(year)[i];
      && |l| >= 4 && l[|l| - 3] == '-'
      && l[..|l| - 3] == IntToString(year)
      && l[|l| - 2..] == Pad2(i + 1)
      && '0' <= l[|l| - 2] <= '9' && '0' <= l[|l| - 1] <= '9'
      && ParseInt(l[..|l| - 3]) == year
      && ParseNat(l[|l| - 2..]) == i + 1
  {
    var l := MonthLabels(year)[i];
    assert l == IntToString(year) + "-" + Pad2(i + 1);
    assert l[..|l| - 3] == IntToString(year);
    assert l[|l| - 2..] == Pad2(i + 1);
    IntToStringRoundTrip(year);
  }

  lemma MonthLabelsDistinct(year: int)
    ensures Distinct(MonthLabels(year))
  {
    forall i, j | 0 <= i < j < 12 ensures MonthLabels(year)[i] != MonthLabels(year)[j] {
      MonthLabelsDecode(year, i);
      MonthLabelsDecode(year, j);
    }
  }

  /** The labels of the daily trend: the month text as supplied, a dash, and each day 1..n. */
  function DayLabels(month: string, n: nat): (labels: seq<string>)
    requires n < 100
    ensures |labels| == n
  {
    seq(n, i requires 0 <= i < n => month + "-" + Pad2(i + 1))
  }

  /** A label of `DayLabels(month, n)` is `month`, a dash and two digits reading back as the day number. */
  lemma DayLabelsDecode(month: string, n: nat, i: int)
    requires n < 100 && 0 <= i < n
    ensures var l := DayLabels(month, n)[i];
      && |l| == |month| + 3
      && l[..|month|] == month && l[|month|] == '-'
      && l[|month| + 1..] == Pad2(i + 1)
      && '0' <= l[|month| + 1] <= '9' && '0' <= l[|month| + 2] <= '9'
      && ParseNat(l[|month| + 1..]) == i + 1
  {
    var l := DayLabels(month, n)[i];
    assert l == month + "-" + Pad2(i + 1);
    assert l[|month| + 1..] == Pad2(i + 1);
  }

  lemma DayLabelsDistinct(month: string, n: nat)
    requires n < 100
    ensures Distinct(DayLabels(month, n))
  {
    forall i, j | 0 <= i < j < n ensures DayLabels(month, n)[i] != DayLabels(month, n)[j] {
      DayLabelsDecode(month, n, i);
      DayLabelsDecode(month, n, j);
    }
  }
}
