/** The `YYYY-MM` month key of the budgets screen and the predecessor month that
    auto-generation carries budgets forward from. */
module PeriodKey {

  predicate IsDigit(c: char) { '0' <= c <= '9' }

  predicate AllDigits(s: string) { forall i :: 0 <= i < |s| ==> IsDigit(s[i]) }

  function DigitChar(d: nat): (c: char)
    requires d < 10
    ensures IsDigit(c) && c as int - '0' as int == d
  {
    ('0' as int + d) as char
  }

  /** `String(n)` / `n.toString()` for a non-negative integer. */
  function Decimal(n: nat): (s: string)
    ensures |s| >= 1 && AllDigits(s)
    ensures n < 10 <==> |s| == 1
  {
    if n < 10 then [DigitChar(n)] else Decimal(n / 10) + [DigitChar(n % 10)]
  }

  /** `parseInt` of a string made of decimal digits only. */
  function ParseDigits(s: string): nat
    requires AllDigits(s)
  {
    if s == [] then 0 else ParseDigits(s[..|s| - 1]) * 10 + (s[|s| - 1] as int - '0' as int)
  }

  /** `s.padStart(2, '0')`. */
  function PadStart2(s: string): (r: string)
    ensures |s| >= 2 ==> r == s
    ensures |s| < 2 ==> |r| == 2 && r[2 - |s|..] == s && forall i :: 0 <= i < 2 - |s| ==> r[i] == '0'
  {
    if |s| >= 2 then s else if |s| == 1 then "0" + s else "00"
  }

  /** The month number as the screen writes it: two digits, zero-padded. */
  function Pad2(month: nat): string
  {
    PadStart2(Decimal(month))
  }

  /** `${year}-${month}` with the month zero-padded: the key that tags
      `Budget.month` and prefixes `Transaction.date`. */
  function Key(year: nat, month: nat): string
  {
    Decimal(year) + "-" + Pad2(month)
  }

  /** Months counted from year 0, January: the ordering the predecessor steps along. */
  function MonthIndex(year: int, month: int): int
  {
    year * 12 + (month - 1)
  }

  /** The month selector's values: "01" … "12". */
  predicate ValidMonth(month: int) { 1 <= month <= 12 }

  /** The month before `month` of `year`: the one valid month whose index is
      one less. */
  function Predecessor(year: nat, month: nat): (p: (nat, nat))
    requires year >= 1 && ValidMonth(month)
    ensures ValidMonth(p.1)
    ensures MonthIndex(p.0, p.1) + 1 == MonthIndex(year, month)
  {
    if month == 1 then (year - 1, 12) else (year, month - 1)
  }

  /** `handleAutoGenerateBudget`'s predecessor: decrement the month, and wrap
      January to December of the previous year. */
  method PreviousMonth(year: nat, month: nat) returns (prevYear: nat, prevMonth: nat)
    requires year >= 1 && ValidMonth(month)
    ensures (prevYear, prevMonth) == Predecessor(year, month)
    ensures month >= 2 ==> prevYear == year && prevMonth == month - 1
    ensures month == 1 ==> prevYear == year - 1 && prevMonth == 12
    ensures |Pad2(prevMonth)| == 2 && AllDigits(Pad2(prevMonth))
  {
    prevYear := year;
    var m: int := month - 1;
    if m == 0 {
      m := 12;
      prevYear := year - 1;
    }
    prevMonth := m;
    Pad2Shape(prevMonth);
  }

  /** A month and its predecessor have different keys, so the budgets carried
      into a month are never read back as that month's predecessor's. */
  lemma PredecessorKeyDiffers(year: nat, month: nat)
    requires year >= 1 && ValidMonth(month)
    ensures Key(year, month) != Key(Predecessor(year, month).0, Predecessor(year, month).1)
  {
    var p := Predecessor(year, month);
    if Key(year, month) == Key(p.0, p.1) {
      KeyInjective(year, month, p.0, p.1);
    }
  }

  lemma {:induction false} ParseDecimal(n: nat)
    ensures ParseDigits(Decimal(n)) == n
  {
    if n >= 10 {
      var s := Decimal(n);
      assert s[..|s| - 1] == Decimal(n / 10);
      ParseDecimal(n / 10);
    }
  }

  lemma DecimalInjective(a: nat, b: nat)
    requires Decimal(a) == Decimal(b)
    ensures a == b
  {
    ParseDecimal(a);
    ParseDecimal(b);
  }

  lemma {:induction false} ParseLeadingZero(s: string)
    requires AllDigits(s)
    ensures AllDigits("0" + s) && ParseDigits("0" + s) == ParseDigits(s)
    decreases |s|
  {
    if s != [] {
      assert ("0" + s)[..|"0" + s| - 1] == "0" + s[..|s| - 1];
      ParseLeadingZero(s[..|s| - 1]);
    }
  }

  /** Every selectable month renders as exactly two digits that parse back to it. */
  lemma Pad2Shape(month: nat)
    requires month < 100
    ensures |Pad2(month)| == 2 && AllDigits(Pad2(month))
    ensures ParseDigits(Pad2(month)) == month
  {
    ParseDecimal(month);
    if month < 10 {
      assert Pad2(month) == "0" + Decimal(month);
      ParseLeadingZero(Decimal(month));
    }
  }

  /** A key is the year's digits, `-`, and the month's two digits; each part
      parses back to the number it came from. */
  lemma KeyShape(year: nat, month: nat)
    requires month < 100
    ensures var k, n := Key(year, month), |Decimal(year)|;
            && |k| == n + 3 && k[n] == '-'
            && AllDigits(k[..n]) && ParseDigits(k[..n]) == year
            && AllDigits(k[n + 1..]) && ParseDigits(k[n + 1..]) == month
  {
    var d := Decimal(year);
    var k := Key(year, month);
    Pad2Shape(month);
    ParseDecimal(year);
    assert k[..|d|] == d && k[|d| + 1..] == Pad2(month);
  }

  lemma Pad2Injective(m1: nat, m2: nat)
    requires m1 < 100 && m2 < 100 && Pad2(m1) == Pad2(m2)
    ensures m1 == m2
  {
    Pad2Shape(m1);
    Pad2Shape(m2);
  }

  /** No month key is a prefix of a different month key, so the key of a month
      determines its year and month. */
  lemma KeyPrefixFree(y1: nat, m1: nat, y2: nat, m2: nat)
    requires ValidMonth(m1) && ValidMonth(m2)
    requires Key(y1, m1) <= Key(y2, m2)
    ensures y1 == y2 && m1 == m2
  {
    var d1, d2 := Decimal(y1), Decimal(y2);
    var p1, p2 := Pad2(m1), Pad2(m2);
    Pad2Shape(m1);
    Pad2Shape(m2);
    var k1, k2 := d1 + "-" + p1, d2 + "-" + p2;
    assert k1 == Key(y1, m1) && k2 == Key(y2, m2);
    SeparatorPosition(d1, d2, p1, p2);
    assert d1 == k1[..|d1|] && d2 == k2[..|d2|];
    DecimalInjective(y1, y2);
    assert p1 == k1[|d1| + 1..] && p2 == k2[|d2| + 1..];
    Pad2Injective(m1, m2);
  }

  /** The separator sits at the same position in two keys when one is a prefix of the other. */
  lemma SeparatorPosition(d1: string, d2: string, p1: string, p2: string)
    requires AllDigits(d1) && AllDigits(d2) && |p1| == 2 && |p2| == 2
    requires d1 + "-" + p1 <= d2 + "-" + p2
    ensures |d1| == |d2| && d1 + "-" + p1 == d2 + "-" + p2
  {
    var k1, k2 := d1 + "-" + p1, d2 + "-" + p2;
    assert k1[|d1|] == '-';
    assert forall i :: 0 <= i < |d2| ==> k2[i] == d2[i];
  }

  /** A transaction date starts with at most one month key. */
  lemma DateHasOneMonth(date: string, y1: nat, m1: nat, y2: nat, m2: nat)
    requires ValidMonth(m1) && ValidMonth(m2)
    requires Key(y1, m1) <= date && Key(y2, m2) <= date
    ensures y1 == y2 && m1 == m2
  {
    var k1, k2 := Key(y1, m1), Key(y2, m2);
    if |k1| <= |k2| {
      assert k1 == date[..|k1|] == k2[..|k1|];
      KeyPrefixFree(y1, m1, y2, m2);
    } else {
      assert k2 == date[..|k2|] == k1[..|k2|];
      KeyPrefixFree(y2, m2, y1, m1);
    }
  }

  /** Keys of distinct months differ: a month and its predecessor have different keys. */
  lemma KeyInjective(y1: nat, m1: nat, y2: nat, m2: nat)
    requires ValidMonth(m1) && ValidMonth(m2)
    requires Key(y1, m1) == Key(y2, m2)
    ensures y1 == y2 && m1 == m2
  {
    KeyPrefixFree(y1, m1, y2, m2);
  }
}
