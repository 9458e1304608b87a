/** The YYYY-MM text of a month and the text of a bill number. */
module MonthText {
  import opened Types
  import opened Calendar

  function Digit(n: nat): (c: char)
    requires n < 10
    ensures '0' <= c <= '9'
  {
    '0' + n as char
  }

  function Value(c: char): nat
    requires '0' <= c <= '9'
  {
    (c - '0') as nat
  }

  predicate IsDigit(c: char) { '0' <= c <= '9' }

  function Format(k: Month): (s: string)
    requires YearOf(k) <= 9999
    ensures |s| == 7
  {
    var y, m := YearOf(k), MonthOf(k);
    [Digit(y / 10 / 10 / 10), Digit(y / 10 / 10 % 10), Digit(y / 10 % 10), Digit(y % 10), '-', Digit(m / 10), Digit(m % 10)]
  }

  function Parse(s: string): Option<Month> {
    if |s| == 7 && s[4] == '-'
       && IsDigit(s[0]) && IsDigit(s[1]) && IsDigit(s[2]) && IsDigit(s[3]) && IsDigit(s[5]) && IsDigit(s[6]) then
      var year := 10 * (10 * (10 * Value(s[0]) + Value(s[1])) + Value(s[2])) + Value(s[3]);
      var month := 10 * Value(s[5]) + Value(s[6]);
      if 1 <= month <= 12 then Some(MonthIndex(year, month)) else None
    else
      None
  }

  lemma Split10(q: nat, r: nat)
    requires r < 10
    ensures (10 * q + r) / 10 == q && (10 * q + r) % 10 == r
  {
  }

  lemma Join10(n: nat)
    ensures 10 * (n / 10) + n % 10 == n
  {
  }

  lemma DigitValue(n: nat)
    requires n < 10
    ensures Value(Digit(n)) == n
  {
  }

  lemma ValueDigit(c: char)
    requires IsDigit(c)
    ensures Value(c) < 10 && Digit(Value(c)) == c
  {
  }

  /** Parsing undoes formatting, and only formatted months parse. */
  lemma ParseFormat(k: Month)
    requires YearOf(k) <= 9999
    ensures Parse(Format(k)) == Some(k)
  {
    var y, m := YearOf(k), MonthOf(k);
    assert MonthIndex(y, m) == k;
    hide YearOf, MonthOf, MonthIndex, Digit, Value;
    Join10(y);
    Join10(y / 10);
    Join10(y / 10 / 10);
    Join10(m);
    DigitValue(y / 10 / 10 / 10);
    DigitValue(y / 10 / 10 % 10);
    DigitValue(y / 10 % 10);
    DigitValue(y % 10);
    DigitValue(m / 10);
    DigitValue(m % 10);
  }

  lemma FormatParse(s: string)
    requires Parse(s).Some?
    ensures YearOf(Parse(s).value) <= 9999 && Format(Parse(s).value) == s
  {
    hide YearOf, MonthOf, MonthIndex, Digit;
    ValueDigit(s[0]);
    ValueDigit(s[1]);
    ValueDigit(s[2]);
    ValueDigit(s[3]);
    ValueDigit(s[5]);
    ValueDigit(s[6]);
    hide Value;
    var g := 10 * Value(s[0]) + Value(s[1]);
    var h := 10 * g + Value(s[2]);
    var year, month := 10 * h + Value(s[3]), 10 * Value(s[5]) + Value(s[6]);
    MonthParts(year, month);
    Split10(h, Value(s[3]));
    Split10(g, Value(s[2]));
    Split10(Value(s[0]), Value(s[1]));
    Split10(Value(s[5]), Value(s[6]));
  }

  /** Distinct months have distinct text, so a unique index on the text is one on the month. */
  lemma FormatInjective(j: Month, k: Month)
    requires YearOf(j) <= 9999 && YearOf(k) <= 9999 && Format(j) == Format(k)
    ensures j == k
  {
    ParseFormat(j);
    ParseFormat(k);
  }

  // ----- the month a request is about

  /** The month of a request's text, or the clock's month while that has a text of its own. */
  function RequestedMonth(text: string, now: Instant): Option<Month>
    requires 0 <= now
  {
    if text != "" then Parse(text)
    else
      var current := ClockMonth(now);
      if YearOf(current) <= 9999 then Some(current) else None
  }

  /** The text names month k, or there is none and the clock is in it. */
  predicate Means(text: string, now: Instant, k: Month) {
    YearOf(k) <= 9999 && if text == "" then MonthOpens(k) <= now < MonthOpens(k + 1) else text == Format(k)
  }

  lemma RequestedIsMeant(text: string, now: Instant, k: Month)
    requires 0 <= now
    ensures RequestedMonth(text, now) == Some(k) <==> Means(text, now, k)
  {
    hide Parse, Format, MonthOpens, YearOf, ClockMonth;
    if text == "" {
      InClockMonth(now, k);
    } else {
      if Parse(text) == Some(k) { FormatParse(text); }
      if Means(text, now, k) { ParseFormat(k); }
    }
  }

  // ----- bill numbers

  function HexDigit(n: nat): (c: char)
    requires n < 16
    ensures n < 10 ==> c == '0' + n as char
    ensures n >= 10 ==> c == 'A' + (n - 10) as char
  {
    if n < 10 then '0' + n as char else 'A' + (n - 10) as char
  }

  /** The last n hexadecimal digits of p. */
  function Hex(p: nat, n: nat): (s: string)
    ensures |s| == n
  {
    if n == 0 then "" else Hex(p / 16, n - 1) + [HexDigit(p % 16)]
  }

  function Power16(n: nat): (r: nat)
    ensures r > 0
  {
    if n == 0 then 1 else 16 * Power16(n - 1)
  }

  lemma {:induction false} Power16Adds(m: nat, n: nat)
    ensures Power16(m + n) == Power16(m) * Power16(n)
  {
    if m > 0 { Power16Adds(m - 1, n); }
  }

  lemma HexDigitInjective(m: nat, n: nat)
    requires m < 16 && n < 16 && HexDigit(m) == HexDigit(n)
    ensures m == n
  {
  }

  lemma {:induction false} HexInjective(p: nat, q: nat, n: nat)
    requires p < Power16(n) && q < Power16(n) && Hex(p, n) == Hex(q, n)
    ensures p == q
  {
    if n > 0 {
      assert Hex(p, n)[..n - 1] == Hex(p / 16, n - 1) && Hex(q, n)[..n - 1] == Hex(q / 16, n - 1);
      assert Hex(p, n)[n - 1] == HexDigit(p % 16) && Hex(q, n)[n - 1] == HexDigit(q % 16);
      HexInjective(p / 16, q / 16, n - 1);
      HexDigitInjective(p % 16, q % 16);
    }
  }

  /** INV-<month>-<the first eight hexadecimal digits of the assignment id, in capitals>. */
  function NumberText(b: BillNumber): string
    requires YearOf(b.month) <= 9999
  {
    "INV-" + Format(b.month) + "-" + Hex(b.prefix, 8)
  }

  /** Distinct months or distinct prefixes give distinct text, so a unique index on the text is one on
      the pair. */
  lemma NumberTextInjective(b: BillNumber, c: BillNumber)
    requires YearOf(b.month) <= 9999 && YearOf(c.month) <= 9999 && b.prefix < Power16(8) && c.prefix < Power16(8)
    requires NumberText(b) == NumberText(c)
    ensures b == c
  {
    hide Format, Hex, Power16;
    assert NumberText(b)[4..11] == Format(b.month) && NumberText(c)[4..11] == Format(c.month);
    assert NumberText(b)[12..] == Hex(b.prefix, 8) && NumberText(c)[12..] == Hex(c.prefix, 8);
    FormatInjective(b.month, c.month);
    HexInjective(b.prefix, c.prefix, 8);
  }

  // ----- cutting the text of a number

  /** p without its last k hexadecimal digits. */
  function Shifted(p: nat, k: nat): nat { if k == 0 then p else Shifted(p / 16, k - 1) }

  lemma {:induction false} HexCut(p: nat, n: nat, k: nat)
    requires k <= n
    ensures Hex(p, n)[..n - k] == Hex(Shifted(p, k), n - k)
    decreases k
  {
    if k > 0 {
      HexCut(p / 16, n - 1, k - 1);
      assert Hex(p, n)[..n - k] == Hex(p / 16, n - 1)[..n - k];
    }
  }

  /** Dropping digits divides. */
  lemma {:induction false} ShiftDivides(p: nat, k: nat)
    ensures Power16(k) * Shifted(p, k) <= p < Power16(k) * Shifted(p, k) + Power16(k)
    decreases k
  {
    if k > 0 {
      ShiftDivides(p / 16, k - 1);
      ShiftStep(p, Power16(k - 1), Shifted(p, k));
    }
  }

  lemma ShiftStep(p: nat, d: nat, q: nat)
    requires d * q <= p / 16 < d * q + d
    ensures 16 * d * q <= p < 16 * d * q + 16 * d
  {
    var t := d * q;
    assert 16 * d * q == 16 * t;
  }

  lemma {:induction false} TimesStep(m: nat, u: nat, q: nat)
    requires u < q
    ensures m * u + m <= m * q
    decreases q
  {
    assert m * q == m * (q - 1) + m;
    if u < q - 1 { TimesStep(m, u, q - 1); }
  }

  /** Two numbers between whose multiples p lies in the same way are the same. */
  lemma QuotientUnique(p: nat, m: nat, q: nat, u: nat)
    requires m * q <= p < m * q + m && m * u <= p < m * u + m
    ensures q == u
  {
    if u < q { TimesStep(m, u, q); }
    if q < u { TimesStep(m, q, u); }
  }
}
