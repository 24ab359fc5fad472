/** `get_partition_statement` of snippets/partitions.py: from a `YYYYMM` suffix to the
    PostgreSQL bound clause `FOR VALUES FROM ('Y-MM-01') TO ('Y'-MM'-01')` of a one-month
    range partition. The code validates nothing: any suffix whose first four and last two
    characters are numerals is accepted, whatever month they name. */
module PartitionRange {
  import opened Python

  predicate IsDigit(c: char)
  {
    '0' <= c <= '9'
  }

  predicate AllDigits(s: string)
  {
    forall i :: 0 <= i < |s| ==> IsDigit(s[i])
  }

  function DigitChar(d: nat): (c: char)
    requires d < 10
    ensures IsDigit(c) && c as int - '0' as int == d
  {
    ('0' as int + d) as char
  }

  /** The number a string of decimal digits denotes, most significant digit first. */
  function DigitsValue(s: string): nat
    requires AllDigits(s)
    decreases |s|
  {
    if s == [] then 0 else 10 * DigitsValue(s[..|s| - 1]) + (s[|s| - 1] as int - '0' as int)
  }

  /** `int(s)` for the strings modelled here: a non-empty run of ASCII digits is read
      as a decimal number, anything else raises ValueError. */
  function ParseInt(s: string): (r: Result<nat>)
    ensures r.Ok? <==> s != [] && AllDigits(s)
  {
    if s != [] && AllDigits(s) then Ok(DigitsValue(s)) else Err(ValueError)
  }

  function Pow10(k: nat): (r: nat)
    ensures r >= 1 && (k >= 1 ==> r >= 10)
  {
    if k == 0 then 1 else 10 * Pow10(k - 1)
  }

  /** `str(n)` (and `f'{n}'`): the decimal numeral without leading zeros. */
  function Decimal(n: nat): (r: string)
    ensures r != [] && AllDigits(r)
    decreases n
  {
    if n < 10 then [DigitChar(n)] else Decimal(n / 10) + [DigitChar(n % 10)]
  }

  function Zeros(k: nat): (r: string)
    ensures |r| == k && AllDigits(r)
    ensures forall i :: 0 <= i < k ==> r[i] == '0'
  {
    if k == 0 then [] else Zeros(k - 1) + "0"
  }

  /** `f'{n:0{width}d}'`: the numeral, left-padded with zeros to at least `width` characters. */
  function Pad(n: nat, width: nat): (r: string)
    ensures AllDigits(r)
  {
    var d := Decimal(n);
    if |d| >= width then d else Zeros(width - |d|) + d
  }

  /** Reading back a numeral gives the number. */
  lemma {:induction false} DecimalRoundTrip(n: nat)
    ensures DigitsValue(Decimal(n)) == n
    decreases n
  {
    if n >= 10 {
      var d := Decimal(n);
      assert d[..|d| - 1] == Decimal(n / 10);
      DecimalRoundTrip(n / 10);
    }
  }

  /** The numeral of `n` has at most `k` digits exactly when `n < 10^k`. */
  lemma {:induction false} DecimalLength(n: nat, k: nat)
    requires k >= 1
    ensures |Decimal(n)| <= k <==> n < Pow10(k)
    decreases k
  {
    if n >= 10 && k > 1 {
      DecimalLength(n / 10, k - 1);
    }
  }

  /** Leading zeros do not change the value. */
  lemma {:induction false} LeadingZeros(k: nat, s: string)
    requires AllDigits(s)
    ensures DigitsValue(Zeros(k) + s) == DigitsValue(s)
    decreases |s|
  {
    var z := Zeros(k) + s;
    if s == [] {
      assert z == Zeros(k);
      ZerosValue(k);
    } else {
      assert z[..|z| - 1] == Zeros(k) + s[..|s| - 1];
      LeadingZeros(k, s[..|s| - 1]);
    }
  }

  lemma {:induction false} ZerosValue(k: nat)
    ensures DigitsValue(Zeros(k)) == 0
    decreases k
  {
    if k > 0 {
      assert Zeros(k)[..k - 1] == Zeros(k - 1);
      ZerosValue(k - 1);
    }
  }

  /** A zero-padded numeral reads back as the number and is exactly `width` long when
      the number fits. */
  lemma PadRoundTrip(n: nat, width: nat)
    requires width >= 1 && n < Pow10(width)
    ensures |Pad(n, width)| == width && DigitsValue(Pad(n, width)) == n
  {
    DecimalLength(n, width);
    DecimalRoundTrip(n);
    if |Decimal(n)| < width {
      LeadingZeros(width - |Decimal(n)|, Decimal(n));
    }
  }

  /** The first day of a month, as the suffix names it. `month` is not checked. */
  datatype YearMonth = YearMonth(year: nat, month: nat)

  predicate ValidMonth(ym: YearMonth)
  {
    1 <= ym.month <= 12
  }

  /** Months since January of year 0: consecutive calendar months differ by one. */
  function MonthIndex(ym: YearMonth): int
  {
    12 * ym.year + ym.month - 1
  }

  /** `suffix[:4]`. */
  function YearSlice(suffix: string): string
  {
    suffix[..if |suffix| < 4 then |suffix| else 4]
  }

  /** `suffix[-2:]`. */
  function MonthSlice(suffix: string): string
  {
    suffix[if |suffix| < 2 then 0 else |suffix| - 2..]
  }

  /** `year = int(suffix[:4])` and `month = int(suffix[-2:])`. */
  function ParseSuffix(suffix: string): (r: Result<YearMonth>)
    ensures r.Ok? <==> ParseInt(YearSlice(suffix)).Ok? && ParseInt(MonthSlice(suffix)).Ok?
    ensures r.Err? ==> r.error == ValueError
  {
    match ParseInt(YearSlice(suffix))
    case Err(e) => Err(e)
    case Ok(year) =>
      match ParseInt(MonthSlice(suffix))
      case Err(e) => Err(e)
      case Ok(month) => Ok(YearMonth(year, month))
  }

  /** `nextyear` and `nextmonth`: December rolls over to January of the next year;
      every other month, including the out-of-range ones, is followed by `month + 1`
      if it is below 12 and by January of the SAME year otherwise. */
  function NextMonth(ym: YearMonth): YearMonth
  {
    YearMonth(ym.year + (if ym.month == 12 then 1 else 0), if ym.month < 12 then ym.month + 1 else 1)
  }

  /** `f'{year}-{month:02d}-01'`. */
  function FormatDate(ym: YearMonth): string
  {
    Decimal(ym.year) + "-" + Pad(ym.month, 2) + "-01"
  }

  function ForValues(from: YearMonth, to: YearMonth): string
  {
    "FOR VALUES FROM ('" + FormatDate(from) + "') TO ('" + FormatDate(to) + "')"
  }

  /** `get_partition_statement(suffix)`: it raises only where `int()` rejects one of the
      two slices, and then ValueError. What the clause says is stated by `StatementOfLabel`
      and the lemmas after it. */
  function PartitionStatement(suffix: string): (r: Result<string>)
    ensures r.Ok? <==> ParseInt(YearSlice(suffix)).Ok? && ParseInt(MonthSlice(suffix)).Ok?
    ensures r.Err? ==> r.error == ValueError
  {
    match ParseSuffix(suffix)
    case Err(e) => Err(e)
    case Ok(ym) => Ok(ForValues(ym, NextMonth(ym)))
  }

  /** The suffix callers pass for a month: four-digit year, two-digit month. */
  function Label(ym: YearMonth): string
  {
    Pad(ym.year, 4) + Pad(ym.month, 2)
  }

  /** A `YYYYMM` label is six digits and parses back to its year and month. */
  lemma LabelRoundTrip(ym: YearMonth)
    requires ym.year <= 9999 && ym.month <= 99
    ensures |Label(ym)| == 6 && AllDigits(Label(ym))
    ensures ParseSuffix(Label(ym)) == Ok(ym)
  {
    PadRoundTrip(ym.year, 4);
    PadRoundTrip(ym.month, 2);
    var s := Label(ym);
    assert YearSlice(s) == Pad(ym.year, 4);
    assert MonthSlice(s) == Pad(ym.month, 2);
  }

  /** The statement of a label runs from the first of its month to the first of the
      next: the same year for months below 12, January of the next year for December,
      and January of the same year for a month above 12. */
  lemma StatementOfLabel(ym: YearMonth)
    requires ym.year <= 9999 && ym.month <= 99
    ensures PartitionStatement(Label(ym)) == Ok(ForValues(ym, NextMonth(ym)))
    ensures ym.month < 12 ==> NextMonth(ym) == YearMonth(ym.year, ym.month + 1)
    ensures ym.month == 12 ==> NextMonth(ym) == YearMonth(ym.year + 1, 1)
    ensures ym.month > 12 ==> NextMonth(ym) == YearMonth(ym.year, 1)
  {
    LabelRoundTrip(ym);
  }

  /** The statements of two consecutive months meet: the TO date of one is the FROM date
      of the next. */
  lemma RangesTile(ym: YearMonth)
    requires ValidMonth(ym) && NextMonth(ym).year <= 9999
    ensures var next := NextMonth(ym);
            && PartitionStatement(Label(ym)) == Ok(ForValues(ym, next))
            && PartitionStatement(Label(next)) == Ok(ForValues(next, NextMonth(next)))
  {
    StatementOfLabel(ym);
    StatementOfLabel(NextMonth(ym));
  }

  /** A valid month's range is exactly one calendar month wide, and ends on a valid month. */
  lemma NextMonthIsOneLater(ym: YearMonth)
    requires ValidMonth(ym)
    ensures ValidMonth(NextMonth(ym)) && MonthIndex(NextMonth(ym)) == MonthIndex(ym) + 1
  {
  }

  /** Different valid months name different calendar months. */
  lemma MonthIndexInjective(a: YearMonth, b: YearMonth)
    requires ValidMonth(a) && ValidMonth(b) && MonthIndex(a) == MonthIndex(b)
    ensures a == b
  {
  }

  /** The half-open ranges of two different valid months do not overlap. */
  lemma RangesDisjoint(a: YearMonth, b: YearMonth)
    requires ValidMonth(a) && ValidMonth(b) && a != b
    ensures MonthIndex(NextMonth(a)) <= MonthIndex(b) || MonthIndex(NextMonth(b)) <= MonthIndex(a)
  {
    if MonthIndex(a) == MonthIndex(b) {
      MonthIndexInjective(a, b);
    }
  }

  /** A month above 12 is not rejected: its range ends on January 1st of the same year,
      before it starts. */
  lemma UncheckedMonthRunsBackwards(ym: YearMonth)
    requires ym.month > 12
    ensures NextMonth(ym) == YearMonth(ym.year, 1)
    ensures MonthIndex(NextMonth(ym)) < MonthIndex(ym)
  {
  }

  /** `s` has the shape `YYYY-MM-01`: four digits, a dash, two digits, a dash, "01". */
  predicate DateShape(s: string)
  {
    && |s| == 10
    && AllDigits(s[..4]) && s[4] == '-' && AllDigits(s[5..7]) && s[7] == '-' && s[8..] == "01"
  }

  /** `s` has the shape `YYYY-MM-01`, and its year and month fields read back as those of `ym`. */
  predicate IsDateShaped(s: string, ym: YearMonth)
  {
    DateShape(s) && DigitsValue(s[..4]) == ym.year && DigitsValue(s[5..7]) == ym.month
  }

  /** `s` is an ISO 8601 extended calendar date `YYYY-MM-DD` naming the first day of a month. */
  predicate IsIsoMonthStart(s: string)
  {
    DateShape(s) && 1 <= DigitsValue(s[5..7]) <= 12
  }

  /** The year is not zero-padded: a formatted date is ten characters long exactly when
      the year has four digits. It then has the `YYYY-MM-01` shape with the year and month
      read back, and it is an ISO 8601 date exactly when the month is 1 to 12. */
  lemma FormatDateIsIso(ym: YearMonth)
    requires ym.month <= 99
    ensures |FormatDate(ym)| == 10 <==> 1000 <= ym.year <= 9999
    ensures 1000 <= ym.year <= 9999 ==> IsDateShaped(FormatDate(ym), ym)
    ensures 1000 <= ym.year <= 9999 ==> (IsIsoMonthStart(FormatDate(ym)) <==> ValidMonth(ym))
  {
    var y, m := Decimal(ym.year), Pad(ym.month, 2);
    PadRoundTrip(ym.month, 2);
    DecimalLength(ym.year, 4);
    DecimalLength(ym.year, 3);
    assert |y| <= 4 <==> ym.year < 10000;
    assert |y| <= 3 <==> ym.year < 1000;
    assert FormatDate(ym) == y + "-" + m + "-01";
    assert |FormatDate(ym)| == |y| + 6;
    if 1000 <= ym.year <= 9999 {
      var s := FormatDate(ym);
      DecimalRoundTrip(ym.year);
      assert s[..4] == y;
      assert s[5..7] == m;
    }
  }
}
