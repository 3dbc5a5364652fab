/** The five `SimpleDateFormat` instances `sdf1`..`sdf5` of MainActivity: numeric
    calendar fields rendered in decimal and zero-padded to the pattern's letter count. */
module DateFormat {

  /** A calendar date as the device clock yields it (the time zone is left to the caller). */
  datatype Date = Date(year: nat, month: nat, day: nat)

  predicate IsLeapYear(y: nat) {
    y % 4 == 0 && (y % 100 != 0 || y % 400 == 0)
  }

  function DaysInMonth(y: nat, m: nat): (n: nat)
    requires 1 <= m <= 12
    ensures 28 <= n <= 31
  {
    if m == 2 then (if IsLeapYear(y) then 29 else 28)
    else if m == 4 || m == 6 || m == 9 || m == 11 then 30
    else 31
  }

  /** A date that `Date()` can produce: a year of the common era and a real day of a real month. */
  predicate ValidDate(d: Date) {
    1 <= d.year && 1 <= d.month <= 12 && 1 <= d.day <= DaysInMonth(d.year, d.month)
  }

  // ---------------------------------------------------------------------------
  // Decimal digits

  predicate IsDigit(c: char) {
    '0' <= c <= '9'
  }

  predicate AllDigits(s: string) {
    forall i :: 0 <= i < |s| ==> IsDigit(s[i])
  }

  function DigitChar(k: nat): (c: char)
    requires k < 10
    ensures IsDigit(c) && c as int - '0' as int == k
  {
    (k + '0' as int) as char
  }

  function DigitValue(c: char): (k: nat)
    requires IsDigit(c)
    ensures k < 10
  {
    c as int - '0' as int
  }

  /** The value a string of decimal digits denotes (most significant digit first). */
  function ValueOf(s: string): nat
    requires AllDigits(s)
  {
    if s == [] then 0 else ValueOf(s[..|s| - 1]) * 10 + DigitValue(s[|s| - 1])
  }

  function Pow10(k: nat): (p: nat)
    ensures p >= 1
  {
    if k == 0 then 1 else 10 * Pow10(k - 1)
  }

  /** The shortest decimal rendering of `n`, as Java prints an int. */
  function Decimal(n: nat): (s: string)
    ensures 1 <= |s| && AllDigits(s)
    ensures |s| == 1 <==> n < 10
  {
    if n < 10 then [DigitChar(n)] else Decimal(n / 10) + [DigitChar(n % 10)]
  }

  lemma {:induction false} ValueOfDecimal(n: nat)
    ensures ValueOf(Decimal(n)) == n
  {
    if n >= 10 {
      var s := Decimal(n);
      assert s[..|s| - 1] == Decimal(n / 10);
      ValueOfDecimal(n / 10);
    }
  }

  /** `Decimal(n)` fits in `k` characters exactly when `n < 10^k`. */
  lemma {:induction false} DecimalFits(n: nat, k: nat)
    requires 1 <= k
    ensures |Decimal(n)| <= k <==> n < Pow10(k)
  {
    if n >= 10 && k > 1 {
      DecimalFits(n / 10, k - 1);
    } else if n >= 10 {
      assert Pow10(1) == 10;
    } else {
      assert 10 <= Pow10(k) by { PowMonotone(1, k); }
    }
  }

  lemma {:induction false} PowMonotone(j: nat, k: nat)
    requires j <= k
    ensures Pow10(j) <= Pow10(k)
  {
    if j < k {
      PowMonotone(j, k - 1);
    }
  }

  function Zeros(k: nat): (s: string)
    ensures |s| == k && AllDigits(s)
  {
    seq(k, _ => '0')
  }

  lemma {:induction false} LeadingZeros(k: nat, s: string)
    requires AllDigits(s)
    ensures AllDigits(Zeros(k) + s) && ValueOf(Zeros(k) + s) == ValueOf(s)
  {
    var z := Zeros(k) + s;
    if s == [] {
      assert z == Zeros(k);
      ZerosValue(k);
    } else {
      assert z[..|z| - 1] == Zeros(k) + s[..|s| - 1];
      LeadingZeros(k, s[..|s| - 1]);
    }
  }

  lemma {:induction false} ZerosValue(k: nat)
    ensures ValueOf(Zeros(k)) == 0
  {
    if k > 0 {
      assert Zeros(k)[..k - 1] == Zeros(k - 1);
      ZerosValue(k - 1);
    }
  }

  /** A number rendered with at least `width` digits, padded on the left with '0',
      as `SimpleDateFormat` renders a numeric field whose letter is repeated `width` times. */
  function ZeroPad(n: nat, width: nat): (s: string)
    ensures AllDigits(s) && ValueOf(s) == n
    ensures |s| == if |Decimal(n)| < width then width else |Decimal(n)|
  {
    var digits := Decimal(n);
    var pad := if |digits| < width then width - |digits| else 0;
    ValueOfDecimal(n);
    LeadingZeros(pad, digits);
    Zeros(pad) + digits
  }

  /** The padded rendering has exactly `width` characters iff the value has at most `width` digits. */
  lemma ZeroPadWidth(n: nat, width: nat)
    requires 1 <= width
    ensures |ZeroPad(n, width)| == width <==> n < Pow10(width)
  {
    DecimalFits(n, width);
  }

  // ---------------------------------------------------------------------------
  // Patterns

  /** The pattern letters the formatters use: 'y' (year), 'M' (month, numeric), 'd' (day of month). */
  datatype Letter = Year | Month | Day

  /** A run of one letter; its length is the minimum number of digits printed. */
  datatype Field = Field(letter: Letter, width: nat)

  type Pattern = seq<Field>

  function FieldValue(l: Letter, d: Date): nat {
    match l
    case Year => d.year
    case Month => d.month
    case Day => d.day
  }

  /** `SimpleDateFormat.format` for a pattern made only of numeric fields. */
  function Format(p: Pattern, d: Date): (s: string)
    ensures AllDigits(s) && |s| >= TotalWidth(p)
  {
    if p == [] then "" else
      var head := ZeroPad(FieldValue(p[0].letter, d), p[0].width);
      var tail := Format(p[1..], d);
      assert forall i :: 0 <= i < |head + tail| ==> (head + tail)[i] == if i < |head| then head[i] else tail[i - |head|];
      head + tail
  }

  /** sdf1 = "yyyy" */
  const Sdf1: Pattern := [Field(Year, 4)]
  /** sdf2 = "MM" */
  const Sdf2: Pattern := [Field(Month, 2)]
  /** sdf3 = "MMdd" */
  const Sdf3: Pattern := [Field(Month, 2), Field(Day, 2)]
  /** sdf4 = "yyyyMMdd" */
  const Sdf4: Pattern := [Field(Year, 4), Field(Month, 2), Field(Day, 2)]
  /** sdf5 = "dd" */
  const Sdf5: Pattern := [Field(Day, 2)]

  /** Every field of `p` takes exactly its width on date `d` (no field overflows). */
  predicate Fits(p: Pattern, d: Date) {
    forall i :: 0 <= i < |p| ==> 1 <= p[i].width && FieldValue(p[i].letter, d) < Pow10(p[i].width)
  }

  function TotalWidth(p: Pattern): nat {
    if p == [] then 0 else p[0].width + TotalWidth(p[1..])
  }

  lemma {:induction false} FormatLength(p: Pattern, d: Date)
    requires Fits(p, d)
    ensures |Format(p, d)| == TotalWidth(p)
  {
    if p != [] {
      ZeroPadWidth(FieldValue(p[0].letter, d), p[0].width);
      FormatLength(p[1..], d);
    }
  }

  /** Formatting distributes over concatenation of patterns. */
  lemma {:induction false} FormatConcat(p: Pattern, q: Pattern, d: Date)
    ensures Format(p + q, d) == Format(p, d) + Format(q, d)
  {
    if p != [] {
      var head := ZeroPad(FieldValue(p[0].letter, d), p[0].width);
      assert (p + q)[0] == p[0] && (p + q)[1..] == p[1..] + q;
      FormatConcat(p[1..], q, d);
      calc {
        Format(p + q, d);
        head + Format(p[1..] + q, d);
        head + (Format(p[1..], d) + Format(q, d));
        (head + Format(p[1..], d)) + Format(q, d);
      }
    } else {
      assert p + q == q;
    }
  }

  /** Two dates render the same under a pattern whose fields fit only when they agree on
      every letter the pattern mentions. */
  lemma {:induction false} FormatDeterminesFields(p: Pattern, d1: Date, d2: Date)
    requires Fits(p, d1) && Fits(p, d2)
    ensures Format(p, d1) == Format(p, d2) <==>
            forall i :: 0 <= i < |p| ==> FieldValue(p[i].letter, d1) == FieldValue(p[i].letter, d2)
  {
    if p != [] {
      var a1, a2 := FieldValue(p[0].letter, d1), FieldValue(p[0].letter, d2);
      var h1, h2 := ZeroPad(a1, p[0].width), ZeroPad(a2, p[0].width);
      ZeroPadWidth(a1, p[0].width);
      ZeroPadWidth(a2, p[0].width);
      FormatDeterminesFields(p[1..], d1, d2);
      if forall i :: 0 <= i < |p| ==> FieldValue(p[i].letter, d1) == FieldValue(p[i].letter, d2) {
        assert a1 == a2;
        forall i | 0 <= i < |p[1..]|
          ensures FieldValue(p[1..][i].letter, d1) == FieldValue(p[1..][i].letter, d2)
        {
          assert p[1..][i] == p[i + 1];
        }
      }
      if Format(p, d1) == Format(p, d2) {
        assert h1 == Format(p, d1)[..|h1|];
        assert h2 == Format(p, d2)[..|h2|];
        assert Format(p[1..], d1) == Format(p, d1)[|h1|..];
        assert Format(p[1..], d2) == Format(p, d2)[|h2|..];
        assert a1 == a2;
        forall i | 0 <= i < |p|
          ensures FieldValue(p[i].letter, d1) == FieldValue(p[i].letter, d2)
        {
          if i > 0 {
            assert p[i] == p[1..][i - 1];
          }
        }
      }
    }
  }

  /** On a valid date with a four-digit year every formatter output has its nominal width:
      MM and dd two digits, MMdd four, yyyy four and yyyyMMdd eight; and yyyyMMdd is yyyy followed by MMdd. */
  lemma FormatterWidths(d: Date)
    requires ValidDate(d)
    ensures |Format(Sdf2, d)| == 2 && |Format(Sdf5, d)| == 2 && |Format(Sdf3, d)| == 4
    ensures |Format(Sdf1, d)| == 4 <==> d.year < 10000
    ensures |Format(Sdf4, d)| == 8 <==> d.year < 10000
    ensures Format(Sdf4, d) == Format(Sdf1, d) + Format(Sdf3, d)
  {
    assert Pow10(2) == 100 && Pow10(4) == 10000;
    FormatConcat(Sdf1, Sdf3, d);
    assert Sdf1 + Sdf3 == Sdf4;
    FormatLength(Sdf2, d);
    FormatLength(Sdf5, d);
    FormatLength(Sdf3, d);
    ZeroPadWidth(d.year, 4);
    assert Format(Sdf1, d) == ZeroPad(d.year, 4);
    assert |Format(Sdf4, d)| == |Format(Sdf1, d)| + 4;
  }

  /** Each formatter output reads back as the field it renders. */
  lemma FormatterValues(d: Date)
    ensures AllDigits(Format(Sdf1, d)) && ValueOf(Format(Sdf1, d)) == d.year
    ensures AllDigits(Format(Sdf2, d)) && ValueOf(Format(Sdf2, d)) == d.month
    ensures AllDigits(Format(Sdf5, d)) && ValueOf(Format(Sdf5, d)) == d.day
  {
    assert Format(Sdf1, d) == ZeroPad(d.year, 4);
    assert Format(Sdf2, d) == ZeroPad(d.month, 2);
    assert Format(Sdf5, d) == ZeroPad(d.day, 2);
  }

  /** 2024-03-05 renders as "2024", "03", "05", "0305" and "20240305". */
  lemma FormatterExample()
    ensures Format(Sdf1, Date(2024, 3, 5)) == "2024"
    ensures Format(Sdf2, Date(2024, 3, 5)) == "03"
    ensures Format(Sdf3, Date(2024, 3, 5)) == "0305"
    ensures Format(Sdf4, Date(2024, 3, 5)) == "20240305"
    ensures Format(Sdf5, Date(2024, 3, 5)) == "05"
  {
    var d := Date(2024, 3, 5);
    assert Decimal(2) == "2";
    assert Decimal(20) == "20";
    assert Decimal(202) == "202";
    assert Decimal(2024) == "2024";
  }

  /** The formatter outputs the two dated mirror URLs are built from, on 2023-10-14 and 2023-10-24. */
  lemma FormatterOctober2023()
    ensures Format(Sdf1, Date(2023, 10, 14)) == "2023" && Format(Sdf2, Date(2023, 10, 14)) == "10"
    ensures Format(Sdf3, Date(2023, 10, 14)) == "1014"
    ensures Format(Sdf1, Date(2023, 10, 24)) == "2023" && Format(Sdf2, Date(2023, 10, 24)) == "10"
    ensures Format(Sdf4, Date(2023, 10, 24)) == "20231024"
  {
    assert Decimal(2) == "2";
    assert Decimal(20) == "20";
    assert Decimal(202) == "202";
    assert Decimal(2023) == "2023";
  }
}
