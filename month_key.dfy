/**
 * The month key `YEAR-MM` that stamps the ledger's current period
 * (script.js:5): the full year, a dash, and the one-based month padded to
 * two digits. The key is compared by string equality when deciding a
 * rollover, so the model proves that equal keys mean equal months.
 */
module MonthKeys {
  import opened Wrappers
  import opened Text

  /** `Date.prototype.getMonth()`: 0 for January to 11 for December. */
  type MonthIndex = m: nat | m < 12

  /** The local year and month of a `Date`, the two parts `monthKey` reads. */
  datatype YearMonth = YearMonth(year: nat, monthIndex: MonthIndex)

  /** `s.padStart(2, '0')`. */
  function PadStart2(s: string): (r: string)
    ensures |r| == if |s| >= 2 then |s| else 2
    ensures r[|r| - |s|..] == s
    ensures forall k :: 0 <= k < |r| - |s| ==> r[k] == '0'
  {
    if |s| >= 2 then s else if |s| == 1 then "0" + s else "00"
  }

  /** `monthKey(date)`. */
  function MonthKey(d: YearMonth): (k: string)
    ensures |k| >= 4 && k[|k| - 3] == '-'
  {
    Decimal(d.year) + "-" + PadStart2(Decimal(d.monthIndex + 1))
  }

  /** Reads a `YEAR-MM` key back into its year and month; the inverse of `MonthKey`. */
  function ParseMonthKey(k: string): Option<YearMonth> {
    if |k| < 4 || k[|k| - 3] != '-' then None
    else
      var year := k[..|k| - 3];
      var month := k[|k| - 2..];
      if !AllDigits(year) || !AllDigits(month) then None
      else
        var m := DecimalValue(month);
        if 1 <= m <= 12 then Some(YearMonth(DecimalValue(year), m - 1)) else None
  }

  /** A one-based month number, padded, spells its own value. */
  lemma PaddedMonthValue(m: nat)
    requires 1 <= m <= 12
    ensures AllDigits(PadStart2(Decimal(m))) && |PadStart2(Decimal(m))| == 2
    ensures DecimalValue(PadStart2(Decimal(m))) == m
  {
    var digits := Decimal(m);
    DecimalRoundTrip(m);
    if m < 10 {
      OneDigitMonth(m);
      assert PadStart2(digits) == "0" + digits;
      LeadingZero(digits);
    } else {
      TwoDigitMonth(m);
      assert PadStart2(digits) == digits;
    }
  }

  /** Months one to nine are written with one digit. */
  lemma OneDigitMonth(m: nat)
    requires m < 10
    ensures Decimal(m) == [DigitChar(m)]
  {
  }

  /** Months ten to twelve are written with two digits. */
  lemma TwoDigitMonth(m: nat)
    requires 10 <= m <= 12
    ensures |Decimal(m)| == 2
  {
    assert m / 10 == 1 && Decimal(m / 10) == [DigitChar(1)];
  }

  /** Any digit string, a dash and two digits parse back into their parts. */
  lemma ParseKeyParts(k: string, year: string, month: string)
    requires year != [] && AllDigits(year) && |month| == 2 && AllDigits(month)
    requires k == year + "-" + month
    ensures ParseMonthKey(k) == if 1 <= DecimalValue(month) <= 12
      then Some(YearMonth(DecimalValue(year), DecimalValue(month) - 1)) else None
  {
    assert k[..|k| - 3] == year;
    assert k[|k| - 2..] == month;
  }

  lemma {:induction false} MonthKeyRoundTrip(d: YearMonth)
    ensures ParseMonthKey(MonthKey(d)) == Some(d)
  {
    var month := PadStart2(Decimal(d.monthIndex + 1));
    PaddedMonthValue(d.monthIndex + 1);
    DecimalRoundTrip(d.year);
    ParseKeyParts(MonthKey(d), Decimal(d.year), month);
  }

  /** Two dates give the same key exactly when they fall in the same year and month. */
  lemma {:induction false} MonthKeyInjective(a: YearMonth, b: YearMonth)
    ensures MonthKey(a) == MonthKey(b) <==> a == b
  {
    MonthKeyRoundTrip(a);
    MonthKeyRoundTrip(b);
  }
}
