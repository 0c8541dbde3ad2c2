/**
 * Calendar dates as (year, month, day) triples, compared the way Python's
 * `datetime.date` objects compare, and rendered the way `date.isoformat()`
 * and `str(date)` render them ("YYYY-MM-DD").
 */
module Dates {
  import opened Wrappers
  import opened Text

  /** Fields are natural numbers; `ValidDate` says which triples are dates. */
  datatype Date = Date(year: nat, month: nat, day: nat)

  function DaysInMonth(year: int, month: int): int
  {
    if month == 2 then (if IsLeapYear(year) then 29 else 28)
    else if month == 4 || month == 6 || month == 9 || month == 11 then 30
    else 31
  }

  predicate IsLeapYear(year: int) {
    year % 4 == 0 && (year % 100 != 0 || year % 400 == 0)
  }

  /** The dates `datetime.date` can represent (years 1 to 9999). */
  predicate ValidDate(d: Date) {
    1 <= d.year <= 9999 && 1 <= d.month <= 12 && 1 <= d.day <= DaysInMonth(d.year, d.month)
  }

  /** `a < b` on dates: lexicographic on (year, month, day). */
  predicate Before(a: Date, b: Date) {
    a.year < b.year
    || (a.year == b.year && a.month < b.month)
    || (a.year == b.year && a.month == b.month && a.day < b.day)
  }

  /** `Before` is a strict total order, so "not before either way" is equality. */
  lemma BeforeIsStrictTotalOrder(a: Date, b: Date, c: Date)
    ensures !Before(a, a)
    ensures Before(a, b) && Before(b, c) ==> Before(a, c)
    ensures Before(a, b) || a == b || Before(b, a)
  {
  }

  /** The date `date(1900, 1, 1)` that the project tool uses for a missing start date. */
  const Jan1st1900: Date := Date(1900, 1, 1)

  /** `date(year, month, 1)`: the streamlit forms pick only a year and a month. */
  function FirstOfMonth(year: nat, month: nat): Date
  {
    Date(year, month, 1)
  }

  /** The first of every month of a representable year is a date, and its
      text reads back as that date. */
  lemma FirstOfMonthRoundTrip(year: nat, month: nat)
    requires 1 <= year <= 9999 && 1 <= month <= 12
    ensures ValidDate(FirstOfMonth(year, month))
    ensures ParseIso(Iso(FirstOfMonth(year, month))) == Some(FirstOfMonth(year, month))
  {
    IsoRoundTrip(FirstOfMonth(year, month));
  }

  /** For first-of-month dates the order is the (year, month) order. */
  lemma FirstOfMonthOrder(y1: nat, m1: nat, y2: nat, m2: nat)
    ensures Before(FirstOfMonth(y2, m2), FirstOfMonth(y1, m1))
            <==> (y2 < y1 || (y2 == y1 && m2 < m1))
  {
  }

  /** `d.isoformat()`: four-digit year, two-digit month and day. */
  function Iso(d: Date): (s: string)
  {
    PadNat(d.year, 4) + "-" + PadNat(d.month, 2) + "-" + PadNat(d.day, 2)
  }

  /** Reads back the "YYYY-MM-DD" form; anything else, or an impossible
      date, is None. */
  function ParseIso(s: string): (r: Option<Date>)
    ensures r.Some? ==> ValidDate(r.value)
  {
    if |s| == 10 && s[4] == '-' && s[7] == '-'
       && AllDigits(s[..4]) && AllDigits(s[5..7]) && AllDigits(s[8..])
    then
      var d := Date(ParseNat(s[..4]), ParseNat(s[5..7]), ParseNat(s[8..]));
      if ValidDate(d) then Some(d) else None
    else None
  }

  /** Rendering a date is undone by parsing it: no two dates share a text,
      and every rendered date has the fixed 10-character shape. */
  lemma IsoRoundTrip(d: Date)
    requires ValidDate(d)
    ensures |Iso(d)| == 10
    ensures ParseIso(Iso(d)) == Some(d)
  {
    assert Pow10(4) == 10000 && Pow10(2) == 100;
    NatToStringLength(d.year, 4);
    NatToStringLength(d.month, 2);
    NatToStringLength(d.day, 2);
    PadNatLength(d.year, 4);
    PadNatLength(d.month, 2);
    PadNatLength(d.day, 2);
    ParsePadNat(d.year, 4);
    ParsePadNat(d.month, 2);
    ParsePadNat(d.day, 2);
    var s := Iso(d);
    assert s[..4] == PadNat(d.year, 4);
    assert s[5..7] == PadNat(d.month, 2);
    assert s[8..] == PadNat(d.day, 2);
  }
}
