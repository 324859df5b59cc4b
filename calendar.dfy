/**
  Calendar-month arithmetic as JavaScript's `Date` performs it, and the two date helpers
  shared by the payment ledger and the new-contract form: `addMonthsToISODate` and
  `formatISOToHuman`. Dates are proleptic Gregorian; a month field out of range rolls
  the year, a day field out of range rolls into the neighbouring months.
*/
module Calendar {
  import opened Wrappers
  import opened Text
  import opened JsNumber

  /** A calendar date; `month` is 1..12 once normalised. */
  datatype Date = Date(year: int, month: int, day: int)

  predicate IsLeapYear(y: int)
  {
    y % 4 == 0 && (y % 100 != 0 || y % 400 == 0)
  }

  function DaysInMonth(y: int, m: int): (n: int)
    requires 1 <= m <= 12
    ensures 28 <= n <= 31
  {
    if m == 2 then (if IsLeapYear(y) then 29 else 28)
    else if m == 4 || m == 6 || m == 9 || m == 11 then 30
    else 31
  }

  predicate Valid(d: Date)
  {
    1 <= d.month <= 12 && 1 <= d.day <= DaysInMonth(d.year, d.month)
  }

  /** The month after (y, m), as a date on day 1. */
  function NextMonth(y: int, m: int): (r: Date)
    requires 1 <= m <= 12
    ensures 1 <= r.month <= 12 && r.day == 1
  {
    if m == 12 then Date(y + 1, 1, 1) else Date(y, m + 1, 1)
  }

  /** The month before (y, m), as a date on day 1. */
  function PrevMonth(y: int, m: int): (r: Date)
    requires 1 <= m <= 12
    ensures 1 <= r.month <= 12 && r.day == 1
  {
    if m == 1 then Date(y - 1, 12, 1) else Date(y, m - 1, 1)
  }

  /** Day d (at least 1) counted from the start of month (y, m), carried into later months. */
  function RollForward(y: int, m: int, d: int): (r: Date)
    requires 1 <= m <= 12 && d >= 1
    ensures Valid(r)
    decreases d
  {
    if d <= DaysInMonth(y, m) then Date(y, m, d)
    else
      var n := NextMonth(y, m);
      RollForward(n.year, n.month, d - DaysInMonth(y, m))
  }

  /** Day d (at most 0) of month (y, m), carried into earlier months. */
  function RollBackward(y: int, m: int, d: int): (r: Date)
    requires 1 <= m <= 12 && d <= 0
    ensures Valid(r)
    decreases -d
  {
    var p := PrevMonth(y, m);
    var e := d + DaysInMonth(p.year, p.month);
    if e >= 1 then Date(p.year, p.month, e) else RollBackward(p.year, p.month, e)
  }

  /**
    The date `new Date(y, m0, d)` denotes for integral fields, with m0 the zero-based month:
    the month index rolls the year (floor division), then the day rolls the month.
  */
  function MakeDay(y: int, m0: int, d: int): (r: Date)
    ensures Valid(r)
  {
    var ym, mn := y + m0 / 12, m0 % 12 + 1;
    if d >= 1 then RollForward(ym, mn, d) else RollBackward(ym, mn, d)
  }

  /** `date.setMonth(date.getMonth() + k)` on a normalised date. */
  function AddMonths(dt: Date, k: int): (r: Date)
    requires Valid(dt)
    ensures Valid(r)
  {
    MakeDay(dt.year, dt.month - 1 + k, dt.day)
  }

  /** `${year}-${month padded to 2}-${day padded to 2}`. */
  function FormatISO(dt: Date): string
    requires Valid(dt)
  {
    IntToString(dt.year) + "-" + Pad2(dt.month) + "-" + Pad2(dt.day)
  }

  /** The value `new Date(y, (m ?? 1) - 1, d ?? 1)` takes after `startISO.split("-").map(Number)`. */
  function StartDate(startISO: string): (r: Option<Date>)
    ensures r.Some? ==> Valid(r.value)
  {
    var f := Split(startISO, '-');
    var y := ParseNumber(f[0]);
    var m := if |f| > 1 then ParseNumber(f[1]) else Num(1.0);
    var d := if |f| > 2 then ParseNumber(f[2]) else Num(1.0);
    if y.NaN? || m.NaN? || d.NaN? then None
    else
      var yi := Trunc(y.value);
      // the Date constructor reads a year 0..99 as 1900..1999
      var year := if 0 <= yi <= 99 then 1900 + yi else yi;
      Some(MakeDay(year, Trunc(m.value - 1.0), Trunc(d.value)))
  }

  /** `addMonthsToISODate(startISO, months)`; an invalid date prints as "NaN-NaN-NaN". */
  function AddMonthsToISODate(startISO: string, months: int): string
  {
    match StartDate(startISO)
    case None => "NaN-NaN-NaN"
    case Some(dt) => FormatISO(AddMonths(dt, months))
  }

  /** `formatISOToHuman(iso)`: "" stays "", otherwise "y-m-d" becomes "d/m/y"; a missing piece prints as "undefined". */
  function FormatISOToHuman(iso: string): string
  {
    if iso == [] then ""
    else
      var f := Split(iso, '-');
      Piece(f, 2) + "/" + Piece(f, 1) + "/" + Piece(f, 0)
  }

  /** The i-th element of a destructured array, or the text of `undefined`. */
  function Piece(f: seq<string>, i: nat): string
  {
    if i < |f| then f[i] else "undefined"
  }

  // ---------------------------------------------------------------------------
  // Properties
  // ---------------------------------------------------------------------------

  /** A normalised date is a fixed point of the Date constructor. */
  lemma MakeDayOfValid(dt: Date)
    requires Valid(dt)
    ensures MakeDay(dt.year, dt.month - 1, dt.day) == dt
  {
    assert (dt.month - 1) / 12 == 0 && (dt.month - 1) % 12 == dt.month - 1;
  }

  /** Adding zero months changes nothing. */
  lemma AddMonthsZero(dt: Date)
    requires Valid(dt)
    ensures AddMonths(dt, 0) == dt
  {
    MakeDayOfValid(dt);
  }

  /**
    Adding k months lands in the month k months later. The day of month is kept when that
    month has it; otherwise the surplus days roll into the month after it.
  */
  lemma AddMonthsDay(dt: Date, k: int)
    requires Valid(dt)
    ensures var m0 := dt.month - 1 + k;
      var ty, tm := dt.year + m0 / 12, m0 % 12 + 1;
      var r := AddMonths(dt, k);
      if dt.day <= DaysInMonth(ty, tm) then r == Date(ty, tm, dt.day)
      else
        var n := NextMonth(ty, tm);
        r == Date(n.year, n.month, dt.day - DaysInMonth(ty, tm)) && r.day <= 3
  {
    var m0 := dt.month - 1 + k;
    var ty, tm := dt.year + m0 / 12, m0 % 12 + 1;
    assert AddMonths(dt, k) == RollForward(ty, tm, dt.day);
    if dt.day > DaysInMonth(ty, tm) {
      var n := NextMonth(ty, tm);
      var e := dt.day - DaysInMonth(ty, tm);
      assert e <= 3 && e <= DaysInMonth(n.year, n.month);
      assert RollForward(ty, tm, dt.day) == RollForward(n.year, n.month, e);
      assert RollForward(n.year, n.month, e) == Date(n.year, n.month, e);
    }
  }

  /** The pieces of a formatted date, before they are joined with "-". */
  function ISOPieces(dt: Date): seq<string>
    requires Valid(dt)
  {
    [IntToString(dt.year), Pad2(dt.month), Pad2(dt.day)]
  }

  lemma FormatISOSplit(dt: Date)
    requires Valid(dt) && dt.year >= 0
    ensures Split(FormatISO(dt), '-') == ISOPieces(dt)
  {
    var p := ISOPieces(dt);
    JoinThree(IntToString(dt.year), Pad2(dt.month), Pad2(dt.day));
    assert AllDigits(p[0]) && AllDigits(p[1]) && AllDigits(p[2]);
    SplitJoin(p, '-');
  }

  lemma JoinThree(a: string, b: string, c: string)
    ensures Join([a, b, c], '-') == a + "-" + b + "-" + c
  {
    var p := [a, b, c];
    assert p[1..] == [b, c];
    assert p[1..][1..] == [c];
    assert Join([b, c], '-') == b + "-" + c;
    assert Join(p, '-') == a + "-" + (b + "-" + c);
  }

  /** `formatISOToHuman` of a formatted date reverses its three pieces. */
  lemma FormatISOToHumanOfISO(dt: Date)
    requires Valid(dt) && dt.year >= 0
    ensures FormatISOToHuman(FormatISO(dt)) == Pad2(dt.day) + "/" + Pad2(dt.month) + "/" + IntToString(dt.year)
  {
    FormatISOSplit(dt);
  }

  /** For pieces without "-", "y-m-d" becomes "d/m/y". */
  lemma FormatISOToHumanReorders(y: string, m: string, d: string)
    requires '-' !in y && '-' !in m && '-' !in d
    ensures FormatISOToHuman(y + "-" + m + "-" + d) == d + "/" + m + "/" + y
    ensures FormatISOToHuman("") == ""
  {
    var p := [y, m, d];
    JoinThree(y, m, d);
    SplitJoin(p, '-');
  }

  /**
    Reading back a formatted date (year at least 100, so JavaScript's two-digit-year rule
    does not apply) recovers it: adding months to its ISO text is adding months to the date.
  */
  lemma StartDateOfISO(dt: Date)
    requires Valid(dt) && dt.year >= 100
    ensures StartDate(FormatISO(dt)) == Some(dt)
  {
    FormatISOSplit(dt);
    ParseIntToString(dt.year);
    Pad2Value(dt.month);
    Pad2Value(dt.day);
    ParseDigits(Pad2(dt.month));
    ParseDigits(Pad2(dt.day));
    assert Trunc(dt.year as real) == dt.year;
    assert Trunc(dt.month as real - 1.0) == dt.month - 1;
    assert Trunc(dt.day as real) == dt.day;
    MakeDayOfValid(dt);
  }

  lemma AddMonthsToISODateOfISO(dt: Date, k: int)
    requires Valid(dt) && dt.year >= 100
    ensures AddMonthsToISODate(FormatISO(dt), k) == FormatISO(AddMonths(dt, k))
  {
    StartDateOfISO(dt);
  }

  /** Adding zero months to a canonical ISO date returns the input unchanged. */
  lemma AddZeroMonthsToISODate(dt: Date)
    requires Valid(dt) && dt.year >= 100
    ensures AddMonthsToISODate(FormatISO(dt), 0) == FormatISO(dt)
  {
    StartDateOfISO(dt);
    AddMonthsZero(dt);
  }

  /** Every result is either "NaN-NaN-NaN" or a zero-padded "yyyy-mm-dd" of a real calendar date. */
  lemma AddMonthsToISODateShape(startISO: string, months: int)
    ensures var r := AddMonthsToISODate(startISO, months);
      r == "NaN-NaN-NaN"
      || (StartDate(startISO).Some? && var dt := AddMonths(StartDate(startISO).value, months);
          r == FormatISO(dt) && |Pad2(dt.month)| == 2 && |Pad2(dt.day)| == 2)
  {
  }

  lemma Year2025Text()
    ensures IntToString(2025) == "2025"
  {
    assert NatToString(2) == "2";
    assert NatToString(20) == "20";
    assert NatToString(202) == "202";
  }

  lemma Pad2Text(n: nat, t: string)
    requires 1 <= n <= 9 && t == [DigitChar(n)]
    ensures Pad2(n) == "0" + t
  {
  }

  lemma January31Text()
    ensures FormatISO(Date(2025, 1, 31)) == "2025-01-31"
  {
    Year2025Text();
    Pad2Text(1, "1");
    assert Pad2(31) == "31" by { assert NatToString(3) == "3"; }
  }

  lemma March3Text()
    ensures FormatISO(Date(2025, 3, 3)) == "2025-03-03"
  {
    Year2025Text();
    Pad2Text(3, "3");
  }

  /** 31 January plus one month rolls over February 2025 into 3 March. */
  lemma January31PlusOneMonth()
    ensures AddMonthsToISODate("2025-01-31", 1) == "2025-03-03"
  {
    var dt := Date(2025, 1, 31);
    AddMonthsDay(dt, 1);
    January31Text();
    March3Text();
    AddMonthsToISODateOfISO(dt, 1);
  }
}
