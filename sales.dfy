/** The cleaned sales table: one `SalesRecord` per transaction, with the
    calendar columns that cleaning derives from the date. Money is kept exactly,
    in integer cents. */
module Sales {

  /** A calendar date as pandas parses it: year, month and day. */
  datatype Date = Date(year: int, month: int, day: int)

  predicate IsLeapYear(y: int)
  {
    y % 4 == 0 && (y % 100 != 0 || y % 400 == 0)
  }

  function DaysInMonth(y: int, m: int): (n: int)
    requires 1 <= m <= 12
    ensures 28 <= n <= 31
  {
    if m == 2 then (if IsLeapYear(y) then 29 else 28)
    else if m == 4 || m == 6 || m == 9 || m == 11 then 30
    else 31
  }

  /** Chronological order of dates (timestamp comparison `<=`). */
  predicate DateLe(a: Date, b: Date)
  {
    a.year < b.year || (a.year == b.year && (a.month < b.month || (a.month == b.month && a.day <= b.day)))
  }

  /** The first and the last midnight a nanosecond `Timestamp` can hold: it
      spans 1677-09-21 00:12:43 to 2262-04-11 23:47:16. */
  const FirstTimestampDay := Date(1677, 9, 22)
  const LastTimestampDay := Date(2262, 4, 11)

  /** The triple names a day of the Gregorian calendar that a nanosecond
      `Timestamp` can represent: what `pd.to_datetime` accepts without raising
      `OutOfBoundsDatetime`. */
  predicate ValidDate(d: Date)
  {
    && 1 <= d.month <= 12 && 1 <= d.day <= DaysInMonth(d.year, d.month)
    && DateLe(FirstTimestampDay, d) && DateLe(d, LastTimestampDay)
  }

  /** The edges of the accepted range: the day before the first midnight and the
      day after the last one raise, as does a date in year 0. */
  lemma TimestampRangeEdges()
    ensures ValidDate(FirstTimestampDay) && !ValidDate(Date(1677, 9, 21))
    ensures ValidDate(LastTimestampDay) && !ValidDate(Date(2262, 4, 12))
    ensures !ValidDate(Date(0, 1, 1)) && ValidDate(Date(2000, 2, 29)) && !ValidDate(Date(2100, 2, 29))
  {
  }

  /** One row of the cleaned table. `totalSales` and `unitPrice` are in cents. */
  datatype SalesRecord = SalesRecord(
    date: Date,
    product: string,
    region: string,
    salesperson: string,
    quantity: int,
    unitPrice: int,
    totalSales: int,
    month: int,
    year: int,
    quarter: int)

  /** Calendar quarter of a month, as `dt.quarter` computes it. */
  function QuarterOf(month: int): (q: int)
    requires 1 <= month <= 12
    ensures 1 <= q <= 4
    ensures 3 * (q - 1) < month <= 3 * q
  {
    (month - 1) / 3 + 1
  }

  /** The derived columns agree with the date. */
  predicate CalendarColumns(r: SalesRecord)
  {
    ValidDate(r.date) && r.month == r.date.month && r.year == r.date.year && r.quarter == QuarterOf(r.date.month)
  }

  /** The generator's record invariant: the line total is quantity times unit price. */
  predicate Priced(r: SalesRecord)
  {
    r.quantity >= 1 && r.unitPrice > 0 && r.totalSales == r.quantity * r.unitPrice
  }

  /** A year choice of a filter widget: the "all years" sentinel or one year. */
  datatype YearPick = AnyYear | InYear(year: int)

  /** Python's ordering of strings: lexicographic by code point. */
  predicate StrLess(a: string, b: string)
  {
    if a == [] then b != []
    else if b == [] then false
    else if a[0] != b[0] then a[0] < b[0]
    else StrLess(a[1..], b[1..])
  }

  lemma {:induction false} StrLessIrreflexive(a: string)
    ensures !StrLess(a, a)
  {
    if a != [] {
      StrLessIrreflexive(a[1..]);
    }
  }

  lemma {:induction false} StrLessTransitive(a: string, b: string, c: string)
    requires StrLess(a, b) && StrLess(b, c)
    ensures StrLess(a, c)
  {
    if a != [] && a[0] == b[0] && b[0] == c[0] {
      StrLessTransitive(a[1..], b[1..], c[1..]);
    }
  }

  lemma {:induction false} StrLessTotal(a: string, b: string)
    requires a != b
    ensures StrLess(a, b) || StrLess(b, a)
  {
    if a != [] && b != [] && a[0] == b[0] {
      assert a == [a[0]] + a[1..] && b == [b[0]] + b[1..];
      StrLessTotal(a[1..], b[1..]);
    }
  }

  /** Order of `(year, quarter)` group keys: by year, then by quarter. */
  predicate PeriodLess(a: (int, int), b: (int, int))
  {
    a.0 < b.0 || (a.0 == b.0 && a.1 < b.1)
  }

  predicate IntLess(a: int, b: int)
  {
    a < b
  }
}
