/** `clean_data`: drop duplicate rows (keeping the first of each), drop rows
    with a missing field, parse the date and add the month, year and quarter
    columns. */
module CleanData {
  import opened Seqs
  import opened Sales
  import opened Wrappers

  /** A row as read from the generated CSV; `None` is a missing (NaN) cell.
      Dates are taken as already split into year, month and day. */
  datatype RawRecord = RawRecord(
    date: Option<Date>,
    product: Option<string>,
    region: Option<string>,
    salesperson: Option<string>,
    quantity: Option<int>,
    unitPrice: Option<int>,
    totalSales: Option<int>)

  /** The row survives `dropna()`. */
  predicate Complete(r: RawRecord)
  {
    && r.date.Some? && r.product.Some? && r.region.Some? && r.salesperson.Some?
    && r.quantity.Some? && r.unitPrice.Some? && r.totalSales.Some?
  }

  /** `x` is seen at some position where `y` has not been seen yet (at or before it). */
  ghost predicate SeenBefore(rows: seq<RawRecord>, x: RawRecord, y: RawRecord)
  {
    exists k :: 0 <= k < |rows| && rows[k] == x && y !in rows[..k + 1]
  }

  /** `drop_duplicates()`: a row is kept exactly when no earlier row equals it. */
  function DropDuplicates(rows: seq<RawRecord>): (r: seq<RawRecord>)
    ensures Distinct(r)
    ensures forall x :: x in r <==> x in rows
  {
    if rows == [] then []
    else
      var init, last := rows[..|rows| - 1], rows[|rows| - 1];
      assert rows == init + [last];
      var kept := DropDuplicates(init);
      if last in init then kept else kept + [last]
  }

  /** The de-duplicated rows are a subsequence of the input, in the order in
      which each row was first seen. */
  lemma {:induction false} DropDuplicatesKeepsFirstOccurrences(rows: seq<RawRecord>)
    ensures IsSubseq(DropDuplicates(rows), rows)
    ensures forall i, j :: 0 <= i < j < |DropDuplicates(rows)| ==>
      SeenBefore(rows, DropDuplicates(rows)[i], DropDuplicates(rows)[j])
  {
    if rows != [] {
      var init, last := rows[..|rows| - 1], rows[|rows| - 1];
      assert rows == init + [last];
      var kept := DropDuplicates(init);
      DropDuplicatesKeepsFirstOccurrences(init);
      assert forall i, j :: 0 <= i < j < |kept| ==> SeenBefore(init, kept[i], kept[j]);
      forall i, j | 0 <= i < j < |kept| ensures SeenBefore(rows, kept[i], kept[j]) {
        assert SeenBefore(init, kept[i], kept[j]);
        var k :| 0 <= k < |init| && init[k] == kept[i] && kept[j] !in init[..k + 1];
        assert rows[..k + 1] == init[..k + 1];
      }
      if last in init {
        SubseqSnoc(kept, init, last);
      } else {
        SubseqSnocBoth(kept, init, last);
        var r := kept + [last];
        forall i, j | 0 <= i < j < |r| ensures SeenBefore(rows, r[i], r[j]) {
          if j < |kept| {
            assert r[i] == kept[i] && r[j] == kept[j];
          } else {
            assert r[i] in init;
            var k :| 0 <= k < |init| && init[k] == r[i];
            assert rows[..k + 1] == init[..k + 1];
          }
        }
      }
    }
  }

  /** A table without repeated rows is left as it is. */
  lemma {:induction false} DropDuplicatesOfDistinct(rows: seq<RawRecord>)
    requires Distinct(rows)
    ensures DropDuplicates(rows) == rows
  {
    if rows != [] {
      var init, last := rows[..|rows| - 1], rows[|rows| - 1];
      assert rows == init + [last];
      assert Distinct(init);
      DropDuplicatesOfDistinct(init);
    }
  }

  /** `dropna()`. */
  function DropMissing(rows: seq<RawRecord>): (r: seq<RawRecord>)
    ensures forall x :: x in r <==> x in rows && Complete(x)
    ensures forall x :: multiset(r)[x] == if Complete(x) then multiset(rows)[x] else 0
    ensures IsSubseq(r, rows)
  {
    FilterCounts(rows, Complete);
    FilterIsSubseq(rows, Complete);
    Filter(rows, Complete)
  }

  /** The row with the date parsed and `month`, `year`, `quarter` added. */
  function Derive(r: RawRecord): (s: SalesRecord)
    requires Complete(r) && ValidDate(r.date.value)
    ensures CalendarColumns(s)
    ensures 1 <= s.month <= 12 && 1 <= s.quarter <= 4
    ensures ToRaw(s) == r
  {
    var d := r.date.value;
    SalesRecord(d, r.product.value, r.region.value, r.salesperson.value,
                r.quantity.value, r.unitPrice.value, r.totalSales.value,
                d.month, d.year, QuarterOf(d.month))
  }

  /** The columns of a cleaned row that were read from the file. */
  function ToRaw(s: SalesRecord): RawRecord
  {
    RawRecord(Some(s.date), Some(s.product), Some(s.region), Some(s.salesperson),
              Some(s.quantity), Some(s.unitPrice), Some(s.totalSales))
  }

  function ToRawAll(rows: seq<SalesRecord>): (r: seq<RawRecord>)
    ensures |r| == |rows| && forall i :: 0 <= i < |rows| ==> r[i] == ToRaw(rows[i])
  {
    seq(|rows|, i requires 0 <= i < |rows| => ToRaw(rows[i]))
  }

  /** `pd.to_datetime` raises on a date that names no calendar day. */
  datatype CleanError = UnparseableDate(bad: RawRecord)

  /** The rows left after `drop_duplicates()` and `dropna()`. */
  function Kept(rows: seq<RawRecord>): (kept: seq<RawRecord>)
    ensures forall x :: x in kept <==> x in rows && Complete(x)
    ensures Distinct(kept) && IsSubseq(kept, rows) && |kept| <= |rows|
    ensures IsSubseq(kept, DropDuplicates(rows))
  {
    var unique := DropDuplicates(rows);
    FilterDistinct(unique, Complete);
    DropDuplicatesKeepsFirstOccurrences(rows);
    FilterIsSubseq(unique, Complete);
    SubseqTransitive(DropMissing(unique), unique, rows);
    SubseqLength(DropMissing(unique), rows);
    DropMissing(unique)
  }

  /** The rows with their calendar columns added. */
  function DeriveAll(kept: seq<RawRecord>): (out: seq<SalesRecord>)
    requires forall x :: x in kept ==> Complete(x) && ValidDate(x.date.value)
    ensures |out| == |kept| && ToRawAll(out) == kept
    ensures forall s :: s in out ==> CalendarColumns(s) && 1 <= s.month <= 12 && 1 <= s.quarter <= 4
  {
    var out := seq(|kept|, i requires 0 <= i < |kept| => Derive(kept[i]));
    assert ToRawAll(out) == kept;
    out
  }

  /** Rows whose raw columns differ stay different once the calendar columns are added. */
  lemma DeriveAllKeepsRowsApart(kept: seq<RawRecord>)
    requires forall x :: x in kept ==> Complete(x) && ValidDate(x.date.value)
    requires Distinct(kept)
    ensures Distinct(DeriveAll(kept))
    ensures forall x :: x in kept <==> exists s :: s in DeriveAll(kept) && ToRaw(s) == x
  {
    var out := DeriveAll(kept);
    assert forall i :: 0 <= i < |out| ==> ToRaw(out[i]) == kept[i];
    forall x | x in kept ensures exists s :: s in out && ToRaw(s) == x {
      var i :| 0 <= i < |kept| && kept[i] == x;
      assert ToRaw(out[i]) == x;
    }
  }

  /** The row has a date, and it names no calendar day. */
  predicate BadDate(r: RawRecord)
  {
    r.date.Some? && !ValidDate(r.date.value)
  }

  /** The first complete row whose date `pd.to_datetime` cannot parse, if any. */
  function FirstBadDate(rows: seq<RawRecord>): (r: Option<RawRecord>)
    ensures r.None? <==> forall x :: x in rows ==> !BadDate(x)
    ensures r.Some? ==> r.value in rows && BadDate(r.value)
  {
    if rows == [] then None
    else if BadDate(rows[0]) then Some(rows[0])
    else FirstBadDate(rows[1..])
  }

  /** `clean_data(df)`. */
  function Clean(rows: seq<RawRecord>): (res: Result<seq<SalesRecord>, CleanError>)
    ensures res.Failure? <==> exists x :: x in rows && Complete(x) && BadDate(x)
    ensures res.Failure? ==> res.error.bad in rows && Complete(res.error.bad) && BadDate(res.error.bad)
    ensures res.Success? ==>
      var out := res.value;
      && |out| <= |rows|
      && Distinct(out)
      && (forall s :: s in out ==> CalendarColumns(s) && 1 <= s.month <= 12 && 1 <= s.quarter <= 4)
      && (forall x :: x in rows && Complete(x) <==> exists s :: s in out && ToRaw(s) == x)
  {
    var kept := Kept(rows);
    match FirstBadDate(kept)
    case Some(bad) => Failure(UnparseableDate(bad))
    case None =>
      DeriveAllKeepsRowsApart(kept);
      Success(DeriveAll(kept))
  }

  /** The cleaned rows, read back as raw rows, are a subsequence of the input
      and of its first occurrences, so they keep the first-occurrence order. */
  lemma CleanKeepsSubsequence(rows: seq<RawRecord>)
    requires Clean(rows).Success?
    ensures IsSubseq(ToRawAll(Clean(rows).value), rows)
    ensures IsSubseq(ToRawAll(Clean(rows).value), DropDuplicates(rows))
  {
    assert ToRawAll(Clean(rows).value) == Kept(rows);
  }

  /** Cleaning an already cleaned table gives back the same rows. */
  lemma CleanIdempotent(rows: seq<RawRecord>)
    requires Clean(rows).Success?
    ensures Clean(ToRawAll(Clean(rows).value)) == Clean(rows)
  {
    var kept := Kept(rows);
    assert ToRawAll(Clean(rows).value) == kept;
    DropDuplicatesOfDistinct(kept);
    FilterKeepsAll(kept, Complete);
    assert Kept(kept) == kept;
  }
}
