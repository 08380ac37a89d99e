/** The static Plotly dashboard: the KPI summary, the six-panel overview, the
    four individual charts and the insights printed by `main`. */
module StaticDashboard {
  import opened Sales
  import opened Wrappers
  import opened Aggregate

  // ---------------------------------------------------------------- KPI summary

  /** The first and the last date of the table (`min()` and `max()`). */
  function EarliestDate(rows: seq<SalesRecord>): (d: Date)
    requires rows != []
    ensures exists r :: r in rows && r.date == d
    ensures forall r :: r in rows ==> DateLe(d, r.date)
  {
    if |rows| == 1 then rows[0].date
    else
      var rest := EarliestDate(rows[1..]);
      assert forall r :: r in rows ==> r == rows[0] || r in rows[1..];
      if DateLe(rows[0].date, rest) then rows[0].date else rest
  }

  function LatestDate(rows: seq<SalesRecord>): (d: Date)
    requires rows != []
    ensures exists r :: r in rows && r.date == d
    ensures forall r :: r in rows ==> DateLe(r.date, d)
  {
    if |rows| == 1 then rows[0].date
    else
      var rest := LatestDate(rows[1..]);
      assert forall r :: r in rows ==> r == rows[0] || r in rows[1..];
      if DateLe(rest, rows[0].date) then rows[0].date else rest
  }

  /** The seven lines of `create_kpi_summary`. */
  datatype KpiSummary = KpiSummary(
    totalRevenue: int,
    totalQuantity: int,
    avgOrderValue: real,
    totalTransactions: nat,
    firstDate: Date,
    lastDate: Date,
    products: nat,
    regions: nat)

  /** Formatting the date range calls `strftime` on `NaT` when the table is
      empty, which raises. */
  datatype EmptyTable = EmptyTable

  function CreateKpiSummary(rows: seq<SalesRecord>): (res: Result<KpiSummary, EmptyTable>)
    ensures res.Failure? <==> rows == []
    ensures res.Success? ==>
      && res.value.totalRevenue == Revenue(rows) && res.value.totalQuantity == Units(rows)
      && res.value.totalTransactions == |rows| && Some(res.value.avgOrderValue) == MeanOrderValue(rows)
      && res.value.products == DistinctCount(rows, ByProduct) && res.value.regions == DistinctCount(rows, ByRegion)
      && DateLe(res.value.firstDate, res.value.lastDate)
      && (forall r :: r in rows ==> DateLe(res.value.firstDate, r.date) && DateLe(r.date, res.value.lastDate))
      && (exists r :: r in rows && r.date == res.value.firstDate)
      && (exists r :: r in rows && r.date == res.value.lastDate)
  {
    if rows == [] then Failure(EmptyTable)
    else
      var first := EarliestDate(rows);
      assert DateLe(first, rows[0].date);
      Success(KpiSummary(Revenue(rows), Units(rows), MeanOrderValue(rows).value, |rows|,
                         first, LatestDate(rows),
                         DistinctCount(rows, ByProduct), DistinctCount(rows, ByRegion)))
  }

  // ---------------------------------------------------------------- charts

  /** The tables behind the panels of `create_main_dashboard` (the sampled
      price-versus-quantity panel aside). */
  datatype Overview = Overview(
    monthly: seq<Entry<int>>,
    regional: seq<Entry<string>>,
    products: seq<Entry<string>>,
    yearly: seq<Entry<int>>,
    topPerformers: seq<Entry<string>>)

  function CreateMainDashboard(rows: seq<SalesRecord>): (o: Overview)
    ensures o.monthly == MonthlyRevenue(rows) && o.regional == RegionalRevenue(rows)
    ensures o.yearly == YearlyRevenue(rows)
    ensures Totals(o.monthly) == Revenue(rows) && Totals(o.regional) == Revenue(rows)
    ensures Totals(o.yearly) == Revenue(rows) && Totals(o.products) == Revenue(rows)
    ensures multiset(o.products) == multiset(ProductRevenue(rows)) && Ordered(o.products, true)
    ensures |o.topPerformers| == Min(5, DistinctCount(rows, BySeller)) && Ordered(o.topPerformers, true)
    ensures multiset(o.topPerformers) <= multiset(SellerRevenue(rows))
    ensures forall e :: e in o.topPerformers ==> e.total == GroupTotal(rows, BySeller, e.key, LineTotal)
    ensures forall e, r :: e in o.topPerformers && r in rows && r.salesperson !in Keys(o.topPerformers) ==>
              GroupTotal(rows, BySeller, r.salesperson, LineTotal) <= e.total
  {
    RevenueTablesPartition(rows);
    Overview(MonthlyRevenue(rows), RegionalRevenue(rows), RankedProducts(rows, true),
             YearlyRevenue(rows), TopSellersAscending(rows, 5))
  }

  /** `pct_change() * 100` of a table's totals: nothing for the first entry,
      then the change from each entry to the next. */
  function PctChange<K>(t: seq<Entry<K>>): (g: seq<Growth>)
    ensures |g| == |t|
    ensures |t| > 0 ==> g[0].NotApplicable?
    ensures forall i :: 0 < i < |t| ==> !g[i].NotApplicable? && (g[i].Undefined? <==> t[i - 1].total == 0)
    ensures forall i :: 0 < i < |t| && g[i].Percent? ==>
              g[i].pct * (t[i - 1].total as real) == ((t[i].total - t[i - 1].total) as real) * 100.0
  {
    var g := seq(|t|, i requires 0 <= i < |t| => if i == 0 then NotApplicable else Change(t, i));
    forall i | 0 < i < |t| ensures g[i] == Change(t, i) {
    }
    g
  }

  /** The change from entry `i - 1` to entry `i`. */
  function Change<K>(t: seq<Entry<K>>, i: int): (g: Growth)
    requires 0 < i < |t|
    ensures !g.NotApplicable? && (g.Undefined? <==> t[i - 1].total == 0)
    ensures g.Percent? ==> g.pct * (t[i - 1].total as real) == ((t[i].total - t[i - 1].total) as real) * 100.0
  {
    PercentChange(t[i - 1].total, t[i].total)
  }

  /** The `growth` column of the yearly chart, at its second year, is the YoY
      growth `main` prints; each entry compares a year with the one before it. */
  lemma PctChangeOfYearly(rows: seq<SalesRecord>)
    ensures var g := PctChange(YearlyRevenue(rows));
      && (forall i :: 0 < i < |g| ==> YearlyRevenue(rows)[i - 1].key < YearlyRevenue(rows)[i].key)
      && (YoYLine(rows).Some? ==> |g| > 1 && g[1] == YoYLine(rows).value.growth)
  {
    IntLessIsOrder();
    GroupByTable(rows, ByYear, IntLess, LineTotal);
    var t := YearlyRevenue(rows);
    forall i | 0 < i < |t| ensures t[i - 1].key < t[i].key {
      assert Keys(t)[i - 1] == t[i - 1].key && Keys(t)[i] == t[i].key;
    }
  }

  /** The tables behind `create_individual_charts`: the product chart is sorted
      largest first, and the yearly chart carries the growth column. */
  datatype IndividualCharts = IndividualCharts(
    monthly: seq<Entry<int>>,
    products: seq<Entry<string>>,
    regions: seq<Entry<string>>,
    yearly: seq<Entry<int>>,
    growth: seq<Growth>)

  function CreateIndividualCharts(rows: seq<SalesRecord>): (c: IndividualCharts)
    ensures c.monthly == MonthlyRevenue(rows) && c.regions == RegionalRevenue(rows)
    ensures c.yearly == YearlyRevenue(rows) && c.growth == PctChange(c.yearly)
    ensures Totals(c.monthly) == Revenue(rows) && Totals(c.regions) == Revenue(rows)
    ensures Totals(c.yearly) == Revenue(rows) && Totals(c.products) == Revenue(rows)
    ensures multiset(c.products) == multiset(ProductRevenue(rows)) && Ordered(c.products, false)
    ensures |c.growth| == |c.yearly| == DistinctCount(rows, ByYear)
    ensures |c.growth| > 1 ==> Some(c.growth[1]) == (if YoYLine(rows).Some? then Some(YoYLine(rows).value.growth) else None)
  {
    RevenueTablesPartition(rows);
    RevenueTableSizes(rows);
    PctChangeOfYearly(rows);
    var yearly := YearlyRevenue(rows);
    IndividualCharts(MonthlyRevenue(rows), RankedProducts(rows, false), RegionalRevenue(rows),
                     yearly, PctChange(yearly))
  }

  // ---------------------------------------------------------------- insights

  /** The key insights `main` prints after the KPI summary. */
  datatype Insights = Insights(
    totalRevenue: int,
    topProduct: Entry<string>,
    topRegion: Entry<string>,
    yoy: Option<GrowthLine>,
    peakMonth: Entry<int>)

  /** `main`: the KPI summary first, which fails on an empty table, then the
      insights of the whole table. */
  function KeyInsights(rows: seq<SalesRecord>): (res: Result<Insights, EmptyTable>)
    ensures res.Failure? <==> rows == []
    ensures res.Success? ==>
      && res.value.totalRevenue == Revenue(rows)
      && res.value.topProduct == TopProduct(rows)
      && res.value.topRegion == TopRegion(rows)
      && res.value.peakMonth == PeakMonth(rows)
      && res.value.yoy == YoYLine(rows)
      && (res.value.yoy.Some? <==> DistinctCount(rows, ByYear) > 1)
  {
    match CreateKpiSummary(rows)
    case Failure(e) => Failure(e)
    case Success(_) =>
      Success(Insights(Revenue(rows), TopProduct(rows), TopRegion(rows), YoYLine(rows), PeakMonth(rows)))
  }
}
