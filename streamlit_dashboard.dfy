/** The Streamlit dashboard: the sidebar filters narrow the cleaned table, and
    the KPI cards, the overview and detail charts and the insights panel are
    computed from the rows that remain. */
module StreamlitDashboard {
  import opened Seqs
  import opened Sales
  import opened Wrappers
  import opened Aggregate

  /** The sidebar selections. `dateRange` holds the dates the picker returned
      (two once both ends are chosen); each multi-select may hold the "All" entry. */
  datatype Filters = Filters(dateRange: seq<Date>, products: seq<string>, regions: seq<string>, years: seq<YearPick>)

  /** The entry of a multi-select that stands for every value. */
  const ALL := "All"

  /** The date criterion applies only once the picker holds both ends. */
  predicate DateFilterOn(f: Filters)
  {
    |f.dateRange| == 2
  }

  /** A multi-select restricts the rows only when it is non-empty and "All" is not chosen. */
  predicate Restricts(sel: seq<string>)
  {
    ALL !in sel && |sel| > 0
  }

  predicate YearsRestrict(sel: seq<YearPick>)
  {
    AnyYear !in sel && |sel| > 0
  }

  /** Both ends of the range are inclusive. */
  predicate InDateRange(f: Filters, r: SalesRecord)
    requires DateFilterOn(f)
  {
    DateLe(f.dateRange[0], r.date) && DateLe(r.date, f.dateRange[1])
  }

  /** A row is shown when it meets every criterion that is switched on. */
  predicate Passes(f: Filters, r: SalesRecord)
  {
    && (DateFilterOn(f) ==> InDateRange(f, r))
    && (Restricts(f.products) ==> r.product in f.products)
    && (Restricts(f.regions) ==> r.region in f.regions)
    && (YearsRestrict(f.years) ==> InYear(r.year) in f.years)
  }

  function PassesFn(f: Filters): SalesRecord -> bool
  {
    r => Passes(f, r)
  }

  /** The rows that meet every active criterion, in table order. */
  function Selected(rows: seq<SalesRecord>, f: Filters): seq<SalesRecord>
  {
    Filter(rows, PassesFn(f))
  }

  /** The masks `apply_filters` applies, one per criterion. */
  function Between(start: Date, end: Date): SalesRecord -> bool
  {
    (r: SalesRecord) => DateLe(start, r.date) && DateLe(r.date, end)
  }

  function ProductIn(sel: seq<string>): SalesRecord -> bool
  {
    (r: SalesRecord) => r.product in sel
  }

  function RegionIn(sel: seq<string>): SalesRecord -> bool
  {
    (r: SalesRecord) => r.region in sel
  }

  function YearIn(sel: seq<YearPick>): SalesRecord -> bool
  {
    (r: SalesRecord) => InYear(r.year) in sel
  }

  /** The criteria met after the first one, two and three steps of `apply_filters`. */
  function AfterDate(f: Filters): SalesRecord -> bool
  {
    r => DateFilterOn(f) ==> InDateRange(f, r)
  }

  function AfterProducts(f: Filters): SalesRecord -> bool
  {
    r => AfterDate(f)(r) && (Restricts(f.products) ==> r.product in f.products)
  }

  function AfterRegions(f: Filters): SalesRecord -> bool
  {
    r => AfterProducts(f)(r) && (Restricts(f.regions) ==> r.region in f.regions)
  }

  lemma DateStep(df: seq<SalesRecord>, f: Filters)
    ensures (if DateFilterOn(f) then Filter(df, Between(f.dateRange[0], f.dateRange[1])) else df)
         == Filter(df, AfterDate(f))
  {
    if DateFilterOn(f) {
      FilterAgree(df, Between(f.dateRange[0], f.dateRange[1]), AfterDate(f));
    } else {
      FilterKeepsAll(df, AfterDate(f));
    }
  }

  lemma ProductStep(df: seq<SalesRecord>, f: Filters)
    ensures (if Restricts(f.products) then Filter(Filter(df, AfterDate(f)), ProductIn(f.products))
             else Filter(df, AfterDate(f)))
         == Filter(df, AfterProducts(f))
  {
    if Restricts(f.products) {
      FilterCompose(df, AfterDate(f), ProductIn(f.products), AfterProducts(f));
    } else {
      FilterAgree(df, AfterDate(f), AfterProducts(f));
    }
  }

  lemma RegionStep(df: seq<SalesRecord>, f: Filters)
    ensures (if Restricts(f.regions) then Filter(Filter(df, AfterProducts(f)), RegionIn(f.regions))
             else Filter(df, AfterProducts(f)))
         == Filter(df, AfterRegions(f))
  {
    if Restricts(f.regions) {
      FilterCompose(df, AfterProducts(f), RegionIn(f.regions), AfterRegions(f));
    } else {
      FilterAgree(df, AfterProducts(f), AfterRegions(f));
    }
  }

  lemma YearStep(df: seq<SalesRecord>, f: Filters)
    ensures (if YearsRestrict(f.years) then Filter(Filter(df, AfterRegions(f)), YearIn(f.years))
             else Filter(df, AfterRegions(f)))
         == Selected(df, f)
  {
    forall x ensures PassesFn(f)(x) == (AfterRegions(f)(x) && (YearsRestrict(f.years) ==> YearIn(f.years)(x))) {
      assert AfterRegions(f)(x) == (AfterProducts(f)(x) && (Restricts(f.regions) ==> x.region in f.regions));
      assert AfterProducts(f)(x) == (AfterDate(f)(x) && (Restricts(f.products) ==> x.product in f.products));
    }
    if YearsRestrict(f.years) {
      FilterCompose(df, AfterRegions(f), YearIn(f.years), PassesFn(f));
    } else {
      FilterAgree(df, AfterRegions(f), PassesFn(f));
    }
  }

  /** `apply_filters`: each active criterion narrows the working table in turn.
      The result is the conjunctive selection, a subsequence of the input. */
  method ApplyFilters(df: seq<SalesRecord>, f: Filters) returns (filtered: seq<SalesRecord>)
    ensures filtered == Selected(df, f)
    ensures IsSubseq(filtered, df)
    ensures forall r :: r in filtered <==> r in df && Passes(f, r)
  {
    filtered := df;
    if |f.dateRange| == 2 {
      filtered := Filter(filtered, Between(f.dateRange[0], f.dateRange[1]));
    }
    DateStep(df, f);
    if ALL !in f.products && |f.products| > 0 {
      filtered := Filter(filtered, ProductIn(f.products));
    }
    ProductStep(df, f);
    if ALL !in f.regions && |f.regions| > 0 {
      filtered := Filter(filtered, RegionIn(f.regions));
    }
    RegionStep(df, f);
    if AnyYear !in f.years && |f.years| > 0 {
      filtered := Filter(filtered, YearIn(f.years));
    }
    YearStep(df, f);
    FilterIsSubseq(df, PassesFn(f));
  }

  /** Filtering the filtered table again with the same selections changes nothing. */
  lemma SelectedIdempotent(rows: seq<SalesRecord>, f: Filters)
    ensures Selected(Selected(rows, f), f) == Selected(rows, f)
  {
    FilterIdempotent(rows, PassesFn(f));
  }

  /** With no criterion switched on (the defaults: every multi-select on "All"),
      every row is shown. */
  lemma NoCriterionKeepsAll(rows: seq<SalesRecord>, f: Filters)
    requires !DateFilterOn(f) && !Restricts(f.products) && !Restricts(f.regions) && !YearsRestrict(f.years)
    ensures Selected(rows, f) == rows
  {
    FilterKeepsAll(rows, PassesFn(f));
  }

  /** `create_kpi_metrics`: the four KPI cards. The mean of an empty table is NaN. */
  datatype KpiCards = KpiCards(totalRevenue: int, totalTransactions: nat, avgOrderValue: Option<real>, totalQuantity: int)

  function KpiMetrics(rows: seq<SalesRecord>): (k: KpiCards)
    ensures k.totalRevenue == Revenue(rows) && k.totalQuantity == Units(rows)
    ensures k.totalTransactions == |rows|
    ensures k.avgOrderValue.None? <==> k.totalTransactions == 0
    ensures k.avgOrderValue.Some? ==> k.avgOrderValue.value * (k.totalTransactions as real) == k.totalRevenue as real
  {
    KpiCards(Revenue(rows), |rows|, MeanOrderValue(rows), Units(rows))
  }

  /** The tables behind the charts: monthly, product (largest first), regional,
      yearly, and the `n` best salespeople (largest first). */
  datatype ChartTables = ChartTables(
    monthly: seq<Entry<int>>,
    products: seq<Entry<string>>,
    regional: seq<Entry<string>>,
    yearly: seq<Entry<int>>,
    performers: seq<Entry<string>>)

  /** The aggregations of `create_comprehensive_dashboard` (with `n` = 5) and of
      the `create_*_chart` functions (with `n` = 10). */
  function Charts(rows: seq<SalesRecord>, n: nat): (c: ChartTables)
    ensures c.monthly == MonthlyRevenue(rows) && c.regional == RegionalRevenue(rows)
    ensures c.yearly == YearlyRevenue(rows)
    ensures Totals(c.monthly) == Revenue(rows) && Totals(c.regional) == Revenue(rows)
    ensures Totals(c.yearly) == Revenue(rows)
    ensures multiset(c.products) == multiset(ProductRevenue(rows)) && Ordered(c.products, false)
    ensures Totals(c.products) == Revenue(rows)
    ensures |c.performers| == Min(n, DistinctCount(rows, BySeller)) && Ordered(c.performers, false)
    ensures multiset(c.performers) <= multiset(SellerRevenue(rows))
    ensures forall e :: e in c.performers ==> e.total == GroupTotal(rows, BySeller, e.key, LineTotal)
    ensures forall e, r :: e in c.performers && r in rows && r.salesperson !in Keys(c.performers) ==>
              GroupTotal(rows, BySeller, r.salesperson, LineTotal) <= e.total
  {
    RevenueTablesPartition(rows);
    RevenueTableSizes(rows);
    var products := RankedProducts(rows, false);
    var performers := Largest(SellerRevenue(rows), n);
    StrLessIsOrder();
    TopGroups(rows, BySeller, StrLess, LineTotal, performers);
    ChartTables(MonthlyRevenue(rows), products, RegionalRevenue(rows),
                YearlyRevenue(rows), performers)
  }

  /** The insights panel. */
  datatype Insights = Insights(
    totalRevenue: int,
    topProduct: Entry<string>,
    topRegion: Entry<string>,
    yoyGrowth: Growth,
    peakMonth: Entry<int>,
    avgOrderValue: real)

  /** `display_data_insights`. `index[0]` and `idxmax` raise on an empty table,
      so the panel needs at least one row. */
  function DataInsights(rows: seq<SalesRecord>): (i: Insights)
    requires rows != []
    ensures i.totalRevenue == Revenue(rows) && Some(i.avgOrderValue) == MeanOrderValue(rows)
    ensures i.topProduct == TopProduct(rows) && i.topRegion == TopRegion(rows) && i.peakMonth == PeakMonth(rows)
    ensures i.yoyGrowth.NotApplicable? <==> DistinctCount(rows, ByYear) <= 1
    ensures DistinctCount(rows, ByYear) > 1 ==> i.yoyGrowth == YoYLine(rows).value.growth
  {
    IntLessIsOrder();
    GroupBySize(rows, ByYear, IntLess, LineTotal);
    Insights(Revenue(rows), TopProduct(rows), TopRegion(rows), YoYGrowth(YearlyRevenue(rows)),
             PeakMonth(rows), MeanOrderValue(rows).value)
  }

  /** What the page shows: a warning when no row matches, else the dashboard. */
  datatype Page =
    | NoMatches
    | Dashboard(shown: nat, total: nat, kpis: KpiCards, overview: ChartTables, detail: ChartTables, insights: Insights)

  /** `main` after loading: filter, stop with a warning on an empty result, and
      otherwise compute every card, chart and insight from the filtered rows.
      The guard is what makes the insights (which need a row) computable. */
  method RunDashboard(df: seq<SalesRecord>, f: Filters) returns (page: Page)
    ensures page.NoMatches? <==> Selected(df, f) == []
    ensures page.Dashboard? ==>
      var shown := Selected(df, f);
      && page.shown == |shown| <= page.total == |df|
      && page.kpis == KpiMetrics(shown)
      && page.overview == Charts(shown, 5)
      && page.detail == Charts(shown, 10)
      && page.insights == DataInsights(shown)
  {
    var filtered := ApplyFilters(df, f);
    if |filtered| == 0 {
      return NoMatches;
    }
    page := Dashboard(|filtered|, |df|, KpiMetrics(filtered), Charts(filtered, 5), Charts(filtered, 10),
                      DataInsights(filtered));
  }
}
