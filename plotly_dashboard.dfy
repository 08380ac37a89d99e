/** The Dash dashboard: the table and its KPI cards are loaded once when the
    app starts; the three drop-downs select a year, a region and a product, and
    every chart is recomputed from the matching rows. */
module PlotlyDashboard {
  import opened Seqs
  import opened Sales
  import opened Wrappers
  import opened Aggregate

  /** `calculate_kpis`. The mean of an empty table is NaN. */
  datatype Kpis = Kpis(
    totalRevenue: int,
    totalQuantity: int,
    avgOrderValue: Option<real>,
    totalTransactions: nat,
    uniqueProducts: nat,
    uniqueRegions: nat)

  function CalculateKpis(rows: seq<SalesRecord>): (k: Kpis)
    ensures k.totalRevenue == Revenue(rows) && k.totalQuantity == Units(rows)
    ensures k.totalTransactions == |rows| && k.avgOrderValue == MeanOrderValue(rows)
    ensures k.uniqueProducts == |KeySet(rows, ByProduct)| <= k.totalTransactions
    ensures k.uniqueRegions == |KeySet(rows, ByRegion)| <= k.totalTransactions
    ensures k.uniqueProducts == 0 <==> k.totalTransactions == 0
    ensures k.uniqueRegions == 0 <==> k.totalTransactions == 0
  {
    Kpis(Revenue(rows), Units(rows), MeanOrderValue(rows), |rows|,
         DistinctCount(rows, ByProduct), DistinctCount(rows, ByRegion))
  }

  /** The value of the region and product drop-downs that stands for every value. */
  const ALL := "all"

  /** The three drop-down values; the year drop-down holds "all" or a year. */
  datatype Selection = Selection(year: YearPick, region: string, product: string)

  /** A row matches when it equals every selected value other than "all". */
  predicate Matches(sel: Selection, r: SalesRecord)
  {
    && (sel.year.InYear? ==> r.year == sel.year.year)
    && (sel.region != ALL ==> r.region == sel.region)
    && (sel.product != ALL ==> r.product == sel.product)
  }

  function MatchesFn(sel: Selection): SalesRecord -> bool
  {
    r => Matches(sel, r)
  }

  /** The matching rows, in table order. */
  function Chosen(rows: seq<SalesRecord>, sel: Selection): seq<SalesRecord>
  {
    Filter(rows, MatchesFn(sel))
  }

  /** The masks of `filter_data`. */
  function YearIs(y: int): SalesRecord -> bool
  {
    (r: SalesRecord) => r.year == y
  }

  function RegionIs(region: string): SalesRecord -> bool
  {
    (r: SalesRecord) => r.region == region
  }

  function ProductIs(product: string): SalesRecord -> bool
  {
    (r: SalesRecord) => r.product == product
  }

  /** The conditions met after the first and the second step of `filter_data`. */
  function AfterYear(sel: Selection): SalesRecord -> bool
  {
    (r: SalesRecord) => sel.year.InYear? ==> r.year == sel.year.year
  }

  function AfterRegion(sel: Selection): SalesRecord -> bool
  {
    r => AfterYear(sel)(r) && (sel.region != ALL ==> r.region == sel.region)
  }

  lemma YearStep(df: seq<SalesRecord>, sel: Selection)
    ensures (if sel.year.InYear? then Filter(df, YearIs(sel.year.year)) else df) == Filter(df, AfterYear(sel))
  {
    if sel.year.InYear? {
      FilterAgree(df, YearIs(sel.year.year), AfterYear(sel));
    } else {
      FilterKeepsAll(df, AfterYear(sel));
    }
  }

  lemma RegionStep(df: seq<SalesRecord>, sel: Selection)
    ensures (if sel.region != ALL then Filter(Filter(df, AfterYear(sel)), RegionIs(sel.region))
             else Filter(df, AfterYear(sel)))
         == Filter(df, AfterRegion(sel))
  {
    if sel.region != ALL {
      FilterCompose(df, AfterYear(sel), RegionIs(sel.region), AfterRegion(sel));
    } else {
      FilterAgree(df, AfterYear(sel), AfterRegion(sel));
    }
  }

  lemma ProductStep(df: seq<SalesRecord>, sel: Selection)
    ensures (if sel.product != ALL then Filter(Filter(df, AfterRegion(sel)), ProductIs(sel.product))
             else Filter(df, AfterRegion(sel)))
         == Chosen(df, sel)
  {
    forall x ensures MatchesFn(sel)(x) == (AfterRegion(sel)(x) && (sel.product != ALL ==> ProductIs(sel.product)(x))) {
      assert AfterRegion(sel)(x) == (AfterYear(sel)(x) && (sel.region != ALL ==> x.region == sel.region));
    }
    if sel.product != ALL {
      FilterCompose(df, AfterRegion(sel), ProductIs(sel.product), MatchesFn(sel));
    } else {
      FilterAgree(df, AfterRegion(sel), MatchesFn(sel));
    }
  }

  /** `filter_data`: each drop-down other than "all" narrows the working table
      in turn. The result is the conjunctive selection, a subsequence of the input. */
  method FilterData(df: seq<SalesRecord>, year: YearPick, region: string, product: string)
    returns (filtered: seq<SalesRecord>)
    ensures filtered == Chosen(df, Selection(year, region, product))
    ensures IsSubseq(filtered, df)
    ensures forall r :: r in filtered <==> r in df && Matches(Selection(year, region, product), r)
  {
    ghost var sel := Selection(year, region, product);
    filtered := df;
    if year.InYear? {
      filtered := Filter(filtered, YearIs(year.year));
    }
    YearStep(df, sel);
    if region != ALL {
      filtered := Filter(filtered, RegionIs(region));
    }
    RegionStep(df, sel);
    if product != ALL {
      filtered := Filter(filtered, ProductIs(product));
    }
    ProductStep(df, sel);
    FilterIsSubseq(df, MatchesFn(sel));
  }

  /** `reset_filters`: whatever the click count, every drop-down goes back to
      "all", a selection that every row matches. */
  function ResetFilters(nClicks: int): (sel: Selection)
    ensures forall r :: Matches(sel, r)
    ensures !sel.year.InYear? && sel.region == ALL && sel.product == ALL
  {
    Selection(AnyYear, ALL, ALL)
  }

  /** After a reset the charts cover the whole table. */
  lemma ResetShowsEverything(rows: seq<SalesRecord>, nClicks: int)
    ensures Chosen(rows, ResetFilters(nClicks)) == rows
  {
    FilterKeepsAll(rows, MatchesFn(ResetFilters(nClicks)));
  }

  /** The tables behind the six figures of `update_charts`. */
  datatype Figures = Figures(
    monthly: seq<Entry<int>>,
    regional: seq<Entry<string>>,
    products: seq<Entry<string>>,
    yearly: seq<Entry<int>>,
    topPerformers: seq<Entry<string>>,
    scatter: seq<SalesRecord>)

  /** The aggregations of `update_charts` over the matching rows. The monthly,
      regional, product and yearly tables partition the same rows; the product
      table is ascending; the top performers are the five largest salesperson
      totals, smallest first; the scatter plot shows every matching row. */
  function ChartTables(rows: seq<SalesRecord>): (figs: Figures)
    ensures figs.scatter == rows
    ensures figs.monthly == MonthlyRevenue(rows) && figs.regional == RegionalRevenue(rows)
    ensures figs.yearly == YearlyRevenue(rows)
    ensures Totals(figs.monthly) == Revenue(rows) && Totals(figs.regional) == Revenue(rows)
    ensures Totals(figs.products) == Revenue(rows) && Totals(figs.yearly) == Revenue(rows)
    ensures multiset(figs.products) == multiset(ProductRevenue(rows)) && Ordered(figs.products, true)
    ensures |figs.topPerformers| == Min(5, DistinctCount(rows, BySeller)) && Ordered(figs.topPerformers, true)
    ensures multiset(figs.topPerformers) <= multiset(SellerRevenue(rows))
    ensures forall e :: e in figs.topPerformers ==> e.total == GroupTotal(rows, BySeller, e.key, LineTotal)
    ensures forall e, r :: e in figs.topPerformers && r in rows && r.salesperson !in Keys(figs.topPerformers) ==>
              GroupTotal(rows, BySeller, r.salesperson, LineTotal) <= e.total
  {
    RevenueTablesPartition(rows);
    Figures(MonthlyRevenue(rows), RegionalRevenue(rows), RankedProducts(rows, true), YearlyRevenue(rows),
            TopSellersAscending(rows, 5), rows)
  }

  /** The running app: the table and the KPI cards, both fixed when the module
      is loaded. */
  class DashApp {
    const data: seq<SalesRecord>
    const kpis: Kpis

    /** The KPI cards are those of the whole table. */
    predicate Valid()
    {
      kpis == CalculateKpis(data)
    }

    /** Loading: `df = load_data()` and `kpis = calculate_kpis(df)`. */
    constructor (table: seq<SalesRecord>)
      ensures data == table && Valid()
    {
      data := table;
      kpis := CalculateKpis(table);
    }

    /** `update_charts`: filter the app's table, then aggregate the matching rows.
        The table and the KPI cards are left as they are. */
    method UpdateCharts(year: YearPick, region: string, product: string) returns (figs: Figures)
      requires Valid()
      ensures Valid()
      ensures figs == ChartTables(Chosen(data, Selection(year, region, product)))
    {
      var filtered := FilterData(data, year, region, product);
      figs := ChartTables(filtered);
    }
  }

  /** The KPI cards never depend on the drop-downs: they are those of the whole
      table whatever is selected, while the charts after a reset cover it all. */
  method ResetThenUpdate(app: DashApp, nClicks: int) returns (figs: Figures)
    requires app.Valid()
    ensures app.kpis == CalculateKpis(app.data)
    ensures figs == ChartTables(app.data)
    ensures Totals(figs.monthly) == app.kpis.totalRevenue
  {
    var sel := ResetFilters(nClicks);
    figs := app.UpdateCharts(sel.year, sel.region, sel.product);
    ResetShowsEverything(app.data, nClicks);
  }
}
