/** The static report generator: the KPI cards, the nine-panel main dashboard
    (monthly, product, regional, yearly with YoY growth, top performers,
    quarterly periods, the per-product summary) and the markdown report. */
module CreateDashboard {
  import opened Seqs
  import opened Sales
  import opened Wrappers
  import opened Aggregate

  // ---------------------------------------------------------------- KPIs

  /** `calculate_kpis`. `uniqueCustomers` counts salespeople: the data has no
      customer column. */
  datatype Kpis = Kpis(
    totalRevenue: int,
    totalQuantity: int,
    avgOrderValue: Option<real>,
    totalTransactions: nat,
    uniqueCustomers: nat)

  function CalculateKpis(rows: seq<SalesRecord>): (k: Kpis)
    ensures k.totalRevenue == Revenue(rows) && k.totalQuantity == Units(rows)
    ensures k.totalTransactions == |rows| && k.avgOrderValue == MeanOrderValue(rows)
    ensures k.uniqueCustomers == |KeySet(rows, BySeller)| <= k.totalTransactions
    ensures k.uniqueCustomers == 0 <==> k.totalTransactions == 0
  {
    Kpis(Revenue(rows), Units(rows), MeanOrderValue(rows), |rows|, DistinctCount(rows, BySeller))
  }

  /** The "Revenue/Transaction" card: total revenue over the transaction count
      (NaN when there are none). */
  function RevenuePerTransaction(k: Kpis): (v: Option<real>)
    ensures v.None? <==> k.totalTransactions == 0
    ensures v.Some? ==> v.value * (k.totalTransactions as real) == k.totalRevenue as real
  {
    if k.totalTransactions == 0 then None
    else Some(k.totalRevenue as real / k.totalTransactions as real)
  }

  /** The "Revenue/Transaction" card always shows the same value as the
      "Avg Order Value" card, including NaN on an empty table. */
  lemma RevenuePerTransactionIsMean(rows: seq<SalesRecord>)
    ensures RevenuePerTransaction(CalculateKpis(rows)) == CalculateKpis(rows).avgOrderValue
  {
    var k := CalculateKpis(rows);
    if rows != [] {
      var n := |rows| as real;
      assert RevenuePerTransaction(k).value * n == MeanOrderValue(rows).value * n;
    }
  }

  // ---------------------------------------------------------------- period labels

  function DigitChar(d: int): (c: char)
    requires 0 <= d < 10
    ensures '0' <= c <= '9' && c as int - '0' as int == d
  {
    (d + '0' as int) as char
  }

  /** `str(n)` for a non-negative integer: decimal digits, no leading zero. */
  function NatToStr(n: nat): (s: string)
    ensures |s| >= 1
    ensures forall c :: c in s ==> '0' <= c <= '9'
  {
    if n < 10 then [DigitChar(n)] else NatToStr(n / 10) + [DigitChar(n % 10)]
  }

  /** `str(i)`: a minus sign before the digits of a negative number. */
  function IntToStr(i: int): (s: string)
    ensures 'Q' !in s
  {
    if i < 0 then "-" + NatToStr(-i) else NatToStr(i)
  }

  /** Reads decimal digits back. */
  function ParseNat(s: string): int
  {
    if s == [] then 0 else 10 * ParseNat(s[..|s| - 1]) + (s[|s| - 1] as int - '0' as int)
  }

  function ParseInt(s: string): int
  {
    if |s| > 0 && s[0] == '-' then -ParseNat(s[1..]) else ParseNat(s)
  }

  lemma {:induction false} ParseNatToStr(n: nat)
    ensures ParseNat(NatToStr(n)) == n
  {
    if n >= 10 {
      var s := NatToStr(n);
      assert s[..|s| - 1] == NatToStr(n / 10);
      ParseNatToStr(n / 10);
    } else {
      assert NatToStr(n)[..0] == [];
    }
  }

  lemma ParseIntToStr(i: int)
    ensures ParseInt(IntToStr(i)) == i
  {
    if i < 0 {
      assert IntToStr(i)[1..] == NatToStr(-i);
      ParseNatToStr(-i);
    } else {
      ParseNatToStr(i);
      assert NatToStr(i)[0] in NatToStr(i);
    }
  }

  /** The `period` column: `year.astype(str) + '-Q' + quarter.astype(str)`. */
  function PeriodLabel(key: (int, int)): string
  {
    IntToStr(key.0) + "-Q" + IntToStr(key.1)
  }

  /** The position of the first 'Q', or the length when there is none. */
  function FindQ(s: string): (i: nat)
    ensures i <= |s|
    ensures forall j :: 0 <= j < i ==> s[j] != 'Q'
    ensures i < |s| ==> s[i] == 'Q'
  {
    if s == [] || s[0] == 'Q' then 0 else 1 + FindQ(s[1..])
  }

  /** Reads a period text back into its (year, quarter) key. */
  function ParsePeriod(text: string): Option<(int, int)>
  {
    var i := FindQ(text);
    if i == 0 || i == |text| then None
    else Some((ParseInt(text[..i - 1]), ParseInt(text[i + 1..])))
  }

  /** A period text can be read back, so distinct periods get distinct labels. */
  lemma PeriodLabelRoundTrip(key: (int, int))
    ensures ParsePeriod(PeriodLabel(key)) == Some(key)
  {
    var y, q := IntToStr(key.0), IntToStr(key.1);
    var text := PeriodLabel(key);
    assert text == y + "-Q" + q;
    assert text[|y| + 1] == 'Q';
    assert forall j :: 0 <= j < |y| ==> text[j] == y[j];
    assert FindQ(text) == |y| + 1;
    assert text[..|y|] == y;
    assert text[|y| + 2..] == q;
    ParseIntToStr(key.0);
    ParseIntToStr(key.1);
  }

  lemma PeriodLabelInjective(a: (int, int), b: (int, int))
    requires PeriodLabel(a) == PeriodLabel(b)
    ensures a == b
  {
    PeriodLabelRoundTrip(a);
    PeriodLabelRoundTrip(b);
  }

  /** The quarterly panel: the `(year, quarter)` table with each period labelled. */
  function QuarterlyPeriods(rows: seq<SalesRecord>): (t: seq<Entry<string>>)
    ensures |t| == |QuarterlyRevenue(rows)|
    ensures forall i :: 0 <= i < |t| ==> ParsePeriod(t[i].key) == Some(QuarterlyRevenue(rows)[i].key)
    ensures forall i :: 0 <= i < |t| ==> t[i].total == QuarterlyRevenue(rows)[i].total
    ensures Distinct(Keys(t))
    ensures Totals(t) == Revenue(rows)
  {
    var q := QuarterlyRevenue(rows);
    var t := seq(|q|, i requires 0 <= i < |q| => Entry(PeriodLabel(q[i].key), q[i].total));
    forall i | 0 <= i < |t| ensures ParsePeriod(t[i].key) == Some(q[i].key) {
      PeriodLabelRoundTrip(q[i].key);
    }
    PeriodLessIsOrder();
    GroupByTable(rows, ByPeriod, PeriodLess, LineTotal);
    assert Distinct(Keys(q));
    forall i, j | 0 <= i < j < |t| ensures Keys(t)[i] != Keys(t)[j] {
      assert Keys(q)[i] != Keys(q)[j];
      if t[i].key == t[j].key {
        PeriodLabelInjective(q[i].key, q[j].key);
      }
    }
    TotalsOfSameValues(t, q);
    RevenueTablesPartition(rows);
    t
  }

  // ---------------------------------------------------------------- product summary

  /** One row of the summary table: `sum`, `mean` and `count` of the line
      totals, and `sum` of the quantities, of one product. */
  datatype ProductStats = ProductStats(product: string, totalSales: int, avgSale: real, transactions: nat, totalQty: int)

  /** A product that occurs in the rows has at least one transaction. */
  lemma GroupOfPresentKey(rows: seq<SalesRecord>, p: string)
    requires p in KeySet(rows, ByProduct)
    ensures |Group(rows, ByProduct, p)| >= 1
    ensures GroupTotal(rows, ByProduct, p, OneRow) == |Group(rows, ByProduct, p)|
  {
    var r :| r in rows && ByProduct(r) == p;
    assert r in Group(rows, ByProduct, p);
    CountIsLength(Group(rows, ByProduct, p));
  }

  function Stats(rows: seq<SalesRecord>, p: string): (s: ProductStats)
    requires p in KeySet(rows, ByProduct)
    ensures s.product == p && s.transactions >= 1
    ensures s.totalSales == GroupTotal(rows, ByProduct, p, LineTotal)
    ensures s.transactions == GroupTotal(rows, ByProduct, p, OneRow)
    ensures s.totalQty == GroupTotal(rows, ByProduct, p, LineQuantity)
    ensures s.avgSale * (s.transactions as real) == s.totalSales as real
  {
    GroupOfPresentKey(rows, p);
    var n := GroupTotal(rows, ByProduct, p, OneRow);
    var total := GroupTotal(rows, ByProduct, p, LineTotal);
    var avg := Ratio(total, n);
    assert avg * (n as real) == total as real;
    ProductStats(p, total, avg, n, GroupTotal(rows, ByProduct, p, LineQuantity))
  }

  /** `total / n` in floating point, here exact. */
  function Ratio(total: int, n: int): (q: real)
    requires n > 0
    ensures q * (n as real) == total as real
  {
    total as real / n as real
  }

  function StatsOf(rows: seq<SalesRecord>, ps: seq<string>): (t: seq<ProductStats>)
    requires forall p :: p in ps ==> p in KeySet(rows, ByProduct)
    ensures |t| == |ps| && forall i :: 0 <= i < |ps| ==> t[i] == Stats(rows, ps[i])
  {
    if ps == [] then [] else [Stats(rows, ps[0])] + StatsOf(rows, ps[1..])
  }

  /** `groupby('product').agg(...)`: one row per product, products in ascending order. */
  function ProductSummary(rows: seq<SalesRecord>): (t: seq<ProductStats>)
    ensures |t| == |ProductRevenue(rows)|
    ensures forall i :: 0 <= i < |t| ==>
      t[i].product == ProductRevenue(rows)[i].key && t[i].totalSales == ProductRevenue(rows)[i].total
    ensures forall i :: 0 <= i < |t| ==>
      ProductRevenue(rows)[i].key in KeySet(rows, ByProduct) && t[i] == Stats(rows, ProductRevenue(rows)[i].key)
  {
    StrLessIsOrder();
    var ps := SortedKeys(rows, ByProduct, StrLess);
    StatsOf(rows, ps)
  }

  function TransactionCounts(t: seq<ProductStats>): int
  {
    if t == [] then 0 else t[0].transactions + TransactionCounts(t[1..])
  }

  function QuantityTotals(t: seq<ProductStats>): int
  {
    if t == [] then 0 else t[0].totalQty + QuantityTotals(t[1..])
  }

  lemma {:induction false} StatsOfSums(rows: seq<SalesRecord>, ps: seq<string>)
    requires forall p :: p in ps ==> p in KeySet(rows, ByProduct)
    ensures TransactionCounts(StatsOf(rows, ps)) == Totals(Tabulate(rows, ByProduct, ps, OneRow))
    ensures QuantityTotals(StatsOf(rows, ps)) == Totals(Tabulate(rows, ByProduct, ps, LineQuantity))
  {
    if ps != [] {
      assert Tabulate(rows, ByProduct, ps, OneRow)[1..] == Tabulate(rows, ByProduct, ps[1..], OneRow);
      assert Tabulate(rows, ByProduct, ps, LineQuantity)[1..] == Tabulate(rows, ByProduct, ps[1..], LineQuantity);
      StatsOfSums(rows, ps[1..]);
    }
  }

  /** The summary's transaction counts add up to the row count and its
      quantities to the total quantity: every row is in exactly one product. */
  lemma ProductSummaryCoversRows(rows: seq<SalesRecord>)
    ensures TransactionCounts(ProductSummary(rows)) == |rows|
    ensures QuantityTotals(ProductSummary(rows)) == Units(rows)
  {
    StrLessIsOrder();
    var ps := SortedKeys(rows, ByProduct, StrLess);
    StatsOfSums(rows, ps);
    AscendingIsDistinct(ps, StrLess);
    GroupsPartitionTotal(rows, ByProduct, ps, OneRow);
    GroupsPartitionTotal(rows, ByProduct, ps, LineQuantity);
    CountIsLength(rows);
  }

  // ---------------------------------------------------------------- main dashboard

  /** The data behind the nine panels of `create_main_dashboard` (the scatter
      and histogram panels show the rows themselves, with the mean line). */
  datatype MainDashboard = MainDashboard(
    monthly: seq<Entry<int>>,
    products: seq<Entry<string>>,
    regional: seq<Entry<string>>,
    yearly: seq<Entry<int>>,
    yoyGrowth: Growth,
    topPerformers: seq<Entry<string>>,
    quarterly: seq<Entry<string>>,
    meanSale: Option<real>,
    summary: seq<ProductStats>)

  function CreateMainDashboard(rows: seq<SalesRecord>): (d: MainDashboard)
    ensures d.monthly == MonthlyRevenue(rows) && d.regional == RegionalRevenue(rows)
    ensures d.yearly == YearlyRevenue(rows)
    ensures Ascending(Keys(d.monthly), IntLess) && |d.monthly| == DistinctCount(rows, ByMonth)
    ensures Totals(d.monthly) == Revenue(rows) && Totals(d.regional) == Revenue(rows)
    ensures Totals(d.yearly) == Revenue(rows) && Totals(d.products) == Revenue(rows)
    ensures multiset(d.products) == multiset(ProductRevenue(rows)) && Ordered(d.products, true)
    ensures d.yoyGrowth.NotApplicable? <==> DistinctCount(rows, ByYear) <= 1
    ensures d.yoyGrowth == YoYGrowth(d.yearly)
    ensures |d.topPerformers| == Min(5, DistinctCount(rows, BySeller)) && Ordered(d.topPerformers, true)
    ensures multiset(d.topPerformers) <= multiset(SellerRevenue(rows))
    ensures forall e :: e in d.topPerformers ==> e.total == GroupTotal(rows, BySeller, e.key, LineTotal)
    ensures forall e, r :: e in d.topPerformers && r in rows && r.salesperson !in Keys(d.topPerformers) ==>
              GroupTotal(rows, BySeller, r.salesperson, LineTotal) <= e.total
    ensures d.quarterly == QuarterlyPeriods(rows)
    ensures Distinct(Keys(d.quarterly)) && Totals(d.quarterly) == Revenue(rows)
    ensures d.meanSale == MeanOrderValue(rows)
    ensures d.summary == ProductSummary(rows)
    ensures |d.summary| == |ProductRevenue(rows)| == |d.products|
  {
    IntLessIsOrder();
    GroupByTable(rows, ByMonth, IntLess, LineTotal);
    GroupBySize(rows, ByYear, IntLess, LineTotal);
    RevenueTablesPartition(rows);
    var products := RankedProducts(rows, true);
    MainDashboard(MonthlyRevenue(rows), products, RegionalRevenue(rows), YearlyRevenue(rows),
                  YoYGrowth(YearlyRevenue(rows)), TopSellersAscending(rows, 5), QuarterlyPeriods(rows),
                  MeanOrderValue(rows),
                  ProductSummary(rows))
  }

  // ---------------------------------------------------------------- report

  /** The figures of `generate_dashboard_report`. */
  datatype Report = Report(
    kpis: Kpis,
    products: nat,
    regions: nat,
    years: nat,
    productRanking: seq<Entry<string>>,
    regionRanking: seq<Entry<string>>,
    topMonths: seq<Entry<int>>,
    growthLine: Option<GrowthLine>)

  /** The report's YoY line (guarded by `df['year'].nunique() > 1`) and the
      main dashboard's yearly panel (guarded by the length of the yearly table)
      agree on when the growth is shown and on its value. */
  lemma ReportYoYMatchesDashboard(rows: seq<SalesRecord>)
    ensures YoYLine(rows).Some? <==> !CreateMainDashboard(rows).yoyGrowth.NotApplicable?
    ensures YoYLine(rows).Some? ==> YoYLine(rows).value.growth == CreateMainDashboard(rows).yoyGrowth
  {
    YoYUsesTwoEarliestYears(rows);
  }

  /** `generate_dashboard_report`: the counts, both rankings largest first, the
      three best months, and the YoY line when there is more than one year. */
  function GenerateReport(rows: seq<SalesRecord>): (rep: Report)
    ensures rep.kpis == CalculateKpis(rows)
    ensures rep.products == DistinctCount(rows, ByProduct) && rep.regions == DistinctCount(rows, ByRegion)
    ensures rep.years == DistinctCount(rows, ByYear)
    ensures multiset(rep.productRanking) == multiset(ProductRevenue(rows)) && Ordered(rep.productRanking, false)
    ensures multiset(rep.regionRanking) == multiset(RegionalRevenue(rows)) && Ordered(rep.regionRanking, false)
    ensures Totals(rep.productRanking) == Revenue(rows)
    ensures |rep.topMonths| == Min(3, DistinctCount(rows, ByMonth)) && Ordered(rep.topMonths, false)
    ensures multiset(rep.topMonths) <= multiset(MonthlyRevenue(rows))
    ensures forall e :: e in rep.topMonths ==> e.total == GroupTotal(rows, ByMonth, e.key, LineTotal)
    ensures forall e, r :: e in rep.topMonths && r in rows && r.month !in Keys(rep.topMonths) ==>
              GroupTotal(rows, ByMonth, r.month, LineTotal) <= e.total
    ensures rep.growthLine.Some? <==> rep.years > 1
    ensures rep.growthLine == YoYLine(rows)
  {
    IntLessIsOrder();
    GroupBySize(rows, ByMonth, IntLess, LineTotal);
    var months := Largest(MonthlyRevenue(rows), 3);
    TopGroups(rows, ByMonth, IntLess, LineTotal, months);
    Report(CalculateKpis(rows), DistinctCount(rows, ByProduct), DistinctCount(rows, ByRegion),
           DistinctCount(rows, ByYear), RankedProducts(rows, false),
           SortByTotal(RegionalRevenue(rows), false), months, YoYLine(rows))
  }
}
