# Sales analytics dashboard: the filter-and-aggregate core

This project models the table logic that sits under the charts of the sales
analytics dashboard scripts. It covers five scripts:

- the cleaning script, which drops duplicate rows and rows with a missing
  field, then derives the month, year and quarter columns;
- the Streamlit app, with its sidebar filters and its KPI, chart and insight
  panels;
- the Dash app, with its drop-down filters, reset button, fixed KPI cards and
  chart callback;
- the matplotlib report generator, with its KPI cards, nine-panel dashboard and
  markdown report;
- the static Plotly dashboard, with its KPI summary, overview, individual
  charts and printed insights.

The loaded table is a `seq<SalesRecord>`. Money is kept in integer cents, so
sums are exact. Means and percentages are `real`. Where pandas would give NaN
or inf, the model has an explicit case: `Option.None` for the mean of an empty
table, `Growth.Undefined` for a percentage over a zero base, and
`Growth.NotApplicable` where no growth is computed.

The modelling decisions:

- **Filters.** The two filter routines narrow a working table step by step, so
  they are methods. Each one is proved equal to a single conjunctive selection.
- **Group-by tables.** `groupby` yields one entry per distinct key, keys
  ascending. Strings order by code point and periods by (year, quarter).
- **Sorting.** `sort_values` is specified as a permutation ordered by value. The
  order of equal values is left open, as pandas leaves it.
- **Top k.** `head(k)` and `tail(k)` keep the k largest entries; no entry left
  out is larger.
- **Maximum.** `idxmax` returns the first, that is smallest, of the keys with
  the largest value.

Three further choices follow the code closely:

- **YoY growth.** It is computed whenever more than one year is present, from
  the two earliest years (`scripts/create_dashboard.py:129-131` and `285-289`),
  not from the first and the last year.
- **Zero base.** A growth over a zero base is a float division by zero, which
  yields inf or NaN; `Aggregate.PercentChange` returns `Growth.Undefined` for it.
- **Ties.** `sort_values` promises no order among equal totals, so no contract
  fixes one.

Modules:

| file | module | contents |
|---|---|---|
| `seqs.dfy` | `Seqs` | mask filtering, subsequences, distinctness |
| `sales.dfy` | `Sales` | dates, the record, quarters, key orders |
| `wrappers.dfy` | `Wrappers` | `Option`, `Result` |
| `aggregate.dfy` | `Aggregate` | sums, means, distinct counts, group-by tables, sorting, top k, argmax, growth |
| `clean_data.dfy` | `CleanData` | `clean_data` |
| `streamlit_dashboard.dfy` | `StreamlitDashboard` | the Streamlit app |
| `plotly_dashboard.dfy` | `PlotlyDashboard` | the Dash app |
| `create_dashboard.dfy` | `CreateDashboard` | the matplotlib report generator |
| `static_dashboard.dfy` | `StaticDashboard` | the static Plotly dashboard |

## Model

| member | source | states |
|---|---|---|
| Seqs.Filter | scripts/streamlit_dashboard.py:116-131 | A boolean mask keeps exactly the rows that satisfy it, and the result is no longer than the input. |
| Seqs.FilterCounts | scripts/streamlit_dashboard.py:116-131 | A boolean mask keeps every copy of each satisfying row and no copy of any other row. |
| Seqs.FilterIsSubseq | scripts/plotly_dashboard.py:186-193 | Masking keeps the surviving rows in their original order (a subsequence). |
| Seqs.FilterCompose | scripts/streamlit_dashboard.py:116-131 | Two successive masks equal one mask by their conjunction. |
| Seqs.FilterIdempotent | scripts/streamlit_dashboard.py:116-131 | Applying the same mask twice equals applying it once. |
| Sales.QuarterOf | scripts/clean_data.py:18 | `dt.quarter` lies in 1..4 and is the quarter whose three months contain the month. |
| Sales.DaysInMonth | scripts/clean_data.py:13 | The calendar that `pd.to_datetime` accepts has 28 to 31 days in a month, with Gregorian leap years. |
| Sales.TimestampRangeEdges | scripts/clean_data.py:13 | `pd.to_datetime` accepts 1677-09-22 and 2262-04-11 but raises on the day before, the day after and year 0; 29 February exists in 2000 but not in 2100. |
| Sales.StrLessTotal | scripts/plotly_dashboard.py:232 | Python's string order, which sorts the product, region and salesperson keys, is total: of two different strings one is smaller. |
| Aggregate.CountIsLength | scripts/create_dashboard.py:184-190 | Counting one per row gives `len(df)`. |
| Aggregate.RevenueOfPricedRows | scripts/generate_data.py:38 | When every row's total is quantity times unit price, revenue is the sum of those products, and positive on a non-empty table. |
| Aggregate.MeanOrderValue | scripts/streamlit_dashboard.py:50 | The mean of `total_sales` is undefined exactly on an empty table; otherwise mean times row count is total revenue. |
| Aggregate.DistinctCount | scripts/plotly_dashboard.py:32-33 | `nunique()` is at most the row count, and zero exactly on an empty table. |
| Aggregate.KeySetSize | scripts/plotly_dashboard.py:32-33 | There are no more distinct key values than rows. |
| Aggregate.SortedKeys | scripts/create_dashboard.py:84 | The group keys are exactly the key values that occur, strictly ascending. |
| Aggregate.GroupsPartitionTotal | scripts/plotly_dashboard.py:224-239 | Over distinct keys that cover every row, the group sums add up to the sum over all rows. |
| Aggregate.GroupByTable | scripts/create_dashboard.py:84 | A group-by table has one entry per distinct key, keys strictly ascending, each total the sum over its group, totals summing to the column sum. |
| Aggregate.GroupBySize | scripts/create_dashboard.py:84 | A group-by table has as many entries as there are distinct keys. |
| Aggregate.RevenueTablesPartition | scripts/plotly_dashboard.py:224-247 | The monthly, yearly, product, regional, salesperson and quarterly tables each add up to total revenue. |
| Aggregate.RevenueTableSizes | scripts/static_dashboard.py:62-98 | Each revenue table has one entry per distinct month, year, product, region, salesperson or (year, quarter). |
| Aggregate.TotalsPermutation | scripts/plotly_dashboard.py:239 | Reordering a table's entries does not change the sum of its values. |
| Aggregate.SortByTotal | scripts/plotly_dashboard.py:239 | `sort_values` returns a permutation of the table, ordered by value ascending or descending. |
| Aggregate.Largest | scripts/streamlit_dashboard.py:222 | `sort_values(ascending=False).head(n)` has min(n, size) entries, largest first, drawn from the table, and no entry left out has a larger value. |
| Aggregate.LargestAscending | scripts/plotly_dashboard.py:255 | `sort_values(ascending=True).tail(n)` has min(n, size) entries, smallest first, drawn from the table, and no entry left out has a larger value. |
| Aggregate.TopEntry | scripts/streamlit_dashboard.py:346-347 | The first entry after a descending sort is an entry of the table whose value no entry exceeds; it is undefined only on an empty table. |
| Aggregate.IdxMax | scripts/streamlit_dashboard.py:364-366 | `idxmax` is the first entry with the largest value; undefined on an empty table. |
| Aggregate.TopGroups | scripts/streamlit_dashboard.py:222 | Entries picked from a group-by table are groups of the rows, with their group sums, and dominate every group left out. |
| Aggregate.TopEntryOfGroupBy | scripts/streamlit_dashboard.py:346-351 | On non-empty rows, the top entry of a group-by table names a key that occurs, has its group sum, and no group sums more. |
| Aggregate.IdxMaxIsSmallestBestKey | scripts/streamlit_dashboard.py:364-366 | On a table with ascending keys, `idxmax` picks the smallest key among those with the largest value. |
| Aggregate.IdxMaxOfGroupBy | scripts/streamlit_dashboard.py:364-366 | On non-empty rows, `idxmax` of a group-by table is an occurring key with its group sum, no group sums more, and no smaller key ties it. |
| Aggregate.TopProduct | scripts/streamlit_dashboard.py:346-347 | The top product is sold in the rows, its revenue is its group sum, and no product has more revenue. |
| Aggregate.TopRegion | scripts/streamlit_dashboard.py:350-351 | The top region occurs in the rows, its revenue is its group sum, and no region has more revenue. |
| Aggregate.PeakMonth | scripts/streamlit_dashboard.py:364-366 | The peak month occurs, its revenue is its group sum, no month has more revenue, and it is the earliest of any month that ties it. |
| Aggregate.RankedProducts | scripts/static_dashboard.py:80 | The product table sorted by revenue is a permutation of the product table, ordered as asked, totalling total revenue. |
| Aggregate.TopSellersAscending | scripts/static_dashboard.py:98 | The top-performer panel has min(n, #salespeople) entries, smallest first, drawn without repetition from the salesperson table, each with its salesperson's revenue, and no salesperson left out sold more. |
| Aggregate.PercentChange | scripts/streamlit_dashboard.py:360 | `(cur - prev) / prev * 100` is undefined exactly when `prev` is 0; otherwise the percentage times `prev` is `(cur - prev) * 100`. |
| Aggregate.YoYGrowth | scripts/create_dashboard.py:129-131 | Growth on a yearly table is computed exactly when it has more than one entry. |
| Aggregate.YoYUsesTwoEarliestYears | scripts/streamlit_dashboard.py:357-361 | On the yearly revenue table, growth is computed exactly when more than one year occurs, and then compares the earliest year with the next one. |
| Aggregate.YoYLine | scripts/static_dashboard.py:244-248 | The printed YoY line exists exactly when more than one year occurs; it names the earliest and next years and their percentage change. |
| CleanData.DropDuplicates | scripts/clean_data.py:7 | `drop_duplicates()` leaves no two equal rows and keeps every distinct row of the input. |
| CleanData.DropDuplicatesKeepsFirstOccurrences | scripts/clean_data.py:7 | The de-duplicated rows are a subsequence of the input, in order of first occurrence. |
| CleanData.DropDuplicatesOfDistinct | scripts/clean_data.py:7 | A table without repeated rows is left unchanged. |
| CleanData.DropMissing | scripts/clean_data.py:10 | `dropna()` keeps exactly the rows with no missing field, with every copy of each, and no other row, in table order (a subsequence). |
| CleanData.Kept | scripts/clean_data.py:7-10 | After both drops, the rows are the complete rows of the input, without repeats, no more numerous, and a subsequence of the first occurrences, so in first-occurrence order. |
| CleanData.Derive | scripts/clean_data.py:13-18 | A parsed row carries the date's month (1 to 12) and year and the month's quarter, and keeps its other columns. |
| CleanData.DeriveAll | scripts/clean_data.py:13-18 | Deriving the calendar columns keeps the row count and the read columns of every row. |
| CleanData.DeriveAllKeepsRowsApart | scripts/clean_data.py:13-18 | Rows that differed before the calendar columns were added still differ. |
| CleanData.FirstBadDate | scripts/clean_data.py:13 | The search finds a row whose date names no calendar day, or a day outside the `Timestamp` range, exactly when such a row exists. |
| CleanData.Clean | scripts/clean_data.py:4-20 | `clean_data` fails exactly when a complete row has an unparseable date. Otherwise the output is no longer than the input, has no repeated row, has consistent calendar columns, and holds exactly the complete input rows. |
| CleanData.CleanKeepsSubsequence | scripts/clean_data.py:7-10 | The cleaned rows, read back, are a subsequence of the input and of its first occurrences, so they keep the first-occurrence order. |
| CleanData.CleanIdempotent | scripts/clean_data.py:4-20 | Cleaning a cleaned table gives the same rows back. |
| StreamlitDashboard.DateStep | scripts/streamlit_dashboard.py:113-119 | The date step applies only when the picker holds two dates, and keeps the rows dated between them, both ends inclusive. |
| StreamlitDashboard.ProductStep | scripts/streamlit_dashboard.py:122-124 | The product step restricts only for a non-empty selection without "All", and composes with the date step. |
| StreamlitDashboard.RegionStep | scripts/streamlit_dashboard.py:126-128 | The region step restricts only for a non-empty selection without "All", and composes with the earlier steps. |
| StreamlitDashboard.YearStep | scripts/streamlit_dashboard.py:130-131 | The year step restricts only for a non-empty selection without "All", completing the conjunction. |
| StreamlitDashboard.ApplyFilters | scripts/streamlit_dashboard.py:108-133 | `apply_filters` returns the rows passing every active criterion, in table order (a subsequence of the input). |
| StreamlitDashboard.SelectedIdempotent | scripts/streamlit_dashboard.py:110-133 | Filtering the filtered table again with the same selections changes nothing. |
| StreamlitDashboard.NoCriterionKeepsAll | scripts/streamlit_dashboard.py:113-131 | With no active criterion every row is kept. |
| StreamlitDashboard.KpiMetrics | scripts/streamlit_dashboard.py:31-60 | The four cards are total revenue, row count, mean order value (undefined only on an empty table; times the count gives revenue) and total quantity. |
| StreamlitDashboard.Charts | scripts/streamlit_dashboard.py:263-332 | The monthly, regional and yearly tables are the group-by tables of the rows, and with the product table each totals the revenue. Products are a permutation sorted largest first. The n top performers (5 or 10) are drawn without repetition from the salesperson table, largest first, dominating everyone left out. |
| StreamlitDashboard.DataInsights | scripts/streamlit_dashboard.py:334-370 | The insights are total revenue, the best product, region and month, and the mean order value. YoY growth is absent exactly when there is at most one year, and otherwise compares the two earliest years. |
| StreamlitDashboard.RunDashboard | scripts/streamlit_dashboard.py:409-470 | With no matching row the page is the warning. Otherwise it shows the matching count against the total, and every card, chart and insight of the matching rows; so no mean or argmax is taken over an empty table. |
| PlotlyDashboard.CalculateKpis | scripts/plotly_dashboard.py:25-34 | Revenue and quantity are column sums, transactions the row count, the mean is undefined only on an empty table, and the product and region counts are distinct counts no larger than the row count. |
| PlotlyDashboard.YearStep | scripts/plotly_dashboard.py:188-189 | The year step restricts only when a year is chosen. |
| PlotlyDashboard.RegionStep | scripts/plotly_dashboard.py:190-191 | The region step restricts only when the value is not "all", and composes with the year step. |
| PlotlyDashboard.ProductStep | scripts/plotly_dashboard.py:192-193 | The product step restricts only when the value is not "all", completing the conjunction. |
| PlotlyDashboard.FilterData | scripts/plotly_dashboard.py:184-195 | `filter_data` keeps exactly the rows equal to every selected value other than "all", in table order. |
| PlotlyDashboard.ResetFilters | scripts/plotly_dashboard.py:204-205 | Whatever the click count, every drop-down returns to "all", a selection every row matches. |
| PlotlyDashboard.ResetShowsEverything | scripts/plotly_dashboard.py:188-205 | After a reset the selection is the whole table. |
| PlotlyDashboard.ChartTables | scripts/plotly_dashboard.py:219-269 | The monthly, regional and yearly tables are the group-by tables of the rows, and with the product table each totals the revenue. Products are a permutation sorted ascending. The top five are drawn without repetition from the salesperson table, smallest first, dominating everyone left out. The scatter shows every matching row. |
| PlotlyDashboard.DashApp.constructor | scripts/plotly_dashboard.py:79-80 | At load, the app holds the table and the KPI cards of the whole table. |
| PlotlyDashboard.DashApp.UpdateCharts | scripts/plotly_dashboard.py:219-222 | The callback computes the charts of the matching rows and leaves the table and the KPI cards as they were. |
| PlotlyDashboard.ResetThenUpdate | scripts/plotly_dashboard.py:204-222 | After a reset the charts cover the whole table and their monthly total equals the KPI revenue card; the cards stay those of the whole table. |
| CreateDashboard.CalculateKpis | scripts/create_dashboard.py:24-38 | Revenue and quantity are column sums, the mean is undefined only on an empty table, and `unique_customers` counts distinct salespeople (at most the row count). |
| CreateDashboard.RevenuePerTransaction | scripts/create_dashboard.py:54 | Revenue over transactions is undefined exactly when there are none, and otherwise times the count gives revenue. |
| CreateDashboard.RevenuePerTransactionIsMean | scripts/create_dashboard.py:50-54 | The "Revenue/Transaction" card always equals the "Avg Order Value" card. |
| CreateDashboard.NatToStr | scripts/create_dashboard.py:161 | `str` of a non-negative integer is a non-empty string of decimal digits. |
| CreateDashboard.IntToStr | scripts/create_dashboard.py:161 | `str` of an integer contains no 'Q', so the "-Q" separator of a period label is unambiguous. |
| CreateDashboard.ParseIntToStr | scripts/create_dashboard.py:161 | The decimal text of an integer reads back as that integer. |
| CreateDashboard.PeriodLabelRoundTrip | scripts/create_dashboard.py:161 | A `year-Qquarter` label reads back as its (year, quarter). |
| CreateDashboard.PeriodLabelInjective | scripts/create_dashboard.py:160-161 | Distinct (year, quarter) periods get distinct labels. |
| CreateDashboard.QuarterlyPeriods | scripts/create_dashboard.py:160-161 | The quarterly panel has one entry per (year, quarter) group. Each label reads back as its period, the values are the group totals, the labels are distinct, and the panel totals the revenue. |
| CreateDashboard.Stats | scripts/create_dashboard.py:184-189 | A product's summary row has its revenue, transaction count (at least one) and quantity sums, with average times count equal to revenue. |
| CreateDashboard.ProductSummary | scripts/create_dashboard.py:184-189 | The summary has one row per product of the product table, in the same order, with the same revenue, and each row is that product's sum, mean, count and quantity (`Stats`). |
| CreateDashboard.ProductSummaryCoversRows | scripts/create_dashboard.py:184-189 | The summary's transaction counts add up to the row count and its quantities to the total quantity. |
| CreateDashboard.CreateMainDashboard | scripts/create_dashboard.py:75-190 | The monthly, regional and yearly tables are the group-by tables of the rows, monthly with one ascending entry per month, and all tables total the revenue. Products are a permutation sorted ascending. YoY is the growth of the yearly table, computed exactly when there is more than one year. The top five sellers are drawn without repetition from the salesperson table and dominate the rest. The quarterly panel is the labelled period table with distinct labels, the histogram's mean line is the mean order value, and the summary is the per-product statistics table. |
| CreateDashboard.ReportYoYMatchesDashboard | scripts/create_dashboard.py:285-289 | The report's `nunique() > 1` guard and the dashboard's `len(yearly) > 1` guard agree, and so does the growth. |
| CreateDashboard.GenerateReport | scripts/create_dashboard.py:253-291 | The report's counts are distinct counts. The product and region rankings are permutations sorted largest first. The top three months are drawn without repetition from the monthly table and dominate the others. The growth line appears exactly when there is more than one year. |
| StaticDashboard.EarliestDate | scripts/static_dashboard.py:28 | `date.min()` is a date of the table no later than any other. |
| StaticDashboard.LatestDate | scripts/static_dashboard.py:28 | `date.max()` is a date of the table no earlier than any other. |
| StaticDashboard.CreateKpiSummary | scripts/static_dashboard.py:19-31 | The summary fails exactly on an empty table (formatting `NaT` raises). Otherwise it holds the sums, the count, the mean, the distinct product and region counts, and a date range covering every row. |
| StaticDashboard.CreateMainDashboard | scripts/static_dashboard.py:41-104 | The monthly, regional and yearly tables are the group-by tables of the rows, and all tables total the revenue. Products are a permutation sorted ascending. The top five sellers, drawn without repetition from the salesperson table and smallest first, dominate everyone left out. |
| StaticDashboard.PctChange | scripts/static_dashboard.py:175 | `pct_change() * 100` has one value per entry, none for the first. Each later value is undefined exactly on a zero predecessor, and otherwise times the predecessor is the change times 100. |
| StaticDashboard.PctChangeOfYearly | scripts/static_dashboard.py:174-175 | On the yearly table each growth value compares a year with the previous one, and the second value is the YoY growth that `main` prints. |
| StaticDashboard.CreateIndividualCharts | scripts/static_dashboard.py:142-183 | The monthly, regional and yearly tables are the group-by tables of the rows, and all tables total the revenue. Products are sorted largest first. The growth column is `pct_change` of the yearly table, one value per year, and its second value agrees with the printed YoY growth. |
| StaticDashboard.KeyInsights | scripts/static_dashboard.py:215-253 | `main` fails exactly on an empty table (from the KPI summary). Otherwise it reports total revenue, the best product, region and month, and the YoY line of the two earliest years, present exactly when there is more than one year. |

## Left out

- Chart drawing, styling, widgets, tabs, Dash layout and callback registration are left out. They are calls into plotting and UI libraries; callbacks are modelled as plain calls.
- File and database I/O is left out: the CSV reads and writes, image and HTML export, the markdown file, the SQL loader and the project summary script. The loaded table is a parameter.
- Random sampling (`df.sample`) for the price-versus-quantity panels is left out. The sampled rows depend on a random generator. The Dash scatter, which shows every matching row, is modelled.
- `datetime.now()` in the report header is left out. It reads the clock.
- Float formatting, `round(2)` in the product summary and the `/1e6` scale for millions are left out. Money is exact here.
- Date-string parsing is left out. Dates arrive as (year, month, day) triples, and `pd.to_datetime` is modelled as accepting exactly the Gregorian calendar days from 1677-09-22 to 2262-04-11, the midnights a nanosecond `Timestamp` can hold.
- The record generator is left out. Only its invariant, total = quantity × unit price, is kept, as `Sales.Priced`.
- The trend-analysis figure of the report generator and the `utils.py` wrappers are not part of this model.
- `Aggregate.SortByTotal` does not fix the order of equal values, because pandas does not promise one.
- `StreamlitDashboard.DataInsights` states the mean as equal to `Aggregate.MeanOrderValue`. It does not repeat that function's product-with-count relation.
