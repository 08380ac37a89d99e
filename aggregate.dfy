/** The aggregation expressions shared by every dashboard script: column sums,
    the mean order value, distinct counts, `groupby(key)[col].sum()` tables,
    `sort_values`, `head`/`tail`, `idxmax` and the year-over-year growth. */
module Aggregate {
  import opened Seqs
  import opened Sales
  import opened Wrappers

  // ---------------------------------------------------------------- sums

  /** Per-row measures that the scripts sum. */
  function LineTotal(r: SalesRecord): int { r.totalSales }
  function LineQuantity(r: SalesRecord): int { r.quantity }
  function OneRow(r: SalesRecord): int { 1 }

  /** `df[col].sum()` for the column that `w` reads. */
  function SumOf(rows: seq<SalesRecord>, w: SalesRecord -> int): int
  {
    if rows == [] then 0 else w(rows[0]) + SumOf(rows[1..], w)
  }

  /** `df['total_sales'].sum()`, in cents. */
  function Revenue(rows: seq<SalesRecord>): int
  {
    SumOf(rows, LineTotal)
  }

  /** `df['quantity'].sum()`. */
  function Units(rows: seq<SalesRecord>): int
  {
    SumOf(rows, LineQuantity)
  }

  /** Counting rows is summing one per row. */
  lemma {:induction false} CountIsLength(rows: seq<SalesRecord>)
    ensures SumOf(rows, OneRow) == |rows|
  {
    if rows != [] {
      CountIsLength(rows[1..]);
    }
  }

  /** On rows that keep the generator's invariant, revenue is the sum of quantity times price. */
  lemma {:induction false} RevenueOfPricedRows(rows: seq<SalesRecord>)
    requires forall r :: r in rows ==> Priced(r)
    ensures Revenue(rows) == SumOf(rows, (r: SalesRecord) => r.quantity * r.unitPrice)
    ensures rows != [] ==> Revenue(rows) > 0
  {
    if rows != [] {
      RevenueOfPricedRows(rows[1..]);
      assert Priced(rows[0]);
      assert rows[0].quantity * rows[0].unitPrice > 0;
    }
  }

  /** `df['total_sales'].mean()`: undefined (NaN) on an empty table. */
  function MeanOrderValue(rows: seq<SalesRecord>): (m: Option<real>)
    ensures m.None? <==> rows == []
    ensures m.Some? ==> m.value * (|rows| as real) == Revenue(rows) as real
  {
    if rows == [] then None else Some(Revenue(rows) as real / |rows| as real)
  }

  /** The set of values a column takes. */
  function KeySet<K(==)>(rows: seq<SalesRecord>, key: SalesRecord -> K): set<K>
  {
    set r | r in rows :: key(r)
  }

  /** A column takes at most as many values as there are rows. */
  lemma {:induction false} KeySetSize<K>(rows: seq<SalesRecord>, key: SalesRecord -> K)
    ensures |KeySet(rows, key)| <= |rows|
  {
    if rows != [] {
      KeySetSize(rows[1..], key);
      assert KeySet(rows, key) == KeySet(rows[1..], key) + {key(rows[0])} by {
        assert forall r :: r in rows <==> r in rows[1..] || r == rows[0];
      }
    }
  }

  /** `df[col].nunique()`. */
  function DistinctCount<K(==)>(rows: seq<SalesRecord>, key: SalesRecord -> K): (n: nat)
    ensures n <= |rows|
    ensures n == 0 <==> rows == []
  {
    KeySetSize(rows, key);
    assert rows != [] ==> key(rows[0]) in KeySet(rows, key);
    |KeySet(rows, key)|
  }

  // ---------------------------------------------------------------- key order

  /** `less` orders the keys strictly and totally, as pandas' sorted group keys require. */
  ghost predicate StrictTotalOrder<K(!new)>(less: (K, K) -> bool)
  {
    && (forall a :: !less(a, a))
    && (forall a, b, c :: less(a, b) && less(b, c) ==> less(a, c))
    && (forall a, b :: a != b ==> less(a, b) || less(b, a))
  }

  predicate Ascending<K>(ks: seq<K>, less: (K, K) -> bool)
  {
    forall i, j :: 0 <= i < j < |ks| ==> less(ks[i], ks[j])
  }

  lemma IntLessIsOrder()
    ensures StrictTotalOrder(IntLess)
  {
  }

  lemma PeriodLessIsOrder()
    ensures StrictTotalOrder(PeriodLess)
  {
  }

  lemma StrLessIsOrder()
    ensures StrictTotalOrder(StrLess)
  {
    forall a: string ensures !StrLess(a, a) {
      StrLessIrreflexive(a);
    }
    forall a: string, b: string, c: string | StrLess(a, b) && StrLess(b, c) ensures StrLess(a, c) {
      StrLessTransitive(a, b, c);
    }
    forall a: string, b: string | a != b ensures StrLess(a, b) || StrLess(b, a) {
      StrLessTotal(a, b);
    }
  }

  lemma AscendingIsDistinct<K(!new)>(ks: seq<K>, less: (K, K) -> bool)
    requires StrictTotalOrder(less) && Ascending(ks, less)
    ensures Distinct(ks)
  {
  }

  /** Put `k` into its place in an ascending key list, unless it is there already. */
  function InsertKey<K(==,!new)>(ks: seq<K>, k: K, less: (K, K) -> bool): (r: seq<K>)
    requires StrictTotalOrder(less) && Ascending(ks, less)
    ensures Ascending(r, less)
    ensures forall x :: x in r <==> x in ks || x == k
  {
    if ks == [] then [k]
    else if k == ks[0] then ks
    else if less(k, ks[0]) then [k] + ks
    else
      var rest := InsertKey(ks[1..], k, less);
      assert forall x :: x in rest ==> less(ks[0], x);
      [ks[0]] + rest
  }

  /** The group keys of `df.groupby(col)`: every value of the column once, ascending. */
  function SortedKeys<K(==,!new)>(rows: seq<SalesRecord>, key: SalesRecord -> K, less: (K, K) -> bool): (ks: seq<K>)
    requires StrictTotalOrder(less)
    ensures Ascending(ks, less)
    ensures forall x :: x in ks <==> x in KeySet(rows, key)
  {
    if rows == [] then []
    else
      var ks := InsertKey(SortedKeys(rows[1..], key, less), key(rows[0]), less);
      assert forall x :: x in KeySet(rows, key) <==> x in KeySet(rows[1..], key) || x == key(rows[0]) by {
        assert forall r :: r in rows <==> r in rows[1..] || r == rows[0];
      }
      ks
  }

  // ---------------------------------------------------------------- group-by tables

  /** One line of a `groupby(key)[col].sum()` table. */
  datatype Entry<K> = Entry(key: K, total: int)

  /** The rows whose key is `k`, in table order. */
  function Group<K(==,!new)>(rows: seq<SalesRecord>, key: SalesRecord -> K, k: K): seq<SalesRecord>
  {
    Filter(rows, r => key(r) == k)
  }

  /** The summed measure of the rows whose key is `k`. */
  function GroupTotal<K(==,!new)>(rows: seq<SalesRecord>, key: SalesRecord -> K, k: K, w: SalesRecord -> int): int
  {
    SumOf(Group(rows, key, k), w)
  }

  /** The table with one entry per key of `ks`, in that order. */
  function Tabulate<K(==,!new)>(rows: seq<SalesRecord>, key: SalesRecord -> K, ks: seq<K>, w: SalesRecord -> int): seq<Entry<K>>
  {
    seq(|ks|, i requires 0 <= i < |ks| => Entry(ks[i], GroupTotal(rows, key, ks[i], w)))
  }

  /** `df.groupby(key)[col].sum()`: the groups in ascending key order. */
  function GroupBy<K(==,!new)>(rows: seq<SalesRecord>, key: SalesRecord -> K, less: (K, K) -> bool, w: SalesRecord -> int): seq<Entry<K>>
    requires StrictTotalOrder(less)
  {
    Tabulate(rows, key, SortedKeys(rows, key, less), w)
  }

  /** The sum of a table's values. */
  function Totals<K>(t: seq<Entry<K>>): int
  {
    if t == [] then 0 else t[0].total + Totals(t[1..])
  }

  function Keys<K>(t: seq<Entry<K>>): seq<K>
  {
    seq(|t|, i requires 0 <= i < |t| => t[i].key)
  }

  lemma {:induction false} GroupTotalCons<K(!new)>(rows: seq<SalesRecord>, key: SalesRecord -> K, k: K, w: SalesRecord -> int)
    requires rows != []
    ensures GroupTotal(rows, key, k, w) == (if key(rows[0]) == k then w(rows[0]) else 0) + GroupTotal(rows[1..], key, k, w)
  {
  }

  lemma {:induction false} TabulateOfNoRows<K(!new)>(key: SalesRecord -> K, ks: seq<K>, w: SalesRecord -> int)
    ensures Totals(Tabulate([], key, ks, w)) == 0
  {
    if ks != [] {
      assert Tabulate([], key, ks, w)[1..] == Tabulate([], key, ks[1..], w);
      TabulateOfNoRows(key, ks[1..], w);
    }
  }

  /** Adding a row to the front adds its measure to the one group it falls in. */
  lemma {:induction false} TabulateCons<K(!new)>(rows: seq<SalesRecord>, key: SalesRecord -> K, ks: seq<K>, w: SalesRecord -> int)
    requires rows != [] && Distinct(ks)
    ensures Totals(Tabulate(rows, key, ks, w))
         == Totals(Tabulate(rows[1..], key, ks, w)) + (if key(rows[0]) in ks then w(rows[0]) else 0)
  {
    if ks != [] {
      assert Tabulate(rows, key, ks, w)[1..] == Tabulate(rows, key, ks[1..], w);
      assert Tabulate(rows[1..], key, ks, w)[1..] == Tabulate(rows[1..], key, ks[1..], w);
      TabulateCons(rows, key, ks[1..], w);
      GroupTotalCons(rows, key, ks[0], w);
      assert key(rows[0]) in ks <==> key(rows[0]) == ks[0] || key(rows[0]) in ks[1..];
      assert key(rows[0]) == ks[0] ==> key(rows[0]) !in ks[1..];
    }
  }

  /** The groups partition the rows: over distinct keys that cover every row,
      the group totals add up to the column total. */
  lemma {:induction false} GroupsPartitionTotal<K(!new)>(rows: seq<SalesRecord>, key: SalesRecord -> K, ks: seq<K>, w: SalesRecord -> int)
    requires Distinct(ks)
    requires forall r :: r in rows ==> key(r) in ks
    ensures Totals(Tabulate(rows, key, ks, w)) == SumOf(rows, w)
  {
    if rows == [] {
      TabulateOfNoRows(key, ks, w);
    } else {
      GroupsPartitionTotal(rows[1..], key, ks, w);
      TabulateCons(rows, key, ks, w);
    }
  }

  /** What `groupby(key)[col].sum()` promises: one entry per distinct key, keys
      ascending, each entry the sum over its group, and the entries summing to
      the column total. */
  lemma GroupByTable<K(!new)>(rows: seq<SalesRecord>, key: SalesRecord -> K, less: (K, K) -> bool, w: SalesRecord -> int)
    requires StrictTotalOrder(less)
    ensures var t := GroupBy(rows, key, less, w);
      && |t| == DistinctCount(rows, key)
      && Ascending(Keys(t), less)
      && (forall k :: k in Keys(t) <==> k in KeySet(rows, key))
      && (forall e :: e in t ==> e.total == GroupTotal(rows, key, e.key, w))
      && Totals(t) == SumOf(rows, w)
  {
    var ks := SortedKeys(rows, key, less);
    var t := GroupBy(rows, key, less, w);
    assert Keys(t) == ks;
    AscendingIsDistinct(ks, less);
    DistinctCardinality(ks);
    assert (set x | x in ks) == KeySet(rows, key);
    GroupsPartitionTotal(rows, key, ks, w);
  }

  /** A group-by table has one entry per value of the key column. */
  lemma GroupBySize<K(!new)>(rows: seq<SalesRecord>, key: SalesRecord -> K, less: (K, K) -> bool, w: SalesRecord -> int)
    requires StrictTotalOrder(less)
    ensures |GroupBy(rows, key, less, w)| == DistinctCount(rows, key)
  {
    GroupByTable(rows, key, less, w);
  }

  // ---------------------------------------------------------------- the tables the dashboards draw

  function ByMonth(r: SalesRecord): int { r.month }
  function ByYear(r: SalesRecord): int { r.year }
  function ByProduct(r: SalesRecord): string { r.product }
  function ByRegion(r: SalesRecord): string { r.region }
  function BySeller(r: SalesRecord): string { r.salesperson }
  function ByPeriod(r: SalesRecord): (int, int) { (r.year, r.quarter) }

  function MonthlyRevenue(rows: seq<SalesRecord>): seq<Entry<int>>
  {
    IntLessIsOrder();
    GroupBy(rows, ByMonth, IntLess, LineTotal)
  }

  function YearlyRevenue(rows: seq<SalesRecord>): seq<Entry<int>>
  {
    IntLessIsOrder();
    GroupBy(rows, ByYear, IntLess, LineTotal)
  }

  function ProductRevenue(rows: seq<SalesRecord>): seq<Entry<string>>
  {
    StrLessIsOrder();
    GroupBy(rows, ByProduct, StrLess, LineTotal)
  }

  function RegionalRevenue(rows: seq<SalesRecord>): seq<Entry<string>>
  {
    StrLessIsOrder();
    GroupBy(rows, ByRegion, StrLess, LineTotal)
  }

  function SellerRevenue(rows: seq<SalesRecord>): seq<Entry<string>>
  {
    StrLessIsOrder();
    GroupBy(rows, BySeller, StrLess, LineTotal)
  }

  function QuarterlyRevenue(rows: seq<SalesRecord>): seq<Entry<(int, int)>>
  {
    PeriodLessIsOrder();
    GroupBy(rows, ByPeriod, PeriodLess, LineTotal)
  }

  /** The month, year, product, region, salesperson and (year, quarter) tables
      partition the same rows, so each of them sums to the total revenue. */
  lemma RevenueTablesPartition(rows: seq<SalesRecord>)
    ensures Totals(MonthlyRevenue(rows)) == Revenue(rows)
    ensures Totals(YearlyRevenue(rows)) == Revenue(rows)
    ensures Totals(ProductRevenue(rows)) == Revenue(rows)
    ensures Totals(RegionalRevenue(rows)) == Revenue(rows)
    ensures Totals(SellerRevenue(rows)) == Revenue(rows)
    ensures Totals(QuarterlyRevenue(rows)) == Revenue(rows)
  {
    IntLessIsOrder();
    StrLessIsOrder();
    PeriodLessIsOrder();
    GroupByTable(rows, ByMonth, IntLess, LineTotal);
    GroupByTable(rows, ByYear, IntLess, LineTotal);
    GroupByTable(rows, ByProduct, StrLess, LineTotal);
    GroupByTable(rows, ByRegion, StrLess, LineTotal);
    GroupByTable(rows, BySeller, StrLess, LineTotal);
    GroupByTable(rows, ByPeriod, PeriodLess, LineTotal);
  }

  /** Each table has one entry per value of its key column; so on a non-empty
      table none of them is empty. */
  lemma RevenueTableSizes(rows: seq<SalesRecord>)
    ensures |MonthlyRevenue(rows)| == DistinctCount(rows, ByMonth)
    ensures |YearlyRevenue(rows)| == DistinctCount(rows, ByYear)
    ensures |ProductRevenue(rows)| == DistinctCount(rows, ByProduct)
    ensures |RegionalRevenue(rows)| == DistinctCount(rows, ByRegion)
    ensures |SellerRevenue(rows)| == DistinctCount(rows, BySeller)
    ensures |QuarterlyRevenue(rows)| == DistinctCount(rows, ByPeriod)
  {
    IntLessIsOrder();
    StrLessIsOrder();
    PeriodLessIsOrder();
    GroupByTable(rows, ByMonth, IntLess, LineTotal);
    GroupByTable(rows, ByYear, IntLess, LineTotal);
    GroupByTable(rows, ByProduct, StrLess, LineTotal);
    GroupByTable(rows, ByRegion, StrLess, LineTotal);
    GroupByTable(rows, BySeller, StrLess, LineTotal);
    GroupByTable(rows, ByPeriod, PeriodLess, LineTotal);
  }

  /** Tables whose values agree position by position have the same sum, whatever their keys. */
  lemma {:induction false} TotalsOfSameValues<K, L>(a: seq<Entry<K>>, b: seq<Entry<L>>)
    requires |a| == |b| && forall i :: 0 <= i < |a| ==> a[i].total == b[i].total
    ensures Totals(a) == Totals(b)
  {
    if a != [] {
      TotalsOfSameValues(a[1..], b[1..]);
    }
  }

  lemma {:induction false} TotalsConcat<K>(a: seq<Entry<K>>, b: seq<Entry<K>>)
    ensures Totals(a + b) == Totals(a) + Totals(b)
  {
    if a != [] {
      assert (a + b)[1..] == a[1..] + b;
      TotalsConcat(a[1..], b);
    } else {
      assert a + b == b;
    }
  }

  /** Reordering a table does not change the sum of its values. */
  lemma {:induction false} TotalsPermutation<K>(a: seq<Entry<K>>, b: seq<Entry<K>>)
    requires multiset(a) == multiset(b)
    ensures Totals(a) == Totals(b)
    decreases |a|
  {
    if a != [] {
      assert a[0] in multiset(b);
      var i :| 0 <= i < |b| && b[i] == a[0];
      var rest := b[..i] + b[i + 1..];
      var tail := [b[i]] + b[i + 1..];
      assert b == b[..i] + tail;
      assert a == [a[0]] + a[1..];
      assert multiset(a) == multiset{a[0]} + multiset(a[1..]);
      assert multiset(b) == multiset(b[..i]) + multiset{b[i]} + multiset(b[i + 1..]);
      assert multiset(rest) == multiset(b[..i]) + multiset(b[i + 1..]);
      assert multiset(a[1..]) == multiset(a) - multiset{a[0]};
      assert multiset(rest) == multiset(b) - multiset{b[i]};
      TotalsPermutation(a[1..], rest);
      TotalsConcat(b[..i], tail);
      assert tail[1..] == b[i + 1..];
      TotalsConcat(b[..i], b[i + 1..]);
    }
  }

  // ---------------------------------------------------------------- sort_values, head, tail

  /** The sort key of `sort_values`: the value, negated for a descending sort. */
  function Rank<K>(e: Entry<K>, ascending: bool): int
  {
    if ascending then e.total else -e.total
  }

  /** Ordered by value: ascending (`sort_values(ascending=True)`) or descending. */
  predicate Ordered<K>(t: seq<Entry<K>>, ascending: bool)
  {
    forall i, j :: 0 <= i < j < |t| ==> Rank(t[i], ascending) <= Rank(t[j], ascending)
  }

  function InsertByTotal<K>(t: seq<Entry<K>>, e: Entry<K>, ascending: bool): (r: seq<Entry<K>>)
    requires Ordered(t, ascending)
    ensures |r| == |t| + 1
    ensures multiset(r) == multiset(t) + multiset{e}
    ensures Ordered(r, ascending)
    ensures r[0] == e || (t != [] && r[0] == t[0])
  {
    if t == [] then [e]
    else if Rank(e, ascending) <= Rank(t[0], ascending) then
      OrderedCons(e, t, ascending);
      [e] + t
    else
      OrderedTail(t, ascending);
      var rest := InsertByTotal(t[1..], e, ascending);
      InsertBehind(t, e, ascending, rest);
      [t[0]] + rest
  }

  lemma OrderedCons<K>(x: Entry<K>, s: seq<Entry<K>>, ascending: bool)
    requires Ordered(s, ascending)
    requires s != [] ==> Rank(x, ascending) <= Rank(s[0], ascending)
    ensures Ordered([x] + s, ascending)
  {
    var r := [x] + s;
    forall i, j | 0 <= i < j < |r| ensures Rank(r[i], ascending) <= Rank(r[j], ascending) {
      if i == 0 {
        assert Rank(s[0], ascending) <= Rank(s[j - 1], ascending) || j == 1;
      } else {
        assert r[i] == s[i - 1] && r[j] == s[j - 1];
      }
    }
  }

  lemma OrderedTail<K>(t: seq<Entry<K>>, ascending: bool)
    requires t != [] && Ordered(t, ascending)
    ensures Ordered(t[1..], ascending)
  {
    forall i, j | 0 <= i < j < |t| - 1 ensures Rank(t[1..][i], ascending) <= Rank(t[1..][j], ascending) {
      assert t[1..][i] == t[i + 1] && t[1..][j] == t[j + 1];
    }
  }

  /** Inserting behind the head: the head stays in front of the insertion into the tail. */
  lemma InsertBehind<K>(t: seq<Entry<K>>, e: Entry<K>, ascending: bool, rest: seq<Entry<K>>)
    requires t != [] && Ordered(t, ascending) && Rank(t[0], ascending) < Rank(e, ascending)
    requires multiset(rest) == multiset(t[1..]) + multiset{e} && Ordered(rest, ascending)
    requires |rest| == |t| && (rest[0] == e || (t[1..] != [] && rest[0] == t[1..][0]))
    ensures multiset([t[0]] + rest) == multiset(t) + multiset{e}
    ensures Ordered([t[0]] + rest, ascending)
  {
    assert t == [t[0]] + t[1..];
    assert multiset([t[0]] + rest) == multiset{t[0]} + multiset(rest);
    OrderedCons(t[0], rest, ascending);
  }

  /** `sort_values` on a table's values. The order of equal values is not promised. */
  function SortByTotal<K>(t: seq<Entry<K>>, ascending: bool): (r: seq<Entry<K>>)
    ensures |r| == |t|
    ensures multiset(r) == multiset(t)
    ensures Ordered(r, ascending)
  {
    if t == [] then []
    else
      assert t == [t[0]] + t[1..];
      InsertByTotal(SortByTotal(t[1..], ascending), t[0], ascending)
  }

  function Min(a: int, b: int): int { if a <= b then a else b }

  lemma SplitMultiset<T>(s: seq<T>, m: nat)
    requires m <= |s|
    ensures multiset(s[..m]) + multiset(s[m..]) == multiset(s)
  {
    assert s == s[..m] + s[m..];
  }

  /** In a sequence sorted by value, an element left out of a prefix is at most
      every element of the prefix. */
  lemma PrefixDominates<K>(s: seq<Entry<K>>, m: nat)
    requires m <= |s| && Ordered(s, false)
    ensures forall e, x :: e in s[..m] && x in s && x !in s[..m] ==> x.total <= e.total
  {
    forall e, x | e in s[..m] && x in s && x !in s[..m] ensures x.total <= e.total {
      var i :| 0 <= i < m && s[i] == e;
      var j :| 0 <= j < |s| && s[j] == x;
    }
  }

  lemma SuffixDominates<K>(s: seq<Entry<K>>, m: nat)
    requires m <= |s| && Ordered(s, true)
    ensures forall e, x :: e in s[|s| - m..] && x in s && x !in s[|s| - m..] ==> x.total <= e.total
  {
    forall e, x | e in s[|s| - m..] && x in s && x !in s[|s| - m..] ensures x.total <= e.total {
      var i :| |s| - m <= i < |s| && s[i] == e;
      var j :| 0 <= j < |s| && s[j] == x;
    }
  }

  /** `sort_values(ascending=False).head(n)`: the n largest values, largest first. */
  function Largest<K>(t: seq<Entry<K>>, n: nat): (r: seq<Entry<K>>)
    ensures |r| == Min(n, |t|)
    ensures multiset(r) <= multiset(t)
    ensures Ordered(r, false)
    ensures forall e, x :: e in r && x in t && x !in r ==> x.total <= e.total
  {
    var s := SortByTotal(t, false);
    var m := Min(n, |s|);
    SplitMultiset(s, m);
    PrefixDominates(s, m);
    assert forall x :: x in t ==> x in multiset(s);
    s[..m]
  }

  /** `sort_values(ascending=True).tail(n)`: the n largest values, smallest first. */
  function LargestAscending<K>(t: seq<Entry<K>>, n: nat): (r: seq<Entry<K>>)
    ensures |r| == Min(n, |t|)
    ensures multiset(r) <= multiset(t)
    ensures Ordered(r, true)
    ensures forall e, x :: e in r && x in t && x !in r ==> x.total <= e.total
  {
    var s := SortByTotal(t, true);
    var m := Min(n, |s|);
    SplitMultiset(s, |s| - m);
    SuffixDominates(s, m);
    assert forall x :: x in t ==> x in multiset(s);
    s[|s| - m..]
  }

  /** `sort_values(ascending=False)` then `.index[0]` / `.iloc[0]`: a group with
      the largest value; `None` where pandas raises on an empty table. */
  function TopEntry<K>(t: seq<Entry<K>>): (r: Option<Entry<K>>)
    ensures r.Some? <==> t != []
    ensures r.Some? ==> r.value in t && forall x :: x in t ==> x.total <= r.value.total
  {
    if t == [] then None
    else
      var s := SortByTotal(t, false);
      assert s[0] in multiset(t);
      assert forall x :: x in t ==> x in multiset(s);
      Some(s[0])
  }

  /** The position `idxmax` reports: the first position of the largest value. */
  function FirstMaxIndex<K>(t: seq<Entry<K>>): (i: nat)
    requires t != []
    ensures i < |t|
    ensures forall j :: 0 <= j < |t| ==> t[j].total <= t[i].total
    ensures forall j :: 0 <= j < i ==> t[j].total < t[i].total
  {
    if |t| == 1 then 0
    else
      var j := FirstMaxIndex(t[1..]) + 1;
      if t[0].total >= t[j].total then 0 else j
  }

  /** `idxmax()` with the value at that label; `None` where pandas raises on an empty table. */
  function IdxMax<K>(t: seq<Entry<K>>): (r: Option<Entry<K>>)
    ensures r.Some? <==> t != []
    ensures r.Some? ==> r.value in t && forall x :: x in t ==> x.total <= r.value.total
    ensures r.Some? ==> exists i :: 0 <= i < |t| && r.value == t[i] && forall j :: 0 <= j < i ==> t[j].total < t[i].total
  {
    if t == [] then None else Some(t[FirstMaxIndex(t)])
  }

  /** A value at least every entry of a group-by table is at least the group
      total of every row's key: the table leaves no group out. */
  lemma BestGroupDominates<K(!new)>(rows: seq<SalesRecord>, key: SalesRecord -> K, less: (K, K) -> bool, w: SalesRecord -> int, best: int)
    requires StrictTotalOrder(less)
    requires forall x :: x in GroupBy(rows, key, less, w) ==> x.total <= best
    ensures forall r :: r in rows ==> GroupTotal(rows, key, key(r), w) <= best
  {
    GroupByTable(rows, key, less, w);
    var t := GroupBy(rows, key, less, w);
    forall r | r in rows ensures GroupTotal(rows, key, key(r), w) <= best {
      assert key(r) in KeySet(rows, key);
      var j :| 0 <= j < |t| && Keys(t)[j] == key(r);
      assert t[j] in t;
    }
  }

  /** An entry of a group-by table names a key of the data and holds its group total. */
  lemma TableEntryIsGroup<K(!new)>(rows: seq<SalesRecord>, key: SalesRecord -> K, less: (K, K) -> bool, w: SalesRecord -> int, e: Entry<K>)
    requires StrictTotalOrder(less)
    requires e in GroupBy(rows, key, less, w)
    ensures exists r :: r in rows && key(r) == e.key
    ensures e.total == GroupTotal(rows, key, e.key, w)
  {
    GroupByTable(rows, key, less, w);
    var t := GroupBy(rows, key, less, w);
    var i :| 0 <= i < |t| && t[i] == e;
    assert Keys(t)[i] == e.key;
    assert e.key in KeySet(rows, key);
  }

  /** Entries picked from a group-by table with `head`/`tail` after a sort, and
      at least every entry left out, are groups of the data whose totals are at
      least the total of every group left out. */
  lemma TopGroups<K(!new)>(rows: seq<SalesRecord>, key: SalesRecord -> K, less: (K, K) -> bool, w: SalesRecord -> int, top: seq<Entry<K>>)
    requires StrictTotalOrder(less)
    requires multiset(top) <= multiset(GroupBy(rows, key, less, w))
    requires forall e, x :: e in top && x in GroupBy(rows, key, less, w) && x !in top ==> x.total <= e.total
    ensures forall e :: e in top ==> (exists r :: r in rows && key(r) == e.key)
    ensures forall e :: e in top ==> e.total == GroupTotal(rows, key, e.key, w)
    ensures forall e, r :: e in top && r in rows && key(r) !in Keys(top) ==> GroupTotal(rows, key, key(r), w) <= e.total
  {
    var t := GroupBy(rows, key, less, w);
    GroupByTable(rows, key, less, w);
    forall e | e in top ensures (exists r :: r in rows && key(r) == e.key) && e.total == GroupTotal(rows, key, e.key, w) {
      assert e in multiset(top);
      assert e in t;
      TableEntryIsGroup(rows, key, less, w, e);
    }
    forall e | e in top ensures e.key in Keys(top) {
      var i :| 0 <= i < |top| && top[i] == e;
      assert Keys(top)[i] == e.key;
    }
    forall e, r | e in top && r in rows && key(r) !in Keys(top) ensures GroupTotal(rows, key, key(r), w) <= e.total {
      assert key(r) in KeySet(rows, key);
      var j :| 0 <= j < |t| && Keys(t)[j] == key(r);
      assert t[j] in t;
    }
  }

  /** The largest entry of a group-by table (`sort_values(ascending=False)` then
      `index[0]`): a key of the data whose group total is at least every other. */
  lemma TopEntryOfGroupBy<K(!new)>(rows: seq<SalesRecord>, key: SalesRecord -> K, less: (K, K) -> bool, w: SalesRecord -> int)
    requires StrictTotalOrder(less)
    requires rows != []
    ensures var top := TopEntry(GroupBy(rows, key, less, w));
      && top.Some?
      && (exists r :: r in rows && key(r) == top.value.key)
      && top.value.total == GroupTotal(rows, key, top.value.key, w)
      && (forall r :: r in rows ==> GroupTotal(rows, key, key(r), w) <= top.value.total)
  {
    var t := GroupBy(rows, key, less, w);
    GroupByTable(rows, key, less, w);
    assert key(rows[0]) in KeySet(rows, key);
    var top := TopEntry(t).value;
    TableEntryIsGroup(rows, key, less, w, top);
    BestGroupDominates(rows, key, less, w, top.total);
  }

  /** On a table with ascending keys, `idxmax` reports the smallest key among
      those holding the largest value. */
  lemma IdxMaxIsSmallestBestKey<K(!new)>(t: seq<Entry<K>>, less: (K, K) -> bool)
    requires StrictTotalOrder(less) && Ascending(Keys(t), less) && t != []
    ensures forall e :: e in t && e.total == IdxMax(t).value.total ==> !less(e.key, IdxMax(t).value.key)
  {
    var best := IdxMax(t).value;
    var i :| 0 <= i < |t| && best == t[i] && forall j :: 0 <= j < i ==> t[j].total < t[i].total;
    forall e | e in t && e.total == best.total ensures !less(e.key, best.key) {
      var j :| 0 <= j < |t| && t[j] == e;
      assert Keys(t)[i] == best.key && Keys(t)[j] == e.key;
    }
  }

  /** `idxmax` on a group-by table: among the keys of the data whose group total
      is the largest, it reports the smallest. */
  lemma IdxMaxOfGroupBy<K(!new)>(rows: seq<SalesRecord>, key: SalesRecord -> K, less: (K, K) -> bool, w: SalesRecord -> int)
    requires StrictTotalOrder(less)
    requires rows != []
    ensures var t := GroupBy(rows, key, less, w);
      && IdxMax(t).Some?
      && (exists r :: r in rows && key(r) == IdxMax(t).value.key)
      && IdxMax(t).value.total == GroupTotal(rows, key, IdxMax(t).value.key, w)
      && (forall r :: r in rows ==> GroupTotal(rows, key, key(r), w) <= IdxMax(t).value.total)
      && (forall r :: r in rows && GroupTotal(rows, key, key(r), w) == IdxMax(t).value.total
                      ==> !less(key(r), IdxMax(t).value.key))
  {
    GroupByTable(rows, key, less, w);
    var t := GroupBy(rows, key, less, w);
    assert key(rows[0]) in KeySet(rows, key);
    var best := IdxMax(t).value;
    IdxMaxIsSmallestBestKey(t, less);
    TableEntryIsGroup(rows, key, less, w, best);
    BestGroupDominates(rows, key, less, w, best.total);
    forall r | r in rows && GroupTotal(rows, key, key(r), w) == best.total ensures !less(key(r), best.key) {
      assert key(r) in KeySet(rows, key);
      var j :| 0 <= j < |t| && Keys(t)[j] == key(r);
      assert t[j] in t;
    }
  }

  /** The top product of the insights: `groupby('product')` sorted descending, first entry. */
  function TopProduct(rows: seq<SalesRecord>): (e: Entry<string>)
    requires rows != []
    ensures exists r :: r in rows && r.product == e.key
    ensures e.total == GroupTotal(rows, ByProduct, e.key, LineTotal)
    ensures forall r :: r in rows ==> GroupTotal(rows, ByProduct, r.product, LineTotal) <= e.total
  {
    StrLessIsOrder();
    TopEntryOfGroupBy(rows, ByProduct, StrLess, LineTotal);
    TopEntry(ProductRevenue(rows)).value
  }

  /** The top region of the insights: `groupby('region')` sorted descending, first entry. */
  function TopRegion(rows: seq<SalesRecord>): (e: Entry<string>)
    requires rows != []
    ensures exists r :: r in rows && r.region == e.key
    ensures e.total == GroupTotal(rows, ByRegion, e.key, LineTotal)
    ensures forall r :: r in rows ==> GroupTotal(rows, ByRegion, r.region, LineTotal) <= e.total
  {
    StrLessIsOrder();
    TopEntryOfGroupBy(rows, ByRegion, StrLess, LineTotal);
    TopEntry(RegionalRevenue(rows)).value
  }

  /** The peak month: `idxmax` of the monthly table, with its revenue. Of several
      months with the same largest revenue it is the earliest. */
  function PeakMonth(rows: seq<SalesRecord>): (e: Entry<int>)
    requires rows != []
    ensures exists r :: r in rows && r.month == e.key
    ensures e.total == GroupTotal(rows, ByMonth, e.key, LineTotal)
    ensures forall r :: r in rows ==> GroupTotal(rows, ByMonth, r.month, LineTotal) <= e.total
    ensures forall r :: r in rows && GroupTotal(rows, ByMonth, r.month, LineTotal) == e.total ==> e.key <= r.month
  {
    IntLessIsOrder();
    IdxMaxOfGroupBy(rows, ByMonth, IntLess, LineTotal);
    IdxMax(MonthlyRevenue(rows)).value
  }

  /** The product table sorted by revenue (`sort_values`), either way round:
      the same entries, so the same grand total. */
  function RankedProducts(rows: seq<SalesRecord>, ascending: bool): (t: seq<Entry<string>>)
    ensures multiset(t) == multiset(ProductRevenue(rows)) && Ordered(t, ascending)
    ensures Totals(t) == Revenue(rows)
  {
    var t := SortByTotal(ProductRevenue(rows), ascending);
    TotalsPermutation(t, ProductRevenue(rows));
    RevenueTablesPartition(rows);
    t
  }

  /** The top-performers panel `sort_values().tail(n)`: the `n` salespeople with
      the largest revenue, smallest first; no one left out sold more. */
  function TopSellersAscending(rows: seq<SalesRecord>, n: nat): (top: seq<Entry<string>>)
    ensures |top| == Min(n, DistinctCount(rows, BySeller)) && Ordered(top, true)
    ensures multiset(top) <= multiset(SellerRevenue(rows))
    ensures forall e :: e in top ==> e.total == GroupTotal(rows, BySeller, e.key, LineTotal)
    ensures forall e, r :: e in top && r in rows && r.salesperson !in Keys(top) ==>
              GroupTotal(rows, BySeller, r.salesperson, LineTotal) <= e.total
  {
    StrLessIsOrder();
    GroupBySize(rows, BySeller, StrLess, LineTotal);
    var top := LargestAscending(SellerRevenue(rows), n);
    TopGroups(rows, BySeller, StrLess, LineTotal, top);
    top
  }

  // ---------------------------------------------------------------- growth

  /** A percentage change. `Undefined` is what the float division gives when the
      base is zero (inf or NaN); `NotApplicable` is "not computed". */
  datatype Growth = NotApplicable | Undefined | Percent(pct: real)

  /** `(cur - prev) / prev * 100`. */
  function PercentChange(prev: int, cur: int): (g: Growth)
    ensures !g.NotApplicable?
    ensures g.Undefined? <==> prev == 0
    ensures g.Percent? ==> g.pct * (prev as real) == ((cur - prev) as real) * 100.0
  {
    if prev == 0 then Undefined
    else
      var p := (cur - prev) as real / prev as real * 100.0;
      assert p * (prev as real) == ((cur - prev) as real) * 100.0;
      Percent(p)
  }

  /** The YoY block: computed only when the table has more than one year, from
      its first two entries (`years = sorted(index)`). */
  function YoYGrowth(yearly: seq<Entry<int>>): (g: Growth)
    ensures g.NotApplicable? <==> |yearly| <= 1
  {
    if |yearly| > 1 then PercentChange(yearly[0].total, yearly[1].total) else NotApplicable
  }

  /** On the yearly revenue table, the YoY block compares the two earliest years
      of the data, and it is computed exactly when there is more than one year. */
  lemma YoYUsesTwoEarliestYears(rows: seq<SalesRecord>)
    ensures var t := YearlyRevenue(rows);
      && (|t| > 1 <==> DistinctCount(rows, ByYear) > 1)
      && (|t| > 1 ==>
            && t[0].key < t[1].key
            && (forall r :: r in rows ==> t[0].key <= r.year)
            && (forall r :: r in rows && r.year != t[0].key ==> t[1].key <= r.year)
            && YoYGrowth(t) == PercentChange(GroupTotal(rows, ByYear, t[0].key, LineTotal),
                                             GroupTotal(rows, ByYear, t[1].key, LineTotal)))
  {
    IntLessIsOrder();
    GroupByTable(rows, ByYear, IntLess, LineTotal);
    var t := YearlyRevenue(rows);
    if |t| > 1 {
      assert Keys(t)[0] == t[0].key && Keys(t)[1] == t[1].key;
      forall r | r in rows ensures t[0].key <= r.year && (r.year != t[0].key ==> t[1].key <= r.year) {
        assert ByYear(r) in KeySet(rows, ByYear);
        var j :| 0 <= j < |t| && Keys(t)[j] == r.year;
        if j >= 2 {
          assert IntLess(Keys(t)[1], Keys(t)[j]);
        }
      }
      assert t[0] in t && t[1] in t;
    }
  }

  /** The "YoY Growth: g% (y0 to y1)" line: printed only when the yearly table
      has more than one entry, comparing its first two years. */
  datatype GrowthLine = GrowthLine(growth: Growth, fromYear: int, toYear: int)

  /** The line compares the earliest year of the data with the next one, and is
      there exactly when the data spans more than one year. */
  function YoYLine(rows: seq<SalesRecord>): (g: Option<GrowthLine>)
    ensures g.Some? <==> DistinctCount(rows, ByYear) > 1
    ensures g.Some? ==>
      && g.value.fromYear < g.value.toYear
      && (forall r :: r in rows ==> g.value.fromYear <= r.year)
      && (forall r :: r in rows && r.year != g.value.fromYear ==> g.value.toYear <= r.year)
      && g.value.growth == PercentChange(GroupTotal(rows, ByYear, g.value.fromYear, LineTotal),
                                         GroupTotal(rows, ByYear, g.value.toYear, LineTotal))
  {
    YoYUsesTwoEarliestYears(rows);
    var t := YearlyRevenue(rows);
    if |t| > 1 then Some(GrowthLine(YoYGrowth(t), t[0].key, t[1].key)) else None
  }
}
