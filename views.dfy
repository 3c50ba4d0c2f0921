/**
 * The date pivots (Brand Manager by date, Brand by date) and the Brand & ASIN
 * summary, computed from the filtered order rows.
 */
module Views {
  import opened Wrappers
  import opened Seqs
  import opened Sorting
  import opened Reference
  import opened Enrich
  import opened Sums

  /** One date column pair of a date pivot: "Sum of item-price", then "Sum of quantity". */
  datatype DateCell = DateCell(price: real, quantity: real)

  const NoSales := DateCell(0.0, 0.0)

  function AddCell(a: DateCell, b: DateCell): (r: DateCell) {
    DateCell(a.price + b.price, a.quantity + b.quantity)
  }

  /** The two measures a date pivot shows out of a group's totals. */
  function Project(t: Totals): (r: DateCell) {
    DateCell(t.price, t.quantity)
  }

  /** A labelled pivot row with one cell per date column. */
  datatype PivotRow = PivotRow(name: string, cells: seq<DateCell>)

  datatype DatePivot = DatePivot(dates: seq<int>, rows: seq<PivotRow>)

  /** The row-index key of View A. */
  function ManagerKey(o: Order): (r: Option<string>) {
    o.manager
  }

  /** The row-index key of View B. */
  function BrandKey(o: Order): (r: Option<string>) {
    o.brand
  }

  /** The row key of an order dated `d`; orders on other days have none for this column. */
  function OnDate(rowKey: Order -> Option<string>, d: int): (r: Order -> Option<string>) {
    (o: Order) => if o.date == Some(d) then rowKey(o) else None
  }

  /** The date of an order that has a row key; `pivot_table` drops the others. */
  function DateIfKeyed(rowKey: Order -> Option<string>): (r: Order -> Option<int>) {
    (o: Order) => if rowKey(o).Some? then o.date else None
  }

  /** The row key of an order that has a date. */
  function KeyIfDated(rowKey: Order -> Option<string>): (r: Order -> Option<string>) {
    (o: Order) => if o.date.Some? then rowKey(o) else None
  }

  /** The cells of row `k`: summed price and quantity of its orders on each date, 0 where it has none. */
  function DateCells(orders: seq<Order>, rowKey: Order -> Option<string>, k: string, dates: seq<int>): (r: seq<DateCell>)
    ensures |r| == |dates|
  {
    seq(|dates|, j requires 0 <= j < |dates| => Project(KeySum(orders, Amounts, OnDate(rowKey, dates[j]), k)))
  }

  function PivotRows(orders: seq<Order>, rowKey: Order -> Option<string>, keys: seq<string>, dates: seq<int>): (r: seq<PivotRow>)
    ensures |r| == |keys|
    ensures forall i :: 0 <= i < |r| ==> r[i].name == keys[i] && r[i].cells == DateCells(orders, rowKey, keys[i], dates)
  {
    if keys == [] then []
    else [PivotRow(keys[0], DateCells(orders, rowKey, keys[0], dates))] + PivotRows(orders, rowKey, keys[1..], dates)
  }

  /** The distinct keys present in `s`, in ascending order: the group keys of a `groupby`. */
  function GroupKeys<T, K(!new, ==)>(s: seq<T>, keyOf: T -> Option<K>, le: (K, K) -> bool): (keys: seq<K>)
    requires TotalPreorder(le)
    ensures SortedBy(keys, le) && NoDup(keys)
    ensures forall i :: 0 <= i < |keys| ==> exists n :: 0 <= n < |s| && keyOf(s[n]) == Some(keys[i])
    ensures forall n :: 0 <= n < |s| && keyOf(s[n]).Some? ==> keyOf(s[n]).value in keys
  {
    var c := Collect(s, keyOf);
    var keys := SortedDistinct(c, le);
    forall i | 0 <= i < |keys|
      ensures exists n :: 0 <= n < |s| && keyOf(s[n]) == Some(keys[i])
    {
      var m :| 0 <= m < |c| && c[m] == keys[i];
    }
    keys
  }

  /** The date columns: every date of an order that has a row key, ascending and distinct. */
  function PivotDates(orders: seq<Order>, rowKey: Order -> Option<string>): (dates: seq<int>)
    ensures SortedBy(dates, IntLe) && NoDup(dates)
    ensures forall j :: 0 <= j < |dates| ==>
              exists n :: 0 <= n < |orders| && rowKey(orders[n]).Some? && orders[n].date == Some(dates[j])
    ensures forall n :: 0 <= n < |orders| && rowKey(orders[n]).Some? && orders[n].date.Some? ==>
              orders[n].date.value in dates
  {
    IntLeIsTotalPreorder();
    var dates := GroupKeys(orders, DateIfKeyed(rowKey), IntLe);
    forall j | 0 <= j < |dates|
      ensures exists n :: 0 <= n < |orders| && rowKey(orders[n]).Some? && orders[n].date == Some(dates[j])
    {
      var n :| 0 <= n < |orders| && DateIfKeyed(rowKey)(orders[n]) == Some(dates[j]);
    }
    forall n | 0 <= n < |orders| && rowKey(orders[n]).Some? && orders[n].date.Some?
      ensures orders[n].date.value in dates
    {
      assert DateIfKeyed(rowKey)(orders[n]).Some?;
    }
    dates
  }

  /** The row labels: every key of an order that has a date, ascending and distinct. */
  function PivotKeys(orders: seq<Order>, rowKey: Order -> Option<string>): (keys: seq<string>)
    ensures SortedBy(keys, StrLe) && NoDup(keys)
    ensures forall i :: 0 <= i < |keys| ==>
              exists n :: 0 <= n < |orders| && orders[n].date.Some? && rowKey(orders[n]) == Some(keys[i])
    ensures forall n :: 0 <= n < |orders| && rowKey(orders[n]).Some? && orders[n].date.Some? ==>
              rowKey(orders[n]).value in keys
  {
    StrLeIsTotalPreorder();
    var keys := GroupKeys(orders, KeyIfDated(rowKey), StrLe);
    forall i | 0 <= i < |keys|
      ensures exists n :: 0 <= n < |orders| && orders[n].date.Some? && rowKey(orders[n]) == Some(keys[i])
    {
      var n :| 0 <= n < |orders| && KeyIfDated(rowKey)(orders[n]) == Some(keys[i]);
    }
    forall n | 0 <= n < |orders| && rowKey(orders[n]).Some? && orders[n].date.Some?
      ensures rowKey(orders[n]).value in keys
    {
      assert KeyIfDated(rowKey)(orders[n]).Some?;
    }
    keys
  }

  /** `pivot_table(index=key, columns="date", values=[quantity, item-price], aggfunc="sum", fill_value=0)`:
      one row per key in ascending label order and one column pair per date in
      ascending order; the cells are given by `PivotCellIsSum`. */
  function PivotByDate(orders: seq<Order>, rowKey: Order -> Option<string>): (p: DatePivot)
    ensures p.dates == PivotDates(orders, rowKey)
    ensures RowNames(p.rows) == PivotKeys(orders, rowKey)
    ensures forall i :: 0 <= i < |p.rows| ==> |p.rows[i].cells| == |p.dates|
  {
    var dates := PivotDates(orders, rowKey);
    var keys := PivotKeys(orders, rowKey);
    var rows := PivotRows(orders, rowKey, keys, dates);
    assert RowNames(rows) == keys;
    DatePivot(dates, rows)
  }

  function RowNames(rows: seq<PivotRow>): (r: seq<string>)
    ensures |r| == |rows| && forall i :: 0 <= i < |rows| ==> r[i] == rows[i].name
  {
    seq(|rows|, i requires 0 <= i < |rows| => rows[i].name)
  }

  /** The orders with row key `k` dated `d`. */
  function KeyOnDate(rowKey: Order -> Option<string>, k: string, d: int): (r: Order -> bool) {
    (o: Order) => rowKey(o) == Some(k) && o.date == Some(d)
  }

  /** The orders dated `d` that have a row key. */
  function KeyedOn(rowKey: Order -> Option<string>, d: int): (r: Order -> bool) {
    (o: Order) => rowKey(o).Some? && o.date == Some(d)
  }

  /** The orders that have both a row key and a date. */
  function KeyedAndDated(rowKey: Order -> Option<string>): (r: Order -> bool) {
    (o: Order) => rowKey(o).Some? && o.date.Some?
  }

  lemma CellSum(orders: seq<Order>, rowKey: Order -> Option<string>, k: string, d: int)
    ensures KeySum(orders, Amounts, OnDate(rowKey, d), k) == SumIf(orders, Amounts, KeyOnDate(rowKey, k, d))
  {
    KeySumIsSumIf(orders, Amounts, OnDate(rowKey, d), k, KeyOnDate(rowKey, k, d));
  }

  /** Each pivot cell is the summed price and quantity of the orders with that
      row key on that date (0 when there are none, as `fill_value=0`). */
  lemma PivotCellIsSum(orders: seq<Order>, rowKey: Order -> Option<string>, i: nat, j: nat)
    requires i < |PivotByDate(orders, rowKey).rows| && j < |PivotByDate(orders, rowKey).dates|
    ensures var p := PivotByDate(orders, rowKey);
            p.rows[i].cells[j] == Project(SumIf(orders, Amounts, KeyOnDate(rowKey, p.rows[i].name, p.dates[j])))
  {
    var p := PivotByDate(orders, rowKey);
    var k, d := p.rows[i].name, p.dates[j];
    assert p.rows[i].cells == DateCells(orders, rowKey, k, p.dates);
    CellSum(orders, rowKey, k, d);
  }

  /** The sum of column `j` over `rows`; a row without that column adds nothing. */
  function ColumnSum(rows: seq<PivotRow>, j: nat): (r: DateCell) {
    if rows == [] then NoSales
    else AddCell(if j < |rows[0].cells| then rows[0].cells[j] else NoSales, ColumnSum(rows[1..], j))
  }

  /** App2 appends a "Grand Total" row holding every column's sum. */
  function WithGrandTotal(p: DatePivot): (r: DatePivot)
    ensures r.dates == p.dates && |r.rows| == |p.rows| + 1 && r.rows[..|p.rows|] == p.rows
    ensures r.rows[|p.rows|].name == "Grand Total" && |r.rows[|p.rows|].cells| == |p.dates|
    ensures forall j :: 0 <= j < |p.dates| ==> r.rows[|p.rows|].cells[j] == ColumnSum(p.rows, j)
  {
    var total := seq(|p.dates|, j requires 0 <= j < |p.dates| => ColumnSum(p.rows, j));
    DatePivot(p.dates, p.rows + [PivotRow("Grand Total", total)])
  }

  /** Views A and B as each script shows them: only app2.py adds the total row. */
  function DateView(orders: seq<Order>, rowKey: Order -> Option<string>, variant: Variant): (r: DatePivot) {
    var p := PivotByDate(orders, rowKey);
    if variant == App2 then WithGrandTotal(p) else p
  }

  lemma ProjectAdd(a: Totals, b: Totals)
    ensures Project(Add(a, b)) == AddCell(Project(a), Project(b))
  {
  }

  lemma {:induction false} RowsColumnSum(orders: seq<Order>, rowKey: Order -> Option<string>, keys: seq<string>, dates: seq<int>, j: nat)
    requires j < |dates|
    ensures ColumnSum(PivotRows(orders, rowKey, keys, dates), j)
            == Project(SelectedSum(orders, Amounts, OnDate(rowKey, dates[j]), keys, Everything))
  {
    if keys != [] {
      var rows := PivotRows(orders, rowKey, keys, dates);
      assert rows[1..] == PivotRows(orders, rowKey, keys[1..], dates);
      RowsColumnSum(orders, rowKey, keys[1..], dates, j);
      ProjectAdd(KeySum(orders, Amounts, OnDate(rowKey, dates[j]), keys[0]),
                 SelectedSum(orders, Amounts, OnDate(rowKey, dates[j]), keys[1..], Everything));
    }
  }

  /** Summing the cells of one date over keys that cover every keyed order of
      that date sums over all those orders. */
  lemma {:induction false} ColumnTotal(orders: seq<Order>, rowKey: Order -> Option<string>, keys: seq<string>, d: int)
    requires NoDup(keys)
    requires forall n :: 0 <= n < |orders| && KeyedOn(rowKey, d)(orders[n]) ==> rowKey(orders[n]).value in keys
    ensures SelectedSum(orders, Amounts, OnDate(rowKey, d), keys, Everything) == SumIf(orders, Amounts, KeyedOn(rowKey, d))
  {
    forall n | 0 <= n < |orders|
      ensures KeyedOn(rowKey, d)(orders[n]) == KeyedIn(OnDate(rowKey, d)(orders[n]), keys, Everything)
    {
    }
    SelectedSumPartition(orders, Amounts, OnDate(rowKey, d), keys, Everything, KeyedOn(rowKey, d));
  }

  /** The sum of date column `j` over the pivot rows is the summed price and
      quantity of every order on that date that has a row key. */
  lemma PivotColumnTotal(orders: seq<Order>, rowKey: Order -> Option<string>, j: nat)
    requires j < |PivotDates(orders, rowKey)|
    ensures ColumnSum(PivotByDate(orders, rowKey).rows, j)
            == Project(SumIf(orders, Amounts, KeyedOn(rowKey, PivotDates(orders, rowKey)[j])))
  {
    var keys, dates := PivotKeys(orders, rowKey), PivotDates(orders, rowKey);
    var d := dates[j];
    assert PivotByDate(orders, rowKey).rows == PivotRows(orders, rowKey, keys, dates);
    RowsColumnSum(orders, rowKey, keys, dates, j);
    forall n | 0 <= n < |orders| && KeyedOn(rowKey, d)(orders[n])
      ensures rowKey(orders[n]).value in keys
    {
      assert rowKey(orders[n]).Some? && orders[n].date.Some?;
    }
    ColumnTotal(orders, rowKey, keys, d);
  }

  /** The grand total of each date column is the summed price and quantity of
      every order on that date that has a row key. */
  lemma PivotGrandTotal(orders: seq<Order>, rowKey: Order -> Option<string>, j: nat)
    requires j < |PivotDates(orders, rowKey)|
    ensures var g := WithGrandTotal(PivotByDate(orders, rowKey));
            g.rows[|g.rows| - 1].cells[j] == Project(SumIf(orders, Amounts, KeyedOn(rowKey, g.dates[j])))
  {
    PivotColumnTotal(orders, rowKey, j);
  }

  /** The summed price and quantity over a row's date cells. */
  function RowTotal(cells: seq<DateCell>): (r: DateCell) {
    if cells == [] then NoSales else AddCell(cells[0], RowTotal(cells[1..]))
  }

  lemma {:induction false} RowTotalOfKeySums(orders: seq<Order>, keyOf: Order -> Option<int>, cells: seq<DateCell>, dates: seq<int>)
    requires |cells| == |dates|
    requires forall j :: 0 <= j < |cells| ==> cells[j] == Project(KeySum(orders, Amounts, keyOf, dates[j]))
    ensures RowTotal(cells) == Project(SelectedSum(orders, Amounts, keyOf, dates, Everything))
  {
    if cells != [] {
      RowTotalOfKeySums(orders, keyOf, cells[1..], dates[1..]);
      ProjectAdd(KeySum(orders, Amounts, keyOf, dates[0]), SelectedSum(orders, Amounts, keyOf, dates[1..], Everything));
    }
  }

  /** Summing the per-date totals over dates that cover every keyed order
      sums over all keyed, dated orders. */
  lemma {:induction false} DatesTotal(orders: seq<Order>, rowKey: Order -> Option<string>, dates: seq<int>)
    requires NoDup(dates)
    requires forall n :: 0 <= n < |orders| && KeyedAndDated(rowKey)(orders[n]) ==> orders[n].date.value in dates
    ensures SelectedSum(orders, Amounts, DateIfKeyed(rowKey), dates, Everything) == SumIf(orders, Amounts, KeyedAndDated(rowKey))
  {
    forall n | 0 <= n < |orders|
      ensures KeyedAndDated(rowKey)(orders[n]) == KeyedIn(DateIfKeyed(rowKey)(orders[n]), dates, Everything)
    {
    }
    SelectedSumPartition(orders, Amounts, DateIfKeyed(rowKey), dates, Everything, KeyedAndDated(rowKey));
  }

  lemma DateSum(orders: seq<Order>, rowKey: Order -> Option<string>, d: int)
    ensures KeySum(orders, Amounts, DateIfKeyed(rowKey), d) == SumIf(orders, Amounts, KeyedOn(rowKey, d))
  {
    KeySumIsSumIf(orders, Amounts, DateIfKeyed(rowKey), d, KeyedOn(rowKey, d));
  }

  /** Across all dates the grand total row adds up to the summed price and
      quantity of every order with a row key and a date. */
  lemma PivotOverallTotal(orders: seq<Order>, rowKey: Order -> Option<string>)
    ensures var g := WithGrandTotal(PivotByDate(orders, rowKey));
            RowTotal(g.rows[|g.rows| - 1].cells) == Project(SumIf(orders, Amounts, KeyedAndDated(rowKey)))
  {
    var g := WithGrandTotal(PivotByDate(orders, rowKey));
    var cells, dates := g.rows[|g.rows| - 1].cells, PivotDates(orders, rowKey);
    forall j | 0 <= j < |cells|
      ensures cells[j] == Project(KeySum(orders, Amounts, DateIfKeyed(rowKey), dates[j]))
    {
      PivotGrandTotal(orders, rowKey, j);
      DateSum(orders, rowKey, dates[j]);
    }
    RowTotalOfKeySums(orders, DateIfKeyed(rowKey), cells, dates);
    DatesTotal(orders, rowKey, dates);
  }

  /** Views A and B report the same overall quantity and revenue whenever the
      orders that have a Brand Manager are exactly those that have a Brand. */
  lemma DatePivotsAgree(orders: seq<Order>)
    requires forall n :: 0 <= n < |orders| ==> orders[n].manager.Some? == orders[n].brand.Some?
    ensures var a := WithGrandTotal(PivotByDate(orders, ManagerKey));
            var b := WithGrandTotal(PivotByDate(orders, BrandKey));
            RowTotal(a.rows[|a.rows| - 1].cells) == RowTotal(b.rows[|b.rows| - 1].cells)
  {
    assert SumIf(orders, Amounts, KeyedAndDated(ManagerKey)) == SumIf(orders, Amounts, KeyedAndDated(BrandKey)) by {
      forall n | 0 <= n < |orders|
        ensures KeyedAndDated(ManagerKey)(orders[n]) == KeyedAndDated(BrandKey)(orders[n])
      {
        assert ManagerKey(orders[n]).Some? == BrandKey(orders[n]).Some?;
      }
      SumIfCongruent(orders, Amounts, KeyedAndDated(ManagerKey), KeyedAndDated(BrandKey));
    }
    PivotOverallTotal(orders, ManagerKey);
    PivotOverallTotal(orders, BrandKey);
  }

  /** The index of View C: a Brand and an ASIN. */
  datatype BrandAsin = BrandAsin(brand: string, asin: string)

  /** The group of an order in View C; rows without a Brand are dropped. */
  function BrandAsinKey(o: Order): (r: Option<BrandAsin>) {
    if o.brand.Some? then Some(BrandAsin(o.brand.value, o.asin)) else None
  }

  /** `sort_index(level=["Brand", "asin"])`: by Brand, then by ASIN. */
  predicate BrandAsinLe(a: BrandAsin, b: BrandAsin) {
    if a.brand == b.brand then StrLe(a.asin, b.asin) else StrLe(a.brand, b.brand)
  }

  lemma BrandAsinLeIsTotalPreorder()
    ensures TotalPreorder(BrandAsinLe)
  {
    forall a, b ensures BrandAsinLe(a, b) || BrandAsinLe(b, a) {
      StrLeTotal(a.asin, b.asin);
      StrLeTotal(a.brand, b.brand);
    }
    forall a, b, c | BrandAsinLe(a, b) && BrandAsinLe(b, c) ensures BrandAsinLe(a, c) {
      if a.brand == b.brand && b.brand == c.brand {
        StrLeTransitive(a.asin, b.asin, c.asin);
      } else if a.brand == b.brand || b.brand == c.brand {
      } else {
        StrLeTransitive(a.brand, b.brand, c.brand);
        if a.brand == c.brand {
          StrLeAntisymmetric(a.brand, b.brand);
        }
      }
    }
  }

  /** The orders of one Brand & ASIN group. */
  function InGroup(g: BrandAsin): (r: Order -> bool) {
    (o: Order) => o.brand == Some(g.brand) && o.asin == g.asin
  }

  /** The orders that have a Brand. */
  predicate HasBrand(o: Order) {
    o.brand.Some?
  }

  /** A row of View C: its index labels and its summed quantity, revenue and cost. */
  datatype SummaryRow = SummaryRow(asin: string, brand: string, totals: Totals)

  function SummaryRows(orders: seq<Order>, groups: seq<BrandAsin>): (r: seq<SummaryRow>)
    ensures |r| == |groups|
    ensures forall i :: 0 <= i < |r| ==>
              r[i] == SummaryRow(groups[i].asin, groups[i].brand, KeySum(orders, Amounts, BrandAsinKey, groups[i]))
  {
    if groups == [] then []
    else [SummaryRow(groups[0].asin, groups[0].brand, KeySum(orders, Amounts, BrandAsinKey, groups[0]))]
         + SummaryRows(orders, groups[1..])
  }

  /** The column sums of `rows`, as `sum(numeric_only=True)`. */
  function TotalOf(rows: seq<SummaryRow>): (r: Totals) {
    if rows == [] then Zero else Add(rows[0].totals, TotalOf(rows[1..]))
  }

  /** The labels of the total row: index `(asin, Brand)` in app2.py, `(Brand, asin)` in sales_06.py. */
  function GrandRow(variant: Variant, t: Totals): (r: SummaryRow)
    ensures variant == App2 ==> r.asin == "Grand Total" && r.brand == ""
    ensures variant == Sales06 ==> r.brand == "Grand Total" && r.asin == ""
    ensures r.totals == t
  {
    if variant == App2 then SummaryRow("Grand Total", "", t) else SummaryRow("", "Grand Total", t)
  }

  /** The Brand & ASIN groups in the order View C lists them. */
  function BrandAsinGroups(orders: seq<Order>): (groups: seq<BrandAsin>)
    ensures SortedBy(groups, BrandAsinLe) && NoDup(groups)
    ensures forall i :: 0 <= i < |groups| ==>
              exists n :: 0 <= n < |orders| && BrandAsinKey(orders[n]) == Some(groups[i])
    ensures forall n :: 0 <= n < |orders| && HasBrand(orders[n]) ==>
              BrandAsin(orders[n].brand.value, orders[n].asin) in groups
  {
    BrandAsinLeIsTotalPreorder();
    GroupKeys(orders, BrandAsinKey, BrandAsinLe)
  }

  /** View C: one row per Brand & ASIN group in Brand, then ASIN order, and
      last the "Grand Total" row. */
  function BrandAsinSummary(orders: seq<Order>, variant: Variant): (r: seq<SummaryRow>)
    ensures |r| == |BrandAsinGroups(orders)| + 1
    ensures forall i :: 0 <= i < |r| - 1 ==>
              r[i].brand == BrandAsinGroups(orders)[i].brand && r[i].asin == BrandAsinGroups(orders)[i].asin
    ensures r[|r| - 1] == GrandRow(variant, TotalOf(r[..|r| - 1]))
  {
    var rows := SummaryRows(orders, BrandAsinGroups(orders));
    assert (rows + [GrandRow(variant, TotalOf(rows))])[..|rows|] == rows;
    rows + [GrandRow(variant, TotalOf(rows))]
  }

  /** Each group row holds the summed quantity, revenue and cost of exactly its orders. */
  lemma BrandAsinRowIsSum(orders: seq<Order>, variant: Variant, i: nat)
    requires i < |BrandAsinSummary(orders, variant)| - 1
    ensures var r := BrandAsinSummary(orders, variant);
            r[i].totals == SumIf(orders, Amounts, InGroup(BrandAsin(r[i].brand, r[i].asin)))
  {
    var groups := BrandAsinGroups(orders);
    var g := groups[i];
    assert BrandAsinSummary(orders, variant)[i] == SummaryRows(orders, groups)[i];
    forall n | 0 <= n < |orders|
      ensures InGroup(g)(orders[n]) == (BrandAsinKey(orders[n]) == Some(g))
    {
    }
    KeySumIsSumIf(orders, Amounts, BrandAsinKey, g, InGroup(g));
  }

  lemma {:induction false} TotalOfSummaryRows(orders: seq<Order>, groups: seq<BrandAsin>)
    ensures TotalOf(SummaryRows(orders, groups)) == SelectedSum(orders, Amounts, BrandAsinKey, groups, Everything)
  {
    if groups != [] {
      assert SummaryRows(orders, groups)[1..] == SummaryRows(orders, groups[1..]);
      TotalOfSummaryRows(orders, groups[1..]);
    }
  }

  /** The grand total row sums every order that has a Brand, each exactly once. */
  lemma BrandAsinGrandTotal(orders: seq<Order>, variant: Variant)
    ensures var r := BrandAsinSummary(orders, variant);
            r[|r| - 1].totals == SumIf(orders, Amounts, HasBrand)
  {
    var groups := BrandAsinGroups(orders);
    var rows := SummaryRows(orders, groups);
    assert BrandAsinSummary(orders, variant)[..|rows|] == rows;
    TotalOfSummaryRows(orders, groups);
    forall n | 0 <= n < |orders|
      ensures HasBrand(orders[n]) == KeyedIn(BrandAsinKey(orders[n]), groups, Everything)
    {
    }
    SelectedSumPartition(orders, Amounts, BrandAsinKey, groups, Everything, HasBrand);
  }
}
