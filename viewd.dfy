/**
 * View D: the Brand Manager / Brand / ASIN summary, with brand, manager and
 * grand subtotal rows in app2.py and without them in sales_06.py.
 */
module Subtotals {
  import opened Wrappers
  import opened Seqs
  import opened Sorting
  import opened Enrich
  import opened Sums
  import opened Views

  /** The distinct keys present in `s`, in order of first occurrence. */
  function KeysIn<T, K(==)>(s: seq<T>, keyOf: T -> Option<K>): (keys: seq<K>)
    ensures NoDup(keys)
    ensures forall i :: 0 <= i < |keys| ==> exists n :: 0 <= n < |s| && keyOf(s[n]) == Some(keys[i])
    ensures forall n :: 0 <= n < |s| && keyOf(s[n]).Some? ==> keyOf(s[n]).value in keys
  {
    var c := Collect(s, keyOf);
    var keys := Distinct(c);
    forall i | 0 <= i < |keys|
      ensures exists n :: 0 <= n < |s| && keyOf(s[n]) == Some(keys[i])
    {
      var m :| 0 <= m < |c| && c[m] == keys[i];
    }
    keys
  }

  /** The group of a base row: `groupby(["asin", "Brand Manager", "Brand"], dropna=False)`
      keeps rows whose Brand Manager or Brand is missing, as groups of their own. */
  datatype BaseKey = BaseKey(asin: string, manager: Option<string>, brand: Option<string>)

  function BaseKeyOf(o: Order): (r: Option<BaseKey>) {
    Some(BaseKey(o.asin, o.manager, o.brand))
  }

  /** A row of View D: its three index labels, its sums, and its `order` rank
      (0 base row, 1 brand subtotal, 2 manager subtotal, 3 grand total). */
  datatype DRow = DRow(manager: Option<string>, brand: Option<string>, asin: string, totals: Totals, order: int)

  function RowTotals(r: DRow): (t: Totals) {
    r.totals
  }

  function BaseRows(orders: seq<Order>, groups: seq<BaseKey>): (r: seq<DRow>)
    ensures |r| == |groups|
    ensures forall i :: 0 <= i < |r| ==>
              r[i] == DRow(groups[i].manager, groups[i].brand, groups[i].asin, KeySum(orders, Amounts, BaseKeyOf, groups[i]), 0)
  {
    if groups == [] then []
    else [DRow(groups[0].manager, groups[0].brand, groups[0].asin, KeySum(orders, Amounts, BaseKeyOf, groups[0]), 0)]
         + BaseRows(orders, groups[1..])
  }

  /** A Brand Manager together with one of their Brands. */
  datatype ManagerBrand = ManagerBrand(manager: string, brand: string)

  /** The group of a row in `groupby(["Brand Manager", "Brand"])`, which drops missing keys. */
  function PairOf(r: DRow): (k: Option<ManagerBrand>) {
    if r.manager.Some? && r.brand.Some? then Some(ManagerBrand(r.manager.value, r.brand.value)) else None
  }

  function ManagerOf(r: DRow): (k: Option<string>) {
    r.manager
  }

  function BrandRows(base: seq<DRow>, pairs: seq<ManagerBrand>): (r: seq<DRow>)
    ensures |r| == |pairs|
    ensures forall i :: 0 <= i < |r| ==>
              r[i] == DRow(Some(pairs[i].manager), Some(pairs[i].brand), pairs[i].brand + " Total",
                           KeySum(base, RowTotals, PairOf, pairs[i]), 1)
  {
    if pairs == [] then []
    else [DRow(Some(pairs[0].manager), Some(pairs[0].brand), pairs[0].brand + " Total",
               KeySum(base, RowTotals, PairOf, pairs[0]), 1)]
         + BrandRows(base, pairs[1..])
  }

  function ManagerRows(base: seq<DRow>, managers: seq<string>): (r: seq<DRow>)
    ensures |r| == |managers|
    ensures forall i :: 0 <= i < |r| ==>
              r[i] == DRow(Some(managers[i]), Some(""), managers[i] + " Total",
                           KeySum(base, RowTotals, ManagerOf, managers[i]), 2)
  {
    if managers == [] then []
    else [DRow(Some(managers[0]), Some(""), managers[0] + " Total", KeySum(base, RowTotals, ManagerOf, managers[0]), 2)]
         + ManagerRows(base, managers[1..])
  }

  /** `is_grand`: the row's ASIN label is "Grand Total". */
  predicate IsGrand(r: DRow) {
    r.asin == "Grand Total"
  }

  /** The final `sort_values(by=["is_grand", "Brand Manager", "Brand", "order", "quantity"],
      ascending=[True, True, True, True, False])`, missing labels last; rows equal on
      all five keys keep the ASIN order the preceding `groupby` gave them. */
  predicate DLe(a: DRow, b: DRow) {
    if IsGrand(a) != IsGrand(b) then !IsGrand(a)
    else if a.manager != b.manager then OptLe(a.manager, b.manager)
    else if a.brand != b.brand then OptLe(a.brand, b.brand)
    else if a.order != b.order then a.order < b.order
    else if a.totals.quantity != b.totals.quantity then a.totals.quantity > b.totals.quantity
    else StrLe(a.asin, b.asin)
  }

  lemma DLeTotal(a: DRow, b: DRow)
    ensures DLe(a, b) || DLe(b, a)
  {
    OptLeTotal(a.manager, b.manager);
    OptLeTotal(a.brand, b.brand);
    StrLeTotal(a.asin, b.asin);
  }

  lemma DLeTransitive(a: DRow, b: DRow, c: DRow)
    requires DLe(a, b) && DLe(b, c)
    ensures DLe(a, c)
  {
    if IsGrand(a) == IsGrand(b) && IsGrand(b) == IsGrand(c) {
      if a.manager != b.manager || b.manager != c.manager {
        ManagerStep(a, b, c);
      } else if a.brand != b.brand || b.brand != c.brand {
        BrandStep(a, b, c);
      } else if a.order == b.order && b.order == c.order && a.totals.quantity == b.totals.quantity
                && b.totals.quantity == c.totals.quantity {
        StrLeTransitive(a.asin, b.asin, c.asin);
      }
    }
  }

  lemma ManagerStep(a: DRow, b: DRow, c: DRow)
    requires IsGrand(a) == IsGrand(b) && IsGrand(b) == IsGrand(c)
    requires a.manager != b.manager || b.manager != c.manager
    requires DLe(a, b) && DLe(b, c)
    ensures DLe(a, c)
  {
    if a.manager == b.manager {
    } else if b.manager == c.manager {
    } else {
      OptLeTransitive(a.manager, b.manager, c.manager);
      if a.manager == c.manager {
        OptLeAntisymmetric(a.manager, b.manager);
      }
    }
  }

  lemma BrandStep(a: DRow, b: DRow, c: DRow)
    requires IsGrand(a) == IsGrand(b) && IsGrand(b) == IsGrand(c)
    requires a.manager == b.manager && b.manager == c.manager
    requires a.brand != b.brand || b.brand != c.brand
    requires DLe(a, b) && DLe(b, c)
    ensures DLe(a, c)
  {
    if a.brand == b.brand {
    } else if b.brand == c.brand {
    } else {
      OptLeTransitive(a.brand, b.brand, c.brand);
      if a.brand == c.brand {
        OptLeAntisymmetric(a.brand, b.brand);
      }
    }
  }

  lemma DLeIsTotalPreorder()
    ensures TotalPreorder(DLe)
  {
    forall a, b ensures DLe(a, b) || DLe(b, a) {
      DLeTotal(a, b);
    }
    forall a, b, c | DLe(a, b) && DLe(b, c) ensures DLe(a, c) {
      DLeTransitive(a, b, c);
    }
  }

  /** The base rows: one per (asin, Brand Manager, Brand) group of the orders. */
  function Base(orders: seq<Order>): (r: seq<DRow>) {
    BaseRows(orders, KeysIn(orders, BaseKeyOf))
  }

  function GrandTotalRow(base: seq<DRow>): (r: DRow) {
    DRow(Some(""), Some(""), "Grand Total", SumIf(base, RowTotals, Everything), 3)
  }

  /** The rows before the final sort: base rows, brand subtotals, manager subtotals, grand total. */
  function SubtotalRows(orders: seq<Order>): (r: seq<DRow>) {
    var base := Base(orders);
    base + BrandRows(base, KeysIn(base, PairOf)) + ManagerRows(base, KeysIn(base, ManagerOf)) + [GrandTotalRow(base)]
  }

  /** View D in app2.py: all rows, sorted by the five keys. */
  function SubtotalSummary(orders: seq<Order>): (r: seq<DRow>)
    ensures SortedBy(r, DLe)
    ensures multiset(r) == multiset(SubtotalRows(orders))
  {
    DLeIsTotalPreorder();
    Sort(SubtotalRows(orders), DLe)
  }

  /** Selections of base rows and orders by a condition on their group key. */
  function RowSel(kp: BaseKey -> bool): (r: DRow -> bool) {
    (r: DRow) => kp(BaseKey(r.asin, r.manager, r.brand))
  }

  function OrderSel(kp: BaseKey -> bool): (r: Order -> bool) {
    (o: Order) => kp(BaseKey(o.asin, o.manager, o.brand))
  }

  lemma {:induction false} BaseRowsSelected(orders: seq<Order>, groups: seq<BaseKey>, kp: BaseKey -> bool)
    ensures SumIf(BaseRows(orders, groups), RowTotals, RowSel(kp)) == SelectedSum(orders, Amounts, BaseKeyOf, groups, kp)
  {
    if groups != [] {
      assert BaseRows(orders, groups)[1..] == BaseRows(orders, groups[1..]);
      BaseRowsSelected(orders, groups[1..], kp);
    }
  }

  /** Summing base rows selected by their key is summing the orders selected by
      the same key: every order lies in exactly one base group. */
  lemma BaseSelection(orders: seq<Order>, kp: BaseKey -> bool)
    ensures SumIf(Base(orders), RowTotals, RowSel(kp)) == SumIf(orders, Amounts, OrderSel(kp))
  {
    var groups := KeysIn(orders, BaseKeyOf);
    BaseRowsSelected(orders, groups, kp);
    forall n | 0 <= n < |orders|
      ensures OrderSel(kp)(orders[n]) == KeyedIn(BaseKeyOf(orders[n]), groups, kp)
    {
      assert BaseKeyOf(orders[n]).Some?;
    }
    SelectedSumPartition(orders, Amounts, BaseKeyOf, groups, kp, OrderSel(kp));
  }

  /** The orders of one Brand Manager and Brand. */
  function OfPair(m: string, b: string): (r: Order -> bool) {
    (o: Order) => o.manager == Some(m) && o.brand == Some(b)
  }

  function PairSel(m: string, b: string): (r: BaseKey -> bool) {
    (k: BaseKey) => k.manager == Some(m) && k.brand == Some(b)
  }

  /** The orders of one Brand Manager. */
  function OfManager(m: string): (r: Order -> bool) {
    (o: Order) => o.manager == Some(m)
  }

  function ManagerSel(m: string): (r: BaseKey -> bool) {
    (k: BaseKey) => k.manager == Some(m)
  }

  /** A brand subtotal sums exactly the orders of that Brand Manager and Brand. */
  lemma BrandSubtotalIsSum(orders: seq<Order>, m: string, b: string)
    ensures KeySum(Base(orders), RowTotals, PairOf, ManagerBrand(m, b)) == SumIf(orders, Amounts, OfPair(m, b))
  {
    var base := Base(orders);
    KeySumIsSumIf(base, RowTotals, PairOf, ManagerBrand(m, b), RowSel(PairSel(m, b)));
    BaseSelection(orders, PairSel(m, b));
    SumIfCongruent(orders, Amounts, OrderSel(PairSel(m, b)), OfPair(m, b));
  }

  /** A manager subtotal sums exactly the orders of that Brand Manager. */
  lemma ManagerSubtotalIsSum(orders: seq<Order>, m: string)
    ensures KeySum(Base(orders), RowTotals, ManagerOf, m) == SumIf(orders, Amounts, OfManager(m))
  {
    var base := Base(orders);
    KeySumIsSumIf(base, RowTotals, ManagerOf, m, RowSel(ManagerSel(m)));
    BaseSelection(orders, ManagerSel(m));
    SumIfCongruent(orders, Amounts, OrderSel(ManagerSel(m)), OfManager(m));
  }

  /** The grand total sums every order, including those without a Brand Manager or Brand. */
  lemma GrandTotalIsSum(orders: seq<Order>)
    ensures GrandTotalRow(Base(orders)).totals == SumIf(orders, Amounts, Everything)
  {
    var base := Base(orders);
    forall i | 0 <= i < |base| ensures Everything(base[i]) == RowSel(Everything)(base[i]) {
      assert Everything(BaseKey(base[i].asin, base[i].manager, base[i].brand));
    }
    SumIfCongruent(base, RowTotals, Everything, RowSel(Everything));
    BaseSelection(orders, Everything);
    SumIfCongruent(orders, Amounts, OrderSel(Everything), Everything);
  }

  /** The orders of one base group. */
  function OfBaseKey(k: BaseKey): (r: Order -> bool) {
    (o: Order) => o.asin == k.asin && o.manager == k.manager && o.brand == k.brand
  }

  lemma BaseRowIsSum(orders: seq<Order>, k: BaseKey)
    ensures KeySum(orders, Amounts, BaseKeyOf, k) == SumIf(orders, Amounts, OfBaseKey(k))
  {
    KeySumIsSumIf(orders, Amounts, BaseKeyOf, k, OfBaseKey(k));
  }

  /** What every row of View D holds, by its `order` rank. */
  predicate RowMeaning(orders: seq<Order>, r: DRow) {
    && 0 <= r.order <= 3
    && (r.order == 0 ==> r.totals == SumIf(orders, Amounts, OfBaseKey(BaseKey(r.asin, r.manager, r.brand))))
    && (r.order == 1 ==> r.manager.Some? && r.brand.Some? && r.asin == r.brand.value + " Total"
                         && r.totals == SumIf(orders, Amounts, OfPair(r.manager.value, r.brand.value)))
    && (r.order == 2 ==> r.manager.Some? && r.brand == Some("") && r.asin == r.manager.value + " Total"
                         && r.totals == SumIf(orders, Amounts, OfManager(r.manager.value)))
    && (r.order == 3 ==> r == DRow(Some(""), Some(""), "Grand Total", SumIf(orders, Amounts, Everything), 3))
  }

  lemma BaseRowMeaning(orders: seq<Order>, r: DRow)
    requires r in Base(orders)
    ensures RowMeaning(orders, r)
  {
    var keys := KeysIn(orders, BaseKeyOf);
    var base := BaseRows(orders, keys);
    var i :| 0 <= i < |base| && base[i] == r;
    var k := keys[i];
    assert r == DRow(k.manager, k.brand, k.asin, KeySum(orders, Amounts, BaseKeyOf, k), 0);
    BaseRowIsSum(orders, k);
    assert k == BaseKey(r.asin, r.manager, r.brand);
  }

  lemma BrandRowMeaning(orders: seq<Order>, r: DRow)
    requires r in BrandRows(Base(orders), KeysIn(Base(orders), PairOf))
    ensures RowMeaning(orders, r)
  {
    var pairs := KeysIn(Base(orders), PairOf);
    var br := BrandRows(Base(orders), pairs);
    var i :| 0 <= i < |br| && br[i] == r;
    BrandSubtotalIsSum(orders, pairs[i].manager, pairs[i].brand);
  }

  lemma ManagerRowMeaning(orders: seq<Order>, r: DRow)
    requires r in ManagerRows(Base(orders), KeysIn(Base(orders), ManagerOf))
    ensures RowMeaning(orders, r)
  {
    var managers := KeysIn(Base(orders), ManagerOf);
    var mr := ManagerRows(Base(orders), managers);
    var i :| 0 <= i < |mr| && mr[i] == r;
    var m := managers[i];
    assert r == DRow(Some(m), Some(""), m + " Total", KeySum(Base(orders), RowTotals, ManagerOf, m), 2);
    ManagerSubtotalIsSum(orders, m);
  }

  lemma UnsortedRowMeaning(orders: seq<Order>, r: DRow)
    requires r in SubtotalRows(orders)
    ensures RowMeaning(orders, r)
  {
    var base := Base(orders);
    var br := BrandRows(base, KeysIn(base, PairOf));
    var mr := ManagerRows(base, KeysIn(base, ManagerOf));
    assert SubtotalRows(orders) == base + br + mr + [GrandTotalRow(base)];
    if r in base {
      BaseRowMeaning(orders, r);
    } else if r in br {
      BrandRowMeaning(orders, r);
    } else if r in mr {
      ManagerRowMeaning(orders, r);
    } else {
      GrandTotalIsSum(orders);
    }
  }

  /** Every row of View D is a base row, a brand subtotal, a manager subtotal or
      the grand total, and holds the sums of exactly the orders it stands for. */
  lemma SubtotalRowMeaning(orders: seq<Order>, r: DRow)
    requires r in SubtotalSummary(orders)
    ensures RowMeaning(orders, r)
  {
    assert r in multiset(SubtotalSummary(orders));
    UnsortedRowMeaning(orders, r);
  }

  lemma SortedKeepsRows(orders: seq<Order>, x: DRow)
    requires x in SubtotalRows(orders)
    ensures x in SubtotalSummary(orders)
  {
    assert x in multiset(SubtotalRows(orders));
  }

  /** The base row, brand subtotal and manager subtotal an order contributes to. */
  function BaseRowOf(orders: seq<Order>, o: Order): (r: DRow) {
    DRow(o.manager, o.brand, o.asin, KeySum(orders, Amounts, BaseKeyOf, BaseKey(o.asin, o.manager, o.brand)), 0)
  }

  function BrandRowOf(orders: seq<Order>, m: string, b: string): (r: DRow) {
    DRow(Some(m), Some(b), b + " Total", KeySum(Base(orders), RowTotals, PairOf, ManagerBrand(m, b)), 1)
  }

  function ManagerRowOf(orders: seq<Order>, m: string): (r: DRow) {
    DRow(Some(m), Some(""), m + " Total", KeySum(Base(orders), RowTotals, ManagerOf, m), 2)
  }

  lemma BaseRowPresent(orders: seq<Order>, n: nat) returns (i: nat)
    requires n < |orders|
    ensures i < |Base(orders)| && Base(orders)[i] == BaseRowOf(orders, orders[n])
  {
    var o := orders[n];
    var groups := KeysIn(orders, BaseKeyOf);
    var k := BaseKey(o.asin, o.manager, o.brand);
    assert BaseKeyOf(o) == Some(k);
    i :| 0 <= i < |groups| && groups[i] == k;
  }

  lemma BrandRowPresent(orders: seq<Order>, n: nat)
    requires n < |orders| && orders[n].manager.Some? && orders[n].brand.Some?
    ensures BrandRowOf(orders, orders[n].manager.value, orders[n].brand.value)
            in BrandRows(Base(orders), KeysIn(Base(orders), PairOf))
  {
    var o := orders[n];
    var base := Base(orders);
    var pairs := KeysIn(base, PairOf);
    var i := BaseRowPresent(orders, n);
    assert PairOf(base[i]) == Some(ManagerBrand(o.manager.value, o.brand.value));
    var j :| 0 <= j < |pairs| && pairs[j] == PairOf(base[i]).value;
    assert BrandRows(base, pairs)[j] == BrandRowOf(orders, o.manager.value, o.brand.value);
  }

  lemma ManagerRowPresent(orders: seq<Order>, n: nat)
    requires n < |orders| && orders[n].manager.Some?
    ensures ManagerRowOf(orders, orders[n].manager.value) in ManagerRows(Base(orders), KeysIn(Base(orders), ManagerOf))
  {
    var o := orders[n];
    var base := Base(orders);
    var managers := KeysIn(base, ManagerOf);
    var i := BaseRowPresent(orders, n);
    assert ManagerOf(base[i]) == Some(o.manager.value);
    var j :| 0 <= j < |managers| && managers[j] == o.manager.value;
    assert ManagerRows(base, managers)[j] == ManagerRowOf(orders, o.manager.value);
  }

  lemma PresentBeforeSort(orders: seq<Order>, n: nat)
    requires n < |orders|
    ensures var all := SubtotalRows(orders);
            var o := orders[n];
            && BaseRowOf(orders, o) in all
            && (o.manager.Some? && o.brand.Some? ==> BrandRowOf(orders, o.manager.value, o.brand.value) in all)
            && (o.manager.Some? ==> ManagerRowOf(orders, o.manager.value) in all)
            && GrandTotalRow(Base(orders)) in all
  {
    var o := orders[n];
    var base := Base(orders);
    var br := BrandRows(base, KeysIn(base, PairOf));
    var mr := ManagerRows(base, KeysIn(base, ManagerOf));
    var all := SubtotalRows(orders);
    assert all == base + br + mr + [GrandTotalRow(base)];
    var i := BaseRowPresent(orders, n);
    if o.manager.Some? && o.brand.Some? {
      BrandRowPresent(orders, n);
    }
    if o.manager.Some? {
      ManagerRowPresent(orders, n);
    }
  }

  /** Every order is reflected in View D: its base row, its brand subtotal when
      it has a Brand Manager and a Brand, its manager subtotal when it has a
      Brand Manager, and the grand total are all present. */
  lemma SubtotalRowsPresent(orders: seq<Order>, n: nat)
    requires n < |orders|
    ensures var v := SubtotalSummary(orders);
            var o := orders[n];
            && BaseRowOf(orders, o) in v
            && (o.manager.Some? && o.brand.Some? ==> BrandRowOf(orders, o.manager.value, o.brand.value) in v)
            && (o.manager.Some? ==> ManagerRowOf(orders, o.manager.value) in v)
            && GrandTotalRow(Base(orders)) in v
  {
    var o := orders[n];
    PresentBeforeSort(orders, n);
    SortedKeepsRows(orders, BaseRowOf(orders, o));
    if o.manager.Some? && o.brand.Some? {
      SortedKeepsRows(orders, BrandRowOf(orders, o.manager.value, o.brand.value));
    }
    if o.manager.Some? {
      SortedKeepsRows(orders, ManagerRowOf(orders, o.manager.value));
    }
    SortedKeepsRows(orders, GrandTotalRow(Base(orders)));
  }

  /** Rows whose ASIN label is "Grand Total" all come after the other rows,
      and the view ends with one. */
  lemma GrandRowsLast(orders: seq<Order>)
    ensures var v := SubtotalSummary(orders);
            && |v| > 0 && IsGrand(v[|v| - 1])
            && forall i, j :: 0 <= i < j < |v| && IsGrand(v[i]) ==> IsGrand(v[j])
  {
    var v := SubtotalSummary(orders);
    var g := GrandTotalRow(Base(orders));
    assert g in SubtotalRows(orders);
    SortedKeepsRows(orders, g);
    var k :| 0 <= k < |v| && v[k] == g;
    if k < |v| - 1 {
      assert DLe(v[k], v[|v| - 1]);
    }
  }

  /** In any sequence sorted by `DLe`, a manager subtotal (Brand "") comes
      before every row of that manager's non-empty Brands, Grand Total rows apart. */
  lemma ManagerTotalFirst(v: seq<DRow>, i: nat, j: nat)
    requires SortedBy(v, DLe)
    requires i < |v| && j < |v|
    requires v[i].brand == Some("") && v[j].manager == v[i].manager && v[j].brand.Some? && v[j].brand != Some("")
    requires !IsGrand(v[i]) && !IsGrand(v[j])
    ensures i < j
  {
    if j < i {
      assert DLe(v[j], v[i]);
      EmptyFirst(v[j].brand.value);
      StrLeAntisymmetric(v[j].brand.value, "");
    }
  }

  /** In any sequence sorted by `DLe`, the base rows of a Brand Manager and
      Brand come before their brand subtotal, Grand Total rows apart. */
  lemma BrandTotalAfterItsRows(v: seq<DRow>, i: nat, j: nat)
    requires SortedBy(v, DLe)
    requires i < |v| && j < |v|
    requires v[i].order == 0 && v[j].order == 1 && v[i].manager == v[j].manager && v[i].brand == v[j].brand
    requires !IsGrand(v[i]) && !IsGrand(v[j])
    ensures i < j
  {
  }

  /** The index of View D in sales_06.py: `pivot_table` drops rows missing any of the three labels. */
  datatype LabelTriple = LabelTriple(manager: string, brand: string, asin: string)

  function TripleOf(o: Order): (r: Option<LabelTriple>) {
    if o.manager.Some? && o.brand.Some? then Some(LabelTriple(o.manager.value, o.brand.value, o.asin)) else None
  }

  /** A row of View D in sales_06.py. */
  datatype PlainRow = PlainRow(manager: string, brand: string, asin: string, totals: Totals)

  function PlainRows(orders: seq<Order>, groups: seq<LabelTriple>): (r: seq<PlainRow>)
    ensures |r| == |groups|
    ensures forall i :: 0 <= i < |r| ==>
              r[i] == PlainRow(groups[i].manager, groups[i].brand, groups[i].asin, KeySum(orders, Amounts, TripleOf, groups[i]))
  {
    if groups == [] then []
    else [PlainRow(groups[0].manager, groups[0].brand, groups[0].asin, KeySum(orders, Amounts, TripleOf, groups[0]))]
         + PlainRows(orders, groups[1..])
  }

  /** `sort_values(by=["Brand Manager", "Brand", "Sum of quantity"], ascending=[True, True, False])`
      over the index-sorted pivot, so rows equal on those keys stay in ASIN order. */
  predicate PlainLe(a: PlainRow, b: PlainRow) {
    if a.manager != b.manager then StrLe(a.manager, b.manager)
    else if a.brand != b.brand then StrLe(a.brand, b.brand)
    else if a.totals.quantity != b.totals.quantity then a.totals.quantity > b.totals.quantity
    else StrLe(a.asin, b.asin)
  }

  lemma PlainLeTransitive(a: PlainRow, b: PlainRow, c: PlainRow)
    requires PlainLe(a, b) && PlainLe(b, c)
    ensures PlainLe(a, c)
  {
    if a.manager != b.manager && b.manager != c.manager {
      StrLeTransitive(a.manager, b.manager, c.manager);
      if a.manager == c.manager {
        StrLeAntisymmetric(a.manager, b.manager);
      }
    } else if a.manager == b.manager && b.manager == c.manager {
      if a.brand != b.brand && b.brand != c.brand {
        StrLeTransitive(a.brand, b.brand, c.brand);
        if a.brand == c.brand {
          StrLeAntisymmetric(a.brand, b.brand);
        }
      } else if a.brand == b.brand && b.brand == c.brand
                && a.totals.quantity == b.totals.quantity && b.totals.quantity == c.totals.quantity {
        StrLeTransitive(a.asin, b.asin, c.asin);
      }
    }
  }

  lemma PlainLeIsTotalPreorder()
    ensures TotalPreorder(PlainLe)
  {
    forall a, b ensures PlainLe(a, b) || PlainLe(b, a) {
      StrLeTotal(a.manager, b.manager);
      StrLeTotal(a.brand, b.brand);
      StrLeTotal(a.asin, b.asin);
    }
    forall a, b, c | PlainLe(a, b) && PlainLe(b, c) ensures PlainLe(a, c) {
      PlainLeTransitive(a, b, c);
    }
  }

  function PlainGroups(orders: seq<Order>): (r: seq<LabelTriple>) {
    KeysIn(orders, TripleOf)
  }

  /** View D in sales_06.py: one row per (Brand Manager, Brand, asin) group, no subtotals. */
  function PlainSummary(orders: seq<Order>): (r: seq<PlainRow>)
    ensures SortedBy(r, PlainLe)
    ensures multiset(r) == multiset(PlainRows(orders, PlainGroups(orders)))
  {
    PlainLeIsTotalPreorder();
    Sort(PlainRows(orders, PlainGroups(orders)), PlainLe)
  }

  /** The orders of one (Brand Manager, Brand, asin) group. */
  function OfTriple(t: LabelTriple): (r: Order -> bool) {
    (o: Order) => o.manager == Some(t.manager) && o.brand == Some(t.brand) && o.asin == t.asin
  }

  lemma PlainGroupSum(orders: seq<Order>, t: LabelTriple)
    ensures KeySum(orders, Amounts, TripleOf, t) == SumIf(orders, Amounts, OfTriple(t))
  {
    KeySumIsSumIf(orders, Amounts, TripleOf, t, OfTriple(t));
  }

  /** Each row of the sales_06.py View D stands for a group that occurs in the
      orders, and holds the sums of exactly that group's orders. */
  lemma {:induction false} PlainRowMeaning(orders: seq<Order>, r: PlainRow)
    requires r in PlainSummary(orders)
    ensures exists n :: 0 <= n < |orders| && TripleOf(orders[n]) == Some(LabelTriple(r.manager, r.brand, r.asin))
    ensures r.totals == SumIf(orders, Amounts, OfTriple(LabelTriple(r.manager, r.brand, r.asin)))
  {
    var groups := PlainGroups(orders);
    var rows := PlainRows(orders, groups);
    assert r in multiset(PlainSummary(orders));
    var i :| 0 <= i < |rows| && rows[i] == r;
    assert groups[i] == LabelTriple(r.manager, r.brand, r.asin);
    PlainGroupSum(orders, groups[i]);
  }

  /** Every order with a Brand Manager and a Brand has its group's row in the
      sales_06.py View D. */
  lemma PlainRowPresent(orders: seq<Order>, n: nat)
    requires n < |orders| && orders[n].manager.Some? && orders[n].brand.Some?
    ensures var o := orders[n];
            exists r :: r in PlainSummary(orders) && r.manager == o.manager.value && r.brand == o.brand.value && r.asin == o.asin
  {
    var o := orders[n];
    var groups := PlainGroups(orders);
    var rows := PlainRows(orders, groups);
    assert TripleOf(o).Some?;
    var i :| 0 <= i < |groups| && groups[i] == TripleOf(o).value;
    assert rows[i] in multiset(rows);
    assert rows[i] in PlainSummary(orders);
  }
}
