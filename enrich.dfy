/**
 * Enrichment of the order sheet: the left join of every order to the lookup
 * maps, the coerced cost and price, and the edits of the column-label list
 * that move `cost` and `Vendor SKU`.
 */
module Enrich {
  import opened Wrappers
  import opened Text
  import opened Seqs
  import opened Reference

  /** The two parsers the pipeline relies on: reading a text cell as a number
      (`pd.to_numeric`) and reading a purchase timestamp as a calendar day
      (`pd.to_datetime(...).dt.date`; None is NaT). */
  datatype Readers = Readers(number: string -> Option<real>, day: Cell -> Option<int>)

  /** One row of the working order table once it is enriched. `price` is
      `item-price` after numeric coercion (None is NaN); `vendorSku` is None
      where Vendor SKU is not mapped (sales_06.py). */
  datatype Order = Order(
    asin: string,
    quantity: Cell,
    price: Option<real>,
    productName: Cell,
    status: Cell,
    date: Option<int>,
    manager: Option<string>,
    brand: Option<string>,
    vendorSku: Option<string>,
    cost: real)

  /** Where the columns the pipeline reads sit in the order sheet. */
  datatype OrderColumns = OrderColumns(asin: nat, quantity: nat, price: nat,
                                       productName: nat, status: nat, purchaseDate: nat)

  /** Enriches one order row: the date, the coerced price, and the left join
      of its ASIN to the four lookup maps, with a missing or non-numeric cost
      becoming exactly 0 and a missing Vendor SKU becoming the text "nan". */
  function EnrichRow(row: seq<Cell>, at: OrderColumns, lk: Lookups, variant: Variant, rd: Readers): (o: Order)
    ensures o.asin == CleanAsin(CellAt(row, at.asin))
    ensures o.manager == KeyOf(MapLookup(lk.manager, o.asin))
    ensures o.brand == KeyOf(MapLookup(lk.brand, o.asin))
    ensures o.vendorSku.Some? <==> variant == App2
    ensures variant == App2 && o.asin !in lk.vendor ==> o.vendorSku == Some("nan")
    ensures ToNumeric(MapLookup(lk.cost, o.asin), rd.number).None? ==> o.cost == 0.0
    ensures ToNumeric(MapLookup(lk.cost, o.asin), rd.number).Some? ==>
              o.cost == ToNumeric(MapLookup(lk.cost, o.asin), rd.number).value
    ensures o.price == ToNumeric(CellAt(row, at.price), rd.number)
    ensures && o.quantity == CellAt(row, at.quantity)
            && o.productName == CellAt(row, at.productName)
            && o.status == CellAt(row, at.status)
            && o.date == rd.day(CellAt(row, at.purchaseDate))
    ensures variant == App2 ==> o.vendorSku == Some(AsText(MapLookup(lk.vendor, o.asin)))
  {
    var asin := CleanAsin(CellAt(row, at.asin));
    Order(
      asin,
      CellAt(row, at.quantity),
      ToNumeric(CellAt(row, at.price), rd.number),
      CellAt(row, at.productName),
      CellAt(row, at.status),
      rd.day(CellAt(row, at.purchaseDate)),
      KeyOf(MapLookup(lk.manager, asin)),
      KeyOf(MapLookup(lk.brand, asin)),
      VendorSkuOf(lk, asin, variant),
      CostOf(lk, asin, rd))
  }

  /** Vendor SKU after `map(...).astype(str)`: an unmatched ASIN gives "nan". */
  function VendorSkuOf(lk: Lookups, asin: string, variant: Variant): (v: Option<string>)
    ensures v.Some? <==> variant == App2
    ensures variant == App2 && asin !in lk.vendor ==> v == Some("nan")
    ensures variant == App2 && asin in lk.vendor ==> v == Some(AsText(lk.vendor[asin]))
  {
    if variant == App2 then Some(AsText(MapLookup(lk.vendor, asin))) else None
  }

  /** cost after `map(...)`, `to_numeric(errors="coerce")` and `fillna(0)`. */
  function CostOf(lk: Lookups, asin: string, rd: Readers): (c: real)
    ensures ToNumeric(MapLookup(lk.cost, asin), rd.number).None? ==> c == 0.0
    ensures ToNumeric(MapLookup(lk.cost, asin), rd.number).Some? ==>
              c == ToNumeric(MapLookup(lk.cost, asin), rd.number).value
  {
    FillZero(ToNumeric(MapLookup(lk.cost, asin), rd.number))
  }

  function EnrichRows(rows: seq<seq<Cell>>, at: OrderColumns, lk: Lookups, variant: Variant, rd: Readers): (os: seq<Order>)
    ensures |os| == |rows|
    ensures forall i :: 0 <= i < |rows| ==> os[i] == EnrichRow(rows[i], at, lk, variant, rd)
  {
    seq(|rows|, i requires 0 <= i < |rows| => EnrichRow(rows[i], at, lk, variant, rd))
  }

  /** The left join seen from the product master: every enriched attribute is
      that of the first product-master row with the order's ASIN, and an order
      whose ASIN has no row gets no manager, no brand, cost 0 and, in app2.py,
      the Vendor SKU text "nan". */
  lemma EnrichedFromFirstProduct(ps: seq<Product>, row: seq<Cell>, at: OrderColumns, variant: Variant, rd: Readers)
    ensures var o := EnrichRow(row, at, BuildLookups(ps), variant, rd);
            && o.manager == KeyOf(FirstAttr(ps, o.asin, ManagerAttr))
            && o.brand == KeyOf(FirstAttr(ps, o.asin, BrandAttr))
            && (variant == App2 ==> o.vendorSku == Some(AsText(FirstAttr(ps, o.asin, VendorAttr))))
            && o.cost == FillZero(ToNumeric(FirstAttr(ps, o.asin, CostAttr), rd.number))
    ensures var o := EnrichRow(row, at, BuildLookups(ps), variant, rd);
            (forall i :: 0 <= i < |ps| ==> ps[i].asin != o.asin) ==>
              && o.manager == None && o.brand == None && o.cost == 0.0
              && (variant == App2 ==> o.vendorSku == Some("nan"))
  {
    var a := CleanAsin(CellAt(row, at.asin));
    LookupKeepsFirst(ps, ManagerAttr, a);
    LookupKeepsFirst(ps, BrandAttr, a);
    LookupKeepsFirst(ps, VendorAttr, a);
    LookupKeepsFirst(ps, CostAttr, a);
  }

  // ---- The column-label list ----

  /** `df[name] = ...`: a new label goes last, an existing one keeps its place. */
  function AddColumn(cols: seq<string>, name: string): (r: seq<string>)
    ensures name in r
    ensures name in cols ==> r == cols
    ensures name !in cols ==> r == cols + [name]
  {
    if name in cols then cols else cols + [name]
  }

  /** The labels of the working table before any column is moved: "date"
      added, all labels normalised, then "Brand Manager", "Brand", in app2.py
      "Vendor SKU", and "cost". */
  function EnrichedLabels(raw: seq<string>, variant: Variant): (r: seq<string>) {
    var c := NormalizeColumns(AddColumn(raw, "date"));
    var c := AddColumn(AddColumn(c, "Brand Manager"), "Brand");
    var c := if variant == App2 then AddColumn(c, "Vendor SKU") else c;
    AddColumn(c, "cost")
  }

  /** `cols.insert(cols.index(anchor) + 1, cols.pop(cols.index(x)))`, done
      only when both are present. The insertion index is taken before the pop
      and `list.insert` clamps it to the list's length. */
  function MoveAfter<T(==)>(cols: seq<T>, anchor: T, x: T): (r: seq<T>)
    requires anchor != x
    ensures |r| == |cols| && multiset(r) == multiset(cols)
    ensures Without(r, x) == Without(cols, x)
    ensures anchor !in cols || x !in cols ==> r == cols
    ensures anchor in cols && x in cols ==>
              var p := IndexOf(cols, anchor).value;
              var c := IndexOf(cols, x).value;
              (p < c ==> r[..p + 1] == cols[..p + 1] && r[p + 1] == x)
    ensures anchor in cols && x in cols ==>
              var p := IndexOf(cols, anchor).value;
              var c := IndexOf(cols, x).value;
              (c < p && p + 1 < |cols| ==> r[p - 1] == anchor && r[p] == cols[p + 1] && r[p + 1] == x)
    ensures anchor in cols && x in cols ==>
              var p := IndexOf(cols, anchor).value;
              var c := IndexOf(cols, x).value;
              (c < p && p + 1 == |cols| ==> r[p - 1] == anchor && r[p] == x)
  {
    if anchor in cols && x in cols then
      var p := IndexOf(cols, anchor).value;
      var c := IndexOf(cols, x).value;
      MovedMultiset(cols, p, c);
      MovedWithout(cols, p, c);
      MovedPositions(cols, p, c);
      Moved(cols, p, c)
    else
      cols
  }

  /** Lines 121-125 (app2.py) and 102-106 (sales_06.py): `cost` moved after
      `item-price`. It lands immediately after `item-price` when it stood
      behind it; standing before it, it lands after the label that followed. */
  function MoveCostAfterPrice(cols: seq<string>): (r: seq<string>)
    ensures |r| == |cols| && multiset(r) == multiset(cols)
    ensures Without(r, "cost") == Without(cols, "cost")
    ensures "item-price" !in cols || "cost" !in cols ==> r == cols
    ensures "item-price" in cols && "cost" in cols ==>
              var p := IndexOf(cols, "item-price").value;
              var c := IndexOf(cols, "cost").value;
              (p < c ==> r[..p + 1] == cols[..p + 1] && r[p + 1] == "cost")
    ensures "item-price" in cols && "cost" in cols ==>
              var p := IndexOf(cols, "item-price").value;
              var c := IndexOf(cols, "cost").value;
              (c < p && p + 1 < |cols| ==> r[p - 1] == "item-price" && r[p] == cols[p + 1] && r[p + 1] == "cost")
    ensures "item-price" in cols && "cost" in cols ==>
              var p := IndexOf(cols, "item-price").value;
              var c := IndexOf(cols, "cost").value;
              (c < p && p + 1 == |cols| ==> r[p - 1] == "item-price" && r[p] == "cost")
  {
    MoveAfter(cols, "item-price", "cost")
  }

  /** Popping the element at `c` and re-inserting it at (clamped) `p + 1`. */
  function Moved<T>(cols: seq<T>, p: nat, c: nat): (r: seq<T>)
    requires c < |cols|
  {
    var popped := cols[..c] + cols[c + 1..];
    var at := if p + 1 <= |popped| then p + 1 else |popped|;
    popped[..at] + [cols[c]] + popped[at..]
  }

  /** The move is a permutation. */
  lemma MovedMultiset<T>(cols: seq<T>, p: nat, c: nat)
    requires c < |cols|
    ensures |Moved(cols, p, c)| == |cols| && multiset(Moved(cols, p, c)) == multiset(cols)
  {
    var x := cols[c];
    var popped := cols[..c] + cols[c + 1..];
    var at := if p + 1 <= |popped| then p + 1 else |popped|;
    var left, right := popped[..at], popped[at..];
    assert cols == cols[..c] + [x] + cols[c + 1..];
    assert multiset(cols) == multiset(popped) + multiset{x};
    assert popped == left + right;
    assert Moved(cols, p, c) == left + [x] + right;
  }

  /** The move leaves the other elements in their order. */
  lemma MovedWithout<T>(cols: seq<T>, p: nat, c: nat)
    requires c < |cols|
    ensures Without(Moved(cols, p, c), cols[c]) == Without(cols, cols[c])
  {
    var x := cols[c];
    var front, back := cols[..c], cols[c + 1..];
    var popped := front + back;
    var at := if p + 1 <= |popped| then p + 1 else |popped|;
    var left, right := popped[..at], popped[at..];
    SplitAt(popped, at);
    SplitAt(cols, c);
    WithoutDrop(front, back, x);
    WithoutDrop(left, right, x);
  }

  lemma SplitAt<T>(s: seq<T>, k: nat)
    requires k <= |s|
    ensures s == s[..k] + s[k..]
    ensures k < |s| ==> s == s[..k] + [s[k]] + s[k + 1..]
  {
  }

  lemma WithoutDrop<T>(a: seq<T>, b: seq<T>, x: T)
    ensures Without(a + [x] + b, x) == Without(a + b, x)
  {
    assert Without([x], x) == [];
    WithoutConcat(a + [x], b, x);
    WithoutConcat(a, [x], x);
    WithoutConcat(a, b, x);
  }

  /** Moving forward from behind `p` lands right after `p`; moving an element
      from before `p` lands one further, after the element that followed `p`. */
  lemma MovedPositions<T>(cols: seq<T>, p: nat, c: nat)
    requires p < |cols| && c < |cols| && p != c
    ensures |Moved(cols, p, c)| == |cols|
    ensures p < c ==> Moved(cols, p, c)[..p + 1] == cols[..p + 1] && Moved(cols, p, c)[p + 1] == cols[c]
    ensures c < p && p + 1 < |cols| ==>
              var r := Moved(cols, p, c);
              r[p - 1] == cols[p] && r[p] == cols[p + 1] && r[p + 1] == cols[c]
    ensures c < p && p + 1 == |cols| ==>
              var r := Moved(cols, p, c);
              r[p - 1] == cols[p] && r[p] == cols[c]
  {
  }

  // Vendor SKU placement

  /** The list the loop builds: every element, with `extra` appended after each `key`. */
  function AfterEach<T(==)>(cols: seq<T>, key: T, extra: T): (r: seq<T>) {
    if cols == [] then []
    else
      var last := cols[|cols| - 1];
      AfterEach(cols[..|cols| - 1], key, extra) + [last] + (if last == key then [extra] else [])
  }

  /** The label list after the Vendor SKU edit, as a function of the list before. */
  function VendorPlaced(cols: seq<string>): (r: seq<string>) {
    if "asin" in cols && "Vendor SKU" in cols
    then AfterEach(RemoveFirst(cols, "Vendor SKU"), "asin", "Vendor SKU")
    else cols
  }

  /** The loop keeps every element other than `extra` in its order. */
  lemma {:induction false} AfterEachWithout<T>(s: seq<T>, key: T, extra: T)
    requires key != extra
    ensures Without(AfterEach(s, key, extra), extra) == Without(s, extra)
  {
    if s != [] {
      var init, last := s[..|s| - 1], s[|s| - 1];
      AfterEachWithout(init, key, extra);
      var marks := if last == key then [extra] else [];
      assert Without(marks, extra) == [] by {
        assert Without([extra], extra) == [];
      }
      assert s == init + [last];
      assert AfterEach(s, key, extra) == (AfterEach(init, key, extra) + [last]) + marks;
      WithoutConcat(AfterEach(init, key, extra) + [last], marks, extra);
      WithoutConcat(AfterEach(init, key, extra), [last], extra);
      WithoutConcat(init, [last], extra);
    }
  }

  /** The `extra` elements the loop adds: one per `key`. */
  function Marks<T(==)>(s: seq<T>, key: T, extra: T): (m: seq<T>)
    ensures |m| == multiset(s)[key]
    ensures forall i :: 0 <= i < |m| ==> m[i] == extra
  {
    if s == [] then []
    else
      var init, last := s[..|s| - 1], s[|s| - 1];
      assert s == init + [last];
      Marks(init, key, extra) + (if last == key then [extra] else [])
  }

  /** The loop adds exactly its marks. */
  lemma {:induction false} AfterEachMultiset<T>(s: seq<T>, key: T, extra: T)
    ensures multiset(AfterEach(s, key, extra)) == multiset(s) + multiset(Marks(s, key, extra))
  {
    if s != [] {
      var init, last := s[..|s| - 1], s[|s| - 1];
      AfterEachMultiset(init, key, extra);
      var marks := if last == key then [extra] else [];
      assert s == init + [last];
      assert AfterEach(s, key, extra) == AfterEach(init, key, extra) + [last] + marks;
      assert Marks(s, key, extra) == Marks(init, key, extra) + marks;
    }
  }

  /** In the loop's result every `key` is immediately followed by `extra`. */
  lemma {:induction false} AfterEachFollows<T>(s: seq<T>, key: T, extra: T, i: nat)
    requires key != extra
    requires i < |AfterEach(s, key, extra)| && AfterEach(s, key, extra)[i] == key
    ensures i + 1 < |AfterEach(s, key, extra)| && AfterEach(s, key, extra)[i + 1] == extra
  {
    var init, last := s[..|s| - 1], s[|s| - 1];
    var a := AfterEach(init, key, extra);
    var tail := [last] + (if last == key then [extra] else []);
    assert AfterEach(s, key, extra) == a + tail;
    if i < |a| {
      AfterEachFollows(init, key, extra, i);
    } else {
      assert (a + tail)[i] == tail[i - |a|];
      assert i == |a| && last == key;
      assert (a + tail)[i + 1] == tail[1] == extra;
    }
  }

  lemma MarksCount<T>(s: seq<T>, key: T, extra: T)
    ensures multiset(Marks(s, key, extra))[extra] == multiset(s)[key]
  {
    var m := Marks(s, key, extra);
    assert m == seq(|m|, _ => extra);
    SameCount(|m|, extra);
  }

  lemma {:induction false} SameCount<T>(n: nat, x: T)
    ensures multiset(seq(n, _ => x))[x] == n
  {
    if n > 0 {
      assert seq(n, _ => x) == seq(n - 1, _ => x) + [x];
      SameCount(n - 1, x);
    }
  }

  /** Lines 128-136 of app2.py: when both "asin" and "Vendor SKU" are present,
      remove "Vendor SKU" and rebuild the list, appending it after each "asin". */
  method PlaceVendorAfterAsin(cols: seq<string>) returns (r: seq<string>)
    ensures r == VendorPlaced(cols)
    ensures !("asin" in cols && "Vendor SKU" in cols) ==> r == cols
    ensures "asin" in cols && "Vendor SKU" in cols ==>
              && Without(r, "Vendor SKU") == Without(cols, "Vendor SKU")
              && (forall i :: 0 <= i < |r| && r[i] == "asin" ==> i + 1 < |r| && r[i + 1] == "Vendor SKU")
              && multiset(r)["Vendor SKU"] == multiset(cols)["Vendor SKU"] - 1 + multiset(cols)["asin"]
  {
    r := cols;
    if "asin" in cols && "Vendor SKU" in cols {
      var rest := RemoveFirst(cols, "Vendor SKU");
      var newCols: seq<string> := [];
      for i := 0 to |rest|
        invariant newCols == AfterEach(rest[..i], "asin", "Vendor SKU")
      {
        assert rest[..i + 1][..i] == rest[..i];
        newCols := newCols + [rest[i]];
        if rest[i] == "asin" {
          newCols := newCols + ["Vendor SKU"];
        }
      }
      assert rest[..|rest|] == rest;
      r := newCols;
      VendorPlacedShape(cols);
    }
  }

  /** When both labels are present the edit keeps every other label in
      order, puts "Vendor SKU" right after each "asin", and uses up the one
      removed. */
  lemma VendorPlacedShape(cols: seq<string>)
    requires "asin" in cols && "Vendor SKU" in cols
    ensures var r := VendorPlaced(cols);
            && Without(r, "Vendor SKU") == Without(cols, "Vendor SKU")
            && (forall i :: 0 <= i < |r| && r[i] == "asin" ==> i + 1 < |r| && r[i + 1] == "Vendor SKU")
            && multiset(r)["Vendor SKU"] == multiset(cols)["Vendor SKU"] - 1 + multiset(cols)["asin"]
  {
    var rest := RemoveFirst(cols, "Vendor SKU");
    var r := VendorPlaced(cols);
    AfterEachWithout(rest, "asin", "Vendor SKU");
    AfterEachMultiset(rest, "asin", "Vendor SKU");
    MarksCount(rest, "asin", "Vendor SKU");
    forall i | 0 <= i < |r| && r[i] == "asin"
      ensures i + 1 < |r| && r[i + 1] == "Vendor SKU"
    {
      AfterEachFollows(rest, "asin", "Vendor SKU", i);
    }
    assert multiset(rest)["asin"] == multiset(cols)["asin"];
  }

  /** With distinct labels the Vendor SKU edit is a permutation of the list
      that puts "Vendor SKU" immediately after "asin". */
  lemma VendorPlacedPermutes(cols: seq<string>)
    requires "asin" in cols && "Vendor SKU" in cols
    requires NoDup(cols)
    ensures multiset(VendorPlaced(cols)) == multiset(cols)
    ensures "asin" in VendorPlaced(cols)
    ensures var r := VendorPlaced(cols);
            var k := IndexOf(r, "asin").value;
            k + 1 < |r| && r[k + 1] == "Vendor SKU"
  {
    AfterEachPermutes(cols, "asin", "Vendor SKU");
  }

  /** With distinct elements, removing `extra` and re-adding it after `key`
      is a permutation placing `extra` right after `key`. */
  lemma AfterEachPermutes<T>(cols: seq<T>, key: T, extra: T)
    requires key in cols && extra in cols && key != extra
    requires NoDup(cols)
    ensures var r := AfterEach(RemoveFirst(cols, extra), key, extra);
            && multiset(r) == multiset(cols)
            && key in r
            && IndexOf(r, key).value + 1 < |r| && r[IndexOf(r, key).value + 1] == extra
  {
    var rest := RemoveFirst(cols, extra);
    var r := AfterEach(rest, key, extra);
    RemoveOneOfDistinct(cols, key, extra);
    AfterEachMultiset(rest, key, extra);
    assert Marks(rest, key, extra) == [extra];
    assert key in multiset(r);
    AfterEachFollows(rest, key, extra, IndexOf(r, key).value);
  }

  lemma RemoveOneOfDistinct<T>(cols: seq<T>, key: T, extra: T)
    requires key in cols && extra in cols && key != extra
    requires NoDup(cols)
    ensures multiset(RemoveFirst(cols, extra))[key] == 1
    ensures multiset(RemoveFirst(cols, extra)) + multiset{extra} == multiset(cols)
  {
    NoDupCount(cols, extra);
    NoDupCount(cols, key);
  }

  /** The labels of the processed order sheet. */
  function ProcessedLabels(raw: seq<string>, variant: Variant): (r: seq<string>) {
    var c := MoveCostAfterPrice(EnrichedLabels(raw, variant));
    if variant == App2 then VendorPlaced(c) else c
  }
}
