/**
 * The run behind the "Generate Analysis" button: the column look-ups that
 * abort it (a KeyError or IndexError in the scripts), the enriched and
 * filtered order table, and the four views computed from it.
 */
module Pipeline {
  import opened Wrappers
  import opened Text
  import opened Seqs
  import opened Reference
  import opened Enrich
  import opened Filtering
  import opened Views
  import opened Subtotals

  /** View D: app2.py's table with brand, manager and grand subtotals, or
      sales_06.py's plain Manager/Brand/ASIN table. */
  datatype Detail = WithSubtotals(rows: seq<DRow>) | PlainDetail(plainRows: seq<PlainRow>)

  /** Everything a successful run shows: the labels and rows of the
      "Processed Orders" sheet, Views A and B, View C and View D. */
  datatype Report = Report(
    labels: seq<string>,
    processed: seq<Order>,
    byManager: DatePivot,
    byBrand: DatePivot,
    brandAsin: seq<SummaryRow>,
    detail: Detail)

  // ---- The checks, in the order the scripts make them ----

  /** One check: passing, it defers to the checks after it. */
  function Check(ok: bool, e: Error, next: Option<Error>): (r: Option<Error>) {
    if ok then next else Some(e)
  }

  /** The first problem of `first`, else that of `next`. */
  function OrElse(first: Option<Error>, next: Option<Error>): (r: Option<Error>) {
    if first.Some? then first else next
  }

  predicate HasLabel(cols: seq<string>, p: string -> bool) {
    exists j :: 0 <= j < |cols| && p(cols[j])
  }

  /** The product-master label checks of steps 4-6: a Brand Manager column and
      a "brand" column must exist; Vendor SKU (app2.py only) and cost fall back
      to the 4th and 8th columns, which must exist and, since the lookup is
      indexed by "asin", must not be the ASIN column itself. */
  function LabelProblem(pcols: seq<string>, variant: Variant): (r: Option<Error>) {
    var vendorNamed := variant == Sales06 || HasLabel(pcols, IsVendorLabel);
    var costNamed := HasLabel(pcols, IsCostLabel);
    Check(HasLabel(pcols, IsManagerLabel), MissingColumn(ProductMaster, "brand manager"),
    Check("brand" in pcols, MissingColumn(ProductMaster, "brand"),
    Check(vendorNamed || |pcols| > 3, MissingColumn(ProductMaster, "vendor sku"),
    Check(vendorNamed || |pcols| <= 3 || pcols[3] != "asin", MissingColumn(ProductMaster, "asin"),
    Check(costNamed || |pcols| > 7, MissingColumn(ProductMaster, "cost"),
    Check(costNamed || |pcols| <= 7 || pcols[7] != "asin", MissingColumn(ProductMaster, "asin"),
    None))))))
  }

  /** The labels of the order sheet once "date" is added and all are
      normalised; each keeps the position of its raw column. */
  function OrderLabels(raw: seq<string>): (r: seq<string>) {
    NormalizeColumns(AddColumn(raw, "date"))
  }

  /** Every check of a run, in order: "purchase-date" under its raw label,
      "asin" in both normalised tables, the product-master labels, then the
      four order columns the filter reads. None of the labels the enrichment
      adds is one of those four, so they are looked up among the order
      sheet's own normalised labels. */
  function FirstProblem(raw: seq<string>, pmRaw: seq<string>, variant: Variant): (r: Option<Error>) {
    ProblemUnder(raw, NormalizeColumns(pmRaw), OrderLabels(raw), variant)
  }

  /** The same checks, with `pcols` and `ocols` the normalised labels of the
      product master and of the order sheet. */
  function ProblemUnder(raw: seq<string>, pcols: seq<string>, ocols: seq<string>, variant: Variant): (r: Option<Error>) {
    Check("purchase-date" in raw, MissingColumn(Orders, "purchase-date"),
    Check("asin" in pcols, MissingColumn(ProductMaster, "asin"),
    Check("asin" in ocols, MissingColumn(Orders, "asin"),
    OrElse(LabelProblem(pcols, variant),
    Check("quantity" in ocols, MissingColumn(Orders, "quantity"),
    Check("item-price" in ocols, MissingColumn(Orders, "item-price"),
    Check("product-name" in ocols, MissingColumn(Orders, "product-name"),
    Check("item-status" in ocols, MissingColumn(Orders, "item-status"),
    None))))))))
  }

  // ---- The stages ----

  /** `df[name]`: the position of the first label `name`, or the KeyError. */
  function Column(cols: seq<string>, name: string, source: Source): (r: Result<nat, Error>)
    ensures r.Failure? <==> name !in cols
    ensures r.Failure? ==> r.error == MissingColumn(source, name)
    ensures r.Success? ==> r.value < |cols| && cols[r.value] == name && name !in cols[..r.value]
  {
    match IndexOf(cols, name)
    case Some(i) => Success(i)
    case None => Failure(MissingColumn(source, name))
  }

  /** Lines 90-98 of app2.py: the Vendor SKU label, which must not be "asin"
      because the lookup is indexed by it; sales_06.py maps no Vendor SKU. */
  function VendorLabel(pcols: seq<string>, variant: Variant): (r: Result<Option<string>, Error>)
    ensures r.Failure? <==>
              variant == App2 && !HasLabel(pcols, IsVendorLabel) && (|pcols| <= 3 || pcols[3] == "asin")
    ensures r.Failure? ==>
              r.error == MissingColumn(ProductMaster, if |pcols| <= 3 then "vendor sku" else "asin")
    ensures r.Success? ==> (r.value.Some? <==> variant == App2)
    ensures r.Success? && r.value.Some? ==> r.value.value in pcols && r.value.value != "asin"
  {
    match variant
    case Sales06 => Success(None)
    case App2 =>
      match VendorColumn(pcols)
      case Failure(e) => Failure(e)
      case Success(v) => if v == "asin" then Failure(MissingColumn(ProductMaster, "asin")) else Success(Some(v))
  }

  /** Lines 104-110 of app2.py: the cost label, which must not be "asin" either. */
  function CostLabel(pcols: seq<string>): (r: Result<string, Error>)
    ensures r.Failure? <==> !HasLabel(pcols, IsCostLabel) && (|pcols| <= 7 || pcols[7] == "asin")
    ensures r.Failure? ==>
              r.error == MissingColumn(ProductMaster, if |pcols| <= 7 then "cost" else "asin")
    ensures r.Success? ==> r.value in pcols && r.value != "asin"
  {
    match CostColumn(pcols)
    case Failure(e) => Failure(e)
    case Success(c) => if c == "asin" then Failure(MissingColumn(ProductMaster, "asin")) else Success(c)
  }

  /** Steps 4-6 on the normalised product-master labels. */
  function DetectLabels(pcols: seq<string>, variant: Variant): (r: Result<Labels, Error>)
    ensures r.Failure? <==> LabelProblem(pcols, variant).Some?
    ensures r.Failure? ==> r.error == LabelProblem(pcols, variant).value
    ensures r.Success? ==>
              && (exists i: nat :: FirstSuch(pcols, i, IsManagerLabel) && r.value.manager == pcols[i])
              && r.value.brand == "brand"
              && (r.value.vendor.Some? <==> variant == App2)
              && (r.value.vendor.Some? ==> r.value.vendor.value in pcols && r.value.vendor.value != "asin")
              && r.value.cost in pcols && r.value.cost != "asin"
  {
    var manager :- ManagerColumn(pcols);
    var brand :- BrandColumn(pcols);
    var vendor :- VendorLabel(pcols, variant);
    var cost :- CostLabel(pcols);
    Success(Labels(manager, brand, vendor, cost))
  }

  /** The positions of the order columns the pipeline reads, under the
      normalised labels `c`; the date is read under the raw label. */
  function Positions(raw: seq<string>, c: seq<string>): (at: OrderColumns)
    requires "purchase-date" in raw
    requires "asin" in c && "quantity" in c && "item-price" in c
    requires "product-name" in c && "item-status" in c
    ensures at.purchaseDate < |raw| && raw[at.purchaseDate] == "purchase-date"
    ensures && at.asin < |c| && c[at.asin] == "asin"
            && at.quantity < |c| && c[at.quantity] == "quantity"
            && at.price < |c| && c[at.price] == "item-price"
            && at.productName < |c| && c[at.productName] == "product-name"
            && at.status < |c| && c[at.status] == "item-status"
  {
    var asin := IndexOf(c, "asin").value;
    var quantity := IndexOf(c, "quantity").value;
    var price := IndexOf(c, "item-price").value;
    var name := IndexOf(c, "product-name").value;
    var status := IndexOf(c, "item-status").value;
    OrderColumns(asin, quantity, price, name, status, IndexOf(raw, "purchase-date").value)
  }

  /** Lines 67-70: the product-master rows under the detected labels, with
      the rows lacking a usable ASIN dropped. */
  function Products(pm: Table, variant: Variant): (r: seq<Product>)
    requires "asin" in NormalizeColumns(pm.columns)
    requires LabelProblem(NormalizeColumns(pm.columns), variant).None?
  {
    ProductRows(NormalizeColumns(pm.columns), pm.rows, variant)
  }

  /** The same, under the normalised labels `pcols`. */
  function ProductRows(pcols: seq<string>, rows: seq<seq<Cell>>, variant: Variant): (r: seq<Product>)
    requires "asin" in pcols
    requires LabelProblem(pcols, variant).None?
  {
    CleanProducts(ProductsOf(pcols, rows, IndexOf(pcols, "asin").value, DetectLabels(pcols, variant).value))
  }

  /** Lines 75-79: the lookup maps of the deduplicated product master. */
  function ProductLookups(pm: Table, variant: Variant): (r: Lookups)
    requires "asin" in NormalizeColumns(pm.columns)
    requires LabelProblem(NormalizeColumns(pm.columns), variant).None?
  {
    BuildLookups(Products(pm, variant))
  }

  /** The rows of the "Processed Orders" sheet: each order row enriched, then filtered. */
  function Processed(orders: Table, pm: Table, variant: Variant, rd: Readers): (r: seq<Order>)
    requires FirstProblem(orders.columns, pm.columns, variant).None?
  {
    Where(EnrichRows(orders.rows, Positions(orders.columns, OrderLabels(orders.columns)), ProductLookups(pm, variant), variant, rd), Keep)
  }

  /** The report over the processed rows. */
  function ReportOf(w: seq<Order>, raw: seq<string>, variant: Variant): (r: Report) {
    Report(
      ProcessedLabels(raw, variant),
      w,
      DateView(w, ManagerKey, variant),
      DateView(w, BrandKey, variant),
      BrandAsinSummary(w, variant),
      if variant == App2 then WithSubtotals(SubtotalSummary(w)) else PlainDetail(PlainSummary(w)))
  }

  /** What a run produces: the first failing check's error, else the report. */
  function Generate(orders: Table, pm: Table, variant: Variant, rd: Readers): (r: Result<Report, Error>) {
    match FirstProblem(orders.columns, pm.columns, variant)
    case Some(e) => Failure(e)
    case None => Success(ReportOf(Processed(orders, pm, variant, rd), orders.columns, variant))
  }

  /** Lines 59-150 of app2.py (58-120 of sales_06.py): the working table
      rebuilt stage by stage; every look-up that can abort is made where the
      script makes it. */
  method Run(orders: Table, pm: Table, variant: Variant, rd: Readers) returns (r: Result<Report, Error>)
    ensures r == Generate(orders, pm, variant, rd)
  {
    // Step 1: the date, read under the raw label.
    if "purchase-date" !in orders.columns {
      return Failure(MissingColumn(Orders, "purchase-date"));
    }
    // Steps 2-3: labels normalised, then the ASIN columns of both tables.
    var pcols := NormalizeColumns(pm.columns);
    var ocols := OrderLabels(orders.columns);
    var pmAsin := Column(pcols, "asin", ProductMaster);
    if pmAsin.Failure? {
      return Failure(pmAsin.error);
    }
    var asin := Column(ocols, "asin", Orders);
    if asin.Failure? {
      return Failure(asin.error);
    }
    // Steps 4-6: the product-master labels, the lookup maps and the new columns.
    var detected := DetectLabels(pcols, variant);
    if detected.Failure? {
      return Failure(detected.error);
    }
    var lk := BuildLookups(CleanProducts(ProductsOf(pcols, pm.rows, pmAsin.value, detected.value)));
    assert lk == ProductLookups(pm, variant);
    var labels := MoveCostAfterPrice(EnrichedLabels(orders.columns, variant));
    if variant == App2 {
      labels := PlaceVendorAfterAsin(labels);
    }
    // Step 7: the columns the filter reads, then the filter itself.
    var quantity := Column(ocols, "quantity", Orders);
    if quantity.Failure? {
      return Failure(quantity.error);
    }
    var price := Column(ocols, "item-price", Orders);
    if price.Failure? {
      return Failure(price.error);
    }
    var name := Column(ocols, "product-name", Orders);
    if name.Failure? {
      return Failure(name.error);
    }
    var status := Column(ocols, "item-status", Orders);
    if status.Failure? {
      return Failure(status.error);
    }
    var at := OrderColumns(asin.value, quantity.value, price.value, name.value, status.value,
                           IndexOf(orders.columns, "purchase-date").value);
    var working := EnrichRows(orders.rows, at, lk, variant, rd);
    working := FilterOrders(working);
    assert FirstProblem(orders.columns, pm.columns, variant).None?;
    assert at == Positions(orders.columns, ocols);
    assert working == Processed(orders, pm, variant, rd);
    assert labels == ProcessedLabels(orders.columns, variant);
    r := Success(Report(labels, working,
                        DateView(working, ManagerKey, variant),
                        DateView(working, BrandKey, variant),
                        BrandAsinSummary(working, variant),
                        if variant == App2 then WithSubtotals(SubtotalSummary(working))
                        else PlainDetail(PlainSummary(working))));
  }

  // ---- What a run promises ----

  /** An order row is on the processed sheet exactly when its enriched form
      passes the filter, and its Brand Manager, Brand and cost are those of
      the first cleaned product-master row with its ASIN. */
  lemma ProcessedRow(orders: Table, pm: Table, variant: Variant, rd: Readers, i: nat)
    requires FirstProblem(orders.columns, pm.columns, variant).None?
    requires i < |orders.rows|
    ensures var ps := Products(pm, variant);
            var o := EnrichRow(orders.rows[i], Positions(orders.columns, OrderLabels(orders.columns)),
                               BuildLookups(ps), variant, rd);
            && (o in Processed(orders, pm, variant, rd) <==> Keep(o))
            && o.manager == KeyOf(FirstAttr(ps, o.asin, ManagerAttr))
            && o.brand == KeyOf(FirstAttr(ps, o.asin, BrandAttr))
            && o.cost == FillZero(ToNumeric(FirstAttr(ps, o.asin, CostAttr), rd.number))
  {
    var at := Positions(orders.columns, OrderLabels(orders.columns));
    var w := EnrichRows(orders.rows, at, ProductLookups(pm, variant), variant, rd);
    assert w[i] == EnrichRow(orders.rows[i], at, ProductLookups(pm, variant), variant, rd);
    EnrichedFromFirstProduct(Products(pm, variant), orders.rows[i], at, variant, rd);
  }

  /** A failed run that blames the order sheet names a label the sheet lacks:
      "purchase-date" among its raw labels, any other among its normalised ones. */
  lemma OrderErrorNamesMissingLabel(orders: Table, pm: Table, variant: Variant, rd: Readers)
    requires Generate(orders, pm, variant, rd).Failure?
    requires Generate(orders, pm, variant, rd).error.source == Orders
    ensures var a := Generate(orders, pm, variant, rd).error.attribute;
            if a == "purchase-date" then a !in orders.columns else a !in OrderLabels(orders.columns)
  {
    var pcols := NormalizeColumns(pm.columns);
    var lp := LabelProblem(pcols, variant);
    assert lp.Some? ==> lp.value.source == ProductMaster;
  }

  /** The order rows with their Vendor SKU dropped. */
  function WithoutVendor(os: seq<Order>): (r: seq<Order>)
    ensures |r| == |os|
    ensures forall i :: 0 <= i < |os| ==> r[i] == os[i].(vendorSku := None)
  {
    seq(|os|, i requires 0 <= i < |os| => os[i].(vendorSku := None))
  }

  function StripSku(o: Order): (r: Order) { o.(vendorSku := None) }

  function StripVendor(p: Product): (r: Product) { p.(vendor := Nan) }

  /** sales_06.py is app2.py without the Vendor SKU: wherever app2.py's
      checks pass, so do sales_06.py's, and both keep the same order rows,
      equal in every field but Vendor SKU. */
  lemma VariantsAgreeOnOrders(orders: Table, pm: Table, rd: Readers)
    requires FirstProblem(orders.columns, pm.columns, App2).None?
    ensures FirstProblem(orders.columns, pm.columns, Sales06).None?
    ensures WithoutVendor(Processed(orders, pm, App2, rd)) == Processed(orders, pm, Sales06, rd)
  {
    var pcols := NormalizeColumns(pm.columns);
    LabelsAgree(pcols);
    ProductsAgree(pcols, pm.rows);
    OrdersAgree(orders.rows, Positions(orders.columns, OrderLabels(orders.columns)),
                Products(pm, App2), Products(pm, Sales06), rd);
  }

  /** Enriching and filtering against product lists equal but for the Vendor
      SKU keeps the same orders, equal but for the Vendor SKU. */
  lemma OrdersAgree(rows: seq<seq<Cell>>, at: OrderColumns, pa: seq<Product>, ps: seq<Product>, rd: Readers)
    requires |pa| == |ps|
    requires forall i :: 0 <= i < |pa| ==> StripVendor(pa[i]) == ps[i]
    ensures WithoutVendor(Where(EnrichRows(rows, at, BuildLookups(pa), App2, rd), Keep))
         == Where(EnrichRows(rows, at, BuildLookups(ps), Sales06, rd), Keep)
  {
    var wa := EnrichRows(rows, at, BuildLookups(pa), App2, rd);
    var ws := EnrichRows(rows, at, BuildLookups(ps), Sales06, rd);
    forall i | 0 <= i < |rows|
      ensures StripSku(wa[i]) == ws[i]
    {
      EnrichedAgree(pa, ps, rows[i], at, rd);
    }
    FilteredAgree(wa, ws);
  }

  /** Filtering orders equal but for the Vendor SKU keeps the same orders. */
  lemma FilteredAgree(wa: seq<Order>, ws: seq<Order>)
    requires |wa| == |ws|
    requires forall i :: 0 <= i < |wa| ==> StripSku(wa[i]) == ws[i]
    ensures WithoutVendor(Where(wa, Keep)) == Where(ws, Keep)
  {
    forall i | 0 <= i < |wa|
      ensures Keep(wa[i]) == Keep(ws[i])
    {
      KeepIgnoresSku(wa[i]);
    }
    WhereAlong(wa, ws, StripSku, Keep, Keep);
    var fa := Where(wa, Keep);
    var fs := Where(ws, Keep);
    assert forall i :: 0 <= i < |fs| ==> WithoutVendor(fa)[i] == fs[i];
  }

  lemma KeepIgnoresSku(o: Order)
    ensures Keep(StripSku(o)) == Keep(o)
  {
  }

  /** The two variants read the same product rows, but for the Vendor SKU. */
  lemma ProductsAgree(pcols: seq<string>, rows: seq<seq<Cell>>)
    requires "asin" in pcols
    requires LabelProblem(pcols, App2).None?
    ensures LabelProblem(pcols, Sales06).None?
    ensures |ProductRows(pcols, rows, App2)| == |ProductRows(pcols, rows, Sales06)|
    ensures forall i :: 0 <= i < |ProductRows(pcols, rows, App2)| ==>
              StripVendor(ProductRows(pcols, rows, App2)[i]) == ProductRows(pcols, rows, Sales06)[i]
  {
    var asinAt := IndexOf(pcols, "asin").value;
    var la := DetectLabels(pcols, App2).value;
    var ls := DetectLabels(pcols, Sales06).value;
    LabelsAgree(pcols);
    var ra := ProductsOf(pcols, rows, asinAt, la);
    var rs := ProductsOf(pcols, rows, asinAt, ls);
    forall i | 0 <= i < |rows|
      ensures StripVendor(ra[i]) == rs[i] && HasAsin(ra[i]) == HasAsin(rs[i])
    {
    }
    WhereAlong(ra, rs, StripVendor, HasAsin, HasAsin);
  }

  /** Both variants detect the same Brand Manager, Brand and cost labels. */
  lemma LabelsAgree(pcols: seq<string>)
    requires LabelProblem(pcols, App2).None?
    ensures LabelProblem(pcols, Sales06).None?
    ensures DetectLabels(pcols, App2).value.(vendor := None) == DetectLabels(pcols, Sales06).value
  {
  }

  /** Enriching one row against product lists equal but for the Vendor SKU
      gives orders equal but for the Vendor SKU. */
  lemma EnrichedAgree(pa: seq<Product>, ps: seq<Product>, row: seq<Cell>, at: OrderColumns, rd: Readers)
    requires |pa| == |ps|
    requires forall i :: 0 <= i < |pa| ==> StripVendor(pa[i]) == ps[i]
    ensures StripSku(EnrichRow(row, at, BuildLookups(pa), App2, rd)) == EnrichRow(row, at, BuildLookups(ps), Sales06, rd)
  {
    var a := CleanAsin(CellAt(row, at.asin));
    FirstAgree(pa, ps, a);
    EnrichedFromFirstProduct(pa, row, at, App2, rd);
    EnrichedFromFirstProduct(ps, row, at, Sales06, rd);
  }

  /** First-match lookups on lists equal but for the Vendor SKU find rows
      equal but for the Vendor SKU. */
  lemma {:induction false} FirstAgree(pa: seq<Product>, ps: seq<Product>, a: string)
    requires |pa| == |ps|
    requires forall i :: 0 <= i < |pa| ==> StripVendor(pa[i]) == ps[i]
    ensures FirstAttr(pa, a, ManagerAttr) == FirstAttr(ps, a, ManagerAttr)
    ensures FirstAttr(pa, a, BrandAttr) == FirstAttr(ps, a, BrandAttr)
    ensures FirstAttr(pa, a, CostAttr) == FirstAttr(ps, a, CostAttr)
  {
    if pa != [] {
      assert StripVendor(pa[0]) == ps[0];
      FirstAgree(pa[1..], ps[1..], a);
    }
  }
}
