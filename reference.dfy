/**
 * The product master: label normalisation, ASIN cleanup, the column-detection
 * policy, keep-first deduplication by ASIN and the per-attribute lookup maps
 * (the "VLOOKUP" mappings).
 */
module Reference {
  import opened Wrappers
  import opened Text
  import opened Seqs

  /** Which of the two scripts runs: app2.py maps Vendor SKU and adds total
      rows; sales_06.py does neither. */
  datatype Variant = App2 | Sales06

  /** A sheet as the reader delivers it: its labels and its rows of cells. */
  datatype Table = Table(columns: seq<string>, rows: seq<seq<Cell>>)

  datatype Source = Orders | ProductMaster

  /** Why a run aborts: a column that cannot be found (a KeyError or IndexError). */
  datatype Error = MissingColumn(source: Source, attribute: string)

  /** The cell at position `i` of a row; a short row reads as missing. */
  function CellAt(row: seq<Cell>, i: nat): (r: Cell) {
    if i < |row| then row[i] else Nan
  }

  /** The cell under label `name`, taken from the first column carrying it. */
  function CellUnder(columns: seq<string>, row: seq<Cell>, name: string): (c: Cell)
    ensures name !in columns ==> c == Nan
  {
    match IndexOf(columns, name)
    case None => Nan
    case Some(i) => CellAt(row, i)
  }

  /** `columns.str.strip().str.lower()`. */
  function NormalizeColumns(cols: seq<string>): (r: seq<string>)
    ensures |r| == |cols|
    ensures forall i :: 0 <= i < |cols| ==> r[i] == NormalizeLabel(cols[i])
  {
    seq(|cols|, i requires 0 <= i < |cols| => NormalizeLabel(cols[i]))
  }

  /** Normalising labels that are already normalised changes nothing. */
  lemma NormalizeColumnsIdempotent(cols: seq<string>)
    ensures NormalizeColumns(NormalizeColumns(cols)) == NormalizeColumns(cols)
  {
    forall i | 0 <= i < |cols|
      ensures NormalizeColumns(NormalizeColumns(cols))[i] == NormalizeColumns(cols)[i]
    {
      NormalizeLabelIdempotent(cols[i]);
    }
  }

  /** An ASIN cell as `astype(str).str.strip()` leaves it. */
  function CleanAsin(c: Cell): (a: string)
    ensures Trim(a) == a
    ensures c.Str? ==> a == Trim(c.text)
    ensures c.Num? ==> a == Trim(c.shown)
    ensures c.Nan? ==> a == "nan"
  {
    TrimIdempotent(AsText(c));
    Trim(AsText(c))
  }

  // ---- Column detection ----

  /** `i` is the first position whose label satisfies `p`. */
  predicate FirstSuch(cols: seq<string>, i: nat, p: string -> bool) {
    i < |cols| && p(cols[i]) && forall j :: 0 <= j < i ==> !p(cols[j])
  }

  /** The position of the first label satisfying `p` (the head of a list comprehension). */
  function FirstWhere(cols: seq<string>, p: string -> bool): (r: Option<nat>)
    ensures r.Some? ==> FirstSuch(cols, r.value, p)
    ensures r.None? ==> forall j :: 0 <= j < |cols| ==> !p(cols[j])
  {
    if cols == [] then None
    else if p(cols[0]) then Some(0)
    else
      var r := FirstWhere(cols[1..], p);
      if r.None? then None else Some(r.value + 1)
  }

  predicate IsManagerLabel(c: string) {
    Contains(c, "brand") && Contains(c, "manager")
  }

  predicate IsBrandLabel(c: string) {
    c == "brand"
  }

  predicate IsVendorLabel(c: string) {
    c == "vendor sku" || c == "vendor_sku" || c == "vendor sku code" || c == "vendor_sku_code"
  }

  predicate IsCostLabel(c: string) {
    c == "cp" || c == "cost price" || c == "cost"
  }

  /** The brand-manager column: the first label containing both "brand" and
      "manager"; with none, indexing the empty list aborts the run. */
  function ManagerColumn(cols: seq<string>): (r: Result<string, Error>)
    ensures r.Failure? <==> forall j :: 0 <= j < |cols| ==> !IsManagerLabel(cols[j])
    ensures r.Failure? ==> r.error == MissingColumn(ProductMaster, "brand manager")
    ensures r.Success? ==> exists i: nat :: FirstSuch(cols, i, IsManagerLabel) && r.value == cols[i]
  {
    match FirstWhere(cols, IsManagerLabel)
    case Some(i) => Success(cols[i])
    case None => Failure(MissingColumn(ProductMaster, "brand manager"))
  }

  /** The brand column: the first label equal to "brand"; none aborts the run. */
  function BrandColumn(cols: seq<string>): (r: Result<string, Error>)
    ensures r.Failure? <==> "brand" !in cols
    ensures r.Failure? ==> r.error == MissingColumn(ProductMaster, "brand")
    ensures r.Success? ==> r.value == "brand"
  {
    match FirstWhere(cols, IsBrandLabel)
    case Some(i) => Success(cols[i])
    case None => Failure(MissingColumn(ProductMaster, "brand"))
  }

  /** The Vendor SKU column: the first label among the accepted spellings,
      else the 4th column (`columns[3]`), which aborts when there are fewer. */
  function VendorColumn(cols: seq<string>): (r: Result<string, Error>)
    ensures (exists j :: 0 <= j < |cols| && IsVendorLabel(cols[j])) ==>
              r.Success? && exists i: nat :: FirstSuch(cols, i, IsVendorLabel) && r.value == cols[i]
    ensures (forall j :: 0 <= j < |cols| ==> !IsVendorLabel(cols[j])) ==>
              r == if |cols| > 3 then Success(cols[3]) else Failure(MissingColumn(ProductMaster, "vendor sku"))
  {
    match FirstWhere(cols, IsVendorLabel)
    case Some(i) => Success(cols[i])
    case None =>
      if |cols| > 3 then Success(cols[3]) else Failure(MissingColumn(ProductMaster, "vendor sku"))
  }

  /** The cost column: the first label among "cp", "cost price", "cost", else
      the 8th column (`columns[7]`), which aborts when there are fewer. */
  function CostColumn(cols: seq<string>): (r: Result<string, Error>)
    ensures (exists j :: 0 <= j < |cols| && IsCostLabel(cols[j])) ==>
              r.Success? && exists i: nat :: FirstSuch(cols, i, IsCostLabel) && r.value == cols[i]
    ensures (forall j :: 0 <= j < |cols| ==> !IsCostLabel(cols[j])) ==>
              r == if |cols| > 7 then Success(cols[7]) else Failure(MissingColumn(ProductMaster, "cost"))
  {
    match FirstWhere(cols, IsCostLabel)
    case Some(i) => Success(cols[i])
    case None =>
      if |cols| > 7 then Success(cols[7]) else Failure(MissingColumn(ProductMaster, "cost"))
  }

  // ---- Product rows ----

  /** The detected attribute labels; `vendor` is None where Vendor SKU is not mapped. */
  datatype Labels = Labels(manager: string, brand: string, vendor: Option<string>, cost: string)

  /** One product-master row, reduced to its ASIN and the four attributes. */
  datatype Product = Product(asin: string, manager: Cell, brand: Cell, vendor: Cell, cost: Cell)

  /** Reads one product-master row under normalised `cols`, with the ASIN at `asinAt`. */
  function ProductOf(cols: seq<string>, row: seq<Cell>, asinAt: nat, labels: Labels): (p: Product)
    ensures Trim(p.asin) == p.asin
    ensures p.asin == CleanAsin(CellAt(row, asinAt))
  {
    Product(
      CleanAsin(CellAt(row, asinAt)),
      CellUnder(cols, row, labels.manager),
      CellUnder(cols, row, labels.brand),
      if labels.vendor.Some? then CellUnder(cols, row, labels.vendor.value) else Nan,
      CellUnder(cols, row, labels.cost))
  }

  function ProductsOf(cols: seq<string>, rows: seq<seq<Cell>>, asinAt: nat, labels: Labels): (ps: seq<Product>)
    ensures |ps| == |rows|
    ensures forall i :: 0 <= i < |rows| ==> ps[i] == ProductOf(cols, rows[i], asinAt, labels)
  {
    seq(|rows|, i requires 0 <= i < |rows| => ProductOf(cols, rows[i], asinAt, labels))
  }

  /** The row filter `asin != "" & asin.notna() & asin != "nan"`; after
      `astype(str)` every value is present, so only the two texts matter. */
  predicate HasAsin(p: Product) {
    p.asin != "" && p.asin != "nan"
  }

  /** Drops product rows without a usable ASIN, keeping the others in order. */
  function CleanProducts(ps: seq<Product>): (r: seq<Product>)
    ensures forall i :: 0 <= i < |r| ==> r[i] in ps && r[i].asin != "" && r[i].asin != "nan"
    ensures forall i :: 0 <= i < |ps| && HasAsin(ps[i]) ==> ps[i] in r
    ensures IsSubseq(r, ps)
    ensures forall p :: multiset(r)[p] == if HasAsin(p) then multiset(ps)[p] else 0
  {
    WhereIsSubseq(ps, HasAsin);
    WhereCounts(ps, HasAsin);
    Where(ps, HasAsin)
  }

  /** After reading and cleanup every product ASIN is trimmed text other than "" and "nan". */
  lemma CleanedAsinsAreTrimmed(cols: seq<string>, rows: seq<seq<Cell>>, asinAt: nat, labels: Labels, i: nat)
    requires i < |CleanProducts(ProductsOf(cols, rows, asinAt, labels))|
    ensures var p := CleanProducts(ProductsOf(cols, rows, asinAt, labels))[i];
            Trim(p.asin) == p.asin && p.asin != "" && p.asin != "nan"
  {
    var ps := ProductsOf(cols, rows, asinAt, labels);
    var p := CleanProducts(ps)[i];
    assert p in ps;
    var k :| 0 <= k < |ps| && ps[k] == p;
    assert p == ProductOf(cols, rows[k], asinAt, labels);
  }

  // ---- Deduplication and lookup maps ----

  /** Reference definition of a lookup: the first row carrying ASIN `a`. */
  function FirstWithAsin(ps: seq<Product>, a: string): (r: Option<Product>)
    ensures r.Some? ==> r.value in ps && r.value.asin == a
    ensures r.Some? ==> exists i :: 0 <= i < |ps| && ps[i] == r.value && forall j :: 0 <= j < i ==> ps[j].asin != a
    ensures r.None? <==> forall i :: 0 <= i < |ps| ==> ps[i].asin != a
  {
    if ps == [] then None
    else if ps[0].asin == a then Some(ps[0])
    else FirstWithAsin(ps[1..], a)
  }

  /** Keep-first deduplication of the rows whose ASIN is not yet in `seen`. */
  function DedupFrom(ps: seq<Product>, seen: set<string>): (r: seq<Product>)
    ensures forall i :: 0 <= i < |r| ==> r[i] in ps && r[i].asin !in seen
    ensures forall i, j :: 0 <= i < j < |r| ==> r[i].asin != r[j].asin
  {
    if ps == [] then []
    else if ps[0].asin in seen then DedupFrom(ps[1..], seen)
    else [ps[0]] + DedupFrom(ps[1..], seen + {ps[0].asin})
  }

  /** `drop_duplicates(subset="asin", keep="first")`. */
  function DedupByAsin(ps: seq<Product>): (r: seq<Product>)
    ensures forall i :: 0 <= i < |r| ==> r[i] in ps
    ensures forall i, j :: 0 <= i < j < |r| ==> r[i].asin != r[j].asin
  {
    DedupFrom(ps, {})
  }

  lemma {:induction false} DedupFromFirst(ps: seq<Product>, seen: set<string>, a: string)
    ensures FirstWithAsin(DedupFrom(ps, seen), a) == if a in seen then None else FirstWithAsin(ps, a)
  {
    if ps != [] {
      if ps[0].asin in seen {
        DedupFromFirst(ps[1..], seen, a);
      } else {
        DedupFromFirst(ps[1..], seen + {ps[0].asin}, a);
      }
    }
  }

  /** Deduplication keeps, for every ASIN, exactly the row a first-match lookup finds. */
  lemma DedupKeepsFirst(ps: seq<Product>, a: string)
    ensures FirstWithAsin(DedupByAsin(ps), a) == FirstWithAsin(ps, a)
  {
    DedupFromFirst(ps, {}, a);
  }

  datatype Attribute = ManagerAttr | BrandAttr | VendorAttr | CostAttr

  function Attr(p: Product, at: Attribute): (r: Cell) {
    match at
    case ManagerAttr => p.manager
    case BrandAttr => p.brand
    case VendorAttr => p.vendor
    case CostAttr => p.cost
  }

  /** `set_index("asin")[column]`: ASIN to attribute, the earliest row winning. */
  function AttributeMap(u: seq<Product>, at: Attribute): (r: map<string, Cell>) {
    if u == [] then map[] else AttributeMap(u[1..], at)[u[0].asin := Attr(u[0], at)]
  }

  /** `Series.map(lookup)` on one ASIN: an ASIN without a match becomes NaN. */
  function MapLookup(m: map<string, Cell>, a: string): (c: Cell)
    ensures a !in m ==> c == Nan
  {
    if a in m then m[a] else Nan
  }

  /** What a first-match lookup of `a` yields for attribute `at`. */
  function FirstAttr(ps: seq<Product>, a: string, at: Attribute): (r: Cell) {
    match FirstWithAsin(ps, a)
    case None => Nan
    case Some(p) => Attr(p, at)
  }

  lemma {:induction false} AttributeMapFirst(u: seq<Product>, at: Attribute, a: string)
    ensures MapLookup(AttributeMap(u, at), a) == FirstAttr(u, a, at)
  {
    if u != [] {
      AttributeMapFirst(u[1..], at, a);
    }
  }

  /** Each lookup map gives an ASIN the attribute of its first product-master
      row; an ASIN with no row maps to missing. */
  lemma LookupKeepsFirst(ps: seq<Product>, at: Attribute, a: string)
    ensures MapLookup(AttributeMap(DedupByAsin(ps), at), a) == FirstAttr(ps, a, at)
    ensures (forall i :: 0 <= i < |ps| ==> ps[i].asin != a) ==>
              MapLookup(AttributeMap(DedupByAsin(ps), at), a) == Nan
  {
    AttributeMapFirst(DedupByAsin(ps), at, a);
    DedupKeepsFirst(ps, a);
  }

  lemma {:induction false} FirstWithAsinAppend(ps: seq<Product>, p: Product, a: string)
    requires exists i :: 0 <= i < |ps| && ps[i].asin == p.asin
    ensures FirstWithAsin(ps + [p], a) == FirstWithAsin(ps, a)
  {
    if ps != [] {
      assert (ps + [p])[1..] == ps[1..] + [p];
      if ps[0].asin != a && ps[0].asin != p.asin {
        FirstWithAsinAppend(ps[1..], p, a);
      } else if ps[0].asin != a {
        assert FirstWithAsin(ps + [p], a) == FirstWithAsin(ps[1..] + [p], a);
        LaterRowIrrelevant(ps[1..], p, a);
      }
    }
  }

  lemma {:induction false} LaterRowIrrelevant(ps: seq<Product>, p: Product, a: string)
    requires p.asin != a
    ensures FirstWithAsin(ps + [p], a) == FirstWithAsin(ps, a)
  {
    if ps != [] {
      assert (ps + [p])[1..] == ps[1..] + [p];
      LaterRowIrrelevant(ps[1..], p, a);
    }
  }

  /** A later product-master row repeating an ASIN never changes any lookup. */
  lemma LaterDuplicateIgnored(ps: seq<Product>, p: Product, at: Attribute, a: string)
    requires exists i :: 0 <= i < |ps| && ps[i].asin == p.asin
    ensures MapLookup(AttributeMap(DedupByAsin(ps + [p]), at), a)
         == MapLookup(AttributeMap(DedupByAsin(ps), at), a)
  {
    LookupKeepsFirst(ps + [p], at, a);
    LookupKeepsFirst(ps, at, a);
    FirstWithAsinAppend(ps, p, a);
  }

  /** The four lookup maps built from the deduplicated product master. */
  datatype Lookups = Lookups(manager: map<string, Cell>, brand: map<string, Cell>,
                             vendor: map<string, Cell>, cost: map<string, Cell>)

  function BuildLookups(ps: seq<Product>): (r: Lookups) {
    var u := DedupByAsin(ps);
    Lookups(AttributeMap(u, ManagerAttr), AttributeMap(u, BrandAttr),
            AttributeMap(u, VendorAttr), AttributeMap(u, CostAttr))
  }
}
