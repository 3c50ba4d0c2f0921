/** The row filter applied to the enriched order table. */
module Filtering {
  import opened Wrappers
  import opened Text
  import opened Seqs
  import opened Enrich

  /** `quantity != 0`: only a numeric zero fails; NaN and text compare unequal to 0. */
  predicate QuantityNonZero(o: Order) {
    !(o.quantity.Num? && o.quantity.value == 0.0)
  }

  /** `item-price != 0` after coercion: NaN compares unequal to 0, so it survives. */
  predicate PriceNonZero(o: Order) {
    o.price != Some(0.0)
  }

  /** `product-name` present and, as trimmed text, neither "-" nor empty. */
  predicate HasProductName(o: Order) {
    && !o.productName.Nan?
    && Trim(AsText(o.productName)) != "-"
    && Trim(AsText(o.productName)) != ""
  }

  /** `item-status != "Cancelled"`: an exact, case-sensitive comparison. */
  predicate NotCancelled(o: Order) {
    o.status != Str("Cancelled")
  }

  /** The four conditions a row must meet to be kept. */
  predicate Keep(o: Order) {
    QuantityNonZero(o) && PriceNonZero(o) && HasProductName(o) && NotCancelled(o)
  }

  /** Lines 142-150 of app2.py (112-120 of sales_06.py): four successive mask
      selections of the working table. */
  method FilterOrders(w: seq<Order>) returns (r: seq<Order>)
    ensures r == Where(w, Keep)
    ensures forall o :: o in r <==> o in w && Keep(o)
    ensures IsSubseq(r, w)
  {
    r := Where(w, QuantityNonZero);
    r := Where(r, PriceNonZero);
    r := Where(r, HasProductName);
    r := Where(r, NotCancelled);
    FilterStages(w);
    WhereIsSubseq(w, Keep);
  }

  /** The four selections in turn select exactly the rows satisfying `Keep`. */
  lemma FilterStages(w: seq<Order>)
    ensures Where(Where(Where(Where(w, QuantityNonZero), PriceNonZero), HasProductName), NotCancelled)
         == Where(w, Keep)
  {
    WhereBoth(w, QuantityNonZero, PriceNonZero, AfterPrice);
    WhereBoth(w, AfterPrice, HasProductName, AfterName);
    WhereBoth(w, AfterName, NotCancelled, Keep);
  }

  predicate AfterPrice(o: Order) { QuantityNonZero(o) && PriceNonZero(o) }

  predicate AfterName(o: Order) { AfterPrice(o) && HasProductName(o) }

  /** A row that fails any condition leaves the filtered table, and hence
      every view computed from it, exactly as it was. */
  lemma DroppedRowChangesNothing(w: seq<Order>, o: Order)
    requires !Keep(o)
    ensures Where(w + [o], Keep) == Where(w, Keep)
  {
    WhereConcat(w, [o], Keep);
    assert Where([o], Keep) == [];
  }
}
