# Order enrichment and aggregation pipeline

There are two Streamlit scripts, `app2.py` and `sales_06.py`. Each runs one batch pipeline when the user presses "Generate Analysis", over two tables:

- an Amazon order report;
- a product master that gives each ASIN its brand, brand manager, vendor SKU and cost price.

The pipeline steps are:

1. Normalise the column labels.
2. Clean the ASINs and drop product rows without one.
3. Deduplicate the product master by ASIN, keeping the first row.
4. Build per-attribute lookup maps.
5. Left-join every order to those maps, coercing cost to a number.
6. Reorder the column list.
7. Filter out zero, nameless and cancelled rows.

Four views are built from the result:

- **A:** brand manager × date.
- **B:** brand × date.
- **C:** (brand, ASIN) summary with a grand total.
- **D:** (brand manager, brand, ASIN) summary. In `app2.py` it has brand subtotals, manager subtotals, a grand total and a multi-key sort. In `sales_06.py` it is a plain sorted pivot.

The two scripts are one model with a `Variant` switch (`App2 | Sales06`). The differences are:

- `sales_06.py` has no Vendor SKU;
- Views A and B have no total row in `sales_06.py`;
- View C's grand-total row writes its label in a different index slot;
- View D is plain in `sales_06.py`.

Modules follow the pipeline:

- `Text`: cells, trimming, lower-casing, `astype(str)`, `to_numeric`.
- `Reference`: label normalisation, ASIN cleanup, column detection, dedup, lookup maps.
- `Enrich`: the join and the column-list edits.
- `Filtering`: the row filter.
- `Sums`, `Views`, `Subtotals`: the aggregations.
- `Pipeline`: the handler end to end, with `Run` as the stepwise imperative version.

The handler's failures are modelled as the `Error` it returns (`MissingColumn(source, label)`). The first one it meets is reported, in this order:

1. no "purchase-date" among the raw order labels (app2.py:59);
2. no "asin" among the product-master labels;
3. no "asin" among the order labels (app2.py:68-69);
4. no product-master label containing both "brand" and "manager" (app2.py:74);
5. no "brand" label (app2.py:75);
6. app2 only: no vendor-SKU label, and the fourth label is missing or is "asin". In the second case the ASIN-indexed map has no such column (app2.py:88-100);
7. no cost label, and the eighth label is missing or is "asin" (app2.py:106-112);
8. no "quantity" among the order labels (app2.py:142);
9. no "item-price" (app2.py:143);
10. no "product-name" (app2.py:147);
11. no "item-status" (app2.py:150).

## Model

| member | source | states |
|---|---|---|
| Reference.NormalizeColumns | app2.py:63-64 | every label is replaced by its trimmed, lower-cased form, position by position |
| Reference.NormalizeColumnsIdempotent | sales_06.py:63-64 | normalising already normalised labels changes nothing |
| Text.Trim | app2.py:68-69 | the result is a slice of the input with only whitespace removed before and after it; it has no whitespace at either end, and is empty exactly when the input is all whitespace |
| Text.TrimIdempotent | app2.py:68-69 | trimming twice equals trimming once |
| Text.NormalizedHasNoCapitals | app2.py:63-64 | a normalised label contains no upper-case ASCII letter |
| Reference.CleanAsin | app2.py:68-69 | an ASIN cell becomes its text (or a number's displayed text) with surrounding whitespace stripped; a missing one becomes "nan"; the result is always trimmed |
| Reference.CleanProducts | app2.py:70 | the kept products are exactly those whose ASIN is neither "" nor "nan", in their original order, each kept as often as it occurs |
| Reference.CleanedAsinsAreTrimmed | sales_06.py:68-70 | every product left after cleanup has a trimmed ASIN that is neither "" nor "nan" |
| Reference.ManagerColumn | app2.py:74 | fails exactly when no label contains both "brand" and "manager"; otherwise it is the first such label |
| Reference.BrandColumn | app2.py:75 | fails exactly when "brand" is not a label; otherwise it is "brand" |
| Reference.VendorColumn | app2.py:88-96 | the first accepted vendor-SKU label if there is one; otherwise the fourth label, or a failure when there are fewer than four |
| Reference.CostColumn | app2.py:106-110 | the first of cp / cost price / cost if present; otherwise the eighth label, or a failure when there are fewer than eight (sales_06.py:89-93 has the same rule) |
| Reference.FirstWithAsin | app2.py:76 | returns the first product with the ASIN asked for (no earlier product has it), and returns none exactly when no product has it |
| Reference.DedupByAsin | app2.py:76 | the result has no two rows with the same ASIN, and every row is from the input |
| Reference.DedupKeepsFirst | app2.py:76 | after deduplication, the row found for an ASIN is the first input row with that ASIN |
| Reference.LookupKeepsFirst | app2.py:76-82 | each attribute map gives an ASIN the value from its first product-master row, and missing (NaN) for an ASIN no row has |
| Reference.LaterDuplicateIgnored | sales_06.py:76-82 | appending a row whose ASIN already occurs leaves every lookup unchanged |
| Enrich.EnrichRow | app2.py:81-115 | the order's ASIN is the cleaned cell; manager and brand are the looked-up values (missing when absent); Vendor SKU is text exactly in app2, "nan" for an unknown ASIN; cost is the coerced looked-up cost, or 0 when coercion fails; price is the coerced item-price; quantity, product-name and item-status are the row's own cells; the date is the parsed purchase-date; in app2 Vendor SKU is the text of the looked-up value |
| Enrich.VendorSkuOf | app2.py:98-100 | a Vendor SKU exists exactly in the app2 variant; a matched ASIN gets the text of its vendor entry, and an ASIN with no vendor entry gets "nan" |
| Enrich.CostOf | sales_06.py:95-99 | cost is the numeric looked-up value, or exactly 0 when it is missing or not numeric |
| Enrich.EnrichedFromFirstProduct | app2.py:76-115 | with maps built from a product list, an order's manager, brand, vendor and cost come from that list's first row with the order's ASIN; with no such row they are missing, missing, "nan" and 0 |
| Enrich.AddColumn | app2.py:59 | assigning the date column appends "date" to the labels when it is new and leaves them unchanged otherwise |
| Enrich.MoveAfter | app2.py:124 | pop-then-insert is a permutation that keeps the other labels in order; if x already followed the anchor it lands right after it; if x preceded it, the anchor shifts left and x lands one label further on, or at the end when the anchor was last |
| Enrich.MoveCostAfterPrice | app2.py:121-125 | the same move for "cost" after "item-price": a permutation, other labels in order, no change unless both are present (sales_06.py:102-106 is identical) |
| Enrich.PlaceVendorAfterAsin | app2.py:127-136 | the loop's result equals the reference reordering; labels are unchanged unless both are present; otherwise every "asin" is directly followed by "Vendor SKU" and the other labels keep their order |
| Enrich.VendorPlacedShape | app2.py:127-136 | after removing "Vendor SKU" and re-inserting it after each "asin", the other labels keep their order, each "asin" is followed by it, and its count follows the number of "asin" labels |
| Enrich.VendorPlacedPermutes | app2.py:127-136 | when labels are distinct, the reordering is a permutation and "Vendor SKU" directly follows "asin" |
| Filtering.FilterOrders | app2.py:142-150 | the four successive masks keep exactly the rows meeting all four conditions, as an order-preserving subsequence (sales_06.py:112-120 is identical) |
| Filtering.FilterStages | app2.py:142-150 | applying the quantity, price, name and status masks in turn equals one combined selection |
| Filtering.DroppedRowChangesNothing | app2.py:142-150 | a row failing any condition has no influence on the filtered table |
| Views.PivotDates | app2.py:203-215 | the date columns are ascending and distinct, and are exactly the dates of rows with a key |
| Views.PivotKeys | app2.py:203-215 | the row keys are ascending and distinct, and are exactly the non-missing keys of dated rows |
| Views.PivotByDate | sales_06.py:158-170 | the pivot has those dates as columns and those keys as rows, one cell per date |
| Views.PivotCellIsSum | app2.py:203-215 | each (key, date) cell is the quantity and price sum of the rows with that key and date, and 0 when there are none |
| Views.WithGrandTotal | app2.py:217-222 | one "Grand Total" row is appended after the unchanged rows, and each cell is the column sum of the rows above |
| Views.PivotColumnTotal | app2.py:243-262 | each pivot column sums to the total over all keyed rows on that date |
| Views.PivotGrandTotal | app2.py:243-262 | the grand-total cell of a date is the sum over all keyed rows on that date |
| Views.PivotOverallTotal | app2.py:217-222 | across all dates, the grand-total row adds up to the sum over every keyed, dated row |
| Views.DatePivotsAgree | app2.py:203-262 | when manager and brand are missing together, Views A and B have the same overall grand total |
| Views.BrandAsinGroups | app2.py:282-299 | the (brand, ASIN) groups are sorted by brand then ASIN, have no duplicates, and are exactly the groups of rows with a brand |
| Views.BrandAsinSummary | sales_06.py:222-251 | one row per group, in group order, then a grand-total row totalling the rows above; it is labelled ("Grand Total", "") in app2's (asin, Brand) index and in the brand slot of sales_06's (Brand, asin) index |
| Views.GrandRow | app2.py:301-311 | where each variant writes the "Grand Total" label, with the given totals |
| Views.BrandAsinRowIsSum | app2.py:282-299 | each summary row's quantity, price and cost are the sums over the rows of its (brand, ASIN) group |
| Views.BrandAsinGrandTotal | app2.py:301-311 | the grand-total row equals the sum over all rows with a brand |
| Subtotals.DLeIsTotalPreorder | app2.py:385-388 | the View D sort key (is_grand, manager, brand, order ascending; quantity descending; ties in ASIN order) is a total preorder |
| Subtotals.SubtotalSummary | app2.py:333-388 | the output is sorted by that key and is a permutation of base rows, brand subtotals, manager subtotals and the grand total |
| Subtotals.BaseRowIsSum | app2.py:333-338 | each base row sums its (ASIN, manager, brand) group, missing labels included |
| Subtotals.BrandSubtotalIsSum | app2.py:347-353 | a brand subtotal equals the sum of the filtered orders with that manager and brand |
| Subtotals.ManagerSubtotalIsSum | app2.py:355-363 | a manager subtotal equals the sum of the filtered orders with that manager |
| Subtotals.GrandTotalIsSum | app2.py:365-374 | the grand total equals the sum of all filtered orders |
| Subtotals.SubtotalRowMeaning | app2.py:333-380 | every output row is a base row of an occurring group, a "Brand Total" row, a "Manager Total" row with brand "" or the grand total, and its totals are the matching sum of orders |
| Subtotals.SubtotalRowsPresent | app2.py:333-380 | for each order, its base row, its brand subtotal and its manager subtotal (when those keys are present) and the grand total all appear in the output |
| Subtotals.GrandRowsLast | app2.py:383-388 | the last row is a grand-total row, and no non-grand row follows one |
| Subtotals.ManagerTotalFirst | app2.py:361-388 | in sorted output, a manager's subtotal (brand "") comes before every row of a named brand of that manager |
| Subtotals.BrandTotalAfterItsRows | app2.py:352-388 | in sorted output, a brand's subtotal comes after every base row of the same manager and brand |
| Subtotals.PlainLeIsTotalPreorder | sales_06.py:288-294 | the sort key (manager, brand ascending; quantity descending; ties in ASIN order) is a total preorder |
| Subtotals.PlainSummary | sales_06.py:272-297 | the output is sorted by that key and is a permutation of one row per (manager, brand, ASIN) group |
| Subtotals.PlainRowMeaning | sales_06.py:272-286 | each output row belongs to a group that occurs, and its totals are that group's quantity, price and cost sums |
| Subtotals.PlainRowPresent | sales_06.py:272-286 | every order with a manager and brand has its group's row in the output |
| Pipeline.Column | app2.py:142-150 | selecting a column fails exactly when its label is absent; otherwise it is the first position with that label |
| Pipeline.VendorLabel | app2.py:88-98 | a vendor column exists exactly in app2; detection fails only when no vendor label exists and the fourth label is absent, or is "asin" (the ASIN-indexed map then has no such column) |
| Pipeline.CostLabel | app2.py:106-112 | the cost column fails only when no cost label exists and the eighth label is absent or is "asin" |
| Pipeline.DetectLabels | app2.py:73-112 | detection fails exactly when the first label problem in handler order exists, and reports it; on success the manager, brand, vendor and cost labels are as detected and none is "asin" |
| Pipeline.Positions | app2.py:59-150 | every order column the pipeline reads is at an index carrying that label |
| Pipeline.Run | app2.py:59-388 | the stepwise handler returns what the whole-pipeline function gives: the first missing-column error, or the report built from the filtered orders |
| Pipeline.ProcessedRow | app2.py:76-150 | an order row reaches the views exactly when its enriched form passes the filter, with manager, brand and cost from the first product-master row with its ASIN |
| Pipeline.OrderErrorNamesMissingLabel | app2.py:59-150 | an error about the order table names a label the table lacks |
| Pipeline.VariantsAgreeOnOrders | sales_06.py:59-120 | an input app2 accepts is accepted by sales_06 too, and both give the same filtered orders except for Vendor SKU |

## Left out

- The Streamlit user interface, the Excel reading and writing and the ₹/Cr metric formatting are display only and are not modelled.
- Pipeline.Generate and Pipeline.Run do not model the "Top Brand / Top Manager" metrics (app2.py:173-177, sales_06.py:137-141), and so they miss one error path. `groupby(...).sum().idxmax()` raises on an empty grouping inside the `try`, before any view is built. So a batch where no filtered order has a Brand, or none has a Brand Manager, ends in an error in the scripts. That covers every ASIN unmatched, or every row filtered out. The model returns a report there.
- `pd.to_datetime(...).dt.date` and `pd.to_numeric(errors="coerce")` are parameters (`Readers.day`, `Readers.number`). A `None` from `Readers.day` stands for NaT. The exception pandas raises for an unparseable date is not modelled.
- The try/except wrapper is modelled only as the first `MissingColumn` error the handler hits. The exception text is not modelled.
- Amounts are exact reals: floating-point rounding in the sums is not modelled.
- Whitespace and case use ASCII letters and the common whitespace characters only. Unicode case folding is not modelled.
- Keys are compared as text (`KeyOf`). A numeric brand or manager is keyed by its displayed text, not by its numeric value.
- Subtotals.BrandRows and Subtotals.ManagerRows: app2 builds `Brand + " Total"` and `Brand Manager + " Total"` (app2.py:352, 362), which raises a TypeError for a numeric Brand or Brand Manager and aborts the whole run through the `except` at app2.py:438. The model builds the label from the displayed text and returns a report.
- Enrich.VendorSkuOf: each number cell has one fixed displayed text. In pandas, once an order ASIN is unmatched, `map` on an integer vendor column upcasts it to float, so `astype(str)` writes "12345.0" for every matched order of that batch. A fully matched batch would give "12345". This batch-dependent dtype is not modelled.
- Duplicate column labels resolve to the first one. A pandas frame would select all of them.
- An enriched `Order` keeps only the fields the pipeline reads or adds. Pass-through columns such as `sku` (app2.py:117-118) and `item-tax` are not part of it, so the processed sheet's other columns and the `astype(str)` of `sku` are not modelled. The column-label list, reordering included, is modelled separately (`Report.labels`).
- A text quantity is summed as 0 in the totals. pandas would raise or concatenate.
- Subtotals.SubtotalSummary: pandas' stable multi-key sort keeps tied rows in the order of the preceding `groupby`, which the model writes as an ASIN tiebreak. That no two output rows coincide is not stated.
- Subtotals.PlainSummary: the guard `if "Sum of quantity" in df_temp.columns` (sales_06.py:290) is taken as always true. It is false only for an empty pivot, where sorting changes nothing either.
- Views.PivotByDate: a pivot with no keyed, dated rows is modelled as an empty list of rows and dates. What pandas builds for such an empty frame is not modelled.
- The order-table labels are checked after normalisation, like every label except "purchase-date", which is read before normalisation (app2.py:59).
