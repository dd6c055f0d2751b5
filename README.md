# POSaBIT sales ingestion and low-stock report, modelled in Dafny

This project models the two pieces of domain logic of the POSaBIT sync service.

- **The sale webhook** receives one point-of-sale event. It pulls out a sale id and a list of line items, trying several known field names for each, and normalises every item to `{sku, qty, name, vendor}`. It drops items without a truthy sku or a positive quantity. From the surviving lines it builds one `sales_lines` row each and one `products` row per line that has a name or a vendor. Then it writes them: products first, sales second.
- **The low-stock report** clamps its three query parameters (lookback, lead and safety days). It totals the units sold per SKU over the sales rows of the window and indexes inventory and products by SKU. For every SKU that was sold or is stocked it computes the daily rate, reorder point, target stock, order quantity, days of supply and estimated cost. Finally it ranks the rows by days of supply, then by order size.

Files:

- `wrappers.dfy`: `Option` and `Result`.
- `js_value.dfy` (module `JsValue`): the JavaScript semantics the handlers rely on. Parsed JSON values are a datatype, with objects as maps. It defines truthiness, optional chaining, `??` (`FirstPresent`), `Number(...)` with `NaN`, `Math.max`, `Math.ceil` and `String(...)`.
- `webhook.dfy` (module `Webhook`): pure functions and lemmas. The source is an expression chain of `??`, `map` and `filter`.
- `low_stock.dfy` (module `LowStock`): the loops are methods with loop invariants. These are the `sumBySku` loop, the row-building loop over the SKU set, and the in-place `rows.sort`, an insertion sort on an `array`. Each method is proved against a specification function (`SalesTotals`, `ComputeRow`, `SortedRows`). The per-row arithmetic uses pure functions.

Inputs that the source obtains by I/O are parameters here:
- the `JSON.parse` result (`Option<Json>`; `None` is a parse failure);
- the ingestion timestamp `ts`;
- whether each store write succeeds;
- the query strings (`Option<string>`; `None` is an absent parameter);
- the three store reads (`sales`, `inv`, `prods`).

Points where the code's behaviour is easy to misread, and which the model follows:

- The report's defaults apply through `url.searchParams.get(x) || 14`. The `||` tests the query string, so only an absent or empty parameter takes the default. An explicit `"0"` is truthy and is kept: lead and safety become 0, and lookback is clamped up to 1 (`ZeroParameterIsKept`).
- A non-numeric parameter gives `NaN`, and `Math.max` keeps it. A `NaN` lookback makes the `since` date invalid, so `toISOString` throws and the report fails (`Report`, `NonNumericLookbackIsNaN`). A `NaN` lead or safety has no error path. It carries into reorder point, target and order quantity (`NaNParameterRow`).
- The webhook does not always acknowledge. Three TypeErrors can escape outside its `try` block, and the reply is then an uncaught error (`Handle`, `Deliver`):
  - the items value is present but is not an array (a string or an object, say), so `items.map` throws;
  - an item's quantity is an object with its own `toString` property (or an array holding one), so `Number(...)` throws inside the map callback. This happens even for an item the filter would drop (`ObjectQuantityAborts`);
  - the sale id is such an object and at least one line survives, so `String(saleId)` throws (`ObjectSaleIdAborts`).
- A non-numeric quantity coerces to `NaN` rather than 0. The line is dropped either way.

## Model

| member | source | states |
|---|---|---|
| `JsValue.Truthy` | api/posabit/webhook.js:65 | A JSON value is falsy exactly when it is `null`, `false`, `0` or `""`. |
| `JsValue.FirstPresent` | api/posabit/webhook.js:55-60 | `a ?? b ?? … ?? d`: the first candidate that is neither undefined nor null is the result; the default is taken only when every candidate is nullish; the result is always the default or one of the present candidates. |
| `JsValue.StringToNumber` | api/posabit/webhook.js:61 | `Number(text)` is negative only when the trimmed text starts with `-`. |
| `JsValue.FractionTextExample` | api/posabit/webhook.js:61 | `Number("2.5")` is 2.5. |
| `JsValue.SignedPaddedTextExample` | api/posabit/webhook.js:61 | `Number(" -0.75\n")` is −0.75: surrounding white space is ignored and `-` negates. |
| `JsValue.LeadingDotTextExample` | api/posabit/webhook.js:61 | `Number(".5")` is 0.5. |
| `JsValue.TrailingDotTextExample` | api/posabit/webhook.js:61 | `Number("5.")` is 5. |
| `JsValue.LoneDotTextExample` | api/posabit/webhook.js:61 | `Number(".")` is NaN. |
| `JsValue.BlankAndMalformedTextExamples` | api/posabit/webhook.js:61 | `Number("  ")` is 0; `Number("-")` and `Number("1.2.3")` are NaN. |
| `JsValue.ObjectTextIsNaN` | api/posabit/webhook.js:61 | `"[object Object]"`, the text of a plain object, is not a number. |
| `JsValue.ToNumber` | api/posabit/webhook.js:61 | Where `String(v)` is rendered, `Number(v)` equals `Number(String(v))`, for every value except `null` and booleans. |
| `JsValue.StringOf` | api/posabit/webhook.js:76 | `String(v)` throws exactly when converting `v` to a primitive does, that is, when `v` is an object with its own `toString` or an array holding one. A string is its own text; a plain object renders as `"[object Object]"`. Every number it renders reads back through `Number` as the same number. |
| `JsValue.ToPrimitiveThrows` | api/posabit/webhook.js:61 | (also `String(saleId)` at line 76) Only an object (with its own `toString`) or a non-empty array (holding such a value) makes the conversion to a primitive throw; `null`, booleans, numbers and strings never do. |
| `JsValue.Max` | api/posabit/api/report/low-stock.js:18-20 | (also line 42) `Math.max(a, b)` is a number exactly when both operands are; it is then at least each of them and equal to one of them. |
| `JsValue.CeilNum` | api/posabit/api/report/low-stock.js:42 | (also line 51) `Math.ceil(a)` is NaN exactly when `a` is; otherwise it is a whole number at least `a` and less than `a + 1`. |
| `JsValue.CeilIsLeastUpperInteger` | api/posabit/api/report/low-stock.js:51 | `Ceil(x) = -((-x).Floor)` is the least integer at or above `x`. |
| `JsValue.CeilMinusInteger` | api/posabit/api/report/low-stock.js:42 | `Ceil(x - n) == Ceil(x) - n` for an integer `n`. |
| `JsValue.IntegerTextRoundTrip` | api/posabit/webhook.js:76 | `String(saleId)` of an integer id below 10^21 is exact text: `Number` reads it back as the same value. |
| `Webhook.ParsedEvent` | api/posabit/webhook.js:43-50 | A parsed body is the event. An unparsable body keeps the text under `raw`; its sale id is `""` and its item list is `[]`, so it never throws. |
| `Webhook.SaleId` | api/posabit/webhook.js:47 | The sale id is `sale.id`, else `sale_id`, else `id` (each taken when not nullish, even if empty), else `""`. |
| `Webhook.ItemsValue` | api/posabit/webhook.js:50 | The items value is `sale.line_items`, else `items`, else `line_items`, else `[]`. |
| `Webhook.Items` | api/posabit/webhook.js:50-53 | `items.map` throws exactly when the chosen value is a string, number, boolean or object (never for null, which `??` skips). Otherwise the items are that array. With no items field at all they are `[]`. |
| `Webhook.ProductOf` | api/posabit/webhook.js:54 | A truthy `li.product` answers every field lookup as `li.product` does. Otherwise the product is `{}`, which holds no field. |
| `Webhook.ResolveSku` | api/posabit/webhook.js:55-60 | sku is `product.sku`, else `sku`, else `SKU`, else `product_sku`, else `""`; the first non-nullish value wins even when empty. |
| `Webhook.QtySource` | api/posabit/webhook.js:61 | The value converted is `quantity`, else `qty`, else 0, each taken when not nullish. |
| `Webhook.ResolveQty` | api/posabit/webhook.js:61 | qty is `Number(quantity)`, else `Number(qty)`, else 0. |
| `Webhook.ResolveName` | api/posabit/webhook.js:62 | name is `product.name`, else `name`, else null. |
| `Webhook.ResolveVendor` | api/posabit/webhook.js:63 | vendor is `product.brand`, else `product.vendor`, else null. |
| `Webhook.NormalizeItem` | api/posabit/webhook.js:53-64 | An item that is not an object (null, a string, a number) normalises to sku `""`, qty 0, no name and no vendor. Only an object item can be accepted. |
| `Webhook.Accepted` | api/posabit/webhook.js:65 | A line passes exactly when its sku is not a falsy value and its qty is a number above 0 (not NaN). |
| `Webhook.NormalizeLines` | api/posabit/webhook.js:53-65 | Every emitted line has a truthy sku and `qty > 0` (so not NaN); there are at most as many lines as items. |
| `Webhook.FilterMapExact` | api/posabit/webhook.js:53-65 | `filter`/`map` keep exactly the elements that pass, in their original order: the k-th output is the image of the k-th passing position. |
| `Webhook.NormalizeLinesExact` | api/posabit/webhook.js:53-65 | The lines are an order-preserving subsequence of the mapped items, containing every mapped item that passes the filter and no other. |
| `Webhook.NoLinesIffNoneAccepted` | api/posabit/webhook.js:65-67 | No line survives if and only if no mapped item passes the filter. |
| `Webhook.EmptyProductSkuDropsItem` | api/posabit/webhook.js:54-65 | An empty `product.sku` stops the sku chain: the item's own `sku` is ignored and the item is dropped. |
| `Webhook.NonPositiveQuantityDropsItem` | api/posabit/webhook.js:61-65 | An item whose quantity coerces to NaN, 0 or a negative number never appears among the lines. |
| `Webhook.SalesRows` | api/posabit/webhook.js:75-81 | One sales row per line, in order, with that line's sku and qty; every row carries the same `ts`, the same `String(saleId)` and the whole event. |
| `Webhook.HasCatalogInfo` | api/posabit/webhook.js:85 | A line yields no product row exactly when both its name and its vendor are falsy. |
| `Webhook.ProductRows` | api/posabit/webhook.js:84-90 | Every product row has a truthy name or vendor; there are at most as many product rows as lines. |
| `Webhook.ProductRowsExact` | api/posabit/webhook.js:84-90 | The product rows are exactly the lines with a truthy name or vendor, in order, with sku, name and vendor copied unchanged. |
| `Webhook.Handle` | api/posabit/webhook.js:50-90 | The outcomes are checked in the source's order. A non-array items value aborts. Otherwise a quantity that `Number` cannot convert aborts. Otherwise no surviving line means nothing to store. Otherwise a sale id that `String` cannot convert aborts. Otherwise the plan holds the sales rows and product rows of the lines, with at least one sales row. Each case holds if and only if its condition does. |
| `Webhook.Deliver` | api/posabit/webhook.js:92-100 | No store call without rows: the reply is `received: 0`, or the uncaught error for an aborted plan. With rows there is exactly one upsert when there are product rows, plus exactly one insert when the upsert was skipped or succeeded, and no other call. The product upsert (keyed by sku) comes first. The insert comes last, and only if the upsert was skipped or succeeded. The reply is `inserted: n` exactly when the insert was issued and succeeded, otherwise the soft failure. |
| `Webhook.ObjectQuantityAborts` | api/posabit/webhook.js:53-61 |`{ items: [{ quantity: { toString: 1 } }] }` aborts on the quantity, although that item has no sku. |
| `Webhook.ObjectSaleIdAborts` | api/posabit/webhook.js:61-76 | `{ sale_id: { toString: 1 }, items: [{ sku: "A", quantity: 1 }] }` aborts on the sale id. |
| `Webhook.UnparsableBodyStoresNothing` | api/posabit/webhook.js:44-69 | An unparsable body issues no store call and replies `received: 0`. |
| `Webhook.NoLinesNoWrites` | api/posabit/webhook.js:53-69 | When no item passes the filter, nothing is written. The reply is `received: 0` unless a quantity conversion threw first. |
| `LowStock.ClampParam` | api/posabit/api/report/low-stock.js:18-20 | An absent or empty parameter gives `max(lo, default)`. Otherwise the result is NaN exactly when the string is not numeric, and `max(lo, value)` when it is. A numeric result is never below `lo`. |
| `LowStock.Lookback` | api/posabit/api/report/low-stock.js:18 | lookback is 14 when the parameter is absent or empty; a numeric lookback is at least 1. |
| `LowStock.Lead` | api/posabit/api/report/low-stock.js:19 | lead is 7 when the parameter is absent or empty; a numeric lead is at least 0. |
| `LowStock.Safety` | api/posabit/api/report/low-stock.js:20 | safety is 3 when the parameter is absent or empty; a numeric safety is at least 0. |
| `LowStock.ParameterDefaults` | api/posabit/api/report/low-stock.js:18-20 | Absent or empty parameters give lookback 14, lead 7, safety 3. |
| `LowStock.ZeroParameterIsKept` | api/posabit/api/report/low-stock.js:18-20 | `"0"` gives lead 0 and safety 0 (no fallback) and lookback 1. |
| `LowStock.NegativeParameterIsClamped` | api/posabit/api/report/low-stock.js:18-20 | A negative lead becomes 0 and a negative lookback becomes 1. |
| `LowStock.NonNumericLookbackIsNaN` | api/posabit/api/report/low-stock.js:18 | A non-numeric lookback stays NaN through `Math.max`. |
| `LowStock.Qty` | api/posabit/api/report/low-stock.js:28 | `Number(s.qty \|\| 0)` is 0 exactly when `qty` is null or 0, and is `qty` otherwise. |
| `LowStock.SalesTotalsSnoc` | api/posabit/api/report/low-stock.js:28 | A further sales row adds its `qty \|\| 0` to its own SKU's total when the SKU is truthy, and changes nothing otherwise. |
| `LowStock.TotalOfUnsold` | api/posabit/api/report/low-stock.js:28 | A SKU without sales rows totals 0. |
| `LowStock.SumBySku` | api/posabit/api/report/low-stock.js:27-28 | The loop yields, for each truthy SKU of the sales rows, the sum of `qty` over that SKU's rows, and no other key; a falsy SKU contributes to no key. |
| `LowStock.IndexBy` | api/posabit/api/report/low-stock.js:29-30 | The index has a key for exactly the SKUs of the rows, and maps each to the last row with that SKU. |
| `LowStock.ReportSkus` | api/posabit/api/report/low-stock.js:31 | The SKU universe is exactly the truthy sold SKUs together with the inventory SKUs. |
| `LowStock.TotalFor` | api/posabit/api/report/low-stock.js:35 | The units sold are 0 exactly when the SKU has no total or a total of 0, and are its total otherwise. |
| `LowStock.OnHandFor` | api/posabit/api/report/low-stock.js:37-47 | Stock on hand is 0 exactly when the SKU has no inventory row or a null or 0 `on_hand`, and is that `on_hand` otherwise. |
| `LowStock.ComputeRow` | api/posabit/api/report/low-stock.js:35-56 | daily × lookback = units sold. on_hand is the inventory value, or 0 with no update time when the row is missing. reorder_point_days = lead + safety. order_qty is a whole number ≥ 0, and is NaN exactly when lead or safety is. Days of supply exist exactly when daily > 0, and then days × daily = on_hand. A missing product gives null name, vendor and cost, and a product row gives its name, vendor and cost (`unit_cost`). `est_cost` is null exactly when cost is null or 0, and is cost × order_qty otherwise. |
| `LowStock.RowArithmetic` | api/posabit/api/report/low-stock.js:40-51 | With numeric lead and safety: reorder point = lead + safety; target = ⌈daily·reorderDays⌉; order = max(0, ⌈daily·reorderDays − on_hand⌉). |
| `LowStock.WholeStockOrder` | api/posabit/api/report/low-stock.js:42-51 | For a whole number on hand, the order is exactly max(0, target − on_hand). |
| `LowStock.NaNParameterRow` | api/posabit/api/report/low-stock.js:40-54 | A NaN lead or safety gives NaN reorder point, target and order, and a null or NaN est_cost. |
| `LowStock.UnsoldSkuRow` | api/posabit/api/report/low-stock.js:35-51 | A SKU whose units sold total 0 (no rows, null or 0 quantities, or quantities that cancel) gets daily 0, no days of supply, target 0, and order 0 when on_hand ≥ 0. |
| `LowStock.WorkedExample` | api/posabit/api/report/low-stock.js:35-51 | 70 units over 14 days, lead 7, safety 3, 10 on hand: daily 5, reorder point 10, target 50, order 40, days of supply 2. |
| `LowStock.InventoryOnlyExample` | api/posabit/api/report/low-stock.js:35-51 | Inventory only, 30 on hand: daily 0, days of supply null, target 0, order 0. |
| `LowStock.BuildRows` | api/posabit/api/report/low-stock.js:33-57 | The loop yields exactly one row per SKU of the universe and no other: each row is that SKU's computed row, with no SKU twice. |
| `LowStock.SupplyKey` | api/posabit/api/report/low-stock.js:59 | `days_of_supply ?? 1e9` is below 1e9 exactly when the days of supply are present and below 1e9, so a null supply sorts after every such supply. |
| `LowStock.Compare` | api/posabit/api/report/low-stock.js:59 | A negative comparator value never puts a larger sort key first. |
| `LowStock.CompareAntisymmetric` | api/posabit/api/report/low-stock.js:59 | Swapping the comparator's arguments negates its value, and a NaN stays NaN. |
| `LowStock.Precedes` | api/posabit/api/report/low-stock.js:59 | `a` may stand before `b` exactly when the comparator `(a ?? 1e9) − (b ?? 1e9) \|\| b.order_qty − a.order_qty` gives 0, a negative number or NaN. |
| `LowStock.PrecedesTotal` | api/posabit/api/report/low-stock.js:59 | Any two rows are ordered one way or the other by the comparator. |
| `LowStock.PrecedesTransitive` | api/posabit/api/report/low-stock.js:59 | The comparator is transitive on rows whose order quantities are all numeric or all NaN. |
| `LowStock.SwapDown` | api/posabit/api/report/low-stock.js:59 | Exchanging two neighbours swaps exactly those two places, leaves every other place alone, and keeps the multiset of rows. |
| `LowStock.SinkDown` | api/posabit/api/report/low-stock.js:59 | The swapping loop leaves the prefix one longer and sorted, changes nothing after position `i`, and keeps the multiset of rows. |
| `LowStock.InsertDown` | api/posabit/api/report/low-stock.js:59 | Inserting the next row into the sorted prefix leaves the prefix one longer and sorted. The new prefix holds exactly the rows of the old one, and the suffix is unchanged. |
| `LowStock.SortRows` | api/posabit/api/report/low-stock.js:59 | The sorted array is a permutation of the input. It is ordered ascending by days of supply (null as 1e9), and then descending by order quantity. |
| `LowStock.UnsoldRowsLast` | api/posabit/api/report/low-stock.js:59 | Once sorted, rows with null days of supply come after every row with some, as long as supply stays below 1e9. |
| `LowStock.RankingExample` | api/posabit/api/report/low-stock.js:59 | Supplies [null, 2.0, 2.0, 0.5] with orders [5, 10, 20, 1] rank as 0.5, then 2.0/20, then 2.0/10, then null. No pair may appear in the other order. |
| `LowStock.RowsForPermutation` | api/posabit/api/report/low-stock.js:59 | Sorting keeps the rows one per SKU: any permutation of the rows of a SKU set is again exactly one computed row per SKU. |
| `LowStock.CatalogOnlySkuNotReported` | api/posabit/api/report/low-stock.js:30-34 | A SKU that is only in the catalog (no truthy sale, no inventory row) gets no row. |
| `LowStock.Report` | api/posabit/api/report/low-stock.js:15-60 | The report fails exactly when lookback is NaN. Otherwise it echoes the clamped parameters, and its rows are one computed row per sold or stocked SKU, each SKU exactly once, ranked by the comparator. |

## Left out

- The store helpers `sbInsert`, `sbUpsert` and `sbSelect` are network calls with credentials from the environment. Their success is a parameter of `Deliver`, and their results are the inputs of `Report`. The response body on a store read failure (status 500 with the message) is not modelled.
- HTTP handling (the method check, body streaming, URL parsing, status codes) and logging are left out. So is the 500 reply that follows the report's `RangeError`: it is the `Failure` result.
- `JSON.parse` is left out: its result is an input. Duplicate object keys, which the parse settles, are therefore not modelled either.
- The clock (`new Date().toISOString()`) and the `since` cut-off are left out. `ts` is a parameter, and the sales rows arrive already windowed. A lookback so large that `since` leaves the Date range (a `RangeError` that depends on the current date) is not modelled.
- Numbers are exact reals, not IEEE doubles. There is no overflow to Infinity, no rounding, no `-0`, and no `toFixed` rounding of `daily_rate`, `days_of_supply` or `est_cost`.
- JsValue.StringToNumber: reads only optionally signed decimal literals with an optional fraction, trimming space, tab, CR and LF. Exponent forms, hexadecimal/octal/binary literals, `"Infinity"` and the other Unicode white space are NaN in the model, whereas JavaScript reads them as numbers.
- JsValue.StringOf: renders strings, null, booleans, plain objects and integers below 10^21. Other numbers (shortest round-trip and exponent forms) and arrays that do not throw are kept unrendered, as `Unrendered(v)`. An object with its own `toString` property, or an array holding one, is the `Throws` case: JSON cannot give that property a function value, so converting to a primitive throws a TypeError.
- JsValue.ToNumber: does not itself report the TypeError for an object with its own `toString` property, or an array holding one; it gives NaN there. The callers test `ToPrimitiveThrows` before they use the number: `Handle` aborts on such a quantity.
- The order among rows that tie on both sort keys is not stated. The SKU set's iteration order and sort stability are left out; the `for … of allSkus` loop takes the SKUs in an arbitrary order.
- LowStock.SortRows: requires the order quantities to be all numeric or all NaN. The comparator is inconsistent on a mixture, and JavaScript's result would then be implementation-defined. The report always meets this, because the order quantity is NaN exactly when lead + safety is.
- Store rows are typed: a null sku in inventory or products is not modelled. A null sku in sales is read as `""`; both are falsy, so neither counts in `sumBySku`.
- Deduplication of a repeated sale submission is not done by the source, and the model keeps that: the same event gives the same rows again.
