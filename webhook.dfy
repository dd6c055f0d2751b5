/**
 * The POSaBIT sale webhook: extraction of the sale id and the line items from a
 * loosely shaped event, normalisation of each item to `{sku, qty, name, vendor}`,
 * and the rows it writes to the `sales_lines` and `products` tables.
 *
 * The HTTP plumbing, the body accumulation, `JSON.parse`, the clock and the two
 * store calls are inputs: the parse result, the timestamp and the success of each
 * store call are parameters.
 */
module Webhook {
  import opened Wrappers
  import opened JsValue

  // ---------------------------------------------------------------------------
  // `xs.filter(keep).map(f)` and what it keeps
  // ---------------------------------------------------------------------------

  /** The images under `f` of the elements of `xs` that satisfy `keep`, in order. */
  function FilterMap<T, U>(xs: seq<T>, keep: T -> bool, f: T -> U): (r: seq<U>)
    decreases |xs|
  {
    if xs == [] then []
    else FilterMap(xs[..|xs| - 1], keep, f) + (if keep(xs[|xs| - 1]) then [f(xs[|xs| - 1])] else [])
  }

  /** The positions of `xs` that satisfy `keep`, in increasing order. */
  function KeptIndices<T>(xs: seq<T>, keep: T -> bool): (idx: seq<nat>)
    decreases |xs|
  {
    if xs == [] then []
    else KeptIndices(xs[..|xs| - 1], keep) + (if keep(xs[|xs| - 1]) then [|xs| - 1] else [])
  }

  /**
   * `FilterMap` keeps exactly the positions that satisfy `keep`, in their original
   * order: its k-th element is `f` of the k-th kept position.
   */
  lemma {:induction false} FilterMapExact<T, U>(xs: seq<T>, keep: T -> bool, f: T -> U)
    ensures |KeptIndices(xs, keep)| == |FilterMap(xs, keep, f)| <= |xs|
    ensures forall k :: 0 <= k < |KeptIndices(xs, keep)| ==>
              KeptIndices(xs, keep)[k] < |xs| &&
              FilterMap(xs, keep, f)[k] == f(xs[KeptIndices(xs, keep)[k]])
    ensures forall k, l :: 0 <= k < l < |KeptIndices(xs, keep)| ==>
              KeptIndices(xs, keep)[k] < KeptIndices(xs, keep)[l]
    ensures forall i :: 0 <= i < |xs| ==> (keep(xs[i]) <==> i in KeptIndices(xs, keep))
    decreases |xs|
  {
    KeptIndicesExact(xs, keep);
    if xs != [] {
      var n := |xs| - 1;
      var pre := xs[..n];
      FilterMapExact(pre, keep, f);
      var idx, ys := KeptIndices(xs, keep), FilterMap(xs, keep, f);
      var idx', ys' := KeptIndices(pre, keep), FilterMap(pre, keep, f);
      assert forall i :: 0 <= i < n ==> pre[i] == xs[i];
      assert forall k :: 0 <= k < |idx'| ==> idx[k] == idx'[k] && ys[k] == ys'[k];
    }
  }

  /** The kept positions are in range, increasing, and exactly those satisfying `keep`. */
  lemma {:induction false} KeptIndicesExact<T>(xs: seq<T>, keep: T -> bool)
    ensures |KeptIndices(xs, keep)| <= |xs|
    ensures forall k :: 0 <= k < |KeptIndices(xs, keep)| ==> KeptIndices(xs, keep)[k] < |xs|
    ensures forall k, l :: 0 <= k < l < |KeptIndices(xs, keep)| ==>
              KeptIndices(xs, keep)[k] < KeptIndices(xs, keep)[l]
    ensures forall i :: 0 <= i < |xs| ==> (keep(xs[i]) <==> i in KeptIndices(xs, keep))
    decreases |xs|
  {
    if xs != [] {
      var n := |xs| - 1;
      var pre := xs[..n];
      KeptIndicesExact(pre, keep);
      var idx, idx' := KeptIndices(xs, keep), KeptIndices(pre, keep);
      assert forall i :: 0 <= i < n ==> pre[i] == xs[i];
      assert forall k :: 0 <= k < |idx'| ==> idx[k] == idx'[k];
      assert forall i :: 0 <= i < |xs| ==> (i in idx <==> i in idx' || (keep(xs[n]) && i == n));
    }
  }

  /** Every element of `FilterMap` is `f` of a kept element. */
  lemma FilterMapKept<T, U>(xs: seq<T>, keep: T -> bool, f: T -> U)
    ensures forall k :: 0 <= k < |FilterMap(xs, keep, f)| ==> KeptAt(xs, keep, f, k)
  {
    FilterMapExact(xs, keep, f);
    var idx := KeptIndices(xs, keep);
    forall k | 0 <= k < |FilterMap(xs, keep, f)|
      ensures KeptAt(xs, keep, f, k)
    {
      assert idx[k] in idx;
      assert 0 <= idx[k] < |xs| && keep(xs[idx[k]]) && FilterMap(xs, keep, f)[k] == f(xs[idx[k]]);
    }
  }

  /** The k-th element of `FilterMap` is `f` of some kept element of `xs`. */
  ghost predicate KeptAt<T, U>(xs: seq<T>, keep: T -> bool, f: T -> U, k: int)
    requires 0 <= k < |FilterMap(xs, keep, f)|
  {
    exists i :: 0 <= i < |xs| && keep(xs[i]) && FilterMap(xs, keep, f)[k] == f(xs[i])
  }

  // ---------------------------------------------------------------------------
  // The event
  // ---------------------------------------------------------------------------

  /** `try { JSON.parse(body) } catch { { raw: body } }`, given what the parse produced. */
  function ParsedEvent(parsed: Option<Json>, body: string): (evt: Json)
    ensures parsed.Some? ==> evt == parsed.value
    ensures parsed.None? ==> Get(evt, "raw") == Some(JStr(body))
    ensures parsed.None? ==> SaleId(evt) == JStr("") && Items(evt) == Some([])
  {
    match parsed
    case Some(v) => v
    case None =>
      var e := JObj(map["raw" := JStr(body)]);
      assert Get(e, "sale") == None && Get(e, "sale_id") == None && Get(e, "id") == None;
      assert Get(e, "items") == None && Get(e, "line_items") == None;
      e
  }

  /** `evt?.sale?.id ?? evt?.sale_id ?? evt?.id ?? ""`. */
  function SaleId(evt: Json): (id: Json)
    ensures Present(GetIn(Get(evt, "sale"), "id")) ==> id == GetIn(Get(evt, "sale"), "id").value
    ensures !Present(GetIn(Get(evt, "sale"), "id")) && Present(Get(evt, "sale_id")) ==>
              id == Get(evt, "sale_id").value
    ensures (!Present(GetIn(Get(evt, "sale"), "id")) && !Present(Get(evt, "sale_id")) &&
             Present(Get(evt, "id"))) ==> id == Get(evt, "id").value
    ensures (!Present(GetIn(Get(evt, "sale"), "id")) && !Present(Get(evt, "sale_id")) &&
             !Present(Get(evt, "id"))) ==> id == JStr("")
  {
    var cands := [GetIn(Get(evt, "sale"), "id"), Get(evt, "sale_id"), Get(evt, "id")];
    assert NoneBefore(cands, 0);
    assert !Present(cands[0]) ==> NoneBefore(cands, 1);
    assert !Present(cands[0]) && !Present(cands[1]) ==> NoneBefore(cands, 2);
    FirstPresent(cands, JStr(""))
  }

  /** The value `items` takes: `evt?.sale?.line_items ?? evt?.items ?? evt?.line_items ?? []`. */
  function ItemsValue(evt: Json): (v: Json)
    ensures Present(GetIn(Get(evt, "sale"), "line_items")) ==> v == GetIn(Get(evt, "sale"), "line_items").value
    ensures !Present(GetIn(Get(evt, "sale"), "line_items")) && Present(Get(evt, "items")) ==>
              v == Get(evt, "items").value
    ensures (!Present(GetIn(Get(evt, "sale"), "line_items")) && !Present(Get(evt, "items")) &&
             Present(Get(evt, "line_items"))) ==> v == Get(evt, "line_items").value
    ensures (!Present(GetIn(Get(evt, "sale"), "line_items")) && !Present(Get(evt, "items")) &&
             !Present(Get(evt, "line_items"))) ==> v == JArr([])
  {
    var cands := [GetIn(Get(evt, "sale"), "line_items"), Get(evt, "items"), Get(evt, "line_items")];
    assert NoneBefore(cands, 0);
    assert !Present(cands[0]) ==> NoneBefore(cands, 1);
    assert !Present(cands[0]) && !Present(cands[1]) ==> NoneBefore(cands, 2);
    FirstPresent(cands, JArr([]))
  }

  /**
   * The line items, or `None` when `items` is not an array: `items.map` then throws
   * a TypeError outside the handler's try block.
   */
  function Items(evt: Json): (r: Option<seq<Json>>)
    ensures r.None? <==>
              ItemsValue(evt).JStr? || ItemsValue(evt).JNum? || ItemsValue(evt).JBool? || ItemsValue(evt).JObj?
    ensures r.Some? ==> JArr(r.value) == ItemsValue(evt)
    ensures (!Present(GetIn(Get(evt, "sale"), "line_items")) && !Present(Get(evt, "items")) &&
             !Present(Get(evt, "line_items"))) ==> r == Some([])
  {
    match ItemsValue(evt)
    case JArr(es) => Some(es)
    case _ => None
  }

  // ---------------------------------------------------------------------------
  // Normalised lines
  // ---------------------------------------------------------------------------

  /** `{ sku, qty, name, vendor }` as the map callback returns it. */
  datatype Line = Line(sku: Json, qty: Num, name: Json, vendor: Json)

  /** `li?.product || {}`. */
  function ProductOf(li: Json): (p: Json)
    ensures TruthyOpt(Get(li, "product")) ==> forall k :: Get(p, k) == GetIn(Get(li, "product"), k)
    ensures !TruthyOpt(Get(li, "product")) ==> forall k :: Get(p, k).None?
  {
    var o := Get(li, "product");
    if TruthyOpt(o) then o.value else JObj(map[])
  }

  /** `product?.sku ?? li?.sku ?? li?.SKU ?? li?.product_sku ?? ""`. */
  function ResolveSku(li: Json): (sku: Json)
    ensures var p := ProductOf(li);
      && (Present(Get(p, "sku")) ==> sku == Get(p, "sku").value)
      && ((!Present(Get(p, "sku")) && Present(Get(li, "sku"))) ==> sku == Get(li, "sku").value)
      && ((!Present(Get(p, "sku")) && !Present(Get(li, "sku")) && Present(Get(li, "SKU"))) ==>
            sku == Get(li, "SKU").value)
      && ((!Present(Get(p, "sku")) && !Present(Get(li, "sku")) && !Present(Get(li, "SKU")) &&
           Present(Get(li, "product_sku"))) ==> sku == Get(li, "product_sku").value)
      && ((!Present(Get(p, "sku")) && !Present(Get(li, "sku")) && !Present(Get(li, "SKU")) &&
           !Present(Get(li, "product_sku"))) ==> sku == JStr(""))
  {
    var p := ProductOf(li);
    var cands := [Get(p, "sku"), Get(li, "sku"), Get(li, "SKU"), Get(li, "product_sku")];
    assert NoneBefore(cands, 0);
    assert !Present(cands[0]) ==> NoneBefore(cands, 1);
    assert !Present(cands[0]) && !Present(cands[1]) ==> NoneBefore(cands, 2);
    assert !Present(cands[0]) && !Present(cands[1]) && !Present(cands[2]) ==> NoneBefore(cands, 3);
    FirstPresent(cands, JStr(""))
  }

  /** The value `Number` is applied to: `li?.quantity ?? li?.qty ?? 0`. */
  function QtySource(li: Json): (v: Json)
    ensures Present(Get(li, "quantity")) ==> v == Get(li, "quantity").value
    ensures (!Present(Get(li, "quantity")) && Present(Get(li, "qty"))) ==> v == Get(li, "qty").value
    ensures (!Present(Get(li, "quantity")) && !Present(Get(li, "qty"))) ==> v == JNum(0.0)
  {
    var cands := [Get(li, "quantity"), Get(li, "qty")];
    assert NoneBefore(cands, 0) && (!Present(cands[0]) ==> NoneBefore(cands, 1));
    FirstPresent(cands, JNum(0.0))
  }

  /** `Number(...)` of the item's quantity throws a TypeError inside the map callback. */
  predicate QtyThrows(li: Json) {
    ToPrimitiveThrows(QtySource(li))
  }

  /** `Number(li?.quantity ?? li?.qty ?? 0)`, where it does not throw. */
  function ResolveQty(li: Json): (qty: Num)
    ensures Present(Get(li, "quantity")) ==> qty == ToNumber(Get(li, "quantity").value)
    ensures (!Present(Get(li, "quantity")) && Present(Get(li, "qty"))) ==> qty == ToNumber(Get(li, "qty").value)
    ensures (!Present(Get(li, "quantity")) && !Present(Get(li, "qty"))) ==> qty == Fin(0.0)
  {
    ToNumber(QtySource(li))
  }

  /** `product?.name ?? li?.name ?? null`. */
  function ResolveName(li: Json): (name: Json)
    ensures var p := ProductOf(li);
      && (Present(Get(p, "name")) ==> name == Get(p, "name").value)
      && ((!Present(Get(p, "name")) && Present(Get(li, "name"))) ==> name == Get(li, "name").value)
      && ((!Present(Get(p, "name")) && !Present(Get(li, "name"))) ==> name == JNull)
  {
    var p := ProductOf(li);
    var cands := [Get(p, "name"), Get(li, "name")];
    assert NoneBefore(cands, 0) && (!Present(cands[0]) ==> NoneBefore(cands, 1));
    FirstPresent(cands, JNull)
  }

  /** `product?.brand ?? product?.vendor ?? null`. */
  function ResolveVendor(li: Json): (vendor: Json)
    ensures var p := ProductOf(li);
      && (Present(Get(p, "brand")) ==> vendor == Get(p, "brand").value)
      && ((!Present(Get(p, "brand")) && Present(Get(p, "vendor"))) ==> vendor == Get(p, "vendor").value)
      && ((!Present(Get(p, "brand")) && !Present(Get(p, "vendor"))) ==> vendor == JNull)
  {
    var p := ProductOf(li);
    var cands := [Get(p, "brand"), Get(p, "vendor")];
    assert NoneBefore(cands, 0) && (!Present(cands[0]) ==> NoneBefore(cands, 1));
    FirstPresent(cands, JNull)
  }

  /**
   * The map callback: each field resolved independently from its own sources. An
   * item that is not an object (`null`, a string, a number) has none of the fields.
   */
  function NormalizeItem(li: Json): (line: Line)
    ensures !li.JObj? ==> line == Line(JStr(""), Fin(0.0), JNull, JNull)
    ensures Accepted(line) ==> li.JObj?
  {
    Line(ResolveSku(li), ResolveQty(li), ResolveName(li), ResolveVendor(li))
  }

  /** The filter `x => x.sku && x.qty > 0`. */
  predicate Accepted(l: Line)
    ensures Accepted(l) <==> l.sku !in FalsyValues && l.qty.Fin? && l.qty.r > 0.0
  {
    Truthy(l.sku) && Positive(l.qty)
  }

  predicate AcceptedItem(li: Json) {
    Accepted(NormalizeItem(li))
  }

  /** `items.map(NormalizeItem).filter(Accepted)`. */
  function NormalizeLines(items: seq<Json>): (lines: seq<Line>)
    ensures |lines| <= |items|
    ensures forall k :: 0 <= k < |lines| ==> Truthy(lines[k].sku) && Positive(lines[k].qty)
  {
    FilterMapExact(items, AcceptedItem, NormalizeItem);
    FilterMapKept(items, AcceptedItem, NormalizeItem);
    FilterMap(items, AcceptedItem, NormalizeItem)
  }

  /**
   * The normalised lines are exactly the accepted mapped items, in their original
   * order: an order-preserving subsequence that misses no accepted item.
   */
  lemma NormalizeLinesExact(items: seq<Json>)
    ensures var idx, lines := KeptIndices(items, AcceptedItem), NormalizeLines(items);
      && |idx| == |lines|
      && (forall k :: 0 <= k < |idx| ==> idx[k] < |items| && lines[k] == NormalizeItem(items[idx[k]]))
      && (forall k, l :: 0 <= k < l < |idx| ==> idx[k] < idx[l])
      && (forall i :: 0 <= i < |items| ==> (Accepted(NormalizeItem(items[i])) <==> i in idx))
  {
    FilterMapExact(items, AcceptedItem, NormalizeItem);
  }

  /** No line survives exactly when no mapped item passes the filter. */
  lemma NoLinesIffNoneAccepted(items: seq<Json>)
    ensures NormalizeLines(items) == [] <==>
            forall i :: 0 <= i < |items| ==> !Accepted(NormalizeItem(items[i]))
  {
    NormalizeLinesExact(items);
    var idx := KeptIndices(items, AcceptedItem);
    if NormalizeLines(items) != [] {
      assert idx[0] < |items| && Accepted(NormalizeItem(items[idx[0]]));
    }
  }

  /**
   * A present `product.sku` wins even when it is empty: the item's own `sku`, `SKU`
   * and `product_sku` are not consulted and the item is dropped.
   */
  lemma EmptyProductSkuDropsItem(li: Json)
    requires TruthyOpt(Get(li, "product"))
    requires Get(Get(li, "product").value, "sku") == Some(JStr(""))
    ensures NormalizeItem(li).sku == JStr("")
    ensures !Accepted(NormalizeItem(li))
  {
  }

  /** A quantity that coerces to NaN, zero or a negative number drops the item. */
  lemma NonPositiveQuantityDropsItem(li: Json)
    requires !Positive(NormalizeItem(li).qty)
    ensures forall items: seq<Json> :: NormalizeItem(li) !in NormalizeLines(items)
  {
  }

  // ---------------------------------------------------------------------------
  // Rows written to the store
  // ---------------------------------------------------------------------------

  /** A `sales_lines` row: `{ posabit_sale_id, sku, qty, ts, raw }`. */
  datatype SalesRow = SalesRow(saleId: JsText, sku: Json, qty: Num, ts: string, raw: Json)

  /** A `products` row: `{ sku, name, vendor }`. */
  datatype ProductRow = ProductRow(sku: Json, name: Json, vendor: Json)

  /** `lines.map(l => ({ posabit_sale_id: String(saleId), sku: l.sku, qty: l.qty, ts, raw: evt }))`. */
  function SalesRows(saleId: Json, ts: string, evt: Json, lines: seq<Line>): (rows: seq<SalesRow>)
    ensures |rows| == |lines|
    ensures forall k :: 0 <= k < |rows| ==>
              && rows[k].sku == lines[k].sku && rows[k].qty == lines[k].qty
              && rows[k].ts == ts && rows[k].saleId == StringOf(saleId) && rows[k].raw == evt
    decreases |lines|
  {
    if lines == [] then []
    else [SalesRow(StringOf(saleId), lines[0].sku, lines[0].qty, ts, evt)] + SalesRows(saleId, ts, evt, lines[1..])
  }

  /** The filter `l => l.name || l.vendor`. */
  predicate HasCatalogInfo(l: Line)
    ensures !HasCatalogInfo(l) <==> l.name in FalsyValues && l.vendor in FalsyValues
  {
    Truthy(l.name) || Truthy(l.vendor)
  }

  function ProductRowOf(l: Line): ProductRow {
    ProductRow(l.sku, l.name, l.vendor)
  }

  /** `lines.filter(l => l.name || l.vendor).map(l => ({ sku, name, vendor }))`. */
  function ProductRows(lines: seq<Line>): (rows: seq<ProductRow>)
    ensures |rows| <= |lines|
    ensures forall k :: 0 <= k < |rows| ==> Truthy(rows[k].name) || Truthy(rows[k].vendor)
  {
    FilterMapExact(lines, HasCatalogInfo, ProductRowOf);
    FilterMapKept(lines, HasCatalogInfo, ProductRowOf);
    FilterMap(lines, HasCatalogInfo, ProductRowOf)
  }

  /**
   * The product rows are exactly the lines with a truthy name or vendor, in order,
   * with sku, name and vendor copied unchanged.
   */
  lemma ProductRowsExact(lines: seq<Line>)
    ensures var idx, rows := KeptIndices(lines, HasCatalogInfo), ProductRows(lines);
      && |idx| == |rows|
      && (forall k :: 0 <= k < |idx| ==>
            idx[k] < |lines| &&
            rows[k] == ProductRow(lines[idx[k]].sku, lines[idx[k]].name, lines[idx[k]].vendor))
      && (forall k, l :: 0 <= k < l < |idx| ==> idx[k] < idx[l])
      && (forall i :: 0 <= i < |lines| ==> (HasCatalogInfo(lines[i]) <==> i in idx))
  {
    FilterMapExact(lines, HasCatalogInfo, ProductRowOf);
  }

  // ---------------------------------------------------------------------------
  // The handler's decision and its store calls
  // ---------------------------------------------------------------------------

  /** Why a TypeError escapes the handler: each is thrown outside its try block. */
  datatype Cause =
    | ItemsNotArray                   // `items.map` on a value that is not an array
    | QuantityNotConvertible          // `Number(...)` of a quantity, inside the map callback
    | SaleIdNotConvertible            // `String(saleId)` while the sales rows are built

  /** What the handler does with one parsed event. */
  datatype Plan =
    | Aborts(cause: Cause)
    | NothingToStore                                           // `{ ok: true, received: 0 }`
    | Store(products: seq<ProductRow>, sales: seq<SalesRow>)

  /** Some item's quantity cannot be converted by `Number`. */
  predicate AnyQtyThrows(items: seq<Json>) {
    exists i :: 0 <= i < |items| && QtyThrows(items[i])
  }

  /**
   * The handler from the parsed event up to the writes; `ts` is the ingestion time.
   * The map callback runs on every item before the filter, so a quantity that throws
   * aborts the handler even when its item would be dropped.
   */
  function Handle(evt: Json, ts: string): (plan: Plan)
    ensures plan == Aborts(ItemsNotArray) <==> Items(evt).None?
    ensures plan == Aborts(QuantityNotConvertible) <==> Items(evt).Some? && AnyQtyThrows(Items(evt).value)
    ensures plan.NothingToStore? <==>
              Items(evt).Some? && !AnyQtyThrows(Items(evt).value) && NormalizeLines(Items(evt).value) == []
    ensures plan == Aborts(SaleIdNotConvertible) <==>
              && Items(evt).Some? && !AnyQtyThrows(Items(evt).value) && NormalizeLines(Items(evt).value) != []
              && ToPrimitiveThrows(SaleId(evt))
    ensures plan.Store? ==>
              var lines := NormalizeLines(Items(evt).value);
              && lines != []
              && !StringOf(SaleId(evt)).Throws?
              && plan.sales == SalesRows(SaleId(evt), ts, evt, lines)
              && plan.products == ProductRows(lines)
              && 0 < |plan.sales| && |plan.products| <= |plan.sales|
  {
    match Items(evt)
    case None => Aborts(ItemsNotArray)
    case Some(items) =>
      if AnyQtyThrows(items) then Aborts(QuantityNotConvertible)
      else
        var lines := NormalizeLines(items);
        if lines == [] then NothingToStore
        else if ToPrimitiveThrows(SaleId(evt)) then Aborts(SaleIdNotConvertible)
        else Store(ProductRows(lines), SalesRows(SaleId(evt), ts, evt, lines))
  }

  datatype StoreCall =
    | UpsertProducts(productRows: seq<ProductRow>, onConflict: string)
    | InsertSales(salesRows: seq<SalesRow>)

  /** The JSON the handler replies with (all with status 200), or an uncaught TypeError. */
  datatype Reply =
    | Received(count: nat)      // `{ ok: true, received: 0 }`
    | Inserted(count: nat)      // `{ ok: true, inserted: n }`
    | WriteFailed               // `{ ok: false, error: "insert failed; check logs" }`
    | Uncaught                  // the TypeError escapes the handler

  datatype Delivery = Delivery(calls: seq<StoreCall>, reply: Reply)

  /**
   * The store calls the handler issues and its reply, given whether the upsert and
   * the insert succeed. The upsert is skipped for no product rows; a failed upsert
   * throws before the insert is issued.
   */
  function Deliver(plan: Plan, upsertOk: bool, insertOk: bool): (d: Delivery)
    ensures !plan.Store? ==> d.calls == []
    ensures plan.NothingToStore? ==> d.reply == Received(0)
    ensures plan.Aborts? ==> d.reply == Uncaught
    ensures plan.Store? ==>
              && |d.calls| == (if plan.products != [] then 1 else 0) + (if plan.products == [] || upsertOk then 1 else 0)
              && (plan.products != [] <==> d.calls[0] == UpsertProducts(plan.products, "sku"))
              && (InsertSales(plan.sales) in d.calls <==> plan.products == [] || upsertOk)
              && (InsertSales(plan.sales) in d.calls ==> d.calls[|d.calls| - 1] == InsertSales(plan.sales))
              && (d.reply == Inserted(|plan.sales|) <==> InsertSales(plan.sales) in d.calls && insertOk)
              && (d.reply != Inserted(|plan.sales|) ==> d.reply == WriteFailed)
  {
    match plan
    case Aborts(_) => Delivery([], Uncaught)
    case NothingToStore => Delivery([], Received(0))
    case Store(products, sales) =>
      var upsert := if products != [] then [UpsertProducts(products, "sku")] else [];
      if products != [] && !upsertOk then Delivery(upsert, WriteFailed)
      else Delivery(upsert + [InsertSales(sales)], if insertOk then Inserted(|sales|) else WriteFailed)
  }

  /** A body that does not parse yields no items: nothing is written and `received: 0` is sent. */
  lemma UnparsableBodyStoresNothing(body: string, ts: string, upsertOk: bool, insertOk: bool)
    ensures Deliver(Handle(ParsedEvent(None, body), ts), upsertOk, insertOk) == Delivery([], Received(0))
  {
    var evt := ParsedEvent(None, body);
    assert Get(evt, "sale") == None && Get(evt, "items") == None && Get(evt, "line_items") == None;
  }

  /** An object with its own `toString` as a quantity aborts the handler, even for an item that has no sku. */
  lemma ObjectQuantityAborts(ts: string)
    ensures var evt := JObj(map["items" := JArr([JObj(map["quantity" := JObj(map["toString" := JNum(1.0)])])])]);
      Handle(evt, ts) == Aborts(QuantityNotConvertible)
  {
    var li := JObj(map["quantity" := JObj(map["toString" := JNum(1.0)])]);
    var evt := JObj(map["items" := JArr([li])]);
    assert Get(evt, "sale") == None && Get(evt, "items") == Some(JArr([li]));
    assert Items(evt) == Some([li]);
    assert QtySource(li) == JObj(map["toString" := JNum(1.0)]);
    assert QtyThrows([li][0]);
  }

  /** An object with its own `toString` as the sale id aborts the handler once a line survives. */
  lemma ObjectSaleIdAborts(ts: string)
    ensures var evt := JObj(map["sale_id" := JObj(map["toString" := JNum(1.0)]),
                                "items" := JArr([JObj(map["sku" := JStr("A"), "quantity" := JNum(1.0)])])]);
      Handle(evt, ts) == Aborts(SaleIdNotConvertible)
  {
    var li := JObj(map["sku" := JStr("A"), "quantity" := JNum(1.0)]);
    var evt := JObj(map["sale_id" := JObj(map["toString" := JNum(1.0)]), "items" := JArr([li])]);
    assert Get(evt, "sale") == None && Get(evt, "items") == Some(JArr([li]));
    assert Items(evt) == Some([li]);
    PlainItemAccepted();
    assert !AnyQtyThrows([li]);
    NoLinesIffNoneAccepted([li]);
    assert NormalizeLines([li]) != [];
    SaleIdOfObject(evt);
  }

  /** Without a `sale.id`, the `sale_id` is the sale id. */
  lemma SaleIdOfObject(evt: Json)
    requires evt == JObj(map["sale_id" := JObj(map["toString" := JNum(1.0)]),
                             "items" := JArr([JObj(map["sku" := JStr("A"), "quantity" := JNum(1.0)])])])
    ensures ToPrimitiveThrows(SaleId(evt))
  {
    assert Get(evt, "sale") == None;
    assert Get(evt, "sale_id") == Some(JObj(map["toString" := JNum(1.0)]));
  }

  /** `{ sku: "A", quantity: 1 }` converts without throwing and is accepted. */
  lemma PlainItemAccepted()
    ensures var li := JObj(map["sku" := JStr("A"), "quantity" := JNum(1.0)]);
      !QtyThrows(li) && Accepted(NormalizeItem(li))
  {
    var li := JObj(map["sku" := JStr("A"), "quantity" := JNum(1.0)]);
    assert Get(li, "quantity") == Some(JNum(1.0));
    assert Get(li, "product") == None && Get(li, "sku") == Some(JStr("A"));
    assert ResolveSku(li) == JStr("A");
  }

  /**
   * An event none of whose items is accepted issues no store call, and sends
   * `received: 0` unless a quantity conversion threw first.
   */
  lemma NoLinesNoWrites(evt: Json, ts: string, upsertOk: bool, insertOk: bool)
    requires Items(evt).Some?
    requires forall i :: 0 <= i < |Items(evt).value| ==> !Accepted(NormalizeItem(Items(evt).value[i]))
    ensures Deliver(Handle(evt, ts), upsertOk, insertOk).calls == []
    ensures !AnyQtyThrows(Items(evt).value) ==> Deliver(Handle(evt, ts), upsertOk, insertOk) == Delivery([], Received(0))
  {
    NoLinesIffNoneAccepted(Items(evt).value);
  }
}
