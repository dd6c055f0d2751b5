/**
 * The low-stock / reorder report: clamp the query parameters, total the units sold
 * per SKU over the already-windowed `sales_lines` rows, index inventory and products
 * by SKU, compute one reorder row per SKU that was sold or is stocked, and rank the
 * rows by urgency.
 *
 * The three store reads are inputs (`sales`, `inv`, `prods`); the `since` cut-off is
 * applied by the store query, so `sales` holds only rows inside the window.
 * Quantities are exact reals: the `toFixed` roundings are not applied.
 */
module LowStock {
  import opened Wrappers
  import opened JsValue

  // ---------------------------------------------------------------------------
  // Store rows
  // ---------------------------------------------------------------------------

  /** A `sales_lines` row as selected (`sku, qty`); a null sku is read as "". */
  datatype SaleRow = SaleRow(sku: string, qty: Option<real>)

  /** An `inventory_levels` row (`sku, on_hand, updated_at`). */
  datatype InvRow = InvRow(sku: string, onHand: Option<real>, updatedAt: Option<string>)

  /** A `products` row (`sku, name, vendor, cost`). */
  datatype ProdRow = ProdRow(sku: string, name: Option<string>, vendor: Option<string>, cost: Option<real>)

  // ---------------------------------------------------------------------------
  // Parameters
  // ---------------------------------------------------------------------------

  /**
   * `Math.max(lo, Number(raw || dflt))` for a query parameter `raw` (`null` when
   * absent). The `||` tests the query STRING: only an absent or empty parameter
   * takes the default; "0" is truthy and reads as 0.
   */
  function ClampParam(raw: Option<string>, dflt: real, lo: real): (n: Num)
    ensures (raw.None? || raw.value == "") ==> n == Fin(if dflt >= lo then dflt else lo)
    ensures raw.Some? && raw.value != "" ==>
              (n.Fin? <==> StringToNumber(raw.value).Fin?) &&
              (n.Fin? ==> n.r == if StringToNumber(raw.value).r >= lo then StringToNumber(raw.value).r else lo)
    ensures n.Fin? ==> n.r >= lo
  {
    var given := if raw.None? || raw.value == "" then Fin(dflt) else StringToNumber(raw.value);
    Max(Fin(lo), given)
  }

  /** `lookback`: at least 1 day, 14 by default. */
  function Lookback(raw: Option<string>): (n: Num)
    ensures (raw.None? || raw.value == "") ==> n == Fin(14.0)
    ensures n.Fin? ==> n.r >= 1.0
  {
    ClampParam(raw, 14.0, 1.0)
  }

  /** `lead`: at least 0 days, 7 by default. */
  function Lead(raw: Option<string>): (n: Num)
    ensures (raw.None? || raw.value == "") ==> n == Fin(7.0)
    ensures n.Fin? ==> n.r >= 0.0
  {
    ClampParam(raw, 7.0, 0.0)
  }

  /** `safety`: at least 0 days, 3 by default. */
  function Safety(raw: Option<string>): (n: Num)
    ensures (raw.None? || raw.value == "") ==> n == Fin(3.0)
    ensures n.Fin? ==> n.r >= 0.0
  {
    ClampParam(raw, 3.0, 0.0)
  }

  /** An absent or empty parameter takes its default. */
  lemma ParameterDefaults()
    ensures Lookback(None) == Fin(14.0) && Lead(None) == Fin(7.0) && Safety(None) == Fin(3.0)
    ensures Lookback(Some("")) == Fin(14.0) && Lead(Some("")) == Fin(7.0) && Safety(Some("")) == Fin(3.0)
  {
  }

  /**
   * An explicit "0" is a given value, not a missing one: lead and safety stay 0 and
   * lookback is raised to 1.
   */
  lemma ZeroParameterIsKept()
    ensures Lead(Some("0")) == Fin(0.0) && Safety(Some("0")) == Fin(0.0)
    ensures Lookback(Some("0")) == Fin(1.0)
  {
    IntTextRoundTrip(0);
    assert IntText(0) == "0";
  }

  /** Negative values are clamped to the lower bound. */
  lemma NegativeParameterIsClamped()
    ensures Lead(Some("-2")) == Fin(0.0) && Lookback(Some("-5")) == Fin(1.0)
  {
    IntTextRoundTrip(-2);
    IntTextRoundTrip(-5);
    assert IntText(-2) == "-2" by { assert NatText(2) == "2"; }
    assert IntText(-5) == "-5" by { assert NatText(5) == "5"; }
  }

  /** A non-numeric lookback is NaN: `Math.max` does not clamp NaN away. */
  lemma NonNumericLookbackIsNaN()
    ensures Lookback(Some("abc")) == NaN
  {
    assert TrimStart("abc") == "abc";
    assert TrimEnd("abc") == "abc";
    assert DotIndex("abc") == 3 by {
      assert "abc"[1..] == "bc" && "bc"[1..] == "c" && "c"[1..] == "";
    }
    assert "abc"[..3] == "abc";
    assert !IsDigit("abc"[0]);
  }

  // ---------------------------------------------------------------------------
  // Units sold per SKU
  // ---------------------------------------------------------------------------

  /** `Number(s.qty || 0)`: a null quantity counts as 0. */
  function Qty(s: SaleRow): (q: real)
    ensures q == 0.0 <==> s.qty in {None, Some(0.0)}
    ensures q != 0.0 ==> s.qty == Some(q)
  {
    if s.qty.Some? then s.qty.value else 0.0
  }

  /** Units of `sku` sold over `sales`. */
  function Total(sales: seq<SaleRow>, sku: string): real
    decreases |sales|
  {
    if sales == [] then 0.0
    else Total(sales[..|sales| - 1], sku) + (if sales[|sales| - 1].sku == sku then Qty(sales[|sales| - 1]) else 0.0)
  }

  /** The truthy SKUs that occur in `sales`. */
  function SoldSkus(sales: seq<SaleRow>): set<string> {
    set i | 0 <= i < |sales| && sales[i].sku != "" :: sales[i].sku
  }

  /** Reference definition of `sumBySku`: each sold SKU mapped to its total. */
  function SalesTotals(sales: seq<SaleRow>): map<string, real> {
    map sku | sku in SoldSkus(sales) :: Total(sales, sku)
  }

  /** Appending one row adds its quantity to its own SKU's total, when the SKU is truthy. */
  lemma SalesTotalsSnoc(sales: seq<SaleRow>, s: SaleRow)
    ensures var before := SalesTotals(sales);
      SalesTotals(sales + [s]) ==
        if s.sku == "" then before
        else before[s.sku := (if s.sku in before then before[s.sku] else 0.0) + Qty(s)]
  {
    TotalSnoc(sales, s);
    SoldSkusSnoc(sales, s);
    if s.sku != "" && s.sku !in SoldSkus(sales) {
      assert Total(sales, s.sku) == 0.0 by { TotalOfUnsold(sales, s.sku); }
    }
  }

  /** Appending one row adds its quantity to its own SKU's total only. */
  lemma TotalSnoc(sales: seq<SaleRow>, s: SaleRow)
    ensures forall k :: Total(sales + [s], k) == Total(sales, k) + (if s.sku == k then Qty(s) else 0.0)
  {
    assert (sales + [s])[..|sales|] == sales;
  }

  /** Appending one row adds its SKU to the sold SKUs, when it is truthy. */
  lemma SoldSkusSnoc(sales: seq<SaleRow>, s: SaleRow)
    ensures SoldSkus(sales + [s]) == SoldSkus(sales) + (if s.sku == "" then {} else {s.sku})
  {
    var ext := sales + [s];
    forall k | k in SoldSkus(ext) ensures k in SoldSkus(sales) + (if s.sku == "" then {} else {s.sku}) {
      var i :| 0 <= i < |ext| && ext[i].sku != "" && ext[i].sku == k;
      if i < |sales| { assert sales[i] == ext[i]; }
    }
    forall k | k in SoldSkus(sales) ensures k in SoldSkus(ext) {
      var i :| 0 <= i < |sales| && sales[i].sku != "" && sales[i].sku == k;
      assert ext[i] == sales[i];
    }
    if s.sku != "" { assert ext[|sales|] == s; }
  }

  /** A SKU that never occurs totals 0. */
  lemma {:induction false} TotalOfUnsold(sales: seq<SaleRow>, sku: string)
    requires forall i :: 0 <= i < |sales| ==> sales[i].sku != sku
    ensures Total(sales, sku) == 0.0
    decreases |sales|
  {
    if sales != [] {
      TotalOfUnsold(sales[..|sales| - 1], sku);
    }
  }

  /**
   * The `for (const s of sales)` loop that fills `sumBySku`: the result is the
   * total per truthy SKU, and a falsy SKU contributes to no key.
   */
  method SumBySku(sales: seq<SaleRow>) returns (sums: map<string, real>)
    ensures sums == SalesTotals(sales)
    ensures "" !in sums
    ensures forall sku :: sku in sums <==> sku != "" && exists i :: 0 <= i < |sales| && sales[i].sku == sku
  {
    sums := map[];
    var i := 0;
    while i < |sales|
      invariant 0 <= i <= |sales|
      invariant sums == SalesTotals(sales[..i])
    {
      var s := sales[i];
      SalesTotalsSnoc(sales[..i], s);
      assert sales[..i + 1] == sales[..i] + [s];
      if s.sku != "" {
        sums := sums[s.sku := (if s.sku in sums then sums[s.sku] else 0.0) + Qty(s)];
      }
      i := i + 1;
    }
    assert sales[..i] == sales;
  }

  // ---------------------------------------------------------------------------
  // Indexing by SKU
  // ---------------------------------------------------------------------------

  /** `new Map(rows.map(r => [key(r), r]))`: on a repeated key the last row wins. */
  function IndexBy<T>(rows: seq<T>, key: T -> string): (m: map<string, T>)
    ensures forall k :: k in m <==> exists i :: 0 <= i < |rows| && key(rows[i]) == k
    ensures forall k :: k in m ==> LastWith(rows, key, k, m[k])
    decreases |rows|
  {
    if rows == [] then map[]
    else
      var pre := rows[..|rows| - 1];
      var last := rows[|rows| - 1];
      var m := IndexBy(pre, key)[key(last) := last];
      IndexBySnoc(pre, last, key, IndexBy(pre, key));
      assert rows == pre + [last];
      m
  }

  /** One more row: updating the index of a prefix with the new row indexes the whole. */
  lemma IndexBySnoc<T>(pre: seq<T>, last: T, key: T -> string, m0: map<string, T>)
    requires forall k :: k in m0 <==> exists i :: 0 <= i < |pre| && key(pre[i]) == k
    requires forall k :: k in m0 ==> LastWith(pre, key, k, m0[k])
    ensures var rows, m := pre + [last], m0[key(last) := last];
      && (forall k :: k in m <==> exists i :: 0 <= i < |rows| && key(rows[i]) == k)
      && (forall k :: k in m ==> LastWith(rows, key, k, m[k]))
  {
    var rows, m := pre + [last], m0[key(last) := last];
    forall k ensures k in m <==> exists i :: 0 <= i < |rows| && key(rows[i]) == k {
      if k in m && k != key(last) {
        var i :| 0 <= i < |pre| && key(pre[i]) == k;
        assert rows[i] == pre[i];
      } else if k == key(last) {
        assert rows[|pre|] == last;
      } else {
        forall i | 0 <= i < |rows| ensures key(rows[i]) != k {
          if i < |pre| {
            assert rows[i] == pre[i];
          }
        }
      }
    }
    forall k | k in m ensures LastWith(rows, key, k, m[k]) {
      if k == key(last) {
        assert rows[|pre|] == last;
      } else {
        var i :| 0 <= i < |pre| && pre[i] == m0[k] && key(pre[i]) == k &&
                 forall j :: i < j < |pre| ==> key(pre[j]) != k;
        assert rows[i] == m[k];
        assert forall j :: i < j < |rows| ==> key(rows[j]) != k;
      }
    }
  }

  /** `v` is the last row of `rows` whose key is `k`. */
  ghost predicate LastWith<T>(rows: seq<T>, key: T -> string, k: string, v: T) {
    exists i :: 0 <= i < |rows| && rows[i] == v && key(rows[i]) == k &&
      forall j :: i < j < |rows| ==> key(rows[j]) != k
  }

  function InvSku(r: InvRow): string { r.sku }
  function ProdSku(r: ProdRow): string { r.sku }

  /** `new Set([...sumBySku.keys(), ...invBySku.keys()])`. */
  function ReportSkus(sales: seq<SaleRow>, inv: seq<InvRow>): (skus: set<string>)
    ensures forall sku :: sku in skus <==>
              (sku != "" && exists i :: 0 <= i < |sales| && sales[i].sku == sku) ||
              (exists i :: 0 <= i < |inv| && inv[i].sku == sku)
  {
    SalesTotals(sales).Keys + IndexBy(inv, InvSku).Keys
  }

  // ---------------------------------------------------------------------------
  // One reorder row
  // ---------------------------------------------------------------------------

  /** What every row is computed from. */
  datatype Inputs = Inputs(
    lookback: real, lead: Num, safety: Num,
    totals: map<string, real>, invBySku: map<string, InvRow>, prodBySku: map<string, ProdRow>)

  /** The object pushed for one SKU. `daysOfSupply` and `estCost` are `None` for `null`. */
  datatype ReorderRow = ReorderRow(
    sku: string, name: Option<string>, vendor: Option<string>,
    onHand: real, dailyRate: real, daysOfSupply: Option<real>,
    reorderPointDays: Num, targetStock: Num, orderQty: Num,
    unitCost: Option<real>, estCost: Option<Num>, lastInventoryUpdate: Option<string>)

  /** `sumBySku.get(sku) || 0`. */
  function TotalFor(c: Inputs, sku: string): (t: real)
    ensures t == 0.0 <==> sku !in c.totals || c.totals[sku] == 0.0
    ensures t != 0.0 ==> t == c.totals[sku]
  {
    if sku in c.totals then c.totals[sku] else 0.0
  }

  /** `Number(invRow.on_hand || 0)`, with `{ on_hand: 0 }` for a missing inventory row. */
  function OnHandFor(c: Inputs, sku: string): (h: real)
    ensures h == 0.0 <==> sku !in c.invBySku || c.invBySku[sku].onHand in {None, Some(0.0)}
    ensures h != 0.0 ==> Some(h) == c.invBySku[sku].onHand
  {
    if sku in c.invBySku && c.invBySku[sku].onHand.Some? then c.invBySku[sku].onHand.value else 0.0
  }

  /** The unit cost, `null` for a missing product. */
  function CostFor(c: Inputs, sku: string): Option<real>
  {
    if sku in c.prodBySku then c.prodBySku[sku].cost else None
  }

  /**
   * The body of the `for (const sku of allSkus)` loop: daily rate, reorder point,
   * target stock, order quantity, days of supply and estimated cost.
   */
  function ComputeRow(sku: string, c: Inputs): (row: ReorderRow)
    requires c.lookback >= 1.0
    ensures row.sku == sku
    ensures row.dailyRate * c.lookback == TotalFor(c, sku)
    ensures row.onHand == OnHandFor(c, sku)
    ensures row.reorderPointDays == Add(c.lead, c.safety)
    ensures row.orderQty.Fin? <==> c.lead.Fin? && c.safety.Fin?
    ensures row.targetStock.Fin? <==> c.lead.Fin? && c.safety.Fin?
    ensures row.orderQty.Fin? ==> row.orderQty.r >= 0.0 && row.orderQty.r == row.orderQty.r.Floor as real
    ensures row.daysOfSupply.Some? <==> row.dailyRate > 0.0
    ensures row.daysOfSupply.Some? ==> row.daysOfSupply.value * row.dailyRate == row.onHand
    ensures sku !in c.invBySku ==> row.onHand == 0.0 && row.lastInventoryUpdate.None?
    ensures sku in c.invBySku ==> row.lastInventoryUpdate == c.invBySku[sku].updatedAt
    ensures sku !in c.prodBySku ==> row.name.None? && row.vendor.None? && row.unitCost.None?
    ensures sku in c.prodBySku ==> row.name == c.prodBySku[sku].name && row.vendor == c.prodBySku[sku].vendor
    ensures row.unitCost == CostFor(c, sku)
    ensures row.estCost.None? <==> row.unitCost.None? || row.unitCost.value == 0.0
    ensures row.estCost.Some? ==> row.estCost.value == Mul(Fin(row.unitCost.value), row.orderQty)
  {
    var daily := TotalFor(c, sku) / c.lookback;
    var onHand := OnHandFor(c, sku);
    var reorderDays := Add(c.lead, c.safety);
    var target := Mul(Fin(daily), reorderDays);
    var orderQty := Max(Fin(0.0), CeilNum(Sub(target, Fin(onHand))));
    var dos := if daily > 0.0 then Some(onHand / daily) else None;
    var cost := CostFor(c, sku);
    ReorderRow(
      sku,
      if sku in c.prodBySku then c.prodBySku[sku].name else None,
      if sku in c.prodBySku then c.prodBySku[sku].vendor else None,
      onHand, daily, dos, reorderDays, CeilNum(target), orderQty, cost,
      if cost.Some? && cost.value != 0.0 then Some(Mul(Fin(cost.value), orderQty)) else None,
      if sku in c.invBySku then c.invBySku[sku].updatedAt else None)
  }

  /**
   * With numeric lead and safety: the reorder point is lead + safety, the target is
   * the ceiling of daily * reorder point, the order is that requirement less stock
   * on hand, rounded up and never negative.
   */
  lemma RowArithmetic(sku: string, c: Inputs)
    requires c.lookback >= 1.0 && c.lead.Fin? && c.safety.Fin?
    ensures ComputeRow(sku, c).reorderPointDays == Fin(c.lead.r + c.safety.r)
    ensures ComputeRow(sku, c).targetStock == Fin(Ceil(Need(sku, c)) as real)
    ensures ComputeRow(sku, c).orderQty ==
              Fin(if Ceil(Need(sku, c) - ComputeRow(sku, c).onHand) > 0
                  then Ceil(Need(sku, c) - ComputeRow(sku, c).onHand) as real else 0.0)
  {
    var row := ComputeRow(sku, c);
    var rpd := Add(c.lead, c.safety);
    assert rpd == Fin(c.lead.r + c.safety.r);
    var target := Mul(Fin(row.dailyRate), rpd);
    assert target == Fin(Need(sku, c));
    assert row.targetStock == CeilNum(target);
    assert row.orderQty == Max(Fin(0.0), CeilNum(Sub(target, Fin(row.onHand))));
  }

  /** For whole stock on hand the order is exactly max(0, target - on hand). */
  lemma WholeStockOrder(sku: string, c: Inputs)
    requires c.lookback >= 1.0 && c.lead.Fin? && c.safety.Fin?
    requires ComputeRow(sku, c).onHand == ComputeRow(sku, c).onHand.Floor as real
    ensures var row := ComputeRow(sku, c);
      row.orderQty == Fin(if row.targetStock.r > row.onHand then row.targetStock.r - row.onHand else 0.0)
  {
    RowArithmetic(sku, c);
    CeilMinusInteger(Need(sku, c), ComputeRow(sku, c).onHand.Floor);
  }

  /** The stock the reorder point calls for: `daily * reorderDays`, with numeric lead and safety. */
  function Need(sku: string, c: Inputs): real
    requires c.lookback >= 1.0 && c.lead.Fin? && c.safety.Fin?
  {
    ComputeRow(sku, c).dailyRate * (c.lead.r + c.safety.r)
  }

  /** Non-numeric lead or safety makes reorder point, target and order NaN for every SKU. */
  lemma NaNParameterRow(sku: string, c: Inputs)
    requires c.lookback >= 1.0 && !(c.lead.Fin? && c.safety.Fin?)
    ensures ComputeRow(sku, c).reorderPointDays == NaN
    ensures ComputeRow(sku, c).targetStock == NaN && ComputeRow(sku, c).orderQty == NaN
    ensures ComputeRow(sku, c).estCost.None? || ComputeRow(sku, c).estCost == Some(NaN)
  {
  }

  /**
   * A SKU without sales in the window: rate 0, no days of supply, target 0, and no
   * order while stock on hand is not negative.
   */
  lemma UnsoldSkuRow(sku: string, c: Inputs)
    requires c.lookback >= 1.0 && c.lead.Fin? && c.safety.Fin?
    requires TotalFor(c, sku) == 0.0
    ensures ComputeRow(sku, c).dailyRate == 0.0
    ensures ComputeRow(sku, c).daysOfSupply.None?
    ensures ComputeRow(sku, c).targetStock == Fin(0.0)
    ensures ComputeRow(sku, c).onHand >= 0.0 ==> ComputeRow(sku, c).orderQty == Fin(0.0)
  {
    var row := ComputeRow(sku, c);
    RowArithmetic(sku, c);
    assert row.dailyRate == 0.0;
    assert Ceil(0.0) == 0;
    if row.onHand >= 0.0 {
      CeilIsLeastUpperInteger(0.0 - row.onHand, 0);
    }
  }

  /** The inputs of the end-to-end example: 70 units over 14 days, lead 7, safety 3, 10 on hand. */
  function WorkedInputs(): Inputs {
    Inputs(14.0, Fin(7.0), Fin(3.0), map["A" := 70.0], map["A" := InvRow("A", Some(10.0), None)], map[])
  }

  /** In the example, SKU "A" sells 5 a day and needs 50 for its reorder point. */
  lemma WorkedRate()
    ensures ComputeRow("A", WorkedInputs()).dailyRate == 5.0
    ensures ComputeRow("A", WorkedInputs()).onHand == 10.0
    ensures Need("A", WorkedInputs()) == 50.0
  {
    var c := WorkedInputs();
    assert TotalFor(c, "A") == 70.0;
    assert OnHandFor(c, "A") == 10.0;
  }

  /** The end-to-end example. */
  lemma WorkedExample()
    ensures var row := ComputeRow("A", WorkedInputs());
      && row.dailyRate == 5.0 && row.reorderPointDays == Fin(10.0)
      && row.targetStock == Fin(50.0) && row.orderQty == Fin(40.0)
      && row.daysOfSupply == Some(2.0)
  {
    WorkedRate();
    RowArithmetic("A", WorkedInputs());
    assert Ceil(50.0) == 50;
    assert Ceil(50.0 - 10.0) == 40;
  }

  /** The inventory-only example: 30 on hand and no sales give no order. */
  lemma InventoryOnlyExample()
    ensures var c := Inputs(14.0, Fin(7.0), Fin(3.0), map[],
                             map["B" := InvRow("B", Some(30.0), None)], map[]);
      var row := ComputeRow("B", c);
      && row.dailyRate == 0.0 && row.daysOfSupply.None?
      && row.orderQty == Fin(0.0) && row.targetStock == Fin(0.0)
  {
    var c := Inputs(14.0, Fin(7.0), Fin(3.0), map[],
                    map["B" := InvRow("B", Some(30.0), None)], map[]);
    UnsoldSkuRow("B", c);
  }

  // ---------------------------------------------------------------------------
  // All rows
  // ---------------------------------------------------------------------------

  /** `rows` holds, for each SKU of `skus` and nothing else, exactly one row: its computed row. */
  ghost predicate RowsFor(rows: seq<ReorderRow>, skus: set<string>, c: Inputs)
    requires c.lookback >= 1.0
  {
    && (forall i :: 0 <= i < |rows| ==> rows[i].sku in skus && rows[i] == ComputeRow(rows[i].sku, c))
    && (forall sku :: sku in skus ==> exists i :: 0 <= i < |rows| && rows[i].sku == sku)
    && (forall i, j :: 0 <= i < j < |rows| ==> rows[i].sku != rows[j].sku)
  }

  /** The loop `for (const sku of allSkus) rows.push(...)`, in some iteration order. */
  method BuildRows(skus: set<string>, c: Inputs) returns (rows: seq<ReorderRow>)
    requires c.lookback >= 1.0
    ensures RowsFor(rows, skus, c)
  {
    rows := [];
    var todo := skus;
    while todo != {}
      invariant todo <= skus
      invariant forall i :: 0 <= i < |rows| ==> rows[i].sku in skus - todo && rows[i] == ComputeRow(rows[i].sku, c)
      invariant forall sku :: sku in skus - todo ==> exists i :: 0 <= i < |rows| && rows[i].sku == sku
      invariant forall i, j :: 0 <= i < j < |rows| ==> rows[i].sku != rows[j].sku
      decreases todo
    {
      var sku :| sku in todo;
      var before, todo0 := rows, todo;
      rows := rows + [ComputeRow(sku, c)];
      todo := todo - {sku};
      assert rows[|before|].sku == sku;
      assert forall i :: 0 <= i < |before| ==> rows[i] == before[i];
      forall s | s in skus - todo ensures exists i :: 0 <= i < |rows| && rows[i].sku == s {
        if s == sku {
          assert rows[|before|].sku == s;
        } else {
          assert s in skus - todo0;
          var i :| 0 <= i < |before| && before[i].sku == s;
          assert rows[i].sku == s;
        }
      }
    }
    assert skus - todo == skus;
  }

  // ---------------------------------------------------------------------------
  // Ranking
  // ---------------------------------------------------------------------------

  /** `a.days_of_supply ?? 1e9`. */
  function SupplyKey(r: ReorderRow): (k: real)
    ensures k < 1e9 <==> r.daysOfSupply.Some? && r.daysOfSupply.value < 1e9
  {
    if r.daysOfSupply.Some? then r.daysOfSupply.value else 1e9
  }

  /**
   * The comparator's value: `(a.days_of_supply ?? 1e9) - (b.days_of_supply ?? 1e9)`,
   * or, when that is 0 (falsy), `b.order_qty - a.order_qty`.
   */
  function Compare(a: ReorderRow, b: ReorderRow): (r: Num)
    ensures r.Fin? && r.r < 0.0 ==> SupplyKey(a) <= SupplyKey(b)
  {
    var d := SupplyKey(a) - SupplyKey(b);
    if d != 0.0 then Fin(d) else Sub(b.orderQty, a.orderQty)
  }

  /** Swapping the comparator's arguments negates its value, and keeps NaN. */
  lemma CompareAntisymmetric(a: ReorderRow, b: ReorderRow)
    ensures Compare(b, a) == (if Compare(a, b).Fin? then Fin(-Compare(a, b).r) else NaN)
  {
  }

  /**
   * `a` may stand before `b` under the comparator: smaller supply first, then the
   * larger order; a NaN order difference counts as a tie.
   */
  predicate Precedes(a: ReorderRow, b: ReorderRow)
    ensures Precedes(a, b) <==> !Positive(Compare(a, b))
  {
    SupplyKey(a) < SupplyKey(b) ||
    (SupplyKey(a) == SupplyKey(b) && (a.orderQty.NaN? || b.orderQty.NaN? || a.orderQty.r >= b.orderQty.r))
  }

  ghost predicate SortedRows(s: seq<ReorderRow>) {
    forall i, j :: 0 <= i < j < |s| ==> Precedes(s[i], s[j])
  }

  /** Every order quantity is NaN, or none is. */
  ghost predicate QtyKind(s: seq<ReorderRow>, nan: bool) {
    forall i :: 0 <= i < |s| ==> s[i].orderQty.NaN? == nan
  }

  lemma PrecedesTotal(a: ReorderRow, b: ReorderRow)
    ensures Precedes(a, b) || Precedes(b, a)
  {
  }

  lemma PrecedesTransitive(a: ReorderRow, b: ReorderRow, c: ReorderRow)
    requires a.orderQty.NaN? == b.orderQty.NaN? == c.orderQty.NaN?
    requires Precedes(a, b) && Precedes(b, c)
    ensures Precedes(a, c)
  {
  }

  /** Exchanges `a[j - 1]` and `a[j]`. */
  method SwapDown(a: array<ReorderRow>, j: int)
    requires 0 < j < a.Length
    modifies a
    ensures a[j - 1] == old(a[j]) && a[j] == old(a[j - 1])
    ensures forall k :: 0 <= k < a.Length && k != j - 1 && k != j ==> a[k] == old(a[k])
    ensures multiset(a[..]) == old(multiset(a[..]))
  {
    a[j - 1], a[j] := a[j], a[j - 1];
    assert a[..] == old(a[..])[j - 1 := old(a[j])][j := old(a[j - 1])];
  }

  /**
   * Moves `a[i]` down into the sorted prefix `a[..i]`, so that `a[..i + 1]` is sorted
   * and holds the rows it held before; the rest of the array is left alone.
   */
  method InsertDown(a: array<ReorderRow>, i: int, ghost nan: bool)
    requires 0 <= i < a.Length
    requires forall k, l :: 0 <= k < l < i ==> Precedes(a[k], a[l])
    requires forall k :: 0 <= k < a.Length ==> a[k].orderQty.NaN? == nan
    modifies a
    ensures forall k, l :: 0 <= k < l <= i ==> Precedes(a[k], a[l])
    ensures forall k :: 0 <= k < a.Length ==> a[k].orderQty.NaN? == nan
    ensures forall k :: i < k < a.Length ==> a[k] == old(a[k])
    ensures multiset(a[..i + 1]) == multiset(old(a[..])[..i + 1])
    ensures multiset(a[..]) == old(multiset(a[..]))
  {
    SinkDown(a, i, nan);
    ghost var s, t := a[..], old(a[..]);
    PrefixFromWhole(s, t, i + 1);
    assert a[..i + 1] == s[..i + 1];
  }

  /** The swapping loop of `InsertDown`. */
  method SinkDown(a: array<ReorderRow>, i: int, ghost nan: bool)
    requires 0 <= i < a.Length
    requires forall k, l :: 0 <= k < l < i ==> Precedes(a[k], a[l])
    requires forall k :: 0 <= k < a.Length ==> a[k].orderQty.NaN? == nan
    modifies a
    ensures forall k, l :: 0 <= k < l <= i ==> Precedes(a[k], a[l])
    ensures forall k :: 0 <= k < a.Length ==> a[k].orderQty.NaN? == nan
    ensures forall k :: i < k < a.Length ==> a[k] == old(a[k])
    ensures multiset(a[..]) == old(multiset(a[..]))
  {
    var j := i;
    while j > 0 && !Precedes(a[j - 1], a[j])
      invariant 0 <= j <= i
      invariant forall k, l :: 0 <= k < l <= i && k != j && l != j ==> Precedes(a[k], a[l])
      invariant forall l :: j < l <= i ==> Precedes(a[j], a[l])
      invariant multiset(a[..]) == old(multiset(a[..]))
      invariant forall k :: i < k < a.Length ==> a[k] == old(a[k])
      invariant forall k :: 0 <= k < a.Length ==> a[k].orderQty.NaN? == nan
    {
      PrecedesTotal(a[j - 1], a[j]);
      SwapDown(a, j);
      j := j - 1;
    }
    if j > 0 {
      forall k | 0 <= k < j - 1 ensures Precedes(a[k], a[j]) {
        PrecedesTransitive(a[k], a[j - 1], a[j]);
      }
    }
  }

  /** Two sequences with the same multiset that agree from `n` on have the same suffix and prefixes with the same multiset. */
  lemma PrefixFromWhole(s: seq<ReorderRow>, t: seq<ReorderRow>, n: int)
    requires 0 <= n <= |s| == |t| && multiset(s) == multiset(t)
    requires forall k :: n <= k < |s| ==> s[k] == t[k]
    ensures s[n..] == t[n..]
    ensures multiset(s[..n]) == multiset(t[..n])
  {
    assert s[n..] == t[n..];
    assert s == s[..n] + s[n..];
    assert t == t[..n] + t[n..];
    assert multiset(s) == multiset(s[..n]) + multiset(s[n..]);
    assert multiset(t) == multiset(t[..n]) + multiset(t[n..]);
    forall x ensures multiset(s[..n])[x] == multiset(t[..n])[x] {
      assert multiset(s)[x] == multiset(s[..n])[x] + multiset(s[n..])[x];
      assert multiset(t)[x] == multiset(t[..n])[x] + multiset(t[n..])[x];
    }
  }

  /** `rows.sort(...)` in place: an insertion sort. */
  method SortRows(a: array<ReorderRow>, ghost nan: bool)
    requires QtyKind(a[..], nan)
    modifies a
    ensures SortedRows(a[..])
    ensures multiset(a[..]) == old(multiset(a[..]))
  {
    var i := 0;
    while i < a.Length
      invariant 0 <= i <= a.Length
      invariant forall k, l :: 0 <= k < l < i ==> Precedes(a[k], a[l])
      invariant multiset(a[..]) == old(multiset(a[..]))
      invariant forall k :: 0 <= k < a.Length ==> a[k].orderQty.NaN? == nan
    {
      InsertDown(a, i, nan);
      i := i + 1;
    }
  }

  /** Rows without days of supply (no sales) come after every row with some, while supply stays below 1e9. */
  lemma UnsoldRowsLast(s: seq<ReorderRow>)
    requires SortedRows(s)
    requires forall i :: 0 <= i < |s| && s[i].daysOfSupply.Some? ==> s[i].daysOfSupply.value < 1e9
    ensures forall i, j :: 0 <= i < j < |s| && s[i].daysOfSupply.None? ==> s[j].daysOfSupply.None?
  {
  }

  /**
   * The ranking example: supplies [null, 2.0, 2.0, 0.5] with orders [5, 10, 20, 1]
   * rank as 0.5, then 2.0 with 20, then 2.0 with 10, then null; each other order breaks the comparator.
   */
  lemma RankingExample(r: seq<ReorderRow>)
    requires |r| == 4
    requires r[0].daysOfSupply == None && r[0].orderQty == Fin(5.0)
    requires r[1].daysOfSupply == Some(2.0) && r[1].orderQty == Fin(10.0)
    requires r[2].daysOfSupply == Some(2.0) && r[2].orderQty == Fin(20.0)
    requires r[3].daysOfSupply == Some(0.5) && r[3].orderQty == Fin(1.0)
    ensures SortedRows([r[3], r[2], r[1], r[0]])
    ensures !Precedes(r[0], r[1]) && !Precedes(r[0], r[2]) && !Precedes(r[0], r[3])
    ensures !Precedes(r[1], r[2]) && !Precedes(r[1], r[3]) && !Precedes(r[2], r[3])
  {
  }

  // ---------------------------------------------------------------------------
  // The report
  // ---------------------------------------------------------------------------

  datatype ReportOut = ReportOut(lookback: real, lead: Num, safety: Num, rows: seq<ReorderRow>)

  /** `since.toISOString()` throws a RangeError when `lookback` is NaN (an invalid date). */
  datatype ReportError = InvalidSinceDate

  function ReportInputs(lookback: real, lead: Num, safety: Num,
                        sales: seq<SaleRow>, inv: seq<InvRow>, prods: seq<ProdRow>): Inputs {
    Inputs(lookback, lead, safety, SalesTotals(sales), IndexBy(inv, InvSku), IndexBy(prods, ProdSku))
  }

  lemma DistinctMultiplicity(s: seq<ReorderRow>, x: ReorderRow)
    requires forall i, j :: 0 <= i < j < |s| ==> s[i] != s[j]
    ensures multiset(s)[x] <= 1
  {
    if s != [] {
      var t := s[1..];
      assert s == [s[0]] + t;
      DistinctMultiplicity(t, x);
      assert forall j :: 0 <= j < |t| ==> t[j] == s[j + 1];
    }
  }

  lemma RepeatedMultiplicity(s: seq<ReorderRow>, i: int, j: int)
    requires 0 <= i < j < |s| && s[i] == s[j]
    ensures multiset(s)[s[i]] >= 2
  {
    assert s == s[..j] + s[j..];
    assert s[i] == s[..j][i];
    assert s[j..][0] == s[j];
    assert multiset(s) == multiset(s[..j]) + multiset(s[j..]);
  }

  /** A permutation of the rows for a set of SKUs is again the rows for that set. */
  lemma RowsForPermutation(s: seq<ReorderRow>, t: seq<ReorderRow>, skus: set<string>, c: Inputs)
    requires c.lookback >= 1.0
    requires RowsFor(s, skus, c) && multiset(s) == multiset(t)
    ensures RowsFor(t, skus, c)
  {
    forall i | 0 <= i < |t| ensures t[i].sku in skus && t[i] == ComputeRow(t[i].sku, c) {
      assert t[i] in multiset(s);
    }
    forall sku | sku in skus ensures exists i :: 0 <= i < |t| && t[i].sku == sku {
      var k :| 0 <= k < |s| && s[k].sku == sku;
      assert s[k] in multiset(t);
      var i :| 0 <= i < |t| && t[i] == s[k];
    }
    forall i, j | 0 <= i < j < |t| ensures t[i].sku != t[j].sku {
      if t[i].sku == t[j].sku {
        assert t[i] == t[j];
        RepeatedMultiplicity(t, i, j);
        DistinctMultiplicity(s, t[i]);
      }
    }
  }

  /** A SKU known only from the catalog (no truthy sale, no inventory row) gets no row. */
  lemma CatalogOnlySkuNotReported(rows: seq<ReorderRow>, sales: seq<SaleRow>, inv: seq<InvRow>,
                                  c: Inputs, sku: string)
    requires c.lookback >= 1.0
    requires RowsFor(rows, ReportSkus(sales, inv), c)
    requires sku == "" || forall i :: 0 <= i < |sales| ==> sales[i].sku != sku
    requires forall i :: 0 <= i < |inv| ==> inv[i].sku != sku
    ensures forall i :: 0 <= i < |rows| ==> rows[i].sku != sku
  {
    assert sku !in ReportSkus(sales, inv);
  }

  /**
   * The report handler after its three reads: NaN lookback fails; otherwise the
   * parameters are echoed and the rows are one computed row per SKU sold or stocked,
   * ranked by the comparator.
   */
  method Report(lookbackQ: Option<string>, leadQ: Option<string>, safetyQ: Option<string>,
                sales: seq<SaleRow>, inv: seq<InvRow>, prods: seq<ProdRow>)
    returns (res: Result<ReportOut, ReportError>)
    ensures res.Failure? <==> Lookback(lookbackQ).NaN?
    ensures res.Success? ==>
              var out := res.value;
              && Fin(out.lookback) == Lookback(lookbackQ) && out.lead == Lead(leadQ) && out.safety == Safety(safetyQ)
              && out.lookback >= 1.0
              && RowsFor(out.rows, ReportSkus(sales, inv),
                         ReportInputs(out.lookback, out.lead, out.safety, sales, inv, prods))
              && SortedRows(out.rows)
  {
    var lookback, lead, safety := Lookback(lookbackQ), Lead(leadQ), Safety(safetyQ);
    if lookback.NaN? {
      return Failure(InvalidSinceDate);
    }
    var sums := SumBySku(sales);
    var invBySku := IndexBy(inv, InvSku);
    var prodBySku := IndexBy(prods, ProdSku);
    var c := Inputs(lookback.r, lead, safety, sums, invBySku, prodBySku);
    var skus := sums.Keys + invBySku.Keys;
    var rows := BuildRows(skus, c);
    var a := new ReorderRow[|rows|](i requires 0 <= i < |rows| => rows[i]);
    assert a[..] == rows;
    ghost var nan := !(lead.Fin? && safety.Fin?);
    assert QtyKind(a[..], nan);
    SortRows(a, nan);
    RowsForPermutation(rows, a[..], skus, c);
    res := Success(ReportOut(lookback.r, lead, safety, a[..]));
  }
}
