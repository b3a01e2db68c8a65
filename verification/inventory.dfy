/** The inventory turnover analysis: per storable product, the cost of the
    goods it sold to customers in the period, its average inventory value,
    and from them its turnover ratio and days of inventory; then the same
    figures over all products together. */
module Inventory {
  import opened Wrappers
  import opened Dates
  import opened Domains
  import opened Models
  import opened Backend
  import opened Seqs
  import opened Grouping
  import opened Orders

  const ProductModel: string := "product.product"
  const MoveModel: string := "stock.move"
  const ProductFields: seq<string> := ["name", "default_code", "categ_id", "standard_price"]
  const MoveFields: seq<string> := ["product_uom_qty", "price_unit"]

  const NoProductsError: string := "No se encontraron productos con los criterios especificados"

  /** The category shown for a product without one. */
  const NoCategoryName: string := "Sin categoría"

  // ----- the product domain -----

  function StorableCondition(): DomainCondition { DomainCondition("type", "=", VStr("product")) }
  function IdsCondition(ids: seq<int>): DomainCondition { DomainCondition("id", "in", VList(Ints(ids))) }
  function CategoryCondition(c: int): DomainCondition { DomainCondition("categ_id", "=", VInt(c)) }

  function ProductConditions(p: InventoryTurnoverInput): seq<DomainCondition> {
    [StorableCondition()]
    + Optional(GivenIds(p.productIds), IdsCondition(p.productIds.GetOr([])))
    + Optional(GivenId(p.categoryId), CategoryCondition(p.categoryId.GetOr(0)))
  }

  /** Storable products, restricted to the requested ids when a non-empty
      list is given and to the requested category when a non-zero one is. */
  function ProductDomain(p: InventoryTurnoverInput): Domain {
    Leaves(ProductConditions(p))
  }

  lemma ProductDomainSelects(p: InventoryTurnoverInput, holds: DomainCondition -> bool)
    ensures Selects(ProductDomain(p), holds) == Some(
      && holds(StorableCondition())
      && (GivenIds(p.productIds) ==> holds(IdsCondition(p.productIds.value)))
      && (GivenId(p.categoryId) ==> holds(CategoryCondition(p.categoryId.value))))
  {
    var cs := ProductConditions(p);
    LeavesAreConjunction(cs, holds);
    var ids, cat := GivenIds(p.productIds), GivenId(p.categoryId);
    if ids && cat {
      assert cs == [StorableCondition(), IdsCondition(p.productIds.value), CategoryCondition(p.categoryId.value)];
      assert AllHold(cs, holds) <==> holds(cs[0]) && holds(cs[1]) && holds(cs[2]);
    } else if ids {
      assert cs == [StorableCondition(), IdsCondition(p.productIds.value)];
      assert AllHold(cs, holds) <==> holds(cs[0]) && holds(cs[1]);
    } else if cat {
      assert cs == [StorableCondition(), CategoryCondition(p.categoryId.value)];
      assert AllHold(cs, holds) <==> holds(cs[0]) && holds(cs[1]);
    } else {
      assert cs == [StorableCondition()];
      assert AllHold(cs, holds) <==> holds(cs[0]);
    }
  }

  /** The product's moves of the period to a customer location. */
  function OutgoingDomain(productId: int, from: string, to: string): Domain {
    Leaves([DomainCondition("product_id", "=", VInt(productId)),
            DomainCondition("date", ">=", VStr(from)),
            DomainCondition("date", "<=", VStr(to)),
            DomainCondition("location_dest_id.usage", "=", VStr("customer"))])
  }

  // ----- fetched records -----

  datatype Product = Product(id: int, name: string, defaultCode: Option<string>, category: Relation, standardPrice: real)

  /** An outgoing stock move: its quantity and its unit price, unset or 0
      when the move carries none. */
  datatype Move = Move(quantity: real, priceUnit: Option<real>)

  /** The backend's replies to the calls made for one product: the outgoing
      moves, then the `stock_value` and `qty_available` reads at the start
      and at the end of the period, each a list of the values read. */
  datatype ProductReplies = ProductReplies(
    moves: Envelope<seq<Move>>,
    valueStart: Envelope<seq<real>>, valueEnd: Envelope<seq<real>>,
    qtyStart: Envelope<seq<real>>, qtyEnd: Envelope<seq<real>>)

  // ----- cost of goods sold -----

  /** `move.get("price_unit") or standard_price`: the standard price stands
      in for a missing or zero unit price. */
  function UnitCost(m: Move, standardPrice: real): (c: real)
    ensures m.priceUnit.Some? && m.priceUnit.value != 0.0 ==> c == m.priceUnit.value
    ensures m.priceUnit.None? || m.priceUnit.value == 0.0 ==> c == standardPrice
  {
    if m.priceUnit.Some? && m.priceUnit.value != 0.0 then m.priceUnit.value else standardPrice
  }

  /** The cost of goods sold: each move's quantity at its unit cost. */
  function Cogs(moves: seq<Move>, standardPrice: real): real {
    if |moves| == 0 then 0.0
    else Cogs(moves[..|moves| - 1], standardPrice) + moves[|moves| - 1].quantity * UnitCost(moves[|moves| - 1], standardPrice)
  }

  /** Costs add up over consecutive batches of moves. */
  lemma {:induction false} CogsAppend(a: seq<Move>, b: seq<Move>, standardPrice: real)
    ensures Cogs(a + b, standardPrice) == Cogs(a, standardPrice) + Cogs(b, standardPrice)
    decreases |b|
  {
    if |b| == 0 {
      assert a + b == a;
    } else {
      assert (a + b)[..|a + b| - 1] == a + b[..|b| - 1];
      CogsAppend(a, b[..|b| - 1], standardPrice);
    }
  }

  /** Moves of non-negative quantity at non-negative costs cost nothing
      negative. */
  lemma {:induction false} CogsNonNegative(moves: seq<Move>, standardPrice: real)
    requires standardPrice >= 0.0
    requires forall i :: 0 <= i < |moves| ==> moves[i].quantity >= 0.0
    requires forall i :: 0 <= i < |moves| ==> moves[i].priceUnit.Some? ==> moves[i].priceUnit.value >= 0.0
    ensures Cogs(moves, standardPrice) >= 0.0
    decreases |moves|
  {
    if |moves| > 0 {
      CogsNonNegative(moves[..|moves| - 1], standardPrice);
      var m := moves[|moves| - 1];
      assert UnitCost(m, standardPrice) >= 0.0;
    }
  }

  // ----- average inventory value -----

  /** `reply[0][field] if reply else 0`. */
  function FirstOrZero(xs: seq<real>): real {
    if |xs| > 0 then xs[0] else 0.0
  }

  function ValueRead(id: int, date: string): Call { ReadAsOf(ProductModel, [id], ["stock_value"], date) }
  function QtyRead(id: int, date: string): Call { ReadAsOf(ProductModel, [id], ["qty_available"], date) }

  /** The calls the valuation attempt makes: the end read only after the
      start read succeeded. */
  function ValuationCalls(prod: Product, from: string, to: string, r: ProductReplies): seq<Call> {
    if r.valueStart.Success? then [ValueRead(prod.id, from), ValueRead(prod.id, to)] else [ValueRead(prod.id, from)]
  }

  /** The average inventory value: the mean of the stock values at the two
      period bounds; if either valuation read fails, the mean of the
      quantities on hand at the bounds times the standard price, whose reads
      may fail in turn. */
  function AverageValue(prod: Product, from: string, to: string, r: ProductReplies): (res: Run<real>)
    ensures r.valueStart.Success? && r.valueEnd.Success? ==>
      res == Run(Success((FirstOrZero(r.valueStart.result) + FirstOrZero(r.valueEnd.result)) / 2.0),
                 [ValueRead(prod.id, from), ValueRead(prod.id, to)])
    ensures r.valueStart.Failure? || r.valueEnd.Failure? ==>
      && |res.calls| >= 1 + |ValuationCalls(prod, from, to, r)|
      && res.calls[..|ValuationCalls(prod, from, to, r)|] == ValuationCalls(prod, from, to, r)
      && res.calls[|ValuationCalls(prod, from, to, r)|] == QtyRead(prod.id, from)
      && (res.envelope.Success? <==> r.qtyStart.Success? && r.qtyEnd.Success?)
      && (r.qtyStart.Failure? ==> res.envelope == Failure(r.qtyStart.error))
      && (r.qtyStart.Success? && r.qtyEnd.Failure? ==> res.envelope == Failure(r.qtyEnd.error))
      && (res.envelope.Success? ==>
            res.envelope.result == ((FirstOrZero(r.qtyStart.result) + FirstOrZero(r.qtyEnd.result)) / 2.0) * prod.standardPrice)
  {
    var tried := ValuationCalls(prod, from, to, r);
    if r.valueStart.Success? && r.valueEnd.Success? then
      Run(Success((FirstOrZero(r.valueStart.result) + FirstOrZero(r.valueEnd.result)) / 2.0), tried)
    else
      var startRead := QtyRead(prod.id, from);
      match r.qtyStart
      case Failure(e) => Run(Failure(e), tried + [startRead])
      case Success(qs) =>
        var endRead := QtyRead(prod.id, to);
        match r.qtyEnd
        case Failure(e) => Run(Failure(e), tried + [startRead, endRead])
        case Success(qe) =>
          Run(Success(((FirstOrZero(qs) + FirstOrZero(qe)) / 2.0) * prod.standardPrice), tried + [startRead, endRead])
  }

  // ----- turnover -----

  /** `cogs / avg_value`, or 0 when the average value is not positive. */
  function Turnover(cogs: real, avgValue: real): (t: real)
    ensures avgValue > 0.0 ==> t * avgValue == cogs
    ensures avgValue <= 0.0 ==> t == 0.0
  {
    if avgValue > 0.0 then cogs / avgValue else 0.0
  }

  /** `days / turnover`, or 0 when the turnover is not positive. */
  function DaysOfInventory(days: int, turnover: real): (d: real)
    ensures turnover > 0.0 ==> d * turnover == days as real
    ensures turnover <= 0.0 ==> d == 0.0
  {
    if turnover > 0.0 then days as real / turnover else 0.0
  }

  /** With positive cost and positive average value, the days of inventory
      are the period's days scaled by value over cost; otherwise they are 0. */
  lemma DaysOfInventoryFromValue(days: int, cogs: real, avgValue: real)
    ensures avgValue > 0.0 && cogs > 0.0 ==> DaysOfInventory(days, Turnover(cogs, avgValue)) * cogs == (days as real) * avgValue
    ensures avgValue <= 0.0 || cogs <= 0.0 ==> DaysOfInventory(days, Turnover(cogs, avgValue)) == 0.0
  {
    var t := Turnover(cogs, avgValue);
    if avgValue > 0.0 && cogs > 0.0 {
      var d := DaysOfInventory(days, t);
      assert t * avgValue == cogs;
      assert t > 0.0;
      assert d * t == days as real;
      calc {
        d * cogs;
        d * (t * avgValue);
        (d * t) * avgValue;
        (days as real) * avgValue;
      }
    } else if avgValue > 0.0 {
      assert t * avgValue == cogs;
    }
  }

  /** One entry of the result's `products` list. */
  datatype ProductTurnover = ProductTurnover(
    id: int, name: string, defaultCode: Option<string>, category: string,
    cogs: real, avgInventoryValue: real, turnoverRatio: real, daysInventory: real)

  function RowCogs(t: ProductTurnover): real { t.cogs }
  function RowValue(t: ProductTurnover): real { t.avgInventoryValue }
  function RowTurnover(t: ProductTurnover): real { t.turnoverRatio }

  function CategoryName(rel: Relation): string {
    if rel.Some? then rel.value.1 else NoCategoryName
  }

  function MovesFetch(id: int, p: InventoryTurnoverInput): Call {
    Fetch(MoveModel, OutgoingDomain(id, p.dateFrom, p.dateTo), MoveFields)
  }

  /** The figures of one product over a period of `days` days. */
  function ProductRun(p: InventoryTurnoverInput, days: int, prod: Product, r: ProductReplies): (res: Run<ProductTurnover>)
    ensures |res.calls| >= 1 && res.calls[0] == MovesFetch(prod.id, p)
    ensures r.moves.Failure? ==> res == Run(Failure(r.moves.error), [MovesFetch(prod.id, p)])
    ensures r.moves.Success? ==>
      var avg := AverageValue(prod, p.dateFrom, p.dateTo, r);
      && res.calls == [MovesFetch(prod.id, p)] + avg.calls
      && (res.envelope.Success? <==> avg.envelope.Success?)
      && (avg.envelope.Failure? ==> res.envelope == Failure(avg.envelope.error))
    ensures res.envelope.Success? ==>
      var t := res.envelope.result;
      && t.id == prod.id && t.name == prod.name && t.defaultCode == prod.defaultCode
      && t.category == CategoryName(prod.category)
      && t.cogs == Cogs(r.moves.result, prod.standardPrice)
      && t.avgInventoryValue == AverageValue(prod, p.dateFrom, p.dateTo, r).envelope.result
      && (t.avgInventoryValue > 0.0 ==> t.turnoverRatio * t.avgInventoryValue == t.cogs)
      && (t.avgInventoryValue <= 0.0 ==> t.turnoverRatio == 0.0)
      && (t.turnoverRatio > 0.0 ==> t.daysInventory * t.turnoverRatio == days as real)
      && (t.turnoverRatio <= 0.0 ==> t.daysInventory == 0.0)
  {
    var fetch := MovesFetch(prod.id, p);
    match r.moves
    case Failure(e) => Run(Failure(e), [fetch])
    case Success(moves) =>
      var avg := AverageValue(prod, p.dateFrom, p.dateTo, r);
      match avg.envelope
      case Failure(e) => Run(Failure(e), [fetch] + avg.calls)
      case Success(value) =>
        var cogs := Cogs(moves, prod.standardPrice);
        var ratio := Turnover(cogs, value);
        Run(Success(ProductTurnover(prod.id, prod.name, prod.defaultCode, CategoryName(prod.category),
                                    cogs, value, ratio, DaysOfInventory(days, ratio))),
            [fetch] + avg.calls)
  }

  /** Each product's run, in order. */
  function ProductRuns(p: InventoryTurnoverInput, days: int, prods: seq<Product>, replies: int -> ProductReplies)
    : (rs: seq<Run<ProductTurnover>>)
    ensures |rs| == |prods|
    ensures forall i :: 0 <= i < |prods| ==> rs[i] == ProductRun(p, days, prods[i], replies(prods[i].id))
  {
    seq(|prods|, i requires 0 <= i < |prods| => ProductRun(p, days, prods[i], replies(prods[i].id)))
  }

  /** The runs of the first `n` products are the first `n` runs. */
  lemma ProductRunsPrefixes(p: InventoryTurnoverInput, days: int, prods: seq<Product>, replies: int -> ProductReplies)
    ensures forall n :: 0 <= n <= |prods| ==>
      ProductRuns(p, days, prods[..n], replies) == ProductRuns(p, days, prods, replies)[..n]
  {
  }

  /** The products' figures in order, stopping at the first product whose
      calls fail; `replies(id)` are the backend's replies for product `id`. */
  function ProductsRun(p: InventoryTurnoverInput, days: int, prods: seq<Product>, replies: int -> ProductReplies)
    : (res: Run<seq<ProductTurnover>>)
    ensures res.envelope.Success? <==>
      forall i :: 0 <= i < |prods| ==> ProductRun(p, days, prods[i], replies(prods[i].id)).envelope.Success?
    ensures res.envelope.Success? ==>
      && |res.envelope.result| == |prods|
      && forall i :: 0 <= i < |prods| ==>
           res.envelope.result[i] == ProductRun(p, days, prods[i], replies(prods[i].id)).envelope.result
    ensures res.envelope.Success? ==> res.calls == AllCalls(ProductRuns(p, days, prods, replies))
    ensures res.envelope.Failure? ==> exists i ::
      && FirstFailure(ProductRuns(p, days, prods, replies), i)
      && res.envelope.error == ProductRun(p, days, prods[i], replies(prods[i].id)).envelope.error
      && res.calls == AllCalls(ProductRuns(p, days, prods[..i + 1], replies))
    ensures |prods| == 0 <==> res.calls == []
    ensures |prods| > 0 ==> res.calls[0] == MovesFetch(prods[0].id, p)
  {
    var rs := ProductRuns(p, days, prods, replies);
    ProductRunsPrefixes(p, days, prods, replies);
    Sequence(rs)
  }

  // ----- the per-product table -----

  function RowIds(ts: seq<ProductTurnover>): set<int> {
    set i | 0 <= i < |ts| :: ts[i].id
  }

  predicate DistinctRows(ts: seq<ProductTurnover>) {
    forall i, j :: 0 <= i < j < |ts| ==> ts[i].id != ts[j].id
  }

  function RowIndex(ts: seq<ProductTurnover>, id: int): (i: int)
    ensures -1 <= i < |ts|
    ensures i >= 0 ==> ts[i].id == id
    ensures i < 0 ==> id !in RowIds(ts)
  {
    if |ts| == 0 then -1
    else if ts[|ts| - 1].id == id then |ts| - 1
    else
      assert RowIds(ts) == RowIds(ts[..|ts| - 1]) + {ts[|ts| - 1].id};
      RowIndex(ts[..|ts| - 1], id)
  }

  /** Writing a known id keeps the ids and their distinctness. */
  lemma ReplaceRow(table: seq<ProductTurnover>, i: int, t: ProductTurnover)
    requires 0 <= i < |table| && table[i].id == t.id && DistinctRows(table)
    ensures DistinctRows(table[i := t])
    ensures RowIds(table[i := t]) == RowIds(table)
    ensures forall u :: u in table[i := t] ==> u in table || u == t
  {
    var table' := table[i := t];
    assert forall j :: 0 <= j < |table| ==> table'[j].id == table[j].id;
    forall u | u in table'
      ensures u in table || u == t
    {
      var j :| 0 <= j < |table'| && table'[j] == u;
      if j != i { assert table[j] == u; }
    }
  }

  /** Writing a new id appends it. */
  lemma AppendRow(table: seq<ProductTurnover>, t: ProductTurnover)
    requires t.id !in RowIds(table) && DistinctRows(table)
    ensures DistinctRows(table + [t])
    ensures RowIds(table + [t]) == RowIds(table) + {t.id}
  {
    var table' := table + [t];
    assert forall j :: 0 <= j < |table| ==> table'[j] == table[j];
    assert forall j :: 0 <= j < |table| ==> table[j].id in RowIds(table);
    assert table'[|table|] == t;
  }

  /** The dictionary the loop builds from the rows, in insertion order:
      `product_turnover[id] = row` appends a new id, and a known id keeps
      its place and takes the new row. */
  function Table(ts: seq<ProductTurnover>): (table: seq<ProductTurnover>)
    ensures DistinctRows(table)
    ensures RowIds(table) == RowIds(ts)
    ensures forall t :: t in table ==> t in ts
  {
    if |ts| == 0 then []
    else
      var init := Table(ts[..|ts| - 1]);
      var t := ts[|ts| - 1];
      var i := RowIndex(init, t.id);
      assert RowIds(ts) == RowIds(ts[..|ts| - 1]) + {t.id};
      assert forall u :: u in init ==> u in ts;
      if i >= 0 then
        ReplaceRow(init, i, t);
        init[i := t]
      else
        AppendRow(init, t);
        init + [t]
  }

  /** With distinct ids, which the backend's records have, the table is the
      rows themselves. */
  lemma {:induction false} TableOfDistinct(ts: seq<ProductTurnover>)
    requires DistinctRows(ts)
    ensures Table(ts) == ts
    decreases |ts|
  {
    if |ts| > 0 {
      var init := ts[..|ts| - 1];
      TableOfDistinct(init);
      assert ts[|ts| - 1].id !in RowIds(init);
    }
  }

  // ----- the analysis -----

  datatype InventoryPeriod = InventoryPeriod(from: string, to: string, days: int)

  datatype TurnoverSummary = TurnoverSummary(
    productCount: nat, totalCogs: real, totalAvgInventoryValue: real,
    overallTurnoverRatio: real, overallDaysInventory: real)

  datatype TurnoverReport = TurnoverReport(period: InventoryPeriod, summary: TurnoverSummary, products: seq<ProductTurnover>)

  function ProductFetch(p: InventoryTurnoverInput): Call {
    Fetch(ProductModel, ProductDomain(p), ProductFields)
  }

  /** The report from the products' rows: the table sorted by non-increasing
      turnover (ties in insertion order), and the overall figures from the
      table's totals. */
  function Report(p: InventoryTurnoverInput, days: int, productCount: nat, ts: seq<ProductTurnover>): (r: TurnoverReport)
    ensures r.period == InventoryPeriod(p.dateFrom, p.dateTo, days)
    ensures multiset(r.products) == multiset(Table(ts))
    ensures SortedDesc(r.products, RowTurnover)
    ensures r.summary.productCount == productCount
    ensures r.summary.totalCogs == Sum(r.products, RowCogs) == Sum(Table(ts), RowCogs)
    ensures r.summary.totalAvgInventoryValue == Sum(r.products, RowValue) == Sum(Table(ts), RowValue)
    ensures r.summary.overallTurnoverRatio == Turnover(r.summary.totalCogs, r.summary.totalAvgInventoryValue)
    ensures r.summary.overallDaysInventory == DaysOfInventory(days, r.summary.overallTurnoverRatio)
    ensures forall v :: WithKey(r.products, RowTurnover, v) == WithKey(Table(ts), RowTurnover, v)
  {
    var table := Table(ts);
    var sorted := SortDesc(table, RowTurnover);
    forall v
      ensures WithKey(sorted, RowTurnover, v) == WithKey(table, RowTurnover, v)
    {
      SortDescStable(table, RowTurnover, v);
    }
    SortDescSum(table, RowTurnover, RowCogs);
    SortDescSum(table, RowTurnover, RowValue);
    var cogs, value := Sum(table, RowCogs), Sum(table, RowValue);
    var overall := Turnover(cogs, value);
    TurnoverReport(InventoryPeriod(p.dateFrom, p.dateTo, days),
                   TurnoverSummary(productCount, cogs, value, overall, DaysOfInventory(days, overall)),
                   sorted)
  }

  /** The analysis once both bounds have parsed; `days` is the period's
      length in days counting both bounds. */
  function AnalyzePeriod(p: InventoryTurnoverInput, days: int, products: Envelope<seq<Product>>,
                         replies: int -> ProductReplies): (r: Run<TurnoverReport>)
    ensures |r.calls| >= 1 && r.calls[0] == ProductFetch(p)
    ensures products.Failure? ==> r == Run(Failure(products.error), [ProductFetch(p)])
    ensures products.Success? && |products.result| == 0 ==> r == Run(Failure(NoProductsError), [ProductFetch(p)])
    ensures products.Success? && |products.result| > 0 ==>
      var run := ProductsRun(p, days, products.result, replies);
      && r.calls == [ProductFetch(p)] + run.calls
      && (r.envelope.Success? <==> run.envelope.Success?)
      && (run.envelope.Failure? ==> r.envelope == Failure(run.envelope.error))
      && (run.envelope.Success? ==> r.envelope.result == Report(p, days, |products.result|, run.envelope.result))
  {
    var fetch := ProductFetch(p);
    match products
    case Failure(e) => Run(Failure(e), [fetch])
    case Success(prods) =>
      if |prods| == 0 then Run(Failure(NoProductsError), [fetch])
      else
        var run := ProductsRun(p, days, prods, replies);
        match run.envelope
        case Failure(e) => Run(Failure(e), [fetch] + run.calls)
        case Success(ts) => Run(Success(Report(p, days, |prods|, ts)), [fetch] + run.calls)
  }

  /** A permutation of the rows lists every row's id. */
  lemma PermutationKeepsIds(ts: seq<ProductTurnover>, entries: seq<ProductTurnover>)
    requires multiset(entries) == multiset(ts)
    ensures |entries| == |ts|
    ensures forall i :: 0 <= i < |ts| ==> exists j :: 0 <= j < |entries| && entries[j].id == ts[i].id
  {
    assert |entries| == |multiset(entries)| == |multiset(ts)| == |ts|;
    forall i | 0 <= i < |ts|
      ensures exists j :: 0 <= j < |entries| && entries[j].id == ts[i].id
    {
      assert ts[i] in multiset(ts);
      assert ts[i] in entries;
      var j :| 0 <= j < |entries| && entries[j] == ts[i];
    }
  }

  /** Each computed row carries its product's id. */
  lemma RunIds(p: InventoryTurnoverInput, days: int, products: seq<Product>, replies: int -> ProductReplies)
    requires ProductsRun(p, days, products, replies).envelope.Success?
    ensures var ts := ProductsRun(p, days, products, replies).envelope.result;
      |ts| == |products| && forall i :: 0 <= i < |ts| ==> ts[i].id == products[i].id
  {
    var ts := ProductsRun(p, days, products, replies).envelope.result;
    forall i | 0 <= i < |ts|
      ensures ts[i].id == products[i].id
    {
      assert ts[i] == ProductRun(p, days, products[i], replies(products[i].id)).envelope.result;
    }
  }

  /** Rows of distinct products give one report entry each. */
  lemma ReportEntries(p: InventoryTurnoverInput, days: int, n: nat, ts: seq<ProductTurnover>, products: seq<Product>)
    requires |ts| == |products| && forall i :: 0 <= i < |ts| ==> ts[i].id == products[i].id
    requires forall i, j :: 0 <= i < j < |products| ==> products[i].id != products[j].id
    ensures var entries := Report(p, days, n, ts).products;
      && |entries| == |products|
      && forall i :: 0 <= i < |products| ==> exists j :: 0 <= j < |entries| && entries[j].id == products[i].id
  {
    TableOfDistinct(ts);
    PermutationKeepsIds(ts, Report(p, days, n, ts).products);
  }

  /** Products with distinct ids, as the backend returns them, give one
      report entry each. */
  lemma OneEntryPerProduct(p: InventoryTurnoverInput, days: int, products: seq<Product>, replies: int -> ProductReplies)
    requires forall i, j :: 0 <= i < j < |products| ==> products[i].id != products[j].id
    requires AnalyzePeriod(p, days, Success(products), replies).envelope.Success?
    ensures var entries := AnalyzePeriod(p, days, Success(products), replies).envelope.result.products;
      && |entries| == |products|
      && forall i :: 0 <= i < |products| ==> exists j :: 0 <= j < |entries| && entries[j].id == products[i].id
  {
    var ts := ProductsRun(p, days, products, replies).envelope.result;
    RunIds(p, days, products, replies);
    ReportEntries(p, days, |products|, ts, products);
  }

  predicate PeriodValid(p: InventoryTurnoverInput) {
    IsValidDate(p.dateFrom) && IsValidDate(p.dateTo)
  }

  /** `analyze_inventory_turnover`: both bounds must parse before any call;
      the period counts `(to - from).days + 1` days. */
  function AnalyzeInventoryTurnover(p: InventoryTurnoverInput, products: Envelope<seq<Product>>,
                                    replies: int -> ProductReplies): (r: Run<TurnoverReport>)
    ensures !PeriodValid(p) <==> r.calls == []
    ensures !PeriodValid(p) ==> r.envelope == Failure(AnalysisDateError)
    ensures PeriodValid(p) ==>
      var days := DaysBetween(Parse(p.dateTo).value, Parse(p.dateFrom).value) + 1;
      r == AnalyzePeriod(p, days, products, replies)
  {
    if !PeriodValid(p) then Run(Failure(AnalysisDateError), [])
    else
      AnalyzePeriod(p, DaysBetween(Parse(p.dateTo).value, Parse(p.dateFrom).value) + 1, products, replies)
  }
}
