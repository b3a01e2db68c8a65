/** The sales tools: order search and creation on `sale.order`, and the
    period analysis with its comparison against the previous period of the
    same length and its optional grouping by product, customer or
    salesperson. */
module Sales {
  import opened Wrappers
  import opened Dates
  import opened Domains
  import opened Models
  import opened Backend
  import opened Seqs
  import opened Grouping
  import opened Orders

  const SaleOrderModel: string := "sale.order"
  const SaleLineModel: string := "sale.order.line"

  /** The fields `search_sales_orders` reads. */
  const SearchFields: seq<string> :=
    ["name", "partner_id", "date_order", "amount_total", "state", "invoice_status", "user_id", "order_line"]

  /** The states of a confirmed sale. */
  const ConfirmedStates: seq<string> := ["sale", "done"]

  const AnalysisFields: seq<string> := ["name", "partner_id", "date_order", "amount_total", "user_id"]
  const LineFields: seq<string> := ["product_id", "product_uom_qty", "price_subtotal"]

  /** How many products and customers an analysis lists. */
  const TopLimit: nat := 10

  // ----- search and creation -----

  /** `search_sales_orders`. */
  function SearchSalesOrders<R>(f: OrderFilter, page: Envelope<seq<R>>, total: Envelope<int>): (r: Run<SearchPage<R>>)
    ensures forall c :: c in r.calls ==> c.SearchRead? || c.SearchCount?
    ensures forall c :: c in r.calls ==> c.model == SaleOrderModel
    ensures OrderSearchDomain(f).Success? ==>
      && |r.calls| > 0
      && r.calls[0] == SearchRead(SaleOrderModel, OrderSearchDomain(f).result, Some(SearchFields), f.limit, f.offset, f.order)
    ensures r.envelope.Success? ==>
      && page.Success? && total.Success? && r.envelope.result.orders == page.result && r.envelope.result.totalCount == total.result
    ensures OrderSearchDomain(f).Failure? ==> r.calls == [] && r.envelope.Failure?
  {
    SearchOrders(SaleOrderModel, SearchFields, f, page, total)
  }

  /** `create_sales_order`: the lines carry their quantity as `product_uom_qty`. */
  function CreateSalesOrder(order: OrderCreate, created: Envelope<int>, names: Envelope<seq<string>>): (r: Run<CreatedOrder>)
    ensures forall c :: c in r.calls ==> c.model == SaleOrderModel
    ensures |r.calls| > 0 ==>
      && r.calls[0].Create?
      && "order_line" in r.calls[0].vals && r.calls[0].vals["order_line"].VList?
      && |r.calls[0].vals["order_line"].items| == |order.orderLines|
      && forall i :: 0 <= i < |order.orderLines| ==>
           LineOf(ProductUomQty, r.calls[0].vals["order_line"].items[i]) == Some(order.orderLines[i])
    ensures r.envelope.Success? ==> created.Success? && r.envelope.result.orderId == created.result
  {
    CreateOrder(SaleOrderModel, ProductUomQty, order, created, names)
  }

  // ----- comparison with the previous period -----

  /** The period of the same length ending the day before `from`:
      `prev_to = from - 1 day`, `prev_from = prev_to - (to - from)`.
      `None` when either subtraction leaves the calendar (Python raises
      `OverflowError`). */
  function PreviousPeriod(from: Date, to: Date): (r: Option<(Date, Date)>)
    ensures r.Some? <==> 2 <= from && 1 <= from - 1 - (to - from) <= MaxOrdinal
    ensures r.Some? ==> r.value.1 + 1 == from
    ensures r.Some? ==> r.value.1 - r.value.0 == to - from
  {
    match Minus(from, 1)
    case None => None
    case Some(prevTo) =>
      match Minus(prevTo, to - from)
      case None => None
      case Some(prevFrom) => Some((prevFrom, prevTo))
  }

  /** For a period running forwards the previous period ends before it
      starts, so the two never overlap. */
  lemma PreviousPeriodBefore(from: Date, to: Date)
    requires from <= to && PreviousPeriod(from, to).Some?
    ensures PreviousPeriod(from, to).value.0 <= PreviousPeriod(from, to).value.1 < from
    ensures to - PreviousPeriod(from, to).value.0 + 1 == 2 * (to - from + 1)
  {
  }

  /** `((current - previous) / previous) * 100` when `previous > 0`, else 0. */
  function PercentChange(current: real, previous: real): (r: real)
    ensures previous > 0.0 ==> r * previous == (current - previous) * 100.0
    ensures previous <= 0.0 ==> r == 0.0
  {
    if previous > 0.0 then ((current - previous) / previous) * 100.0 else 0.0
  }

  /** The change is positive, zero or negative as the current total is above,
      equal to or below a positive previous total, and never below -100% for
      a non-negative current total. */
  lemma PercentChangeSign(current: real, previous: real)
    requires previous > 0.0
    ensures PercentChange(current, previous) > 0.0 <==> current > previous
    ensures PercentChange(current, previous) == 0.0 <==> current == previous
    ensures current >= 0.0 ==> PercentChange(current, previous) >= -100.0
  {
    var r := PercentChange(current, previous);
    assert r * previous == (current - previous) * 100.0;
    if current >= 0.0 {
      assert (r + 100.0) * previous == current * 100.0;
    }
  }

  // ----- fetched records -----

  /** A confirmed order as the analysis reads it. */
  datatype SaleOrder = SaleOrder(id: int, partner: Relation, user: Relation, amountTotal: real)

  /** An order line as the product grouping reads it. */
  datatype SaleLine = SaleLine(product: Relation, quantity: real, subtotal: real)

  function OrderAmount(o: SaleOrder): real { o.amountTotal }
  function Amount(x: real): real { x }

  function OrderId(o: SaleOrder): int { o.id }

  // ----- grouping -----

  /** A line counted under its product: key and name from `product_id`,
      adding its quantity and its subtotal. */
  function LineEntry(l: SaleLine): Entry {
    Entry(RelationId(l.product), RelationName(l.product), l.quantity, l.subtotal, None)
  }

  function LineEntries(ls: seq<SaleLine>): (es: seq<Entry>)
    ensures |es| == |ls| && forall i :: 0 <= i < |ls| ==> es[i] == LineEntry(ls[i])
    ensures forall i :: 0 <= i < |ls| && ls[i].product.None? ==> es[i].key == 0 && es[i].name == UnknownName
  {
    seq(|ls|, i requires 0 <= i < |ls| => LineEntry(ls[i]))
  }

  /** Who an order is counted under. */
  datatype Party = Customer | Salesperson
  {
    function Of(o: SaleOrder): Relation {
      match this
      case Customer => o.partner
      case Salesperson => o.user
    }

    /** Customers are cut to the top ten, salespersons are all listed. */
    function Limit(): Option<nat> {
      match this
      case Customer => Some(TopLimit)
      case Salesperson => None
    }
  }

  /** An order counted under its customer or salesperson, adding its total. */
  function PartyEntry(p: Party, o: SaleOrder): Entry {
    Entry(RelationId(p.Of(o)), RelationName(p.Of(o)), 0.0, o.amountTotal, None)
  }

  function PartyEntries(p: Party, orders: seq<SaleOrder>): (es: seq<Entry>)
    ensures |es| == |orders| && forall i :: 0 <= i < |orders| ==> es[i] == PartyEntry(p, orders[i])
    ensures forall i :: 0 <= i < |orders| && p.Of(orders[i]).None? ==> es[i].key == 0 && es[i].name == UnknownName
  {
    seq(|orders|, i requires 0 <= i < |orders| => PartyEntry(p, orders[i]))
  }

  /** One row of `grouped_data["products"]`. */
  datatype ProductStat = ProductStat(id: int, name: string, quantity: real, amount: real)

  /** One row of `grouped_data["customers"]` or `grouped_data["salespersons"]`. */
  datatype PartyStat = PartyStat(id: int, name: string, orderCount: nat, amount: real)

  function StatCount(s: PartyStat): real { s.orderCount as real }
  function StatAmount(s: PartyStat): real { s.amount }

  function ProductRows(bs: seq<Bucket>): (ps: seq<ProductStat>)
    ensures |ps| == |bs|
    ensures forall i :: 0 <= i < |bs| ==> ps[i] == ProductStat(bs[i].id, bs[i].name, bs[i].quantity, bs[i].amount)
  {
    seq(|bs|, i requires 0 <= i < |bs| => ProductStat(bs[i].id, bs[i].name, bs[i].quantity, bs[i].amount))
  }

  function PartyRows(bs: seq<Bucket>): (ps: seq<PartyStat>)
    ensures |ps| == |bs|
    ensures forall i :: 0 <= i < |bs| ==> ps[i] == PartyStat(bs[i].id, bs[i].name, bs[i].count, bs[i].amount)
  {
    seq(|bs|, i requires 0 <= i < |bs| => PartyStat(bs[i].id, bs[i].name, bs[i].count, bs[i].amount))
  }

  function Min(a: nat, b: nat): nat { if a < b then a else b }

  /** No row has id `k`. */
  predicate Absent(ids: seq<int>, k: int) {
    forall j :: 0 <= j < |ids| ==> ids[j] != k
  }

  function ProductIds(ps: seq<ProductStat>): seq<int> {
    Project(ps, (s: ProductStat) => s.id)
  }

  function PartyIds(ps: seq<PartyStat>): seq<int> {
    Project(ps, (s: PartyStat) => s.id)
  }

  lemma ProductRowsFacts(bs: seq<Bucket>, es: seq<Entry>)
    requires RowsOf(bs, es)
    ensures var ps := ProductRows(bs);
      && (forall i, j :: 0 <= i < j < |ps| ==> ps[i].amount >= ps[j].amount && ps[i].id != ps[j].id)
      && (forall i :: 0 <= i < |ps| ==>
            var group := EntriesOf(es, ps[i].id);
            && |group| > 0 && ps[i].name == group[0].name
            && ps[i].quantity == Sum(group, EntryQuantity)
            && ps[i].amount == Sum(group, EntryAmount))
      && (forall k, i :: k in Keys(es) && 0 <= i < |ps| && Absent(ProductIds(ps), k) ==>
            Sum(EntriesOf(es, k), EntryAmount) <= ps[i].amount)
      && (forall i, j :: 0 <= i < j < |ps| && ps[i].amount == ps[j].amount ==>
            FirstIndex(es, ps[i].id) < FirstIndex(es, ps[j].id))
  {
    var ps := ProductRows(bs);
    assert forall i :: 0 <= i < |bs| ==> bs[i] in bs;
    forall k | Absent(ProductIds(ps), k)
      ensures k !in Ids(bs)
    {
      assert forall j :: 0 <= j < |bs| ==> ProductIds(ps)[j] == bs[j].id;
    }
  }

  lemma PartyRowsFacts(bs: seq<Bucket>, es: seq<Entry>)
    requires RowsOf(bs, es)
    ensures var ps := PartyRows(bs);
      && (forall i, j :: 0 <= i < j < |ps| ==> ps[i].amount >= ps[j].amount && ps[i].id != ps[j].id)
      && (forall i :: 0 <= i < |ps| ==>
            var group := EntriesOf(es, ps[i].id);
            && |group| > 0 && ps[i].name == group[0].name
            && ps[i].orderCount == |group|
            && ps[i].amount == Sum(group, EntryAmount))
      && (forall k, i :: k in Keys(es) && 0 <= i < |ps| && Absent(PartyIds(ps), k) ==>
            Sum(EntriesOf(es, k), EntryAmount) <= ps[i].amount)
      && (forall k :: k in Ids(bs) ==> k in PartyIds(ps))
      && (forall i, j :: 0 <= i < j < |ps| && ps[i].amount == ps[j].amount ==>
            FirstIndex(es, ps[i].id) < FirstIndex(es, ps[j].id))
  {
    var ps := PartyRows(bs);
    assert forall i :: 0 <= i < |bs| ==> bs[i] in bs;
    forall k | Absent(PartyIds(ps), k)
      ensures k !in Ids(bs)
    {
      assert forall j :: 0 <= j < |bs| ==> PartyIds(ps)[j] == bs[j].id;
    }
    forall k | k in Ids(bs)
      ensures k in PartyIds(ps)
    {
      var j :| 0 <= j < |bs| && bs[j].id == k;
      assert PartyIds(ps)[j] == k;
    }
  }

  /** The product grouping: per product, the name, the summed quantity and
      the summed subtotal of its lines; the ten largest by amount, ties in
      order of first appearance. */
  function ProductStats(ls: seq<SaleLine>): (ps: seq<ProductStat>)
    ensures |ps| == Min(TopLimit, |Keys(LineEntries(ls))|)
    ensures forall i, j :: 0 <= i < j < |ps| ==> ps[i].amount >= ps[j].amount && ps[i].id != ps[j].id
    ensures forall i :: 0 <= i < |ps| ==>
      var group := EntriesOf(LineEntries(ls), ps[i].id);
      && |group| > 0 && ps[i].name == group[0].name
      && ps[i].quantity == Sum(group, EntryQuantity)
      && ps[i].amount == Sum(group, EntryAmount)
    ensures forall k, i :: k in Keys(LineEntries(ls)) && 0 <= i < |ps| && Absent(ProductIds(ps), k) ==>
      Sum(EntriesOf(LineEntries(ls), k), EntryAmount) <= ps[i].amount
    ensures forall i, j :: 0 <= i < j < |ps| && ps[i].amount == ps[j].amount ==>
      FirstIndex(LineEntries(ls), ps[i].id) < FirstIndex(LineEntries(ls), ps[j].id)
  {
    var es := LineEntries(ls);
    var bs := TopBuckets(es, Some(TopLimit));
    TopRows(es, Some(TopLimit));
    ProductRowsFacts(bs, es);
    ProductRows(bs)
  }

  /** The customer or salesperson grouping: per party, the name, the number
      of orders and their summed total; cut to the top ten for customers. */
  function PartyStats(p: Party, orders: seq<SaleOrder>): (ps: seq<PartyStat>)
    ensures |ps| == if p.Limit().Some? then Min(TopLimit, |Keys(PartyEntries(p, orders))|) else |Keys(PartyEntries(p, orders))|
    ensures forall i, j :: 0 <= i < j < |ps| ==> ps[i].amount >= ps[j].amount && ps[i].id != ps[j].id
    ensures forall i :: 0 <= i < |ps| ==>
      var group := EntriesOf(PartyEntries(p, orders), ps[i].id);
      && |group| > 0 && ps[i].name == group[0].name
      && ps[i].orderCount == |group|
      && ps[i].amount == Sum(group, EntryAmount)
    ensures p.Limit().None? ==> forall k :: k in Keys(PartyEntries(p, orders)) ==> k in PartyIds(ps)
    ensures forall k, i :: k in Keys(PartyEntries(p, orders)) && 0 <= i < |ps| && Absent(PartyIds(ps), k) ==>
      Sum(EntriesOf(PartyEntries(p, orders), k), EntryAmount) <= ps[i].amount
    ensures forall i, j :: 0 <= i < j < |ps| && ps[i].amount == ps[j].amount ==>
      FirstIndex(PartyEntries(p, orders), ps[i].id) < FirstIndex(PartyEntries(p, orders), ps[j].id)
  {
    var es := PartyEntries(p, orders);
    var bs := TopBuckets(es, p.Limit());
    TopRows(es, p.Limit());
    PartyRowsFacts(bs, es);
    PartyRows(bs)
  }

  /** Listing every salesperson accounts for every order and the whole total. */
  lemma SalespersonTotals(orders: seq<SaleOrder>)
    ensures Sum(PartyStats(Salesperson, orders), StatCount) == |orders| as real
    ensures Sum(PartyStats(Salesperson, orders), StatAmount) == Sum(orders, OrderAmount)
  {
    var es := PartyEntries(Salesperson, orders);
    var bs := TopBuckets(es, None);
    var ps := PartyStats(Salesperson, orders);
    assert ps == PartyRows(bs);
    AllBucketsTotals(es);
    RowTotals(bs);
    SumPointwise(es, EntryAmount, orders, OrderAmount);
  }

  lemma RowTotals(bs: seq<Bucket>)
    ensures Sum(PartyRows(bs), StatCount) == Sum(bs, BucketCount)
    ensures Sum(PartyRows(bs), StatAmount) == Sum(bs, BucketAmount)
  {
    SumPointwise(PartyRows(bs), StatCount, bs, BucketCount);
    SumPointwise(PartyRows(bs), StatAmount, bs, BucketAmount);
  }

  /** `grouped_data` when present: one of the three groupings. */
  datatype GroupedData =
    | Products(products: seq<ProductStat>)
    | Customers(customers: seq<PartyStat>)
    | Salespersons(salespersons: seq<PartyStat>)

  /** The grouping computed from the orders alone: customers or
      salespersons; `None` for any other `group_by`. */
  function OrderGrouping(groupBy: Option<string>, orders: seq<SaleOrder>): (g: Option<GroupedData>)
    ensures g.Some? <==> groupBy == Some("customer") || groupBy == Some("salesperson")
    ensures groupBy == Some("customer") ==> g == Some(Customers(PartyStats(Customer, orders)))
    ensures groupBy == Some("salesperson") ==> g == Some(Salespersons(PartyStats(Salesperson, orders)))
  {
    if groupBy == Some("customer") then Some(Customers(PartyStats(Customer, orders)))
    else if groupBy == Some("salesperson") then Some(Salespersons(PartyStats(Salesperson, orders)))
    else None
  }

  // ----- the analysis -----

  /** The `previous_period` part of the summary. */
  datatype PeriodTotals = PeriodTotals(from: string, to: string, orderCount: nat, totalAmount: real)

  datatype SalesSummary = SalesSummary(orderCount: nat, totalAmount: real, previousPeriod: PeriodTotals, percentChange: real)

  datatype SalesReport = SalesReport(period: Period, summary: SalesSummary, groupedData: Option<GroupedData>)

  /** The summary: the current period's order count and total, the previous
      period's, and the change between the totals. */
  function Summary(orders: seq<SaleOrder>, prevFrom: string, prevTo: string, previous: seq<real>): (s: SalesSummary)
    ensures s.orderCount == |orders| && s.totalAmount == Sum(orders, OrderAmount)
    ensures s.previousPeriod == PeriodTotals(prevFrom, prevTo, |previous|, Sum(previous, Amount))
    ensures s.percentChange == PercentChange(s.totalAmount, s.previousPeriod.totalAmount)
  {
    var current := Sum(orders, OrderAmount);
    var prior := Sum(previous, Amount);
    SalesSummary(|orders|, current, PeriodTotals(prevFrom, prevTo, |previous|, prior), PercentChange(current, prior))
  }

  predicate PeriodValid(p: SalesPerformanceInput) {
    IsValidDate(p.dateFrom) && IsValidDate(p.dateTo)
  }

  function CurrentFetch(p: SalesPerformanceInput): Call {
    Fetch(SaleOrderModel, PeriodDomain(p.dateFrom, p.dateTo, ConfirmedStates), AnalysisFields)
  }

  function PreviousFetch(prevFrom: Date, prevTo: Date): Call {
    Fetch(SaleOrderModel, PeriodDomain(Format(prevFrom), Format(prevTo), ConfirmedStates), ["amount_total"])
  }

  /** The bounds written into the previous period's search read back as the
      period of the same length that ends the day before `from`. */
  lemma PreviousFetchBounds(from: Date, to: Date)
    requires PreviousPeriod(from, to).Some?
    ensures var (prevFrom, prevTo) := PreviousPeriod(from, to).value;
      && IsValidDate(Format(prevFrom)) && IsValidDate(Format(prevTo))
      && Parse(Format(prevTo)).value + 1 == from
      && Parse(Format(prevTo)).value - Parse(Format(prevFrom)).value == to - from
  {
    var (prevFrom, prevTo) := PreviousPeriod(from, to).value;
    ParseFormat(prevFrom);
    ParseFormat(prevTo);
  }

  function LineFetch(orders: seq<SaleOrder>): Call {
    Fetch(SaleLineModel, [Cond("order_id", "in", VList(Ints(Project(orders, OrderId))))], LineFields)
  }

  /** Whether the analysis reads order lines: only to group by product, and
      only when the period has orders. */
  predicate ReadsLines(groupBy: Option<string>, orders: seq<SaleOrder>) {
    groupBy == Some("product") && |orders| > 0
  }

  /** The analysis of the period `from`..`to` once both bounds have parsed.
      `current` and `previous` are the backend's replies to the two order
      fetches (the latter reduced to the order totals), `lines` its reply to
      the line fetch. */
  function AnalyzePeriod(p: SalesPerformanceInput, from: Date, to: Date, current: Envelope<seq<SaleOrder>>,
                         previous: Envelope<seq<real>>, lines: Envelope<seq<SaleLine>>): (r: Run<SalesReport>)
    ensures |r.calls| >= 1 && r.calls[0] == CurrentFetch(p)
    ensures current.Failure? ==> r == Run(Failure(current.error), [CurrentFetch(p)])
    ensures current.Success? && PreviousPeriod(from, to).None? ==> r == Run(Failure(OutOfRangeMessage), [CurrentFetch(p)])
    ensures current.Success? && PreviousPeriod(from, to).Some? ==>
      |r.calls| >= 2 && r.calls[1] == PreviousFetch(PreviousPeriod(from, to).value.0, PreviousPeriod(from, to).value.1)
    ensures current.Success? && PreviousPeriod(from, to).Some? && previous.Failure? ==>
      r.envelope == Failure(previous.error) && |r.calls| == 2
    ensures current.Success? && PreviousPeriod(from, to).Some? && previous.Success?
            && ReadsLines(p.groupBy, current.result) && lines.Failure? ==>
      r.envelope == Failure(lines.error) && |r.calls| == 3 && r.calls[2] == LineFetch(current.result)
    ensures r.envelope.Success? <==>
      && current.Success? && PreviousPeriod(from, to).Some? && previous.Success?
      && (ReadsLines(p.groupBy, current.result) ==> lines.Success?)
    ensures r.envelope.Success? ==>
      && r.envelope.result.period == Period(p.dateFrom, p.dateTo)
      && r.envelope.result.summary == Summary(current.result, Format(PreviousPeriod(from, to).value.0),
                                              Format(PreviousPeriod(from, to).value.1), previous.result)
    ensures r.envelope.Success? ==>
      && (r.envelope.result.groupedData.Some? <==>
            ReadsLines(p.groupBy, current.result) || p.groupBy == Some("customer") || p.groupBy == Some("salesperson"))
      && (|r.calls| == 3 <==> ReadsLines(p.groupBy, current.result))
      && (ReadsLines(p.groupBy, current.result) ==>
            r.calls[2] == LineFetch(current.result)
            && r.envelope.result.groupedData == Some(Products(ProductStats(lines.result))))
      && (!ReadsLines(p.groupBy, current.result) ==>
            |r.calls| == 2 && r.envelope.result.groupedData == OrderGrouping(p.groupBy, current.result))
  {
    var fetch := CurrentFetch(p);
    match current
    case Failure(e) => Run(Failure(e), [fetch])
    case Success(orders) =>
      match PreviousPeriod(from, to)
      case None => Run(Failure(OutOfRangeMessage), [fetch])
      case Some((prevFrom, prevTo)) =>
        var prevFetch := PreviousFetch(prevFrom, prevTo);
        match previous
        case Failure(e) => Run(Failure(e), [fetch, prevFetch])
        case Success(amounts) =>
          var report := SalesReport(Period(p.dateFrom, p.dateTo),
                                    Summary(orders, Format(prevFrom), Format(prevTo), amounts), None);
          var grouped := Grouped(p.groupBy, orders, report, lines);
          Run(grouped.envelope, [fetch, prevFetch] + grouped.calls)
  }

  /** The last stage of the analysis: `report` with its `grouped_data`, and
      the line fetch when the product grouping needs it. */
  function Grouped(groupBy: Option<string>, orders: seq<SaleOrder>, report: SalesReport,
                   lines: Envelope<seq<SaleLine>>): (r: Run<SalesReport>)
    ensures ReadsLines(groupBy, orders) ==> r.calls == [LineFetch(orders)]
    ensures ReadsLines(groupBy, orders) && lines.Failure? ==> r.envelope == Failure(lines.error)
    ensures ReadsLines(groupBy, orders) && lines.Success? ==>
      r.envelope == Success(report.(groupedData := Some(Products(ProductStats(lines.result)))))
    ensures !ReadsLines(groupBy, orders) ==>
      r == Run(Success(report.(groupedData := OrderGrouping(groupBy, orders))), [])
  {
    if ReadsLines(groupBy, orders) then
      match lines
      case Failure(e) => Run(Failure(e), [LineFetch(orders)])
      case Success(ls) => Run(Success(report.(groupedData := Some(Products(ProductStats(ls))))), [LineFetch(orders)])
    else
      Run(Success(report.(groupedData := OrderGrouping(groupBy, orders))), [])
  }

  /** A period without orders still succeeds, with zero orders, a zero
      total, no line fetch and no product grouping. */
  lemma EmptyPeriodReport(p: SalesPerformanceInput, from: Date, to: Date, previous: Envelope<seq<real>>, lines: Envelope<seq<SaleLine>>)
    requires PreviousPeriod(from, to).Some? && previous.Success?
    ensures var r := AnalyzePeriod(p, from, to, Success([]), previous, lines);
      && r.envelope.Success? && |r.calls| == 2
      && r.envelope.result.summary.orderCount == 0 && r.envelope.result.summary.totalAmount == 0.0
      && (r.envelope.result.groupedData.Some? <==> p.groupBy == Some("customer") || p.groupBy == Some("salesperson"))
  {
    var none: seq<SaleOrder> := [];
    assert Sum(none, OrderAmount) == 0.0;
    assert !ReadsLines(p.groupBy, none);
  }

  /** `analyze_sales_performance`: both period bounds must parse before any
      call is made. */
  function AnalyzeSalesPerformance(p: SalesPerformanceInput, current: Envelope<seq<SaleOrder>>,
                                   previous: Envelope<seq<real>>, lines: Envelope<seq<SaleLine>>): (r: Run<SalesReport>)
    ensures !PeriodValid(p) <==> r.calls == []
    ensures !PeriodValid(p) ==> r.envelope == Failure(AnalysisDateError)
    ensures PeriodValid(p) ==> r == AnalyzePeriod(p, Parse(p.dateFrom).value, Parse(p.dateTo).value, current, previous, lines)
  {
    if !PeriodValid(p) then Run(Failure(AnalysisDateError), [])
    else AnalyzePeriod(p, Parse(p.dateFrom).value, Parse(p.dateTo).value, current, previous, lines)
  }
}
