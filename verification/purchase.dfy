/** The purchase tools: order search and creation on `purchase.order`, and
    the supplier analysis, which rolls a period's confirmed orders up by
    supplier and measures each supplier's delivery punctuality. */
module Purchase {
  import opened Wrappers
  import opened Dates
  import opened Domains
  import opened Models
  import opened Backend
  import opened Seqs
  import opened Grouping
  import opened Orders

  const PurchaseOrderModel: string := "purchase.order"

  /** The fields `search_purchase_orders` reads. */
  const SearchFields: seq<string> :=
    ["name", "partner_id", "date_order", "amount_total", "state", "invoice_status", "user_id", "order_line",
     "date_planned", "date_approve"]

  /** The states of a confirmed purchase. */
  const ConfirmedStates: seq<string> := ["purchase", "done"]

  const AnalysisFields: seq<string> :=
    ["name", "partner_id", "date_order", "amount_total", "date_approve", "date_planned", "effective_date"]

  // ----- search and creation -----

  /** `search_purchase_orders`. */
  function SearchPurchaseOrders<R>(f: OrderFilter, page: Envelope<seq<R>>, total: Envelope<int>): (r: Run<SearchPage<R>>)
    ensures forall c :: c in r.calls ==> c.SearchRead? || c.SearchCount?
    ensures forall c :: c in r.calls ==> c.model == PurchaseOrderModel
    ensures OrderSearchDomain(f).Success? ==>
      && |r.calls| > 0
      && r.calls[0] == SearchRead(PurchaseOrderModel, OrderSearchDomain(f).result, Some(SearchFields), f.limit, f.offset, f.order)
    ensures r.envelope.Success? ==>
      && page.Success? && total.Success? && r.envelope.result.orders == page.result && r.envelope.result.totalCount == total.result
    ensures OrderSearchDomain(f).Failure? ==> r.calls == [] && r.envelope.Failure?
  {
    SearchOrders(PurchaseOrderModel, SearchFields, f, page, total)
  }

  /** `create_purchase_order`: the lines carry their quantity as `product_qty`. */
  function CreatePurchaseOrder(order: OrderCreate, created: Envelope<int>, names: Envelope<seq<string>>): (r: Run<CreatedOrder>)
    ensures forall c :: c in r.calls ==> c.model == PurchaseOrderModel
    ensures |r.calls| > 0 ==>
      && r.calls[0].Create?
      && "order_line" in r.calls[0].vals && r.calls[0].vals["order_line"].VList?
      && |r.calls[0].vals["order_line"].items| == |order.orderLines|
      && forall i :: 0 <= i < |order.orderLines| ==>
           LineOf(ProductQty, r.calls[0].vals["order_line"].items[i]) == Some(order.orderLines[i])
    ensures r.envelope.Success? ==> created.Success? && r.envelope.result.orderId == created.result
  {
    CreateOrder(PurchaseOrderModel, ProductQty, order, created, names)
  }

  // ----- the analysis domain -----

  function SupplierCondition(ids: seq<int>): DomainCondition {
    DomainCondition("partner_id", "in", VList(Ints(ids)))
  }

  /** The period's confirmed purchases, restricted to the requested
      suppliers when a non-empty list of them is given. */
  function SupplierDomain(p: SupplierPerformanceInput): Domain {
    PeriodDomain(p.dateFrom, p.dateTo, ConfirmedStates)
    + (if GivenIds(p.supplierIds) then [Leaf(SupplierCondition(p.supplierIds.value))] else [])
  }

  /** The analysis domain selects the confirmed purchases of the period, of
      one of the requested suppliers if any are requested. */
  lemma SupplierDomainSelects(p: SupplierPerformanceInput, holds: DomainCondition -> bool)
    ensures Selects(SupplierDomain(p), holds) == Some(
      && holds(FromCondition(p.dateFrom)) && holds(ToCondition(p.dateTo))
      && holds(StatesCondition(ConfirmedStates))
      && (GivenIds(p.supplierIds) ==> holds(SupplierCondition(p.supplierIds.value))))
  {
    var cs := PeriodConditions(p.dateFrom, p.dateTo, ConfirmedStates)
      + (if GivenIds(p.supplierIds) then [SupplierCondition(p.supplierIds.value)] else []);
    assert Leaves(cs) == SupplierDomain(p);
    LeavesAreConjunction(cs, holds);
    assert AllHold(cs, holds) <==>
      && holds(cs[0]) && holds(cs[1]) && holds(cs[2])
      && (GivenIds(p.supplierIds) ==> holds(cs[3]));
  }

  // ----- delivery delays -----

  /** A confirmed purchase as the analysis reads it; the two delivery dates
      are backend datetimes (`"YYYY-MM-DD HH:MM:SS"`) or unset. */
  datatype PurchaseOrder = PurchaseOrder(
    partner: Relation, amountTotal: real,
    datePlanned: Option<string>, effectiveDate: Option<string>)

  function OrderAmount(o: PurchaseOrder): real { o.amountTotal }

  /** The `ValueError` text of `strptime(s, "%Y-%m-%d")` on a text that does
      not match. */
  function StrptimeError(s: string): string {
    "time data '" + s + "' does not match format '%Y-%m-%d'"
  }

  /** Both delivery dates are set, so the order counts as delivered. */
  predicate Delivered(o: PurchaseOrder) {
    Given(o.effectiveDate) && Given(o.datePlanned)
  }

  /** The delivery delay of an order in days, effective minus planned, read
      from the date part of each datetime; `None` when not delivered. A date
      part that does not parse raises, the effective date being read first. */
  function OrderDelay(o: PurchaseOrder): (r: Envelope<Option<int>>)
    ensures r.Success? ==> (r.result.Some? <==> Delivered(o))
    ensures r.Failure? ==> Delivered(o)
    ensures r.Failure? <==> Delivered(o) && (!IsValidDate(DatePart(o.effectiveDate.value)) || !IsValidDate(DatePart(o.datePlanned.value)))
    ensures r.Failure? ==>
      r.error == StrptimeError(if !IsValidDate(DatePart(o.effectiveDate.value)) then DatePart(o.effectiveDate.value) else DatePart(o.datePlanned.value))
    ensures r.Success? && r.result.Some? ==>
      Minus(Parse(DatePart(o.effectiveDate.value)).value, r.result.value) == Parse(DatePart(o.datePlanned.value))
  {
    if !Delivered(o) then Success(None)
    else
      var effective, planned := DatePart(o.effectiveDate.value), DatePart(o.datePlanned.value);
      match Parse(effective)
      case None => Failure(StrptimeError(effective))
      case Some(e) =>
        match Parse(planned)
        case None => Failure(StrptimeError(planned))
        case Some(d) => Success(Some(DaysBetween(e, d)))
  }

  /** An order counted under its supplier with its amount and its delay. */
  function SupplierEntry(o: PurchaseOrder, delay: Option<int>): Entry {
    Entry(RelationId(o.partner), RelationName(o.partner), 0.0, o.amountTotal, delay)
  }

  /** The orders' entries, or the error of the first order whose delivery
      dates do not parse: the loop stops at the first `ValueError`. */
  function SupplierEntries(orders: seq<PurchaseOrder>): (r: Envelope<seq<Entry>>)
    ensures r.Success? <==> forall i :: 0 <= i < |orders| ==> OrderDelay(orders[i]).Success?
    ensures r.Success? ==> |r.result| == |orders|
    ensures r.Success? ==> forall i :: 0 <= i < |orders| ==> r.result[i] == SupplierEntry(orders[i], OrderDelay(orders[i]).result)
    ensures r.Failure? ==> exists i ::
      && 0 <= i < |orders| && OrderDelay(orders[i]).Failure? && r.error == OrderDelay(orders[i]).error
      && forall j :: 0 <= j < i ==> OrderDelay(orders[j]).Success?
  {
    if |orders| == 0 then Success([])
    else
      match OrderDelay(orders[0])
      case Failure(e) => Failure(e)
      case Success(delay) =>
        match SupplierEntries(orders[1..])
        case Failure(e) =>
          assert forall i :: 0 <= i < |orders| - 1 ==> orders[1..][i] == orders[i + 1];
          Failure(e)
        case Success(rest) =>
          assert forall i :: 1 <= i < |orders| ==> orders[i] == orders[1..][i - 1];
          Success([SupplierEntry(orders[0], delay)] + rest)
  }

  // ----- per-supplier metrics -----

  /** Deliveries on or before the planned date. */
  function OnTime(ds: seq<int>): (n: nat)
    ensures n <= |ds|
  {
    if |ds| == 0 then 0 else OnTime(ds[..|ds| - 1]) + (if ds[|ds| - 1] <= 0 then 1 else 0)
  }

  /** Deliveries after the planned date. */
  function Late(ds: seq<int>): nat {
    if |ds| == 0 then 0 else Late(ds[..|ds| - 1]) + (if ds[|ds| - 1] > 0 then 1 else 0)
  }

  /** Every delivery is either on time or late. */
  lemma {:induction false} OnTimeOrLate(ds: seq<int>)
    ensures OnTime(ds) + Late(ds) == |ds|
    decreases |ds|
  {
    if |ds| > 0 {
      OnTimeOrLate(ds[..|ds| - 1]);
    }
  }

  function SumInts(ds: seq<int>): int {
    if |ds| == 0 then 0 else SumInts(ds[..|ds| - 1]) + ds[|ds| - 1]
  }

  /** `sum(ds) / len(ds)`, or 0 for no deliveries. */
  function MeanDelay(ds: seq<int>): (m: real)
    ensures |ds| > 0 ==> m * (|ds| as real) == SumInts(ds) as real
    ensures |ds| == 0 ==> m == 0.0
  {
    if |ds| == 0 then 0.0 else SumInts(ds) as real / |ds| as real
  }

  /** `on_time / total * 100`, or 0 without deliveries. */
  function OnTimeRate(onTime: nat, total: nat): (r: real)
    requires onTime <= total
    ensures 0.0 <= r <= 100.0
    ensures total > 0 ==> r * (total as real) == (onTime as real) * 100.0
    ensures total == 0 ==> r == 0.0
  {
    if total > 0 then (onTime as real / total as real) * 100.0 else 0.0
  }

  /** One entry of the result's `suppliers` list. */
  datatype SupplierStat = SupplierStat(
    id: int, name: string, orderCount: nat, totalAmount: real,
    onTimeDeliveryCount: nat, lateDeliveryCount: nat,
    avgDelayDays: real, onTimeDeliveryRate: real)

  function StatCount(s: SupplierStat): real { s.orderCount as real }
  function StatAmount(s: SupplierStat): real { s.totalAmount }
  function StatDeliveries(s: SupplierStat): real { (s.onTimeDeliveryCount + s.lateDeliveryCount) as real }

  /** The metrics of one supplier's bucket. */
  function SupplierRow(b: Bucket): (s: SupplierStat)
    ensures s.id == b.id && s.name == b.name && s.orderCount == b.count && s.totalAmount == b.amount
    ensures s.onTimeDeliveryCount + s.lateDeliveryCount == |b.delays|
    ensures 0.0 <= s.onTimeDeliveryRate <= 100.0
    ensures |b.delays| > 0 ==> s.avgDelayDays * (|b.delays| as real) == SumInts(b.delays) as real
    ensures |b.delays| > 0 ==> s.onTimeDeliveryRate * (|b.delays| as real) == (s.onTimeDeliveryCount as real) * 100.0
    ensures |b.delays| == 0 ==> s.avgDelayDays == 0.0 && s.onTimeDeliveryRate == 0.0
  {
    var onTime, late := OnTime(b.delays), Late(b.delays);
    OnTimeOrLate(b.delays);
    SupplierStat(b.id, b.name, b.count, b.amount, onTime, late, MeanDelay(b.delays), OnTimeRate(onTime, onTime + late))
  }

  function SupplierRows(bs: seq<Bucket>): (ss: seq<SupplierStat>)
    ensures |ss| == |bs| && forall i :: 0 <= i < |bs| ==> ss[i] == SupplierRow(bs[i])
  {
    seq(|bs|, i requires 0 <= i < |bs| => SupplierRow(bs[i]))
  }

  function StatIds(ss: seq<SupplierStat>): seq<int> {
    Project(ss, (s: SupplierStat) => s.id)
  }

  lemma SupplierRowsFacts(bs: seq<Bucket>, es: seq<Entry>)
    requires RowsOf(bs, es) && Ids(bs) == Keys(es)
    ensures var ss := SupplierRows(bs);
      && (forall k :: k in Keys(es) ==> k in StatIds(ss))
      && (forall i, j :: 0 <= i < j < |ss| ==> ss[i].totalAmount >= ss[j].totalAmount && ss[i].id != ss[j].id)
      && (forall i :: 0 <= i < |ss| ==>
            var group := EntriesOf(es, ss[i].id);
            && |group| > 0 && ss[i].name == group[0].name
            && ss[i].orderCount == |group|
            && ss[i].totalAmount == Sum(group, EntryAmount)
            && ss[i].onTimeDeliveryCount == OnTime(Delays(group))
            && ss[i].lateDeliveryCount == Late(Delays(group))
            && ss[i].avgDelayDays == MeanDelay(Delays(group))
            && ss[i].onTimeDeliveryRate == OnTimeRate(OnTime(Delays(group)), |Delays(group)|))
      && (forall i, j :: 0 <= i < j < |ss| && ss[i].totalAmount == ss[j].totalAmount ==>
            FirstIndex(es, ss[i].id) < FirstIndex(es, ss[j].id))
  {
    var ss := SupplierRows(bs);
    assert forall i :: 0 <= i < |bs| ==> bs[i] in bs;
    forall k | k in Keys(es)
      ensures k in StatIds(ss)
    {
      var j :| 0 <= j < |bs| && bs[j].id == k;
      assert StatIds(ss)[j] == k;
    }
  }

  /** Every supplier of the entries, once each, by non-increasing total
      amount (ties in order of first appearance), with the order count,
      amount, delivery counts, mean delay and on-time rate of its own
      orders. */
  function SupplierStats(es: seq<Entry>): (ss: seq<SupplierStat>)
    ensures |ss| == |Keys(es)|
    ensures forall k :: k in Keys(es) ==> k in StatIds(ss)
    ensures forall i, j :: 0 <= i < j < |ss| ==> ss[i].totalAmount >= ss[j].totalAmount && ss[i].id != ss[j].id
    ensures forall i :: 0 <= i < |ss| ==>
      var group := EntriesOf(es, ss[i].id);
      && |group| > 0 && ss[i].name == group[0].name
      && ss[i].orderCount == |group|
      && ss[i].totalAmount == Sum(group, EntryAmount)
      && ss[i].onTimeDeliveryCount == OnTime(Delays(group))
      && ss[i].lateDeliveryCount == Late(Delays(group))
      && ss[i].avgDelayDays == MeanDelay(Delays(group))
      && ss[i].onTimeDeliveryRate == OnTimeRate(OnTime(Delays(group)), |Delays(group)|)
    ensures forall i, j :: 0 <= i < j < |ss| && ss[i].totalAmount == ss[j].totalAmount ==>
      FirstIndex(es, ss[i].id) < FirstIndex(es, ss[j].id)
  {
    var bs := TopBuckets(es, None);
    TopRows(es, None);
    SupplierRowsFacts(bs, es);
    SupplierRows(bs)
  }

  lemma RowTotals(bs: seq<Bucket>)
    ensures Sum(SupplierRows(bs), StatCount) == Sum(bs, BucketCount)
    ensures Sum(SupplierRows(bs), StatAmount) == Sum(bs, BucketAmount)
    ensures Sum(SupplierRows(bs), StatDeliveries) == Sum(bs, BucketDelayCount)
  {
    SumPointwise(SupplierRows(bs), StatCount, bs, BucketCount);
    SumPointwise(SupplierRows(bs), StatAmount, bs, BucketAmount);
    SumPointwise(SupplierRows(bs), StatDeliveries, bs, BucketDelayCount);
  }

  /** Listing every supplier accounts for every order, the whole amount and
      every delivered order. */
  lemma SupplierTotals(es: seq<Entry>)
    ensures Sum(SupplierStats(es), StatCount) == |es| as real
    ensures Sum(SupplierStats(es), StatAmount) == Sum(es, EntryAmount)
    ensures Sum(SupplierStats(es), StatDeliveries) == Sum(es, EntryDelayCount)
  {
    var bs := TopBuckets(es, None);
    assert SupplierStats(es) == SupplierRows(bs);
    AllBucketsTotals(es);
    RowTotals(bs);
  }

  /** How many of the orders were delivered. */
  function DeliveredCount(orders: seq<PurchaseOrder>): nat {
    if |orders| == 0 then 0
    else DeliveredCount(orders[..|orders| - 1]) + (if Delivered(orders[|orders| - 1]) then 1 else 0)
  }

  /** Entries carrying a delay exactly for the delivered orders count the
      delivered orders. */
  lemma {:induction false} DeliveredSum(orders: seq<PurchaseOrder>, es: seq<Entry>)
    requires |es| == |orders|
    requires forall i :: 0 <= i < |es| ==> (es[i].delay.Some? <==> Delivered(orders[i]))
    ensures Sum(es, EntryDelayCount) == DeliveredCount(orders) as real
    decreases |es|
  {
    if |es| > 0 {
      DeliveredSum(orders[..|orders| - 1], es[..|es| - 1]);
    }
  }

  // ----- the analysis -----

  datatype SupplierSummary = SupplierSummary(supplierCount: nat, orderCount: nat, totalAmount: real)

  datatype SupplierReport = SupplierReport(period: Period, summary: SupplierSummary, suppliers: seq<SupplierStat>)

  predicate PeriodValid(p: SupplierPerformanceInput) {
    IsValidDate(p.dateFrom) && IsValidDate(p.dateTo)
  }

  function AnalysisFetch(p: SupplierPerformanceInput): Call {
    Fetch(PurchaseOrderModel, SupplierDomain(p), AnalysisFields)
  }

  /** `analyze_supplier_performance`. `fetched` is the backend's reply to the
      one order fetch. */
  function AnalyzeSupplierPerformance(p: SupplierPerformanceInput, fetched: Envelope<seq<PurchaseOrder>>): (r: Run<SupplierReport>)
    ensures !PeriodValid(p) ==> r == Run(Failure(AnalysisDateError), [])
    ensures PeriodValid(p) ==> r.calls == [AnalysisFetch(p)]
    ensures PeriodValid(p) && fetched.Failure? ==> r.envelope == Failure(fetched.error)
    ensures PeriodValid(p) && fetched.Success? && SupplierEntries(fetched.result).Failure? ==>
      r.envelope == Failure(SupplierEntries(fetched.result).error)
    ensures r.envelope.Success? <==> PeriodValid(p) && fetched.Success? && SupplierEntries(fetched.result).Success?
    ensures r.envelope.Success? ==>
      var es := SupplierEntries(fetched.result).result;
      && r.envelope.result.period == Period(p.dateFrom, p.dateTo)
      && r.envelope.result.suppliers == SupplierStats(es)
      && r.envelope.result.summary.supplierCount == |Keys(es)|
      && r.envelope.result.summary.orderCount == |fetched.result|
      && r.envelope.result.summary.totalAmount == Sum(fetched.result, OrderAmount)
  {
    if !PeriodValid(p) then Run(Failure(AnalysisDateError), [])
    else
      var call := AnalysisFetch(p);
      match fetched
      case Failure(e) => Run(Failure(e), [call])
      case Success(orders) =>
        match SupplierEntries(orders)
        case Failure(e) => Run(Failure(e), [call])
        case Success(es) =>
          var suppliers := SupplierStats(es);
          var summary := SupplierSummary(|suppliers|, |orders|, Sum(orders, OrderAmount));
          Run(Success(SupplierReport(Period(p.dateFrom, p.dateTo), summary, suppliers)), [call])
  }

  /** The supplier list accounts for every fetched order, the whole amount
      of the summary and every delivered order. */
  lemma SupplierReportTotals(p: SupplierPerformanceInput, fetched: Envelope<seq<PurchaseOrder>>)
    requires AnalyzeSupplierPerformance(p, fetched).envelope.Success?
    ensures var report := AnalyzeSupplierPerformance(p, fetched).envelope.result;
      && Sum(report.suppliers, StatCount) == report.summary.orderCount as real
      && Sum(report.suppliers, StatAmount) == report.summary.totalAmount
      && Sum(report.suppliers, StatDeliveries) == DeliveredCount(fetched.result) as real
  {
    var orders := fetched.result;
    var es := SupplierEntries(orders).result;
    SupplierTotals(es);
    SumPointwise(es, EntryAmount, orders, OrderAmount);
    DeliveredSum(orders, es);
  }
}
