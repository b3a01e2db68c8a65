/** The logic the sales and purchase tools share, written once: the order
    search domain, the paginated search with its total count, and the
    creation payload with its `[0, 0, vals]` line commands. */
module Orders {
  import opened Wrappers
  import opened Dates
  import opened Domains
  import opened Models
  import opened Backend

  /** The error for a malformed date in a search filter or a create request;
      it quotes the offending text. */
  function InvalidDateMessage(raw: string): string {
    "Formato de fecha inválido: " + raw + ". Use YYYY-MM-DD."
  }

  function PartnerCondition(p: int): DomainCondition { DomainCondition("partner_id", "=", VInt(p)) }
  function FromCondition(s: string): DomainCondition { DomainCondition("date_order", ">=", VStr(s)) }
  function ToCondition(s: string): DomainCondition { DomainCondition("date_order", "<=", VStr(s)) }
  function StateCondition(s: string): DomainCondition { DomainCondition("state", "=", VStr(s)) }

  /** The fixed position of a search condition: partner, lower date bound,
      upper date bound, state; anything else comes last. */
  function Slot(t: Term): int {
    match t
    case Operator(_) => 4
    case Leaf(c) =>
      if c.field == "partner_id" then 0
      else if c.field == "date_order" && c.operator == ">=" then 1
      else if c.field == "date_order" && c.operator == "<=" then 2
      else if c.field == "state" then 3
      else 4
  }

  /** A date filter that is given but does not parse. */
  predicate BadDate(o: Option<string>) {
    Given(o) && !IsValidDate(o.value)
  }

  /** Term `t` is the condition of one of the given filter fields. */
  predicate FromFilter(t: Term, f: OrderFilter) {
    || (GivenId(f.partnerId) && t == Leaf(PartnerCondition(f.partnerId.value)))
    || (Given(f.dateFrom) && t == Leaf(FromCondition(f.dateFrom.value)))
    || (Given(f.dateTo) && t == Leaf(ToCondition(f.dateTo.value)))
    || (Given(f.state) && t == Leaf(StateCondition(f.state.value)))
  }

  /** What a record must satisfy to pass filter `f`, given which conditions
      hold of it. */
  predicate PassesFilter(f: OrderFilter, holds: DomainCondition -> bool) {
    && (GivenId(f.partnerId) ==> holds(PartnerCondition(f.partnerId.value)))
    && (Given(f.dateFrom) ==> holds(FromCondition(f.dateFrom.value)))
    && (Given(f.dateTo) ==> holds(ToCondition(f.dateTo.value)))
    && (Given(f.state) ==> holds(StateCondition(f.state.value)))
  }

  function Optional(b: bool, c: DomainCondition): seq<DomainCondition> {
    if b then [c] else []
  }

  lemma LeavesAppend(a: seq<DomainCondition>, b: seq<DomainCondition>)
    ensures Leaves(a + b) == Leaves(a) + Leaves(b)
  {
  }

  lemma LeavesOptional(b: bool, c: DomainCondition)
    ensures Leaves(Optional(b, c)) == if b then [Leaf(c)] else []
  {
  }

  /** The conditions of the given filter fields, in the fixed order. */
  function FilterConditions(f: OrderFilter): seq<DomainCondition> {
    Optional(GivenId(f.partnerId), PartnerCondition(f.partnerId.GetOr(0)))
    + Optional(Given(f.dateFrom), FromCondition(f.dateFrom.GetOr("")))
    + Optional(Given(f.dateTo), ToCondition(f.dateTo.GetOr("")))
    + Optional(Given(f.state), StateCondition(f.state.GetOr("")))
  }

  predicate Ordered(d: Domain) {
    forall i, j :: 0 <= i < j < |d| ==> Slot(d[i]) < Slot(d[j])
  }

  predicate SlotsBelow(d: Domain, k: int) {
    forall t :: t in d ==> Slot(t) < k
  }

  /** Appending an optional condition whose slot is above all present ones. */
  lemma ExtendOrdered(d: Domain, b: bool, c: DomainCondition, k: int)
    requires Ordered(d) && SlotsBelow(d, k) && Slot(Leaf(c)) == k
    ensures Ordered(d + Leaves(Optional(b, c)))
    ensures SlotsBelow(d + Leaves(Optional(b, c)), k + 1)
    ensures forall t :: t in d + Leaves(Optional(b, c)) <==> t in d || (b && t == Leaf(c))
  {
    LeavesOptional(b, c);
    if b {
      var d' := d + [Leaf(c)];
      forall i, j | 0 <= i < j < |d'| ensures Slot(d'[i]) < Slot(d'[j]) {
        if j == |d| {
          assert d'[i] in d;
        }
      }
    }
  }

  lemma FilterDomainShape(f: OrderFilter)
    ensures Ordered(Leaves(FilterConditions(f)))
    ensures forall t :: t in Leaves(FilterConditions(f)) <==>
      || (GivenId(f.partnerId) && t == Leaf(PartnerCondition(f.partnerId.GetOr(0))))
      || (Given(f.dateFrom) && t == Leaf(FromCondition(f.dateFrom.GetOr(""))))
      || (Given(f.dateTo) && t == Leaf(ToCondition(f.dateTo.GetOr(""))))
      || (Given(f.state) && t == Leaf(StateCondition(f.state.GetOr(""))))
  {
    var p := Optional(GivenId(f.partnerId), PartnerCondition(f.partnerId.GetOr(0)));
    var a := Optional(Given(f.dateFrom), FromCondition(f.dateFrom.GetOr("")));
    var b := Optional(Given(f.dateTo), ToCondition(f.dateTo.GetOr("")));
    var s := Optional(Given(f.state), StateCondition(f.state.GetOr("")));
    LeavesAppend(p + a + b, s);
    LeavesAppend(p + a, b);
    LeavesAppend(p, a);
    assert Leaves(p) == [] + Leaves(p);
    ExtendOrdered([], GivenId(f.partnerId), PartnerCondition(f.partnerId.GetOr(0)), 0);
    ExtendOrdered(Leaves(p), Given(f.dateFrom), FromCondition(f.dateFrom.GetOr("")), 1);
    ExtendOrdered(Leaves(p + a), Given(f.dateTo), ToCondition(f.dateTo.GetOr("")), 2);
    ExtendOrdered(Leaves(p + a + b), Given(f.state), StateCondition(f.state.GetOr("")), 3);
  }

  /** The search domain of `search_sales_orders` and `search_purchase_orders`:
      one condition per given filter field, in the order partner, `date_order >=`
      date_from, `date_order <=` date_to, state. A given date that does not
      parse aborts with an error quoting it, date_from checked first. */
  function OrderSearchDomain(f: OrderFilter): (r: Envelope<Domain>)
    ensures r.Failure? <==> BadDate(f.dateFrom) || BadDate(f.dateTo)
    ensures r.Failure? ==>
      r.error == InvalidDateMessage(if BadDate(f.dateFrom) then f.dateFrom.value else f.dateTo.value)
    ensures r.Success? ==> forall t :: t in r.result ==> FromFilter(t, f)
    ensures r.Success? && GivenId(f.partnerId) ==> Leaf(PartnerCondition(f.partnerId.value)) in r.result
    ensures r.Success? && Given(f.dateFrom) ==> Leaf(FromCondition(f.dateFrom.value)) in r.result
    ensures r.Success? && Given(f.dateTo) ==> Leaf(ToCondition(f.dateTo.value)) in r.result
    ensures r.Success? && Given(f.state) ==> Leaf(StateCondition(f.state.value)) in r.result
    ensures r.Success? ==> forall i, j :: 0 <= i < j < |r.result| ==> Slot(r.result[i]) < Slot(r.result[j])
  {
    if BadDate(f.dateFrom) then Failure(InvalidDateMessage(f.dateFrom.value))
    else if BadDate(f.dateTo) then Failure(InvalidDateMessage(f.dateTo.value))
    else
      FilterDomainShape(f);
      Success(Leaves(FilterConditions(f)))
  }

  lemma AllHoldAppend(a: seq<DomainCondition>, b: seq<DomainCondition>, holds: DomainCondition -> bool)
    ensures AllHold(a + b, holds) <==> AllHold(a, holds) && AllHold(b, holds)
  {
    if AllHold(a, holds) && AllHold(b, holds) {
      forall i | 0 <= i < |a + b| ensures holds((a + b)[i]) {
        if i >= |a| {
          assert (a + b)[i] == b[i - |a|];
        } else {
          assert (a + b)[i] == a[i];
        }
      }
    }
    if AllHold(a + b, holds) {
      forall i | 0 <= i < |a| ensures holds(a[i]) {
        assert (a + b)[i] == a[i];
      }
      forall i | 0 <= i < |b| ensures holds(b[i]) {
        assert (a + b)[|a| + i] == b[i];
      }
    }
  }

  /** An optional condition holds when it is absent or holds itself. */
  lemma AllHoldOptional(b: bool, c: DomainCondition, holds: DomainCondition -> bool)
    ensures AllHold(Optional(b, c), holds) <==> (b ==> holds(c))
  {
    if b {
      assert Optional(b, c)[0] == c;
    }
  }

  /** A record satisfies every condition of the filter exactly when it
      passes the filter. */
  lemma FilterConditionsHold(f: OrderFilter, holds: DomainCondition -> bool)
    ensures AllHold(FilterConditions(f), holds) <==> PassesFilter(f, holds)
  {
    var p := Optional(GivenId(f.partnerId), PartnerCondition(f.partnerId.GetOr(0)));
    var a := Optional(Given(f.dateFrom), FromCondition(f.dateFrom.GetOr("")));
    var b := Optional(Given(f.dateTo), ToCondition(f.dateTo.GetOr("")));
    var s := Optional(Given(f.state), StateCondition(f.state.GetOr("")));
    AllHoldAppend(p + a + b, s, holds);
    AllHoldAppend(p + a, b, holds);
    AllHoldAppend(p, a, holds);
    AllHoldOptional(GivenId(f.partnerId), PartnerCondition(f.partnerId.GetOr(0)), holds);
    AllHoldOptional(Given(f.dateFrom), FromCondition(f.dateFrom.GetOr("")), holds);
    AllHoldOptional(Given(f.dateTo), ToCondition(f.dateTo.GetOr("")), holds);
    AllHoldOptional(Given(f.state), StateCondition(f.state.GetOr("")), holds);
  }

  /** The search domain selects exactly the records that pass every given
      filter field. */
  lemma OrderSearchDomainSelects(f: OrderFilter, holds: DomainCondition -> bool)
    requires OrderSearchDomain(f).Success?
    ensures Selects(OrderSearchDomain(f).result, holds) == Some(PassesFilter(f, holds))
  {
    assert OrderSearchDomain(f).result == Leaves(FilterConditions(f));
    LeavesAreConjunction(FilterConditions(f), holds);
    FilterConditionsHold(f, holds);
  }

  // ----- paginated search -----

  /** The `result` of a search: `count` is the size of this page, `total_count`
      the backend's count of all matches. */
  datatype SearchPage<R> = SearchPage(count: nat, totalCount: int, orders: seq<R>)

  /** `search_read` with the filter's pagination, then `search_count` on the
      same domain. `page` and `total` are the backend's replies to the two
      calls (`Failure` carries the text of the exception raised). */
  function SearchOrders<R>(model: string, fields: seq<string>, f: OrderFilter,
                           page: Envelope<seq<R>>, total: Envelope<int>): (r: Run<SearchPage<R>>)
    ensures OrderSearchDomain(f).Failure? ==> r == Run(Failure(OrderSearchDomain(f).error), [])
    ensures OrderSearchDomain(f).Success? ==>
      && 1 <= |r.calls| <= 2
      && r.calls[0] == SearchRead(model, OrderSearchDomain(f).result, Some(fields), f.limit, f.offset, f.order)
      && (|r.calls| == 2 <==> page.Success?)
      && (|r.calls| == 2 ==> r.calls[1] == SearchCount(model, OrderSearchDomain(f).result))
    ensures r.envelope.Success? <==> OrderSearchDomain(f).Success? && page.Success? && total.Success?
    ensures OrderSearchDomain(f).Success? && page.Failure? ==> r.envelope == Failure(page.error)
    ensures OrderSearchDomain(f).Success? && page.Success? && total.Failure? ==> r.envelope == Failure(total.error)
    ensures r.envelope.Success? ==>
      && r.envelope.result.orders == page.result
      && r.envelope.result.count == |page.result|
      && r.envelope.result.totalCount == total.result
  {
    match OrderSearchDomain(f)
    case Failure(e) => Run(Failure(e), [])
    case Success(d) =>
      var read := SearchRead(model, d, Some(fields), f.limit, f.offset, f.order);
      match page
      case Failure(e) => Run(Failure(e), [read])
      case Success(orders) =>
        var calls := [read, SearchCount(model, d)];
        match total
        case Failure(e) => Run(Failure(e), calls)
        case Success(n) => Run(Success(SearchPage(|orders|, n, orders)), calls)
  }

  function CallDomain(c: Call): Domain
    requires c.SearchRead? || c.SearchCount?
  {
    c.domain
  }

  /** The total count is taken over the same domain as the page. */
  lemma CountUsesSearchDomain<R>(model: string, fields: seq<string>, f: OrderFilter,
                                 page: Envelope<seq<R>>, total: Envelope<int>)
    ensures var calls := SearchOrders(model, fields, f, page, total).calls;
      |calls| == 2 ==> calls[0].SearchRead? && calls[1].SearchCount? && CallDomain(calls[0]) == CallDomain(calls[1])
  {
  }

  /** A default filter searches everything, 20 records from offset 0. */
  lemma DefaultFilterSearch<R>(model: string, fields: seq<string>, page: Envelope<seq<R>>, total: Envelope<int>)
    ensures SearchOrders(model, fields, OrderFilter(), page, total).calls[0]
            == SearchRead(model, [], Some(fields), Some(20), Some(0), None)
  {
    assert Leaves([]) == [];
  }

  // ----- creation payload -----

  /** The key of a line's quantity: `product_uom_qty` on sales lines,
      `product_qty` on purchase lines. */
  datatype QuantityKey = ProductUomQty | ProductQty
  {
    function Name(): string {
      match this
      case ProductUomQty => "product_uom_qty"
      case ProductQty => "product_qty"
    }
  }

  /** Reads a `[0, 0, vals]` line command back as the line it creates. */
  function LineOf(q: QuantityKey, v: Value): Option<OrderLineCreate> {
    if v.VList? && |v.items| == 3 && v.items[0] == VInt(0) && v.items[1] == VInt(0) && v.items[2].VDict? then
      var m := v.items[2].entries;
      if && "product_id" in m && m["product_id"].VInt?
         && q.Name() in m && m[q.Name()].VReal?
         && m.Keys <= {"product_id", q.Name(), "price_unit"}
         && ("price_unit" in m ==> m["price_unit"].VReal?)
      then
        Some(OrderLineCreate(m["product_id"].i, m[q.Name()].r,
                             if "price_unit" in m then Some(m["price_unit"].r) else None))
      else None
    else None
  }

  /** The `[0, 0, {...}]` command creating one order line; `price_unit` is
      sent only when the line sets it. */
  function LineCommand(q: QuantityKey, line: OrderLineCreate): (v: Value)
    ensures v.VList? && |v.items| == 3 && v.items[0] == VInt(0) && v.items[1] == VInt(0)
    ensures v.items[2].VDict? && ("price_unit" in v.items[2].entries <==> line.priceUnit.Some?)
    ensures LineOf(q, v) == Some(line)
  {
    var vals := map["product_id" := VInt(line.productId), q.Name() := VReal(line.quantity)];
    VList([VInt(0), VInt(0), VDict(
      if line.priceUnit.Some? then vals["price_unit" := VReal(line.priceUnit.value)] else vals)])
  }

  function LineCommands(q: QuantityKey, lines: seq<OrderLineCreate>): (vs: seq<Value>)
    ensures |vs| == |lines|
    ensures forall i :: 0 <= i < |vs| ==> LineOf(q, vs[i]) == Some(lines[i])
  {
    seq(|lines|, i requires 0 <= i < |lines| => LineCommand(q, lines[i]))
  }

  /** The `order_vals` sent to `create`: the partner, one line command per
      requested line in order, and `date_order` when given. A given date that
      does not parse aborts with an error quoting it. */
  function OrderVals(q: QuantityKey, order: OrderCreate): (r: Envelope<map<string, Value>>)
    ensures r.Failure? <==> BadDate(order.dateOrder)
    ensures r.Failure? ==> r.error == InvalidDateMessage(order.dateOrder.value)
    ensures r.Success? ==>
      && "partner_id" in r.result && r.result["partner_id"] == VInt(order.partnerId)
      && "order_line" in r.result && r.result["order_line"].VList?
      && |r.result["order_line"].items| == |order.orderLines|
      && (forall i :: 0 <= i < |order.orderLines| ==>
            LineOf(q, r.result["order_line"].items[i]) == Some(order.orderLines[i]))
      && ("date_order" in r.result <==> Given(order.dateOrder))
      && (Given(order.dateOrder) ==> r.result["date_order"] == VStr(order.dateOrder.value))
  {
    if BadDate(order.dateOrder) then Failure(InvalidDateMessage(order.dateOrder.value))
    else
      var base := map["partner_id" := VInt(order.partnerId),
                      "order_line" := VList(LineCommands(q, order.orderLines))];
      Success(if Given(order.dateOrder) then base["date_order" := VStr(order.dateOrder.value)] else base)
  }

  datatype CreatedOrder = CreatedOrder(orderId: int, orderName: string)

  /** The text of Python's `IndexError` on `[][0]`. */
  const IndexErrorMessage: string := "list index out of range"

  /** `create` with the payload, then `read` of the new order's name.
      `created` is the backend's reply to `create` (the new id), `names` its
      reply to `read`. */
  function CreateOrder(model: string, q: QuantityKey, order: OrderCreate,
                       created: Envelope<int>, names: Envelope<seq<string>>): (r: Run<CreatedOrder>)
    ensures OrderVals(q, order).Failure? ==> r == Run(Failure(OrderVals(q, order).error), [])
    ensures OrderVals(q, order).Success? ==>
      && |r.calls| >= 1 && r.calls[0] == Create(model, OrderVals(q, order).result)
      && (created.Success? ==> r.calls == [r.calls[0], Read(model, [created.result], ["name"])])
      && (created.Failure? ==> r == Run(Failure(created.error), r.calls[..1]))
    ensures r.envelope.Success? <==>
      OrderVals(q, order).Success? && created.Success? && names.Success? && |names.result| > 0
    ensures r.envelope.Success? ==> r.envelope.result == CreatedOrder(created.result, names.result[0])
    ensures OrderVals(q, order).Success? && created.Success? && names.Success? && |names.result| == 0 ==>
      r.envelope == Failure(IndexErrorMessage)
  {
    match OrderVals(q, order)
    case Failure(e) => Run(Failure(e), [])
    case Success(vals) =>
      var create := Create(model, vals);
      match created
      case Failure(e) => Run(Failure(e), [create])
      case Success(id) =>
        var calls := [create, Read(model, [id], ["name"])];
        match names
        case Failure(e) => Run(Failure(e), calls)
        case Success(ns) =>
          if |ns| == 0 then Run(Failure(IndexErrorMessage), calls)
          else Run(Success(CreatedOrder(id, ns[0])), calls)
  }

  // ----- period analyses -----

  /** The error of the analyses for a malformed period bound; unlike
      `InvalidDateMessage` it does not quote the text. */
  const AnalysisDateError: string := "Formato de fecha inválido. Use YYYY-MM-DD."

  /** The `period` part of an analysis result: the bounds as given. */
  datatype Period = Period(from: string, to: string)

  function Strs(xs: seq<string>): (vs: seq<Value>)
    ensures |vs| == |xs| && forall i :: 0 <= i < |xs| ==> vs[i] == VStr(xs[i])
  {
    seq(|xs|, i requires 0 <= i < |xs| => VStr(xs[i]))
  }

  function Ints(xs: seq<int>): (vs: seq<Value>)
    ensures |vs| == |xs| && forall i :: 0 <= i < |xs| ==> vs[i] == VInt(xs[i])
  {
    seq(|xs|, i requires 0 <= i < |xs| => VInt(xs[i]))
  }

  function StatesCondition(states: seq<string>): DomainCondition {
    DomainCondition("state", "in", VList(Strs(states)))
  }

  /** The orders of a period in one of `states`:
      `[date_order >= from, date_order <= to, state in states]`. */
  function PeriodConditions(from: string, to: string, states: seq<string>): seq<DomainCondition> {
    [FromCondition(from), ToCondition(to), StatesCondition(states)]
  }

  function PeriodDomain(from: string, to: string, states: seq<string>): Domain {
    Leaves(PeriodConditions(from, to, states))
  }

  /** The period domain selects the records dated within the period whose
      state is one of `states`. */
  lemma PeriodDomainSelects(from: string, to: string, states: seq<string>, holds: DomainCondition -> bool)
    ensures Selects(PeriodDomain(from, to, states), holds)
            == Some(holds(FromCondition(from)) && holds(ToCondition(to)) && holds(StatesCondition(states)))
  {
    var cs := PeriodConditions(from, to, states);
    LeavesAreConjunction(cs, holds);
    assert AllHold(cs, holds) <==> holds(cs[0]) && holds(cs[1]) && holds(cs[2]);
  }
}
