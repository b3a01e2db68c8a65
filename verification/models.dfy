/** The request and response records of the tools, with their pydantic
    defaults written as constructor defaults. */
module Models {
  import opened Wrappers
  import opened Domains

  /** `SalesOrderFilter` and `PurchaseOrderFilter`, which have the same shape. */
  datatype OrderFilter = OrderFilter(
    partnerId: Option<int> := None,
    dateFrom: Option<string> := None,
    dateTo: Option<string> := None,
    state: Option<string> := None,
    limit: Option<int> := Some(20),
    offset: Option<int> := Some(0),
    order: Option<string> := None)

  /** `JournalEntryFilter`. */
  datatype JournalEntryFilter = JournalEntryFilter(
    dateFrom: Option<string> := None,
    dateTo: Option<string> := None,
    journalId: Option<int> := None,
    state: Option<string> := None,
    limit: Option<int> := Some(20),
    offset: Option<int> := Some(0))

  /** `SalesOrderLineCreate` (quantity `product_uom_qty`) and
      `PurchaseOrderLineCreate` (quantity `product_qty`). */
  datatype OrderLineCreate = OrderLineCreate(productId: int, quantity: real, priceUnit: Option<real> := None)

  /** `SalesOrderCreate` and `PurchaseOrderCreate`. */
  datatype OrderCreate = OrderCreate(partnerId: int, orderLines: seq<OrderLineCreate>, dateOrder: Option<string> := None)

  /** `JournalEntryLineCreate`. */
  datatype JournalEntryLineCreate = JournalEntryLineCreate(
    accountId: int,
    partnerId: Option<int> := None,
    name: Option<string> := None,
    debit: real := 0.0,
    credit: real := 0.0)

  datatype SalesPerformanceInput = SalesPerformanceInput(dateFrom: string, dateTo: string, groupBy: Option<string> := None)

  datatype SupplierPerformanceInput = SupplierPerformanceInput(dateFrom: string, dateTo: string, supplierIds: Option<seq<int>> := None)

  datatype InventoryTurnoverInput = InventoryTurnoverInput(
    dateFrom: string, dateTo: string,
    productIds: Option<seq<int>> := None,
    categoryId: Option<int> := None)

  datatype EmployeeSearchResult = EmployeeSearchResult(id: int, name: string)

  /** `Holiday`: one entry of the leave calendar; the employee is an
      `[id, name]` pair. */
  datatype Holiday = Holiday(
    displayName: string, startDatetime: string, stopDatetime: string,
    employee: seq<Value>, name: string, state: string)

  /** `SearchEmployeeResponse` and `SearchHolidaysResponse`. */
  datatype ResponseRecord<T> = ResponseRecord(success: bool, result: Option<T> := None, error: Option<string> := None)

  /** The response record a tool builds for an envelope:
      `Response(success=True, result=...)` or `Response(success=False, error=...)`. */
  function ToResponse<T>(e: Envelope<T>): (r: ResponseRecord<T>)
    ensures r.success <==> e.Success?
    ensures r.result.Some? <==> r.success
    ensures r.error.Some? <==> !r.success
    ensures FromResponse(r) == Some(e)
  {
    match e
    case Success(v) => ResponseRecord(true, result := Some(v))
    case Failure(m) => ResponseRecord(false, error := Some(m))
  }

  /** Reads a response record back as an envelope; `None` for records no
      tool builds. */
  function FromResponse<T>(r: ResponseRecord<T>): Option<Envelope<T>> {
    if r.success && r.result.Some? && r.error.None? then Some(Success(r.result.value))
    else if !r.success && r.result.None? && r.error.Some? then Some(Failure(r.error.value))
    else None
  }

  /** The records tools build are exactly the images of envelopes. */
  lemma ResponseRoundTrip<T>(r: ResponseRecord<T>)
    requires FromResponse(r).Some?
    ensures ToResponse(FromResponse(r).value) == r
  {
  }

  /** The defaults of the filter and create records: pages of 20 from
      offset 0, every other filter field unset, no line price, and journal
      lines with nothing on either side. */
  lemma Defaults(productId: int, quantity: real, accountId: int)
    ensures OrderFilter() == OrderFilter(None, None, None, None, Some(20), Some(0), None)
    ensures JournalEntryFilter() == JournalEntryFilter(None, None, None, None, Some(20), Some(0))
    ensures OrderLineCreate(productId, quantity).priceUnit.None?
    ensures var l := JournalEntryLineCreate(accountId); l.debit == 0.0 && l.credit == 0.0
    ensures var r: ResponseRecord<int> := ResponseRecord(true); r.result.None? && r.error.None?
  {
  }

  // ----- Python truthiness of optional fields -----

  /** `if value:` on an optional string: set and non-empty. */
  predicate Given(o: Option<string>) {
    o.Some? && o.value != ""
  }

  /** `if value:` on an optional integer: set and non-zero. */
  predicate GivenId(o: Option<int>) {
    o.Some? && o.value != 0
  }

  /** `if value:` on an optional list: set and non-empty. */
  predicate GivenIds(o: Option<seq<int>>) {
    o.Some? && |o.value| > 0
  }
}
