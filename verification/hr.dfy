/** The human-resources tools: employee lookup by name and the leave
    calendar over a date range. Unlike the other tools they answer with
    response records rather than plain envelopes. */
module Hr {
  import opened Wrappers
  import opened Dates
  import opened Domains
  import opened Models
  import opened Backend
  import opened Orders

  const EmployeeModel: string := "hr.employee"
  const LeaveCalendarModel: string := "hr.leave.report.calendar"

  const StartDateError: string := "Invalid start_date format. Use YYYY-MM-DD."
  const EndDateError: string := "Invalid end_date format. Use YYYY-MM-DD."

  /** How a tool ends: with a response record after the calls it made, or
      with an exception it does not catch. */
  datatype Outcome<T> =
    | Returned(response: ResponseRecord<T>, calls: seq<Call>)
    | Raised(exception: string)

  // ----- search_employee -----

  function ToResult(pair: (int, string)): EmployeeSearchResult {
    EmployeeSearchResult(pair.0, pair.1)
  }

  function Results(pairs: seq<(int, string)>): (rs: seq<EmployeeSearchResult>)
    ensures |rs| == |pairs|
    ensures forall i :: 0 <= i < |pairs| ==> rs[i].id == pairs[i].0 && rs[i].name == pairs[i].1
  {
    seq(|pairs|, i requires 0 <= i < |pairs| => ToResult(pairs[i]))
  }

  /** `search_employee`: one `name_search` on employees, whose `(id, name)`
      pairs become the results in the order returned; a failing call
      becomes an error response. */
  function SearchEmployee(name: string, reply: Envelope<seq<(int, string)>>, limit: int := 20)
    : (r: Outcome<seq<EmployeeSearchResult>>)
    ensures r.Returned?
    ensures r.calls == [NameSearch(EmployeeModel, name, limit)]
    ensures r.response.success <==> reply.Success?
    ensures reply.Failure? ==> r.response == ResponseRecord(false, None, Some(reply.error))
    ensures reply.Success? ==>
      && r.response.result.Some? && r.response.error.None?
      && |r.response.result.value| == |reply.result|
      && forall i :: 0 <= i < |reply.result| ==>
           r.response.result.value[i] == EmployeeSearchResult(reply.result[i].0, reply.result[i].1)
  {
    var call := NameSearch(EmployeeModel, name, limit);
    match reply
    case Failure(e) => Returned(ToResponse(Failure(e)), [call])
    case Success(pairs) => Returned(ToResponse(Success(Results(pairs))), [call])
  }

  // ----- search_holidays -----

  function StartsBy(endDate: string): DomainCondition {
    DomainCondition("start_datetime", "<=", VStr(endDate + " 22:59:59"))
  }

  function StopsFrom(dayBefore: string): DomainCondition {
    DomainCondition("stop_datetime", ">=", VStr(dayBefore + " 23:00:00"))
  }

  function EmployeeCondition(id: int): DomainCondition {
    DomainCondition("employee_id", "=", VInt(id))
  }

  /** Leaves starting by 22:59:59 on the end date and stopping from
      23:00:00 on the day before the start date, of the given employee when
      a non-zero id is given. */
  function HolidayDomain(endDate: string, dayBefore: string, employeeId: Option<int>): Domain {
    [Operator("&"), Leaf(StartsBy(endDate)), Leaf(StopsFrom(dayBefore))]
    + Leaves(Optional(GivenId(employeeId), EmployeeCondition(employeeId.GetOr(0))))
  }

  lemma HolidayDomainSelects(endDate: string, dayBefore: string, employeeId: Option<int>, holds: DomainCondition -> bool)
    ensures Selects(HolidayDomain(endDate, dayBefore, employeeId), holds) == Some(
      && holds(StartsBy(endDate)) && holds(StopsFrom(dayBefore))
      && (GivenId(employeeId) ==> holds(EmployeeCondition(employeeId.value))))
  {
    var rest := Optional(GivenId(employeeId), EmployeeCondition(employeeId.GetOr(0)));
    AndPairThenConjunction(StartsBy(endDate), StopsFrom(dayBefore), rest, holds);
    if GivenId(employeeId) {
      assert rest == [EmployeeCondition(employeeId.value)];
      assert AllHold(rest, holds) <==> holds(rest[0]);
    } else {
      assert rest == [];
    }
  }

  function HolidayFetch(endDate: string, dayBefore: string, employeeId: Option<int>): Call {
    SearchRead(LeaveCalendarModel, HolidayDomain(endDate, dayBefore, employeeId), None, None, None, None)
  }

  function Rejected<T>(message: string): Outcome<T> {
    Returned(ResponseRecord(false, None, Some(message)), [])
  }

  /** The leave search once the start date has parsed to `start`. */
  function HolidaysFrom(start: Date, endDate: string, employeeId: Option<int>, reply: Envelope<seq<Holiday>>)
    : (r: Outcome<seq<Holiday>>)
    ensures r.Raised? <==> start == 1
    ensures r.Raised? ==> r.exception == OutOfRangeMessage
    ensures r.Returned? ==>
      && r.calls == [HolidayFetch(endDate, Format(start - 1), employeeId)]
      && FromResponse(r.response) == Some(reply)
  {
    match Minus(start, 1)
    case None => Raised(OutOfRangeMessage)
    case Some(dayBefore) =>
      Returned(ToResponse(reply), [HolidayFetch(endDate, Format(dayBefore), employeeId)])
  }

  /** `search_holidays`: the start date is checked before the end date and
      neither check calls the backend; the day before the start date is
      computed outside any handler, so a start on the calendar's first day
      escapes as an exception. */
  function SearchHolidays(startDate: string, endDate: string, reply: Envelope<seq<Holiday>>, employeeId: Option<int> := None)
    : (r: Outcome<seq<Holiday>>)
    ensures !IsValidDate(startDate) ==> r == Rejected(StartDateError)
    ensures IsValidDate(startDate) && !IsValidDate(endDate) ==> r == Rejected(EndDateError)
    ensures IsValidDate(startDate) && IsValidDate(endDate) ==>
      r == HolidaysFrom(Parse(startDate).value, endDate, employeeId, reply)
  {
    if !IsValidDate(startDate) then Rejected(StartDateError)
    else if !IsValidDate(endDate) then Rejected(EndDateError)
    else HolidaysFrom(Parse(startDate).value, endDate, employeeId, reply)
  }

  /** A search that reaches the backend asks for leaves stopping from the
      evening of the day before the start date: the date written into the
      domain reads back as exactly one day earlier. */
  lemma HolidaySearchDayBefore(startDate: string, endDate: string, employeeId: Option<int>, reply: Envelope<seq<Holiday>>)
    requires SearchHolidays(startDate, endDate, reply, employeeId).Returned?
    requires SearchHolidays(startDate, endDate, reply, employeeId).calls != []
    ensures exists dayBefore: string ::
      && SearchHolidays(startDate, endDate, reply, employeeId).calls == [HolidayFetch(endDate, dayBefore, employeeId)]
      && IsValidDate(dayBefore) && Parse(dayBefore).value + 1 == Parse(startDate).value
  {
    var start := Parse(startDate).value;
    assert SearchHolidays(startDate, endDate, reply, employeeId) == HolidaysFrom(start, endDate, employeeId, reply);
    DayBeforeFrom(start, endDate, employeeId, reply);
  }

  /** The day-before step of `HolidaySearchDayBefore` once the start date has parsed. */
  lemma DayBeforeFrom(start: Date, endDate: string, employeeId: Option<int>, reply: Envelope<seq<Holiday>>)
    requires HolidaysFrom(start, endDate, employeeId, reply).Returned?
    ensures exists dayBefore: string ::
      && HolidaysFrom(start, endDate, employeeId, reply).calls == [HolidayFetch(endDate, dayBefore, employeeId)]
      && IsValidDate(dayBefore) && Parse(dayBefore).value + 1 == start
  {
    var dayBefore := Format(start - 1);
    assert HolidaysFrom(start, endDate, employeeId, reply).calls == [HolidayFetch(endDate, dayBefore, employeeId)];
    ParseFormat(start - 1);
  }
}
