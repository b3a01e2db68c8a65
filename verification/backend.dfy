/** The remote calls the handlers issue. The backend is not modelled: a
    handler receives the backend's replies as parameters and returns, with
    its envelope, the calls it made, in order. */
module Backend {
  import opened Wrappers
  import opened Domains

  datatype Call =
    | SearchRead(model: string, domain: Domain, fields: Option<seq<string>>,
                 limit: Option<int>, offset: Option<int>, order: Option<string>)
    | SearchCount(model: string, domain: Domain)
    | Create(model: string, vals: map<string, Value>)
    | Read(model: string, ids: seq<int>, readFields: seq<string>)
    // `read` under the context `{"to_date": toDate}`
    | ReadAsOf(model: string, ids: seq<int>, readFields: seq<string>, toDate: string)
    | NameSearch(model: string, name: string, maxResults: int)

  /** What a handler returned and the calls it issued to get there. */
  datatype Run<T> = Run(envelope: Envelope<T>, calls: seq<Call>)

  /** A plain `search_read` with only a field projection. */
  function Fetch(model: string, domain: Domain, fields: seq<string>): Call {
    SearchRead(model, domain, Some(fields), None, None, None)
  }

  /** Run `i` is the first of `rs` to fail. */
  predicate FirstFailure<T>(rs: seq<Run<T>>, i: int) {
    && 0 <= i < |rs|
    && rs[i].envelope.Failure?
    && forall j :: 0 <= j < i ==> rs[j].envelope.Success?
  }

  /** The calls of `rs`, run after run. */
  function AllCalls<T>(rs: seq<Run<T>>): seq<Call> {
    if |rs| == 0 then [] else rs[0].calls + AllCalls(rs[1..])
  }

  /** Runs one after another, as a loop whose body may raise: the calls of
      each run up to the first that fails, and the results of all when none
      fails. */
  function Sequence<T>(rs: seq<Run<T>>): (r: Run<seq<T>>)
    ensures r.envelope.Success? <==> forall i :: 0 <= i < |rs| ==> rs[i].envelope.Success?
    ensures r.envelope.Success? ==>
      && |r.envelope.result| == |rs|
      && (forall i :: 0 <= i < |rs| ==> r.envelope.result[i] == rs[i].envelope.result)
      && r.calls == AllCalls(rs)
    ensures r.envelope.Failure? ==> exists i ::
      && FirstFailure(rs, i)
      && r.envelope.error == rs[i].envelope.error
      && r.calls == AllCalls(rs[..i + 1])
    ensures |rs| == 0 ==> r.calls == []
    ensures |rs| > 0 ==> rs[0].calls <= r.calls
  {
    if |rs| == 0 then Run(Success([]), [])
    else
      match rs[0].envelope
      case Failure(e) =>
        assert FirstFailure(rs, 0);
        assert rs[..1][0] == rs[0] && rs[..1][1..] == [];
        assert AllCalls(rs[..1]) == rs[0].calls + [];
        Run(Failure(e), rs[0].calls)
      case Success(t) =>
        var rest := Sequence(rs[1..]);
        match rest.envelope
        case Failure(e) =>
          var k :| FirstFailure(rs[1..], k) && e == rs[1..][k].envelope.error
                   && rest.calls == AllCalls(rs[1..][..k + 1]);
          assert FirstFailure(rs, k + 1);
          assert rs[..k + 2][0] == rs[0] && rs[..k + 2][1..] == rs[1..][..k + 1];
          assert AllCalls(rs[..k + 2]) == rs[0].calls + rest.calls;
          Run(Failure(e), rs[0].calls + rest.calls)
        case Success(ts) =>
          assert forall i :: 1 <= i < |rs| ==> rs[i] == rs[1..][i - 1];
          Run(Success([t] + ts), rs[0].calls + rest.calls)
  }
}
