/** The API runner: one request per configured endpoint, each under the retry
    loop with pacing and backoff, the raw outcomes turned into records in
    endpoint order, and the records prepared for the CSV and SQLite writers.

    The HTTP transport is an oracle: `transport(a)` is the response attempt a
    receives, or the exception it raises. The pacing draws are an oracle too. */
module ApiAutomation {
  import opened Values
  import opened Retry
  import Storage

  /** What the transport hands back for one request. */
  datatype Response = Response(status: int, headers: Entries, body: string)

  /** What `asyncio.gather(..., return_exceptions=True)` collects for one
      endpoint: the value the coroutine returned, or the exception it raised. */
  datatype Gathered = Returned(value: Value) | Raised(exc: Exception)

  /** One call of make_request: what it yields and the sleeps it took. */
  datatype Call = Call(result: Gathered, log: seq<AttemptLog>)

  const Supported: set<string> := {"GET", "POST", "PUT", "DELETE"}

  /** The record a successful request returns. */
  function Record(url: Value, r: Response): Value
  {
    Dict([("url", url), ("status", Int(r.status)), ("headers", Dict(r.headers)), ("data", Str(r.body))])
  }

  /** The record a request returns once every attempt has failed. */
  function ErrorRecord(url: Value, cause: Exception): Value
  {
    Dict([("url", url), ("error", Str(cause.message))])
  }

  /** Attempt a of the request with the upper-cased method: a supported method
      issues the call; any other raises ValueError inside the try block, so it
      counts as a failed attempt like a transport error does. */
  function RequestAttempt(verb: string, url: Value, transport: nat -> Attempt<Response>, a: nat): Attempt<Value>
  {
    if verb in Supported then
      match transport(a)
      case Success(r) => Success(Record(url, r))
      case Failure(c) => Failure(c)
    else Failure(Exception("ValueError", "Unsupported HTTP method: " + verb))
  }

  function RequestOp(verb: string, url: Value, transport: nat -> Attempt<Response>): nat -> Attempt<Value>
  {
    (a: nat) => RequestAttempt(verb, url, transport, a)
  }

  /** make_request: the url and the method are read first (a non-dict endpoint or
      a non-string method raises before any attempt); then the retry loop runs,
      pacing every attempt with a delay drawn from delay_range. Exhaustion gives
      the {'url', 'error'} record; retry_count <= 0 falls through to None. */
  function Request(endpoint: Value, retryCount: int, delayRange: Range, draws: nat -> real,
                   transport: nat -> Attempt<Response>): Call
  {
    if !endpoint.Dict? then Call(Raised(NoAttribute(endpoint, "get")), [])
    else
      var url := Get(endpoint.entries, "url", Null);
      var m := Get(endpoint.entries, "method", Str("GET"));
      if !m.Str? then Call(Raised(NoAttribute(m, "upper")), [])
      else
        var e := Retried(retryCount, Some(delayRange), draws, RequestOp(Upper(m.s), url, transport));
        match e.outcome
        case Succeeded(p, _) => Call(Returned(p), e.log)
        case Exhausted(c, _) => Call(Returned(ErrorRecord(url, c)), e.log)
        case NoAttempt => Call(Returned(Null), e.log)
  }

  /** make_request as the source writes it. */
  method MakeRequest(endpoint: Value, retryCount: int, delayRange: Range, draws: nat -> real,
                     transport: nat -> Attempt<Response>) returns (c: Call)
    ensures c == Request(endpoint, retryCount, delayRange, draws, transport)
  {
    if !endpoint.Dict? {
      return Call(Raised(NoAttribute(endpoint, "get")), []);
    }
    var url := Get(endpoint.entries, "url", Null);
    var m := Get(endpoint.entries, "method", Str("GET"));
    if !m.Str? {
      return Call(Raised(NoAttribute(m, "upper")), []);
    }
    var e := Execute(retryCount, Some(delayRange), draws, RequestOp(Upper(m.s), url, transport));
    match e.outcome {
      case Succeeded(p, _) => c := Call(Returned(p), e.log);
      case Exhausted(cause, _) => c := Call(Returned(ErrorRecord(url, cause)), e.log);
      case NoAttempt => c := Call(Returned(Null), e.log);
    }
  }

  /** The retry discipline of one request: at most retry_count attempts; a
      pacing delay within delay_range before every attempt; a backoff of 2**j
      after attempt j exactly when another attempt follows. */
  lemma RequestSchedule(endpoint: Value, retryCount: int, delayRange: Range, draws: nat -> real,
                        transport: nat -> Attempt<Response>)
    requires delayRange.lo <= delayRange.hi
    requires forall a :: 0.0 <= draws(a) < 1.0
    ensures var c := Request(endpoint, retryCount, delayRange, draws, transport);
      && |c.log| <= (if retryCount <= 0 then 0 else retryCount)
      && (forall j :: 0 <= j < |c.log| ==>
            c.log[j].pacing.Some? && delayRange.lo <= c.log[j].pacing.value <= delayRange.hi)
      && (forall j :: 0 <= j < |c.log| ==>
            c.log[j].backoff == (if j + 1 < |c.log| then Some(Pow2(j)) else None))
  {
    if endpoint.Dict? && Get(endpoint.entries, "method", Str("GET")).Str? {
      var m := Get(endpoint.entries, "method", Str("GET"));
      var op := RequestOp(Upper(m.s), Get(endpoint.entries, "url", Null), transport);
      AttemptsBounded(retryCount, Some(delayRange), draws, op);
      PacingBeforeEveryAttempt(retryCount, Some(delayRange), draws, op);
      BackoffSchedule(retryCount, Some(delayRange), draws, op);
    }
  }

  /** Once the url and method are read, make_request never raises: it returns the
      response record of the first successful attempt, the error record when all
      retry_count attempts failed, or None when retry_count <= 0. The record
      carries an 'error' key exactly when every attempt failed. */
  lemma RequestNeverRaises(endpoint: Value, retryCount: int, delayRange: Range, draws: nat -> real,
                           transport: nat -> Attempt<Response>)
    requires endpoint.Dict? && Get(endpoint.entries, "method", Str("GET")).Str?
    ensures var c := Request(endpoint, retryCount, delayRange, draws, transport);
      var url := Get(endpoint.entries, "url", Null);
      var op := RequestOp(Upper(Get(endpoint.entries, "method", Str("GET")).s), url, transport);
      && c.result.Returned?
      && (retryCount <= 0 <==> c.result.value == Null)
      && (retryCount > 0 ==>
            && c.result.value.Dict?
            && Get(c.result.value.entries, "url", Null) == url
            && ("error" in Keys(c.result.value.entries) <==> forall j :: 0 <= j < retryCount ==> op(j).Failure?))
  {
    var url := Get(endpoint.entries, "url", Null);
    var op := RequestOp(Upper(Get(endpoint.entries, "method", Str("GET")).s), url, transport);
    ExhaustedIffAllFail(retryCount, Some(delayRange), draws, op);
    AttemptsBounded(retryCount, Some(delayRange), draws, op);
    StopsAtFirstSuccess(retryCount, Some(delayRange), draws, op);
    var e := Retried(retryCount, Some(delayRange), draws, op);
    match e.outcome {
      case Succeeded(p, n) =>
        assert op(n - 1) == Success(p) && n - 1 < retryCount;
        assert RequestAttempt(Upper(Get(endpoint.entries, "method", Str("GET")).s), url, transport, n - 1) == Success(p);
        RecordSurvives(url, transport(n - 1).payload);
        assert "error" !in Keys(p.entries);
      case Exhausted(c, _) => ErrorRecordDropped(url, c);
      case NoAttempt =>
    }
  }

  /** The first successful attempt ends the request with its response record,
      after exactly that many attempts. */
  lemma FirstSuccessReturned(endpoint: Value, retryCount: int, delayRange: Range, draws: nat -> real,
                             transport: nat -> Attempt<Response>, k: nat)
    requires endpoint.Dict?
    requires var m := Get(endpoint.entries, "method", Str("GET")); m.Str? && Upper(m.s) in Supported
    requires k < retryCount && transport(k).Success?
    requires forall j :: 0 <= j < k ==> transport(j).Failure?
    ensures var c := Request(endpoint, retryCount, delayRange, draws, transport);
      && c.result == Returned(Record(Get(endpoint.entries, "url", Null), transport(k).payload))
      && |c.log| == k + 1
  {
    var url := Get(endpoint.entries, "url", Null);
    var m := Get(endpoint.entries, "method", Str("GET"));
    var op := RequestOp(Upper(m.s), url, transport);
    ExhaustedIffAllFail(retryCount, Some(delayRange), draws, op);
    StopsAtFirstSuccess(retryCount, Some(delayRange), draws, op);
    AttemptsBounded(retryCount, Some(delayRange), draws, op);
    assert op(k).Success?;
    assert forall j :: 0 <= j < k ==> op(j).Failure?;
  }

  /** An unsupported method is raised inside the try block: every attempt fails
      with it, no transport call happens, and the request still ends as an error
      record after retry_count attempts. */
  lemma UnsupportedMethodIsErrorRecord(endpoint: Value, retryCount: int, delayRange: Range, draws: nat -> real,
                                       transport: nat -> Attempt<Response>)
    requires endpoint.Dict? && retryCount > 0
    requires var m := Get(endpoint.entries, "method", Str("GET")); m.Str? && Upper(m.s) !in Supported
    ensures var c := Request(endpoint, retryCount, delayRange, draws, transport);
      var m := Get(endpoint.entries, "method", Str("GET"));
      && c.result == Returned(Dict([("url", Get(endpoint.entries, "url", Null)),
                                    ("error", Str("Unsupported HTTP method: " + Upper(m.s)))]))
      && |c.log| == retryCount
  {
    var m := Get(endpoint.entries, "method", Str("GET"));
    var op := RequestOp(Upper(m.s), Get(endpoint.entries, "url", Null), transport);
    ExhaustedIffAllFail(retryCount, Some(delayRange), draws, op);
  }

  /** The processing loop of run_async: an exception becomes {'error': str(exc)}
      at the same index; every other result is kept as it is. */
  function Processed(g: Gathered): Value
  {
    match g
    case Returned(v) => v
    case Raised(e) => Dict([("error", Str(e.message))])
  }

  method ProcessResults(results: seq<Gathered>) returns (processed: seq<Value>)
    ensures |processed| == |results|
    ensures forall i :: 0 <= i < |results| ==>
      (results[i].Raised? ==> processed[i] == Dict([("error", Str(results[i].exc.message))]))
      && (results[i].Returned? ==> processed[i] == results[i].value)
  {
    processed := [];
    var i := 0;
    while i < |results|
      invariant 0 <= i <= |results|
      invariant |processed| == i
      invariant forall j :: 0 <= j < i ==> processed[j] == Processed(results[j])
    {
      if results[i].Raised? {
        processed := processed + [Dict([("error", Str(results[i].exc.message))])];
      } else {
        processed := processed + [results[i].value];
      }
      i := i + 1;
    }
  }

  /** run_async with the batch run one endpoint after another: endpoint i draws
      its pacing from draws(i) and meets transport(i). The output has one entry
      per endpoint, in endpoint order, and an exception at index i is an error
      record at index i. */
  method RunAsync(endpoints: seq<Value>, retryCount: int, delayRange: Range,
                  draws: nat -> nat -> real, transport: nat -> nat -> Attempt<Response>)
    returns (results: seq<Value>)
    ensures |results| == |endpoints|
    ensures forall i :: 0 <= i < |endpoints| ==>
      results[i] == Processed(Request(endpoints[i], retryCount, delayRange, draws(i), transport(i)).result)
  {
    var gathered: seq<Gathered> := [];
    var i := 0;
    while i < |endpoints|
      invariant 0 <= i <= |endpoints|
      invariant |gathered| == i
      invariant forall j :: 0 <= j < i ==>
        gathered[j] == Request(endpoints[j], retryCount, delayRange, draws(j), transport(j)).result
    {
      var c := MakeRequest(endpoints[i], retryCount, delayRange, draws(i), transport(i));
      gathered := gathered + [c.result];
      i := i + 1;
    }
    results := ProcessResults(gathered);
  }

  /** run: nothing at all on a dry run, otherwise run_async over the endpoints. */
  method Run(dryRun: bool, endpoints: seq<Value>, retryCount: int, delayRange: Range,
             draws: nat -> nat -> real, transport: nat -> nat -> Attempt<Response>)
    returns (results: seq<Value>)
    ensures dryRun ==> results == []
    ensures !dryRun ==> |results| == |endpoints| && forall i :: 0 <= i < |endpoints| ==>
      results[i] == Processed(Request(endpoints[i], retryCount, delayRange, draws(i), transport(i)).result)
  {
    if dryRun {
      return [];
    }
    results := RunAsync(endpoints, retryCount, delayRange, draws, transport);
  }

  /** A response record reaches storage. */
  lemma RecordSurvives(url: Value, r: Response)
    ensures Storage.Survives(Record(url, r))
    ensures Keys(Record(url, r).entries) == {"url", "status", "headers", "data"}
  {
    var status, headers, data := ("status", Int(r.status)), ("headers", Dict(r.headers)), ("data", Str(r.body));
    assert Record(url, r).entries == [("url", url)] + ([status] + ([headers] + [data]));
    KeysPrepend("url", url, [status] + ([headers] + [data]));
    KeysPrepend("status", status.1, [headers] + [data]);
    KeysPrepend("headers", headers.1, [data]);
    KeysPrepend("data", data.1, []);
    assert [data] == [data] + [];
  }

  /** An error record never reaches storage. */
  lemma ErrorRecordDropped(url: Value, cause: Exception)
    ensures !Storage.Survives(ErrorRecord(url, cause))
  {
    KeysPrepend("url", url, [("error", Str(cause.message))]);
    KeysPrepend("error", Str(cause.message), []);
    assert [("error", Str(cause.message))] == [("error", Str(cause.message))] + [];
  }
}
