/**
 * The arithmetic client of frontend/src/api/calculator.ts: seven one-line
 * wrappers that POST a JSON body to an endpoint named after the operation, and
 * the rule that turns the JSON response into a result or a thrown error.
 *
 * The network exchange itself (`fetch` and `response.json()`) is a parameter:
 * a function from the request sent to what came back.
 */
module ApiClient {
  import opened Wrappers

  /** `API_BASE` */
  const ApiBase: string := "/api"

  /** The six two-operand operations of the remote service. */
  datatype BinaryOperation = Add | Subtract | Multiply | Divide | Power | Percentage

  /** One call of the client: `add(a, b)` … `percentage(a, b)`, or `sqrt(a)`. */
  datatype Call = BinaryCall(op: BinaryOperation, a: string, b: string) | SqrtCall(a: string)

  /** The JSON request body: `BinaryRequest` `{a, b}` or `UnaryRequest` `{a}`. */
  datatype Body = BinaryRequest(a: string, b: string) | UnaryRequest(a: string)

  /** What `fetch` is asked to send. */
  datatype HttpRequest = HttpRequest(url: string, httpMethod: string, contentType: string, body: Body)

  /** The `result` member of the JSON response: missing, `null`, or a value
      together with its template-string form `${data.result}` (a number's
      decimal formatting is not modelled). */
  datatype ResultField = Missing | Null | Present(text: string)

  /** `CalculatorResponse`; an `error` that is missing or `null` is `None`. */
  datatype Response = Response(result: ResultField, error: Option<string>)

  /** What one round trip produced: a parsed JSON body, or the `Error` that
      `fetch` or `response.json()` rejected with. */
  datatype Exchange = Received(data: Response) | Rejected(message: string)

  /**
   * How a promise for an arithmetic result settles: resolved with the result,
   * or rejected, with the message of an `Error` or with `None` for a thrown
   * value that is not an `Error`.
   */
  datatype Outcome = Ok(result: string) | Fail(message: Option<string>)

  /** The path segment of each binary operation. */
  function OperationName(op: BinaryOperation): string {
    match op
    case Add => "add"
    case Subtract => "subtract"
    case Multiply => "multiply"
    case Divide => "divide"
    case Power => "power"
    case Percentage => "percentage"
  }

  /** The endpoint each wrapper passes to `post`. */
  function Endpoint(c: Call): string {
    match c
    case BinaryCall(op, _, _) => "/" + OperationName(op)
    case SqrtCall(_) => "/sqrt"
  }

  /** The request `post` issues for a call: a JSON POST to `API_BASE` plus the
      endpoint, with both operands for a binary operation and only `a` for sqrt. */
  function RequestOf(c: Call): (r: HttpRequest)
    ensures r.httpMethod == "POST" && r.contentType == "application/json"
    ensures r.url == ApiBase + Endpoint(c)
    ensures r.body.UnaryRequest? <==> c.SqrtCall?
    ensures r.body.a == c.a
    ensures c.BinaryCall? ==> r.body.b == c.b
  {
    var body := match c
      case BinaryCall(_, a, b) => BinaryRequest(a, b)
      case SqrtCall(a) => UnaryRequest(a);
    HttpRequest(ApiBase + Endpoint(c), "POST", "application/json", body)
  }

  /** The call a request stands for, read back from its URL and body the way
      the remote service routes it; `None` for anything the client never sends. */
  function CallOf(r: HttpRequest): Option<Call> {
    if r.httpMethod != "POST" || r.contentType != "application/json" then None
    else match r.body
      case UnaryRequest(a) =>
        if r.url == ApiBase + "/sqrt" then Some(SqrtCall(a)) else None
      case BinaryRequest(a, b) =>
        if r.url == ApiBase + "/add" then Some(BinaryCall(Add, a, b))
        else if r.url == ApiBase + "/subtract" then Some(BinaryCall(Subtract, a, b))
        else if r.url == ApiBase + "/multiply" then Some(BinaryCall(Multiply, a, b))
        else if r.url == ApiBase + "/divide" then Some(BinaryCall(Divide, a, b))
        else if r.url == ApiBase + "/power" then Some(BinaryCall(Power, a, b))
        else if r.url == ApiBase + "/percentage" then Some(BinaryCall(Percentage, a, b))
        else None
  }

  /** Every call reaches the remote service as exactly itself: distinct calls
      send distinct requests, and the endpoint and body identify the call. */
  lemma {:induction false} RequestRoundTrip(c: Call)
    ensures CallOf(RequestOf(c)) == Some(c)
  {
    match c
    case SqrtCall(_) =>
    case BinaryCall(op, _, _) =>
      var url := RequestOf(c).url;
      assert url == ApiBase + "/" + OperationName(op);
      match op
      case Add =>
      case Subtract => assert url[5] == 's';
      case Multiply => assert url[5] == 'm';
      case Divide => assert url[5] == 'd';
      case Power => assert url[6] == 'o';
      case Percentage => assert url[6] == 'e';
  }

  /**
   * The classification at the end of `post`: a non-empty `error` is thrown as
   * it is, even when a result is present; otherwise a result that is neither
   * missing nor `null` is returned in its string form; otherwise the call fails
   * with "Result is empty".
   */
  function Classify(data: Response): (o: Outcome)
    ensures data.error.Some? && data.error.value != "" ==> o == Fail(data.error)
    ensures o.Ok? <==> (data.error.None? || data.error.value == "") && data.result.Present?
    ensures o.Ok? ==> o.result == data.result.text
    ensures (data.error.None? || data.error.value == "") && !data.result.Present? ==>
              o == Fail(Some("Result is empty"))
    ensures o.Fail? ==> o.message.Some? && o.message.value != ""
  {
    if data.error.Some? && data.error.value != "" then Fail(Some(data.error.value))
    else if data.result.Present? then Ok(data.result.text)
    else Fail(Some("Result is empty"))
  }

  /** `post`: sends the request and classifies what came back; a rejected
      exchange propagates its `Error`. */
  function Post(request: HttpRequest, exchange: HttpRequest -> Exchange): (o: Outcome)
    ensures o.Ok? ==> exchange(request).Received?
    ensures exchange(request).Rejected? ==> o == Fail(Some(exchange(request).message))
    ensures exchange(request).Received? ==> o == Classify(exchange(request).data)
  {
    match exchange(request)
    case Received(data) => Classify(data)
    case Rejected(message) => Fail(Some(message))
  }

  /** The wrappers `add` … `percentage` and `sqrt`. */
  function Invoke(c: Call, exchange: HttpRequest -> Exchange): (o: Outcome)
    ensures exchange(RequestOf(c)).Rejected? ==> o == Fail(Some(exchange(RequestOf(c)).message))
    ensures exchange(RequestOf(c)).Received? ==> o == Classify(exchange(RequestOf(c)).data)
    ensures o.Fail? ==> o.message.Some?
  {
    Post(RequestOf(c), exchange)
  }
}
