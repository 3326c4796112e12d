/**
 * The request wrapper built by `CreateController` (src/http/controller.js).
 *
 * With a validation schema, the wrapper first normalises the sentinel
 * strings of `req.body`, `req.params` and `req.query` in place, then parses
 * `{body, params, query}` with the schema and copies each truthy part of the
 * parsed result back onto the request. It then calls the handler; a rejected
 * handler promise goes to `next` unchanged, issues or not. Anything thrown
 * synchronously, by `parse` or by the handler, lands in one catch block: an
 * error carrying `issues` is answered with status 400 and one
 * `{code, message, path}` entry per issue, any other error goes to `next`
 * unchanged.
 *
 * The schema's `parse` and the handler are foreign code: both are given as
 * functions from their input to an outcome.
 */
module Controller {
  import opened Wrappers
  import opened Validation

  // ---------------------------------------------------------------------------
  // Errors and their report

  /** One segment of a zod issue path: a property name or an array index. */
  datatype Segment = Key(name: string) | Index(n: nat)

  /** A zod issue, as far as the wrapper reads it. */
  datatype Issue = Issue(code: string, message: string, path: seq<Segment>)

  /**
   * A thrown or rejected error object. `issues` is `None` where the property
   * is undefined; a zod error carries an array, truthy even when empty.
   * `tag` tells errors without issues apart.
   */
  datatype Failure = Failure(issues: Option<seq<Issue>>, tag: nat)

  /** One entry of the `{errors: [...]}` body of a 400 answer. */
  datatype ErrorEntry = ErrorEntry(code: string, message: string, path: string)

  /** `StatusCodes.BAD_REQUEST` of the `http-status-codes` package. */
  const BadRequestStatus: nat := 400

  /** `String(d)` for a decimal digit. */
  function Digit(d: nat): char
    requires d < 10
  {
    (('0' as int) + d) as char
  }

  /** `String(n)` for a non-negative integer: its decimal digits. */
  function DecimalString(n: nat): string
    decreases n
  {
    if n < 10 then [Digit(n)] else DecimalString(n / 10) + [Digit(n % 10)]
  }

  /** A decimal string is made of digits only, so it holds no `.`. */
  lemma {:induction false} DecimalStringDigits(n: nat)
    ensures DecimalString(n) != []
    ensures forall i | 0 <= i < |DecimalString(n)| :: '0' <= DecimalString(n)[i] <= '9'
    decreases n
  {
    if n >= 10 {
      DecimalStringDigits(n / 10);
      var s := DecimalString(n / 10);
      assert DecimalString(n) == s + [Digit(n % 10)];
      forall i | 0 <= i < |DecimalString(n)|
        ensures '0' <= DecimalString(n)[i] <= '9'
      {
        if i < |s| {
          assert DecimalString(n)[i] == s[i];
        }
      }
    }
  }

  /** How `Array.prototype.join` writes one segment. */
  function SegmentText(s: Segment): string {
    match s
    case Key(name) => name
    case Index(n) => DecimalString(n)
  }

  /** `path.join(".")`. */
  function Join(path: seq<Segment>): string
    decreases |path|
  {
    if path == [] then ""
    else if |path| == 1 then SegmentText(path[0])
    else SegmentText(path[0]) + "." + Join(path[1..])
  }

  /** `s.split(".")`: the pieces between the dots, at least one. */
  function Split(s: string): (pieces: seq<string>)
    ensures |pieces| >= 1
    decreases |s|
  {
    if s == [] then [""]
    else
      var rest := Split(s[1..]);
      if s[0] == '.' then [""] + rest else [[s[0]] + rest[0]] + rest[1..]
  }

  lemma {:induction false} SplitNoDot(s: string)
    requires '.' !in s
    ensures Split(s) == [s]
    decreases |s|
  {
    if s != [] {
      SplitNoDot(s[1..]);
      assert [s[0]] + s[1..] == s;
    }
  }

  lemma {:induction false} SplitAtDot(a: string, b: string)
    requires '.' !in a
    ensures Split(a + "." + b) == [a] + Split(b)
    decreases |a|
  {
    if a == [] {
      assert a + "." + b == ['.'] + b;
      assert (['.'] + b)[1..] == b;
    } else {
      var s := a + "." + b;
      assert s[1..] == a[1..] + "." + b;
      SplitAtDot(a[1..], b);
      assert [a[0]] + a[1..] == a;
    }
  }

  /** The texts of the segments, in order. */
  function Texts(path: seq<Segment>): seq<string> {
    seq(|path|, i requires 0 <= i < |path| => SegmentText(path[i]))
  }

  /**
   * The joined path loses nothing: splitting it at the dots gives back the
   * segments' texts, as long as no property name holds a dot itself.
   */
  lemma {:induction false} JoinSplit(path: seq<Segment>)
    requires path != []
    requires forall i | 0 <= i < |path| :: '.' !in SegmentText(path[i])
    ensures Split(Join(path)) == Texts(path)
    decreases |path|
  {
    var head := SegmentText(path[0]);
    if |path| == 1 {
      SplitNoDot(head);
    } else {
      var tail := path[1..];
      forall i | 0 <= i < |tail|
        ensures '.' !in SegmentText(tail[i])
      {
        assert tail[i] == path[i + 1];
      }
      JoinSplit(tail);
      SplitAtDot(head, Join(tail));
      assert Texts(path) == [head] + Texts(tail);
    }
  }

  /** An index segment is written with its decimal digits, so it never holds a dot. */
  lemma IndexHasNoDot(n: nat)
    ensures '.' !in SegmentText(Index(n))
  {
    DecimalStringDigits(n);
  }

  /** The examples: `["body", "age"]` gives "body.age", `["items", 12]` gives "items.12", `[]` gives "". */
  lemma JoinExamples()
    ensures Join([Key("body"), Key("age")]) == "body.age"
    ensures Join([Key("items"), Index(12)]) == "items.12"
    ensures Join([]) == ""
  {
    assert DecimalString(12) == DecimalString(1) + [Digit(2)];
  }

  /** `issue => ({code, message, path: issue.path.join(".")})`. */
  function EntryOf(issue: Issue): ErrorEntry {
    ErrorEntry(issue.code, issue.message, Join(issue.path))
  }

  /** `issues.map(...)`: the `errors` array of the 400 body. */
  function ErrorsOf(issues: seq<Issue>): seq<ErrorEntry>
    decreases |issues|
  {
    if issues == [] then [] else ErrorsOf(issues[..|issues| - 1]) + [EntryOf(issues[|issues| - 1])]
  }

  /** One entry per issue, in the issues' order. */
  lemma {:induction false} ErrorsOfSpec(issues: seq<Issue>)
    ensures |ErrorsOf(issues)| == |issues|
    ensures forall i | 0 <= i < |issues| ::
      ErrorsOf(issues)[i] == ErrorEntry(issues[i].code, issues[i].message, Join(issues[i].path))
    decreases |issues|
  {
    if issues != [] {
      var init := issues[..|issues| - 1];
      ErrorsOfSpec(init);
      var before := ErrorsOf(init);
      assert ErrorsOf(issues) == before + [EntryOf(issues[|issues| - 1])];
      forall i | 0 <= i < |issues|
        ensures ErrorsOf(issues)[i] == ErrorEntry(issues[i].code, issues[i].message, Join(issues[i].path))
      {
        if i < |init| {
          assert ErrorsOf(issues)[i] == before[i];
          assert issues[i] == init[i];
        } else {
          assert i == |before|;
        }
      }
    }
  }

  // ---------------------------------------------------------------------------
  // What one request goes through

  /** The three parts of a request the wrapper reads and writes. */
  datatype Parts = Parts(body: Value, params: Value, query: Value)

  /** What `validationSchema.parse` does with its argument. */
  datatype ParseOutcome = Parsed(value: Value) | ParseThrew(error: Failure)

  /**
   * What calling the handler does: its promise settles (or it returns a
   * value), its promise rejects, or it throws before returning.
   */
  datatype HandlerOutcome = Settled | Rejected(error: Failure) | Threw(error: Failure)

  /**
   * What the wrapper leaves behind: the request parts, the request the
   * handler was called with (if it was), the status set and the body sent
   * (if any), and the error passed to `next` (if any).
   */
  datatype Reply = Reply(
    request: Parts,
    handled: Option<Parts>,
    status: Option<nat>,
    sent: Option<seq<ErrorEntry>>,
    forwarded: Option<Failure>)

  /** The sentinel normalisation of lines 34-36, one part after the other. */
  function Normalized(p: Parts): Parts {
    Parts(Normalize(p.body), Normalize(p.params), Normalize(p.query))
  }

  /** The argument of `parse` (lines 37-41): `{body, params, query}`. */
  function ParseInput(p: Parts): Value {
    Obj([Member("body", p.body), Member("params", p.params), Member("query", p.query)])
  }

  /** `if (parsed?.key) req.key = parsed.key` (lines 42-50), for one part. */
  function Take(current: Value, parsed: Value, key: string): Value {
    if Field(parsed, key).Truthy() then Field(parsed, key) else current
  }

  function Replaced(p: Parts, parsed: Value): Parts {
    Parts(Take(p.body, parsed, "body"), Take(p.params, parsed, "params"), Take(p.query, parsed, "query"))
  }

  /** The catch block (lines 53-66), with the request as it was when `error` was thrown. */
  function Caught(request: Parts, handled: Option<Parts>, error: Failure): Reply {
    if error.issues.Some? then Reply(request, handled, Some(BadRequestStatus), Some(ErrorsOf(error.issues.value)), None)
    else Reply(request, handled, None, None, Some(error))
  }

  /** Line 52: the handler is called with the request; a rejection goes to `next`. */
  function Invoke(handler: Parts -> HandlerOutcome, request: Parts): Reply {
    match handler(request)
    case Settled => Reply(request, Some(request), None, None, None)
    case Rejected(e) => Reply(request, Some(request), None, None, Some(e))
    case Threw(e) => Caught(request, Some(request), e)
  }

  /** The wrapper `CreateController({validationSchema, handler})` returns, run on one request. */
  function Run(schema: Option<Value -> ParseOutcome>, handler: Parts -> HandlerOutcome, req: Parts): Reply {
    if schema.None? then Invoke(handler, req)
    else
      var normalized := Normalized(req);
      match schema.value(ParseInput(normalized))
      case ParseThrew(e) => Caught(normalized, None, e)
      case Parsed(v) => Invoke(handler, Replaced(normalized, v))
  }

  // ---------------------------------------------------------------------------
  // Properties

  /** Without a schema nothing is normalised or replaced and the handler sees the request as it came. */
  lemma NoSchemaNoRewrite(handler: Parts -> HandlerOutcome, req: Parts)
    ensures var r := Run(None, handler, req);
      && r.request == req
      && r.handled == Some(req)
  {
  }

  /**
   * With a schema, `parse` sees the normalised parts: two requests that
   * normalise alike are answered alike, and a request that is already
   * normalised is answered as its raw form is.
   */
  lemma NormalizedBeforeParse(schema: Value -> ParseOutcome, handler: Parts -> HandlerOutcome, req: Parts)
    ensures Run(Some(schema), handler, Normalized(req)) == Run(Some(schema), handler, req)
  {
    NormalizeIdempotent(req.body);
    NormalizeIdempotent(req.params);
    NormalizeIdempotent(req.query);
  }

  /**
   * After a successful parse each part is replaced exactly when the parsed
   * result holds a truthy value for it, and otherwise keeps its normalised
   * value; the handler is then called with that request.
   */
  lemma ParsedPartsReplaced(schema: Value -> ParseOutcome, handler: Parts -> HandlerOutcome, req: Parts)
    requires schema(ParseInput(Normalized(req))).Parsed?
    ensures var v := schema(ParseInput(Normalized(req))).value;
      var r := Run(Some(schema), handler, req);
      && r.handled == Some(r.request)
      && (Field(v, "body").Truthy() ==> r.request.body == Field(v, "body"))
      && (!Field(v, "body").Truthy() ==> r.request.body == Normalize(req.body))
      && (Field(v, "params").Truthy() ==> r.request.params == Field(v, "params"))
      && (!Field(v, "params").Truthy() ==> r.request.params == Normalize(req.params))
      && (Field(v, "query").Truthy() ==> r.request.query == Field(v, "query"))
      && (!Field(v, "query").Truthy() ==> r.request.query == Normalize(req.query))
  {
  }

  /**
   * A validation error with issues is answered with status 400 and one entry
   * per issue, in order, with the path joined by dots; the handler is not
   * called, nothing goes to `next`, and the request keeps its normalised parts.
   */
  lemma IssuesAnswered(schema: Value -> ParseOutcome, handler: Parts -> HandlerOutcome, req: Parts)
    requires schema(ParseInput(Normalized(req))).ParseThrew?
    requires schema(ParseInput(Normalized(req))).error.issues.Some?
    ensures var issues := schema(ParseInput(Normalized(req))).error.issues.value;
      var r := Run(Some(schema), handler, req);
      && r.status == Some(BadRequestStatus)
      && r.sent.Some? && |r.sent.value| == |issues|
      && (forall i | 0 <= i < |issues| ::
            r.sent.value[i] == ErrorEntry(issues[i].code, issues[i].message, Join(issues[i].path)))
      && r.handled == None && r.forwarded == None
      && r.request == Normalized(req)
  {
    ErrorsOfSpec(schema(ParseInput(Normalized(req))).error.issues.value);
  }

  /** An error without issues is passed to `next` as it is, and nothing is sent. */
  lemma OtherErrorsForwarded(schema: Value -> ParseOutcome, handler: Parts -> HandlerOutcome, req: Parts)
    requires schema(ParseInput(Normalized(req))).ParseThrew?
    requires schema(ParseInput(Normalized(req))).error.issues.None?
    ensures var r := Run(Some(schema), handler, req);
      && r.forwarded == Some(schema(ParseInput(Normalized(req))).error)
      && r.status == None && r.sent == None && r.handled == None
  {
  }

  /**
   * A rejection of the handler's promise goes to `next` unchanged and is
   * never answered with 400, even when it carries issues.
   */
  lemma RejectionForwarded(schema: Option<Value -> ParseOutcome>, handler: Parts -> HandlerOutcome, req: Parts)
    requires Run(schema, handler, req).handled.Some?
    requires handler(Run(schema, handler, req).handled.value).Rejected?
    ensures var r := Run(schema, handler, req);
      && r.forwarded == Some(handler(r.handled.value).error)
      && r.status == None && r.sent == None
  {
  }

  /**
   * A handler that throws before returning lands in the same catch block as
   * a validation error: with issues it is answered with 400, without them it
   * goes to `next`.
   */
  lemma ThrowCaught(schema: Option<Value -> ParseOutcome>, handler: Parts -> HandlerOutcome, req: Parts)
    requires Run(schema, handler, req).handled.Some?
    requires handler(Run(schema, handler, req).handled.value).Threw?
    ensures var r := Run(schema, handler, req);
      var e := handler(r.handled.value).error;
      && (e.issues.Some? ==> r.status == Some(BadRequestStatus) && r.sent == Some(ErrorsOf(e.issues.value))
                             && r.forwarded == None)
      && (e.issues.None? ==> r.forwarded == Some(e) && r.status == None && r.sent == None)
  {
  }

  /**
   * Which errors with issues are answered with 400 depends on timing, not on
   * where they come from: the same error thrown synchronously by the handler
   * is answered with 400, while a rejection of its promise goes to `next`.
   */
  lemma IssuesSplitByTiming(handler: Parts -> HandlerOutcome, req: Parts, issues: seq<Issue>, tag: nat)
    ensures handler(req) == Threw(Failure(Some(issues), tag)) ==>
      var r := Run(None, handler, req);
      r.status == Some(BadRequestStatus) && r.sent == Some(ErrorsOf(issues)) && r.forwarded == None
    ensures handler(req) == Rejected(Failure(Some(issues), tag)) ==>
      var r := Run(None, handler, req);
      r.status == None && r.sent == None && r.forwarded == Some(Failure(Some(issues), tag))
  {
  }

  /**
   * Exactly one way out: either a 400 is sent and nothing is forwarded, or
   * at most one error is forwarded and nothing is sent; an answer is only
   * ever sent for an error with issues.
   */
  lemma OneOutcome(schema: Option<Value -> ParseOutcome>, handler: Parts -> HandlerOutcome, req: Parts)
    ensures var r := Run(schema, handler, req);
      && (r.status.Some? <==> r.sent.Some?)
      && (r.sent.Some? ==> r.forwarded.None? && r.status == Some(BadRequestStatus))
      && (r.handled.None? ==> r.status.Some? || r.forwarded.Some?)
  {
  }

  // ---------------------------------------------------------------------------
  // The wrapper, step by step

  /** An Express request: the three parts the wrapper reads and may replace. */
  class Request {
    var body: Value
    var params: Value
    var query: Value

    constructor (body: Value, params: Value, query: Value)
      ensures this.body == body && this.params == params && this.query == query
    {
      this.body := body;
      this.params := params;
      this.query := query;
    }

    function Current(): Parts
      reads this
    {
      Parts(body, params, query)
    }
  }

  /** An Express response: the status set and the bodies sent. */
  class Response {
    var statusCode: Option<nat>
    var sent: seq<seq<ErrorEntry>>

    constructor ()
      ensures statusCode == None && sent == []
    {
      statusCode := None;
      sent := [];
    }

    /** `res.status(code)`. */
    method Status(code: nat)
      modifies this
      ensures statusCode == Some(code) && sent == old(sent)
    {
      statusCode := Some(code);
    }

    /** `res.send({errors})`. */
    method Send(errors: seq<ErrorEntry>)
      modifies this
      ensures statusCode == old(statusCode) && sent == old(sent) + [errors]
    {
      sent := sent + [errors];
    }
  }

  /** Express's `next`: the errors it was called with, in order. */
  class NextFunction {
    var calls: seq<Failure>

    constructor ()
      ensures calls == []
    {
      calls := [];
    }

    method Call(error: Failure)
      modifies this
      ensures calls == old(calls) + [error]
    {
      calls := calls + [error];
    }
  }

  /** The catch block of lines 53-66 on the live response and `next`. */
  method HandleError(res: Response, next: NextFunction, error: Failure)
    modifies res, next
    ensures error.issues.Some? ==>
      && res.statusCode == Some(BadRequestStatus)
      && res.sent == old(res.sent) + [ErrorsOf(error.issues.value)]
      && next.calls == old(next.calls)
    ensures error.issues.None? ==>
      && res.statusCode == old(res.statusCode) && res.sent == old(res.sent)
      && next.calls == old(next.calls) + [error]
  {
    if error.issues.Some? {
      var errors := ErrorsOf(error.issues.value);
      res.Status(BadRequestStatus);
      res.Send(errors);
    } else {
      next.Call(error);
    }
  }

  /** Lines 34-36: each part of the request is normalised in place. */
  method NormalizeRequest(req: Request)
    modifies req
    ensures req.Current() == Normalized(old(req.Current()))
  {
    var body := ValidateObjectRecursive(req.body);
    req.body := body;
    var params := ValidateObjectRecursive(req.params);
    req.params := params;
    var query := ValidateObjectRecursive(req.query);
    req.query := query;
  }

  /** Lines 42-50: each truthy part of the parsed result replaces the request's. */
  method ApplyParsed(req: Request, parsed: Value)
    modifies req
    ensures req.Current() == Replaced(old(req.Current()), parsed)
  {
    if Field(parsed, "body").Truthy() {
      req.body := Field(parsed, "body");
    }
    if Field(parsed, "params").Truthy() {
      req.params := Field(parsed, "params");
    }
    if Field(parsed, "query").Truthy() {
      req.query := Field(parsed, "query");
    }
  }

  /** Line 52 with the catch block: the handler is called; a rejection goes to `next`, a throw to the catch block. */
  method CallHandler(handler: Parts -> HandlerOutcome, request: Parts, res: Response, next: NextFunction)
    modifies res, next
    ensures var r := Invoke(handler, request);
      && res.statusCode == (if r.status.Some? then r.status else old(res.statusCode))
      && res.sent == old(res.sent) + (if r.sent.Some? then [r.sent.value] else [])
      && next.calls == old(next.calls) + (if r.forwarded.Some? then [r.forwarded.value] else [])
  {
    match handler(request) {
      case Settled =>
      case Rejected(e) =>
        next.Call(e);
      case Threw(e) =>
        HandleError(res, next, e);
    }
  }

  /**
   * The wrapper `CreateController({validationSchema, handler})` returns
   * (lines 31-67), run on one request: it leaves the request, the response
   * and `next` as `Run` describes, and returns the request the handler was
   * called with, if it was.
   */
  method HandleRequest(schema: Option<Value -> ParseOutcome>, handler: Parts -> HandlerOutcome,
                       req: Request, res: Response, next: NextFunction)
    returns (handled: Option<Parts>)
    modifies req, res, next
    ensures var r := Run(schema, handler, old(req.Current()));
      && req.Current() == r.request
      && handled == r.handled
      && res.statusCode == (if r.status.Some? then r.status else old(res.statusCode))
      && res.sent == old(res.sent) + (if r.sent.Some? then [r.sent.value] else [])
      && next.calls == old(next.calls) + (if r.forwarded.Some? then [r.forwarded.value] else [])
  {
    if schema.Some? {
      NormalizeRequest(req);
      var outcome := schema.value(ParseInput(req.Current()));
      match outcome {
        case ParseThrew(e) =>
          HandleError(res, next, e);
          handled := None;
          return;
        case Parsed(parsed) =>
          ApplyParsed(req, parsed);
      }
    }
    handled := Some(req.Current());
    CallHandler(handler, req.Current(), res, next);
  }
}
