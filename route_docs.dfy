/**
 * Documentation formatting for a route (src/http/route.js).
 *
 * `formatDocRequestBody` shapes a route's request documentation into what an
 * OpenAPI 3.1.0 generator expects: a bare body schema is wrapped into a
 * Request Body Object whose `content` maps `application/json` to a Media
 * Type Object (sections 4.8.13 and 4.8.14 of the OpenAPI Specification
 * 3.1.0). `formatDocResponses` adds default 400, 401 and 500 entries to a
 * Responses Object (section 4.8.16) in place; an entry already present and
 * truthy always wins.
 */
module RouteDocs {

  /**
   * A documentation value. Objects are maps, as the generator reads them by
   * key; a zod schema is opaque and known by a name only.
   */
  datatype Doc =
    | Absent
    | Flag(b: bool)
    | Text(s: string)
    | Schema(name: string)
    | Node(fields: map<string, Doc>)
  {
    /** JavaScript truthiness: objects and schemas are always truthy. */
    predicate Truthy() {
      match this
      case Absent => false
      case Flag(b) => b
      case Text(s) => s != ""
      case _ => true
    }
  }

  /** Property access `d[key]`: `undefined` unless `d` is an object holding `key`. */
  function Get(d: Doc, key: string): Doc {
    if d.Node? && key in d.fields then d.fields[key] else Absent
  }

  const JsonMediaType: string := "application/json"

  /** `{content: {"application/json": {schema: schema}}}`. */
  function JsonContent(schema: Doc): Doc {
    Node(map["content" := Node(map[JsonMediaType := Node(map["schema" := schema])])])
  }

  // ---------------------------------------------------------------------------
  // formatDocRequestBody

  /**
   * `formatDocRequestBody(request)` (lines 6-31): `undefined` for a falsy
   * request, otherwise a fresh object holding the truthy `query` and
   * `params` as they are and a `body` that always carries `content`.
   */
  function FormatDocRequestBody(request: Doc): (r: Doc)
    ensures r == Absent <==> !request.Truthy()
    ensures request.Truthy() ==> r.Node? && r.fields.Keys <= {"query", "params", "body"}
    ensures request.Truthy() ==>
      forall k | k in {"query", "params", "body"} :: (k in r.fields <==> Get(request, k).Truthy())
    ensures request.Truthy() && Get(request, "query").Truthy() ==> r.fields["query"] == Get(request, "query")
    ensures request.Truthy() && Get(request, "params").Truthy() ==> r.fields["params"] == Get(request, "params")
    ensures request.Truthy() && Get(request, "body").Truthy() ==>
      var body := Get(request, "body");
      Get(r.fields["body"], "content").Truthy()
      && (Get(body, "content").Truthy() ==> r.fields["body"] == body)
      && (!Get(body, "content").Truthy() ==> r.fields["body"] == JsonContent(body))
  {
    if !request.Truthy() then Absent
    else
      var query := Get(request, "query");
      var params := Get(request, "params");
      var body := Get(request, "body");
      var f0: map<string, Doc> := map[];
      var f1 := if query.Truthy() then f0["query" := query] else f0;
      var f2 := if params.Truthy() then f1["params" := params] else f1;
      var f3 :=
        if !body.Truthy() then f2
        else if Get(body, "content").Truthy() then f2["body" := body]
        else f2["body" := JsonContent(body)];
      Node(f3)
  }

  /**
   * Formatting is idempotent: what it produces is already in the shape it
   * produces (the body carries `content`, so it is not wrapped again).
   */
  lemma FormatDocRequestBodyIdempotent(request: Doc)
    ensures FormatDocRequestBody(FormatDocRequestBody(request)) == FormatDocRequestBody(request)
  {
    var r := FormatDocRequestBody(request);
    if request.Truthy() {
      var r2 := FormatDocRequestBody(r);
      assert r2.fields.Keys == r.fields.Keys;
      forall k | k in r.fields
        ensures r2.fields[k] == r.fields[k]
      {
      }
    }
  }

  // ---------------------------------------------------------------------------
  // formatDocResponses

  /**
   * A key of a Responses Object. JavaScript turns an integer key such as
   * `401` into the canonical string "401", so `responses[401]` and
   * `responses["401"]` are one property: such keys are `Status`, any other
   * key (`default`, `2XX`) is `Named`.
   */
  datatype StatusKey = Status(code: nat) | Named(name: string)

  const Unauthorized: StatusKey := Status(401)
  const BadRequest: StatusKey := Status(400)
  const InternalServerError: StatusKey := Status(500)

  /** The default 401 entry; its zod schema `{error: string}` is opaque. */
  const UnauthorizedResponse: Doc :=
    Node(map["description" := Text("Unauthorized"),
             "content" := Node(map[JsonMediaType := Node(map["schema" := Schema("{ error: string }")])])])

  /** The default 400 entry; its zod schema lists `{code, message, path}` errors. */
  const BadRequestResponse: Doc :=
    Node(map["description" := Text("Bad request"),
             "content" := Node(map[JsonMediaType := Node(map["schema" :=
               Schema("{ errors: { code: string, message: string, path: string }[] }")])])])

  const InternalServerErrorResponse: Doc :=
    Node(map["description" := Text("Internal server error")])

  /** `responses[code]`. */
  function Entry(m: map<StatusKey, Doc>, code: StatusKey): Doc {
    if code in m then m[code] else Absent
  }

  /** The status codes a call injects when their entry is falsy. */
  function DefaultCodes(isPublic: bool): set<StatusKey> {
    if isPublic then {BadRequest, InternalServerError} else {Unauthorized, BadRequest, InternalServerError}
  }

  /** The default entry for an injected status code. */
  function DefaultResponse(code: StatusKey): Doc {
    if code == Unauthorized then UnauthorizedResponse
    else if code == BadRequest then BadRequestResponse
    else InternalServerErrorResponse
  }

  /** One `if (!responses[code]) responses[code] = ...` of the source. */
  function WithDefault(m: map<StatusKey, Doc>, code: StatusKey): (r: map<StatusKey, Doc>)
    ensures r.Keys == m.Keys + {code}
    ensures Entry(r, code).Truthy()
    ensures forall c | c in m && (c != code || m[c].Truthy()) :: r[c] == m[c]
    ensures !Entry(m, code).Truthy() ==> r[code] == DefaultResponse(code)
  {
    if !Entry(m, code).Truthy() then m[code := DefaultResponse(code)] else m
  }

  /**
   * The responses object that `formatDocResponses(responses, isPublic)`
   * leaves behind (lines 33-70): the 401 default unless the route is
   * public, then the 400 and the 500 defaults.
   */
  function WithDefaultResponses(m: map<StatusKey, Doc>, isPublic: bool): map<StatusKey, Doc> {
    var m1 := if isPublic then m else WithDefault(m, Unauthorized);
    WithDefault(WithDefault(m1, BadRequest), InternalServerError)
  }

  /** After the call the object holds its own keys and the default codes. */
  lemma WithDefaultResponsesKeys(m: map<StatusKey, Doc>, isPublic: bool)
    ensures WithDefaultResponses(m, isPublic).Keys == m.Keys + DefaultCodes(isPublic)
  {
  }

  /** Every default code has a truthy entry afterwards. */
  lemma WithDefaultResponsesTruthy(m: map<StatusKey, Doc>, isPublic: bool)
    ensures forall code | code in DefaultCodes(isPublic) :: Entry(WithDefaultResponses(m, isPublic), code).Truthy()
  {
    var m1 := if isPublic then m else WithDefault(m, Unauthorized);
    var m2 := WithDefault(m1, BadRequest);
    assert Entry(m2, BadRequest).Truthy();
    assert !isPublic ==> Entry(m2, Unauthorized).Truthy();
  }

  /** An entry that is truthy, or whose code is not a default code, is kept as it is. */
  lemma WithDefaultResponsesKeeps(m: map<StatusKey, Doc>, isPublic: bool)
    ensures var r := WithDefaultResponses(m, isPublic);
      forall code | code in m && (code !in DefaultCodes(isPublic) || m[code].Truthy()) :: r[code] == m[code]
  {
  }

  /** A default code whose entry is missing or falsy gets its default entry. */
  lemma WithDefaultResponsesFills(m: map<StatusKey, Doc>, isPublic: bool)
    ensures var r := WithDefaultResponses(m, isPublic);
      forall code | code in DefaultCodes(isPublic) && !Entry(m, code).Truthy() :: r[code] == DefaultResponse(code)
  {
    var m1 := if isPublic then m else WithDefault(m, Unauthorized);
    var m2 := WithDefault(m1, BadRequest);
    assert !Entry(m, BadRequest).Truthy() ==> m2[BadRequest] == BadRequestResponse;
    assert !isPublic && !Entry(m, Unauthorized).Truthy() ==> m2[Unauthorized] == UnauthorizedResponse;
  }

  /**
   * `formatDocResponses` in full: each default code whose entry is falsy
   * gets its default entry; an entry already truthy and every other key are
   * kept; 400 and 500 are always there afterwards, 401 too unless the route
   * is public, and a public route gains no 401.
   */
  lemma WithDefaultResponsesSpec(m: map<StatusKey, Doc>, isPublic: bool)
    ensures var r := WithDefaultResponses(m, isPublic);
      && r.Keys == m.Keys + DefaultCodes(isPublic)
      && (forall code | code in DefaultCodes(isPublic) :: Entry(r, code).Truthy())
      && (forall code | code in m && (code !in DefaultCodes(isPublic) || m[code].Truthy()) :: r[code] == m[code])
      && (forall code | code in DefaultCodes(isPublic) && !Entry(m, code).Truthy() :: r[code] == DefaultResponse(code))
  {
    WithDefaultResponsesKeys(m, isPublic);
    WithDefaultResponsesTruthy(m, isPublic);
    WithDefaultResponsesKeeps(m, isPublic);
    WithDefaultResponsesFills(m, isPublic);
  }

  /** A second default for the same code is skipped: the first made the entry truthy. */
  lemma WithDefaultAgain(m: map<StatusKey, Doc>, code: StatusKey)
    ensures WithDefault(WithDefault(m, code), code) == WithDefault(m, code)
  {
  }

  /** Defaults for two different codes can be added in either order. */
  lemma WithDefaultSwap(m: map<StatusKey, Doc>, a: StatusKey, b: StatusKey)
    requires a != b
    ensures WithDefault(WithDefault(m, a), b) == WithDefault(WithDefault(m, b), a)
  {
    if !Entry(m, a).Truthy() && !Entry(m, b).Truthy() {
      assert m[a := DefaultResponse(a)][b := DefaultResponse(b)] == m[b := DefaultResponse(b)][a := DefaultResponse(a)];
    }
  }

  /** Nothing is added to an object whose default codes are all truthy already. */
  lemma WithDefaultResponsesComplete(m: map<StatusKey, Doc>, isPublic: bool)
    requires forall code | code in DefaultCodes(isPublic) :: Entry(m, code).Truthy()
    ensures WithDefaultResponses(m, isPublic) == m
  {
    assert Entry(m, BadRequest).Truthy() && Entry(m, InternalServerError).Truthy();
    assert !isPublic ==> Entry(m, Unauthorized).Truthy();
  }

  /**
   * Two calls on the same object add what one call would with the stricter
   * flag: the object ends up with a 401 entry as soon as one of the calls
   * was for a route that is not public.
   */
  lemma WithDefaultResponsesTwice(m: map<StatusKey, Doc>, first: bool, second: bool)
    ensures WithDefaultResponses(WithDefaultResponses(m, first), second) == WithDefaultResponses(m, first && second)
  {
    var once := WithDefaultResponses(m, first);
    if !first || second {
      assert DefaultCodes(second) <= DefaultCodes(first);
      WithDefaultResponsesComplete(once, second);
    } else {
      // once == D500(D400(m)); the second call adds D401 on top, then skips 400 and 500
      var m2 := WithDefault(m, BadRequest);
      var m3 := WithDefault(m2, InternalServerError);
      assert once == m3;
      WithDefaultSwap(m2, InternalServerError, Unauthorized);
      WithDefaultSwap(m, BadRequest, Unauthorized);
      var u := WithDefault(m, Unauthorized);
      assert WithDefault(m3, Unauthorized) == WithDefault(WithDefault(u, BadRequest), InternalServerError);
      WithDefaultAgain(WithDefault(u, BadRequest), InternalServerError);
      assert Entry(WithDefault(m3, Unauthorized), BadRequest).Truthy();
    }
  }

  /** The Responses Object a route's documentation holds; the source updates it in place. */
  class ResponsesObject {
    var entries: map<StatusKey, Doc>

    constructor (entries: map<StatusKey, Doc>)
      ensures this.entries == entries
    {
      this.entries := entries;
    }
  }

  /**
   * One `if (!responses[code]) responses[code] = {...}` of the source (lines
   * 34-45, 46-63, 64-68), in place.
   */
  method AddDefault(responses: ResponsesObject, code: StatusKey)
    modifies responses
    ensures responses.entries == WithDefault(old(responses.entries), code)
  {
    if !Entry(responses.entries, code).Truthy() {
      responses.entries := responses.entries[code := DefaultResponse(code)];
    }
  }

  /**
   * `formatDocResponses(responses, isPublic)` (lines 33-70): adds the missing
   * defaults to the object it is given and returns that same object.
   */
  method FormatDocResponses(responses: ResponsesObject, isPublic: bool) returns (r: ResponsesObject)
    modifies responses
    ensures r == responses
    ensures responses.entries == WithDefaultResponses(old(responses.entries), isPublic)
  {
    if !isPublic {
      AddDefault(responses, Unauthorized);
    }
    AddDefault(responses, BadRequest);
    AddDefault(responses, InternalServerError);
    r := responses;
  }

  // ---------------------------------------------------------------------------
  // The example application (example/src/app/app.route.js)

  /**
   * `GET /hello` documents only its 200 answer (a Response Object, so
   * truthy) and is not public: afterwards its responses hold 200, 400, 401
   * and 500, and the 200 entry is the route's own.
   */
  lemma HelloResponses(ok: Doc)
    requires ok.Node?
    ensures WithDefaultResponses(map[Status(200) := ok], false)
      == map[Status(200) := ok, Status(401) := UnauthorizedResponse,
             Status(400) := BadRequestResponse, Status(500) := InternalServerErrorResponse]
  {
    var m := map[Status(200) := ok];
    assert !Entry(m, Unauthorized).Truthy();
    var m1 := m[Unauthorized := UnauthorizedResponse];
    assert !Entry(m1, BadRequest).Truthy();
    var m2 := m1[BadRequest := BadRequestResponse];
    assert !Entry(m2, InternalServerError).Truthy();
  }

  /**
   * `POST /user` documents its body with `content` already: formatting
   * keeps it as it is. A bare schema in its place is wrapped under
   * `application/json`.
   */
  lemma UserRequestBody()
    ensures var body := JsonContent(Schema("createUserRequestSchema"));
      FormatDocRequestBody(Node(map["body" := body])) == Node(map["body" := body])
    ensures FormatDocRequestBody(Node(map["body" := Schema("createUserRequestSchema")]))
      == Node(map["body" := JsonContent(Schema("createUserRequestSchema"))])
  {
    var body := JsonContent(Schema("createUserRequestSchema"));
    assert Get(body, "content").Truthy();
    var bare := Node(map["body" := Schema("createUserRequestSchema")]);
    assert Get(bare, "body") == Schema("createUserRequestSchema");
  }
}
