/**
 * Route registration (`CreateRoutes`, src/http/route.js lines 140-170).
 *
 * For every route of a group, in order: a documented route appends one path
 * definition to the shared OpenAPI registry, and every route, documented or
 * not, is bound on a fresh Express router under its original `:name` path.
 * Group middlewares are mounted on the base path first, when there are any.
 */
module Route {
  import opened Wrappers
  import opened RoutePath
  import opened RouteDocs

  /** The HTTP methods of the `http-method-enum` package; each value is its upper-case name. */
  datatype HttpMethod = CONNECT | DELETE | GET | HEAD | OPTIONS | PATCH | POST | PUT | TRACE

  function MethodName(m: HttpMethod): string {
    match m
    case CONNECT => "CONNECT"
    case DELETE => "DELETE"
    case GET => "GET"
    case HEAD => "HEAD"
    case OPTIONS => "OPTIONS"
    case PATCH => "PATCH"
    case POST => "POST"
    case PUT => "PUT"
    case TRACE => "TRACE"
  }

  function LowerChar(c: char): char {
    if 'A' <= c <= 'Z' then (c as int + 32) as char else c
  }

  /** `String.prototype.toLowerCase` on ASCII text. */
  function ToLowerCase(s: string): string
    decreases |s|
  {
    if s == [] then [] else [LowerChar(s[0])] + ToLowerCase(s[1..])
  }

  /** Lower-casing works character by character and leaves no upper-case letter. */
  lemma {:induction false} ToLowerCaseSpec(s: string)
    ensures |ToLowerCase(s)| == |s|
    ensures forall i | 0 <= i < |s| :: ToLowerCase(s)[i] == LowerChar(s[i])
    ensures forall i | 0 <= i < |s| :: !('A' <= ToLowerCase(s)[i] <= 'Z')
    decreases |s|
  {
    if s != [] {
      ToLowerCaseSpec(s[1..]);
      forall i | 1 <= i < |s|
        ensures ToLowerCase(s)[i] == LowerChar(s[i])
      {
        assert s[i] == s[1..][i - 1];
      }
    }
  }

  /** `route.method.toLowerCase()`: the router's method name and the registry's `method`. */
  function Verb(m: HttpMethod): string {
    ToLowerCase(MethodName(m))
  }

  /** The first two letters, both upper case, tell the methods apart. */
  lemma MethodNamePrefix(a: HttpMethod, b: HttpMethod)
    ensures |MethodName(a)| >= 2 && |MethodName(b)| >= 2
    ensures 'A' <= MethodName(a)[0] <= 'Z' && 'A' <= MethodName(a)[1] <= 'Z'
    ensures 'A' <= MethodName(b)[0] <= 'Z' && 'A' <= MethodName(b)[1] <= 'Z'
    ensures MethodName(a)[0] == MethodName(b)[0] && MethodName(a)[1] == MethodName(b)[1] ==> a == b
  {
  }

  /** Lower-casing keeps methods apart: each verb names one method. */
  lemma VerbInjective(a: HttpMethod, b: HttpMethod)
    ensures Verb(a) == Verb(b) ==> a == b
  {
    var na, nb := MethodName(a), MethodName(b);
    MethodNamePrefix(a, b);
    ToLowerCaseSpec(na);
    ToLowerCaseSpec(nb);
    if Verb(a) == Verb(b) {
      assert LowerChar(na[0]) == LowerChar(nb[0]) && LowerChar(na[1]) == LowerChar(nb[1]);
    }
  }

  /** A middleware or controller function, known by its identity. */
  datatype Handler = Handler(id: nat)

  /**
   * A route's `documentation`. A missing `description` or `summary` is
   * `None`; a missing `request` is `Absent`; a missing `responses` is `null`.
   */
  datatype Documentation = Documentation(
    description: Option<string>,
    summary: Option<string>,
    request: Doc,
    responses: ResponsesObject?)

  /** A route as declared; a missing `public` flag reads as `false`. */
  datatype RouteDecl = RouteDecl(
    httpMethod: HttpMethod,
    path: string,
    isPublic: bool,
    middlewares: Option<seq<Handler>>,
    controller: Handler,
    documentation: Option<Documentation>)

  /** The argument of `CreateRoutes`; `None` is a property left undefined. */
  datatype CreateRoutesParams = CreateRoutesParams(
    name: Option<string>,
    basePath: Option<string>,
    routes: seq<RouteDecl>,
    globalMiddlewares: Option<seq<Handler>>)

  /** A Security Requirement Object (section 4.8.30 of the OpenAPI Specification 3.1.0): scheme name to scopes. */
  type SecurityRequirement = map<string, seq<string>>

  /** Name under which src/documentation/openAPIDocumentation.js registers the bearer scheme. */
  const BearerAuth: string := "bearerAuth"

  /** One `registry.registerPath` argument. */
  datatype RouteConfig = RouteConfig(
    tags: seq<string>,
    verb: string,
    path: string,
    description: Option<string>,
    summary: Option<string>,
    request: Doc,
    responses: ResponsesObject,
    security: Option<seq<SecurityRequirement>>)

  /** One entry of an Express router's stack. */
  datatype Layer =
    | Mount(path: string, handlers: seq<Handler>)
    | Endpoint(verb: string, path: string, handlers: seq<Handler>)

  /** The OpenAPI registry: path definitions in registration order. */
  class Registry {
    var definitions: seq<RouteConfig>

    constructor ()
      ensures definitions == []
    {
      definitions := [];
    }

    /** `registry.registerPath(config)`. */
    method RegisterPath(config: RouteConfig)
      modifies this
      ensures definitions == old(definitions) + [config]
    {
      definitions := definitions + [config];
    }
  }

  /** An Express router: its stack of layers in binding order. */
  class Router {
    var stack: seq<Layer>

    /** `Express.Router()`. */
    constructor ()
      ensures stack == []
    {
      stack := [];
    }

    /** `router.use(path, ...handlers)`. */
    method Use(path: string, handlers: seq<Handler>)
      modifies this
      ensures stack == old(stack) + [Mount(path, handlers)]
    {
      stack := stack + [Mount(path, handlers)];
    }

    /** `router[verb](path, ...handlers)`. */
    method Bind(verb: string, path: string, handlers: seq<Handler>)
      modifies this
      ensures stack == old(stack) + [Endpoint(verb, path, handlers)]
    {
      stack := stack + [Endpoint(verb, path, handlers)];
    }
  }

  // ---------------------------------------------------------------------------
  // What CreateRoutes produces

  /** `name = "default"`: the default applies only to an undefined name. */
  function GroupName(p: CreateRoutesParams): string {
    if p.name.Some? then p.name.value else "default"
  }

  function BasePath(p: CreateRoutesParams): string {
    if p.basePath.Some? then p.basePath.value else "/"
  }

  function GlobalMiddlewares(p: CreateRoutesParams): seq<Handler> {
    if p.globalMiddlewares.Some? then p.globalMiddlewares.value else []
  }

  /** `route.middlewares || []`. */
  function MiddlewaresOf(r: RouteDecl): seq<Handler> {
    if r.middlewares.Some? then r.middlewares.value else []
  }

  /** `summary || description`: an empty summary falls back too. */
  function SummaryOf(d: Documentation): Option<string> {
    if d.summary.Some? && d.summary.value != "" then d.summary else d.description
  }

  /** `route.public ? undefined : [{bearerAuth: []}]`. */
  function SecurityFor(isPublic: bool): Option<seq<SecurityRequirement>> {
    if isPublic then None else Some([map[BearerAuth := []]])
  }

  /** Layers the group middlewares add: one mount on the base path, if the list is non-empty. */
  function Mounts(p: CreateRoutesParams): seq<Layer> {
    if |GlobalMiddlewares(p)| > 0 then [Mount(BasePath(p), GlobalMiddlewares(p))] else []
  }

  /** The binding of one route: its own middlewares, then its controller, on its Express path. */
  function Binding(r: RouteDecl): Layer {
    Endpoint(Verb(r.httpMethod), r.path, MiddlewaresOf(r) + [r.controller])
  }

  /** The bindings of the routes, in order. */
  function Bindings(routes: seq<RouteDecl>): seq<Layer>
    decreases |routes|
  {
    if routes == [] then []
    else Bindings(routes[..|routes| - 1]) + [Binding(routes[|routes| - 1])]
  }

  /** One binding per route, each at its route's position. */
  lemma {:induction false} BindingsAt(routes: seq<RouteDecl>)
    ensures |Bindings(routes)| == |routes|
    ensures forall i | 0 <= i < |routes| :: Bindings(routes)[i] == Binding(routes[i])
    decreases |routes|
  {
    if routes != [] {
      var init := routes[..|routes| - 1];
      BindingsAt(init);
      var before := Bindings(init);
      assert Bindings(routes) == before + [Binding(routes[|routes| - 1])];
      forall i | 0 <= i < |routes|
        ensures Bindings(routes)[i] == Binding(routes[i])
      {
        if i < |init| {
          assert Bindings(routes)[i] == before[i];
          assert routes[i] == init[i];
        } else {
          assert i == |before|;
        }
      }
    }
  }

  /** The documented routes, in order. */
  function Documented(routes: seq<RouteDecl>): seq<RouteDecl>
    decreases |routes|
  {
    if routes == [] then []
    else
      var init := Documented(routes[..|routes| - 1]);
      var last := routes[|routes| - 1];
      if last.documentation.Some? then init + [last] else init
  }

  /** Every documented route kept is documented, and none is added. */
  lemma {:induction false} DocumentedOnly(routes: seq<RouteDecl>)
    ensures |Documented(routes)| <= |routes|
    ensures forall j | 0 <= j < |Documented(routes)| :: Documented(routes)[j].documentation.Some?
    decreases |routes|
  {
    if routes != [] {
      var init := routes[..|routes| - 1];
      DocumentedOnly(init);
      var ds := Documented(init);
      forall j | 0 <= j < |Documented(routes)|
        ensures Documented(routes)[j].documentation.Some?
      {
        if j < |ds| {
          assert Documented(routes)[j] == ds[j];
        }
      }
    }
  }

  /** When every route is documented, every route is kept. */
  lemma {:induction false} DocumentedAll(routes: seq<RouteDecl>)
    requires forall i | 0 <= i < |routes| :: routes[i].documentation.Some?
    ensures Documented(routes) == routes
    decreases |routes|
  {
    if routes != [] {
      var init := routes[..|routes| - 1];
      assert forall i | 0 <= i < |init| :: init[i] == routes[i];
      DocumentedAll(init);
      assert routes == init + [routes[|routes| - 1]];
    }
  }

  /** When no route is documented, none is kept. */
  lemma {:induction false} DocumentedNone(routes: seq<RouteDecl>)
    requires forall i | 0 <= i < |routes| :: routes[i].documentation.None?
    ensures Documented(routes) == []
    decreases |routes|
  {
    if routes != [] {
      var init := routes[..|routes| - 1];
      assert forall i | 0 <= i < |init| :: init[i] == routes[i];
      DocumentedNone(init);
    }
  }

  /**
   * The documented routes are a subsequence of the routes holding exactly
   * those with documentation: all of them when every route is documented,
   * none when none is.
   */
  lemma DocumentedSpec(routes: seq<RouteDecl>)
    ensures |Documented(routes)| <= |routes|
    ensures forall j | 0 <= j < |Documented(routes)| :: Documented(routes)[j].documentation.Some?
    ensures (forall i | 0 <= i < |routes| :: routes[i].documentation.Some?) ==> Documented(routes) == routes
    ensures (forall i | 0 <= i < |routes| :: routes[i].documentation.None?) ==> Documented(routes) == []
  {
    DocumentedOnly(routes);
    if forall i | 0 <= i < |routes| :: routes[i].documentation.Some? {
      DocumentedAll(routes);
    }
    if forall i | 0 <= i < |routes| :: routes[i].documentation.None? {
      DocumentedNone(routes);
    }
  }

  /** A single route is kept exactly when it is documented. */
  lemma DocumentedOne(r: RouteDecl)
    ensures Documented([r]) == if r.documentation.Some? then [r] else []
  {
    assert [r][..0] == [];
  }

  /**
   * Filtering distributes over concatenation. With `DocumentedOne` this
   * pins `Documented` down on every list, mixed ones included: each
   * documented route is kept, each undocumented one dropped, in input order.
   */
  lemma {:induction false} DocumentedConcat(a: seq<RouteDecl>, b: seq<RouteDecl>)
    ensures Documented(a + b) == Documented(a) + Documented(b)
    decreases |b|
  {
    if b == [] {
      assert a + b == a;
    } else {
      var init := b[..|b| - 1];
      DocumentedConcat(a, init);
      assert (a + b)[..|a + b| - 1] == a + init;
      assert (a + b)[|a + b| - 1] == b[|b| - 1];
    }
  }

  /** A documented, an undocumented and a documented route: the two documented ones are kept, in order. */
  lemma DocumentedMixed(a: RouteDecl, b: RouteDecl, c: RouteDecl)
    requires a.documentation.Some? && b.documentation.None? && c.documentation.Some?
    ensures Documented([a, b, c]) == [a, c]
  {
    DocumentedConcat([a, b], [c]);
    DocumentedConcat([a], [b]);
    DocumentedOne(a);
    DocumentedOne(b);
    DocumentedOne(c);
    assert [a, b, c] == [a, b] + [c];
    assert [a, b] == [a] + [b];
  }

  /** The registry entry of a documented route, all but its responses object. */
  predicate Describes(cfg: RouteConfig, name: string, r: RouteDecl) {
    && r.documentation.Some?
    && var doc := r.documentation.value;
    && cfg.tags == [name]
    && cfg.verb == Verb(r.httpMethod)
    && cfg.path == Templated(r.path)
    && cfg.description == doc.description
    && cfg.summary == SummaryOf(doc)
    && cfg.request == FormatDocRequestBody(doc.request)
    && cfg.security == SecurityFor(r.isPublic)
    && (doc.responses != null ==> cfg.responses == doc.responses)
  }

  /** The responses object route `r` documents, `null` when it has none of its own. */
  function ResponsesObjectOf(r: RouteDecl): ResponsesObject? {
    if r.documentation.Some? then r.documentation.value.responses else null
  }

  /** Route `r` documents its responses with object `o`. */
  predicate Uses(r: RouteDecl, o: ResponsesObject) {
    ResponsesObjectOf(r) == o
  }

  /** The responses objects the routes bring with them. */
  function ResponsesOf(routes: seq<RouteDecl>): set<ResponsesObject> {
    set r | r in routes && ResponsesObjectOf(r) != null :: ResponsesObjectOf(r)
  }

  /**
   * The entries of responses object `o` after the routes were registered in
   * turn, from entries `m`: one `formatDocResponses` per route that uses it.
   */
  function Accumulated(m: map<StatusKey, Doc>, routes: seq<RouteDecl>, o: ResponsesObject): map<StatusKey, Doc>
    decreases |routes|
  {
    if routes == [] then m
    else
      var before := Accumulated(m, routes[..|routes| - 1], o);
      var last := routes[|routes| - 1];
      if Uses(last, o) then WithDefaultResponses(before, last.isPublic) else before
  }

  /** Some route documents its responses with `o`. */
  predicate UsedBy(routes: seq<RouteDecl>, o: ResponsesObject) {
    exists i | 0 <= i < |routes| :: Uses(routes[i], o)
  }

  /** Every route that documents its responses with `o` is public. */
  predicate PublicOnly(routes: seq<RouteDecl>, o: ResponsesObject) {
    forall i | 0 <= i < |routes| && Uses(routes[i], o) :: routes[i].isPublic
  }

  lemma UsersStep(routes: seq<RouteDecl>, o: ResponsesObject)
    requires routes != []
    ensures var init, last := routes[..|routes| - 1], routes[|routes| - 1];
      && (UsedBy(routes, o) <==> UsedBy(init, o) || Uses(last, o))
      && (PublicOnly(routes, o) <==> PublicOnly(init, o) && (Uses(last, o) ==> last.isPublic))
  {
    var init := routes[..|routes| - 1];
    assert forall i | 0 <= i < |init| :: init[i] == routes[i];
    if UsedBy(routes, o) {
      var i :| 0 <= i < |routes| && Uses(routes[i], o);
      if i < |init| {
        assert Uses(init[i], o);
      }
    }
  }

  /**
   * A responses object shared by several routes ends up as one call with the
   * conjunction of their `public` flags would leave it: it gains a 401 entry
   * as soon as one route using it is not public, public ones included. An
   * object no route uses is left alone.
   */
  lemma {:induction false} AccumulatedShared(m: map<StatusKey, Doc>, routes: seq<RouteDecl>, o: ResponsesObject)
    ensures !UsedBy(routes, o) ==> Accumulated(m, routes, o) == m
    ensures UsedBy(routes, o) ==> Accumulated(m, routes, o) == WithDefaultResponses(m, PublicOnly(routes, o))
    decreases |routes|
  {
    if routes != [] {
      var init := routes[..|routes| - 1];
      var last := routes[|routes| - 1];
      AccumulatedShared(m, init, o);
      UsersStep(routes, o);
      if Uses(last, o) && UsedBy(init, o) {
        WithDefaultResponsesTwice(m, PublicOnly(init, o), last.isPublic);
      }
    }
  }

  // ---------------------------------------------------------------------------
  // CreateRoutes

  lemma PrefixStep<T>(s: seq<T>, i: nat)
    requires i < |s|
    ensures s[..i + 1][..i] == s[..i] && s[..i + 1][i] == s[i] && |s[..i + 1]| == i + 1
  {
  }

  lemma AppendAssoc<T>(a: seq<T>, b: seq<T>, c: seq<T>)
    ensures a + (b + c) == (a + b) + c
  {
  }

  lemma BindingsStep(routes: seq<RouteDecl>, i: nat)
    requires i < |routes|
    ensures Bindings(routes[..i + 1]) == Bindings(routes[..i]) + [Binding(routes[i])]
  {
    PrefixStep(routes, i);
  }

  lemma DocumentedStep(routes: seq<RouteDecl>, i: nat)
    requires i < |routes|
    ensures Documented(routes[..i + 1])
      == Documented(routes[..i]) + (if routes[i].documentation.Some? then [routes[i]] else [])
  {
    PrefixStep(routes, i);
  }

  lemma AccumulatedStep(m: map<StatusKey, Doc>, routes: seq<RouteDecl>, i: nat, o: ResponsesObject)
    requires i < |routes|
    ensures Accumulated(m, routes[..i + 1], o)
      == if Uses(routes[i], o) then WithDefaultResponses(Accumulated(m, routes[..i], o), routes[i].isPublic)
         else Accumulated(m, routes[..i], o)
  {
    PrefixStep(routes, i);
  }

  lemma ResponsesOfMember(routes: seq<RouteDecl>, i: nat)
    requires i < |routes|
    ensures ResponsesObjectOf(routes[i]) != null ==> ResponsesObjectOf(routes[i]) in ResponsesOf(routes)
  {
  }

  /**
   * The `registry.registerPath({...})` call of one documented route (lines
   * 152-161): the entry describes the route, and its responses object, the
   * route's own or a new one for `|| {}`, has had the defaults added.
   */
  method RegisterRoute(registry: Registry, name: string, route: RouteDecl) returns (config: RouteConfig)
    requires route.documentation.Some?
    modifies registry, ResponsesObjectOf(route)
    ensures registry.definitions == old(registry.definitions) + [config]
    ensures Describes(config, name, route)
    ensures var o := ResponsesObjectOf(route);
      if o != null then o.entries == WithDefaultResponses(old(o.entries), route.isPublic)
      else fresh(config.responses) && config.responses.entries == WithDefaultResponses(map[], route.isPublic)
  {
    var doc := route.documentation.value;
    var path := FormatDocumentationPath(route.path);
    var request := FormatDocRequestBody(doc.request);
    var responses: ResponsesObject;
    if doc.responses != null {
      responses := doc.responses;
    } else {
      responses := new ResponsesObject(map[]);
    }
    responses := FormatDocResponses(responses, route.isPublic);
    config := RouteConfig([name], Verb(route.httpMethod), path, doc.description, SummaryOf(doc),
                          request, responses, SecurityFor(route.isPublic));
    registry.RegisterPath(config);
  }

  /**
   * The `routes.forEach` callback (lines 150-168): registers a documented
   * route, then binds the route on the router. `entry` is what the registry
   * gained: nothing for an undocumented route, one definition otherwise.
   */
  method AddRoute(registry: Registry, router: Router, name: string, route: RouteDecl)
    returns (ghost entry: seq<RouteConfig>)
    modifies registry, router, ResponsesObjectOf(route)
    ensures router.stack == old(router.stack) + [Binding(route)]
    ensures registry.definitions == old(registry.definitions) + entry
    ensures route.documentation.None? ==> entry == []
    ensures route.documentation.Some? ==>
      && |entry| == 1
      && Describes(entry[0], name, route)
      && (ResponsesObjectOf(route) == null ==>
            fresh(entry[0].responses) && entry[0].responses.entries == WithDefaultResponses(map[], route.isPublic))
    ensures var o := ResponsesObjectOf(route);
      o != null ==> o.entries == WithDefaultResponses(old(o.entries), route.isPublic)
  {
    entry := [];
    if route.documentation.Some? {
      var config := RegisterRoute(registry, name, route);
      entry := [config];
    }
    router.Bind(Verb(route.httpMethod), route.path, MiddlewaresOf(route) + [route.controller]);
  }

  /** `cfgs` are the registry entries of the documented routes `ds`, one each, in order. */
  predicate Registered(cfgs: seq<RouteConfig>, name: string, ds: seq<RouteDecl>) {
    && |cfgs| == |ds|
    && forall j | 0 <= j < |ds| :: Describes(cfgs[j], name, ds[j])
  }

  lemma RegisteredStep(cfgs: seq<RouteConfig>, name: string, ds: seq<RouteDecl>, entry: seq<RouteConfig>, r: RouteDecl)
    requires Registered(cfgs, name, ds)
    requires r.documentation.None? ==> entry == []
    requires r.documentation.Some? ==> |entry| == 1 && Describes(entry[0], name, r)
    ensures Registered(cfgs + entry, name, ds + (if r.documentation.Some? then [r] else []))
  {
  }

  /**
   * The `routes.forEach` iteration for `routes[i]`, stated against the
   * routes before it: the registry then describes the documented routes
   * of `routes[..i + 1]`, and each responses object holds what those
   * routes accumulated from its entries `initial[o]`.
   */
  method ForEachStep(registry: Registry, router: Router, name: string, routes: seq<RouteDecl>, i: nat,
                     ghost defs0: seq<RouteConfig>, ghost added: seq<RouteConfig>,
                     ghost initial: map<ResponsesObject, map<StatusKey, Doc>>)
    returns (ghost added': seq<RouteConfig>)
    requires i < |routes|
    requires registry.definitions == defs0 + added
    requires Registered(added, name, Documented(routes[..i]))
    requires forall o | o in ResponsesOf(routes) :: o in initial && o.entries == Accumulated(initial[o], routes[..i], o)
    modifies registry, router, ResponsesObjectOf(routes[i])
    ensures router.stack == old(router.stack) + [Binding(routes[i])]
    ensures registry.definitions == defs0 + added'
    ensures Registered(added', name, Documented(routes[..i + 1]))
    ensures forall o | o in ResponsesOf(routes) :: o.entries == Accumulated(initial[o], routes[..i + 1], o)
  {
    var route := routes[i];
    ghost var entry := AddRoute(registry, router, name, route);
    AppendAssoc(defs0, added, entry);
    DocumentedStep(routes, i);
    RegisteredStep(added, name, Documented(routes[..i]), entry, route);
    added' := added + entry;
    forall o | o in ResponsesOf(routes)
      ensures o.entries == Accumulated(initial[o], routes[..i + 1], o)
    {
      AccumulatedStep(initial[o], routes, i, o);
    }
  }

  /**
   * `CreateRoutes(params)` (lines 140-170) with the registry it registers
   * into: returns a new router holding the group mount and one binding per
   * route, appends one definition per documented route to the registry, and
   * adds the default responses to each documented route's responses object.
   */
  method CreateRoutes(params: CreateRoutesParams, registry: Registry) returns (router: Router)
    modifies registry, ResponsesOf(params.routes)
    ensures fresh(router)
    ensures router.stack == Mounts(params) + Bindings(params.routes)
    ensures |registry.definitions| >= |old(registry.definitions)|
    ensures registry.definitions[..|old(registry.definitions)|] == old(registry.definitions)
    ensures var added := registry.definitions[|old(registry.definitions)|..];
      Registered(added, GroupName(params), Documented(params.routes))
    ensures forall o | o in ResponsesOf(params.routes) :: o.entries == Accumulated(old(o.entries), params.routes, o)
  {
    var name := GroupName(params);
    var basePath := BasePath(params);
    var globalMiddlewares := GlobalMiddlewares(params);
    var routes := params.routes;
    router := new Router();
    if |globalMiddlewares| > 0 {
      router.Use(basePath, globalMiddlewares);
    }
    ghost var defs0 := registry.definitions;
    ghost var initial := map o | o in ResponsesOf(routes) :: o.entries;
    ghost var added: seq<RouteConfig> := [];
    var i := 0;
    while i < |routes|
      invariant 0 <= i <= |routes|
      invariant fresh(router)
      invariant router.stack == Mounts(params) + Bindings(routes[..i])
      invariant registry.definitions == defs0 + added
      invariant Registered(added, name, Documented(routes[..i]))
      invariant forall o | o in ResponsesOf(routes) :: o in initial && o.entries == Accumulated(initial[o], routes[..i], o)
    {
      ResponsesOfMember(routes, i);
      added := ForEachStep(registry, router, name, routes, i, defs0, added, initial);
      BindingsStep(routes, i);
      AppendAssoc(Mounts(params), Bindings(routes[..i]), [Binding(routes[i])]);
      i := i + 1;
    }
    assert routes[..i] == routes;
    assert registry.definitions[|defs0|..] == added;
  }

  /**
   * The `GET /hello` route of the example application (group "My app", not
   * public, no middlewares): its registry entry is tagged with the group,
   * documents `get /hello` behind the bearer scheme, and the router binds
   * its controller alone on `/hello`.
   */
  lemma HelloRoute(controller: Handler, doc: Documentation, cfg: RouteConfig)
    requires Describes(cfg, "My app", RouteDecl(GET, "/hello", false, None, controller, Some(doc)))
    ensures cfg.tags == ["My app"]
    ensures cfg.verb == "get" && cfg.path == "/hello"
    ensures cfg.security == Some([map["bearerAuth" := []]])
    ensures Binding(RouteDecl(GET, "/hello", false, None, controller, Some(doc))) == Endpoint("get", "/hello", [controller])
  {
    VerbGet();
    TemplatedUnchangedIff("/hello");
  }

  /** `"GET".toLowerCase()` is `"get"`. */
  lemma VerbGet()
    ensures Verb(GET) == "get"
  {
    assert ToLowerCase("T") == "t";
    assert ToLowerCase("ET") == "e" + ToLowerCase("T");
  }
}
