# jambojs core in Dafny

jambojs is a thin layer over Express, zod and zod-to-openapi. This project
models its three core pieces:

- **`CreateRoutes`** (`src/http/route.js`) builds an Express router from a
  list of route declarations:
  - it mounts the group middlewares on the base path;
  - it binds each route's middlewares and controller under its lower-cased
    HTTP method;
  - it registers every documented route in the OpenAPI registry.

  Registration uses three helpers:
  - `formatDocumentationPath` rewrites Express parameters `:name` into
    OpenAPI path templates `{name}` (section 3.2 of the OpenAPI
    Specification 3.1.0);
  - `formatDocRequestBody` wraps a bare body schema into a Request Body
    Object with `application/json` content (sections 4.8.13 and 4.8.14);
  - `formatDocResponses` adds default 400, 401 and 500 entries to the
    route's Responses Object (section 4.8.16), in place. The 401 entry is
    added only when the route is not public.

  A route that is not public gets a Security Requirement for `bearerAuth`
  (section 4.8.30).
- **`CreateController`** (`src/http/controller.js`) wraps a request handler.
  With a validation schema, the wrapper:
  - normalises the request's `body`, `params` and `query`;
  - parses them with the schema;
  - copies every truthy parsed part back onto the request;
  - calls the handler.

  An error with zod `issues` that is thrown synchronously, by `parse` or by
  the handler, is answered with status 400 and a list of
  `{code, message, path}` entries, the path joined with dots. A rejected
  handler promise and every error without `issues` go to `next` unchanged.
  So an error from the handler can become a 400: it does when an ordinary
  function handler throws it, and it does not when an `async` handler
  rejects with it.
- **`validateObjectRecursive`** (`src/utils/validation.js`) walks a payload
  and replaces every string `"undefined"` with `undefined` and every string
  `"null"` with `null`, at any depth.

Each piece keeps the form of its source:
- The pure helpers are Dafny functions.
- The loops are methods with invariants.
- The registry, the router, the Responses Objects, the request, the
  response and `next` are classes, updated in place.

Each method is proved against a specification function. The properties of
that function are proved as lemmas:
- the path rewrite loop equals a one-pass rewrite that can be undone;
- a Responses Object shared by several routes ends up as if one call had
  been made with the conjunction of their `public` flags;
- the walk's normalisation is idempotent and changes exactly the trees that
  hold a sentinel;
- the controller has exactly one way out for each kind of error.

Files:
- `wrappers.dfy`: `Option`.
- `validation.dfy`: the payload tree and the sentinel walk.
- `route_path.dfy`: path templating.
- `route_docs.dfy`: request body and responses documentation.
- `route.dfy`: `CreateRoutes`, the registry and the router.
- `controller.dfy`: `CreateController`.

## Model

| member | source | states |
|---|---|---|
| Validation.ValidateObjectRecursive | src/utils/validation.js:1-20 | The walk leaves the payload as `Normalize` describes, one key after the other, arrays by index. |
| Validation.VisitProperty | src/utils/validation.js:4-17 | The callback for one key: a sentinel string becomes `undefined` or `null`; an object or array is walked; arrays have their elements walked a second time, which changes nothing more. |
| Validation.NormalizeAt | src/utils/validation.js:4-17 | At every position below the root, `"undefined"` becomes `undefined` and `"null"` becomes `null`. Every other leaf is kept. The positions of the tree are unchanged. |
| Validation.NormalizeIsClean | src/utils/validation.js:4-9 | No sentinel string is left below the root after the walk. |
| Validation.CleanIsFixed | src/utils/validation.js:1-20 | A tree without sentinels is left exactly as it is. |
| Validation.NormalizeFixedPoints | src/utils/validation.js:1-20 | The walk changes a tree if and only if a sentinel occurs below its root. |
| Validation.NormalizeIdempotent | src/utils/validation.js:1-20 | A second walk changes nothing. |
| Validation.NormalizeNoOp | src/utils/validation.js:2 | A falsy value, or a value without keys, is left as it is. |
| Validation.NormalizeKeepsSize | src/utils/validation.js:4-17 | Leaves are only replaced by leaves, so the size of the tree is kept. |
| RoutePath.FormatDocumentationPath | src/http/route.js:72-81 | The match-then-replace-first loop produces the one-pass template `Templated(path)`. |
| RoutePath.IndexOf | src/http/route.js:77 | The index `replace` uses is the first occurrence of the pattern. There is none when it does not occur. |
| RoutePath.TemplatedHasNoParam | src/http/route.js:72-81 | No `:name` is left in a formatted path. |
| RoutePath.TemplatedLength | src/http/route.js:72-81 | Each matched parameter lengthens the path by exactly one character. |
| RoutePath.TemplatedUnchangedIff | src/http/route.js:73-75 | A path is returned unchanged if and only if it holds no `:name`, in particular when it holds no colon. |
| RoutePath.ParamsEmptyIff | src/http/route.js:73-75 | The regular expression finds no match if and only if no parameter occurs in the path. |
| RoutePath.TemplatedRoundTrip | src/http/route.js:72-81 | Turning each `{name}` back into `:name` restores the Express path, whenever that path holds no `{`. |
| RouteDocs.FormatDocRequestBody | src/http/route.js:6-31 | Returns undefined exactly for a falsy request. Otherwise it keeps exactly the truthy `query`, `params` and `body`. A body without `content` becomes exactly `{content: {"application/json": {schema: body}}}`, so the result's body always has `content`. |
| RouteDocs.FormatDocRequestBodyIdempotent | src/http/route.js:6-31 | Formatting an already formatted request changes nothing. |
| RouteDocs.WithDefault | src/http/route.js:34-35 | One default: the code's entry becomes truthy. It gets the default only when it was missing or falsy. Every other entry is kept. |
| RouteDocs.WithDefaultResponsesSpec | src/http/route.js:33-70 | The keys afterwards are the object's own keys plus 400 and 500, and 401 unless the route is public. Every default code has a truthy entry. A truthy entry, or one under any other key, is kept. A missing or falsy default code gets its default entry. |
| RouteDocs.WithDefaultAgain | src/http/route.js:34-68 | Adding the same default twice equals adding it once. |
| RouteDocs.WithDefaultSwap | src/http/route.js:34-68 | Defaults for different codes commute. |
| RouteDocs.WithDefaultResponsesComplete | src/http/route.js:33-70 | An object whose default codes are all truthy is left unchanged. |
| RouteDocs.WithDefaultResponsesTwice | src/http/route.js:33-70 | Two calls on one object equal one call with the conjunction of the two `public` flags. |
| RouteDocs.AddDefault | src/http/route.js:34-68 | One `if (!responses[code]) responses[code] = ...`, in place. |
| RouteDocs.FormatDocResponses | src/http/route.js:33-70 | Returns the object it was given, which now holds `WithDefaultResponses` of its old entries. |
| RouteDocs.HelloResponses | example/src/app/app.route.js:13-29 | `GET /hello` documents only 200 and is not public. Its responses become exactly 200 (its own), 401, 400 and 500 (the defaults). |
| RouteDocs.UserRequestBody | example/src/app/app.route.js:36-44 | The `POST /user` body already has `content` and is kept as it is. A bare schema in its place is wrapped under `application/json`. |
| Route.ToLowerCaseSpec | src/http/route.js:154 | Lower-casing keeps the length, maps each character and leaves no upper-case letter. |
| Route.MethodNamePrefix | src/http/route.js:154 | Different HTTP methods differ in their first two letters, both upper case. |
| Route.VerbInjective | src/http/route.js:154-163 | Different methods give different lower-case verbs, so no two methods share a router method or a registry `method`. |
| Route.BindingsAt | src/http/route.js:163-167 | One binding per route, at the route's position: its own middlewares, then its controller, under its lower-cased method and its Express path. |
| Route.DocumentedSpec | src/http/route.js:151 | Only documented routes are registered. All routes are registered when all are documented, none when none is. |
| Route.DocumentedConcat | src/http/route.js:150-152 | Keeping the documented routes distributes over concatenation, so registration follows the input order. |
| Route.DocumentedOne | src/http/route.js:151 | A single route is registered exactly when it is documented. |
| Route.DocumentedMixed | src/http/route.js:150-152 | In a mixed list, a documented, an undocumented and a documented route give the two documented ones, in order. |
| Route.AccumulatedShared | src/http/route.js:159 | A Responses Object shared by several routes gains a 401 entry as soon as one non-public route uses it. An object no route uses is unchanged. |
| Route.RegisterRoute | src/http/route.js:151-162 | The registered entry carries the group tag, the lower-cased verb, the templated path, the description, the summary or else the description, the formatted request and `bearerAuth` security unless the route is public. The route's Responses Object, or a new empty one when it has none, has had its defaults added. |
| Route.AddRoute | src/http/route.js:150-168 | One `forEach` step: a documented route adds one registry entry that describes it, an undocumented one adds none; the route is then bound on the router. |
| Route.ForEachStep | src/http/route.js:150-168 | The loop invariant advances by one route: router stack, registry entries and every Responses Object. |
| Route.CreateRoutes | src/http/route.js:140-170 | Returns a new router holding the group mount (if there are middlewares) followed by the bindings of all routes, in order. The registry keeps its old entries and gains one entry per documented route, in order, describing it. Each Responses Object holds the defaults of every route using it. |
| Route.HelloRoute | example/src/app/app.route.js:9-29 | The example's `GET /hello` is registered as `get /hello` under tag "My app" with `bearerAuth` security. It is bound with its controller alone. |
| Controller.JoinSplit | src/http/controller.js:60 | `path.join(".")` loses nothing: splitting the result at dots gives back the segments, when no key holds a dot. |
| Controller.JoinExamples | src/http/controller.js:60 | `["body","age"]` joins to `body.age`, `["items",12]` to `items.12`, and `[]` to the empty string. |
| Controller.ErrorsOfSpec | src/http/controller.js:57-61 | One `{code, message, path}` entry per issue, in the issues' order, with the path joined by dots. |
| Controller.NoSchemaNoRewrite | src/http/controller.js:33-52 | Without a schema, the request is not rewritten and the handler gets it as it came. |
| Controller.NormalizedBeforeParse | src/http/controller.js:34-41 | `parse` sees the normalised parts: normalising the request first changes no outcome. |
| Controller.ParsedPartsReplaced | src/http/controller.js:42-52 | After a successful parse, each part is replaced if and only if the parsed part is truthy. Otherwise it keeps its normalised value. The handler gets that request. |
| Controller.IssuesAnswered | src/http/controller.js:55-63 | A validation error with issues gives status 400 and one entry per issue, in order. The handler is not called and nothing goes to `next`. |
| Controller.OtherErrorsForwarded | src/http/controller.js:65 | An error without issues goes to `next` unchanged, and nothing is sent. |
| Controller.RejectionForwarded | src/http/controller.js:52 | A rejected handler promise goes to `next` unchanged and is never answered with 400, even when it carries issues. |
| Controller.ThrowCaught | src/http/controller.js:52-66 | A handler that throws before returning reaches the same catch block: 400 with issues, `next` without. |
| Controller.IssuesSplitByTiming | src/http/controller.js:52-63 | The same error with issues gets a 400 when the handler throws it synchronously, and goes to `next` unchanged, with nothing sent, when the handler's promise rejects with it. |
| Controller.OneOutcome | src/http/controller.js:53-66 | A status is set exactly when a body is sent, which is always 400 and never together with `next`. A request that never reaches the handler is always answered or forwarded. |
| Controller.HandleError | src/http/controller.js:53-66 | The catch block on the live response and `next`. |
| Controller.NormalizeRequest | src/http/controller.js:34-36 | Each part of the request is normalised in place. |
| Controller.ApplyParsed | src/http/controller.js:42-50 | Each truthy parsed part replaces the request's part. |
| Controller.CallHandler | src/http/controller.js:52 | The handler runs; a rejection goes to `next`, a throw to the catch block. |
| Controller.HandleRequest | src/http/controller.js:31-67 | The request, the response and `next` end as the specification `Run` describes. It returns the request the handler was called with, if it was called. |

## Left out

- The global OpenAPI `registry` is passed to `CreateRoutes` as a parameter. Express's router is a class holding its stack of layers, with no request dispatch.
- zod schemas are opaque: a schema is known by name in documentation, and `parse` is a parameter from the parse input to an outcome. The same holds for the handler.
- Asynchrony is not modelled: the handler's promise is modelled by its outcome (settled, rejected, or a synchronous throw), with no scheduling. The handler's own effects on the request and the response are not modelled.
- Controller.Failure: a thrown value that is `null` or `undefined` is not modelled. In the source, reading `error.issues` on such a value would throw inside the catch block. A truthy `issues` is taken to be an array of zod issues; any other truthy value would make `.map` throw inside the catch block, and that is not modelled either.
- Controller.HandleRequest: the three request parts are separate values. A payload object shared between `body`, `params` and `query`, which the in-place walk would normalise once for all three, is not modelled.
- Validation.ValidateObjectRecursive: modelled on values. The method returns the tree the in-place walk leaves behind. Aliasing between sub-objects and cyclic payloads are not modelled; cyclic payloads would make the source recurse forever.
- Validation: numbers are integers, and strings are not walked (their keys are single characters, which are never a sentinel).
- RoutePath: `\w` is ASCII word characters, as in a regular expression without the `u` flag; `replace` receives `{name}` replacements, which hold no `$` pattern.
- Route.ToLowerCase: lower-cases ASCII letters only. HTTP method names are ASCII.
- Route.CreateRoutes: its contract does not restate that a documented route without a Responses Object registers a fresh one. That is stated per route by Route.RegisterRoute and Route.AddRoute.
- Route: `bearerAuthOpenApiComponent.name` is the constant `bearerAuth`. src/documentation/openAPIDocumentation.js is not part of this model otherwise.
- RouteDocs: the zod schemas of the default 400 and 401 entries are opaque names describing their shape.
- RouteDocs.StatusKey: integer keys such as `401` and the string `"401"` are the same property in JavaScript. Both are `Status(401)`; other keys are `Named`.
- RouteDocs.StatusKey: the type admits a `Named` key spelling a decimal code, such as `Named("401")`, which stands for no JavaScript property. The lemmas about `WithDefaultResponses` describe JavaScript objects only for maps without such keys; no predicate excludes them.
- Validation.Value: an object's members may repeat a key, which a parsed JSON payload never does. Reading a key takes its last member, as a JavaScript object literal does, and the walk visits every member.
