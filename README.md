# Express server toolkit core, modelled in Dafny

This project models the server side of a TypeScript toolkit for Express applications, in eight parts:

- **The HATEOAS rewriter.** It replaces every entity under a `_links` key of a response body with the Link its class's rule builds. It raises an InternalServerError for a class that has no rule.
- **Token extraction.** The token comes from the `Authorization` header, with the first seven characters dropped, and otherwise from a cookie.
- **The four JWT authenticators.**
  - Two fail closed: the plain one and the tenant one. A failed verification becomes a 403 through the error handler.
  - Two are permissive: the multi-tenant one and the older one. They only warn, and always call `next`.
  - The model covers each authenticator's `getRoles`.
- **The two terminal error handlers.** One classifies an error by its `name`, the other by `instanceof`. Both map the error to a status, hide the message of a 500, log from 500 up, and send `{ error, location }`.
- **ServerPage.** It validates its arguments and derives the page count and the next page.
- **DatabaseMapper.properties.** It builds an object from a database row and a list of column names or mapping objects.
- **The HttpServer builder.** Its `with…` methods set one option each and return the builder.
- **HttpServer.setup.** It registers the configured middlewares in a fixed order. With ETag caching on, it appends a check after the user's before-controller middlewares and a store after the user's after-controller middlewares.

How the model is written:

- **Code that changes state:** Dafny classes with `modifies` clauses. This covers the parser's loops, the builder's fields, the server's registration list and ETag store, the request's `user` slot, the response and the log.
- **Code that only computes:** functions.
- **A method and its specification function:** each method is proved against a function that specifies it.
- **The properties the code promises:** proved as lemmas about those functions.

Things treated as parameters:

- Token verification (jsonwebtoken, through `src/TokenGenerator.ts`) is a function from the token and the options to a payload or nothing.
- Response sending and the error log are recorded as sequences.
- Everything the server only passes on is an opaque handle: controllers, handlers and option objects.

Module per source file (paths are relative to the repository root):

| module | models |
|---|---|
| `Hateoas`, `HateoasProperties` | `src/communication/server/Hateoas.ts`; the scenarios of `tests/unit/hateoas.spec.ts` |
| `AuthenticationHeaderParser` | `src/communication/server/authenticators/AuthenticationHeaderParser.ts` |
| `JwtAuthenticator` | `src/communication/server/authenticators/JWTAuthenticator.ts` |
| `JwtTenantAuthenticator` | `src/communication/server/authenticators/JWTTenantAuthenticator.ts` |
| `JwtMultiTenantAuthenticator` | `src/communication/server/authenticators/JWTMultiTenantAuthenticator.ts` |
| `LegacyJwtAuthenticator` | `src/communication/server/JWTAuthenticator.ts` |
| `ErrorHandler` | `src/communication/server/ErrorHandler.ts` |
| `InstanceErrorHandler` | `src/communication/server/errors/ErrorHandler.ts` |
| `ServerPage` | `src/communication/server/ServerPage.ts` |
| `DatabaseMapper` | `src/database/DatabaseMapper.ts` |
| `HttpServer` | `src/communication/server/HttpServer.ts` |
| `Requests`, `JwtVerification`, `HttpErrors`, `JsSemantics`, `Wrappers` | shared values: the request, verification options, error values and statuses, the JavaScript built-ins the code relies on (`substring`, `toLowerCase`, `split`, `undefined` property keys), Option and Result |

JavaScript behaviour the model spells out:

- **Truthiness.** A `statusCode` of 0 is ignored. An empty token counts as no token. The empty string `jwt && verify(…)` produces is stored as a falsy user.
- **substring.** The clamping and swapping of its indices are modelled.
- **Header names.** Node lowercases them, so `request.get` is case-insensitive.
- **Undefined keys.** `obj[undefined]` reads the key `"undefined"`. An empty mapping object in DatabaseMapper writes and reads that key. So does a missing tenant header.
- **A missing cookie jar.** It makes the fail-closed middlewares' promise reject before verification.

## Model

| member | source | states |
|---|---|---|
| Hateoas.HateoasParser.ParseLinks | src/communication/server/Hateoas.ts:32-46 | fails exactly when the body holds an error (the first in key order, depth first) and with that error; otherwise non-objects come back unchanged and objects keep class and keys, with `_links` rewritten and every object-typed entry (null included) walked |
| Hateoas.HateoasParser.ParseBodyLinks | src/communication/server/Hateoas.ts:49-54 | fails exactly when an entity of the container has no rule (or the container is null/undefined, or a non-empty string); otherwise every entity, in key order, is replaced by processEntity's result and keys and class are kept |
| Hateoas.ProcessEntity | src/communication/server/Hateoas.ts:57-68 | fails exactly when the entity's class has no rule and is not Link, and then with InternalServerError naming that class; a ruled entity becomes its rule's output; a Link with no Link rule is returned as it is. ProcessEntityError and ProcessEntityPassThrough restate these from the failure and pass-through sides |
| HateoasProperties.ProcessEntityError | src/communication/server/Hateoas.ts:57-63 | an entity that fails raises InternalServerError naming its own class, which has no rule and is not Link |
| HateoasProperties.ProcessEntityPassThrough | src/communication/server/Hateoas.ts:57-68 | with no rule named Link, a Link passes through unchanged and a ruled entity becomes its rule's output |
| HateoasProperties.FailureNamesUnruledClass | src/communication/server/Hateoas.ts:32-68 | any InternalServerError a whole body raises names a class without a rule that is not Link |
| HateoasProperties.LinksIdempotent | src/communication/server/Hateoas.ts:49-68 | a rewritten `_links` container of single-Link rules passes a second parse without error and unchanged |
| HateoasProperties.RewriteIdempotent | src/communication/server/Hateoas.ts:32-68 | with no rule named Link and every rule yielding one Link, re-parsing a parsed body raises nothing and changes nothing |
| HateoasProperties.LinksOnlyFixpoint | src/communication/server/Hateoas.ts:32-68 | with no rule named Link, every body whose `_links` containers hold only Links (or a falsy or non-object scalar) parses without error and comes back unchanged |
| HateoasProperties.RewrittenDeterministic | src/communication/server/Hateoas.ts:32-46 | the rewrite relation has at most one result per body |
| HateoasProperties.EntitiesAreNotWalked | src/communication/server/Hateoas.ts:49-54 | an entity under `_links` goes to its rule as it is: a rule-less object inside the entity's own `_links` raises nothing |
| HateoasProperties.LinkArraysBreakIdempotence | src/communication/server/Hateoas.ts:9-16 | a rule returning Link[] leaves an Array under `_links`, so a second parse fails on class "Array" |
| HateoasProperties.TestEntityResolves | tests/unit/hateoas.spec.ts:30-37 | the TestEntity rule turns a TestEntity into a GET Link to `<protocol>://testdomain/test/<id>` with its class name as rel |
| HateoasProperties.SubTestEntityResolves | tests/unit/hateoas.spec.ts:38-45 | the SubTestEntity rule yields a GET Link to `/subtest/<id>` targeting the entity's action |
| HateoasProperties.OneLevelScenario | tests/unit/hateoas.spec.ts:54-75 | the one-level body parses without error to the expected Link, other fields unchanged |
| HateoasProperties.NestedScenario | tests/unit/hateoas.spec.ts:100-138 | the nested body parses without error; inner and outer `_links` are rewritten independently |
| HateoasProperties.LinkPassesThroughScenario | tests/unit/hateoas.spec.ts:140-165 | a Link under `_links` raises nothing and the body is unchanged |
| HateoasProperties.MissingRuleScenario | tests/unit/hateoas.spec.ts:167-179 | a plain object under `_links` raises InternalServerError for class "Object" |
| HateoasProperties.PageScenario | tests/unit/hateoas.spec.ts:181-224 | a page whose elements carry Links raises nothing and is unchanged |
| HttpErrors.OutcomeFor | src/communication/server/ErrorHandler.ts:43-57 | once the status is known: the client sees "Internal Server Error" exactly at 500 and the message otherwise, the location is copied, the error is logged exactly from 500 up |
| HttpErrors.Perform | src/communication/server/ErrorHandler.ts:53-57 | logs the error when the outcome says so, then sends exactly one response |
| ErrorHandler.StatusCode | src/communication/server/ErrorHandler.ts:30-41 | a truthy statusCode wins; otherwise the status of the name table (Validation and BadRequest 400, Unauthorized 401, Forbidden 403, NotFound 404, InternalServer 500, AuthenticationTimeout 419); otherwise 500 |
| ErrorHandler.Handle | src/communication/server/ErrorHandler.ts:29-58 | a falsy error produces nothing; any other produces exactly the outcome of its status |
| ErrorHandler.HandleError | src/communication/server/ErrorHandler.ts:23-59 | the response gets exactly that outcome's send and the log its line; for a falsy error neither changes |
| ErrorHandler.ClassErrorStatus | src/communication/server/ErrorHandler.ts:30-41 | an error built by any of the seven library classes gets its class's status from the table |
| ErrorHandler.MessageKeptAbove500 | src/communication/server/ErrorHandler.ts:48-55 | a 503 keeps its message and is logged: only exactly 500 hides the message |
| ErrorHandler.UnknownErrorIsHidden | src/communication/server/ErrorHandler.ts:41-57 | an unknown name without statusCode is a logged 500 with the generic message and its location |
| ErrorHandler.ZeroStatusCodeIgnored | src/communication/server/ErrorHandler.ts:31 | a statusCode of 0 classifies like no statusCode |
| InstanceErrorHandler.FirstMatch | src/communication/server/errors/ErrorHandler.ts:23-27 | none exactly when the error is an instance of no listed class; otherwise the status of the earliest listed class it is an instance of |
| InstanceErrorHandler.StatusCode | src/communication/server/errors/ErrorHandler.ts:21-28 | a truthy statusCode wins; otherwise the first of Validation 400, Unauthorized 401, Forbidden 403, NotFound 404, AuthenticationTimeout 419 the error is an instance of; otherwise 500 |
| InstanceErrorHandler.Handle | src/communication/server/errors/ErrorHandler.ts:20-40 | a falsy error produces nothing; any other exactly the outcome of its status |
| InstanceErrorHandler.HandleError | src/communication/server/errors/ErrorHandler.ts:14-41 | the response gets exactly that outcome's send and the log its line; for a falsy error neither changes |
| InstanceErrorHandler.UnclassifiedIs500 | src/communication/server/errors/ErrorHandler.ts:28 | without statusCode and outside the five classes, the status is 500 |
| InstanceErrorHandler.ValidationWins | src/communication/server/errors/ErrorHandler.ts:23 | an instance of ValidationError is a 400 whatever other classes it has |
| InstanceErrorHandler.HandlersAgree | src/communication/server/errors/ErrorHandler.ts:21-39 | on errors with a truthy statusCode or built by a class both handlers know, the two handlers give the same status and the same outcome |
| InstanceErrorHandler.BadRequestDisagreement | src/communication/server/errors/ErrorHandler.ts:21-28 | a BadRequestError is a 400 for the name-based handler and a 500 here |
| Requests.Header | src/communication/server/authenticators/JWTMultiTenantAuthenticator.ts:27 | a header is found whatever the case of the name asked for, with the value stored under the lower-case name |
| JsSemantics.SubstringDropsPrefix | src/communication/server/authenticators/AuthenticationHeaderParser.ts:10 | `substring(k, length)` removes exactly a k-character prefix |
| JsSemantics.SplitJoin | src/communication/server/HttpServer.ts:198-199 | splitting on a comma loses nothing: the parts join back to the input and none contains a comma |
| AuthenticationHeaderParser.ParseAuthorizationHeader | src/communication/server/authenticators/AuthenticationHeaderParser.ts:8-11 | undefined exactly when there is no Authorization header; otherwise the header minus its first seven characters, "" for seven or fewer |
| AuthenticationHeaderParser.ParseCookieHeader | src/communication/server/authenticators/AuthenticationHeaderParser.ts:13-15 | throws exactly when there is no cookie jar; otherwise the cookie under the configured name ("undefined" when none), if present |
| AuthenticationHeaderParser.ParseJWTToken | src/communication/server/authenticators/AuthenticationHeaderParser.ts:5-6 | the header token when truthy, otherwise the cookie lookup with its error |
| AuthenticationHeaderParser.HeaderToken | src/communication/server/authenticators/JWTMultiTenantAuthenticator.ts:51-58 | present exactly when the Authorization header is present and non-empty, and then the same token the shared parser takes from the header |
| AuthenticationHeaderParser.HeaderPrefixIgnored | src/communication/server/authenticators/AuthenticationHeaderParser.ts:3-10 | any seven characters are dropped, not only "Bearer " |
| AuthenticationHeaderParser.BearerTokenWins | src/communication/server/authenticators/AuthenticationHeaderParser.ts:5-10 | "Bearer t" with non-empty t yields t, and the cookie jar is never consulted |
| AuthenticationHeaderParser.ShortHeaderFallsBack | src/communication/server/authenticators/AuthenticationHeaderParser.ts:5-11 | a header of seven characters or fewer yields "", so the cookie is used |
| AuthenticationHeaderParser.NoHeaderUsesCookie | src/communication/server/authenticators/AuthenticationHeaderParser.ts:5-15 | without the header, the token is the cookie's value or undefined |
| JwtVerification.OptionsFor | src/communication/server/authenticators/JWTAuthenticator.ts:39-42 | verification gets the decoded key and an allow-list of exactly the configured algorithm |
| JwtAuthenticator.VerificationError | src/communication/server/authenticators/JWTAuthenticator.ts:45 | a ForbiddenError with message "Failed to verify JWT" |
| JwtAuthenticator.GetRoles | src/communication/server/authenticators/JWTAuthenticator.ts:23-26 | the user's roles when the payload has them, [] otherwise, including when no user is set |
| JwtAuthenticator.JwtAuthenticator.Options | src/communication/server/authenticators/JWTAuthenticator.ts:39-42 | the options carry the key decoded from the configured base64 and exactly the configured algorithm |
| JwtAuthenticator.JwtAuthenticator.Middleware | src/communication/server/authenticators/JWTAuthenticator.ts:32-54 | no cookie jar and no truthy header: rejects and changes nothing; verified: the payload becomes the user and `next` runs; a missing or empty token, and any token verification rejects, sends exactly one 403 "Failed to verify JWT"; then nothing reaches the ErrorLog, the user is untouched and `next` does not run |
| JwtTenantAuthenticator.JwtTenantAuthenticator.GetRoles | src/communication/server/authenticators/JWTTenantAuthenticator.ts:26-41 | a copy of the tenant's roles (if any) followed by "admin" exactly for an admin user; the token is not changed |
| JwtTenantAuthenticator.JwtTenantAuthenticator.Middleware | src/communication/server/authenticators/JWTTenantAuthenticator.ts:47-73 | the fail-closed outcomes of the plain authenticator, a missing or empty token included (a 403); the key is decoded once, on the first request that gets past token parsing, and is the configured one from then on |
| JwtTenantAuthenticator.AdminWithoutTenantRoles | src/communication/server/authenticators/JWTTenantAuthenticator.ts:28-40 | an admin with no tenant gets ["admin"]; a request without a user gets [] |
| JwtMultiTenantAuthenticator.HeaderTenant | src/communication/server/authenticators/JWTMultiTenantAuthenticator.ts:27-29 | a tenant is found exactly when the user has tenants and one is keyed by the header's value ("undefined" when the header is absent), and the tenant found is the one under that key |
| JwtMultiTenantAuthenticator.SelectTenant | src/communication/server/authenticators/JWTMultiTenantAuthenticator.ts:33-40 | the header's tenant; failing that, the only tenant when there is exactly one; otherwise none |
| JwtMultiTenantAuthenticator.JwtMultiTenantAuthenticator.GetRoles | src/communication/server/authenticators/JWTMultiTenantAuthenticator.ts:26-43 | the selected tenant's own role array, with "admin" pushed into it for an admin tenant; a new empty array when no tenant is selected |
| JwtMultiTenantAuthenticator.JwtMultiTenantAuthenticator.GetRolesTwice | src/communication/server/authenticators/JWTMultiTenantAuthenticator.ts:33-39 | two calls for an admin tenant return "admin" once, then twice, and the token keeps both |
| JwtMultiTenantAuthenticator.JwtMultiTenantAuthenticator.RolesOf | src/communication/server/authenticators/JWTMultiTenantAuthenticator.ts:26-43 | the corrected getRoles: the selected tenant's roles plus "admin" for an admin tenant, with nothing changed |
| JwtMultiTenantAuthenticator.JwtMultiTenantAuthenticator.Middleware | src/communication/server/authenticators/JWTMultiTenantAuthenticator.ts:49-73 | no non-empty header: user untouched; empty token: falsy user; verified: payload as user; failure: user untouched and a warning; `next` always runs |
| LegacyJwtAuthenticator.LegacyJwtAuthenticator.Middleware | src/communication/server/JWTAuthenticator.ts:28-52 | the same four permissive outcomes over the plain user token |
| ServerPage.CeilDiv | src/communication/server/ServerPage.ts:27 | the least p with p * size >= total |
| ServerPage.NewServerPage | src/communication/server/ServerPage.ts:11-30 | fails exactly when size or current page is not positive, the size reported first; otherwise keeps its arguments with a negative total counted as 0, pages is the least count covering the total, and the next page is the current one exactly when it equals pages, else the one after |
| ServerPage.PagesUnique | src/communication/server/ServerPage.ts:27 | the page count is the only p with (p - 1) * size < total <= p * size |
| ServerPage.PagesBounds | src/communication/server/ServerPage.ts:12-27 | the page count is never negative and is 0 exactly when the total is |
| ServerPage.EmptyFirstPage | src/communication/server/ServerPage.ts:27-29 | the empty first page has 0 pages and a next page of 2, past the last page |
| ServerPage.NextPageUnclamped | src/communication/server/ServerPage.ts:29 | past the last page the next page keeps counting up |
| ServerPage.BothInvalid | src/communication/server/ServerPage.ts:14-22 | with both arguments bad, the page size is reported |
| ServerPage.IntendedNextPage | src/communication/server/ServerPage.ts:29 | the corrected next page: beyond the current page exactly while one remains |
| ServerPage.NextPageAgreement | src/communication/server/ServerPage.ts:27-29 | the next page as written equals the corrected one exactly when the current page is at most the page count |
| DatabaseMapper.Target | src/database/DatabaseMapper.ts:21-29 | a column name writes the field of the same name; a mapping writes its first key, "undefined" when it has none |
| DatabaseMapper.Source | src/database/DatabaseMapper.ts:21-29 | a column name reads its lower-case column; a mapping reads the column its first key names, "undefined" when it has none |
| DatabaseMapper.DatabaseMapper.Properties | src/database/DatabaseMapper.ts:17-34 | the result's keys are exactly the targets of the list, and each holds what the last property writing it reads from the row (undefined for a missing column) |
| DatabaseMapper.DatabaseMapper.Map | src/database/DatabaseMapper.ts:13-15 | a new mapper over the unchanged row |
| HttpServer.HttpServerBuilder.constructor | src/communication/server/HttpServer.ts:50-53 | nothing is set and both phase lists are empty |
| HttpServer.HttpServerBuilder.Port | src/communication/server/HttpServer.ts:55-57 | the stored port unless unset or 0, then 8080; never 0 |
| HttpServer.HttpServerBuilder.WithPort | src/communication/server/HttpServer.ts:103-106 | stores the port, 8080 for a falsy one; every other option unchanged; returns the builder |
| HttpServer.HttpServerBuilder.WithCors | src/communication/server/HttpServer.ts:108-111 | stores the domains, nothing else changes, returns the builder |
| HttpServer.HttpServerBuilder.WithSwagger | src/communication/server/HttpServer.ts:113-117 | stores options built from the argument (always set, even from none); nothing else changes |
| HttpServer.HttpServerBuilder.WithControllers | src/communication/server/HttpServer.ts:119-122 | stores the controllers, nothing else changes |
| HttpServer.HttpServerBuilder.WithErrorHandler | src/communication/server/HttpServer.ts:124-127 | stores the handler, nothing else changes |
| HttpServer.HttpServerBuilder.WithJsonParse | src/communication/server/HttpServer.ts:129-132 | stores the JSON options, nothing else changes |
| HttpServer.HttpServerBuilder.WithCookieParser | src/communication/server/HttpServer.ts:134-137 | stores the cookie options, nothing else changes |
| HttpServer.HttpServerBuilder.WithGraphql | src/communication/server/HttpServer.ts:139-142 | stores the GraphQL options, nothing else changes |
| HttpServer.HttpServerBuilder.WithHateoasRules | src/communication/server/HttpServer.ts:144-147 | stores the rules, the empty rule set when none are given; nothing else changes |
| HttpServer.HttpServerBuilder.WithAuthenticator | src/communication/server/HttpServer.ts:149-152 | stores the authenticator, nothing else changes |
| HttpServer.HttpServerBuilder.WithCacheEtag | src/communication/server/HttpServer.ts:154-157 | turns ETag caching on, nothing else changes |
| HttpServer.HttpServerBuilder.WithCustomMiddleware | src/communication/server/HttpServer.ts:159-165 | appends to the chosen phase's list only, in call order |
| HttpServer.HttpServerBuilder.Build | src/communication/server/HttpServer.ts:167-169 | a new server over this builder, with nothing registered and an empty ETag store |
| HttpServer.HttpServer.constructor | src/communication/server/HttpServer.ts:176-181 | keeps the builder; empty ETag store |
| HttpServer.EtagRegistered | src/communication/server/HttpServer.ts:255-284 | with caching on, each phase list gains its ETag middleware at the end; otherwise the builder is unchanged |
| HttpServer.EtagAfterUserMiddlewares | src/communication/server/HttpServer.ts:255-284 | the ETag check comes after every user before-controller middleware, the store after every after-controller one, and the user lists are kept |
| HttpServer.PhaseSegment | src/communication/server/HttpServer.ts:286-290 | one registration per middleware of the phase, in list order |
| HttpServer.HttpServer.SetupCacheEtag | src/communication/server/HttpServer.ts:255-284 | leaves the builder as EtagRegistered describes |
| HttpServer.HttpServer.Setup | src/communication/server/HttpServer.ts:292-307 | appends exactly the pipeline of the builder with its ETag middlewares in place, leaves that builder, and does not touch the ETag store |
| HttpServer.PipelineOrdered | src/communication/server/HttpServer.ts:292-307 | registrations come in the order cookie parser, CORS, JSON, before middlewares, authenticator, swagger, HATEOAS, controllers, error handler, GraphQL, after middlewares, trust proxy |
| HttpServer.PipelineGatingParsers | src/communication/server/HttpServer.ts:191-253 | the cookie parser, CORS, JSON parser and authenticator are registered exactly when configured, CORS only for non-empty domains |
| HttpServer.PipelineGatingRoutes | src/communication/server/HttpServer.ts:209-247 | swagger, HATEOAS rules, controllers and GraphQL are registered exactly when configured |
| HttpServer.ErrorHandlerOnce | src/communication/server/HttpServer.ts:221-223 | exactly one error handler is registered: the configured one, else the default |
| HttpServer.CorsOriginsFromDomains | src/communication/server/HttpServer.ts:196-201 | the CORS origins are the comma-separated parts of the domains, which join back to them |
| HttpServer.EtagDecision | src/communication/server/HttpServer.ts:260-270 | a 304 carrying the request's ETag exactly when If-None-Match is present, non-empty and equal to the ETag stored for the URL; otherwise `next` |
| HttpServer.HttpServer.CheckEtag | src/communication/server/HttpServer.ts:260-270 | the check middleware decides as EtagDecision on the current store, reading the header case-insensitively, and changes nothing |
| HttpServer.HttpServer.StoreEtag | src/communication/server/HttpServer.ts:275-281 | a truthy response ETag is stored for the URL, otherwise the store is unchanged; registrations are untouched |
| HttpServer.EtagRoundTrip | src/communication/server/HttpServer.ts:255-284 | after storing ETag e for a URL, a request for it with If-None-Match e gets 304 with e; other URLs decide as before |

## Left out

- Heap aliasing in the HATEOAS body. The body is a tree value, so the model does not capture a body that shares a sub-object or contains a cycle, nor the in-place update `body[key] = …` as seen through other references.
- The partial rewrite left behind by a throw. `parseLinks` updates entries in place before a later one throws. The model returns only the error.
- Inherited (prototype-chain) keys and `hasOwnProperty`, and the order of `Object.keys`. An object's entries are taken in the order given.
- Numbers are integers. NaN, non-integer page arguments and floating-point `Math.ceil` are not modelled, and `${n}` is written for integers only.
- `toLowerCase` is modelled for ASCII letters only.
- Asynchrony. Middlewares run to completion one at a time. The ETag store is the in-memory store, seen synchronously, and concurrent requests are not modelled.
- Logger output. `Logger.debug`, `Logger.info` and `Logger.warn` are not modelled. The permissive middlewares' warning is a returned flag. `Logger.error` is the ErrorLog.
- `HttpServer.start` and `listen` (network I/O), and the actual effect of cookie-parser, cors, express.json, swagger, GraphQL and the REST framework. Setup records that each one was registered and with which options.
- The cors `RegExp` built from each origin. The model keeps the origin strings; regular-expression semantics are not modelled.
- Which errors the error handlers are given. They take an error value: its name, its set of library classes, its statusCode, message and location. Two assumptions follow:
  - The 419 status is the library's AUTHENTICATION_TIMEOUT, and each library class sets `name` to its class name.
  - BadRequestError is not taken to be a subclass of ValidationError. The cross-platform library is not part of this model.
- `src/communication/server/index` is not part of this model. The tenant authenticator imports its error handler from there, and the model takes it to be the handler of `src/communication/server/ErrorHandler.ts`.
- Verification is a parameter. The signature check of jsonwebtoken and `src/TokenGenerator.ts` is not modelled. The one property of it the fail-closed middlewares rely on is JwtVerification.RejectsMissing: jsonwebtoken rejects a missing or empty token ("jwt must be provided") whatever the options. Both fail-closed middlewares require it.
- `Buffer.from(key, 'base64')` is kept as the key it was decoded from.
- A null or malformed payload is not modelled. The multi-tenant tenant record is taken to have an admin flag and a role array, so a tenant whose `roles` is undefined, where `push` would throw, is not represented.
- JwtAuthenticator.GetRoles also stands for the older authenticator's `getRoles` in `src/communication/server/JWTAuthenticator.ts`. The two expressions are identical, so the function is written once.
- The mapping object of DatabaseMapper is a list of field/column pairs in key order, and a property that is neither a string nor an object is not modelled. `typeof null === 'object'`, so a null property would throw; that case is left out.

## Findings

| source | as written | input that shows it | evidently intended | confidence | as-written member | corrected member |
|---|---|---|---|---|---|---|
| src/communication/server/ServerPage.ts:29 | `nextPage = pages === currentPage ? currentPage : currentPage + 1` points past the end whenever the current page is beyond the page count | totalElements 0, currentPage 1, pageSize 10: pages 0, nextPage 2 | on (or beyond) the last page the next page is the current one | medium, not executed | ServerPage.EmptyFirstPage | ServerPage.IntendedNextPage |
| src/communication/server/authenticators/JWTMultiTenantAuthenticator.ts:34-39 | getRoles returns the token's own role array and pushes "admin" into it, so each call adds another "admin" to the user's token | an admin tenant's request asked for its roles twice: ["admin"], then ["admin", "admin"] | a fresh list of the tenant's roles plus "admin", as the single-tenant authenticator builds with `concat` | medium, not executed | JwtMultiTenantAuthenticator.JwtMultiTenantAuthenticator.GetRolesTwice | JwtMultiTenantAuthenticator.JwtMultiTenantAuthenticator.RolesOf |
