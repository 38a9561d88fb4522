// The server builder and server of src/communication/server/HttpServer.ts: the builder's
// options, the order in which setup registers the pipeline, and the two ETag middlewares.
module HttpServer {
  import opened Wrappers
  import opened JsSemantics
  import opened Requests
  import opened HttpErrors
  import Hateoas

  const DefaultPort := 8080

  /** Something the server is configured with but never looks into: controllers, a handler, an options object. */
  datatype Handle = Handle(id: nat)

  /** CUSTOM_MIDDLEWARE_ORDER. */
  datatype Phase = BeforeControllers | AfterControllers

  /** A middleware of a phase list: a user's, or one of the two ETag middlewares setup adds. */
  datatype Middleware = Custom(handler: Handle) | EtagCheck | EtagStore

  /** `buildSwaggerOptions(options)`, kept as the options it was built from; always an object. */
  datatype SwaggerConfig = BuiltFrom(given: Option<Handle>)

  datatype CookieParserOptions = CookieParserOptions(secret: Option<string>)

  /** Everything the builder holds; None is a field never set (undefined). */
  datatype BuilderState = BuilderState(
    port: Option<int>,
    corsDomains: Option<string>,
    swaggerOptions: Option<SwaggerConfig>,
    controllers: Option<Handle>,
    errorHandler: Option<Handle>,
    jsonOptions: Option<Handle>,
    cookieParserOptions: Option<CookieParserOptions>,
    graphqlOptions: Option<Handle>,
    hateoasRules: Option<Hateoas.Rules>,
    authenticator: Option<Handle>,
    cacheEtag: bool,
    before: seq<Middleware>,
    after: seq<Middleware>)

  /** A fresh builder: nothing set, both phase lists empty. */
  function EmptyBuilder(): BuilderState {
    BuilderState(None, None, None, None, None, None, None, None, None, None, false, [], [])
  }

  class HttpServerBuilder {
    var port: Option<int>
    var corsDomains: Option<string>
    var swaggerOptions: Option<SwaggerConfig>
    var controllers: Option<Handle>
    var errorHandler: Option<Handle>
    var jsonOptions: Option<Handle>
    var cookieParserOptions: Option<CookieParserOptions>
    var graphqlOptions: Option<Handle>
    var hateoasRules: Option<Hateoas.Rules>
    var authenticator: Option<Handle>
    var cacheEtag: bool
    var before: seq<Middleware>
    var after: seq<Middleware>

    /** The builder's fields as one value. */
    function State(): BuilderState
      reads this
    {
      BuilderState(port, corsDomains, swaggerOptions, controllers, errorHandler, jsonOptions,
                   cookieParserOptions, graphqlOptions, hateoasRules, authenticator, cacheEtag, before, after)
    }

    constructor()
      ensures State() == EmptyBuilder()
    {
      port, corsDomains, swaggerOptions, controllers, errorHandler := None, None, None, None, None;
      jsonOptions, cookieParserOptions, graphqlOptions, hateoasRules, authenticator := None, None, None, None, None;
      cacheEtag, before, after := false, [], [];
    }

    /** The port getter: the stored port, or 8080 when it is unset or 0. */
    function Port(): (p: int)
      reads this
      ensures port.Some? && port.value != 0 ==> p == port.value
      ensures port.None? || port.value == 0 ==> p == DefaultPort
      ensures p != 0
    {
      if port.Some? && port.value != 0 then port.value else DefaultPort
    }

    /** withPort: a falsy port (undefined or 0) is stored as 8080. */
    method WithPort(p: Option<int>) returns (b: HttpServerBuilder)
      modifies this
      ensures b == this
      ensures State() == old(State()).(port := Some(if p.Some? && p.value != 0 then p.value else DefaultPort))
    {
      port := Some(if p.Some? && p.value != 0 then p.value else DefaultPort);
      b := this;
    }

    method WithCors(domains: string) returns (b: HttpServerBuilder)
      modifies this
      ensures b == this && State() == old(State()).(corsDomains := Some(domains))
    {
      corsDomains := Some(domains);
      b := this;
    }

    method WithSwagger(options: Option<Handle>) returns (b: HttpServerBuilder)
      modifies this
      ensures b == this && State() == old(State()).(swaggerOptions := Some(BuiltFrom(options)))
    {
      swaggerOptions := Some(BuiltFrom(options));
      b := this;
    }

    method WithControllers(c: Handle) returns (b: HttpServerBuilder)
      modifies this
      ensures b == this && State() == old(State()).(controllers := Some(c))
    {
      controllers := Some(c);
      b := this;
    }

    method WithErrorHandler(h: Handle) returns (b: HttpServerBuilder)
      modifies this
      ensures b == this && State() == old(State()).(errorHandler := Some(h))
    {
      errorHandler := Some(h);
      b := this;
    }

    method WithJsonParse(options: Handle) returns (b: HttpServerBuilder)
      modifies this
      ensures b == this && State() == old(State()).(jsonOptions := Some(options))
    {
      jsonOptions := Some(options);
      b := this;
    }

    method WithCookieParser(options: CookieParserOptions) returns (b: HttpServerBuilder)
      modifies this
      ensures b == this && State() == old(State()).(cookieParserOptions := Some(options))
    {
      cookieParserOptions := Some(options);
      b := this;
    }

    method WithGraphql(options: Handle) returns (b: HttpServerBuilder)
      modifies this
      ensures b == this && State() == old(State()).(graphqlOptions := Some(options))
    {
      graphqlOptions := Some(options);
      b := this;
    }

    /** withHateoasRules: no rules given means the empty rule object. */
    method WithHateoasRules(rules: Option<Hateoas.Rules>) returns (b: HttpServerBuilder)
      modifies this
      ensures b == this && State() == old(State()).(hateoasRules := Some(rules.GetOr(map[])))
    {
      hateoasRules := Some(rules.GetOr(map[]));
      b := this;
    }

    method WithAuthenticator(a: Handle) returns (b: HttpServerBuilder)
      modifies this
      ensures b == this && State() == old(State()).(authenticator := Some(a))
    {
      authenticator := Some(a);
      b := this;
    }

    method WithCacheEtag() returns (b: HttpServerBuilder)
      modifies this
      ensures b == this && State() == old(State()).(cacheEtag := true)
    {
      cacheEtag := true;
      b := this;
    }

    /** withCustomMiddleware: appends to the chosen phase's list; the other list is untouched. */
    method WithCustomMiddleware(phase: Phase, m: Middleware) returns (b: HttpServerBuilder)
      modifies this
      ensures b == this
      ensures phase == BeforeControllers ==> State() == old(State()).(before := old(before) + [m])
      ensures phase == AfterControllers ==> State() == old(State()).(after := old(after) + [m])
    {
      if phase == BeforeControllers {
        before := before + [m];
      } else {
        after := after + [m];
      }
      b := this;
    }

    method Build() returns (server: HttpServer)
      ensures fresh(server) && server.builder == this
      ensures server.stages == [] && server.etagStorage == map[]
    {
      server := new HttpServer(this);
    }
  }

  /** Which error handler setup installs. */
  datatype ErrorHandlerChoice = DefaultErrorHandler | CustomErrorHandler(handler: Handle)

  /** One registration made by setup, on the application or with the REST framework. */
  datatype Stage =
    | CookieParser(secret: Option<string>)
    | Cors(origins: seq<string>)
    | JsonParser(options: Handle)
    | Use(phase: Phase, middleware: Middleware)
    | Authenticator(authenticator: Handle)
    | Swagger(swagger: SwaggerConfig)
    | HateoasRules(rules: Hateoas.Rules)
    | Controllers(controllers: Handle)
    | ErrorHandler(choice: ErrorHandlerChoice)
    | GraphQL(options: Handle)
    | TrustProxy

  /** The position of each kind of registration in the fixed setup order. */
  function Rank(s: Stage): nat {
    match s
    case CookieParser(_) => 0
    case Cors(_) => 1
    case JsonParser(_) => 2
    case Use(phase, _) => if phase == BeforeControllers then 3 else 10
    case Authenticator(_) => 4
    case Swagger(_) => 5
    case HateoasRules(_) => 6
    case Controllers(_) => 7
    case ErrorHandler(_) => 8
    case GraphQL(_) => 9
    case TrustProxy => 11
  }

  /** `corsDomains` is truthy. */
  predicate HasCors(s: BuilderState) {
    s.corsDomains.Some? && s.corsDomains.value != ""
  }

  function CookieSegment(s: BuilderState): seq<Stage> {
    if s.cookieParserOptions.Some? then [CookieParser(s.cookieParserOptions.value.secret)] else []
  }

  /** The CORS origins: the configured domains split on commas, one pattern each. */
  function CorsSegment(s: BuilderState): seq<Stage> {
    if HasCors(s) then [Cors(Split(s.corsDomains.value, ','))] else []
  }

  function JsonSegment(s: BuilderState): seq<Stage> {
    if s.jsonOptions.Some? then [JsonParser(s.jsonOptions.value)] else []
  }

  function PhaseSegment(phase: Phase, ms: seq<Middleware>): (r: seq<Stage>)
    ensures |r| == |ms| && forall i :: 0 <= i < |ms| ==> r[i] == Use(phase, ms[i])
  {
    seq(|ms|, i requires 0 <= i < |ms| => Use(phase, ms[i]))
  }

  function AuthenticatorSegment(s: BuilderState): seq<Stage> {
    if s.authenticator.Some? then [Authenticator(s.authenticator.value)] else []
  }

  function SwaggerSegment(s: BuilderState): seq<Stage> {
    if s.swaggerOptions.Some? then [Swagger(s.swaggerOptions.value)] else []
  }

  function HateoasSegment(s: BuilderState): seq<Stage> {
    if s.hateoasRules.Some? then [HateoasRules(s.hateoasRules.value)] else []
  }

  function ControllersSegment(s: BuilderState): seq<Stage> {
    if s.controllers.Some? then [Controllers(s.controllers.value)] else []
  }

  /** The error handler is always installed: the configured one, or the default. */
  function ErrorHandlerSegment(s: BuilderState): seq<Stage> {
    [ErrorHandler(if s.errorHandler.Some? then CustomErrorHandler(s.errorHandler.value) else DefaultErrorHandler)]
  }

  function GraphqlSegment(s: BuilderState): seq<Stage> {
    if s.graphqlOptions.Some? then [GraphQL(s.graphqlOptions.value)] else []
  }

  /** The builder after setupCacheEtag: with caching on, each phase list gains its ETag middleware last. */
  function EtagRegistered(s: BuilderState): (t: BuilderState)
    ensures s.cacheEtag ==> t == s.(before := s.before + [EtagCheck], after := s.after + [EtagStore])
    ensures !s.cacheEtag ==> t == s
  {
    if s.cacheEtag then s.(before := s.before + [EtagCheck], after := s.after + [EtagStore]) else s
  }

  /** The registrations of setup, one segment per step, for a builder whose ETag middlewares are in place. */
  function Segments(s: BuilderState): seq<seq<Stage>> {
    [CookieSegment(s), CorsSegment(s), JsonSegment(s), PhaseSegment(BeforeControllers, s.before),
     AuthenticatorSegment(s), SwaggerSegment(s), HateoasSegment(s), ControllersSegment(s),
     ErrorHandlerSegment(s), GraphqlSegment(s), PhaseSegment(AfterControllers, s.after), [TrustProxy]]
  }

  function Flatten(segs: seq<seq<Stage>>): seq<Stage>
    decreases |segs|
  {
    if segs == [] then [] else segs[0] + Flatten(segs[1..])
  }

  /** Everything setup registers, in order. */
  function Pipeline(s: BuilderState): seq<Stage> {
    Flatten(Segments(s))
  }

  /** Every stage of segment k has rank base + k. */
  ghost predicate SegmentsRanked(segs: seq<seq<Stage>>, base: nat) {
    forall k, x :: 0 <= k < |segs| && x in segs[k] ==> Rank(x) == base + k
  }

  lemma {:induction false} FlattenSorted(segs: seq<seq<Stage>>, base: nat)
    requires SegmentsRanked(segs, base)
    ensures forall i :: 0 <= i < |Flatten(segs)| ==> Rank(Flatten(segs)[i]) >= base
    ensures forall i, j :: 0 <= i < j < |Flatten(segs)| ==> Rank(Flatten(segs)[i]) <= Rank(Flatten(segs)[j])
    decreases |segs|
  {
    if segs != [] {
      var rest := segs[1..];
      assert SegmentsRanked(rest, base + 1) by {
        forall k, x | 0 <= k < |rest| && x in rest[k]
          ensures Rank(x) == base + 1 + k
        {
          assert rest[k] == segs[k + 1];
        }
      }
      FlattenSorted(rest, base + 1);
      var f := Flatten(segs);
      assert f == segs[0] + Flatten(rest);
      forall i | 0 <= i < |segs[0]|
        ensures Rank(f[i]) == base
      {
        assert f[i] in segs[0];
      }
    }
  }

  lemma {:induction false} SegmentsOfSetupRanked(s: BuilderState)
    ensures SegmentsRanked(Segments(s), 0)
  {
    var segs := Segments(s);
    forall k, x | 0 <= k < |segs| && x in segs[k]
      ensures Rank(x) == k
    {
      if k == 3 || k == 10 {
        var ms := if k == 3 then s.before else s.after;
        var i :| 0 <= i < |segs[k]| && segs[k][i] == x;
        assert x == Use(if k == 3 then BeforeControllers else AfterControllers, ms[i]);
      }
    }
  }

  /**
   * setup registers in the fixed order cookie parser, CORS, JSON parser, the before-controller
   * middlewares, authenticator, swagger, HATEOAS rules, controllers, error handler, GraphQL,
   * the after-controller middlewares, trust proxy.
   */
  lemma PipelineOrdered(s: BuilderState)
    ensures forall i, j :: 0 <= i < j < |Pipeline(s)| ==> Rank(Pipeline(s)[i]) <= Rank(Pipeline(s)[j])
  {
    SegmentsOfSetupRanked(s);
    FlattenSorted(Segments(s), 0);
  }

  /** A stage is in the pipeline exactly when it is in one of its segments. */
  lemma {:induction false} InFlatten(segs: seq<seq<Stage>>, x: Stage)
    ensures x in Flatten(segs) <==> exists k :: 0 <= k < |segs| && x in segs[k]
    decreases |segs|
  {
    if segs != [] {
      InFlatten(segs[1..], x);
      assert Flatten(segs) == segs[0] + Flatten(segs[1..]);
      if x in Flatten(segs[1..]) {
        var k :| 0 <= k < |segs[1..]| && x in segs[1..][k];
        assert x in segs[k + 1];
      }
      if exists k :: 0 <= k < |segs| && x in segs[k] {
        var k :| 0 <= k < |segs| && x in segs[k];
        if k > 0 {
          assert x in segs[1..][k - 1];
        }
      }
    }
  }

  /**
   * Every optional stage up to the authenticator is there exactly when its option is set
   * (CORS: when the domains are non-empty).
   */
  lemma {:induction false} PipelineGatingParsers(s: BuilderState)
    ensures (exists x :: x in Pipeline(s) && x.CookieParser?) <==> s.cookieParserOptions.Some?
    ensures (exists x :: x in Pipeline(s) && x.Cors?) <==> HasCors(s)
    ensures (exists x :: x in Pipeline(s) && x.JsonParser?) <==> s.jsonOptions.Some?
    ensures (exists x :: x in Pipeline(s) && x.Authenticator?) <==> s.authenticator.Some?
  {
    forall x | x in Pipeline(s)
      ensures x in Segments(s)[Rank(x)]
    {
      InOwnSegment(s, x);
    }
    if s.cookieParserOptions.Some? { InOwnSegment(s, CookieParser(s.cookieParserOptions.value.secret)); }
    if HasCors(s) { InOwnSegment(s, Cors(Split(s.corsDomains.value, ','))); }
    if s.jsonOptions.Some? { InOwnSegment(s, JsonParser(s.jsonOptions.value)); }
    if s.authenticator.Some? { InOwnSegment(s, Authenticator(s.authenticator.value)); }
  }

  /** Swagger, the HATEOAS rules, the controllers and GraphQL are there exactly when configured. */
  lemma {:induction false} PipelineGatingRoutes(s: BuilderState)
    ensures (exists x :: x in Pipeline(s) && x.Swagger?) <==> s.swaggerOptions.Some?
    ensures (exists x :: x in Pipeline(s) && x.HateoasRules?) <==> s.hateoasRules.Some?
    ensures (exists x :: x in Pipeline(s) && x.Controllers?) <==> s.controllers.Some?
    ensures (exists x :: x in Pipeline(s) && x.GraphQL?) <==> s.graphqlOptions.Some?
  {
    forall x | x in Pipeline(s)
      ensures x in Segments(s)[Rank(x)]
    {
      InOwnSegment(s, x);
    }
    if s.swaggerOptions.Some? { InOwnSegment(s, Swagger(s.swaggerOptions.value)); }
    if s.hateoasRules.Some? { InOwnSegment(s, HateoasRules(s.hateoasRules.value)); }
    if s.controllers.Some? { InOwnSegment(s, Controllers(s.controllers.value)); }
    if s.graphqlOptions.Some? { InOwnSegment(s, GraphQL(s.graphqlOptions.value)); }
  }

  /** The error handler is registered exactly once: the configured one, or the default. */
  lemma {:induction false} ErrorHandlerOnce(s: BuilderState)
    ensures forall x :: x in Pipeline(s) && x.ErrorHandler? ==>
              x.choice == if s.errorHandler.Some? then CustomErrorHandler(s.errorHandler.value) else DefaultErrorHandler
    ensures |set i | 0 <= i < |Pipeline(s)| && Pipeline(s)[i].ErrorHandler?| == 1
  {
    var p := Pipeline(s);
    forall x | x in p
      ensures x in Segments(s)[Rank(x)]
    {
      InOwnSegment(s, x);
    }
    var handler := ErrorHandlerSegment(s)[0];
    InOwnSegment(s, handler);
    var handlers := set i | 0 <= i < |p| && p[i].ErrorHandler?;
    var at :| 0 <= at < |p| && p[at] == handler;
    forall i | i in handlers
      ensures i == at
    {
      OnlyOneOfRankEight(s, i, at);
    }
    assert handlers == {at};
  }

  /** A stage is in the pipeline exactly when it is in the segment of its rank. */
  lemma {:induction false} InOwnSegment(s: BuilderState, x: Stage)
    ensures Rank(x) < |Segments(s)|
    ensures x in Pipeline(s) <==> x in Segments(s)[Rank(x)]
  {
    SegmentsOfSetupRanked(s);
    InFlatten(Segments(s), x);
  }

  /** Only the error handler segment has rank 8 and it holds one stage, so two rank-8 positions coincide. */
  lemma {:induction false} OnlyOneOfRankEight(s: BuilderState, i: int, j: int)
    requires 0 <= i < |Pipeline(s)| && 0 <= j < |Pipeline(s)|
    requires Rank(Pipeline(s)[i]) == 8 && Rank(Pipeline(s)[j]) == 8
    ensures i == j
  {
    var segs := Segments(s);
    var front := Flatten(segs[..8]);
    var back := Flatten(segs[9..]);
    FlattenSplit(segs, 8);
    assert Pipeline(s) == front + ErrorHandlerSegment(s) + back;
    SegmentsOfSetupRanked(s);
    assert SegmentsRanked(segs[..8], 0) by {
      forall k, x | 0 <= k < 8 && x in segs[..8][k]
        ensures Rank(x) == k
      {
        assert segs[..8][k] == segs[k];
      }
    }
    assert SegmentsRanked(segs[9..], 9) by {
      forall k, x | 0 <= k < |segs[9..]| && x in segs[9..][k]
        ensures Rank(x) == 9 + k
      {
        assert segs[9..][k] == segs[9 + k];
      }
    }
    FlattenBelow(segs[..8], 8);
    FlattenSorted(segs[9..], 9);
    forall m | 0 <= m < |Pipeline(s)| && Rank(Pipeline(s)[m]) == 8
      ensures m == |front|
    {
    }
  }

  /** Flattening splits at any segment boundary: the segments before k, segment k, the segments after it. */
  lemma {:induction false} FlattenSplit(segs: seq<seq<Stage>>, k: nat)
    requires k < |segs|
    ensures Flatten(segs) == Flatten(segs[..k]) + segs[k] + Flatten(segs[k + 1..])
    decreases k
  {
    if k == 0 {
      assert segs[..0] == [];
      assert segs[1..] == segs[k + 1..];
    } else {
      FlattenSplit(segs[1..], k - 1);
      assert segs[1..][..k - 1] == segs[1..k];
      assert segs[1..][k - 1] == segs[k];
      assert segs[1..][k..] == segs[k + 1..];
      assert segs[..k][1..] == segs[1..k];
      assert Flatten(segs[..k]) == segs[0] + Flatten(segs[1..k]);
    }
  }

  /** Segments ranked from 0, fewer than `bound` of them, hold only stages ranked below `bound`. */
  lemma {:induction false} FlattenBelow(segs: seq<seq<Stage>>, bound: nat)
    requires SegmentsRanked(segs, 0) && |segs| <= bound
    ensures forall i :: 0 <= i < |Flatten(segs)| ==> Rank(Flatten(segs)[i]) < bound
  {
    forall i | 0 <= i < |Flatten(segs)|
      ensures Rank(Flatten(segs)[i]) < bound
    {
      var x := Flatten(segs)[i];
      InFlatten(segs, x);
      var k :| 0 <= k < |segs| && x in segs[k];
    }
  }

  /** The ETag middlewares are registered after the user's middlewares of the same phase. */
  lemma EtagAfterUserMiddlewares(s: BuilderState)
    requires s.cacheEtag
    ensures var t := EtagRegistered(s);
            && t.before[..|s.before|] == s.before && t.before[|s.before|] == EtagCheck && |t.before| == |s.before| + 1
            && t.after[..|s.after|] == s.after && t.after[|s.after|] == EtagStore && |t.after| == |s.after| + 1
  {
  }

  /** The CORS origins lose nothing of the configured domains: they join back to it, and none holds a comma. */
  lemma CorsOriginsFromDomains(s: BuilderState)
    requires HasCors(s)
    ensures CorsSegment(s)[0].origins == Split(s.corsDomains.value, ',')
    ensures Join(CorsSegment(s)[0].origins, ',') == s.corsDomains.value
    ensures forall i :: 0 <= i < |CorsSegment(s)[0].origins| ==> ',' !in CorsSegment(s)[0].origins[i]
  {
    SplitJoin(s.corsDomains.value, ',');
  }

  /** What the ETag pre-middleware does: answer 304 with the ETag header, or pass to the next handler. */
  datatype EtagCheckResult = NotModifiedResponse(status: int, etag: string) | CallNext

  /**
   * The ETag decision: 304 exactly when If-None-Match is present and non-empty and equals the
   * ETag stored for the URL (a URL with nothing stored never matches).
   */
  function EtagDecision(storage: map<string, string>, url: string, ifNoneMatch: Option<string>): (r: EtagCheckResult)
    ensures r.NotModifiedResponse? <==>
              ifNoneMatch.Some? && ifNoneMatch.value != "" && url in storage && storage[url] == ifNoneMatch.value
    ensures r.NotModifiedResponse? ==> r.status == NotModified && r.etag == ifNoneMatch.value
  {
    var cached := if url in storage then Some(storage[url]) else None;
    if ifNoneMatch.Some? && ifNoneMatch.value != "" && cached == ifNoneMatch then NotModifiedResponse(NotModified, ifNoneMatch.value)
    else CallNext
  }

  class HttpServer {
    const builder: HttpServerBuilder
    /** Registrations made so far, in order. */
    var stages: seq<Stage>
    /** The URL → ETag store. */
    var etagStorage: map<string, string>

    constructor(builder: HttpServerBuilder)
      ensures this.builder == builder && stages == [] && etagStorage == map[]
    {
      this.builder := builder;
      stages := [];
      etagStorage := map[];
    }

    /** The ETag pre-middleware for one request; it only reads the store. */
    method CheckEtag(request: RequestHead) returns (r: EtagCheckResult)
      ensures r == EtagDecision(etagStorage, request.url, Header(request, "if-none-match"))
    {
      var etag := Header(request, "if-none-match");
      var cachedEtag := if request.url in etagStorage then Some(etagStorage[request.url]) else None;
      if etag.Some? && etag.value != "" && cachedEtag == etag {
        r := NotModifiedResponse(NotModified, etag.value);
      } else {
        r := CallNext;
      }
    }

    /** The ETag post-middleware: stores the response's ETag for the URL when it has one; `next` always runs. */
    method StoreEtag(url: string, responseEtag: Option<string>)
      modifies this
      ensures responseEtag.Some? && responseEtag.value != "" ==> etagStorage == old(etagStorage)[url := responseEtag.value]
      ensures !(responseEtag.Some? && responseEtag.value != "") ==> etagStorage == old(etagStorage)
      ensures stages == old(stages)
    {
      if responseEtag.Some? && responseEtag.value != "" {
        etagStorage := etagStorage[url := responseEtag.value];
      }
    }

    /** Registers one segment after everything registered so far (done, since start). */
    method Register(ghost start: seq<Stage>, ghost done: seq<Stage>, segment: seq<Stage>)
      modifies this
      requires stages == start + done
      ensures stages == start + (done + segment) && etagStorage == old(etagStorage)
    {
      stages := stages + segment;
    }

    /** setupCacheEtag: with caching on, adds the check before and the store after the user's middlewares. */
    method SetupCacheEtag()
      modifies builder
      ensures builder.State() == EtagRegistered(old(builder.State()))
    {
      if builder.cacheEtag {
        var b := builder.WithCustomMiddleware(BeforeControllers, EtagCheck);
        b := b.WithCustomMiddleware(AfterControllers, EtagStore);
      }
    }

    /**
     * setup: registers the pipeline of the builder as setupCacheEtag leaves it, and leaves the
     * builder so.
     */
    method Setup()
      modifies this, builder
      ensures builder.State() == EtagRegistered(old(builder.State()))
      ensures stages == old(stages) + Pipeline(builder.State())
      ensures etagStorage == old(etagStorage)
    {
      ghost var start := stages;
      var s0 := builder.State();
      Register(start, [], CookieSegment(s0));
      Register(start, CookieSegment(s0), CorsSegment(s0));
      Register(start, CookieSegment(s0) + CorsSegment(s0), JsonSegment(s0));
      SetupCacheEtag();
      var s := builder.State();
      SetupDoesNotReadEtag(s0);
      ghost var segs := Segments(s);
      ghost var done := segs[0] + segs[1] + segs[2];
      Register(start, done, PhaseSegment(BeforeControllers, s.before));
      done := done + segs[3];
      Register(start, done, AuthenticatorSegment(s));
      done := done + segs[4];
      Register(start, done, SwaggerSegment(s));
      done := done + segs[5];
      Register(start, done, HateoasSegment(s));
      done := done + segs[6];
      Register(start, done, ControllersSegment(s));
      done := done + segs[7];
      Register(start, done, ErrorHandlerSegment(s));
      done := done + segs[8];
      Register(start, done, GraphqlSegment(s));
      done := done + segs[9];
      Register(start, done, PhaseSegment(AfterControllers, s.after));
      done := done + segs[10];
      Register(start, done, [TrustProxy]);
      done := done + segs[11];
      FlattenTwelve(segs);
    }
  }

  /** The first three segments do not depend on the phase lists, which setupCacheEtag alone changes. */
  lemma SetupDoesNotReadEtag(s: BuilderState)
    ensures CookieSegment(EtagRegistered(s)) == CookieSegment(s)
    ensures CorsSegment(EtagRegistered(s)) == CorsSegment(s)
    ensures JsonSegment(EtagRegistered(s)) == JsonSegment(s)
  {
  }

  lemma {:induction false} FlattenTwelve(segs: seq<seq<Stage>>)
    requires |segs| == 12
    ensures Flatten(segs) == segs[0] + segs[1] + segs[2] + segs[3] + segs[4] + segs[5] + segs[6] + segs[7]
                             + segs[8] + segs[9] + segs[10] + segs[11]
  {
    var f := segs;
    assert Flatten(f[11..]) == f[11] by {
      assert f[11..][1..] == [];
    }
    assert Flatten(f[10..]) == f[10] + Flatten(f[11..]) by { assert f[10..][1..] == f[11..]; }
    assert Flatten(f[9..]) == f[9] + Flatten(f[10..]) by { assert f[9..][1..] == f[10..]; }
    assert Flatten(f[8..]) == f[8] + Flatten(f[9..]) by { assert f[8..][1..] == f[9..]; }
    assert Flatten(f[7..]) == f[7] + Flatten(f[8..]) by { assert f[7..][1..] == f[8..]; }
    assert Flatten(f[6..]) == f[6] + Flatten(f[7..]) by { assert f[6..][1..] == f[7..]; }
    assert Flatten(f[5..]) == f[5] + Flatten(f[6..]) by { assert f[5..][1..] == f[6..]; }
    assert Flatten(f[4..]) == f[4] + Flatten(f[5..]) by { assert f[4..][1..] == f[5..]; }
    assert Flatten(f[3..]) == f[3] + Flatten(f[4..]) by { assert f[3..][1..] == f[4..]; }
    assert Flatten(f[2..]) == f[2] + Flatten(f[3..]) by { assert f[2..][1..] == f[3..]; }
    assert Flatten(f[1..]) == f[1] + Flatten(f[2..]) by { assert f[1..][1..] == f[2..]; }
    assert Flatten(f) == f[0] + Flatten(f[1..]);
  }

  /** Storing an ETag for a URL makes the next request for it with that If-None-Match a 304; other URLs are unaffected. */
  lemma EtagRoundTrip(storage: map<string, string>, url: string, etag: string, other: string, ifNoneMatch: Option<string>)
    requires etag != "" && other != url
    ensures EtagDecision(storage[url := etag], url, Some(etag)) == NotModifiedResponse(NotModified, etag)
    ensures EtagDecision(storage[url := etag], other, ifNoneMatch) == EtagDecision(storage, other, ifNoneMatch)
  {
  }
}
