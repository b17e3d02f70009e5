/**
 * The Express application of `server/index.js`: the middleware stack it
 * registers, the production HTTPS redirect, the public `/api/auth` mount, the
 * wildcard `/api/` gate and the global error handler; and how Express passes one
 * request down that stack.
 */
module Server {
  import opened Wrappers
  import opened Jwt
  import opened Http
  import Auth
  import Text

  /** The middleware `app.use` registers, by role. */
  datatype Layer =
    | Helmet        // helmet(): security headers
    | Cors          // cors({ origin, credentials })
    | HttpsRedirect // the production-only redirect
    | JsonBody      // express.json()
    | AuthRoutes    // app.use('/api/auth', authRoutes)
    | RequireToken  // app.use('/api/*', authenticateToken)
    | ErrorHandler  // the four-argument error handler

  const AuthMount := "/api/auth"
  const GatedPrefix := "/api/"
  const SomethingWentWrong := "Something went wrong!"
  const InternalServerError := 500

  /** `process.env.NODE_ENV === 'production'`. */
  predicate IsProduction(nodeEnv: Option<string>)
  {
    nodeEnv == Some("production")
  }

  /** The stack index.js builds, in registration order. */
  function Stack(production: bool): (stack: seq<Layer>)
    ensures |stack| == if production then 7 else 6
    ensures stack[..2] == [Helmet, Cors]
    ensures stack[|stack| - 4..] == [JsonBody, AuthRoutes, RequireToken, ErrorHandler]
    ensures HttpsRedirect in stack <==> production
    ensures production ==> stack[2] == HttpsRedirect
  {
    [Helmet, Cors] + (if production then [HttpsRedirect] else []) +
    [JsonBody, AuthRoutes, RequireToken, ErrorHandler]
  }

  /** The Express application object: a stack that `app.use` extends. */
  class App {
    var stack: seq<Layer>

    constructor ()
      ensures stack == []
    {
      stack := [];
    }

    /** `app.use(layer)`: appends to the stack. */
    method Use(layer: Layer)
      modifies this
      ensures stack == old(stack) + [layer]
    {
      stack := stack + [layer];
    }
  }

  /** The top-level statements of index.js that build the application. */
  method Configure(nodeEnv: Option<string>) returns (app: App)
    ensures fresh(app)
    ensures app.stack == Stack(IsProduction(nodeEnv))
  {
    app := new App();
    app.Use(Helmet);
    app.Use(Cors);
    if nodeEnv == Some("production") {
      app.Use(HttpsRedirect);
    }
    app.Use(JsonBody);
    app.Use(AuthRoutes);
    app.Use(RequireToken);
    app.Use(ErrorHandler);
  }

  /** Whether the redirect middleware sends a request elsewhere: `!req.secure && req.get('x-forwarded-proto') !== 'https'`. */
  function NeedsHttps(req: RequestHead): (redirect: bool)
    ensures req.secure ==> !redirect
    ensures req.Header("x-forwarded-proto") == Some("https") ==> !redirect
    ensures !req.secure && "x-forwarded-proto" !in req.headers ==> redirect
    ensures !req.secure && "x-forwarded-proto" in req.headers && req.headers["x-forwarded-proto"] != "https" ==> redirect
  {
    !req.secure && req.Header("x-forwarded-proto") != Some("https")
  }

  /** `req.get('host')` as string concatenation renders it: an absent header reads "undefined". */
  function HostText(req: RequestHead): string
  {
    match req.Header("host")
    case Some(host) => host
    case None => "undefined"
  }

  /** The redirect target `'https://' + req.get('host') + req.url`. */
  function HttpsLocation(req: RequestHead): (location: string)
    ensures Text.StartsWith(location, "https://")
    ensures location[8..] == HostText(req) + req.url
  {
    "https://" + HostText(req) + req.url
  }

  /**
   * The redirect middleware: a request that is neither secure nor forwarded as
   * https receives one redirect and goes no further; any other request is passed on.
   */
  method RedirectToHttps(req: Request, res: Response) returns (callsNext: bool)
    modifies res
    ensures callsNext <==> !NeedsHttps(req.head)
    ensures res.sent == if callsNext then old(res.sent)
                        else old(res.sent) + [RedirectReply(Found, HttpsLocation(req.head))]
  {
    if !req.head.secure && req.head.Header("x-forwarded-proto") != Some("https") {
      res.Redirect("https://" + HostText(req.head) + req.head.url);
      return false;
    }
    callsNext := true;
  }

  /** The global error handler: whatever the error, status 500 and the fixed message. */
  method HandleError(res: Response)
    modifies res
    ensures res.sent == old(res.sent) + [JsonReply(InternalServerError, SomethingWentWrong)]
  {
    res.Json(InternalServerError, SomethingWentWrong);
  }

  /**
   * Express mount-path matching (case-insensitive, not strict, not anchored at
   * the end): `'/api/auth'` matches that path and every path below it.
   */
  function UnderAuthMount(path: string): (matched: bool)
    // the mount matches at a segment boundary only: "/api/authx" is not under it
    ensures matched <==>
      |path| >= |AuthMount| && Text.Lower(path)[..|AuthMount|] == AuthMount &&
      (|path| == |AuthMount| || path[|AuthMount|] == '/')
  {
    var p := Text.Lower(path);
    p == AuthMount || Text.StartsWith(p, AuthMount + "/")
  }

  /** The wildcard mount `'/api/' + '*'` matches, case-insensitively, every path that starts with `/api/`. */
  function UnderApi(path: string): (matched: bool)
    ensures matched <==> |path| >= |GatedPrefix| && Text.Lower(path)[..|GatedPrefix|] == GatedPrefix
    // `/api` itself, without the slash, is not gated
    ensures |path| <= |GatedPrefix| - 1 ==> !matched
  {
    Text.StartsWith(Text.Lower(path), GatedPrefix)
  }

  /** Every path under the auth mount is also under `/api/`. */
  lemma AuthMountIsUnderApi(path: string)
    ensures UnderAuthMount(path) ==> UnderApi(path)
  {
  }

  /** What the auth routes (not part of this model) do with a request handed to them. */
  datatype RouterResult =
    | Answered(status: int) // a login or signup handler replied
    | PassedOn              // no route matched: the router calls next()
    | Raised                // a handler called next(err)

  /** The collaborators of one request: `jwt.verify`, the clock and the auth routes. */
  datatype Context = Context(
    verify: string -> VerifyResult,
    nowMs: nat,
    authRoutes: RequestHead -> RouterResult)

  /** What one middleware does with the request. */
  datatype Step =
    | Skipped                      // not applicable: the layer does not run
    | Next(user: Option<Claims>)   // next(), with req.user as it now stands
    | NextError                    // next(err)
    | MatchError                   // matching the layer's path threw: the error is pending and the layer does not run
    | Respond(reply: Reply)        // ends the request

  /**
   * One layer applied to a request. A pending error skips every layer but the
   * error handler, and the error handler runs only for a pending error; a
   * path-mounted layer runs only on paths it matches.
   */
  function Apply(layer: Layer, req: RequestHead, failed: bool, user: Option<Claims>, ctx: Context): (step: Step)
    // a pending error: only the error handler runs, and it answers 500
    ensures failed ==> step == (if layer == ErrorHandler then Respond(JsonReply(InternalServerError, SomethingWentWrong))
                                else Skipped)
    // without an error the error handler is skipped
    ensures !failed && layer == ErrorHandler ==> step == Skipped
    // only the body parser and the auth routes raise errors when they run
    ensures step.NextError? ==> layer == JsonBody || layer == AuthRoutes
    // the `/api/` wildcard mount throws while matching exactly when its captured part does not decode
    ensures step.MatchError? <==> layer == RequireToken && !failed && UnderApi(req.path) && !req.wildcardDecodes
    // helmet, cors and the body parser never answer
    ensures step.Respond? ==> layer in {HttpsRedirect, AuthRoutes, RequireToken, ErrorHandler}
    // only the gate writes req.user, and then with the payload it admitted
    ensures step.Next? && layer != RequireToken ==> step.user == user
    ensures step.Next? && layer == RequireToken ==>
      step.user.Some? && Auth.Gate(req.Header("authorization"), ctx.verify, ctx.nowMs) == Auth.Admit(step.user.value)
  {
    if layer == ErrorHandler then
      if failed then Respond(JsonReply(InternalServerError, SomethingWentWrong)) else Skipped
    else if failed then Skipped
    else match layer
      case Helmet => Next(user)
      case Cors => Next(user)
      case HttpsRedirect => RedirectStep(req, user)
      case JsonBody => if req.bodyParses then Next(user) else NextError
      case AuthRoutes => AuthRoutesStep(req, user, ctx)
      case RequireToken => GateStep(req, user, ctx)
  }

  /** The redirect middleware as a step: answer with the redirect, or pass on. */
  function RedirectStep(req: RequestHead, user: Option<Claims>): Step
  {
    if NeedsHttps(req) then Respond(RedirectReply(Found, HttpsLocation(req))) else Next(user)
  }

  /** The auth routes mounted at `/api/auth`, as a step. */
  function AuthRoutesStep(req: RequestHead, user: Option<Claims>, ctx: Context): Step
  {
    if !UnderAuthMount(req.path) then Skipped
    else match ctx.authRoutes(req)
      case Answered(status) => Respond(RouterReply(status))
      case PassedOn => Next(user)
      case Raised => NextError
  }

  /** `authenticateToken` mounted at every path under `/api/`, as a step. */
  function GateStep(req: RequestHead, user: Option<Claims>, ctx: Context): Step
  {
    if !UnderApi(req.path) then Skipped
    else if !req.wildcardDecodes then MatchError
    else match Auth.Gate(req.Header("authorization"), ctx.verify, ctx.nowMs)
      case Reject(status, message) => Respond(JsonReply(status, message))
      case Admit(claims) => Next(Some(claims))
  }

  /** The final reply, the layers that ran, in order, and `req.user` as it ended up. */
  datatype Served = Served(reply: Reply, trail: seq<Layer>, user: Option<Claims>)

  /** Express passing a request down `stack`, with `failed` telling whether an error is pending. */
  function Dispatch(stack: seq<Layer>, req: RequestHead, failed: bool, user: Option<Claims>, ctx: Context): (s: Served)
    // the trail is no longer than the stack (`DispatchInOrder` gives the order)
    ensures |s.trail| <= |stack|
    // req.user changes only if the gate ran
    ensures s.user != user ==> RequireToken in s.trail
    decreases |stack|
  {
    if stack == [] then Served(Unanswered(failed), [], user)
    else
      var layer := stack[0];
      match Apply(layer, req, failed, user, ctx)
      case Skipped => Dispatch(stack[1..], req, failed, user, ctx)
      case Next(user') =>
        var s := Dispatch(stack[1..], req, failed, user', ctx);
        s.(trail := [layer] + s.trail)
      case NextError =>
        var s := Dispatch(stack[1..], req, true, user, ctx);
        s.(trail := [layer] + s.trail)
      case MatchError => Dispatch(stack[1..], req, true, user, ctx)
      case Respond(reply) => Served(reply, [layer], user)
  }

  /** `a` is `b` with some elements left out: the order of `b` is kept and nothing is repeated. */
  predicate IsSubseq(a: seq<Layer>, b: seq<Layer>)
    decreases |b|
  {
    a == [] || (b != [] && ((a[0] == b[0] && IsSubseq(a[1..], b[1..])) || IsSubseq(a, b[1..])))
  }

  /**
   * The layers that run on a request are layers of the stack, each at most
   * once and in registration order.
   */
  lemma {:induction false} DispatchInOrder(
    stack: seq<Layer>, req: RequestHead, failed: bool, user: Option<Claims>, ctx: Context)
    ensures IsSubseq(Dispatch(stack, req, failed, user, ctx).trail, stack)
    decreases |stack|
  {
    if stack != [] {
      match Apply(stack[0], req, failed, user, ctx)
      case Skipped =>
        DispatchInOrder(stack[1..], req, failed, user, ctx);
      case Next(user') =>
        var t := Dispatch(stack[1..], req, failed, user', ctx).trail;
        DispatchInOrder(stack[1..], req, failed, user', ctx);
        assert ([stack[0]] + t)[1..] == t;
      case NextError =>
        var t := Dispatch(stack[1..], req, true, user, ctx).trail;
        DispatchInOrder(stack[1..], req, true, user, ctx);
        assert ([stack[0]] + t)[1..] == t;
      case MatchError =>
        DispatchInOrder(stack[1..], req, true, user, ctx);
      case Respond(reply) =>
        assert [stack[0]][1..] == [];
    }
  }

  /** A layer absent from `b` is absent from every subsequence of `b`. */
  lemma {:induction false} SubseqKeepsOut(a: seq<Layer>, b: seq<Layer>, layer: Layer)
    requires IsSubseq(a, b) && layer !in b
    ensures layer !in a
    decreases |b|
  {
    if a != [] {
      if a[0] == b[0] && IsSubseq(a[1..], b[1..]) {
        SubseqKeepsOut(a[1..], b[1..], layer);
        assert a == [a[0]] + a[1..];
      } else {
        SubseqKeepsOut(a, b[1..], layer);
      }
    }
  }

  /** In the configured application, middleware runs in the order index.js registers it. */
  lemma HandleInOrder(production: bool, req: RequestHead, ctx: Context)
    ensures IsSubseq(Handle(production, req, ctx).trail, Stack(production))
  {
    DispatchInOrder(Stack(production), req, false, None, ctx);
  }

  /** One request handled by the application index.js configures. */
  function Handle(production: bool, req: RequestHead, ctx: Context): (s: Served)
    // helmet runs first on every request
    ensures |s.trail| > 0 && s.trail[0] == Helmet
    // a request carries a user only if the gate admitted it
    ensures s.user.Some? ==> RequireToken in s.trail
  {
    Dispatch(Stack(production), req, false, None, ctx)
  }

  // The route layers from the body parser on, the same in every environment.
  const Routes: seq<Layer> := [JsonBody, AuthRoutes, RequireToken, ErrorHandler]

  /** `served` with `layers` recorded as having run before it. */
  function After(layers: seq<Layer>, served: Served): Served
  {
    served.(trail := layers + served.trail)
  }

  /** Unfolding one step of `Dispatch` when the first layer passes the request on. */
  lemma StepNext(stack: seq<Layer>, req: RequestHead, failed: bool, user: Option<Claims>, ctx: Context, user': Option<Claims>)
    requires stack != [] && Apply(stack[0], req, failed, user, ctx) == Next(user')
    ensures Dispatch(stack, req, failed, user, ctx) == After([stack[0]], Dispatch(stack[1..], req, failed, user', ctx))
  {
  }

  /** Unfolding one step of `Dispatch` when the first layer does not apply. */
  lemma StepSkipped(stack: seq<Layer>, req: RequestHead, failed: bool, user: Option<Claims>, ctx: Context)
    requires stack != [] && Apply(stack[0], req, failed, user, ctx) == Skipped
    ensures Dispatch(stack, req, failed, user, ctx) == Dispatch(stack[1..], req, failed, user, ctx)
  {
  }

  /** Unfolding one step of `Dispatch` when the first layer raises an error. */
  lemma StepError(stack: seq<Layer>, req: RequestHead, failed: bool, user: Option<Claims>, ctx: Context)
    requires stack != [] && Apply(stack[0], req, failed, user, ctx) == NextError
    ensures Dispatch(stack, req, failed, user, ctx) == After([stack[0]], Dispatch(stack[1..], req, true, user, ctx))
  {
  }

  /** Unfolding one step of `Dispatch` when matching the first layer's path throws. */
  lemma StepMatchError(stack: seq<Layer>, req: RequestHead, failed: bool, user: Option<Claims>, ctx: Context)
    requires stack != [] && Apply(stack[0], req, failed, user, ctx) == MatchError
    ensures Dispatch(stack, req, failed, user, ctx) == Dispatch(stack[1..], req, true, user, ctx)
  {
  }

  /** Unfolding one step of `Dispatch` when the first layer answers. */
  lemma StepRespond(stack: seq<Layer>, req: RequestHead, failed: bool, user: Option<Claims>, ctx: Context, reply: Reply)
    requires stack != [] && Apply(stack[0], req, failed, user, ctx) == Respond(reply)
    ensures Dispatch(stack, req, failed, user, ctx) == Served(reply, [stack[0]], user)
  {
  }

  /** Layers that each pass the request on unchanged run in turn, then the rest of the stack decides. */
  lemma {:induction false} PassThrough(
    prefix: seq<Layer>, rest: seq<Layer>, req: RequestHead, user: Option<Claims>, ctx: Context)
    requires forall i :: 0 <= i < |prefix| ==> Apply(prefix[i], req, false, user, ctx) == Next(user)
    ensures Dispatch(prefix + rest, req, false, user, ctx) == After(prefix, Dispatch(rest, req, false, user, ctx))
    decreases |prefix|
  {
    if prefix == [] {
      assert prefix + rest == rest;
    } else {
      assert (prefix + rest)[1..] == prefix[1..] + rest;
      StepNext(prefix + rest, req, false, user, ctx, user);
      PassThrough(prefix[1..], rest, req, user, ctx);
    }
  }

  /** The layers registered before the body parser. */
  function Front(production: bool): seq<Layer>
  {
    if production then [Helmet, Cors, HttpsRedirect] else [Helmet, Cors]
  }

  /**
   * A request the redirect lets through has run helmet, cors and (in
   * production) the redirect, and carries on down the route layers untouched.
   */
  lemma {:induction false} ThroughFront(production: bool, req: RequestHead, ctx: Context)
    requires !production || !NeedsHttps(req)
    ensures Handle(production, req, ctx).reply == Dispatch(Routes, req, false, None, ctx).reply
    ensures Handle(production, req, ctx).user == Dispatch(Routes, req, false, None, ctx).user
    ensures Handle(production, req, ctx).trail == Front(production) + Dispatch(Routes, req, false, None, ctx).trail
  {
    assert Stack(production) == Front(production) + Routes;
    PassThrough(Front(production), Routes, req, None, ctx);
  }

  /**
   * In production, a request that is neither secure nor forwarded as https is
   * redirected to its https address and reaches no later layer.
   */
  lemma {:induction false} ProductionRedirect(req: RequestHead, ctx: Context)
    requires NeedsHttps(req)
    ensures Handle(true, req, ctx) ==
      Served(RedirectReply(Found, HttpsLocation(req)), [Helmet, Cors, HttpsRedirect], None)
  {
    var stack := Stack(true);
    assert stack[1..][1..] == stack[2..];
    assert stack[2..][0] == HttpsRedirect;
  }

  /** A stack without the redirect layer never answers with a redirect. */
  lemma {:induction false} NoRedirectWithoutLayer(
    stack: seq<Layer>, req: RequestHead, failed: bool, user: Option<Claims>, ctx: Context)
    requires HttpsRedirect !in stack
    ensures !Dispatch(stack, req, failed, user, ctx).reply.RedirectReply?
    decreases |stack|
  {
    if stack != [] {
      assert stack[0] != HttpsRedirect;
      NoRedirectWithoutLayer(stack[1..], req, true, user, ctx);
      NoRedirectWithoutLayer(stack[1..], req, failed, user, ctx);
      match Apply(stack[0], req, failed, user, ctx)
      case Next(user') => NoRedirectWithoutLayer(stack[1..], req, failed, user', ctx);
      case _ =>
    }
  }

  /**
   * Outside production, or for a secure or https-forwarded request, the redirect
   * step only passes the request on: the outcome is the one a stack without it
   * gives, and it is never a redirect.
   */
  lemma {:induction false} RedirectPassesOn(production: bool, req: RequestHead, ctx: Context)
    requires !production || !NeedsHttps(req)
    ensures Handle(production, req, ctx).reply == Handle(false, req, ctx).reply
    ensures Handle(production, req, ctx).user == Handle(false, req, ctx).user
    ensures !Handle(production, req, ctx).reply.RedirectReply?
    ensures HttpsRedirect in Handle(production, req, ctx).trail <==> production
  {
    NoRedirectWithoutLayer(Routes, req, false, None, ctx);
    var rest := Dispatch(Routes, req, false, None, ctx);
    assert HttpsRedirect !in rest.trail by {
      DispatchInOrder(Routes, req, false, None, ctx);
      SubseqKeepsOut(rest.trail, Routes, HttpsRedirect);
    }
    ThroughFront(production, req, ctx);
    ThroughFront(false, req, ctx);
  }

  /**
   * A request under `/api/auth` that reaches the auth routes and is answered by
   * them gets that answer without the gate ever running, whatever its
   * `authorization` header holds.
   */
  lemma {:induction false} AuthRoutesArePublic(production: bool, req: RequestHead, ctx: Context, status: int)
    requires !production || !NeedsHttps(req)
    requires req.bodyParses && UnderAuthMount(req.path)
    requires ctx.authRoutes(req) == Answered(status)
    ensures Handle(production, req, ctx).reply == RouterReply(status)
    ensures RequireToken !in Handle(production, req, ctx).trail
  {
    StepNext(Routes, req, false, None, ctx, None);
    assert Routes[1..] == [AuthRoutes, RequireToken, ErrorHandler];
    StepRespond(Routes[1..], req, false, None, ctx, RouterReply(status));
    ThroughFront(production, req, ctx);
  }

  /**
   * Every other request under `/api/` (including an `/api/auth` path the auth
   * routes pass on) is decided by the gate: the gate is the last layer to run,
   * a rejection is sent as the gate's status and message, and an admitted
   * request carries the decoded payload but finds no handler after it.
   */
  lemma {:induction false} ApiIsGated(production: bool, req: RequestHead, ctx: Context)
    requires !production || !NeedsHttps(req)
    requires req.bodyParses && UnderApi(req.path) && req.wildcardDecodes
    requires UnderAuthMount(req.path) ==> ctx.authRoutes(req) == PassedOn
    ensures var s := Handle(production, req, ctx);
      |s.trail| > 0 && s.trail[|s.trail| - 1] == RequireToken &&
      match Auth.Gate(req.Header("authorization"), ctx.verify, ctx.nowMs)
      case Reject(status, message) => s.reply == JsonReply(status, message) && s.user == None
      case Admit(claims) => s.reply == Unanswered(false) && s.user == Some(claims)
  {
    StepNext(Routes, req, false, None, ctx, None);
    var afterJson := [AuthRoutes, RequireToken, ErrorHandler];
    assert Routes[1..] == afterJson;
    if UnderAuthMount(req.path) {
      StepNext(afterJson, req, false, None, ctx, None);
    } else {
      StepSkipped(afterJson, req, false, None, ctx);
    }
    var gated := [RequireToken, ErrorHandler];
    assert afterJson[1..] == gated && gated[1..] == [ErrorHandler];
    match Auth.Gate(req.Header("authorization"), ctx.verify, ctx.nowMs) {
    case Reject(status, message) =>
      StepRespond(gated, req, false, None, ctx, JsonReply(status, message));
    case Admit(claims) =>
      StepNext(gated, req, false, None, ctx, Some(claims));
      StepSkipped([ErrorHandler], req, false, Some(claims), ctx);
      assert [ErrorHandler][1..] == [];
    }
    ThroughFront(production, req, ctx);
  }

  /**
   * An `/api/` path whose wildcard part does not percent-decode (such as
   * `/api/%zz`) and that the auth routes do not answer makes the `/api/` mount
   * throw while matching: the gate does not run and the error handler answers 500.
   */
  lemma {:induction false} UndecodableApiPathIsServerError(production: bool, req: RequestHead, ctx: Context)
    requires !production || !NeedsHttps(req)
    requires req.bodyParses && UnderApi(req.path) && !req.wildcardDecodes
    requires UnderAuthMount(req.path) ==> ctx.authRoutes(req) == PassedOn
    ensures Handle(production, req, ctx).reply == JsonReply(InternalServerError, SomethingWentWrong)
    ensures RequireToken !in Handle(production, req, ctx).trail
  {
    var routed := Dispatch(Routes, req, false, None, ctx);
    assert routed.reply == JsonReply(InternalServerError, SomethingWentWrong) && RequireToken !in routed.trail by {
      StepNext(Routes, req, false, None, ctx, None);
      var afterJson := [AuthRoutes, RequireToken, ErrorHandler];
      assert Routes[1..] == afterJson;
      if UnderAuthMount(req.path) {
        StepNext(afterJson, req, false, None, ctx, None);
      } else {
        StepSkipped(afterJson, req, false, None, ctx);
      }
      var gated := [RequireToken, ErrorHandler];
      assert afterJson[1..] == gated && gated[1..] == [ErrorHandler];
      StepMatchError(gated, req, false, None, ctx);
      PendingErrorReachesHandler([ErrorHandler], req, None, ctx);
    }
    ThroughFront(production, req, ctx);
  }

  /**
   * A path outside `/api/` never reaches the gate: the outcome does not depend
   * on `jwt.verify` or the clock in any way.
   */
  lemma {:induction false} GateOnlyUnderApi(
    stack: seq<Layer>, req: RequestHead, failed: bool, user: Option<Claims>, ctx: Context,
    verify: string -> VerifyResult, nowMs: nat)
    requires !UnderApi(req.path)
    ensures RequireToken !in Dispatch(stack, req, failed, user, ctx).trail
    ensures Dispatch(stack, req, failed, user, ctx) ==
            Dispatch(stack, req, failed, user, ctx.(verify := verify, nowMs := nowMs))
    decreases |stack|
  {
    if stack != [] {
      AuthMountIsUnderApi(req.path);
      var ctx' := ctx.(verify := verify, nowMs := nowMs);
      assert Apply(stack[0], req, failed, user, ctx) == Apply(stack[0], req, failed, user, ctx');
      GateOnlyUnderApi(stack[1..], req, true, user, ctx, verify, nowMs);
      GateOnlyUnderApi(stack[1..], req, failed, user, ctx, verify, nowMs);
      match Apply(stack[0], req, failed, user, ctx)
      case Next(user') => GateOnlyUnderApi(stack[1..], req, failed, user', ctx, verify, nowMs);
      case _ =>
    }
  }

  /** The configured application leaves every path outside `/api/` ungated. */
  lemma {:induction false} OutsideApiIsOpen(
    production: bool, req: RequestHead, ctx: Context, verify: string -> VerifyResult, nowMs: nat)
    requires !UnderApi(req.path)
    ensures RequireToken !in Handle(production, req, ctx).trail
    ensures Handle(production, req, ctx) == Handle(production, req, ctx.(verify := verify, nowMs := nowMs))
  {
    GateOnlyUnderApi(Stack(production), req, false, None, ctx, verify, nowMs);
  }

  /** A pending error skips every layer up to the first error handler, which answers 500. */
  lemma {:induction false} PendingErrorReachesHandler(stack: seq<Layer>, req: RequestHead, user: Option<Claims>, ctx: Context)
    requires ErrorHandler in stack
    ensures Dispatch(stack, req, true, user, ctx) ==
            Served(JsonReply(InternalServerError, SomethingWentWrong), [ErrorHandler], user)
    decreases |stack|
  {
    if stack[0] != ErrorHandler {
      assert ErrorHandler in stack[1..];
      PendingErrorReachesHandler(stack[1..], req, user, ctx);
    }
  }

  /**
   * A body `express.json()` refuses becomes an error that skips the auth routes
   * and the gate and reaches the global handler: 500 "Something went wrong!".
   */
  lemma {:induction false} BadBodyIsServerError(production: bool, req: RequestHead, ctx: Context)
    requires !production || !NeedsHttps(req)
    requires !req.bodyParses
    ensures Handle(production, req, ctx).reply == JsonReply(InternalServerError, SomethingWentWrong)
    ensures RequireToken !in Handle(production, req, ctx).trail
  {
    var routed := Dispatch(Routes, req, false, None, ctx);
    assert routed.reply == JsonReply(InternalServerError, SomethingWentWrong) && RequireToken !in routed.trail by {
      StepError(Routes, req, false, None, ctx);
      var afterJson := [AuthRoutes, RequireToken, ErrorHandler];
      assert Routes[1..] == afterJson;
      PendingErrorReachesHandler(afterJson, req, None, ctx);
    }
    ThroughFront(production, req, ctx);
  }

  /** An error raised by the auth routes also ends at the global handler. */
  lemma {:induction false} AuthRouteErrorIsServerError(production: bool, req: RequestHead, ctx: Context)
    requires !production || !NeedsHttps(req)
    requires req.bodyParses && UnderAuthMount(req.path) && ctx.authRoutes(req) == Raised
    ensures Handle(production, req, ctx).reply == JsonReply(InternalServerError, SomethingWentWrong)
    ensures RequireToken !in Handle(production, req, ctx).trail
  {
    var routed := Dispatch(Routes, req, false, None, ctx);
    assert routed.reply == JsonReply(InternalServerError, SomethingWentWrong) && RequireToken !in routed.trail by {
      StepNext(Routes, req, false, None, ctx, None);
      var afterJson := [AuthRoutes, RequireToken, ErrorHandler];
      assert Routes[1..] == afterJson;
      StepError(afterJson, req, false, None, ctx);
      var gated := [RequireToken, ErrorHandler];
      assert afterJson[1..] == gated;
      PendingErrorReachesHandler(gated, req, None, ctx);
    }
    ThroughFront(production, req, ctx);
  }

  /**
   * Where a JSON reply comes from: either the error handler, with 500 and its
   * fixed message, or the gate, with the status and message the gate decided
   * (never 500). The responding layer is the last one to have run.
   */
  lemma {:induction false} JsonReplyOrigin(
    stack: seq<Layer>, req: RequestHead, failed: bool, user: Option<Claims>, ctx: Context)
    requires Dispatch(stack, req, failed, user, ctx).reply.JsonReply?
    ensures var s := Dispatch(stack, req, failed, user, ctx);
      |s.trail| > 0 &&
      ((s.trail[|s.trail| - 1] == ErrorHandler && s.reply == JsonReply(InternalServerError, SomethingWentWrong)) ||
       (s.trail[|s.trail| - 1] == RequireToken &&
        Auth.Gate(req.Header("authorization"), ctx.verify, ctx.nowMs) == Auth.Reject(s.reply.status, s.reply.message) &&
        s.reply.status in {Auth.Unauthorized, Auth.Forbidden}))
    decreases |stack|
  {
    var s := Dispatch(stack, req, failed, user, ctx);
    match Apply(stack[0], req, failed, user, ctx)
    case Skipped => JsonReplyOrigin(stack[1..], req, failed, user, ctx);
    case Next(user') =>
      JsonReplyOrigin(stack[1..], req, failed, user', ctx);
      var t := Dispatch(stack[1..], req, failed, user', ctx);
      assert s.trail[|s.trail| - 1] == t.trail[|t.trail| - 1];
    case NextError =>
      JsonReplyOrigin(stack[1..], req, true, user, ctx);
      var t := Dispatch(stack[1..], req, true, user, ctx);
      assert s.trail[|s.trail| - 1] == t.trail[|t.trail| - 1];
    case MatchError => JsonReplyOrigin(stack[1..], req, true, user, ctx);
    case Respond(reply) =>
  }

  /**
   * A stack that ends with the error handler never leaves a pending error to
   * Express's final handler.
   */
  lemma {:induction false} ErrorsNeverEscape(
    stack: seq<Layer>, req: RequestHead, failed: bool, user: Option<Claims>, ctx: Context)
    requires |stack| > 0 && stack[|stack| - 1] == ErrorHandler
    ensures Dispatch(stack, req, failed, user, ctx).reply != Unanswered(true)
    decreases |stack|
  {
    if |stack| > 1 {
      assert stack[1..][|stack[1..]| - 1] == ErrorHandler;
      ErrorsNeverEscape(stack[1..], req, true, user, ctx);
      ErrorsNeverEscape(stack[1..], req, failed, user, ctx);
      match Apply(stack[0], req, failed, user, ctx)
      case Next(user') => ErrorsNeverEscape(stack[1..], req, failed, user', ctx);
      case _ =>
    }
  }

  /**
   * Every JSON reply of the configured application: a JSON 500 comes only from
   * the error handler with its fixed message, any other JSON reply only from the
   * gate, and no error is ever left to Express's final handler. The auth routes'
   * own replies are not JSON replies of this model and may carry any status.
   */
  lemma {:induction false} ReplyOrigins(production: bool, req: RequestHead, ctx: Context)
    ensures var s := Handle(production, req, ctx);
      s.reply != Unanswered(true) &&
      (s.reply.JsonReply? && s.reply.status == InternalServerError ==>
         s.reply.message == SomethingWentWrong && s.trail[|s.trail| - 1] == ErrorHandler) &&
      (s.reply.JsonReply? && s.reply.status != InternalServerError ==>
         s.trail[|s.trail| - 1] == RequireToken &&
         Auth.Gate(req.Header("authorization"), ctx.verify, ctx.nowMs) == Auth.Reject(s.reply.status, s.reply.message))
  {
    ErrorsNeverEscape(Stack(production), req, false, None, ctx);
    if Handle(production, req, ctx).reply.JsonReply? {
      JsonReplyOrigin(Stack(production), req, false, None, ctx);
    }
  }
}
