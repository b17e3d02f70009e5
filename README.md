# Request gate and route policy of the Express API server

This project models, in Dafny, the part of the server that decides whether a request may reach
the API:

- `authenticateToken` (`server/middleware/auth.js`). It takes the second space-separated word of
  the `authorization` header as a JSON Web Token and asks `jwt.verify` about it. It then answers
  401 "Authentication required", 403 "Invalid token" or 401 "Token has expired. Please login again",
  or it admits the request with `req.user` set to the decoded payload.
- `generateToken`, which signs `{ userId }` with a 24-hour expiry.
- The application stack of `server/index.js`: helmet, cors, the production-only HTTPS redirect,
  the JSON body parser, the public `/api/auth` routes, the gate on every path under `/api/`, and
  the global error handler that answers 500 "Something went wrong!".

Modules, one per concern:

- `Wrappers`: an `Option` type, standing for a JavaScript value that may be `undefined`.
- `Text`: JavaScript's `split` with a one-character separator, together with `join`, a prefix
  test and ASCII lower-casing.
- `Jwt`: the boundary with the `jsonwebtoken` library. `jwt.verify` is an oracle
  `string -> VerifyResult` that returns a decoded payload or throws a named error.
  `jwt.sign` is an oracle `Claims -> string`. `Stamp` gives the payload that `sign` writes:
  `iat` is the current second and `exp` is `iat` plus the lifetime.
- `Http`: the request head as a value; a `Request` object whose `user` field the gate writes; a
  `Response` object that records every reply sent, in order.
- `Auth`: `auth.js`. `Gate` is the specification of the decision. `AuthenticateToken` is the
  imperative middleware, proved to do exactly what `Gate` decides.
- `Server`: `index.js`. The `App` object and `Configure` build the stack with `app.use`.
  `Dispatch` models how Express passes one request down that stack:
  - a pending error skips every layer except the error handler;
  - a mounted layer runs only on the paths it matches.

  `Handle` is one request through the configured application.

The clock (`Date.now()`) is a parameter in milliseconds. The auth routes of `routes/auth.js` are an
oracle that answers, passes the request on, or raises an error. `routes/auth.js` is not part of
this model.

Behaviour the model keeps:

- The first word of the header is never checked: `"Foo abc"` yields the token `"abc"`. A second
  space ends the token.
- `decoded.exp && decoded.exp < now` is a JavaScript truthiness test. An `exp` of 0 therefore skips
  the explicit check, and so does a missing `exp`. The comparison is strict, so a payload that
  expires in the current second is admitted.
- Both expiry paths give the same reply. One is the library's `TokenExpiredError`; the other is the
  explicit check. Every other error name gives 403, including the library's `NotBeforeError`.
- Route matching follows Express 4 mount paths and is case-insensitive.
  - `/api/auth` matches that path and every path below it.
  - `/api/*` matches every path that starts with `/api/`. While matching, Express percent-decodes
    the part the `*` captures. A malformed escape such as `/api/%zz` makes the match throw a 400
    error, so the gate does not run and the error handler answers 500.
  - An `/api/auth/...` request that the auth routes pass on falls through to the gate.
- Nothing in `index.js` handles a request after the gate admits it. Such a request ends at
  Express's own final handler (404), carrying `req.user`.
- A body that `express.json()` refuses causes `next(err)`. The error skips the auth routes and the
  gate, so the error handler answers 500.
- The redirect target is `'https://' + req.get('host') + req.url`. A missing `host` header reads
  as `"undefined"` in that concatenation.

Three further points where the code is narrower or different than a reader may expect:

- The code does not check the `Bearer` scheme. It splits the header on a single space, not on
  whitespace in general.
- The code has no startup check that the signing secret is set, and the model adds none.
- The two expiry checks are not equivalent. The library refuses a payload whose `exp` equals the
  current second, while the explicit check admits it (`ExplicitCheckBoundary`). When the library
  checks expiry on the same clock, the explicit check never fires (`ExplicitCheckRedundant`).

## Model

| member | source | states |
|---|---|---|
| `Text.Split` | project/server/middleware/auth.js:5 | `split(' ')` returns at least one piece and no piece contains the separator; there is exactly one piece iff the string has no separator |
| `Text.JoinSplit` | project/server/middleware/auth.js:5 | joining the pieces of a split with the separator gives back the original string |
| `Text.SplitJoin` | project/server/middleware/auth.js:5 | splitting the join of separator-free pieces gives back exactly those pieces |
| `Text.SecondPiece` | project/server/middleware/auth.js:5 | in `first + sep + second + rest`, where `rest` is empty or starts with the separator, piece number 1 is `second` |
| `Auth.BearerToken` | project/server/middleware/auth.js:4-7 | the token found, if any, is non-empty and contains no space |
| `Auth.SecondWordIsToken` | project/server/middleware/auth.js:5 | a header that is any space-free first word, a space, a non-empty space-free word, then nothing or a further space yields that second word as the token; the first word need not be "Bearer" |
| `Auth.TokenIsSecondWord` | project/server/middleware/auth.js:5-7 | conversely, every token found is a non-empty second word in exactly that layout |
| `Auth.Gate` | project/server/middleware/auth.js:3-33 | every rejection is 401 "Authentication required", 401 "Token has expired. Please login again" or 403 "Invalid token"; the first happens iff no token is found; 403 happens iff verify throws an error named other than `TokenExpiredError`; the expiry reply happens iff verify throws `TokenExpiredError` or decodes a payload whose truthy `exp` is strictly below the current second; admission happens iff verify decodes and that check passes, and the admitted user is the decoded payload unchanged |
| `Auth.AuthenticateToken` | project/server/middleware/auth.js:3-33 | on admission: sets `req.user` to the decoded payload, sends nothing and calls `next`; on rejection: sends exactly one JSON reply with the status and message `Gate` decides, leaves `req.user` alone and does not call `next` |
| `Auth.ExplicitlyExpired` | project/server/middleware/auth.js:15-16 | a payload without `exp`, with `exp` 0, or with `exp` at or after the current second is not expired; any other `exp` strictly below the current second is |
| `Auth.GenerateToken` | project/server/middleware/auth.js:36-42 | the token is what `jwt.sign` returns for the payload `{ userId }` stamped with `iat` = the current second and `exp` = `iat` + 86400 |
| `Auth.TokenPayload` | project/server/middleware/auth.js:36-41 | the signed payload carries `userId` as its only user claim; `iat` is the current second and `exp` is exactly 86400 s after `iat` |
| `Auth.IssueThenAuthenticate` | project/server/middleware/auth.js:36-41 | a token from `generateToken`, presented as `"Bearer " + token` while verify decodes it and before its expiry second has passed, is admitted with the signed payload and the same `userId` |
| `Auth.IssuedTokenExpires` | project/server/middleware/auth.js:14-29 | after its expiry second, the same token is refused with 401 and the expiry message, whether the library throws `TokenExpiredError` or hands the payload to the explicit check |
| `Auth.DayLongToken` | project/server/middleware/auth.js:36-41 | a token issued at T for "user-42" is admitted at T+23h while `jwt.verify` decodes it, and refused as expired at T+25h whether `jwt.verify` then still decodes it or throws `TokenExpiredError` |
| `Auth.ExplicitCheckRedundant` | project/server/middleware/auth.js:14-20 | when verify applies the library's own expiry rule on the same clock, every payload it decodes is admitted: the explicit check never fires |
| `Auth.ExplicitCheckBoundary` | project/server/middleware/auth.js:16 | a decoded payload whose `exp` equals the current second, is 0 or is absent is admitted |
| `Auth.RejectedTokenIsInvalid` | project/server/middleware/auth.js:25-31 | a token `jwt.verify` rejects as forged or malformed (`JsonWebTokenError`) or as not yet valid (`NotBeforeError`) gets 403 "Invalid token", not the expiry reply |
| `Auth.GateDeterminedByToken` | project/server/middleware/auth.js:3-33 | the decision depends only on the extracted token, verify's answer for that token and the current second, so presenting the same token again gives the same decision |
| `Server.Stack` | project/server/index.js:14-39 | registration order is helmet, cors, then the HTTPS redirect (present iff production), then json, auth routes, gate and error handler as the last four |
| `Server.Configure` | project/server/index.js:10-39 | the top-level `app.use` calls build, in a fresh application, exactly the stack for the given `NODE_ENV` |
| `Server.NeedsHttps` | project/server/index.js:23 | a secure request, or one whose `x-forwarded-proto` is `https`, is not redirected; an insecure request whose `x-forwarded-proto` is absent or anything else is |
| `Server.HttpsLocation` | project/server/index.js:24 | the redirect target starts with `https://` and continues with the host text and then `req.url` |
| `Server.RedirectToHttps` | project/server/index.js:22-27 | a request that is not secure and whose `x-forwarded-proto` is not `https` gets exactly one 302 redirect and `next` is not called; any other request only calls `next` |
| `Server.HandleError` | project/server/index.js:39-42 | the error handler sends exactly one reply: 500 with "Something went wrong!" |
| `Server.UnderAuthMount` | project/server/index.js:33 | a path is under the `/api/auth` mount iff its lower-cased form starts with `/api/auth` and ends there or continues with `/`; `/api/authx` is not under it |
| `Server.UnderApi` | project/server/index.js:36 | a path is under `/api/*` iff its lower-cased form starts with `/api/`; `/api` itself is not |
| `Server.AuthMountIsUnderApi` | project/server/index.js:33-36 | every path the `/api/auth` mount matches is also matched by `/api/*` |
| `Server.Apply` | project/server/index.js:14-42 | one layer on one request: with an error pending only the error handler runs, and it answers 500; without one the error handler is skipped; only the body parser and the auth routes raise errors when they run; the `/api/*` mount throws while matching, without running the gate, exactly when its captured part does not percent-decode; helmet, cors and the body parser never answer; only the gate sets `req.user`, and only to the payload it admitted |
| `Server.Dispatch` | project/server/index.js:14-42 | Express passing a request down a stack: the trail of layers run is no longer than the stack, and `req.user` ends up changed only if the gate ran |
| `Server.DispatchInOrder` | project/server/index.js:14-42 | on any stack, the layers that run form an in-order subsequence of the stack: each runs at most once, and in registration order |
| `Server.HandleInOrder` | project/server/index.js:14-39 | in the configured application, the middleware that runs on any request is a subsequence of `Stack(production)`, in the order `app.use` registered it |
| `Server.Handle` | project/server/index.js:14-42 | in the configured application helmet runs first on every request, and a request carries a user only if the gate ran |
| `Server.PassThrough` | project/server/index.js:14-30 | layers that each pass the request on run in order, and the rest of the stack then decides |
| `Server.ThroughFront` | project/server/index.js:14-30 | a request the redirect lets through has the same reply and `req.user` as the route layers alone give it; its trail is helmet, cors and (in production) the redirect, followed by theirs |
| `Server.ProductionRedirect` | project/server/index.js:21-25 | in production, a request that is neither secure nor forwarded as https is answered with a 302 to its https address, and only helmet, cors and the redirect run |
| `Server.NoRedirectWithoutLayer` | project/server/index.js:21-28 | a stack without the redirect layer never answers with a redirect |
| `Server.RedirectPassesOn` | project/server/index.js:21-27 | outside production, or for a secure or https-forwarded request, the reply and `req.user` are those of the non-production stack; the reply is never a redirect; the redirect layer appears in the trail iff in production |
| `Server.AuthRoutesArePublic` | project/server/index.js:33 | a request under `/api/auth` that the auth routes answer gets their answer, and the gate never runs, whatever its `authorization` header |
| `Server.ApiIsGated` | project/server/index.js:33-36 | any other request under `/api/` whose wildcard part percent-decodes (an `/api/auth` path passed on included) has the gate as the last layer to run; a rejection is sent with the gate's status and message; an admission attaches the decoded payload and reaches no later handler |
| `Server.UndecodableApiPathIsServerError` | project/server/index.js:36-42 | an `/api/` request whose wildcard part does not percent-decode, and that the auth routes do not answer, gets 500 "Something went wrong!" and the gate does not run |
| `Server.GateOnlyUnderApi` | project/server/index.js:36 | on a path outside `/api/` the gate never runs on any stack, and the outcome is the same for every verify oracle and clock |
| `Server.OutsideApiIsOpen` | project/server/index.js:36 | in the configured application, a path outside `/api/` is never gated and its outcome depends on neither verify nor the clock |
| `Server.PendingErrorReachesHandler` | project/server/index.js:39-42 | a pending error skips every layer up to the first error handler, which alone answers 500 "Something went wrong!" |
| `Server.BadBodyIsServerError` | project/server/index.js:30-42 | a body `express.json()` refuses gives 500 "Something went wrong!", and the gate does not run |
| `Server.AuthRouteErrorIsServerError` | project/server/index.js:33-42 | an error raised by the auth routes gives 500 "Something went wrong!", and the gate does not run |
| `Server.JsonReplyOrigin` | project/server/index.js:36-42 | on any stack, a JSON reply comes from the last layer to run. Either that layer is the error handler and the reply is 500 with its fixed message, or it is the gate and the reply is the gate's rejection (401 or 403) |
| `Server.ErrorsNeverEscape` | project/server/index.js:39-42 | a stack ending with the error handler never leaves a pending error to Express's final handler |
| `Server.ReplyOrigins` | project/server/index.js:14-42 | in the configured application, no error escapes; every JSON reply with status 500 comes from the error handler with its fixed message; every other JSON reply is the gate's rejection. Replies the auth routes send themselves (`RouterReply`, any status, 500 included) and redirects are not JSON replies and are outside this statement |

## Left out

- The cryptography of `jsonwebtoken` (HMAC signing, base64url decoding, the shared secret). `verify` and `sign` are oracles. `IssueThenAuthenticate` assumes that the signed token has no space, is non-empty, and decodes to its own payload.
- Loading `.env` and `process.env`: `PORT`, `FRONTEND_URL` and `JWT_SECRET` are not modelled. `NODE_ENV` is a parameter of `Configure`. The code never checks at startup that the secret is present, so the model does not either.
- `helmet()` and `cors(...)` are modelled as layers that always pass the request on. Their headers, and the answer cors gives a preflight `OPTIONS` request by itself, are library behaviour outside the core.
- `routes/auth.js` is not part of this model. Its handlers are an oracle over the request.
- `app.listen`, `console.error` and the network: these are I/O.
- `Date.now()` is one millisecond reading, used by both `jwt.verify` (through the oracle) and the gate's explicit check. A clock that moves between the two readings is not modelled.
- Payloads are modelled as `{ userId, iat, exp }`, with `exp` an integer. The model does not cover a string payload, a fractional `exp`, or claims other than these three.
- Case-insensitive route matching folds only ASCII letters. The URL path is given already separated from its query string. Whether the part that `/api/*` captures percent-decodes is a field of the request (`wildcardDecodes`), not computed from the path.
- Express's final handler is modelled only as `Unanswered`: whether an error is pending, and no page body.
- `Server.Dispatch` gives the status of replies only as the gate, the error handler, the redirect and the auth routes decide them. The 400 status that `express.json()` and the failed decode attach to their errors is dropped, because the error handler ignores it.
