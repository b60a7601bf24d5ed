# Request authentication and role gate, in Dafny

This project models the authentication middleware of the Fleetiva Roadlines
backend (`backend/middleware/combinedAuth.js`) and proves what it does.

- `authenticate` takes a candidate token from the `Authorization` header or the
  `token` query parameter. It tries local JWT verification first. When that
  fails, it falls through to the identity-provider (Firebase) path. That path
  reads only a `"Bearer "` header, verifies the ID token, and looks up a user
  by provider uid or email. It ends either with `next()` and `req.user` set, or
  with the single reply 401 "Authentication failed".
- `authorize(roles)` admits a request only when `req.user` is present and its
  role is in `roles`. Every other request gets 403 "Unauthorized Role".

The files:

- `wrappers.dfy`: `Option` (JavaScript `undefined`) and `Result` (a call that
  may throw).
- `js_string.dfy`: `startsWith`, `indexOf`, `split(sep)` and `split(sep)[1]`
  for a non-empty separator, following the ECMAScript algorithm over Dafny
  strings. Proved here: split
  round-trips through `join`, no field contains the separator, and
  `split(sep)[1]` is the text after the first occurrence up to the next
  occurrence at or after its end, or the end of the string.
- `combined_auth.dfy`: the resolver and the gate.
  - `Resolve` is a pure function returning the outcome together with the
    ordered trace of external calls. The lemmas about it are stated over that
    trace.
  - `Authenticate` is the middleware as an imperative method over `Request`
    and `Response` objects. It reassigns the local token, writes `req.user`
    and returns early. It is proved equal to `Resolve`.
  - `Authorize` is the gate decision and `AuthorizeRequest` is the middleware
    that applies it. `ProtectedRoute` chains the two.

The three external capabilities are oracle parameters:
- `jwt.verify` with the configured secret is `JwtVerifier`.
- `verifyIdToken` is `IdTokenVerifier`.
- `User.findOne` is `UserFinder`.

Behaviour of the code worth noting:
- The header token is the second space-separated field of any header. The
  scheme word is not checked, so `"Basic abc"` yields `abc`.
- The query token is used whenever that field is missing or empty, not only
  when the header is absent.
- With an empty role list, the gate denies everyone.

## Model

| member | source | states |
|---|---|---|
| `JsString.StartsWith` | backend/middleware/combinedAuth.js:28 | `startsWith(prefix)` holds exactly when `prefix` occurs at index 0 |
| `JsString.IndexOf` | backend/middleware/combinedAuth.js:9 | a found index is an occurrence of the separator |
| `JsString.IndexOfSpec` | backend/middleware/combinedAuth.js:9 | the found occurrence is the leftmost one; none is found exactly when the separator does not occur |
| `JsString.Split` | backend/middleware/combinedAuth.js:9 | `split` always yields at least one field |
| `JsString.SplitJoin` | backend/middleware/combinedAuth.js:9 | joining the fields of `split(sep)` with `sep` gives back the input |
| `JsString.SplitFieldsFree` | backend/middleware/combinedAuth.js:9 | no field of `split(sep)` contains `sep` |
| `JsString.SecondField` | backend/middleware/combinedAuth.js:9 | `split(sep)[1]` is defined exactly when `indexOf(sep)` finds an occurrence; its shape is stated by `JsString.SecondFieldAfter` |
| `JsString.SecondFieldDefined` | backend/middleware/combinedAuth.js:9 | `split(sep)[1]` is defined exactly when `sep` occurs |
| `JsString.SecondFieldAfter` | backend/middleware/combinedAuth.js:29 | `split(sep)[1]` is the text after the first occurrence up to the next one or the end: no occurrence starts inside it, so it is determined even for a separator that overlaps itself |
| `CombinedAuth.HeaderToken` | backend/middleware/combinedAuth.js:8-9 | no header gives no token; a non-empty header gives a token iff it has a space, and the token has no space; its value is the second space-separated field, stated by `CombinedAuth.SchemeNotChecked` for every header that contains a space; the empty header gives the empty (falsy) token |
| `CombinedAuth.SpaceFieldSpec` | backend/middleware/combinedAuth.js:9 | `split(' ')[1]` is defined exactly when the header has a space, and contains no space |
| `CombinedAuth.CandidateToken` | backend/middleware/combinedAuth.js:8-14 | a non-empty header field always wins; the query token is used only when that field is missing or empty; a usable token exists iff one of the two is non-empty |
| `CombinedAuth.SchemeNotChecked` | backend/middleware/combinedAuth.js:9 | `"<word> <token>"`, followed by nothing or by text starting with a space, yields `<token>` whatever the scheme word; `<token>` may be empty |
| `CombinedAuth.BasicHeaderYieldsToken` | backend/middleware/combinedAuth.js:9 | the header `"Basic abc"` yields `"abc"` for the JWT attempt |
| `CombinedAuth.ExtraFieldIgnored` | backend/middleware/combinedAuth.js:9 | the header `"Bearer a b"` yields `"a"`; the third field is dropped |
| `CombinedAuth.DoubleSpaceFallsBackToQuery` | backend/middleware/combinedAuth.js:9-14 | the header `"Bearer  abc"` (two spaces) yields the empty field, so a non-empty query token is used instead |
| `CombinedAuth.ProviderToken` | backend/middleware/combinedAuth.js:27-29 | an ID token exists only for a header starting with `"Bearer "`, and never contains `"Bearer "`; its exact value is stated by `CombinedAuth.ProviderTokenSpec` |
| `CombinedAuth.ProviderTokenSpec` | backend/middleware/combinedAuth.js:27-29 | the provider path has a token iff the header starts with `"Bearer "`; the token is the text after that prefix up to the next `"Bearer "` or the end |
| `CombinedAuth.ProviderStep` | backend/middleware/combinedAuth.js:27-51 | the provider path rejects only with 401 "Authentication failed"; it succeeds only after one provider call and one lookup; it makes no call exactly when the header has no non-empty `"Bearer "` token |
| `CombinedAuth.Resolve` | backend/middleware/combinedAuth.js:5-52 | a principal is never produced without a verification call; it comes from the JWT call or from the lookup; at most three calls are made. Precedence, fallback and failure are stated by the lemmas below |
| `CombinedAuth.JwtSuccessShortCircuits` | backend/middleware/combinedAuth.js:16-20 | on JWT success the principal is exactly the verified claims, and the JWT verifier is the only call |
| `CombinedAuth.JwtFailureFallsThrough` | backend/middleware/combinedAuth.js:21-26 | when the JWT does not succeed, the outcome is the provider path's, after at most the one JWT call |
| `CombinedAuth.ProviderInputFromHeaderOnly` | backend/middleware/combinedAuth.js:27-31 | every ID token given to the provider verifier is the non-empty `"Bearer "` token of the header; without a `"Bearer "` header it is never called |
| `CombinedAuth.QueryTokenOnlyForJwt` | backend/middleware/combinedAuth.js:11-31 | a query-only token is tried as a JWT, and on failure the request is rejected with no provider call |
| `CombinedAuth.CallOrder` | backend/middleware/combinedAuth.js:16-38 | calls come strictly in the order JWT, provider, lookup, so each is made at most once and nothing is retried; the lookup gets exactly the uid and email the provider decoded |
| `CombinedAuth.ProviderSuccess` | backend/middleware/combinedAuth.js:31-41 | after a JWT failure, a verified ID token whose lookup finds a record yields `{userId: record id, role: record role}` |
| `CombinedAuth.ProviderPrincipalIsVerifiedMatch` | backend/middleware/combinedAuth.js:31-41 | with a faithful lookup, a principal not from the JWT comes from a record that matches the uid or email of a verified ID token |
| `CombinedAuth.AcceptedIff` | backend/middleware/combinedAuth.js:16-47 | `next()` is reached iff the JWT or the provider path accepts, and the JWT's claims win when both would |
| `CombinedAuth.UniformFailure` | backend/middleware/combinedAuth.js:46-51 | every rejection is the same 401 "Authentication failed" |
| `CombinedAuth.ErrorReasonHidden` | backend/middleware/combinedAuth.js:48-51 | what a verifier or the lookup throws never changes the outcome or the trace |
| `CombinedAuth.NoCredentialRejected` | backend/middleware/combinedAuth.js:8-47 | with a missing or empty header and no query token, the request is rejected with 401 and no call is made |
| `CombinedAuth.Authenticate` | backend/middleware/combinedAuth.js:5-52 | the middleware ends in exactly one of: `next()` with `req.user` set to the resolved principal and no reply, or one 401 reply with `req.user` unchanged; the calls it makes are the resolver's |
| `CombinedAuth.Includes` | backend/middleware/combinedAuth.js:56 | `roles.includes(role)` holds iff the role is defined and in the list |
| `CombinedAuth.Authorize` | backend/middleware/combinedAuth.js:54-60 | admits iff `req.user` is present and its role is in `roles`; otherwise the reply is 403 "Unauthorized Role" |
| `CombinedAuth.EmptyRolesDenyAll` | backend/middleware/combinedAuth.js:54-57 | the default empty role list denies every request |
| `CombinedAuth.AuthorizeMonotone` | backend/middleware/combinedAuth.js:56 | adding roles to the list never revokes admission |
| `CombinedAuth.CustomerDeniedAdminRoute` | backend/middleware/combinedAuth.js:56-57 | an admin-only route answers a customer with 403 |
| `CombinedAuth.Response.Send` | backend/middleware/combinedAuth.js:47 | `res.status(s).json({message})` appends exactly that one reply to the response |
| `CombinedAuth.AuthorizeRequest` | backend/middleware/combinedAuth.js:55-60 | calls `next()` exactly when the gate admits, and otherwise writes the one 403 reply |
| `CombinedAuth.ProtectedRoute` | backend/middleware/combinedAuth.js:5-61 | on a fresh request, the handler is reached iff a scheme resolves a principal whose role is in `roles`; otherwise exactly one 401 or 403 reply is written |

## Left out

- Cryptography is out of scope. The signature and expiry checks of `jwt.verify` are the `JwtVerifier` oracle. Firebase's `verifyIdToken` is the `IdTokenVerifier` oracle.
- `User.findOne` is the `UserFinder` oracle. When uid and email match different records, which one wins is not modelled. That the returned record matches the uid or the email is the hypothesis `LookupMatches`, not a property of the database.
- The JWT payload is modelled as just `userId` and `role`. Its other claims (`iat`, `exp`) are not carried into `req.user`.
- A stored `_id` is modelled as a string, not a MongoDB ObjectId.
- A `token` query parameter given more than once arrives as an array. The model takes it as a string or `undefined`.
- `async`/`await` scheduling, `console.error` logging and JSON serialisation are not modelled. A reply is its status and message.
- CombinedAuth.Authenticate: the oracles always return, so its "exactly one of `next()` or one 401 reply" assumes that every awaited call settles. The source sets no timeout, so a `verifyIdToken` (line 31) or `findOne` (line 33) that never settles leaves the request with no reply at all.
- Strings are sequences of Unicode characters, not UTF-16 code units: `IndexOf` counts characters and lone surrogates cannot be represented. Header values arrive as Latin-1 text, the query token is used whole, and the only separators and prefixes the middleware uses are `" "` and `"Bearer "` (ASCII), so the tokens it extracts are the same either way.
- The signing secret read from `process.env` is folded into the JWT oracle.
- `backend/server.js` (Express bootstrap, database connection, health routes) is not part of this model.
- `frontend/src/pages/Dashboard.jsx` (the React view) is not part of this model.
