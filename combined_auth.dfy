/** The request-authentication middleware of the backend
    (backend/middleware/combinedAuth.js): `authenticate` resolves a principal
    from a locally signed JWT or, failing that, from an identity-provider
    (Firebase) ID token and a user lookup; `authorize(roles)` admits a request
    whose principal's role is in `roles`.

    The three external capabilities are oracle parameters: JWT verification
    with the configured secret, ID-token verification by the provider, and the
    user lookup by provider uid or email. Each call the middleware makes is
    recorded in a trace, so that "not invoked" can be stated. */
module CombinedAuth {
  import opened Wrappers
  import opened JsString

  /** The principal attached to the request as `req.user`. */
  datatype Principal = Principal(userId: string, role: Option<string>)

  /** What the identity provider reports for a verified ID token. */
  datatype DecodedToken = DecodedToken(uid: string, email: Option<string>)

  /** A stored user record, as the lookup returns it. */
  datatype UserRecord = UserRecord(id: string, firebaseUid: Option<string>, email: Option<string>, role: Option<string>)

  /** `jwt.verify(token, ACCESS_TOKEN_SECRET)`: the claims, or `None` when it throws. */
  type JwtVerifier = string -> Option<Principal>
  /** `admin.auth().verifyIdToken(idToken)`: the decoded token, or the error it throws. */
  type IdTokenVerifier = string -> Result<DecodedToken>
  /** `User.findOne({$or: [{firebaseUid: uid}, {email}]})`: a record, none, or the error it throws. */
  type UserFinder = (string, Option<string>) -> Result<Option<UserRecord>>

  /** One call into an external capability. */
  datatype Call =
    | JwtVerify(token: string)
    | IdTokenVerify(idToken: string)
    | FindUser(uid: string, email: Option<string>)

  /** An HTTP response written with `res.status(status).json({message})`. */
  datatype Reply = Reply(status: nat, message: string)

  const AuthFailed: string := "Authentication failed"
  const UnauthorizedRole: string := "Unauthorized Role"
  const BearerPrefix: string := "Bearer "

  /** How `authenticate` ends: `next()` with a principal, or a response. */
  datatype Outcome = Next(principal: Principal) | Respond(reply: Reply)

  /** The outcome together with the calls made, in order. */
  datatype Resolution = Resolution(outcome: Outcome, calls: seq<Call>)

  /** The principal built from a stored record. */
  function PrincipalOf(user: UserRecord): Principal {
    Principal(user.id, user.role)
  }

  /** A record answers a lookup by `uid` or by `email`. */
  predicate Matches(user: UserRecord, uid: string, email: Option<string>) {
    user.firebaseUid == Some(uid) || user.email == email
  }

  /** The lookup only ever returns a record that matches the uid or the email. */
  ghost predicate LookupMatches(findUser: UserFinder) {
    forall uid, email :: findUser(uid, email).Ok? && findUser(uid, email).value.Some? ==>
      Matches(findUser(uid, email).value.value, uid, email)
  }

  // ---------------------------------------------------------------------------
  // Token extraction

  /** JavaScript truthiness of a string that may be `undefined`. */
  predicate Truthy(v: Option<string>) {
    v.Some? && v.value != ""
  }

  /** `authHeader && authHeader.split(' ')[1]`: the second space-separated
      field of any header, whatever its scheme word. */
  function HeaderToken(authorization: Option<string>): (token: Option<string>)
    ensures authorization.None? ==> token.None?
    ensures authorization == Some("") ==> token == authorization
    ensures token.Some? ==> ' ' !in token.value
    ensures authorization.Some? && authorization.value != "" ==>
      (token.Some? <==> ' ' in authorization.value)
  {
    match authorization
    case None => None
    case Some(h) =>
      if h == "" then authorization
      else
        SpaceFieldSpec(h);
        SecondField(h, " ")
  }

  /** The token tried as a JWT: the header field, or the `token` query
      parameter when that field is missing or empty. */
  function CandidateToken(authorization: Option<string>, query: Option<string>): (token: Option<string>)
    ensures Truthy(HeaderToken(authorization)) ==> token == HeaderToken(authorization)
    ensures !Truthy(HeaderToken(authorization)) && Truthy(query) ==> token == query
    ensures Truthy(token) <==> Truthy(HeaderToken(authorization)) || Truthy(query)
  {
    var token := HeaderToken(authorization);
    if !Truthy(token) && Truthy(query) then query else token
  }

  /** The ID token for the provider path: the raw header must start with
      `"Bearer "`; the token is `split('Bearer ')[1]`. The query parameter
      plays no part. */
  function ProviderToken(authorization: Option<string>): (idToken: Option<string>)
    ensures idToken.Some? ==> authorization.Some? && StartsWith(authorization.value, BearerPrefix)
    ensures idToken.Some? ==> Free(idToken.value, BearerPrefix)
  {
    match authorization
    case None => None
    case Some(h) =>
      if h != "" && StartsWith(h, BearerPrefix) then
        SplitFieldsFree(h, BearerPrefix);
        SecondField(h, BearerPrefix)
      else None
  }

  /** A single space is found exactly where the text has a space. */
  lemma SpaceOccursAt(s: string, k: nat)
    ensures OccursAt(s, " ", k) <==> k < |s| && s[k] == ' '
  {
    if k < |s| {
      assert s[k..k + 1] == [s[k]];
    }
  }

  /** The text has a space exactly when `" "` occurs in it. */
  lemma SpacesAreOccurrences(s: string)
    ensures Free(s, " ") <==> ' ' !in s
  {
    if ' ' in s {
      var k :| 0 <= k < |s| && s[k] == ' ';
      SpaceOccursAt(s, k);
    } else {
      forall k: nat ensures !OccursAt(s, " ", k) {
        SpaceOccursAt(s, k);
      }
    }
  }

  /** `h.split(' ')[1]` is defined exactly when `h` has a space, and has no space. */
  lemma SpaceFieldSpec(h: string)
    ensures SecondField(h, " ").Some? <==> ' ' in h
    ensures SecondField(h, " ").Some? ==> ' ' !in SecondField(h, " ").value
  {
    SecondFieldDefined(h, " ");
    SpacesAreOccurrences(h);
    if SecondField(h, " ").Some? {
      SplitFieldsFree(h, " ");
      SpacesAreOccurrences(SecondField(h, " ").value);
    }
  }

  /** The scheme word of the header is not checked, and text after the
      token is dropped: `"<word> <token>"`, followed by nothing or by more
      space-separated text, yields `<token>` for any word and token without
      spaces. */
  lemma {:induction false} SchemeNotChecked(word: string, token: string, rest: string)
    requires ' ' !in word && ' ' !in token
    requires rest == [] || rest[0] == ' '
    ensures HeaderToken(Some(word + " " + token + rest)) == Some(token)
  {
    var h := word + " " + token + rest;
    var start := |word| + 1;
    var end := start + |token|;
    forall k: nat | k < |word| ensures !OccursAt(h, " ", k) {
      SpaceOccursAt(h, k);
      assert h[k] == word[k];
    }
    forall k: nat | start <= k < end ensures !OccursAt(h, " ", k) {
      SpaceOccursAt(h, k);
      assert h[k] == token[k - start];
    }
    SpaceOccursAt(h, end);
    if rest != [] {
      assert h[end] == rest[0];
    }
    assert end == |h| || OccursAt(h, " ", end);
    SpaceOccursAt(h, |word|);
    IndexOfLeftmost(h, " ", |word|);
    SecondFieldAfter(h, " ", |word|);
    var t := SecondField(h, " ").value;
    assert |t| == |token|;
    assert h[start..end] == token;
    assert HeaderToken(Some(h)) == SecondField(h, " ");
  }

  /** A Basic-scheme header still yields its credential for the JWT attempt. */
  lemma BasicHeaderYieldsToken()
    ensures HeaderToken(Some("Basic abc")) == Some("abc")
  {
    SchemeNotChecked("Basic", "abc", "");
    assert "Basic" + " " + "abc" + "" == "Basic abc";
  }

  /** A third field is ignored: `"Bearer a b"` yields `"a"`. */
  lemma ExtraFieldIgnored()
    ensures HeaderToken(Some("Bearer a b")) == Some("a")
  {
    SchemeNotChecked("Bearer", "a", " b");
    assert "Bearer" + " " + "a" + " b" == "Bearer a b";
  }

  /** Two spaces after the scheme yield the empty field, which is falsy, so
      the query token is tried instead. */
  lemma DoubleSpaceFallsBackToQuery(query: Option<string>)
    ensures HeaderToken(Some("Bearer  abc")) == Some("")
    ensures CandidateToken(Some("Bearer  abc"), query) == if Truthy(query) then query else Some("")
  {
    SchemeNotChecked("Bearer", "", " abc");
    assert "Bearer" + " " + "" + " abc" == "Bearer  abc";
  }

  /** The provider path runs exactly when the header starts with `"Bearer "`,
      and its token is the text after that prefix up to the next `"Bearer "`
      or the end of the header. */
  lemma ProviderTokenSpec(authorization: Option<string>)
    ensures ProviderToken(authorization).Some? <==>
      authorization.Some? && StartsWith(authorization.value, BearerPrefix)
    ensures ProviderToken(authorization).Some? ==>
      var h, t := authorization.value, ProviderToken(authorization).value;
      && |BearerPrefix| + |t| <= |h|
      && h[|BearerPrefix|..|BearerPrefix| + |t|] == t
      && Free(t, BearerPrefix)
      && (|BearerPrefix| + |t| == |h| || OccursAt(h, BearerPrefix, |BearerPrefix| + |t|))
  {
    if authorization.Some? && StartsWith(authorization.value, BearerPrefix) {
      var h := authorization.value;
      assert h[0..|BearerPrefix|] == BearerPrefix;
      IndexOfLeftmost(h, BearerPrefix, 0);
      SecondFieldAfter(h, BearerPrefix, 0);
    }
  }

  // ---------------------------------------------------------------------------
  // Resolution: the specification of `authenticate`

  /** Lines 27-47 with the outer `catch`: the identity-provider path. A throw
      from the verifier or the lookup ends in the same 401 as no match. */
  function ProviderStep(authorization: Option<string>, verifyIdToken: IdTokenVerifier, findUser: UserFinder): (r: Resolution)
    ensures r.outcome.Respond? ==> r.outcome.reply == Reply(401, AuthFailed)
    ensures r.outcome.Next? ==> |r.calls| == 2 && r.calls[0].IdTokenVerify? && r.calls[1].FindUser?
    ensures r.calls == [] <==> ProviderToken(authorization).None? || ProviderToken(authorization) == Some("")
  {
    var rejected := Respond(Reply(401, AuthFailed));
    match ProviderToken(authorization)
    case None => Resolution(rejected, [])
    case Some(idToken) =>
      if idToken == "" then Resolution(rejected, [])
      else
        match verifyIdToken(idToken)
        case Err(_) => Resolution(rejected, [IdTokenVerify(idToken)])
        case Ok(decoded) =>
          var calls := [IdTokenVerify(idToken), FindUser(decoded.uid, decoded.email)];
          match findUser(decoded.uid, decoded.email)
          case Err(_) => Resolution(rejected, calls)
          case Ok(None) => Resolution(rejected, calls)
          case Ok(Some(user)) => Resolution(Next(PrincipalOf(user)), calls)
  }

  /** The whole of `authenticate`: the JWT attempt on the candidate token,
      whose failure falls through to the provider path. */
  function Resolve(authorization: Option<string>, query: Option<string>, verifyJwt: JwtVerifier,
                   verifyIdToken: IdTokenVerifier, findUser: UserFinder): (r: Resolution)
    ensures |r.calls| <= 3
    ensures r.outcome.Next? ==> |r.calls| > 0
    ensures r.outcome.Next? ==> r.calls[|r.calls| - 1].JwtVerify? || r.calls[|r.calls| - 1].FindUser?
  {
    var token := CandidateToken(authorization, query);
    if Truthy(token) then
      match verifyJwt(token.value)
      case Some(claims) => Resolution(Next(claims), [JwtVerify(token.value)])
      case None =>
        var provider := ProviderStep(authorization, verifyIdToken, findUser);
        Resolution(provider.outcome, [JwtVerify(token.value)] + provider.calls)
    else
      ProviderStep(authorization, verifyIdToken, findUser)
  }

  /** Local verification accepts the candidate token. */
  predicate JwtAccepts(authorization: Option<string>, query: Option<string>, verifyJwt: JwtVerifier) {
    var token := CandidateToken(authorization, query);
    Truthy(token) && verifyJwt(token.value).Some?
  }

  /** The provider verifies the header's ID token and the lookup finds a record. */
  predicate ProviderAccepts(authorization: Option<string>, verifyIdToken: IdTokenVerifier, findUser: UserFinder) {
    match ProviderToken(authorization)
    case None => false
    case Some(idToken) =>
      && idToken != ""
      && verifyIdToken(idToken).Ok?
      && var decoded := verifyIdToken(idToken).value;
      && findUser(decoded.uid, decoded.email).Ok?
      && findUser(decoded.uid, decoded.email).value.Some?
  }

  /** JWT success: the principal is exactly the verified claims, and neither
      the provider verifier nor the lookup is called. */
  lemma JwtSuccessShortCircuits(authorization: Option<string>, query: Option<string>, verifyJwt: JwtVerifier,
                                verifyIdToken: IdTokenVerifier, findUser: UserFinder)
    requires JwtAccepts(authorization, query, verifyJwt)
    ensures var token := CandidateToken(authorization, query).value;
      Resolve(authorization, query, verifyJwt, verifyIdToken, findUser)
        == Resolution(Next(verifyJwt(token).value), [JwtVerify(token)])
  {
  }

  /** A JWT failure is not terminal: the outcome is whatever the provider
      path decides, after at most the one JWT attempt. */
  lemma JwtFailureFallsThrough(authorization: Option<string>, query: Option<string>, verifyJwt: JwtVerifier,
                               verifyIdToken: IdTokenVerifier, findUser: UserFinder)
    requires !JwtAccepts(authorization, query, verifyJwt)
    ensures var r, provider := Resolve(authorization, query, verifyJwt, verifyIdToken, findUser),
                               ProviderStep(authorization, verifyIdToken, findUser);
      var token := CandidateToken(authorization, query);
      && r.outcome == provider.outcome
      && r.calls == (if Truthy(token) then [JwtVerify(token.value)] else []) + provider.calls
  {
  }

  /** Only the raw header reaches the provider verifier: every ID token it is
      given is the header's `"Bearer "` token, non-empty; no header, no call. */
  lemma ProviderInputFromHeaderOnly(authorization: Option<string>, query: Option<string>, verifyJwt: JwtVerifier,
                                    verifyIdToken: IdTokenVerifier, findUser: UserFinder)
    ensures var calls := Resolve(authorization, query, verifyJwt, verifyIdToken, findUser).calls;
      forall i :: 0 <= i < |calls| && calls[i].IdTokenVerify? ==>
        && authorization.Some? && StartsWith(authorization.value, BearerPrefix)
        && ProviderToken(authorization) == Some(calls[i].idToken)
        && calls[i].idToken != ""
  {
  }

  /** The position of a kind of call in the fixed order. */
  function Rank(call: Call): nat {
    match call
    case JwtVerify(_) => 0
    case IdTokenVerify(_) => 1
    case FindUser(_, _) => 2
  }

  /** The calls come in the fixed order JWT, provider, lookup, each at most
      once (no retries); the lookup is asked exactly what the provider decoded. */
  lemma CallOrder(authorization: Option<string>, query: Option<string>, verifyJwt: JwtVerifier,
                  verifyIdToken: IdTokenVerifier, findUser: UserFinder)
    ensures var calls := Resolve(authorization, query, verifyJwt, verifyIdToken, findUser).calls;
      && |calls| <= 3
      && (forall i, j :: 0 <= i < j < |calls| ==> Rank(calls[i]) < Rank(calls[j]))
      && (forall i :: 0 <= i < |calls| && calls[i].JwtVerify? ==>
            i == 0 && CandidateToken(authorization, query) == Some(calls[i].token))
      && (forall i :: 0 <= i < |calls| && calls[i].FindUser? ==>
            && i == |calls| - 1 && 0 < i && calls[i - 1].IdTokenVerify?
            && verifyIdToken(calls[i - 1].idToken) == Ok(DecodedToken(calls[i].uid, calls[i].email)))
  {
  }

  /** Provider success: a verified ID token whose uid or email finds a record
      yields that record's id and role, after a JWT failure. */
  lemma ProviderSuccess(authorization: Option<string>, query: Option<string>, verifyJwt: JwtVerifier,
                        verifyIdToken: IdTokenVerifier, findUser: UserFinder,
                        idToken: string, decoded: DecodedToken, user: UserRecord)
    requires !JwtAccepts(authorization, query, verifyJwt)
    requires ProviderToken(authorization) == Some(idToken) && idToken != ""
    requires verifyIdToken(idToken) == Ok(decoded)
    requires findUser(decoded.uid, decoded.email) == Ok(Some(user))
    ensures Resolve(authorization, query, verifyJwt, verifyIdToken, findUser).outcome
      == Next(Principal(user.id, user.role))
  {
  }

  /** When the lookup is faithful, a principal that did not come from the JWT
      comes from a record matching the decoded uid or email of a verified ID
      token: nothing unverified is ever attached. */
  lemma ProviderPrincipalIsVerifiedMatch(authorization: Option<string>, query: Option<string>, verifyJwt: JwtVerifier,
                                         verifyIdToken: IdTokenVerifier, findUser: UserFinder)
    requires LookupMatches(findUser)
    ensures var r := Resolve(authorization, query, verifyJwt, verifyIdToken, findUser);
      r.outcome.Next? && !JwtAccepts(authorization, query, verifyJwt) ==>
        && |r.calls| >= 2
        && var look, verify := r.calls[|r.calls| - 1], r.calls[|r.calls| - 2];
        && look.FindUser? && verify.IdTokenVerify?
        && Some(verify.idToken) == ProviderToken(authorization)
        && verifyIdToken(verify.idToken) == Ok(DecodedToken(look.uid, look.email))
        && findUser(look.uid, look.email).Ok? && findUser(look.uid, look.email).value.Some?
        && Matches(findUser(look.uid, look.email).value.value, look.uid, look.email)
        && r.outcome.principal == PrincipalOf(findUser(look.uid, look.email).value.value)
  {
  }

  /** The resolver admits exactly when one of the two schemes accepts, and the
      JWT takes precedence when both would. */
  lemma AcceptedIff(authorization: Option<string>, query: Option<string>, verifyJwt: JwtVerifier,
                    verifyIdToken: IdTokenVerifier, findUser: UserFinder)
    ensures var r := Resolve(authorization, query, verifyJwt, verifyIdToken, findUser);
      && (r.outcome.Next? <==>
            JwtAccepts(authorization, query, verifyJwt) || ProviderAccepts(authorization, verifyIdToken, findUser))
      && (JwtAccepts(authorization, query, verifyJwt) ==>
            r.outcome.principal == verifyJwt(CandidateToken(authorization, query).value).value)
  {
  }

  /** Uniform failure: every rejection is the same 401 "Authentication failed". */
  lemma UniformFailure(authorization: Option<string>, query: Option<string>, verifyJwt: JwtVerifier,
                       verifyIdToken: IdTokenVerifier, findUser: UserFinder)
    ensures var r := Resolve(authorization, query, verifyJwt, verifyIdToken, findUser);
      r.outcome.Respond? ==> r.outcome.reply == Reply(401, AuthFailed)
  {
  }

  /** Two results that succeed alike and differ at most in the error text. */
  predicate SameUpToReason<T(==)>(x: Result<T>, y: Result<T>) {
    x.Ok? == y.Ok? && (x.Ok? ==> x == y)
  }

  /** What a verifier or the lookup threw never shows in the outcome. */
  lemma ErrorReasonHidden(authorization: Option<string>, query: Option<string>, verifyJwt: JwtVerifier,
                          verifyIdToken1: IdTokenVerifier, findUser1: UserFinder,
                          verifyIdToken2: IdTokenVerifier, findUser2: UserFinder)
    requires forall t :: SameUpToReason(verifyIdToken1(t), verifyIdToken2(t))
    requires forall uid, email :: SameUpToReason(findUser1(uid, email), findUser2(uid, email))
    ensures Resolve(authorization, query, verifyJwt, verifyIdToken1, findUser1)
      == Resolve(authorization, query, verifyJwt, verifyIdToken2, findUser2)
  {
  }

  /** A request with no (or an empty) header and no query token is rejected
      without any call. */
  lemma NoCredentialRejected(authorization: Option<string>, query: Option<string>, verifyJwt: JwtVerifier,
                             verifyIdToken: IdTokenVerifier, findUser: UserFinder)
    requires !Truthy(authorization) && !Truthy(query)
    ensures Resolve(authorization, query, verifyJwt, verifyIdToken, findUser) == Resolution(Respond(Reply(401, AuthFailed)), [])
  {
  }

  /** A token passed only in the query is tried as a JWT and never given to
      the provider path. */
  lemma QueryTokenOnlyForJwt(query: Option<string>, verifyJwt: JwtVerifier,
                             verifyIdToken: IdTokenVerifier, findUser: UserFinder)
    requires Truthy(query)
    ensures Resolve(None, query, verifyJwt, verifyIdToken, findUser) ==
      match verifyJwt(query.value)
      case Some(claims) => Resolution(Next(claims), [JwtVerify(query.value)])
      case None => Resolution(Respond(Reply(401, AuthFailed)), [JwtVerify(query.value)])
  {
  }

  // ---------------------------------------------------------------------------
  // The role gate

  /** `roles.includes(role)`: a linear scan; an `undefined` role is never found. */
  function Includes(roles: seq<string>, role: Option<string>): (found: bool)
    ensures found <==> role.Some? && role.value in roles
  {
    if |roles| == 0 then false
    else Some(roles[0]) == role || Includes(roles[1..], role)
  }

  /** What `authorize(roles)` decides. */
  datatype GateOutcome = Proceed | Deny(reply: Reply)

  /** `authorize(roles)`: admit a request with a principal whose role is in
      `roles`; every other request gets 403 "Unauthorized Role". */
  function Authorize(roles: seq<string>, user: Option<Principal>): (gate: GateOutcome)
    ensures gate.Proceed? <==> user.Some? && user.value.role.Some? && user.value.role.value in roles
    ensures gate.Deny? ==> gate.reply == Reply(403, UnauthorizedRole)
  {
    if user.None? || !Includes(roles, user.value.role) then Deny(Reply(403, UnauthorizedRole)) else Proceed
  }

  /** The default `authorize()` with no roles rejects every request. */
  lemma EmptyRolesDenyAll(user: Option<Principal>)
    ensures Authorize([], user) == Deny(Reply(403, UnauthorizedRole))
  {
  }

  /** Adding roles never revokes admission. */
  lemma AuthorizeMonotone(roles1: seq<string>, roles2: seq<string>, user: Option<Principal>)
    requires forall r :: r in roles1 ==> r in roles2
    ensures Authorize(roles1, user).Proceed? ==> Authorize(roles2, user).Proceed?
  {
  }

  /** An admin-only route turns a customer away with 403. */
  lemma CustomerDeniedAdminRoute(userId: string)
    ensures Authorize(["admin"], Some(Principal(userId, Some("customer")))) == Deny(Reply(403, UnauthorizedRole))
  {
  }

  // ---------------------------------------------------------------------------
  // The middleware over request and response objects

  /** The parts of an Express request the middleware reads and writes. */
  class Request {
    const authorization: Option<string>
    const queryToken: Option<string>
    var user: Option<Principal>

    constructor (authorization: Option<string>, queryToken: Option<string>)
      ensures this.authorization == authorization && this.queryToken == queryToken && user == None
    {
      this.authorization := authorization;
      this.queryToken := queryToken;
      user := None;
    }
  }

  /** An Express response, as the list of replies written to it. */
  class Response {
    var replies: seq<Reply>

    constructor ()
      ensures replies == []
    {
      replies := [];
    }

    /** `res.status(status).json({message})`. */
    method Send(status: nat, message: string)
      modifies this
      ensures replies == old(replies) + [Reply(status, message)]
    {
      replies := replies + [Reply(status, message)];
    }
  }

  /** `authenticate(req, res, next)`: returns whether `next()` was called and
      the calls made. It ends in exactly one of `next()` with `req.user` set
      to the resolved principal, or one 401 reply with `req.user` untouched. */
  method Authenticate(req: Request, res: Response, verifyJwt: JwtVerifier,
                      verifyIdToken: IdTokenVerifier, findUser: UserFinder)
    returns (calledNext: bool, calls: seq<Call>)
    modifies req, res
    ensures var r := Resolve(req.authorization, req.queryToken, verifyJwt, verifyIdToken, findUser);
      && calledNext == r.outcome.Next?
      && calls == r.calls
      && (calledNext ==> req.user == Some(r.outcome.principal) && res.replies == old(res.replies))
      && (!calledNext ==> req.user == old(req.user) && res.replies == old(res.replies) + [r.outcome.reply])
  {
    calls := [];
    var token := HeaderToken(req.authorization);
    if !Truthy(token) && Truthy(req.queryToken) {
      token := req.queryToken;
    }

    if Truthy(token) {
      calls := calls + [JwtVerify(token.value)];
      var verified := verifyJwt(token.value);
      if verified.Some? {
        req.user := verified;
        return true, calls;
      }
    }

    var idToken := ProviderToken(req.authorization);
    if idToken.Some? && idToken.value != "" {
      calls := calls + [IdTokenVerify(idToken.value)];
      var decoded := verifyIdToken(idToken.value);
      if decoded.Err? {
        res.Send(401, AuthFailed);
        return false, calls;
      }
      calls := calls + [FindUser(decoded.value.uid, decoded.value.email)];
      var found := findUser(decoded.value.uid, decoded.value.email);
      if found.Err? {
        res.Send(401, AuthFailed);
        return false, calls;
      }
      if found.value.Some? {
        req.user := Some(PrincipalOf(found.value.value));
        return true, calls;
      }
    }

    res.Send(401, AuthFailed);
    calledNext := false;
  }

  /** The middleware returned by `authorize(roles)`: calls `next()` exactly
      when the gate admits, and otherwise writes the 403 reply. */
  method AuthorizeRequest(roles: seq<string>, req: Request, res: Response) returns (calledNext: bool)
    modifies res
    ensures calledNext == Authorize(roles, req.user).Proceed?
    ensures calledNext ==> res.replies == old(res.replies)
    ensures !calledNext ==> res.replies == old(res.replies) + [Reply(403, UnauthorizedRole)]
  {
    if req.user.None? || !Includes(roles, req.user.value.role) {
      res.Send(403, UnauthorizedRole);
      return false;
    }
    calledNext := true;
  }

  /** A protected route, `authenticate` then `authorize(roles)` on a fresh
      request: the handler is reached exactly when a scheme resolves a
      principal whose role is in `roles`. */
  method ProtectedRoute(authorization: Option<string>, query: Option<string>, roles: seq<string>,
                        verifyJwt: JwtVerifier, verifyIdToken: IdTokenVerifier, findUser: UserFinder)
    returns (reachesHandler: bool, replies: seq<Reply>)
    ensures var r := Resolve(authorization, query, verifyJwt, verifyIdToken, findUser);
      && (reachesHandler <==> r.outcome.Next? && r.outcome.principal.role.Some? && r.outcome.principal.role.value in roles)
      && (reachesHandler ==> replies == [])
      && (r.outcome.Respond? ==> replies == [Reply(401, AuthFailed)])
      && (r.outcome.Next? && !reachesHandler ==> replies == [Reply(403, UnauthorizedRole)])
  {
    var req := new Request(authorization, query);
    var res := new Response();
    var authenticated, _ := Authenticate(req, res, verifyJwt, verifyIdToken, findUser);
    reachesHandler := false;
    if authenticated {
      reachesHandler := AuthorizeRequest(roles, req, res);
    }
    replies := res.replies;
  }
}
