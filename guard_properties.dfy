/** What the access guard promises, stated over `Guards.Authorize` and its steps. */
module GuardProperties {
  import opened Wrappers
  import opened UserEntity
  import opened JsStrings
  import opened Guards

  // ---------------------------------------------------------------------------
  // Bearer-token parsing
  // ---------------------------------------------------------------------------

  /** A header yields a token exactly when it starts with `"Bearer "` (case-sensitive, one space). */
  lemma {:induction false} ParseBearerSome(h: string)
    ensures ParseBearer(h).Some? <==> |h| >= 7 && h[..7] == "Bearer "
  {
    var parts := Split(h, ' ');
    if |h| >= 7 && h[..7] == "Bearer " {
      assert h == "Bearer" + [' '] + h[7..];
      SplitCons("Bearer", ' ', h[7..]);
    }
    if ParseBearer(h).Some? {
      JoinSplit(h, ' ');
      assert Join(parts, ' ') == parts[0] + [' '] + Join(parts[1..], ' ');
      assert h == "Bearer" + [' '] + Join(parts[1..], ' ');
    }
  }

  /**
   * The token is the longest space-free run after `"Bearer "`: it holds no
   * space, and what follows it is either nothing or a space.
   */
  lemma {:induction false} ParseBearerToken(h: string)
    requires ParseBearer(h).Some?
    ensures var t := ParseBearer(h).value;
      && ' ' !in t
      && |h| >= 7 + |t|
      && h[..7 + |t|] == "Bearer " + t
      && (|h| == 7 + |t| || h[7 + |t|] == ' ')
  {
    var parts := Split(h, ' ');
    var t := parts[1];
    JoinSplit(h, ' ');
    assert Join(parts, ' ') == parts[0] + [' '] + Join(parts[1..], ' ');
    var tail := parts[1..];
    assert tail[0] == t;
    if |tail| == 1 {
      assert h == "Bearer " + t;
    } else {
      assert Join(tail, ' ') == t + [' '] + Join(tail[1..], ' ');
      assert h == "Bearer " + t + ([' '] + Join(tail[1..], ' '));
    }
  }

  /** Conversely, `"Bearer "`, a space-free word, then nothing or a space, yields that word. */
  lemma {:induction false} ParseBearerOf(t: string, rest: string)
    requires ' ' !in t
    requires rest == "" || rest[0] == ' '
    ensures ParseBearer("Bearer " + t + rest) == Some(t)
  {
    var h := "Bearer " + t + rest;
    assert h == "Bearer" + [' '] + (t + rest);
    SplitCons("Bearer", ' ', t + rest);
    if rest == "" {
      assert t + rest == t;
      SplitWord(t, ' ');
    } else {
      assert t + rest == t + [' '] + rest[1..];
      SplitCons(t, ' ', rest[1..]);
    }
  }

  /** The scheme alone, without its space, carries no token. */
  lemma SchemeWithoutToken()
    ensures ParseBearer("Bearer") == None
  {
  }

  /** The scheme is matched case-sensitively. */
  lemma SchemeIsCaseSensitive()
    ensures ParseBearer("bearer x") == None
  {
    ParseBearerSome("bearer x");
    assert "bearer x"[0] != "Bearer "[0];
  }

  /** `"Bearer "` and `"Bearer  x"` both yield the empty token. */
  lemma EmptyTokens()
    ensures ParseBearer("Bearer ") == Some("")
    ensures ParseBearer("Bearer  x") == Some("")
  {
    ParseBearerOf("", "");
    assert "Bearer " + "" + "" == "Bearer ";
    ParseBearerOf("", " x");
    assert "Bearer " + "" + " x" == "Bearer  x";
  }

  /** Only the second segment is the token; later segments are dropped. */
  lemma SecondSegmentOnly()
    ensures ParseBearer("Bearer abc def") == Some("abc")
  {
    ParseBearerOf("abc", " def");
    assert "Bearer " + "abc" + " def" == "Bearer abc def";
  }

  // ---------------------------------------------------------------------------
  // Header precedence
  // ---------------------------------------------------------------------------

  /**
   * A non-empty `authorization` header decides alone: its parse is the token,
   * whatever `x-access-token` holds or whether it is there at all, even when
   * the `authorization` header is malformed.
   */
  lemma AuthorizationHeaderDecides(headers: Headers, other: string)
    requires Truthy(Header(headers, AuthorizationHeader))
    ensures ExtractTokenFromHeader(headers) == ParseBearer(headers[AuthorizationHeader])
    ensures ExtractTokenFromHeader(headers[AccessTokenHeader := other]) == ExtractTokenFromHeader(headers)
    ensures ExtractTokenFromHeader(headers - {AccessTokenHeader}) == ExtractTokenFromHeader(headers)
  {
  }

  /** `x-access-token` is parsed only when `authorization` is absent or empty. */
  lemma FallbackHeader(headers: Headers)
    requires !Truthy(Header(headers, AuthorizationHeader))
    ensures ExtractTokenFromHeader(headers) ==
      if Truthy(Header(headers, AccessTokenHeader)) then ParseBearer(headers[AccessTokenHeader]) else None
  {
  }

  /** With a non-empty `authorization` header the whole decision ignores `x-access-token`. */
  lemma DecisionIgnoresFallbackHeader(meta: RouteMetadata, headers: Headers, other: string,
                                      secret: Option<string>, verify: Verifier, store: UserStore)
    requires Truthy(Header(headers, AuthorizationHeader))
    ensures Authorize(meta, headers[AccessTokenHeader := other], secret, verify, store)
         == Authorize(meta, headers, secret, verify, store)
  {
  }

  // ---------------------------------------------------------------------------
  // The decision, step by step
  // ---------------------------------------------------------------------------

  /** A public route is allowed with nothing attached, whatever the request and the collaborators. */
  lemma PublicBypass(meta: RouteMetadata, headers: Headers, secret: Option<string>,
                     verify: Verifier, store: UserStore)
    requires meta.isPublic
    ensures Authorize(meta, headers, secret, verify, store) == Allow(None)
  {
  }

  /** Allowing with nothing attached happens exactly on a public route. */
  lemma AllowWithoutIdentityIffPublic(meta: RouteMetadata, headers: Headers, secret: Option<string>,
                                      verify: Verifier, store: UserStore)
    ensures Authorize(meta, headers, secret, verify, store) == Allow(None) <==> meta.isPublic
  {
  }

  /** A missing, malformed or empty token is rejected before anything is verified or looked up. */
  lemma MissingToken(meta: RouteMetadata, headers: Headers, secret: Option<string>,
                     verify: Verifier, store: UserStore)
    requires !meta.isPublic && !Truthy(ExtractTokenFromHeader(headers))
    ensures Authorize(meta, headers, secret, verify, store) == Reject(StatusUnauthorized, MissingTokenMessage)
  {
  }

  /** With neither header, or one holding only `"Bearer "`, the token is missing. */
  lemma MissingTokenExamples(meta: RouteMetadata, secret: Option<string>, verify: Verifier, store: UserStore)
    requires !meta.isPublic
    ensures Authorize(meta, map[], secret, verify, store) == Reject(StatusUnauthorized, MissingTokenMessage)
    ensures Authorize(meta, map[AuthorizationHeader := "Bearer "], secret, verify, store)
         == Reject(StatusUnauthorized, MissingTokenMessage)
    ensures Authorize(meta, map[AccessTokenHeader := "Bearer  x"], secret, verify, store)
         == Reject(StatusUnauthorized, MissingTokenMessage)
  {
    EmptyTokens();
    assert ExtractTokenFromHeader(map[AuthorizationHeader := "Bearer "]) == Some("");
    assert Header(map[AccessTokenHeader := "Bearer  x"], AuthorizationHeader) == None;
    assert ExtractTokenFromHeader(map[AccessTokenHeader := "Bearer  x"]) == Some("");
  }

  /** The token presented once the route is not public and the token is present. */
  predicate Presented(meta: RouteMetadata, headers: Headers, token: string)
  {
    !meta.isPublic && ExtractTokenFromHeader(headers) == Some(token) && token != ""
  }

  /** An expired token gets its own 401. */
  lemma ExpiredToken(meta: RouteMetadata, headers: Headers, token: string, secret: Option<string>,
                     verify: Verifier, store: UserStore)
    requires Presented(meta, headers, token) && Truthy(secret)
    requires verify(token, secret.value) == VerifyThrew(TokenExpiredErrorName)
    ensures Authorize(meta, headers, secret, verify, store) == Reject(StatusUnauthorized, ExpiredTokenMessage)
  {
  }

  /** A token the library rejects as invalid gets its own 401. */
  lemma InvalidToken(meta: RouteMetadata, headers: Headers, token: string, secret: Option<string>,
                     verify: Verifier, store: UserStore)
    requires Presented(meta, headers, token) && Truthy(secret)
    requires verify(token, secret.value) == VerifyThrew(JsonWebTokenErrorName)
    ensures Authorize(meta, headers, secret, verify, store) == Reject(StatusUnauthorized, InvalidTokenMessage)
  {
  }

  /** A missing or empty secret is the generic 401, not a configuration error. */
  lemma MissingSecret(meta: RouteMetadata, headers: Headers, token: string, secret: Option<string>,
                      verify: Verifier, store: UserStore)
    requires Presented(meta, headers, token) && !Truthy(secret)
    ensures Authorize(meta, headers, secret, verify, store) == Reject(StatusUnauthorized, FailedAuthenticationMessage)
  {
  }

  /** A decoded value without the payload shape is the generic 401. */
  lemma BadPayloadShape(meta: RouteMetadata, headers: Headers, token: string, secret: Option<string>,
                        verify: Verifier, store: UserStore, decoded: Json)
    requires Presented(meta, headers, token) && Truthy(secret)
    requires verify(token, secret.value) == Decoded(decoded)
    requires !(decoded.JObject? && "userId" in decoded.fields && "userRole" in decoded.fields)
    ensures Authorize(meta, headers, secret, verify, store) == Reject(StatusUnauthorized, FailedAuthenticationMessage)
  {
  }

  /** A library error other than the two it knows (a `NotBeforeError`, say) is the generic 401 too. */
  lemma OtherVerifierError(meta: RouteMetadata, headers: Headers, token: string, secret: Option<string>,
                           verify: Verifier, store: UserStore, name: string)
    requires Presented(meta, headers, token) && Truthy(secret)
    requires verify(token, secret.value) == VerifyThrew(name)
    requires name != TokenExpiredErrorName && name != JsonWebTokenErrorName
    ensures Authorize(meta, headers, secret, verify, store) == Reject(StatusUnauthorized, FailedAuthenticationMessage)
  {
  }

  /**
   * After a successful verification, an unknown user is the generic 401
   * whatever roles the route requires, and so is a store error whose name is
   * not one of the token library's.
   */
  lemma LookupFailures(meta: RouteMetadata, headers: Headers, token: string, secret: Option<string>,
                       verify: Verifier, store: UserStore, payload: JwtPayload)
    requires Presented(meta, headers, token)
    requires VerifyToken(token, secret, verify) == Ok(payload)
    requires store(UserFilter(payload)).NotFound?
      || (store(UserFilter(payload)).LookupThrew?
          && store(UserFilter(payload)).errorName != TokenExpiredErrorName
          && store(UserFilter(payload)).errorName != JsonWebTokenErrorName)
    ensures Authorize(meta, headers, secret, verify, store) == Reject(StatusUnauthorized, FailedAuthenticationMessage)
  {
  }

  /**
   * 403 happens exactly when the token verified, the user was found, a role
   * list is present, and the token's own `userRole` is not in it.
   */
  lemma ForbiddenIff(meta: RouteMetadata, headers: Headers, secret: Option<string>,
                     verify: Verifier, store: UserStore)
    ensures var d := Authorize(meta, headers, secret, verify, store);
      (d.Reject? && d.status == StatusForbidden)
        <==>
          && !meta.isPublic
          && Truthy(ExtractTokenFromHeader(headers))
          && var v := VerifyToken(ExtractTokenFromHeader(headers).value, secret, verify);
             && v.Ok?
             && store(UserFilter(v.value)).Found?
             && meta.roles.Some?
             && !Includes(meta.roles.value, v.value["userRole"])
  {
  }

  /**
   * An identity is attached exactly when the token verified, the user was
   * found and the role check passed; it is then the token's own
   * `{userId, userName, userRole}`.
   */
  lemma AllowIff(meta: RouteMetadata, headers: Headers, secret: Option<string>,
                 verify: Verifier, store: UserStore)
    ensures var d := Authorize(meta, headers, secret, verify, store);
      (d.Allow? && d.attached.Some?)
        <==>
          && !meta.isPublic
          && Truthy(ExtractTokenFromHeader(headers))
          && var v := VerifyToken(ExtractTokenFromHeader(headers).value, secret, verify);
             && v.Ok?
             && store(UserFilter(v.value)).Found?
             && !RoleDenied(meta.roles, v.value["userRole"])
             && d.attached == Some(IdentityOf(v.value))
  {
  }

  /**
   * Stated against the verifier rather than `VerifyToken`: a token the library
   * decodes, under a configured secret, into an object carrying both claims,
   * whose user is found and whose claim passes the role list, is admitted with
   * exactly the identity taken from that object.
   */
  lemma VerifiedPayloadAllowed(meta: RouteMetadata, headers: Headers, token: string, secret: Option<string>,
                               verify: Verifier, store: UserStore, claims: map<string, Json>)
    requires Presented(meta, headers, token) && Truthy(secret)
    requires verify(token, secret.value) == Decoded(JObject(claims))
    requires "userId" in claims && "userRole" in claims
    requires store(map["userId" := claims["userId"]]).Found?
    requires !RoleDenied(meta.roles, claims["userRole"])
    ensures Authorize(meta, headers, secret, verify, store) == Allow(Some(IdentityOf(claims)))
  {
    assert VerifyToken(token, secret, verify) == Ok(claims);
    assert UserFilter(claims) == map["userId" := claims["userId"]];
  }

  /** An empty role list forbids every request to a route that is not public. */
  lemma EmptyRolesForbidEveryone(meta: RouteMetadata, headers: Headers, secret: Option<string>,
                                 verify: Verifier, store: UserStore)
    requires !meta.isPublic && meta.roles == Some([])
    ensures Authorize(meta, headers, secret, verify, store).Reject?
  {
  }

  /**
   * `includes` is membership of the claim among the listed roles' values, so a
   * claim that is not a `UserRole` value never passes a role list.
   */
  lemma IncludesRoleClaim(roles: seq<UserRole>, claim: Json)
    ensures Includes(roles, claim) <==>
      claim.JString? && ParseRole(claim.str).Some? && ParseRole(claim.str).value in roles
  {
  }

  /**
   * Without a role list the role claim is not checked at all: a verified token
   * whose `userRole` is no `UserRole` value is still allowed, and that value is
   * attached to the request.
   */
  lemma UncheckedRoleClaim(meta: RouteMetadata, headers: Headers, token: string, secret: Option<string>,
                           verify: Verifier, store: UserStore, payload: JwtPayload)
    requires Presented(meta, headers, token) && meta.roles.None?
    requires VerifyToken(token, secret, verify) == Ok(payload)
    requires store(UserFilter(payload)).Found?
    ensures Authorize(meta, headers, secret, verify, store) == Allow(Some(IdentityOf(payload)))
  {
  }

  // ---------------------------------------------------------------------------
  // What the collaborators are asked
  // ---------------------------------------------------------------------------

  /** The token library is asked only about the presented token and the configured secret. */
  lemma VerifierAskedOnce(meta: RouteMetadata, headers: Headers, token: string, secret: Option<string>,
                          verify1: Verifier, verify2: Verifier, store: UserStore)
    requires Presented(meta, headers, token) && Truthy(secret)
    requires verify1(token, secret.value) == verify2(token, secret.value)
    ensures Authorize(meta, headers, secret, verify1, store) == Authorize(meta, headers, secret, verify2, store)
  {
  }

  /** When verification fails, the store is not consulted: any store gives the same answer. */
  lemma StoreNotAskedOnFailedVerification(meta: RouteMetadata, headers: Headers, token: string,
                                          secret: Option<string>, verify: Verifier,
                                          store1: UserStore, store2: UserStore)
    requires Presented(meta, headers, token)
    requires VerifyToken(token, secret, verify).Err?
    ensures Authorize(meta, headers, secret, verify, store1) == Authorize(meta, headers, secret, verify, store2)
  {
  }

  /** The store is asked once, with exactly `{userId: payload.userId}`. */
  lemma StoreAskedByUserId(meta: RouteMetadata, headers: Headers, token: string, secret: Option<string>,
                           verify: Verifier, store1: UserStore, store2: UserStore, payload: JwtPayload)
    requires Presented(meta, headers, token)
    requires VerifyToken(token, secret, verify) == Ok(payload)
    requires store1(map["userId" := payload["userId"]]) == store2(map["userId" := payload["userId"]])
    ensures Authorize(meta, headers, secret, verify, store1) == Authorize(meta, headers, secret, verify, store2)
  {
  }

  /**
   * The stored record's content plays no part: the role checked and the
   * identity attached come from the token, not from the record found.
   */
  lemma RecordContentIgnored(meta: RouteMetadata, headers: Headers, token: string, secret: Option<string>,
                             verify: Verifier, store1: UserStore, store2: UserStore, payload: JwtPayload)
    requires Presented(meta, headers, token)
    requires VerifyToken(token, secret, verify) == Ok(payload)
    requires store1(UserFilter(payload)).Found? && store2(UserFilter(payload)).Found?
    ensures Authorize(meta, headers, secret, verify, store1) == Authorize(meta, headers, secret, verify, store2)
  {
  }

  // ---------------------------------------------------------------------------
  // What the caller sees
  // ---------------------------------------------------------------------------

  /**
   * Every rejection is one of five fixed status-and-message pairs; the
   * internal messages (unknown user, missing secret, bad structure) and the
   * store's errors never reach the caller.
   */
  lemma RejectionsAreFixed(meta: RouteMetadata, headers: Headers, secret: Option<string>,
                           verify: Verifier, store: UserStore)
    ensures var d := Authorize(meta, headers, secret, verify, store);
      d.Reject? ==>
        || d == Reject(StatusUnauthorized, MissingTokenMessage)
        || d == Reject(StatusUnauthorized, ExpiredTokenMessage)
        || d == Reject(StatusUnauthorized, InvalidTokenMessage)
        || d == Reject(StatusUnauthorized, FailedAuthenticationMessage)
        || d == Reject(StatusForbidden, ForbiddenMessage)
  {
  }

  /** The payload `{userId: "u1", userRole: "admin_user"}` as the token library returns it. */
  function AdminPayload(): Json
  {
    JObject(map["userId" := JString("u1"), "userRole" := JString("admin_user")])
  }

  /**
   * A verified token for `u1` with role `admin_user`, a store that knows `u1`:
   * a route requiring `admin_user` admits it with identity `u1`/`admin_user`,
   * one requiring `public_user` forbids it.
   */
  lemma AdminScenario(token: string, verify: Verifier, store: UserStore)
    requires token != "" && ' ' !in token
    requires verify(token, "secret") == Decoded(AdminPayload())
    requires store(map["userId" := JString("u1")]).Found?
    ensures Authorize(RouteMetadata(false, Some([AdminUser])), map[AuthorizationHeader := "Bearer " + token],
                      Some("secret"), verify, store)
         == Allow(Some(Identity(JString("u1"), None, JString("admin_user"))))
    ensures Authorize(RouteMetadata(false, Some([PublicUser])), map[AuthorizationHeader := "Bearer " + token],
                      Some("secret"), verify, store)
         == Reject(StatusForbidden, ForbiddenMessage)
  {
    ParseBearerOf(token, "");
    assert "Bearer " + token + "" == "Bearer " + token;
    var headers := map[AuthorizationHeader := "Bearer " + token];
    assert ExtractTokenFromHeader(headers) == Some(token);
    var payload: JwtPayload := map["userId" := JString("u1"), "userRole" := JString("admin_user")];
    assert VerifyToken(token, Some("secret"), verify) == Ok(payload);
    assert UserFilter(payload) == map["userId" := JString("u1")];
    assert Includes([AdminUser], JString("admin_user"));
    assert !Includes([PublicUser], JString("admin_user"));
  }
}
