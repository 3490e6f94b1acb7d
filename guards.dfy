/**
 * The access guard that runs before every route: public bypass, bearer-token
 * extraction, token verification, user lookup, role check, and attaching the
 * caller's identity to the request.
 *
 * The collaborators become inputs: the route's metadata is `RouteMetadata`,
 * the configured `JWT_SECRET` an `Option<string>`, the token library's
 * `verify` a function from token and secret to its outcome, and the user
 * store's single-record lookup a function from the query filter to its
 * outcome. Exceptions become values of `Exception`, and the guard's answer a
 * `Decision`: `Allow` for `return true`, `Reject` for a thrown HTTP exception.
 */
module Guards {
  import opened Wrappers
  import opened UserEntity
  import opened JsStrings

  /** A decoded JSON value (the token library returns the token's payload parsed from JSON). */
  datatype Json =
    | JNull
    | JBool(b: bool)
    | JNumber(n: real)
    | JString(str: string)
    | JArray(items: seq<Json>)
    | JObject(fields: map<string, Json>)

  /** Request headers, keyed by lower-case header name. */
  type Headers = map<string, string>

  /** What the route's decorators attached: the `isPublic` flag and the `@Roles(...)` list. */
  datatype RouteMetadata = RouteMetadata(isPublic: bool, roles: Option<seq<UserRole>>)

  /** What the token library's `verify` does: return the decoded payload, or throw an error with this name. */
  datatype VerifyOutcome = Decoded(value: Json) | VerifyThrew(errorName: string)

  /** What the store's single-record lookup does: return a record, return `null`, or throw an error with this name. */
  datatype LookupOutcome = Found(record: map<string, Json>) | NotFound | LookupThrew(errorName: string)

  type Verifier = (string, string) -> VerifyOutcome
  type UserStore = map<string, Json> -> LookupOutcome

  /**
   * A decoded token payload that passed the shape check: an object holding
   * `userId` and `userRole`. Nothing checks the types of their values.
   */
  type JwtPayload = m: map<string, Json> | "userId" in m && "userRole" in m
    witness map["userId" := JNull, "userRole" := JNull]

  /** The identity attached as `request.user`; `userName` is `undefined` when the payload has none. */
  datatype Identity = Identity(userId: Json, userName: Option<Json>, userRole: Json)

  /** An exception thrown inside the guard's `try` block. */
  datatype Exception =
    | Unauthorized(message: string)   // an `UnauthorizedException` the guard throws itself
    | Forbidden(message: string)      // a `ForbiddenException` the guard throws itself
    | Raised(name: string)            // an error from the token library or the store, by its `name`

  /** The guard's answer: let the request through, or reject it with an HTTP status and message. */
  datatype Decision = Allow(attached: Option<Identity>) | Reject(status: nat, message: string)

  const AuthorizationHeader := "authorization"
  const AccessTokenHeader := "x-access-token"
  const BearerScheme := "Bearer"

  const StatusUnauthorized: nat := 401
  const StatusForbidden: nat := 403

  const MissingTokenMessage := "Authorization token is missing or malformed."
  const ExpiredTokenMessage := "Authorization token has expired. Please log in again."
  const InvalidTokenMessage := "Invalid token. Please log in again."
  const FailedAuthenticationMessage := "Failed to authenticate token."
  const ForbiddenMessage := "You do not have the required permissions to access this resource."
  const UnknownUserMessage := "User associated with this token does not exist."
  const MissingSecretMessage := "JWT secret is not defined"
  const BadStructureMessage := "Invalid token structure"

  const TokenExpiredErrorName := "TokenExpiredError"
  const JsonWebTokenErrorName := "JsonWebTokenError"

  /** JavaScript truthiness of a string that may be `undefined` or `null`. */
  predicate Truthy(s: Option<string>)
  {
    s.Some? && s.value != ""
  }

  /** `headers[name]`. */
  function Header(headers: Headers, name: string): Option<string>
  {
    if name in headers then Some(headers[name]) else None
  }

  /** The header starts with the scheme `Bearer` and one space. */
  predicate BearerPrefixed(header: string)
  {
    |header| >= 7 && header[..7] == "Bearer "
  }

  /**
   * Splits the header at each space; the token is the second segment when the
   * first is exactly `Bearer`, and otherwise there is none. `None` stands for
   * both `null` and `undefined`; `Some("")` is an empty token.
   */
  function ParseBearer(header: string): (token: Option<string>)
    ensures token.Some? ==> ' ' !in token.value
    ensures token.Some? ==> BearerPrefixed(header) && |header| >= 7 + |token.value|
  {
    SplitPrefix(header);
    var parts := Split(header, ' ');
    if parts[0] == BearerScheme && |parts| > 1 then Some(parts[1]) else None
  }

  /**
   * A header whose first space-separated segment is `Bearer` and which has a
   * second segment starts with `Bearer ` followed by that second segment.
   */
  lemma SplitPrefix(header: string)
    ensures var parts := Split(header, ' ');
            parts[0] == BearerScheme && |parts| > 1 ==>
              BearerPrefixed(header) && |header| >= 7 + |parts[1]|
  {
    JoinSplit(header, ' ');
    var parts := Split(header, ' ');
    if |parts| > 1 {
      assert Join(parts, ' ') == parts[0] + [' '] + Join(parts[1..], ' ');
      assert Join(parts[1..], ' ') == parts[1] + Join(parts[1..], ' ')[|parts[1]|..];
    }
  }

  /**
   * `extractTokenFromHeader`: a non-empty `authorization` header is parsed on its
   * own; only when it is absent or empty is `x-access-token` parsed instead.
   */
  function ExtractTokenFromHeader(headers: Headers): (token: Option<string>)
    ensures token.Some? ==> ' ' !in token.value
    ensures token.Some? ==>
      if Truthy(Header(headers, AuthorizationHeader))
      then BearerPrefixed(headers[AuthorizationHeader])
      else Truthy(Header(headers, AccessTokenHeader)) && BearerPrefixed(headers[AccessTokenHeader])
  {
    if Truthy(Header(headers, AuthorizationHeader)) then ParseBearer(headers[AuthorizationHeader])
    else if Truthy(Header(headers, AccessTokenHeader)) then ParseBearer(headers[AccessTokenHeader])
    else None
  }

  /**
   * The payload shape check: the decoded value must be an object that has
   * both a `userId` and a `userRole` key, whatever their values.
   */
  function CheckShape(decoded: Json): (r: Result<JwtPayload, Exception>)
    ensures r.Ok? <==> decoded.JObject? && "userId" in decoded.fields && "userRole" in decoded.fields
    ensures r.Ok? ==> decoded == JObject(r.value)
    ensures r.Err? ==> !r.error.Forbidden?
    ensures r.Err? ==> ErrorName(r.error) != TokenExpiredErrorName && ErrorName(r.error) != JsonWebTokenErrorName
  {
    match decoded
    // typeof null is 'object', and the `in` operator throws a TypeError on null
    case JNull => Err(Raised("TypeError"))
    case JObject(fields) =>
      if "userId" in fields && "userRole" in fields then Ok(fields)
      else Err(Unauthorized(BadStructureMessage))
    // an array is an object without these keys; the other values are not objects
    case _ => Err(Unauthorized(BadStructureMessage))
  }

  /** `verifyToken`: read the secret, call the library, check the decoded value's shape. */
  function VerifyToken(token: string, secret: Option<string>, verify: Verifier): (r: Result<JwtPayload, Exception>)
    ensures r.Ok? <==> Truthy(secret) && verify(token, secret.value).Decoded?
                       && CheckShape(verify(token, secret.value).value).Ok?
    ensures r.Ok? ==> Truthy(secret) && verify(token, secret.value) == Decoded(JObject(r.value))
    ensures Truthy(secret) && verify(token, secret.value).VerifyThrew?
            ==> r == Err(Raised(verify(token, secret.value).errorName))
    ensures r.Err? ==> !r.error.Forbidden?
    ensures r.Err? && r.error.Raised? && ErrorName(r.error) in {TokenExpiredErrorName, JsonWebTokenErrorName}
            ==> Truthy(secret) && verify(token, secret.value) == VerifyThrew(ErrorName(r.error))
  {
    if !Truthy(secret) then Err(Unauthorized(MissingSecretMessage))
    else match verify(token, secret.value)
      case VerifyThrew(name) => Err(Raised(name))
      case Decoded(value) => CheckShape(value)
  }

  /** The store query: a filter with the single key `userId`, holding the payload's `userId` claim. */
  function UserFilter(payload: JwtPayload): (filter: map<string, Json>)
    ensures filter.Keys == {"userId"} && filter["userId"] == payload["userId"]
  {
    map["userId" := payload["userId"]]
  }

  /** Whether the value is strictly equal to the string value of some listed role. */
  function Includes(roles: seq<UserRole>, value: Json): (b: bool)
    ensures b <==> exists i :: 0 <= i < |roles| && JString(RoleValue(roles[i])) == value
  {
    if roles == [] then false
    else JString(RoleValue(roles[0])) == value || Includes(roles[1..], value)
  }

  /**
   * The role check fails when a required-roles list is present and the role is
   * not among its values: an absent list admits every role, an empty one none.
   */
  predicate RoleDenied(roles: Option<seq<UserRole>>, role: Json): (denied: bool)
    ensures denied <==> roles.Some? && forall i :: 0 <= i < |roles.value| ==> JString(RoleValue(roles.value[i])) != role
  {
    roles.Some? && !Includes(roles.value, role)
  }

  /**
   * The identity attached to the request: the payload's `userId`, `userName`
   * and `userRole` claims, and no other claim (`iat` and `exp` are dropped).
   */
  function IdentityOf(payload: JwtPayload): (id: Identity)
    ensures id.userId == payload["userId"] && id.userRole == payload["userRole"]
    ensures id.userName.Some? <==> "userName" in payload
    ensures id.userName.Some? ==> id.userName.value == payload["userName"]
  {
    Identity(payload["userId"],
             if "userName" in payload then Some(payload["userName"]) else None,
             payload["userRole"])
  }

  /** The body of the `try` block: the identity to attach, or the exception thrown. */
  function Attempt(token: string, roles: Option<seq<UserRole>>, secret: Option<string>,
                   verify: Verifier, store: UserStore): (r: Result<Identity, Exception>)
    ensures r.Ok? <==>
      && VerifyToken(token, secret, verify).Ok?
      && store(UserFilter(VerifyToken(token, secret, verify).value)).Found?
      && !RoleDenied(roles, VerifyToken(token, secret, verify).value["userRole"])
    ensures r.Ok? ==> r.value == IdentityOf(VerifyToken(token, secret, verify).value)
    ensures r.Err? && r.error.Forbidden? ==>
      && r.error.message == ForbiddenMessage
      && VerifyToken(token, secret, verify).Ok?
      && store(UserFilter(VerifyToken(token, secret, verify).value)).Found?
  {
    match VerifyToken(token, secret, verify)
    case Err(e) => Err(e)
    case Ok(payload) =>
      match store(UserFilter(payload))
      case LookupThrew(name) => Err(Raised(name))
      case NotFound => Err(Unauthorized(UnknownUserMessage))
      case Found(_) =>
        if RoleDenied(roles, payload["userRole"]) then Err(Forbidden(ForbiddenMessage))
        else Ok(IdentityOf(payload))
  }

  /** The `name` property the `catch` block inspects. */
  function ErrorName(e: Exception): string
  {
    match e
    case Unauthorized(_) => "UnauthorizedException"
    case Forbidden(_) => "ForbiddenException"
    case Raised(name) => name
  }

  /**
   * The `catch` block: the two token-library errors get their own 401, a
   * `ForbiddenException` is rethrown as it is, and everything else becomes
   * the generic 401.
   */
  function Reclassify(e: Exception): (d: Decision)
    ensures d.Reject?
    ensures d.status == StatusForbidden <==> e.Forbidden?
    ensures e.Forbidden? ==> d.message == e.message
    ensures e.Raised? && e.name == TokenExpiredErrorName ==> d.message == ExpiredTokenMessage
    ensures e.Raised? && e.name == JsonWebTokenErrorName ==> d.message == InvalidTokenMessage
    ensures e.Unauthorized? ==> d == Reject(StatusUnauthorized, FailedAuthenticationMessage)
  {
    if ErrorName(e) == TokenExpiredErrorName then Reject(StatusUnauthorized, ExpiredTokenMessage)
    else if ErrorName(e) == JsonWebTokenErrorName then Reject(StatusUnauthorized, InvalidTokenMessage)
    else if e.Forbidden? then Reject(StatusForbidden, e.message)
    else Reject(StatusUnauthorized, FailedAuthenticationMessage)
  }

  /** `canActivate` as a decision: what the guard answers for this route, request and collaborators. */
  function Authorize(meta: RouteMetadata, headers: Headers, secret: Option<string>,
                     verify: Verifier, store: UserStore): (d: Decision)
    ensures d == Allow(None) <==> meta.isPublic
    ensures d.Allow? && d.attached.Some? ==> Truthy(ExtractTokenFromHeader(headers))
    ensures d.Reject? ==> d.status == StatusUnauthorized || d.status == StatusForbidden
    ensures d.Reject? && d.status == StatusForbidden ==> d.message == ForbiddenMessage && meta.roles.Some?
  {
    if meta.isPublic then Allow(None)
    else
      var token := ExtractTokenFromHeader(headers);
      if !Truthy(token) then Reject(StatusUnauthorized, MissingTokenMessage)
      else match Attempt(token.value, meta.roles, secret, verify, store)
        case Ok(identity) => Allow(Some(identity))
        case Err(e) => Reclassify(e)
  }

  /** An incoming HTTP request: its headers, and the `user` property the guard may set. */
  class Request {
    const headers: Headers
    var user: Option<Identity>

    constructor (headers: Headers, user: Option<Identity>)
      ensures this.headers == headers && this.user == user
    {
      this.headers := headers;
      this.user := user;
    }
  }

  /** The guard, with its injected configuration, token library and user store. */
  class AuthGuard {
    const jwtSecret: Option<string>
    const verify: Verifier
    const selectWithAndOne: UserStore

    constructor (jwtSecret: Option<string>, verify: Verifier, selectWithAndOne: UserStore)
      ensures this.jwtSecret == jwtSecret && this.verify == verify
      ensures this.selectWithAndOne == selectWithAndOne
    {
      this.jwtSecret := jwtSecret;
      this.verify := verify;
      this.selectWithAndOne := selectWithAndOne;
    }

    /**
     * `canActivate`, step by step. The answer is `Authorize`'s; `request.user`
     * is assigned the identity on an authenticated success and left as it was
     * otherwise.
     */
    method CanActivate(meta: RouteMetadata, request: Request) returns (d: Decision)
      modifies request
      ensures d == Authorize(meta, request.headers, jwtSecret, verify, selectWithAndOne)
      ensures request.user == if d.Allow? && d.attached.Some? then d.attached else old(request.user)
    {
      if meta.isPublic {
        return Allow(None);
      }
      var requiredRoles := meta.roles;
      var token := ExtractTokenFromHeader(request.headers);
      if !Truthy(token) {
        return Reject(StatusUnauthorized, MissingTokenMessage);
      }
      var thrown: Exception;
      var verified := VerifyToken(token.value, jwtSecret, verify);
      if verified.Err? {
        thrown := verified.error;
      } else {
        var payload := verified.value;
        var user := selectWithAndOne(UserFilter(payload));
        if user.LookupThrew? {
          thrown := Raised(user.errorName);
        } else if user.NotFound? {
          thrown := Unauthorized(UnknownUserMessage);
        } else if RoleDenied(requiredRoles, payload["userRole"]) {
          thrown := Forbidden(ForbiddenMessage);
        } else {
          request.user := Some(IdentityOf(payload));
          return Allow(request.user);
        }
      }
      d := Reclassify(thrown);
    }
  }
}
