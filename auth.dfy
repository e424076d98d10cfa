/** Bearer-token authentication of the backend (`JWTAuthentication`).

    The header value is what `request.headers.get("Authorization")` yields.
    Signature checking is the parameter `decode` from a token to its claims
    or to the decoder's error, and the current time is the parameter `now`,
    in the unit of the `exp` claim. */
module Auth {
  import opened Text

  /** The user object built from a token's claims (`JWTUser`). */
  datatype JwtUser = JwtUser(id: Option<int>, email: string, isAuthenticated: bool, isActive: bool, isAnonymous: bool)

  /** `JWTUser(user_id, email)`: authenticated, active, not anonymous. */
  function NewJwtUser(userId: Option<int>, email: string): (u: JwtUser)
    ensures u.id == userId && u.email == email
    ensures u.isAuthenticated && u.isActive && !u.isAnonymous
  {
    JwtUser(userId, email, true, true, false)
  }

  /** `str(user)`. */
  function UserName(u: JwtUser): string
  {
    u.email
  }

  /** The claims read from a decoded payload; `None` is a missing key. */
  datatype Claims = Claims(userId: Option<int>, email: Option<string>, exp: Option<int>)

  /** What the signature check yields. */
  datatype Decoded = Valid(claims: Claims) | SignatureExpired | Invalid(reason: string)

  /** No attempt (`None`), a user and the token, `AuthenticationFailed`, or
      an exception that neither `except` clause catches, which ends the
      request in a server error. */
  datatype AuthResult = Anonymous | Authenticated(user: JwtUser, token: string) | AuthFailed(message: string) | Unhandled

  const BadFormat := "Invalid Authorization header format."
  const BadPrefix := "Invalid token prefix. Expected 'Bearer'."
  const Expired := "Token has expired."

  /** The seconds of 0001-01-01T00:00:00Z and of 9999-12-31T23:59:59Z, the
      first and last whole seconds a UTC `datetime` can hold. */
  const MinTimestamp := -62135596800
  const MaxTimestamp := 253402300799

  /** A truthy `exp` that `datetime.fromtimestamp` cannot convert: it raises
      instead of returning a date. */
  predicate ExpOutOfRange(claims: Claims)
  {
    claims.exp.Some? && claims.exp.value != 0 &&
    !(MinTimestamp <= claims.exp.value <= MaxTimestamp)
  }

  /** The claims' own expiry check: a truthy, convertible `exp` strictly
      before now. */
  predicate ExpiredAt(claims: Claims, now: int)
  {
    claims.exp.Some? && claims.exp.value != 0 &&
    MinTimestamp <= claims.exp.value <= MaxTimestamp && claims.exp.value < now
  }

  function EmailOrEmpty(claims: Claims): string
  {
    match claims.email
    case Some(e) => e
    case None => ""
  }

  function Authenticate(authorization: Option<string>, decode: string -> Decoded, now: int): AuthResult
  {
    if authorization.None? || authorization.value == "" then Anonymous
    else
      var parts := Split(authorization.value, ' ');
      if |parts| != 2 then AuthFailed(BadFormat)
      else if parts[0] != "Bearer" then AuthFailed(BadPrefix)
      else match decode(parts[1])
        case SignatureExpired => AuthFailed(Expired)
        case Invalid(reason) => AuthFailed("Invalid token: " + reason)
        case Valid(claims) =>
          if ExpOutOfRange(claims) then Unhandled
          else if ExpiredAt(claims, now) then AuthFailed(Expired)
          else Authenticated(NewJwtUser(claims.userId, EmailOrEmpty(claims)), parts[1])
  }

  /** No authentication is attempted exactly when the header is missing or
      empty. */
  lemma AnonymousExactly(authorization: Option<string>, decode: string -> Decoded, now: int)
    ensures Authenticate(authorization, decode, now) == Anonymous <==>
      authorization.None? || authorization.value == ""
  {
  }

  /** A non-empty header is malformed exactly when it does not hold exactly
      one space. */
  lemma FormatExactly(header: string, decode: string -> Decoded, now: int)
    requires header != ""
    ensures Authenticate(Some(header), decode, now) == AuthFailed(BadFormat) <==> Count(header, ' ') != 1
  {
    TwoParts(header, ' ');
    var parts := Split(header, ' ');
    if |parts| == 2 && parts[0] == "Bearer" {
      match decode(parts[1])
      case Invalid(reason) => assert ("Invalid token: " + reason)[8] != BadFormat[8];
      case _ =>
    }
  }

  /** A header `prefix token` with one space and a prefix other than exactly
      `Bearer` (letter case included) is refused for its prefix. */
  lemma PrefixChecked(prefix: string, token: string, decode: string -> Decoded, now: int)
    requires ' ' !in prefix && ' ' !in token && prefix != "Bearer"
    ensures Authenticate(Some(prefix + " " + token), decode, now) == AuthFailed(BadPrefix)
  {
    SplitAround(prefix, token, ' ');
  }

  /** With a well-formed `Bearer` header, the decoder's errors are reported
      as expiry or as an invalid token, and valid claims expire only by a
      truthy `exp` before now: a token without `exp` passes this check, and
      one whose `exp` no date can hold is not caught at all. */
  lemma DecodeOutcomes(token: string, decode: string -> Decoded, now: int)
    requires ' ' !in token
    ensures decode(token) == SignatureExpired ==> Authenticate(Some("Bearer " + token), decode, now) == AuthFailed(Expired)
    ensures decode(token).Invalid? ==>
      Authenticate(Some("Bearer " + token), decode, now) == AuthFailed("Invalid token: " + decode(token).reason)
    ensures decode(token).Valid? ==>
      (Authenticate(Some("Bearer " + token), decode, now) == AuthFailed(Expired) <==> ExpiredAt(decode(token).claims, now))
    ensures decode(token).Valid? && decode(token).claims.exp.None? ==>
      Authenticate(Some("Bearer " + token), decode, now).Authenticated?
    ensures decode(token).Valid? ==>
      (Authenticate(Some("Bearer " + token), decode, now) == Unhandled <==> ExpOutOfRange(decode(token).claims))
  {
    SplitAround("Bearer", token, ' ');
  }

  /** Authentication succeeds exactly for `Bearer <token>` with a space-free
      token whose claims decode, whose `exp` a date can hold, and have not
      expired; the result carries the token unchanged and a user with the
      claimed id and email. */
  lemma AuthenticatedExactly(header: string, decode: string -> Decoded, now: int, token: string)
    ensures (Authenticate(Some(header), decode, now).Authenticated? &&
             Authenticate(Some(header), decode, now).token == token) <==>
      (header == "Bearer " + token && ' ' !in token &&
       decode(token).Valid? && !ExpOutOfRange(decode(token).claims) && !ExpiredAt(decode(token).claims, now))
    ensures Authenticate(Some(header), decode, now).Authenticated? ==>
      var r := Authenticate(Some(header), decode, now);
      var claims := decode(r.token).claims;
      header == "Bearer " + r.token &&
      r.user == NewJwtUser(claims.userId, EmailOrEmpty(claims))
  {
    if header == "Bearer " + token && ' ' !in token {
      SplitAround("Bearer", token, ' ');
    }
    var r := Authenticate(Some(header), decode, now);
    if r.Authenticated? {
      TwoParts(header, ' ');
      var parts := Split(header, ' ');
      assert parts[0] + [' '] + parts[1] == header;
      assert "Bearer" + [' '] + parts[1] == "Bearer " + parts[1];
    }
  }

  /** A user's string form is its email. */
  lemma UserNameIsEmail(userId: Option<int>, email: string)
    ensures UserName(NewJwtUser(userId, email)) == email
  {
  }
}
