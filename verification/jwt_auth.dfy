/**
 * Access tokens: the claims `create_access_token` signs, and the checks
 * `get_current_user` makes on a presented token. Signing and verifying with
 * the secret key are not modelled: signing is a function given as a
 * parameter, and the outcome of verifying and decoding a token is an input.
 */
module JwtAuth {
  import opened Wrappers
  import opened Numerals
  import opened UserModel

  /** The JSON values a claim can hold in this system. */
  datatype ClaimValue = Str(s: string) | Int(i: int) | Bool(b: bool) | Null

  type Claims = map<string, ClaimValue>

  const AccessTokenExpireMinutes: int := 30

  /** `str(v)` for a claim value that is not a string. */
  function PyStrOf(v: ClaimValue): string {
    match v
    case Str(s) => s
    case Int(i) => PyStr(i)
    case Bool(b) => if b then "True" else "False"
    case Null => "None"
  }

  /**
   * The expiry time, in seconds: `now` plus `expiresDelta` when it is given
   * and non-zero (a zero `timedelta` is falsy), else `now` plus 30 minutes.
   */
  function Expiry(now: int, expiresDelta: Option<int>): (exp: int)
    ensures expiresDelta.Some? && expiresDelta.value != 0 ==> exp == now + expiresDelta.value
    ensures expiresDelta.None? || expiresDelta.value == 0 ==> exp == now + 1800
  {
    if expiresDelta.Some? && expiresDelta.value != 0 then now + expiresDelta.value
    else now + AccessTokenExpireMinutes * 60
  }

  /**
   * The claims `create_access_token` signs: those of `data`, with `exp`
   * added or overwritten (section 4.1.4 of RFC 7519) and a non-string `sub`
   * replaced by its string form (section 4.1.2 of RFC 7519 requires a string).
   */
  function ClaimsToEncode(data: Claims, now: int, expiresDelta: Option<int>): (claims: Claims)
    ensures claims.Keys == data.Keys + {"exp"}
    ensures claims["exp"] == Int(Expiry(now, expiresDelta))
    ensures "sub" in data ==> claims["sub"] == Str(PyStrOf(data["sub"]))
    ensures forall k :: k in data && k != "exp" && k != "sub" ==> claims[k] == data[k]
  {
    var withExp := data["exp" := Int(Expiry(now, expiresDelta))];
    if "sub" in withExp && !withExp["sub"].Str? then withExp["sub" := Str(PyStrOf(withExp["sub"]))]
    else withExp
  }

  /**
   * `create_access_token`: copies `data`, sets the expiry, converts `sub`
   * and signs the result with `sign`. `data` is a value, so the caller's
   * claims are never changed.
   */
  method CreateAccessToken(data: Claims, now: int, expiresDelta: Option<int>, sign: Claims -> string)
    returns (token: string)
    ensures token == sign(ClaimsToEncode(data, now, expiresDelta))
  {
    var toEncode := data;
    var expire;
    if expiresDelta.Some? && expiresDelta.value != 0 {
      expire := now + expiresDelta.value;
    } else {
      expire := now + AccessTokenExpireMinutes * 60;
    }
    toEncode := toEncode["exp" := Int(expire)];
    if "sub" in toEncode && !toEncode["sub"].Str? {
      toEncode := toEncode["sub" := Str(PyStrOf(toEncode["sub"]))];
    }
    token := sign(toEncode);
  }

  /** What verifying and decoding a token gave: an error of the JWT library, or the claims. */
  datatype Decoded = DecodeFailed | Decoded(claims: Claims)

  datatype AuthOutcome =
    | Authenticated(user: UserRecord)
    | Rejected(error: HttpError)
    /** `int()` raised `ValueError`, which the `except JWTError` does not catch. */
    | ValueErrorRaised

  /** The 401 response of `get_current_user`. */
  function CredentialsError(): (e: HttpError)
    ensures e.status == 401 && e.headers == map["WWW-Authenticate" := "Bearer"]
  {
    HttpError(401, "Could not validate credentials", map["WWW-Authenticate" := "Bearer"])
  }

  /**
   * `int(v)` for a claim value other than `null`; `None` stands for
   * `ValueError`. The library's `decode` already refuses a `sub` that is not
   * a string (a `JWTClaimsError`, which is a `JWTError` and so a 401), so a
   * `Decoded` holding an `Int` or `Bool` subject does not arise from a real
   * token; for those values the model follows `int()` as the function body
   * would.
   */
  function IntOfClaim(v: ClaimValue): Option<int>
    requires !v.Null?
  {
    match v
    case Str(s) => PyInt(s)
    case Int(i) => Some(i)
    case Bool(b) => Some(if b then 1 else 0)
  }

  /**
   * `get_current_user`: a token that does not decode, or whose `sub` is
   * missing or null, is refused with 401; a `sub` that is not an integer
   * numeral escapes as `ValueError`; an integer with no user is refused with
   * 401; otherwise the user with that id is returned.
   */
  function GetCurrentUser(decoded: Decoded, users: map<int, UserRecord>): (r: AuthOutcome)
    ensures r.Rejected? ==> r.error == CredentialsError()
    ensures decoded.DecodeFailed? ==> r.Rejected?
    ensures decoded.Decoded? && ("sub" !in decoded.claims || decoded.claims["sub"].Null?) ==> r.Rejected?
    ensures r.ValueErrorRaised? <==>
      decoded.Decoded? && "sub" in decoded.claims && !decoded.claims["sub"].Null?
      && IntOfClaim(decoded.claims["sub"]).None?
    ensures r.Authenticated? <==>
      decoded.Decoded? && "sub" in decoded.claims && !decoded.claims["sub"].Null?
      && IntOfClaim(decoded.claims["sub"]).Some? && IntOfClaim(decoded.claims["sub"]).value in users
    ensures r.Authenticated? ==> r.user == users[IntOfClaim(decoded.claims["sub"]).value]
    ensures r.Authenticated? && (forall id :: id in users ==> users[id].id == id) ==>
      r.user.id == IntOfClaim(decoded.claims["sub"]).value
  {
    match decoded
    case DecodeFailed => Rejected(CredentialsError())
    case Decoded(claims) =>
      if "sub" !in claims || claims["sub"].Null? then Rejected(CredentialsError())
      else match IntOfClaim(claims["sub"])
        case None => ValueErrorRaised
        case Some(id) => if id in users then Authenticated(users[id]) else Rejected(CredentialsError())
  }

  /**
   * A token made for a user id, once decoded, names that user again: the
   * subject's string form reads back as the same integer.
   */
  lemma TokenSubjectRoundTrip(id: int, now: int, expiresDelta: Option<int>, users: map<int, UserRecord>)
    ensures var claims := ClaimsToEncode(map["sub" := Int(id)], now, expiresDelta);
      && claims["sub"] == Str(PyStr(id))
      && (id in users ==> GetCurrentUser(Decoded(claims), users) == Authenticated(users[id]))
      && (id !in users ==> GetCurrentUser(Decoded(claims), users) == Rejected(CredentialsError()))
  {
    PyIntOfPyStr(id);
  }
}
