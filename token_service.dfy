/** Tokens and signed URLs (backend/app/application/services/token_service.py).
  * JWT encoding and decoding, HMAC-SHA256, `urllib.parse.urlparse` with
  * `parse_qs`, and `quote_plus` are the library's, and enter the model as
  * the functions of a `Crypto` value. A parsed query is what `parse_qs`
  * returns: each name once, in order of first appearance, with its values.
  * Clock readings are whole seconds passed in. */
module TokenService {
  import opened Wrappers
  import opened PyStr
  import opened Json
  import UserModel

  /** A decoded query: names and their value lists, names distinct. */
  type Query = seq<(string, seq<string>)>

  /** The six parts `urlparse` yields, with the query decoded. */
  datatype ParsedUrl = ParsedUrl(scheme: string, netloc: string, path: string, params: string,
                                 query: Query, fragment: string)

  datatype Crypto = Crypto(
    secret: string,
    /** `hmac.new(key, msg, sha256).hexdigest()`. */
    hmac: (string, string) -> string,
    /** `quote_plus`. */
    quote: string -> string,
    /** `urlparse` followed by `parse_qs` of its query. */
    parse: string -> ParsedUrl,
    /** `jwt.encode` and `jwt.decode` with the configured key; decoding
      * yields None for a token the library refuses. */
    encode: Claims -> string,
    decode: string -> Option<Claims>)

  /** A JWT payload seen through the claims the service reads; any other
    * claims (`iat`, the resource claims) are kept in `others`. */
  datatype Claims = Claims(sub: Option<Json>, fullname: Option<Json>, email: Option<Json>, role: Option<Json>,
                           isActive: Option<Json>, exp: Option<Json>, tokenType: Option<Json>,
                           others: seq<(string, Json)>)
  {
    /** A payload is falsy when it has no claims at all. */
    predicate Empty()
    {
      sub.None? && fullname.None? && email.None? && role.None? && isActive.None? && exp.None?
      && tokenType.None? && others == []
    }
  }

  // ---------------------------------------------------------------------
  // The query dictionary

  /** `q.get(name)`. */
  function QueryGet(q: Query, name: string): (r: Option<seq<string>>)
    ensures r.Some? ==> (name, r.value) in q
    ensures r.None? ==> forall e :: e in q ==> e.0 != name
  {
    if q == [] then None else if q[0].0 == name then Some(q[0].1) else QueryGet(q[1..], name)
  }

  /** `q[name] = values`: an existing name keeps its place, a new one goes
    * last. */
  function QuerySet(q: Query, name: string, values: seq<string>): (r: Query)
    ensures QueryGet(r, name) == Some(values)
    ensures forall n :: n != name ==> QueryGet(r, n) == QueryGet(q, n)
    ensures QueryGet(q, name).None? ==> r == q + [(name, values)]
  {
    if q == [] then [(name, values)]
    else if q[0].0 == name then [(name, values)] + q[1..]
    else [q[0]] + QuerySet(q[1..], name, values)
  }

  /** `{k: v for k, v in q.items() if k not in ['signature', 'expires']}`. */
  function WithoutSignature(q: Query): (r: Query)
    ensures QueryGet(r, "signature").None? && QueryGet(r, "expires").None?
    ensures forall n :: n != "signature" && n != "expires" ==> QueryGet(r, n) == QueryGet(q, n)
    ensures |r| <= |q|
  {
    if q == [] then []
    else if q[0].0 == "signature" || q[0].0 == "expires" then WithoutSignature(q[1..])
    else [q[0]] + WithoutSignature(q[1..])
  }

  /** The `name=value` pairs `urlencode(..., doseq=True)` writes for one
    * entry. */
  function EncodeValues(quote: string -> string, name: string, values: seq<string>): seq<string>
  {
    if values == [] then [] else [quote(name) + "=" + quote(values[0])] + EncodeValues(quote, name, values[1..])
  }

  function EncodePairs(quote: string -> string, q: Query): seq<string>
  {
    if q == [] then [] else EncodeValues(quote, q[0].0, q[0].1) + EncodePairs(quote, q[1..])
  }

  /** `urlencode(q, doseq=True)`. */
  function Urlencode(quote: string -> string, q: Query): (r: string)
    ensures q == [] ==> r == []
  {
    Join("&", EncodePairs(quote, q))
  }

  /** `urlunparse(('', '', path, params, query, fragment))`. */
  function Unparse(path: string, params: string, query: string, fragment: string): (r: string)
    ensures StartsWith(r, path)
    ensures params == [] && query == [] && fragment == [] ==> r == path
    ensures params == [] && fragment == [] && query != [] ==> r == path + "?" + query
  {
    var url := if params != [] then path + ";" + params else path;
    var url := if query != [] then url + "?" + query else url;
    if fragment != [] then url + "#" + fragment else url
  }

  // ---------------------------------------------------------------------
  // Signed URLs

  /** What the HMAC is computed over: `f"{url}|{expires}"`. */
  function SignedPayload(url: string, expires: int): string
  {
    url + "|" + IntToStr(expires)
  }

  /** `create_signed_url(base_url, expire_minutes)` at time `now`: the
    * signature covers the base URL exactly as given and the expiry
    * timestamp, and the result is the base URL's path, parameters and
    * fragment with `signature` and `expires` set in its query. */
  function CreateSignedUrl(c: Crypto, baseUrl: string, now: int, expireMinutes: int): (r: string)
    ensures var p := c.parse(baseUrl);
            var exp := now + 60 * expireMinutes;
            var q := QuerySet(QuerySet(p.query, "signature", [c.hmac(c.secret, SignedPayload(baseUrl, exp))]),
                              "expires", [IntToStr(exp)]);
            StartsWith(r, p.path)
            && QueryGet(q, "signature") == Some([c.hmac(c.secret, SignedPayload(baseUrl, exp))])
            && QueryGet(q, "expires") == Some([IntToStr(exp)])
            && r == Unparse(p.path, p.params, Urlencode(c.quote, q), p.fragment)
  {
    var expires := now + 60 * expireMinutes;
    var signature := c.hmac(c.secret, SignedPayload(baseUrl, expires));
    var p := c.parse(baseUrl);
    var q := QuerySet(QuerySet(p.query, "signature", [signature]), "expires", [IntToStr(expires)]);
    Unparse(p.path, p.params, Urlencode(c.quote, q), p.fragment)
  }

  /** `query_params.get(name, [None])[0]`, with None also for an empty
    * value list (indexing it raises, and the exception makes the check
    * fail just as a missing value does). */
  function FirstValue(q: Query, name: string): (r: Option<string>)
    ensures r.Some? <==> QueryGet(q, name).Some? && QueryGet(q, name).value != []
    ensures r.Some? ==> r.value == QueryGet(q, name).value[0]
  {
    match QueryGet(q, name)
    case None => None
    case Some(vs) => if vs == [] then None else Some(vs[0])
  }

  /** The URL the verifier signs again: path, parameters, the query
    * without `signature` and `expires`, and the fragment; scheme and host
    * are dropped. */
  function RebuiltBase(c: Crypto, p: ParsedUrl): string
  {
    Unparse(p.path, p.params, Urlencode(c.quote, WithoutSignature(p.query)), p.fragment)
  }

  /** `verify_signed_url` on an already parsed URL at time `now`. */
  function VerifyParsed(c: Crypto, p: ParsedUrl, now: int): (r: bool)
    ensures FirstValue(p.query, "signature") in {None, Some("")} ==> !r
    ensures FirstValue(p.query, "expires") in {None, Some("")} ==> !r
    ensures r ==> var e := FirstValue(p.query, "expires").value;
                  ParseInt(e).Some? && now <= ParseInt(e).value
                  && FirstValue(p.query, "signature").value
                     == c.hmac(c.secret, SignedPayload(RebuiltBase(c, p), ParseInt(e).value))
    ensures (var s := FirstValue(p.query, "signature"); var e := FirstValue(p.query, "expires");
             s.Some? && s.value != [] && e.Some? && ParseInt(e.value).Some? && now <= ParseInt(e.value).value
             && s.value == c.hmac(c.secret, SignedPayload(RebuiltBase(c, p), ParseInt(e.value).value))) ==> r
  {
    var signature := FirstValue(p.query, "signature");
    var expiresText := FirstValue(p.query, "expires");
    if signature.None? || signature.value == [] || expiresText.None? || expiresText.value == [] then false
    else
      match ParseInt(expiresText.value)
      case None => false
      case Some(expires) =>
        if expires < now then false
        else signature.value == c.hmac(c.secret, SignedPayload(RebuiltBase(c, p), expires))
  }

  /** `verify_signed_url(request_url)` at time `now`. */
  function VerifySignedUrl(c: Crypto, requestUrl: string, now: int): bool
  {
    VerifyParsed(c, c.parse(requestUrl), now)
  }

  /** A base URL that is a bare path: no scheme, host, parameters, query or
    * fragment, as every caller passes. */
  predicate BarePath(c: Crypto, baseUrl: string)
  {
    c.parse(baseUrl).path == baseUrl && c.parse(baseUrl).params == [] && c.parse(baseUrl).query == []
    && c.parse(baseUrl).fragment == []
  }

  /** The query a bare path is signed with. */
  function SignedQuery(c: Crypto, baseUrl: string, expires: int): Query
  {
    [("signature", [c.hmac(c.secret, SignedPayload(baseUrl, expires))]), ("expires", [IntToStr(expires)])]
  }

  lemma SignedQueryOfBarePath(c: Crypto, baseUrl: string, now: int, expireMinutes: int)
    requires BarePath(c, baseUrl)
    ensures var exp := now + 60 * expireMinutes;
            QuerySet(QuerySet(c.parse(baseUrl).query, "signature", [c.hmac(c.secret, SignedPayload(baseUrl, exp))]),
                     "expires", [IntToStr(exp)]) == SignedQuery(c, baseUrl, exp)
  {
  }

  /** What the verifier reads back from the query a bare path is signed
    * with. */
  lemma SignedQueryFields(c: Crypto, baseUrl: string, exp: int)
    ensures var q := SignedQuery(c, baseUrl, exp);
            FirstValue(q, "signature") == Some(c.hmac(c.secret, SignedPayload(baseUrl, exp)))
            && FirstValue(q, "expires") == Some(IntToStr(exp)) && WithoutSignature(q) == []
  {
  }

  lemma IntToStrNonEmpty(n: int)
    ensures IntToStr(n) != []
  {
    if n >= 0 {
      assert |NatToStr(n)| >= 1;
    }
  }

  /** Round trip: a URL signed for a bare path at time `now` for
    * `expireMinutes` minutes verifies at time `t` exactly when `t` is not
    * past the expiry, wherever it is served from. This needs the digest to
    * be non-empty (a hex SHA-256 digest has 64 characters) and the URL
    * parser to read back the path and query that were written. */
  lemma {:induction false} SignedUrlRoundTrip(c: Crypto, baseUrl: string, now: int, expireMinutes: int,
                                              scheme: string, host: string, t: int)
    requires BarePath(c, baseUrl)
    requires c.hmac(c.secret, SignedPayload(baseUrl, now + 60 * expireMinutes)) != []
    requires var signed := CreateSignedUrl(c, baseUrl, now, expireMinutes);
             var exp := now + 60 * expireMinutes;
             c.parse(signed) == ParsedUrl(scheme, host, baseUrl, "", SignedQuery(c, baseUrl, exp), "")
    ensures VerifySignedUrl(c, CreateSignedUrl(c, baseUrl, now, expireMinutes), t) <==> t <= now + 60 * expireMinutes
  {
    var exp := now + 60 * expireMinutes;
    BareUrlVerifies(c, baseUrl, exp, CreateSignedUrl(c, baseUrl, now, expireMinutes), scheme, host, t);
  }

  /** Any URL that parses to a bare path and the query it is signed with
    * verifies exactly until its expiry. */
  lemma BareUrlVerifies(c: Crypto, baseUrl: string, exp: int, url: string, scheme: string, host: string, t: int)
    requires c.hmac(c.secret, SignedPayload(baseUrl, exp)) != []
    requires c.parse(url) == ParsedUrl(scheme, host, baseUrl, "", SignedQuery(c, baseUrl, exp), "")
    ensures VerifySignedUrl(c, url, t) <==> t <= exp
  {
    var p := ParsedUrl(scheme, host, baseUrl, "", SignedQuery(c, baseUrl, exp), "");
    ParseIntToStr(exp);
    IntToStrNonEmpty(exp);
    SignedQueryFields(c, baseUrl, exp);
    assert RebuiltBase(c, p) == baseUrl;
  }

  /** The signature does not cover scheme or host: the same path and query
    * verify identically under any of them. */
  lemma SchemeAndHostUnsigned(c: Crypto, p: ParsedUrl, scheme: string, host: string, now: int)
    ensures VerifyParsed(c, p.(scheme := scheme, netloc := host), now) == VerifyParsed(c, p, now)
  {
    assert RebuiltBase(c, p.(scheme := scheme, netloc := host)) == RebuiltBase(c, p);
  }

  /** An expires value that is not a decimal integer fails verification
    * (Python's `int` raises); one strictly before `now` fails too. */
  lemma BadExpiresRejected(c: Crypto, p: ParsedUrl, now: int)
    requires FirstValue(p.query, "expires").Some?
    requires var e := ParseInt(FirstValue(p.query, "expires").value); e.None? || e.value < now
    ensures !VerifyParsed(c, p, now)
  {
  }

  // ---------------------------------------------------------------------
  // JWT payloads

  /** `create_access_token`'s claims for `user` issued at `now`. */
  function AccessClaims(user: UserModel.UserData, now: int, expireMinutes: int): (r: Claims)
    ensures r.tokenType == Some(JStr("access"))
    ensures r.exp == Some(JInt(now + 60 * expireMinutes)) && r.others == [("iat", JInt(now))]
  {
    Claims(Some(JStr(user.id)), Some(JStr(user.fullname)), Some(JStr(user.email)),
           Some(JStr(UserModel.RoleValue(user.role))), Some(JBool(user.isActive)),
           Some(JInt(now + 60 * expireMinutes)), Some(JStr("access")), [("iat", JInt(now))])
  }

  /** `create_refresh_token`'s claims: no e-mail, role or activity flag. */
  function RefreshClaims(user: UserModel.UserData, now: int, expireDays: int): (r: Claims)
    ensures r.tokenType == Some(JStr("refresh"))
    ensures r.email.None? && r.role.None? && r.isActive.None?
    ensures r.exp == Some(JInt(now + 86400 * expireDays))
  {
    Claims(Some(JStr(user.id)), Some(JStr(user.fullname)), None, None, None,
           Some(JInt(now + 86400 * expireDays)), Some(JStr("refresh")), [("iat", JInt(now))])
  }

  /** `create_resource_access_token`'s claims. */
  function ResourceClaims(resourceType: string, resourceId: string, userId: string, now: int,
                          expireMinutes: int): (r: Claims)
    ensures r.tokenType == Some(JStr("resource_access"))
    ensures r.sub.None? && r.exp == Some(JInt(now + 60 * expireMinutes))
    ensures Lookup(r.others, "resource_type") == Some(JStr(resourceType))
  {
    Claims(None, None, None, None, None, Some(JInt(now + 60 * expireMinutes)), Some(JStr("resource_access")),
           [("resource_type", JStr(resourceType)), ("resource_id", JStr(resourceId)), ("user_id", JStr(userId)),
            ("iat", JInt(now))])
  }

  function CreateAccessToken(c: Crypto, user: UserModel.UserData, now: int, expireMinutes: int): string
  {
    c.encode(AccessClaims(user, now, expireMinutes))
  }

  function CreateRefreshToken(c: Crypto, user: UserModel.UserData, now: int, expireDays: int): string
  {
    c.encode(RefreshClaims(user, now, expireDays))
  }

  /** Python truthiness of a JSON value. */
  predicate Truthy(j: Json)
  {
    match j
    case JNull => false
    case JBool(b) => b
    case JInt(i) => i != 0
    case JStr(s) => s != []
    case JArr(items) => items != []
    case JObj(fields) => fields != []
  }

  /** `exp and exp < now`: None when the comparison raises (a non-number
    * is compared with an int), which `verify_token` also turns into None. */
  function ExpiredBy(exp: Json, now: int): (r: Option<bool>)
    ensures !Truthy(exp) ==> r == Some(false)
    ensures exp.JInt? ==> r == Some(exp.i != 0 && exp.i < now)
    ensures exp.JStr? && exp.s != [] ==> r.None?
  {
    if !Truthy(exp) then Some(false)
    else match exp
      case JInt(i) => Some(i < now)
      case JBool(b) => Some(1 < now)
      case _ => None
  }

  /** `verify_token(token)` at time `now`: the decoded payload, unless the
    * library refuses the token or the payload's own `exp` is past. */
  function VerifyToken(c: Crypto, token: string, now: int): (r: Option<Claims>)
    ensures c.decode(token).None? ==> r.None?
    ensures r.Some? ==> c.decode(token) == r
    ensures c.decode(token).Some? ==>
              (r.Some? <==> ExpiredBy(c.decode(token).value.exp.GetOr(JNull), now) == Some(false))
  {
    match c.decode(token)
    case None => None
    case Some(payload) =>
      if ExpiredBy(payload.exp.GetOr(JNull), now) == Some(false) then Some(payload) else None
  }

  /** `is_token_valid`. */
  function IsTokenValid(c: Crypto, token: string, now: int): bool
  {
    VerifyToken(c, token, now).Some?
  }

  /** What `get_user_from_token` returns. */
  datatype TokenUser = TokenUser(id: Json, fullname: Json, email: Json, role: Json, isActive: Json, tokenType: Json)

  /** The user information of a payload; absent claims read as null,
    * except `is_active` (true) and `type` ("access"). */
  function UserInfo(payload: Claims): (r: TokenUser)
    ensures payload.isActive.None? ==> r.isActive == JBool(true)
    ensures payload.tokenType.None? ==> r.tokenType == JStr("access")
    ensures payload.isActive.Some? ==> r.isActive == payload.isActive.value
    ensures payload.tokenType.Some? ==> r.tokenType == payload.tokenType.value
    ensures payload.sub.None? ==> r.id == JNull
  {
    TokenUser(payload.sub.GetOr(JNull), payload.fullname.GetOr(JNull), payload.email.GetOr(JNull),
              payload.role.GetOr(JNull), payload.isActive.GetOr(JBool(true)), payload.tokenType.GetOr(JStr("access")))
  }

  /** `get_user_from_token(token)` at time `now`: None for a refused token
    * or an empty payload. */
  function GetUserFromToken(c: Crypto, token: string, now: int): (r: Option<TokenUser>)
    ensures r.Some? <==> VerifyToken(c, token, now).Some? && !VerifyToken(c, token, now).value.Empty()
    ensures r.Some? ==> r.value == UserInfo(VerifyToken(c, token, now).value)
  {
    match VerifyToken(c, token, now)
    case None => None
    case Some(payload) => if payload.Empty() then None else Some(UserInfo(payload))
  }

  /** `get_token_expiration`: the `exp` claim of an accepted, non-empty
    * payload when it is a non-zero number. */
  function GetTokenExpiration(c: Crypto, token: string, now: int): (r: Option<int>)
    ensures r.Some? ==> VerifyToken(c, token, now).Some?
    ensures r.Some? ==> VerifyToken(c, token, now).value.exp in {Some(JInt(r.value)), Some(JBool(true))}
  {
    match VerifyToken(c, token, now)
    case None => None
    case Some(payload) =>
      if payload.Empty() then None
      else match payload.exp.GetOr(JNull)
        case JInt(i) => if i != 0 then Some(i) else None
        case JBool(b) => if b then Some(1) else None
        case _ => None
  }

  /** `revoke_token`: a placeholder that accepts every token. */
  function RevokeToken(token: string): (r: bool)
    ensures r
  {
    true
  }

  /** An access token that the JWT library decodes back to its claims
    * yields, until it expires, the user it was made for, with type
    * "access". */
  lemma AccessTokenUser(c: Crypto, user: UserModel.UserData, issued: int, expireMinutes: int, now: int)
    requires c.decode(CreateAccessToken(c, user, issued, expireMinutes)) == Some(AccessClaims(user, issued, expireMinutes))
    requires now <= issued + 60 * expireMinutes || issued + 60 * expireMinutes == 0
    ensures GetUserFromToken(c, CreateAccessToken(c, user, issued, expireMinutes), now)
            == Some(TokenUser(JStr(user.id), JStr(user.fullname), JStr(user.email),
                              JStr(UserModel.RoleValue(user.role)), JBool(user.isActive), JStr("access")))
  {
    assert VerifyToken(c, CreateAccessToken(c, user, issued, expireMinutes), now)
           == Some(AccessClaims(user, issued, expireMinutes));
  }

  /** A refresh token carries type "refresh"; reading it as a user gives
    * null e-mail and role and the default `is_active` of true. */
  lemma RefreshTokenUser(c: Crypto, user: UserModel.UserData, issued: int, expireDays: int, now: int)
    requires c.decode(CreateRefreshToken(c, user, issued, expireDays)) == Some(RefreshClaims(user, issued, expireDays))
    requires now <= issued + 86400 * expireDays || issued + 86400 * expireDays == 0
    ensures GetUserFromToken(c, CreateRefreshToken(c, user, issued, expireDays), now)
            == Some(TokenUser(JStr(user.id), JStr(user.fullname), JNull, JNull, JBool(true), JStr("refresh")))
  {
    assert VerifyToken(c, CreateRefreshToken(c, user, issued, expireDays), now)
           == Some(RefreshClaims(user, issued, expireDays));
  }

  /** Once past its non-zero `exp` a token is refused, even if the JWT
    * library accepted it. */
  lemma ExpiredTokenRefused(c: Crypto, token: string, now: int)
    requires c.decode(token).Some? && c.decode(token).value.exp.Some?
    requires var e := c.decode(token).value.exp.value; e.JInt? && e.i != 0 && e.i < now
    ensures VerifyToken(c, token, now).None? && !IsTokenValid(c, token, now)
    ensures GetUserFromToken(c, token, now).None?
  {
  }
}
