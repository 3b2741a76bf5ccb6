/** The bearer-token guard placed in front of the API's handlers: read the
    token from the `Authorization` header, verify it against the identity
    provider's key set, and check that its claims grant the permission the
    endpoint requires. Each step either passes or stops the request with an
    `AuthError` carrying a fixed message and an HTTP status. */
module Auth {
  import opened Wrappers
  import opened Strings

  /** The exception raised by every step of the guard. */
  datatype AuthError = AuthError(message: string, status: int)

  const MissingHeader := AuthError("missing authorization header.", 401)
  const MalformedHeader := AuthError("auth header is malformed.", 401)
  const MissingPermissions := AuthError("missing permissions.", 403)
  const Forbidden := AuthError("access is forbidden.", 403)
  const KeyIdMissing := AuthError("key id missing.", 401)
  const KeyNotFound := AuthError("could not find key", 400)
  const DecodeErrorPrefix := "error processing token: "

  /** The error raised when the token library rejects the token; `reason` is
      the text of the library's exception. */
  function DecodeError(reason: string): AuthError
  {
    AuthError(DecodeErrorPrefix + reason, 400)
  }

  // ---------------------------------------------------------------------
  // Reading the header
  // ---------------------------------------------------------------------

  /** The scheme word lower-cases to "bearer". */
  predicate IsBearerScheme(scheme: string)
  {
    AsciiLower(scheme) == "bearer"
  }

  /** A bearer scheme word has six characters, none of them a space. */
  lemma BearerSchemeShape(scheme: string)
    requires IsBearerScheme(scheme)
    ensures |scheme| == 6 && ' ' !in scheme
  {
    assert |AsciiLower(scheme)| == |scheme|;
    forall i | 0 <= i < |scheme| ensures scheme[i] != ' ' {
      assert LowerChar(scheme[i]) == "bearer"[i];
    }
  }

  /** The scheme words accepted are exactly the six-letter spellings of
      "bearer" with each letter in either case. */
  lemma BearerSchemeSpelling(scheme: string)
    ensures IsBearerScheme(scheme) <==>
      |scheme| == 6 && forall i :: 0 <= i < 6 ==> scheme[i] == "bearer"[i] || scheme[i] == "BEARER"[i]
  {
    var r := AsciiLower(scheme);
    if IsBearerScheme(scheme) {
      forall i | 0 <= i < 6 ensures scheme[i] == "bearer"[i] || scheme[i] == "BEARER"[i] {
        assert r[i] == "bearer"[i];
      }
    }
    if |scheme| == 6 && forall i :: 0 <= i < 6 ==> scheme[i] == "bearer"[i] || scheme[i] == "BEARER"[i] {
      forall i | 0 <= i < 6 ensures r[i] == "bearer"[i] {
        assert scheme[i] == "bearer"[i] || scheme[i] == "BEARER"[i];
      }
      assert r == "bearer";
    }
  }

  /** Extracts the token from the `Authorization` header (`None` when the
      request carries no such header). The header must split on single
      spaces into exactly a scheme word and a token. */
  function GetTokenAuthHeader(authorization: Option<string>): (r: Result<string, AuthError>)
    ensures authorization.None? <==> r == Failure(MissingHeader)
    ensures r.Failure? ==> r.error == MissingHeader || r.error == MalformedHeader
    ensures r.Success? ==>
      var h := authorization.value;
      && |h| == 7 + |r.value|
      && IsBearerScheme(h[..6])
      && h[6] == ' '
      && h[7..] == r.value
      && ' ' !in r.value
  {
    match authorization
    case None => Failure(MissingHeader)
    case Some(header) =>
      var components := Split(header, ' ');
      if |components| != 2 || AsciiLower(components[0]) != "bearer" then
        Failure(MalformedHeader)
      else
        BearerSchemeShape(components[0]);
        assert Join(components[1..], ' ') == components[1];
        assert header == components[0] + [' '] + components[1];
        assert header[..6] == components[0];
        Success(components[1])
  }

  /** Any scheme that lower-cases to "bearer", one space and a space-free
      token parse back to exactly that token. */
  lemma {:induction false} HeaderRoundTrip(scheme: string, token: string)
    requires IsBearerScheme(scheme) && ' ' !in token
    ensures GetTokenAuthHeader(Some(scheme + " " + token)) == Success(token)
  {
    BearerSchemeShape(scheme);
    SplitTwo(scheme, token, ' ');
    assert scheme + " " + token == scheme + [' '] + token;
  }

  /** A header with no space, or with more than one (a doubled space, or a
      token that itself contains a space), is malformed. */
  lemma WrongSpaceCountIsMalformed(header: string)
    requires Count(header, ' ') != 1
    ensures GetTokenAuthHeader(Some(header)) == Failure(MalformedHeader)
  {
  }

  /** A scheme word other than "bearer" (in any letter case) is malformed. */
  lemma {:induction false} WrongSchemeIsMalformed(scheme: string, token: string)
    requires !IsBearerScheme(scheme)
    ensures GetTokenAuthHeader(Some(scheme + " " + token)) == Failure(MalformedHeader)
  {
    var h := scheme + " " + token;
    var r := GetTokenAuthHeader(Some(h));
    if r.Success? {
      if ' ' in scheme || ' ' in token {
        var k :| 0 <= k < |h| && k != |scheme| && h[k] == ' ';
        CountTwo(h, ' ', |scheme|, k);
        WrongSpaceCountIsMalformed(h);
      } else {
        SplitTwo(scheme, token, ' ');
        assert h == scheme + [' '] + token;
      }
    }
  }

  // ---------------------------------------------------------------------
  // Checking the permission claim
  // ---------------------------------------------------------------------

  /** The decoded token payload, reduced to the one claim the guard reads:
      the optional `permissions` list. */
  datatype Payload = Payload(permissions: Option<seq<string>>)

  /** Passes when the payload lists the required permission verbatim. A
      payload without a `permissions` claim is refused before any membership
      test; no permission, not even the empty one, is granted by default. */
  function CheckPermissions(permission: string, payload: Payload): (r: Outcome<AuthError>)
    ensures r == Pass <==>
      payload.permissions.Some? &&
      exists i :: 0 <= i < |payload.permissions.value| && payload.permissions.value[i] == permission
    ensures payload.permissions.None? ==> r == Fail(MissingPermissions)
    ensures r.Fail? && payload.permissions.Some? ==> r == Fail(Forbidden)
  {
    if payload.permissions.None? then Fail(MissingPermissions)
    else if permission !in payload.permissions.value then Fail(Forbidden)
    else Pass
  }

  // ---------------------------------------------------------------------
  // Choosing the signing key and decoding the token
  // ---------------------------------------------------------------------

  /** One entry of the provider's JSON Web Key Set; `others` holds the
      members the guard does not copy (`x5c`, `x5t`, `alg`, ...). */
  datatype JsonWebKey = JsonWebKey(kty: string, kid: string, use: string, n: string, e: string,
                                   others: map<string, string>)

  /** The RSA key handed to the token library: exactly five members. */
  datatype RsaKey = RsaKey(kty: string, kid: string, use: string, n: string, e: string)

  /** The token's unverified header, reduced to its optional key id. */
  datatype TokenHeader = TokenHeader(kid: Option<string>)

  /** Settings read from the environment: `AUTH0_DOMAIN`, `ALGORITHMS` (a
      single algorithm name) and `API_AUDIENCE`. */
  datatype AuthConfig = AuthConfig(domain: string, algorithm: string, audience: string)

  /** What the token library is asked to enforce besides the signature. */
  datatype DecodeOptions = DecodeOptions(audience: string, issuer: string, algorithms: seq<string>)

  /** Everything the guard obtains from outside: the configuration, the key
      set fetched from the provider, and the token library's two entry
      points (reading the unverified header, and verifying and decoding the
      token, which yields a payload or the text of the library's error). */
  datatype Verifier = Verifier(
    config: AuthConfig,
    jwks: seq<JsonWebKey>,
    unverifiedHeader: string -> TokenHeader,
    decode: (string, RsaKey, DecodeOptions) -> Result<Payload, string>)

  function DecodeOptionsOf(config: AuthConfig): (o: DecodeOptions)
    ensures o.issuer == "https://" + config.domain + "/"
    ensures o.algorithms == [config.algorithm] && o.audience == config.audience
  {
    DecodeOptions(config.audience, "https://" + config.domain + "/", [config.algorithm])
  }

  function RsaKeyOf(k: JsonWebKey): RsaKey
  {
    RsaKey(k.kty, k.kid, k.use, k.n, k.e)
  }

  /** `i` is the first position of the key set whose key id is `kid`. */
  predicate FirstMatch(keys: seq<JsonWebKey>, kid: string, i: int)
  {
    0 <= i < |keys| && keys[i].kid == kid && forall j :: 0 <= j < i ==> keys[j].kid != kid
  }

  /** The key chosen for key id `kid`: the first entry of the key set with
      that id, copied down to its five RSA members. */
  function FindKey(keys: seq<JsonWebKey>, kid: string): (r: Option<RsaKey>)
    ensures r.None? <==> forall i :: 0 <= i < |keys| ==> keys[i].kid != kid
    ensures r.Some? ==> exists i :: FirstMatch(keys, kid, i) && r.value == RsaKeyOf(keys[i])
  {
    if keys == [] then None
    else if keys[0].kid == kid then
      assert FirstMatch(keys, kid, 0);
      Some(RsaKeyOf(keys[0]))
    else
      var r := FindKey(keys[1..], kid);
      if r.Some? then
        var i :| FirstMatch(keys[1..], kid, i) && r.value == RsaKeyOf(keys[1..][i]);
        assert FirstMatch(keys, kid, i + 1);
        r
      else
        r
  }

  /** Only the first matching key can be chosen. */
  lemma FindKeyIsFirstMatch(keys: seq<JsonWebKey>, kid: string, i: int)
    requires FirstMatch(keys, kid, i)
    ensures FindKey(keys, kid) == Some(RsaKeyOf(keys[i]))
  {
  }

  /** Verifying and decoding a token: the token's header must name a key id,
      the key set must hold a key with that id, and the token library must
      accept the token under that key, the configured audience, the issuer
      derived from the domain and the configured algorithm. */
  function VerifyDecode(token: string, v: Verifier): (r: Result<Payload, AuthError>)
    ensures v.unverifiedHeader(token).kid.None? ==> r == Failure(KeyIdMissing)
    ensures r.Failure? ==>
      r.error == KeyIdMissing || r.error == KeyNotFound ||
      (r.error.status == 400 && StartsWith(r.error.message, DecodeErrorPrefix))
    ensures r.Success? ==>
      && v.unverifiedHeader(token).kid.Some?
      && exists i :: FirstMatch(v.jwks, v.unverifiedHeader(token).kid.value, i)
                     && v.decode(token, RsaKeyOf(v.jwks[i]), DecodeOptionsOf(v.config)) == Success(r.value)
  {
    var header := v.unverifiedHeader(token);
    if header.kid.None? then Failure(KeyIdMissing)
    else
      match FindKey(v.jwks, header.kid.value)
      case None => Failure(KeyNotFound)
      case Some(key) =>
        match v.decode(token, key, DecodeOptionsOf(v.config))
        case Failure(reason) =>
          assert (DecodeErrorPrefix + reason)[..|DecodeErrorPrefix|] == DecodeErrorPrefix;
          Failure(DecodeError(reason))
        case Success(payload) => Success(payload)
  }

  /** The token's key id is not in the key set. */
  lemma UnknownKeyId(token: string, v: Verifier)
    requires v.unverifiedHeader(token).kid.Some?
    requires forall i :: 0 <= i < |v.jwks| ==> v.jwks[i].kid != v.unverifiedHeader(token).kid.value
    ensures VerifyDecode(token, v) == Failure(KeyNotFound)
  {
  }

  /** With a matching key, the outcome is the token library's verdict under
      the first matching key, its errors reported with status 400. */
  lemma DecodesWithFirstMatchingKey(token: string, v: Verifier, i: int)
    requires v.unverifiedHeader(token).kid.Some?
    requires FirstMatch(v.jwks, v.unverifiedHeader(token).kid.value, i)
    ensures match v.decode(token, RsaKeyOf(v.jwks[i]), DecodeOptionsOf(v.config))
            case Success(p) => VerifyDecode(token, v) == Success(p)
            case Failure(reason) => VerifyDecode(token, v) == Failure(DecodeError(reason))
  {
    FindKeyIsFirstMatch(v.jwks, v.unverifiedHeader(token).kid.value, i);
  }

  /** `verify_decode_jwt`: the key is chosen by a scan of the key set that
      stops at the first entry whose key id matches the token's. */
  method VerifyDecodeJwt(token: string, v: Verifier) returns (r: Result<Payload, AuthError>)
    ensures r == VerifyDecode(token, v)
  {
    var header := v.unverifiedHeader(token);
    if header.kid.None? {
      return Failure(KeyIdMissing);
    }
    var kid := header.kid.value;
    var rsaKey: Option<RsaKey> := None;
    var i := 0;
    while i < |v.jwks|
      invariant 0 <= i <= |v.jwks|
      invariant forall j :: 0 <= j < i ==> v.jwks[j].kid != kid
      invariant rsaKey == None
    {
      var k := v.jwks[i];
      if k.kid == kid {
        rsaKey := Some(RsaKeyOf(k));
        FindKeyIsFirstMatch(v.jwks, kid, i);
        break;
      }
      i := i + 1;
    }
    if rsaKey.Some? {
      match v.decode(token, rsaKey.value, DecodeOptionsOf(v.config))
      case Failure(reason) =>
        r := Failure(DecodeError(reason));
      case Success(payload) =>
        r := Success(payload);
    } else {
      r := Failure(KeyNotFound);
    }
  }

  // ---------------------------------------------------------------------
  // The guard
  // ---------------------------------------------------------------------

  /** `requires_auth(permission, enabled)` applied to a handler and called
      with `args` on a request whose `Authorization` header is
      `authorization`. When enabled, the header is read, the token verified
      and the permission checked, in that order; the first failure is the
      result and the handler is not run. Otherwise, or when every step
      passes, the handler's own result is returned. */
  function RequiresAuth<A, T>(permission: string, enabled: bool, v: Verifier,
                              authorization: Option<string>, handler: A -> T, args: A): (r: Result<T, AuthError>)
    ensures !enabled ==> r == Success(handler(args))
    ensures r.Success? ==> r.value == handler(args)
    ensures enabled && authorization.None? ==> r == Failure(MissingHeader)
    ensures enabled && GetTokenAuthHeader(authorization).Failure? ==>
      r == Failure(GetTokenAuthHeader(authorization).error)
    ensures enabled && GetTokenAuthHeader(authorization).Success? ==>
      var token := GetTokenAuthHeader(authorization).value;
      VerifyDecode(token, v).Failure? ==> r == Failure(VerifyDecode(token, v).error)
    ensures enabled && GetTokenAuthHeader(authorization).Success?
                    && VerifyDecode(GetTokenAuthHeader(authorization).value, v).Success? ==>
      var payload := VerifyDecode(GetTokenAuthHeader(authorization).value, v).value;
      CheckPermissions(permission, payload).Fail? ==> r == Failure(CheckPermissions(permission, payload).error)
    ensures enabled && r.Success? ==>
      && GetTokenAuthHeader(authorization).Success?
      && VerifyDecode(GetTokenAuthHeader(authorization).value, v).Success?
      && CheckPermissions(permission, VerifyDecode(GetTokenAuthHeader(authorization).value, v).value) == Pass
  {
    if enabled then
      match GetTokenAuthHeader(authorization)
      case Failure(e) => Failure(e)
      case Success(token) =>
        match VerifyDecode(token, v)
        case Failure(e) => Failure(e)
        case Success(payload) =>
          match CheckPermissions(permission, payload)
          case Fail(e) => Failure(e)
          case Pass => Success(handler(args))
    else
      Success(handler(args))
  }

  /** A refused request's outcome does not depend on the handler: the
      handler is never consulted. */
  lemma DeniedRequestIgnoresHandler<A, T>(permission: string, enabled: bool, v: Verifier,
                                          authorization: Option<string>, handler: A -> T, other: A -> T, args: A)
    requires RequiresAuth(permission, enabled, v, authorization, handler, args).Failure?
    ensures RequiresAuth(permission, enabled, v, authorization, other, args)
         == RequiresAuth(permission, enabled, v, authorization, handler, args)
  {
  }

  /** An enabled guard refuses a header without exactly one space, a doubled
      space included, as malformed, whatever the token would have been. */
  lemma MalformedHeaderRefused<A, T>(permission: string, v: Verifier, header: string,
                                     handler: A -> T, args: A)
    requires Count(header, ' ') != 1
    ensures RequiresAuth(permission, true, v, Some(header), handler, args) == Failure(MalformedHeader)
  {
    WrongSpaceCountIsMalformed(header);
  }

  /** A 403 is only ever reported for a request whose header was well formed
      and whose token was verified: permissions are checked last. */
  lemma {:induction false} PermissionDenialFollowsValidToken<A, T>(permission: string, v: Verifier,
                                                 authorization: Option<string>, handler: A -> T, args: A)
    requires RequiresAuth(permission, true, v, authorization, handler, args).Failure?
    requires RequiresAuth(permission, true, v, authorization, handler, args).error.status == 403
    ensures GetTokenAuthHeader(authorization).Success?
    ensures VerifyDecode(GetTokenAuthHeader(authorization).value, v).Success?
  {
  }

  /** The default permission "" is not waived: an enabled guard with it
      admits a verified token only if the token's permission list contains
      the empty string. */
  lemma DefaultPermissionNotWaived<A, T>(v: Verifier, scheme: string, token: string,
                                         handler: A -> T, args: A)
    requires IsBearerScheme(scheme) && ' ' !in token
    ensures VerifyDecode(token, v).Success? ==>
      var p := VerifyDecode(token, v).value.permissions;
      RequiresAuth("", true, v, Some(scheme + " " + token), handler, args).Success? <==> p.Some? && "" in p.value
  {
    HeaderRoundTrip(scheme, token);
  }

  /** End to end: a well-formed bearer header whose token names a key of the
      key set, is accepted by the token library under the first such key,
      and grants the required permission, lets the handler run and returns
      its result unchanged. */
  lemma {:induction false} AuthorizedRequest<A, T>(permission: string, v: Verifier, scheme: string, token: string,
                                 i: int, payload: Payload, handler: A -> T, args: A)
    requires IsBearerScheme(scheme) && ' ' !in token
    requires v.unverifiedHeader(token).kid.Some?
    requires FirstMatch(v.jwks, v.unverifiedHeader(token).kid.value, i)
    requires v.decode(token, RsaKeyOf(v.jwks[i]), DecodeOptionsOf(v.config)) == Success(payload)
    requires payload.permissions.Some? && permission in payload.permissions.value
    ensures RequiresAuth(permission, true, v, Some(scheme + " " + token), handler, args) == Success(handler(args))
  {
    HeaderRoundTrip(scheme, token);
    DecodesWithFirstMatchingKey(token, v, i);
  }
}
