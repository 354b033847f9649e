/** `verifyToken`: the checks made on an identity token once the token parser
    has decoded it, and the claims handed on when they all pass. */
module Token {
  import opened Js
  import opened Host

  /** The claims kept from the token payload, in `R.pick` order. */
  const ClaimKeys: seq<string> := ["email", "iat", "exp", "name", "given_name", "family_name", "locale"]

  const InvalidToken: string := "invalid token"
  const Expired: string := "expired"
  const NotAuthentic: string := "not authentic"
  const WrongAppId: string := "wrong app id"

  /** `Array.prototype.join`. */
  function Join(parts: seq<string>, sep: string): string
    decreases |parts|
  {
    if parts == [] then ""
    else if |parts| == 1 then parts[0]
    else parts[0] + sep + Join(parts[1..], sep)
  }

  /** The audience the token must carry: the client id joined with "apps",
      "googleusercontent" and "com" by dots. */
  function Audience(clientId: string): (aud: string)
    ensures aud == clientId + ".apps.googleusercontent.com"
  {
    var rest := ["apps", "googleusercontent", "com"];
    assert Join([clientId] + rest, ".") == clientId + "." + Join(rest, ".");
    assert rest[1..] == ["googleusercontent", "com"];
    assert rest[1..][1..] == ["com"];
    assert [clientId] + rest == [clientId, "apps", "googleusercontent", "com"];
    Join([clientId, "apps", "googleusercontent", "com"], ".")
  }

  /** `token.data.aud === audience`: strict equality, so the claim must be
      present and be that very string. */
  predicate AudienceMatches(clientId: string, data: map<string, Value>) {
    "aud" in data && data["aud"] == Str(Audience(clientId))
  }

  /** `R.pick(keys, data)`: the entries of `data` whose key is listed. */
  function Pick(keys: seq<string>, data: map<string, Value>): (r: map<string, Value>)
    ensures forall k :: k in r <==> k in data && k in keys
    ensures forall k :: k in r ==> r[k] == data[k]
  {
    map k | k in data && k in keys :: data[k]
  }

  /** `verifyToken`, given what `parser.decode` reported (`None` for an error).
      The checks run in order and the first that fails names the error. */
  function VerifyToken(clientId: string, decoded: Option<DecodedToken>): (r: Result<map<string, Value>, string>)
    ensures r == Err(InvalidToken) <==> decoded.None?
    ensures r == Err(Expired) <==> decoded.Some? && decoded.value.isExpired
    ensures r == Err(NotAuthentic) <==> decoded.Some? && !decoded.value.isExpired && !decoded.value.isAuthentic
    ensures r == Err(WrongAppId) <==>
              decoded.Some? && !decoded.value.isExpired && decoded.value.isAuthentic &&
              !AudienceMatches(clientId, decoded.value.data)
    ensures r.Ok? <==>
              decoded.Some? && !decoded.value.isExpired && decoded.value.isAuthentic &&
              AudienceMatches(clientId, decoded.value.data)
    ensures r.Err? ==> r.error in {InvalidToken, Expired, NotAuthentic, WrongAppId}
    ensures r.Ok? ==> r.value == Pick(ClaimKeys, decoded.value.data)
  {
    match decoded
    case None => Err(InvalidToken)
    case Some(token) =>
      if token.isExpired then Err(Expired)
      else if !token.isAuthentic then Err(NotAuthentic)
      else if !AudienceMatches(clientId, token.data) then Err(WrongAppId)
      else Ok(Pick(ClaimKeys, token.data))
  }

  /** The claims of an accepted token are the payload restricted to the seven
      profile keys: values unchanged, missing keys still missing, the audience
      and every other key dropped. */
  lemma ClaimsProjection(clientId: string, decoded: Option<DecodedToken>)
    requires VerifyToken(clientId, decoded).Ok?
    ensures var claims := VerifyToken(clientId, decoded).value;
            && claims.Keys <= set k | k in ClaimKeys
            && (forall k :: k in ClaimKeys ==> (k in claims <==> k in decoded.value.data))
            && (forall k :: k in claims ==> claims[k] == decoded.value.data[k])
            && "aud" !in claims
  {
  }
}
