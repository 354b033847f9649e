/** Worked cases of the decision engine, for every host environment. */
module Scenarios {
  import opened Js
  import opened Host
  import opened Signing
  import opened Token
  import opened Whitelist
  import opened Policy

  const Id: string := "abc"
  const Secret: string := "s3cr3t"

  function TokenRequest(t: string): IncomingRequest {
    IncomingRequest("/orders?x=1", "GET", map["id_token" := Str(t)])
  }

  /** A token that decodes but has expired is refused as "expired", whatever
      else is wrong with it. */
  lemma ExpiredTokenRefused(env: Env, t: string, wl: Option<seq<Entry>>, authentic: bool, data: map<string, Value>)
    requires env.decodeToken(t) == Some(DecodedToken(true, authentic, data))
    ensures VerifyRequest(Config(Id, Secret, false, wl), TokenRequest(t), env) == Refused(Expired)
  {
  }

  /** A valid token for "x@y.com" against the whitelist ["z@y.com"] is refused
      as "not authorised". */
  lemma UnlistedEmailRefused(env: Env, t: string)
    requires env.decodeToken(t) ==
             Some(DecodedToken(false, true, map["aud" := Str(Audience(Id)), "email" := Str("x@y.com")]))
    ensures VerifyRequest(Config(Id, Secret, false, Some([Literal("z@y.com")])), TokenRequest(t), env) == Refused(NotAuthorised)
  {
    assert StringParam(TokenRequest(t).query, "id_token") == Some(t);
    assert Lower("z@y.com")[0] != Lower("x@y.com")[0];
  }

  /** The same token is granted, with its email among the claims and the
      audience dropped, when `enforce` is on and the whitelist holds an entry
      that is neither a string nor a RegExp followed by the email in other
      letter case. */
  lemma ListedEmailGranted(env: Env, t: string)
    requires env.decodeToken(t) ==
             Some(DecodedToken(false, true, map["aud" := Str(Audience(Id)), "email" := Str("A@B.com")]))
    ensures VerifyRequest(Config(Id, Secret, true, Some([Other, Literal("a@b.com")])), TokenRequest(t), env) ==
            Granted(IdToken(map["email" := Str("A@B.com")]))
  {
    assert StringParam(TokenRequest(t).query, "id_token") == Some(t);
    assert Lower("a@b.com") == Lower("A@B.com");
    var claims := map["email" := Str("A@B.com")];
    assert Pick(ClaimKeys, map["aud" := Str(Audience(Id)), "email" := Str("A@B.com")]) == claims;
    MatchIffSomeEntry([Other, Literal("a@b.com")], "A@B.com", env);
    assert Matches([Other, Literal("a@b.com")][1], Some(Str("A@B.com")), env);
  }

  /** No `id_token`, no `sig`: unauthenticated access when `enforce` is off,
      "authentication required" when it is on. */
  lemma NoCredentials(env: Env, wl: Option<seq<Entry>>)
    ensures VerifyRequest(Config(Id, Secret, false, wl), IncomingRequest("/orders?x=1", "GET", map[]), env) == Granted(NoAuth)
    ensures VerifyRequest(Config(Id, Secret, true, wl), IncomingRequest("/orders?x=1", "GET", map[]), env) == Refused(AuthenticationRequired)
  {
  }

  /** An `id_token` that is not a string (a repeated query parameter gives an
      array) does not select the token branch. */
  lemma ArrayTokenFallsThrough(env: Env, wl: Option<seq<Entry>>)
    ensures VerifyRequest(Config(Id, Secret, true, wl),
                          IncomingRequest("/", "GET", map["id_token" := Arr([Str("a"), Str("b")])]), env) ==
            Refused(AuthenticationRequired)
  {
  }
}
