/** `signRequest` and `verifyRequest`: signing an outgoing request, and the
    decision taken on an incoming one. */
module Policy {
  import opened Js
  import opened Host
  import opened Signing
  import opened Token
  import opened Whitelist

  /** The `config` object: credentials, the `enforce` flag and the whitelist
      (`None` when it is not an array). */
  datatype Config = Config(clientId: string, clientSecret: string, enforce: bool, whitelist: Option<seq<Entry>>)

  /** An outgoing request: its `url`, `method` (here `verb`) and `qs` (`None` when falsy), and
      every other own property, which `signRequest` copies untouched. */
  datatype OutgoingRequest = OutgoingRequest(url: string, verb: string, qs: Option<map<string, Value>>, rest: map<string, Value>)

  /** What `verifyRequest` reads of an incoming request: `req.url`,
      `req.route.method` and `req.query`. */
  datatype IncomingRequest = IncomingRequest(url: string, routeMethod: string, query: map<string, Value>)

  /** The success values passed to the callback. */
  datatype Verdict = IdToken(userData: map<string, Value>) | Sig | NoAuth

  /** One call ends in exactly one of: the callback with a verdict, the
      callback with an error string, or an exception thrown inside the token
      parser's callback before the caller's callback is reached. */
  datatype Outcome = Granted(verdict: Verdict) | Refused(reason: string) | Thrown(error: string)

  const NotAuthorised: string := "not authorised"
  const SignatureFailed: string := "signature verification failed"
  const AuthenticationRequired: string := "authentication required"

  /** `req.qs || {}`. */
  function QueryOrEmpty(qs: Option<map<string, Value>>): map<string, Value> {
    match qs
    case Some(m) => m
    case None => map[]
  }

  /** A query parameter, when it is a string (`R.type(v) === 'String'`). */
  function StringParam(query: map<string, Value>, key: string): (r: Option<string>)
    ensures r.Some? <==> key in query && query[key].Str?
    ensures r.Some? ==> query[key] == Str(r.value)
  {
    if key in query && query[key].Str? then Some(query[key].s) else None
  }

  /** The signature `signRequest` puts in `qs.sig`. */
  function OutgoingSignature(config: Config, req: OutgoingRequest, env: Env): string {
    Sign(env, config.clientId, config.clientSecret, req.url, Upper(req.verb), Absent, true)
  }

  /** `signRequest`: a shallow copy of the request whose `qs` gains `sig`. */
  function SignRequest(config: Config, req: OutgoingRequest, env: Env): (out: OutgoingRequest)
    ensures out.url == req.url && out.verb == req.verb && out.rest == req.rest
    ensures out.qs.Some?
    ensures out.qs.value.Keys == QueryOrEmpty(req.qs).Keys + {"sig"}
    ensures forall k :: k in QueryOrEmpty(req.qs) && k != "sig" ==> out.qs.value[k] == QueryOrEmpty(req.qs)[k]
    ensures out.qs.value["sig"] == Str(Sign(env, config.clientId, config.clientSecret, req.url, Upper(req.verb), Absent, true))
  {
    req.(qs := Some(QueryOrEmpty(req.qs)["sig" := Str(OutgoingSignature(config, req, env))]))
  }

  /** The email claim of a set of claims, `undefined` when missing. */
  function EmailOf(claims: map<string, Value>): Option<Value> {
    if "email" in claims then Some(claims["email"]) else None
  }

  /** The token branch of `verifyRequest`, after `verifyToken` has answered. */
  function TokenOutcome(config: Config, checked: Result<map<string, Value>, string>, env: Env): Outcome {
    match checked
    case Err(e) => Refused(e)
    case Ok(claims) =>
      match MatchWhitelist(config.whitelist, EmailOf(claims), env)
      case Err(e) => Thrown(e)
      case Ok(false) => Refused(NotAuthorised)
      case Ok(true) => Granted(IdToken(claims))
  }

  /** `verifyRequest`. */
  function VerifyRequest(config: Config, req: IncomingRequest, env: Env): (r: Outcome)
    ensures r.Refused? ==>
              r.reason in {InvalidToken, Expired, NotAuthentic, WrongAppId, NotAuthorised, SignatureFailed, AuthenticationRequired}
    ensures r.Thrown? ==> r.error == TypeError && StringParam(req.query, "id_token").Some?
  {
    match StringParam(req.query, "id_token")
    case Some(idToken) =>
      TokenOutcome(config, VerifyToken(config.clientId, env.decodeToken(idToken)), env)
    case None =>
      match StringParam(req.query, "sig")
      case Some(sig) =>
        if VerifySig(env, config.clientId, config.clientSecret, req.url, req.routeMethod, sig, Absent)
        then Granted(Sig)
        else Refused(SignatureFailed)
      case None =>
        if config.enforce then Refused(AuthenticationRequired) else Granted(NoAuth)
  }

  /** A string `id_token` selects the token branch, and only it: the validator's
      error is passed on verbatim, a whitelist miss is "not authorised", a
      whitelist hit grants the claims, anything else is the thrown error. */
  lemma TokenBranch(config: Config, req: IncomingRequest, env: Env, idToken: string)
    requires StringParam(req.query, "id_token") == Some(idToken)
    ensures var checked := VerifyToken(config.clientId, env.decodeToken(idToken));
            var r := VerifyRequest(config, req, env);
            && (checked.Err? ==> r == Refused(checked.error))
            && (checked.Ok? ==>
                  (r == Granted(IdToken(checked.value)) <==> MatchWhitelist(config.whitelist, EmailOf(checked.value), env) == Ok(true)) &&
                  (r == Refused(NotAuthorised) <==> MatchWhitelist(config.whitelist, EmailOf(checked.value), env) == Ok(false)) &&
                  (r.Thrown? <==> MatchWhitelist(config.whitelist, EmailOf(checked.value), env).Err?))
            && (r.Granted? ==> r.verdict.IdToken?)
  {
  }

  /** With a string `id_token`, the `sig` parameter is never consulted: any
      change to it leaves the outcome as it was. */
  lemma TokenBranchIgnoresSig(config: Config, req: IncomingRequest, env: Env, sig: Value)
    requires StringParam(req.query, "id_token").Some?
    ensures VerifyRequest(config, req.(query := req.query["sig" := sig]), env) == VerifyRequest(config, req, env)
    ensures VerifyRequest(config, req.(query := req.query - {"sig"}), env) == VerifyRequest(config, req, env)
  {
  }

  /** Without a string `id_token`, a string `sig` is accepted exactly when it
      is the digest, under either encoding, of the url and route method with no
      body; the `enforce` flag plays no part. */
  lemma SigBranch(config: Config, req: IncomingRequest, env: Env, sig: string)
    requires StringParam(req.query, "id_token").None?
    requires StringParam(req.query, "sig") == Some(sig)
    ensures VerifyRequest(config, req, env) == Granted(Sig) <==>
            exists bin: bool :: Sign(env, config.clientId, config.clientSecret, req.url, req.routeMethod, Absent, bin) == sig
    ensures VerifyRequest(config, req, env) != Granted(Sig) ==> VerifyRequest(config, req, env) == Refused(SignatureFailed)
    ensures VerifyRequest(config.(enforce := !config.enforce), req, env) == VerifyRequest(config, req, env)
  {
  }

  /** With neither credential, the outcome is "authentication required" when
      `enforce` is set and unauthenticated access otherwise. */
  lemma NoCredentialBranch(config: Config, req: IncomingRequest, env: Env)
    requires StringParam(req.query, "id_token").None?
    requires StringParam(req.query, "sig").None?
    ensures VerifyRequest(config, req, env) == (if config.enforce then Refused(AuthenticationRequired) else Granted(NoAuth))
  {
  }

  /** Which verdict is granted tells which credential was used: a token verdict
      needs a string `id_token`, a signature verdict a string `sig` and no
      token, the unauthenticated verdict neither and no `enforce`. */
  lemma VerdictNamesItsStrategy(config: Config, req: IncomingRequest, env: Env)
    ensures var r := VerifyRequest(config, req, env);
            && (r.Granted? && r.verdict.IdToken? ==> StringParam(req.query, "id_token").Some?)
            && (r == Granted(Sig) ==> StringParam(req.query, "id_token").None? && StringParam(req.query, "sig").Some?)
            && (r == Granted(NoAuth) ==>
                  StringParam(req.query, "id_token").None? && StringParam(req.query, "sig").None? && !config.enforce)
  {
  }

  /** End to end: a request signed by `signRequest` and received on the same
      url, with the upper-cased method as its route method and no `id_token`,
      is accepted by the signature strategy. */
  lemma SignedRequestAccepted(config: Config, out: OutgoingRequest, env: Env)
    requires StringParam(QueryOrEmpty(out.qs), "id_token").None?
    ensures var signed := SignRequest(config, out, env);
            VerifyRequest(config, IncomingRequest(signed.url, Upper(out.verb), signed.qs.value), env) == Granted(Sig)
  {
  }
}
