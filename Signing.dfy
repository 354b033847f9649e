/** `sign` and `verifySig`: the canonical string, its digest under two byte
    encodings, and the check that accepts a signature under either one. */
module Signing {
  import opened Js
  import opened Host

  /** A request body as `sign` receives it: absent (`undefined` or `null`),
      a string, or any other value, which is serialised with `JSON.stringify`. */
  datatype Body = Absent | Text(s: string) | Structured(v: Value)

  const DummyBase: string := "http://dummy-base-url.com"

  predicate StartsWithHttp(p: string) {
    |p| >= 4 && p[..4] == "http"
  }

  /** The absolute URL `sign` hands to `url.parse`: a path that does not start
      with "http" is put behind a dummy base. */
  function ParseTarget(path: string): string {
    if StartsWithHttp(path) then path else DummyBase + path
  }

  /** The `Path` of the canonical string: property `pathName` of the parsed URL,
      rendered by the template literal. */
  function SignedPath(env: Env, path: string): (p: string)
    ensures p == "undefined"
  {
    Interpolate(Property(env.parseUrl(ParseTarget(path)), "pathName"))
  }

  /** `Body`: `body && (string ? body : JSON.stringify(body))`, kept only when it
      is truthy, i.e. a non-empty string. */
  function SerialisedBody(env: Env, body: Body): (b: Option<string>)
    ensures b.Some? ==> b.value != ""
    ensures body.Absent? ==> b.None?
    ensures body.Text? ==> b == (if body.s == "" then None else Some(body.s))
    ensures body.Structured? && !Truthy(body.v) ==> b.None?
    ensures body.Structured? && Truthy(body.v) && body.v.Str? ==> b == Some(body.v.s)
    ensures body.Structured? && Truthy(body.v) && !body.v.Str? ==>
              b == (if env.stringify(body.v) == "" then None else Some(env.stringify(body.v)))
  {
    match body
    case Absent => None
    case Text(s) => if s == "" then None else Some(s)
    case Structured(v) =>
      if !Truthy(v) then None
      else
        var j := if v.Str? then v.s else env.stringify(v);
        if j == "" then None else Some(j)
  }

  function BodySuffix(env: Env, body: Body): string {
    match SerialisedBody(env, body)
    case Some(b) => b
    case None => ""
  }

  /** `stringToSign`: the fields with no separator, the body only when present. */
  function CanonicalString(env: Env, clientId: string, clientSecret: string, path: string, verb: string, body: Body): string {
    var head := clientSecret + clientId + SignedPath(env, path) + verb;
    match SerialisedBody(env, body)
    case Some(b) => head + b
    case None => head
  }

  /** The hex SHA-256 digest of `s`, hashing the string itself when `bin` is
      set and `new Buffer(s)` otherwise. */
  function Digest(env: Env, bin: bool, s: string): string {
    env.sha256Hex(if bin then env.textBytes(s) else env.bufferBytes(s))
  }

  /** `sign`. Whatever `path` is, the text in its place is "undefined". */
  function Sign(env: Env, clientId: string, clientSecret: string, path: string, verb: string, body: Body, bin: bool): (sig: string)
    ensures sig == Digest(env, bin, clientSecret + clientId + "undefined" + verb + BodySuffix(env, body))
  {
    CanonicalShape(env, clientId, clientSecret, path, verb, body);
    Digest(env, bin, CanonicalString(env, clientId, clientSecret, path, verb, body))
  }

  /** `verifySig`: the signature is accepted exactly when one of the two
      encodings produces it. */
  function VerifySig(env: Env, clientId: string, clientSecret: string, path: string, verb: string, sig: string, body: Body): (ok: bool)
    ensures ok <==> exists bin: bool :: Sign(env, clientId, clientSecret, path, verb, body, bin) == sig
  {
    assert Sign(env, clientId, clientSecret, path, verb, body, true) == sig ==> exists bin: bool :: Sign(env, clientId, clientSecret, path, verb, body, bin) == sig;
    Sign(env, clientId, clientSecret, path, verb, body, true) == sig ||
    Sign(env, clientId, clientSecret, path, verb, body, false) == sig
  }

  /** Round trip: what `sign` produces, under either encoding, `verifySig`
      accepts for the same inputs. */
  lemma SignThenVerify(env: Env, clientId: string, clientSecret: string, path: string, verb: string, body: Body, bin: bool)
    ensures VerifySig(env, clientId, clientSecret, path, verb, Sign(env, clientId, clientSecret, path, verb, body, bin), body)
  {
  }

  /** The canonical string is exactly secret, id, "undefined", verb and the
      serialised body when there is one. */
  lemma CanonicalShape(env: Env, clientId: string, clientSecret: string, path: string, verb: string, body: Body)
    ensures CanonicalString(env, clientId, clientSecret, path, verb, body) ==
            clientSecret + clientId + "undefined" + verb + BodySuffix(env, body)
    ensures body.Absent? || body == Text("") ==>
            CanonicalString(env, clientId, clientSecret, path, verb, body) == clientSecret + clientId + "undefined" + verb
  {
  }

  /** A missing body, a `null` body, an empty-string body and the other falsy
      bodies are signed alike. */
  lemma FalsyBodiesSignAlike(env: Env, clientId: string, clientSecret: string, path: string, verb: string, bin: bool, v: Value)
    requires !Truthy(v)
    ensures Sign(env, clientId, clientSecret, path, verb, Text(""), bin) == Sign(env, clientId, clientSecret, path, verb, Absent, bin)
    ensures Sign(env, clientId, clientSecret, path, verb, Structured(v), bin) == Sign(env, clientId, clientSecret, path, verb, Absent, bin)
  {
  }

  /** Because `pathName` is never set, the path does not take part in the
      signature: any two paths give the same result. */
  lemma SignIgnoresPath(env: Env, clientId: string, clientSecret: string, path1: string, path2: string, verb: string, body: Body, bin: bool)
    ensures Sign(env, clientId, clientSecret, path1, verb, body, bin) == Sign(env, clientId, clientSecret, path2, verb, body, bin)
  {
  }

  /** So a signature made for one path is accepted for every other path. */
  lemma VerifyIgnoresPath(env: Env, clientId: string, clientSecret: string, path1: string, path2: string, verb: string, sig: string, body: Body)
    ensures VerifySig(env, clientId, clientSecret, path1, verb, sig, body) == VerifySig(env, clientId, clientSecret, path2, verb, sig, body)
  {
  }

  /** Fields are joined without separators, so different inputs share a
      canonical string and hence a signature. Moving text across the boundary
      between secret and id, or between method and a present body, leaves the
      signature unchanged. */
  lemma AdjacentFieldsAmbiguous(env: Env, secret: string, moved: string, id: string, path: string, verb: string, rest: string, body: Body, bin: bool)
    requires rest != ""
    ensures Sign(env, moved + id, secret, path, verb, body, bin) == Sign(env, id, secret + moved, path, verb, body, bin)
    ensures Sign(env, id, secret, path, verb + moved, Text(rest), bin) == Sign(env, id, secret, path, verb, Text(moved + rest), bin)
  {
    var suffix := BodySuffix(env, body);
    assert secret + (moved + id) + "undefined" + verb + suffix == (secret + moved) + id + "undefined" + verb + suffix;
    assert secret + id + "undefined" + (verb + moved) + rest == secret + id + "undefined" + verb + (moved + rest);
  }

  /** For instance, secret "s" with id "ab" signs like secret "sa" with id "b",
      and method "GE" with body "Tx" like method "GET" with body "x". */
  lemma AdjacentFieldsExample(env: Env, path: string, bin: bool)
    ensures Sign(env, "ab", "s", path, "GET", Absent, bin) == Sign(env, "b", "sa", path, "GET", Absent, bin)
    ensures Sign(env, "id", "key", path, "GE", Text("Tx"), bin) == Sign(env, "id", "key", path, "GET", Text("x"), bin)
  {
    AdjacentFieldsAmbiguous(env, "s", "a", "b", path, "GET", "x", Absent, bin);
    assert "a" + "b" == "ab" && "s" + "a" == "sa" && "GE" + "T" == "GET" && "T" + "x" == "Tx";
    AdjacentFieldsAmbiguous(env, "key", "T", "id", path, "GE", "x", Absent, bin);
  }
}
