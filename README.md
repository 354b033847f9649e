# Request authentication for a Google back end, modelled in Dafny

This project models `auth.js`, the authentication module of a Node service.
The module does three jobs:

- It signs a request by hashing a canonical string
  (`client_secret ‖ client_id ‖ Path ‖ method ‖ Body?`) with SHA-256.
  Two byte encodings are offered, and `verifySig` accepts a signature made
  under either one.
- It checks a Google identity token once the token parser has decoded it:
  first expiry, then authenticity, then audience. It then cuts the payload
  down to seven profile claims.
- It decides about an incoming request (`verifyRequest`):
  - a string `id_token` means token authentication, followed by the whitelist
    check;
  - otherwise a string `sig` means signature authentication;
  - otherwise the `enforce` flag decides.

`signRequest` attaches a signature to an outgoing request.

The whole module is expressions: string building, short-circuit `if` chains,
one `R.reduce` fold and shallow `R.merge` copies. So the model is datatypes,
functions and lemmas; there are no classes and no loops.

The host capabilities are not modelled. These are Node's `crypto`, `Buffer`,
`JSON.stringify` and `url.parse`, the `google-id-token` parser's `decode`, and
`RegExp.prototype.test`. Each is a field of the datatype `Host.Env`, a total
function, and every lemma is proved for every `Env` that meets the lemma's
hypotheses; most lemmas have none about `Env`. No property relies on what the
hash or the parser actually compute.

Modules, one per component of `auth.js`:

- `Js`: JavaScript values, truthiness, ASCII `toLowerCase`/`toUpperCase`.
- `Host`: the `Env` capabilities, the object `url.parse` returns, and template-literal rendering of `undefined`.
- `Signing`: `sign` and `verifySig`.
- `Token`: `verifyToken`, after decoding.
- `Whitelist`: `matchWhitelist`.
- `Policy`: `signRequest` and `verifyRequest`.
- `Scenarios`: worked cases of the policy.

Where the code does something other than its names suggest, the model follows
the code:

- **The path is never signed.** `sign` reads `.pathName` from the `url.parse`
  result, but that object only has `pathname`. The template literal therefore
  renders the text `"undefined"` in place of the path. The model keeps this
  behaviour: `Host.Property` looks up property names case-sensitively.
  `Signing.SignIgnoresPath` and `Signing.VerifyIgnoresPath` state the
  consequence.
- **The method is not upper-cased on the verifying side.** `verifyRequest`
  passes `req.route.method` to `verifySig` as given; only `signRequest`
  upper-cases. `Policy.SignedRequestAccepted` therefore assumes that the route
  method is the upper-cased method.
- **An empty credential still counts.** A credential only has to be a string
  (`R.type(...) === 'String'`), so an empty `id_token` or `sig` still selects
  its branch. A non-string value, such as an array from a repeated parameter,
  does not.
- **A non-string email can throw.** If the token's `email` claim is missing or
  is not a string, `email.toLowerCase()` throws a `TypeError` at the first
  literal whitelist entry the fold tests while nothing has yet matched. A
  pattern that matched earlier keeps the fold from reaching it. The model
  returns the exception as `Outcome.Thrown`. For such an email, the order of
  the entries matters (`Whitelist.OrderMattersForNonTextEmail`). For a string
  email it does not (`Whitelist.MatchOrderIrrelevant`).

## Model

| member | source | states |
|---|---|---|
| `Js.LowerIgnoresCase` | auth.js:84 | lowering through the ASCII `toLowerCase` is idempotent and ignores a prior upper-casing, so the literal comparison is case-insensitive |
| `Js.Lower` | auth.js:84 | `toLowerCase` on ASCII letters; see `Js.LowerIgnoresCase` and `Whitelist.LiteralMatchIgnoresCase` |
| `Js.Upper` | auth.js:63 | `toUpperCase` on ASCII letters; see `Js.LowerIgnoresCase` and `Policy.SignRequest` |
| `Js.Truthy` | auth.js:23-24 | JavaScript truthiness of a body value; see `Signing.SerialisedBody` and `Signing.FalsyBodiesSignAlike` |
| `Js.IsText` | auth.js:84 | the email is a string, so `toLowerCase` is callable on it; see `Whitelist.Reduce` and `Whitelist.ReduceFromFalse` |
| `Host.Property` | auth.js:22 | a property of the `url.parse` result is defined exactly for its own (case-sensitive) names; `pathName` is not one of them |
| `Host.Interpolate` | auth.js:25-26 | a template literal renders `undefined` as the text "undefined"; see `Signing.SignedPath` |
| `Signing.SignedPath` | auth.js:22 | the `Path` put into the canonical string is the text "undefined" for every path and every `url.parse` |
| `Signing.StartsWithHttp` | auth.js:22 | the test `path.match(/^http/)`; see `Signing.SignedPath`, which shows its outcome does not reach the canonical string |
| `Signing.ParseTarget` | auth.js:22 | the URL handed to `url.parse`, behind the dummy base unless it starts with "http"; see `Signing.SignedPath` and `Signing.SignIgnoresPath` |
| `Signing.SerialisedBody` | auth.js:23 | a kept body is never empty; an absent body is dropped; a string body is kept exactly when non-empty; a falsy structured value is dropped; a truthy string value is kept as is; any other truthy value is replaced by its `JSON.stringify` text, kept when non-empty |
| `Signing.CanonicalString` | auth.js:24-26 | `stringToSign`; see `Signing.CanonicalShape` |
| `Signing.Digest` | auth.js:21-30 | `createHash('sha256')`, `update` with the string or `new Buffer` of it as `bin` selects, `digest('hex')`; see `Signing.Sign` and `Signing.SignThenVerify` |
| `Signing.Sign` | auth.js:20-31 | the signature is the digest, under the chosen encoding, of secret ‖ id ‖ "undefined" ‖ method ‖ serialised body |
| `Signing.VerifySig` | auth.js:33-36 | a signature is accepted iff some encoding's `sign` of the same inputs equals it |
| `Signing.SignThenVerify` | auth.js:132-139 | round trip: `verifySig` accepts what `sign` produced, for either value of `bin` |
| `Signing.CanonicalShape` | auth.js:24-26 | the canonical string is secret, id, "undefined", method and the body when present, with no separators; with no body or an empty-string body it ends at the method |
| `Signing.FalsyBodiesSignAlike` | auth.js:23-26 | an empty-string body and any falsy structured body (`null`, `false`, `0`) sign exactly like no body |
| `Signing.SignIgnoresPath` | auth.js:22-26 | any two paths give the same signature when the other inputs agree |
| `Signing.VerifyIgnoresPath` | auth.js:33-36 | verification of a signature does not depend on the path supplied |
| `Signing.AdjacentFieldsAmbiguous` | auth.js:24-26 | for all inputs, moving text across the secret/id boundary, or across the boundary between method and a present body, leaves the signature unchanged |
| `Signing.AdjacentFieldsExample` | auth.js:24-26 | secret "s" with id "ab" signs like secret "sa" with id "b"; method "GE" with body "Tx" like method "GET" with body "x" |
| `Token.Audience` | auth.js:52 | the required audience is the client id followed by ".apps.googleusercontent.com" |
| `Token.Join` | auth.js:52 | `Array.prototype.join`; see `Token.Audience` |
| `Token.AudienceMatches` | auth.js:52 | the strict comparison of `token.data.aud` with the joined audience; see `Token.VerifyToken` |
| `Token.Pick` | auth.js:56 | `R.pick` keeps exactly the listed keys that are present, with their values unchanged |
| `Token.VerifyToken` | auth.js:38-58 | decode error gives "invalid token"; else expiry gives "expired"; else non-authentic gives "not authentic"; else a wrong audience gives "wrong app id"; success iff all four checks pass, with the claims picked from the payload |
| `Token.ClaimsProjection` | auth.js:56 | accepted claims have only the seven profile keys, each present iff it is in the payload, with the payload's value; the audience is dropped |
| `Whitelist.Reduce` | auth.js:74-88 | the fold can only fail with the `TypeError` of `toLowerCase`, and only for a non-string email |
| `Whitelist.Step` | auth.js:75-87 | the reducer; see `Whitelist.ReduceStaysTrue` and `Whitelist.ReduceFromFalse` |
| `Whitelist.MatchWhitelist` | auth.js:69-72 | a whitelist that is not an array, or is empty, matches nothing; an error occurs only for a non-string email |
| `Whitelist.ReduceStaysTrue` | auth.js:75-77 | once the accumulator is true the fold returns true, whatever entries remain |
| `Whitelist.ReduceFromFalse` | auth.js:74-88 | the fold throws exactly when a literal entry is reached, with no match before it, for a non-string email; otherwise it returns whether some entry matches |
| `Whitelist.MatchIffSomeEntry` | auth.js:69-89 | for a string email the whitelist accepts iff some entry matches (literal: equal after lowering; pattern: `test` succeeds; other: never) |
| `Whitelist.LiteralMatchIgnoresCase` | auth.js:83-85 | a literal entry in the lower- or upper-cased form of the email matches it |
| `Whitelist.MatchOrderIrrelevant` | auth.js:74-88 | for a string email, permuting the whitelist does not change the result |
| `Whitelist.OrderMattersForNonTextEmail` | auth.js:79-85 | for a non-string email, a matching pattern before a literal accepts, while the same entries in the other order throw |
| `Policy.StringParam` | auth.js:91 | a query parameter is taken as a credential exactly when it is present and is a string |
| `Policy.QueryOrEmpty` | auth.js:62 | `req.qs`, or the empty object when it is falsy; see `Policy.SignRequest` |
| `Policy.OutgoingSignature` | auth.js:63 | the `sig` computed for an outgoing request; see `Policy.SignRequest` and `Policy.SignedRequestAccepted` |
| `Policy.EmailOf` | auth.js:97 | `token.email`, undefined when missing; see `Policy.TokenBranch` |
| `Policy.TokenOutcome` | auth.js:92-105 | the callback handed to `verifyToken`; see `Policy.TokenBranch` |
| `Policy.SignRequest` | auth.js:60-66 | url, method and every other field are unchanged; `qs` (empty when missing) keeps every entry but `sig`, gains `sig`, and `sig` is `sign(id, secret, url, upper(method), null, true)` |
| `Policy.VerifyRequest` | auth.js:91-120 | every refusal is one of the seven reason strings; an exception is only the whitelist's `TypeError`, on the token branch |
| `Policy.TokenBranch` | auth.js:91-106 | with a string `id_token`: a validator error is passed on verbatim; a whitelist hit grants the claims; a miss gives "not authorised"; a thrown fold gives the exception; no other verdict is possible |
| `Policy.TokenBranchIgnoresSig` | auth.js:91-108 | with a string `id_token`, setting or removing `sig` does not change the outcome |
| `Policy.SigBranch` | auth.js:108-114 | with no token and a string `sig`: granted iff some encoding's signature of url and route method with no body equals it, else "signature verification failed"; `enforce` is irrelevant |
| `Policy.NoCredentialBranch` | auth.js:116-120 | with neither credential: "authentication required" when `enforce` holds, else unauthenticated access |
| `Policy.VerdictNamesItsStrategy` | auth.js:91-120 | each granted verdict implies the credentials that lead to it: a token verdict a string `id_token`, a signature verdict a `sig` and no token, no-auth neither and no `enforce` |
| `Policy.SignedRequestAccepted` | auth.js:60-66 | a request signed by `signRequest` and received with the upper-cased method and no `id_token` is granted by the signature strategy |
| `Scenarios.ExpiredTokenRefused` | auth.js:44-46 | an expired token is refused as "expired" whatever its authenticity and payload |
| `Scenarios.UnlistedEmailRefused` | auth.js:97-99 | a valid token for "x@y.com" against the whitelist ["z@y.com"] is refused as "not authorised" |
| `Scenarios.ListedEmailGranted` | auth.js:101-104 | with `enforce` on, a valid token for "A@B.com" against the whitelist [a non-string, non-RegExp entry, "a@b.com"] is granted, with claims holding only the email |
| `Scenarios.NoCredentials` | auth.js:116-120 | no credentials: no-auth when `enforce` is off, "authentication required" when on |
| `Scenarios.ArrayTokenFallsThrough` | auth.js:91 | an `id_token` that is an array does not select the token branch |

## Left out

- `getGoogleCerts` and the construction of the `google-id-token` parser (auth.js:6-18) make HTTP requests and parse a remote key set. The model replaces them with `Env.decodeToken`, whose result is the decoded token or `None` for any decode error.
- `Outcome.Thrown` stands for the `TypeError` leaving the callback that `verifyToken` hands to the parser's `decode`. What the parser, and the `request` callback above it, then do with that exception is not part of this model; the caller's callback is assumed never to be invoked for that request.
- SHA-256, hex digests, the bytes a string hashes to, and `new Buffer` are foreign crypto and encoding calls. They are the `Env` fields `sha256Hex`, `textBytes` and `bufferBytes`. The digest's length (64 hex characters), tamper sensitivity and collision resistance are not stated, so the end-to-end cases of a 64-character signature, and of a signature altered in its last character being rejected, are not modelled.
- `JSON.stringify` of structured bodies is the uninterpreted `Env.stringify`.
- `url.parse` is the uninterpreted `Env.parseUrl`. The `Url` record carries only the string properties that are relevant, and never `null`.
- `RegExp.prototype.test` is the opaque predicate `Env.patternTest`. It includes its conversion of the argument to a string and ignores the `lastIndex` state that the global flag keeps between calls.
- `toLowerCase` and `toUpperCase` change only the ASCII letters; full Unicode case mapping is not modelled.
- Asynchrony and callbacks become sequential return values (`Result`, `Outcome`).
- JavaScript numbers are integers; floating point, `NaN` and `-0` are not modelled.
- Exceptions other than the whitelist's `TypeError` are not modelled:
  - a non-string `path` in `sign`;
  - a missing `req.query`, `req.route` or `req.method`;
  - a getter that throws.

  The model's types rule these inputs out.
- `Policy.SignRequest`: `req.qs` is taken to be either falsy or an object. A truthy non-object `qs` is not modelled.
- The self-test under `!module.parent` (auth.js:123-154) uses `Math.random` and console output. Only its round-trip intent is kept, as `Signing.SignThenVerify`.
