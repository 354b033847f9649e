/** What the authentication module takes from its host: Node's crypto, buffer,
    JSON and url modules, the identity-token parser and regular expressions.
    None of these is modelled; each is a field of `Env`, and everything proved
    in this project holds for every choice of them that meets the hypotheses of
    the lemma in question. */
module Host {
  import opened Js

  newtype byte = x: int | 0 <= x < 256

  /** A regular-expression literal: its source text and its flags. */
  datatype RegExp = RegExp(source: string, flags: string)

  /** The object `url.parse` returns, with the properties it sets. */
  datatype Url = Url(
    protocol: string,
    host: string,
    pathname: string,
    search: string,
    hash: string,
    href: string)

  /** Reading property `key` of a parsed URL: `None` is `undefined`. Property
      names are case-sensitive, so `pathName` is not `pathname`. */
  function Property(u: Url, key: string): (r: Option<string>)
    ensures r.Some? <==> key in {"protocol", "host", "pathname", "search", "hash", "href"}
  {
    if key == "protocol" then Some(u.protocol)
    else if key == "host" then Some(u.host)
    else if key == "pathname" then Some(u.pathname)
    else if key == "search" then Some(u.search)
    else if key == "hash" then Some(u.hash)
    else if key == "href" then Some(u.href)
    else None
  }

  /** How a template literal renders an optional string: `undefined` becomes
      the text "undefined". */
  function Interpolate(v: Option<string>): string {
    match v
    case Some(s) => s
    case None => "undefined"
  }

  /** What the identity-token parser reports about a token it could decode. */
  datatype DecodedToken = DecodedToken(isExpired: bool, isAuthentic: bool, data: map<string, Value>)

  /** The host capabilities:
      - `sha256Hex`: `crypto.createHash('sha256')`, `update` with the bytes, `digest('hex')`;
      - `textBytes`: the bytes `hash.update` hashes when it is handed a string;
      - `bufferBytes`: the bytes of `new Buffer(s)`;
      - `stringify`: `JSON.stringify`;
      - `parseUrl`: `url.parse`;
      - `decodeToken`: the identity-token parser's `decode`, `None` on error;
      - `patternTest`: `RegExp.prototype.test` applied to the argument it is given. */
  datatype Env = Env(
    sha256Hex: seq<byte> -> string,
    textBytes: string -> seq<byte>,
    bufferBytes: string -> seq<byte>,
    stringify: Value -> string,
    parseUrl: string -> Url,
    decodeToken: string -> Option<DecodedToken>,
    patternTest: (RegExp, Option<Value>) -> bool)
}
