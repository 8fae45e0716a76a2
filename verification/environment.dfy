/**
 * What the request builders take from outside: the deployment configuration and the
 * serialisation and cryptographic primitives.  Both are parameters of every builder,
 * so each builder is a pure function of its arguments.
 */
module Environment {
  import opened JsObjects

  /** The configuration constants at the top of spendgo.js. */
  datatype Config = Config(
    accountId: string,       // brand id sent as `brand` in order bodies
    url: string,             // base URL of the loyalty API
    apiKey: string,          // loyalty API key, sent as X-Class-Key
    apiSecret: string,       // loyalty shared secret, base64-encoded
    oauthApiKey: string,     // OAuth client id
    oauthApiSecret: string,  // OAuth client secret
    oauthUrl: string,        // base URL of the OAuth host
    redirectUri: string)     // OAuth redirect URI

  /** Library functions the builders call but whose internals are not modelled. */
  datatype Primitives = Primitives(
    // JSON.stringify
    stringify: JsValue -> string,
    // querystring.encode
    formEncode: Props<string> -> string,
    // Buffer.from(secret, 'base64').toString('utf8')
    decodeSecret: string -> string,
    // createHmac('sha256', key).update(message).digest('base64'), as (key, message) -> digest
    hmacSha256Base64: (string, string) -> string)
}
