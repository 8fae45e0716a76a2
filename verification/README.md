# spendgo request construction, in Dafny

A model of the request-building layer of `spendgo.js`, a client for the Spendgo
loyalty API. Each exported operation builds an axios request config from its
arguments and the deployment configuration. The config holds a method, a URL, headers
and a body string. For the loyalty endpoints the headers come from `createHeaders`.
That function picks credentials by path prefix and signs `path + body` with
HMAC-SHA256 (RFC 2104 over FIPS 180-4), base64-encoded per section 4 of RFC 4648.
The OAuth calls are not signed. One is the authorization-code token request from
section 4.1.3 of RFC 6749. The other is a bearer-token request from section 2.1 of
RFC 6750. Every operation passes its response through `axiosRequest`, which turns
it into `{status, result}`.

Every builder is a pure Dafny function. The configuration constants and the library
primitives are parameters:
- `Environment.Config` holds the constants.
- `Environment.Primitives` holds `JSON.stringify`, `querystring.encode`, the base64
  secret decoding and HMAC-SHA256 as uninterpreted function values.

The properties hold for every choice of these, so none depends on how JSON or the
cryptography work.

Modules:
- `JsObjects`: JS values and plain objects as ordered property lists, with property
  assignment and `Object.assign`/spread semantics. Assigning to an existing key
  replaces its value in place; assigning to a new key appends it.
- `Transport`: the request config, axios's settlement of a network exchange, and
  `axiosRequest` (as written and corrected, see Findings).
- `Signer`: `createHeaders` and the common shape of signed GET and POST configs.
- `Paths`: URL path templates and the parsers that invert them.
- `Members`, `Orders`, `OAuth`: the exported operations.
- `Client`: the signed operations as one surface, plus end-to-end lemmas.

## Model

| member | source | states |
|---|---|---|
| JsObjects.AssignGet | spendgo.js:162-165 | after `{phone, ...optionalObject}` each key reads from the spread object when present there, else from the literal |
| JsObjects.AssignKeys | spendgo.js:162-165 | spreading keeps the literal's keys first and in order, adds exactly the new names, and never duplicates a key |
| Signer.CreateHeaders | spendgo.js:52-58 | the header object always has exactly the three names X-Class-Key, X-Class-Signature and Content-Type, in that order, with Content-Type `application/json` |
| Signer.CredentialDispatch | spendgo.js:29-50 | a path starting with `/loyalty/accounts` gets the loyalty key and a signature of `path + body` under the loyalty secret. Any other path still gets headers, with an empty key and a signature under the empty secret. For a non-empty key, the key is sent iff the prefix matches |
| Signer.OmittedBodyIsEmpty | spendgo.js:28 | omitting `rawJson` signs exactly as an empty body |
| Signer.SignatureSeesOnlyConcatenation | spendgo.js:46-50 | the signature sees path and body only through `path + body`: two splits of one message in the same prefix branch give identical headers |
| Signer.TemplatesUseLoyaltyPrefix | spendgo.js:158-582 | the create, balance, rewards and orders paths start with `/loyalty/accounts` for every member id and store code |
| Signer.OAuthPathsAreNotLoyaltyPaths | spendgo.js:625-670 | the OAuth token and member paths fall outside the loyalty prefix |
| Signer.SignedPost | spendgo.js:169-174 | a signed POST sends `JSON.stringify(payload)` as data and signs that same string with the path |
| Signer.SignedGet | spendgo.js:258-262 | a signed GET has no data, is a GET under axios's default, and is signed over its path alone |
| Paths.BalancePathInverse | spendgo.js:208 | the balance path and its member-id parser are inverse, in both directions |
| Paths.OrdersPathInverse | spendgo.js:387 | the orders path and its member-id parser are inverse, in both directions |
| Paths.RewardsPathInverse | spendgo.js:255 | for member ids without `?`, the rewards path and its (id, store) parser are inverse, in both directions |
| Paths.RewardsPathAmbiguous | spendgo.js:255 | ids are interpolated without percent-encoding, so a `?` in the member id makes two different (id, store) calls produce one path |
| Transport.Settle | spendgo.js:76-82 | exactly the 2xx responses fulfil the axios promise; other responses reject with the response attached; no response rejects with a network error |
| Transport.ResponsesPassThrough | spendgo.js:75-88 | every received response becomes `{status, result}` unchanged, whether the try or the catch branch handled it |
| Transport.TransportFailuresAreDistinct | spendgo.js:82-87 | the corrected mapping fails exactly when nothing was received, and reports the transport's cause |
| Transport.AsWrittenLosesTransportCause | spendgo.js:82-87 | as written, any two network failures, whatever their causes, turn into the same TypeError, so the cause is lost |
| Members.CustomerFields | spendgo.js:161-166 | the customer object keeps `phone` first. Any `phone` in `optionalObject` overrides the positional value. Every other key comes from `optionalObject` unchanged, and no key is duplicated |
| Members.ServerCreateMember | spendgo.js:156-178 | POSTs `{customer: ...}` to `/loyalty/accounts` with the loyalty key and a signature over exactly the data sent |
| Members.ServerRetrieveBalance | spendgo.js:206-218 | the config names no method, so axios sends a GET. It has no body and is signed over the balance path alone |
| Members.ServerRetrieveRewardsByStore | spendgo.js:253-266 | a GET with no body, signed over the rewards path including its `?store=` query |
| Orders.OrderCheckout | spendgo.js:385-410 | POSTs the `checkout` body to the member's orders path and signs the data it sends |
| Orders.OrderPlaced | spendgo.js:416-441 | POSTs the `placed` body, which has no `id`, to the orders path and signs the data it sends |
| Orders.OrderBilled | spendgo.js:484-510 | POSTs the `billed` body with `id` to the orders path and signs the data it sends |
| Orders.OrderVoided | spendgo.js:516-542 | POSTs the `voided` body with `id` to the orders path and signs the data it sends |
| Orders.OrderCompleted | spendgo.js:548-574 | POSTs the `completed` body with `id` to the orders path and signs the data it sends |
| Orders.OrderRefunded | spendgo.js:580-606 | POSTs the `refunded` body with `id` to the orders path and signs the data it sends |
| Orders.UnidentifiedBodyDescribes | spendgo.js:390-398 | the checkout/placed body has `status` set to the status literal, `vendor`, `brand`, and the passed-through `source`, `subtotal`, `total` and `basket`. It has no `id` and no other key |
| Orders.IdentifiedBodyDescribes | spendgo.js:489-498 | the billed/voided/completed/refunded body has the same fields plus `id = orderId`, and no other key |
| Orders.OrderRequestContents | spendgo.js:385-606 | for every status, the operation POSTs to `/loyalty/accounts/{id}/orders`, signs the data it sends, and the body carries exactly the fields of its status |
| Orders.StatusNamesDistinct | spendgo.js:283 | the six status literals are pairwise different |
| Orders.OrderBodiesDifferOnlyInStatusAndId | spendgo.js:389-594 | bodies within a group agree on every property after `status`. The two groups differ only by the `id` property after `brand` |
| OAuth.OauthExchangeForToken | spendgo.js:623-646 | a form-encoded POST to the token path on the OAuth host. Its only header is the form content type, with no signing header, and its body is the encoded token form |
| OAuth.TokenFormFields | spendgo.js:628-634 | the token form has `grant_type = authorization_code`, the client id and secret, the redirect URI and the code, each once |
| OAuth.BearerTokenInverse | spendgo.js:675 | `Bearer <token>` and the token parser are inverse, in both directions |
| OAuth.OauthRetrieveMember | spendgo.js:668-680 | a GET under axios's default with no body. Its only header is `Authorization`, whose token parses back to the access token |
| Client.EverySignedCallUsesLoyaltyCredentials | spendgo.js:156-606 | every signed operation, for every argument, takes the loyalty branch and sends the loyalty key. It signs exactly the path and body it sends. It POSTs iff it is a create or order call, and a GET is signed over its path alone |
| Client.CreateMemberWithPhoneOnly | spendgo.js:156-178 | a phone-only create POSTs `{customer: {phone}}` to `/loyalty/accounts`, signed over that data |
| Client.RewardsByStoreRequest | spendgo.js:253-266 | the rewards lookup for member 496630 at store 999999 is a GET to `/loyalty/accounts/496630/rewards?store=999999`, signed over that path |
| Client.TokenExchangeRequest | spendgo.js:623-646 | exchanging code `abc123` POSTs the form with grant type, client credentials, redirect URI and code, with no signing header |
| Client.ProviderErrorIsReturned | spendgo.js:82-87 | a 400 response `{code: 4003, ...}` to a balance request is returned as `{status: 400, result}`, not thrown, both by the code as written and by the corrected mapping |
| Client.NoResponseIsATransportError | spendgo.js:82-87 | with no response, the corrected mapping fails with the transport's cause. As written it fails with a TypeError |

## Left out

- Cryptography and serialisation are uninterpreted function values, not implemented. This covers HMAC-SHA256, base64 decoding of the secret (including its re-reading as UTF-8 text at spendgo.js:43), `JSON.stringify` and `querystring.encode`. So properties about bodies are stated about the object handed to `JSON.stringify`. The model does not cover how that function drops keys whose value is `undefined`.
- A change of any one input changing the signature depends on HMAC collision resistance and cannot be stated without implementing it.
- JavaScript orders integer-like property names before the others. The object model uses plain insertion order, which is what the non-numeric keys used here follow.
- Members.CustomerFields: spreading a string or array `optionalObject` is not modelled. The argument is an object or `undefined`/`null`.
- Members.CustomerFields assumes the optional object has distinct keys, as every JavaScript object does.
- Member ids and store codes in paths, the OAuth `authorizationCode` and the `accessToken` are strings. The coercion of other values is not modelled: template-literal coercion in paths, `querystring.encode` of an undefined or array `code` (an empty or repeated key), and `'Bearer ' + value` of an undefined token (`Bearer undefined`).
- The axios transport, the async/await plumbing, redirects and timeouts are out of scope. Only the mapping from a network exchange to the returned value is modelled.
- `console.log` calls (spendgo.js:39, 215) are not modelled.
- The commented-out mobile credential branch and endpoints (spendgo.js:12-14, 35-37, 106-116) are not live code.
- Configuration constants (spendgo.js:4-11) are parameters rather than empty strings.
- There is no order state machine, sequencing or discount carry-forward: spendgo.js keeps no state between calls.
- Numeric fields (`subtotal`, `total`, costs) are finite reals held as opaque values; the model does no arithmetic on them.
- `JsValue` covers only acyclic, JSON-shaped data with finite numbers. So the TypeError that `JSON.stringify` throws on a circular object or a BigInt (spendgo.js:161, 390, 421, 489, 521, 553, 585), which makes the exported promise reject, is not modelled. `NaN`, `Infinity`, `-Infinity` and `-0` are not reals (JSON sends the first three as `null`). Functions, symbols and objects with `toJSON` (a `Date` dob, for example) cannot be represented.
- test/test.js (live network tests), test/tmp/tmp.js (a fixture) and test/oauth/index.js (an Express redirect server) are not part of this model.
- Unknown path prefix: spendgo.js:38-40 only logs and then signs with empty credentials rather than failing; the model follows the code (Signer.CredentialDispatch).
- The API notes at spendgo.js:280 require `id` at or after `placed`, but `orderPlaced` (spendgo.js:416-441) takes no order id and sends the checkout shape; the model follows the code.
- The API notes at spendgo.js:304 require `payments` after `checkout`, but no order builder takes or sends it; the model follows the code (Orders.OrderRequestContents).

## Findings

| source | as written | input that shows it | evidently intended | confidence | as-written member | corrected member |
|---|---|---|---|---|---|---|
| spendgo.js:82-87 | the catch branch reads `error.response.status` whatever the error | any request that gets no response, e.g. a refused connection: `error.response` is `undefined`, so a TypeError replaces the transport error | surface the transport failure as itself, distinct from `{status, result}` | high (not executed) | Transport.AsWrittenLosesTransportCause | Transport.TransportFailuresAreDistinct |
