# Magellanic Node SDK — a verified model of its core

The Magellanic Node SDK lets one workload authenticate to Magellanic and to other workloads. This
project models the sequential, deterministic part of the SDK's three client generations, its
AES-GCM message framing and its error-message formatting, and proves properties of that model in Dafny.

- `Client` (`client.dfy`) models the current client, `src/client/magellanic-client.ts`:
  - configuration resolved from options, falling back to the environment;
  - the `token`/`authData` pair that `authenticate` installs and `rotateToken` replaces;
  - the not-initialised gate;
  - outbound headers and inbound header extraction;
  - the claim checks that follow JWT signature verification;
  - how HTTP failures map to typed errors;
  - the rotation delay.

  `MagellanicClient` is a class with the source's mutable fields. Its methods are proved equal to pure
  functions of the previous state.
- `WebhookClient` (`webhook_client.dfy`) models the webhook-driven client, `src/magellanic-client.ts`:
  - the `handleWebhook` state machine, covering `auth`, `init`, `rotateTokens` and `reauth`;
  - the secret gate in front of payload decryption;
  - the two-generation token tables;
  - header generation and request and token validation.

  The class method assigns the fields one by one in source order and is proved equal to the pure `Step`.
  `Run` folds `Step` over a sequence of events, and the lemmas about traces are stated on `Run`.
- `InitStringClient` (`init_string_client.dfy`) models the earliest client, `src/magellanic.client.ts`:
  a random string fixed at construction, and the check of a webhook's echo of it.
- `Helpers` (`helpers.dfy`) models `src/helpers.ts`:
  - the IV(12) ‖ ciphertext ‖ tag(16) layout;
  - `decryptAes` as an array algorithm, in which `Buffer.prototype.copy` truncates to the target's
    length.

  The cipher itself is a parameter.
- `Errors` (`errors.dfy`) models the message selection of the `*.error.ts` constructors.
- `Js` (`js.dfy`) models the JavaScript semantics these files rely on:
  - truthiness;
  - `?.` and `.` property reads;
  - template interpolation;
  - `String.prototype.split` on one character.
- `Wrappers` (`wrappers.dfy`) holds `Option`, `Result`, and the `||` fallback on strings.

All external effects are parameters of the operations that use them:

| effect | modelled as |
|---|---|
| the process environment | a map |
| HTTP exchanges | result values |
| the clock | an integer of milliseconds |
| the service-account token file | a result value |
| `uuid()` | a string |
| `jsonwebtoken.verify` | an oracle function |
| `JSON.stringify` and `String()` | an oracle function |
| `Date` parsing | an oracle function |
| the AES-GCM decipher | an oracle function |
| base64 decoding | an oracle function |
| `JSON.parse` | an oracle function |

## Model

| member | source | states |
|---|---|---|
| Client.ResolveConfig | src/client/magellanic-client.ts:76-106 | fails with ProjectKeyMissingError iff neither the option nor the environment holds a non-empty project key; each of projectKey, name, apiKey and roleKey takes the option unless it is missing or empty, else the environment value; providerType is undefined iff no non-empty provider is given |
| Client.MagellanicClient.New | src/client/magellanic-client.ts:76-106 | construction throws exactly when configuration resolution fails, otherwise yields a fresh client holding the resolved configuration and no token or auth data |
| Client.CheckState | src/client/magellanic-client.ts:499-503 | passes iff the token is truthy and auth data is present, otherwise NotInitializedError |
| Client.GetMyToken | src/client/magellanic-client.ts:172-175 | NotInitializedError iff the gate fails; otherwise the stored (truthy) token |
| Client.GenerateHeaders | src/client/magellanic-client.ts:189-195 | NotInitializedError iff the gate fails; otherwise exactly the two keys magellanic-authorization ↦ token and magellanic-workload-id ↦ authData.id |
| Client.ValidateRequest | src/client/magellanic-client.ts:208-222 | a missing or empty id header fails first, naming that header; then a missing or empty auth header; otherwise the result of validating the same id, token and options |
| Client.ValidateToken | src/client/magellanic-client.ts:253-284 | NotInitializedError when the gate fails; 'bad token' iff initialised and verification fails, the payload is a string, or its workloadId is missing or differs; 'no required permissions' iff the claims pass, options are given and resources[resource][action] is not truthy; success iff none of these |
| Client.HandleAxiosError | src/client/magellanic-client.ts:488-497 | status 400, 401 and 403 map to BadArgumentError, UnauthorizedError and ForbiddenError respectively, each iff; any other status or no response maps to UnknownError; each carries its constructor's message for the response data |
| Client.AuthPayloadFor | src/client/magellanic-client.ts:136-140 | the posted payload carries the whole configuration, the service-account token and type 'sdk' |
| Client.InstallAuthResponse | src/client/magellanic-client.ts:143-145 | destructuring throws iff the body is null or undefined; otherwise the token is the body's token field and, for an object body, the auth data is every other field except tokenExpiryDate, with unchanged values |
| Client.InstallRotatedToken | src/client/magellanic-client.ts:478-480 | reading the token throws iff the body is null or undefined; otherwise rotation replaces the token by the body's and leaves the auth data unchanged |
| Client.RotationDelay | src/client/magellanic-client.ts:152-154 | the delay is defined iff the expiry parses, and now + delay = expiry − 10000 |
| Client.InstalledSessionInitialized | src/client/magellanic-client.ts:143-145 | after a successful authentication the client is initialised iff the returned token is truthy, and tokenExpiryDate is never part of the auth data |
| Client.RotationKeepsIdentity | src/client/magellanic-client.ts:478-480 | rotating to a truthy token keeps the client initialised, leaves token validation and the id header unchanged, and puts the new token in the auth header |
| Client.FailFastBeforeAuthenticate | src/client/magellanic-client.ts:499-503 | before authentication getMyToken, generateHeaders and validateToken all fail with NotInitializedError |
| Client.HeadersRoundTrip | src/client/magellanic-client.ts:189-222 | a request carrying the headers one client generates is read by a peer as exactly that client's id and token |
| Client.NoOptionsNoPermissionCheck | src/client/magellanic-client.ts:275-283 | without validation options the 'no required permissions' failure never occurs |
| Client.PermissionClaimScenario | src/client/magellanic-client.ts:267-283 | a token granting resourceA.read passes a read check, fails a write check with 'no required permissions', and fails with 'bad token' for another workload id |
| Client.MagellanicClient.Authenticate | src/client/magellanic-client.ts:119-164 | an unreadable token file for the k8s provider, an axios failure (message plus response), any other Error (its message alone) and a null or undefined body (the TypeError's message) each raise AuthenticateError and leave the state unchanged; success installs the response as split above and returns the rotation delay |
| Client.MagellanicClient.RotateToken | src/client/magellanic-client.ts:478-486 | a rejected post or a null or undefined body rejects and changes nothing; otherwise only the token is replaced and the next delay is returned |
| Errors.SelectMessage | src/client/errors/unauthorized.error.ts:4-8 | a truthy string is used verbatim, another truthy value is rendered as JSON, a falsy value gives the default |
| Errors.SelectedMessageNotEmpty | src/client/errors/unauthorized.error.ts:4-8 | with a non-empty default and a non-empty rendering the message is never empty |
| Errors.UnauthorizedMessage | src/client/errors/unauthorized.error.ts:2-10 | a non-empty string verbatim, another truthy message rendered, a falsy or empty message gives 'Unauthorized' |
| Errors.BadArgumentMessage | src/client/errors/bad-argument.error.ts:2-10 | a non-empty string verbatim, another truthy message rendered, a falsy or empty message gives 'Bad argument' |
| Errors.UnknownMessage | src/client/errors/unknown.error.ts:2-10 | a non-empty string verbatim, another truthy message rendered, a falsy or empty message gives 'Unauthorized' |
| Errors.ForbiddenMessage | src/client/errors/forbidden.error.ts:2-10 | a non-empty string verbatim, another truthy message rendered, a falsy or empty message gives 'Forbidden' |
| Errors.AuthenticateMessage | src/client/errors/authenticate.error.ts:2-5 | the message is always a prefix; without a truthy response the result is the message exactly; with one it is followed by '\nResponse: ' and the JSON rendering |
| Errors.EmptyResponseAppended | src/client/errors/authenticate.error.ts:4 | an empty-object response is truthy and is still appended |
| Helpers.Frame | src/helpers.ts:14-19 | the encrypted buffer is the 12-byte IV, then the ciphertext, then the 16-byte tag, each at its own offsets |
| Helpers.SplitFrame | src/helpers.ts:23-30 | rejects iff the message is shorter than 28 bytes; otherwise the IV is bytes [0,12), the tag the last 16 bytes, the data the rest, and framing them gives the message back |
| Helpers.SplitOfFrame | src/helpers.ts:14-30 | cutting a framed message yields exactly the IV, ciphertext and tag it was built from |
| Helpers.FrameInjective | src/helpers.ts:14-19 | distinct parts never frame to the same bytes |
| Helpers.CopyCount | src/helpers.ts:28-30 | Buffer.copy moves bytes until the source range, the source or the room in the target runs out, and never past any of them: the smallest of the three |
| Helpers.Copy | src/helpers.ts:28-30 | the target's bytes outside the copied window are unchanged and the window holds the source range, truncated to the target |
| Helpers.Decrypted | src/helpers.ts:22-42 | a message under 28 bytes fails with a range error; otherwise the decipher sees bytes [0,12) as IV, the last 16 bytes as tag and the bytes between as data, fails iff final rejects the tag, and the plaintext is update's output followed by final's |
| Helpers.DecryptFrame | src/helpers.ts:14-42 | decrypting a framed message hands the decipher exactly the IV, ciphertext and tag that were framed |
| Helpers.DecryptAes | src/helpers.ts:22-42 | the buffer algorithm (allocations, three truncating copies, update then final) computes exactly Decrypted |
| Js.Member | src/magellanic-client.ts:95 | a property read throws iff the value is null or undefined, and otherwise agrees with optional chaining |
| Js.Split | src/magellanic-client.ts:182 | splitting gives at least one field, no field contains the separator, and joining the fields with it restores the string |
| Js.SplitWithoutSeparator | src/magellanic-client.ts:182 | a string without the separator splits into itself alone |
| Js.SplitAfterField | src/magellanic-client.ts:182 | a separator after a separator-free prefix splits off exactly that prefix |
| Js.SplitSecondField | src/magellanic-client.ts:182 | the second field of a split is the text after the first space, up to the next space or the end |
| Js.SecondField | src/magellanic-client.ts:182 | undefined iff the header contains no space; otherwise the text between the first space and the next space or the end |
| Js.BearerField | src/magellanic-client.ts:161-182 | the second field of 'Bearer ' + t is t for a space-free t |
| WebhookClient.AuthRequestBody | src/magellanic-client.ts:53-55 | the posted body carries the client's current random string |
| WebhookClient.AuthenticateResult | src/magellanic-client.ts:51-71 | authenticate never throws: authenticated iff the post went through, with the axios message as the reason exactly when it failed with an axios error |
| WebhookClient.Step | src/magellanic-client.ts:94-131 | one webhook keeps the workload id; only reauth changes the random string, only init and rotateTokens the current table, only rotateTokens the previous one; it throws only a TypeError or a failure to open the payload, and the latter writes nothing |
| WebhookClient.Decryption | src/magellanic-client.ts:213-219 | 'secret not set' while the secret is falsy; a range error iff the decoded ciphertext is under 28 bytes; success iff the secret and ciphertext are strings, decryption succeeds and the plaintext parses, with the parsed value |
| WebhookClient.FramedPayloadOpens | src/magellanic-client.ts:213-219 | a payload whose ciphertext decodes to a frame is opened with exactly its IV, ciphertext and tag: a tag failure, an unparsable plaintext, or the parsed plaintext |
| WebhookClient.UnhandledActionIgnored | src/magellanic-client.ts:95-130 | a missing, falsy or unrecognised action returns false and changes no state |
| WebhookClient.AuthStoresSecret | src/magellanic-client.ts:99-102 | auth stores payload.secret whether or not the random string matches, changes nothing else, and returns true iff payload.randomString equals the current random string |
| WebhookClient.AuthHandshake | src/magellanic-client.ts:51-102 | an auth webhook echoing the posted random string is answered true |
| WebhookClient.ReauthRetiresRandomString | src/magellanic-client.ts:208-211 | after reauth with a new string, echoing the old one is answered false and echoing the new one true |
| WebhookClient.HandledActionsReturnTrue | src/magellanic-client.ts:103-130 | init, rotateTokens and reauth return true whenever they do not throw |
| WebhookClient.SecretGate | src/magellanic-client.ts:213-216 | init and rotateTokens fail with 'secret not set' and change nothing while no secret is stored |
| WebhookClient.InitInstallsCurrentTables | src/magellanic-client.ts:103-110 | init sets the secret and, when state is truthy, the current table and its secret; the previous generation, the own token, the id and the random string are untouched |
| WebhookClient.RotateShiftsGenerations | src/magellanic-client.ts:112-121 | rotateTokens moves the current table, table secret and own token into their previous slots and installs the new table, its secret, the own entry tokens[tdtiId] and the new secret |
| WebhookClient.GetMyToken | src/magellanic-client.ts:138-143 | 'not initialized' iff the own token is falsy, otherwise that token |
| WebhookClient.GenerateHeaders | src/magellanic-client.ts:156-164 | 'not initialized' iff the own token is falsy; otherwise exactly Authorization ↦ 'Bearer ' + token and the literal key TDTI_ID_HEADER ↦ tdtiId |
| WebhookClient.ValidateRequest | src/magellanic-client.ts:173-184 | a missing tdti-id header fails first, then a missing Authorization header; otherwise the result of validating the id with the header's second space-separated field |
| WebhookClient.ValidateToken | src/magellanic-client.ts:195-206 | 'not initialized' without a current table; success iff the current entry equals the token or the previous entry for the id is truthy (as written); otherwise 'bad token' |
| WebhookClient.ValidateTokenIntended | src/magellanic-client.ts:195-206 | success iff a current table exists and the token is a string equal to the current or the previous entry for the id |
| WebhookClient.ValidateRequestIntended | src/magellanic-client.ts:173-184 | the same header checks, delegating to the comparing validation |
| WebhookClient.GenerateHeadersIntended | src/magellanic-client.ts:156-164 | the headers with the id under magellanic-tdti-id, the name validateRequest reads |
| WebhookClient.PreviousEntryAdmitsAnyToken | src/magellanic-client.ts:199-205 | as written, a truthy previous entry admits a token matching neither entry, which the comparing validation refuses |
| WebhookClient.BareAuthorizationAdmitsUnknownId | src/magellanic-client.ts:182-200 | as written, an Authorization header without a space is accepted for any id missing from the current table; the comparing validation refuses it |
| WebhookClient.BareAuthorizationExample | src/magellanic-client.ts:182-200 | the concrete request with id 'intruder' and Authorization 'x' is accepted as written |
| WebhookClient.GeneratedHeadersLackTdtiId | src/magellanic-client.ts:160-176 | as written, a request built from the generated headers always fails with 'tdtiId header not defined' |
| WebhookClient.IntendedHeadersRoundTrip | src/magellanic-client.ts:156-184 | the intended headers are read back as the sender's id and token, and a peer whose current table holds that token accepts them |
| WebhookClient.AcceptedThroughOneRotation | src/magellanic-client.ts:112-206 | a token current before a rotation is still accepted after it, by both validations |
| WebhookClient.RefusedAfterTwoRotations | src/magellanic-client.ts:112-206 | a token absent from two successive rotations' tables is refused by the comparing validation, yet accepted as written whenever the middle table has a truthy entry for the id |
| WebhookClient.NoAuthNoCredentials | src/magellanic-client.ts:94-131 | until an auth webhook arrives no secret, token table or own token is ever installed, whatever other events arrive |
| WebhookClient.FailFastWithoutAuth | src/magellanic-client.ts:138-198 | a client that never received auth refuses every validation with 'not initialized' and has no token or headers to give |
| WebhookClient.PreviousGenerationStable | src/magellanic-client.ts:99-126 | only rotateTokens writes the previous generation, and the workload id never changes |
| WebhookClient.Run | src/magellanic-client.ts:94-131 | a sequence of webhooks keeps the workload id, and the random string unless a reauth is among them |
| WebhookClient.MagellanicClient.constructor | src/magellanic-client.ts:31-32 | a new client holds only its id and the random string |
| WebhookClient.MagellanicClient.DecryptPayload | src/magellanic-client.ts:213-219 | the checks and decryptAes's buffer algorithm give exactly Decryption on the client's secret |
| WebhookClient.MagellanicClient.HandleWebhook | src/magellanic-client.ts:94-131 | the field-by-field updates leave exactly the state and result of Step |
| InitStringClient.MagellanicClient.constructor | src/magellanic.client.ts:7-11 | the random string is fixed once, at construction |
| InitStringClient.MagellanicClient.AuthRequestBody | src/magellanic.client.ts:20-23 | the posted body carries the instance's random string |
| InitStringClient.MagellanicClient.ValidateAuthWebhookPayload | src/magellanic.client.ts:26-32 | a falsy payload is handed back as the result and is never true; otherwise the result is the boolean comparison; the result is true iff the payload's randomString equals the instance's string |
| InitStringClient.MagellanicClient.EchoAccepted | src/magellanic.client.ts:20-32 | echoing the posted body is accepted and any other string is not |

## Left out

- HTTP is not modelled: axios, its request interceptors, `axios-retry` and the 15 s timeout. Exchanges are result values passed in.
- `getConfig`, `kyber*` and `dilithium*` are left out. They are thin remote-call wrappers.
- `createClient` is left out. It only chains construction and `authenticate`, which are both modelled.
- `setTimeout` and the timer chain are left out. Only the delay arithmetic is modelled, so Node's clamping of negative or oversized delays is not.
- An expiry date that does not parse gives NaN in the source. Here it is an absent delay.
- `jsonwebtoken.verify`, the AES-256-GCM cipher, hex key decoding, base64, `JSON.parse`, `JSON.stringify`, `String()`, `Date` and `uuid()` are parameters. Their own behaviour is not modelled.
- Express's `req.header` is case-insensitive. Here headers are an exact-match map.
- Property reads on strings, arrays and prototype members give undefined here. The source would read characters, indices and inherited properties.
- JavaScript `===` on objects compares identity. Here equality of values is structural. It is only ever applied to strings and to `undefined`.
- Client.MagellanicClient.Authenticate: the two rethrows of a thrown value that is not an Error (src/client/magellanic-client.ts:130-131 and 160-161) are not modelled. The file read and the post are modelled as failing only with Errors.
- Client.InstallAuthResponse: a string or array body would give its index properties as auth data. Here any non-object body gives empty auth data. Either way the token is undefined and the client stays uninitialised.
- WebhookClient.Decryption: Buffer.from on a non-string ciphertext or key is modelled as a TypeError. An array or buffer value, which Buffer.from would accept, is not modelled. A key that createDecipheriv rejects, for example one of the wrong length, throws a RangeError in the source before `update` runs. The decipher parameter can only fail in `final`, so the model reports such a key as `DecryptFailed(AuthenticationFailed)`.
- `ProjectKeyMissingError`'s constant message is not modelled, and neither is `src/client/errors/index.ts`, which only re-exports.
- `Helpers.Copy` requires distinct source and target arrays. The source only ever copies between distinct buffers, so `Buffer.copy`'s overlapping case is not modelled.
- The `reauth` event's `authenticate` call is not modelled. It never throws, and its network effect is outside the model. `AuthenticateResult` describes what it returns.
- Rotation has no retry or fallback when it fails. The source has none, so neither does the model.
- The webhook client's validation never refreshes the token tables on demand. The source does not either.
- The UnknownError constructor's default message is 'Unauthorized', copied from UnauthorizedError. It is modelled as written.

## Findings

| source | as written | input that shows it | evidently intended | confidence | as-written member | corrected member |
|---|---|---|---|---|---|---|
| src/magellanic-client.ts:199-205 | on a miss against the current table, the previous entry is only tested for truthiness | previousTokens {peer: 'old'}, currentTokens {peer: 'new'}, presented token 'forged' is accepted | accept iff the token equals the current or the previous entry | not executed | WebhookClient.PreviousEntryAdmitsAnyToken | WebhookClient.ValidateTokenIntended |
| src/magellanic-client.ts:182, 199-200 | `split(' ')[1]` of a header without a space is undefined, which equals the undefined current entry of an unknown id | currentTokens {peer: 't'}, headers magellanic-tdti-id 'intruder', Authorization 'x' are accepted | refuse a missing token and any id without an entry | not executed | WebhookClient.BareAuthorizationExample | WebhookClient.ValidateRequestIntended |
| src/magellanic-client.ts:160-163 | the id is sent under the literal key TDTI_ID_HEADER, which validateRequest never reads | any initialised sender: its generated headers fail with 'tdtiId header not defined' at every peer | send the id under magellanic-tdti-id | not executed | WebhookClient.GeneratedHeadersLackTdtiId | WebhookClient.IntendedHeadersRoundTrip |
