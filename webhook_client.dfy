/**
 * The webhook-driven client (src/magellanic-client.ts). The control plane
 * pushes `auth`, `init`, `rotateTokens` and `reauth` events; the client keeps
 * a secret, the current and previous token tables with their secrets, and its
 * own current and previous token, and validates peers against the two tables.
 *
 * Field values are whatever the decrypted JSON holds, hence `JsValue`.
 * Base64 decoding, the AES-256-GCM decipher, JSON.parse, uuid() and String()
 * are parameters; the byte framing of decryptAes is the one in `Helpers`.
 */
module WebhookClient {
  import opened Wrappers
  import opened Js
  import Helpers

  const TdtiIdHeaderName := "magellanic-tdti-id"
  const AuthorizationHeaderName := "Authorization"
  /** The key generateHeaders writes: the constant's name taken as a literal key. */
  const LiteralTdtiIdKey := "TDTI_ID_HEADER"

  datatype WebhookError =
    | NotInitialized              // Error('not initialized')
    | BadToken                    // Error('bad token')
    | MissingTdtiIdHeader         // Error('tdtiId header not defined')
    | MissingAuthorizationHeader  // Error('Authorization header not defined')
    | SecretNotSet                // Error('secret not set')
    | DecryptFailed(cause: Helpers.DecryptError)  // decryptAes threw: short message or bad tag
    | Unparsable                  // JSON.parse threw on the plaintext
    | TypeError                   // a property read on null or undefined

  datatype WebhookState = WebhookState(
    tdtiId: string,
    authRandomString: string,
    secret: JsValue,
    currentTokensSecret: JsValue,
    previousTokensSecret: JsValue,
    currentTokens: JsValue,
    previousTokens: JsValue,
    currentToken: JsValue,
    previousToken: JsValue)

  /** A freshly constructed client: only the id and a fresh random string are set. */
  function Initial(tdtiId: string, nonce: string): WebhookState
  {
    WebhookState(tdtiId, nonce, Undefined, Undefined, Undefined, Undefined, Undefined, Undefined, Undefined)
  }

  /** The body `authenticate` posts to `auth`: the random string the control plane must echo back. */
  function AuthRequestBody(s: WebhookState): (body: JsValue)
    ensures Get(body, "randomString") == Str(s.authRandomString)
  {
    Obj(map["randomString" := Str(s.authRandomString)])
  }

  /** How the post went: delivered, rejected with an axios error and its message, or another throw. */
  datatype PostOutcome = Delivered | AxiosFailure(message: string) | OtherFailure

  datatype AuthResult = AuthResult(authenticated: bool, reason: Option<string>)

  /** `authenticate` never throws: it reports the outcome, with the axios message as the reason. */
  function AuthenticateResult(o: PostOutcome): (r: AuthResult)
    ensures r.authenticated <==> o.Delivered?
    ensures r.reason.Some? <==> o.AxiosFailure?
    ensures o.AxiosFailure? ==> r.reason == Some(o.message)
  {
    match o
    case Delivered => AuthResult(true, None)
    case AxiosFailure(message) => AuthResult(false, Some(message))
    case OtherFailure => AuthResult(false, None)
  }

  /**
   * The foreign parts of `decryptPayload`: Buffer.from(…, 'base64') on a
   * string, the AES-256-GCM decipher and JSON.parse (None when it throws).
   */
  datatype Codec = Codec(
    base64: string -> seq<Helpers.byte>,
    decipher: Helpers.GcmDecipher,
    parse: string -> Option<JsValue>)

  /**
   * `decryptPayload`: refuses to run before a secret has been stored, then
   * decrypts `payload.encrypted` under the secret and parses the plaintext.
   * A non-string ciphertext or key makes Buffer.from throw a TypeError; the
   * key is only decoded once the buffers have been allocated.
   */
  function Decryption(secret: JsValue, payload: JsValue, codec: Codec): (r: Result<JsValue, WebhookError>)
    ensures !Truthy(secret) ==> r == Failure(SecretNotSet)
    ensures r == Failure(DecryptFailed(Helpers.BufferSizeOutOfRange)) <==>
      Truthy(secret) && Get(payload, "encrypted").Str?
      && |codec.base64(Get(payload, "encrypted").s)| < Helpers.GcmIvLength + Helpers.GcmTagLength
    ensures r.Success? <==>
      secret.Str? && Truthy(secret) && Get(payload, "encrypted").Str?
      && var plain := Helpers.Decrypted(codec.base64(Get(payload, "encrypted").s), secret.s, codec.decipher);
         plain.Success? && codec.parse(plain.value).Some?
    ensures r.Success? ==>
      Some(r.value) == codec.parse(Helpers.Decrypted(codec.base64(Get(payload, "encrypted").s), secret.s, codec.decipher).value)
  {
    if !Truthy(secret) then Failure(SecretNotSet)
    else
      var encrypted := Get(payload, "encrypted");
      if !encrypted.Str? then Failure(TypeError)
      else
        var message := codec.base64(encrypted.s);
        if |message| < Helpers.GcmIvLength + Helpers.GcmTagLength then Failure(DecryptFailed(Helpers.BufferSizeOutOfRange))
        else if !secret.Str? then Failure(TypeError)
        else match Helpers.Decrypted(message, secret.s, codec.decipher)
          case Failure(e) => Failure(DecryptFailed(e))
          case Success(text) =>
            var data := codec.parse(text);
            if data.None? then Failure(Unparsable) else Success(data.value)
  }

  /**
   * A payload whose ciphertext decodes to a frame of IV, ciphertext and tag is
   * opened with exactly those parts: its data is the parse of the plaintext.
   */
  lemma FramedPayloadOpens(secret: string, payload: JsValue, codec: Codec,
                           iv: seq<Helpers.byte>, ciphertext: seq<Helpers.byte>, tag: seq<Helpers.byte>)
    requires secret != "" && |iv| == Helpers.GcmIvLength && |tag| == Helpers.GcmTagLength
    requires Get(payload, "encrypted").Str?
    requires codec.base64(Get(payload, "encrypted").s) == Helpers.Frame(iv, ciphertext, tag)
    ensures codec.decipher.final(secret, iv, tag, ciphertext).None? ==>
      Decryption(Str(secret), payload, codec) == Failure(DecryptFailed(Helpers.AuthenticationFailed))
    ensures codec.decipher.final(secret, iv, tag, ciphertext).Some? ==>
      var text := codec.decipher.update(secret, iv, ciphertext) + codec.decipher.final(secret, iv, tag, ciphertext).value;
      (codec.parse(text).Some? ==> Decryption(Str(secret), payload, codec) == Success(codec.parse(text).value))
      && (codec.parse(text).None? ==> Decryption(Str(secret), payload, codec) == Failure(Unparsable))
  {
    Helpers.DecryptFrame(iv, ciphertext, tag, secret, codec.decipher);
  }

  /** The state after one webhook and what `handleWebhook` returned or threw. */
  datatype Outcome = Outcome(next: WebhookState, result: Result<bool, WebhookError>)

  predicate IsAction(payload: JsValue, name: string)
  {
    Get(payload, "action") == Str(name)
  }

  /** `handleWebhook`: one event of the state machine. */
  function Step(s: WebhookState, payload: JsValue, nonce: string, codec: Codec): (st: Outcome)
    // the workload id is fixed; only reauth draws a new random string
    ensures st.next.tdtiId == s.tdtiId
    ensures st.next.authRandomString != s.authRandomString ==> IsAction(payload, "reauth")
    // only init and rotateTokens install token tables
    ensures st.next.currentTokens != s.currentTokens ==> IsAction(payload, "init") || IsAction(payload, "rotateTokens")
    ensures st.next.previousTokens != s.previousTokens ==> IsAction(payload, "rotateTokens")
    // what can be thrown: a read on null or undefined, or a failure to open the payload, which writes nothing
    ensures st.result.Failure? ==>
      st.result.error in {TypeError, SecretNotSet, Unparsable} || st.result.error.DecryptFailed?
    ensures st.result.Failure? && st.result.error != TypeError ==> st.next == s
  {
    var action := Member(payload, "action");
    if action.None? then Outcome(s, Failure(TypeError))
    else if !Truthy(action.value) then Outcome(s, Success(false))
    else if action.value == Str("auth") then
      // `payload && …`: the payload has a truthy property, so it is a truthy object
      Outcome(s.(secret := Get(payload, "secret")),
              Success(Get(payload, "randomString") == Str(s.authRandomString)))
    else if action.value == Str("init") then
      match Decryption(s.secret, payload, codec)
      case Failure(e) => Outcome(s, Failure(e))
      case Success(data) =>
        var secret := Member(data, "secret");
        if secret.None? then Outcome(s, Failure(TypeError))
        else
          var s1 := s.(secret := secret.value);
          var state := Get(data, "state");
          if Truthy(state) then
            Outcome(s1.(currentTokensSecret := Get(state, "tokensSecret"), currentTokens := Get(state, "tokens")),
                    Success(true))
          else Outcome(s1, Success(true))
    else if action.value == Str("rotateTokens") then
      match Decryption(s.secret, payload, codec)
      case Failure(e) => Outcome(s, Failure(e))
      case Success(data) =>
        var secret := Member(data, "secret");
        if secret.None? then Outcome(s, Failure(TypeError))
        else
          var tokens := Get(data, "tokens");
          var s1 := s.(secret := secret.value,
                       previousTokensSecret := s.currentTokensSecret,
                       currentTokensSecret := Get(data, "tokensSecret"),
                       previousTokens := s.currentTokens,
                       currentTokens := tokens,
                       previousToken := s.currentToken);
          var own := Member(tokens, s.tdtiId);
          // the earlier assignments have happened when reading the own token throws
          if own.None? then Outcome(s1, Failure(TypeError))
          else Outcome(s1.(currentToken := own.value), Success(true))
    else if action.value == Str("reauth") then
      Outcome(s.(authRandomString := nonce), Success(true))
    else Outcome(s, Success(false))
  }

  // ---------------------------------------------------------------- properties of one event

  /** A missing, falsy or unrecognised action returns false and changes nothing. */
  lemma UnhandledActionIgnored(s: WebhookState, payload: JsValue, nonce: string, codec: Codec)
    requires !Nullish(payload)
    requires !IsAction(payload, "auth") && !IsAction(payload, "init")
    requires !IsAction(payload, "rotateTokens") && !IsAction(payload, "reauth")
    ensures Step(s, payload, nonce, codec) == Outcome(s, Success(false))
  {
  }

  /** `auth` stores the payload's secret whatever the random string, and answers whether it matches. */
  lemma AuthStoresSecret(s: WebhookState, payload: JsValue, nonce: string, codec: Codec)
    requires IsAction(payload, "auth")
    ensures Step(s, payload, nonce, codec).next == s.(secret := Get(payload, "secret"))
    ensures Step(s, payload, nonce, codec).result == Success(Get(payload, "randomString") == Str(s.authRandomString))
  {
  }

  /** An `auth` webhook echoing the posted random string is answered true. */
  lemma AuthHandshake(s: WebhookState, payload: JsValue, nonce: string, codec: Codec)
    requires IsAction(payload, "auth")
    requires Get(payload, "randomString") == Get(AuthRequestBody(s), "randomString")
    ensures Step(s, payload, nonce, codec).result == Success(true)
  {
  }

  /**
   * After `reauth` with a new random string, an `auth` webhook echoing the
   * string posted before is answered false, and one echoing the new string true.
   */
  lemma ReauthRetiresRandomString(s: WebhookState, reauth: JsValue, auth: JsValue, nonce: string, n2: string, codec: Codec)
    requires IsAction(reauth, "reauth") && IsAction(auth, "auth")
    requires nonce != s.authRandomString
    ensures var s1 := Step(s, reauth, nonce, codec).next;
      Get(auth, "randomString") == Get(AuthRequestBody(s), "randomString") ==>
        Step(s1, auth, n2, codec).result == Success(false)
    ensures var s1 := Step(s, reauth, nonce, codec).next;
      Get(auth, "randomString") == Get(AuthRequestBody(s1), "randomString") ==>
        Step(s1, auth, n2, codec).result == Success(true)
  {
    var s1 := Step(s, reauth, nonce, codec).next;
    assert s1.authRandomString == nonce;
  }

  /** Every handled action other than `auth` that does not throw returns true. */
  lemma HandledActionsReturnTrue(s: WebhookState, payload: JsValue, nonce: string, codec: Codec)
    requires IsAction(payload, "init") || IsAction(payload, "rotateTokens") || IsAction(payload, "reauth")
    requires Step(s, payload, nonce, codec).result.Success?
    ensures Step(s, payload, nonce, codec).result == Success(true)
  {
  }

  /** `init` and `rotateTokens` throw 'secret not set', changing nothing, until a secret is stored. */
  lemma SecretGate(s: WebhookState, payload: JsValue, nonce: string, codec: Codec)
    requires IsAction(payload, "init") || IsAction(payload, "rotateTokens")
    requires !Truthy(s.secret)
    ensures Step(s, payload, nonce, codec) == Outcome(s, Failure(SecretNotSet))
  {
  }

  /** `init` sets the secret and, with a state, the current table and its secret; nothing else. */
  lemma InitInstallsCurrentTables(s: WebhookState, payload: JsValue, nonce: string, codec: Codec)
    requires IsAction(payload, "init")
    requires Step(s, payload, nonce, codec).result.Success?
    ensures var n := Step(s, payload, nonce, codec).next;
      var data := Decryption(s.secret, payload, codec).value;
      var state := Get(data, "state");
      && n.secret == Get(data, "secret")
      && n.previousTokens == s.previousTokens && n.previousTokensSecret == s.previousTokensSecret
      && n.currentToken == s.currentToken && n.previousToken == s.previousToken
      && n.tdtiId == s.tdtiId && n.authRandomString == s.authRandomString
      && (Truthy(state) ==> n.currentTokens == Get(state, "tokens") && n.currentTokensSecret == Get(state, "tokensSecret"))
      && (!Truthy(state) ==> n.currentTokens == s.currentTokens && n.currentTokensSecret == s.currentTokensSecret)
  {
  }

  /** `rotateTokens` moves every current value into its previous slot and installs the new generation. */
  lemma RotateShiftsGenerations(s: WebhookState, payload: JsValue, nonce: string, codec: Codec)
    requires IsAction(payload, "rotateTokens")
    requires Step(s, payload, nonce, codec).result.Success?
    ensures var n := Step(s, payload, nonce, codec).next;
      var data := Decryption(s.secret, payload, codec).value;
      && n.previousTokens == s.currentTokens
      && n.previousTokensSecret == s.currentTokensSecret
      && n.previousToken == s.currentToken
      && n.currentTokens == Get(data, "tokens")
      && n.currentTokensSecret == Get(data, "tokensSecret")
      && n.currentToken == Get(Get(data, "tokens"), s.tdtiId)
      && n.secret == Get(data, "secret")
      && n.tdtiId == s.tdtiId && n.authRandomString == s.authRandomString
  {
  }

  // ---------------------------------------------------------------- read-only operations

  function GetMyToken(s: WebhookState): (r: Result<JsValue, WebhookError>)
    ensures r.Failure? <==> !Truthy(s.currentToken)
    ensures r.Failure? ==> r.error == NotInitialized
    ensures r.Success? ==> r.value == s.currentToken
  {
    if !Truthy(s.currentToken) then Failure(NotInitialized) else Success(s.currentToken)
  }

  /** `generateHeaders` as written: the id goes under the literal key "TDTI_ID_HEADER". */
  function GenerateHeaders(s: WebhookState, display: Render): (r: Result<map<string, string>, WebhookError>)
    ensures r.Failure? <==> !Truthy(s.currentToken)
    ensures r.Failure? ==> r.error == NotInitialized
    ensures r.Success? ==> r.value.Keys == {"Authorization", "TDTI_ID_HEADER"}
    ensures r.Success? ==> r.value["Authorization"] == "Bearer " + Interpolate(s.currentToken, display)
    ensures r.Success? ==> r.value["TDTI_ID_HEADER"] == s.tdtiId
  {
    if !Truthy(s.currentToken) then Failure(NotInitialized)
    else Success(map[AuthorizationHeaderName := "Bearer " + Interpolate(s.currentToken, display),
                     LiteralTdtiIdKey := s.tdtiId])
  }

  /** The headers with the id under the header name `validateRequest` reads. */
  function GenerateHeadersIntended(s: WebhookState, display: Render): (r: Result<map<string, string>, WebhookError>)
    ensures r.Failure? <==> !Truthy(s.currentToken)
    ensures r.Success? ==> r.value.Keys == {"Authorization", "magellanic-tdti-id"}
    ensures r.Success? ==> r.value["Authorization"] == "Bearer " + Interpolate(s.currentToken, display)
    ensures r.Success? ==> r.value["magellanic-tdti-id"] == s.tdtiId
  {
    if !Truthy(s.currentToken) then Failure(NotInitialized)
    else Success(map[AuthorizationHeaderName := "Bearer " + Interpolate(s.currentToken, display),
                     TdtiIdHeaderName := s.tdtiId])
  }

  /**
   * `validateToken` as written: a token equal to the current entry passes;
   * otherwise any truthy previous entry for the id lets it through.
   */
  function ValidateToken(s: WebhookState, tdtiId: string, token: JsValue): (r: Result<(), WebhookError>)
    ensures !Truthy(s.currentTokens) ==> r == Failure(NotInitialized)
    ensures r.Success? <==>
      Truthy(s.currentTokens) && (Get(s.currentTokens, tdtiId) == token || Truthy(Get(s.previousTokens, tdtiId)))
    ensures Truthy(s.currentTokens) && r.Failure? ==> r.error == BadToken
  {
    if !Truthy(s.currentTokens) then Failure(NotInitialized)
    else if Get(s.currentTokens, tdtiId) != token then
      var previousToken := Get(s.previousTokens, tdtiId);
      if !Truthy(previousToken) then Failure(BadToken) else Success(())
    else Success(())
  }

  /** Validation that compares the presented token with both generations' entries. */
  function ValidateTokenIntended(s: WebhookState, tdtiId: string, token: JsValue): (r: Result<(), WebhookError>)
    ensures !Truthy(s.currentTokens) ==> r == Failure(NotInitialized)
    ensures r.Success? <==>
      Truthy(s.currentTokens) && token.Str?
      && (Get(s.currentTokens, tdtiId) == token || Get(s.previousTokens, tdtiId) == token)
    ensures Truthy(s.currentTokens) && r.Failure? ==> r.error == BadToken
  {
    if !Truthy(s.currentTokens) then Failure(NotInitialized)
    else if token.Str? && (Get(s.currentTokens, tdtiId) == token || Get(s.previousTokens, tdtiId) == token) then
      Success(())
    else Failure(BadToken)
  }

  /** `validateRequest`: the id header, then the Authorization header, whose second field is the token. */
  function ValidateRequest(s: WebhookState, req: Request): (r: Result<(), WebhookError>)
    ensures !Filled(Header(req, TdtiIdHeaderName)) ==> r == Failure(MissingTdtiIdHeader)
    ensures Filled(Header(req, TdtiIdHeaderName)) && !Filled(Header(req, AuthorizationHeaderName)) ==>
      r == Failure(MissingAuthorizationHeader)
    ensures Filled(Header(req, TdtiIdHeaderName)) && Filled(Header(req, AuthorizationHeaderName)) ==>
      r == ValidateToken(s, req[TdtiIdHeaderName], SecondField(req[AuthorizationHeaderName]))
  {
    var tdtiId := Header(req, TdtiIdHeaderName);
    if !Filled(tdtiId) then Failure(MissingTdtiIdHeader)
    else
      var tokenHeader := Header(req, AuthorizationHeaderName);
      if !Filled(tokenHeader) then Failure(MissingAuthorizationHeader)
      else ValidateToken(s, tdtiId.value, SecondField(tokenHeader.value))
  }

  /** The same header checks, delegating to the comparing validation. */
  function ValidateRequestIntended(s: WebhookState, req: Request): (r: Result<(), WebhookError>)
    ensures !Filled(Header(req, TdtiIdHeaderName)) ==> r == Failure(MissingTdtiIdHeader)
    ensures Filled(Header(req, TdtiIdHeaderName)) && !Filled(Header(req, AuthorizationHeaderName)) ==>
      r == Failure(MissingAuthorizationHeader)
    ensures Filled(Header(req, TdtiIdHeaderName)) && Filled(Header(req, AuthorizationHeaderName)) ==>
      r == ValidateTokenIntended(s, req[TdtiIdHeaderName], SecondField(req[AuthorizationHeaderName]))
  {
    var tdtiId := Header(req, TdtiIdHeaderName);
    if !Filled(tdtiId) then Failure(MissingTdtiIdHeader)
    else
      var tokenHeader := Header(req, AuthorizationHeaderName);
      if !Filled(tokenHeader) then Failure(MissingAuthorizationHeader)
      else ValidateTokenIntended(s, tdtiId.value, SecondField(tokenHeader.value))
  }

  // ---------------------------------------------------------------- findings

  /** As written, a truthy previous entry admits any token for that id. */
  lemma PreviousEntryAdmitsAnyToken(s: WebhookState, tdtiId: string, forged: JsValue)
    requires Truthy(s.currentTokens) && Truthy(Get(s.previousTokens, tdtiId))
    requires forged != Get(s.previousTokens, tdtiId) && forged != Get(s.currentTokens, tdtiId)
    ensures ValidateToken(s, tdtiId, forged) == Success(())
    ensures ValidateTokenIntended(s, tdtiId, forged) == Failure(BadToken)
  {
  }

  /**
   * As written, an Authorization header without a space yields an undefined
   * token, which equals the undefined entry of any id missing from the table.
   */
  lemma BareAuthorizationAdmitsUnknownId(s: WebhookState, req: Request)
    requires Truthy(s.currentTokens)
    requires Filled(Header(req, TdtiIdHeaderName)) && Filled(Header(req, AuthorizationHeaderName))
    requires Get(s.currentTokens, req[TdtiIdHeaderName]) == Undefined
    requires ' ' !in req[AuthorizationHeaderName]
    ensures ValidateRequest(s, req) == Success(())
    ensures ValidateRequestIntended(s, req) == Failure(BadToken)
  {
  }

  /** The concrete request that shows it: an unknown id and the header "x". */
  lemma BareAuthorizationExample(s: WebhookState)
    requires s.currentTokens == Obj(map["peer" := Str("t")])
    ensures ValidateRequest(s, map["magellanic-tdti-id" := "intruder", "Authorization" := "x"]) == Success(())
  {
    BareAuthorizationAdmitsUnknownId(s, map["magellanic-tdti-id" := "intruder", "Authorization" := "x"]);
  }

  /** As written, a request carrying exactly the generated headers fails for want of the id header. */
  lemma GeneratedHeadersLackTdtiId(sender: WebhookState, peer: WebhookState, display: Render)
    requires Truthy(sender.currentToken)
    ensures ValidateRequest(peer, GenerateHeaders(sender, display).value) == Failure(MissingTdtiIdHeader)
  {
    assert TdtiIdHeaderName !in GenerateHeaders(sender, display).value;
  }

  /**
   * The intended headers are read back by a peer as the sender's id and
   * token, and a peer whose current table holds that token accepts them.
   */
  lemma IntendedHeadersRoundTrip(sender: WebhookState, peer: WebhookState, display: Render, t: string)
    requires sender.currentToken == Str(t) && t != "" && ' ' !in t
    requires sender.tdtiId != ""
    ensures ValidateRequestIntended(peer, GenerateHeadersIntended(sender, display).value)
         == ValidateTokenIntended(peer, sender.tdtiId, Str(t))
    ensures Truthy(peer.currentTokens) && Get(peer.currentTokens, sender.tdtiId) == Str(t) ==>
      ValidateRequestIntended(peer, GenerateHeadersIntended(sender, display).value) == Success(())
  {
    var h := GenerateHeadersIntended(sender, display).value;
    assert h[AuthorizationHeaderName] == "Bearer " + t;
    BearerField(t);
  }

  // ---------------------------------------------------------------- rotation boundaries

  /** A token that is current before a rotation is still accepted after it, by both validations. */
  lemma AcceptedThroughOneRotation(s: WebhookState, payload: JsValue, nonce: string, codec: Codec, tdtiId: string, t: string)
    requires IsAction(payload, "rotateTokens")
    requires Step(s, payload, nonce, codec).result.Success?
    requires Truthy(Step(s, payload, nonce, codec).next.currentTokens)
    requires Get(s.currentTokens, tdtiId) == Str(t) && t != ""
    ensures ValidateTokenIntended(Step(s, payload, nonce, codec).next, tdtiId, Str(t)) == Success(())
    ensures ValidateToken(Step(s, payload, nonce, codec).next, tdtiId, Str(t)) == Success(())
  {
    RotateShiftsGenerations(s, payload, nonce, codec);
  }

  /**
   * A token absent from the tables of two rotations in a row is refused by the
   * comparing validation, while as written a truthy entry in the middle table
   * still lets it through.
   */
  lemma RefusedAfterTwoRotations(s0: WebhookState, p1: JsValue, p2: JsValue, n1: string, n2: string, codec: Codec,
                                 tdtiId: string, t: string)
    requires IsAction(p1, "rotateTokens") && IsAction(p2, "rotateTokens")
    requires Step(s0, p1, n1, codec).result.Success?
    requires Step(Step(s0, p1, n1, codec).next, p2, n2, codec).result.Success?
    requires Truthy(Step(Step(s0, p1, n1, codec).next, p2, n2, codec).next.currentTokens)
    requires Get(Step(s0, p1, n1, codec).next.currentTokens, tdtiId) != Str(t)
    requires Get(Step(Step(s0, p1, n1, codec).next, p2, n2, codec).next.currentTokens, tdtiId) != Str(t)
    ensures ValidateTokenIntended(Step(Step(s0, p1, n1, codec).next, p2, n2, codec).next, tdtiId, Str(t)) == Failure(BadToken)
    ensures Truthy(Get(Step(s0, p1, n1, codec).next.currentTokens, tdtiId)) ==>
      ValidateToken(Step(Step(s0, p1, n1, codec).next, p2, n2, codec).next, tdtiId, Str(t)) == Success(())
  {
    var s1 := Step(s0, p1, n1, codec).next;
    RotateShiftsGenerations(s1, p2, n2, codec);
  }

  // ---------------------------------------------------------------- sequences of events

  datatype Event = Event(payload: JsValue, nonce: string)

  /** The state after a sequence of webhooks, thrown errors included. */
  function Run(s: WebhookState, events: seq<Event>, codec: Codec): (r: WebhookState)
    ensures r.tdtiId == s.tdtiId
    ensures (forall i :: 0 <= i < |events| ==> !IsAction(events[i].payload, "reauth")) ==>
      r.authRandomString == s.authRandomString
    decreases |events|
  {
    if |events| == 0 then s
    else Run(Step(s, events[0].payload, events[0].nonce, codec).next, events[1..], codec)
  }

  predicate Unprovisioned(s: WebhookState)
  {
    !Truthy(s.secret) && !Truthy(s.currentTokens) && !Truthy(s.currentToken)
  }

  /** Until an `auth` webhook arrives, no secret, token table or own token is ever installed. */
  lemma {:induction false} NoAuthNoCredentials(s: WebhookState, events: seq<Event>, codec: Codec)
    requires Unprovisioned(s)
    requires forall i :: 0 <= i < |events| ==> !IsAction(events[i].payload, "auth")
    ensures Unprovisioned(Run(s, events, codec))
    decreases |events|
  {
    if |events| > 0 {
      var e := events[0];
      var n := Step(s, e.payload, e.nonce, codec).next;
      assert Unprovisioned(n);
      NoAuthNoCredentials(n, events[1..], codec);
    }
  }

  /** Hence a client that never saw `auth` refuses every validation and has no token to send. */
  lemma FailFastWithoutAuth(tdtiId: string, nonce: string, events: seq<Event>, codec: Codec,
                            peer: string, token: JsValue, display: Render)
    requires forall i :: 0 <= i < |events| ==> !IsAction(events[i].payload, "auth")
    ensures ValidateToken(Run(Initial(tdtiId, nonce), events, codec), peer, token) == Failure(NotInitialized)
    ensures GetMyToken(Run(Initial(tdtiId, nonce), events, codec)) == Failure(NotInitialized)
    ensures GenerateHeaders(Run(Initial(tdtiId, nonce), events, codec), display) == Failure(NotInitialized)
  {
    NoAuthNoCredentials(Initial(tdtiId, nonce), events, codec);
  }

  /** Only `rotateTokens` writes the previous generation; the workload id never changes. */
  lemma {:induction false} PreviousGenerationStable(s: WebhookState, events: seq<Event>, codec: Codec)
    requires forall i :: 0 <= i < |events| ==> !IsAction(events[i].payload, "rotateTokens")
    ensures var n := Run(s, events, codec);
      n.previousTokens == s.previousTokens && n.previousTokensSecret == s.previousTokensSecret
      && n.previousToken == s.previousToken && n.tdtiId == s.tdtiId
    decreases |events|
  {
    if |events| > 0 {
      var e := events[0];
      PreviousGenerationStable(Step(s, e.payload, e.nonce, codec).next, events[1..], codec);
    }
  }

  // ---------------------------------------------------------------- the client object

  class MagellanicClient {
    const tdtiId: string
    var authRandomString: string
    var secret: JsValue
    var currentTokensSecret: JsValue
    var previousTokensSecret: JsValue
    var currentTokens: JsValue
    var previousTokens: JsValue
    var currentToken: JsValue
    var previousToken: JsValue

    function State(): WebhookState
      reads this
    {
      WebhookState(tdtiId, authRandomString, secret, currentTokensSecret, previousTokensSecret,
                   currentTokens, previousTokens, currentToken, previousToken)
    }

    /** `new MagellanicClient(tdtiId)`, with `nonce` the value uuid() returned. */
    constructor (tdtiId: string, nonce: string)
      ensures State() == Initial(tdtiId, nonce)
    {
      this.tdtiId := tdtiId;
      authRandomString := nonce;
      secret, currentTokensSecret, previousTokensSecret := Undefined, Undefined, Undefined;
      currentTokens, previousTokens, currentToken, previousToken := Undefined, Undefined, Undefined, Undefined;
    }

    /**
     * `decryptPayload` on this client's secret, running decryptAes's buffer
     * algorithm. The size check comes first because decryptAes allocates its
     * buffers before it decodes the key.
     */
    method DecryptPayload(payload: JsValue, codec: Codec) returns (r: Result<JsValue, WebhookError>)
      ensures r == Decryption(secret, payload, codec)
    {
      if !Truthy(secret) {
        return Failure(SecretNotSet);
      }
      var encrypted := Get(payload, "encrypted");
      if !encrypted.Str? {
        return Failure(TypeError);
      }
      var message := codec.base64(encrypted.s);
      if |message| < Helpers.GcmIvLength + Helpers.GcmTagLength {
        return Failure(DecryptFailed(Helpers.BufferSizeOutOfRange));
      }
      if !secret.Str? {
        return Failure(TypeError);
      }
      var decrypted := Helpers.DecryptAes(message, secret.s, codec.decipher);
      if decrypted.Failure? {
        return Failure(DecryptFailed(decrypted.error));
      }
      var data := codec.parse(decrypted.value);
      if data.None? {
        return Failure(Unparsable);
      }
      return Success(data.value);
    }

    /** `handleWebhook`; `nonce` is the value uuid() returns if the event is `reauth`. */
    method HandleWebhook(payload: JsValue, nonce: string, codec: Codec) returns (r: Result<bool, WebhookError>)
      modifies this
      ensures State() == Step(old(State()), payload, nonce, codec).next
      ensures r == Step(old(State()), payload, nonce, codec).result
    {
      var action := Member(payload, "action");
      if action.None? {
        return Failure(TypeError);
      }
      if !Truthy(action.value) {
        return Success(false);
      }
      if action.value == Str("auth") {
        secret := Get(payload, "secret");
        return Success(Get(payload, "randomString") == Str(authRandomString));
      } else if action.value == Str("init") {
        var data := DecryptPayload(payload, codec);
        if data.Failure? {
          return Failure(data.error);
        }
        var newSecret := Member(data.value, "secret");
        if newSecret.None? {
          return Failure(TypeError);
        }
        secret := newSecret.value;
        var state := Get(data.value, "state");
        if Truthy(state) {
          currentTokensSecret := Get(state, "tokensSecret");
          currentTokens := Get(state, "tokens");
        }
      } else if action.value == Str("rotateTokens") {
        var data := DecryptPayload(payload, codec);
        if data.Failure? {
          return Failure(data.error);
        }
        var newSecret := Member(data.value, "secret");
        if newSecret.None? {
          return Failure(TypeError);
        }
        secret := newSecret.value;
        previousTokensSecret := currentTokensSecret;
        currentTokensSecret := Get(data.value, "tokensSecret");
        previousTokens := currentTokens;
        currentTokens := Get(data.value, "tokens");
        previousToken := currentToken;
        var own := Member(Get(data.value, "tokens"), tdtiId);
        if own.None? {
          return Failure(TypeError);
        }
        currentToken := own.value;
      } else if action.value == Str("reauth") {
        authRandomString := nonce;
      } else {
        return Success(false);
      }
      return Success(true);
    }
  }
}
