/**
 * The current SDK client (src/client/magellanic-client.ts): configuration
 * resolution, the token/auth-data pair installed by `authenticate` and
 * replaced by `rotateToken`, outbound headers, inbound header extraction,
 * claim checks on a verified token and the mapping of HTTP failures to errors.
 *
 * The network exchange, the clock, the service-account token file,
 * jsonwebtoken.verify, Date parsing and JSON.stringify are parameters.
 */
module Client {
  import opened Wrappers
  import opened Js
  import opened Errors

  const IdHeaderName := "magellanic-workload-id"
  const AuthHeaderName := "magellanic-authorization"
  const TokenPath := "/var/run/secrets/kubernetes.io/serviceaccount/token"
  const K8sProvider := "k8s"
  const SdkPayloadType := "sdk"
  /** Rotation is scheduled this many milliseconds before the token expires. */
  const RotationMarginMs := 10 * 1000

  const ProjectKeyVar := "MAGELLANIC_PROJECT_KEY"
  const ProviderTypeVar := "MAGELLANIC_PROVIDER_TYPE"
  const WorkloadNameVar := "MAGELLANIC_WORKLOAD_NAME"
  const ApiKeyVar := "MAGELLANIC_API_KEY"
  const RoleKeyVar := "MAGELLANIC_ROLE_KEY"

  const BadTokenReason := "bad token"
  const NoPermissionsReason := "no required permissions"

  datatype ClientError =
    | ProjectKeyMissingError
    | AuthenticateError(message: string)
    | NotInitializedError
    | RequestValidationError(message: string)
    | TokenValidationError(reason: string)
    | BadArgumentError(message: string)
    | UnauthorizedError(message: string)
    | ForbiddenError(message: string)
    | UnknownError(message: string)

  // ---------------------------------------------------------------- configuration

  datatype ClientOptions = ClientOptions(
    projectKey: Option<string>,
    name: Option<string>,
    provider: Option<string>,
    apiKey: Option<string>,
    roleKey: Option<string>)

  /** The process environment. */
  type Env = map<string, string>

  datatype Config = Config(
    apiKey: Option<string>,
    projectKey: string,
    providerType: Option<string>,
    name: Option<string>,
    roleKey: Option<string>)

  function EnvVar(env: Env, name: string): Option<string>
  {
    if name in env then Some(env[name]) else None
  }

  /** The options as the constructor destructures them: all undefined when none are given. */
  function Given(options: Option<ClientOptions>): ClientOptions
  {
    if options.Some? then options.value else ClientOptions(None, None, None, None, None)
  }

  /**
   * The constructor's configuration: each value from the options unless it is
   * missing or empty, then from the environment; no project key anywhere is an error.
   */
  function ResolveConfig(options: Option<ClientOptions>, env: Env): (r: Result<Config, ClientError>)
    ensures r.Failure? <==> !Filled(Given(options).projectKey) && !Filled(EnvVar(env, ProjectKeyVar))
    ensures r.Failure? ==> r.error == ProjectKeyMissingError
    ensures r.Success? ==> r.value.projectKey != ""
    ensures r.Success? && Filled(Given(options).projectKey) ==> r.value.projectKey == Given(options).projectKey.value
    ensures r.Success? && !Filled(Given(options).projectKey) ==> Some(r.value.projectKey) == EnvVar(env, ProjectKeyVar)
    ensures r.Success? ==> r.value.name == OrElse(Given(options).name, EnvVar(env, WorkloadNameVar))
    ensures r.Success? ==> r.value.apiKey == OrElse(Given(options).apiKey, EnvVar(env, ApiKeyVar))
    ensures r.Success? ==> r.value.roleKey == OrElse(Given(options).roleKey, EnvVar(env, RoleKeyVar))
    ensures r.Success? ==> (r.value.providerType.None? <==> !Filled(Given(options).provider) && !Filled(EnvVar(env, ProviderTypeVar)))
    ensures r.Success? && r.value.providerType.Some? ==>
      r.value.providerType == OrElse(Given(options).provider, EnvVar(env, ProviderTypeVar)) && r.value.providerType.value != ""
  {
    var o := Given(options);
    var projectKey := OrElse(o.projectKey, EnvVar(env, ProjectKeyVar));
    if !Filled(projectKey) then Failure(ProjectKeyMissingError)
    else
      var provider := OrElse(o.provider, EnvVar(env, ProviderTypeVar));
      Success(Config(
        apiKey := OrElse(o.apiKey, EnvVar(env, ApiKeyVar)),
        projectKey := projectKey.value,
        providerType := if Filled(provider) then provider else None,
        name := OrElse(o.name, EnvVar(env, WorkloadNameVar)),
        roleKey := OrElse(o.roleKey, EnvVar(env, RoleKeyVar))))
  }

  // ---------------------------------------------------------------- session state

  /** The two fields `authenticate` and `rotateToken` write. */
  datatype Session = Session(token: JsValue, authData: Option<map<string, JsValue>>)

  const Unauthenticated := Session(Undefined, None)

  /** `checkState` passes: a truthy token and some auth data. */
  predicate Initialized(s: Session)
  {
    Truthy(s.token) && s.authData.Some?
  }

  function AuthField(s: Session, key: string): JsValue
    requires s.authData.Some?
  {
    Get(Obj(s.authData.value), key)
  }

  function CheckState(s: Session): (r: Result<(), ClientError>)
    ensures r.Success? <==> Initialized(s)
    ensures r.Failure? ==> r.error == NotInitializedError
  {
    if !Truthy(s.token) || s.authData.None? then Failure(NotInitializedError) else Success(())
  }

  function GetMyToken(s: Session): (r: Result<JsValue, ClientError>)
    ensures r.Failure? <==> !Initialized(s)
    ensures r.Failure? ==> r.error == NotInitializedError
    ensures r.Success? ==> r.value == s.token && Truthy(r.value)
  {
    match CheckState(s)
    case Failure(e) => Failure(e)
    case Success(_) => Success(s.token)
  }

  /** The outbound headers: this workload's token and its id. */
  function GenerateHeaders(s: Session): (r: Result<map<string, JsValue>, ClientError>)
    ensures r.Failure? <==> !Initialized(s)
    ensures r.Failure? ==> r.error == NotInitializedError
    ensures r.Success? ==> r.value.Keys == {AuthHeaderName, IdHeaderName}
    ensures r.Success? ==> r.value[AuthHeaderName] == s.token && r.value[IdHeaderName] == AuthField(s, "id")
  {
    match CheckState(s)
    case Failure(e) => Failure(e)
    case Success(_) =>
      match GetMyToken(s)
      case Failure(e) => Failure(e)
      case Success(token) => Success(map[AuthHeaderName := token, IdHeaderName := AuthField(s, "id")])
  }

  // ---------------------------------------------------------------- inbound validation

  datatype ValidationOptions = ValidationOptions(resource: string, action: string)

  /** jsonwebtoken.verify with RS256: the token's payload, or None when it throws. */
  type Verifier = (string, JsValue) -> Option<JsValue>

  /** The token's signature checks out and its `workloadId` claim is the (non-empty) presented id. */
  predicate Verified(s: Session, workloadId: string, token: string, verify: Verifier)
    requires s.authData.Some?
  {
    var payload := verify(token, AuthField(s, "publicKey"));
    payload.Some? && !payload.value.Str? && workloadId != ""
    && Get(payload.value, "workloadId") == Str(workloadId)
  }

  /** `payload.resources[resource][action]` is present and truthy. */
  predicate Grants(payload: JsValue, options: ValidationOptions)
  {
    var resources := Get(payload, "resources");
    Truthy(resources) && Truthy(Get(resources, options.resource))
    && Truthy(Get(Get(resources, options.resource), options.action))
  }

  function ValidateToken(s: Session, workloadId: string, token: string, options: Option<ValidationOptions>, verify: Verifier)
    : (r: Result<(), ClientError>)
    ensures !Initialized(s) ==> r == Failure(NotInitializedError)
    ensures r.Success? <==>
      Initialized(s) && Verified(s, workloadId, token, verify)
      && (options.Some? ==> Grants(verify(token, AuthField(s, "publicKey")).value, options.value))
    ensures r == Failure(TokenValidationError(BadTokenReason)) <==>
      Initialized(s) && !Verified(s, workloadId, token, verify)
    ensures r == Failure(TokenValidationError(NoPermissionsReason)) <==>
      Initialized(s) && Verified(s, workloadId, token, verify) && options.Some?
      && !Grants(verify(token, AuthField(s, "publicKey")).value, options.value)
  {
    if CheckState(s).Failure? then Failure(NotInitializedError)
    else match verify(token, AuthField(s, "publicKey"))
      case None => Failure(TokenValidationError(BadTokenReason))
      case Some(payload) =>
        if payload.Str? || !Truthy(Get(payload, "workloadId")) || Get(payload, "workloadId") != Str(workloadId) then
          Failure(TokenValidationError(BadTokenReason))
        else if options.Some? && !Grants(payload, options.value) then
          Failure(TokenValidationError(NoPermissionsReason))
        else
          Success(())
  }

  /** Reads the id header, then the auth header, then validates the pair. */
  function ValidateRequest(s: Session, req: Request, options: Option<ValidationOptions>, verify: Verifier)
    : (r: Result<(), ClientError>)
    ensures !Filled(Header(req, IdHeaderName)) ==>
      r == Failure(RequestValidationError("magellanic-workload-id header not defined"))
    ensures Filled(Header(req, IdHeaderName)) && !Filled(Header(req, AuthHeaderName)) ==>
      r == Failure(RequestValidationError("magellanic-authorization header not defined"))
    ensures Filled(Header(req, IdHeaderName)) && Filled(Header(req, AuthHeaderName)) ==>
      r == ValidateToken(s, req[IdHeaderName], req[AuthHeaderName], options, verify)
  {
    var id := Header(req, IdHeaderName);
    assert IdHeaderName + " header not defined" == "magellanic-workload-id header not defined";
    assert AuthHeaderName + " header not defined" == "magellanic-authorization header not defined";
    if !Filled(id) then Failure(RequestValidationError(IdHeaderName + " header not defined"))
    else
      var token := Header(req, AuthHeaderName);
      if !Filled(token) then Failure(RequestValidationError(AuthHeaderName + " header not defined"))
      else ValidateToken(s, id.value, token.value, options, verify)
  }

  // ---------------------------------------------------------------- HTTP failures

  datatype HttpResponse = HttpResponse(status: int, data: JsValue)

  /** An axios error: its message and, when the server answered, the response. */
  datatype HttpFailure = HttpFailure(message: string, response: Option<HttpResponse>)

  /** What a post to the control plane rejected with: an axios error, or another Error and its message. */
  datatype Thrown = AxiosThrown(failure: HttpFailure) | ErrorThrown(message: string)

  function Status(e: HttpFailure): Option<int>
  {
    if e.response.Some? then Some(e.response.value.status) else None
  }

  /** `error.response?.data` */
  function ResponseData(e: HttpFailure): JsValue
  {
    if e.response.Some? then e.response.value.data else Undefined
  }

  function HandleAxiosError(e: HttpFailure, render: Render): (r: ClientError)
    ensures r.BadArgumentError? <==> Status(e) == Some(400)
    ensures r.UnauthorizedError? <==> Status(e) == Some(401)
    ensures r.ForbiddenError? <==> Status(e) == Some(403)
    ensures r.UnknownError? <==> Status(e) !in {Some(400), Some(401), Some(403)}
    ensures r.BadArgumentError? ==> r.message == BadArgumentMessage(ResponseData(e), render)
    ensures r.UnauthorizedError? ==> r.message == UnauthorizedMessage(ResponseData(e), render)
    ensures r.ForbiddenError? ==> r.message == ForbiddenMessage(ResponseData(e), render)
    ensures r.UnknownError? ==> r.message == UnknownMessage(ResponseData(e), render)
  {
    if Status(e) == Some(400) then BadArgumentError(BadArgumentMessage(ResponseData(e), render))
    else if Status(e) == Some(401) then UnauthorizedError(UnauthorizedMessage(ResponseData(e), render))
    else if Status(e) == Some(403) then ForbiddenError(ForbiddenMessage(ResponseData(e), render))
    else UnknownError(UnknownMessage(ResponseData(e), render))
  }

  // ---------------------------------------------------------------- authentication and rotation

  /** The body posted to `auth`: the configuration, the service-account token and the type. */
  datatype AuthPayload = AuthPayload(
    providerType: Option<string>,
    apiKey: Option<string>,
    name: Option<string>,
    projectKey: string,
    roleKey: Option<string>,
    token: Option<string>,
    kind: string)

  function AuthPayloadFor(config: Config, k8sToken: Option<string>): (p: AuthPayload)
    ensures p.projectKey == config.projectKey && p.providerType == config.providerType
    ensures p.apiKey == config.apiKey && p.name == config.name && p.roleKey == config.roleKey
    ensures p.token == k8sToken && p.kind == "sdk"
  {
    AuthPayload(config.providerType, config.apiKey, config.name, config.projectKey, config.roleKey, k8sToken, SdkPayloadType)
  }

  function TokenFileMessage(reason: string): string
  {
    "Error when trying to read the token file (path: " + TokenPath + "): \n" + reason
  }

  /**
   * The `auth` response split as `authenticate` destructures it: the token on
   * its own, every other field except the expiry date as the auth data.
   */
  function InstallAuthResponse(data: JsValue): (s: Option<Session>)
    ensures s.None? <==> Nullish(data)
    ensures s.Some? ==> s.value.token == Get(data, "token") && s.value.authData.Some?
    ensures data.Obj? ==> s.value.authData.value.Keys == data.props.Keys - {"token", "tokenExpiryDate"}
    ensures data.Obj? ==> forall k :: k in s.value.authData.value ==> s.value.authData.value[k] == data.props[k]
    ensures s.Some? && !data.Obj? ==> s.value.authData == Some(map[])
  {
    // destructuring null or undefined throws a TypeError
    if Nullish(data) then None
    else Some(Session(Get(data, "token"), Some(if data.Obj? then data.props - {"token", "tokenExpiryDate"} else map[])))
  }

  /**
   * `rotateToken` takes the new token from the response and nothing else;
   * reading it from a null or undefined body throws a TypeError (None).
   */
  function InstallRotatedToken(s: Session, data: JsValue): (s': Option<Session>)
    ensures s'.None? <==> Nullish(data)
    ensures s'.Some? ==> s'.value.authData == s.authData && s'.value.token == Get(data, "token")
  {
    if Nullish(data) then None else Some(s.(token := Get(data, "token")))
  }

  /**
   * The timeout before the next rotation, `expiry − now − 10 s`, in
   * milliseconds; None when the expiry date does not parse (NaN).
   */
  function RotationDelay(expiry: Option<int>, now: int): (d: Option<int>)
    ensures d.Some? <==> expiry.Some?
    ensures d.Some? ==> now + d.value == expiry.value - RotationMarginMs
  {
    if expiry.Some? then Some(expiry.value - now - RotationMarginMs) else None
  }

  /** A successful `auth` exchange initialises the client exactly when its token is truthy. */
  lemma InstalledSessionInitialized(data: JsValue)
    requires !Nullish(data)
    ensures Initialized(InstallAuthResponse(data).value) <==> Truthy(Get(data, "token"))
    ensures "tokenExpiryDate" !in InstallAuthResponse(data).value.authData.value
  {
  }

  /**
   * Rotation keeps the workload's identity: with a truthy new token, token
   * validation, the id header and initialisation are unchanged and the auth
   * header carries the new token.
   */
  lemma RotationKeepsIdentity(s: Session, data: JsValue, workloadId: string, token: string,
                              options: Option<ValidationOptions>, verify: Verifier)
    requires Initialized(s) && Truthy(Get(data, "token"))
    ensures InstallRotatedToken(s, data).Some? && Initialized(InstallRotatedToken(s, data).value)
    ensures ValidateToken(InstallRotatedToken(s, data).value, workloadId, token, options, verify)
         == ValidateToken(s, workloadId, token, options, verify)
    ensures GenerateHeaders(InstallRotatedToken(s, data).value).value[IdHeaderName] == GenerateHeaders(s).value[IdHeaderName]
    ensures GenerateHeaders(InstallRotatedToken(s, data).value).value[AuthHeaderName] == Get(data, "token")
  {
  }

  /** Before any successful `authenticate`, every credential-dependent call fails with NotInitializedError. */
  lemma FailFastBeforeAuthenticate(workloadId: string, token: string, options: Option<ValidationOptions>, verify: Verifier)
    ensures GetMyToken(Unauthenticated) == Failure(NotInitializedError)
    ensures GenerateHeaders(Unauthenticated) == Failure(NotInitializedError)
    ensures ValidateToken(Unauthenticated, workloadId, token, options, verify) == Failure(NotInitializedError)
  {
  }

  /** A request is carrying the given string headers. */
  predicate Carries(req: Request, headers: map<string, JsValue>)
  {
    forall k :: k in headers ==> headers[k].Str? && k in req && req[k] == headers[k].s
  }

  /**
   * The headers one client generates, delivered as a request, are read back by
   * a peer as exactly the sender's id and token.
   */
  lemma HeadersRoundTrip(sender: Session, peer: Session, req: Request, options: Option<ValidationOptions>, verify: Verifier)
    requires GenerateHeaders(sender).Success?
    requires AuthField(sender, "id").Str? && AuthField(sender, "id").s != ""
    requires Carries(req, GenerateHeaders(sender).value)
    ensures ValidateRequest(peer, req, options, verify)
         == ValidateToken(peer, AuthField(sender, "id").s, sender.token.s, options, verify)
  {
    var h := GenerateHeaders(sender).value;
    assert h[IdHeaderName].Str? && h[AuthHeaderName].Str?;
  }

  /** Without validation options the permission check never runs. */
  lemma NoOptionsNoPermissionCheck(s: Session, workloadId: string, token: string, verify: Verifier)
    ensures ValidateToken(s, workloadId, token, None, verify) != Failure(TokenValidationError(NoPermissionsReason))
  {
  }

  /**
   * A verified token granting `{resourceA: {read: true}}` passes a `read`
   * check and fails a `write` check with the permissions reason, not "bad token".
   */
  lemma PermissionClaimScenario(s: Session, token: string, verify: Verifier)
    requires Initialized(s)
    requires verify(token, AuthField(s, "publicKey")) ==
      Some(Obj(map["workloadId" := Str("peer"),
                   "resources" := Obj(map["resourceA" := Obj(map["read" := Bool(true)])])]))
    ensures ValidateToken(s, "peer", token, Some(ValidationOptions("resourceA", "read")), verify) == Success(())
    ensures ValidateToken(s, "peer", token, Some(ValidationOptions("resourceA", "write")), verify)
         == Failure(TokenValidationError("no required permissions"))
    ensures ValidateToken(s, "other", token, None, verify) == Failure(TokenValidationError("bad token"))
  {
  }

  // ---------------------------------------------------------------- the client object

  class MagellanicClient {
    const config: Config
    var token: JsValue
    var authData: Option<map<string, JsValue>>

    function Snapshot(): Session
      reads this
    {
      Session(token, authData)
    }

    constructor (config: Config)
      ensures this.config == config && Snapshot() == Unauthenticated
    {
      this.config := config;
      token := Undefined;
      authData := None;
    }

    /** `new MagellanicClient(options)`: resolves the configuration or throws ProjectKeyMissingError. */
    static method New(options: Option<ClientOptions>, env: Env) returns (r: Result<MagellanicClient, ClientError>)
      ensures ResolveConfig(options, env).Failure? ==> r == Failure(ProjectKeyMissingError)
      ensures ResolveConfig(options, env).Success? ==>
        r.Success? && fresh(r.value) && r.value.config == ResolveConfig(options, env).value
        && r.value.Snapshot() == Unauthenticated
    {
      var config := ResolveConfig(options, env);
      if config.Failure? {
        return Failure(config.error);
      }
      var client := new MagellanicClient(config.value);
      return Success(client);
    }

    /**
     * `authenticate`: read the service-account token for the k8s provider,
     * post the payload, install the response and return the delay until the
     * rotation it schedules. `typeError` is the message of the TypeError the
     * engine raises when the response body is null or undefined.
     */
    method Authenticate(tokenFile: Result<string, string>,
                        exchange: AuthPayload -> Result<JsValue, Thrown>,
                        parseDate: JsValue -> Option<int>, now: int, render: Render, typeError: string)
      returns (r: Result<Option<int>, ClientError>)
      modifies this
      ensures config.providerType == Some(K8sProvider) && tokenFile.Failure? ==>
        r == Failure(AuthenticateError(TokenFileMessage(tokenFile.error))) && Snapshot() == old(Snapshot())
      ensures !(config.providerType == Some(K8sProvider) && tokenFile.Failure?) ==>
        var k8sToken := if config.providerType == Some(K8sProvider) then Some(tokenFile.value) else None;
        match exchange(AuthPayloadFor(config, k8sToken))
        case Failure(AxiosThrown(e)) =>
          r == Failure(AuthenticateError(AuthenticateMessage(e.message, ResponseData(e), render)))
          && Snapshot() == old(Snapshot())
        case Failure(ErrorThrown(message)) =>
          r == Failure(AuthenticateError(message)) && Snapshot() == old(Snapshot())
        case Success(data) =>
          match InstallAuthResponse(data)
          case None => r == Failure(AuthenticateError(typeError)) && Snapshot() == old(Snapshot())
          case Some(session) =>
            Snapshot() == session
            && r == Success(RotationDelay(parseDate(Get(data, "tokenExpiryDate")), now))
    {
      var k8sToken: Option<string> := None;
      if config.providerType == Some(K8sProvider) {
        if tokenFile.Failure? {
          return Failure(AuthenticateError(AuthenticateMessage(TokenFileMessage(tokenFile.error), Undefined, render)));
        }
        k8sToken := Some(tokenFile.value);
      }
      var payload := AuthPayloadFor(config, k8sToken);
      var response := exchange(payload);
      if response.Failure? {
        match response.error
        case AxiosThrown(e) =>
          return Failure(AuthenticateError(AuthenticateMessage(e.message, ResponseData(e), render)));
        case ErrorThrown(message) =>
          return Failure(AuthenticateError(AuthenticateMessage(message, Undefined, render)));
      }
      var data := response.value;
      if Nullish(data) {
        return Failure(AuthenticateError(AuthenticateMessage(typeError, Undefined, render)));
      }
      token := Get(data, "token");
      authData := Some(if data.Obj? then data.props - {"token", "tokenExpiryDate"} else map[]);
      var timeout := RotationDelay(parseDate(Get(data, "tokenExpiryDate")), now);
      return Success(timeout);
    }

    /**
     * `rotateToken`: replace the token with the one in the response and return
     * the next delay. A rejected post, or a TypeError on a null or undefined
     * body, rejects and changes nothing.
     */
    method RotateToken(exchange: Result<JsValue, Thrown>, parseDate: JsValue -> Option<int>, now: int, typeError: string)
      returns (r: Result<Option<int>, Thrown>)
      modifies this
      ensures exchange.Failure? ==> r == Failure(exchange.error) && Snapshot() == old(Snapshot())
      ensures exchange.Success? && Nullish(exchange.value) ==>
        r == Failure(ErrorThrown(typeError)) && Snapshot() == old(Snapshot())
      ensures exchange.Success? && !Nullish(exchange.value) ==>
        Snapshot() == InstallRotatedToken(old(Snapshot()), exchange.value).value
        && r == Success(RotationDelay(parseDate(Get(exchange.value, "tokenExpiryDate")), now))
    {
      if exchange.Failure? {
        return Failure(exchange.error);
      }
      var data := exchange.value;
      if Nullish(data) {
        return Failure(ErrorThrown(typeError));
      }
      token := Get(data, "token");
      var timeout := RotationDelay(parseDate(Get(data, "tokenExpiryDate")), now);
      return Success(timeout);
    }
  }
}
