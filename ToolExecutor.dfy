/** The tool executor of AgentSynapse/tools/executor/toolExecutor.py: the
    guards and the dispatch decision of `execute`, the YAML type switch,
    the HTTP method selection with its in-place header write, the Lambda
    payload, and `formatForBedrock`.

    What lies behind the dispatch (the HTTP client, the Lambda invocation,
    loading and running tool code from S3) is an input: each backend gives
    the value the call returns or the text of the exception it raises. */
module ToolExecutor {
  import opened Values
  import opened Schemas
  import opened Strings
  import Bedrock

  const AuthRequiredMessage := "Tool requires authentication"
  const DispatchFailedPrefix := "Tool execution failed: "
  const UnsupportedMethodPrefix := "Unsupported HTTP method: "
  const UnsupportedTypePrefix := "Unsupported YAML tool type: "
  const LambdaFailedPrefix := "Lambda execution failed: "
  const AuthorizationHeader := "Authorization"
  const BearerPrefix := "Bearer "

  /** What `_executeHttpTool` sends. */
  datatype HttpRequest = HttpRequest(verb: string, url: Option<string>, input: PyValue,
                                     headers: map<string, string>)

  /** A Lambda reply: the decoded payload, its `str()` rendering, and whether
      the reply carried a "FunctionError". */
  datatype LambdaReply = LambdaReply(payload: PyValue, payloadText: string, functionError: bool)

  /** The calls the executor makes but cannot see into. */
  datatype Backends = Backends(
    http: HttpRequest -> Result<PyValue, string>,
    lambda: (Option<string>, PyValue) -> Result<LambdaReply, string>,
    code: (string, PyValue) -> Result<PyValue, string>)

  /** `formatForBedrock`: exactly name, description and input schema. */
  function FormatForBedrock(tool: ToolDefinition): (t: Bedrock.BedrockTool)
    ensures t.name == tool.name && t.description == tool.description
    ensures t.inputSchema == tool.inputSchema
  {
    Bedrock.BedrockTool(tool.name, tool.description, tool.inputSchema)
  }

  /** The headers after `_executeHttpTool`'s write: a token adds
      "Authorization: Bearer <token>". */
  function WithAuthorization(headers: map<string, string>, authToken: Option<string>): (h: map<string, string>)
    ensures Given(authToken) ==> h == headers[AuthorizationHeader := BearerPrefix + authToken.value]
    ensures !Given(authToken) ==> h == headers
  {
    if Given(authToken) then headers[AuthorizationHeader := BearerPrefix + authToken.value] else headers
  }

  /** The HTTP method: "method" upper-cased, "POST" when absent. */
  function HttpMethod(config: YamlConfig): (m: string)
    ensures config.httpMethod.None? ==> m == "POST"
    ensures config.httpMethod.Some? ==> m == Upper(config.httpMethod.value)
  {
    Upper(if config.httpMethod.Some? then config.httpMethod.value else "POST")
  }

  predicate SupportedMethod(m: string)
  {
    m == "GET" || m == "POST" || m == "PUT"
  }

  /** `_executeHttpTool`'s outcome, given the headers dict it starts from. */
  function HttpOutcome(config: YamlConfig, input: PyValue, authToken: Option<string>,
                       headers: map<string, string>, b: Backends): Result<PyValue, string>
  {
    var m := HttpMethod(config);
    if SupportedMethod(m) then b.http(HttpRequest(m, config.url, input, WithAuthorization(headers, authToken)))
    else Err(UnsupportedMethodPrefix + m)
  }

  /** The event `_executeLambdaTool` sends: the input and the caller's tenant. */
  function LambdaPayload(input: PyValue, tenant: TenantContext): (p: PyValue)
    ensures p.PDict? && DictGet(p.entries, "input") == Some(input)
  {
    PDict([("input", input),
           ("tenantContext", PDict([("tenantId", PStr(tenant.tenantId)),
                                    ("userId", PStr(tenant.userId)),
                                    ("orgId", if tenant.orgId.Some? then PStr(tenant.orgId.value) else PNone)]))])
  }

  function LambdaOutcome(config: YamlConfig, input: PyValue, tenant: TenantContext,
                         b: Backends): Result<PyValue, string>
  {
    match b.lambda(config.functionName, LambdaPayload(input, tenant))
    case Err(e) => Err(e)
    case Ok(reply) => if reply.functionError then Err(LambdaFailedPrefix + reply.payloadText) else Ok(reply.payload)
  }

  /** `str(config.get("type"))`. */
  function KindText(kind: Option<string>): string
  {
    if kind.Some? then kind.value else "None"
  }

  /** `_executeYamlTool`: "http" and "lambda" are the only types. */
  function YamlOutcome(config: YamlConfig, input: PyValue, tenant: TenantContext, authToken: Option<string>,
                       headers: map<string, string>, b: Backends): Result<PyValue, string>
  {
    if config.kind == Some("http") then HttpOutcome(config, input, authToken, headers, b)
    else if config.kind == Some("lambda") then LambdaOutcome(config, input, tenant, b)
    else Err(UnsupportedTypePrefix + KindText(config.kind))
  }

  /** The dispatch block of `execute`: a YAML config wins over a code key. */
  function Dispatch(tool: ToolDefinition, input: PyValue, tenant: TenantContext, authToken: Option<string>,
                    headers: map<string, string>, b: Backends): Result<PyValue, string>
  {
    if tool.yamlConfig.Some? && tool.yamlConfig.value.Present() then
      YamlOutcome(tool.yamlConfig.value, input, tenant, authToken, headers, b)
    else if Given(tool.codeS3Key) then b.code(tool.codeS3Key.value, input)
    else Err("Tool " + tool.name + " has no execution config")
  }

  /** The outcome of `execute`: the two guards, unwrapped, then the dispatch,
      whose every failure is re-raised as a `ToolExecutionError` carrying the
      input. */
  function ExecuteOutcome(tool: ToolDefinition, input: PyValue, tenant: TenantContext,
                          authToken: Option<string>, headers: map<string, string>,
                          b: Backends): Result<PyValue, Error>
  {
    if tool.requiresAuth && !Given(authToken) then
      Err(UnauthorizedAccess(AuthRequiredMessage, tool.name))
    else if !tool.isActive then
      Err(ToolExecutionError("Tool " + tool.name + " is not active", tool.name, PDict([])))
    else
      match Dispatch(tool, input, tenant, authToken, headers, b)
      case Ok(v) => Ok(v)
      case Err(msg) => Err(ToolExecutionError(DispatchFailedPrefix + msg, tool.name, PDict([("input", input)])))
  }

  /** The headers object the HTTP path of `tool` writes into, if any. */
  function HeadersOf(tool: ToolDefinition): set<Headers>
  {
    if tool.yamlConfig.Some? && tool.yamlConfig.value.headers != null then {tool.yamlConfig.value.headers}
    else {}
  }

  function HeaderEntries(tool: ToolDefinition): map<string, string>
    reads HeadersOf(tool)
  {
    if tool.yamlConfig.Some? && tool.yamlConfig.value.headers != null
    then tool.yamlConfig.value.headers.entries else map[]
  }

  /** Whether `execute` reaches the HTTP path of `tool`. */
  predicate TakesHttpPath(tool: ToolDefinition, authToken: Option<string>)
  {
    && !(tool.requiresAuth && !Given(authToken))
    && tool.isActive
    && tool.yamlConfig.Some? && tool.yamlConfig.value.Present()
    && tool.yamlConfig.value.kind == Some("http")
  }

  /** `_executeHttpTool`. The token is written into the config's own headers
      dict (when it has one) before the method is checked. */
  method ExecuteHttpTool(config: YamlConfig, input: PyValue, authToken: Option<string>, b: Backends)
    returns (r: Result<PyValue, string>)
    modifies if config.headers != null then {config.headers} else {}
    ensures config.headers != null ==>
              && r == HttpOutcome(config, input, authToken, old(config.headers.entries), b)
              && config.headers.entries == WithAuthorization(old(config.headers.entries), authToken)
    ensures config.headers == null ==> r == HttpOutcome(config, input, authToken, map[], b)
  {
    var m := HttpMethod(config);
    var headers: map<string, string> := if config.headers != null then config.headers.entries else map[];
    if Given(authToken) {
      headers := headers[AuthorizationHeader := BearerPrefix + authToken.value];
      if config.headers != null {
        config.headers.entries := headers;
      }
    }
    if m == "GET" || m == "POST" || m == "PUT" {
      r := b.http(HttpRequest(m, config.url, input, headers));
    } else {
      r := Err(UnsupportedMethodPrefix + m);
    }
  }

  /** `execute`. */
  method Execute(tool: ToolDefinition, input: PyValue, tenant: TenantContext, authToken: Option<string>,
                 b: Backends)
    returns (r: Result<PyValue, Error>)
    modifies HeadersOf(tool)
    ensures r == ExecuteOutcome(tool, input, tenant, authToken, old(HeaderEntries(tool)), b)
    ensures HeaderEntries(tool) ==
              if TakesHttpPath(tool, authToken) && HeadersOf(tool) != {}
              then WithAuthorization(old(HeaderEntries(tool)), authToken)
              else old(HeaderEntries(tool))
  {
    if tool.requiresAuth && !Given(authToken) {
      return Err(UnauthorizedAccess(AuthRequiredMessage, tool.name));
    }
    if !tool.isActive {
      return Err(ToolExecutionError("Tool " + tool.name + " is not active", tool.name, PDict([])));
    }
    var outcome: Result<PyValue, string>;
    if tool.yamlConfig.Some? && tool.yamlConfig.value.Present() {
      var config := tool.yamlConfig.value;
      if config.kind == Some("http") {
        outcome := ExecuteHttpTool(config, input, authToken, b);
      } else if config.kind == Some("lambda") {
        outcome := LambdaOutcome(config, input, tenant, b);
      } else {
        outcome := Err(UnsupportedTypePrefix + KindText(config.kind));
      }
    } else if Given(tool.codeS3Key) {
      outcome := b.code(tool.codeS3Key.value, input);
    } else {
      outcome := Err("Tool " + tool.name + " has no execution config");
    }
    match outcome {
      case Ok(v) => r := Ok(v);
      case Err(msg) => r := Err(ToolExecutionError(DispatchFailedPrefix + msg, tool.name, PDict([("input", input)])));
    }
  }

  // ---------------------------------------------------------------------
  // Properties of the decision table

  /** The authentication guard comes first and is not wrapped; the activity
      guard comes second and is not wrapped either. */
  lemma GuardOrder(tool: ToolDefinition, input: PyValue, tenant: TenantContext, authToken: Option<string>,
                   headers: map<string, string>, b: Backends)
    ensures var r := ExecuteOutcome(tool, input, tenant, authToken, headers, b);
      && (tool.requiresAuth && !Given(authToken) <==> r.Err? && r.error.UnauthorizedAccess?)
      && (!(tool.requiresAuth && !Given(authToken)) && !tool.isActive ==>
            r == Err(ToolExecutionError("Tool " + tool.name + " is not active", tool.name, PDict([]))))
  {
  }

  /** Once past the guards, every failure is a `ToolExecutionError` whose
      message starts "Tool execution failed: " and whose details hold the input. */
  lemma DispatchFailuresWrapped(tool: ToolDefinition, input: PyValue, tenant: TenantContext,
                                authToken: Option<string>, headers: map<string, string>, b: Backends)
    requires !(tool.requiresAuth && !Given(authToken)) && tool.isActive
    ensures var r := ExecuteOutcome(tool, input, tenant, authToken, headers, b);
      r.Err? ==> && r.error.ToolExecutionError?
                 && StartsWith(r.error.message, DispatchFailedPrefix)
                 && r.error.details == PDict([("input", input)])
  {
    var r := ExecuteOutcome(tool, input, tenant, authToken, headers, b);
    if r.Err? {
      var msg := Dispatch(tool, input, tenant, authToken, headers, b).error;
      assert (DispatchFailedPrefix + msg)[..|DispatchFailedPrefix|] == DispatchFailedPrefix;
    }
  }

  /** A tool with a YAML config never reaches the code backend: its outcome
      is the same whatever that backend would do. */
  lemma YamlTakesPrecedence(tool: ToolDefinition, input: PyValue, tenant: TenantContext,
                            authToken: Option<string>, headers: map<string, string>, b: Backends,
                            otherCode: (string, PyValue) -> Result<PyValue, string>)
    requires tool.yamlConfig.Some? && tool.yamlConfig.value.Present()
    ensures ExecuteOutcome(tool, input, tenant, authToken, headers, b) ==
            ExecuteOutcome(tool, input, tenant, authToken, headers, b.(code := otherCode))
  {
  }

  /** A tool with neither a YAML config nor a code key fails after the guards. */
  lemma NoConfigFails(tool: ToolDefinition, input: PyValue, tenant: TenantContext,
                      authToken: Option<string>, headers: map<string, string>, b: Backends)
    requires !(tool.requiresAuth && !Given(authToken)) && tool.isActive
    requires !(tool.yamlConfig.Some? && tool.yamlConfig.value.Present()) && !Given(tool.codeS3Key)
    ensures ExecuteOutcome(tool, input, tenant, authToken, headers, b) ==
            Err(ToolExecutionError(DispatchFailedPrefix + ("Tool " + tool.name + " has no execution config"),
                                   tool.name, PDict([("input", input)])))
  {
  }

  /** The HTTP backend is only ever called with GET, POST or PUT; an absent
      method means POST and the method is case-insensitive. */
  lemma HttpMethodsAccepted(config: YamlConfig, input: PyValue, authToken: Option<string>,
                            headers: map<string, string>, b: Backends)
    ensures !SupportedMethod(HttpMethod(config)) ==>
              HttpOutcome(config, input, authToken, headers, b) == Err(UnsupportedMethodPrefix + HttpMethod(config))
    ensures config.httpMethod.None? ==> HttpMethod(config) == "POST"
    ensures config.httpMethod == Some("get") ==> HttpMethod(config) == "GET"
  {
    if config.httpMethod == Some("get") {
      assert Upper("get") == "GET";
    }
    if config.httpMethod.None? {
      assert Upper("POST") == "POST";
    }
  }
}
