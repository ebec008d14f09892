/** The records and enumerations of AgentSynapse/schemas/baseSchemas.py, the
    error taxonomy of AgentSynapse/utils/exceptions.py and the configuration
    defaults of AgentSynapse/config/settings.py. */
module Schemas {
  import opened Values
  import Strings

  datatype AgentStatus = Idle | Running | Completed | Failed | Timeout | Cancelled

  datatype AgentType = Orchestrator | SqlAgent | BiAgent | EtlAgent | AnalyticsAgent | Custom
  {
    /** The enum's string value. */
    function Value(): string
    {
      match this
      case Orchestrator => "orchestrator"
      case SqlAgent => "sql_agent"
      case BiAgent => "bi_agent"
      case EtlAgent => "etl_agent"
      case AnalyticsAgent => "analytics_agent"
      case Custom => "custom"
    }
  }

  /** `AgentType(value)`: the member whose value is `s`, if any. */
  function ParseAgentType(s: string): (r: Option<AgentType>)
    ensures r.Some? ==> r.value.Value() == s
    ensures r.None? ==> forall t: AgentType :: t.Value() != s
  {
    if s == "orchestrator" then Some(Orchestrator)
    else if s == "sql_agent" then Some(SqlAgent)
    else if s == "bi_agent" then Some(BiAgent)
    else if s == "etl_agent" then Some(EtlAgent)
    else if s == "analytics_agent" then Some(AnalyticsAgent)
    else if s == "custom" then Some(Custom)
    else None
  }

  lemma ParseAgentTypeValue(t: AgentType)
    ensures ParseAgentType(t.Value()) == Some(t)
  {
  }

  datatype MemorySource = UserStated | AgentInferred | SystemDerived | ToolResult

  datatype MemoryType = Working | Episodic | Semantic | Procedural

  datatype ToolPermission = Public | Private | OrgShared

  datatype TenantContext = TenantContext(
    tenantId: string,
    userId: string,
    orgId: Option<string>,
    roles: seq<string>,
    permissions: seq<string>)

  datatype AgentConfig = AgentConfig(
    id: string,
    name: string,
    agentType: AgentType,
    description: string,
    systemPrompt: string,
    temperature: real,
    maxTokens: int,
    toolIds: seq<string>,
    tenant: TenantContext,
    isAsync: bool,
    timeoutSeconds: int,
    customSettings: seq<(string, PyValue)>,
    createdAt: string,
    updatedAt: string)

  /** The `headers` dict inside a tool's YAML config. It is a mutable object:
      the HTTP dispatcher writes into it and the change stays visible to every
      holder of the tool definition. */
  class Headers {
    var entries: map<string, string>

    constructor (entries: map<string, string>)
      ensures this.entries == entries
    {
      this.entries := entries;
    }
  }

  /** A tool's YAML config: the keys the executor reads ("type", "url",
      "method", "functionName"), the `headers` dict when that key is present,
      and any other keys. */
  datatype YamlConfig = YamlConfig(
    kind: Option<string>,
    url: Option<string>,
    httpMethod: Option<string>,
    functionName: Option<string>,
    headers: Headers?,
    otherKeys: seq<(string, PyValue)>)
  {
    /** `if tool.yamlConfig:` — a non-empty dict. */
    predicate Present()
    {
      kind.Some? || url.Some? || httpMethod.Some? || functionName.Some? || headers != null || otherKeys != []
    }
  }

  datatype ToolDefinition = ToolDefinition(
    id: string,
    name: string,
    version: string,
    description: string,
    inputSchema: PyValue,
    permission: ToolPermission,
    tenantId: string,
    codeS3Key: Option<string>,
    yamlConfig: Option<YamlConfig>,
    isActive: bool,
    requiresAuth: bool)

  /** The exceptions of utils/exceptions.py, the HTTP errors of the API
      layer, and an exception of the storage client that no handler of the
      core catches. */
  datatype Error =
    | RecursionDepthExceeded(currentDepth: int, maxDepth: int)
    | TokenLimitExceeded(tokensUsed: int, tokenLimit: int)
    | AgentExecutionError(message: string)
    | ToolExecutionError(message: string, toolName: string, details: PyValue)
    | UnauthorizedAccess(message: string, resource: string)
    | InvalidToolDefinition(message: string)
    | AgentNotFound(agentId: string)
    | ToolNotFound(toolName: string)
    | HttpException(statusCode: int, detail: string)
    | QueryFailed(message: string)
  {
    /** `str(e)`. */
    function Message(): string
    {
      match this
      case RecursionDepthExceeded(d, m) =>
        RecursionPrefix + Strings.IntToString(d) + Slash + Strings.IntToString(m)
      case TokenLimitExceeded(u, l) =>
        TokenLimitPrefix + Strings.IntToString(u) + Slash + Strings.IntToString(l)
      case AgentExecutionError(msg) => msg
      case ToolExecutionError(msg, _, _) => msg
      case UnauthorizedAccess(msg, _) => msg
      case InvalidToolDefinition(msg) => msg
      case AgentNotFound(id) => AgentNotFoundPrefix + id
      case ToolNotFound(name) => ToolNotFoundPrefix + name
      case HttpException(_, detail) => detail
      case QueryFailed(msg) => msg
    }
  }

  const RecursionPrefix := "Max recursion depth exceeded: "
  const TokenLimitPrefix := "Token limit exceeded: "
  const AgentNotFoundPrefix := "Agent not found: "
  const ToolNotFoundPrefix := "Tool not found: "
  const Slash := "/"

  // Configuration defaults (config/settings.py).
  const DefaultMaxRecursionDepth: nat := 5
  const DefaultMaxParallelAgents: nat := 10
  const DefaultMaxTokenLimit: nat := 100000
  const DefaultDecayThresholdDays: nat := 7
  const DefaultMaxContextTokens: nat := 200000
  const DefaultTopKSemanticRetrieval: nat := 10
}
