/** The agent engine of AgentSynapse/core/agentEngine.py: the system prompt
    built from retrieved memory, the bounded tool-calling loop of `execute`
    with its depth guard, token ceiling and one-to-one pairing of tool
    requests, tool-call records and tool-result messages, the memory writes
    after a run, and the registry of active executions with its cancel
    operation.

    The collaborators are inputs: the tool registry's answer, the retrieved
    memory context and the conversation history are given outcomes; the
    language model is `respond`, which answers call number i given the
    request body sent; the tool executor is `runTool`. The memory writes a
    run makes are performed in order through `store`, which says whether
    each write raises; the first that raises stops the rest and fails the
    run. */
module AgentEngine {
  import opened Values
  import opened Schemas
  import opened Strings
  import opened Bedrock
  import MemoryManager
  import ToolExecutor

  const MaxIterations: nat := 10
  const MaxIterationsMessage := "Max iterations exceeded"
  const FailurePrefix := "Agent execution failed: "
  const KnowledgeHeader := "\n\nRelevant knowledge:\n"
  const PatternsHeader := "\n\nAvailable patterns: "
  const MaxFacts: nat := 5
  const FactBullet := "- "
  const NewLine := "\n"
  const Comma := ", "
  const NoneText := "None"
  const ErrorKey := "error"
  const ToolPrefix := "Tool "
  const NotFoundSuffix := " not found"
  const SuccessOutcome := "success"
  const FailedOutcome := "failed"

  /** One entry of `execution.toolCalls`. */
  datatype ToolCallRecord = ToolCallRecord(id: Option<string>, name: Option<string>, input: PyValue, result: PyValue)

  /** The updatable part of an execution record. */
  datatype Progress = Progress(status: AgentStatus, agentResponse: Option<string>, toolCalls: seq<ToolCallRecord>,
                               tokensUsed: nat, errorMessage: Option<string>)

  /** An `AgentExecution` record. The engine updates it in place while it
      runs, and `cancelExecution` may update it from outside. */
  class Execution {
    const id: string
    const agentId: string
    const sessionId: string
    const tenant: TenantContext
    const userMessage: string
    const parentExecutionId: Option<string>
    const depth: nat
    var status: AgentStatus
    var agentResponse: Option<string>
    var toolCalls: seq<ToolCallRecord>
    var tokensUsed: nat
    var errorMessage: Option<string>

    /** The fields the engine updates, as a value. */
    function State(): Progress
      reads this
    {
      Progress(status, agentResponse, toolCalls, tokensUsed, errorMessage)
    }

    constructor (id: string, agentId: string, sessionId: string, tenant: TenantContext, userMessage: string,
                 parentExecutionId: Option<string>, depth: nat)
      ensures this.id == id && this.agentId == agentId && this.sessionId == sessionId
      ensures this.tenant == tenant && this.userMessage == userMessage
      ensures this.parentExecutionId == parentExecutionId && this.depth == depth
      ensures status == Running && agentResponse == None && toolCalls == []
      ensures tokensUsed == 0 && errorMessage == None
    {
      this.id := id;
      this.agentId := agentId;
      this.sessionId := sessionId;
      this.tenant := tenant;
      this.userMessage := userMessage;
      this.parentExecutionId := parentExecutionId;
      this.depth := depth;
      status := Running;
      agentResponse := None;
      toolCalls := [];
      tokensUsed := 0;
      errorMessage := None;
    }
  }

  // ---------------------------------------------------------------------
  // System prompt

  function FactLines(contents: seq<string>): (lines: seq<string>)
    ensures |lines| == |contents|
    ensures forall i :: 0 <= i < |contents| ==> lines[i] == FactBullet + contents[i]
  {
    seq(|contents|, i requires 0 <= i < |contents| => FactBullet + contents[i])
  }

  /** The first five semantic contents. */
  function LeadingFacts(semantic: seq<string>): (r: seq<string>)
    ensures |r| <= MaxFacts && |r| <= |semantic| && r == semantic[..|r|]
    ensures |r| == |semantic| || |r| == MaxFacts
  {
    if |semantic| <= MaxFacts then semantic else semantic[..MaxFacts]
  }

  /** `_buildSystemPrompt`: the agent's prompt, then the first five semantic
      facts as "- " lines under "Relevant knowledge", then the procedural
      pattern names joined by ", ". An empty tier adds nothing. */
  function BuildSystemPrompt(base: string, semantic: seq<string>, procedural: seq<string>): string
  {
    var withFacts := if semantic == [] then base
                     else base + KnowledgeHeader + JoinWith(FactLines(LeadingFacts(semantic)), NewLine);
    if procedural == [] then withFacts else withFacts + PatternsHeader + JoinWith(procedural, Comma)
  }

  /** With no semantic facts and no patterns the prompt is the agent's own. */
  lemma PromptUnchangedWithoutMemory(base: string)
    ensures BuildSystemPrompt(base, [], []) == base
  {
  }

  /** The agent's own prompt always comes first. */
  lemma PromptKeepsBase(base: string, semantic: seq<string>, procedural: seq<string>)
    ensures StartsWith(BuildSystemPrompt(base, semantic, procedural), base)
  {
    var p := BuildSystemPrompt(base, semantic, procedural);
    var withFacts := if semantic == [] then base
                     else base + KnowledgeHeader + JoinWith(FactLines(LeadingFacts(semantic)), NewLine);
    assert withFacts[..|base|] == base;
    assert p[..|withFacts|] == withFacts;
    assert p[..|base|] == withFacts[..|base|];
  }

  /** Each of the first five semantic facts appears as a "- " line. */
  lemma PromptMentionsFact(base: string, semantic: seq<string>, procedural: seq<string>, i: nat)
    requires i < MaxFacts && i < |semantic|
    ensures Contains(BuildSystemPrompt(base, semantic, procedural), FactBullet + semantic[i])
  {
    var lines := FactLines(LeadingFacts(semantic));
    JoinWithContains(lines, NewLine, i);
    var facts := JoinWith(lines, NewLine);
    ContainsExtend(base + KnowledgeHeader, facts, [], FactBullet + semantic[i]);
    assert base + KnowledgeHeader + facts + [] == base + KnowledgeHeader + facts;
    var withFacts := base + KnowledgeHeader + facts;
    if procedural != [] {
      ContainsExtend([], withFacts, PatternsHeader + JoinWith(procedural, Comma), FactBullet + semantic[i]);
      assert [] + withFacts + (PatternsHeader + JoinWith(procedural, Comma))
          == withFacts + PatternsHeader + JoinWith(procedural, Comma);
    }
  }

  /** Every procedural pattern name appears. */
  lemma PromptMentionsPattern(base: string, semantic: seq<string>, procedural: seq<string>, i: nat)
    requires i < |procedural|
    ensures Contains(BuildSystemPrompt(base, semantic, procedural), procedural[i])
  {
    var withFacts := if semantic == [] then base
                     else base + KnowledgeHeader + JoinWith(FactLines(LeadingFacts(semantic)), NewLine);
    var names := JoinWith(procedural, Comma);
    JoinWithContains(procedural, Comma, i);
    ContainsExtend(withFacts + PatternsHeader, names, [], procedural[i]);
    assert withFacts + PatternsHeader + names + [] == withFacts + PatternsHeader + names;
  }

  // ---------------------------------------------------------------------
  // One round of tool calls

  /** The index of the first loaded tool named `name`, or `|tools|`. */
  function FirstNamed(tools: seq<ToolDefinition>, name: Option<string>): (k: nat)
    ensures k <= |tools|
    ensures forall j :: 0 <= j < k ==> Some(tools[j].name) != name
    ensures k < |tools| ==> Some(tools[k].name) == name
  {
    if tools == [] || Some(tools[0].name) == name then 0 else 1 + FirstNamed(tools[1..], name)
  }

  /** `str(name)` in the not-found message: a missing name prints as "None". */
  function NameText(name: Option<string>): string
  {
    if name.Some? then name.value else NoneText
  }

  function ErrorValue(message: string): PyValue
  {
    PDict([(ErrorKey, PStr(message))])
  }

  /** The result recorded for one requested call, from the first loaded
      tool with the requested name. */
  function ToolResult(call: ToolCall, tools: seq<ToolDefinition>,
                      runTool: (ToolDefinition, PyValue) -> Result<PyValue, Error>): PyValue
  {
    var k := FirstNamed(tools, call.name);
    if k == |tools| then ErrorValue(ToolPrefix + NameText(call.name) + NotFoundSuffix)
    else match runTool(tools[k], call.input)
      case Ok(value) => value
      case Err(e) => ErrorValue(e.Message())
  }

  /** A call naming no loaded tool records a "not found" error value. */
  lemma UnknownToolReported(call: ToolCall, tools: seq<ToolDefinition>,
                            runTool: (ToolDefinition, PyValue) -> Result<PyValue, Error>)
    requires forall j :: 0 <= j < |tools| ==> Some(tools[j].name) != call.name
    ensures ToolResult(call, tools, runTool) == ErrorValue(ToolPrefix + NameText(call.name) + NotFoundSuffix)
  {
  }

  /** A call naming a loaded tool records what the executor gives for the
      first tool of that name: its value, or an error value carrying the
      message of the exception it raised. */
  lemma FirstMatchRuns(call: ToolCall, tools: seq<ToolDefinition>,
                       runTool: (ToolDefinition, PyValue) -> Result<PyValue, Error>, k: nat)
    requires k < |tools| && Some(tools[k].name) == call.name
    requires forall j :: 0 <= j < k ==> Some(tools[j].name) != call.name
    ensures ToolResult(call, tools, runTool) == match runTool(tools[k], call.input)
                                               case Ok(value) => value
                                               case Err(e) => ErrorValue(e.Message())
  {
    assert FirstNamed(tools, call.name) == k;
  }

  /** The record of one requested call: its id, name and input, and the
      result it got. */
  function RecordOf(call: ToolCall, tools: seq<ToolDefinition>,
                    runTool: (ToolDefinition, PyValue) -> Result<PyValue, Error>): ToolCallRecord
  {
    ToolCallRecord(call.id, call.name, call.input, ToolResult(call, tools, runTool))
  }

  /** The `toolCalls` records one round of requested calls adds, in order. */
  function Records(calls: seq<ToolCall>, tools: seq<ToolDefinition>,
                   runTool: (ToolDefinition, PyValue) -> Result<PyValue, Error>): (rs: seq<ToolCallRecord>)
    ensures |rs| == |calls|
    ensures forall i :: 0 <= i < |calls| ==> rs[i] == RecordOf(calls[i], tools, runTool)
  {
    seq(|calls|, i requires 0 <= i < |calls| => RecordOf(calls[i], tools, runTool))
  }

  lemma RecordsSnoc(calls: seq<ToolCall>, i: nat, tools: seq<ToolDefinition>,
                    runTool: (ToolDefinition, PyValue) -> Result<PyValue, Error>)
    requires i < |calls|
    ensures Records(calls[..i + 1], tools, runTool) == Records(calls[..i], tools, runTool) + [RecordOf(calls[i], tools, runTool)]
  {
    assert Records(calls[..i + 1], tools, runTool) == Records(calls[..i], tools, runTool) + [RecordOf(calls[i], tools, runTool)];
  }

  /** The tool-result message for one record. */
  function ResultMessage(r: ToolCallRecord): Message
  {
    FormatToolResult(r.id, r.result)
  }

  /** The tool-result messages for a list of records, one each, in order. */
  function ResultMessages(rs: seq<ToolCallRecord>): (ms: seq<Message>)
    ensures |ms| == |rs|
    ensures forall i :: 0 <= i < |rs| ==> ms[i] == ResultMessage(rs[i])
  {
    seq(|rs|, i requires 0 <= i < |rs| => ResultMessage(rs[i]))
  }

  lemma ResultMessagesSnoc(rs: seq<ToolCallRecord>, r: ToolCallRecord)
    ensures ResultMessages(rs + [r]) == ResultMessages(rs) + [ResultMessage(r)]
  {
    assert ResultMessages(rs + [r]) == ResultMessages(rs) + [ResultMessage(r)];
  }

  function RecordIds(rs: seq<ToolCallRecord>): (ids: seq<Option<string>>)
    ensures |ids| == |rs|
    ensures forall i :: 0 <= i < |rs| ==> ids[i] == rs[i].id
  {
    seq(|rs|, i requires 0 <= i < |rs| => rs[i].id)
  }

  /** The tool-use id a message contributes: one for a tool-result message,
      none for any other. */
  function ToolResultId(m: Message): seq<Option<string>>
  {
    if m.content.ToolResultContent? then [m.content.toolUseId] else []
  }

  /** The tool-use ids of the tool-result messages in `ms`, in order. */
  function ToolResultIds(ms: seq<Message>): seq<Option<string>>
  {
    if ms == [] then [] else ToolResultId(ms[0]) + ToolResultIds(ms[1..])
  }

  lemma {:induction false} ToolResultIdsAppend(a: seq<Message>, b: seq<Message>)
    ensures ToolResultIds(a + b) == ToolResultIds(a) + ToolResultIds(b)
  {
    if a == [] {
      assert a + b == b;
    } else {
      calc {
        ToolResultIds(a + b);
        { assert (a + b)[0] == a[0]; assert (a + b)[1..] == a[1..] + b; }
        ToolResultId(a[0]) + ToolResultIds(a[1..] + b);
        { ToolResultIdsAppend(a[1..], b); }
        ToolResultId(a[0]) + (ToolResultIds(a[1..]) + ToolResultIds(b));
        ToolResultIds(a) + ToolResultIds(b);
      }
    }
  }

  /** The tool-result messages of a round carry the records' ids, one for one. */
  lemma {:induction false} ResultMessagesPaired(rs: seq<ToolCallRecord>)
    ensures ToolResultIds(ResultMessages(rs)) == RecordIds(rs)
  {
    if rs != [] {
      ResultMessagesPaired(rs[1..]);
      assert ResultMessages(rs)[1..] == ResultMessages(rs[1..]);
      assert RecordIds(rs) == [rs[0].id] + RecordIds(rs[1..]);
    }
  }

  /** The inner `for toolCall in toolCalls` loop: each requested call adds
      one record to the execution and yields one tool-result message with
      the same id. An unknown tool or a raising executor does not stop it. */
  method RunToolCalls(execution: Execution, calls: seq<ToolCall>, tools: seq<ToolDefinition>,
                      runTool: (ToolDefinition, PyValue) -> Result<PyValue, Error>)
    returns (messages: seq<Message>)
    modifies execution
    ensures execution.toolCalls == old(execution.toolCalls) + Records(calls, tools, runTool)
    ensures messages == ResultMessages(Records(calls, tools, runTool))
    ensures execution.status == old(execution.status) && execution.agentResponse == old(execution.agentResponse)
    ensures execution.tokensUsed == old(execution.tokensUsed) && execution.errorMessage == old(execution.errorMessage)
  {
    messages := [];
    for i := 0 to |calls|
      invariant execution.toolCalls == old(execution.toolCalls) + Records(calls[..i], tools, runTool)
      invariant messages == ResultMessages(Records(calls[..i], tools, runTool))
      invariant execution.status == old(execution.status) && execution.agentResponse == old(execution.agentResponse)
      invariant execution.tokensUsed == old(execution.tokensUsed) && execution.errorMessage == old(execution.errorMessage)
    {
      var call := calls[i];
      var k := FirstNamed(tools, call.name);
      var result: PyValue;
      if k == |tools| {
        result := ErrorValue(ToolPrefix + NameText(call.name) + NotFoundSuffix);
      } else {
        var outcome := runTool(tools[k], call.input);
        match outcome {
          case Ok(value) => result := value;
          case Err(e) => result := ErrorValue(e.Message());
        }
      }
      var record := ToolCallRecord(call.id, call.name, call.input, result);
      assert record == RecordOf(calls[i], tools, runTool);
      RecordsSnoc(calls, i, tools, runTool);
      ResultMessagesSnoc(Records(calls[..i], tools, runTool), record);
      execution.toolCalls := execution.toolCalls + [record];
      messages := messages + [FormatToolResult(call.id, result)];
    }
    assert calls[..|calls|] == calls;
  }

  // ---------------------------------------------------------------------
  // The tool-calling loop

  /** What one run of the loop works with. */
  datatype Env = Env(
    systemPrompt: string,
    temperature: real,
    maxTokens: int,
    tools: seq<ToolDefinition>,
    respond: (nat, RequestBody) -> Result<ModelResponse, Error>,
    runTool: (ToolDefinition, PyValue) -> Result<PyValue, Error>,
    tokenLimit: nat)

  /** How the loop ended: a final answer, ten calls used up, or an exception. */
  datatype LoopEnd = Answered(text: string) | OutOfCalls | Raised(error: Error)

  /** The loop's end and its state then: the transcript, the tool-call
      records, the cumulative tokens and the number of model calls made. */
  datatype LoopResult = LoopResult(end: LoopEnd, messages: seq<Message>, records: seq<ToolCallRecord>,
                                   tokens: nat, calls: nat)

  function UserTurn(text: string): Message
  {
    Message(UserRole, TextContent(text))
  }

  function AssistantTurn(content: seq<ContentBlock>): Message
  {
    Message(AssistantRole, BlockContent(content))
  }

  /** The request body for the next model call: the tools are sent only
      when some were loaded. */
  function RequestOf(env: Env, messages: seq<Message>): RequestBody
  {
    var formatted := seq(|env.tools|, i requires 0 <= i < |env.tools| => ToolExecutor.FormatForBedrock(env.tools[i]));
    RequestBodyOf(messages, Some(env.systemPrompt), env.temperature, env.maxTokens,
                  if env.tools != [] then Some(formatted) else None, None)
  }

  /** What one model call leads to: the loop stops with an end, or it goes
      on after appending `added` to the transcript and `round` to the
      records. `tokens` is the cumulative count after the call. */
  datatype Step =
    | Stop(end: LoopEnd, tokens: nat)
    | Continue(added: seq<Message>, round: seq<ToolCallRecord>, tokens: nat)

  /** One pass of the loop body: call the model; add its tokens and raise
      past the ceiling; a reply without tool calls is the answer; otherwise
      the assistant turn and one round of tool results are appended. */
  function StepOf(messages: seq<Message>, tokens: nat, calls: nat, env: Env): (s: Step)
    ensures tokens <= s.tokens
    ensures s.Stop? ==> !s.end.OutOfCalls?
    ensures s.Continue? ==> s.tokens <= env.tokenLimit
    ensures tokens <= env.tokenLimit && s.Stop? && s.tokens > env.tokenLimit ==>
              s.end == Raised(TokenLimitExceeded(s.tokens, env.tokenLimit))
  {
    match env.respond(calls, RequestOf(env, messages))
    case Err(e) => Stop(Raised(e), tokens)
    case Ok(response) =>
      var spent := tokens + response.Tokens();
      if spent > env.tokenLimit then Stop(Raised(TokenLimitExceeded(spent, env.tokenLimit)), spent)
      else
        var requested := ExtractToolCalls(response.content);
        if requested == [] then Stop(Answered(ExtractTextResponse(response.content)), spent)
        else
          var round := Records(requested, env.tools, env.runTool);
          Continue([AssistantTurn(response.content)] + ResultMessages(round), round, spent)
  }

  /** A round that goes on appends one tool-result message per record, with
      the record's id, after the assistant turn. */
  lemma StepPaired(messages: seq<Message>, tokens: nat, calls: nat, env: Env)
    ensures var s := StepOf(messages, tokens, calls, env);
      s.Continue? ==> ToolResultIds(s.added) == RecordIds(s.round)
  {
    var s := StepOf(messages, tokens, calls, env);
    if s.Continue? {
      var response := env.respond(calls, RequestOf(env, messages)).value;
      var turn := [AssistantTurn(response.content)];
      ToolResultIdsAppend(turn, ResultMessages(s.round));
      ResultMessagesPaired(s.round);
      assert ToolResultIds(turn) == [];
    }
  }

  /** The loop from a state with `calls` model calls made, for at most ten
      calls in all. */
  function RunLoop(messages: seq<Message>, records: seq<ToolCallRecord>, tokens: nat, calls: nat,
                   env: Env): (r: LoopResult)
    requires calls <= MaxIterations
    ensures calls <= r.calls <= MaxIterations
    ensures r.end.OutOfCalls? ==> r.calls == MaxIterations
    ensures calls < MaxIterations ==> calls < r.calls
    decreases MaxIterations - calls, 2
  {
    if calls == MaxIterations then LoopResult(OutOfCalls, messages, records, tokens, calls)
    else Round(messages, records, tokens, calls, env)
  }

  /** One round of the loop body: model call number `calls` and what
      follows it. A layer of its own, so that a proof about the loop meets
      the model call only where it unfolds the loop on purpose
      (`RunLoopUnfold`). */
  function Round(messages: seq<Message>, records: seq<ToolCallRecord>, tokens: nat, calls: nat,
                 env: Env): (r: LoopResult)
    requires calls < MaxIterations
    ensures calls < r.calls <= MaxIterations
    decreases MaxIterations - calls, 1
  {
    Advance(messages, records, tokens, calls, env)
  }

  /** The loop after model call number `calls`: it stops with the step's
      end, or goes on from the transcript and records the step extends. */
  function Advance(messages: seq<Message>, records: seq<ToolCallRecord>, tokens: nat, calls: nat,
                   env: Env): (r: LoopResult)
    requires calls < MaxIterations
    ensures calls < r.calls <= MaxIterations
    ensures r.end.OutOfCalls? ==> r.calls == MaxIterations
    decreases MaxIterations - calls, 0
  {
    match StepOf(messages, tokens, calls, env)
    case Stop(end, spent) => LoopResult(end, messages, records, spent, calls + 1)
    case Continue(added, round, spent) => RunLoop(messages + added, records + round, spent, calls + 1, env)
  }

  /** Pairing survives concatenation. */
  lemma PairedAppend(added: seq<Message>, rest: seq<Message>, round: seq<ToolCallRecord>,
                     later: seq<ToolCallRecord>)
    requires ToolResultIds(added) == RecordIds(round) && ToolResultIds(rest) == RecordIds(later)
    ensures ToolResultIds(added + rest) == RecordIds(round + later)
  {
    ToolResultIdsAppend(added, rest);
    assert RecordIds(round + later) == RecordIds(round) + RecordIds(later);
  }

  /** `ms` and `rs` continue `messages` and `records`, and the tool-result
      messages appended carry, in order, exactly the ids of the records
      appended. */
  ghost predicate PairedAfter(ms: seq<Message>, rs: seq<ToolCallRecord>, messages: seq<Message>,
                              records: seq<ToolCallRecord>)
  {
    && |messages| <= |ms| && ms[..|messages|] == messages
    && |records| <= |rs| && rs[..|records|] == records
    && ToolResultIds(ms[|messages|..]) == RecordIds(rs[|records|..])
  }

  /** The loop only appends, to the transcript and to the records, and the
      pairing is one-to-one. */
  lemma {:induction false} LoopPairing(messages: seq<Message>, records: seq<ToolCallRecord>, tokens: nat,
                                       calls: nat, env: Env)
    requires calls <= MaxIterations
    ensures var r := RunLoop(messages, records, tokens, calls, env);
      PairedAfter(r.messages, r.records, messages, records)
    decreases MaxIterations - calls
  {
    var r := RunLoop(messages, records, tokens, calls, env);
    if calls < MaxIterations && StepOf(messages, tokens, calls, env).Continue? {
      var s := StepOf(messages, tokens, calls, env);
      RunLoopUnfold(messages, records, tokens, calls, env);
      StepPaired(messages, tokens, calls, env);
      LoopPairing(messages + s.added, records + s.round, s.tokens, calls + 1, env);
      PairingFromTail(r.messages, r.records, messages, records, s.added, s.round);
    } else if calls < MaxIterations {
      RunLoopUnfold(messages, records, tokens, calls, env);
      assert r.messages == messages && r.records == records;
    } else {
      assert r.messages == messages && r.records == records;
    }
  }

  /** The step case of `LoopPairing`, on sequences alone. */
  lemma PairingFromTail(ms: seq<Message>, rs: seq<ToolCallRecord>, messages: seq<Message>,
                        records: seq<ToolCallRecord>, added: seq<Message>, round: seq<ToolCallRecord>)
    requires ToolResultIds(added) == RecordIds(round)
    requires PairedAfter(ms, rs, messages + added, records + round)
    ensures PairedAfter(ms, rs, messages, records)
  {
    assert ms[..|messages|] == ms[..|messages + added|][..|messages|];
    assert rs[..|records|] == rs[..|records + round|][..|records|];
    SliceAfter(ms, messages, added);
    SliceAfter(rs, records, round);
    PairedAppend(added, ms[|messages + added|..], round, rs[|records + round|..]);
  }

  /** What follows a prefix `pre + mid` of `whole`, seen from `pre`. */
  lemma SliceAfter<T>(whole: seq<T>, pre: seq<T>, mid: seq<T>)
    requires |pre + mid| <= |whole| && whole[..|pre + mid|] == pre + mid
    ensures whole[|pre|..] == mid + whole[|pre + mid|..]
  {
    assert whole == pre + mid + whole[|pre + mid|..];
  }

  /** The token ceiling: starting within it, the loop either stays within it
      or raises `TokenLimitExceeded` with the total that broke it. */
  lemma {:induction false} LoopTokenCeiling(messages: seq<Message>, records: seq<ToolCallRecord>, tokens: nat,
                                            calls: nat, env: Env)
    requires calls <= MaxIterations && tokens <= env.tokenLimit
    ensures var r := RunLoop(messages, records, tokens, calls, env);
      && tokens <= r.tokens
      && (r.tokens <= env.tokenLimit || r.end == Raised(TokenLimitExceeded(r.tokens, env.tokenLimit)))
    decreases MaxIterations - calls
  {
    if calls < MaxIterations {
      var s := StepOf(messages, tokens, calls, env);
      RunLoopUnfold(messages, records, tokens, calls, env);
      if s.Continue? {
        LoopTokenCeiling(messages + s.added, records + s.round, s.tokens, calls + 1, env);
      }
    }
  }

  /** One unfolding of the loop, by the kind of step. */
  lemma RunLoopUnfold(messages: seq<Message>, records: seq<ToolCallRecord>, tokens: nat, calls: nat, env: Env)
    requires calls < MaxIterations
    ensures var s := StepOf(messages, tokens, calls, env);
      && (s.Stop? ==> RunLoop(messages, records, tokens, calls, env) == LoopResult(s.end, messages, records, s.tokens, calls + 1))
      && (s.Continue? ==> RunLoop(messages, records, tokens, calls, env)
                          == RunLoop(messages + s.added, records + s.round, s.tokens, calls + 1, env))
  {
    assert RunLoop(messages, records, tokens, calls, env) == Round(messages, records, tokens, calls, env)
        == Advance(messages, records, tokens, calls, env);
  }

  /** One pass of the loop body on the execution: the model call, and then
      either the answer written into the execution, or the round's tool
      calls recorded in it. */
  method LoopBody(execution: Execution, messages: seq<Message>, tokens: nat, calls: nat, env: Env)
    returns (s: Step)
    modifies execution
    requires calls < MaxIterations
    ensures s.Stop? ==> && execution.toolCalls == old(execution.toolCalls)
                        && RunLoop(messages, old(execution.toolCalls), tokens, calls, env)
                           == LoopResult(s.end, messages, execution.toolCalls, s.tokens, calls + 1)
    ensures s.Continue? ==> RunLoop(messages, old(execution.toolCalls), tokens, calls, env)
                            == RunLoop(messages + s.added, execution.toolCalls, s.tokens, calls + 1, env)
    ensures s.Stop? && s.end.Answered? ==> && execution.agentResponse == Some(s.end.text)
                                           && execution.status == Completed && execution.tokensUsed == s.tokens
    ensures !(s.Stop? && s.end.Answered?) ==> && execution.agentResponse == old(execution.agentResponse)
                                              && execution.status == old(execution.status)
                                              && execution.tokensUsed == old(execution.tokensUsed)
    ensures execution.errorMessage == old(execution.errorMessage)
  {
    RunLoopUnfold(messages, execution.toolCalls, tokens, calls, env);
    var response := env.respond(calls, RequestOf(env, messages));
    if response.Err? {
      return Stop(Raised(response.error), tokens);
    }
    var spent := tokens + response.value.Tokens();
    if spent > env.tokenLimit {
      return Stop(Raised(TokenLimitExceeded(spent, env.tokenLimit)), spent);
    }
    var requested := ExtractToolCalls(response.value.content);
    if requested == [] {
      var text := ExtractTextResponse(response.value.content);
      execution.agentResponse := Some(text);
      execution.status := Completed;
      execution.tokensUsed := spent;
      return Stop(Answered(text), spent);
    }
    var results := RunToolCalls(execution, requested, env.tools, env.runTool);
    s := Continue([AssistantTurn(response.value.content)] + results,
                  Records(requested, env.tools, env.runTool), spent);
  }

  /** `_execute`'s inner `while iterations < maxIterations` loop. It fills in
      the execution's answer, status and tokens when the model answers. */
  method ToolLoop(execution: Execution, messages0: seq<Message>, env: Env) returns (r: LoopResult)
    modifies execution
    ensures r == RunLoop(messages0, old(execution.toolCalls), 0, 0, env)
    ensures execution.toolCalls == r.records
    ensures r.end.Answered? ==> && execution.agentResponse == Some(r.end.text)
                                && execution.status == Completed && execution.tokensUsed == r.tokens
    ensures !r.end.Answered? ==> && execution.agentResponse == old(execution.agentResponse)
                                 && execution.status == old(execution.status)
                                 && execution.tokensUsed == old(execution.tokensUsed)
    ensures execution.errorMessage == old(execution.errorMessage)
  {
    ghost var target := RunLoop(messages0, execution.toolCalls, 0, 0, env);
    var messages := messages0;
    var tokens: nat := 0;
    var calls: nat := 0;
    while calls < MaxIterations
      invariant calls <= MaxIterations
      invariant target == RunLoop(messages, execution.toolCalls, tokens, calls, env)
      invariant && execution.agentResponse == old(execution.agentResponse)
                && execution.status == old(execution.status)
                && execution.tokensUsed == old(execution.tokensUsed)
                && execution.errorMessage == old(execution.errorMessage)
      decreases MaxIterations - calls
    {
      var s := LoopBody(execution, messages, tokens, calls, env);
      if s.Stop? {
        return LoopResult(s.end, messages, execution.toolCalls, s.tokens, calls + 1);
      }
      messages := messages + s.added;
      calls := calls + 1;
      tokens := s.tokens;
    }
    r := LoopResult(OutOfCalls, messages, execution.toolCalls, tokens, calls);
  }

  // ---------------------------------------------------------------------
  // One execution

  /** A write `execute` makes to memory after a run. */
  datatype MemoryWrite =
    | AppendTurn(role: string, content: string)
    | StoreEpisode(record: MemoryManager.EpisodicRecord)

  /** The tool names for the episodic record. */
  function ToolNames(rs: seq<ToolCallRecord>): (names: seq<string>)
    ensures |names| == |rs|
    ensures forall i :: 0 <= i < |rs| ==> names[i] == NameText(rs[i].name)
  {
    seq(|rs|, i requires 0 <= i < |rs| => NameText(rs[i].name))
  }

  /** The memory writes after a run that did not raise: the user turn always;
      the assistant turn and the episodic record only for a non-empty answer,
      with importance 0.6 at depth 0 and 0.4 below, and outcome "success"
      exactly when the run completed. */
  function WritesAfter(tenant: TenantContext, sessionId: string, agentId: string, userMessage: string,
                       response: Option<string>, toolsUsed: seq<string>, completed: bool,
                       depth: nat): (w: seq<MemoryWrite>)
    ensures |w| >= 1 && w[0] == AppendTurn(UserRole, userMessage)
    ensures |w| == 3 <==> Given(response)
    ensures !Given(response) ==> |w| == 1
    ensures Given(response) ==>
              && w[1] == AppendTurn(AssistantRole, response.value)
              && w[2].StoreEpisode?
              && w[2].record.importance == (if depth == 0 then 0.6 else 0.4)
              && (w[2].record.outcome == SuccessOutcome <==> completed)
              && w[2].record.toolsUsed == toolsUsed
              && w[2].record.sessionId == sessionId && w[2].record.agentId == agentId
  {
    var user := [AppendTurn(UserRole, userMessage)];
    if !Given(response) then user
    else
      var record := MemoryManager.InteractionRecord(tenant, sessionId, agentId, userMessage, response.value,
                      toolsUsed, if completed then SuccessOutcome else FailedOutcome, if depth == 0 then 0.6 else 0.4);
      user + [AppendTurn(AssistantRole, response.value), StoreEpisode(record)]
  }

  function SemanticContents(ms: seq<MemoryManager.SemanticMemory>): (cs: seq<string>)
    ensures |cs| == |ms|
    ensures forall i :: 0 <= i < |ms| ==> cs[i] == ms[i].record.content
  {
    seq(|ms|, i requires 0 <= i < |ms| => ms[i].record.content)
  }

  function EnvOf(agent: AgentConfig, tools: seq<ToolDefinition>, context: MemoryManager.MemoryContext,
                 respond: (nat, RequestBody) -> Result<ModelResponse, Error>,
                 runTool: (ToolDefinition, PyValue) -> Result<PyValue, Error>, tokenLimit: nat): Env
  {
    Env(BuildSystemPrompt(agent.systemPrompt, SemanticContents(context.semantic), context.procedural),
        agent.temperature, agent.maxTokens, tools, respond, runTool, tokenLimit)
  }

  /** The `try` block of `execute` as a loop result: loading tools, context
      and history, each of which may raise before any model call, then the
      loop on the history followed by the user's message. */
  function Attempt(agent: AgentConfig, userMessage: string,
                   loadTools: Result<seq<ToolDefinition>, Error>,
                   retrieved: Result<MemoryManager.MemoryContext, Error>,
                   history: Result<seq<Message>, Error>,
                   respond: (nat, RequestBody) -> Result<ModelResponse, Error>,
                   runTool: (ToolDefinition, PyValue) -> Result<PyValue, Error>,
                   tokenLimit: nat): (r: LoopResult)
    ensures r.calls <= MaxIterations
  {
    if loadTools.Err? then LoopResult(Raised(loadTools.error), [], [], 0, 0)
    else if retrieved.Err? then LoopResult(Raised(retrieved.error), [], [], 0, 0)
    else if history.Err? then LoopResult(Raised(history.error), [], [], 0, 0)
    else RunLoop(history.value + [UserTurn(userMessage)], [], 0, 0,
                 EnvOf(agent, loadTools.value, retrieved.value, respond, runTool, tokenLimit))
  }

  /** A run that did not raise and made fewer than ten model calls ended
      with an answer, within the token ceiling. */
  lemma AttemptCompletes(agent: AgentConfig, userMessage: string,
                         loadTools: Result<seq<ToolDefinition>, Error>,
                         retrieved: Result<MemoryManager.MemoryContext, Error>,
                         history: Result<seq<Message>, Error>,
                         respond: (nat, RequestBody) -> Result<ModelResponse, Error>,
                         runTool: (ToolDefinition, PyValue) -> Result<PyValue, Error>, tokenLimit: nat)
    ensures var r := Attempt(agent, userMessage, loadTools, retrieved, history, respond, runTool, tokenLimit);
      && (!r.end.Raised? && r.calls < MaxIterations ==> r.end.Answered?)
      && (!r.end.Raised? ==> r.tokens <= tokenLimit)
  {
    if loadTools.Ok? && retrieved.Ok? && history.Ok? {
      LoopTokenCeiling(history.value + [UserTurn(userMessage)], [], 0, 0,
                       EnvOf(agent, loadTools.value, retrieved.value, respond, runTool, tokenLimit));
    }
  }

  /** The transcript starts with the history and the user's message, and the
      tool-result messages after them pair one for one with the records. */
  lemma AttemptPairing(agent: AgentConfig, userMessage: string,
                       loadTools: Result<seq<ToolDefinition>, Error>,
                       retrieved: Result<MemoryManager.MemoryContext, Error>,
                       history: Result<seq<Message>, Error>,
                       respond: (nat, RequestBody) -> Result<ModelResponse, Error>,
                       runTool: (ToolDefinition, PyValue) -> Result<PyValue, Error>, tokenLimit: nat)
    requires loadTools.Ok? && retrieved.Ok? && history.Ok?
    ensures var r := Attempt(agent, userMessage, loadTools, retrieved, history, respond, runTool, tokenLimit);
      var start := history.value + [UserTurn(userMessage)];
      && |start| <= |r.messages| && r.messages[..|start|] == start
      && ToolResultIds(r.messages[|start|..]) == RecordIds(r.records)
  {
    var start := history.value + [UserTurn(userMessage)];
    var env := EnvOf(agent, loadTools.value, retrieved.value, respond, runTool, tokenLimit);
    LoopPairing(start, [], 0, 0, env);
    var r := RunLoop(start, [], 0, 0, env);
    assert r.records[0..] == r.records;
  }

  /** The memory writes that went through before the first one that
      raised, and that one's exception; `store(w)` is what writing `w`
      raises, if anything. */
  function Perform(writes: seq<MemoryWrite>, store: MemoryWrite -> Option<Error>)
    : (r: (seq<MemoryWrite>, Option<Error>))
    ensures r.0 <= writes
    ensures forall i :: 0 <= i < |r.0| ==> store(writes[i]).None?
    ensures r.1.None? ==> r.0 == writes
    ensures r.1.Some? ==> |r.0| < |writes| && r.1 == store(writes[|r.0|])
  {
    if writes == [] then ([], None)
    else if store(writes[0]).Some? then ([], store(writes[0]))
    else
      var (done, failure) := Perform(writes[1..], store);
      ([writes[0]] + done, failure)
  }

  /** The `try` block of `execute`, run on a freshly constructed execution:
      `failure` is the exception it raises, from the loop or from one of the
      memory writes after it. */
  method RunAttempt(execution: Execution, agent: AgentConfig, userMessage: string, sessionId: string, depth: nat,
                    loadTools: Result<seq<ToolDefinition>, Error>,
                    retrieved: Result<MemoryManager.MemoryContext, Error>,
                    history: Result<seq<Message>, Error>,
                    respond: (nat, RequestBody) -> Result<ModelResponse, Error>,
                    runTool: (ToolDefinition, PyValue) -> Result<PyValue, Error>, tokenLimit: nat,
                    store: MemoryWrite -> Option<Error>)
    returns (failure: Option<Error>, messages: seq<Message>, writes: seq<MemoryWrite>, modelCalls: nat)
    requires execution.status == Running && execution.agentResponse == None && execution.toolCalls == []
    requires execution.tokensUsed == 0 && execution.errorMessage == None
    modifies execution
    ensures var r := Attempt(agent, userMessage, loadTools, retrieved, history, respond, runTool, tokenLimit);
      && messages == r.messages && modelCalls == r.calls
      && execution.toolCalls == r.records
      && execution.agentResponse == (if r.end.Answered? then Some(r.end.text) else None)
      && execution.tokensUsed == (if r.end.Answered? then r.tokens else 0)
      && (r.end.Raised? ==>
            failure == Some(r.end.error) && execution.status == Running && execution.errorMessage == None && writes == [])
      && (!r.end.Raised? ==>
            && execution.status == (if r.calls < MaxIterations then Completed else Failed)
            && execution.errorMessage == (if r.calls < MaxIterations then None else Some(MaxIterationsMessage))
            && (writes, failure) == Perform(WritesAfter(agent.tenant, sessionId, agent.id, userMessage,
                                                        execution.agentResponse, ToolNames(r.records),
                                                        r.calls < MaxIterations, depth), store))
  {
    writes := [];
    if loadTools.Err? {
      return Some(loadTools.error), [], [], 0;
    }
    if retrieved.Err? {
      return Some(retrieved.error), [], [], 0;
    }
    if history.Err? {
      return Some(history.error), [], [], 0;
    }
    var env := EnvOf(agent, loadTools.value, retrieved.value, respond, runTool, tokenLimit);
    var r := ToolLoop(execution, history.value + [UserTurn(userMessage)], env);
    messages, modelCalls := r.messages, r.calls;
    if r.end.Raised? {
      return Some(r.end.error), messages, [], modelCalls;
    }
    if r.calls >= MaxIterations {
      execution.status := Failed;
      execution.errorMessage := Some(MaxIterationsMessage);
    }
    var planned := WritesAfter(agent.tenant, sessionId, agent.id, userMessage, execution.agentResponse,
                               ToolNames(execution.toolCalls), execution.status == Completed, depth);
    var performed := Perform(planned, store);
    writes, failure := performed.0, performed.1;
  }

  /** The final state of an execution after `execute`'s handlers: an
      exception marks it failed with its message; otherwise the status is
      completed only when fewer than ten model calls were made. */
  ghost predicate Settled(e: Progress, r: LoopResult, failure: Option<Error>)
  {
    && e.toolCalls == r.records
    && e.agentResponse == (if r.end.Answered? then Some(r.end.text) else None)
    && e.tokensUsed == (if r.end.Answered? then r.tokens else 0)
    && (failure.Some? ==> e.status == Failed && e.errorMessage == Some(failure.value.Message()))
    && (failure.None? ==>
          && e.status == (if r.calls < MaxIterations then Completed else Failed)
          && e.errorMessage == (if r.calls < MaxIterations then None else Some(MaxIterationsMessage)))
  }

  /** What `execute` reports for a settled execution: the exception
      re-raised as `AgentExecutionError`, or the execution itself. */
  function Reported(execution: Execution, failure: Option<Error>): Result<Execution, Error>
  {
    if failure.Some? then Err(AgentExecutionError(FailurePrefix + failure.value.Message())) else Ok(execution)
  }

  /** Everything `execute` leaves behind once the run `r` is over: the
      memory writes that went through, which a raised run skips and a
      failed write cuts short, the execution settled by the exception of
      either, the transcript and the number of model calls, and the
      reported outcome. */
  ghost predicate Concluded(execution: Execution, p: Progress, r: LoopResult, agent: AgentConfig, userMessage: string,
                            sessionId: string, depth: nat, store: MemoryWrite -> Option<Error>,
                            outcome: Result<Execution, Error>,
                            messages: seq<Message>, writes: seq<MemoryWrite>, modelCalls: nat)
  {
    var performed := if r.end.Raised? then ([], Some(r.end.error))
                     else Perform(WritesAfter(agent.tenant, sessionId, agent.id, userMessage, p.agentResponse,
                                              ToolNames(r.records), r.calls < MaxIterations, depth), store);
    && Settled(p, r, performed.1)
    && messages == r.messages && modelCalls == r.calls
    && outcome == Reported(execution, performed.1)
    && writes == performed.0
  }

  /** The `try`/`except` part of `execute` on a freshly constructed execution. */
  method Handle(execution: Execution, agent: AgentConfig, userMessage: string, sessionId: string, depth: nat,
                loadTools: Result<seq<ToolDefinition>, Error>,
                retrieved: Result<MemoryManager.MemoryContext, Error>,
                history: Result<seq<Message>, Error>,
                respond: (nat, RequestBody) -> Result<ModelResponse, Error>,
                runTool: (ToolDefinition, PyValue) -> Result<PyValue, Error>, tokenLimit: nat,
                store: MemoryWrite -> Option<Error>)
    returns (outcome: Result<Execution, Error>, messages: seq<Message>, writes: seq<MemoryWrite>, modelCalls: nat)
    requires execution.status == Running && execution.agentResponse == None && execution.toolCalls == []
    requires execution.tokensUsed == 0 && execution.errorMessage == None
    modifies execution
    ensures Concluded(execution, execution.State(), Attempt(agent, userMessage, loadTools, retrieved, history, respond, runTool, tokenLimit),
                      agent, userMessage, sessionId, depth, store, outcome, messages, writes, modelCalls)
  {
    var failure: Option<Error>;
    failure, messages, writes, modelCalls := RunAttempt(execution, agent, userMessage, sessionId, depth,
                                                        loadTools, retrieved, history, respond, runTool,
                                                        tokenLimit, store);
    if failure.Some? {
      execution.status := Failed;
      execution.errorMessage := Some(failure.value.Message());
      outcome := Err(AgentExecutionError(FailurePrefix + failure.value.Message()));
    } else {
      outcome := Ok(execution);
    }
  }

  /** `AgentEngine`: the registry of running executions and the limits it
      enforces. */
  class Engine {
    var active: map<string, Execution>
    const maxRecursionDepth: nat
    const maxTokenLimit: nat

    constructor (maxRecursionDepth: nat, maxTokenLimit: nat)
      ensures active == map[]
      ensures this.maxRecursionDepth == maxRecursionDepth && this.maxTokenLimit == maxTokenLimit
    {
      active := map[];
      this.maxRecursionDepth := maxRecursionDepth;
      this.maxTokenLimit := maxTokenLimit;
    }

    /** `execute`. The depth guard raises before anything else happens.
        Otherwise a new execution `executionId` is registered, the run is
        attempted and its memory writes made (`store(w)` is what writing
        `w` raises), an exception of either is re-raised as
        `AgentExecutionError`, and the registration is removed on every
        path. */
    method Execute(agent: AgentConfig, userMessage: string, sessionId: string,
                   parentExecutionId: Option<string>, depth: nat, executionId: string,
                   loadTools: Result<seq<ToolDefinition>, Error>,
                   retrieved: Result<MemoryManager.MemoryContext, Error>,
                   history: Result<seq<Message>, Error>,
                   respond: (nat, RequestBody) -> Result<ModelResponse, Error>,
                   runTool: (ToolDefinition, PyValue) -> Result<PyValue, Error>,
                   store: MemoryWrite -> Option<Error>)
      returns (outcome: Result<Execution, Error>, execution: Execution?, messages: seq<Message>,
               writes: seq<MemoryWrite>, modelCalls: nat)
      modifies this
      ensures depth >= maxRecursionDepth ==>
                && outcome == Err(RecursionDepthExceeded(depth, maxRecursionDepth))
                && execution == null && messages == [] && writes == [] && modelCalls == 0
                && active == old(active)
      ensures depth < maxRecursionDepth ==>
                && execution != null && fresh(execution)
                && active == old(active) - {executionId}
                && execution.id == executionId && execution.agentId == agent.id
                && execution.sessionId == sessionId && execution.tenant == agent.tenant
                && execution.userMessage == userMessage
                && execution.parentExecutionId == parentExecutionId && execution.depth == depth
                && Concluded(execution, execution.State(), Attempt(agent, userMessage, loadTools, retrieved, history, respond, runTool,
                                                maxTokenLimit),
                             agent, userMessage, sessionId, depth, store, outcome, messages, writes, modelCalls)
    {
      if depth >= maxRecursionDepth {
        return Err(RecursionDepthExceeded(depth, maxRecursionDepth)), null, [], [], 0;
      }
      execution := new Execution(executionId, agent.id, sessionId, agent.tenant, userMessage,
                                 parentExecutionId, depth);
      active := active[executionId := execution];
      assert active - {executionId} == old(active) - {executionId};
      outcome, messages, writes, modelCalls := Handle(execution, agent, userMessage, sessionId, depth,
                                                      loadTools, retrieved, history, respond, runTool,
                                                      maxTokenLimit, store);
      active := active - {executionId};
    }

    /** `getActiveExecutions`: the running executions of one tenant. */
    function ActiveFor(tenantId: string): (r: set<Execution>)
      reads this
      ensures r <= active.Values
      ensures forall e :: e in active.Values ==> (e in r <==> e.tenant.tenantId == tenantId)
    {
      set e | e in active.Values && e.tenant.tenantId == tenantId
    }

    /** `cancelExecution`: a registered execution is marked cancelled and
        unregistered; an unknown id changes nothing. */
    method CancelExecution(executionId: string) returns (cancelled: bool)
      modifies this, if executionId in active then {active[executionId]} else {}
      ensures cancelled <==> executionId in old(active)
      ensures cancelled ==> && active == old(active) - {executionId}
                            && old(active)[executionId].status == Cancelled
      ensures !cancelled ==> active == old(active)
      ensures cancelled ==> var e := old(active)[executionId];
                && e.toolCalls == old(e.toolCalls) && e.agentResponse == old(e.agentResponse)
                && e.tokensUsed == old(e.tokensUsed) && e.errorMessage == old(e.errorMessage)
    {
      if executionId in active {
        var execution := active[executionId];
        execution.status := Cancelled;
        active := active - {executionId};
        return true;
      }
      return false;
    }
  }

  /** Tenant isolation of `getActiveExecutions`: two tenants never see the
      same execution, and each sees only registered ones. */
  lemma ActiveForIsolated(engine: Engine, t1: string, t2: string)
    requires t1 != t2
    ensures engine.ActiveFor(t1) !! engine.ActiveFor(t2)
    ensures engine.ActiveFor(t1) + engine.ActiveFor(t2) <= engine.active.Values
  {
  }
}
