/** The lakehouse query tool
    (AgentSynapse/tools/prebuiltTools/lakehouseQueryTool.py): it validates its
    input, starts a Spark SQL session unless one is supplied, submits the
    query, and stops the session afterwards. HTTP is foreign: `post(request)`
    is what the service answers to a request, or the failure raised. */
module Lakehouse {
  import opened Values
  import opened Strings

  const Https := "https://"
  const Slash := '/'
  const StartPath := "iceberg/startsession"
  const SubmitPath := "iceberg/submitquery"
  const StopPath := "iceberg/stopsession"
  const DefaultStage := "dev"
  const BearerPrefix := "Bearer "

  const SuccessKey := "success"
  const ErrorKey := "error"
  const SessionIdKey := "sessionId"
  const ResponseKey := "response"
  const StartSessionKey := "startSession"
  const RawResponseKey := "rawResponse"
  const StatusCodeKey := "statusCode"
  const DetailsKey := "details"
  const WarningsKey := "warnings"
  const QueryKey := "query"
  const CatalogKey := "catalog"

  const MissingTokenError := "Missing authToken in execution context"
  const MissingHostError := "Tool input must include 'host'"
  const MissingQueryError := "submitQuery must include 'catalog' and 'query'"
  const MissingStartPayloadError := "startSessionPayload is required when sessionId is not provided"
  const NoSessionError := "Failed to obtain sessionId from start session response"
  const StatusErrorPrefix := "HTTP status error: "
  const HttpErrorPrefix := "HTTP error: "
  const StopWarningPrefix := "Failed to stop session "
  const StopWarningMiddle := ": "

  type Dict = seq<(string, PyValue)>

  /** The tool input fields the tool reads; `None` is a missing key. */
  datatype ToolInput = ToolInput(
    host: Option<string>,
    stage: Option<string>,
    submitQuery: Option<Dict>,
    startSessionPayload: Option<PyValue>,
    stopSession: Option<PyValue>,
    stopSessionPayload: Option<Dict>)

  /** What a POST raises: a status error from `raise_for_status`, any other
      `httpx.HTTPError`, or any other exception; `message` is `str(error)`. */
  datatype HttpFailure =
    | StatusError(statusCode: int, text: string, message: string)
    | TransportError(message: string)
    | OtherFailure(message: string)

  /** The three endpoints the tool posts to. */
  datatype Endpoint = StartSession | SubmitQuery | StopSession
  {
    function Path(): string
    {
      match this
      case StartSession => StartPath
      case SubmitQuery => SubmitPath
      case StopSession => StopPath
    }
  }

  /** One POST: to `_build_url(host, stage, endpoint's path)`, with a JSON
      body and the bearer header's value. */
  datatype Request = Request(host: string, stage: string, endpoint: Endpoint, body: PyValue, authorization: string)
  {
    function Url(): string
    {
      BuildUrl(host, stage, endpoint.Path())
    }
  }

  // ---------------------------------------------------------------------
  // _build_url

  function Slashes(n: nat): (r: string)
    ensures |r| == n && forall i :: 0 <= i < n ==> r[i] == Slash
  {
    seq(n, _ => Slash)
  }

  /** `_build_url`. */
  function BuildUrl(host: string, stage: string, path: string): string
  {
    Https + host + [Slash] + Strip(stage, Slash) + [Slash] + LStrip(path, Slash)
  }

  /** Neither end is a slash. */
  predicate Clean(s: string)
  {
    s == [] || (s[0] != Slash && s[|s| - 1] != Slash)
  }

  lemma {:induction false} LStripSlashes(n: nat, s: string)
    requires s == [] || s[0] != Slash
    ensures LStrip(Slashes(n) + s, Slash) == s
  {
    if n > 0 {
      var t := Slashes(n) + s;
      assert t[0] == Slash;
      assert t[1..] == Slashes(n - 1) + s;
      LStripSlashes(n - 1, s);
    } else {
      assert Slashes(n) + s == s;
    }
  }

  lemma {:induction false} RStripSlashes(s: string, n: nat)
    requires s == [] || s[|s| - 1] != Slash
    ensures RStrip(s + Slashes(n), Slash) == s
  {
    if n > 0 {
      var t := s + Slashes(n);
      assert t[|t| - 1] == Slash;
      assert t[..|t| - 1] == s + Slashes(n - 1);
      RStripSlashes(s, n - 1);
    } else {
      assert s + Slashes(n) == s;
    }
  }

  /** Stripping slashes from a padded clean stage gives the stage back. */
  lemma StripPadded(stage: string, before: nat, after: nat)
    requires Clean(stage)
    ensures Strip(Slashes(before) + stage + Slashes(after), Slash) == stage
  {
    var padded := Slashes(before) + stage + Slashes(after);
    if stage == [] {
      assert padded == Slashes(before + after) + [];
      LStripSlashes(before + after, []);
    } else {
      assert padded == Slashes(before) + (stage + Slashes(after));
      LStripSlashes(before, stage + Slashes(after));
      RStripSlashes(stage, after);
    }
  }

  /** Slashes around the stage and before the path make no difference: the
      URL is "https://<host>/<stage>/<path>". */
  lemma BuildUrlNormalises(host: string, stage: string, path: string, before: nat, after: nat, lead: nat)
    requires Clean(stage) && (path == [] || path[0] != Slash)
    ensures BuildUrl(host, Slashes(before) + stage + Slashes(after), Slashes(lead) + path)
         == Https + host + [Slash] + stage + [Slash] + path
  {
    LStripSlashes(lead, path);
    StripPadded(stage, before, after);
  }

  // ---------------------------------------------------------------------
  // Dicts

  /** `d.get(key, default)` on a dict given as its entries. */
  function Get(d: Dict, key: string, default: PyValue): PyValue
  {
    var v := DictGet(d, key);
    if v.Some? then v.value else default
  }

  function KeyAt(d: Dict, i: nat): string
    requires i < |d|
  {
    d[i].0
  }

  /** No key appears twice, as in any dict. */
  predicate UniqueKeys(d: Dict)
  {
    forall i, j :: 0 <= i < j < |d| ==> KeyAt(d, i) != KeyAt(d, j)
  }

  /** `d[key] = value`: replaced in place, or appended. */
  function Put(d: Dict, key: string, value: PyValue): (r: Dict)
    ensures DictGet(r, key) == Some(value)
    ensures forall k :: k != key ==> DictGet(r, k) == DictGet(d, k)
  {
    if d == [] then [(key, value)]
    else if d[0].0 == key then [(key, value)] + d[1..]
    else
      var r := [d[0]] + Put(d[1..], key, value);
      assert r[1..] == Put(d[1..], key, value);
      r
  }

  /** `{**d, **e}`: the entries of `e` put into `d` in order. */
  function Merge(d: Dict, e: Dict): Dict
    decreases |e|
  {
    if e == [] then d else Merge(Put(d, e[0].0, e[0].1), e[1..])
  }

  /** A key of `e` takes its value from `e`, any other key keeps its value. */
  lemma {:induction false} MergeGet(d: Dict, e: Dict, key: string)
    requires UniqueKeys(e)
    ensures DictGet(Merge(d, e), key) == if DictGet(e, key).Some? then DictGet(e, key) else DictGet(d, key)
    decreases |e|
  {
    if e != [] {
      assert UniqueKeys(e[1..]) by {
        forall i, j | 0 <= i < j < |e[1..]| ensures KeyAt(e[1..], i) != KeyAt(e[1..], j) {
          assert KeyAt(e, i + 1) != KeyAt(e, j + 1);
        }
      }
      MergeGet(Put(d, e[0].0, e[0].1), e[1..], key);
      if key == e[0].0 {
        DictGetFound(e[1..], key);
        forall i | 0 <= i < |e[1..]| ensures e[1..][i].0 != key {
          assert KeyAt(e, 0) != KeyAt(e, i + 1);
        }
      }
    }
  }

  // ---------------------------------------------------------------------
  // Pieces of `execute`

  function SubmitConfig(input: ToolInput): Dict
  {
    if input.submitQuery.Some? then input.submitQuery.value else []
  }

  function StageOf(input: ToolInput): string
  {
    if input.stage.Some? then input.stage.value else DefaultStage
  }

  function StopAfter(input: ToolInput): PyValue
  {
    if input.stopSession.Some? then input.stopSession.value else PBool(true)
  }

  function StopOverrides(input: ToolInput): Dict
  {
    if input.stopSessionPayload.Some? then input.stopSessionPayload.value else []
  }

  predicate ValidSubmit(config: Dict)
  {
    config != [] && DictGet(config, QueryKey).Some? && DictGet(config, CatalogKey).Some?
  }

  /** The validation prefix of `execute`: the first failing check's message. */
  function Validate(input: ToolInput, authToken: Option<string>): Option<string>
  {
    if !Given(authToken) then Some(MissingTokenError)
    else if !Given(input.host) then Some(MissingHostError)
    else if !ValidSubmit(SubmitConfig(input)) then Some(MissingQueryError)
    else None
  }

  /** The token is checked first, then the host, then the query. */
  lemma ValidateOrder(input: ToolInput, authToken: Option<string>)
    ensures Validate(input, authToken) == Some(MissingTokenError) <==> !Given(authToken)
    ensures Validate(input, authToken) == Some(MissingHostError) <==> Given(authToken) && !Given(input.host)
    ensures (Validate(input, authToken) == Some(MissingQueryError))
              <==> (Given(authToken) && Given(input.host) && !ValidSubmit(SubmitConfig(input)))
    ensures (Validate(input, authToken).None?)
              <==> (Given(authToken) && Given(input.host) && ValidSubmit(SubmitConfig(input)))
  {
  }

  /** What `execute` returns, before it is spelled as a dict: a refusal
      with its message, a start response without a session id, a failed
      request, or the answer to the query with at most one warning. */
  datatype Outcome =
    | Refused(message: string)
    | NoSession(rawResponse: PyValue)
    | Failed(failure: HttpFailure, sessionId: PyValue)
    | Succeeded(sessionId: PyValue, response: PyValue, startSession: PyValue, warning: Option<string>)

  /** The dict `execute` returns for an outcome: `success` first, then the
      error and its details, or the session, the answer, the start response
      and the warnings list. */
  function Payload(o: Outcome): (d: Dict)
    ensures |d| >= 2 && d[0] == (SuccessKey, PBool(o.Succeeded?))
    ensures !o.Succeeded? ==> d[1].0 == ErrorKey
    ensures o.Succeeded? ==> |d| >= 4 && d[2] == (ResponseKey, o.response) && (|d| == 5 <==> o.warning.Some?)
  {
    match o
    case Refused(message) => [(SuccessKey, PBool(false)), (ErrorKey, PStr(message))]
    case NoSession(raw) => [(SuccessKey, PBool(false)), (ErrorKey, PStr(NoSessionError)), (RawResponseKey, raw)]
    case Failed(StatusError(code, text, message), sessionId) =>
      [(SuccessKey, PBool(false)), (ErrorKey, PStr(StatusErrorPrefix + message)),
       (StatusCodeKey, PInt(code)), (DetailsKey, PStr(text)), (SessionIdKey, sessionId)]
    case Failed(TransportError(message), sessionId) =>
      [(SuccessKey, PBool(false)), (ErrorKey, PStr(HttpErrorPrefix + message)), (SessionIdKey, sessionId)]
    case Failed(OtherFailure(message), sessionId) =>
      [(SuccessKey, PBool(false)), (ErrorKey, PStr(message)), (SessionIdKey, sessionId)]
    case Succeeded(sessionId, response, startSession, warning) =>
      [(SuccessKey, PBool(true)), (SessionIdKey, sessionId), (ResponseKey, response), (StartSessionKey, startSession)]
      + if warning.Some? then [(WarningsKey, PList([PStr(warning.value)]))] else []
  }

  function StopWarning(session: string, failure: HttpFailure): string
  {
    StopWarningPrefix + session + StopWarningMiddle + failure.message
  }

  /** Python's type name of a value, as an `AttributeError` spells it. */
  function TypeName(v: PyValue): string
  {
    match v
    case PNone => "NoneType"
    case PBool(_) => "bool"
    case PInt(_) => "int"
    case PFloat(_) => "float"
    case PDecimal(_) => "decimal.Decimal"
    case PStr(_) => "str"
    case PList(_) => "list"
    case PDict(_) => "dict"
  }

  /** `str(e)` of the `AttributeError` raised by `v.get`. */
  function NoGet(v: PyValue): string
  {
    "'" + TypeName(v) + "' object has no attribute 'get'"
  }

  /** `startResponse.get("response", {}).get("sessionId") or
      startResponse.get("sessionId")`; an error where a `.get` meets a value
      that is not a dict. */
  function StartSessionId(response: PyValue): Result<PyValue, string>
  {
    if !response.PDict? then Err(NoGet(response))
    else
      var inner := Get(response.entries, ResponseKey, PDict([]));
      if !inner.PDict? then Err(NoGet(inner))
      else
        var nested := Get(inner.entries, SessionIdKey, PNone);
        if Truthy(nested) then Ok(nested) else Ok(Get(response.entries, SessionIdKey, PNone))
  }

  /** The nested id wins when it is truthy; otherwise the top-level one is
      taken as it is, falsy or missing included. */
  lemma StartSessionIdPrecedence(nested: PyValue, top: Option<PyValue>, rest: Dict)
    requires DictGet(rest, ResponseKey).None? && DictGet(rest, SessionIdKey).None?
    ensures var topEntries := if top.Some? then [(SessionIdKey, top.value)] else [];
      var response := PDict([(ResponseKey, PDict([(SessionIdKey, nested)]))] + topEntries + rest);
      StartSessionId(response) == Ok(if Truthy(nested) then nested
                                     else if top.Some? then top.value else PNone)
  {
    var topEntries := if top.Some? then [(SessionIdKey, top.value)] else [];
    var entries := [(ResponseKey, PDict([(SessionIdKey, nested)]))] + topEntries + rest;
    assert entries[1..] == topEntries + rest;
    assert DictGet(entries, ResponseKey) == Some(PDict([(SessionIdKey, nested)]));
    if top.Some? {
      assert DictGet(topEntries + rest, SessionIdKey) == Some(top.value);
    }
  }

  // ---------------------------------------------------------------------
  // execute

  /** What the `try` block of `execute` leaves: the outcome its `return`
      hands back (a success is `returnPayload` itself), the session id
      variable and the requests sent. */
  datatype TryOutcome = TryOutcome(outcome: Outcome, session: PyValue, sent: seq<Request>)

  function StartRequest(input: ToolInput, bearer: string): Request
    requires Given(input.host) && input.startSessionPayload.Some?
  {
    Request(input.host.value, StageOf(input), StartSession, input.startSessionPayload.value, bearer)
  }

  /** `{**submitConfig, "sessionId": sessionId}`, posted to the submit path. */
  function SubmitRequest(input: ToolInput, bearer: string, session: PyValue): Request
    requires Given(input.host)
  {
    Request(input.host.value, StageOf(input), SubmitQuery, PDict(Put(SubmitConfig(input), SessionIdKey, session)), bearer)
  }

  /** `{"sessionId": sessionId, **stopSessionPayload}`, posted to the stop path. */
  function StopRequest(input: ToolInput, bearer: string, session: PyValue): Request
    requires Given(input.host)
  {
    Request(input.host.value, StageOf(input), StopSession, PDict(Merge([(SessionIdKey, session)], StopOverrides(input))), bearer)
  }

  /** The submit step of the `try` block, after `sent`. */
  function SubmitStep(input: ToolInput, bearer: string, session: PyValue, startSession: PyValue,
                      sent: seq<Request>, post: Request -> Result<PyValue, HttpFailure>): TryOutcome
    requires Given(input.host)
  {
    var request := SubmitRequest(input, bearer, session);
    var answer := post(request);
    if answer.Err? then TryOutcome(Failed(answer.error, session), session, sent + [request])
    else TryOutcome(Succeeded(session, answer.value, startSession, None), session, sent + [request])
  }

  /** The `try` block of `execute` on validated input. */
  function TryBlock(input: ToolInput, bearer: string, post: Request -> Result<PyValue, HttpFailure>): TryOutcome
    requires Given(input.host)
  {
    var supplied := Get(SubmitConfig(input), SessionIdKey, PNone);
    if Truthy(supplied) then SubmitStep(input, bearer, supplied, PNone, [], post)
    else if input.startSessionPayload.None? || !Truthy(input.startSessionPayload.value) then
      TryOutcome(Refused(MissingStartPayloadError), supplied, [])
    else
      var start := StartRequest(input, bearer);
      var started := post(start);
      if started.Err? then TryOutcome(Failed(started.error, supplied), supplied, [start])
      else
        var resolved := StartSessionId(started.value);
        if resolved.Err? then TryOutcome(Failed(OtherFailure(resolved.error), supplied), supplied, [start])
        else if !Truthy(resolved.value) then TryOutcome(NoSession(started.value), resolved.value, [start])
        else SubmitStep(input, bearer, resolved.value, started.value, [start], post)
  }

  /** The `finally` block of `execute`: the stop request when the session id
      is truthy and stopping is on; a failed stop adds its warning to
      `returnPayload`, and so is seen only when the `try` block returned
      that dict, on success. */
  function Finally(input: ToolInput, bearer: string, t: TryOutcome,
                   post: Request -> Result<PyValue, HttpFailure>, show: PyValue -> string): (Outcome, seq<Request>)
    requires Given(input.host)
  {
    if Truthy(t.session) && Truthy(StopAfter(input)) then
      var stop := StopRequest(input, bearer, t.session);
      var stopped := post(stop);
      var outcome := if stopped.Err? && t.outcome.Succeeded?
                     then t.outcome.(warning := Some(StopWarning(show(t.session), stopped.error)))
                     else t.outcome;
      (outcome, t.sent + [stop])
    else (t.outcome, t.sent)
  }

  /** `execute`: the outcome returned and the requests sent. `show(v)` is
      `str(v)`, used for the session id in the stop warning. */
  function Run(input: ToolInput, authToken: Option<string>, post: Request -> Result<PyValue, HttpFailure>,
               show: PyValue -> string): (Outcome, seq<Request>)
  {
    var invalid := Validate(input, authToken);
    if invalid.Some? then (Refused(invalid.value), [])
    else
      var bearer := BearerPrefix + authToken.value;
      Finally(input, bearer, TryBlock(input, bearer, post), post, show)
  }

  /** `execute`, step by step: the `finally` block runs after the `try`
      block's `return` and appends its warning to `returnPayload`, which the
      caller sees only when that very dict was returned. */
  method Execute(input: ToolInput, authToken: Option<string>, post: Request -> Result<PyValue, HttpFailure>,
                 show: PyValue -> string)
      returns (payload: Dict, requests: seq<Request>)
    ensures payload == Payload(Run(input, authToken, post, show).0)
    ensures requests == Run(input, authToken, post, show).1
  {
    requests := [];
    if !Given(authToken) {
      return Payload(Refused(MissingTokenError)), requests;
    }
    var host := input.host;
    var stage := StageOf(input);
    var submitConfig := SubmitConfig(input);
    if !Given(host) {
      return Payload(Refused(MissingHostError)), requests;
    }
    if !ValidSubmit(submitConfig) {
      return Payload(Refused(MissingQueryError)), requests;
    }
    var sessionId := Get(submitConfig, SessionIdKey, PNone);
    var startPayload := input.startSessionPayload;
    var stopAfter := StopAfter(input);
    var stopOverrides := StopOverrides(input);
    var bearer := BearerPrefix + authToken.value;
    var returnPayload: Dict := [];
    var startResponsePayload := PNone;

    // try: `returned` is what its `return` hands back, `returnsPayload`
    // whether that is `returnPayload` itself.
    var returned := Refused(MissingStartPayloadError);
    var returnsPayload := false;
    var finished := false;
    if !Truthy(sessionId) {
      if startPayload.None? || !Truthy(startPayload.value) {
        finished := true;
      } else {
        var startRequest := Request(host.value, stage, StartSession, startPayload.value, bearer);
        requests := requests + [startRequest];
        var started := post(startRequest);
        if started.Err? {
          returned, finished := Failed(started.error, sessionId), true;
        } else {
          var resolved := StartSessionId(started.value);
          if resolved.Err? {
            returned, finished := Failed(OtherFailure(resolved.error), sessionId), true;
          } else {
            sessionId := resolved.value;
            if !Truthy(sessionId) {
              returned, finished := NoSession(started.value), true;
            } else {
              startResponsePayload := started.value;
            }
          }
        }
      }
    }
    if finished {
      assert TryBlock(input, bearer, post) == TryOutcome(returned, sessionId, requests);
    } else {
      assert TryBlock(input, bearer, post) == SubmitStep(input, bearer, sessionId, startResponsePayload, requests, post);
      var submitRequest := Request(host.value, stage, SubmitQuery,
                                   PDict(Put(submitConfig, SessionIdKey, sessionId)), bearer);
      requests := requests + [submitRequest];
      var submitted := post(submitRequest);
      if submitted.Err? {
        returned := Failed(submitted.error, sessionId);
      } else {
        returned := Succeeded(sessionId, submitted.value, startResponsePayload, None);
        returnPayload := returnPayload + Payload(returned);
        returnsPayload := true;
      }
    }
    assert TryBlock(input, bearer, post) == TryOutcome(returned, sessionId, requests);
    assert returnsPayload <==> returned.Succeeded?;
    assert returnPayload == if returnsPayload then Payload(returned) else [];

    // finally
    if Truthy(sessionId) && Truthy(stopAfter) {
      var stopRequest := Request(host.value, stage, StopSession,
                                 PDict(Merge([(SessionIdKey, sessionId)], stopOverrides)), bearer);
      requests := requests + [stopRequest];
      var stopped := post(stopRequest);
      if stopped.Err? && returnPayload != [] {
        var warning := StopWarning(show(sessionId), stopped.error);
        returnPayload := returnPayload + [(WarningsKey, PList([PStr(warning)]))];
        assert returnPayload == Payload(returned.(warning := Some(warning)));
      }
    }
    payload := if returnsPayload then returnPayload else Payload(returned);
  }

  // ---------------------------------------------------------------------
  // Properties of `execute`

  /** Invalid input is refused before any request is sent. */
  lemma InvalidSendsNothing(input: ToolInput, authToken: Option<string>,
                            post: Request -> Result<PyValue, HttpFailure>, show: PyValue -> string)
    requires Validate(input, authToken).Some?
    ensures Run(input, authToken, post, show) == (Refused(Validate(input, authToken).value), [])
  {
  }

  /** Without a session id and without a start payload nothing is sent, not
      even a stop request. */
  lemma NoSessionNoStart(input: ToolInput, authToken: Option<string>,
                         post: Request -> Result<PyValue, HttpFailure>, show: PyValue -> string)
    requires Validate(input, authToken).None?
    requires !Truthy(Get(SubmitConfig(input), SessionIdKey, PNone))
    requires input.startSessionPayload.None? || !Truthy(input.startSessionPayload.value)
    ensures Run(input, authToken, post, show) == (Refused(MissingStartPayloadError), [])
  {
  }

  /** The submit step sends the submit request after `sent` and succeeds,
      with the answer, exactly when that request was answered. */
  lemma SubmitStepShape(input: ToolInput, bearer: string, session: PyValue, startSession: PyValue,
                        sent: seq<Request>, post: Request -> Result<PyValue, HttpFailure>)
    requires Given(input.host)
    ensures var t := SubmitStep(input, bearer, session, startSession, sent, post);
      var submit := SubmitRequest(input, bearer, session);
      && t.session == session && t.sent == sent + [submit]
      && (t.outcome.Succeeded? <==> post(submit).Ok?)
      && (t.outcome.Succeeded? ==> t.outcome.response == post(submit).value && t.outcome.warning.None?)
  {
  }

  /** The `try` block sends nothing, the start request alone, the submit
      request alone or both in that order: a start request only when no
      truthy session id was supplied, a submit request only with a truthy
      one. It succeeds, with the answer and no warning, exactly when the
      submit request was answered. */
  lemma TryBlockShape(input: ToolInput, bearer: string, post: Request -> Result<PyValue, HttpFailure>)
    requires Given(input.host)
    ensures var t := TryBlock(input, bearer, post);
      var startable := input.startSessionPayload.Some? && !Truthy(Get(SubmitConfig(input), SessionIdKey, PNone));
      var submit := SubmitRequest(input, bearer, t.session);
      && (|| t.sent == []
          || (startable && t.sent == [StartRequest(input, bearer)])
          || (Truthy(t.session) && t.sent == [submit])
          || (startable && Truthy(t.session) && t.sent == [StartRequest(input, bearer), submit]))
      && (t.outcome.Succeeded? <==> |t.sent| > 0 && t.sent[|t.sent| - 1] == submit && post(submit).Ok?)
      && (t.outcome.Succeeded? ==> t.outcome.response == post(submit).value && t.outcome.warning.None?)
  {
    var supplied := Get(SubmitConfig(input), SessionIdKey, PNone);
    if Truthy(supplied) {
      SubmitStepShape(input, bearer, supplied, PNone, [], post);
    } else if input.startSessionPayload.Some? && Truthy(input.startSessionPayload.value) {
      var start := StartRequest(input, bearer);
      var started := post(start);
      if started.Ok? {
        var resolved := StartSessionId(started.value);
        if resolved.Ok? && Truthy(resolved.value) {
          SubmitStepShape(input, bearer, resolved.value, started.value, [start], post);
        }
      }
    }
  }

  /** The stop request names the session, unless the stop overrides name
      another, and carries every other override unchanged. */
  lemma StopBody(input: ToolInput, bearer: string, session: PyValue)
    requires Given(input.host) && UniqueKeys(StopOverrides(input))
    ensures var body := StopRequest(input, bearer, session).body.entries;
      var overrides := StopOverrides(input);
      && DictGet(body, SessionIdKey) == (if DictGet(overrides, SessionIdKey).Some? then DictGet(overrides, SessionIdKey)
                                         else Some(session))
      && forall k :: k != SessionIdKey ==> DictGet(body, k) == DictGet(overrides, k)
  {
    var first := [(SessionIdKey, session)];
    assert first[1..] == [];
    MergeGet(first, StopOverrides(input), SessionIdKey);
    forall k | k != SessionIdKey
      ensures DictGet(Merge(first, StopOverrides(input)), k) == DictGet(StopOverrides(input), k)
    {
      MergeGet(first, StopOverrides(input), k);
    }
  }

  /** Every request goes to the input's host and stage and carries the
      bearer token; the query is submitted only with the session id the
      `try` block settled on, and only when that id is truthy. */
  lemma RequestsAuthorized(input: ToolInput, authToken: Option<string>,
                           post: Request -> Result<PyValue, HttpFailure>, show: PyValue -> string)
    requires Validate(input, authToken).None?
    ensures var bearer := BearerPrefix + authToken.value;
      var session := TryBlock(input, bearer, post).session;
      forall r :: r in Run(input, authToken, post, show).1 ==>
        && r.host == input.host.value && r.stage == StageOf(input) && r.authorization == bearer
        && (r.endpoint == SubmitQuery ==> r == SubmitRequest(input, bearer, session) && Truthy(session))
  {
    TryBlockShape(input, BearerPrefix + authToken.value, post);
  }

  /** A stop request is sent exactly when the try block ended with a truthy
      session id and stopping is on, and then it is the last request. A
      supplied session is stopped as well, since stopping defaults to on. */
  lemma StopIssued(input: ToolInput, authToken: Option<string>,
                   post: Request -> Result<PyValue, HttpFailure>, show: PyValue -> string)
    requires Validate(input, authToken).None?
    ensures var requests := Run(input, authToken, post, show).1;
      var bearer := BearerPrefix + authToken.value;
      var t := TryBlock(input, bearer, post);
      var stops := Truthy(t.session) && Truthy(StopAfter(input));
      && ((exists i :: 0 <= i < |requests| && requests[i].endpoint == StopSession) <==> stops)
      && (stops ==> requests[|requests| - 1] == StopRequest(input, bearer, t.session))
  {
    var bearer := BearerPrefix + authToken.value;
    var t := TryBlock(input, bearer, post);
    TryBlockShape(input, bearer, post);
    var requests := Run(input, authToken, post, show).1;
    if Truthy(t.session) && Truthy(StopAfter(input)) {
      assert requests == t.sent + [StopRequest(input, bearer, t.session)];
      assert requests[|requests| - 1].endpoint == StopSession;
    } else {
      assert requests == t.sent;
    }
  }

  /** `execute` succeeds exactly when the submit request was answered, and
      then returns that answer. */
  lemma SuccessOnlyFromSubmit(input: ToolInput, authToken: Option<string>,
                              post: Request -> Result<PyValue, HttpFailure>, show: PyValue -> string)
    ensures var (outcome, requests) := Run(input, authToken, post, show);
      && (outcome.Succeeded? <==>
            exists i :: 0 <= i < |requests| && requests[i].endpoint == SubmitQuery && post(requests[i]).Ok?)
      && (forall i :: 0 <= i < |requests| && requests[i].endpoint == SubmitQuery && post(requests[i]).Ok? ==>
            outcome.Succeeded? && outcome.response == post(requests[i]).value)
  {
    if Validate(input, authToken).None? {
      var bearer := BearerPrefix + authToken.value;
      var t := TryBlock(input, bearer, post);
      TryBlockShape(input, bearer, post);
      var requests := Run(input, authToken, post, show).1;
      var submit := SubmitRequest(input, bearer, t.session);
      assert forall i :: 0 <= i < |requests| && requests[i].endpoint == SubmitQuery ==> requests[i] == submit;
      if t.outcome.Succeeded? {
        assert requests[|t.sent| - 1] == submit;
      }
    }
  }

  /** A stop warning is attached exactly when the query succeeded and the
      stop request then failed; every other outcome is the one the `try`
      block returned, so a failed stop never turns a success into a
      failure. */
  lemma WarningOnlyOnSuccess(input: ToolInput, authToken: Option<string>,
                             post: Request -> Result<PyValue, HttpFailure>, show: PyValue -> string)
    requires Validate(input, authToken).None?
    ensures var (outcome, requests) := Run(input, authToken, post, show);
      var t := TryBlock(input, BearerPrefix + authToken.value, post);
      && outcome.Succeeded? == t.outcome.Succeeded?
      && (!outcome.Succeeded? ==> outcome == t.outcome)
      && (outcome.Succeeded? ==>
            (outcome.warning.Some? <==>
               |requests| > |t.sent| && requests[|requests| - 1].endpoint == StopSession
               && post(requests[|requests| - 1]).Err?))
  {
    var bearer := BearerPrefix + authToken.value;
    TryBlockShape(input, bearer, post);
  }
}
