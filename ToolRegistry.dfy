/** The tool registry (AgentSynapse/tools/registry/toolRegistry.py): tool-id
    parsing, the local cache of tool definitions keyed "tenant:name:version",
    lookups with a public fallback, registration and deactivation, and the
    tool list of an agent. The DynamoDB table is an input: what each query
    returns, and whether a write fails. */
module ToolRegistry {
  import opened Values
  import opened Strings
  import Schemas
  import TV = ToolVersioning

  const ColonChar := ':'
  const DefaultVersion := "1.0.0"
  const Latest := "latest"
  const RegisterFailedPrefix := "Failed to register tool: "

  type ToolDefinition = Schemas.ToolDefinition

  // ---------------------------------------------------------------------
  // Tool ids

  /** `toolId.split(":")`: the name is the first field, the version the
      second, or "1.0.0" when there is no ":". */
  function ParseToolId(toolId: string): (string, string)
  {
    var parts := Split(toolId, ColonChar);
    (parts[0], if |parts| > 1 then parts[1] else DefaultVersion)
  }

  /** The name is the text before the first ":"; when there is one, the
      version is the text up to the next ":" or the end. */
  lemma ParseToolIdFields(name: string, version: string, rest: string)
    requires ColonChar !in name && ColonChar !in version
    ensures ParseToolId(name) == (name, DefaultVersion)
    ensures ParseToolId(name + [ColonChar] + version) == (name, version)
    ensures ParseToolId(name + [ColonChar] + version + [ColonChar] + rest) == (name, version)
  {
    SplitNoSeparator(name, ColonChar);
    SplitNoSeparator(version, ColonChar);
    SplitPrefix(name, version, ColonChar);
    SplitPrefix(version, rest, ColonChar);
    SplitPrefix(name, version + [ColonChar] + rest, ColonChar);
    assert name + [ColonChar] + version + [ColonChar] + rest == name + [ColonChar] + (version + [ColonChar] + rest);
  }

  /** The parsed name is a prefix of the id free of ":", followed by ":" or
      the end of the id. */
  lemma ParseToolIdName(toolId: string)
    ensures var name := ParseToolId(toolId).0;
      && name <= toolId && ColonChar !in name
      && (|name| < |toolId| ==> toolId[|name|] == ColonChar)
  {
    SplitFirst(toolId, ColonChar);
  }

  /** "latest" gives way to the resolved version when there is one. */
  function ResolveVersion(version: string, latest: Option<string>): (v: string)
    ensures version != Latest ==> v == version
    ensures version == Latest && Given(latest) ==> v == latest.value
    ensures version == Latest && !Given(latest) ==> v == Latest
  {
    if version == Latest && Given(latest) then latest.value else version
  }

  // ---------------------------------------------------------------------
  // Lookups

  /** The key of the local cache. */
  function LocalKey(tenantId: string, toolName: string, version: string): string
  {
    tenantId + [ColonChar] + toolName + [ColonChar] + version
  }

  /** The table as the registry sees it. A row that cannot be turned into a
      `ToolDefinition` is `None`; a failed query is `Err`. */
  datatype ToolTable = ToolTable(
    /** The key query for ("TENANT#" tenant, "TOOL#" name "#VERSION#" version). */
    tenantQuery: (string, string, string) -> Result<seq<Option<ToolDefinition>>, string>,
    /** The name-index query for (name, version) under its filter: public,
        that version, active. */
    publicQuery: (string, string) -> Result<seq<Option<ToolDefinition>>, string>,
    versions: TV.VersionTable)

  /** Every row decoded, or `None` when one of them does not decode. */
  function DecodeAll(rows: seq<Option<ToolDefinition>>): (r: Option<seq<ToolDefinition>>)
    ensures r.Some? <==> forall i :: 0 <= i < |rows| ==> rows[i].Some?
    ensures r.Some? ==> |r.value| == |rows| && forall i :: 0 <= i < |rows| ==> r.value[i] == rows[i].value
  {
    if rows == [] then Some([])
    else if rows[0].None? then None
    else
      var rest := DecodeAll(rows[1..]);
      assert forall i :: 1 <= i < |rows| ==> rows[i] == rows[1..][i - 1];
      if rest.None? then None else Some([rows[0].value] + rest.value)
  }

  /** `_getPublicTools`: the decoded rows, or none at all when the query or
      a decoding fails. */
  function PublicTools(rows: Result<seq<Option<ToolDefinition>>, string>): seq<ToolDefinition>
  {
    if rows.Err? then []
    else
      var decoded := DecodeAll(rows.value);
      if decoded.None? then [] else decoded.value
  }

  /** `get` for a concrete version: its result and the local cache after it. */
  function Lookup(cache: map<string, ToolDefinition>, tenantId: string, toolName: string, version: string,
                  table: ToolTable): (Result<ToolDefinition, Schemas.Error>, map<string, ToolDefinition>)
  {
    var key := LocalKey(tenantId, toolName, version);
    if key in cache then (Ok(cache[key]), cache)
    else
      var rows := table.tenantQuery(tenantId, toolName, version);
      if rows.Err? then (Err(Schemas.ToolNotFound(toolName)), cache)
      else if rows.value == [] then
        var found := PublicTools(table.publicQuery(toolName, version));
        if found != [] then (Ok(found[0]), cache)
        else (Err(Schemas.ToolNotFound(toolName + [ColonChar] + version)), cache)
      else if rows.value[0].None? then (Err(Schemas.ToolNotFound(toolName)), cache)
      else (Ok(rows.value[0].value), cache[key := rows.value[0].value])
  }

  /** A cache hit is answered without looking at the table. */
  lemma LookupHitIgnoresTable(cache: map<string, ToolDefinition>, tenantId: string, toolName: string,
                              version: string, t1: ToolTable, t2: ToolTable)
    requires LocalKey(tenantId, toolName, version) in cache
    ensures Lookup(cache, tenantId, toolName, version, t1) == Lookup(cache, tenantId, toolName, version, t2)
    ensures Lookup(cache, tenantId, toolName, version, t1).0 == Ok(cache[LocalKey(tenantId, toolName, version)])
  {
  }

  /** Only a tool read from the tenant's own rows is cached; the cache
      otherwise stays as it was, and every failure is `ToolNotFound`. */
  lemma LookupCaching(cache: map<string, ToolDefinition>, tenantId: string, toolName: string, version: string,
                      table: ToolTable)
    ensures var (r, after) := Lookup(cache, tenantId, toolName, version, table);
      var key := LocalKey(tenantId, toolName, version);
      && (after == cache || (key !in cache && r.Ok? && after == cache[key := r.value]))
      && (after != cache ==> table.tenantQuery(tenantId, toolName, version).Ok?
                             && table.tenantQuery(tenantId, toolName, version).value != [])
      && (r.Err? ==> r.error.ToolNotFound?)
  {
  }

  /** Once a lookup has cached its tool, asking again gives the same tool
      and leaves the cache alone, whatever the table says by then. */
  lemma LookupRepeat(cache: map<string, ToolDefinition>, tenantId: string, toolName: string, version: string,
                     table: ToolTable, later: ToolTable)
    ensures var (r, after) := Lookup(cache, tenantId, toolName, version, table);
      LocalKey(tenantId, toolName, version) in after ==>
        Lookup(after, tenantId, toolName, version, later) == (r, after)
  {
  }

  /** The tools a list of lookups returned, in order. */
  function Successes(outcomes: seq<Result<ToolDefinition, Schemas.Error>>): (tools: seq<ToolDefinition>)
    ensures |tools| <= |outcomes|
  {
    if outcomes == [] then []
    else
      var last := outcomes[|outcomes| - 1];
      Successes(outcomes[..|outcomes| - 1]) + if last.Ok? then [last.value] else []
  }

  /** Entries already cached stay cached with the same tool. */
  predicate Extends(after: map<string, ToolDefinition>, before: map<string, ToolDefinition>)
  {
    forall k :: k in before ==> k in after && after[k] == before[k]
  }

  // ---------------------------------------------------------------------
  // The registry's calls as functions of its caches

  /** The local tool cache together with the two version caches. */
  datatype Caches = Caches(
    local: map<string, ToolDefinition>,
    tenant: map<string, seq<TV.VersionItem>>,
    public: map<string, seq<TV.VersionItem>>)

  /** The caches after resolving "latest" for a name over tenant and public
      active versions. */
  function Resolved(c: Caches, toolName: string, tenantId: string, table: ToolTable): Caches
  {
    var (tenant, public) := TV.CachesAfter(c.tenant, c.public, toolName, tenantId, true, false, table.versions);
    c.(tenant := tenant, public := public)
  }

  /** `get` from the given caches: its answer and the caches after it.
      "latest" is resolved before the `try`, so a failed version query
      escapes as it is, and an unresolved "latest" is `ToolNotFound` of the
      name; a concrete version is looked up. */
  function GetFrom(c: Caches, toolName: string, tenantId: string, version: string, table: ToolTable)
    : (Result<ToolDefinition, Schemas.Error>, Caches)
  {
    if version != Latest then
      var (r, local) := Lookup(c.local, tenantId, toolName, version, table);
      (r, c.(local := local))
    else
      var latest := TV.LatestFor(c.tenant, c.public, toolName, tenantId, true, table.versions);
      var c' := Resolved(c, toolName, tenantId, table);
      if latest.Err? then (Err(latest.error), c')
      else if !Given(latest.value) then (Err(Schemas.ToolNotFound(toolName)), c')
      else
        var (r, local) := Lookup(c.local, tenantId, toolName, latest.value.value, table);
        (r, c'.(local := local))
  }

  /** A failure of `get` is `ToolNotFound`, except that a version query that
      failed while resolving "latest" escapes as the client's exception;
      the local cache only grows. */
  lemma GetFromOutcome(c: Caches, toolName: string, tenantId: string, version: string, table: ToolTable)
    ensures var (r, after) := GetFrom(c, toolName, tenantId, version, table);
      && (r.Err? ==> r.error.ToolNotFound? || (version == Latest && r.error.QueryFailed?))
      && (r.Err? && r.error.QueryFailed? ==>
            TV.LatestFor(c.tenant, c.public, toolName, tenantId, true, table.versions) == Err(r.error))
      && Extends(after.local, c.local)
  {
    if version != Latest {
      LookupCaching(c.local, tenantId, toolName, version, table);
    } else {
      TV.GatheredFails(c.tenant, c.public, toolName, tenantId, true, false, table.versions);
      var latest := TV.LatestFor(c.tenant, c.public, toolName, tenantId, true, table.versions);
      if latest.Ok? && Given(latest.value) {
        LookupCaching(c.local, tenantId, toolName, latest.value.value, table);
      }
    }
  }

  /** One round of `getToolsForAgent` from the given caches: the id parsed,
      "latest" resolved (a failed version query escapes), the resolved
      version, or "latest" again when none was found, handed to `get`. */
  function ToolFrom(c: Caches, toolId: string, tenantId: string, table: ToolTable)
    : (Result<ToolDefinition, Schemas.Error>, Caches)
  {
    var (name, version) := ParseToolId(toolId);
    if version != Latest then GetFrom(c, name, tenantId, version, table)
    else
      var latest := TV.LatestFor(c.tenant, c.public, name, tenantId, true, table.versions);
      var c' := Resolved(c, name, tenantId, table);
      if latest.Err? then (Err(latest.error), c')
      else GetFrom(c', name, tenantId, ResolveVersion(version, latest.value), table)
  }

  /** A round is the lookup of the parsed, resolved id: a concrete version is
      looked up as it is and leaves the version caches alone; a resolved
      "latest" is looked up at the version found; an unresolved one is
      `ToolNotFound` of the name, because `get` resolves it again from the
      caches the first resolution filled and finds nothing again; a failed
      resolution escapes. */
  lemma ToolFromLookup(c: Caches, toolId: string, tenantId: string, table: ToolTable)
    ensures var (name, version) := ParseToolId(toolId);
      var latest := TV.LatestFor(c.tenant, c.public, name, tenantId, true, table.versions);
      var c' := Resolved(c, name, tenantId, table);
      var (r, after) := ToolFrom(c, toolId, tenantId, table);
      && (version != Latest ==>
            (r, after.local) == Lookup(c.local, tenantId, name, version, table)
            && after.tenant == c.tenant && after.public == c.public)
      && (version == Latest && latest.Err? ==> r == Err(latest.error) && after == c')
      && (version == Latest && latest.Ok? && Given(latest.value) ==>
            (r, after.local) == Lookup(c.local, tenantId, name, latest.value.value, table)
            && after.tenant == c'.tenant && after.public == c'.public)
      && (version == Latest && latest.Ok? && !Given(latest.value) ==>
            r == Err(Schemas.ToolNotFound(name)) && after == c')
  {
    var (name, version) := ParseToolId(toolId);
    var latest := TV.LatestFor(c.tenant, c.public, name, tenantId, true, table.versions);
    if version != Latest {
      assert ToolFrom(c, toolId, tenantId, table) == GetFrom(c, name, tenantId, version, table);
    } else if latest.Ok? && Given(latest.value) {
      ResolvedLookup(c, name, tenantId, table);
    } else if latest.Ok? {
      UnresolvedAgain(c, name, tenantId, table);
    }
  }

  /** The version a resolution found is looked up as it is, and the version
      caches stay as the resolution left them; a stored version that reads
      "latest" is resolved once more, to itself. */
  lemma ResolvedLookup(c: Caches, name: string, tenantId: string, table: ToolTable)
    requires TV.LatestFor(c.tenant, c.public, name, tenantId, true, table.versions).Ok?
    requires Given(TV.LatestFor(c.tenant, c.public, name, tenantId, true, table.versions).value)
    ensures var found := TV.LatestFor(c.tenant, c.public, name, tenantId, true, table.versions).value.value;
      var c' := Resolved(c, name, tenantId, table);
      var (r, after) := GetFrom(c', name, tenantId, found, table);
      (r, after.local) == Lookup(c.local, tenantId, name, found, table)
      && after.tenant == c'.tenant && after.public == c'.public
  {
    TV.GatheredRepeat(c.tenant, c.public, name, tenantId, true, false, table.versions, table.versions);
  }

  /** Resolving "latest" again from the caches an unresolved resolution
      filled finds nothing again and changes no cache. */
  lemma UnresolvedAgain(c: Caches, name: string, tenantId: string, table: ToolTable)
    requires TV.LatestFor(c.tenant, c.public, name, tenantId, true, table.versions).Ok?
    requires !Given(TV.LatestFor(c.tenant, c.public, name, tenantId, true, table.versions).value)
    ensures GetFrom(Resolved(c, name, tenantId, table), name, tenantId, Latest, table)
         == (Err(Schemas.ToolNotFound(name)), Resolved(c, name, tenantId, table))
  {
    TV.GatheredRepeat(c.tenant, c.public, name, tenantId, true, false, table.versions, table.versions);
  }

  /** A concrete version whose tool was cached is answered from the cache,
      and no cache changes. */
  lemma ToolFromCached(c: Caches, toolId: string, tenantId: string, table: ToolTable)
    requires ParseToolId(toolId).1 != Latest
    requires LocalKey(tenantId, ParseToolId(toolId).0, ParseToolId(toolId).1) in c.local
    ensures ToolFrom(c, toolId, tenantId, table)
         == (Ok(c.local[LocalKey(tenantId, ParseToolId(toolId).0, ParseToolId(toolId).1)]), c)
  {
  }

  /** `getToolsForAgent` from the given caches: the outcome of each id, in
      order, and the caches after them. `ToolNotFound` is caught and the id
      dropped; any other exception ends the whole call. */
  function ToolsFrom(c: Caches, toolIds: seq<string>, tenantId: string, table: ToolTable)
    : (Result<seq<Result<ToolDefinition, Schemas.Error>>, Schemas.Error>, Caches)
  {
    if toolIds == [] then (Ok([]), c)
    else
      var (prefix, mid) := ToolsFrom(c, toolIds[..|toolIds| - 1], tenantId, table);
      if prefix.Err? then (prefix, mid)
      else
        var (r, after) := ToolFrom(mid, toolIds[|toolIds| - 1], tenantId, table);
        if r.Err? && !r.error.ToolNotFound? then (Err(r.error), after)
        else (Ok(prefix.value + [r]), after)
  }

  /** Once a prefix of the ids ended the call, the later ids change nothing. */
  lemma {:induction false} ToolsFromStops(c: Caches, toolIds: seq<string>, i: nat, tenantId: string, table: ToolTable)
    requires i <= |toolIds|
    requires ToolsFrom(c, toolIds[..i], tenantId, table).0.Err?
    ensures ToolsFrom(c, toolIds, tenantId, table) == ToolsFrom(c, toolIds[..i], tenantId, table)
    decreases |toolIds| - i
  {
    if i < |toolIds| {
      var next := toolIds[..i + 1];
      assert next[..i] == toolIds[..i];
      assert ToolsFrom(c, next, tenantId, table) == ToolsFrom(c, toolIds[..i], tenantId, table);
      ToolsFromStops(c, toolIds, i + 1, tenantId, table);
    } else {
      assert toolIds[..i] == toolIds;
    }
  }

  /** Every id has an outcome, in order, and each failed one is
      `ToolNotFound`; the call as a whole fails only with the exception of
      a failed version query; cached tools stay cached. */
  lemma {:induction false} ToolsFromOutcomes(c: Caches, toolIds: seq<string>, tenantId: string, table: ToolTable)
    ensures var (outcomes, after) := ToolsFrom(c, toolIds, tenantId, table);
      && (outcomes.Ok? ==> |outcomes.value| == |toolIds|)
      && (outcomes.Ok? ==> forall i :: 0 <= i < |toolIds| && outcomes.value[i].Err? ==>
                             outcomes.value[i].error.ToolNotFound?)
      && (outcomes.Err? ==> outcomes.error.QueryFailed?)
      && Extends(after.local, c.local)
  {
    if toolIds != [] {
      var init := toolIds[..|toolIds| - 1];
      ToolsFromOutcomes(c, init, tenantId, table);
      var (prefix, mid) := ToolsFrom(c, init, tenantId, table);
      if prefix.Ok? {
        var toolId := toolIds[|toolIds| - 1];
        var (name, version) := ParseToolId(toolId);
        var latest := TV.LatestFor(mid.tenant, mid.public, name, tenantId, true, table.versions);
        if version != Latest {
          GetFromOutcome(mid, name, tenantId, version, table);
        } else if latest.Ok? {
          GetFromOutcome(Resolved(mid, name, tenantId, table), name, tenantId, ResolveVersion(version, latest.value), table);
        } else {
          TV.GatheredFails(mid.tenant, mid.public, name, tenantId, true, false, table.versions);
        }
      }
    }
  }

  /** When every id names a concrete version whose tool is cached, the call
      is answered from the cache alone, in order, whatever the table holds,
      and no cache changes. */
  lemma {:induction false} ToolsFromAllCached(c: Caches, toolIds: seq<string>, tenantId: string, table: ToolTable)
    requires forall i :: 0 <= i < |toolIds| ==> ParseToolId(toolIds[i]).1 != Latest
    requires forall i :: 0 <= i < |toolIds| ==>
      LocalKey(tenantId, ParseToolId(toolIds[i]).0, ParseToolId(toolIds[i]).1) in c.local
    ensures var (outcomes, after) := ToolsFrom(c, toolIds, tenantId, table);
      && after == c && outcomes.Ok? && |outcomes.value| == |toolIds|
      && forall i :: 0 <= i < |toolIds| ==>
           outcomes.value[i] == Ok(c.local[LocalKey(tenantId, ParseToolId(toolIds[i]).0, ParseToolId(toolIds[i]).1)])
  {
    if toolIds != [] {
      var init := toolIds[..|toolIds| - 1];
      ToolsFromAllCached(c, init, tenantId, table);
      ToolFromCached(c, toolIds[|toolIds| - 1], tenantId, table);
    }
  }

  /** The tenant version cache after `register`'s availability check: an
      invalid version is refused before any lookup; otherwise the pair's
      rows, inactive included, are read through the cache and kept once read. */
  function CheckedCache(tenantCache: map<string, seq<TV.VersionItem>>, toolName: string, tenantId: string,
                        version: string, table: ToolTable): map<string, seq<TV.VersionItem>>
  {
    if !TV.ValidVersion(version) then tenantCache
    else
      var key := TV.CacheKey(tenantId, toolName);
      TV.Stored(tenantCache, key, TV.TenantLookup(tenantCache, key, true, table.versions.tenantPages(tenantId, toolName)))
  }

  /** The public version cache after invalidating a name: its entry goes
      when the name is non-empty. */
  function Dropped(publicCache: map<string, seq<TV.VersionItem>>, toolName: string): map<string, seq<TV.VersionItem>>
  {
    if toolName != "" then publicCache - {toolName} else publicCache
  }

  /** An id "name:latest" whose version query fails, with nothing cached to
      answer it, ends `getToolsForAgent` with the client's exception rather
      than dropping the id. */
  lemma LatestQueryFailureEscapes(c: Caches, name: string, tenantId: string, table: ToolTable)
    requires ColonChar !in name
    requires TV.CacheKey(tenantId, name) !in c.tenant
    requires table.versions.tenantPages(tenantId, name).Err?
    ensures ToolsFrom(c, [name + [ColonChar] + Latest], tenantId, table).0
         == Err(Schemas.QueryFailed(table.versions.tenantPages(tenantId, name).error))
  {
    ParseToolIdFields(name, Latest, "");
    var ids := [name + [ColonChar] + Latest];
    assert ids[..0] == [];
    TV.GatheredFails(c.tenant, c.public, name, tenantId, true, false, table.versions);
  }

  function RegisterFailed(message: string): Schemas.Error
  {
    Schemas.InvalidToolDefinition(RegisterFailedPrefix + message)
  }

  class Registry {
    var localCache: map<string, ToolDefinition>
    const versioning: TV.Versioning

    constructor (versioning: TV.Versioning)
      ensures localCache == map[] && this.versioning == versioning
    {
      localCache := map[];
      this.versioning := versioning;
    }

    /** The local cache and the version caches. */
    ghost function State(): Caches
      reads this, versioning
    {
      Caches(localCache, versioning.tenantCache, versioning.publicCache)
    }

    /** `get`: "latest" is resolved first, then the concrete version is
        looked up. */
    method Get(toolName: string, tenantId: string, version: string, table: ToolTable)
      returns (r: Result<ToolDefinition, Schemas.Error>)
      modifies this, versioning
      ensures (r, State()) == GetFrom(old(State()), toolName, tenantId, version, table)
    {
      var v := version;
      if version == Latest {
        var latest := versioning.GetLatestVersion(toolName, tenantId, true, table.versions);
        if latest.Err? {
          return Err(latest.error);
        }
        if !Given(latest.value) {
          return Err(Schemas.ToolNotFound(toolName));
        }
        v := latest.value.value;
      }
      var key := LocalKey(tenantId, toolName, v);
      if key in localCache {
        return Ok(localCache[key]);
      }
      var rows := table.tenantQuery(tenantId, toolName, v);
      if rows.Err? {
        return Err(Schemas.ToolNotFound(toolName));
      }
      if rows.value == [] {
        var found := PublicTools(table.publicQuery(toolName, v));
        if found != [] {
          return Ok(found[0]);
        }
        return Err(Schemas.ToolNotFound(toolName + [ColonChar] + v));
      }
      if rows.value[0].None? {
        return Err(Schemas.ToolNotFound(toolName));
      }
      var tool := rows.value[0].value;
      localCache := localCache[key := tool];
      r := Ok(tool);
    }

    /** `register`: the version must be available; the tool is cached only
        once the write succeeded, and then the version caches of the pair are
        invalidated. */
    method Register(tool: ToolDefinition, putError: Option<string>, table: ToolTable)
      returns (r: Result<string, Schemas.Error>)
      modifies this, versioning
      ensures var avail := TV.AvailableFrom(old(versioning.tenantCache), tool.name, tool.tenantId, tool.version,
                                            table.versions);
        && (avail.Err? ==> r == Err(avail.error) && localCache == old(localCache))
        && (avail.Ok? && putError.Some? ==> r == Err(RegisterFailed(putError.value)) && localCache == old(localCache))
        && (avail.Ok? && putError.None? ==>
              r == Ok(tool.id) && localCache == old(localCache)[LocalKey(tool.tenantId, tool.name, tool.version) := tool])
      ensures r.Ok? && (tool.tenantId != "" || tool.name != "") ==>
        TV.CacheKey(tool.tenantId, tool.name) !in versioning.tenantCache
      ensures r.Ok? && tool.name != "" ==> tool.name !in versioning.publicCache
      ensures var checked := CheckedCache(old(versioning.tenantCache), tool.name, tool.tenantId, tool.version, table);
        && (r.Err? ==> versioning.tenantCache == checked && versioning.publicCache == old(versioning.publicCache))
        && (r.Ok? ==> versioning.tenantCache == TV.Invalidated(checked, Some(tool.tenantId), Some(tool.name))
                      && versioning.publicCache == Dropped(old(versioning.publicCache), tool.name))
    {
      var avail := versioning.EnsureVersionAvailable(tool.name, tool.tenantId, tool.version, table.versions);
      if avail.Err? {
        return Err(avail.error);
      }
      if putError.Some? {
        return Err(RegisterFailed(putError.value));
      }
      localCache := localCache[LocalKey(tool.tenantId, tool.name, tool.version) := tool];
      versioning.InvalidateCache(Some(tool.tenantId), Some(tool.name));
      r := Ok(tool.id);
    }

    /** `deactivate`: "latest" resolves over tenant versions only and, when
        there is none, nothing happens; a failed version query escapes; a
        successful update evicts the cached tool and invalidates the version
        caches of the pair. */
    method Deactivate(toolName: string, tenantId: string, version: string, updateError: Option<string>,
                      table: ToolTable) returns (r: Result<bool, Schemas.Error>)
      modifies this, versioning
      ensures var latest := TV.LatestFor(old(versioning.tenantCache), old(versioning.publicCache), toolName, tenantId,
                                         false, table.versions);
        var resolved := version != Latest || (latest.Ok? && Given(latest.value));
        var v := if version == Latest && resolved then latest.value.value else version;
        && (version == Latest && latest.Err? ==> r == Err(latest.error))
        && (r.Ok? <==> version != Latest || latest.Ok?)
        && (r == Ok(true) <==> resolved && updateError.None?)
        && (r == Ok(true) ==> localCache == old(localCache) - {LocalKey(tenantId, toolName, v)})
        && (r != Ok(true) ==> localCache == old(localCache))
      ensures r == Ok(true) && (tenantId != "" || toolName != "") ==>
        TV.CacheKey(tenantId, toolName) !in versioning.tenantCache
      ensures var (tenant, public) := if version == Latest
          then TV.CachesAfter(old(versioning.tenantCache), old(versioning.publicCache), toolName, tenantId,
                              false, false, table.versions)
          else (old(versioning.tenantCache), old(versioning.publicCache));
        && public == old(versioning.publicCache)
        && (r != Ok(true) ==> versioning.tenantCache == tenant && versioning.publicCache == public)
        && (r == Ok(true) ==> versioning.tenantCache == TV.Invalidated(tenant, Some(tenantId), Some(toolName))
                              && versioning.publicCache == Dropped(public, toolName))
    {
      var v := version;
      if version == Latest {
        var latest := versioning.GetLatestVersion(toolName, tenantId, false, table.versions);
        if latest.Err? {
          return Err(latest.error);
        }
        if !Given(latest.value) {
          return Ok(false);
        }
        v := latest.value.value;
      }
      if updateError.Some? {
        return Ok(false);
      }
      var key := LocalKey(tenantId, toolName, v);
      if key in localCache {
        localCache := localCache - {key};
      }
      versioning.InvalidateCache(Some(tenantId), Some(toolName));
      r := Ok(true);
    }

    /** One round of `getToolsForAgent`: the id parsed, "latest" resolved
        when possible, then handed to `get`. */
    method ToolFor(toolId: string, tenantId: string, table: ToolTable) returns (r: Result<ToolDefinition, Schemas.Error>)
      modifies this, versioning
      ensures (r, State()) == ToolFrom(old(State()), toolId, tenantId, table)
    {
      var parsed := ParseToolId(toolId);
      var name := parsed.0;
      var version := parsed.1;
      if version == Latest {
        var resolved := versioning.GetLatestVersion(name, tenantId, true, table.versions);
        if resolved.Err? {
          return Err(resolved.error);
        }
        if Given(resolved.value) {
          version := resolved.value.value;
        }
      }
      r := Get(name, tenantId, version, table);
    }

    /** `getToolsForAgent`: one round per id, in order; an id whose lookup
        is `ToolNotFound` is dropped, and any other exception ends the call. */
    method GetToolsForAgent(toolIds: seq<string>, tenantId: string, table: ToolTable)
      returns (tools: Result<seq<ToolDefinition>, Schemas.Error>)
      modifies this, versioning
      ensures var (outcomes, after) := ToolsFrom(old(State()), toolIds, tenantId, table);
        && State() == after
        && tools == if outcomes.Err? then Err(outcomes.error) else Ok(Successes(outcomes.value))
    {
      var found := [];
      ghost var outcomes := [];
      for i := 0 to |toolIds|
        invariant ToolsFrom(old(State()), toolIds[..i], tenantId, table) == (Ok(outcomes), State())
        invariant found == Successes(outcomes)
      {
        assert toolIds[..i + 1][..i] == toolIds[..i];
        var r := ToolFor(toolIds[i], tenantId, table);
        if r.Err? && !r.error.ToolNotFound? {
          ToolsFromStops(old(State()), toolIds, i + 1, tenantId, table);
          return Err(r.error);
        }
        if r.Ok? {
          found := found + [r.value];
        }
        assert (outcomes + [r])[..|outcomes|] == outcomes;
        outcomes := outcomes + [r];
      }
      assert toolIds[..|toolIds|] == toolIds;
      tools := Ok(found);
    }

    /** `clearCache`: empties the local cache and the version caches. */
    method ClearCache()
      modifies this, versioning
      ensures localCache == map[]
      ensures versioning.tenantCache == map[] && versioning.publicCache == map[]
    {
      localCache := map[];
      versioning.ClearCache();
    }
  }
}
