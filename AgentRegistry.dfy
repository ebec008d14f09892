/** The agent registry (AgentSynapse/agents/registry/agentRegistry.py): agent
    configs kept as DynamoDB items under the keys "TENANT#<tenant>" and
    "AGENT#<id>", with a per-process cache keyed by "<tenant>:<id>". The
    table is foreign: the outcome of each store call is an input. */
module AgentRegistry {
  import opened Values
  import opened Schemas

  const TenantKeyPrefix := "TENANT#"
  const AgentKeyPrefix := "AGENT#"
  const CacheSeparator := ':'
  const SetKeyword := "SET "
  const NameMark := "#"
  const ValueMark := ":"
  const Assigns := " = :"
  const ClauseEnd := ", "
  const DefaultTimeoutSeconds := 300

  const PkField := "pk"
  const SkField := "sk"
  const IdField := "id"
  const NameField := "name"
  const TypeField := "type"
  const DescriptionField := "description"
  const SystemPromptField := "systemPrompt"
  const TemperatureField := "temperature"
  const MaxTokensField := "maxTokens"
  const ToolIdsField := "toolIds"
  const IsAsyncField := "isAsync"
  const TimeoutField := "timeoutSeconds"
  const CustomSettingsField := "customSettings"
  const TenantIdField := "tenantId"
  const UserIdField := "userId"
  const CreatedAtField := "createdAt"
  const UpdatedAtField := "updatedAt"

  /** A stored item: the attributes of one DynamoDB row by name. */
  type Item = map<string, PyValue>

  // ---------------------------------------------------------------------
  // _convertToDecimal

  /** The number a numeric value stands for (`True` counts as 1). */
  function NumberOf(v: PyValue): Option<real>
  {
    match v
    case PBool(b) => Some(if b then 1.0 else 0.0)
    case PInt(i) => Some(i as real)
    case PFloat(f) => Some(f)
    case PDecimal(d) => Some(d)
    case _ => None
  }

  /** `_convertToDecimal`: floats, ints and bools become `Decimal`, dicts and
      lists are converted element by element, everything else is kept. */
  function ToDecimal(v: PyValue): PyValue
  {
    match v
    case PFloat(f) => PDecimal(f)
    case PInt(i) => PDecimal(i as real)
    case PBool(b) => PDecimal(if b then 1.0 else 0.0)
    case PDict(entries) =>
      PDict(seq(|entries|, i requires 0 <= i < |entries| => (entries[i].0, ToDecimal(entries[i].1))))
    case PList(items) =>
      PList(seq(|items|, i requires 0 <= i < |items| => ToDecimal(items[i])))
    case _ => v
  }

  /** No float, int or bool anywhere inside: what the table accepts. */
  predicate DecimalOnly(v: PyValue)
  {
    match v
    case PFloat(_) => false
    case PInt(_) => false
    case PBool(_) => false
    case PDict(entries) => forall i :: 0 <= i < |entries| ==> DecimalOnly(entries[i].1)
    case PList(items) => forall i :: 0 <= i < |items| ==> DecimalOnly(items[i])
    case _ => true
  }

  /** `a` has the shape of `b`: the same dict keys in the same order, the same
      list lengths, numbers of the same value and every other leaf equal. */
  predicate Mirrors(a: PyValue, b: PyValue)
  {
    match b
    case PDict(entries) =>
      a.PDict? && |a.entries| == |entries|
      && forall i :: 0 <= i < |entries| ==> a.entries[i].0 == entries[i].0 && Mirrors(a.entries[i].1, entries[i].1)
    case PList(items) =>
      a.PList? && |a.items| == |items|
      && forall i :: 0 <= i < |items| ==> Mirrors(a.items[i], items[i])
    case _ =>
      if NumberOf(b).Some? then NumberOf(a) == NumberOf(b) else a == b
  }

  /** The conversion leaves nothing the table would refuse. */
  lemma {:induction false} ToDecimalDecimalOnly(v: PyValue)
    ensures DecimalOnly(ToDecimal(v))
  {
    match v
    case PDict(entries) =>
      forall i | 0 <= i < |entries| ensures DecimalOnly(ToDecimal(v).entries[i].1) {
        ToDecimalDecimalOnly(entries[i].1);
      }
    case PList(items) =>
      forall i | 0 <= i < |items| ensures DecimalOnly(ToDecimal(v).items[i]) {
        ToDecimalDecimalOnly(items[i]);
      }
    case _ =>
  }

  /** The conversion keeps every key, every length and every value. */
  lemma {:induction false} ToDecimalMirrors(v: PyValue)
    ensures Mirrors(ToDecimal(v), v)
  {
    match v
    case PDict(entries) =>
      forall i | 0 <= i < |entries| ensures Mirrors(ToDecimal(v).entries[i].1, entries[i].1) {
        ToDecimalMirrors(entries[i].1);
      }
    case PList(items) =>
      forall i | 0 <= i < |items| ensures Mirrors(ToDecimal(v).items[i], items[i]) {
        ToDecimalMirrors(items[i]);
      }
    case _ =>
  }

  /** A value the table already accepts is left as it is, so converting
      twice is converting once. */
  lemma {:induction false} ToDecimalKeeps(v: PyValue)
    requires DecimalOnly(v)
    ensures ToDecimal(v) == v
  {
    match v
    case PDict(entries) =>
      forall i | 0 <= i < |entries| ensures ToDecimal(v).entries[i] == entries[i] {
        ToDecimalKeeps(entries[i].1);
      }
      assert ToDecimal(v).entries == entries;
    case PList(items) =>
      forall i | 0 <= i < |items| ensures ToDecimal(v).items[i] == items[i] {
        ToDecimalKeeps(items[i]);
      }
      assert ToDecimal(v).items == items;
    case _ =>
  }

  lemma ToDecimalIdempotent(v: PyValue)
    ensures ToDecimal(ToDecimal(v)) == ToDecimal(v)
  {
    ToDecimalDecimalOnly(v);
    ToDecimalKeeps(ToDecimal(v));
  }

  // ---------------------------------------------------------------------
  // Keys

  function PartitionKey(tenantId: string): string
  {
    TenantKeyPrefix + tenantId
  }

  function SortKey(agentId: string): string
  {
    AgentKeyPrefix + agentId
  }

  function CacheKey(tenantId: string, agentId: string): string
  {
    tenantId + [CacheSeparator] + agentId
  }

  /** The store keys name one tenant and one agent each. */
  lemma StoreKeysInjective(t1: string, a1: string, t2: string, a2: string)
    ensures PartitionKey(t1) == PartitionKey(t2) <==> t1 == t2
    ensures SortKey(a1) == SortKey(a2) <==> a1 == a2
  {
    assert PartitionKey(t1)[|TenantKeyPrefix|..] == t1 && PartitionKey(t2)[|TenantKeyPrefix|..] == t2;
    assert SortKey(a1)[|AgentKeyPrefix|..] == a1 && SortKey(a2)[|AgentKeyPrefix|..] == a2;
  }

  /** While tenant ids hold no ":", a cache key names one tenant and one agent. */
  lemma CacheKeyInjective(t1: string, a1: string, t2: string, a2: string)
    requires CacheSeparator !in t1 && CacheSeparator !in t2
    ensures CacheKey(t1, a1) == CacheKey(t2, a2) <==> t1 == t2 && a1 == a2
  {
    var k1, k2 := CacheKey(t1, a1), CacheKey(t2, a2);
    SeparatorAfterTenant(t1, a1);
    SeparatorAfterTenant(t2, a2);
    if k1 == k2 {
      assert |t1| == |t2|;
      assert t1 == k1[..|t1|] && t2 == k2[..|t2|];
      assert a1 == k1[|t1| + 1..] && a2 == k2[|t2| + 1..];
    }
  }

  /** The position of the first ":" in a sequence, or its length. */
  function SeparatorIndex(s: string): (r: nat)
    ensures r <= |s|
  {
    if s == [] || s[0] == CacheSeparator then 0 else 1 + SeparatorIndex(s[1..])
  }

  /** In a cache key the first ":" is the one after a ':'-free tenant id. */
  lemma {:induction false} SeparatorAfterTenant(t: string, a: string)
    requires CacheSeparator !in t
    ensures SeparatorIndex(CacheKey(t, a)) == |t|
  {
    if t != [] {
      assert CacheKey(t, a)[1..] == CacheKey(t[1..], a);
      SeparatorAfterTenant(t[1..], a);
    }
  }

  /** With a ":" in a tenant id two tenants share a cache key. */
  lemma CacheKeyCollision()
    ensures CacheKey("a:b", "c") == CacheKey("a", "b:c")
  {
  }

  // ---------------------------------------------------------------------
  // Items

  /** A list of strings as stored. */
  function StrList(xs: seq<string>): PyValue
  {
    PList(seq(|xs|, i requires 0 <= i < |xs| => PStr(xs[i])))
  }

  /** The item `register` writes. */
  function ItemOf(agent: AgentConfig): Item
  {
    map[PkField := PStr(PartitionKey(agent.tenant.tenantId)),
      SkField := PStr(SortKey(agent.id)),
      IdField := PStr(agent.id),
      NameField := PStr(agent.name),
      TypeField := PStr(agent.agentType.Value()),
      DescriptionField := PStr(agent.description),
      SystemPromptField := PStr(agent.systemPrompt),
      TemperatureField := PDecimal(agent.temperature),
      MaxTokensField := PDecimal(agent.maxTokens as real),
      ToolIdsField := StrList(agent.toolIds),
      IsAsyncField := PBool(agent.isAsync),
      TimeoutField := PDecimal(agent.timeoutSeconds as real),
      CustomSettingsField := ToDecimal(PDict(agent.customSettings)),
      TenantIdField := PStr(agent.tenant.tenantId),
      UserIdField := PStr(agent.tenant.userId),
      CreatedAtField := PStr(agent.createdAt),
      UpdatedAtField := PStr(agent.updatedAt)]
  }

  /** `item.get(key)`. */
  function Lookup(item: Item, key: string): Option<PyValue>
  {
    if key in item then Some(item[key]) else None
  }

  /** `item.get(key, default)`. */
  function GetOr(item: Item, key: string, default: PyValue): PyValue
  {
    if key in item then item[key] else default
  }

  function TextOf(v: Option<PyValue>): Option<string>
  {
    if v.Some? && v.value.PStr? then Some(v.value.s) else None
  }

  /** `int(x)` of a number: truncation toward zero. */
  function Truncate(x: real): int
  {
    if x >= 0.0 then x.Floor else -((-x).Floor)
  }

  function IntOf(v: Option<PyValue>): Option<int>
  {
    if v.Some? && NumberOf(v.value).Some? then Some(Truncate(NumberOf(v.value).value)) else None
  }

  function TextsOf(v: PyValue): Option<seq<string>>
  {
    if v.PList? && forall i :: 0 <= i < |v.items| ==> v.items[i].PStr? then
      Some(seq(|v.items|, i requires 0 <= i < |v.items| && v.items[i].PStr? => v.items[i].s))
    else None
  }

  /** A stored list of strings reads back as those strings. */
  lemma TextsOfStrings(xs: seq<string>)
    ensures TextsOf(StrList(xs)) == Some(xs)
  {
    var items := StrList(xs).items;
    var back := seq(|items|, i requires 0 <= i < |items| && items[i].PStr? => items[i].s);
    assert back == xs;
  }

  /** `_itemToAgentConfig`: the config an item holds, for the tenant asking;
      `None` where the conversion raises. */
  function ItemToConfig(item: Item, tenant: TenantContext): Option<AgentConfig>
  {
    var id := TextOf(Lookup(item, IdField));
    var name := TextOf(Lookup(item, NameField));
    var typeName := TextOf(Lookup(item, TypeField));
    var agentType := if typeName.Some? then ParseAgentType(typeName.value) else None;
    var description := TextOf(Lookup(item, DescriptionField));
    var systemPrompt := TextOf(Lookup(item, SystemPromptField));
    var temperature := Lookup(item, TemperatureField);
    var maxTokens := IntOf(Lookup(item, MaxTokensField));
    var toolIds := TextsOf(GetOr(item, ToolIdsField, PList([])));
    var isAsync := GetOr(item, IsAsyncField, PBool(false));
    var timeout := IntOf(Some(GetOr(item, TimeoutField, PInt(DefaultTimeoutSeconds))));
    var custom := GetOr(item, CustomSettingsField, PDict([]));
    var createdAt := TextOf(Lookup(item, CreatedAtField));
    var updatedAt := TextOf(Lookup(item, UpdatedAtField));
    if && id.Some? && name.Some? && agentType.Some? && description.Some? && systemPrompt.Some?
       && temperature.Some? && NumberOf(temperature.value).Some? && maxTokens.Some? && toolIds.Some?
       && isAsync.PBool? && timeout.Some? && custom.PDict? && createdAt.Some? && updatedAt.Some?
    then
      Some(AgentConfig(id.value, name.value, agentType.value, description.value, systemPrompt.value,
                       NumberOf(temperature.value).value, maxTokens.value, toolIds.value, tenant,
                       isAsync.b, timeout.value, custom.entries, createdAt.value, updatedAt.value))
    else None
  }

  /** The config a store read gives back for `agent`: its custom settings
      converted to `Decimal` and the reader's tenant. */
  function Reread(agent: AgentConfig, tenant: TenantContext): AgentConfig
  {
    agent.(customSettings := ToDecimal(PDict(agent.customSettings)).entries, tenant := tenant)
  }

  lemma TruncateInt(n: int)
    ensures Truncate(n as real) == n
  {
  }

  /** The text fields of a written item. */
  lemma ItemTexts(agent: AgentConfig)
    ensures var item := ItemOf(agent);
      && TextOf(Lookup(item, IdField)) == Some(agent.id)
      && TextOf(Lookup(item, NameField)) == Some(agent.name)
      && TextOf(Lookup(item, TypeField)) == Some(agent.agentType.Value())
      && TextOf(Lookup(item, DescriptionField)) == Some(agent.description)
      && TextOf(Lookup(item, SystemPromptField)) == Some(agent.systemPrompt)
      && TextOf(Lookup(item, CreatedAtField)) == Some(agent.createdAt)
      && TextOf(Lookup(item, UpdatedAtField)) == Some(agent.updatedAt)
  {
  }

  /** The other fields of a written item. */
  lemma ItemValues(agent: AgentConfig)
    ensures var item := ItemOf(agent);
      && Lookup(item, TemperatureField) == Some(PDecimal(agent.temperature))
      && Lookup(item, MaxTokensField) == Some(PDecimal(agent.maxTokens as real))
      && GetOr(item, ToolIdsField, PList([])) == StrList(agent.toolIds)
      && GetOr(item, IsAsyncField, PBool(false)) == PBool(agent.isAsync)
      && GetOr(item, TimeoutField, PInt(DefaultTimeoutSeconds)) == PDecimal(agent.timeoutSeconds as real)
      && GetOr(item, CustomSettingsField, PDict([])) == ToDecimal(PDict(agent.customSettings))
  {
  }

  /** Reading back a written item gives the agent with its custom settings
      converted, for the tenant that reads it. */
  lemma {:induction false} ItemRoundTrip(agent: AgentConfig, tenant: TenantContext)
    ensures ItemToConfig(ItemOf(agent), tenant) == Some(Reread(agent, tenant))
  {
    ItemTexts(agent);
    ItemValues(agent);
    ParseAgentTypeValue(agent.agentType);
    TruncateInt(agent.maxTokens);
    TruncateInt(agent.timeoutSeconds);
    TextsOfStrings(agent.toolIds);
  }

  // ---------------------------------------------------------------------
  // get

  /** `get`: the cached config, else the stored item for the tenant and id.
      `getItem(pk, sk)` is the store's answer: the item, `None` when there is
      none, or the error raised. Every failure is `AgentNotFound`. */
  function Fetch(cache: map<string, AgentConfig>, agentId: string, tenant: TenantContext,
                 getItem: (string, string) -> Result<Option<Item>, string>)
    : (Result<AgentConfig, Error>, map<string, AgentConfig>)
  {
    var key := CacheKey(tenant.tenantId, agentId);
    if key in cache then (Ok(cache[key]), cache)
    else
      var response := getItem(PartitionKey(tenant.tenantId), SortKey(agentId));
      var agent := if response.Ok? && response.value.Some? then ItemToConfig(response.value.value, tenant) else None;
      if agent.None? then (Err(AgentNotFound(agentId)), cache)
      else (Ok(agent.value), cache[key := agent.value])
  }

  /** Every failure names the agent, leaves the cache alone and happens only
      on a miss; every success leaves the answer cached under its key. */
  lemma FetchOutcome(cache: map<string, AgentConfig>, agentId: string, tenant: TenantContext,
                     getItem: (string, string) -> Result<Option<Item>, string>)
    ensures var (r, after) := Fetch(cache, agentId, tenant, getItem);
      var key := CacheKey(tenant.tenantId, agentId);
      && (r.Err? ==> r.error == AgentNotFound(agentId) && after == cache && key !in cache)
      && (r.Ok? ==> key in after && after[key] == r.value && after - {key} == cache - {key})
  {
  }

  /** Once an answer is cached, asking again gives it back whatever the
      store now holds. */
  lemma FetchRepeat(cache: map<string, AgentConfig>, agentId: string, tenant: TenantContext,
                    getItem: (string, string) -> Result<Option<Item>, string>,
                    later: (string, string) -> Result<Option<Item>, string>)
    ensures var (r, after) := Fetch(cache, agentId, tenant, getItem);
      r.Ok? ==> Fetch(after, agentId, tenant, later) == (r, after)
  {
  }

  /** A config cached for one tenant is never served to another, as long as
      tenant ids hold no ":". */
  lemma FetchIsolated(cache: map<string, AgentConfig>, agentId: string, tenant: TenantContext,
                      getItem: (string, string) -> Result<Option<Item>, string>,
                      otherTenant: string, otherId: string, other: AgentConfig)
    requires CacheSeparator !in tenant.tenantId && CacheSeparator !in otherTenant
    requires otherTenant != tenant.tenantId
    ensures Fetch(cache[CacheKey(otherTenant, otherId) := other], agentId, tenant, getItem).0
         == Fetch(cache, agentId, tenant, getItem).0
  {
    CacheKeyInjective(otherTenant, otherId, tenant.tenantId, agentId);
  }

  /** An agent read from a store holding its item is the agent as written,
      converted, with the reader's tenant. */
  lemma FetchStored(agentId: string, tenant: TenantContext, agent: AgentConfig,
                    getItem: (string, string) -> Result<Option<Item>, string>)
    requires getItem(PartitionKey(tenant.tenantId), SortKey(agentId)) == Ok(Some(ItemOf(agent)))
    ensures Fetch(map[], agentId, tenant, getItem).0 == Ok(Reread(agent, tenant))
  {
    ItemRoundTrip(agent, tenant);
  }

  // ---------------------------------------------------------------------
  // getByType and list

  function IsOfType(item: Item, t: AgentType): bool
  {
    Lookup(item, TypeField) == Some(PStr(t.Value()))
  }

  /** The items whose "type" attribute is the type's value, in order. */
  function OfType(items: seq<Item>, t: AgentType): (r: seq<Item>)
    ensures forall x :: x in r <==> x in items && IsOfType(x, t)
    ensures |r| <= |items|
  {
    if items == [] then []
    else (if IsOfType(items[0], t) then [items[0]] else []) + OfType(items[1..], t)
  }

  /** The first item of a sequence, decoded. */
  function FirstConfig(items: seq<Item>, tenant: TenantContext): Option<AgentConfig>
  {
    if items == [] then None else ItemToConfig(items[0], tenant)
  }

  /** `getByType` as written: with `Limit=1` the store reads only the
      partition's first item and the type filter is applied to it alone.
      `partition` is the query's answer without limit or filter. */
  function ByTypeAsWritten(partition: Result<seq<Item>, string>, t: AgentType, tenant: TenantContext): Option<AgentConfig>
  {
    if partition.Err? then None
    else FirstConfig(OfType(partition.value[..if |partition.value| == 0 then 0 else 1], t), tenant)
  }

  /** `getByType` as intended: the first item of the type, decoded; `None`
      when there is none or on any failure. */
  function ByType(partition: Result<seq<Item>, string>, t: AgentType, tenant: TenantContext): Option<AgentConfig>
  {
    if partition.Err? then None else FirstConfig(OfType(partition.value, t), tenant)
  }

  /** Filtering keeps the first item of the type in front. */
  lemma {:induction false} OfTypeFirst(items: seq<Item>, t: AgentType, i: nat)
    requires i < |items| && IsOfType(items[i], t)
    requires forall j :: 0 <= j < i ==> !IsOfType(items[j], t)
    ensures OfType(items, t) != [] && OfType(items, t)[0] == items[i]
  {
    if i > 0 {
      assert !IsOfType(items[0], t);
      assert OfType(items, t) == OfType(items[1..], t);
      forall j | 0 <= j < i - 1 ensures !IsOfType(items[1..][j], t) {
        assert items[1..][j] == items[j + 1];
      }
      OfTypeFirst(items[1..], t, i - 1);
    }
  }

  /** The first item of the type is found wherever it sits, nothing is found
      when there is none, and only an agent of that type is returned. */
  lemma ByTypeFinds(items: seq<Item>, t: AgentType, tenant: TenantContext)
    ensures var r := ByType(Ok(items), t, tenant);
      && (r.Some? ==> r.value.agentType == t && r.value.tenant == tenant)
      && (forall i :: 0 <= i < |items| && IsOfType(items[i], t) && (forall j :: 0 <= j < i ==> !IsOfType(items[j], t))
            ==> r == ItemToConfig(items[i], tenant))
      && ((forall i :: 0 <= i < |items| ==> !IsOfType(items[i], t)) ==> r == None)
  {
    var r := ByType(Ok(items), t, tenant);
    forall i | 0 <= i < |items| && IsOfType(items[i], t) && (forall j :: 0 <= j < i ==> !IsOfType(items[j], t))
      ensures r == ItemToConfig(items[i], tenant)
    {
      OfTypeFirst(items, t, i);
    }
    if r.Some? {
      var first := OfType(items, t)[0];
      assert first in OfType(items, t);
      DecodedType(first, t, tenant);
    }
    if forall i :: 0 <= i < |items| ==> !IsOfType(items[i], t) {
      if OfType(items, t) != [] {
        assert OfType(items, t)[0] in items;
      }
    }
  }

  /** As written, an agent of the type behind any agent of another type is
      never found: the intended lookup returns it, the written one nothing. */
  lemma LimitBeforeFilterMisses(first: AgentConfig, second: AgentConfig, tenant: TenantContext)
    requires first.agentType != second.agentType
    ensures ByTypeAsWritten(Ok([ItemOf(first), ItemOf(second)]), second.agentType, tenant) == None
    ensures ByType(Ok([ItemOf(first), ItemOf(second)]), second.agentType, tenant) == Some(Reread(second, tenant))
  {
    var items := [ItemOf(first), ItemOf(second)];
    var t := second.agentType;
    assert first.agentType.Value() != t.Value();
    assert !IsOfType(items[0], t) && IsOfType(items[1], t);
    assert items[..1] == [items[0]];
    assert OfType(items[..1], t) == [];
    assert OfType(items, t) == [ItemOf(second)];
    ItemRoundTrip(second, tenant);
  }

  /** Every element present, or `None` when one is missing. */
  function AllPresent(decoded: seq<Option<AgentConfig>>): (r: Option<seq<AgentConfig>>)
    ensures r.Some? <==> forall i :: 0 <= i < |decoded| ==> decoded[i].Some?
    ensures r.Some? ==> |r.value| == |decoded| && forall i :: 0 <= i < |decoded| ==> Some(r.value[i]) == decoded[i]
  {
    if forall i :: 0 <= i < |decoded| ==> decoded[i].Some? then
      Some(seq(|decoded|, i requires 0 <= i < |decoded| => decoded[i].value))
    else None
  }

  /** Every item decoded, or `None` as soon as one fails. */
  function ConfigsOf(items: seq<Item>, tenant: TenantContext): (r: Option<seq<AgentConfig>>)
    ensures r.Some? ==> |r.value| == |items|
    ensures r.Some? <==> forall i :: 0 <= i < |items| ==> ItemToConfig(items[i], tenant).Some?
    ensures r.Some? ==> forall i :: 0 <= i < |items| ==> Some(r.value[i]) == ItemToConfig(items[i], tenant)
  {
    var decoded := seq(|items|, i requires 0 <= i < |items| => ItemToConfig(items[i], tenant));
    assert forall i :: 0 <= i < |items| ==> decoded[i] == ItemToConfig(items[i], tenant);
    AllPresent(decoded)
  }

  /** An item of a type decodes, if at all, to an agent of that type. */
  lemma DecodedType(item: Item, t: AgentType, tenant: TenantContext)
    requires IsOfType(item, t) && ItemToConfig(item, tenant).Some?
    ensures ItemToConfig(item, tenant).value.agentType == t
    ensures ItemToConfig(item, tenant).value.tenant == tenant
  {
    ParseAgentTypeValue(t);
  }

  /** `list`: the tenant's agents, of one type when a type is given; an empty
      list on any failure, one undecodable item included. */
  function List(partition: Result<seq<Item>, string>, agentType: Option<AgentType>, tenant: TenantContext)
    : (r: seq<AgentConfig>)
    ensures agentType.Some? ==> forall a :: a in r ==> a.agentType == agentType.value
    ensures forall a :: a in r ==> a.tenant == tenant
    ensures partition.Ok? && agentType.None? && ConfigsOf(partition.value, tenant).Some? ==> |r| == |partition.value|
  {
    if partition.Err? then []
    else
      var items := if agentType.Some? then OfType(partition.value, agentType.value) else partition.value;
      var configs := ConfigsOf(items, tenant);
      if configs.None? then []
      else
        assert agentType.Some? ==> forall i :: 0 <= i < |items| ==> configs.value[i].agentType == agentType.value by {
          if agentType.Some? {
            forall i | 0 <= i < |items| ensures configs.value[i].agentType == agentType.value {
              assert items[i] in OfType(partition.value, agentType.value);
              DecodedType(items[i], agentType.value, tenant);
            }
          }
        }
        configs.value
  }

  // ---------------------------------------------------------------------
  // update

  function Clause(key: string): string
  {
    NameMark + key + Assigns + key + ClauseEnd
  }

  /** The "#k = :k, " clauses of the updates, in order. */
  function Clauses(updates: seq<(string, PyValue)>): string
  {
    if updates == [] then "" else Clauses(updates[..|updates| - 1]) + Clause(updates[|updates| - 1].0)
  }

  /** The "#k" placeholders of the updates. */
  function NamesOf(updates: seq<(string, PyValue)>): map<string, string>
  {
    if updates == [] then map[]
    else NamesOf(updates[..|updates| - 1])[NameMark + updates[|updates| - 1].0 := updates[|updates| - 1].0]
  }

  /** The ":k" placeholders of the updates with the converted values. */
  function ValuesOf(updates: seq<(string, PyValue)>): map<string, PyValue>
  {
    if updates == [] then map[]
    else ValuesOf(updates[..|updates| - 1])[ValueMark + updates[|updates| - 1].0 := ToDecimal(updates[|updates| - 1].1)]
  }

  /** The update request `update` sends. */
  datatype UpdateRequest = UpdateRequest(
    pk: string, sk: string, expression: string,
    names: map<string, string>, values: map<string, PyValue>)

  function FinalClause(): string
  {
    NameMark + UpdatedAtField + Assigns + UpdatedAtField
  }

  /** The expression, names and values of `update`, from the updates (an
      ordered dict given as its entries) and the clock reading `now`. */
  method BuildUpdate(updates: seq<(string, PyValue)>, now: string)
      returns (expression: string, names: map<string, string>, values: map<string, PyValue>)
    ensures expression == SetKeyword + Clauses(updates) + FinalClause()
    ensures names == NamesOf(updates)[NameMark + UpdatedAtField := UpdatedAtField]
    ensures values == ValuesOf(updates)[ValueMark + UpdatedAtField := PStr(now)]
  {
    expression := SetKeyword;
    names := map[];
    values := map[];
    for i := 0 to |updates|
      invariant expression == SetKeyword + Clauses(updates[..i])
      invariant names == NamesOf(updates[..i])
      invariant values == ValuesOf(updates[..i])
    {
      var (key, value) := updates[i];
      assert updates[..i + 1][..i] == updates[..i];
      expression := expression + Clause(key);
      names := names[NameMark + key := key];
      values := values[ValueMark + key := ToDecimal(value)];
    }
    assert updates[..|updates|] == updates;
    expression := expression + FinalClause();
    names := names[NameMark + UpdatedAtField := UpdatedAtField];
    values := values[ValueMark + UpdatedAtField := PStr(now)];
  }

  /** Prefixing with the same mark keeps strings apart. */
  lemma PrefixCancel(mark: string, a: string, b: string)
    ensures mark + a == mark + b <==> a == b
  {
    if mark + a == mark + b {
      assert a == (mark + a)[|mark|..] && b == (mark + b)[|mark|..];
    }
  }

  lemma ClausesSnoc(pre: seq<(string, PyValue)>, u: (string, PyValue))
    ensures Clauses(pre + [u]) == Clauses(pre) + Clause(u.0)
  {
    assert (pre + [u])[..|pre|] == pre;
  }

  /** Clauses of a concatenation. */
  lemma {:induction false} ClausesAppend(a: seq<(string, PyValue)>, b: seq<(string, PyValue)>)
    ensures Clauses(a + b) == Clauses(a) + Clauses(b)
    decreases |b|
  {
    if b != [] {
      var last := b[|b| - 1];
      assert (a + b)[..|a + b| - 1] == a + b[..|b| - 1];
      ClausesAppend(a, b[..|b| - 1]);
    } else {
      assert a + b == a;
    }
  }

  /** The i-th update's clause follows the clauses of the updates before it. */
  lemma {:induction false} ClauseInPlace(updates: seq<(string, PyValue)>, i: nat)
    requires i < |updates|
    ensures Clauses(updates) == Clauses(updates[..i]) + Clause(updates[i].0) + Clauses(updates[i + 1..])
  {
    var front := updates[..i + 1];
    assert front == updates[..i] + [updates[i]];
    ClausesSnoc(updates[..i], updates[i]);
    assert updates == front + updates[i + 1..];
    ClausesAppend(front, updates[i + 1..]);
  }

  /** Every updated field has its "#" placeholder and every placeholder
      names the field it stands for. */
  lemma {:induction false} NamesOfResolve(updates: seq<(string, PyValue)>)
    ensures forall k :: NameMark + k in NamesOf(updates) <==> exists i :: 0 <= i < |updates| && updates[i].0 == k
    ensures forall n :: n in NamesOf(updates) ==> n == NameMark + NamesOf(updates)[n]
  {
    if updates != [] {
      var pre := updates[..|updates| - 1];
      NamesOfResolve(pre);
      forall k ensures NameMark + k in NamesOf(updates) <==> exists i :: 0 <= i < |updates| && updates[i].0 == k {
        if NameMark + k == NameMark + updates[|updates| - 1].0 {
          assert (NameMark + k)[1..] == k;
        }
        if exists i :: 0 <= i < |pre| && pre[i].0 == k {
          var i :| 0 <= i < |pre| && pre[i].0 == k;
          assert updates[i].0 == k;
        }
        if exists i :: 0 <= i < |updates| && updates[i].0 == k {
          var i :| 0 <= i < |updates| && updates[i].0 == k;
          if i < |pre| { assert pre[i].0 == k; }
        }
      }
    }
  }

  /** Every updated field has its ":" placeholder. */
  lemma {:induction false} ValuesOfKeys(updates: seq<(string, PyValue)>)
    ensures forall k :: ValueMark + k in ValuesOf(updates) <==> exists i :: 0 <= i < |updates| && updates[i].0 == k
  {
    if updates != [] {
      var pre := updates[..|updates| - 1];
      var last := updates[|updates| - 1];
      ValuesOfKeys(pre);
      forall k ensures ValueMark + k in ValuesOf(updates) <==> exists i :: 0 <= i < |updates| && updates[i].0 == k {
        if ValueMark + k == ValueMark + last.0 {
          assert (ValueMark + k)[1..] == k;
        }
        if exists i :: 0 <= i < |pre| && pre[i].0 == k {
          var i :| 0 <= i < |pre| && pre[i].0 == k;
          assert updates[i].0 == k;
        }
        if exists i :: 0 <= i < |updates| && updates[i].0 == k {
          var i :| 0 <= i < |updates| && updates[i].0 == k;
          if i < |pre| { assert pre[i].0 == k; }
        }
      }
    }
  }

  /** A ":" placeholder holds the converted value of the field's last
      occurrence. */
  lemma {:induction false} ValuesOfLast(updates: seq<(string, PyValue)>, i: nat)
    requires i < |updates|
    requires forall j :: i < j < |updates| ==> updates[j].0 != updates[i].0
    ensures ValueMark + updates[i].0 in ValuesOf(updates)
    ensures ValuesOf(updates)[ValueMark + updates[i].0] == ToDecimal(updates[i].1)
  {
    var pre := updates[..|updates| - 1];
    var last := updates[|updates| - 1];
    if i < |pre| {
      assert pre[i] == updates[i];
      forall j | i < j < |pre| ensures pre[j].0 != pre[i].0 {
        assert pre[j] == updates[j];
      }
      ValuesOfLast(pre, i);
      assert last.0 != updates[i].0;
      PrefixCancel(ValueMark, last.0, updates[i].0);
    }
  }

  /** The request `update` sends: every field placeholder of the expression
      is declared with its field, every value placeholder with the converted
      value, and "updatedAt" is always set to the clock reading. */
  lemma UpdateRequestResolves(updates: seq<(string, PyValue)>, now: string)
    ensures var names := NamesOf(updates)[NameMark + UpdatedAtField := UpdatedAtField];
      var values := ValuesOf(updates)[ValueMark + UpdatedAtField := PStr(now)];
      && (forall k :: NameMark + k in names <==> k == UpdatedAtField || exists i :: 0 <= i < |updates| && updates[i].0 == k)
      && (forall k :: ValueMark + k in values <==> k == UpdatedAtField || exists i :: 0 <= i < |updates| && updates[i].0 == k)
      && (forall n :: n in names ==> n == NameMark + names[n])
      && values[ValueMark + UpdatedAtField] == PStr(now)
  {
    NamesOfResolve(updates);
    ValuesOfKeys(updates);
    var names := NamesOf(updates)[NameMark + UpdatedAtField := UpdatedAtField];
    var values := ValuesOf(updates)[ValueMark + UpdatedAtField := PStr(now)];
    forall k ensures NameMark + k == NameMark + UpdatedAtField <==> k == UpdatedAtField {
      if NameMark + k == NameMark + UpdatedAtField { assert (NameMark + k)[1..] == k; }
    }
    forall k ensures ValueMark + k == ValueMark + UpdatedAtField <==> k == UpdatedAtField {
      if ValueMark + k == ValueMark + UpdatedAtField { assert (ValueMark + k)[1..] == k; }
    }
  }

  // ---------------------------------------------------------------------
  // The registry

  class Registry {
    /** `_cache`: configs by "<tenant>:<id>". */
    var cache: map<string, AgentConfig>

    constructor ()
      ensures cache == map[]
    {
      cache := map[];
    }

    /** `register`: `put(item)` is the store's answer to the write (the error
        raised, if any); the agent is cached only after a write that succeeds. */
    method Register(agent: AgentConfig, put: Item -> Option<string>) returns (r: Result<string, string>)
      modifies this
      ensures put(ItemOf(agent)).None? ==>
                r == Ok(agent.id) && cache == old(cache)[CacheKey(agent.tenant.tenantId, agent.id) := agent]
      ensures put(ItemOf(agent)).Some? ==> r == Err(put(ItemOf(agent)).value) && cache == old(cache)
    {
      var item := ItemOf(agent);
      var failure := put(item);
      if failure.Some? {
        return Err(failure.value);
      }
      cache := cache[CacheKey(agent.tenant.tenantId, agent.id) := agent];
      return Ok(agent.id);
    }

    /** `get`. */
    method Get(agentId: string, tenant: TenantContext,
               getItem: (string, string) -> Result<Option<Item>, string>)
        returns (r: Result<AgentConfig, Error>)
      modifies this
      ensures (r, cache) == Fetch(old(cache), agentId, tenant, getItem)
    {
      var key := CacheKey(tenant.tenantId, agentId);
      if key in cache {
        return Ok(cache[key]);
      }
      var response := getItem(PartitionKey(tenant.tenantId), SortKey(agentId));
      if response.Err? || response.value.None? {
        return Err(AgentNotFound(agentId));
      }
      var agent := ItemToConfig(response.value.value, tenant);
      if agent.None? {
        return Err(AgentNotFound(agentId));
      }
      cache := cache[key := agent.value];
      return Ok(agent.value);
    }

    /** `update`: `write(request)` is the store's answer (the error raised,
        if any); the cached config is dropped only after a write that
        succeeds. `now` is the clock reading. */
    method Update(agentId: string, updates: seq<(string, PyValue)>, tenant: TenantContext, now: string,
                  write: UpdateRequest -> Option<string>)
        returns (ok: bool)
      modifies this
      ensures var request := UpdateRequest(PartitionKey(tenant.tenantId), SortKey(agentId),
                                           SetKeyword + Clauses(updates) + FinalClause(),
                                           NamesOf(updates)[NameMark + UpdatedAtField := UpdatedAtField],
                                           ValuesOf(updates)[ValueMark + UpdatedAtField := PStr(now)]);
        && (ok <==> write(request).None?)
        && cache == if ok then old(cache) - {CacheKey(tenant.tenantId, agentId)} else old(cache)
    {
      var expression, names, values := BuildUpdate(updates, now);
      var failure := write(UpdateRequest(PartitionKey(tenant.tenantId), SortKey(agentId), expression, names, values));
      if failure.Some? {
        return false;
      }
      cache := cache - {CacheKey(tenant.tenantId, agentId)};
      return true;
    }

    /** `delete`: `remove(pk, sk)` is the store's answer; the cached config is
        dropped only after a delete that succeeds. */
    method Delete(agentId: string, tenant: TenantContext, remove: (string, string) -> Option<string>)
        returns (ok: bool)
      modifies this
      ensures ok <==> remove(PartitionKey(tenant.tenantId), SortKey(agentId)).None?
      ensures cache == if ok then old(cache) - {CacheKey(tenant.tenantId, agentId)} else old(cache)
    {
      var failure := remove(PartitionKey(tenant.tenantId), SortKey(agentId));
      if failure.Some? {
        return false;
      }
      cache := cache - {CacheKey(tenant.tenantId, agentId)};
      return true;
    }

    /** `clearCache`. */
    method ClearCache()
      modifies this
      ensures cache == map[]
    {
      cache := map[];
    }
  }

  /** A registered agent is served from the cache as registered, whatever
      the store holds: unlike a store read, its custom settings stay
      unconverted and it keeps its own tenant context. */
  lemma RegisteredServedFromCache(cache: map<string, AgentConfig>, agent: AgentConfig, tenant: TenantContext,
                                  getItem: (string, string) -> Result<Option<Item>, string>)
    requires tenant.tenantId == agent.tenant.tenantId
    ensures var registered := cache[CacheKey(agent.tenant.tenantId, agent.id) := agent];
      Fetch(registered, agent.id, tenant, getItem) == (Ok(agent), registered)
  {
  }

  /** After an update or delete that succeeds, the next `get` reads the store. */
  lemma EvictedRefetches(cache: map<string, AgentConfig>, agentId: string, tenant: TenantContext,
                         getItem: (string, string) -> Result<Option<Item>, string>)
    ensures var key := CacheKey(tenant.tenantId, agentId);
      var response := getItem(PartitionKey(tenant.tenantId), SortKey(agentId));
      Fetch(cache - {key}, agentId, tenant, getItem).0
        == if response.Ok? && response.value.Some? && ItemToConfig(response.value.value, tenant).Some?
           then Ok(ItemToConfig(response.value.value, tenant).value)
           else Err(AgentNotFound(agentId))
  {
  }
}
