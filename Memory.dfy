/** The context assembler of AgentSynapse/memory/memoryManager.py: the
    records `storeInteraction` and `storeFact` build, the piecewise-linear
    recency score, the relevance ranking of semantic memories and the
    budgeted, greedy assembly of a context from the four memory tiers.

    The storage tiers are not modelled: what they return (the working
    snapshot and its rendering, the session's recent episodic records, the
    semantic search hits and the procedural pattern names) are inputs.
    Scores are exact `real` arithmetic; timestamps are seconds as `real`. */
module MemoryManager {
  import opened Values
  import opened Schemas
  import opened Strings
  import opened Sorting
  import Bedrock

  /** The decay threshold in days; the score divides by it, so it is positive. */
  type PosReal = r: real | r > 0.0 witness 1.0

  const SecondsPerDay: real := 86400.0

  datatype EpisodicRecord = EpisodicRecord(
    tenantId: string,
    userId: string,
    sessionId: string,
    agentId: string,
    memoryType: MemoryType,
    content: string,
    outcome: string,
    source: MemorySource,
    importance: real,
    toolsUsed: seq<string>,
    confidence: real)

  datatype SemanticRecord = SemanticRecord(
    tenantId: string,
    userId: string,
    sessionId: string,
    memoryType: MemoryType,
    content: string,
    source: MemorySource,
    importance: real,
    confidence: real,
    tags: seq<string>,
    relatedEntities: seq<string>)

  /** A semantic memory as the search returns it. Ranking writes its
      `contextData["relevanceScore"]` in place; the rest of the record is
      not changed here. */
  class SemanticMemory {
    const record: SemanticRecord
    /** Creation time, in seconds. */
    const createdAt: real
    /** `contextData["relevanceScore"]`, absent until ranked. */
    var relevanceScore: Option<real>

    constructor (record: SemanticRecord, createdAt: real)
      ensures this.record == record && this.createdAt == createdAt
      ensures relevanceScore == None
    {
      this.record := record;
      this.createdAt := createdAt;
      relevanceScore := None;
    }
  }

  const UserLabel := "User: "
  const AgentLabel := "\nAgent: "

  /** `storeInteraction`'s record: the exchange as "User: ...\nAgent: ...",
      system-derived, with full confidence. */
  function InteractionRecord(tenant: TenantContext, sessionId: string, agentId: string,
                             userMessage: string, agentResponse: string, toolsUsed: seq<string>,
                             outcome: string, importance: real): (r: EpisodicRecord)
    ensures r.tenantId == tenant.tenantId && r.userId == tenant.userId
    ensures r.sessionId == sessionId && r.agentId == agentId && r.memoryType == Episodic
    ensures StartsWith(r.content, UserLabel + userMessage)
    ensures EndsWith(r.content, AgentLabel + agentResponse)
    ensures |r.content| == |UserLabel| + |userMessage| + |AgentLabel| + |agentResponse|
    ensures r.outcome == outcome && r.source == SystemDerived && r.confidence == 1.0
    ensures r.importance == importance && r.toolsUsed == toolsUsed
  {
    var content := UserLabel + userMessage + AgentLabel + agentResponse;
    assert content[..|UserLabel + userMessage|] == UserLabel + userMessage;
    assert content[|content| - |AgentLabel + agentResponse|..] == AgentLabel + agentResponse;
    EpisodicRecord(tenant.tenantId, tenant.userId, sessionId, agentId, Episodic, content,
                   outcome, source := SystemDerived, importance := importance,
                   toolsUsed := toolsUsed, confidence := 1.0)
  }

  /** `storeFact`'s record: a fact the agent inferred gets confidence 0.8,
      a fact from any other source 1.0; missing tags or entities are empty. */
  function FactRecord(tenant: TenantContext, sessionId: string, fact: string, source: MemorySource,
                      importance: real, tags: Option<seq<string>>,
                      relatedEntities: Option<seq<string>>): (r: SemanticRecord)
    ensures r.tenantId == tenant.tenantId && r.userId == tenant.userId
    ensures r.sessionId == sessionId && r.memoryType == Semantic
    ensures r.content == fact && r.source == source && r.importance == importance
    ensures r.confidence == 0.8 <==> source == AgentInferred
    ensures source != AgentInferred ==> r.confidence == 1.0
    ensures tags.None? ==> r.tags == []
    ensures tags.Some? ==> r.tags == tags.value
    ensures relatedEntities.None? ==> r.relatedEntities == []
    ensures relatedEntities.Some? ==> r.relatedEntities == relatedEntities.value
  {
    SemanticRecord(tenant.tenantId, tenant.userId, sessionId, Semantic, fact, source, importance,
                   if source == AgentInferred then 0.8 else 1.0,
                   if tags.Some? then tags.value else [],
                   if relatedEntities.Some? then relatedEntities.value else [])
  }

  // ---------------------------------------------------------------------
  // Recency and relevance

  /** The linear decline from 1.0 (at age t) to 0.5 (at age 4t). */
  function Decline(age: real, t: PosReal): real
  {
    1.0 - ((age - t) / (t * 3.0)) * 0.5
  }

  /** The slower decline from 0.5 past age 4t, with no lower clamp. */
  function Tail(age: real, t: PosReal): real
  {
    0.5 - ((age - t * 4.0) / (t * 10.0)) * 0.4
  }

  /** `_calculateRecencyScore`, for an age in days and a threshold `t`. */
  function RecencyScore(age: real, t: PosReal): (r: real)
  {
    if age < t then 1.0
    else if age < t * 4.0 then Decline(age, t)
    else Tail(age, t)
  }

  lemma DivMonotone(x: real, y: real, d: real)
    requires d > 0.0 && x <= y
    ensures x / d <= y / d
  {
    assert y / d - x / d == (y - x) / d;
  }

  /** The three pieces: full score before the threshold, between 0.5 and 1.0
      up to four thresholds, at most 0.5 after. */
  lemma RecencyRanges(age: real, t: PosReal)
    ensures age < t ==> RecencyScore(age, t) == 1.0
    ensures t <= age < t * 4.0 ==> 0.5 < RecencyScore(age, t) <= 1.0
    ensures t * 4.0 <= age ==> RecencyScore(age, t) <= 0.5
  {
    if t <= age < t * 4.0 {
      DivMonotone(0.0, age - t, t * 3.0);
      DivMonotone(age - t, t * 3.0, t * 3.0);
      assert (age - t) / (t * 3.0) < 1.0 by {
        assert (age - t) / (t * 3.0) * (t * 3.0) == age - t;
      }
    } else if t * 4.0 <= age {
      DivMonotone(0.0, age - t * 4.0, t * 10.0);
    }
  }

  /** The pieces meet: no jump at t nor at 4t. */
  lemma RecencyContinuous(t: PosReal)
    ensures Decline(t, t) == 1.0
    ensures Decline(t * 4.0, t) == 0.5 == Tail(t * 4.0, t)
  {
    assert (t * 4.0 - t) / (t * 3.0) == 1.0;
  }

  /** An older memory never scores higher. */
  lemma RecencyNonIncreasing(a: real, b: real, t: PosReal)
    requires a <= b
    ensures RecencyScore(b, t) <= RecencyScore(a, t)
  {
    RecencyRanges(a, t);
    RecencyRanges(b, t);
    if t <= a && b < t * 4.0 {
      DivMonotone(a - t, b - t, t * 3.0);
    } else if t * 4.0 <= a {
      DivMonotone(a - t * 4.0, b - t * 4.0, t * 10.0);
    }
  }

  /** Past 4t the score falls by 0.04 per threshold's worth of days. */
  lemma RecencyTailSlope(a: real, b: real, t: PosReal)
    requires t * 4.0 <= a <= b
    ensures RecencyScore(a, t) - RecencyScore(b, t) == 0.04 * ((b - a) / t)
  {
    assert (b - t * 4.0) / (t * 10.0) - (a - t * 4.0) / (t * 10.0) == (b - a) / (t * 10.0);
    assert (b - a) / (t * 10.0) == ((b - a) / t) / 10.0;
  }

  /** With no clamp the score turns negative exactly past 16.5 thresholds. */
  lemma RecencyNegative(age: real, t: PosReal)
    ensures RecencyScore(age, t) < 0.0 <==> age > t * 16.5
  {
    RecencyRanges(age, t);
    if t * 4.0 <= age {
      var q := (age - t * 4.0) / (t * 10.0);
      assert q * (t * 10.0) == age - t * 4.0;
      assert RecencyScore(age, t) == 0.5 - q * 0.4;
      if age > t * 16.5 {
        assert q * (t * 10.0) > 1.25 * (t * 10.0);
        assert q > 1.25;
      } else {
        assert q * (t * 10.0) <= 1.25 * (t * 10.0);
        assert q <= 1.25;
      }
    }
  }

  /** The age in days of a memory created at `createdAt` (seconds). */
  function AgeDays(createdAt: real, now: real): real
  {
    (now - createdAt) / SecondsPerDay
  }

  /** The weighted relevance of `_rankMemories`. */
  function Relevance(recency: real, importance: real, confidence: real): (r: real)
    ensures 0.0 <= recency <= 1.0 && 0.0 <= importance <= 1.0 && 0.0 <= confidence <= 1.0 ==>
              0.0 <= r <= 1.0
  {
    recency * 0.3 + importance * 0.4 + confidence * 0.3
  }

  /** The score ranking gives `m` at time `now`. */
  function ScoreOf(m: SemanticMemory, now: real, t: PosReal): real
  {
    Relevance(RecencyScore(AgeDays(m.createdAt, now), t), m.record.importance, m.record.confidence)
  }

  /** "Ranks at least as high as". */
  function ByRelevance(now: real, t: PosReal): (SemanticMemory, SemanticMemory) -> bool
  {
    (a: SemanticMemory, b: SemanticMemory) => ScoreOf(a, now, t) >= ScoreOf(b, now, t)
  }

  /** The order `_rankMemories` returns: `sorted(..., reverse=True)` by score. */
  function Ranked(memories: seq<SemanticMemory>, now: real, t: PosReal): seq<SemanticMemory>
  {
    SortDesc(memories, ByRelevance(now, t))
  }

  lemma RelevancePreorder(s: seq<SemanticMemory>, now: real, t: PosReal)
    ensures TotalPreorderOn(s, ByRelevance(now, t))
  {
  }

  /** The ranking is a permutation of its input, sorted by non-increasing score. */
  lemma RankedSorted(memories: seq<SemanticMemory>, now: real, t: PosReal)
    ensures multiset(Ranked(memories, now, t)) == multiset(memories)
    ensures var r := Ranked(memories, now, t);
      forall i, j :: 0 <= i < j < |r| ==> ScoreOf(r[i], now, t) >= ScoreOf(r[j], now, t)
  {
    RelevancePreorder(memories, now, t);
    SortDescSorted(memories, ByRelevance(now, t));
  }

  /** Ties keep their input order: the memories scoring like `p` appear in
      the ranking in the order they were found. */
  lemma RankedStable(memories: seq<SemanticMemory>, p: SemanticMemory, now: real, t: PosReal)
    ensures SameKey(Ranked(memories, now, t), p, ByRelevance(now, t)) ==
            SameKey(memories, p, ByRelevance(now, t))
  {
    RelevancePreorder([p] + memories, now, t);
    SortDescStable(memories, p, ByRelevance(now, t));
  }

  /** `_rankMemories`: scores every memory in place, then returns them ranked. */
  method RankMemories(memories: seq<SemanticMemory>, now: real, t: PosReal)
    returns (ranked: seq<SemanticMemory>)
    modifies set m | m in memories
    ensures forall m :: m in memories ==> m.relevanceScore == Some(ScoreOf(m, now, t))
    ensures ranked == Ranked(memories, now, t)
  {
    for i := 0 to |memories|
      invariant forall m :: m in memories[..i] ==> m.relevanceScore == Some(ScoreOf(m, now, t))
    {
      var m := memories[i];
      m.relevanceScore := Some(Relevance(RecencyScore(AgeDays(m.createdAt, now), t),
                                         m.record.importance, m.record.confidence));
      assert memories[..i + 1] == memories[..i] + [m];
    }
    assert memories[..|memories|] == memories;
    ranked := SortDesc(memories, ByRelevance(now, t));
  }

  // ---------------------------------------------------------------------
  // Budgeted assembly

  function Sum(s: seq<nat>): nat
  {
    if s == [] then 0 else Sum(s[..|s| - 1]) + s[|s| - 1]
  }

  lemma SumSnoc(s: seq<nat>, k: nat)
    requires k < |s|
    ensures Sum(s[..k + 1]) == Sum(s[..k]) + s[k]
  {
    assert s[..k + 1][..k] == s[..k];
  }

  /** How many items, in order, the greedy loop admits when it starts at
      `total`: each is admitted while total + cost < maxTokens, and the loop
      stops at the first that does not fit. */
  function Admitted(costs: seq<nat>, total: nat, maxTokens: int): (k: nat)
    ensures k <= |costs|
  {
    if costs == [] || total + costs[0] >= maxTokens then 0
    else 1 + Admitted(costs[1..], total + costs[0], maxTokens)
  }

  /** Every admitted item fitted when it was admitted. */
  lemma {:induction false} AdmittedFit(costs: seq<nat>, total: nat, maxTokens: int, j: nat)
    requires j < Admitted(costs, total, maxTokens)
    ensures total + Sum(costs[..j + 1]) < maxTokens
  {
    SumFront(costs, j + 1);
    if j > 0 {
      AdmittedFit(costs[1..], total + costs[0], maxTokens, j - 1);
      assert costs[1..][..j] == costs[1..j + 1];
    }
  }

  /** Sum over a prefix, peeling the first item. */
  lemma {:induction false} SumFront(s: seq<nat>, k: nat)
    requires 0 < k <= |s|
    ensures Sum(s[..k]) == s[0] + Sum(s[1..k])
  {
    if k > 1 {
      SumFront(s, k - 1);
      assert s[..k][..k - 1] == s[..k - 1];
      assert s[1..k][..k - 2] == s[1..k - 1];
    } else {
      assert s[..k][..0] == [];
    }
  }

  /** The first item left out is one that would not fit. */
  lemma {:induction false} AdmittedStops(costs: seq<nat>, total: nat, maxTokens: int)
    ensures var k := Admitted(costs, total, maxTokens);
      k < |costs| ==> total + Sum(costs[..k]) + costs[k] >= maxTokens
  {
    var k := Admitted(costs, total, maxTokens);
    if k > 0 {
      AdmittedStops(costs[1..], total + costs[0], maxTokens);
      if k < |costs| {
        SumFront(costs, k);
        assert costs[1..][..k - 1] == costs[1..k];
      }
    }
  }

  /** Starting under budget, the loop ends under budget. */
  lemma AdmittedWithin(costs: seq<nat>, total: nat, maxTokens: int)
    requires total < maxTokens
    ensures total + Sum(costs[..Admitted(costs, total, maxTokens)]) < maxTokens
  {
    var k := Admitted(costs, total, maxTokens);
    if k > 0 {
      AdmittedFit(costs, total, maxTokens, k - 1);
    }
  }

  /** The greedy loop shared by the episodic and the semantic tier: admits
      items in order while each fits, and stops at the first that does not. */
  method Fill(costs: seq<nat>, total: nat, maxTokens: int) returns (k: nat, newTotal: nat)
    ensures k == Admitted(costs, total, maxTokens)
    ensures newTotal == total + Sum(costs[..k])
  {
    k, newTotal := 0, total;
    while k < |costs| && newTotal + costs[k] < maxTokens
      invariant k <= |costs|
      invariant newTotal == total + Sum(costs[..k])
      invariant Admitted(costs, total, maxTokens) == k + Admitted(costs[k..], newTotal, maxTokens)
    {
      SumSnoc(costs, k);
      assert costs[k..][1..] == costs[k + 1..];
      newTotal := newTotal + costs[k];
      k := k + 1;
    }
  }

  function EpisodicCosts(rs: seq<EpisodicRecord>): (c: seq<nat>)
    ensures |c| == |rs|
    ensures forall i :: 0 <= i < |rs| ==> c[i] == Bedrock.CountTokens(rs[i].content)
  {
    seq(|rs|, i requires 0 <= i < |rs| => Bedrock.CountTokens(rs[i].content))
  }

  function SemanticCosts(ms: seq<SemanticMemory>): (c: seq<nat>)
    ensures |c| == |ms|
    ensures forall i :: 0 <= i < |ms| ==> c[i] == Bedrock.CountTokens(ms[i].record.content)
  {
    seq(|ms|, i requires 0 <= i < |ms| => Bedrock.CountTokens(ms[i].record.content))
  }

  lemma EpisodicCostsPrefix(rs: seq<EpisodicRecord>, k: nat)
    requires k <= |rs|
    ensures EpisodicCosts(rs[..k]) == EpisodicCosts(rs)[..k]
  {
  }

  lemma SemanticCostsPrefix(ms: seq<SemanticMemory>, k: nat)
    requires k <= |ms|
    ensures SemanticCosts(ms[..k]) == SemanticCosts(ms)[..k]
  {
  }

  /** The context `retrieveContext` returns. */
  datatype MemoryContext = MemoryContext(
    working: PyValue,
    episodic: seq<EpisodicRecord>,
    semantic: seq<SemanticMemory>,
    procedural: seq<string>,
    totalTokens: nat)

  /** The episodic tier is consulted only while the total is under budget. */
  predicate EpisodicGate(total: nat, maxTokens: int)
  {
    total < maxTokens
  }

  /** The semantic tier is consulted only under 70% of the budget. */
  predicate SemanticGate(total: nat, maxTokens: int)
  {
    (total as real) < (maxTokens as real) * 0.7
  }

  /** The procedural tier: the first three pattern names. */
  function FirstThree(names: seq<string>): (r: seq<string>)
    ensures |r| <= 3 && |r| <= |names| && r == names[..|r|]
    ensures |names| >= 3 ==> |r| == 3
    ensures |names| < 3 ==> r == names
  {
    if |names| <= 3 then names else names[..3]
  }

  /** How many recent episodic records are admitted after a working
      snapshot rendered as `workingText`. */
  function EpisodicAdmitted(workingText: string, recent: seq<EpisodicRecord>, maxTokens: int): nat
  {
    var w := Bedrock.CountTokens(workingText);
    if EpisodicGate(w, maxTokens) then Admitted(EpisodicCosts(recent), w, maxTokens) else 0
  }

  /** The total after the working and episodic tiers. */
  function AfterEpisodic(workingText: string, recent: seq<EpisodicRecord>, maxTokens: int): nat
  {
    var ke := EpisodicAdmitted(workingText, recent, maxTokens);
    Bedrock.CountTokens(workingText) + Sum(EpisodicCosts(recent)[..ke])
  }

  /** What `retrieveContext` assembles from what the tiers return. */
  function Assemble(working: PyValue, workingText: string, recent: seq<EpisodicRecord>,
                    found: seq<SemanticMemory>, patterns: seq<string>, now: real, t: PosReal,
                    maxTokens: int): MemoryContext
  {
    var ke := EpisodicAdmitted(workingText, recent, maxTokens);
    var t1 := AfterEpisodic(workingText, recent, maxTokens);
    var ranked := Ranked(found, now, t);
    var ks := if SemanticGate(t1, maxTokens) then Admitted(SemanticCosts(ranked), t1, maxTokens) else 0;
    var t2 := t1 + Sum(SemanticCosts(ranked)[..ks]);
    MemoryContext(working, recent[..ke], ranked[..ks], FirstThree(patterns), t2)
  }

  /** `retrieveContext`: working snapshot, then recent episodic records while
      they fit, then (under 70% of the budget) ranked semantic memories while
      they fit, then the first three procedural pattern names. Ranking, and
      so the in-place scoring, happens only when the semantic tier is
      consulted. */
  method RetrieveContext(working: PyValue, workingText: string, recent: seq<EpisodicRecord>,
                         found: seq<SemanticMemory>, patterns: seq<string>, now: real,
                         t: PosReal, maxTokens: int)
    returns (ctx: MemoryContext)
    modifies set m | m in found
    ensures ctx == Assemble(working, workingText, recent, found, patterns, now, t, maxTokens)
    ensures SemanticGate(AfterEpisodic(workingText, recent, maxTokens), maxTokens) ==>
              forall m :: m in found ==> m.relevanceScore == Some(ScoreOf(m, now, t))
    ensures !SemanticGate(AfterEpisodic(workingText, recent, maxTokens), maxTokens) ==>
              forall m :: m in found ==> m.relevanceScore == old(m.relevanceScore)
  {
    var total := Bedrock.CountTokens(workingText);
    var episodic: seq<EpisodicRecord> := [];
    if EpisodicGate(total, maxTokens) {
      var k;
      k, total := Fill(EpisodicCosts(recent), total, maxTokens);
      episodic := recent[..k];
    }
    assert total == AfterEpisodic(workingText, recent, maxTokens);
    ghost var t1 := total;
    var semantic: seq<SemanticMemory> := [];
    if SemanticGate(total, maxTokens) {
      var ranked := RankMemories(found, now, t);
      var k;
      k, total := Fill(SemanticCosts(ranked), total, maxTokens);
      semantic := ranked[..k];
    }
    assert semantic == Ranked(found, now, t)[..|semantic|];
    assert total == t1 + Sum(SemanticCosts(Ranked(found, now, t))[..|semantic|]);
    ctx := MemoryContext(working, episodic, semantic, FirstThree(patterns), total);
  }

  // ---------------------------------------------------------------------
  // Properties of the assembled context

  /** A working snapshot under budget keeps the whole context under budget. */
  lemma ContextWithinBudget(working: PyValue, workingText: string, recent: seq<EpisodicRecord>,
                            found: seq<SemanticMemory>, patterns: seq<string>, now: real,
                            t: PosReal, maxTokens: int)
    requires Bedrock.CountTokens(workingText) < maxTokens
    ensures Assemble(working, workingText, recent, found, patterns, now, t, maxTokens).totalTokens < maxTokens
  {
    AdmittedWithin(EpisodicCosts(recent), Bedrock.CountTokens(workingText), maxTokens);
    var t1 := AfterEpisodic(workingText, recent, maxTokens);
    assert t1 < maxTokens;
    AdmittedWithin(SemanticCosts(Ranked(found, now, t)), t1, maxTokens);
  }

  /** The total is the working cost plus the full cost of every admitted
      episodic and semantic item; procedural names cost nothing. */
  lemma ContextTotal(working: PyValue, workingText: string, recent: seq<EpisodicRecord>,
                     found: seq<SemanticMemory>, patterns: seq<string>, now: real,
                     t: PosReal, maxTokens: int)
    ensures var ctx := Assemble(working, workingText, recent, found, patterns, now, t, maxTokens);
      ctx.totalTokens == Bedrock.CountTokens(workingText) + Sum(EpisodicCosts(ctx.episodic))
                         + Sum(SemanticCosts(ctx.semantic))
  {
    var ctx := Assemble(working, workingText, recent, found, patterns, now, t, maxTokens);
    EpisodicCostsPrefix(recent, |ctx.episodic|);
    SemanticCostsPrefix(Ranked(found, now, t), |ctx.semantic|);
  }

  /** Each tier is a prefix of what it was offered: the recent episodic
      records, the ranked semantic memories and at most three pattern names. */
  lemma ContextPrefixes(working: PyValue, workingText: string, recent: seq<EpisodicRecord>,
                        found: seq<SemanticMemory>, patterns: seq<string>, now: real,
                        t: PosReal, maxTokens: int)
    ensures var ctx := Assemble(working, workingText, recent, found, patterns, now, t, maxTokens);
      && ctx.working == working
      && |ctx.episodic| <= |recent| && ctx.episodic == recent[..|ctx.episodic|]
      && |ctx.semantic| <= |found| && ctx.semantic == Ranked(found, now, t)[..|ctx.semantic|]
      && |ctx.procedural| <= 3 && ctx.procedural == patterns[..|ctx.procedural|]
  {
  }

  /** The gates: no episodic record unless the working snapshot is under
      budget, no semantic memory unless the total after the episodic tier
      is under 70% of the budget. */
  lemma ContextGates(working: PyValue, workingText: string, recent: seq<EpisodicRecord>,
                     found: seq<SemanticMemory>, patterns: seq<string>, now: real,
                     t: PosReal, maxTokens: int)
    ensures var ctx := Assemble(working, workingText, recent, found, patterns, now, t, maxTokens);
      && (!EpisodicGate(Bedrock.CountTokens(workingText), maxTokens) ==> ctx.episodic == [])
      && (var t1 := Bedrock.CountTokens(workingText) + Sum(EpisodicCosts(ctx.episodic));
          !SemanticGate(t1, maxTokens) ==> ctx.semantic == [])
  {
    var ctx := Assemble(working, workingText, recent, found, patterns, now, t, maxTokens);
    EpisodicCostsPrefix(recent, |ctx.episodic|);
  }

  /** Greedy stop in the episodic tier: when the working snapshot is under
      budget and a recent record was left out, the first one left out would
      have reached the budget. */
  lemma EpisodicGreedy(working: PyValue, workingText: string, recent: seq<EpisodicRecord>,
                       found: seq<SemanticMemory>, patterns: seq<string>, now: real,
                       t: PosReal, maxTokens: int)
    ensures var ctx := Assemble(working, workingText, recent, found, patterns, now, t, maxTokens);
      var k := |ctx.episodic|;
      EpisodicGate(Bedrock.CountTokens(workingText), maxTokens) && k < |recent| ==>
        Bedrock.CountTokens(workingText) + Sum(EpisodicCosts(ctx.episodic))
          + Bedrock.CountTokens(recent[k].content) >= maxTokens
  {
    var ctx := Assemble(working, workingText, recent, found, patterns, now, t, maxTokens);
    EpisodicCostsPrefix(recent, |ctx.episodic|);
    AdmittedStops(EpisodicCosts(recent), Bedrock.CountTokens(workingText), maxTokens);
  }

  /** Greedy stop in the semantic tier: when that tier was consulted and a
      ranked memory was left out, the first one left out would have reached
      the budget. */
  lemma SemanticGreedy(working: PyValue, workingText: string, recent: seq<EpisodicRecord>,
                       found: seq<SemanticMemory>, patterns: seq<string>, now: real,
                       t: PosReal, maxTokens: int)
    ensures var ctx := Assemble(working, workingText, recent, found, patterns, now, t, maxTokens);
      var ranked := Ranked(found, now, t);
      var k := |ctx.semantic|;
      SemanticGate(AfterEpisodic(workingText, recent, maxTokens), maxTokens) && k < |ranked| ==>
        ctx.totalTokens + Bedrock.CountTokens(ranked[k].record.content) >= maxTokens
  {
    AdmittedStops(SemanticCosts(Ranked(found, now, t)), AfterEpisodic(workingText, recent, maxTokens), maxTokens);
  }
}
