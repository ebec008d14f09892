/** Semantic versions of registered tools (AgentSynapse/tools/versioning/toolVersioning.py):
    the `major.minor.patch` format, the bump rules, the version history of a
    tool (tenant versions first, public versions after, one record per
    version, newest first) and the two caches of fetched version rows. The
    DynamoDB table is an input: for each (tenant, tool) and each tool name,
    the pages its queries return. */
module ToolVersioning {
  import opened Values
  import opened Strings
  import opened Sorting
  import Schemas

  const Dot := '.'
  const Colon := ":"
  const FirstVersion := "1.0.0"
  const PublicPermission := "public"
  const InvalidVersionPrefix := "Invalid tool version '"
  const InvalidVersionSuffix := "'. Expected semantic versioning (major.minor.patch)."
  const ExistsPrefix := "Tool "
  const ExistsMiddle := " version "
  const ExistsSuffix := " already exists"

  datatype ReleaseType = Major | Minor | Patch

  /** The three components of a version, as `_parseVersionTuple` returns them. */
  datatype VersionTuple = VersionTuple(major: nat, minor: nat, patch: nat)

  // ---------------------------------------------------------------------
  // Format, parsing and bumping

  /** `validateVersion`: the pattern `^\d+\.\d+\.\d+$`, three non-empty runs
      of decimal digits separated by dots. */
  predicate ValidVersion(v: string)
  {
    var parts := Split(v, Dot);
    |parts| == 3 && IsDigitRun(parts[0]) && IsDigitRun(parts[1]) && IsDigitRun(parts[2])
  }

  /** `_parseVersionTuple`: the components of a valid version, (0, 0, 0) for
      anything else. */
  function ParseVersionTuple(v: string): VersionTuple
  {
    if !ValidVersion(v) then VersionTuple(0, 0, 0)
    else
      var parts := Split(v, Dot);
      VersionTuple(ParseNat(parts[0]), ParseNat(parts[1]), ParseNat(parts[2]))
  }

  /** `f"{major}.{minor}.{patch}"`. */
  function FormatVersion(t: VersionTuple): string
  {
    NatToString(t.major) + [Dot] + NatToString(t.minor) + [Dot] + NatToString(t.patch)
  }

  /** Python's tuple comparison `a >= b`: lexicographic. */
  predicate TupleGeq(a: VersionTuple, b: VersionTuple)
  {
    a.major > b.major || (a.major == b.major && (a.minor > b.minor || (a.minor == b.minor && a.patch >= b.patch)))
  }

  /** `a > b` on tuples. */
  predicate TupleGt(a: VersionTuple, b: VersionTuple)
  {
    TupleGeq(a, b) && a != b
  }

  lemma DigitRunNoDot(s: string)
    requires IsDigitRun(s)
    ensures Dot !in s
  {
    forall i | 0 <= i < |s| ensures s[i] != Dot {
      assert IsDigit(s[i]);
    }
  }

  /** Three digit runs joined by dots form a valid version, and splitting it
      gives the runs back. */
  lemma ValidVersionJoin(a: string, b: string, c: string)
    requires IsDigitRun(a) && IsDigitRun(b) && IsDigitRun(c)
    ensures Split(a + [Dot] + b + [Dot] + c, Dot) == [a, b, c]
    ensures ValidVersion(a + [Dot] + b + [Dot] + c)
  {
    DigitRunNoDot(a);
    DigitRunNoDot(b);
    DigitRunNoDot(c);
    SplitNoSeparator(c, Dot);
    SplitPrefix(b, c, Dot);
    SplitPrefix(a, b + [Dot] + c, Dot);
    assert a + [Dot] + b + [Dot] + c == a + [Dot] + (b + [Dot] + c);
  }

  /** Conversely, a valid version is three digit runs joined by dots. */
  lemma ValidVersionParts(v: string)
    requires ValidVersion(v)
    ensures var p := Split(v, Dot);
      v == p[0] + [Dot] + p[1] + [Dot] + p[2]
  {
    var p := Split(v, Dot);
    JoinSplit(v, Dot);
    assert Join(p[1..], Dot) == p[1] + [Dot] + p[2] by {
      assert p[1..][1..] == [p[2]];
    }
    assert Join(p, Dot) == p[0] + [Dot] + (p[1] + [Dot] + p[2]);
  }

  /** Formatting a tuple gives a valid version that parses back to the tuple. */
  lemma {:induction false} FormatParse(t: VersionTuple)
    ensures ValidVersion(FormatVersion(t))
    ensures ParseVersionTuple(FormatVersion(t)) == t
  {
    ValidVersionJoin(NatToString(t.major), NatToString(t.minor), NatToString(t.patch));
    ParseNatToString(t.major);
    ParseNatToString(t.minor);
    ParseNatToString(t.patch);
  }

  /** The bump rules of `calculateNextVersion`; every release type moves the
      version strictly forward. */
  function Bump(t: VersionTuple, release: ReleaseType): (b: VersionTuple)
    ensures TupleGt(b, t) && !TupleGeq(t, b)
  {
    match release
    case Major => VersionTuple(t.major + 1, 0, 0)
    case Minor => VersionTuple(t.major, t.minor + 1, 0)
    case Patch => VersionTuple(t.major, t.minor, t.patch + 1)
  }

  function InvalidVersion(v: string): Schemas.Error
  {
    Schemas.InvalidToolDefinition(InvalidVersionPrefix + v + InvalidVersionSuffix)
  }

  /** `calculateNextVersion`: rejects an invalid version, otherwise bumps it. */
  function NextVersion(current: string, release: ReleaseType): (r: Result<string, Schemas.Error>)
    ensures r.Err? <==> !ValidVersion(current)
    ensures r.Err? ==> r.error == InvalidVersion(current)
  {
    if !ValidVersion(current) then Err(InvalidVersion(current))
    else Ok(FormatVersion(Bump(ParseVersionTuple(current), release)))
  }

  /** The next version of a valid version is valid, follows the bump rule of
      its release type and is strictly greater. */
  lemma NextVersionBumps(current: string, release: ReleaseType)
    requires ValidVersion(current)
    ensures var r := NextVersion(current, release);
      && r.Ok? && ValidVersion(r.value)
      && TupleGt(ParseVersionTuple(r.value), ParseVersionTuple(current))
      && var t := ParseVersionTuple(current);
         ParseVersionTuple(r.value) == match release
           case Major => VersionTuple(t.major + 1, 0, 0)
           case Minor => VersionTuple(t.major, t.minor + 1, 0)
           case Patch => VersionTuple(t.major, t.minor, t.patch + 1)
  {
    FormatParse(Bump(ParseVersionTuple(current), release));
  }

  // ---------------------------------------------------------------------
  // Version rows and records

  datatype Source = TenantSource | PublicSource

  /** A row of the tool table as the version queries read it; a missing
      attribute is `None`. */
  datatype VersionItem = VersionItem(
    version: Option<string>,
    isActive: Option<bool>,
    permission: Option<string>,
    tenantId: Option<string>,
    createdAt: Option<string>,
    updatedAt: Option<string>)

  /** `_toVersionRecord`: a row tagged with where it came from; a missing
      "isActive" reads as active. */
  datatype VersionRecord = VersionRecord(
    version: Option<string>,
    isActive: bool,
    permission: Option<string>,
    tenantId: Option<string>,
    createdAt: Option<string>,
    updatedAt: Option<string>,
    source: Source)

  function ToRecord(item: VersionItem, source: Source): (r: VersionRecord)
  {
    VersionRecord(item.version, item.isActive != Some(false), item.permission, item.tenantId,
                  item.createdAt, item.updatedAt, source)
  }

  function Records(items: seq<VersionItem>, source: Source): (rs: seq<VersionRecord>)
    ensures |rs| == |items|
    ensures forall i :: 0 <= i < |items| ==> rs[i] == ToRecord(items[i], source)
  {
    seq(|items|, i requires 0 <= i < |items| => ToRecord(items[i], source))
  }

  /** A row counts as active unless its "isActive" is false. */
  predicate ActiveRow(item: VersionItem)
  {
    item.isActive != Some(false)
  }

  /** The tenant rows `_fetchTenantVersions` keeps: all of them, or the
      active ones when inactive rows are excluded. */
  function TenantRows(items: seq<VersionItem>, includeInactive: bool): (r: seq<VersionItem>)
    ensures forall x :: x in r <==> x in items && (includeInactive || ActiveRow(x))
  {
    if items == [] then []
    else if includeInactive || ActiveRow(items[0]) then [items[0]] + TenantRows(items[1..], includeInactive)
    else TenantRows(items[1..], includeInactive)
  }

  /** The rows of one page of the public query: the filter on "permission"
      and, when inactive rows are excluded, on "isActive" being true. */
  function PublicRows(items: seq<VersionItem>, includeInactive: bool): (r: seq<VersionItem>)
    ensures forall x :: x in r <==> x in items && x.permission == Some(PublicPermission) &&
                                    (includeInactive || x.isActive == Some(true))
  {
    if items == [] then []
    else if items[0].permission == Some(PublicPermission) && (includeInactive || items[0].isActive == Some(true))
    then [items[0]] + PublicRows(items[1..], includeInactive)
    else PublicRows(items[1..], includeInactive)
  }

  /** The rows of all pages, in page order. */
  function Concat(pages: seq<seq<VersionItem>>): (r: seq<VersionItem>)
    ensures forall x :: x in r <==> exists i :: 0 <= i < |pages| && x in pages[i]
  {
    if pages == [] then []
    else
      var last := |pages| - 1;
      assert forall i :: 0 <= i < last ==> pages[..last][i] == pages[i];
      Concat(pages[..last]) + pages[last]
  }

  /** The filtered rows of all pages of the public query, in page order. */
  function PublicGathered(pages: seq<seq<VersionItem>>, includeInactive: bool): (r: seq<VersionItem>)
    ensures forall x :: x in r ==> x.permission == Some(PublicPermission) && (includeInactive || x.isActive == Some(true))
  {
    if pages == [] then []
    else PublicGathered(pages[..|pages| - 1], includeInactive) + PublicRows(pages[|pages| - 1], includeInactive)
  }

  // ---------------------------------------------------------------------
  // Deduplication with precedence

  /** The `unique` dict of `getVersionHistory`: its keys in insertion order,
      and the record stored under each. */
  datatype Unique = Unique(order: seq<string>, chosen: map<string, VersionRecord>)

  /** The record carries a non-empty version (`if not version: continue`). */
  predicate Versioned(r: VersionRecord)
  {
    r.version.Some? && r.version.value != ""
  }

  /** Every key is listed once, and every record sits under its own version. */
  ghost predicate Consistent(u: Unique)
  {
    && (forall i, j :: 0 <= i < j < |u.order| ==> u.order[i] != u.order[j])
    && (forall k :: k in u.order <==> k in u.chosen)
    && (forall k :: k in u.chosen ==> k != "" && u.chosen[k].version == Some(k))
  }

  /** One pass of the deduplication loop: a new version is added at the
      end; a tenant record replaces the stored one in place; a public record
      for a known version is dropped. */
  function DedupStep(u: Unique, r: VersionRecord): (w: Unique)
  {
    if !Versioned(r) then u
    else if r.version.value !in u.chosen then Unique(u.order + [r.version.value], u.chosen[r.version.value := r])
    else if r.source == TenantSource then Unique(u.order, u.chosen[r.version.value := r])
    else u
  }

  /** The `unique` dict after the loop has seen all of `versions`. */
  function DedupOf(versions: seq<VersionRecord>): (u: Unique)
    ensures Consistent(u)
  {
    if versions == [] then Unique([], map[])
    else
      var u := DedupOf(versions[..|versions| - 1]);
      var r := versions[|versions| - 1];
      if Versioned(r) && r.version.value !in u.chosen then
        assert forall k :: k in u.order + [r.version.value] <==> k in u.chosen[r.version.value := r];
        DedupStep(u, r)
      else DedupStep(u, r)
  }

  /** The first record carrying version `v`. */
  function FirstWith(vs: seq<VersionRecord>, v: string): (r: Option<VersionRecord>)
    ensures r.Some? <==> exists i :: 0 <= i < |vs| && vs[i].version == Some(v)
    ensures r.Some? ==> r.value in vs && r.value.version == Some(v)
  {
    if vs == [] then None
    else if vs[0].version == Some(v) then Some(vs[0])
    else
      var r := FirstWith(vs[1..], v);
      assert forall i :: 1 <= i < |vs| ==> vs[i] == vs[1..][i - 1];
      assert r.Some? ==> exists i :: 0 <= i < |vs[1..]| && vs[1..][i].version == Some(v);
      r
  }

  /** The last tenant record carrying version `v`. */
  function LastTenantWith(vs: seq<VersionRecord>, v: string): (r: Option<VersionRecord>)
    ensures r.Some? ==> r.value in vs && r.value.version == Some(v) && r.value.source == TenantSource
  {
    if vs == [] then None
    else
      var last := vs[|vs| - 1];
      if last.version == Some(v) && last.source == TenantSource then Some(last)
      else LastTenantWith(vs[..|vs| - 1], v)
  }

  /** The record the history should show for version `v`: the last tenant
      record with that version if there is one, else the first record with it. */
  function Pick(vs: seq<VersionRecord>, v: string): (p: Option<VersionRecord>)
    ensures p.Some? <==> FirstWith(vs, v).Some?
  {
    assert LastTenantWith(vs, v).Some? ==> LastTenantWith(vs, v).value in vs;
    if LastTenantWith(vs, v).Some? then LastTenantWith(vs, v) else FirstWith(vs, v)
  }

  lemma {:induction false} FirstWithSnoc(vs: seq<VersionRecord>, r: VersionRecord, v: string)
    ensures FirstWith(vs + [r], v) ==
      if FirstWith(vs, v).Some? then FirstWith(vs, v) else if r.version == Some(v) then Some(r) else None
  {
    if vs != [] {
      assert (vs + [r])[1..] == vs[1..] + [r];
      FirstWithSnoc(vs[1..], r, v);
    }
  }

  /** The loop keeps exactly the versioned records' versions, and under each
      the record `Pick` names: a tenant record wins over a public one. */
  /** What one more record does to the pick for `v`. */
  lemma PickSnoc(pre: seq<VersionRecord>, r: VersionRecord, v: string)
    ensures Pick(pre + [r], v) ==
      if r.version != Some(v) then Pick(pre, v)
      else if r.source == TenantSource || FirstWith(pre, v).None? then Some(r)
      else Pick(pre, v)
  {
    FirstWithSnoc(pre, r, v);
    var vs := pre + [r];
    assert vs[..|vs| - 1] == pre;
    assert LastTenantWith(vs, v) ==
      if r.version == Some(v) && r.source == TenantSource then Some(r) else LastTenantWith(pre, v);
    assert LastTenantWith(pre, v).Some? ==> FirstWith(pre, v).Some? by {
      if LastTenantWith(pre, v).Some? {
        var i :| 0 <= i < |pre| && pre[i] == LastTenantWith(pre, v).value;
      }
    }
  }

  lemma {:induction false} DedupPicks(vs: seq<VersionRecord>, v: string)
    ensures var u := DedupOf(vs);
      (if v in u.chosen then Some(u.chosen[v]) else None) == (if v == "" then None else Pick(vs, v))
  {
    if vs != [] {
      var pre := vs[..|vs| - 1];
      var r := vs[|vs| - 1];
      DedupPicks(pre, v);
      assert vs == pre + [r];
      PickSnoc(pre, r, v);
    }
  }

  // ---------------------------------------------------------------------
  // The history

  /** The sort key of `_sortVersions`. */
  function Key(r: VersionRecord): VersionTuple
  {
    ParseVersionTuple(if r.version.Some? then r.version.value else FirstVersionZero)
  }

  const FirstVersionZero := "0.0.0"

  /** "Sorts at least as high as": the key is at least as large. */
  predicate ByVersion(a: VersionRecord, b: VersionRecord)
  {
    TupleGeq(Key(a), Key(b))
  }

  lemma ByVersionPreorder(s: seq<VersionRecord>)
    ensures TotalPreorderOn(s, ByVersion)
  {
  }

  /** `list(unique.values())`: the stored records in key insertion order. */
  function ValuesOf(order: seq<string>, chosen: map<string, VersionRecord>): (rs: seq<VersionRecord>)
    requires forall k :: k in order ==> k in chosen
    ensures |rs| == |order|
  {
    if order == [] then [] else [chosen[order[0]]] + ValuesOf(order[1..], chosen)
  }

  /** `getVersionHistory` over the rows it gathered: deduplicated, then
      sorted newest first (stable for equal keys). */
  function History(versions: seq<VersionRecord>): seq<VersionRecord>
  {
    var u := DedupOf(versions);
    SortDesc(ValuesOf(u.order, u.chosen), ByVersion)
  }

  /** The records of `h` carrying version `v`. */
  function With(h: seq<VersionRecord>, v: string): (w: seq<VersionRecord>)
    ensures forall x :: x in w <==> x in h && x.version == Some(v)
  {
    if h == [] then []
    else (if h[0].version == Some(v) then [h[0]] else []) + With(h[1..], v)
  }

  lemma {:induction false} WithCount(s: seq<VersionRecord>, v: string, x: VersionRecord)
    ensures multiset(With(s, v))[x] == if x.version == Some(v) then multiset(s)[x] else 0
  {
    if s != [] {
      WithCount(s[1..], v, x);
      assert s == [s[0]] + s[1..];
    }
  }

  lemma WithPermutation(s: seq<VersionRecord>, t: seq<VersionRecord>, v: string)
    requires multiset(s) == multiset(t)
    ensures multiset(With(s, v)) == multiset(With(t, v))
  {
    forall x ensures multiset(With(s, v))[x] == multiset(With(t, v))[x] {
      WithCount(s, v, x);
      WithCount(t, v, x);
    }
  }

  lemma {:induction false} WithValues(u: Unique, order: seq<string>, v: string)
    requires Consistent(u)
    requires forall k :: k in order ==> k in u.chosen
    requires forall i, j :: 0 <= i < j < |order| ==> order[i] != order[j]
    ensures With(ValuesOf(order, u.chosen), v) == if v in order then [u.chosen[v]] else []
  {
    if order != [] {
      assert forall i, j :: 0 <= i < j < |order[1..]| ==> order[1..][i] != order[1..][j] by {
        forall i, j | 0 <= i < j < |order[1..]| ensures order[1..][i] != order[1..][j] {
          assert order[1..][i] == order[i + 1] && order[1..][j] == order[j + 1];
        }
      }
      WithValues(u, order[1..], v);
      if order[0] == v {
        assert v !in order[1..] by {
          forall j | 0 <= j < |order[1..]| ensures order[1..][j] != v {
            assert order[1..][j] == order[j + 1];
          }
        }
      }
    }
  }

  lemma MultisetSingleton(w: seq<VersionRecord>, x: VersionRecord)
    requires multiset(w) == multiset{x}
    ensures w == [x]
  {
    assert |w| == 1;
    assert w[0] in multiset(w);
  }

  /** The history holds exactly one record per versioned row's version,
      namely the one `Pick` names, and none for any other version. */
  lemma HistoryOnePerVersion(versions: seq<VersionRecord>, v: string)
    ensures With(History(versions), v) == (if v == "" || FirstWith(versions, v).None? then [] else [Pick(versions, v).value])
  {
    var u := DedupOf(versions);
    var vals := ValuesOf(u.order, u.chosen);
    var h := SortDesc(vals, ByVersion);
    DedupPicks(versions, v);
    WithValues(u, u.order, v);
    WithPermutation(h, vals, v);
    if v in u.order {
      MultisetSingleton(With(h, v), u.chosen[v]);
    } else {
      assert |With(h, v)| == 0;
    }
  }

  /** The history is sorted newest first. */
  lemma HistorySorted(versions: seq<VersionRecord>)
    ensures var h := History(versions);
      forall i, j :: 0 <= i < j < |h| ==> TupleGeq(Key(h[i]), Key(h[j]))
  {
    var u := DedupOf(versions);
    var vals := ValuesOf(u.order, u.chosen);
    ByVersionPreorder(vals);
    SortDescSorted(vals, ByVersion);
  }

  /** `getLatestVersion` on a history: the version of its head. */
  function LatestOf(h: seq<VersionRecord>): (latest: Option<string>)
    ensures latest.Some? ==> h != [] && h[0].version == latest
    ensures h == [] ==> latest == None
  {
    if h == [] then None else h[0].version
  }

  lemma HistoryHeadVersioned(versions: seq<VersionRecord>)
    requires History(versions) != []
    ensures Versioned(History(versions)[0])
  {
    var u := DedupOf(versions);
    var vals := ValuesOf(u.order, u.chosen);
    assert History(versions)[0] in multiset(vals);
    ValuesOfVersioned(u, u.order);
  }

  /** There is a latest version exactly when some row carries a non-empty
      version, and that version is non-empty. */
  lemma LatestExists(versions: seq<VersionRecord>)
    ensures var latest := LatestOf(History(versions));
      && (latest.Some? <==> exists i :: 0 <= i < |versions| && Versioned(versions[i]))
      && (latest.Some? ==> latest.value != "")
  {
    var h := History(versions);
    if exists i :: 0 <= i < |versions| && Versioned(versions[i]) {
      var i :| 0 <= i < |versions| && Versioned(versions[i]);
      var v := versions[i].version.value;
      HistoryOnePerVersion(versions, v);
      assert With(h, v) != [];
    }
    if h != [] {
      HistoryHeadVersioned(versions);
      var v := h[0].version.value;
      HistoryOnePerVersion(versions, v);
      assert h[0] in With(h, v);
      var i :| 0 <= i < |versions| && versions[i].version == Some(v);
      assert Versioned(versions[i]);
    }
  }

  /** The latest version is the greatest version of the history. */
  lemma LatestIsGreatest(versions: seq<VersionRecord>)
    ensures var latest := LatestOf(History(versions));
      latest.Some? ==> forall r :: r in History(versions) ==> TupleGeq(ParseVersionTuple(latest.value), Key(r))
  {
    var h := History(versions);
    HistorySorted(versions);
    forall r | r in h && h[0].version.Some? ensures TupleGeq(Key(h[0]), Key(r)) {
      var j :| 0 <= j < |h| && h[j] == r;
      if j > 0 {
        assert TupleGeq(Key(h[0]), Key(h[j]));
      }
    }
  }

  lemma {:induction false} ValuesOfVersioned(u: Unique, order: seq<string>)
    requires Consistent(u)
    requires forall k :: k in order ==> k in u.chosen
    ensures forall r :: r in ValuesOf(order, u.chosen) ==> Versioned(r)
  {
    if order != [] {
      ValuesOfVersioned(u, order[1..]);
    }
  }

  /** `versionExists` on a history. */
  predicate InHistory(h: seq<VersionRecord>, version: string)
  {
    exists i :: 0 <= i < |h| && h[i].version == Some(version)
  }

  /** A non-empty version is in the history exactly when some gathered row
      carries it. */
  lemma InHistoryWith(h: seq<VersionRecord>, version: string)
    ensures InHistory(h, version) <==> With(h, version) != []
  {
    var w := With(h, version);
    if InHistory(h, version) {
      var i :| 0 <= i < |h| && h[i].version == Some(version);
      assert h[i] in w;
    }
    if w != [] {
      assert w[0] in h;
    }
  }

  lemma InHistoryIff(versions: seq<VersionRecord>, version: string)
    requires version != ""
    ensures InHistory(History(versions), version) <==> exists i :: 0 <= i < |versions| && versions[i].version == Some(version)
  {
    HistoryOnePerVersion(versions, version);
    InHistoryWith(History(versions), version);
  }

  // ---------------------------------------------------------------------
  // Tenant-side availability and the next version

  function AlreadyExists(toolName: string, version: string): Schemas.Error
  {
    Schemas.InvalidToolDefinition(ExistsPrefix + toolName + ExistsMiddle + version + ExistsSuffix)
  }

  /** `ensureVersionAvailable` over the tenant rows it reads: the version must
      be valid and must not occur in the tenant history, inactive versions
      included. Public versions are not consulted. */
  function Availability(toolName: string, version: string, tenantRows: seq<VersionItem>): Result<(), Schemas.Error>
  {
    if !ValidVersion(version) then Err(InvalidVersion(version))
    else if InHistory(History(Records(tenantRows, TenantSource)), version) then Err(AlreadyExists(toolName, version))
    else Ok(())
  }

  /** A version is available exactly when it is valid and no tenant row
      carries it; otherwise the error says which of the two failed. */
  lemma AvailabilityIff(toolName: string, version: string, tenantRows: seq<VersionItem>)
    ensures var r := Availability(toolName, version, tenantRows);
      && (r.Ok? <==> ValidVersion(version) && forall i :: 0 <= i < |tenantRows| ==> tenantRows[i].version != Some(version))
      && (r.Err? && ValidVersion(version) ==> r.error == AlreadyExists(toolName, version))
      && (!ValidVersion(version) ==> r == Err(InvalidVersion(version)))
  {
    if ValidVersion(version) {
      assert version != "" by {
        assert Split(version, Dot) != [""];
      }
      var rs := Records(tenantRows, TenantSource);
      InHistoryIff(rs, version);
    }
  }

  /** `getNextVersion` given the latest version: "1.0.0" when there is none,
      otherwise its bump (which fails when the stored latest version is not
      itself valid). */
  function NextFor(latest: Option<string>, release: ReleaseType): Result<string, Schemas.Error>
  {
    if latest.None? || latest.value == "" then Ok(FirstVersion) else NextVersion(latest.value, release)
  }

  /** The version `getNextVersion` proposes is valid and lies strictly above
      the latest version; it fails only when the latest version is invalid. */
  lemma NextForAbove(latest: Option<string>, release: ReleaseType)
    ensures var r := NextFor(latest, release);
      && (r.Err? <==> latest.Some? && latest.value != "" && !ValidVersion(latest.value))
      && (r.Ok? ==> ValidVersion(r.value))
      && (r.Ok? && latest.Some? && latest.value != "" ==>
            TupleGt(ParseVersionTuple(r.value), ParseVersionTuple(latest.value)))
      && (latest.None? ==> r == Ok(FirstVersion))
  {
    if latest.Some? && latest.value != "" && ValidVersion(latest.value) {
      NextVersionBumps(latest.value, release);
    } else {
      FormatParse(VersionTuple(1, 0, 0));
      assert FormatVersion(VersionTuple(1, 0, 0)) == FirstVersion;
    }
  }

  // ---------------------------------------------------------------------
  // The caches

  /** `_cacheKey`. */
  function CacheKey(tenantId: string, toolName: string): string
  {
    tenantId + Colon + toolName
  }

  /** Whether `invalidateCache(tenantId, toolName)` drops the tenant-cache
      entry under `k`. An empty or missing argument counts as not given. */
  predicate Evicted(k: string, tenantId: Option<string>, toolName: Option<string>)
  {
    if Given(tenantId) && Given(toolName) then k == CacheKey(tenantId.value, toolName.value)
    else if Given(tenantId) then StartsWith(k, tenantId.value + Colon)
    else if Given(toolName) then EndsWith(k, Colon + toolName.value)
    else false
  }

  /** The tenant cache after `invalidateCache`: the evicted entries gone,
      every other entry as it was. */
  function Invalidated(cache: map<string, seq<VersionItem>>, tenantId: Option<string>, toolName: Option<string>)
    : map<string, seq<VersionItem>>
  {
    map k | k in cache && !Evicted(k, tenantId, toolName) :: cache[k]
  }

  /** Whichever of the two is non-empty, invalidating a (tenant, tool) pair
      drops that pair's entry. */
  lemma InvalidatedDropsPair(cache: map<string, seq<VersionItem>>, tenantId: string, toolName: string)
    requires tenantId != "" || toolName != ""
    ensures CacheKey(tenantId, toolName) !in Invalidated(cache, Some(tenantId), Some(toolName))
  {
    var k := CacheKey(tenantId, toolName);
    assert k[..|tenantId + Colon|] == tenantId + Colon;
    assert k[|k| - |Colon + toolName|..] == Colon + toolName;
  }

  /** Invalidation reaches the entries a later lookup would hit: with tenant
      and tool it removes exactly that pair's entry, with the tenant alone
      every tool of the tenant, with the tool alone every tenant's entry for
      the tool, and with neither nothing. */
  lemma InvalidatedForcesRefetch(cache: map<string, seq<VersionItem>>, tenantId: string, toolName: string, other: string)
    requires tenantId != "" && toolName != ""
    ensures Invalidated(cache, Some(tenantId), Some(toolName)) == cache - {CacheKey(tenantId, toolName)}
    ensures CacheKey(tenantId, other) !in Invalidated(cache, Some(tenantId), None)
    ensures CacheKey(other, toolName) !in Invalidated(cache, None, Some(toolName))
    ensures Invalidated(cache, None, None) == cache
  {
    var k := CacheKey(tenantId, other);
    assert k[..|tenantId + Colon|] == tenantId + Colon;
    var j := CacheKey(other, toolName);
    assert j[|j| - |Colon + toolName|..] == Colon + toolName;
  }

  /** The DynamoDB table as the version queries see it: for a (tenant,
      tool) pair the pages of the key query, for a tool name the pages of
      the name-index query before its filter. A query that raises on any
      page is `Err` with the client's message; the rows of earlier pages are
      then lost with the local list that held them. */
  datatype VersionTable = VersionTable(
    tenantPages: (string, string) -> Result<seq<seq<VersionItem>>, string>,
    publicPages: string -> Result<seq<seq<VersionItem>>, string>)

  /** The rows `_fetchTenantVersions` returns: the cached list when the key
      is cached, whatever `includeInactive` is, else the fresh query result;
      a failed query raises, uncaught. */
  function TenantLookup(cache: map<string, seq<VersionItem>>, key: string, includeInactive: bool,
                        pages: Result<seq<seq<VersionItem>>, string>): Result<seq<VersionItem>, Schemas.Error>
  {
    if key in cache then Ok(cache[key])
    else if pages.Err? then Err(Schemas.QueryFailed(pages.error))
    else Ok(TenantRows(Concat(pages.value), includeInactive))
  }

  /** The rows `_fetchPublicVersions` returns, cached by tool name alone. */
  function PublicLookup(cache: map<string, seq<VersionItem>>, toolName: string, includeInactive: bool,
                        pages: Result<seq<seq<VersionItem>>, string>): Result<seq<VersionItem>, Schemas.Error>
  {
    if toolName in cache then Ok(cache[toolName])
    else if pages.Err? then Err(Schemas.QueryFailed(pages.error))
    else Ok(PublicGathered(pages.value, includeInactive))
  }

  /** A cache after a fetch: the rows are stored under the key once they
      were read, and nothing is stored when the query raised. */
  function Stored(cache: map<string, seq<VersionItem>>, key: string,
                  rows: Result<seq<VersionItem>, Schemas.Error>): map<string, seq<VersionItem>>
  {
    if rows.Ok? then cache[key := rows.value] else cache
  }

  /** Once a lookup that excluded inactive rows has filled the cache, a
      lookup that includes them still gets only the active rows, so a
      version that exists only as an inactive row passes the availability
      check, while a fresh lookup would have rejected it. */
  lemma StaleCacheHidesInactive(toolName: string, version: string, pages: seq<seq<VersionItem>>, key: string)
    requires ValidVersion(version)
    requires exists x :: x in Concat(pages) && x.version == Some(version)
    requires forall x :: x in Concat(pages) && x.version == Some(version) ==> !ActiveRow(x)
    ensures var cache := Stored(map[], key, TenantLookup(map[], key, false, Ok(pages)));
      && Availability(toolName, version, TenantLookup(cache, key, true, Ok(pages)).value).Ok?
      && Availability(toolName, version, TenantLookup(map[], key, true, Ok(pages)).value).Err?
  {
    var x :| x in Concat(pages) && x.version == Some(version);
    var stale := TenantRows(Concat(pages), false);
    var full := TenantRows(Concat(pages), true);
    AvailabilityIff(toolName, version, stale);
    AvailabilityIff(toolName, version, full);
    assert x in full;
    var i :| 0 <= i < |full| && full[i] == x;
    assert full[i].version == Some(version);
    forall j | 0 <= j < |stale| ensures stale[j].version != Some(version) {
      assert stale[j] in stale;
    }
  }

  /** The tenant rows and, when asked for, the public rows `getVersionHistory`
      gathers, as records in that order; the first failed query ends it. */
  function Gathered(tenantCache: map<string, seq<VersionItem>>, publicCache: map<string, seq<VersionItem>>,
                    toolName: string, tenantId: string, includePublic: bool, includeInactive: bool,
                    table: VersionTable): Result<seq<VersionRecord>, Schemas.Error>
  {
    var tenant := TenantLookup(tenantCache, CacheKey(tenantId, toolName), includeInactive,
                               table.tenantPages(tenantId, toolName));
    if tenant.Err? then Err(tenant.error)
    else if !includePublic then Ok(Records(tenant.value, TenantSource))
    else
      var public := PublicLookup(publicCache, toolName, includeInactive, table.publicPages(toolName));
      if public.Err? then Err(public.error)
      else Ok(Records(tenant.value, TenantSource) + Records(public.value, PublicSource))
  }

  /** The two caches after `getVersionHistory`'s fetches: the tenant rows
      stored once read, then the public rows, which are fetched only when
      asked for and only after the tenant fetch succeeded. */
  function CachesAfter(tenantCache: map<string, seq<VersionItem>>, publicCache: map<string, seq<VersionItem>>,
                       toolName: string, tenantId: string, includePublic: bool, includeInactive: bool,
                       table: VersionTable): (map<string, seq<VersionItem>>, map<string, seq<VersionItem>>)
  {
    var key := CacheKey(tenantId, toolName);
    var tenant := TenantLookup(tenantCache, key, includeInactive, table.tenantPages(tenantId, toolName));
    (Stored(tenantCache, key, tenant),
     if includePublic && tenant.Ok?
     then Stored(publicCache, toolName, PublicLookup(publicCache, toolName, includeInactive, table.publicPages(toolName)))
     else publicCache)
  }

  /** A gathering fails exactly when a query it had to make raised: the
      tenant query when the pair is not cached, or, once the tenant rows
      are in hand, the public query when it is asked for and the name is
      not cached. The failure is the client's own exception. */
  lemma GatheredFails(tenantCache: map<string, seq<VersionItem>>, publicCache: map<string, seq<VersionItem>>,
                      toolName: string, tenantId: string, includePublic: bool, includeInactive: bool,
                      table: VersionTable)
    ensures var g := Gathered(tenantCache, publicCache, toolName, tenantId, includePublic, includeInactive, table);
      var tenantFails := CacheKey(tenantId, toolName) !in tenantCache && table.tenantPages(tenantId, toolName).Err?;
      var publicFails := includePublic && toolName !in publicCache && table.publicPages(toolName).Err?;
      && (g.Err? <==> tenantFails || publicFails)
      && (tenantFails ==> g == Err(Schemas.QueryFailed(table.tenantPages(tenantId, toolName).error)))
      && (!tenantFails && publicFails ==> g == Err(Schemas.QueryFailed(table.publicPages(toolName).error)))
  {
  }

  /** After a gathering succeeded, gathering again with the same filter reads
      the rows back from the caches: the same records, whatever the table
      says by then, and the caches stay as they are. */
  lemma GatheredRepeat(tenantCache: map<string, seq<VersionItem>>, publicCache: map<string, seq<VersionItem>>,
                       toolName: string, tenantId: string, includePublic: bool, includeInactive: bool,
                       table: VersionTable, later: VersionTable)
    requires Gathered(tenantCache, publicCache, toolName, tenantId, includePublic, includeInactive, table).Ok?
    ensures var (t, p) := CachesAfter(tenantCache, publicCache, toolName, tenantId, includePublic, includeInactive, table);
      && Gathered(t, p, toolName, tenantId, includePublic, includeInactive, later)
         == Gathered(tenantCache, publicCache, toolName, tenantId, includePublic, includeInactive, table)
      && CachesAfter(t, p, toolName, tenantId, includePublic, includeInactive, later) == (t, p)
  {
    var key := CacheKey(tenantId, toolName);
    var (t, p) := CachesAfter(tenantCache, publicCache, toolName, tenantId, includePublic, includeInactive, table);
    var tenant := TenantLookup(tenantCache, key, includeInactive, table.tenantPages(tenantId, toolName));
    assert t == tenantCache[key := tenant.value];
    assert t[key := t[key]] == t;
    if includePublic {
      var public := PublicLookup(publicCache, toolName, includeInactive, table.publicPages(toolName));
      assert p == publicCache[toolName := public.value];
      assert p[toolName := p[toolName]] == p;
    }
  }

  /** The history `getVersionHistory` returns for what was gathered. */
  function HistoryOf(gathered: Result<seq<VersionRecord>, Schemas.Error>): Result<seq<VersionRecord>, Schemas.Error>
  {
    if gathered.Err? then Err(gathered.error) else Ok(History(gathered.value))
  }

  /** The latest version `getLatestVersion` finds from the given cache state,
      or the exception of a failed query. */
  function LatestFor(tenantCache: map<string, seq<VersionItem>>, publicCache: map<string, seq<VersionItem>>,
                     toolName: string, tenantId: string, includePublic: bool, table: VersionTable)
    : Result<Option<string>, Schemas.Error>
  {
    var g := Gathered(tenantCache, publicCache, toolName, tenantId, includePublic, false, table);
    if g.Err? then Err(g.error) else Ok(LatestOf(History(g.value)))
  }

  /** `ensureVersionAvailable` from the tenant cache: the version is checked
      first, then the tenant rows, inactive included, are read through the
      cache (a failed read raises), then they are checked. */
  function AvailableFrom(tenantCache: map<string, seq<VersionItem>>, toolName: string, tenantId: string,
                         version: string, table: VersionTable): Result<(), Schemas.Error>
  {
    if !ValidVersion(version) then Err(InvalidVersion(version))
    else
      var rows := TenantLookup(tenantCache, CacheKey(tenantId, toolName), true, table.tenantPages(tenantId, toolName));
      if rows.Err? then Err(rows.error) else Availability(toolName, version, rows.value)
  }

  /** A version is available exactly when it is valid, the tenant rows could
      be read, and none of them carries it; the errors say which step failed. */
  lemma AvailableFromIff(tenantCache: map<string, seq<VersionItem>>, toolName: string, tenantId: string,
                         version: string, table: VersionTable)
    ensures var r := AvailableFrom(tenantCache, toolName, tenantId, version, table);
      var rows := TenantLookup(tenantCache, CacheKey(tenantId, toolName), true, table.tenantPages(tenantId, toolName));
      && (r.Ok? <==> ValidVersion(version) && rows.Ok?
                     && forall i :: 0 <= i < |rows.value| ==> rows.value[i].version != Some(version))
      && (!ValidVersion(version) ==> r == Err(InvalidVersion(version)))
      && (ValidVersion(version) && rows.Err? ==> r.Err? && r.error.QueryFailed?)
      && (ValidVersion(version) && rows.Ok? && r.Err? ==> r.error == AlreadyExists(toolName, version))
  {
    var rows := TenantLookup(tenantCache, CacheKey(tenantId, toolName), true, table.tenantPages(tenantId, toolName));
    if ValidVersion(version) && rows.Ok? {
      AvailabilityIff(toolName, version, rows.value);
    }
  }

  /** The deduplication loop of `getVersionHistory`. */
  method Dedup(versions: seq<VersionRecord>) returns (u: Unique)
    ensures u == DedupOf(versions)
  {
    var order: seq<string> := [];
    var unique: map<string, VersionRecord> := map[];
    for i := 0 to |versions|
      invariant Unique(order, unique) == DedupOf(versions[..i])
    {
      var record := versions[i];
      assert versions[..i + 1][..i] == versions[..i];
      if !Versioned(record) {
        continue;
      }
      var version := record.version.value;
      if version !in unique {
        order := order + [version];
        unique := unique[version := record];
      } else if record.source == TenantSource {
        unique := unique[version := record];
      }
    }
    assert versions[..|versions|] == versions;
    u := Unique(order, unique);
  }

  /** The version service with its two caches: tenant rows by "tenant:tool"
      and public rows by tool name. */
  class Versioning {
    var tenantCache: map<string, seq<VersionItem>>
    var publicCache: map<string, seq<VersionItem>>

    constructor ()
      ensures tenantCache == map[] && publicCache == map[]
    {
      tenantCache := map[];
      publicCache := map[];
    }

    /** `clearCache`. */
    method ClearCache()
      modifies this
      ensures tenantCache == map[] && publicCache == map[]
    {
      tenantCache := map[];
      publicCache := map[];
    }

    /** `invalidateCache`: drops the evicted tenant entries, and the public
        entry of the tool whenever a tool is named. */
    method InvalidateCache(tenantId: Option<string>, toolName: Option<string>)
      modifies this
      ensures tenantCache == Invalidated(old(tenantCache), tenantId, toolName)
      ensures publicCache == if Given(toolName) then old(publicCache) - {toolName.value} else old(publicCache)
      ensures tenantId.Some? && toolName.Some? && (tenantId.value != "" || toolName.value != "") ==>
        CacheKey(tenantId.value, toolName.value) !in tenantCache
    {
      if Given(tenantId) && Given(toolName) {
        tenantCache := tenantCache - {CacheKey(tenantId.value, toolName.value)};
      } else if Given(tenantId) || Given(toolName) {
        ghost var c0 := tenantCache;
        var keys := tenantCache.Keys;
        while keys != {}
          invariant keys <= c0.Keys
          invariant tenantCache == map k | k in c0 && (k in keys || !Evicted(k, tenantId, toolName)) :: c0[k]
          invariant publicCache == old(publicCache)
          decreases keys
        {
          var k :| k in keys;
          if Evicted(k, tenantId, toolName) {
            tenantCache := tenantCache - {k};
          }
          keys := keys - {k};
        }
      }
      if Given(toolName) {
        publicCache := publicCache - {toolName.value};
      }
      if tenantId.Some? && toolName.Some? && (tenantId.value != "" || toolName.value != "") {
        InvalidatedDropsPair(old(tenantCache), tenantId.value, toolName.value);
      }
    }

    /** `_fetchTenantVersions`: the cached rows, or all pages of the key
        query filtered and then cached under "tenant:tool"; a failed query
        raises and caches nothing. */
    method FetchTenantVersions(toolName: string, tenantId: string, includeInactive: bool, table: VersionTable)
      returns (items: Result<seq<VersionItem>, Schemas.Error>)
      modifies this
      ensures items == TenantLookup(old(tenantCache), CacheKey(tenantId, toolName), includeInactive,
                                    table.tenantPages(tenantId, toolName))
      ensures tenantCache == Stored(old(tenantCache), CacheKey(tenantId, toolName), items)
      ensures publicCache == old(publicCache)
    {
      var key := CacheKey(tenantId, toolName);
      if key in tenantCache {
        items := Ok(tenantCache[key]);
        assert tenantCache[key := items.value] == tenantCache;
        return;
      }
      var query := table.tenantPages(tenantId, toolName);
      if query.Err? {
        return Err(Schemas.QueryFailed(query.error));
      }
      var pages := query.value;
      var rows := [];
      var i := 0;
      while i < |pages|
        invariant 0 <= i <= |pages|
        invariant rows == Concat(pages[..i])
      {
        assert pages[..i + 1][..i] == pages[..i];
        rows := rows + pages[i];
        i := i + 1;
      }
      assert pages[..|pages|] == pages;
      rows := TenantRows(rows, includeInactive);
      tenantCache := tenantCache[key := rows];
      items := Ok(rows);
    }

    /** `_fetchPublicVersions`: the cached rows, or all pages of the name
        query under its filter, then cached under the tool name; a failed
        query raises and caches nothing. */
    method FetchPublicVersions(toolName: string, includeInactive: bool, table: VersionTable)
      returns (items: Result<seq<VersionItem>, Schemas.Error>)
      modifies this
      ensures items == PublicLookup(old(publicCache), toolName, includeInactive, table.publicPages(toolName))
      ensures publicCache == Stored(old(publicCache), toolName, items)
      ensures tenantCache == old(tenantCache)
    {
      if toolName in publicCache {
        items := Ok(publicCache[toolName]);
        assert publicCache[toolName := items.value] == publicCache;
        return;
      }
      var query := table.publicPages(toolName);
      if query.Err? {
        return Err(Schemas.QueryFailed(query.error));
      }
      var pages := query.value;
      var rows := [];
      var i := 0;
      while i < |pages|
        invariant 0 <= i <= |pages|
        invariant rows == PublicGathered(pages[..i], includeInactive)
      {
        assert pages[..i + 1][..i] == pages[..i];
        rows := rows + PublicRows(pages[i], includeInactive);
        i := i + 1;
      }
      assert pages[..|pages|] == pages;
      publicCache := publicCache[toolName := rows];
      items := Ok(rows);
    }

    /** `getVersionHistory`: the history of the gathered rows, deduplicated
        and sorted, or the exception of the first failed fetch, with the
        caches filled by the fetches that succeeded. */
    method GetVersionHistory(toolName: string, tenantId: string, includePublic: bool, includeInactive: bool,
                             table: VersionTable) returns (history: Result<seq<VersionRecord>, Schemas.Error>)
      modifies this
      ensures history == HistoryOf(Gathered(old(tenantCache), old(publicCache), toolName, tenantId,
                                            includePublic, includeInactive, table))
      ensures (tenantCache, publicCache) == CachesAfter(old(tenantCache), old(publicCache), toolName, tenantId,
                                                         includePublic, includeInactive, table)
    {
      ghost var gathered := Gathered(tenantCache, publicCache, toolName, tenantId, includePublic, includeInactive, table);
      var tenantItems := FetchTenantVersions(toolName, tenantId, includeInactive, table);
      if tenantItems.Err? {
        return Err(tenantItems.error);
      }
      var versions := Records(tenantItems.value, TenantSource);
      if includePublic {
        var publicItems := FetchPublicVersions(toolName, includeInactive, table);
        if publicItems.Err? {
          return Err(publicItems.error);
        }
        versions := versions + Records(publicItems.value, PublicSource);
      }
      assert gathered == Ok(versions);
      var u := Dedup(versions);
      history := Ok(SortDesc(ValuesOf(u.order, u.chosen), ByVersion));
    }

    /** `getLatestVersion`: the head of the active-only history. */
    method GetLatestVersion(toolName: string, tenantId: string, includePublic: bool, table: VersionTable)
      returns (latest: Result<Option<string>, Schemas.Error>)
      modifies this
      ensures latest == LatestFor(old(tenantCache), old(publicCache), toolName, tenantId, includePublic, table)
      ensures (tenantCache, publicCache) == CachesAfter(old(tenantCache), old(publicCache), toolName, tenantId,
                                                         includePublic, false, table)
    {
      var history := GetVersionHistory(toolName, tenantId, includePublic, false, table);
      if history.Err? {
        return Err(history.error);
      }
      if history.value == [] {
        return Ok(None);
      }
      latest := Ok(history.value[0].version);
    }

    /** `versionExists`: rejects an invalid version, otherwise looks the
        version up in the tenant history only. */
    method VersionExists(toolName: string, tenantId: string, version: string, includeInactive: bool,
                         table: VersionTable) returns (r: Result<bool, Schemas.Error>)
      modifies this
      ensures !ValidVersion(version) ==> r == Err(InvalidVersion(version)) && unchanged(this)
      ensures ValidVersion(version) ==>
        var rows := TenantLookup(old(tenantCache), CacheKey(tenantId, toolName), includeInactive,
                                 table.tenantPages(tenantId, toolName));
        && r == (if rows.Err? then Err(rows.error) else Ok(InHistory(History(Records(rows.value, TenantSource)), version)))
        && tenantCache == Stored(old(tenantCache), CacheKey(tenantId, toolName), rows)
        && publicCache == old(publicCache)
    {
      if !ValidVersion(version) {
        return Err(InvalidVersion(version));
      }
      var history := GetVersionHistory(toolName, tenantId, false, includeInactive, table);
      if history.Err? {
        return Err(history.error);
      }
      r := Ok(InHistory(history.value, version));
    }

    /** `ensureVersionAvailable`. */
    method EnsureVersionAvailable(toolName: string, tenantId: string, version: string, table: VersionTable)
      returns (r: Result<(), Schemas.Error>)
      modifies this
      ensures r == AvailableFrom(old(tenantCache), toolName, tenantId, version, table)
      ensures !ValidVersion(version) ==> unchanged(this)
      ensures ValidVersion(version) ==>
        && tenantCache == Stored(old(tenantCache), CacheKey(tenantId, toolName),
                                 TenantLookup(old(tenantCache), CacheKey(tenantId, toolName), true,
                                              table.tenantPages(tenantId, toolName)))
        && publicCache == old(publicCache)
    {
      if !ValidVersion(version) {
        return Err(InvalidVersion(version));
      }
      var known := VersionExists(toolName, tenantId, version, true, table);
      if known.Err? {
        return Err(known.error);
      }
      if known.value {
        return Err(AlreadyExists(toolName, version));
      }
      r := Ok(());
    }

    /** `getNextVersion`: the next version after the latest one, with the
        caches filled as `getLatestVersion` fills them. */
    method GetNextVersion(toolName: string, tenantId: string, release: ReleaseType, includePublic: bool,
                          table: VersionTable) returns (r: Result<string, Schemas.Error>)
      modifies this
      ensures var latest := LatestFor(old(tenantCache), old(publicCache), toolName, tenantId, includePublic, table);
        r == if latest.Err? then Err(latest.error) else NextFor(latest.value, release)
      ensures (tenantCache, publicCache) == CachesAfter(old(tenantCache), old(publicCache), toolName, tenantId,
                                                         includePublic, false, table)
    {
      var latest := GetLatestVersion(toolName, tenantId, includePublic, table);
      if latest.Err? {
        return Err(latest.error);
      }
      if latest.value.None? || latest.value.value == "" {
        return Ok(FirstVersion);
      }
      r := NextVersion(latest.value.value, release);
    }
  }
}
