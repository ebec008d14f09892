/** The authentication middleware (AgentSynapse/api/middleware/authMiddleware.py):
    the user and primary group from the token claims, the tenant subdomain
    from the request headers, the tenant context built from both, and the
    permission check. Decoding the token is foreign code: its outcome is an
    input. Headers are a map from lower-case names to values. */
module Auth {
  import opened Values
  import opened Strings
  import Schemas

  const AuthorizationHeader := "authorization"
  const OriginHeader := "origin"
  const RefererHeader := "referer"
  const SiteHeader := "gz-site"
  const HttpScheme := "http://"
  const HttpsScheme := "https://"
  const SlashChar := '/'
  const DotChar := '.'

  const AdminGroup := "Admin"
  const ModifyGroup := "Modify"
  const ReadonlyGroup := "Readonly"
  const AdminRole := "ADMIN"
  const ModifyRole := "MODIFY"
  const ReadonlyRole := "READONLY"

  const MissingHeaderDetail := "Unauthorized: Missing Authorization header"
  const MissingUsernameDetail := "Unauthorized: Token missing username"
  const UnauthorizedDetail := "Unauthorized"
  const NoSubdomainDetail := "Unable to determine tenant subdomain"
  const MissingPermissionPrefix := "Missing required permission: "

  const Unauthorized := 401
  const BadRequest := 400
  const Forbidden := 403

  /** The claims of a decoded token that the middleware reads: the
      "cognito:username" claim and the "cognito:groups" claim (`None` when
      missing or null). */
  datatype Claims = Claims(username: Option<string>, groups: Option<seq<string>>)

  /** What `getUserAndRole` returns. */
  datatype UserInfo = UserInfo(user: string, group: string, allGroups: seq<string>)

  type Headers = map<string, string>

  // ---------------------------------------------------------------------
  // User and group

  /** The primary group: Admin before Modify before Readonly, else "". */
  function GroupOf(groups: seq<string>): string
  {
    if AdminGroup in groups then AdminRole
    else if ModifyGroup in groups then ModifyRole
    else if ReadonlyGroup in groups then ReadonlyRole
    else ""
  }

  /** Each role is chosen exactly when its group is present and no group of
      higher priority is; the choice depends on membership only. */
  lemma GroupPriority(groups: seq<string>, others: seq<string>)
    ensures GroupOf(groups) == AdminRole <==> AdminGroup in groups
    ensures GroupOf(groups) == ModifyRole <==> AdminGroup !in groups && ModifyGroup in groups
    ensures GroupOf(groups) == ReadonlyRole <==> AdminGroup !in groups && ModifyGroup !in groups && ReadonlyGroup in groups
    ensures GroupOf(groups) == "" <==> AdminGroup !in groups && ModifyGroup !in groups && ReadonlyGroup !in groups
    ensures (forall g :: g in groups <==> g in others) ==> GroupOf(groups) == GroupOf(others)
  {
  }

  function HttpError(statusCode: int, detail: string): Schemas.Error
  {
    Schemas.HttpException(statusCode, detail)
  }

  /** `getUserAndRole`: the token must be present and decode to claims with
      a username; every failure is a 401. */
  function UserAndRole(headers: Headers, decode: string -> Option<Claims>): (r: Result<UserInfo, Schemas.Error>)
  {
    if AuthorizationHeader !in headers || headers[AuthorizationHeader] == "" then
      Err(HttpError(Unauthorized, MissingHeaderDetail))
    else
      var claims := decode(headers[AuthorizationHeader]);
      if claims.None? then Err(HttpError(Unauthorized, UnauthorizedDetail))
      else if !Given(claims.value.username) then Err(HttpError(Unauthorized, MissingUsernameDetail))
      else
        var groups := if claims.value.groups.Some? then claims.value.groups.value else [];
        Ok(UserInfo(claims.value.username.value, GroupOf(groups), groups))
  }

  /** The user is known exactly when a token is present, decodes, and names
      a user; otherwise the answer is a 401. */
  lemma UserAndRoleOutcome(headers: Headers, decode: string -> Option<Claims>)
    ensures var r := UserAndRole(headers, decode);
      && (r.Ok? <==> AuthorizationHeader in headers && headers[AuthorizationHeader] != ""
                     && decode(headers[AuthorizationHeader]).Some?
                     && Given(decode(headers[AuthorizationHeader]).value.username))
      && (r.Err? ==> r.error.HttpException? && r.error.statusCode == Unauthorized)
      && (r.Ok? ==> r.value.user != "" && r.value.group == GroupOf(r.value.allGroups))
  {
  }

  // ---------------------------------------------------------------------
  // Subdomain

  /** Both schemes removed everywhere, "http://" first. */
  function StripSchemes(origin: string): string
  {
    ReplaceAll(ReplaceAll(origin, HttpScheme, ""), HttpsScheme, "")
  }

  /** The text before the first "/". */
  function HostOf(s: string): string
  {
    Split(s, SlashChar)[0]
  }

  /** The first "."-label of a host of exactly four labels, else "". */
  function LabelOf(host: string): string
  {
    var parts := Split(host, DotChar);
    if |parts| == 4 then parts[0] else ""
  }

  /** The subdomain an origin or referer URL names. */
  function ParseOrigin(origin: string): string
  {
    LabelOf(HostOf(StripSchemes(origin)))
  }

  /** `getSubdomain`: the "origin" header, else a non-empty "referer", is
      parsed; without either the "gz-site" header is returned as it is. */
  function Subdomain(headers: Headers): string
  {
    if OriginHeader in headers then ParseOrigin(headers[OriginHeader])
    else if RefererHeader in headers && headers[RefererHeader] != "" then ParseOrigin(headers[RefererHeader])
    else if SiteHeader in headers then headers[SiteHeader]
    else ""
  }

  /** "origin" wins over "referer", which wins over "gz-site"; the fallback
      is not parsed. */
  lemma SubdomainPrecedence(headers: Headers, other: string)
    ensures OriginHeader in headers ==>
      Subdomain(headers) == Subdomain(headers[RefererHeader := other][SiteHeader := other])
    ensures OriginHeader !in headers && RefererHeader in headers && headers[RefererHeader] != "" ==>
      Subdomain(headers) == Subdomain(headers[SiteHeader := other])
    ensures OriginHeader !in headers && (RefererHeader !in headers || headers[RefererHeader] == "") ==>
      Subdomain(headers[SiteHeader := other]) == other
  {
  }

  /** Four labels give the first one; any other number gives "". */
  lemma {:induction false} LabelOfJoin(labels: seq<string>)
    requires |labels| >= 1
    requires forall i :: 0 <= i < |labels| ==> DotChar !in labels[i]
    ensures LabelOf(Join(labels, DotChar)) == if |labels| == 4 then labels[0] else ""
  {
    SplitJoin(labels, DotChar);
  }

  /** The host is everything before the first "/". */
  lemma HostOfPath(host: string, path: string)
    requires SlashChar !in host
    ensures HostOf(host) == host
    ensures HostOf(host + [SlashChar] + path) == host
  {
    SplitNoSeparator(host, SlashChar);
    SplitPrefix(host, path, SlashChar);
  }

  /** A pattern holding a ":" starts nowhere in a string without one. */
  lemma NoColonNoMatch(s: string, pat: string, k: nat)
    requires k < |pat| && pat[k] == ':' && ':' !in s
    ensures forall i :: 0 <= i <= |s| ==> !StartsWith(s[i..], pat)
  {
    forall i | 0 <= i <= |s| ensures !StartsWith(s[i..], pat) {
      if |pat| <= |s[i..]| {
        assert s[i..][..|pat|][k] == s[i + k];
      }
    }
  }

  /** Replacement leaves a prefix alone when the pattern starts nowhere in it. */
  lemma {:induction false} ReplaceSkipsPrefix(x: string, s: string, pat: string, rep: string)
    requires pat != ""
    requires forall i :: 0 <= i < |x| ==> !StartsWith((x + s)[i..], pat)
    ensures ReplaceAll(x + s, pat, rep) == x + ReplaceAll(s, pat, rep)
    decreases |x|
  {
    if x == [] {
      assert x + s == s;
    } else {
      var xs := x + s;
      assert xs[0..] == xs;
      assert xs[1..] == x[1..] + s;
      forall i | 0 <= i < |x[1..]| ensures !StartsWith((x[1..] + s)[i..], pat) {
        assert (x[1..] + s)[i..] == xs[i + 1..];
      }
      ReplaceSkipsPrefix(x[1..], s, pat, rep);
      calc {
        ReplaceAll(xs, pat, rep);
        [xs[0]] + ReplaceAll(xs[1..], pat, rep);
        [x[0]] + (x[1..] + ReplaceAll(s, pat, rep));
        ([x[0]] + x[1..]) + ReplaceAll(s, pat, rep);
        { assert [x[0]] + x[1..] == x; }
        x + ReplaceAll(s, pat, rep);
      }
    }
  }

  /** Stripping the schemes from a URL whose rest holds no ":" leaves the rest. */
  lemma StripSchemesOf(rest: string)
    requires ':' !in rest
    ensures StripSchemes(HttpsScheme + rest) == rest
    ensures StripSchemes(HttpScheme + rest) == rest
    ensures StripSchemes(rest) == rest
  {
    assert HttpScheme[4] == ':' && HttpsScheme[5] == ':';
    NoColonNoMatch(rest, HttpScheme, 4);
    NoColonNoMatch(rest, HttpsScheme, 5);
    ReplaceAbsent(rest, HttpScheme, "");
    ReplaceAbsent(rest, HttpsScheme, "");
    // "http://" starts nowhere inside "https://"
    forall i | 0 <= i < |HttpsScheme| ensures !StartsWith((HttpsScheme + rest)[i..], HttpScheme) {
      if i == 0 {
        assert (HttpsScheme + rest)[4] != HttpScheme[4];
      } else {
        assert (HttpsScheme + rest)[i..][0] != HttpScheme[0];
      }
    }
    ReplaceSkipsPrefix(HttpsScheme, rest, HttpScheme, "");
    assert (HttpsScheme + rest)[|HttpsScheme|..] == rest;
    assert (HttpScheme + rest)[|HttpScheme|..] == rest;
  }

  lemma JoinFour(a: string, b: string, c: string, d: string)
    ensures Join([a, b, c, d], DotChar) == a + [DotChar] + b + [DotChar] + c + [DotChar] + d
  {
    var labels := [a, b, c, d];
    assert labels[1..] == [b, c, d] && labels[1..][1..] == [c, d] && labels[1..][1..][1..] == [d];
    assert Join([c, d], DotChar) == c + [DotChar] + d;
    assert Join([b, c, d], DotChar) == b + [DotChar] + c + [DotChar] + d;
  }

  /** A URL "scheme://a.b.c.d/path" names the subdomain "a", whichever of the
      two schemes it uses. */
  lemma ParseOriginOfUrl(a: string, b: string, c: string, d: string, path: string)
    requires forall s :: s in [a, b, c, d] ==> DotChar !in s && SlashChar !in s && ':' !in s
    requires ':' !in path
    ensures var url := a + [DotChar] + b + [DotChar] + c + [DotChar] + d + [SlashChar] + path;
      ParseOrigin(HttpsScheme + url) == a && ParseOrigin(HttpScheme + url) == a
  {
    var labels := [a, b, c, d];
    var host := Join(labels, DotChar);
    JoinFour(a, b, c, d);
    assert a in labels && b in labels && c in labels && d in labels;
    assert SlashChar !in host && ':' !in host;
    var url := host + [SlashChar] + path;
    assert ':' !in url;
    StripSchemesOf(url);
    HostOfPath(host, path);
    LabelOfJoin(labels);
  }

  // ---------------------------------------------------------------------
  // Tenant context and permissions

  /** `[role for role in roles if role]`. */
  function NonEmpty(roles: seq<string>): (r: seq<string>)
    ensures forall x :: x in r <==> x in roles && x != ""
    ensures |r| <= |roles|
  {
    if roles == [] then []
    else (if roles[0] != "" then [roles[0]] else []) + NonEmpty(roles[1..])
  }

  /** `extractTenantContext`: the user first (401), then the subdomain
      (400 when empty); the roles are the non-empty groups and there are
      never any permissions. */
  function ExtractTenantContext(headers: Headers, decode: string -> Option<Claims>)
    : (r: Result<Schemas.TenantContext, Schemas.Error>)
  {
    var user := UserAndRole(headers, decode);
    if user.Err? then Err(user.error)
    else
      var subdomain := Subdomain(headers);
      if subdomain == "" then Err(HttpError(BadRequest, NoSubdomainDetail))
      else Ok(Schemas.TenantContext(subdomain, user.value.user, None, NonEmpty(user.value.allGroups), []))
  }

  /** A tenant context names the subdomain as tenant, the token's user, the
      non-empty groups as roles, no organisation and no permission; a bad
      token is reported before a missing subdomain. */
  lemma TenantContextFields(headers: Headers, decode: string -> Option<Claims>)
    ensures var r := ExtractTenantContext(headers, decode);
      var user := UserAndRole(headers, decode);
      && (user.Err? ==> r == Err(user.error))
      && (user.Ok? && Subdomain(headers) == "" ==> r == Err(HttpError(BadRequest, NoSubdomainDetail)))
      && (r.Ok? ==> && user.Ok? && r.value.tenantId == Subdomain(headers) != ""
                    && r.value.userId == user.value.user && r.value.orgId == None
                    && (forall g :: g in r.value.roles <==> g in user.value.allGroups && g != "")
                    && r.value.permissions == [])
  {
  }

  /** `requirePermission`: the context, unless the permission is missing
      from it (403). */
  function RequirePermission(permission: string, headers: Headers, decode: string -> Option<Claims>)
    : (r: Result<Schemas.TenantContext, Schemas.Error>)
  {
    var context := ExtractTenantContext(headers, decode);
    if context.Err? then context
    else if permission !in context.value.permissions then
      Err(HttpError(Forbidden, MissingPermissionPrefix + permission))
    else context
  }

  /** Since a context never carries permissions, the check refuses every
      request: with a 403 whenever the context itself could be built. */
  lemma RequirePermissionRefuses(permission: string, headers: Headers, decode: string -> Option<Claims>)
    ensures RequirePermission(permission, headers, decode).Err?
    ensures ExtractTenantContext(headers, decode).Ok? ==>
      RequirePermission(permission, headers, decode) == Err(HttpError(Forbidden, MissingPermissionPrefix + permission))
  {
  }
}
