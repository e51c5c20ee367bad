/** Matching a frozen plan back against the live profile, as
    src/agents/slack-thread.ts does when a conversation goes on. */
module Projection {
  import opened Prelude
  import opened CanonicalJson
  import opened Sorting
  import opened RuntimePlan
  import opened PlanIdentity

  // ----- string sets

  /** `JSON.stringify([...new Set(values)].sort())` */
  ghost function SetText(values: seq<string>): string {
    Canon(StringsJson(SortedUnique(values, Leq)))
  }

  ghost predicate SameStringSet(left: seq<string>, right: seq<string>) {
    SetText(left) == SetText(right)
  }

  lemma LeqIsTotalOrder()
    ensures TotalOrder(Leq)
  {
    forall a, b ensures Leq(a, b) || Leq(b, a) { LeqTotal(a, b); }
    forall a, b ensures Leq(a, b) && Leq(b, a) ==> a == b {
      if Leq(a, b) && Leq(b, a) { LeqAntisymmetric(a, b); }
    }
    forall a, b, c ensures Leq(a, b) && Leq(b, c) ==> Leq(a, c) {
      if Leq(a, b) && Leq(b, c) { LeqTransitive(a, b, c); }
    }
  }

  /** Comparing the texts compares the sets. */
  lemma SameStringSetIsSetEquality(left: seq<string>, right: seq<string>)
    ensures SameStringSet(left, right) <==> SameSet(left, right)
  {
    LeqIsTotalOrder();
    var l, r := SortedUnique(left, Leq), SortedUnique(right, Leq);
    CanonInjective(StringsJson(l), StringsJson(r));
    if StringsJson(l) == StringsJson(r) { StringsInjective(l, r); }
    SortedUniqueIsOfSet(left, right, Leq);
  }

  // ----- projection

  /** `x` is the first of `xs` that is `ok`. */
  ghost predicate IsFirst<T>(xs: seq<T>, ok: T -> bool, x: T) {
    exists k :: 0 <= k < |xs| && xs[k] == x && ok(x) && forall j :: 0 <= j < k ==> !ok(xs[j])
  }

  /** `xs.find(ok)` */
  ghost function FindFirst<T>(xs: seq<T>, ok: T -> bool): (found: Option<T>)
    ensures found.Some? ==> IsFirst(xs, ok, found.value)
    ensures found.None? ==> forall x <- xs :: !ok(x)
  {
    if xs == [] then None
    else if ok(xs[0]) then
      assert IsFirst(xs, ok, xs[0]);
      Some(xs[0])
    else
      var later := FindFirst(xs[1..], ok);
      assert later.Some? ==> IsFirst(xs, ok, later.value) by {
        if later.Some? {
          var k :| 0 <= k < |xs| - 1 && xs[1..][k] == later.value && forall j :: 0 <= j < k ==> !ok(xs[1..][j]);
          assert xs[k + 1] == later.value && forall j :: 0 <= j < k + 1 ==> !ok(xs[j]);
        }
      }
      later
  }

  ghost predicate ApiMatches(env: Platform, current: ApiConfig, planned: Api) {
    && ApiEligible(current)
    && SameStringSet(MapSeq(env.lower, current.allowedHosts), planned.allowedHosts)
    && SameStringSet(current.pathPrefixes, planned.pathPrefixes)
    && SameStringSet(MapSeq(env.upper, current.allowedMethods), planned.allowedMethods)
    && env.lower(current.headerName) == planned.headerName
    && current.headerValuePrefix == planned.headerValuePrefix
    && current.authMode.GetOr("credential") == planned.authMode
    && current.oauthProvider == planned.oauthProvider
    && SameStringSet(current.oauthScopes.GetOr([]), planned.oauthScopes.GetOr([]))
  }

  predicate RepositoryMatches(env: Platform, current: Grant, planned: Repository) {
    && current.enabled
    && env.lower(current.fullName) == env.lower(planned.fullName)
    && (current.allRepos == Some(true)) == planned.allRepos
  }

  predicate McpMatches(current: McpConfig, planned: Mcp) {
    && current.id == planned.id && current.enabled && current.lifecycle == "ready"
    && current.url == planned.url && current.transport == planned.transport && current.authMode == planned.authMode
    && forall tool <- planned.allowedTools :: tool in current.allowedTools
  }

  ghost function LiveApi(env: Platform, rows: seq<ApiConfig>, planned: Api): Option<ApiConfig> {
    FindFirst(rows, (c: ApiConfig) => c.id == planned.id && ApiMatches(env, c, planned))
  }

  ghost function LiveRepository(env: Platform, rows: seq<Grant>, planned: Repository): Option<Grant> {
    FindFirst(rows, (g: Grant) => g.id == planned.id && RepositoryMatches(env, g, planned))
  }

  ghost function LiveMcp(rows: seq<McpConfig>, planned: Mcp): Option<McpConfig> {
    FindFirst(rows, c => McpMatches(c, planned))
  }

  /** All the rows looked for, or None when one of them is missing. */
  function AllFound<T>(found: seq<Option<T>>): (r: Option<seq<T>>)
    ensures r.Some? <==> forall i :: 0 <= i < |found| ==> found[i].Some?
    ensures r.Some? ==> |r.value| == |found| && forall i :: 0 <= i < |found| ==> found[i] == Some(r.value[i])
  {
    if found == [] then Some([])
    else
      var rest := AllFound(found[1..]);
      assert forall i :: 1 <= i < |found| ==> found[i] == found[1..][i - 1];
      if found[0].None? || rest.None? then None else Some([found[0].value] + rest.value)
  }

  /** Each declaration's live row; without one the conversation cannot go on. */
  ghost function LiveApis(env: Platform, rows: seq<ApiConfig>, planned: seq<Api>): Option<seq<ApiConfig>> {
    AllFound(seq(|planned|, i requires 0 <= i < |planned| => LiveApi(env, rows, planned[i])))
  }

  ghost function LiveRepositories(env: Platform, rows: seq<Grant>, planned: seq<Repository>): Option<seq<Grant>> {
    AllFound(seq(|planned|, i requires 0 <= i < |planned| => LiveRepository(env, rows, planned[i])))
  }

  /** Each declared server's live row, where there is one. */
  ghost function LiveMcps(rows: seq<McpConfig>, planned: seq<Mcp>): seq<McpConfig> {
    if planned == [] then []
    else
      var first := LiveMcp(rows, planned[0]);
      (if first.Some? then [first.value] else []) + LiveMcps(rows, planned[1..])
  }

  datatype Projected = Projected(
    id: string, instructions: string, model: string, skills: seq<Skill>,
    mcpServers: seq<McpConfig>, apiConnections: seq<ApiConfig>, repositories: seq<Grant>)

  /** projectRuntimePlanAgent; None stands for a thrown error. */
  ghost function Project(env: Platform, p: Plan, current: Agent): Option<Projected> {
    var apis := LiveApis(env, current.apiConnections, p.apiConnections);
    var repositories := LiveRepositories(env, current.repositories, p.repositories);
    if current.id != p.agentId || apis.None? || repositories.None? then None
    else Some(Projected(current.id, p.instructions, p.model, p.skills,
                        LiveMcps(current.mcpServers, p.mcpConnections), apis.value, repositories.value))
  }

  // ----- a successful projection returns live rows that still say what was frozen

  /** The live row permits exactly what the plan declared. */
  predicate SamePolicy(env: Platform, c: ApiConfig, planned: Api) {
    && c.id == planned.id && c.enabled && (c.lifecycle.None? || c.lifecycle == Some("ready"))
    && SameSet(MapSeq(env.lower, c.allowedHosts), planned.allowedHosts)
    && SameSet(c.pathPrefixes, planned.pathPrefixes)
    && SameSet(MapSeq(env.upper, c.allowedMethods), planned.allowedMethods)
    && env.lower(c.headerName) == planned.headerName && c.headerValuePrefix == planned.headerValuePrefix
    && c.authMode.GetOr("credential") == planned.authMode && c.oauthProvider == planned.oauthProvider
    && SameSet(c.oauthScopes.GetOr([]), planned.oauthScopes.GetOr([]))
  }

  lemma MatchIsSamePolicy(env: Platform, c: ApiConfig, planned: Api)
    ensures c.id == planned.id && ApiMatches(env, c, planned) <==> SamePolicy(env, c, planned)
  {
    SameStringSetIsSetEquality(MapSeq(env.lower, c.allowedHosts), planned.allowedHosts);
    SameStringSetIsSetEquality(c.pathPrefixes, planned.pathPrefixes);
    SameStringSetIsSetEquality(MapSeq(env.upper, c.allowedMethods), planned.allowedMethods);
    SameStringSetIsSetEquality(c.oauthScopes.GetOr([]), planned.oauthScopes.GetOr([]));
  }

  /** The live row grants exactly the repository that the plan declared. */
  predicate SameRepository(env: Platform, g: Grant, planned: Repository) {
    && g.id == planned.id && g.enabled && env.lower(g.fullName) == env.lower(planned.fullName)
    && (planned.allRepos <==> g.allRepos == Some(true))
  }

  /** The live row is the server that the plan declared, and allows every tool declared. */
  predicate SameServer(c: McpConfig, planned: Mcp) {
    && c.id == planned.id && c.enabled && c.lifecycle == "ready"
    && c.url == planned.url && c.transport == planned.transport && c.authMode == planned.authMode
    && forall tool <- planned.allowedTools :: tool in c.allowedTools
  }

  ghost predicate ApiFor(env: Platform, rows: seq<ApiConfig>, planned: Api, c: ApiConfig) {
    IsFirst(rows, x => SamePolicy(env, x, planned), c)
  }

  ghost predicate RepositoryFor(env: Platform, rows: seq<Grant>, planned: Repository, g: Grant) {
    IsFirst(rows, x => SameRepository(env, x, planned), g)
  }

  ghost predicate ServerFor(rows: seq<McpConfig>, planned: Mcp, c: McpConfig) {
    IsFirst(rows, x => SameServer(x, planned), c)
  }

  lemma FirstOfSame<T(!new)>(xs: seq<T>, p: T -> bool, q: T -> bool, x: T)
    requires forall y :: p(y) == q(y)
    ensures IsFirst(xs, p, x) <==> IsFirst(xs, q, x)
  {
  }

  lemma LiveApiIsFirst(env: Platform, rows: seq<ApiConfig>, planned: Api)
    ensures match LiveApi(env, rows, planned)
            case None => forall c <- rows :: !SamePolicy(env, c, planned)
            case Some(c) => ApiFor(env, rows, planned, c)
  {
    forall c: ApiConfig ensures c.id == planned.id && ApiMatches(env, c, planned) <==> SamePolicy(env, c, planned) {
      MatchIsSamePolicy(env, c, planned);
    }
    var live := LiveApi(env, rows, planned);
    if live.Some? {
      FirstOfSame(rows, (c: ApiConfig) => c.id == planned.id && ApiMatches(env, c, planned),
                  c => SamePolicy(env, c, planned), live.value);
    }
  }

  lemma LiveRepositoryIsFirst(env: Platform, rows: seq<Grant>, planned: Repository)
    ensures match LiveRepository(env, rows, planned)
            case None => forall g <- rows :: !SameRepository(env, g, planned)
            case Some(g) => RepositoryFor(env, rows, planned, g)
  {
    var live := LiveRepository(env, rows, planned);
    if live.Some? {
      FirstOfSame(rows, (g: Grant) => g.id == planned.id && RepositoryMatches(env, g, planned),
                  g => SameRepository(env, g, planned), live.value);
    }
  }

  lemma LiveMcpIsFirst(rows: seq<McpConfig>, planned: Mcp)
    ensures match LiveMcp(rows, planned)
            case None => forall c <- rows :: !SameServer(c, planned)
            case Some(c) => ServerFor(rows, planned, c)
  {
    var live := LiveMcp(rows, planned);
    if live.Some? { FirstOfSame(rows, c => McpMatches(c, planned), c => SameServer(c, planned), live.value); }
  }

  /** A projection fails exactly for another agent, or when an API or repository
      declaration has no live row that says the same. */
  lemma ProjectionFailsExactly(env: Platform, p: Plan, current: Agent)
    ensures Project(env, p, current).None? <==>
              || current.id != p.agentId
              || (exists d <- p.apiConnections :: forall c <- current.apiConnections :: !SamePolicy(env, c, d))
              || (exists d <- p.repositories :: forall g <- current.repositories :: !SameRepository(env, g, d))
  {
    ApisFailExactly(env, current.apiConnections, p.apiConnections);
    RepositoriesFailExactly(env, current.repositories, p.repositories);
  }

  lemma ApisFailExactly(env: Platform, rows: seq<ApiConfig>, planned: seq<Api>)
    ensures LiveApis(env, rows, planned).None? <==>
              exists d <- planned :: forall c <- rows :: !SamePolicy(env, c, d)
  {
    var found := seq(|planned|, i requires 0 <= i < |planned| => LiveApi(env, rows, planned[i]));
    forall i | 0 <= i < |planned| ensures found[i].None? <==> forall c <- rows :: !SamePolicy(env, c, planned[i]) {
      LiveApiIsFirst(env, rows, planned[i]);
    }
    if AllFound(found).None? {
      var i :| 0 <= i < |found| && found[i].None?;
      assert planned[i] in planned;
    }
  }

  lemma RepositoriesFailExactly(env: Platform, rows: seq<Grant>, planned: seq<Repository>)
    ensures LiveRepositories(env, rows, planned).None? <==>
              exists d <- planned :: forall g <- rows :: !SameRepository(env, g, d)
  {
    var found := seq(|planned|, i requires 0 <= i < |planned| => LiveRepository(env, rows, planned[i]));
    forall i | 0 <= i < |planned| ensures found[i].None? <==> forall g <- rows :: !SameRepository(env, g, planned[i]) {
      LiveRepositoryIsFirst(env, rows, planned[i]);
    }
    if AllFound(found).None? {
      var i :| 0 <= i < |found| && found[i].None?;
      assert planned[i] in planned;
    }
  }

  lemma LiveApisAreLive(env: Platform, rows: seq<ApiConfig>, planned: seq<Api>)
    requires LiveApis(env, rows, planned).Some?
    ensures var live := LiveApis(env, rows, planned).value;
            |live| == |planned| && forall i :: 0 <= i < |live| ==> ApiFor(env, rows, planned[i], live[i])
  {
    var live := LiveApis(env, rows, planned).value;
    forall i | 0 <= i < |live| ensures ApiFor(env, rows, planned[i], live[i]) {
      assert LiveApi(env, rows, planned[i]) == Some(live[i]);
      LiveApiIsFirst(env, rows, planned[i]);
    }
  }

  lemma LiveRepositoriesAreLive(env: Platform, rows: seq<Grant>, planned: seq<Repository>)
    requires LiveRepositories(env, rows, planned).Some?
    ensures var live := LiveRepositories(env, rows, planned).value;
            |live| == |planned| && forall i :: 0 <= i < |live| ==> RepositoryFor(env, rows, planned[i], live[i])
  {
    var live := LiveRepositories(env, rows, planned).value;
    forall i | 0 <= i < |live| ensures RepositoryFor(env, rows, planned[i], live[i]) {
      assert LiveRepository(env, rows, planned[i]) == Some(live[i]);
      LiveRepositoryIsFirst(env, rows, planned[i]);
    }
  }

  /** `at` lists, in order, the declarations that have a server; `live` has the
      servers, and no other declaration has one. */
  ghost predicate Serve(rows: seq<McpConfig>, planned: seq<Mcp>, live: seq<McpConfig>, at: seq<nat>) {
    && |at| == |live| && (forall j, k :: 0 <= j < k < |at| ==> at[j] < at[k])
    && (forall k :: 0 <= k < |at| ==> at[k] < |planned| && ServerFor(rows, planned[at[k]], live[k]))
    && (forall d :: 0 <= d < |planned| && d !in at ==> forall c <- rows :: !SameServer(c, planned[d]))
  }

  lemma ShiftedHas(later: seq<nat>, shifted: seq<nat>, d: nat)
    requires |shifted| == |later| && d > 0 && forall k :: 0 <= k < |later| ==> shifted[k] == later[k] + 1
    ensures d in shifted <==> d - 1 in later
  {
    if d - 1 in later {
      var k :| 0 <= k < |later| && later[k] == d - 1;
      assert shifted[k] == d;
    }
  }

  lemma ServeOnward(rows: seq<McpConfig>, planned: seq<Mcp>, live: seq<McpConfig>, at: seq<nat>)
    returns (shifted: seq<nat>)
    requires planned != [] && Serve(rows, planned[1..], live, at)
    requires forall c <- rows :: !SameServer(c, planned[0])
    ensures Serve(rows, planned, live, shifted)
  {
    shifted := seq(|at|, k requires 0 <= k < |at| => at[k] + 1);
    forall d | 0 <= d < |planned| && d !in shifted ensures forall c <- rows :: !SameServer(c, planned[d]) {
      if d > 0 { OthersUnserved(rows, planned, live, at, shifted, d); }
    }
  }

  lemma OthersUnserved(rows: seq<McpConfig>, planned: seq<Mcp>, live: seq<McpConfig>, at: seq<nat>,
                       shifted: seq<nat>, d: nat)
    requires 0 < d < |planned| && Serve(rows, planned[1..], live, at) && d !in shifted
    requires |shifted| == |at| && forall k :: 0 <= k < |at| ==> shifted[k] == at[k] + 1
    ensures forall c <- rows :: !SameServer(c, planned[d])
  {
    ShiftedHas(at, shifted, d);
    assert planned[1..][d - 1] == planned[d];
  }

  /** The declarations of `at`, one further on, behind the first. */
  function FirstAnd(at: seq<nat>): (all: seq<nat>)
    ensures |all| == |at| + 1 && all[0] == 0 && forall k :: 0 < k < |all| ==> all[k] == at[k - 1] + 1
    ensures forall d :: d > 0 && d !in all ==> d - 1 !in at
  {
    var all := [0] + seq(|at|, k requires 0 <= k < |at| => at[k] + 1);
    assert forall d :: d - 1 in at ==> d in all by {
      forall d | d - 1 in at ensures d in all {
        var k :| 0 <= k < |at| && at[k] == d - 1;
        assert all[k + 1] == d;
      }
    }
    all
  }

  lemma FirstThenServed(rows: seq<McpConfig>, planned: seq<Mcp>, first: McpConfig, live: seq<McpConfig>,
                        at: seq<nat>, k: nat)
    requires planned != [] && Serve(rows, planned[1..], live, at) && 0 < k <= |at|
    ensures FirstAnd(at)[k] < |planned| && ServerFor(rows, planned[FirstAnd(at)[k]], ([first] + live)[k])
  {
    assert ([first] + live)[k] == live[k - 1] && planned[FirstAnd(at)[k]] == planned[1..][at[k - 1]];
  }

  lemma OthersThenUnserved(rows: seq<McpConfig>, planned: seq<Mcp>, live: seq<McpConfig>, at: seq<nat>, d: nat)
    requires planned != [] && Serve(rows, planned[1..], live, at) && d < |planned| && d !in FirstAnd(at)
    ensures forall c <- rows :: !SameServer(c, planned[d])
  {
    assert d != FirstAnd(at)[0];
    assert planned[1..][d - 1] == planned[d];
  }

  lemma ServeFirst(rows: seq<McpConfig>, planned: seq<Mcp>, first: McpConfig, live: seq<McpConfig>, at: seq<nat>)
    requires planned != [] && Serve(rows, planned[1..], live, at) && ServerFor(rows, planned[0], first)
    ensures Serve(rows, planned, [first] + live, FirstAnd(at))
  {
    var all, servers := FirstAnd(at), [first] + live;
    forall k | 0 <= k < |all| ensures all[k] < |planned| && ServerFor(rows, planned[all[k]], servers[k]) {
      if k > 0 { FirstThenServed(rows, planned, first, live, at, k); }
    }
    forall d | 0 <= d < |planned| && d !in all ensures forall c <- rows :: !SameServer(c, planned[d]) {
      OthersThenUnserved(rows, planned, live, at, d);
    }
  }

  lemma {:induction false} LiveMcpsAreLive(rows: seq<McpConfig>, planned: seq<Mcp>) returns (at: seq<nat>)
    ensures Serve(rows, planned, LiveMcps(rows, planned), at)
    decreases |planned|
  {
    if planned == [] {
      at := [];
    } else {
      var later := LiveMcpsAreLive(rows, planned[1..]);
      var first, rest := LiveMcp(rows, planned[0]), LiveMcps(rows, planned[1..]);
      LiveMcpIsFirst(rows, planned[0]);
      if first.Some? {
        ServeFirst(rows, planned, first.value, rest, later);
        at := FirstAnd(later);
      } else {
        at := ServeOnward(rows, planned, rest, later);
        assert [] + rest == rest;
      }
    }
  }

  /** A projection that succeeds returns for each API and repository
      declaration the first live row of the profile that says the same, and for
      the servers those of the declarations that have such a row, in order;
      instructions, model and skills are the frozen ones. */
  lemma ProjectionIsLive(env: Platform, p: Plan, current: Agent) returns (at: seq<nat>)
    requires Project(env, p, current).Some?
    ensures var r := Project(env, p, current).value;
            && r.id == p.agentId && r.instructions == p.instructions && r.model == p.model && r.skills == p.skills
            && |r.apiConnections| == |p.apiConnections| && |r.repositories| == |p.repositories|
            && (forall i :: 0 <= i < |r.apiConnections| ==>
                  ApiFor(env, current.apiConnections, p.apiConnections[i], r.apiConnections[i]))
            && (forall i :: 0 <= i < |r.repositories| ==>
                  RepositoryFor(env, current.repositories, p.repositories[i], r.repositories[i]))
    ensures Serve(current.mcpServers, p.mcpConnections, Project(env, p, current).value.mcpServers, at)
  {
    LiveApisAreLive(env, current.apiConnections, p.apiConnections);
    LiveRepositoriesAreLive(env, current.repositories, p.repositories);
    at := LiveMcpsAreLive(current.mcpServers, p.mcpConnections);
  }

  // ----- a plan projects onto the profile it was compiled from

  lemma {:induction false} InsertCommutes<T, U>(
      f: T -> U, x: T, xs: seq<T>, id: T -> string, key: U -> string, leq: Order)
    requires forall y :: key(f(y)) == id(y)
    ensures InsertBy(f(x), MapSeq(f, xs), key, leq) == MapSeq(f, InsertBy(x, xs, id, leq))
    decreases |xs|
  {
    if xs != [] {
      InsertCommutes(f, x, xs[1..], id, key, leq);
      assert MapSeq(f, xs)[1..] == MapSeq(f, xs[1..]);
      assert MapSeq(f, [x] + xs) == [f(x)] + MapSeq(f, xs);
      var rest := InsertBy(x, xs[1..], id, leq);
      assert ([xs[0]] + rest)[1..] == rest;
    }
  }

  /** Sorting rows by id and compiling them is compiling them and sorting by id. */
  lemma {:induction false} SortCommutes<T, U>(f: T -> U, xs: seq<T>, id: T -> string, key: U -> string, leq: Order)
    requires forall y :: key(f(y)) == id(y)
    ensures SortBy(MapSeq(f, xs), key, leq) == MapSeq(f, SortBy(xs, id, leq))
    decreases |xs|
  {
    if xs != [] {
      SortCommutes(f, xs[1..], id, key, leq);
      assert MapSeq(f, xs)[1..] == MapSeq(f, xs[1..]);
      InsertCommutes(f, xs[0], SortBy(xs[1..], id, leq), id, key, leq);
    }
  }

  /** A provider, where there is one, has a name. */
  predicate NamedProvider(c: ApiConfig) {
    c.oauthProvider != Some("")
  }

  predicate EmptyPrefix(c: ApiConfig) {
    c.headerValuePrefix == Some("")
  }

  lemma SortedUniqueSameSet(env: Platform, xs: seq<string>)
    requires ValidPlatform(env)
    ensures SameSet(xs, SortedUnique(xs, env.leq))
  {
    SortedUniqueAscends(xs, env.leq);
  }

  /** A row matches its own declaration exactly when its header prefix is not
      the empty text: compiling drops that, and projecting compares it. */
  lemma RowMatchesItself(env: Platform, c: ApiConfig)
    requires ValidPlatform(env) && ApiEligible(c) && NamedProvider(c)
    ensures SamePolicy(env, c, CompileApi(env, c)) <==> !EmptyPrefix(c)
  {
    SortedUniqueSameSet(env, MapSeq(env.lower, c.allowedHosts));
    SortedUniqueSameSet(env, c.pathPrefixes);
    SortedUniqueSameSet(env, MapSeq(env.upper, c.allowedMethods));
    if c.oauthScopes.Some? { SortedUniqueSameSet(env, c.oauthScopes.value); }
  }

  lemma SameIdIsSame<T(!new)>(keep: T -> bool, rows: seq<T>, id: T -> string, a: T, b: T)
    requires DistinctBy(FilterSeq(keep, rows), id)
    requires a in rows && b in rows && keep(a) && keep(b) && id(a) == id(b)
    ensures a == b
  {
    var kept := FilterSeq(keep, rows);
    assert a in kept && b in kept;
    var i :| 0 <= i < |kept| && kept[i] == a;
    var j :| 0 <= j < |kept| && kept[j] == b;
  }

  lemma LiveApiOfRow(env: Platform, rows: seq<ApiConfig>, c: ApiConfig)
    requires ValidPlatform(env) && c in rows && ApiEligible(c) && NamedProvider(c)
    requires DistinctBy(FilterSeq(ApiEligible, rows), ApiRowId)
    ensures LiveApi(env, rows, CompileApi(env, c)) == if EmptyPrefix(c) then None else Some(c)
  {
    var planned := CompileApi(env, c);
    RowMatchesItself(env, c);
    MatchIsSamePolicy(env, c, planned);
    var found := LiveApi(env, rows, planned);
    if found.Some? { SameIdIsSame(ApiEligible, rows, ApiRowId, c, found.value); }
  }

  lemma LiveApisOfRows(env: Platform, rows: seq<ApiConfig>, planned: seq<Api>, chosen: seq<ApiConfig>)
    requires ValidPlatform(env) && DistinctBy(FilterSeq(ApiEligible, rows), ApiRowId)
    requires forall c <- chosen :: c in rows && ApiEligible(c) && NamedProvider(c)
    requires |planned| == |chosen| && forall i :: 0 <= i < |chosen| ==> planned[i] == CompileApi(env, chosen[i])
    ensures LiveApis(env, rows, planned) == if exists c <- chosen :: EmptyPrefix(c) then None else Some(chosen)
  {
    forall i | 0 <= i < |chosen|
      ensures LiveApi(env, rows, planned[i]) == if EmptyPrefix(chosen[i]) then None else Some(chosen[i])
    {
      assert chosen[i] in chosen;
      LiveApiOfRow(env, rows, chosen[i]);
    }
    var found := seq(|planned|, i requires 0 <= i < |planned| => LiveApi(env, rows, planned[i]));
    AllFoundOf(found, chosen, EmptyPrefix);
  }

  lemma AllFoundOf<T(!new)>(found: seq<Option<T>>, chosen: seq<T>, missing: T -> bool)
    requires |found| == |chosen|
    requires forall i :: 0 <= i < |found| ==> found[i] == if missing(chosen[i]) then None else Some(chosen[i])
    ensures AllFound(found) == if exists c <- chosen :: missing(c) then None else Some(chosen)
  {
    var r := AllFound(found);
    if r.Some? {
      assert r.value == chosen;
      forall c <- chosen ensures !missing(c) {
        var i :| 0 <= i < |chosen| && chosen[i] == c;
      }
    } else {
      var i :| 0 <= i < |found| && found[i].None?;
      assert chosen[i] in chosen;
    }
  }

  lemma LiveRepositoriesOfRows(env: Platform, rows: seq<Grant>, chosen: seq<Grant>)
    requires DistinctBy(FilterSeq(GrantEnabled, rows), GrantId)
    requires forall g <- chosen :: g in rows && g.enabled
    ensures LiveRepositories(env, rows, MapSeq(CompileRepository, chosen)) == Some(chosen)
  {
    var planned := MapSeq(CompileRepository, chosen);
    forall i | 0 <= i < |chosen| ensures LiveRepository(env, rows, planned[i]) == Some(chosen[i]) {
      var g := chosen[i];
      assert g in chosen && RepositoryMatches(env, g, CompileRepository(g));
      SameIdIsSame(GrantEnabled, rows, GrantId, g, LiveRepository(env, rows, planned[i]).value);
    }
    assert LiveRepositories(env, rows, planned).value == chosen;
  }

  predicate McpLive(c: McpConfig) {
    c.enabled && c.lifecycle == "ready"
  }

  lemma LiveMcpOfRow(env: Platform, rows: seq<McpConfig>, c: McpConfig)
    requires ValidPlatform(env) && DistinctBy(FilterSeq(McpLive, rows), McpRowId)
    requires c in rows && McpEligible(c)
    ensures LiveMcp(rows, CompileMcp(env, c)) == Some(c)
  {
    SortedUniqueSameSet(env, c.allowedTools);
    assert McpMatches(c, CompileMcp(env, c));
    SameIdIsSame(McpLive, rows, McpRowId, c, LiveMcp(rows, CompileMcp(env, c)).value);
  }

  lemma {:induction false} AllLiveMcps(rows: seq<McpConfig>, planned: seq<Mcp>, chosen: seq<McpConfig>)
    requires |planned| == |chosen|
    requires forall i :: 0 <= i < |chosen| ==> LiveMcp(rows, planned[i]) == Some(chosen[i])
    ensures LiveMcps(rows, planned) == chosen
    decreases |chosen|
  {
    if chosen != [] {
      AllLiveMcps(rows, planned[1..], chosen[1..]);
      assert chosen == [chosen[0]] + chosen[1..];
    }
  }

  lemma LiveMcpsOfRows(env: Platform, rows: seq<McpConfig>, planned: seq<Mcp>, chosen: seq<McpConfig>)
    requires ValidPlatform(env) && DistinctBy(FilterSeq(McpLive, rows), McpRowId)
    requires forall c <- chosen :: c in rows && McpEligible(c)
    requires |planned| == |chosen| && forall i :: 0 <= i < |chosen| ==> planned[i] == CompileMcp(env, chosen[i])
    ensures LiveMcps(rows, planned) == chosen
  {
    forall i | 0 <= i < |chosen| ensures LiveMcp(rows, planned[i]) == Some(chosen[i]) {
      assert chosen[i] in chosen;
      LiveMcpOfRow(env, rows, chosen[i]);
    }
    AllLiveMcps(rows, planned, chosen);
  }

  /** No two live rows of a kind share an id. */
  ghost predicate DistinctRows(a: Agent) {
    && DistinctBy(FilterSeq(ApiEligible, a.apiConnections), ApiRowId)
    && DistinctBy(FilterSeq(GrantEnabled, a.repositories), GrantId)
    && DistinctBy(FilterSeq(McpLive, a.mcpServers), McpRowId)
  }

  ghost function EligibleApis(env: Platform, a: Agent): seq<ApiConfig> {
    SortBy(FilterSeq(ApiEligible, a.apiConnections), ApiRowId, env.leq)
  }

  ghost function EligibleRepositories(env: Platform, a: Agent): seq<Grant> {
    SortBy(FilterSeq(GrantEnabled, a.repositories), GrantId, env.leq)
  }

  ghost function EligibleMcps(env: Platform, a: Agent): seq<McpConfig> {
    SortBy(FilterSeq(McpEligible, a.mcpServers), McpRowId, env.leq)
  }

  lemma ApisComeBack(env: Platform, a: Agent)
    requires ValidPlatform(env) && DistinctRows(a) && forall c <- a.apiConnections :: NamedProvider(c)
    ensures LiveApis(env, a.apiConnections, CompileApis(env, a.apiConnections))
         == if exists c :: c in a.apiConnections && ApiEligible(c) && EmptyPrefix(c) then None
            else Some(EligibleApis(env, a))
  {
    var kept := FilterSeq(ApiEligible, a.apiConnections);
    SortCommutes(ApiCompiler(env), kept, ApiRowId, ApiId, env.leq);
    SortElements(kept, ApiRowId, env.leq);
    LiveApisOfRows(env, a.apiConnections, CompileApis(env, a.apiConnections), EligibleApis(env, a));
  }

  lemma RepositoriesComeBack(env: Platform, a: Agent)
    requires ValidPlatform(env) && DistinctRows(a)
    ensures LiveRepositories(env, a.repositories, CompileRepositories(env, a.repositories))
         == Some(EligibleRepositories(env, a))
  {
    var kept := FilterSeq(GrantEnabled, a.repositories);
    SortCommutes(CompileRepository, kept, GrantId, RepositoryId, env.leq);
    SortElements(kept, GrantId, env.leq);
    LiveRepositoriesOfRows(env, a.repositories, EligibleRepositories(env, a));
  }

  lemma McpsComeBack(env: Platform, a: Agent)
    requires ValidPlatform(env) && DistinctRows(a)
    ensures LiveMcps(a.mcpServers, CompileMcps(env, a.mcpServers)) == EligibleMcps(env, a)
  {
    var kept := FilterSeq(McpEligible, a.mcpServers);
    SortCommutes(McpCompiler(env), kept, McpRowId, McpId, env.leq);
    SortElements(kept, McpRowId, env.leq);
    LiveMcpsOfRows(env, a.mcpServers, CompileMcps(env, a.mcpServers), EligibleMcps(env, a));
  }

  /** A plan compiled from a profile projects onto that unchanged profile
      exactly when no eligible API connection has the empty text as its header
      prefix, and then returns its eligible rows, each kind in the order of ids. */
  lemma CompiledPlanProjects(env: Platform, i: Input)
    requires ValidPlatform(env) && DistinctRows(i.agent)
    requires forall c <- i.agent.apiConnections :: NamedProvider(c)
    ensures var r := Project(env, DraftPlan(env, i), i.agent);
            && (r.None? <==> exists c :: c in i.agent.apiConnections && ApiEligible(c) && EmptyPrefix(c))
            && (r.Some? ==>
                  && r.value.apiConnections == EligibleApis(env, i.agent)
                  && r.value.repositories == EligibleRepositories(env, i.agent)
                  && r.value.mcpServers == EligibleMcps(env, i.agent))
  {
    PlanComesBack(env, i.agent, DraftPlan(env, i));
  }

  /** A plan with the lists compiled from a profile, and that profile. */
  lemma PlanComesBack(env: Platform, a: Agent, p: Plan)
    requires ValidPlatform(env) && DistinctRows(a) && forall c <- a.apiConnections :: NamedProvider(c)
    requires p.agentId == a.id && p.mcpConnections == CompileMcps(env, a.mcpServers)
    requires p.apiConnections == CompileApis(env, a.apiConnections)
    requires p.repositories == CompileRepositories(env, a.repositories)
    ensures var r := Project(env, p, a);
            && (r.None? <==> exists c :: c in a.apiConnections && ApiEligible(c) && EmptyPrefix(c))
            && (r.Some? ==>
                  && r.value.apiConnections == EligibleApis(env, a)
                  && r.value.repositories == EligibleRepositories(env, a)
                  && r.value.mcpServers == EligibleMcps(env, a))
  {
    ApisComeBack(env, a);
    RepositoriesComeBack(env, a);
    McpsComeBack(env, a);
  }
}
