/** What compiling a profile puts into a plan, field by field and list by list,
    in terms of the turn and the profile alone. */
module PlanCompiling {
  import opened Prelude
  import opened CanonicalJson
  import opened OrderedMaps
  import opened Sorting
  import opened RuntimePlan
  import opened PlanNormalForm
  import PlanIdentity

  // ----- sorting is stable

  /** The rows of one key, in their order. */
  function AtKey<T(!new)>(xs: seq<T>, key: T -> string, k: string): (at: seq<T>)
    ensures forall x :: x in at <==> x in xs && key(x) == k
  {
    FilterSeq((y: T) => key(y) == k, xs)
  }

  lemma AtKeyFirst<T(!new)>(xs: seq<T>, key: T -> string, k: string)
    requires xs != []
    ensures AtKey(xs, key, k) == (if key(xs[0]) == k then [xs[0]] else []) + AtKey(xs[1..], key, k)
  {
  }

  lemma {:induction false} InsertIsStable<T(!new)>(x: T, xs: seq<T>, key: T -> string, leq: Order, k: string)
    requires TotalOrder(leq)
    ensures AtKey(InsertBy(x, xs, key, leq), key, k) == AtKey([x] + xs, key, k)
    decreases |xs|
  {
    if xs == [] {
      assert InsertBy(x, xs, key, leq) == [x] + xs;
    } else if !leq(key(x), key(xs[0])) {
      var rest := InsertBy(x, xs[1..], key, leq);
      InsertIsStable(x, xs[1..], key, leq, k);
      AtKeyFirst([xs[0]] + rest, key, k);
      AtKeyFirst([x] + xs, key, k);
      AtKeyFirst([x] + xs[1..], key, k);
      AtKeyFirst(xs, key, k);
      assert ([xs[0]] + rest)[1..] == rest && ([x] + xs)[1..] == xs && ([x] + xs[1..])[1..] == xs[1..];
      assert key(x) != key(xs[0]);
    }
  }

  /** Rows of one key keep their order. */
  lemma {:induction false} SortIsStable<T(!new)>(xs: seq<T>, key: T -> string, leq: Order, k: string)
    requires TotalOrder(leq)
    ensures AtKey(SortBy(xs, key, leq), key, k) == AtKey(xs, key, k)
    decreases |xs|
  {
    if xs != [] {
      var sorted := SortBy(xs[1..], key, leq);
      SortIsStable(xs[1..], key, leq, k);
      InsertIsStable(xs[0], sorted, key, leq, k);
      AtKeyFirst([xs[0]] + sorted, key, k);
      AtKeyFirst(xs, key, k);
      assert ([xs[0]] + sorted)[1..] == sorted;
    }
  }

  lemma {:induction false} AtKeyOfMap<T(!new), U(!new)>(f: T -> U, key: U -> string, k: string, keep: T -> bool,
                                                        kept: T -> bool, rows: seq<T>)
    requires forall x :: kept(x) <==> keep(x) && key(f(x)) == k
    ensures AtKey(MapSeq(f, FilterSeq(keep, rows)), key, k) == MapSeq(f, FilterSeq(kept, rows))
    decreases |rows|
  {
    if rows != [] {
      AtKeyOfMap(f, key, k, keep, kept, rows[1..]);
      if keep(rows[0]) {
        var rest := MapSeq(f, FilterSeq(keep, rows[1..]));
        assert MapSeq(f, [rows[0]] + FilterSeq(keep, rows[1..])) == [f(rows[0])] + rest;
        AtKeyFirst([f(rows[0])] + rest, key, k);
        assert ([f(rows[0])] + rest)[1..] == rest;
        assert kept(rows[0]) ==>
          MapSeq(f, [rows[0]] + FilterSeq(kept, rows[1..])) == [f(rows[0])] + MapSeq(f, FilterSeq(kept, rows[1..]));
      }
    }
  }

  // ----- lists

  /** The rows that are kept, and what is made of each, in their order. */
  ghost predicate Images<T(!new), U>(rows: seq<T>, keep: T -> bool, images: seq<U>, image: (T, U) -> bool) {
    var kept := FilterSeq(keep, rows);
    |images| == |kept| && forall k :: 0 <= k < |kept| ==> image(kept[k], images[k])
  }

  /** `values` are the elements of `names`, each once, ascending. */
  ghost predicate Ordered(env: Platform, values: seq<string>, names: seq<string>) {
    Ascending(values, env.leq) && forall v :: v in values <==> v in names
  }

  /** The same, of the names in another case. */
  ghost predicate OrderedCase(env: Platform, values: seq<string>, names: seq<string>, fold: string -> string) {
    Ascending(values, env.leq) && forall v :: v in values <==> exists n :: n in names && fold(n) == v
  }

  /** What a plan says of a ready MCP server. */
  ghost predicate McpImage(env: Platform, c: McpConfig, m: Mcp) {
    && m.id == c.id && m.url == c.url && m.transport == c.transport && m.authMode == c.authMode && m.optional
    && OrderedCase(env, m.headerNames, c.headerNames, env.lower) && Ordered(env, m.allowedTools, c.allowedTools)
  }

  ghost predicate ApiImage(env: Platform, c: ApiConfig, a: Api) {
    && a.id == c.id && a.headerName == env.lower(c.headerName)
    && OrderedCase(env, a.allowedHosts, c.allowedHosts, env.lower) && Ordered(env, a.pathPrefixes, c.pathPrefixes)
    && OrderedCase(env, a.allowedMethods, c.allowedMethods, env.upper)
    && a.headerValuePrefix == (if c.headerValuePrefix == Some("") then None else c.headerValuePrefix)
    && a.authMode == (if c.authMode.Some? then c.authMode.value else "credential")
    && a.oauthProvider == (if c.oauthProvider == Some("") then None else c.oauthProvider)
    && a.oauthScopes.Some? == c.oauthScopes.Some?
    && (a.oauthScopes.Some? ==> Ordered(env, a.oauthScopes.value, c.oauthScopes.value))
  }

  predicate RepositoryImage(g: Grant, r: Repository) {
    r.id == g.id && r.fullName == g.fullName && (r.allRepos <==> g.allRepos == Some(true))
  }

  lemma OrderedOfSorted(env: Platform, names: seq<string>, fold: string -> string)
    requires ValidPlatform(env)
    ensures Ordered(env, SortedUnique(names, env.leq), names)
    ensures OrderedCase(env, SortedUnique(MapSeq(fold, names), env.leq), names, fold)
  {
    SortedUniqueAscends(names, env.leq);
    var folded := MapSeq(fold, names);
    SortedUniqueAscends(folded, env.leq);
    forall v ensures v in folded <==> exists n :: n in names && fold(n) == v {
      if v in folded {
        var i :| 0 <= i < |folded| && folded[i] == v;
        assert names[i] in names;
      }
      if n :| n in names && fold(n) == v {
        var i :| 0 <= i < |names| && names[i] == n;
        assert folded[i] == v;
      }
    }
  }

  lemma McpIsImage(env: Platform, c: McpConfig)
    requires ValidPlatform(env)
    ensures McpImage(env, c, CompileMcp(env, c))
  {
    OrderedOfSorted(env, c.headerNames, env.lower);
    OrderedOfSorted(env, c.allowedTools, env.lower);
  }

  lemma ApiIsImage(env: Platform, c: ApiConfig)
    requires ValidPlatform(env)
    ensures ApiImage(env, c, CompileApi(env, c))
  {
    OrderedOfSorted(env, c.allowedHosts, env.lower);
    OrderedOfSorted(env, c.pathPrefixes, env.lower);
    OrderedOfSorted(env, c.allowedMethods, env.upper);
    if c.oauthScopes.Some? { OrderedOfSorted(env, c.oauthScopes.value, env.lower); }
  }

  /** Rows that are filtered, mapped and sorted by a key, seen at one key. */
  lemma OneKey<T(!new), U(!new)>(rows: seq<T>, keep: T -> bool, f: T -> U, key: U -> string, leq: Order, k: string,
                                 kept: T -> bool, image: (T, U) -> bool)
    requires TotalOrder(leq) && (forall x :: kept(x) <==> keep(x) && key(f(x)) == k) && forall x :: image(x, f(x))
    ensures var r := SortBy(MapSeq(f, FilterSeq(keep, rows)), key, leq);
            SortedBy(r, key, leq) && Images(rows, kept, AtKey(r, key, k), image)
  {
    var all := MapSeq(f, FilterSeq(keep, rows));
    SortSorts(all, key, leq);
    SortIsStable(all, key, leq, k);
    AtKeyOfMap(f, key, k, keep, kept, rows);
  }

  function ReadyServer(id: string): McpConfig -> bool {
    (c: McpConfig) => c.enabled && c.lifecycle == "ready" && c.allowedTools != [] && c.id == id
  }

  function ReadyApi(id: string): ApiConfig -> bool {
    (c: ApiConfig) => c.enabled && (c.lifecycle == None || c.lifecycle == Some("ready")) && c.id == id
  }

  function EnabledGrant(id: string): Grant -> bool {
    (g: Grant) => g.enabled && g.id == id
  }

  ghost function McpImages(env: Platform): (McpConfig, Mcp) -> bool {
    (c, m) => McpImage(env, c, m)
  }

  ghost function ApiImages(env: Platform): (ApiConfig, Api) -> bool {
    (c, a) => ApiImage(env, c, a)
  }

  ghost predicate IsLastEnabled(rows: seq<SkillConfig>, n: int, s: Skill) {
    && 0 <= n < |rows| && rows[n].enabled && s == Skill(rows[n].name, rows[n].description, rows[n].instructions)
    && forall l :: n < l < |rows| && rows[l].enabled ==> rows[l].name != rows[n].name
  }

  ghost predicate Ascends(env: Platform, skills: seq<Skill>) {
    forall j, k :: 0 <= j < k < |skills| ==> env.leq(skills[j].name, skills[k].name) && skills[j].name != skills[k].name
  }

  // ----- the whole plan

  /** The scalar fields of the plan of an input. */
  ghost predicate HasFields(env: Platform, i: Input, p: Plan) {
    var thread := if i.sessionThreadTs.Some? then i.sessionThreadTs.value else i.threadTs;
    var c := p.conversation;
    && p.model == i.model && p.instructions == i.instructions && p.memoryEpoch == i.memoryEpoch
    && p.agentId == i.agent.id && p.sandboxMode == i.sandboxMode
    && c.workspaceId == i.workspaceId && c.channelId == i.channelId && p.artifactChannelId == i.channelId
    && c.threadTs == thread
    && c.continuityKey == env.opaqueId("agent", i.workspaceId + ":" + i.channelId + ":" + thread)
    && c.surface == (if i.source == "dm_message" || i.channelType == Some("im") || i.channelType == Some("mpim")
                     then "direct_message" else "channel_thread")
    && p.continuityPolicy == (if i.continuityPolicy.Some? then i.continuityPolicy.value else "slack-runtime-v2")
    && p.slackIdentityId == (if i.slackIdentityId.Some? then i.slackIdentityId
                             else if i.agent.slackIdentityId.Some? then i.agent.slackIdentityId
                             else Some("slack_identity_default"))
    && p.harnessRevision == env.sha(Canon(HarnessJson(p)))
  }

  /** Its MCP connections: by id, and at every id what is made of the enabled,
      ready servers that allow a tool, in their order. */
  ghost predicate McpsOf(env: Platform, rows: seq<McpConfig>, xs: seq<Mcp>) {
    && SortedBy(xs, McpId, env.leq)
    && forall id :: Images(rows, ReadyServer(id), AtKey(xs, McpId, id), McpImages(env))
  }

  /** Its API connections: of the enabled ones that are ready or have no lifecycle. */
  ghost predicate ApisOf(env: Platform, rows: seq<ApiConfig>, xs: seq<Api>) {
    && SortedBy(xs, ApiId, env.leq)
    && forall id :: Images(rows, ReadyApi(id), AtKey(xs, ApiId, id), ApiImages(env))
  }

  /** Its repositories: of the enabled ones. */
  ghost predicate RepositoriesOf(env: Platform, rows: seq<Grant>, xs: seq<Repository>) {
    && SortedBy(xs, RepositoryId, env.leq)
    && forall id :: Images(rows, EnabledGrant(id), AtKey(xs, RepositoryId, id), RepositoryImage)
  }

  /** Its skills: by name, no name twice; of every name the last that is enabled. */
  ghost predicate SkillsOf(env: Platform, rows: seq<SkillConfig>, xs: seq<Skill>) {
    && Ascends(env, xs) && forall s :: s in xs <==> exists n :: IsLastEnabled(rows, n, s)
  }

  /** The plan of an input, whether or not it is within the bounds. */
  ghost predicate PlanOf(env: Platform, i: Input, p: Plan) {
    && HasFields(env, i, p) && SkillsOf(env, i.agent.skills, p.skills)
    && McpsOf(env, i.agent.mcpServers, p.mcpConnections) && ApisOf(env, i.agent.apiConnections, p.apiConnections)
    && RepositoriesOf(env, i.agent.repositories, p.repositories)
  }

  // ----- lists by key are determined by what they hold at each key

  lemma NothingAtAnyKey<T(!new)>(xs: seq<T>, key: T -> string)
    requires forall k :: AtKey(xs, key, k) == []
    ensures xs == []
  {
    if xs != [] { AtKeyFirst(xs, key, key(xs[0])); }
  }

  lemma {:induction false} OneListByKey<T(!new)>(xs: seq<T>, ys: seq<T>, key: T -> string, leq: Order)
    requires TotalOrder(leq) && SortedBy(xs, key, leq) && SortedBy(ys, key, leq)
    requires forall k :: AtKey(xs, key, k) == AtKey(ys, key, k)
    ensures xs == ys
    decreases |xs|
  {
    if xs == [] {
      NothingAtAnyKey(ys, key);
    } else {
      assert xs[0] in AtKey(xs, key, key(xs[0]));
      SameHead(xs, ys, key, leq);
      forall k ensures AtKey(xs[1..], key, k) == AtKey(ys[1..], key, k) {
        AtKeyFirst(xs, key, k);
        AtKeyFirst(ys, key, k);
        SameRest(if key(xs[0]) == k then [xs[0]] else [], AtKey(xs[1..], key, k), AtKey(ys[1..], key, k));
      }
      OneListByKey(xs[1..], ys[1..], key, leq);
      assert xs == [xs[0]] + xs[1..] && ys == [ys[0]] + ys[1..];
    }
  }

  lemma SameHead<T(!new)>(xs: seq<T>, ys: seq<T>, key: T -> string, leq: Order)
    requires TotalOrder(leq) && SortedBy(xs, key, leq) && SortedBy(ys, key, leq) && xs != [] && ys != []
    requires forall k :: AtKey(xs, key, k) == AtKey(ys, key, k)
    ensures xs[0] == ys[0]
  {
    assert xs[0] in AtKey(xs, key, key(xs[0])) && ys[0] in AtKey(ys, key, key(ys[0]));
    HeadIsLeast(xs, key, leq, ys[0]);
    HeadIsLeast(ys, key, leq, xs[0]);
    AtKeyFirst(xs, key, key(xs[0]));
    AtKeyFirst(ys, key, key(xs[0]));
    assert AtKey(xs, key, key(xs[0]))[0] == xs[0] && AtKey(ys, key, key(xs[0]))[0] == ys[0];
  }

  lemma SameRest<T>(a: seq<T>, b: seq<T>, c: seq<T>)
    requires a + b == a + c
    ensures b == c
  {
    assert (a + b)[|a|..] == b && (a + c)[|a|..] == c;
  }

  lemma HeadIsLeast<T>(xs: seq<T>, key: T -> string, leq: Order, x: T)
    requires TotalOrder(leq) && SortedBy(xs, key, leq) && x in xs
    ensures leq(key(xs[0]), key(x))
  {
    var i :| 0 <= i < |xs| && xs[i] == x;
    assert leq(key(x), key(x));
  }

  // ----- images are functions of their rows

  lemma OneOrdered(env: Platform, values: seq<string>, names: seq<string>)
    requires ValidPlatform(env) && Ordered(env, values, names)
    ensures values == SortedUnique(names, env.leq)
  {
    SortedUniqueAscends(names, env.leq);
    AscendingIsUnique(values, SortedUnique(names, env.leq), Self, env.leq);
  }

  lemma OneOrderedCase(env: Platform, values: seq<string>, names: seq<string>, fold: string -> string)
    requires ValidPlatform(env) && OrderedCase(env, values, names, fold)
    ensures values == SortedUnique(MapSeq(fold, names), env.leq)
  {
    OrderedOfSorted(env, names, fold);
    AscendingIsUnique(values, SortedUnique(MapSeq(fold, names), env.leq), Self, env.leq);
  }

  lemma McpImageIsOne(env: Platform, c: McpConfig, m: Mcp)
    requires ValidPlatform(env)
    ensures McpImage(env, c, m) <==> m == CompileMcp(env, c)
  {
    McpIsImage(env, c);
    if McpImage(env, c, m) {
      OneOrderedCase(env, m.headerNames, c.headerNames, env.lower);
      OneOrdered(env, m.allowedTools, c.allowedTools);
    }
  }

  lemma ApiImageIsOne(env: Platform, c: ApiConfig, a: Api)
    requires ValidPlatform(env)
    ensures ApiImage(env, c, a) <==> a == CompileApi(env, c)
  {
    ApiIsImage(env, c);
    if ApiImage(env, c, a) {
      OneOrderedCase(env, a.allowedHosts, c.allowedHosts, env.lower);
      OneOrdered(env, a.pathPrefixes, c.pathPrefixes);
      OneOrderedCase(env, a.allowedMethods, c.allowedMethods, env.upper);
      if c.oauthScopes.Some? { OneOrdered(env, a.oauthScopes.value, c.oauthScopes.value); }
    }
  }

  lemma OneImages<T(!new), U(!new)>(rows: seq<T>, keep: T -> bool, xs: seq<U>, ys: seq<U>, image: (T, U) -> bool)
    requires Images(rows, keep, xs, image) && Images(rows, keep, ys, image)
    requires forall r, x, y :: image(r, x) && image(r, y) ==> x == y
    ensures xs == ys
  {
  }

  // ----- each list is one, and the one that is built

  lemma McpsAreCompiled(env: Platform, rows: seq<McpConfig>)
    requires ValidPlatform(env)
    ensures McpsOf(env, rows, CompileMcps(env, rows))
  {
    forall r, x ensures McpImages(env)(r, x) <==> x == CompileMcp(env, r) { McpImageIsOne(env, r, x); }
    SortSorts(MapSeq(McpCompiler(env), FilterSeq(McpEligible, rows)), McpId, env.leq);
    forall id ensures Images(rows, ReadyServer(id), AtKey(CompileMcps(env, rows), McpId, id), McpImages(env)) {
      OneKey(rows, McpEligible, McpCompiler(env), McpId, env.leq, id, ReadyServer(id), McpImages(env));
    }
  }

  lemma McpsAreOne(env: Platform, rows: seq<McpConfig>, xs: seq<Mcp>)
    requires ValidPlatform(env)
    ensures McpsOf(env, rows, xs) <==> xs == CompileMcps(env, rows)
  {
    var ys := CompileMcps(env, rows);
    McpsAreCompiled(env, rows);
    if McpsOf(env, rows, xs) {
      forall r, x ensures McpImages(env)(r, x) <==> x == CompileMcp(env, r) { McpImageIsOne(env, r, x); }
      forall id ensures AtKey(xs, McpId, id) == AtKey(ys, McpId, id) {
        OneImages(rows, ReadyServer(id), AtKey(xs, McpId, id), AtKey(ys, McpId, id), McpImages(env));
      }
      OneListByKey(xs, ys, McpId, env.leq);
    }
  }

  lemma ApisAreCompiled(env: Platform, rows: seq<ApiConfig>)
    requires ValidPlatform(env)
    ensures ApisOf(env, rows, CompileApis(env, rows))
  {
    forall r, x ensures ApiImages(env)(r, x) <==> x == CompileApi(env, r) { ApiImageIsOne(env, r, x); }
    SortSorts(MapSeq(ApiCompiler(env), FilterSeq(ApiEligible, rows)), ApiId, env.leq);
    forall id ensures Images(rows, ReadyApi(id), AtKey(CompileApis(env, rows), ApiId, id), ApiImages(env)) {
      OneKey(rows, ApiEligible, ApiCompiler(env), ApiId, env.leq, id, ReadyApi(id), ApiImages(env));
    }
  }

  lemma ApisAreOne(env: Platform, rows: seq<ApiConfig>, xs: seq<Api>)
    requires ValidPlatform(env)
    ensures ApisOf(env, rows, xs) <==> xs == CompileApis(env, rows)
  {
    var ys := CompileApis(env, rows);
    ApisAreCompiled(env, rows);
    if ApisOf(env, rows, xs) {
      forall r, x ensures ApiImages(env)(r, x) <==> x == CompileApi(env, r) { ApiImageIsOne(env, r, x); }
      forall id ensures AtKey(xs, ApiId, id) == AtKey(ys, ApiId, id) {
        OneImages(rows, ReadyApi(id), AtKey(xs, ApiId, id), AtKey(ys, ApiId, id), ApiImages(env));
      }
      OneListByKey(xs, ys, ApiId, env.leq);
    }
  }

  lemma RepositoriesAreCompiled(env: Platform, rows: seq<Grant>)
    requires ValidPlatform(env)
    ensures RepositoriesOf(env, rows, CompileRepositories(env, rows))
  {
    SortSorts(MapSeq(CompileRepository, FilterSeq(GrantEnabled, rows)), RepositoryId, env.leq);
    forall id
      ensures Images(rows, EnabledGrant(id), AtKey(CompileRepositories(env, rows), RepositoryId, id), RepositoryImage)
    {
      OneKey(rows, GrantEnabled, CompileRepository, RepositoryId, env.leq, id, EnabledGrant(id), RepositoryImage);
    }
  }

  lemma RepositoriesAreOne(env: Platform, rows: seq<Grant>, xs: seq<Repository>)
    requires ValidPlatform(env)
    ensures RepositoriesOf(env, rows, xs) <==> xs == CompileRepositories(env, rows)
  {
    var ys := CompileRepositories(env, rows);
    RepositoriesAreCompiled(env, rows);
    if RepositoriesOf(env, rows, xs) {
      forall id ensures AtKey(xs, RepositoryId, id) == AtKey(ys, RepositoryId, id) {
        OneImages(rows, EnabledGrant(id), AtKey(xs, RepositoryId, id), AtKey(ys, RepositoryId, id), RepositoryImage);
      }
      OneListByKey(xs, ys, RepositoryId, env.leq);
    }
  }

  lemma SkillIsCompiled(env: Platform, rows: seq<SkillConfig>, s: Skill)
    requires ValidPlatform(env)
    ensures s in CompileSkills(env, rows) <==> exists n :: IsLastEnabled(rows, n, s)
  {
    var m := SkillsByName(rows);
    SortElements(m.Values(), SkillName, env.leq);
    PlanIdentity.SkillsByNameIsLast(rows, s.name);
    if s in m.Values() {
      var k :| 0 <= k < |m.keys| && m.Values()[k] == s;
      assert m.keys[k] in m.at;
      PlanIdentity.SkillsByNameIsLast(rows, m.keys[k]);
      var n :| PlanIdentity.LastOfName(rows, m.keys[k], n) && s == PlanIdentity.SkillOf(rows[n]);
      assert IsLastEnabled(rows, n, s);
    }
    if n :| IsLastEnabled(rows, n, s) {
      assert PlanIdentity.LastOfName(rows, s.name, n);
      assert s.name in m.keys;
      var k :| 0 <= k < |m.keys| && m.keys[k] == s.name;
      assert m.Values()[k] == s;
    }
  }

  lemma SkillsAreOne(env: Platform, rows: seq<SkillConfig>, xs: seq<Skill>)
    requires ValidPlatform(env)
    ensures SkillsOf(env, rows, xs) <==> xs == CompileSkills(env, rows)
  {
    var ys := CompileSkills(env, rows);
    SortSorts(SkillsByName(rows).Values(), SkillName, env.leq);
    PlanIdentity.SkillNamesDistinct(rows);
    SortDistinct(SkillsByName(rows).Values(), SkillName, env.leq);
    forall s ensures s in ys <==> exists n :: IsLastEnabled(rows, n, s) { SkillIsCompiled(env, rows, s); }
    if SkillsOf(env, rows, xs) { AscendingIsUnique(xs, ys, SkillName, env.leq); }
  }

  lemma RevisionIsOfOthers(env: Platform, p: Plan, revision: string)
    ensures HarnessRevision(env, p.(harnessRevision := revision)) == HarnessRevision(env, p)
  {
    assert HarnessOf(p.(harnessRevision := revision)) == HarnessOf(p);
  }

  lemma DraftHasFields(env: Platform, i: Input)
    ensures HasFields(env, i, DraftPlan(env, i))
  {
    RevisionIsOfOthers(env, DraftPlan(env, i), "");
  }

  lemma FieldsAreOne(env: Platform, i: Input, p: Plan)
    requires p.skills == CompileSkills(env, i.agent.skills) && p.mcpConnections == CompileMcps(env, i.agent.mcpServers)
    requires p.apiConnections == CompileApis(env, i.agent.apiConnections)
    requires p.repositories == CompileRepositories(env, i.agent.repositories)
    ensures HasFields(env, i, p) <==> p == DraftPlan(env, i)
  {
    DraftHasFields(env, i);
    if HasFields(env, i, p) { SameFields(env, i, p, DraftPlan(env, i)); }
  }

  /** The scalar fields leave only the lists to be said. */
  lemma SameFields(env: Platform, i: Input, p: Plan, q: Plan)
    requires HasFields(env, i, p) && HasFields(env, i, q)
    requires p.skills == q.skills && p.mcpConnections == q.mcpConnections && p.apiConnections == q.apiConnections
    requires p.repositories == q.repositories
    ensures p == q
  {
    assert HarnessOf(p) == HarnessOf(q);
  }

  /** Compiling an input gives its plan exactly when that is within the bounds. */
  lemma CompilesExactly(env: Platform, i: Input, p: Plan)
    requires ValidPlatform(env)
    ensures CompilePlan(env, i) == Some(p) <==> PlanOf(env, i, p) && PlanBounds(env, p)
  {
    CompileIsDraft(env, i);
    SkillsAreOne(env, i.agent.skills, p.skills);
    McpsAreOne(env, i.agent.mcpServers, p.mcpConnections);
    ApisAreOne(env, i.agent.apiConnections, p.apiConnections);
    RepositoriesAreOne(env, i.agent.repositories, p.repositories);
    PlanOfDraft(env, i, p);
  }

  lemma PlanOfDraft(env: Platform, i: Input, p: Plan)
    requires SkillsOf(env, i.agent.skills, p.skills) <==> p.skills == CompileSkills(env, i.agent.skills)
    requires McpsOf(env, i.agent.mcpServers, p.mcpConnections)
        <==> p.mcpConnections == CompileMcps(env, i.agent.mcpServers)
    requires ApisOf(env, i.agent.apiConnections, p.apiConnections)
        <==> p.apiConnections == CompileApis(env, i.agent.apiConnections)
    requires RepositoriesOf(env, i.agent.repositories, p.repositories)
        <==> p.repositories == CompileRepositories(env, i.agent.repositories)
    ensures PlanOf(env, i, p) <==> p == DraftPlan(env, i)
  {
    if p.skills == CompileSkills(env, i.agent.skills) && p.mcpConnections == CompileMcps(env, i.agent.mcpServers)
       && p.apiConnections == CompileApis(env, i.agent.apiConnections)
       && p.repositories == CompileRepositories(env, i.agent.repositories) {
      FieldsAreOne(env, i, p);
    }
  }
}
