/** What identifies a plan: the harness revision says exactly the harness
    policy, presentation order says nothing, and the keys derived from a plan
    tell their coordinates apart. */
module PlanIdentity {
  import opened Prelude
  import opened CanonicalJson
  import opened OrderedMaps
  import opened Sorting
  import opened RuntimePlan
  import opened PlanNormalForm

  // ----- the harness JSON determines the harness fields

  lemma StringsInjective(xs: seq<string>, ys: seq<string>)
    requires StringsJson(xs) == StringsJson(ys)
    ensures xs == ys
  {
  }

  lemma SkillInjective(a: Skill, b: Skill)
    requires SkillJson(a) == SkillJson(b)
    ensures a == b
  {
    var f, g := SkillJson(a).fields, SkillJson(b).fields;
    assert f["name"] == Str(a.name) && g["name"] == Str(b.name);
    assert f["description"] == Str(a.description) && g["description"] == Str(b.description);
    assert f["instructions"] == Str(a.instructions) && g["instructions"] == Str(b.instructions);
  }

  lemma McpInjective(a: Mcp, b: Mcp)
    requires McpJson(a) == McpJson(b)
    ensures a == b
  {
    var r := RawMcp(Str(a.id), Str(a.url), Str(a.transport), Str(a.authMode),
                    StringsJson(a.headerNames), StringsJson(a.allowedTools), Bool(a.optional));
    var q := RawMcp(Str(b.id), Str(b.url), Str(b.transport), Str(b.authMode),
                    StringsJson(b.headerNames), StringsJson(b.allowedTools), Bool(b.optional));
    RawMcpReads(r);
    RawMcpReads(q);
    assert r == q;
    StringsInjective(a.headerNames, b.headerNames);
    StringsInjective(a.allowedTools, b.allowedTools);
  }

  lemma ApiInjective(a: Api, b: Api)
    requires ApiJson(a) == ApiJson(b)
    ensures a == b
  {
    RawApiReads(RawApiFor(a));
    RawApiReads(RawApiFor(b));
    assert RawApiFor(a) == RawApiFor(b);
    StringsInjective(a.allowedHosts, b.allowedHosts);
    StringsInjective(a.pathPrefixes, b.pathPrefixes);
    StringsInjective(a.allowedMethods, b.allowedMethods);
    if a.oauthScopes.Some? { StringsInjective(a.oauthScopes.value, b.oauthScopes.value); }
  }

  lemma RepositoryInjective(a: Repository, b: Repository)
    requires RepositoryJson(a) == RepositoryJson(b)
    ensures a == b
  {
    var f, g := RepositoryJson(a).fields, RepositoryJson(b).fields;
    assert f["id"] == Str(a.id) && g["id"] == Str(b.id);
    assert f["fullName"] == Str(a.fullName) && g["fullName"] == Str(b.fullName);
    assert ("allRepos" in f <==> a.allRepos) && ("allRepos" in g <==> b.allRepos);
  }

  lemma HarnessScalars(r: RawHarness)
    ensures var f := RawHarnessJson(r).fields;
            && Member(f, "continuityPolicy") == Some(r.continuityPolicy) && Member(f, "agentId") == Some(r.agentId)
            && Member(f, "model") == Some(r.model) && Member(f, "instructions") == Some(r.instructions)
            && Member(f, "memoryEpoch") == Some(r.memoryEpoch)
            && Member(f, "slackIdentityId") == r.slackIdentityId
  {
  }

  lemma HarnessLists(r: RawHarness)
    ensures var f := RawHarnessJson(r).fields;
            && Member(f, "skills") == Some(r.skills) && Member(f, "mcpConnections") == Some(r.mcpConnections)
            && Member(f, "apiConnections") == Some(r.apiConnections)
            && Member(f, "repositories") == Some(r.repositories) && Member(f, "sandbox") == Some(r.sandbox)
  {
  }

  lemma RawHarnessInjective(r: RawHarness, q: RawHarness)
    requires RawHarnessJson(r) == RawHarnessJson(q)
    ensures r == q
  {
    HarnessScalars(r);
    HarnessScalars(q);
    HarnessLists(r);
    HarnessLists(q);
  }

  /** Two plans with the same harness policy.  The conversation, the artifact
      channel and the stored revision are no part of it. */
  predicate SameHarness(p: Plan, q: Plan) {
    && p.continuityPolicy == q.continuityPolicy && p.agentId == q.agentId
    && NonEmpty(p.slackIdentityId) == NonEmpty(q.slackIdentityId)
    && p.model == q.model && p.instructions == q.instructions && p.memoryEpoch == q.memoryEpoch
    && p.skills == q.skills && p.mcpConnections == q.mcpConnections && p.apiConnections == q.apiConnections
    && p.repositories == q.repositories && p.sandboxMode == q.sandboxMode
  }

  lemma ConnectionListsInjective(p: Plan, q: Plan)
    requires HarnessOf(p) == HarnessOf(q)
    ensures p.mcpConnections == q.mcpConnections && p.apiConnections == q.apiConnections
  {
    forall x <- p.mcpConnections, y <- q.mcpConnections ensures McpJson(x) == McpJson(y) ==> x == y {
      if McpJson(x) == McpJson(y) { McpInjective(x, y); }
    }
    forall x <- p.apiConnections, y <- q.apiConnections ensures ApiJson(x) == ApiJson(y) ==> x == y {
      if ApiJson(x) == ApiJson(y) { ApiInjective(x, y); }
    }
  }

  lemma ItemListsInjective(p: Plan, q: Plan)
    requires HarnessOf(p) == HarnessOf(q)
    ensures p.skills == q.skills && p.repositories == q.repositories && p.sandboxMode == q.sandboxMode
  {
    forall x <- p.skills, y <- q.skills ensures SkillJson(x) == SkillJson(y) ==> x == y {
      if SkillJson(x) == SkillJson(y) { SkillInjective(x, y); }
    }
    forall x <- p.repositories, y <- q.repositories ensures RepositoryJson(x) == RepositoryJson(y) ==> x == y {
      if RepositoryJson(x) == RepositoryJson(y) { RepositoryInjective(x, y); }
    }
    assert SandboxJson(p.sandboxMode).fields["mode"] == Str(p.sandboxMode);
    assert SandboxJson(q.sandboxMode).fields["mode"] == Str(q.sandboxMode);
  }

  lemma HarnessJsonIdentifies(p: Plan, q: Plan)
    ensures HarnessJson(p) == HarnessJson(q) <==> SameHarness(p, q)
  {
    if HarnessJson(p) == HarnessJson(q) {
      RawHarnessInjective(HarnessOf(p), HarnessOf(q));
      ConnectionListsInjective(p, q);
      ItemListsInjective(p, q);
    }
  }

  /** The harness record has the plan's own fields, but for those that place it
      and for an identity that is the empty text. */
  lemma HarnessKeepsField(p: Plan, k: string)
    requires k !in {"conversation", "artifactDestination", "harnessRevision", "artifactDestinationKind"}
    requires k == "slackIdentityId" ==> p.slackIdentityId != Some("")
    ensures Member(HarnessJson(p).fields, k) == Member(PlanJson(p).fields, k)
  {
    if k in HarnessJson(p).fields { SharedField(p, k); } else { UnsharedField(p, k); }
  }

  lemma HarnessOmitsPlace(p: Plan)
    ensures var h := HarnessJson(p).fields;
            "conversation" !in h && "artifactDestination" !in h && "harnessRevision" !in h
  {
    RecordOmitsPlace(HarnessOf(p));
  }

  lemma RecordOmitsPlace(r: RawHarness)
    ensures var h := RawHarnessJson(r).fields;
            "conversation" !in h && "artifactDestination" !in h && "harnessRevision" !in h
  {
  }

  lemma HarnessOmitsEmptyIdentity(p: Plan)
    requires p.slackIdentityId == Some("")
    ensures "slackIdentityId" !in HarnessJson(p).fields
  {
    HarnessNames(HarnessOf(p));
  }

  lemma HarnessNamesKind(p: Plan)
    ensures Member(HarnessJson(p).fields, "artifactDestinationKind") == Some(Str("slack_conversation"))
  {
    HarnessNames(HarnessOf(p));
  }

  lemma UnsharedField(p: Plan, k: string)
    requires k !in HarnessJson(p).fields
    requires k !in {"conversation", "artifactDestination", "harnessRevision"}
    requires k == "slackIdentityId" ==> p.slackIdentityId != Some("")
    ensures k !in PlanJson(p).fields
  {
    HarnessNames(HarnessOf(p));
    PlanNames(RawOf(p));
  }

  lemma SharedField(p: Plan, k: string)
    requires k in HarnessJson(p).fields && k != "artifactDestinationKind"
    ensures Member(HarnessJson(p).fields, k) == Member(PlanJson(p).fields, k)
  {
    HarnessNames(HarnessOf(p));
    if k in ["skills", "mcpConnections", "apiConnections", "repositories", "sandbox"] {
      HarnessLists(HarnessOf(p));
      RawPlanLists(RawOf(p));
    } else {
      SharedScalar(p, k);
    }
  }

  lemma SharedScalar(p: Plan, k: string)
    requires k in ["schemaVersion", "continuityPolicy", "agentId", "model", "instructions", "memoryEpoch",
                   "slackIdentityId"] && k in HarnessJson(p).fields
    ensures Member(HarnessJson(p).fields, k) == Member(PlanJson(p).fields, k)
  {
    HarnessNames(HarnessOf(p));
    HarnessScalars(HarnessOf(p));
    RawPlanScalars(RawOf(p));
    RawPlanTexts(RawOf(p));
  }

  lemma HarnessNames(r: RawHarness)
    ensures var f := RawHarnessJson(r).fields;
            && f.Keys == {"schemaVersion", "continuityPolicy", "agentId", "model", "instructions", "memoryEpoch",
                          "skills", "mcpConnections", "apiConnections", "repositories", "sandbox",
                          "artifactDestinationKind"} + (if r.slackIdentityId.Some? then {"slackIdentityId"} else {})
            && f["schemaVersion"] == Num(2) && f["artifactDestinationKind"] == Str("slack_conversation")
  {
  }

  lemma PlanNames(r: RawPlan)
    ensures RawPlanJson(r).fields.Keys
         == {"schemaVersion", "continuityPolicy", "agentId", "conversation", "model", "instructions", "memoryEpoch",
             "skills", "mcpConnections", "apiConnections", "repositories", "sandbox", "artifactDestination",
             "harnessRevision"} + (if r.slackIdentityId.Some? then {"slackIdentityId"} else {})
  {
  }

  /** Unless their digests collide, two plans share a harness revision exactly
      when they agree on every harness field, whatever their conversations. */
  lemma RevisionIdentifiesHarness(env: Platform, p: Plan, q: Plan)
    requires var a, b := Canon(HarnessJson(p)), Canon(HarnessJson(q)); env.sha(a) == env.sha(b) ==> a == b
    ensures HarnessRevision(env, p) == HarnessRevision(env, q) <==> SameHarness(p, q)
  {
    CanonInjective(HarnessJson(p), HarnessJson(q));
    HarnessJsonIdentifies(p, q);
  }

  // ----- presentation

  predicate SameSet(xs: seq<string>, ys: seq<string>) {
    (forall x <- xs :: x in ys) && (forall y <- ys :: y in xs)
  }

  /** Rows that differ only in how they are presented. */
  predicate AlikeMcp(env: Platform, a: McpConfig, b: McpConfig) {
    && a.id == b.id && a.url == b.url && a.transport == b.transport && a.authMode == b.authMode
    && SameSet(MapSeq(env.lower, a.headerNames), MapSeq(env.lower, b.headerNames))
    && SameSet(a.allowedTools, b.allowedTools)
  }

  predicate AlikeApi(env: Platform, a: ApiConfig, b: ApiConfig) {
    && a.id == b.id
    && SameSet(MapSeq(env.lower, a.allowedHosts), MapSeq(env.lower, b.allowedHosts))
    && SameSet(a.pathPrefixes, b.pathPrefixes)
    && SameSet(MapSeq(env.upper, a.allowedMethods), MapSeq(env.upper, b.allowedMethods))
    && env.lower(a.headerName) == env.lower(b.headerName)
    && NonEmpty(a.headerValuePrefix) == NonEmpty(b.headerValuePrefix)
    && a.authMode.GetOr("credential") == b.authMode.GetOr("credential")
    && NonEmpty(a.oauthProvider) == NonEmpty(b.oauthProvider)
    && a.oauthScopes.Some? == b.oauthScopes.Some?
    && (a.oauthScopes.Some? ==> SameSet(a.oauthScopes.value, b.oauthScopes.value))
  }

  lemma SameSetSorts(env: Platform, xs: seq<string>, ys: seq<string>)
    requires ValidPlatform(env) && SameSet(xs, ys)
    ensures SortedUnique(xs, env.leq) == SortedUnique(ys, env.leq)
  {
    SortedUniqueIsOfSet(xs, ys, env.leq);
  }

  lemma AlikeMcpCompiles(env: Platform, a: McpConfig, b: McpConfig)
    requires ValidPlatform(env) && AlikeMcp(env, a, b)
    ensures CompileMcp(env, a) == CompileMcp(env, b)
  {
    SameSetSorts(env, MapSeq(env.lower, a.headerNames), MapSeq(env.lower, b.headerNames));
    SameSetSorts(env, a.allowedTools, b.allowedTools);
  }

  lemma AlikeApiCompiles(env: Platform, a: ApiConfig, b: ApiConfig)
    requires ValidPlatform(env) && AlikeApi(env, a, b)
    ensures CompileApi(env, a) == CompileApi(env, b)
  {
    SameSetSorts(env, MapSeq(env.lower, a.allowedHosts), MapSeq(env.lower, b.allowedHosts));
    SameSetSorts(env, a.pathPrefixes, b.pathPrefixes);
    SameSetSorts(env, MapSeq(env.upper, a.allowedMethods), MapSeq(env.upper, b.allowedMethods));
    if a.oauthScopes.Some? { SameSetSorts(env, a.oauthScopes.value, b.oauthScopes.value); }
  }

  /** Every row of the one list has its like in the other. */
  ghost predicate Covered<T(!new)>(xs: seq<T>, ys: seq<T>, alike: (T, T) -> bool) {
    forall x <- xs :: exists y :: y in ys && alike(x, y)
  }

  lemma MapCovered<T(!new), U(!new)>(f: T -> U, xs: seq<T>, ys: seq<T>, alike: (T, T) -> bool)
    requires Covered(xs, ys, alike) && forall x, y :: alike(x, y) ==> f(x) == f(y)
    ensures forall u <- MapSeq(f, xs) :: u in MapSeq(f, ys)
  {
    forall u <- MapSeq(f, xs) ensures u in MapSeq(f, ys) {
      var i :| 0 <= i < |xs| && f(xs[i]) == u;
      assert xs[i] in xs;
      var y :| y in ys && alike(xs[i], y);
      var j :| 0 <= j < |ys| && ys[j] == y;
      assert MapSeq(f, ys)[j] == u;
    }
  }

  lemma SortedMapIsPresentationFree<T(!new), U(!new)>(
      f: T -> U, xs: seq<T>, ys: seq<T>, alike: (T, T) -> bool, id: T -> string, key: U -> string, leq: Order)
    requires TotalOrder(leq) && Covered(xs, ys, alike) && Covered(ys, xs, (y, x) => alike(x, y))
    requires forall x, y :: alike(x, y) ==> f(x) == f(y)
    requires forall x :: key(f(x)) == id(x)
    requires DistinctBy(xs, id) && DistinctBy(ys, id)
    ensures SortBy(MapSeq(f, xs), key, leq) == SortBy(MapSeq(f, ys), key, leq)
  {
    MapCovered(f, xs, ys, alike);
    MapCovered(f, ys, xs, (y, x) => alike(x, y));
    SortForgetsOrder(MapSeq(f, xs), MapSeq(f, ys), key, leq);
  }

  function McpRowId(c: McpConfig): string { c.id }
  function ApiRowId(c: ApiConfig): string { c.id }
  function GrantId(g: Grant): string { g.id }
  function RowName(s: SkillConfig): string { s.name }

  predicate SkillEnabled(s: SkillConfig) { s.enabled }

  predicate AlikeSkill(a: SkillConfig, b: SkillConfig) {
    a.name == b.name && a.description == b.description && a.instructions == b.instructions
  }

  predicate AlikeGrant(a: Grant, b: Grant) {
    a.id == b.id && a.fullName == b.fullName && (a.allRepos == Some(true) <==> b.allRepos == Some(true))
  }

  /** The eligible rows of two lists are the same rows, differently presented,
      and no two of them share an id. */
  ghost predicate Represented<T(!new)>(xs: seq<T>, ys: seq<T>, alike: (T, T) -> bool, id: T -> string) {
    && Covered(xs, ys, alike) && Covered(ys, xs, (y, x) => alike(x, y))
    && DistinctBy(xs, id) && DistinctBy(ys, id)
  }

  lemma McpsArePresentationFree(env: Platform, xs: seq<McpConfig>, ys: seq<McpConfig>)
    requires ValidPlatform(env)
    requires Represented(FilterSeq(McpEligible, xs), FilterSeq(McpEligible, ys),
                         (a, b) => AlikeMcp(env, a, b), McpRowId)
    ensures CompileMcps(env, xs) == CompileMcps(env, ys)
  {
    forall a, b ensures AlikeMcp(env, a, b) ==> CompileMcp(env, a) == CompileMcp(env, b) {
      if AlikeMcp(env, a, b) { AlikeMcpCompiles(env, a, b); }
    }
    SortedMapIsPresentationFree(McpCompiler(env), FilterSeq(McpEligible, xs),
                                FilterSeq(McpEligible, ys), (a, b) => AlikeMcp(env, a, b), McpRowId, McpId, env.leq);
  }

  lemma ApisArePresentationFree(env: Platform, xs: seq<ApiConfig>, ys: seq<ApiConfig>)
    requires ValidPlatform(env)
    requires Represented(FilterSeq(ApiEligible, xs), FilterSeq(ApiEligible, ys),
                         (a, b) => AlikeApi(env, a, b), ApiRowId)
    ensures CompileApis(env, xs) == CompileApis(env, ys)
  {
    forall a, b ensures AlikeApi(env, a, b) ==> CompileApi(env, a) == CompileApi(env, b) {
      if AlikeApi(env, a, b) { AlikeApiCompiles(env, a, b); }
    }
    SortedMapIsPresentationFree(ApiCompiler(env), FilterSeq(ApiEligible, xs),
                                FilterSeq(ApiEligible, ys), (a, b) => AlikeApi(env, a, b), ApiRowId, ApiId, env.leq);
  }

  lemma RepositoriesArePresentationFree(env: Platform, xs: seq<Grant>, ys: seq<Grant>)
    requires ValidPlatform(env)
    requires Represented(FilterSeq(GrantEnabled, xs), FilterSeq(GrantEnabled, ys), AlikeGrant, GrantId)
    ensures CompileRepositories(env, xs) == CompileRepositories(env, ys)
  {
    SortedMapIsPresentationFree(CompileRepository, FilterSeq(GrantEnabled, xs), FilterSeq(GrantEnabled, ys),
                                AlikeGrant, GrantId, RepositoryId, env.leq);
  }

  // ----- skills: the last enabled skill of a name wins

  /** The place of the last enabled skill of this name. */
  ghost predicate LastOfName(skills: seq<SkillConfig>, name: string, i: int) {
    && 0 <= i < |skills| && skills[i].enabled && skills[i].name == name
    && forall j :: i < j < |skills| ==> !(skills[j].enabled && skills[j].name == name)
  }

  function SkillOf(s: SkillConfig): Skill {
    Skill(s.name, s.description, s.instructions)
  }

  /** Adding a row at the end: it is the last of its name if it is enabled. */
  lemma LastOfMore(init: seq<SkillConfig>, last: SkillConfig, name: string, i: int)
    ensures LastOfName(init + [last], name, i) <==>
              if i == |init| then last.enabled && last.name == name
              else LastOfName(init, name, i) && !(last.enabled && last.name == name)
  {
    var skills := init + [last];
    assert skills[|init|] == last;
    assert forall j :: 0 <= j < |init| ==> skills[j] == init[j];
  }

  ghost predicate MapsLast(skills: seq<SkillConfig>, name: string) {
    var m := SkillsByName(skills).at;
    && (name in m ==> exists i :: LastOfName(skills, name, i) && m[name] == SkillOf(skills[i]))
    && (forall i :: LastOfName(skills, name, i) ==> name in m && m[name] == SkillOf(skills[i]))
  }

  lemma {:induction false} SkillsByNameIsLast(skills: seq<SkillConfig>, name: string)
    ensures MapsLast(skills, name)
    decreases |skills|
  {
    if skills != [] {
      var n := |skills| - 1;
      var init, last := skills[..n], skills[n];
      assert skills == init + [last];
      SkillsByNameIsLast(init, name);
      forall i ensures LastOfName(skills, name, i) <==>
        if i == n then last.enabled && last.name == name
        else LastOfName(init, name, i) && !(last.enabled && last.name == name)
      {
        LastOfMore(init, last, name, i);
      }
      if last.enabled && last.name == name { assert LastOfName(skills, name, n); }
    }
  }

  /** With no name enabled twice, the values of the map are the enabled skills. */
  lemma SkillValues(skills: seq<SkillConfig>, s: Skill)
    requires DistinctBy(FilterSeq(SkillEnabled, skills), RowName)
    ensures s in SkillsByName(skills).Values() <==> exists c :: c in skills && c.enabled && SkillOf(c) == s
  {
    var m := SkillsByName(skills);
    if s in m.Values() {
      var k :| 0 <= k < |m.keys| && m.Values()[k] == s;
      assert m.keys[k] in m.at;
      SkillsByNameIsLast(skills, m.keys[k]);
      var i :| LastOfName(skills, m.keys[k], i) && m.at[m.keys[k]] == SkillOf(skills[i]);
      assert skills[i] in skills;
    }
    if c :| c in skills && c.enabled && SkillOf(c) == s {
      var i := LastIndex(skills, c);
      SkillsByNameIsLast(skills, c.name);
      assert c.name in m.keys;
      var k :| 0 <= k < |m.keys| && m.keys[k] == c.name;
      assert m.Values()[k] == s;
    }
  }

  lemma {:induction false} LastIndex(skills: seq<SkillConfig>, c: SkillConfig) returns (i: int)
    requires c in skills && c.enabled && DistinctBy(FilterSeq(SkillEnabled, skills), RowName)
    ensures LastOfName(skills, c.name, i) && skills[i] == c
    decreases |skills|
  {
    var first, rest := skills[0], skills[1..];
    var kept := FilterSeq(SkillEnabled, skills);
    if c in rest {
      assert first.enabled ==> kept[1..] == FilterSeq(SkillEnabled, rest);
      i := LastIndex(rest, c);
      i := i + 1;
    } else {
      i := 0;
      forall j | 0 < j < |skills| ensures !(skills[j].enabled && skills[j].name == c.name) {
        if skills[j].enabled {
          assert skills[j] in rest;
          assert skills[j] in kept[1..];
        }
      }
    }
  }

  lemma SkillsArePresentationFree(env: Platform, xs: seq<SkillConfig>, ys: seq<SkillConfig>)
    requires ValidPlatform(env)
    requires Represented(FilterSeq(SkillEnabled, xs), FilterSeq(SkillEnabled, ys), AlikeSkill, RowName)
    ensures CompileSkills(env, xs) == CompileSkills(env, ys)
  {
    var a, b := SkillsByName(xs).Values(), SkillsByName(ys).Values();
    forall s ensures s in a <==> s in b {
      SkillValues(xs, s);
      SkillValues(ys, s);
      if c :| c in xs && c.enabled && SkillOf(c) == s {
        assert c in FilterSeq(SkillEnabled, xs);
        var d :| d in FilterSeq(SkillEnabled, ys) && AlikeSkill(c, d);
        assert SkillOf(d) == s;
      }
      if d :| d in ys && d.enabled && SkillOf(d) == s {
        assert d in FilterSeq(SkillEnabled, ys);
        var c :| c in FilterSeq(SkillEnabled, xs) && AlikeSkill(c, d);
        assert SkillOf(c) == s;
      }
    }
    SkillNamesDistinct(xs);
    SkillNamesDistinct(ys);
    SortForgetsOrder(a, b, SkillName, env.leq);
  }

  lemma SkillNamesDistinct(skills: seq<SkillConfig>)
    ensures DistinctBy(SkillsByName(skills).Values(), SkillName)
  {
    var m := SkillsByName(skills);
    forall i | 0 <= i < |m.keys| ensures m.Values()[i].name == m.keys[i] {
      assert m.keys[i] in m.at;
      SkillsByNameIsLast(skills, m.keys[i]);
    }
  }

  // ----- the whole plan

  /** Inputs that differ only in the presentation of the profile's rows. */
  ghost predicate Represents(env: Platform, i: Input, j: Input) {
    && i.(agent := j.agent) == j
    && i.agent.id == j.agent.id && i.agent.slackIdentityId == j.agent.slackIdentityId
    && Represented(FilterSeq(SkillEnabled, i.agent.skills), FilterSeq(SkillEnabled, j.agent.skills),
                   AlikeSkill, RowName)
    && Represented(FilterSeq(McpEligible, i.agent.mcpServers), FilterSeq(McpEligible, j.agent.mcpServers),
                   (a, b) => AlikeMcp(env, a, b), McpRowId)
    && Represented(FilterSeq(ApiEligible, i.agent.apiConnections), FilterSeq(ApiEligible, j.agent.apiConnections),
                   (a, b) => AlikeApi(env, a, b), ApiRowId)
    && Represented(FilterSeq(GrantEnabled, i.agent.repositories), FilterSeq(GrantEnabled, j.agent.repositories),
                   AlikeGrant, GrantId)
  }

  /** Identity ignores presentation: the plan, and with it the derived instance
      id, stays the same when rows are reordered, lists are reordered or repeat
      entries, and hosts, methods or header names change case. */
  lemma IdentityIgnoresPresentation(env: Platform, i: Input, j: Input)
    requires ValidPlatform(env) && Represents(env, i, j)
    ensures DraftPlan(env, i) == DraftPlan(env, j)
    ensures InstanceId(env, DraftPlan(env, i)) == InstanceId(env, DraftPlan(env, j))
  {
    ListsArePresentationFree(env, i, j);
    DraftOfLists(env, i, j);
  }

  ghost predicate SameLists(env: Platform, a: Agent, b: Agent) {
    && CompileSkills(env, a.skills) == CompileSkills(env, b.skills)
    && CompileMcps(env, a.mcpServers) == CompileMcps(env, b.mcpServers)
    && CompileApis(env, a.apiConnections) == CompileApis(env, b.apiConnections)
    && CompileRepositories(env, a.repositories) == CompileRepositories(env, b.repositories)
  }

  lemma ListsArePresentationFree(env: Platform, i: Input, j: Input)
    requires ValidPlatform(env) && Represents(env, i, j)
    ensures SameLists(env, i.agent, j.agent)
  {
    SkillsArePresentationFree(env, i.agent.skills, j.agent.skills);
    McpsArePresentationFree(env, i.agent.mcpServers, j.agent.mcpServers);
    ApisArePresentationFree(env, i.agent.apiConnections, j.agent.apiConnections);
    RepositoriesArePresentationFree(env, i.agent.repositories, j.agent.repositories);
  }

  lemma DraftOfLists(env: Platform, i: Input, j: Input)
    requires i.(agent := j.agent) == j && SameLists(env, i.agent, j.agent)
    requires i.agent.id == j.agent.id && i.agent.slackIdentityId == j.agent.slackIdentityId
    ensures DraftPlan(env, i) == DraftPlan(env, j)
  {
  }

  lemma InstanceIdOf(env: Platform, p: Plan)
    requires ValidPlatform(env) && Normal(env, p) && PlanBounds(env, p)
    ensures InstanceId(env, p) == Some(env.opaqueId("agent", InstanceCoordinate(p)))
  {
    NormalReads(env, p);
  }

  lemma InstanceCoordinateInjective(p: Plan, q: Plan)
    requires |p.conversation.continuityKey| == |q.conversation.continuityKey|
    ensures InstanceCoordinate(p) == InstanceCoordinate(q) <==>
              p.conversation.continuityKey == q.conversation.continuityKey && p.harnessRevision == q.harnessRevision
  {
    var k, l := p.conversation.continuityKey, q.conversation.continuityKey;
    if InstanceCoordinate(p) == InstanceCoordinate(q) {
      assert InstanceCoordinate(p) == k + (":" + p.harnessRevision);
      assert InstanceCoordinate(q) == l + (":" + q.harnessRevision);
      SameHead(k, ":" + p.harnessRevision, l, ":" + q.harnessRevision);
      SameHead(":", p.harnessRevision, ":", q.harnessRevision);
    }
  }

  /** Unless digests collide, two valid plans share an instance id exactly when
      they share their conversation's continuity key and their harness revision. */
  lemma InstanceIdIdentifies(env: Platform, p: Plan, q: Plan)
    requires ValidPlatform(env) && Normal(env, p) && PlanBounds(env, p) && Normal(env, q) && PlanBounds(env, q)
    requires var a, b := InstanceCoordinate(p), InstanceCoordinate(q);
             env.opaqueId("agent", a) == env.opaqueId("agent", b) ==> a == b
    ensures InstanceId(env, p) == InstanceId(env, q) <==>
              p.conversation.continuityKey == q.conversation.continuityKey && p.harnessRevision == q.harnessRevision
  {
    InstanceIdOf(env, p);
    InstanceIdOf(env, q);
    InstanceCoordinateInjective(p, q);
  }

  // ----- coordinates

  lemma ColonFree(s: string)
    requires IsSlackIdentity(s) || IsThread(s)
    ensures ':' !in s
  {
    if IsThread(s) && s != "dm" {
      var dot := IndexOf(s, '.');
      forall i | 0 <= i < |s| ensures s[i] != ':' {
        if i < dot {
          assert IsDigit(s[..dot][i]);
        } else if i > dot {
          assert IsDigit(s[dot + 1..][i - dot - 1]);
        }
      }
    }
  }

  /** Text before the first colon is read in only one way. */
  lemma SplitAtColon(a: string, s: string, b: string, t: string)
    requires ':' !in a && ':' !in b && a + ":" + s == b + ":" + t
    ensures a == b && s == t
  {
    var x := a + ":" + s;
    assert forall k :: 0 <= k < |a| ==> x[k] == a[k];
    assert forall k :: 0 <= k < |b| ==> x[k] == b[k];
    IndexOfIsFirst(x, ':', |a|);
    IndexOfIsFirst(x, ':', |b|);
    assert x == a + (":" + s) && x == b + (":" + t);
    SameHead(a, ":" + s, b, ":" + t);
    SameHead(":", s, ":", t);
  }

  lemma ConversationKeyInjective(c: Conversation, d: Conversation)
    requires ConversationBounds(c) && ConversationBounds(d)
    ensures ConversationKey(c) == ConversationKey(d) <==>
              c.workspaceId == d.workspaceId && c.channelId == d.channelId && c.threadTs == d.threadTs
  {
    if ConversationKey(c) == ConversationKey(d) {
      ColonFree(c.workspaceId);
      ColonFree(d.workspaceId);
      ColonFree(c.channelId);
      ColonFree(d.channelId);
      var s, t := c.channelId + ":" + c.threadTs, d.channelId + ":" + d.threadTs;
      assert ConversationKey(c) == c.workspaceId + ":" + s && ConversationKey(d) == d.workspaceId + ":" + t;
      SplitAtColon(c.workspaceId, s, d.workspaceId, t);
      SplitAtColon(c.channelId, c.threadTs, d.channelId, d.threadTs);
    }
  }

  /** The text behind a sandbox key tells conversation and owner apart, even for
      owners that contain colons. */
  lemma SandboxCoordinateInjective(c: Conversation, ownerOfC: string, d: Conversation, ownerOfD: string)
    requires ConversationBounds(c) && ConversationBounds(d)
    ensures SandboxCoordinate(c, ownerOfC) == SandboxCoordinate(d, ownerOfD) <==>
              && c.workspaceId == d.workspaceId && c.channelId == d.channelId && c.threadTs == d.threadTs
              && ownerOfC == ownerOfD
  {
    if SandboxCoordinate(c, ownerOfC) == SandboxCoordinate(d, ownerOfD) {
      CoordinateSplits(c, ownerOfC);
      CoordinateSplits(d, ownerOfD);
      SplitAtColon(c.workspaceId, c.channelId + ":" + (c.threadTs + ":" + ownerOfC),
                   d.workspaceId, d.channelId + ":" + (d.threadTs + ":" + ownerOfD));
      SplitAtColon(c.channelId, c.threadTs + ":" + ownerOfC, d.channelId, d.threadTs + ":" + ownerOfD);
      SplitAtColon(c.threadTs, ownerOfC, d.threadTs, ownerOfD);
    }
  }

  lemma CoordinateSplits(c: Conversation, owner: string)
    requires ConversationBounds(c)
    ensures SandboxCoordinate(c, owner) == c.workspaceId + ":" + (c.channelId + ":" + (c.threadTs + ":" + owner))
    ensures ':' !in c.workspaceId && ':' !in c.channelId && ':' !in c.threadTs
  {
    ColonFree(c.workspaceId);
    ColonFree(c.channelId);
    ColonFree(c.threadTs);
  }

  /** The keys of a plan as text.  The continuity key of a compiled plan is the
      opaque id of its own conversation key. */
  lemma KeysOfPlan(env: Platform, p: Plan, ownerId: string)
    requires ValidPlatform(env) && Normal(env, p) && PlanBounds(env, p)
    ensures var c := p.conversation;
            && ConversationKey(c) == c.workspaceId + ":" + c.channelId + ":" + c.threadTs
            && SandboxCoordinate(c, ownerId) == ConversationKey(c) + ":" + ownerId
            && InstanceId(env, p) == Some(env.opaqueId("agent", c.continuityKey + ":" + p.harnessRevision))
  {
    InstanceIdOf(env, p);
  }

  lemma CompiledContinuityKey(env: Platform, i: Input)
    requires ValidPlatform(env) && CompilePlan(env, i).Some?
    ensures var c := CompilePlan(env, i).value.conversation;
            c.continuityKey == env.opaqueId("agent", ConversationKey(c))
  {
    CompileIsDraft(env, i);
  }
}
