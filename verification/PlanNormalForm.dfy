/** Compiling lands in normal form: what the compiler makes, and whatever the
    parser accepts, the parser reads back unchanged. */
module PlanNormalForm {
  import opened Prelude
  import opened CanonicalJson
  import opened Sorting
  import opened RuntimePlan

  // ----- field bounds

  predicate Within(s: string, minimum: nat, maximum: nat) {
    minimum <= |s| <= maximum
  }

  predicate ListBounds(xs: seq<string>, maximum: nat) {
    |xs| <= maximum && forall x <- xs :: Within(x, 1, 2048)
  }

  predicate SkillBounds(s: Skill) {
    Within(s.name, 1, 64) && Within(s.description, 1, 1000) && Within(s.instructions, 1, 100000)
  }

  predicate McpBounds(env: Platform, c: Mcp) {
    && Within(c.id, 1, 120) && IsMcpUrl(env, c.url)
    && c.transport in TRANSPORTS && c.authMode in MCP_AUTH_MODES
    && ListBounds(c.headerNames, 64) && ListBounds(c.allowedTools, 256)
  }

  predicate ApiBounds(c: Api) {
    && Within(c.id, 1, 120) && Within(c.headerName, 1, 128)
    && ListBounds(c.allowedHosts, 128) && ListBounds(c.pathPrefixes, 128) && ListBounds(c.allowedMethods, 16)
    && (c.headerValuePrefix.Some? ==> Within(c.headerValuePrefix.value, 0, 200))
    && c.authMode in API_AUTH_MODES
    && (c.oauthProvider.Some? ==> c.oauthProvider.value == "google")
    && (c.oauthScopes.Some? ==> ListBounds(c.oauthScopes.value, 128))
    && OauthFits(c.authMode, c.oauthProvider, c.oauthScopes)
  }

  predicate RepositoryBounds(r: Repository) {
    Within(r.id, 1, 120) && Within(r.fullName, 1, 260)
  }

  predicate ConversationBounds(c: Conversation) {
    && IsSlackIdentity(c.workspaceId) && IsSlackIdentity(c.channelId)
    && IsThread(c.threadTs) && IsOpaqueAgentId(c.continuityKey)
  }

  predicate ScalarBounds(p: Plan) {
    && Within(p.continuityPolicy, 1, 80) && Within(p.agentId, 1, 128)
    && (p.slackIdentityId.Some? ==> Within(p.slackIdentityId.value, 1, 128))
    && ConversationBounds(p.conversation)
    && Within(p.model, 3, 240) && Within(p.instructions, 1, 200000)
    && 1 <= p.memoryEpoch <= MAX_SAFE_INTEGER
  }

  predicate PlanBounds(env: Platform, p: Plan) {
    ScalarBounds(p) && ListsBounds(env, p)
  }

  predicate ListsBounds(env: Platform, p: Plan) {
    && |p.skills| <= 128 && (forall s <- p.skills :: SkillBounds(s))
    && |p.mcpConnections| <= 128 && (forall c <- p.mcpConnections :: McpBounds(env, c))
    && |p.apiConnections| <= 128 && (forall c <- p.apiConnections :: ApiBounds(c))
    && |p.repositories| <= 256 && (forall r <- p.repositories :: RepositoryBounds(r))
    && p.sandboxMode in SANDBOX_MODES
    && p.artifactChannelId == p.conversation.channelId && IsSlackIdentity(p.artifactChannelId)
    && IsSha256(p.harnessRevision)
  }

  // ----- normal form

  ghost predicate McpNormal(env: Platform, c: Mcp) {
    Ascending(c.headerNames, env.leq) && Ascending(c.allowedTools, env.leq)
  }

  ghost predicate ApiNormal(env: Platform, c: Api) {
    && Ascending(c.allowedHosts, env.leq) && Ascending(c.pathPrefixes, env.leq)
    && Ascending(c.allowedMethods, env.leq)
    && (c.oauthScopes.Some? ==> Ascending(c.oauthScopes.value, env.leq))
    && env.lower(c.headerName) == c.headerName
  }

  /** Current surface, lists in canonical order, header names in lower case. */
  ghost predicate FieldsNormal(env: Platform, p: Plan) {
    && p.conversation.surface in {"channel_thread", "direct_message"}
    && (forall c <- p.mcpConnections :: McpNormal(env, c))
    && (forall c <- p.apiConnections :: ApiNormal(env, c))
  }

  ghost predicate Normal(env: Platform, p: Plan) {
    FieldsNormal(env, p) && p.harnessRevision == HarnessRevision(env, p)
  }

  // ----- reading back what is in normal form

  function If<T>(ok: bool, x: T): Option<T> {
    if ok then Some(x) else None
  }

  lemma {:induction false} EachReads<T>(xs: seq<T>, json: T -> Json, parse: Json -> Option<T>, ok: T -> bool)
    requires forall x <- xs :: parse(json(x)) == If(ok(x), x)
    ensures ParseEach(MapSeq(json, xs), parse) == If(forall x <- xs :: ok(x), xs)
    decreases |xs|
  {
    if xs != [] {
      assert xs[0] in xs;
      assert forall x <- xs[1..] :: x in xs;
      EachReads(xs[1..], json, parse, ok);
      assert xs == [xs[0]] + xs[1..];
      assert (forall x <- xs :: ok(x)) <==> ok(xs[0]) && forall x <- xs[1..] :: ok(x);
    }
  }

  lemma ListReads(env: Platform, xs: seq<string>, maximum: nat)
    requires ValidPlatform(env) && Ascending(xs, env.leq)
    ensures SortedUniqueArray(env, StringsJson(xs), maximum) == If(ListBounds(xs, maximum), xs)
  {
    EachReads(xs, StringJson, ListedString, s => Within(s, 1, 2048));
    AscendingIsCanonical(xs, env.leq);
  }

  lemma SkillReads(s: Skill)
    ensures ParseSkill(SkillJson(s)) == If(SkillBounds(s), s)
  {
  }

  lemma RawMcpReads(r: RawMcp)
    ensures RawMcpOf(RawMcpJson(r)) == Some(r)
  {
  }

  lemma McpReads(env: Platform, c: Mcp)
    requires ValidPlatform(env) && McpNormal(env, c)
    ensures ParseMcp(env, McpJson(c)) == If(McpBounds(env, c), c)
  {
    var r := RawMcp(Str(c.id), Str(c.url), Str(c.transport), Str(c.authMode),
                    StringsJson(c.headerNames), StringsJson(c.allowedTools), Bool(c.optional));
    RawMcpReads(r);
    assert ParseMcp(env, McpJson(c)) == ParseRawMcp(env, r);
    ListReads(env, c.headerNames, 64);
    ListReads(env, c.allowedTools, 256);
  }

  lemma RawApiReads(r: RawApi)
    ensures RawApiOf(RawApiJson(r)) == Some(r)
  {
  }

  lemma ApiListsRead(env: Platform, c: Api, r: RawApi)
    requires ValidPlatform(env) && ApiNormal(env, c)
    requires r.id == Str(c.id) && r.allowedHosts == StringsJson(c.allowedHosts)
    requires r.pathPrefixes == StringsJson(c.pathPrefixes) && r.allowedMethods == StringsJson(c.allowedMethods)
    requires r.headerName == Str(c.headerName)
    ensures ParseApiLists(env, r, c.headerValuePrefix, c.authMode, c.oauthProvider, c.oauthScopes)
         == If(Within(c.id, 1, 120) && Within(c.headerName, 1, 128) && ListBounds(c.allowedHosts, 128)
               && ListBounds(c.pathPrefixes, 128) && ListBounds(c.allowedMethods, 16), c)
  {
    ListReads(env, c.allowedHosts, 128);
    ListReads(env, c.pathPrefixes, 128);
    ListReads(env, c.allowedMethods, 16);
  }

  function FineIf<T>(ok: bool, x: Option<T>): Optional<T> {
    if ok then Fine(x) else Bad
  }

  lemma ScopesRead(env: Platform, scopes: Option<seq<string>>)
    requires ValidPlatform(env) && (scopes.Some? ==> Ascending(scopes.value, env.leq))
    ensures ParseOptional(if scopes.None? then None else Some(StringsJson(scopes.value)), ScopesParser(env))
         == FineIf(scopes.Some? ==> ListBounds(scopes.value, 128), scopes)
  {
    if scopes.Some? { ListReads(env, scopes.value, 128); }
  }

  lemma ApiReads(env: Platform, c: Api)
    requires ValidPlatform(env) && ApiNormal(env, c)
    ensures ParseApi(env, ApiJson(c)) == If(ApiBounds(c), c)
  {
    RawApiReads(RawApiFor(c));
    RawApiParses(env, c, RawApiFor(c));
  }

  lemma RawApiParses(env: Platform, c: Api, r: RawApi)
    requires ValidPlatform(env) && ApiNormal(env, c) && r == RawApiFor(c)
    ensures ParseRawApi(env, r) == If(ApiBounds(c), c)
  {
    ApiListsRead(env, c, r);
    ScopesRead(env, c.oauthScopes);
  }

  lemma RepositoryReads(r: Repository)
    ensures ParseRepository(RepositoryJson(r)) == If(RepositoryBounds(r), r)
  {
  }

  lemma ConversationReads(c: Conversation)
    requires c.surface in {"channel_thread", "direct_message"}
    ensures ParseConversation(ConversationJson(c)) == If(ConversationBounds(c), c)
  {
    var r := ConversationJson(c).fields;
    assert r["workspaceId"] == Str(c.workspaceId) && r["channelId"] == Str(c.channelId);
    assert r["threadTs"] == Str(c.threadTs) && r["surface"] == Str(c.surface);
    assert r["continuityKey"] == Str(c.continuityKey);
  }

  lemma RawPlanScalars(r: RawPlan)
    ensures var f := RawPlanJson(r).fields;
            && Member(f, "schemaVersion") == Some(r.schemaVersion)
            && Member(f, "continuityPolicy") == Some(r.continuityPolicy)
            && Member(f, "agentId") == Some(r.agentId) && Member(f, "conversation") == Some(r.conversation)
  {
  }

  lemma RawPlanTexts(r: RawPlan)
    ensures var f := RawPlanJson(r).fields;
            && Member(f, "model") == Some(r.model) && Member(f, "instructions") == Some(r.instructions)
            && Member(f, "memoryEpoch") == Some(r.memoryEpoch)
            && Member(f, "slackIdentityId") == r.slackIdentityId
  {
  }

  lemma RawPlanLists(r: RawPlan)
    ensures var f := RawPlanJson(r).fields;
            && Member(f, "skills") == Some(r.skills) && Member(f, "mcpConnections") == Some(r.mcpConnections)
            && Member(f, "apiConnections") == Some(r.apiConnections)
            && Member(f, "repositories") == Some(r.repositories) && Member(f, "sandbox") == Some(r.sandbox)
            && Member(f, "artifactDestination") == Some(r.artifactDestination)
            && Member(f, "harnessRevision") == Some(r.harnessRevision)
  {
  }

  lemma RawPlanReads(r: RawPlan)
    ensures RawPlanOf(RawPlanJson(r)) == Some(r)
  {
    RawPlanScalars(r);
    RawPlanTexts(r);
    RawPlanLists(r);
  }

  lemma SandboxReads(mode: string)
    ensures ParseSandbox(SandboxJson(mode)) == If(mode in SANDBOX_MODES, mode)
  {
  }

  lemma ArtifactReads(channel: string, expected: string)
    ensures ParseArtifact(ArtifactJson(channel), expected)
         == If(channel == expected && IsSlackIdentity(channel), channel)
  {
    var v := ArtifactJson(channel);
    assert ExactRecord(v, {"kind", "channelId"}, {}) == Some(v.fields);
    assert v.fields["kind"] == Str("slack_conversation") && v.fields["channelId"] == Str(channel);
  }

  /** The plan with its lists still to be read. */
  function Unlisted(p: Plan): Plan {
    p.(skills := [], mcpConnections := [], apiConnections := [], repositories := [],
       sandboxMode := "", artifactChannelId := "", harnessRevision := "")
  }

  ghost predicate HoldsLists(r: RawPlan, p: Plan) {
    && r.skills == Arr(MapSeq(SkillJson, p.skills))
    && r.mcpConnections == Arr(MapSeq(McpJson, p.mcpConnections))
    && r.apiConnections == Arr(MapSeq(ApiJson, p.apiConnections))
    && r.repositories == Arr(MapSeq(RepositoryJson, p.repositories))
    && r.sandbox == SandboxJson(p.sandboxMode) && r.artifactDestination == ArtifactJson(p.artifactChannelId)
    && r.harnessRevision == Str(p.harnessRevision)
  }

  lemma McpsRead(env: Platform, mcps: seq<Mcp>)
    requires ValidPlatform(env) && forall c <- mcps :: McpNormal(env, c)
    ensures ArrayOf(Arr(MapSeq(McpJson, mcps)), McpParser(env), 128)
         == If(|mcps| <= 128 && forall c <- mcps :: McpBounds(env, c), mcps)
  {
    forall c <- mcps ensures McpParser(env)(McpJson(c)) == If(McpBounds(env, c), c) { McpReads(env, c); }
    EachReads(mcps, McpJson, McpParser(env), c => McpBounds(env, c));
  }

  lemma ApisRead(env: Platform, apis: seq<Api>)
    requires ValidPlatform(env) && forall c <- apis :: ApiNormal(env, c)
    ensures ArrayOf(Arr(MapSeq(ApiJson, apis)), ApiParser(env), 128)
         == If(|apis| <= 128 && forall c <- apis :: ApiBounds(c), apis)
  {
    forall c <- apis ensures ApiParser(env)(ApiJson(c)) == If(ApiBounds(c), c) { ApiReads(env, c); }
    EachReads(apis, ApiJson, ApiParser(env), ApiBounds);
  }

  lemma SkillsRead(skills: seq<Skill>)
    ensures ArrayOf(Arr(MapSeq(SkillJson, skills)), ParseSkill, 128)
         == If(|skills| <= 128 && forall s <- skills :: SkillBounds(s), skills)
  {
    forall s <- skills ensures ParseSkill(SkillJson(s)) == If(SkillBounds(s), s) { SkillReads(s); }
    EachReads(skills, SkillJson, ParseSkill, SkillBounds);
  }

  lemma RepositoriesRead(repositories: seq<Repository>)
    ensures ArrayOf(Arr(MapSeq(RepositoryJson, repositories)), ParseRepository, 256)
         == If(|repositories| <= 256 && forall r <- repositories :: RepositoryBounds(r), repositories)
  {
    forall r <- repositories ensures ParseRepository(RepositoryJson(r)) == If(RepositoryBounds(r), r) {
      RepositoryReads(r);
    }
    EachReads(repositories, RepositoryJson, ParseRepository, RepositoryBounds);
  }

  /** Which of the list fields are within their bounds. */
  datatype ListChecks = ListChecks(
    skills: bool, mcps: bool, apis: bool, repositories: bool, mode: bool, channel: bool, revision: bool)

  predicate AllLists(c: ListChecks) {
    c.skills && c.mcps && c.apis && c.repositories && c.mode && c.channel && c.revision
  }

  lemma ListsReadWhen(env: Platform, p: Plan, r: RawPlan, c: ListChecks)
    requires ArrayOf(r.skills, ParseSkill, 128) == If(c.skills, p.skills)
    requires ArrayOf(r.mcpConnections, McpParser(env), 128) == If(c.mcps, p.mcpConnections)
    requires ArrayOf(r.apiConnections, ApiParser(env), 128) == If(c.apis, p.apiConnections)
    requires ArrayOf(r.repositories, ParseRepository, 256) == If(c.repositories, p.repositories)
    requires ParseSandbox(r.sandbox) == If(c.mode, p.sandboxMode)
    requires ParseArtifact(r.artifactDestination, p.conversation.channelId) == If(c.channel, p.artifactChannelId)
    requires Checked(r.harnessRevision, IsSha256) == If(c.revision, p.harnessRevision)
    ensures ParseLists(env, r, Unlisted(p)) == If(AllLists(c), p)
  {
  }

  function ListChecksOf(env: Platform, p: Plan): ListChecks {
    ListChecks(
      |p.skills| <= 128 && forall s <- p.skills :: SkillBounds(s),
      |p.mcpConnections| <= 128 && forall c <- p.mcpConnections :: McpBounds(env, c),
      |p.apiConnections| <= 128 && forall c <- p.apiConnections :: ApiBounds(c),
      |p.repositories| <= 256 && forall r <- p.repositories :: RepositoryBounds(r),
      p.sandboxMode in SANDBOX_MODES,
      p.artifactChannelId == p.conversation.channelId && IsSlackIdentity(p.artifactChannelId),
      IsSha256(p.harnessRevision))
  }

  lemma ListChecksAgree(env: Platform, p: Plan)
    ensures ListsBounds(env, p) == AllLists(ListChecksOf(env, p))
  {
  }

  lemma ListsRead(env: Platform, p: Plan, r: RawPlan)
    requires ValidPlatform(env) && FieldsNormal(env, p) && HoldsLists(r, p)
    ensures ParseLists(env, r, Unlisted(p)) == If(ListsBounds(env, p), p)
  {
    var c := ListChecksOf(env, p);
    ListChecksAgree(env, p);
    assert ArrayOf(r.skills, ParseSkill, 128) == If(c.skills, p.skills) by { SkillsRead(p.skills); }
    assert ArrayOf(r.repositories, ParseRepository, 256) == If(c.repositories, p.repositories) by {
      RepositoriesRead(p.repositories);
    }
    assert ArrayOf(r.mcpConnections, McpParser(env), 128) == If(c.mcps, p.mcpConnections) by {
      McpsRead(env, p.mcpConnections);
    }
    assert ArrayOf(r.apiConnections, ApiParser(env), 128) == If(c.apis, p.apiConnections) by {
      ApisRead(env, p.apiConnections);
    }
    assert ParseSandbox(r.sandbox) == If(c.mode, p.sandboxMode) by { SandboxReads(p.sandboxMode); }
    assert ParseArtifact(r.artifactDestination, p.conversation.channelId) == If(c.channel, p.artifactChannelId) by {
      ArtifactReads(p.artifactChannelId, p.conversation.channelId);
    }
    ListsReadWhen(env, p, r, c);
  }

  lemma ScalarsRead(p: Plan, r: RawPlan)
    requires r.schemaVersion == Num(2) && r.continuityPolicy == Str(p.continuityPolicy) && r.agentId == Str(p.agentId)
    requires ParseConversation(r.conversation) == If(ConversationBounds(p.conversation), p.conversation)
    requires r.model == Str(p.model) && r.instructions == Str(p.instructions) && r.memoryEpoch == Num(p.memoryEpoch)
    requires r.slackIdentityId == StringOption(p.slackIdentityId)
    ensures ParseScalars(r) == If(ScalarBounds(p), Unlisted(p))
  {
    var identity := p.slackIdentityId;
    assert ParseOptional(StringOption(identity), ParseIdentity)
        == FineIf(identity.Some? ==> Within(identity.value, 1, 128), identity);
  }

  /** The fields read back, whatever text its conversation is read from. */
  lemma FieldsRead(env: Platform, p: Plan, conversation: Json)
    requires ValidPlatform(env) && FieldsNormal(env, p)
    requires ParseConversation(conversation) == If(ConversationBounds(p.conversation), p.conversation)
    ensures ParseFields(env, RawOf(p).(conversation := conversation)) == If(PlanBounds(env, p), p)
  {
    var r := RawOf(p).(conversation := conversation);
    ScalarsRead(p, r);
    ListsRead(env, p, r);
  }

  lemma PlanReadsFrom(env: Platform, p: Plan, r: RawPlan, ok: bool)
    requires ParseFields(env, r) == If(ok, p) && p.harnessRevision == HarnessRevision(env, p)
    ensures ParsePlan(env, RawPlanJson(r)) == If(ok, p)
  {
    RawPlanReads(r);
  }

  /** The parser accepts a plan in normal form exactly when its fields are
      within their bounds, and then gives it back unchanged. */
  lemma NormalReads(env: Platform, p: Plan)
    requires ValidPlatform(env) && Normal(env, p)
    ensures ParsePlan(env, PlanJson(p)) == If(PlanBounds(env, p), p)
  {
    ConversationReads(p.conversation);
    FieldsRead(env, p, ConversationJson(p.conversation));
    PlanReadsFrom(env, p, RawOf(p), PlanBounds(env, p));
  }

  // ----- the compiler lands in normal form

  lemma CompiledMcpsAreNormal(env: Platform, connections: seq<McpConfig>)
    requires ValidPlatform(env)
    ensures forall c <- CompileMcps(env, connections) :: McpNormal(env, c)
  {
    var compiled := MapSeq(McpCompiler(env), FilterSeq(McpEligible, connections));
    SortElements(compiled, McpId, env.leq);
    forall m <- CompileMcps(env, connections) ensures McpNormal(env, m) {
      assert m in compiled;
      var i :| 0 <= i < |compiled| && compiled[i] == m;
      var c := FilterSeq(McpEligible, connections)[i];
      SortedUniqueAscends(MapSeq(env.lower, c.headerNames), env.leq);
      SortedUniqueAscends(c.allowedTools, env.leq);
    }
  }

  lemma CompiledApiIsNormal(env: Platform, c: ApiConfig)
    requires ValidPlatform(env)
    ensures ApiNormal(env, CompileApi(env, c))
  {
    SortedUniqueAscends(MapSeq(env.lower, c.allowedHosts), env.leq);
    SortedUniqueAscends(c.pathPrefixes, env.leq);
    SortedUniqueAscends(MapSeq(env.upper, c.allowedMethods), env.leq);
    if c.oauthScopes.Some? { SortedUniqueAscends(c.oauthScopes.value, env.leq); }
  }

  lemma CompiledApisAreNormal(env: Platform, connections: seq<ApiConfig>)
    requires ValidPlatform(env)
    ensures forall c <- CompileApis(env, connections) :: ApiNormal(env, c)
  {
    var compiled := MapSeq(ApiCompiler(env), FilterSeq(ApiEligible, connections));
    SortElements(compiled, ApiId, env.leq);
    forall a <- CompileApis(env, connections) ensures ApiNormal(env, a) {
      assert a in compiled;
      var i :| 0 <= i < |compiled| && compiled[i] == a;
      CompiledApiIsNormal(env, FilterSeq(ApiEligible, connections)[i]);
    }
  }

  lemma DraftIsNormal(env: Platform, i: Input)
    requires ValidPlatform(env)
    ensures Normal(env, DraftPlan(env, i))
  {
    CompiledMcpsAreNormal(env, i.agent.mcpServers);
    CompiledApisAreNormal(env, i.agent.apiConnections);
  }

  /** Compiling succeeds exactly when the field bounds hold; the last step, the
      strict parser, then changes nothing, and its revision check cannot fail. */
  lemma CompileIsDraft(env: Platform, i: Input)
    requires ValidPlatform(env)
    ensures CompilePlan(env, i) == If(PlanBounds(env, DraftPlan(env, i)), DraftPlan(env, i))
  {
    DraftIsNormal(env, i);
    NormalReads(env, DraftPlan(env, i));
  }

  // ----- whatever the parser accepts is in normal form

  lemma {:induction false} EachParsed<T>(items: seq<Json>, parse: Json -> Option<T>)
    requires ParseEach(items, parse).Some?
    ensures var xs := ParseEach(items, parse).value;
            |xs| == |items| && forall i :: 0 <= i < |xs| ==> parse(items[i]) == Some(xs[i])
    decreases |items|
  {
    if items != [] { EachParsed(items[1..], parse); }
  }

  lemma ListParsed(env: Platform, v: Json, maximum: nat)
    requires ValidPlatform(env) && SortedUniqueArray(env, v, maximum).Some?
    ensures var xs := SortedUniqueArray(env, v, maximum).value;
            Ascending(xs, env.leq) && ListBounds(xs, maximum)
  {
    EachParsed(v.items, ListedString);
    var values := ParseEach(v.items, ListedString).value;
    SortedUniqueAscends(values, env.leq);
    forall x <- SortedUnique(values, env.leq) ensures Within(x, 1, 2048) {
      assert x in values;
      var i :| 0 <= i < |values| && values[i] == x;
      assert ListedString(v.items[i]) == Some(x);
    }
  }

  lemma McpParsed(env: Platform, v: Json)
    requires ValidPlatform(env) && ParseMcp(env, v).Some?
    ensures var c := ParseMcp(env, v).value; McpNormal(env, c) && McpBounds(env, c)
  {
    var r := RawMcpOf(v).value;
    ListParsed(env, r.headerNames, 64);
    ListParsed(env, r.allowedTools, 256);
  }

  lemma ApiListsParsed(env: Platform, r: RawApi, prefix: Option<string>, authMode: string,
                       provider: Option<string>, scopes: Option<seq<string>>)
    requires ValidPlatform(env)
    requires ParseApiLists(env, r, prefix, authMode, provider, scopes).Some?
    ensures var c := ParseApiLists(env, r, prefix, authMode, provider, scopes).value;
            && Ascending(c.allowedHosts, env.leq) && Ascending(c.pathPrefixes, env.leq)
            && Ascending(c.allowedMethods, env.leq) && env.lower(c.headerName) == c.headerName
            && Within(c.id, 1, 120) && Within(c.headerName, 1, 128)
            && ListBounds(c.allowedHosts, 128) && ListBounds(c.pathPrefixes, 128) && ListBounds(c.allowedMethods, 16)
            && c.headerValuePrefix == prefix && c.authMode == authMode && c.oauthProvider == provider
            && c.oauthScopes == scopes
  {
    ListParsed(env, r.allowedHosts, 128);
    ListParsed(env, r.pathPrefixes, 128);
    ListParsed(env, r.allowedMethods, 16);
  }

  lemma ApiParsed(env: Platform, v: Json)
    requires ValidPlatform(env) && ParseApi(env, v).Some?
    ensures var c := ParseApi(env, v).value; ApiNormal(env, c) && ApiBounds(c)
  {
    RawApiParsed(env, RawApiOf(v).value);
  }

  lemma RawApiParsed(env: Platform, r: RawApi)
    requires ValidPlatform(env) && ParseRawApi(env, r).Some?
    ensures var c := ParseRawApi(env, r).value; ApiNormal(env, c) && ApiBounds(c)
  {
    var c := ParseRawApi(env, r).value;
    ApiListsParsed(env, r, c.headerValuePrefix, c.authMode, c.oauthProvider, c.oauthScopes);
    if r.oauthScopes.Some? { ListParsed(env, r.oauthScopes.value, 128); }
  }

  lemma ConnectionsParsed(env: Platform, mcps: Json, apis: Json)
    requires ValidPlatform(env)
    requires ArrayOf(mcps, McpParser(env), 128).Some? && ArrayOf(apis, ApiParser(env), 128).Some?
    ensures var m, a := ArrayOf(mcps, McpParser(env), 128).value, ArrayOf(apis, ApiParser(env), 128).value;
            && |m| <= 128 && (forall c <- m :: McpBounds(env, c) && McpNormal(env, c))
            && |a| <= 128 && (forall c <- a :: ApiBounds(c) && ApiNormal(env, c))
  {
    var m, a := ArrayOf(mcps, McpParser(env), 128).value, ArrayOf(apis, ApiParser(env), 128).value;
    EachParsed(mcps.items, McpParser(env));
    EachParsed(apis.items, ApiParser(env));
    forall i | 0 <= i < |m| ensures McpNormal(env, m[i]) && McpBounds(env, m[i]) { McpParsed(env, mcps.items[i]); }
    forall i | 0 <= i < |a| ensures ApiNormal(env, a[i]) && ApiBounds(a[i]) { ApiParsed(env, apis.items[i]); }
  }

  lemma ItemsParsed(skills: Json, repositories: Json)
    requires ArrayOf(skills, ParseSkill, 128).Some? && ArrayOf(repositories, ParseRepository, 256).Some?
    ensures var s, r := ArrayOf(skills, ParseSkill, 128).value, ArrayOf(repositories, ParseRepository, 256).value;
            && |s| <= 128 && (forall x <- s :: SkillBounds(x))
            && |r| <= 256 && (forall x <- r :: RepositoryBounds(x))
  {
    var s, r := ArrayOf(skills, ParseSkill, 128).value, ArrayOf(repositories, ParseRepository, 256).value;
    EachParsed(skills.items, ParseSkill);
    EachParsed(repositories.items, ParseRepository);
    forall i | 0 <= i < |s| ensures SkillBounds(s[i]) {}
    forall i | 0 <= i < |r| ensures RepositoryBounds(r[i]) {}
  }

  lemma ListsParsed(env: Platform, r: RawPlan, start: Plan)
    requires ValidPlatform(env) && ParseLists(env, r, start).Some? && start == Unlisted(start)
    ensures var p := ParseLists(env, r, start).value;
            && ListsBounds(env, p) && Unlisted(p) == start
            && (forall c <- p.mcpConnections :: McpNormal(env, c))
            && (forall c <- p.apiConnections :: ApiNormal(env, c))
  {
    ItemsParsed(r.skills, r.repositories);
    ConnectionsParsed(env, r.mcpConnections, r.apiConnections);
  }

  lemma ScalarsParsed(r: RawPlan)
    requires ParseScalars(r).Some?
    ensures var p := ParseScalars(r).value;
            && ScalarBounds(p) && p == Unlisted(p)
            && p.conversation.surface in {"channel_thread", "direct_message"}
  {
  }

  lemma FieldsParsed(env: Platform, r: RawPlan)
    requires ValidPlatform(env) && ParseFields(env, r).Some?
    ensures var p := ParseFields(env, r).value; FieldsNormal(env, p) && PlanBounds(env, p)
  {
    var start, p := ParseScalars(r).value, ParseFields(env, r).value;
    ScalarsParsed(r);
    ListsParsed(env, r, start);
    assert p.conversation == start.conversation && ScalarBounds(p) == ScalarBounds(start);
  }

  /** Every plan the parser accepts is in normal form and within its bounds,
      including plans written with the legacy app_home surface. */
  lemma ParsedIsNormal(env: Platform, v: Json)
    requires ValidPlatform(env) && ParsePlan(env, v).Some?
    ensures Normal(env, ParsePlan(env, v).value) && PlanBounds(env, ParsePlan(env, v).value)
  {
    FieldsParsed(env, RawPlanOf(v).value);
  }

  /** Parsing is idempotent. */
  lemma ParseIsIdempotent(env: Platform, v: Json)
    requires ValidPlatform(env) && ParsePlan(env, v).Some?
    ensures ParsePlan(env, PlanJson(ParsePlan(env, v).value)) == ParsePlan(env, v)
  {
    ParsedIsNormal(env, v);
    NormalReads(env, ParsePlan(env, v).value);
  }

  /** A plan written before the current surfaces reads as a direct message. */
  lemma LegacySurfaceReads(env: Platform, p: Plan)
    requires ValidPlatform(env) && Normal(env, p) && PlanBounds(env, p)
    requires p.conversation.surface == "direct_message"
    ensures var legacy := p.(conversation := p.conversation.(surface := "app_home"));
            ParsePlan(env, PlanJson(legacy)) == Some(p)
  {
    var legacy := p.(conversation := p.conversation.(surface := "app_home"));
    LegacyConversationReads(p.conversation);
    FieldsRead(env, p, ConversationJson(legacy.conversation));
    PlanReadsFrom(env, p, RawOf(legacy), true);
  }

  lemma LegacyConversationReads(c: Conversation)
    requires c.surface == "direct_message" && ConversationBounds(c)
    ensures ParseConversation(ConversationJson(c.(surface := "app_home"))) == Some(c)
  {
    var r := ConversationJson(c.(surface := "app_home")).fields;
    assert r["workspaceId"] == Str(c.workspaceId) && r["channelId"] == Str(c.channelId);
    assert r["threadTs"] == Str(c.threadTs) && r["surface"] == Str("app_home");
    assert r["continuityKey"] == Str(c.continuityKey);
    assert ParseSurface(Str("app_home")) == Some("direct_message");
  }
}
