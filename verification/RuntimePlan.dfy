/** The runtime plan of src/agents/runtime-plan.ts: compiling a profile to a
    plan, writing a plan as JSON, and the strict parser that reads it back. */
module RuntimePlan {
  import opened Prelude
  import opened CanonicalJson
  import opened OrderedMaps
  import opened Sorting

  /** What the plan needs from the platform. */
  datatype Platform = Platform(
    leq: Order,                              // localeCompare is not positive
    lower: string -> string,
    upper: string -> string,
    sha: string -> string,
    opaqueId: (string, string) -> string,
    credentialFreeHttps: string -> bool)     // `new URL` accepts it, https, no user or password

  predicate IsLowerHex(s: string) {
    forall i :: 0 <= i < |s| ==> IsDigit(s[i]) || 'a' <= s[i] <= 'f'
  }

  predicate IsSha256(s: string) {
    |s| == 64 && IsLowerHex(s)
  }

  predicate IsOpaqueAgentId(s: string) {
    |s| == 46 && s[..6] == "agent_" && IsLowerHex(s[6..])
  }

  /** Names compare in a total order, lower-casing keeps lengths and settles in
      one step, and digests and opaque ids have their fixed formats. */
  ghost predicate ValidPlatform(env: Platform) {
    && TotalOrder(env.leq)
    && (forall s :: |env.lower(s)| == |s| && env.lower(env.lower(s)) == env.lower(s))
    && (forall s :: IsSha256(env.sha(s)))
    && (forall s :: IsOpaqueAgentId(env.opaqueId("agent", s)))
  }

  // ----- plans

  datatype Skill = Skill(name: string, description: string, instructions: string)

  datatype Mcp = Mcp(
    id: string, url: string, transport: string, authMode: string,
    headerNames: seq<string>, allowedTools: seq<string>, optional: bool)

  datatype Api = Api(
    id: string, allowedHosts: seq<string>, pathPrefixes: seq<string>, allowedMethods: seq<string>,
    headerName: string, headerValuePrefix: Option<string>, authMode: string,
    oauthProvider: Option<string>, oauthScopes: Option<seq<string>>)

  datatype Repository = Repository(id: string, fullName: string, allRepos: bool)

  datatype Conversation = Conversation(
    workspaceId: string, channelId: string, threadTs: string, surface: string, continuityKey: string)

  /** RuntimePlanV2.  Its schema version is 2 and its artifacts go to a Slack
      conversation; these two fields have one value and are not stored here. */
  datatype Plan = Plan(
    continuityPolicy: string,
    agentId: string,
    slackIdentityId: Option<string>,
    conversation: Conversation,
    model: string,
    instructions: string,
    memoryEpoch: int,
    skills: seq<Skill>,
    mcpConnections: seq<Mcp>,
    apiConnections: seq<Api>,
    repositories: seq<Repository>,
    sandboxMode: string,
    artifactChannelId: string,
    harnessRevision: string)

  // ----- plans as JSON

  function MapSeq<T, U>(f: T -> U, xs: seq<T>): (ys: seq<U>)
    ensures |ys| == |xs| && forall i :: 0 <= i < |xs| ==> ys[i] == f(xs[i])
  {
    if xs == [] then [] else [f(xs[0])] + MapSeq(f, xs[1..])
  }

  function StringJson(s: string): Json { Str(s) }

  function StringsJson(xs: seq<string>): Json { Arr(MapSeq(StringJson, xs)) }

  function With(fields: map<string, Json>, name: string, value: Option<Json>): map<string, Json> {
    if value.None? then fields else fields[name := value.value]
  }

  function StringOption(s: Option<string>): Option<Json> {
    if s.None? then None else Some(Str(s.value))
  }

  function SkillJson(s: Skill): Json {
    Obj(map["name" := Str(s.name), "description" := Str(s.description), "instructions" := Str(s.instructions)])
  }

  /** The members of an object, before they are read. */
  datatype RawMcp = RawMcp(
    id: Json, url: Json, transport: Json, authMode: Json, headerNames: Json, allowedTools: Json, optional: Json)

  function RawMcpJson(r: RawMcp): Json {
    Obj(map["id" := r.id, "url" := r.url, "transport" := r.transport, "authMode" := r.authMode,
            "headerNames" := r.headerNames, "allowedTools" := r.allowedTools, "optional" := r.optional])
  }

  function McpJson(c: Mcp): Json {
    RawMcpJson(RawMcp(Str(c.id), Str(c.url), Str(c.transport), Str(c.authMode),
                      StringsJson(c.headerNames), StringsJson(c.allowedTools), Bool(c.optional)))
  }

  datatype RawApi = RawApi(
    id: Json, allowedHosts: Json, pathPrefixes: Json, allowedMethods: Json, headerName: Json, authMode: Json,
    headerValuePrefix: Option<Json>, oauthProvider: Option<Json>, oauthScopes: Option<Json>)

  function RawApiJson(r: RawApi): Json {
    var required := map["id" := r.id, "allowedHosts" := r.allowedHosts, "pathPrefixes" := r.pathPrefixes,
                        "allowedMethods" := r.allowedMethods, "headerName" := r.headerName, "authMode" := r.authMode];
    Obj(With(With(With(required, "headerValuePrefix", r.headerValuePrefix),
                  "oauthProvider", r.oauthProvider),
             "oauthScopes", r.oauthScopes))
  }

  function RawApiFor(c: Api): RawApi {
    RawApi(
      Str(c.id), StringsJson(c.allowedHosts), StringsJson(c.pathPrefixes), StringsJson(c.allowedMethods),
      Str(c.headerName), Str(c.authMode), StringOption(c.headerValuePrefix), StringOption(c.oauthProvider),
      if c.oauthScopes.None? then None else Some(StringsJson(c.oauthScopes.value)))
  }

  function ApiJson(c: Api): Json {
    RawApiJson(RawApiFor(c))
  }

  function RepositoryJson(r: Repository): Json {
    var required := map["id" := Str(r.id), "fullName" := Str(r.fullName)];
    Obj(if r.allRepos then required["allRepos" := Bool(true)] else required)
  }

  function ConversationJson(c: Conversation): Json {
    Obj(map["workspaceId" := Str(c.workspaceId), "channelId" := Str(c.channelId),
            "threadTs" := Str(c.threadTs), "surface" := Str(c.surface),
            "continuityKey" := Str(c.continuityKey)])
  }

  datatype RawPlan = RawPlan(
    schemaVersion: Json, continuityPolicy: Json, agentId: Json, conversation: Json, model: Json,
    instructions: Json, memoryEpoch: Json, skills: Json, mcpConnections: Json, apiConnections: Json,
    repositories: Json, sandbox: Json, artifactDestination: Json, harnessRevision: Json,
    slackIdentityId: Option<Json>)

  function RawPlanJson(r: RawPlan): Json {
    var required := map[
      "schemaVersion" := r.schemaVersion, "continuityPolicy" := r.continuityPolicy, "agentId" := r.agentId,
      "conversation" := r.conversation, "model" := r.model, "instructions" := r.instructions,
      "memoryEpoch" := r.memoryEpoch, "skills" := r.skills, "mcpConnections" := r.mcpConnections,
      "apiConnections" := r.apiConnections, "repositories" := r.repositories, "sandbox" := r.sandbox,
      "artifactDestination" := r.artifactDestination, "harnessRevision" := r.harnessRevision];
    Obj(With(required, "slackIdentityId", r.slackIdentityId))
  }

  function SandboxJson(mode: string): Json {
    Obj(map["mode" := Str(mode)])
  }

  function ArtifactJson(channelId: string): Json {
    Obj(map["kind" := Str("slack_conversation"), "channelId" := Str(channelId)])
  }

  function RawOf(p: Plan): RawPlan {
    RawPlan(
      Num(2), Str(p.continuityPolicy), Str(p.agentId), ConversationJson(p.conversation), Str(p.model),
      Str(p.instructions), Num(p.memoryEpoch), Arr(MapSeq(SkillJson, p.skills)),
      Arr(MapSeq(McpJson, p.mcpConnections)), Arr(MapSeq(ApiJson, p.apiConnections)),
      Arr(MapSeq(RepositoryJson, p.repositories)), SandboxJson(p.sandboxMode), ArtifactJson(p.artifactChannelId),
      Str(p.harnessRevision), StringOption(p.slackIdentityId))
  }

  function PlanJson(p: Plan): Json {
    RawPlanJson(RawOf(p))
  }

  datatype RawHarness = RawHarness(
    continuityPolicy: Json, agentId: Json, model: Json, instructions: Json, memoryEpoch: Json, skills: Json,
    mcpConnections: Json, apiConnections: Json, repositories: Json, sandbox: Json, slackIdentityId: Option<Json>)

  function RawHarnessJson(r: RawHarness): Json {
    var required := map[
      "schemaVersion" := Num(2), "continuityPolicy" := r.continuityPolicy, "agentId" := r.agentId,
      "model" := r.model, "instructions" := r.instructions, "memoryEpoch" := r.memoryEpoch, "skills" := r.skills,
      "mcpConnections" := r.mcpConnections, "apiConnections" := r.apiConnections,
      "repositories" := r.repositories, "sandbox" := r.sandbox,
      "artifactDestinationKind" := Str("slack_conversation")];
    Obj(With(required, "slackIdentityId", r.slackIdentityId))
  }

  function NonEmpty(s: Option<string>): Option<string> {
    if s == Some("") then None else s
  }

  /** The fields of a plan that make up its harness policy. */
  function HarnessOf(p: Plan): RawHarness {
    RawHarness(
      Str(p.continuityPolicy), Str(p.agentId), Str(p.model), Str(p.instructions), Num(p.memoryEpoch),
      Arr(MapSeq(SkillJson, p.skills)), Arr(MapSeq(McpJson, p.mcpConnections)),
      Arr(MapSeq(ApiJson, p.apiConnections)), Arr(MapSeq(RepositoryJson, p.repositories)),
      SandboxJson(p.sandboxMode), StringOption(NonEmpty(p.slackIdentityId)))
  }

  function HarnessJson(p: Plan): Json {
    RawHarnessJson(HarnessOf(p))
  }

  ghost function HarnessRevision(env: Platform, p: Plan): string {
    env.sha(Canon(HarnessJson(p)))
  }

  // ----- the strict parser; None stands for a thrown error

  /** The fields of an object with no unknown field and every required one. */
  function ExactRecord(v: Json, required: set<string>, optional: set<string>): Option<map<string, Json>> {
    if v.Obj? && required <= v.fields.Keys && v.fields.Keys <= required + optional then Some(v.fields) else None
  }

  function BoundedString(v: Json, minimum: nat, maximum: nat): Option<string> {
    if v.Str? && minimum <= |v.s| <= maximum then Some(v.s) else None
  }

  function OneOf(v: Json, allowed: set<string>): Option<string> {
    if v.Str? && v.s in allowed then Some(v.s) else None
  }

  function ParseEach<T>(items: seq<Json>, parse: Json -> Option<T>): Option<seq<T>> {
    if items == [] then Some([])
    else
      var first, rest := parse(items[0]), ParseEach(items[1..], parse);
      if first.None? || rest.None? then None else Some([first.value] + rest.value)
  }

  function ArrayOf<T>(v: Json, parse: Json -> Option<T>, maximum: nat): Option<seq<T>> {
    if v.Arr? && |v.items| <= maximum then ParseEach(v.items, parse) else None
  }

  function ListedString(v: Json): Option<string> { BoundedString(v, 1, 2048) }

  function SortedUniqueArray(env: Platform, v: Json, maximum: nat): Option<seq<string>> {
    match ArrayOf(v, ListedString, maximum)
    case None => None
    case Some(values) => Some(SortedUnique(values, env.leq))
  }

  predicate IsSlackChar(c: char) {
    'a' <= c <= 'z' || 'A' <= c <= 'Z' || IsDigit(c) || c == '_' || c == '-'
  }

  predicate IsSlackIdentity(s: string) {
    2 <= |s| <= 80 && forall i :: 0 <= i < |s| ==> IsSlackChar(s[i])
  }

  /** `dm`, or a Slack timestamp. */
  predicate IsThread(s: string) {
    s == "dm" ||
    (2 <= |s| <= 80 &&
     var dot := IndexOf(s, '.');
     && dot < |s| && 1 <= dot <= 20 && AllDigits(s[..dot])
     && |s[dot + 1..]| <= 10 && AllDigits(s[dot + 1..]))
  }

  function Checked(v: Json, ok: string -> bool): Option<string> {
    if v.Str? && ok(v.s) then Some(v.s) else None
  }

  function ParseSkill(v: Json): Option<Skill> {
    match ExactRecord(v, {"name", "description", "instructions"}, {})
    case None => None
    case Some(r) =>
      match (BoundedString(r["name"], 1, 64), BoundedString(r["description"], 1, 1000),
             BoundedString(r["instructions"], 1, 100000))
      case (Some(name), Some(description), Some(instructions)) => Some(Skill(name, description, instructions))
      case _ => None
  }

  predicate IsMcpUrl(env: Platform, url: string) {
    8 <= |url| <= 2048 && env.credentialFreeHttps(url)
  }

  function RawMcpOf(v: Json): Option<RawMcp> {
    match ExactRecord(v, {"id", "url", "transport", "authMode", "headerNames", "allowedTools", "optional"}, {})
    case None => None
    case Some(r) =>
      Some(RawMcp(r["id"], r["url"], r["transport"], r["authMode"], r["headerNames"], r["allowedTools"], r["optional"]))
  }

  function ParseMcp(env: Platform, v: Json): Option<Mcp> {
    match RawMcpOf(v)
    case None => None
    case Some(r) => ParseRawMcp(env, r)
  }

  function ParseRawMcp(env: Platform, r: RawMcp): Option<Mcp> {
    if !r.optional.Bool? then None
    else
      match (BoundedString(r.id, 1, 120), Checked(r.url, s => IsMcpUrl(env, s)),
             OneOf(r.transport, TRANSPORTS), OneOf(r.authMode, MCP_AUTH_MODES),
             SortedUniqueArray(env, r.headerNames, 64), SortedUniqueArray(env, r.allowedTools, 256))
      case (Some(id), Some(url), Some(transport), Some(authMode), Some(names), Some(tools)) =>
        Some(Mcp(id, url, transport, authMode, names, tools, r.optional.b))
      case _ => None
  }

  const TRANSPORTS: set<string> := {"streamable-http", "sse"}
  const MCP_AUTH_MODES: set<string> := {"none", "bearer", "oauth"}
  const API_AUTH_MODES: set<string> := {"credential", "oauth"}

  /** An OAuth connection names its provider and scopes, any other names neither. */
  predicate OauthFits(authMode: string, provider: Option<string>, scopes: Option<seq<string>>) {
    && (authMode == "oauth" ==> provider.Some? && scopes.Some?)
    && (authMode == "credential" ==> provider.None? && scopes.None?)
  }

  /** An absent field is fine; one that is present must parse. */
  datatype Optional<+T> = Bad | Fine(value: Option<T>)

  function ParseOptional<T>(v: Option<Json>, parse: Json -> Option<T>): Optional<T> {
    if v.None? then Fine(None)
    else
      var parsed := parse(v.value);
      if parsed.None? then Bad else Fine(parsed)
  }

  function Member(r: map<string, Json>, name: string): Option<Json> {
    if name in r then Some(r[name]) else None
  }

  function ParsePrefix(v: Json): Option<string> { BoundedString(v, 0, 200) }

  function ParseProvider(v: Json): Option<string> { OneOf(v, {"google"}) }

  function RawApiOf(v: Json): Option<RawApi> {
    match ExactRecord(v, {"id", "allowedHosts", "pathPrefixes", "allowedMethods", "headerName", "authMode"},
                      {"headerValuePrefix", "oauthProvider", "oauthScopes"})
    case None => None
    case Some(r) =>
      Some(RawApi(r["id"], r["allowedHosts"], r["pathPrefixes"], r["allowedMethods"], r["headerName"], r["authMode"],
                  Member(r, "headerValuePrefix"), Member(r, "oauthProvider"), Member(r, "oauthScopes")))
  }

  function ScopesParser(env: Platform): Json -> Option<seq<string>> {
    v => SortedUniqueArray(env, v, 128)
  }

  function ParseApi(env: Platform, v: Json): Option<Api> {
    match RawApiOf(v)
    case None => None
    case Some(r) => ParseRawApi(env, r)
  }

  function ParseRawApi(env: Platform, r: RawApi): Option<Api> {
    match (OneOf(r.authMode, API_AUTH_MODES), ParseOptional(r.oauthProvider, ParseProvider),
           ParseOptional(r.oauthScopes, ScopesParser(env)),
           ParseOptional(r.headerValuePrefix, ParsePrefix))
    case (Some(authMode), Fine(provider), Fine(scopes), Fine(prefix)) =>
      if !OauthFits(authMode, provider, scopes) then None
      else ParseApiLists(env, r, prefix, authMode, provider, scopes)
    case _ => None
  }

  function ParseApiLists(env: Platform, r: RawApi, prefix: Option<string>, authMode: string,
                         provider: Option<string>, scopes: Option<seq<string>>): Option<Api>
  {
    match (BoundedString(r.id, 1, 120), SortedUniqueArray(env, r.allowedHosts, 128),
           SortedUniqueArray(env, r.pathPrefixes, 128), SortedUniqueArray(env, r.allowedMethods, 16),
           BoundedString(r.headerName, 1, 128))
    case (Some(id), Some(hosts), Some(prefixes), Some(verbs), Some(headerName)) =>
      Some(Api(id, hosts, prefixes, verbs, env.lower(headerName), prefix, authMode, provider, scopes))
    case _ => None
  }

  function ParseRepository(v: Json): Option<Repository> {
    match ExactRecord(v, {"id", "fullName"}, {"allRepos"})
    case None => None
    case Some(r) =>
      if "allRepos" in r && r["allRepos"] != Bool(true) then None
      else
        match (BoundedString(r["id"], 1, 120), BoundedString(r["fullName"], 1, 260))
        case (Some(id), Some(fullName)) => Some(Repository(id, fullName, "allRepos" in r))
        case _ => None
  }

  /** Plans from before the current surfaces are read as direct messages. */
  function ParseSurface(v: Json): Option<string> {
    match OneOf(v, {"channel_thread", "direct_message", "app_home"})
    case None => None
    case Some(surface) => Some(if surface == "app_home" then "direct_message" else surface)
  }

  function ParseConversation(v: Json): Option<Conversation> {
    match ExactRecord(v, {"workspaceId", "channelId", "threadTs", "surface", "continuityKey"}, {})
    case None => None
    case Some(r) =>
      match (Checked(r["workspaceId"], IsSlackIdentity), Checked(r["channelId"], IsSlackIdentity),
             Checked(r["threadTs"], IsThread), ParseSurface(r["surface"]),
             Checked(r["continuityKey"], IsOpaqueAgentId))
      case (Some(workspaceId), Some(channelId), Some(threadTs), Some(surface), Some(continuityKey)) =>
        Some(Conversation(workspaceId, channelId, threadTs, surface, continuityKey))
      case _ => None
  }

  const MAX_SAFE_INTEGER := 0x1F_FFFF_FFFF_FFFF

  function PositiveInteger(v: Json): Option<int> {
    if v.Num? && 1 <= v.n <= MAX_SAFE_INTEGER then Some(v.n) else None
  }

  const SANDBOX_MODES: set<string> := {"bash", "cloudflare"}

  function ParseSandbox(v: Json): Option<string> {
    match ExactRecord(v, {"mode"}, {})
    case None => None
    case Some(r) => OneOf(r["mode"], SANDBOX_MODES)
  }

  function ParseArtifact(v: Json, channelId: string): Option<string> {
    match ExactRecord(v, {"kind", "channelId"}, {})
    case None => None
    case Some(r) =>
      if r["kind"] != Str("slack_conversation") then None
      else
        match Checked(r["channelId"], IsSlackIdentity)
        case None => None
        case Some(channel) => if channel != channelId then None else Some(channel)
  }

  function ParseIdentity(v: Json): Option<string> { BoundedString(v, 1, 128) }

  const PLAN_NAMES: set<string> := {
    "schemaVersion", "continuityPolicy", "agentId", "conversation", "model", "instructions", "memoryEpoch",
    "skills", "mcpConnections", "apiConnections", "repositories", "sandbox", "artifactDestination",
    "harnessRevision" }

  function RawPlanOf(v: Json): Option<RawPlan> {
    match ExactRecord(v, PLAN_NAMES, {"slackIdentityId"})
    case None => None
    case Some(r) =>
      Some(RawPlan(r["schemaVersion"], r["continuityPolicy"], r["agentId"], r["conversation"], r["model"],
                   r["instructions"], r["memoryEpoch"], r["skills"], r["mcpConnections"], r["apiConnections"],
                   r["repositories"], r["sandbox"], r["artifactDestination"], r["harnessRevision"],
                   Member(r, "slackIdentityId")))
  }

  function ParseScalars(r: RawPlan): Option<Plan> {
    if r.schemaVersion != Num(2) then None
    else
      match (BoundedString(r.continuityPolicy, 1, 80), BoundedString(r.agentId, 1, 128),
             ParseOptional(r.slackIdentityId, ParseIdentity), ParseConversation(r.conversation),
             BoundedString(r.model, 3, 240), BoundedString(r.instructions, 1, 200000),
             PositiveInteger(r.memoryEpoch))
      case (Some(policy), Some(agentId), Fine(identity), Some(conversation), Some(model), Some(instructions),
            Some(epoch)) =>
        Some(Plan(policy, agentId, identity, conversation, model, instructions, epoch, [], [], [], [], "", "", ""))
      case _ => None
  }

  /** The plan's fields, before its revision is compared. */
  function ParseFields(env: Platform, r: RawPlan): Option<Plan> {
    match ParseScalars(r)
    case None => None
    case Some(start) => ParseLists(env, r, start)
  }

  function McpParser(env: Platform): Json -> Option<Mcp> {
    v => ParseMcp(env, v)
  }

  function ApiParser(env: Platform): Json -> Option<Api> {
    v => ParseApi(env, v)
  }

  function ParseLists(env: Platform, r: RawPlan, start: Plan): Option<Plan> {
    match (ArrayOf(r.skills, ParseSkill, 128), ArrayOf(r.mcpConnections, McpParser(env), 128),
           ArrayOf(r.apiConnections, ApiParser(env), 128), ArrayOf(r.repositories, ParseRepository, 256),
           ParseSandbox(r.sandbox), ParseArtifact(r.artifactDestination, start.conversation.channelId),
           Checked(r.harnessRevision, IsSha256))
    case (Some(skills), Some(mcps), Some(apis), Some(repositories), Some(mode), Some(channel), Some(revision)) =>
      Some(start.(skills := skills, mcpConnections := mcps, apiConnections := apis, repositories := repositories,
                  sandboxMode := mode, artifactChannelId := channel, harnessRevision := revision))
    case _ => None
  }

  /** parseRuntimePlanV2 */
  ghost function ParsePlan(env: Platform, v: Json): Option<Plan> {
    match RawPlanOf(v)
    case None => None
    case Some(r) =>
      match ParseFields(env, r)
      case None => None
      case Some(p) => if p.harnessRevision != HarnessRevision(env, p) then None else Some(p)
  }

  // ----- compiling a profile

  datatype SkillConfig = SkillConfig(name: string, description: string, instructions: string, enabled: bool)

  datatype McpConfig = McpConfig(
    id: string, url: string, transport: string, authMode: string, headerNames: seq<string>,
    enabled: bool, lifecycle: string, allowedTools: seq<string>)

  datatype ApiConfig = ApiConfig(
    id: string, allowedHosts: seq<string>, pathPrefixes: seq<string>, headerName: string,
    headerValuePrefix: Option<string>, allowedMethods: seq<string>, enabled: bool,
    authMode: Option<string>, oauthProvider: Option<string>, oauthScopes: Option<seq<string>>,
    lifecycle: Option<string>)

  datatype Grant = Grant(
    id: string, installationId: Option<int>, accountLogin: string, fullName: string,
    allRepos: Option<bool>, enabled: bool)

  datatype Agent = Agent(
    id: string, slackIdentityId: Option<string>,
    skills: seq<SkillConfig>, mcpServers: seq<McpConfig>, apiConnections: seq<ApiConfig>, repositories: seq<Grant>)

  /** One turn, the profile it resolves to, and what surrounds them. */
  datatype Input = Input(
    workspaceId: string, channelId: string, threadTs: string, sessionThreadTs: Option<string>,
    source: string, channelType: Option<string>,
    slackIdentityId: Option<string>, agent: Agent, model: string,
    instructions: string, memoryEpoch: int, sandboxMode: string, continuityPolicy: Option<string>)

  function FilterSeq<T(!new)>(keep: T -> bool, xs: seq<T>): (ys: seq<T>)
    ensures forall x :: x in ys <==> x in xs && keep(x)
  {
    if xs == [] then []
    else if keep(xs[0]) then [xs[0]] + FilterSeq(keep, xs[1..])
    else FilterSeq(keep, xs[1..])
  }

  lemma {:induction false} FilterSame<T(!new)>(p: T -> bool, q: T -> bool, xs: seq<T>)
    requires forall x <- xs :: p(x) == q(x)
    ensures FilterSeq(p, xs) == FilterSeq(q, xs)
    decreases |xs|
  {
    if xs != [] {
      assert xs[0] in xs && forall x <- xs[1..] :: x in xs;
      FilterSame(p, q, xs[1..]);
    }
  }

  /** The map that the loop over the skills fills: the last enabled skill of a
      name, at the place of the first. */
  function SkillsByName(skills: seq<SkillConfig>): (m: OrderedMap<string, Skill>)
    ensures m.Valid()
  {
    if skills == [] then NoEntries()
    else
      var earlier, last := SkillsByName(skills[..|skills| - 1]), skills[|skills| - 1];
      if last.enabled then earlier.Set(last.name, Skill(last.name, last.description, last.instructions)) else earlier
  }

  function SkillName(s: Skill): string { s.name }

  function CompileSkills(env: Platform, skills: seq<SkillConfig>): seq<Skill> {
    SortBy(SkillsByName(skills).Values(), SkillName, env.leq)
  }

  /** The loop of compileSkills in its own form. */
  method CompileSkillsLoop(env: Platform, skills: seq<SkillConfig>) returns (r: seq<Skill>)
    ensures r == CompileSkills(env, skills)
  {
    var byName: OrderedMap<string, Skill> := NoEntries();
    for i := 0 to |skills|
      invariant byName == SkillsByName(skills[..i])
    {
      var skill := skills[i];
      assert skills[..i + 1][..i] == skills[..i];
      if !skill.enabled { continue; }
      byName := byName.Set(skill.name, Skill(skill.name, skill.description, skill.instructions));
    }
    assert skills[..|skills|] == skills;
    r := SortBy(byName.Values(), SkillName, env.leq);
  }

  predicate McpEligible(c: McpConfig) {
    c.enabled && c.lifecycle == "ready" && c.allowedTools != []
  }

  function CompileMcp(env: Platform, c: McpConfig): Mcp {
    Mcp(c.id, c.url, c.transport, c.authMode, SortedUnique(MapSeq(env.lower, c.headerNames), env.leq),
        SortedUnique(c.allowedTools, env.leq), true)
  }

  function McpCompiler(env: Platform): McpConfig -> Mcp {
    c => CompileMcp(env, c)
  }

  function McpId(c: Mcp): string { c.id }

  function CompileMcps(env: Platform, connections: seq<McpConfig>): seq<Mcp> {
    SortBy(MapSeq(McpCompiler(env), FilterSeq(McpEligible, connections)), McpId, env.leq)
  }

  predicate ApiEligible(c: ApiConfig) {
    c.enabled && (c.lifecycle.None? || c.lifecycle == Some("ready"))
  }

  function CompileApi(env: Platform, c: ApiConfig): Api {
    Api(c.id, SortedUnique(MapSeq(env.lower, c.allowedHosts), env.leq), SortedUnique(c.pathPrefixes, env.leq),
        SortedUnique(MapSeq(env.upper, c.allowedMethods), env.leq), env.lower(c.headerName),
        NonEmpty(c.headerValuePrefix), c.authMode.GetOr("credential"), NonEmpty(c.oauthProvider),
        if c.oauthScopes.None? then None else Some(SortedUnique(c.oauthScopes.value, env.leq)))
  }

  function ApiCompiler(env: Platform): ApiConfig -> Api {
    c => CompileApi(env, c)
  }

  function ApiId(c: Api): string { c.id }

  function CompileApis(env: Platform, connections: seq<ApiConfig>): seq<Api> {
    SortBy(MapSeq(ApiCompiler(env), FilterSeq(ApiEligible, connections)), ApiId, env.leq)
  }

  predicate GrantEnabled(g: Grant) { g.enabled }

  function CompileRepository(g: Grant): Repository {
    Repository(g.id, g.fullName, g.allRepos == Some(true))
  }

  function RepositoryId(r: Repository): string { r.id }

  function CompileRepositories(env: Platform, grants: seq<Grant>): seq<Repository> {
    SortBy(MapSeq(CompileRepository, FilterSeq(GrantEnabled, grants)), RepositoryId, env.leq)
  }

  function SurfaceForTurn(i: Input): string {
    if i.source == "dm_message" || i.channelType == Some("im") || i.channelType == Some("mpim")
    then "direct_message" else "channel_thread"
  }

  function ThreadOf(i: Input): string {
    i.sessionThreadTs.GetOr(i.threadTs)
  }

  function SlackThreadKey(i: Input): string {
    i.workspaceId + ":" + i.channelId + ":" + ThreadOf(i)
  }

  /** compileRuntimePlanV2 up to its last step, the parser. */
  ghost function DraftPlan(env: Platform, i: Input): Plan {
    var p := Plan(
      i.continuityPolicy.GetOr("slack-runtime-v2"),
      i.agent.id,
      Some(i.slackIdentityId.GetOr(i.agent.slackIdentityId.GetOr("slack_identity_default"))),
      Conversation(i.workspaceId, i.channelId, ThreadOf(i), SurfaceForTurn(i),
                   env.opaqueId("agent", SlackThreadKey(i))),
      i.model, i.instructions, i.memoryEpoch,
      CompileSkills(env, i.agent.skills), CompileMcps(env, i.agent.mcpServers),
      CompileApis(env, i.agent.apiConnections), CompileRepositories(env, i.agent.repositories),
      i.sandboxMode, i.channelId, "");
    p.(harnessRevision := HarnessRevision(env, p))
  }

  ghost function CompilePlan(env: Platform, i: Input): Option<Plan> {
    ParsePlan(env, PlanJson(DraftPlan(env, i)))
  }

  // ----- keys derived from a plan

  /** What the instance id of a plan is a digest of. */
  function InstanceCoordinate(p: Plan): string {
    p.conversation.continuityKey + ":" + p.harnessRevision
  }

  ghost function InstanceId(env: Platform, p: Plan): Option<string> {
    match ParsePlan(env, PlanJson(p))
    case None => None
    case Some(valid) => Some(env.opaqueId("agent", InstanceCoordinate(valid)))
  }

  function ConversationKey(c: Conversation): string {
    c.workspaceId + ":" + c.channelId + ":" + c.threadTs
  }

  /** What the sandbox key of a plan and an owner is a digest of. */
  function SandboxCoordinate(c: Conversation, ownerId: string): string {
    ConversationKey(c) + ":" + ownerId
  }
}
