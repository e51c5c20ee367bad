/** Exactly which JSON values the strict parser accepts, and what it reads from
    each: names, bounds and formats in plain text. */
module PlanParsing {
  import opened Prelude
  import opened CanonicalJson
  import opened Sorting
  import opened RuntimePlan
  import opened PlanNormalForm

  // ----- the texts of fields

  /** An object with every required field and no field but those and the optional ones. */
  ghost predicate Fields(v: Json, required: set<string>, optional: set<string>) {
    v.Obj? && (forall k <- required :: k in v.fields) && forall k <- v.fields :: k in required || k in optional
  }

  predicate IsText(v: Option<Json>, s: string, minimum: nat, maximum: nat) {
    v == Some(Str(s)) && minimum <= |s| <= maximum
  }

  predicate IsOneOf(v: Option<Json>, s: string, allowed: seq<string>) {
    v == Some(Str(s)) && s in allowed
  }

  /** A list of at most so many texts; they are read as a set and kept in order. */
  ghost predicate IsList(env: Platform, v: Option<Json>, xs: seq<string>, maximum: nat) {
    v.Some? && ListText(env, v.value, xs, maximum)
  }

  ghost predicate ListText(env: Platform, v: Json, xs: seq<string>, maximum: nat) {
    && v.Arr? && |v.items| <= maximum && (forall i <- v.items :: i.Str? && 1 <= |i.s| <= 2048)
    && Ascending(xs, env.leq) && forall s :: s in xs <==> Str(s) in v.items
  }

  /** Entry by entry. */
  ghost predicate EachText<T>(v: Json, xs: seq<T>, maximum: nat, text: (Json, T) -> bool) {
    && v.Arr? && |v.items| <= maximum && |xs| == |v.items|
    && forall i :: 0 <= i < |xs| ==> text(v.items[i], xs[i])
  }

  function Field(v: Json, name: string): Option<Json> {
    if v.Obj? && name in v.fields then Some(v.fields[name]) else None
  }

  predicate HexDigits(s: string, length: nat) {
    |s| == length && forall c <- s :: c in "0123456789abcdef"
  }

  predicate SlackName(s: string) {
    2 <= |s| <= 80 && forall c <- s :: c in LOWER || c in UPPER || c in DIGITS || c in "_-"
  }

  /** `dm`, or seconds and a fraction. */
  ghost predicate ThreadName(s: string) {
    s == "dm" || exists seconds, fraction :: IsTimestamp(s, seconds, fraction)
  }

  predicate IsTimestamp(s: string, seconds: string, fraction: string) {
    && s == seconds + "." + fraction && 1 <= |seconds| <= 20 && 1 <= |fraction| <= 10
    && (forall c <- seconds :: c in DIGITS) && forall c <- fraction :: c in DIGITS
  }

  predicate AgentId(s: string) {
    |s| >= 6 && s[..6] == "agent_" && HexDigits(s[6..], 40)
  }

  // ----- the texts of items

  ghost predicate SkillText(v: Json, s: Skill) {
    && Fields(v, {"name", "description", "instructions"}, {})
    && IsText(Field(v, "name"), s.name, 1, 64) && IsText(Field(v, "description"), s.description, 1, 1000)
    && IsText(Field(v, "instructions"), s.instructions, 1, 100000)
  }

  ghost predicate McpText(env: Platform, v: Json, m: Mcp) {
    && Fields(v, {"id", "url", "transport", "authMode", "headerNames", "allowedTools", "optional"}, {})
    && IsText(Field(v, "id"), m.id, 1, 120)
    && IsText(Field(v, "url"), m.url, 8, 2048) && env.credentialFreeHttps(m.url)
    && IsOneOf(Field(v, "transport"), m.transport, ["streamable-http", "sse"])
    && IsOneOf(Field(v, "authMode"), m.authMode, ["none", "bearer", "oauth"])
    && IsList(env, Field(v, "headerNames"), m.headerNames, 64)
    && IsList(env, Field(v, "allowedTools"), m.allowedTools, 256)
    && Field(v, "optional") == Some(Bool(m.optional))
  }

  /** An absent field is read as none. */
  predicate IsPrefix(v: Option<Json>, prefix: Option<string>) {
    v.Some? == prefix.Some? && (prefix.Some? ==> IsText(v, prefix.value, 0, 200))
  }

  /** With OAuth there is a provider and a list of scopes, without it neither. */
  ghost predicate IsPolicy(env: Platform, provider: Option<Json>, scopes: Option<Json>, a: Api) {
    if a.authMode == "oauth" then
      && provider == Some(Str("google")) && a.oauthProvider == Some("google")
      && a.oauthScopes.Some? && IsList(env, scopes, a.oauthScopes.value, 128)
    else provider == None && scopes == None && a.oauthProvider == None && a.oauthScopes == None
  }

  predicate IsHeader(env: Platform, v: Option<Json>, name: string) {
    v.Some? && v.value.Str? && 1 <= |v.value.s| <= 128 && name == env.lower(v.value.s)
  }

  ghost predicate ApiText(env: Platform, v: Json, a: Api) {
    && Fields(v, {"id", "allowedHosts", "pathPrefixes", "allowedMethods", "headerName", "authMode"},
              {"headerValuePrefix", "oauthProvider", "oauthScopes"})
    && IsText(Field(v, "id"), a.id, 1, 120)
    && IsList(env, Field(v, "allowedHosts"), a.allowedHosts, 128)
    && IsList(env, Field(v, "pathPrefixes"), a.pathPrefixes, 128)
    && IsList(env, Field(v, "allowedMethods"), a.allowedMethods, 16)
    && IsHeader(env, Field(v, "headerName"), a.headerName)
    && IsOneOf(Field(v, "authMode"), a.authMode, ["credential", "oauth"])
    && IsPrefix(Field(v, "headerValuePrefix"), a.headerValuePrefix)
    && IsPolicy(env, Field(v, "oauthProvider"), Field(v, "oauthScopes"), a)
  }

  ghost predicate RepositoryText(v: Json, r: Repository) {
    && Fields(v, {"id", "fullName"}, {"allRepos"})
    && IsText(Field(v, "id"), r.id, 1, 120) && IsText(Field(v, "fullName"), r.fullName, 1, 260)
    && Field(v, "allRepos") == if r.allRepos then Some(Bool(true)) else None
  }

  /** Plans from before the current surfaces say `app_home` for a direct message. */
  ghost predicate ConversationText(v: Json, c: Conversation) {
    && Fields(v, {"workspaceId", "channelId", "threadTs", "surface", "continuityKey"}, {})
    && Field(v, "workspaceId") == Some(Str(c.workspaceId)) && SlackName(c.workspaceId)
    && Field(v, "channelId") == Some(Str(c.channelId)) && SlackName(c.channelId)
    && Field(v, "threadTs") == Some(Str(c.threadTs)) && ThreadName(c.threadTs)
    && IsSurface(Field(v, "surface"), c.surface)
    && Field(v, "continuityKey") == Some(Str(c.continuityKey)) && AgentId(c.continuityKey)
  }

  predicate IsSurface(v: Option<Json>, surface: string) {
    || (v == Some(Str("channel_thread")) && surface == "channel_thread")
    || (v in [Some(Str("direct_message")), Some(Str("app_home"))] && surface == "direct_message")
  }

  // ----- the text of a plan

  ghost predicate ScalarsText(v: Json, p: Plan) {
    && Field(v, "schemaVersion") == Some(Num(2))
    && IsText(Field(v, "continuityPolicy"), p.continuityPolicy, 1, 80)
    && IsText(Field(v, "agentId"), p.agentId, 1, 128)
    && IsIdentity(Field(v, "slackIdentityId"), p.slackIdentityId)
    && Field(v, "conversation").Some? && ConversationText(Field(v, "conversation").value, p.conversation)
    && IsText(Field(v, "model"), p.model, 3, 240) && IsText(Field(v, "instructions"), p.instructions, 1, 200000)
    && Field(v, "memoryEpoch") == Some(Num(p.memoryEpoch)) && 1 <= p.memoryEpoch <= 9007199254740991
  }

  predicate IsIdentity(v: Option<Json>, identity: Option<string>) {
    v.Some? == identity.Some? && (identity.Some? ==> IsText(v, identity.value, 1, 128))
  }

  ghost function McpTexts(env: Platform): (Json, Mcp) -> bool {
    (v, m) => McpText(env, v, m)
  }

  ghost function ApiTexts(env: Platform): (Json, Api) -> bool {
    (v, a) => ApiText(env, v, a)
  }

  ghost predicate IsEach<T>(v: Option<Json>, xs: seq<T>, maximum: nat, text: (Json, T) -> bool) {
    v.Some? && EachText(v.value, xs, maximum, text)
  }

  ghost predicate ListsText(env: Platform, v: Json, p: Plan) {
    && IsEach(Field(v, "skills"), p.skills, 128, SkillText)
    && IsEach(Field(v, "mcpConnections"), p.mcpConnections, 128, McpTexts(env))
    && IsEach(Field(v, "apiConnections"), p.apiConnections, 128, ApiTexts(env))
    && IsEach(Field(v, "repositories"), p.repositories, 256, RepositoryText)
    && Field(v, "sandbox") == Some(Obj(map["mode" := Str(p.sandboxMode)])) && p.sandboxMode in ["bash", "cloudflare"]
    && Field(v, "artifactDestination")
       == Some(Obj(map["kind" := Str("slack_conversation"), "channelId" := Str(p.artifactChannelId)]))
    && p.artifactChannelId == p.conversation.channelId && SlackName(p.artifactChannelId)
    && Field(v, "harnessRevision") == Some(Str(p.harnessRevision)) && HexDigits(p.harnessRevision, 64)
  }

  const PLAN_FIELDS := {"schemaVersion", "continuityPolicy", "agentId", "conversation", "model", "instructions",
                        "memoryEpoch", "skills", "mcpConnections", "apiConnections", "repositories", "sandbox",
                        "artifactDestination", "harnessRevision"}

  /** The JSON values that are read as this plan. */
  ghost predicate PlanText(env: Platform, v: Json, p: Plan) {
    && Fields(v, PLAN_FIELDS, {"slackIdentityId"})
    && ScalarsText(v, p) && ListsText(env, v, p) && p.harnessRevision == env.sha(Canon(HarnessJson(p)))
  }

  // ----- formats

  lemma HexIsListed(s: string)
    ensures IsLowerHex(s) <==> forall c <- s :: c in "0123456789abcdef"
  {
    forall c: char ensures IsDigit(c) || 'a' <= c <= 'f' <==> c in "0123456789abcdef" { HexDigitIsListed(c); }
  }

  lemma HexDigitIsListed(c: char)
    ensures IsDigit(c) || 'a' <= c <= 'f' <==> c in "0123456789abcdef"
  {
    var hex := "0123456789abcdef";
    assert forall k :: 0 <= k < 10 ==> hex[k] as int == 48 + k;
    assert forall k :: 10 <= k < 16 ==> hex[k] as int == 87 + k;
    if IsDigit(c) { assert hex[c as int - 48] == c; }
    if 'a' <= c <= 'f' { assert hex[c as int - 87] == c; }
  }

  lemma SlackIsNamed(s: string)
    ensures IsSlackIdentity(s) <==> SlackName(s)
  {
    forall c: char ensures IsSlackChar(c) <==> c in LOWER || c in UPPER || c in DIGITS || c in "_-" {
      LowerIsListed(c);
      UpperIsListed(c);
      DigitIsListed(c);
    }
  }

  lemma DigitsAreListed(s: string)
    ensures AllDigits(s) <==> s != "" && forall c <- s :: c in DIGITS
  {
    forall c: char ensures IsDigit(c) <==> c in DIGITS { DigitIsListed(c); }
  }

  lemma ThreadIsNamed(s: string)
    ensures IsThread(s) <==> ThreadName(s)
  {
    var dot := IndexOf(s, '.');
    if IsThread(s) && s != "dm" {
      var a, b := s[..dot], s[dot + 1..];
      DigitsAreListed(a);
      DigitsAreListed(b);
      assert IsTimestamp(s, a, b);
    }
    if a, b :| IsTimestamp(s, a, b) {
      DigitsAreListed(a);
      DigitsAreListed(b);
      SplitsAtDot(a, b);
    }
  }

  lemma SplitsAtDot(a: string, b: string)
    requires AllDigits(a)
    ensures var s := a + "." + b; IndexOf(s, '.') == |a| && s[..|a|] == a && s[|a| + 1..] == b
  {
    var s := a + "." + b;
    assert forall k :: 0 <= k < |a| ==> s[k] == a[k];
    IndexOfIsFirst(s, '.', |a|);
  }

  lemma AgentIdIsOpaque(s: string)
    ensures IsOpaqueAgentId(s) <==> AgentId(s)
  {
    if |s| >= 6 { HexIsListed(s[6..]); }
  }

  lemma DigestIsHex(s: string)
    ensures IsSha256(s) <==> HexDigits(s, 64)
  {
    HexIsListed(s);
  }

  // ----- lists and items

  lemma {:induction false} EachParses<T>(items: seq<Json>, parse: Json -> Option<T>, xs: seq<T>)
    ensures ParseEach(items, parse) == Some(xs) <==>
              |xs| == |items| && forall i :: 0 <= i < |xs| ==> parse(items[i]) == Some(xs[i])
    decreases |items|
  {
    if items != [] && xs != [] {
      EachParses(items[1..], parse, xs[1..]);
      assert xs == [xs[0]] + xs[1..];
      if |xs| == |items| && forall i :: 0 <= i < |xs| ==> parse(items[i]) == Some(xs[i]) {
        assert forall i :: 0 <= i < |xs| - 1 ==> items[1..][i] == items[i + 1] && xs[1..][i] == xs[i + 1];
      }
      if ParseEach(items, parse) == Some(xs) {
        forall i | 0 <= i < |xs| ensures parse(items[i]) == Some(xs[i]) {
          if i > 0 { assert items[1..][i - 1] == items[i] && xs[1..][i - 1] == xs[i]; }
        }
      }
    }
  }

  lemma ArrayParses<T>(v: Json, parse: Json -> Option<T>, maximum: nat, xs: seq<T>, text: (Json, T) -> bool)
    requires forall item, x :: parse(item) == Some(x) <==> text(item, x)
    ensures ArrayOf(v, parse, maximum) == Some(xs) <==> EachText(v, xs, maximum, text)
  {
    if v.Arr? && |v.items| <= maximum { EachParses(v.items, parse, xs); }
  }

  lemma ListParses(env: Platform, v: Json, xs: seq<string>, maximum: nat)
    requires ValidPlatform(env)
    ensures SortedUniqueArray(env, v, maximum) == Some(xs) <==> ListText(env, v, xs, maximum)
  {
    if v.Arr? && |v.items| <= maximum {
      if forall i <- v.items :: i.Str? && 1 <= |i.s| <= 2048 {
        var values := seq(|v.items|, i requires 0 <= i < |v.items| => if v.items[i].Str? then v.items[i].s else "");
        forall i | 0 <= i < |values| ensures ListedString(v.items[i]) == Some(values[i]) {
          assert v.items[i] in v.items;
        }
        EachParses(v.items, ListedString, values);
        SortedUniqueAscends(values, env.leq);
        forall s ensures s in values <==> Str(s) in v.items { InTexts(v.items, values, s); }
        if ListText(env, v, xs, maximum) {
          AscendingIsUnique(SortedUnique(values, env.leq), xs, Self, env.leq);
        }
      } else {
        NotAllListed(v.items);
      }
    }
  }

  lemma InTexts(items: seq<Json>, values: seq<string>, s: string)
    requires |items| == |values| && forall i :: 0 <= i < |items| ==> items[i] == Str(values[i])
    ensures s in values <==> Str(s) in items
  {
    if s in values {
      var i :| 0 <= i < |values| && values[i] == s;
      assert items[i] == Str(s);
    }
    if Str(s) in items {
      var i :| 0 <= i < |items| && items[i] == Str(s);
      assert values[i] == s;
    }
  }

  lemma {:induction false} NotAllListed(items: seq<Json>)
    requires !forall i <- items :: i.Str? && 1 <= |i.s| <= 2048
    ensures ParseEach(items, ListedString) == None
    decreases |items|
  {
    if ListedString(items[0]).Some? { NotAllListed(items[1..]); }
  }

  lemma RecordHas(v: Json, required: set<string>, optional: set<string>)
    ensures ExactRecord(v, required, optional) == if Fields(v, required, optional) then Some(v.fields) else None
  {
  }

  lemma SkillParses(v: Json, s: Skill)
    ensures ParseSkill(v) == Some(s) <==> SkillText(v, s)
  {
  }

  lemma McpParses(env: Platform, v: Json, m: Mcp)
    requires ValidPlatform(env)
    ensures ParseMcp(env, v) == Some(m) <==> McpText(env, v, m)
  {
    RecordHas(v, {"id", "url", "transport", "authMode", "headerNames", "allowedTools", "optional"}, {});
    if RawMcpOf(v).Some? { RawMcpParses(env, RawMcpOf(v).value, m); }
  }

  ghost predicate RawMcpText(env: Platform, r: RawMcp, m: Mcp) {
    && IsText(Some(r.id), m.id, 1, 120) && IsText(Some(r.url), m.url, 8, 2048) && env.credentialFreeHttps(m.url)
    && IsOneOf(Some(r.transport), m.transport, ["streamable-http", "sse"])
    && IsOneOf(Some(r.authMode), m.authMode, ["none", "bearer", "oauth"])
    && ListText(env, r.headerNames, m.headerNames, 64) && ListText(env, r.allowedTools, m.allowedTools, 256)
    && r.optional == Bool(m.optional)
  }

  lemma RawMcpParses(env: Platform, r: RawMcp, m: Mcp)
    requires ValidPlatform(env)
    ensures ParseRawMcp(env, r) == Some(m) <==> RawMcpText(env, r, m)
  {
    ListParses(env, r.headerNames, m.headerNames, 64);
    ListParses(env, r.allowedTools, m.allowedTools, 256);
  }

  lemma RepositoryParses(v: Json, r: Repository)
    ensures ParseRepository(v) == Some(r) <==> RepositoryText(v, r)
  {
  }

  lemma ApiParses(env: Platform, v: Json, a: Api)
    requires ValidPlatform(env)
    ensures ParseApi(env, v) == Some(a) <==> ApiText(env, v, a)
  {
    RecordHas(v, {"id", "allowedHosts", "pathPrefixes", "allowedMethods", "headerName", "authMode"},
              {"headerValuePrefix", "oauthProvider", "oauthScopes"});
    if RawApiOf(v).Some? { RawApiParsesAs(env, RawApiOf(v).value, a); }
  }

  ghost predicate RawApiText(env: Platform, r: RawApi, a: Api) {
    && IsOneOf(Some(r.authMode), a.authMode, ["credential", "oauth"])
    && IsPrefix(r.headerValuePrefix, a.headerValuePrefix) && IsPolicy(env, r.oauthProvider, r.oauthScopes, a)
    && RawListsText(env, r, a)
  }

  ghost predicate RawListsText(env: Platform, r: RawApi, a: Api) {
    && IsText(Some(r.id), a.id, 1, 120) && ListText(env, r.allowedHosts, a.allowedHosts, 128)
    && ListText(env, r.pathPrefixes, a.pathPrefixes, 128) && ListText(env, r.allowedMethods, a.allowedMethods, 16)
    && IsHeader(env, Some(r.headerName), a.headerName)
  }

  lemma RawListsParse(env: Platform, r: RawApi, a: Api)
    requires ValidPlatform(env)
    ensures ParseApiLists(env, r, a.headerValuePrefix, a.authMode, a.oauthProvider, a.oauthScopes) == Some(a)
       <==> RawListsText(env, r, a)
  {
    ListParses(env, r.allowedHosts, a.allowedHosts, 128);
    ListParses(env, r.pathPrefixes, a.pathPrefixes, 128);
    ListParses(env, r.allowedMethods, a.allowedMethods, 16);
  }

  /** The lists decide no other field. */
  lemma RawListsKeep(env: Platform, r: RawApi, prefix: Option<string>, authMode: string, provider: Option<string>,
                     scopes: Option<seq<string>>)
    ensures var a := ParseApiLists(env, r, prefix, authMode, provider, scopes);
            a.Some? ==> a.value.headerValuePrefix == prefix && a.value.authMode == authMode
                        && a.value.oauthProvider == provider && a.value.oauthScopes == scopes
  {
  }

  lemma ScopesParse(env: Platform, v: Option<Json>, scopes: Option<seq<string>>)
    requires ValidPlatform(env)
    ensures ParseOptional(v, ScopesParser(env)) == Fine(scopes) <==>
              v.Some? == scopes.Some? && (scopes.Some? ==> IsList(env, v, scopes.value, 128))
  {
    if v.Some? && scopes.Some? { ListParses(env, v.value, scopes.value, 128); }
  }

  /** What ParseRawApi asks of its fields, all at once. */
  lemma RawApiNeeds(env: Platform, r: RawApi, a: Api)
    ensures ParseRawApi(env, r) == Some(a) <==>
              && OneOf(r.authMode, API_AUTH_MODES) == Some(a.authMode)
              && ParseOptional(r.oauthProvider, ParseProvider) == Fine(a.oauthProvider)
              && ParseOptional(r.oauthScopes, ScopesParser(env)) == Fine(a.oauthScopes)
              && ParseOptional(r.headerValuePrefix, ParsePrefix) == Fine(a.headerValuePrefix)
              && OauthFits(a.authMode, a.oauthProvider, a.oauthScopes)
              && ParseApiLists(env, r, a.headerValuePrefix, a.authMode, a.oauthProvider, a.oauthScopes) == Some(a)
  {
    var provider := ParseOptional(r.oauthProvider, ParseProvider);
    var scopes := ParseOptional(r.oauthScopes, ScopesParser(env));
    var prefix, authMode := ParseOptional(r.headerValuePrefix, ParsePrefix), OneOf(r.authMode, API_AUTH_MODES);
    if provider.Fine? && scopes.Fine? && prefix.Fine? && authMode.Some? {
      RawListsKeep(env, r, prefix.value, authMode.value, provider.value, scopes.value);
    }
  }

  lemma PolicyParses(env: Platform, r: RawApi, a: Api)
    requires ValidPlatform(env) && a.authMode in ["credential", "oauth"]
    ensures IsPolicy(env, r.oauthProvider, r.oauthScopes, a) <==>
              && ParseOptional(r.oauthProvider, ParseProvider) == Fine(a.oauthProvider)
              && ParseOptional(r.oauthScopes, ScopesParser(env)) == Fine(a.oauthScopes)
              && OauthFits(a.authMode, a.oauthProvider, a.oauthScopes)
  {
    ScopesParse(env, r.oauthScopes, a.oauthScopes);
  }

  lemma RawApiParsesAs(env: Platform, r: RawApi, a: Api)
    requires ValidPlatform(env)
    ensures ParseRawApi(env, r) == Some(a) <==> RawApiText(env, r, a)
  {
    RawApiNeeds(env, r, a);
    RawListsParse(env, r, a);
    if a.authMode in ["credential", "oauth"] { PolicyParses(env, r, a); }
  }

  lemma SlackParses(v: Json, s: string)
    ensures Checked(v, IsSlackIdentity) == Some(s) <==> v == Str(s) && SlackName(s)
  {
    SlackIsNamed(s);
  }

  lemma ThreadParses(v: Json, s: string)
    ensures Checked(v, IsThread) == Some(s) <==> v == Str(s) && ThreadName(s)
  {
    ThreadIsNamed(s);
  }

  lemma AgentIdParses(v: Json, s: string)
    ensures Checked(v, IsOpaqueAgentId) == Some(s) <==> v == Str(s) && AgentId(s)
  {
    AgentIdIsOpaque(s);
  }

  lemma DigestParses(v: Json, s: string)
    ensures Checked(v, IsSha256) == Some(s) <==> v == Str(s) && HexDigits(s, 64)
  {
    DigestIsHex(s);
  }

  lemma SurfaceParses(v: Json, s: string)
    ensures ParseSurface(v) == Some(s) <==> IsSurface(Some(v), s)
  {
  }

  function FiveParts(w: Option<string>, ch: Option<string>, t: Option<string>, s: Option<string>, k: Option<string>)
    : Option<Conversation>
  {
    if w.Some? && ch.Some? && t.Some? && s.Some? && k.Some?
    then Some(Conversation(w.value, ch.value, t.value, s.value, k.value)) else None
  }

  lemma ConversationOfParts(v: Json)
    ensures ParseConversation(v) ==
            if !Fields(v, {"workspaceId", "channelId", "threadTs", "surface", "continuityKey"}, {}) then None
            else FiveParts(Checked(v.fields["workspaceId"], IsSlackIdentity),
                           Checked(v.fields["channelId"], IsSlackIdentity), Checked(v.fields["threadTs"], IsThread),
                           ParseSurface(v.fields["surface"]), Checked(v.fields["continuityKey"], IsOpaqueAgentId))
  {
    RecordHas(v, {"workspaceId", "channelId", "threadTs", "surface", "continuityKey"}, {});
  }

  lemma ConversationParses(v: Json, c: Conversation)
    ensures ParseConversation(v) == Some(c) <==> ConversationText(v, c)
  {
    ConversationOfParts(v);
    if Fields(v, {"workspaceId", "channelId", "threadTs", "surface", "continuityKey"}, {}) {
      SlackParses(v.fields["workspaceId"], c.workspaceId);
      SlackParses(v.fields["channelId"], c.channelId);
      ThreadParses(v.fields["threadTs"], c.threadTs);
      SurfaceParses(v.fields["surface"], c.surface);
      AgentIdParses(v.fields["continuityKey"], c.continuityKey);
      PartsAre(Checked(v.fields["workspaceId"], IsSlackIdentity), Checked(v.fields["channelId"], IsSlackIdentity),
               Checked(v.fields["threadTs"], IsThread), ParseSurface(v.fields["surface"]),
               Checked(v.fields["continuityKey"], IsOpaqueAgentId), c);
    }
  }

  lemma PartsAre(w: Option<string>, ch: Option<string>, t: Option<string>, s: Option<string>, k: Option<string>,
                 c: Conversation)
    ensures FiveParts(w, ch, t, s, k) == Some(c) <==>
              && w == Some(c.workspaceId) && ch == Some(c.channelId) && t == Some(c.threadTs)
              && s == Some(c.surface) && k == Some(c.continuityKey)
  {
  }

  // ----- the whole plan

  lemma RawPlanIsRecord(v: Json)
    ensures RawPlanOf(v).Some? <==> Fields(v, PLAN_FIELDS, {"slackIdentityId"})
  {
    RecordHas(v, PLAN_NAMES, {"slackIdentityId"});
    assert PLAN_NAMES == PLAN_FIELDS;
  }

  lemma RawPlanScalarFields(v: Json)
    requires RawPlanOf(v).Some?
    ensures var r := RawPlanOf(v).value;
            && Some(r.schemaVersion) == Field(v, "schemaVersion")
            && Some(r.continuityPolicy) == Field(v, "continuityPolicy") && Some(r.agentId) == Field(v, "agentId")
            && Some(r.conversation) == Field(v, "conversation") && Some(r.model) == Field(v, "model")
            && Some(r.instructions) == Field(v, "instructions") && Some(r.memoryEpoch) == Field(v, "memoryEpoch")
            && r.slackIdentityId == Field(v, "slackIdentityId")
  {
  }

  lemma RawPlanListFields(v: Json)
    requires RawPlanOf(v).Some?
    ensures var r := RawPlanOf(v).value;
            && Some(r.skills) == Field(v, "skills") && Some(r.mcpConnections) == Field(v, "mcpConnections")
            && Some(r.apiConnections) == Field(v, "apiConnections")
            && Some(r.repositories) == Field(v, "repositories") && Some(r.sandbox) == Field(v, "sandbox")
            && Some(r.artifactDestination) == Field(v, "artifactDestination")
            && Some(r.harnessRevision) == Field(v, "harnessRevision")
  {
  }

  lemma SandboxParses(v: Json, mode: string)
    ensures ParseSandbox(v) == Some(mode) <==>
              v == Obj(map["mode" := Str(mode)]) && mode in ["bash", "cloudflare"]
  {
    RecordHas(v, {"mode"}, {});
    if Fields(v, {"mode"}, {}) { assert v.fields == map["mode" := v.fields["mode"]]; }
  }

  lemma ArtifactParses(v: Json, channelId: string, channel: string)
    ensures ParseArtifact(v, channelId) == Some(channel) <==>
              && v == Obj(map["kind" := Str("slack_conversation"), "channelId" := Str(channel)])
              && channel == channelId && SlackName(channel)
  {
    RecordHas(v, {"kind", "channelId"}, {});
    if Fields(v, {"kind", "channelId"}, {}) {
      SlackParses(v.fields["channelId"], channel);
      assert v.fields == map["kind" := v.fields["kind"], "channelId" := v.fields["channelId"]];
    }
  }

  lemma IdentityParses(v: Option<Json>, identity: Option<string>)
    ensures ParseOptional(v, ParseIdentity) == Fine(identity) <==> IsIdentity(v, identity)
  {
  }

  ghost predicate RawScalarsText(r: RawPlan, p: Plan) {
    && r.schemaVersion == Num(2)
    && IsText(Some(r.continuityPolicy), p.continuityPolicy, 1, 80) && IsText(Some(r.agentId), p.agentId, 1, 128)
    && IsIdentity(r.slackIdentityId, p.slackIdentityId) && ConversationText(r.conversation, p.conversation)
    && IsText(Some(r.model), p.model, 3, 240) && IsText(Some(r.instructions), p.instructions, 1, 200000)
    && r.memoryEpoch == Num(p.memoryEpoch) && 1 <= p.memoryEpoch <= 9007199254740991
  }

  lemma ScalarsNeed(r: RawPlan, p: Plan)
    ensures ParseScalars(r) == Some(Unlisted(p)) <==>
              && r.schemaVersion == Num(2) && BoundedString(r.continuityPolicy, 1, 80) == Some(p.continuityPolicy)
              && BoundedString(r.agentId, 1, 128) == Some(p.agentId)
              && ParseOptional(r.slackIdentityId, ParseIdentity) == Fine(p.slackIdentityId)
              && ParseConversation(r.conversation) == Some(p.conversation)
              && BoundedString(r.model, 3, 240) == Some(p.model)
              && BoundedString(r.instructions, 1, 200000) == Some(p.instructions)
              && PositiveInteger(r.memoryEpoch) == Some(p.memoryEpoch)
  {
  }

  lemma ScalarsParse(r: RawPlan, p: Plan)
    ensures ParseScalars(r) == Some(Unlisted(p)) <==> RawScalarsText(r, p)
  {
    ScalarsNeed(r, p);
    ConversationParses(r.conversation, p.conversation);
    IdentityParses(r.slackIdentityId, p.slackIdentityId);
  }

  ghost predicate RawItemsText(env: Platform, r: RawPlan, p: Plan) {
    && EachText(r.skills, p.skills, 128, SkillText) && EachText(r.mcpConnections, p.mcpConnections, 128, McpTexts(env))
    && EachText(r.apiConnections, p.apiConnections, 128, ApiTexts(env))
    && EachText(r.repositories, p.repositories, 256, RepositoryText)
  }

  ghost predicate RawPlacesText(r: RawPlan, p: Plan) {
    && r.sandbox == Obj(map["mode" := Str(p.sandboxMode)]) && p.sandboxMode in ["bash", "cloudflare"]
    && r.artifactDestination
       == Obj(map["kind" := Str("slack_conversation"), "channelId" := Str(p.artifactChannelId)])
    && p.artifactChannelId == p.conversation.channelId && SlackName(p.artifactChannelId)
    && r.harnessRevision == Str(p.harnessRevision) && HexDigits(p.harnessRevision, 64)
  }

  lemma ItemsParse(env: Platform, r: RawPlan, p: Plan)
    requires ValidPlatform(env)
    ensures RawItemsText(env, r, p) <==>
              && ArrayOf(r.skills, ParseSkill, 128) == Some(p.skills)
              && ArrayOf(r.mcpConnections, McpParser(env), 128) == Some(p.mcpConnections)
              && ArrayOf(r.apiConnections, ApiParser(env), 128) == Some(p.apiConnections)
              && ArrayOf(r.repositories, ParseRepository, 256) == Some(p.repositories)
  {
    forall v, s ensures ParseSkill(v) == Some(s) <==> SkillText(v, s) { SkillParses(v, s); }
    forall v, m ensures McpParser(env)(v) == Some(m) <==> McpTexts(env)(v, m) { McpParses(env, v, m); }
    forall v, a ensures ApiParser(env)(v) == Some(a) <==> ApiTexts(env)(v, a) { ApiParses(env, v, a); }
    forall v, x ensures ParseRepository(v) == Some(x) <==> RepositoryText(v, x) { RepositoryParses(v, x); }
    ArrayParses(r.skills, ParseSkill, 128, p.skills, SkillText);
    ArrayParses(r.mcpConnections, McpParser(env), 128, p.mcpConnections, McpTexts(env));
    ArrayParses(r.apiConnections, ApiParser(env), 128, p.apiConnections, ApiTexts(env));
    ArrayParses(r.repositories, ParseRepository, 256, p.repositories, RepositoryText);
  }

  lemma PlacesParse(r: RawPlan, p: Plan)
    ensures RawPlacesText(r, p) <==>
              && ParseSandbox(r.sandbox) == Some(p.sandboxMode)
              && ParseArtifact(r.artifactDestination, p.conversation.channelId) == Some(p.artifactChannelId)
              && Checked(r.harnessRevision, IsSha256) == Some(p.harnessRevision)
  {
    SandboxParses(r.sandbox, p.sandboxMode);
    ArtifactParses(r.artifactDestination, p.conversation.channelId, p.artifactChannelId);
    DigestParses(r.harnessRevision, p.harnessRevision);
  }

  lemma ListsNeed(env: Platform, r: RawPlan, p: Plan)
    ensures ParseLists(env, r, Unlisted(p)) == Some(p) <==>
              && ArrayOf(r.skills, ParseSkill, 128) == Some(p.skills)
              && ArrayOf(r.mcpConnections, McpParser(env), 128) == Some(p.mcpConnections)
              && ArrayOf(r.apiConnections, ApiParser(env), 128) == Some(p.apiConnections)
              && ArrayOf(r.repositories, ParseRepository, 256) == Some(p.repositories)
              && ParseSandbox(r.sandbox) == Some(p.sandboxMode)
              && ParseArtifact(r.artifactDestination, p.conversation.channelId) == Some(p.artifactChannelId)
              && Checked(r.harnessRevision, IsSha256) == Some(p.harnessRevision)
  {
  }

  lemma FieldsParse(env: Platform, r: RawPlan, p: Plan)
    requires ValidPlatform(env)
    ensures ParseFields(env, r) == Some(p) <==> RawScalarsText(r, p) && RawItemsText(env, r, p) && RawPlacesText(r, p)
  {
    ScalarsParse(r, p);
    ListsNeed(env, r, p);
    ItemsParse(env, r, p);
    PlacesParse(r, p);
    if ParseScalars(r).Some? { ListsKeepScalars(env, r, ParseScalars(r).value); }
  }

  lemma ListsKeepScalars(env: Platform, r: RawPlan, start: Plan)
    requires ParseScalars(r) == Some(start)
    ensures var p := ParseLists(env, r, start); p.Some? ==> Unlisted(p.value) == start
  {
  }

  lemma TextsAgree(env: Platform, v: Json, p: Plan)
    requires RawPlanOf(v).Some?
    ensures var r := RawPlanOf(v).value;
            && (RawScalarsText(r, p) <==> ScalarsText(v, p))
            && (RawItemsText(env, r, p) && RawPlacesText(r, p) <==> ListsText(env, v, p))
  {
    RawPlanScalarFields(v);
    RawPlanListFields(v);
  }

  /** The parser reads a plan from a JSON value exactly when the value is a text
      of that plan, and refuses every value that is the text of none. */
  lemma ParsesExactly(env: Platform, v: Json, p: Plan)
    requires ValidPlatform(env)
    ensures ParsePlan(env, v) == Some(p) <==> PlanText(env, v, p)
  {
    RawPlanIsRecord(v);
    if RawPlanOf(v).Some? {
      FieldsParse(env, RawPlanOf(v).value, p);
      TextsAgree(env, v, p);
    }
  }
}
