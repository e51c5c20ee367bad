/** Repository credentials for one turn, from src/agents/slack-thread.ts:
    grants are grouped by installation, a token is minted per group, and a group
    that GitHub rejects as stale is salvaged grant by grant. */
module RepositoryAccess {
  import opened Prelude
  import opened CanonicalJson
  import opened OrderedMaps
  import opened Sorting
  import opened RuntimePlan
  import opened Projection

  // ----- grants that can become URL prefixes

  predicate IsAlphanumeric(c: char) {
    'a' <= c <= 'z' || 'A' <= c <= 'Z' || IsDigit(c)
  }

  predicate IsOwner(s: string) {
    && 1 <= |s| <= 39 && IsAlphanumeric(s[0])
    && forall i :: 0 <= i < |s| ==> IsAlphanumeric(s[i]) || s[i] == '-'
  }

  predicate IsRepositoryName(s: string) {
    && 1 <= |s| <= 100 && s != "." && s != ".."
    && forall i :: 0 <= i < |s| ==> IsAlphanumeric(s[i]) || s[i] in "._-"
  }

  predicate IsFullName(s: string) {
    var slash := IndexOf(s, '/');
    0 < slash < |s| && IsOwner(s[..slash]) && IsRepositoryName(s[slash + 1..])
  }

  predicate AllRepos(g: Grant) {
    g.allRepos == Some(true)
  }

  predicate ValidGrant(g: Grant) {
    g.enabled && IsOwner(g.accountLogin) && if AllRepos(g) then g.fullName == "" else IsFullName(g.fullName)
  }

  function RepositoryName(g: Grant): string {
    var slash := IndexOf(g.fullName, '/');
    if slash == |g.fullName| then g.fullName else g.fullName[slash + 1..]
  }

  // ----- grouping

  /** The map of the grouping loop: installations in the order they first occur,
      each with its grants in order. */
  function ByInstallation(grants: seq<Grant>): (m: OrderedMap<int, seq<Grant>>)
    ensures m.Valid()
  {
    if grants == [] then NoEntries()
    else
      var earlier, last := ByInstallation(grants[..|grants| - 1]), grants[|grants| - 1];
      if last.installationId.None? then earlier
      else
        var id := last.installationId.value;
        earlier.Set(id, (if id in earlier.at then earlier.at[id] else []) + [last])
  }

  /** The loop in its own form. */
  method GroupByInstallation(grants: seq<Grant>) returns (groups: OrderedMap<int, seq<Grant>>)
    ensures groups.Valid() && groups == ByInstallation(grants)
  {
    groups := NoEntries();
    for i := 0 to |grants|
      invariant groups.Valid() && groups == ByInstallation(grants[..i])
    {
      var grant := grants[i];
      assert grants[..i + 1][..i] == grants[..i];
      if grant.installationId.None? { continue; }
      var id := grant.installationId.value;
      var grouped := if id in groups.at then groups.at[id] else [];
      grouped := grouped + [grant];
      groups := groups.Set(id, grouped);
    }
    assert grants[..|grants|] == grants;
  }

  function Installed(id: int): Grant -> bool {
    (g: Grant) => g.installationId == Some(id)
  }

  lemma {:induction false} FilterLast<T(!new)>(keep: T -> bool, init: seq<T>, last: T)
    ensures FilterSeq(keep, init + [last]) == FilterSeq(keep, init) + if keep(last) then [last] else []
    decreases |init|
  {
    if init != [] {
      assert (init + [last])[1..] == init[1..] + [last];
      FilterLast(keep, init[1..], last);
    }
  }

  /** Each group is its installation's grants, all of them, in their order. */
  lemma {:induction false} GroupIsFilter(grants: seq<Grant>, id: int)
    ensures var m := ByInstallation(grants).at; var group := FilterSeq(Installed(id), grants);
            && (id in m <==> group != [])
            && (id in m ==> m[id] == group)
    decreases |grants|
  {
    if grants != [] {
      var init, last := grants[..|grants| - 1], grants[|grants| - 1];
      assert grants == init + [last];
      GroupIsFilter(init, id);
      FilterLast(Installed(id), init, last);
    }
  }

  // ----- minting

  datatype Mint = Token(text: string) | Failed(status: int)

  /** What a call asks for a token for: a whole group, or one grant of it. */
  datatype Asked = ForGroup | ForGrant(id: string)

  /** getCachedInstallationToken, within one turn: an installation, what the call
      is for, and the repositories asked for, or all of them.  Two calls may be
      answered differently even where they name the same repositories. */
  type Minter = (int, Asked, Option<seq<string>>) -> Mint

  predicate AnyAllRepos(group: seq<Grant>) {
    exists g <- group :: AllRepos(g)
  }

  function GroupNames(group: seq<Grant>): Option<seq<string>> {
    if AnyAllRepos(group) then None else Some(SortedUnique(MapSeq(RepositoryName, group), Leq))
  }

  function GroupMint(mint: Minter, id: int, group: seq<Grant>): Mint {
    mint(id, ForGroup, GroupNames(group))
  }

  function SingleMint(mint: Minter, id: int, g: Grant): Mint {
    mint(id, ForGrant(g.id), Some([RepositoryName(g)]))
  }

  // ----- connectors

  datatype Kind = ApiHost | GitHost | CodeSearch

  datatype Connector = Connector(kind: Kind, prefixes: seq<string>, token: string, grants: seq<Grant>)

  function ApiPrefixes(g: Grant): seq<string> {
    var repository := if AllRepos(g) then g.accountLogin else g.fullName;
    if repository == "" then [] else ["/repos/" + repository]
  }

  function GitPrefixes(g: Grant): seq<string> {
    if AllRepos(g) then ["/" + g.accountLogin]
    else if g.fullName == "" then []
    else ["/" + g.fullName, "/" + g.fullName + ".git"]
  }

  function FlatMap<T, U>(f: T -> seq<U>, xs: seq<T>): seq<U> {
    if xs == [] then [] else f(xs[0]) + FlatMap(f, xs[1..])
  }

  predicate HasPrefixes(c: Connector) {
    c.prefixes != []
  }

  function RepositoryConnectors(token: string, grants: seq<Grant>): seq<Connector> {
    FilterSeq(HasPrefixes,
              [Connector(ApiHost, SortedUnique(FlatMap(ApiPrefixes, grants), Leq), token, grants),
               Connector(GitHost, SortedUnique(FlatMap(GitPrefixes, grants), Leq), token, grants),
               Connector(CodeSearch, ["/search/code"], token, grants)])
  }

  // ----- one installation

  datatype Resolved = Resolved(grants: seq<Grant>, connectors: seq<Connector>)

  const NOTHING := Resolved([], [])

  function SalvageGrant(mint: Minter, id: int, g: Grant): seq<(Grant, seq<Connector>)> {
    match SingleMint(mint, id, g)
    case Token(t) => [(g, RepositoryConnectors(t, [g]))]
    case Failed(_) => []
  }

  function SalvageEach(mint: Minter, id: int): Grant -> seq<(Grant, seq<Connector>)> {
    g => SalvageGrant(mint, id, g)
  }

  function KeptGrant(entry: (Grant, seq<Connector>)): Grant { entry.0 }
  function KeptConnectors(entry: (Grant, seq<Connector>)): seq<Connector> { entry.1 }

  function ResolveGroup(mint: Minter, id: int, group: seq<Grant>): Resolved {
    match GroupMint(mint, id, group)
    case Token(t) => Resolved(group, RepositoryConnectors(t, group))
    case Failed(status) =>
      if status != 422 || AnyAllRepos(group) || |group| < 2 || |group| > 25 then NOTHING
      else
        var kept := FlatMap(SalvageEach(mint, id), group);
        Resolved(MapSeq(KeptGrant, kept), FlatMap(KeptConnectors, kept))
  }

  // ----- the whole resolution

  datatype Connection = Unavailable | NoConnection | Connected

  datatype Access = Access(grants: seq<Grant>, connectors: seq<Connector>, governs: bool)

  function ResolveGroups(mint: Minter, groups: OrderedMap<int, seq<Grant>>): seq<Resolved>
    requires groups.Valid()
  {
    seq(|groups.keys|, i requires 0 <= i < |groups.keys| =>
      ResolveGroup(mint, groups.keys[i], groups.at[groups.keys[i]]))
  }

  function ResolvedGrants(r: Resolved): seq<Grant> { r.grants }
  function ResolvedConnectors(r: Resolved): seq<Connector> { r.connectors }

  function IdOf(g: Grant): string { g.id }

  function HasId(ids: seq<string>): Grant -> bool {
    (g: Grant) => g.id in ids
  }

  /** resolveRepositoryAccess on the grants of a profile. */
  function ResolveAccess(mint: Minter, connection: Connection, repositories: seq<Grant>): Access {
    var configured := FilterSeq(GrantEnabled, repositories);
    var enabled := FilterSeq(ValidGrant, configured);
    if configured == [] then Access([], [], false)
    else if enabled == [] || !connection.Connected? then Access([], [], true)
    else
      var resolved := ResolveGroups(mint, ByInstallation(enabled));
      var granted := MapSeq(IdOf, FlatMap(ResolvedGrants, resolved));
      Access(FilterSeq(HasId(granted), enabled), FlatMap(ResolvedConnectors, resolved), true)
  }

  // ----- what it promises

  /** A token was minted that covers this grant: for its whole installation, or,
      after GitHub rejected the group as stale, for it alone. */
  predicate Minted(mint: Minter, enabled: seq<Grant>, g: Grant) {
    g.installationId.Some? &&
    var id := g.installationId.value;
    var group := FilterSeq(Installed(id), enabled);
    || GroupMint(mint, id, group).Token?
    || (&& GroupMint(mint, id, group) == Failed(422)
        && !AnyAllRepos(group) && 2 <= |group| <= 25
        && SingleMint(mint, id, g).Token?)
  }

  lemma {:induction false} InFlatMap<T(!new), U(!new)>(f: T -> seq<U>, xs: seq<T>, u: U)
    ensures u in FlatMap(f, xs) <==> exists x :: x in xs && u in f(x)
    decreases |xs|
  {
    if xs != [] {
      InFlatMap(f, xs[1..], u);
      assert xs == [xs[0]] + xs[1..];
      if u in FlatMap(f, xs) {
        if u in f(xs[0]) {
          assert xs[0] in xs;
        } else {
          var x :| x in xs[1..] && u in f(x);
          assert x in xs;
        }
      }
    }
  }

  lemma InMapSeq<T(!new), U(!new)>(f: T -> U, xs: seq<T>, u: U)
    ensures u in MapSeq(f, xs) <==> exists x :: x in xs && f(x) == u
  {
    if u in MapSeq(f, xs) {
      var i :| 0 <= i < |xs| && MapSeq(f, xs)[i] == u;
      assert xs[i] in xs;
    }
    if x :| x in xs && f(x) == u {
      var i :| 0 <= i < |xs| && xs[i] == x;
      assert MapSeq(f, xs)[i] == u;
    }
  }

  lemma InSalvage(mint: Minter, id: int, group: seq<Grant>, entry: (Grant, seq<Connector>))
    ensures entry in FlatMap(SalvageEach(mint, id), group) <==>
              && entry.0 in group && SingleMint(mint, id, entry.0).Token?
              && entry.1 == RepositoryConnectors(SingleMint(mint, id, entry.0).text, [entry.0])
  {
    InFlatMap(SalvageEach(mint, id), group, entry);
    if entry.0 in group && entry in SalvageGrant(mint, id, entry.0) {
      assert entry in SalvageEach(mint, id)(entry.0);
    }
  }

  lemma GroupGrants(mint: Minter, enabled: seq<Grant>, id: int, g: Grant)
    ensures var group := FilterSeq(Installed(id), enabled);
            g in ResolveGroup(mint, id, group).grants <==>
              g in enabled && g.installationId == Some(id) && Minted(mint, enabled, g)
  {
    var group := FilterSeq(Installed(id), enabled);
    var kept := FlatMap(SalvageEach(mint, id), group);
    InMapSeq(KeptGrant, kept, g);
    if e :| e in kept && KeptGrant(e) == g { InSalvage(mint, id, group, e); }
    if g in group && SingleMint(mint, id, g).Token? {
      var e := (g, RepositoryConnectors(SingleMint(mint, id, g).text, [g]));
      InSalvage(mint, id, group, e);
      assert KeptGrant(e) == g;
    }
  }

  /** Each resolved group is the resolution of one installation's grants. */
  lemma ResolvedOfGroup(mint: Minter, enabled: seq<Grant>, r: Resolved)
    ensures r in ResolveGroups(mint, ByInstallation(enabled)) <==>
              exists id :: FilterSeq(Installed(id), enabled) != []
                           && r == ResolveGroup(mint, id, FilterSeq(Installed(id), enabled))
  {
    var m := ByInstallation(enabled);
    var resolved := ResolveGroups(mint, m);
    if r in resolved {
      var k :| 0 <= k < |resolved| && resolved[k] == r;
      assert m.keys[k] in m.at;
      GroupIsFilter(enabled, m.keys[k]);
    }
    if id :| FilterSeq(Installed(id), enabled) != [] && r == ResolveGroup(mint, id, FilterSeq(Installed(id), enabled)) {
      GroupIsFilter(enabled, id);
      assert id in m.keys;
      var k :| 0 <= k < |m.keys| && m.keys[k] == id;
      assert resolved[k] == r;
    }
  }

  lemma GrantedIsMinted(mint: Minter, enabled: seq<Grant>, g: Grant)
    ensures g in FlatMap(ResolvedGrants, ResolveGroups(mint, ByInstallation(enabled))) <==>
              g in enabled && Minted(mint, enabled, g)
  {
    var resolved := ResolveGroups(mint, ByInstallation(enabled));
    InFlatMap(ResolvedGrants, resolved, g);
    if r :| r in resolved && g in ResolvedGrants(r) {
      ResolvedOfGroup(mint, enabled, r);
      var id :|
        FilterSeq(Installed(id), enabled) != [] && r == ResolveGroup(mint, id, FilterSeq(Installed(id), enabled));
      GroupGrants(mint, enabled, id, g);
    }
    if g in enabled && Minted(mint, enabled, g) {
      var id := g.installationId.value;
      var group := FilterSeq(Installed(id), enabled);
      var r := ResolveGroup(mint, id, group);
      assert g in group;
      ResolvedOfGroup(mint, enabled, r);
      GroupGrants(mint, enabled, id, g);
      assert g in ResolvedGrants(r);
    }
  }

  function MintedIn(mint: Minter, enabled: seq<Grant>): Grant -> bool {
    g => Minted(mint, enabled, g)
  }

  function Enabled(repositories: seq<Grant>): seq<Grant> {
    FilterSeq(ValidGrant, FilterSeq(GrantEnabled, repositories))
  }

  lemma GrantedIds(mint: Minter, enabled: seq<Grant>, g: Grant)
    ensures var granted := MapSeq(IdOf, FlatMap(ResolvedGrants, ResolveGroups(mint, ByInstallation(enabled))));
            g.id in granted <==> exists h :: h in enabled && h.id == g.id && Minted(mint, enabled, h)
  {
    var all := FlatMap(ResolvedGrants, ResolveGroups(mint, ByInstallation(enabled)));
    InMapSeq(IdOf, all, g.id);
    if h :| h in all && IdOf(h) == g.id { GrantedIsMinted(mint, enabled, h); }
    if h :| h in enabled && h.id == g.id && Minted(mint, enabled, h) {
      GrantedIsMinted(mint, enabled, h);
      assert IdOf(h) == g.id;
    }
  }

  /** Salvage is exact: with distinct ids, the returned grants are, in their
      order, precisely the valid enabled grants for which a token was minted. */
  lemma SalvageIsExact(mint: Minter, repositories: seq<Grant>)
    requires DistinctBy(Enabled(repositories), IdOf)
    ensures ResolveAccess(mint, Connected, repositories).grants
         == FilterSeq(MintedIn(mint, Enabled(repositories)), Enabled(repositories))
  {
    var enabled := Enabled(repositories);
    if enabled != [] {
      var granted := MapSeq(IdOf, FlatMap(ResolvedGrants, ResolveGroups(mint, ByInstallation(enabled))));
      forall g <- enabled ensures HasId(granted)(g) == MintedIn(mint, enabled)(g) {
        GrantedIds(mint, enabled, g);
        forall h | h in enabled && h.id == g.id ensures h == g { OneOfId(enabled, g, h); }
      }
      FilterSame(HasId(granted), MintedIn(mint, enabled), enabled);
    }
  }

  lemma OneOfId(enabled: seq<Grant>, g: Grant, h: Grant)
    requires DistinctBy(enabled, IdOf) && g in enabled && h in enabled && g.id == h.id
    ensures g == h
  {
    var i :| 0 <= i < |enabled| && enabled[i] == g;
    var j :| 0 <= j < |enabled| && enabled[j] == h;
    assert IdOf(enabled[i]) == IdOf(enabled[j]);
  }

  // ----- connectors

  /** The paths that a grant opens on each host. */
  function PrefixesOf(kind: Kind, g: Grant): seq<string> {
    match kind
    case ApiHost => [if g.allRepos == Some(true) then "/repos/" + g.accountLogin else "/repos/" + g.fullName]
    case GitHost =>
      if g.allRepos == Some(true) then ["/" + g.accountLogin] else ["/" + g.fullName, "/" + g.fullName + ".git"]
    case CodeSearch => ["/search/code"]
  }

  /** The prefixes of a connector are those of its grants, each once, in order;
      code search has its own. */
  ghost predicate Faithful(c: Connector) {
    && c.grants != [] && Ascending(c.prefixes, Leq)
    && forall p :: p in c.prefixes <==> exists g :: g in c.grants && p in PrefixesOf(c.kind, g)
  }

  /** Some connector of this kind speaks for the grant. */
  ghost predicate SpeaksFor(connectors: seq<Connector>, kind: Kind, g: Grant) {
    exists c :: c in connectors && c.kind == kind && g in c.grants
  }

  lemma HostConnectors(token: string, grants: seq<Grant>)
    requires grants != [] && forall g <- grants :: ValidGrant(g)
    ensures var a := Connector(ApiHost, SortedUnique(FlatMap(ApiPrefixes, grants), Leq), token, grants);
            Faithful(a) && HasPrefixes(a)
    ensures var b := Connector(GitHost, SortedUnique(FlatMap(GitPrefixes, grants), Leq), token, grants);
            Faithful(b) && HasPrefixes(b)
  {
    LeqIsTotalOrder();
    var api, git := FlatMap(ApiPrefixes, grants), FlatMap(GitPrefixes, grants);
    SortedUniqueAscends(api, Leq);
    SortedUniqueAscends(git, Leq);
    forall p ensures p in api <==> exists g :: g in grants && p in PrefixesOf(ApiHost, g) {
      InFlatMap(ApiPrefixes, grants, p);
    }
    forall p ensures p in git <==> exists g :: g in grants && p in PrefixesOf(GitHost, g) {
      InFlatMap(GitPrefixes, grants, p);
    }
    assert grants[0] in grants;
    assert PrefixesOf(ApiHost, grants[0])[0] in api && PrefixesOf(GitHost, grants[0])[0] in git;
  }

  lemma CodeSearchIsFaithful(token: string, grants: seq<Grant>)
    requires grants != []
    ensures Faithful(Connector(CodeSearch, ["/search/code"], token, grants))
  {
    var s := Connector(CodeSearch, ["/search/code"], token, grants);
    assert grants[0] in grants;
    assert forall p :: p in s.prefixes <==> p in PrefixesOf(CodeSearch, grants[0]);
  }

  /** Each of the three connectors, when its prefixes are not empty. */
  function ConnectorOf(kind: Kind, token: string, grants: seq<Grant>): Connector {
    match kind
    case ApiHost => Connector(ApiHost, SortedUnique(FlatMap(ApiPrefixes, grants), Leq), token, grants)
    case GitHost => Connector(GitHost, SortedUnique(FlatMap(GitPrefixes, grants), Leq), token, grants)
    case CodeSearch => Connector(CodeSearch, ["/search/code"], token, grants)
  }

  lemma AllThreeConnect(token: string, grants: seq<Grant>, c: Connector)
    requires HasPrefixes(ConnectorOf(ApiHost, token, grants)) && HasPrefixes(ConnectorOf(GitHost, token, grants))
    ensures c in RepositoryConnectors(token, grants) <==> c == ConnectorOf(c.kind, token, grants)
  {
    var a, b, s := ConnectorOf(ApiHost, token, grants), ConnectorOf(GitHost, token, grants),
                   ConnectorOf(CodeSearch, token, grants);
    var all := [a, b, s];
    assert RepositoryConnectors(token, grants) == FilterSeq(HasPrefixes, all);
    assert a in all && b in all && s in all;
  }

  lemma ConnectorsAreFaithful(token: string, grants: seq<Grant>)
    requires grants != [] && forall g <- grants :: ValidGrant(g)
    ensures forall c <- RepositoryConnectors(token, grants) :: Faithful(c) && c.grants == grants && c.token == token
    ensures forall g <- grants, kind :: SpeaksFor(RepositoryConnectors(token, grants), kind, g)
  {
    HostConnectors(token, grants);
    CodeSearchIsFaithful(token, grants);
    forall kind ensures var c := ConnectorOf(kind, token, grants); Faithful(c) && HasPrefixes(c) {}
    var kept := RepositoryConnectors(token, grants);
    forall c <- kept ensures Faithful(c) && c.grants == grants && c.token == token {
      AllThreeConnect(token, grants, c);
    }
    forall g <- grants, kind ensures SpeaksFor(kept, kind, g) {
      var c := ConnectorOf(kind, token, grants);
      AllThreeConnect(token, grants, c);
      assert c in kept && c.kind == kind && g in c.grants;
    }
  }

  /** A connector carries a token that was minted for the very grants it speaks for. */
  predicate CarriesToken(mint: Minter, id: int, group: seq<Grant>, c: Connector) {
    || (c.grants == group && GroupMint(mint, id, group) == Token(c.token))
    || (|c.grants| == 1 && c.grants[0] in group && SingleMint(mint, id, c.grants[0]) == Token(c.token))
  }

  /** The grants that a connector speaks for, in one resolved group. */
  lemma GroupConnectors(mint: Minter, id: int, group: seq<Grant>)
    requires group != [] && forall g <- group :: ValidGrant(g)
    ensures var r := ResolveGroup(mint, id, group);
            && (forall c <- r.connectors ::
                  Faithful(c) && CarriesToken(mint, id, group, c) && forall g <- c.grants :: g in r.grants)
            && (forall g <- r.grants, kind :: SpeaksFor(r.connectors, kind, g))
  {
    var r := ResolveGroup(mint, id, group);
    var kept := FlatMap(SalvageEach(mint, id), group);
    match GroupMint(mint, id, group)
    case Token(t) => ConnectorsAreFaithful(t, group);
    case Failed(_) =>
      forall c <- r.connectors
        ensures Faithful(c) && CarriesToken(mint, id, group, c) && forall g <- c.grants :: g in r.grants
      {
        InFlatMap(KeptConnectors, kept, c);
        var e :| e in kept && c in KeptConnectors(e);
        InSalvage(mint, id, group, e);
        ConnectorsAreFaithful(SingleMint(mint, id, e.0).text, [e.0]);
        InMapSeq(KeptGrant, kept, e.0);
        assert KeptGrant(e) == e.0;
      }
      forall g <- r.grants, kind ensures SpeaksFor(r.connectors, kind, g) {
        InMapSeq(KeptGrant, kept, g);
        var e :| e in kept && KeptGrant(e) == g;
        InSalvage(mint, id, group, e);
        ConnectorsAreFaithful(SingleMint(mint, id, g).text, [g]);
        assert SpeaksFor(RepositoryConnectors(SingleMint(mint, id, g).text, [g]), kind, g);
        var c :| c in RepositoryConnectors(SingleMint(mint, id, g).text, [g]) && c.kind == kind && g in c.grants;
        assert c in KeptConnectors(e);
        InFlatMap(KeptConnectors, kept, c);
      }
  }

  /** Connectors and grants agree: every connector speaks only for returned
      grants, with exactly their prefixes, and every returned grant is spoken
      for on each host and in code search. */
  lemma ConnectorsMatchGrants(mint: Minter, repositories: seq<Grant>)
    requires DistinctBy(Enabled(repositories), IdOf)
    ensures var access := ResolveAccess(mint, Connected, repositories);
            && (forall c <- access.connectors ::
                  && Faithful(c) && (forall g <- c.grants :: g in access.grants)
                  && exists id :: CarriesToken(mint, id, FilterSeq(Installed(id), Enabled(repositories)), c))
            && (forall g <- access.grants, kind :: SpeaksFor(access.connectors, kind, g))
  {
    var enabled := Enabled(repositories);
    var access := ResolveAccess(mint, Connected, repositories);
    SalvageIsExact(mint, repositories);
    if enabled != [] {
      forall c <- access.connectors
        ensures Faithful(c) && (forall g <- c.grants :: g in access.grants)
                && exists id :: CarriesToken(mint, id, FilterSeq(Installed(id), enabled), c)
      {
        ConnectorIsGranted(mint, enabled, c);
      }
      forall g <- access.grants, kind ensures SpeaksFor(access.connectors, kind, g) {
        GrantIsSpokenFor(mint, enabled, g, kind);
      }
    }
  }

  function ConnectorsOf(mint: Minter, enabled: seq<Grant>): seq<Connector> {
    FlatMap(ResolvedConnectors, ResolveGroups(mint, ByInstallation(enabled)))
  }

  lemma ConnectorIsGranted(mint: Minter, enabled: seq<Grant>, c: Connector)
    requires c in ConnectorsOf(mint, enabled) && forall g <- enabled :: ValidGrant(g)
    ensures Faithful(c) && (forall g <- c.grants :: g in enabled && Minted(mint, enabled, g))
    ensures exists id :: CarriesToken(mint, id, FilterSeq(Installed(id), enabled), c)
  {
    var resolved := ResolveGroups(mint, ByInstallation(enabled));
    InFlatMap(ResolvedConnectors, resolved, c);
    var r :| r in resolved && c in ResolvedConnectors(r);
    ResolvedOfGroup(mint, enabled, r);
    var id :|
      FilterSeq(Installed(id), enabled) != [] && r == ResolveGroup(mint, id, FilterSeq(Installed(id), enabled));
    GroupConnectors(mint, id, FilterSeq(Installed(id), enabled));
    forall g <- c.grants ensures g in enabled && Minted(mint, enabled, g) { GroupGrants(mint, enabled, id, g); }
  }

  lemma GrantIsSpokenFor(mint: Minter, enabled: seq<Grant>, g: Grant, kind: Kind)
    requires g in enabled && Minted(mint, enabled, g) && forall h <- enabled :: ValidGrant(h)
    ensures SpeaksFor(ConnectorsOf(mint, enabled), kind, g)
  {
    var resolved := ResolveGroups(mint, ByInstallation(enabled));
    var id := g.installationId.value;
    var group := FilterSeq(Installed(id), enabled);
    var r := ResolveGroup(mint, id, group);
    assert g in group;
    GroupGrants(mint, enabled, id, g);
    ResolvedOfGroup(mint, enabled, r);
    GroupConnectors(mint, id, group);
    assert SpeaksFor(r.connectors, kind, g);
    var c :| c in r.connectors && c.kind == kind && g in c.grants;
    assert c in ResolvedConnectors(r);
    InFlatMap(ResolvedConnectors, resolved, c);
  }

  /** Without a usable connection nothing is granted, and grants still govern
      the hosts exactly when the profile has an enabled one. */
  lemma NoFallOpen(mint: Minter, connection: Connection, repositories: seq<Grant>)
    ensures var access := ResolveAccess(mint, connection, repositories);
            && (access.governs <==> exists g :: g in repositories && g.enabled)
            && (!connection.Connected? ==> access.grants == [] && access.connectors == [])
            && (forall g <- access.grants :: g in repositories && ValidGrant(g))
  {
    var configured := FilterSeq(GrantEnabled, repositories);
    if configured != [] {
      assert configured[0] in configured;
    } else {
      assert forall g <- repositories :: g.enabled ==> g in configured;
    }
  }

  // ----- which grants are usable

  predicate LetterOrDigit(c: char) {
    c in LOWER || c in UPPER || c in DIGITS
  }

  /** An account: 1 to 39 letters, digits and hyphens, the first no hyphen. */
  predicate NamesAccount(s: string) {
    1 <= |s| <= 39 && s[0] != '-' && forall c <- s :: LetterOrDigit(c) || c == '-'
  }

  /** A repository of an account: 1 to 100 letters, digits, dots, underscores and hyphens. */
  predicate NamesRepository(s: string) {
    1 <= |s| <= 100 && s != "." && s != ".." && forall c <- s :: LetterOrDigit(c) || c in "._-"
  }

  /** `name` is the text after the first slash of the grant's full name. */
  ghost predicate IsNameOf(g: Grant, name: string) {
    exists owner :: '/' !in owner && g.fullName == owner + "/" + name
  }

  /** An enabled grant of a well-formed account, with no name if it is for all
      its repositories, and else with a well-formed owner and repository. */
  ghost predicate Usable(g: Grant) {
    && g.enabled && NamesAccount(g.accountLogin)
    && if g.allRepos == Some(true) then g.fullName == ""
       else exists owner, name ::
              NamesAccount(owner) && NamesRepository(name) && g.fullName == owner + "/" + name
  }

  lemma LettersAndDigits(c: char)
    ensures IsAlphanumeric(c) <==> LetterOrDigit(c)
  {
    LowerIsListed(c);
    UpperIsListed(c);
    DigitIsListed(c);
  }

  lemma AccountIsOwner(s: string)
    ensures IsOwner(s) <==> NamesAccount(s)
  {
    forall c: char ensures IsAlphanumeric(c) <==> LetterOrDigit(c) { LettersAndDigits(c); }
  }

  lemma RepositoryIsName(s: string)
    ensures IsRepositoryName(s) <==> NamesRepository(s)
  {
    forall c: char ensures IsAlphanumeric(c) <==> LetterOrDigit(c) { LettersAndDigits(c); }
  }

  lemma SplitsAtSlash(owner: string, name: string)
    requires '/' !in owner
    ensures var full := owner + "/" + name;
            IndexOf(full, '/') == |owner| && full[..|owner|] == owner && full[|owner| + 1..] == name
  {
    var full := owner + "/" + name;
    assert forall k :: 0 <= k < |owner| ==> full[k] == owner[k];
    IndexOfIsFirst(full, '/', |owner|);
  }

  lemma UsableIsValid(g: Grant)
    ensures ValidGrant(g) <==> Usable(g)
  {
    AccountIsOwner(g.accountLogin);
    var slash := IndexOf(g.fullName, '/');
    if slash < |g.fullName| && IsFullName(g.fullName) {
      var owner, name := g.fullName[..slash], g.fullName[slash + 1..];
      AccountIsOwner(owner);
      RepositoryIsName(name);
      assert g.fullName == owner + "/" + name;
    }
    if owner, name :| NamesAccount(owner) && NamesRepository(name) && g.fullName == owner + "/" + name {
      AccountIsOwner(owner);
      RepositoryIsName(name);
      SplitsAtSlash(owner, name);
    }
  }

  // ----- what the platform is asked

  ghost predicate Kept(repositories: seq<Grant>, id: int, g: Grant) {
    g in repositories && Usable(g) && g.installationId == Some(id)
  }

  /** `names` are those of the installation's grants, ascending, none for all its repositories. */
  ghost predicate NamesGroup(repositories: seq<Grant>, id: int, names: seq<string>) {
    && Ascending(names, Leq)
    && (forall g :: Kept(repositories, id, g) ==> g.allRepos != Some(true))
    && forall n :: n in names <==> exists g :: Kept(repositories, id, g) && IsNameOf(g, n)
  }

  /** Two platforms answer alike what a resolution asks for: a token for an
      installation's repositories by name; for all of them only where a grant is
      for all of them; and one for a grant's own repository. */
  ghost predicate AnswerAlike(mint: Minter, other: Minter, repositories: seq<Grant>) {
    && (forall id, names :: NamesGroup(repositories, id, names) ==>
          mint(id, ForGroup, Some(names)) == other(id, ForGroup, Some(names)))
    && (forall id, g :: Kept(repositories, id, g) && g.allRepos == Some(true) ==>
          mint(id, ForGroup, None) == other(id, ForGroup, None))
    && (forall id, g, n :: Kept(repositories, id, g) && IsNameOf(g, n) ==>
          mint(id, ForGrant(g.id), Some([n])) == other(id, ForGrant(g.id), Some([n])))
  }

  lemma KeptIsInstalled(repositories: seq<Grant>, id: int, g: Grant)
    ensures g in FilterSeq(Installed(id), Enabled(repositories)) <==> Kept(repositories, id, g)
  {
    UsableIsValid(g);
  }

  lemma NameIsAfterSlash(g: Grant, n: string)
    requires ValidGrant(g) && !AllRepos(g)
    ensures IsNameOf(g, n) <==> RepositoryName(g) == n
  {
    var slash := IndexOf(g.fullName, '/');
    var owner := g.fullName[..slash];
    assert '/' !in owner && g.fullName == owner + "/" + g.fullName[slash + 1..];
    if other :| '/' !in other && g.fullName == other + "/" + n { SplitsAtSlash(other, n); }
  }

  lemma GroupNamesName(repositories: seq<Grant>, id: int)
    ensures var group := FilterSeq(Installed(id), Enabled(repositories));
            match GroupNames(group)
            case None => exists g :: Kept(repositories, id, g) && g.allRepos == Some(true)
            case Some(names) => NamesGroup(repositories, id, names)
  {
    var group := FilterSeq(Installed(id), Enabled(repositories));
    forall g ensures g in group <==> Kept(repositories, id, g) { KeptIsInstalled(repositories, id, g); }
    if AnyAllRepos(group) {
      var g :| g in group && AllRepos(g);
    } else {
      LeqIsTotalOrder();
      var all := MapSeq(RepositoryName, group);
      SortedUniqueAscends(all, Leq);
      forall n ensures n in all <==> exists g :: Kept(repositories, id, g) && IsNameOf(g, n) {
        InMapSeq(RepositoryName, group, n);
        forall g | g in group ensures IsNameOf(g, n) <==> RepositoryName(g) == n { NameIsAfterSlash(g, n); }
      }
    }
  }

  lemma {:induction false} FlatMapSame<T(!new), U>(f: T -> seq<U>, g: T -> seq<U>, xs: seq<T>)
    requires forall x <- xs :: f(x) == g(x)
    ensures FlatMap(f, xs) == FlatMap(g, xs)
    decreases |xs|
  {
    if xs != [] {
      assert xs[0] in xs && forall x <- xs[1..] :: x in xs;
      FlatMapSame(f, g, xs[1..]);
    }
  }

  lemma GroupsAlike(mint: Minter, other: Minter, repositories: seq<Grant>, id: int)
    requires AnswerAlike(mint, other, repositories)
    ensures var group := FilterSeq(Installed(id), Enabled(repositories));
            ResolveGroup(mint, id, group) == ResolveGroup(other, id, group)
  {
    var group := FilterSeq(Installed(id), Enabled(repositories));
    GroupNamesName(repositories, id);
    assert GroupMint(mint, id, group) == GroupMint(other, id, group);
    if !AnyAllRepos(group) {
      forall g <- group ensures SalvageEach(mint, id)(g) == SalvageEach(other, id)(g) {
        KeptIsInstalled(repositories, id, g);
        NameIsAfterSlash(g, RepositoryName(g));
      }
      FlatMapSame(SalvageEach(mint, id), SalvageEach(other, id), group);
    }
  }

  /** What a turn is granted depends on nothing else that the platform would
      answer: no token is asked for that the grants do not call for. */
  lemma TokensAreAskedByName(mint: Minter, other: Minter, connection: Connection, repositories: seq<Grant>)
    requires AnswerAlike(mint, other, repositories)
    ensures ResolveAccess(mint, connection, repositories) == ResolveAccess(other, connection, repositories)
  {
    var enabled := Enabled(repositories);
    var m := ByInstallation(enabled);
    var resolved, same := ResolveGroups(mint, m), ResolveGroups(other, m);
    forall k | 0 <= k < |resolved| ensures resolved[k] == same[k] {
      assert m.keys[k] in m.at;
      GroupIsFilter(enabled, m.keys[k]);
      GroupsAlike(mint, other, repositories, m.keys[k]);
    }
    assert resolved == same;
  }

  // ----- the order of connectors

  /** For each token three connectors: the API, the Git host and code search. */
  predicate InThrees(connectors: seq<Connector>) {
    connectors == [] ||
    (&& |connectors| >= 3
     && connectors[0].kind == ApiHost && connectors[1].kind == GitHost && connectors[2].kind == CodeSearch
     && connectors[0].token == connectors[1].token == connectors[2].token
     && connectors[0].grants == connectors[1].grants == connectors[2].grants
     && InThrees(connectors[3..]))
  }

  lemma {:induction false} ThreesAppend(a: seq<Connector>, b: seq<Connector>)
    requires InThrees(a) && InThrees(b)
    ensures InThrees(a + b)
    decreases |a|
  {
    if a == [] {
      assert a + b == b;
    } else {
      assert (a + b)[3..] == a[3..] + b;
      ThreesAppend(a[3..], b);
    }
  }

  lemma {:induction false} FlatMapInThrees<T(!new)>(f: T -> seq<Connector>, xs: seq<T>)
    requires forall x <- xs :: InThrees(f(x))
    ensures InThrees(FlatMap(f, xs))
    decreases |xs|
  {
    if xs != [] {
      assert xs[0] in xs && forall x <- xs[1..] :: x in xs;
      FlatMapInThrees(f, xs[1..]);
      ThreesAppend(f(xs[0]), FlatMap(f, xs[1..]));
    }
  }

  lemma TokenConnectsThree(token: string, grants: seq<Grant>)
    requires grants != [] && forall g <- grants :: ValidGrant(g)
    ensures InThrees(RepositoryConnectors(token, grants))
  {
    HostConnectors(token, grants);
    var a, b, s := ConnectorOf(ApiHost, token, grants), ConnectorOf(GitHost, token, grants),
                   ConnectorOf(CodeSearch, token, grants);
    var all := [a, b, s];
    assert all[1..] == [b, s] && all[1..][1..] == [s] && all[1..][1..][1..] == [];
    assert FilterSeq(HasPrefixes, [s]) == [s];
    assert FilterSeq(HasPrefixes, [b, s]) == [b] + FilterSeq(HasPrefixes, [s]);
    assert FilterSeq(HasPrefixes, all) == all;
    assert all[3..] == [];
  }

  lemma GroupInThrees(mint: Minter, id: int, group: seq<Grant>)
    requires group != [] && forall g <- group :: ValidGrant(g)
    ensures InThrees(ResolveGroup(mint, id, group).connectors)
  {
    match GroupMint(mint, id, group)
    case Token(t) => TokenConnectsThree(t, group);
    case Failed(_) =>
      var kept := FlatMap(SalvageEach(mint, id), group);
      forall e <- kept ensures InThrees(KeptConnectors(e)) {
        InSalvage(mint, id, group, e);
        TokenConnectsThree(SingleMint(mint, id, e.0).text, [e.0]);
      }
      FlatMapInThrees(KeptConnectors, kept);
  }

  /** The connectors of a turn come in threes, one three for each token. */
  lemma ConnectorsComeInThrees(mint: Minter, connection: Connection, repositories: seq<Grant>)
    ensures InThrees(ResolveAccess(mint, connection, repositories).connectors)
  {
    var enabled := Enabled(repositories);
    var resolved := ResolveGroups(mint, ByInstallation(enabled));
    forall r <- resolved ensures InThrees(ResolvedConnectors(r)) {
      ResolvedOfGroup(mint, enabled, r);
      var id :|
        FilterSeq(Installed(id), enabled) != [] && r == ResolveGroup(mint, id, FilterSeq(Installed(id), enabled));
      GroupInThrees(mint, id, FilterSeq(Installed(id), enabled));
    }
    FlatMapInThrees(ResolvedConnectors, resolved);
  }
}
