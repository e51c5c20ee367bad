/** Exactly which memory scopes src/admin/memory-api.ts lists, and what each of
    them says, without the maps that the program builds on the way. */
module MemoryListing {
  import opened Prelude
  import opened CanonicalJson
  import opened OrderedMaps
  import opened MemoryScopes

  ghost predicate IsLast<T>(xs: seq<T>, ok: T -> bool, k: int) {
    0 <= k < |xs| && ok(xs[k]) && forall j :: k < j < |xs| ==> !ok(xs[j])
  }

  /** The last of `xs` that is `ok`. */
  ghost function Last<T>(xs: seq<T>, ok: T -> bool): (r: Option<T>)
    ensures r.Some? ==> exists k :: IsLast(xs, ok, k) && xs[k] == r.value
    ensures r.None? ==> forall x <- xs :: !ok(x)
  {
    if xs == [] then None
    else
      var later := Last(xs[1..], ok);
      if later.None? then
        assert forall j :: 0 < j < |xs| ==> xs[j] in xs[1..];
        assert ok(xs[0]) ==> IsLast(xs, ok, 0);
        if ok(xs[0]) then Some(xs[0]) else None
      else
        assert exists k :: IsLast(xs, ok, k) && xs[k] == later.value by {
          var k :| IsLast(xs[1..], ok, k) && xs[1..][k] == later.value;
          assert forall j :: k + 1 < j < |xs| ==> xs[j] == xs[1..][j - 1];
          assert IsLast(xs, ok, k + 1);
        }
        later
  }

  lemma {:induction false} LastOfAppend<T>(init: seq<T>, last: T, ok: T -> bool)
    ensures Last(init + [last], ok) == if ok(last) then Some(last) else Last(init, ok)
    decreases |init|
  {
    if init == [] {
      assert init + [last] == [last] && [last][1..] == [];
    } else {
      assert (init + [last])[1..] == init[1..] + [last];
      LastOfAppend(init[1..], last, ok);
    }
  }

  // ----- what the lookups say

  function OfSummary(storeId: string, channelId: string): Summary -> bool {
    (s: Summary) => s.storeId == storeId && s.sourceChannelId == channelId
  }

  function OfChannel(workspaceId: string, channelId: string): ChannelState -> bool {
    (x: ChannelState) => x.workspaceId == workspaceId && x.channelId == channelId
  }

  function PublicIn(workspaceId: string): Store -> bool {
    (s: Store) => s.visibility == "public" && s.workspaceId == workspaceId
  }

  function WithId(storeId: string): Store -> bool {
    (s: Store) => s.storeId == storeId
  }

  function PrivateFor(storeId: string, channelId: string): Store -> bool {
    (s: Store) => s.visibility == "private" && s.storeId == storeId && s.channelId == Some(channelId)
  }

  /** The ids that are joined by a NUL have none of their own. */
  ghost predicate Plain(stores: seq<Store>, states: seq<ChannelState>, summaries: seq<Summary>) {
    && (forall s <- stores :: NoNul(s.storeId) && NoNul(s.workspaceId))
    && (forall x <- states :: NoNul(x.workspaceId)) && forall s <- summaries :: NoNul(s.storeId)
  }

  ghost function At<V>(m: map<string, V>, k: string): Option<V> {
    if k in m then Some(m[k]) else None
  }

  lemma {:induction false} CountsAreLast(summaries: seq<Summary>, storeId: string, channelId: string)
    requires NoNul(storeId) && forall s <- summaries :: NoNul(s.storeId)
    ensures At(Counts(summaries), Key(storeId, channelId)) ==
            match Last(summaries, OfSummary(storeId, channelId))
            case None => None
            case Some(s) => Some(s.entryCount)
    decreases |summaries|
  {
    if summaries != [] {
      var init, last := summaries[..|summaries| - 1], summaries[|summaries| - 1];
      assert summaries == init + [last];
      CountsAreLast(init, storeId, channelId);
      LastOfAppend(init, last, OfSummary(storeId, channelId));
      if SummaryKey(last) == Key(storeId, channelId) {
        KeyInjective(last.storeId, last.sourceChannelId, storeId, channelId);
      }
    }
  }

  lemma {:induction false} StatesAreLast(states: seq<ChannelState>, workspaceId: string, channelId: string)
    requires NoNul(workspaceId) && forall x <- states :: NoNul(x.workspaceId)
    ensures At(StateByChannel(states), Key(workspaceId, channelId)) == Last(states, OfChannel(workspaceId, channelId))
    decreases |states|
  {
    if states != [] {
      var init, last := states[..|states| - 1], states[|states| - 1];
      assert states == init + [last];
      StatesAreLast(init, workspaceId, channelId);
      LastOfAppend(init, last, OfChannel(workspaceId, channelId));
      if Key(last.workspaceId, last.channelId) == Key(workspaceId, channelId) {
        KeyInjective(last.workspaceId, last.channelId, workspaceId, channelId);
      }
    }
  }

  lemma {:induction false} StoresAreLast(stores: seq<Store>, storeId: string)
    ensures At(StoreById(stores), storeId) == Last(stores, WithId(storeId))
    decreases |stores|
  {
    if stores != [] {
      var init, last := stores[..|stores| - 1], stores[|stores| - 1];
      assert stores == init + [last];
      StoresAreLast(init, storeId);
      LastOfAppend(init, last, WithId(storeId));
    }
  }

  lemma {:induction false} PublicIsLast(stores: seq<Store>, workspaceId: string)
    ensures At(PublicStores(stores), workspaceId) == Last(stores, PublicIn(workspaceId))
    decreases |stores|
  {
    if stores != [] {
      var init, last := stores[..|stores| - 1], stores[|stores| - 1];
      assert stores == init + [last];
      PublicIsLast(init, workspaceId);
      LastOfAppend(init, last, PublicIn(workspaceId));
    }
  }

  // ----- what is listed

  /** A scope of a store: its lifecycle is the store's unless that is active,
      and it counts the entries of the last summary of the store and channel. */
  ghost function ScopeOf(store: Store, channelId: string, displayName: string, lifecycle: string,
                         summaries: seq<Summary>): Scope
  {
    var summary := Last(summaries, OfSummary(store.storeId, channelId));
    Scope(workspaceId := store.workspaceId, channelId := channelId, displayName := displayName,
          privacy := store.visibility, lifecycle := if store.lifecycle == "active" then lifecycle else store.lifecycle,
          storeId := store.storeId, generation := store.generation,
          entryCount := if summary.Some? then summary.value.entryCount else 0)
  }

  /** Named after the last state of the channel, or after the channel itself,
      which is then retained. */
  ghost function NamedScope(store: Store, channelId: string, states: seq<ChannelState>,
                            summaries: seq<Summary>): Scope
  {
    match Last(states, OfChannel(store.workspaceId, channelId))
    case Some(state) => ScopeOf(store, channelId, state.displayName, state.lifecycle, summaries)
    case None => ScopeOf(store, channelId, channelId, "retained", summaries)
  }

  /** A channel that the workspace's public store lists: it is public, or has entries there. */
  ghost predicate Shown(stores: seq<Store>, summaries: seq<Summary>, storeId: string, channelId: string,
                        state: ChannelState)
  {
    var store := Last(stores, PublicIn(state.workspaceId));
    && store.Some? && store.value.storeId == storeId && state.channelId == channelId
    && (state.privacy == "public" || Last(summaries, OfSummary(storeId, channelId)).Some?)
  }

  ghost function Shows(stores: seq<Store>, summaries: seq<Summary>, storeId: string, channelId: string)
    : ChannelState -> bool
  {
    state => Shown(stores, summaries, storeId, channelId, state)
  }

  ghost function ShownScope(stores: seq<Store>, states: seq<ChannelState>, summaries: seq<Summary>,
                            storeId: string, channelId: string): Option<Scope>
  {
    match Last(states, Shows(stores, summaries, storeId, channelId))
    case None => None
    case Some(state) =>
      Some(ScopeOf(Last(stores, PublicIn(state.workspaceId)).value, channelId, state.displayName, state.lifecycle,
                   summaries))
  }

  /** The scope of a store and channel, if there is one: the channel of a
      private store; else a channel that the public store shows; else a channel
      with entries in a store. */
  ghost function Described(stores: seq<Store>, states: seq<ChannelState>, summaries: seq<Summary>,
                           storeId: string, channelId: string): Option<Scope>
  {
    var private, store := Last(stores, PrivateFor(storeId, channelId)), Last(stores, WithId(storeId));
    var shown := ShownScope(stores, states, summaries, storeId, channelId);
    if private.Some? && channelId != "" then Some(NamedScope(private.value, channelId, states, summaries))
    else if shown.Some? then shown
    else if store.Some? && Last(summaries, OfSummary(storeId, channelId)).Some? then
      Some(NamedScope(store.value, channelId, states, summaries))
    else None
  }

  // ----- the three loops

  lemma CountIsLast(summaries: seq<Summary>, store: Store, channelId: string, displayName: string, lifecycle: string)
    requires NoNul(store.storeId) && forall s <- summaries :: NoNul(s.storeId)
    ensures ScopeFor(store, channelId, displayName, lifecycle, Counts(summaries))
         == ScopeOf(store, channelId, displayName, lifecycle, summaries)
  {
    CountsAreLast(summaries, store.storeId, channelId);
  }

  lemma NamedIsLast(m: Scopes, stores: seq<Store>, states: seq<ChannelState>, summaries: seq<Summary>,
                    store: Store, channelId: string)
    requires m.Valid() && Plain(stores, states, summaries) && store in stores
    ensures AddNamed(m, store, channelId, StateByChannel(states), Counts(summaries)).at
         == m.at[Key(store.storeId, channelId) := NamedScope(store, channelId, states, summaries)]
  {
    StatesAreLast(states, store.workspaceId, channelId);
    var state := Last(states, OfChannel(store.workspaceId, channelId));
    if state.Some? {
      CountIsLast(summaries, store, channelId, state.value.displayName, state.value.lifecycle);
    } else {
      CountIsLast(summaries, store, channelId, channelId, "retained");
    }
  }

  /** One state, seen from one store and channel. */
  lemma StateLookup(m: Scopes, state: ChannelState, stores: seq<Store>, summaries: seq<Summary>,
                    storeId: string, channelId: string)
    requires m.Valid() && NoNul(storeId) && Plain(stores, [], summaries)
    ensures At(AddState(m, state, PublicStores(stores), Counts(summaries)).at, Key(storeId, channelId)) ==
            if Shown(stores, summaries, storeId, channelId, state) then
              Some(ScopeOf(Last(stores, PublicIn(state.workspaceId)).value, channelId, state.displayName,
                           state.lifecycle, summaries))
            else At(m.at, Key(storeId, channelId))
  {
    PublicIsLast(stores, state.workspaceId);
    var public := Last(stores, PublicIn(state.workspaceId));
    if public.Some? {
      var store := public.value;
      CountsAreLast(summaries, store.storeId, state.channelId);
      CountIsLast(summaries, store, state.channelId, state.displayName, state.lifecycle);
      if Key(store.storeId, state.channelId) == Key(storeId, channelId) {
        KeyInjective(store.storeId, state.channelId, storeId, channelId);
      }
    }
  }

  lemma {:induction false} StatesLookup(m: Scopes, states: seq<ChannelState>, stores: seq<Store>,
                                        summaries: seq<Summary>, storeId: string, channelId: string)
    requires m.Valid() && NoNul(storeId) && Plain(stores, [], summaries)
    ensures var shown := ShownScope(stores, states, summaries, storeId, channelId);
            At(AddStates(m, states, PublicStores(stores), Counts(summaries)).at, Key(storeId, channelId))
            == if shown.Some? then shown else At(m.at, Key(storeId, channelId))
    decreases |states|
  {
    if states != [] {
      var added := AddState(m, states[0], PublicStores(stores), Counts(summaries));
      StateLookup(m, states[0], stores, summaries, storeId, channelId);
      StatesLookup(added, states[1..], stores, summaries, storeId, channelId);
    }
  }

  lemma PrivateLookup(m: Scopes, stores: seq<Store>, states: seq<ChannelState>, summaries: seq<Summary>,
                      store: Store, storeId: string, channelId: string)
    requires m.Valid() && NoNul(storeId) && Plain(stores, states, summaries) && store in stores
    ensures At(AddPrivate(m, store, StateByChannel(states), Counts(summaries)).at, Key(storeId, channelId)) ==
            if PrivateFor(storeId, channelId)(store) && channelId != ""
            then Some(NamedScope(store, channelId, states, summaries))
            else At(m.at, Key(storeId, channelId))
  {
    if store.visibility == "private" && store.channelId.GetOr("") != "" {
      NamedIsLast(m, stores, states, summaries, store, store.channelId.value);
      if Key(store.storeId, store.channelId.value) == Key(storeId, channelId) {
        KeyInjective(store.storeId, store.channelId.value, storeId, channelId);
      }
    }
  }

  lemma {:induction false} PrivatesLookup(m: Scopes, rest: seq<Store>, stores: seq<Store>, states: seq<ChannelState>,
                                          summaries: seq<Summary>, storeId: string, channelId: string)
    requires m.Valid() && NoNul(storeId) && Plain(stores, states, summaries) && forall s <- rest :: s in stores
    ensures var private := Last(rest, PrivateFor(storeId, channelId));
            At(AddPrivates(m, rest, StateByChannel(states), Counts(summaries)).at, Key(storeId, channelId)) ==
            if private.Some? && channelId != "" then Some(NamedScope(private.value, channelId, states, summaries))
            else At(m.at, Key(storeId, channelId))
    decreases |rest|
  {
    if rest != [] {
      assert rest[0] in stores && forall s <- rest[1..] :: s in rest;
      PrivateLookup(m, stores, states, summaries, rest[0], storeId, channelId);
      var added := AddPrivate(m, rest[0], StateByChannel(states), Counts(summaries));
      PrivatesLookup(added, rest[1..], stores, states, summaries, storeId, channelId);
    }
  }

  lemma SummaryLookup(m: Scopes, stores: seq<Store>, states: seq<ChannelState>, summaries: seq<Summary>,
                      summary: Summary, storeId: string, channelId: string)
    requires m.Valid() && NoNul(storeId) && Plain(stores, states, summaries) && summary in summaries
    ensures var key, store := Key(storeId, channelId), Last(stores, WithId(storeId));
            At(AddSummary(m, summary, StoreById(stores), StateByChannel(states), Counts(summaries)).at, key) ==
            if key !in m.at && store.Some? && OfSummary(storeId, channelId)(summary)
            then Some(NamedScope(store.value, channelId, states, summaries))
            else At(m.at, key)
  {
    StoresAreLast(stores, summary.storeId);
    var store := Last(stores, WithId(summary.storeId));
    if SummaryKey(summary) == Key(storeId, channelId) {
      KeyInjective(summary.storeId, summary.sourceChannelId, storeId, channelId);
    }
    if store.Some? { NamedIsLast(m, stores, states, summaries, store.value, summary.sourceChannelId); }
  }

  lemma {:induction false} SummariesLookup(m: Scopes, rest: seq<Summary>, stores: seq<Store>,
                                           states: seq<ChannelState>, summaries: seq<Summary>,
                                           storeId: string, channelId: string)
    requires m.Valid() && NoNul(storeId) && Plain(stores, states, summaries) && forall s <- rest :: s in summaries
    ensures var key, store := Key(storeId, channelId), Last(stores, WithId(storeId));
            At(AddSummaries(m, rest, StoreById(stores), StateByChannel(states), Counts(summaries)).at, key) ==
            if key !in m.at && store.Some? && Last(rest, OfSummary(storeId, channelId)).Some?
            then Some(NamedScope(store.value, channelId, states, summaries))
            else At(m.at, key)
    decreases |rest|
  {
    if rest != [] {
      assert rest[0] in summaries && forall s <- rest[1..] :: s in rest;
      SummaryLookup(m, stores, states, summaries, rest[0], storeId, channelId);
      var added := AddSummary(m, rest[0], StoreById(stores), StateByChannel(states), Counts(summaries));
      SummariesLookup(added, rest[1..], stores, states, summaries, storeId, channelId);
    }
  }

  lemma MapLookup(stores: seq<Store>, states: seq<ChannelState>, summaries: seq<Summary>,
                  storeId: string, channelId: string)
    requires NoNul(storeId) && Plain(stores, states, summaries)
    ensures At(ScopeMap(stores, states, summaries).at, Key(storeId, channelId))
         == Described(stores, states, summaries, storeId, channelId)
  {
    var counts, byChannel := Counts(summaries), StateByChannel(states);
    var a := AddStates(NoEntries(), states, PublicStores(stores), counts);
    var b := AddPrivates(a, stores, byChannel, counts);
    StatesLookup(NoEntries(), states, stores, summaries, storeId, channelId);
    PrivatesLookup(a, stores, stores, states, summaries, storeId, channelId);
    SummariesLookup(b, summaries, stores, states, summaries, storeId, channelId);
  }

  /** The list holds for each store and channel the scope described, if there
      is one, and no others. */
  lemma ListsTheDescribed(stores: seq<Store>, states: seq<ChannelState>, summaries: seq<Summary>, c: Scope)
    requires Plain(stores, states, summaries)
    ensures c in ScopeList(stores, states, summaries)
       <==> Described(stores, states, summaries, c.storeId, c.channelId) == Some(c)
  {
    var m := ScopeMap(stores, states, summaries);
    ScopeMapIsSound(stores, states, summaries);
    SortKeepsTotal(m.Values());
    assert c in ScopeList(stores, states, summaries) <==> c in multiset(m.Values());
    if c in m.Values() {
      var i :| 0 <= i < |m.keys| && m.Values()[i] == c;
      assert m.keys[i] in m.keys;
      MapLookup(stores, states, summaries, c.storeId, c.channelId);
    }
    if Described(stores, states, summaries, c.storeId, c.channelId) == Some(c) {
      DescribedIsOfStore(stores, states, summaries, c.storeId, c.channelId);
      MapLookup(stores, states, summaries, c.storeId, c.channelId);
      var k := Key(c.storeId, c.channelId);
      assert k in m.keys;
      var i :| 0 <= i < |m.keys| && m.keys[i] == k;
      assert m.Values()[i] == c;
    }
  }

  lemma DescribedIsOfStore(stores: seq<Store>, states: seq<ChannelState>, summaries: seq<Summary>,
                           storeId: string, channelId: string)
    requires Described(stores, states, summaries, storeId, channelId).Some?
    ensures Listed(stores, storeId)
  {
  }

  // ----- the order of the list

  /** By workspace, then channel, privacy and generation, which counts as 0 where there is none. */
  lemma ListedInOrder(stores: seq<Store>, states: seq<ChannelState>, summaries: seq<Summary>, i: nat, j: nat)
    requires i < j < |ScopeList(stores, states, summaries)|
    ensures var a, b := ScopeList(stores, states, summaries)[i], ScopeList(stores, states, summaries)[j];
            || Before(a.workspaceId, b.workspaceId)
            || (a.workspaceId == b.workspaceId && Before(a.channelId, b.channelId))
            || (a.workspaceId == b.workspaceId && a.channelId == b.channelId && Before(a.privacy, b.privacy))
            || (a.workspaceId == b.workspaceId && a.channelId == b.channelId && a.privacy == b.privacy
                && (if a.generation.Some? then a.generation.value else 0)
                   <= if b.generation.Some? then b.generation.value else 0)
  {
    var a, b := ScopeList(stores, states, summaries)[i], ScopeList(stores, states, summaries)[j];
    ScopesAreSorted(stores, states, summaries);
    LeqIsBefore(a.workspaceId, b.workspaceId);
    LeqIsBefore(a.channelId, b.channelId);
    LeqIsBefore(a.privacy, b.privacy);
  }
}
