/** The admin memory scopes of src/admin/memory-api.ts: three loops fill one map
    of scopes, and the entry counts of the summaries are conserved. */
module MemoryScopes {
  import opened Prelude
  import opened CanonicalJson
  import opened OrderedMaps

  datatype Store = Store(
    storeId: string, workspaceId: string, visibility: string, channelId: Option<string>,
    generation: Option<int>, lifecycle: string)

  datatype ChannelState = ChannelState(
    workspaceId: string, channelId: string, privacy: string, displayName: string, lifecycle: string)

  datatype Summary = Summary(storeId: string, sourceChannelId: string, entryCount: nat)

  datatype Scope = Scope(
    workspaceId: string, channelId: string, displayName: string, privacy: string, lifecycle: string,
    storeId: string, generation: Option<int>, entryCount: nat)

  type Scopes = OrderedMap<string, Scope>

  /** Two names as one map key, joined by a NUL. */
  function Key(a: string, b: string): string {
    a + "\0" + b
  }

  function SummaryKey(s: Summary): string {
    Key(s.storeId, s.sourceChannelId)
  }

  // ----- the lookup maps; a later entry replaces an earlier one of its key

  function Counts(summaries: seq<Summary>): map<string, nat> {
    if summaries == [] then map[]
    else
      var last := summaries[|summaries| - 1];
      Counts(summaries[..|summaries| - 1])[SummaryKey(last) := last.entryCount]
  }

  function StoreById(stores: seq<Store>): (m: map<string, Store>)
    ensures forall id :: id in m <==> exists s :: s in stores && s.storeId == id
    ensures forall id <- m :: m[id].storeId == id && m[id] in stores
  {
    if stores == [] then map[]
    else
      var init, last := stores[..|stores| - 1], stores[|stores| - 1];
      assert stores == init + [last];
      StoreById(init)[last.storeId := last]
  }

  function PublicStores(stores: seq<Store>): (m: map<string, Store>)
    ensures forall w <- m :: m[w] in stores && m[w].visibility == "public"
  {
    if stores == [] then map[]
    else
      var init, last := stores[..|stores| - 1], stores[|stores| - 1];
      assert stores == init + [last];
      if last.visibility == "public" then PublicStores(init)[last.workspaceId := last] else PublicStores(init)
  }

  function StateByChannel(states: seq<ChannelState>): map<string, ChannelState> {
    if states == [] then map[]
    else
      var last := states[|states| - 1];
      StateByChannel(states[..|states| - 1])[Key(last.workspaceId, last.channelId) := last]
  }

  // ----- adding one scope

  function CountAt(counts: map<string, nat>, key: string): nat {
    if key in counts then counts[key] else 0
  }

  function ScopeFor(store: Store, channelId: string, displayName: string, lifecycle: string,
                    counts: map<string, nat>): Scope
  {
    Scope(store.workspaceId, channelId, displayName, store.visibility,
          if store.lifecycle == "active" then lifecycle else store.lifecycle,
          store.storeId, store.generation, CountAt(counts, Key(store.storeId, channelId)))
  }

  function AddScope(m: Scopes, store: Store, channelId: string, displayName: string, lifecycle: string,
                    counts: map<string, nat>): (r: Scopes)
    requires m.Valid()
    ensures r.Valid()
  {
    m.Set(Key(store.storeId, channelId), ScopeFor(store, channelId, displayName, lifecycle, counts))
  }

  // ----- the three loops, one entry at a time

  function AddState(m: Scopes, state: ChannelState, publicStores: map<string, Store>,
                    counts: map<string, nat>): (r: Scopes)
    requires m.Valid()
    ensures r.Valid()
  {
    if state.workspaceId !in publicStores then m
    else
      var store := publicStores[state.workspaceId];
      if state.privacy == "public" || Key(store.storeId, state.channelId) in counts
      then AddScope(m, store, state.channelId, state.displayName, state.lifecycle, counts)
      else m
  }

  /** A scope's name and lifecycle, from the channel's state if it has one. */
  function AddNamed(m: Scopes, store: Store, channelId: string, states: map<string, ChannelState>,
                    counts: map<string, nat>): (r: Scopes)
    requires m.Valid()
    ensures r.Valid()
  {
    var key := Key(store.workspaceId, channelId);
    if key in states
    then AddScope(m, store, channelId, states[key].displayName, states[key].lifecycle, counts)
    else AddScope(m, store, channelId, channelId, "retained", counts)
  }

  function AddPrivate(m: Scopes, store: Store, states: map<string, ChannelState>, counts: map<string, nat>): (r: Scopes)
    requires m.Valid()
    ensures r.Valid()
  {
    if store.visibility != "private" || store.channelId.GetOr("") == "" then m
    else AddNamed(m, store, store.channelId.value, states, counts)
  }

  function AddSummary(m: Scopes, summary: Summary, storeById: map<string, Store>, states: map<string, ChannelState>,
                      counts: map<string, nat>): (r: Scopes)
    requires m.Valid()
    ensures r.Valid()
  {
    if summary.storeId !in storeById || SummaryKey(summary) in m.at then m
    else AddNamed(m, storeById[summary.storeId], summary.sourceChannelId, states, counts)
  }

  function AddStates(m: Scopes, states: seq<ChannelState>, publicStores: map<string, Store>,
                     counts: map<string, nat>): (r: Scopes)
    requires m.Valid()
    ensures r.Valid()
    decreases |states|
  {
    if states == [] then m
    else AddStates(AddState(m, states[0], publicStores, counts), states[1..], publicStores, counts)
  }

  function AddPrivates(m: Scopes, stores: seq<Store>, states: map<string, ChannelState>,
                       counts: map<string, nat>): (r: Scopes)
    requires m.Valid()
    ensures r.Valid()
    decreases |stores|
  {
    if stores == [] then m else AddPrivates(AddPrivate(m, stores[0], states, counts), stores[1..], states, counts)
  }

  function AddSummaries(m: Scopes, summaries: seq<Summary>, storeById: map<string, Store>,
                        states: map<string, ChannelState>, counts: map<string, nat>): (r: Scopes)
    requires m.Valid()
    ensures r.Valid()
    decreases |summaries|
  {
    if summaries == [] then m
    else AddSummaries(AddSummary(m, summaries[0], storeById, states, counts), summaries[1..], storeById, states, counts)
  }

  /** The map after the three loops. */
  function ScopeMap(stores: seq<Store>, states: seq<ChannelState>, summaries: seq<Summary>): (r: Scopes)
    ensures r.Valid()
  {
    var counts, byChannel := Counts(summaries), StateByChannel(states);
    var a := AddStates(NoEntries(), states, PublicStores(stores), counts);
    var b := AddPrivates(a, stores, byChannel, counts);
    AddSummaries(b, summaries, StoreById(stores), byChannel, counts)
  }

  // ----- the final order

  /** `a` does not sort after `b`. */
  predicate ScopeLeq(a: Scope, b: Scope) {
    if a.workspaceId != b.workspaceId then Leq(a.workspaceId, b.workspaceId)
    else if a.channelId != b.channelId then Leq(a.channelId, b.channelId)
    else if a.privacy != b.privacy then Leq(a.privacy, b.privacy)
    else a.generation.GetOr(0) <= b.generation.GetOr(0)
  }

  function InsertScope(x: Scope, xs: seq<Scope>): seq<Scope> {
    if xs == [] then [x]
    else if ScopeLeq(x, xs[0]) then [x] + xs
    else [xs[0]] + InsertScope(x, xs[1..])
  }

  function SortScopes(xs: seq<Scope>): seq<Scope> {
    if xs == [] then [] else InsertScope(xs[0], SortScopes(xs[1..]))
  }

  function ScopeList(stores: seq<Store>, states: seq<ChannelState>, summaries: seq<Summary>): seq<Scope> {
    SortScopes(ScopeMap(stores, states, summaries).Values())
  }

  // ----- the loops in their own form

  class ScopeBuilder {
    var result: Scopes
    var counts: map<string, nat>

    constructor ()
      ensures result.Valid() && result == NoEntries() && counts == map[]
    {
      result, counts := NoEntries(), map[];
    }

    method Add(store: Store, channelId: string, displayName: string, lifecycle: string)
      requires result.Valid()
      modifies this`result
      ensures result.Valid() && result == AddScope(old(result), store, channelId, displayName, lifecycle, counts)
    {
      result := result.Set(Key(store.storeId, channelId),
                           Scope(store.workspaceId, channelId, displayName, store.visibility,
                                 if store.lifecycle == "active" then lifecycle else store.lifecycle,
                                 store.storeId, store.generation, CountAt(counts, Key(store.storeId, channelId))));
    }

    method CountSummaries(summaries: seq<Summary>)
      requires counts == map[]
      modifies this`counts
      ensures counts == Counts(summaries)
    {
      for i := 0 to |summaries|
        invariant counts == Counts(summaries[..i])
      {
        assert summaries[..i + 1][..i] == summaries[..i];
        counts := counts[Key(summaries[i].storeId, summaries[i].sourceChannelId) := summaries[i].entryCount];
      }
      assert summaries[..|summaries|] == summaries;
    }

    method AddChannelStates(states: seq<ChannelState>, publicStores: map<string, Store>)
      requires result.Valid()
      modifies this`result
      ensures result.Valid() && result == AddStates(old(result), states, publicStores, counts)
    {
      for i := 0 to |states|
        invariant result.Valid()
        invariant AddStates(result, states[i..], publicStores, counts)
               == AddStates(old(result), states, publicStores, counts)
      {
        var state := states[i];
        assert states[i..][1..] == states[i + 1..];
        if state.workspaceId in publicStores {
          var store := publicStores[state.workspaceId];
          if state.privacy == "public" || Key(store.storeId, state.channelId) in counts {
            Add(store, state.channelId, state.displayName, state.lifecycle);
          }
        }
      }
    }

    method AddPrivateStores(stores: seq<Store>, states: map<string, ChannelState>)
      requires result.Valid()
      modifies this`result
      ensures result.Valid() && result == AddPrivates(old(result), stores, states, counts)
    {
      for i := 0 to |stores|
        invariant result.Valid()
        invariant AddPrivates(result, stores[i..], states, counts) == AddPrivates(old(result), stores, states, counts)
      {
        var store := stores[i];
        assert stores[i..][1..] == stores[i + 1..];
        if store.visibility != "private" || store.channelId.None? || store.channelId.value == "" { continue; }
        var key := Key(store.workspaceId, store.channelId.value);
        Add(store, store.channelId.value,
            if key in states then states[key].displayName else store.channelId.value,
            if key in states then states[key].lifecycle else "retained");
      }
    }

    method AddMissing(summaries: seq<Summary>, storeById: map<string, Store>, states: map<string, ChannelState>)
      requires result.Valid()
      modifies this`result
      ensures result.Valid() && result == AddSummaries(old(result), summaries, storeById, states, counts)
    {
      for i := 0 to |summaries|
        invariant result.Valid()
        invariant AddSummaries(result, summaries[i..], storeById, states, counts)
               == AddSummaries(old(result), summaries, storeById, states, counts)
      {
        var summary := summaries[i];
        assert summaries[i..][1..] == summaries[i + 1..];
        if summary.storeId !in storeById { continue; }
        var store := storeById[summary.storeId];
        if Key(summary.storeId, summary.sourceChannelId) !in result.at {
          var key := Key(store.workspaceId, summary.sourceChannelId);
          Add(store, summary.sourceChannelId,
              if key in states then states[key].displayName else summary.sourceChannelId,
              if key in states then states[key].lifecycle else "retained");
        }
      }
    }
  }

  method BuildScopes(stores: seq<Store>, states: seq<ChannelState>, summaries: seq<Summary>) returns (r: seq<Scope>)
    ensures r == ScopeList(stores, states, summaries)
  {
    var builder := new ScopeBuilder();
    var storeById, publicStores := StoreById(stores), PublicStores(stores);
    builder.CountSummaries(summaries);
    var byChannel := StateByChannel(states);
    builder.AddChannelStates(states, publicStores);
    builder.AddPrivateStores(stores, byChannel);
    builder.AddMissing(summaries, storeById, byChannel);
    r := SortScopes(builder.result.Values());
  }

  // ----- what every loop keeps

  predicate Listed(stores: seq<Store>, storeId: string) {
    exists s <- stores :: s.storeId == storeId
  }

  /** Each scope stands under its own key, belongs to a listed store, and carries
      the count of that key. */
  ghost predicate Sound(m: Scopes, stores: seq<Store>, counts: map<string, nat>)
    requires m.Valid()
  {
    forall k <- m.keys ::
      var s := m.at[k];
      k == Key(s.storeId, s.channelId) && Listed(stores, s.storeId) && s.entryCount == CountAt(counts, k)
  }

  lemma {:induction false} StatesKeepSound(m: Scopes, states: seq<ChannelState>, publicStores: map<string, Store>,
                                           counts: map<string, nat>, stores: seq<Store>)
    requires m.Valid() && Sound(m, stores, counts) && forall w <- publicStores :: publicStores[w] in stores
    ensures Sound(AddStates(m, states, publicStores, counts), stores, counts)
    decreases |states|
  {
    if states != [] {
      var state := states[0];
      StatesKeepSound(AddState(m, state, publicStores, counts), states[1..], publicStores, counts, stores);
    }
  }

  lemma NamedKeepsSound(m: Scopes, store: Store, channelId: string, states: map<string, ChannelState>,
                        counts: map<string, nat>, stores: seq<Store>)
    requires m.Valid() && Sound(m, stores, counts) && store in stores
    ensures Sound(AddNamed(m, store, channelId, states, counts), stores, counts)
  {
  }

  lemma {:induction false} PrivatesKeepSound(m: Scopes, rest: seq<Store>, states: map<string, ChannelState>,
                                             counts: map<string, nat>, stores: seq<Store>)
    requires m.Valid() && Sound(m, stores, counts) && forall s <- rest :: s in stores
    ensures Sound(AddPrivates(m, rest, states, counts), stores, counts)
    decreases |rest|
  {
    if rest != [] {
      assert rest[0] in stores;
      if rest[0].visibility == "private" && rest[0].channelId.GetOr("") != "" {
        NamedKeepsSound(m, rest[0], rest[0].channelId.value, states, counts, stores);
      }
      PrivatesKeepSound(AddPrivate(m, rest[0], states, counts), rest[1..], states, counts, stores);
    }
  }

  lemma SummaryKeepsSound(m: Scopes, s: Summary, states: map<string, ChannelState>,
                          counts: map<string, nat>, stores: seq<Store>)
    requires m.Valid() && Sound(m, stores, counts)
    ensures var r := AddSummary(m, s, StoreById(stores), states, counts);
            && Sound(r, stores, counts)
            && (forall k <- m.keys :: k in r.keys)
            && (Listed(stores, s.storeId) ==> SummaryKey(s) in r.keys)
  {
    var storeById := StoreById(stores);
    if s.storeId in storeById && SummaryKey(s) !in m.at {
      NamedKeepsSound(m, storeById[s.storeId], s.sourceChannelId, states, counts, stores);
    }
  }

  /** The last loop keeps all that, and leaves no summary of a listed store without its scope. */
  lemma {:induction false} SummariesKeepSound(m: Scopes, rest: seq<Summary>, states: map<string, ChannelState>,
                                              counts: map<string, nat>, stores: seq<Store>)
    requires m.Valid() && Sound(m, stores, counts)
    ensures Sound(AddSummaries(m, rest, StoreById(stores), states, counts), stores, counts)
    decreases |rest|
  {
    if rest != [] {
      SummaryKeepsSound(m, rest[0], states, counts, stores);
      SummariesKeepSound(AddSummary(m, rest[0], StoreById(stores), states, counts), rest[1..], states, counts, stores);
    }
  }

  lemma {:induction false} SummariesAreAdded(m: Scopes, rest: seq<Summary>, states: map<string, ChannelState>,
                                             counts: map<string, nat>, stores: seq<Store>)
    requires m.Valid() && Sound(m, stores, counts)
    ensures var r := AddSummaries(m, rest, StoreById(stores), states, counts);
            && (forall k <- m.keys :: k in r.keys)
            && (forall s <- rest :: Listed(stores, s.storeId) ==> SummaryKey(s) in r.keys)
    decreases |rest|
  {
    if rest != [] {
      SummaryKeepsSound(m, rest[0], states, counts, stores);
      SummariesAreAdded(AddSummary(m, rest[0], StoreById(stores), states, counts), rest[1..], states, counts, stores);
      assert rest == [rest[0]] + rest[1..];
    }
  }

  lemma ScopeMapIsSound(stores: seq<Store>, states: seq<ChannelState>, summaries: seq<Summary>)
    ensures var m := ScopeMap(stores, states, summaries);
            && Sound(m, stores, Counts(summaries))
            && forall s <- summaries :: Listed(stores, s.storeId) ==> SummaryKey(s) in m.keys
  {
    var counts, byChannel := Counts(summaries), StateByChannel(states);
    var a := AddStates(NoEntries(), states, PublicStores(stores), counts);
    StatesKeepSound(NoEntries(), states, PublicStores(stores), counts, stores);
    PrivatesKeepSound(a, stores, byChannel, counts, stores);
    SummariesKeepSound(AddPrivates(a, stores, byChannel, counts), summaries, byChannel, counts, stores);
    SummariesAreAdded(AddPrivates(a, stores, byChannel, counts), summaries, byChannel, counts, stores);
  }

  // ----- conservation

  predicate NoNul(s: string) {
    '\0' !in s
  }

  lemma KeyInjective(a: string, b: string, c: string, d: string)
    requires NoNul(a) && NoNul(c) && Key(a, b) == Key(c, d)
    ensures a == c && b == d
  {
    var x := Key(a, b);
    assert forall i :: 0 <= i < |a| ==> x[i] == a[i];
    assert forall i :: 0 <= i < |c| ==> x[i] == c[i];
    IndexOfIsFirst(x, '\0', |a|);
    IndexOfIsFirst(x, '\0', |c|);
    assert x == a + ("\0" + b) && x == c + ("\0" + d);
    SameHead(a, "\0" + b, c, "\0" + d);
    SameHead("\0", b, "\0", d);
  }

  ghost predicate DistinctSummaries(summaries: seq<Summary>) {
    forall i, j :: 0 <= i < j < |summaries| ==>
      (summaries[i].storeId, summaries[i].sourceChannelId) != (summaries[j].storeId, summaries[j].sourceChannelId)
  }

  ghost predicate PlainIds(stores: seq<Store>, summaries: seq<Summary>) {
    (forall s <- stores :: NoNul(s.storeId)) && forall s <- summaries :: NoNul(s.storeId)
  }

  function Total(scopes: seq<Scope>): nat {
    if scopes == [] then 0 else scopes[0].entryCount + Total(scopes[1..])
  }

  /** The total of the summaries whose store is listed. */
  function ListedTotal(stores: seq<Store>, summaries: seq<Summary>): nat {
    if summaries == [] then 0
    else
      (if Listed(stores, summaries[0].storeId) then summaries[0].entryCount else 0)
      + ListedTotal(stores, summaries[1..])
  }

  /** The summary of a key, if the list has one. */
  function CountIn(summaries: seq<Summary>, key: string): nat {
    if summaries == [] then 0
    else if SummaryKey(summaries[0]) == key then summaries[0].entryCount
    else CountIn(summaries[1..], key)
  }

  function SumOver(keys: seq<string>, summaries: seq<Summary>): nat {
    if keys == [] then 0 else CountIn(summaries, keys[0]) + SumOver(keys[1..], summaries)
  }

  ghost predicate DistinctSummaryKeys(summaries: seq<Summary>) {
    forall i, j :: 0 <= i < j < |summaries| ==> SummaryKey(summaries[i]) != SummaryKey(summaries[j])
  }

  lemma DistinctKeysOf(summaries: seq<Summary>)
    requires DistinctSummaries(summaries) && forall s <- summaries :: NoNul(s.storeId)
    ensures DistinctSummaryKeys(summaries)
  {
    forall i, j | 0 <= i < j < |summaries| ensures SummaryKey(summaries[i]) != SummaryKey(summaries[j]) {
      var a, b := summaries[i], summaries[j];
      if SummaryKey(a) == SummaryKey(b) {
        KeyInjective(a.storeId, a.sourceChannelId, b.storeId, b.sourceChannelId);
      }
    }
  }

  /** Reading the count map is finding the summary. */
  lemma {:induction false} CountsAreSummaries(summaries: seq<Summary>, key: string)
    requires DistinctSummaryKeys(summaries)
    ensures CountAt(Counts(summaries), key) == CountIn(summaries, key)
    decreases |summaries|
  {
    if summaries != [] {
      var init, last := summaries[..|summaries| - 1], summaries[|summaries| - 1];
      CountsAreSummaries(init, key);
      assert summaries == init + [last];
      CountInLast(init, last, key);
    }
  }

  lemma {:induction false} CountInLast(init: seq<Summary>, last: Summary, key: string)
    requires DistinctSummaryKeys(init + [last])
    ensures CountIn(init + [last], key) == if SummaryKey(last) == key then last.entryCount else CountIn(init, key)
    decreases |init|
  {
    var all := init + [last];
    if init != [] {
      assert all[0] == init[0] && all[1..] == init[1..] + [last] && all[|init|] == last;
      assert SummaryKey(all[0]) != SummaryKey(all[|init|]);
      CountInLast(init[1..], last, key);
    }
  }

  lemma {:induction false} SumWithout(keys: seq<string>, k: string, summaries: seq<Summary>)
    requires Distinct(keys)
    ensures SumOver(keys, summaries)
         == SumOver(Without(keys, k), summaries) + if k in keys then CountIn(summaries, k) else 0
    decreases |keys|
  {
    if keys != [] {
      SumWithout(keys[1..], k, summaries);
      if keys[0] == k { assert k !in keys[1..]; }
    }
  }

  lemma {:induction false} SumOfOthers(keys: seq<string>, summaries: seq<Summary>)
    requires summaries != [] && SummaryKey(summaries[0]) !in keys
    ensures SumOver(keys, summaries) == SumOver(keys, summaries[1..])
    decreases |keys|
  {
    if keys != [] {
      assert keys[0] in keys;
      SumOfOthers(keys[1..], summaries);
    }
  }

  /** Every key of a scope belongs to a listed store, so an unlisted store's
      summary has none, and a listed one's is counted once. */
  lemma {:induction false} SumIsListedTotal(keys: seq<string>, summaries: seq<Summary>, stores: seq<Store>)
    requires Distinct(keys) && DistinctSummaryKeys(summaries)
    requires forall s <- summaries :: SummaryKey(s) in keys <==> Listed(stores, s.storeId)
    ensures SumOver(keys, summaries) == ListedTotal(stores, summaries)
    decreases |summaries|
  {
    if summaries == [] {
      SumOfNothing(keys);
    } else {
      var s, rest := summaries[0], summaries[1..];
      var k := SummaryKey(s);
      var others := Without(keys, k);
      WithoutKey(keys, k);
      SumWithout(keys, k, summaries);
      SumOfOthers(others, summaries);
      forall t <- rest ensures SummaryKey(t) in others <==> Listed(stores, t.storeId) {
        var i :| 0 <= i < |rest| && rest[i] == t;
        assert summaries[i + 1] == t;
        assert SummaryKey(t) != k;
      }
      SumIsListedTotal(others, rest, stores);
    }
  }

  lemma {:induction false} SumOfNothing(keys: seq<string>)
    ensures SumOver(keys, []) == 0
    decreases |keys|
  {
    if keys != [] { SumOfNothing(keys[1..]); }
  }

  lemma {:induction false} TotalIsSum(scopes: seq<Scope>, keys: seq<string>, summaries: seq<Summary>)
    requires |scopes| == |keys|
    requires forall i :: 0 <= i < |keys| ==> scopes[i].entryCount == CountIn(summaries, keys[i])
    ensures Total(scopes) == SumOver(keys, summaries)
    decreases |keys|
  {
    if keys != [] { TotalIsSum(scopes[1..], keys[1..], summaries); }
  }

  lemma {:induction false} InsertTotal(x: Scope, xs: seq<Scope>)
    ensures var r := InsertScope(x, xs);
            Total(r) == x.entryCount + Total(xs) && multiset(r) == multiset(xs) + multiset{x}
    decreases |xs|
  {
    if xs != [] {
      assert xs == [xs[0]] + xs[1..];
      if !ScopeLeq(x, xs[0]) { InsertTotal(x, xs[1..]); }
    }
  }

  /** Sorting changes neither the scopes nor their total. */
  lemma {:induction false} SortKeepsTotal(xs: seq<Scope>)
    ensures Total(SortScopes(xs)) == Total(xs) && multiset(SortScopes(xs)) == multiset(xs)
    decreases |xs|
  {
    if xs != [] {
      assert xs == [xs[0]] + xs[1..];
      SortKeepsTotal(xs[1..]);
      InsertTotal(xs[0], SortScopes(xs[1..]));
    }
  }

  /** Whatever channel states are present, the scopes' total is the total of the
      summaries of listed stores. */
  lemma CountsAreConserved(stores: seq<Store>, states: seq<ChannelState>, summaries: seq<Summary>)
    requires PlainIds(stores, summaries) && DistinctSummaries(summaries)
    ensures Total(ScopeList(stores, states, summaries)) == ListedTotal(stores, summaries)
  {
    var m := ScopeMap(stores, states, summaries);
    ScopeMapIsSound(stores, states, summaries);
    DistinctKeysOf(summaries);
    forall i | 0 <= i < |m.keys| ensures m.Values()[i].entryCount == CountIn(summaries, m.keys[i]) {
      assert m.keys[i] in m.keys;
      CountsAreSummaries(summaries, m.keys[i]);
    }
    TotalIsSum(m.Values(), m.keys, summaries);
    forall s <- summaries ensures SummaryKey(s) in m.keys <==> Listed(stores, s.storeId) {
      if SummaryKey(s) in m.keys { ListedKey(m, stores, summaries, s); }
    }
    SumIsListedTotal(m.keys, summaries, stores);
    SortKeepsTotal(m.Values());
  }

  lemma ListedKey(m: Scopes, stores: seq<Store>, summaries: seq<Summary>, s: Summary)
    requires m.Valid() && Sound(m, stores, Counts(summaries)) && PlainIds(stores, summaries)
    requires s in summaries && SummaryKey(s) in m.keys
    ensures Listed(stores, s.storeId)
  {
    var scope := m.at[SummaryKey(s)];
    var t :| t in stores && t.storeId == scope.storeId;
    KeyInjective(s.storeId, s.sourceChannelId, scope.storeId, scope.channelId);
  }

  /** Each (store, channel) is listed at most once, and no summary of a listed
      store is lost: its scope carries its count. */
  lemma EachScopeOnce(stores: seq<Store>, states: seq<ChannelState>, summaries: seq<Summary>)
    requires PlainIds(stores, summaries) && DistinctSummaries(summaries)
    ensures var m := ScopeMap(stores, states, summaries);
            multiset(ScopeList(stores, states, summaries)) == multiset(m.Values())
    ensures var scopes := ScopeMap(stores, states, summaries).Values();
            && (forall i, j :: 0 <= i < j < |scopes| ==>
                  (scopes[i].storeId, scopes[i].channelId) != (scopes[j].storeId, scopes[j].channelId))
            && (forall s <- summaries :: Listed(stores, s.storeId) ==>
                  exists c :: c in scopes && c.storeId == s.storeId && c.channelId == s.sourceChannelId
                              && c.entryCount == s.entryCount)
  {
    var m := ScopeMap(stores, states, summaries);
    var scopes := m.Values();
    ScopeMapIsSound(stores, states, summaries);
    SortKeepsTotal(scopes);
    DistinctKeysOf(summaries);
    forall i, j | 0 <= i < j < |scopes|
      ensures (scopes[i].storeId, scopes[i].channelId) != (scopes[j].storeId, scopes[j].channelId)
    {
      assert m.keys[i] in m.keys && m.keys[j] in m.keys;
      assert m.keys[i] == Key(scopes[i].storeId, scopes[i].channelId);
      assert m.keys[j] == Key(scopes[j].storeId, scopes[j].channelId);
    }
    forall s <- summaries | Listed(stores, s.storeId)
      ensures exists c :: c in scopes && c.storeId == s.storeId && c.channelId == s.sourceChannelId
                          && c.entryCount == s.entryCount
    {
      var k := SummaryKey(s);
      var i :| 0 <= i < |m.keys| && m.keys[i] == k;
      var c := scopes[i];
      var t :| t in stores && t.storeId == c.storeId;
      KeyInjective(s.storeId, s.sourceChannelId, c.storeId, c.channelId);
      CountsAreSummaries(summaries, k);
      CountOfSummary(summaries, s);
      assert c in scopes;
    }
  }

  lemma {:induction false} CountOfSummary(summaries: seq<Summary>, s: Summary)
    requires DistinctSummaryKeys(summaries) && s in summaries
    ensures CountIn(summaries, SummaryKey(s)) == s.entryCount
    decreases |summaries|
  {
    if summaries[0] != s {
      var i :| 0 <= i < |summaries| && summaries[i] == s;
      assert SummaryKey(summaries[0]) != SummaryKey(summaries[i]);
      assert s in summaries[1..];
      CountOfSummary(summaries[1..], s);
    }
  }

  // ----- order

  lemma ScopeLeqTotal(a: Scope, b: Scope)
    ensures ScopeLeq(a, b) || ScopeLeq(b, a)
  {
    LeqTotal(a.workspaceId, b.workspaceId);
    LeqTotal(a.channelId, b.channelId);
    LeqTotal(a.privacy, b.privacy);
  }

  lemma ScopeLeqTransitive(a: Scope, b: Scope, c: Scope)
    requires ScopeLeq(a, b) && ScopeLeq(b, c)
    ensures ScopeLeq(a, c)
  {
    if a.workspaceId != c.workspaceId {
      LeqOr(a.workspaceId, b.workspaceId, c.workspaceId);
    } else if b.workspaceId != a.workspaceId {
      LeqAntisymmetric(a.workspaceId, b.workspaceId);
    } else if a.channelId != c.channelId {
      LeqOr(a.channelId, b.channelId, c.channelId);
    } else if b.channelId != a.channelId {
      LeqAntisymmetric(a.channelId, b.channelId);
    } else if a.privacy != c.privacy {
      LeqOr(a.privacy, b.privacy, c.privacy);
    } else if b.privacy != a.privacy {
      LeqAntisymmetric(a.privacy, b.privacy);
    }
  }

  lemma LeqOr(a: string, b: string, c: string)
    requires (a == b || Leq(a, b)) && (b == c || Leq(b, c)) && a != c
    ensures Leq(a, c)
  {
    if a != b && b != c { LeqTransitive(a, b, c); }
  }

  ghost predicate InOrder(xs: seq<Scope>) {
    forall i, j :: 0 <= i < j < |xs| ==> ScopeLeq(xs[i], xs[j])
  }

  lemma {:induction false} InsertKeepsOrder(x: Scope, xs: seq<Scope>)
    requires InOrder(xs)
    ensures InOrder(InsertScope(x, xs))
    decreases |xs|
  {
    if xs != [] {
      ScopeLeqTotal(x, xs[0]);
      if ScopeLeq(x, xs[0]) {
        forall i | 0 < i < |xs| ensures ScopeLeq(x, xs[i]) { ScopeLeqTransitive(x, xs[0], xs[i]); }
      } else {
        var rest := InsertScope(x, xs[1..]);
        InsertKeepsOrder(x, xs[1..]);
        InsertTotal(x, xs[1..]);
        forall i | 0 <= i < |rest| ensures ScopeLeq(xs[0], rest[i]) {
          assert rest[i] in multiset(rest);
          assert rest[i] == x || rest[i] in xs[1..];
        }
      }
    }
  }

  lemma {:induction false} SortOrders(xs: seq<Scope>)
    ensures InOrder(SortScopes(xs))
    decreases |xs|
  {
    if xs != [] {
      SortOrders(xs[1..]);
      InsertKeepsOrder(xs[0], SortScopes(xs[1..]));
    }
  }

  /** Scopes are listed by workspace, then channel, privacy and generation. */
  lemma ScopesAreSorted(stores: seq<Store>, states: seq<ChannelState>, summaries: seq<Summary>)
    ensures InOrder(ScopeList(stores, states, summaries))
  {
    SortOrders(ScopeMap(stores, states, summaries).Values());
  }
}
