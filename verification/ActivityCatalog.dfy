/** The bounded catalog of src/activity/status.ts: a map in insertion order that
    is refreshed on registration and evicts its oldest entry. */
module ActivityCatalog {
  import opened OrderedMaps

  const MAX_ACTIVITY_CONTEXTS: nat := 256

  /** The module-level map, with what it holds for each agent instance. */
  class Catalog<C> {
    var contexts: OrderedMap<string, C>

    constructor ()
      ensures contexts.Valid() && contexts == NoEntries()
    {
      contexts := NoEntries();
    }

    /** registerActivityContext, once the context has been copied. */
    method Register(instanceId: string, context: C)
      requires contexts.Valid()
      modifies this
      ensures contexts.Valid() && contexts == Registered(old(contexts), instanceId, context, MAX_ACTIVITY_CONTEXTS)
    {
      contexts := contexts.Delete(instanceId);
      contexts := contexts.Set(instanceId, context);
      while |contexts.keys| > MAX_ACTIVITY_CONTEXTS
        invariant contexts.Valid()
        invariant Evicted(contexts, MAX_ACTIVITY_CONTEXTS)
               == Registered(old(contexts), instanceId, context, MAX_ACTIVITY_CONTEXTS)
        decreases |contexts.keys|
      {
        var oldest := contexts.keys[0];
        DropFirst(contexts.keys);
        contexts := contexts.Delete(oldest);
      }
    }
  }

  /** The map once it is no larger than `cap`: the oldest keys are gone. */
  function Evicted<C>(m: OrderedMap<string, C>, cap: nat): (r: OrderedMap<string, C>)
    requires m.Valid()
    ensures r.Valid() && |r.keys| <= cap
    ensures r.keys == Recent(m.keys, cap)
    ensures forall k <- r.keys :: k in m.at && r.at[k] == m.at[k]
    decreases |m.keys|
  {
    if |m.keys| <= cap then m
    else
      DropFirst(m.keys);
      Evicted(m.Delete(m.keys[0]), cap)
  }

  function Registered<C>(m: OrderedMap<string, C>, id: string, context: C, cap: nat): (r: OrderedMap<string, C>)
    requires m.Valid()
    ensures r.Valid()
  {
    Evicted(m.Delete(id).Set(id, context), cap)
  }

  /** The last `n` of a list. */
  function Recent<T>(xs: seq<T>, n: nat): seq<T> {
    if |xs| <= n then xs else xs[|xs| - n..]
  }

  lemma DropFirst<K(!new)>(keys: seq<K>)
    requires Distinct(keys) && keys != []
    ensures Without(keys, keys[0]) == keys[1..]
  {
    Absent(keys[1..], keys[0]);
  }

  lemma {:induction false} Absent<K(!new)>(keys: seq<K>, k: K)
    requires k !in keys
    ensures Without(keys, k) == keys
    decreases |keys|
  {
    if keys != [] { Absent(keys[1..], k); }
  }

  lemma {:induction false} WithoutBoth<K(!new)>(a: seq<K>, b: seq<K>, k: K)
    ensures Without(a + b, k) == Without(a, k) + Without(b, k)
    decreases |a|
  {
    if a == [] {
      assert a + b == b;
    } else {
      assert (a + b)[1..] == a[1..] + b;
      WithoutBoth(a[1..], b, k);
    }
  }

  lemma {:induction false} WithoutOne<K(!new)>(keys: seq<K>, k: K)
    requires Distinct(keys)
    ensures |Without(keys, k)| == if k in keys then |keys| - 1 else |keys|
    decreases |keys|
  {
    if keys != [] {
      if keys[0] == k { Absent(keys[1..], k); } else { WithoutOne(keys[1..], k); }
    }
  }

  // ----- the history of registrations

  datatype Registration<C> = Registration(id: string, context: C)

  type History<C> = seq<Registration<C>>

  /** The map after every registration of the history, from the empty map. */
  function Replay<C>(history: History<C>, cap: nat): (m: OrderedMap<string, C>)
    ensures m.Valid()
  {
    if history == [] then NoEntries()
    else
      var last := history[|history| - 1];
      Registered(Replay(history[..|history| - 1], cap), last.id, last.context, cap)
  }

  /** `i` is the last registration of this id. */
  ghost predicate IsLast<C>(history: History<C>, id: string, i: int) {
    && 0 <= i < |history| && history[i].id == id
    && forall j :: i < j < |history| ==> history[j].id != id
  }

  /** The distinct ids of the history, in the order of their last registrations. */
  function ByLastUse<C>(history: History<C>): (ids: seq<string>) {
    if history == [] then []
    else
      var last := history[|history| - 1].id;
      Without(ByLastUse(history[..|history| - 1]), last) + [last]
  }

  lemma LastOfMore<C>(history: History<C>, last: Registration<C>, id: string, i: int)
    ensures IsLast(history + [last], id, i) <==>
              if i == |history| then last.id == id else IsLast(history, id, i) && last.id != id
  {
    assert (history + [last])[|history|] == last;
    assert forall j :: 0 <= j < |history| ==> (history + [last])[j] == history[j];
  }

  /** Every id stands where its last registration puts it. */
  ghost predicate OrderedByLastUse<C>(history: History<C>, ids: seq<string>) {
    && Distinct(ids)
    && (forall id :: id in ids <==> exists i :: IsLast(history, id, i))
    && forall a, b, i, j :: 0 <= a < b < |ids| && IsLast(history, ids[a], i) && IsLast(history, ids[b], j) ==> i < j
  }

  lemma {:induction false} WithoutKeepsOrder<K(!new)>(keys: seq<K>, k: K, a: int, b: int) returns (c: int, d: int)
    requires Distinct(keys) && 0 <= a < b < |Without(keys, k)|
    ensures 0 <= c < d < |keys| && keys[c] == Without(keys, k)[a] && keys[d] == Without(keys, k)[b]
    decreases |keys|
  {
    if keys[0] == k {
      c, d := WithoutKeepsOrder(keys[1..], k, a, b);
      c, d := c + 1, d + 1;
    } else if a == 0 {
      WithoutKey(keys[1..], k);
      assert Without(keys, k)[b] == Without(keys[1..], k)[b - 1];
      assert Without(keys, k)[b] in keys[1..];
      c := 0;
      d :| 0 < d < |keys| && keys[d] == Without(keys, k)[b];
    } else {
      c, d := WithoutKeepsOrder(keys[1..], k, a - 1, b - 1);
      c, d := c + 1, d + 1;
    }
  }

  lemma {:induction false} ByLastUseIsOrdered<C>(history: History<C>)
    ensures OrderedByLastUse(history, ByLastUse(history))
    decreases |history|
  {
    if history != [] {
      var n := |history| - 1;
      var init, last := history[..n], history[n];
      assert history == init + [last];
      ByLastUseIsOrdered(init);
      var before, ids := ByLastUse(init), ByLastUse(history);
      var kept := Without(before, last.id);
      WithoutKey(before, last.id);
      assert ids == kept + [last.id];
      forall a | 0 <= a < |kept| ensures kept[a] != last.id { assert kept[a] in kept; }
      forall id, i ensures IsLast(history, id, i) <==>
        if i == n then last.id == id else IsLast(init, id, i) && last.id != id
      {
        LastOfMore(init, last, id, i);
      }
      forall id ensures id in ids <==> exists i :: IsLast(history, id, i) {
        if id == last.id {
          assert IsLast(history, id, n);
        } else if id in before {
          var i :| IsLast(init, id, i);
          assert IsLast(history, id, i);
        }
      }
      forall a, b, i, j | 0 <= a < b < |ids| && IsLast(history, ids[a], i) && IsLast(history, ids[b], j)
        ensures i < j
      {
        assert IsLast(init, kept[a], i);
        if b < |kept| {
          var c, d := WithoutKeepsOrder(before, last.id, a, b);
          assert IsLast(init, before[c], i) && IsLast(init, before[d], j);
        }
      }
    }
  }

  /** Refreshing and evicting commute with forgetting all but the most recent. */
  lemma RecentAfterUse(ids: seq<string>, id: string, cap: nat)
    requires Distinct(ids) && cap > 0
    ensures Recent(Without(Recent(ids, cap), id) + [id], cap) == Recent(Without(ids, id) + [id], cap)
  {
    if |ids| > cap {
      var cut := |ids| - cap;
      var aged, recent := ids[..cut], ids[cut..];
      assert ids == aged + recent;
      WithoutBoth(aged, recent, id);
      WithoutOne(recent, id);
      assert Without(ids, id) + [id] == Without(aged, id) + (Without(recent, id) + [id]);
      RecentOfTail(Without(aged, id), Without(recent, id) + [id], cap);
    }
  }

  lemma RecentOfTail<T>(a: seq<T>, b: seq<T>, cap: nat)
    requires |b| >= cap
    ensures Recent(a + b, cap) == Recent(b, cap)
  {
  }

  lemma {:induction false} ReplayKeys<C>(history: History<C>, cap: nat)
    requires cap > 0
    ensures Replay(history, cap).keys == Recent(ByLastUse(history), cap)
    decreases |history|
  {
    if history != [] {
      var init, last := history[..|history| - 1], history[|history| - 1];
      ReplayKeys(init, cap);
      ByLastUseIsOrdered(init);
      var m := Replay(init, cap);
      WithoutKey(m.keys, last.id);
      assert m.Delete(last.id).Set(last.id, last.context).keys == Without(m.keys, last.id) + [last.id];
      RecentAfterUse(ByLastUse(init), last.id, cap);
    }
  }

  /** Each id that the map holds has the context it was last given. */
  ghost predicate HoldsLatest<C>(m: OrderedMap<string, C>, history: History<C>)
    requires m.Valid()
  {
    forall id, i :: id in m.keys && IsLast(history, id, i) ==> m.at[id] == history[i].context
  }

  lemma RegisteringHoldsLatest<C>(m: OrderedMap<string, C>, init: History<C>, last: Registration<C>, cap: nat,
                                  all: History<C>)
    requires m.Valid() && HoldsLatest(m, init) && all == init + [last]
    ensures HoldsLatest(Registered(m, last.id, last.context, cap), all)
  {
    var r := Registered(m, last.id, last.context, cap);
    forall id, i | id in r.keys && IsLast(all, id, i) ensures r.at[id] == all[i].context {
      LastOfMore(init, last, id, i);
    }
  }

  lemma ReplayHoldsMore<C>(init: History<C>, last: Registration<C>, all: History<C>, cap: nat)
    requires all == init + [last] && HoldsLatest(Replay(init, cap), init)
    ensures HoldsLatest(Replay(all, cap), all)
  {
    assert all[..|all| - 1] == init;
    assert Replay(all, cap) == Registered(Replay(init, cap), last.id, last.context, cap);
    RegisteringHoldsLatest(Replay(init, cap), init, last, cap, all);
  }

  lemma {:induction false} ReplayHoldsLatest<C>(history: History<C>, cap: nat)
    ensures HoldsLatest(Replay(history, cap), history)
    decreases |history|
  {
    if history != [] {
      var init, last := history[..|history| - 1], history[|history| - 1];
      ReplayHoldsLatest(init, cap);
      ReplayHoldsMore(init, last, history, cap);
    }
  }

  /** The catalog is its recent history: after any registrations it holds exactly
      the most recently registered distinct ids, at most 256 of them, in the order
      of their last registration, each with the context it was last given. */
  lemma CatalogIsRecentHistory<C>(history: History<C>)
    ensures var m := Replay(history, MAX_ACTIVITY_CONTEXTS);
            && m.keys == Recent(ByLastUse(history), 256)
            && OrderedByLastUse(history, ByLastUse(history))
            && HoldsLatest(m, history)
  {
    ReplayKeys(history, MAX_ACTIVITY_CONTEXTS);
    ByLastUseIsOrdered(history);
    ReplayHoldsLatest(history, MAX_ACTIVITY_CONTEXTS);
  }
}
