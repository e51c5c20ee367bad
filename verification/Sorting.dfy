/** Sorting as the source language does it: stable, by a total order on a key,
    and `sortedUnique`, the canonical form of a list read as a set. */
module Sorting {

  type Order = (string, string) -> bool

  /** The assumption on `localeCompare`: no two names tie. */
  ghost predicate TotalOrder(leq: Order) {
    && (forall a, b :: leq(a, b) || leq(b, a))
    && (forall a, b :: leq(a, b) && leq(b, a) ==> a == b)
    && (forall a, b, c :: leq(a, b) && leq(b, c) ==> leq(a, c))
  }

  function InsertBy<T>(x: T, xs: seq<T>, key: T -> string, leq: Order): seq<T> {
    if xs == [] then [x]
    else if leq(key(x), key(xs[0])) then [x] + xs
    else [xs[0]] + InsertBy(x, xs[1..], key, leq)
  }

  function SortBy<T>(xs: seq<T>, key: T -> string, leq: Order): seq<T> {
    if xs == [] then [] else InsertBy(xs[0], SortBy(xs[1..], key, leq), key, leq)
  }

  ghost predicate SortedBy<T>(xs: seq<T>, key: T -> string, leq: Order) {
    forall i, j :: 0 <= i < j < |xs| ==> leq(key(xs[i]), key(xs[j]))
  }

  ghost predicate DistinctBy<T>(xs: seq<T>, key: T -> string) {
    forall i, j :: 0 <= i < j < |xs| ==> key(xs[i]) != key(xs[j])
  }

  lemma {:induction false} InsertPermutes<T>(x: T, xs: seq<T>, key: T -> string, leq: Order)
    ensures multiset(InsertBy(x, xs, key, leq)) == multiset(xs) + multiset{x}
    decreases |xs|
  {
    if xs != [] {
      assert xs == [xs[0]] + xs[1..];
      if !leq(key(x), key(xs[0])) { InsertPermutes(x, xs[1..], key, leq); }
    }
  }

  lemma {:induction false} InsertKeeps<T>(x: T, xs: seq<T>, key: T -> string, leq: Order)
    requires TotalOrder(leq) && SortedBy(xs, key, leq)
    ensures SortedBy(InsertBy(x, xs, key, leq), key, leq)
    decreases |xs|
  {
    if xs != [] {
      if leq(key(x), key(xs[0])) {
        forall i | 0 <= i < |xs| ensures leq(key(x), key(xs[i])) {
          assert i == 0 || leq(key(xs[0]), key(xs[i]));
        }
      } else {
        var rest := InsertBy(x, xs[1..], key, leq);
        InsertKeeps(x, xs[1..], key, leq);
        InsertPermutes(x, xs[1..], key, leq);
        forall i | 0 <= i < |rest| ensures leq(key(xs[0]), key(rest[i])) {
          assert rest[i] in multiset(rest);
          assert rest[i] == x || rest[i] in xs[1..];
        }
      }
    }
  }

  /** Sorting permutes, and orders. */
  lemma {:induction false} SortSorts<T>(xs: seq<T>, key: T -> string, leq: Order)
    requires TotalOrder(leq)
    ensures var r := SortBy(xs, key, leq);
            multiset(r) == multiset(xs) && SortedBy(r, key, leq)
    decreases |xs|
  {
    if xs != [] {
      SortSorts(xs[1..], key, leq);
      InsertKeeps(xs[0], SortBy(xs[1..], key, leq), key, leq);
      InsertPermutes(xs[0], SortBy(xs[1..], key, leq), key, leq);
      assert xs == [xs[0]] + xs[1..];
    }
  }

  lemma SortElements<T>(xs: seq<T>, key: T -> string, leq: Order)
    requires TotalOrder(leq)
    ensures |SortBy(xs, key, leq)| == |xs|
    ensures forall x :: x in SortBy(xs, key, leq) <==> x in xs
  {
    var r := SortBy(xs, key, leq);
    SortSorts(xs, key, leq);
    assert |multiset(r)| == |multiset(xs)|;
    forall x ensures x in r <==> x in xs {
      assert x in multiset(r) <==> x in multiset(xs);
    }
  }

  lemma {:induction false} InsertDistinct<T>(x: T, xs: seq<T>, key: T -> string, leq: Order)
    requires DistinctBy(xs, key)
    requires forall y <- xs :: key(y) != key(x)
    ensures DistinctBy(InsertBy(x, xs, key, leq), key)
    decreases |xs|
  {
    if xs != [] && !leq(key(x), key(xs[0])) {
      var rest := InsertBy(x, xs[1..], key, leq);
      InsertDistinct(x, xs[1..], key, leq);
      InsertPermutes(x, xs[1..], key, leq);
      forall i | 0 <= i < |rest| ensures key(xs[0]) != key(rest[i]) {
        assert rest[i] in multiset(rest);
        assert rest[i] == x || rest[i] in xs[1..];
      }
    }
  }

  lemma {:induction false} SortDistinct<T>(xs: seq<T>, key: T -> string, leq: Order)
    requires TotalOrder(leq) && DistinctBy(xs, key)
    ensures DistinctBy(SortBy(xs, key, leq), key)
    decreases |xs|
  {
    if xs != [] {
      SortDistinct(xs[1..], key, leq);
      SortSorts(xs[1..], key, leq);
      var sorted := SortBy(xs[1..], key, leq);
      forall y | y in sorted ensures key(y) != key(xs[0]) {
        assert y in multiset(sorted);
        assert y in xs[1..];
      }
      InsertDistinct(xs[0], sorted, key, leq);
    }
  }

  lemma NoElements<T>(xs: seq<T>)
    ensures xs == [] || exists x :: x in xs
  {
    if xs != [] { assert xs[0] in xs; }
  }

  /** Two lists in strictly ascending order with the same elements are the same list. */
  lemma {:induction false} AscendingIsUnique<T>(xs: seq<T>, ys: seq<T>, key: T -> string, leq: Order)
    requires TotalOrder(leq)
    requires SortedBy(xs, key, leq) && DistinctBy(xs, key) && SortedBy(ys, key, leq) && DistinctBy(ys, key)
    requires forall x :: x in xs <==> x in ys
    ensures xs == ys
    decreases |xs|
  {
    if xs == [] {
      NoElements(ys);
    } else if ys == [] {
      NoElements(xs);
    } else {
      var x, y := xs[0], ys[0];
      assert x in ys && y in xs;
      assert leq(key(x), key(y)) || x == y;
      assert leq(key(y), key(x)) || x == y;
      assert x == y;
      assert xs == [x] + xs[1..] && ys == [y] + ys[1..];
      forall z ensures z in xs[1..] <==> z in ys[1..] {
        assert z in xs <==> z in ys;
        if z in xs[1..] { assert key(z) != key(x); }
        if z in ys[1..] { assert key(z) != key(y); }
      }
      AscendingIsUnique(xs[1..], ys[1..], key, leq);
    }
  }

  /** With distinct keys, sorting forgets the order it was given. */
  lemma SortForgetsOrder<T>(xs: seq<T>, ys: seq<T>, key: T -> string, leq: Order)
    requires TotalOrder(leq) && DistinctBy(xs, key) && DistinctBy(ys, key)
    requires forall x :: x in xs <==> x in ys
    ensures SortBy(xs, key, leq) == SortBy(ys, key, leq)
  {
    SortSorts(xs, key, leq);
    SortSorts(ys, key, leq);
    SortElements(xs, key, leq);
    SortElements(ys, key, leq);
    SortDistinct(xs, key, leq);
    SortDistinct(ys, key, leq);
    AscendingIsUnique(SortBy(xs, key, leq), SortBy(ys, key, leq), key, leq);
  }

  // ----- sortedUnique

  function Self(s: string): string { s }

  /** `[...new Set(values)]`: the first occurrence of each. */
  function Dedupe(values: seq<string>): (r: seq<string>)
    ensures forall v :: v in r <==> v in values
    ensures |r| <= |values|
    ensures DistinctBy(r, Self)
  {
    if values == [] then []
    else
      var init, last := values[..|values| - 1], values[|values| - 1];
      assert values == init + [last];
      if last in init then Dedupe(init) else Dedupe(init) + [last]
  }

  function SortedUnique(values: seq<string>, leq: Order): seq<string> {
    SortBy(Dedupe(values), Self, leq)
  }

  ghost predicate Ascending(values: seq<string>, leq: Order) {
    SortedBy(values, Self, leq) && DistinctBy(values, Self)
  }

  lemma SortedUniqueAscends(values: seq<string>, leq: Order)
    requires TotalOrder(leq)
    ensures var r := SortedUnique(values, leq);
            Ascending(r, leq) && |r| <= |values| && forall v :: v in r <==> v in values
  {
    SortSorts(Dedupe(values), Self, leq);
    SortElements(Dedupe(values), Self, leq);
    SortDistinct(Dedupe(values), Self, leq);
  }

  /** The canonical list of a set: it depends on the elements alone. */
  lemma SortedUniqueIsOfSet(values: seq<string>, others: seq<string>, leq: Order)
    requires TotalOrder(leq)
    ensures SortedUnique(values, leq) == SortedUnique(others, leq)
       <==> (forall v :: v in values <==> v in others)
  {
    SortedUniqueAscends(values, leq);
    SortedUniqueAscends(others, leq);
    if forall v :: v in values <==> v in others {
      AscendingIsUnique(SortedUnique(values, leq), SortedUnique(others, leq), Self, leq);
    }
  }

  lemma AscendingIsCanonical(values: seq<string>, leq: Order)
    requires TotalOrder(leq) && Ascending(values, leq)
    ensures SortedUnique(values, leq) == values
  {
    SortedUniqueAscends(values, leq);
    AscendingIsUnique(SortedUnique(values, leq), values, Self, leq);
  }
}
