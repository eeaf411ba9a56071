/** Insertion sort by a relation "x goes behind y"; elements that are not told apart keep their order. */
module Sorting {
  function Insert<T>(behind: (T, T) -> bool, x: T, s: seq<T>): (r: seq<T>)
    ensures multiset(r) == multiset(s) + multiset{x} && |r| == |s| + 1
  {
    if s == [] || !behind(x, s[0]) then [x] + s
    else
      assert s == [s[0]] + s[1..];
      [s[0]] + Insert(behind, x, s[1..])
  }

  function Sort<T>(behind: (T, T) -> bool, s: seq<T>): (r: seq<T>)
    ensures multiset(r) == multiset(s)
  {
    if s == [] then []
    else
      assert s == [s[0]] + s[1..];
      Insert(behind, s[0], Sort(behind, s[1..]))
  }

  lemma InsertHas<T>(behind: (T, T) -> bool, x: T, s: seq<T>, y: T)
    ensures y in Insert(behind, x, s) <==> y in s || y == x
  {
    assert y in Insert(behind, x, s) <==> y in multiset(Insert(behind, x, s));
  }

  ghost predicate Ordered<T>(behind: (T, T) -> bool, s: seq<T>) {
    forall i, j | 0 <= i < j < |s| :: !behind(s[i], s[j])
  }

  /** The relation is asymmetric, and so is its absence transitive: a strict weak order. */
  ghost predicate IsOrder<T(!new)>(behind: (T, T) -> bool) {
    && (forall x, y :: behind(x, y) ==> !behind(y, x))
    && (forall x, y, z :: !behind(x, y) && !behind(y, z) ==> !behind(x, z))
  }

  lemma {:induction false} InsertOrders<T(!new)>(behind: (T, T) -> bool, x: T, s: seq<T>)
    requires IsOrder(behind) && Ordered(behind, s)
    ensures Ordered(behind, Insert(behind, x, s))
  {
    if s != [] && behind(x, s[0]) {
      InsertOrders(behind, x, s[1..]);
      var r := Insert(behind, x, s[1..]);
      forall j | 0 <= j < |r| ensures !behind(s[0], r[j]) {
        assert r[j] in multiset(r) && multiset(r) == multiset(s[1..]) + multiset{x};
      }
    }
  }

  lemma {:induction false} SortOrders<T(!new)>(behind: (T, T) -> bool, s: seq<T>)
    requires IsOrder(behind)
    ensures Ordered(behind, Sort(behind, s))
  {
    if s != [] {
      SortOrders(behind, s[1..]);
      InsertOrders(behind, s[0], Sort(behind, s[1..]));
    }
  }
}
