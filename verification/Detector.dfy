/**
 Change detection: sort the items of a fetched feed by publication date, oldest first and stably,
 and report those whose stored hash is missing or different. Detection never commits.
 */
module Detector {
  import opened Feeds
  import opened Sorting

  type Id = string
  type Hash = string

  /** An item after identity and content hash have been computed; undated items have no date. */
  datatype Item = Item(id: Id, hash: Hash, published: Option<int>)

  /** Times count from Go's zero time. */
  const ZERO_TIME := 0

  function PublishedTime(it: Item): int {
    if it.published.Some? then it.published.value else ZERO_TIME
  }

  // ----- sort.SliceStable ---------------------------------------------------------------------

  predicate Later(x: Item, y: Item) { PublishedTime(x) > PublishedTime(y) }

  ghost predicate Ascending(s: seq<Item>) { Ordered(Later, s) }

  /** The items published at time t, in order. */
  function AtTime(s: seq<Item>, t: int): (r: seq<Item>)
  {
    if s == [] then [] else (if PublishedTime(s[0]) == t then [s[0]] else []) + AtTime(s[1..], t)
  }

  function StableSort(s: seq<Item>): (r: seq<Item>)
    ensures multiset(r) == multiset(s)
  {
    Sort(Later, s)
  }

  function One(x: Item, t: int): seq<Item> { if PublishedTime(x) == t then [x] else [] }

  lemma AtTimeCons(x: Item, s: seq<Item>, t: int)
    ensures AtTime([x] + s, t) == One(x, t) + AtTime(s, t)
  {
  }

  lemma Swaps(a: seq<Item>, b: seq<Item>, c: seq<Item>)
    requires a == [] || b == []
    ensures a + (b + c) == b + (a + c)
  {
    if a == [] { assert a + (b + c) == b + c && a + c == c; } else { assert b + (a + c) == a + c && b + c == c; }
  }

  lemma {:induction false} InsertIsStable(x: Item, s: seq<Item>, t: int)
    ensures AtTime(Insert(Later, x, s), t) == One(x, t) + AtTime(s, t)
  {
    if s == [] || !Later(x, s[0]) {
      AtTimeCons(x, s, t);
    } else {
      var y, tail := s[0], s[1..];
      InsertIsStable(x, tail, t);
      AtTimeCons(y, Insert(Later, x, tail), t);
      AtTimeCons(y, tail, t);
      assert s == [y] + tail;
      Swaps(One(y, t), One(x, t), AtTime(tail, t));
    }
  }

  /** The sort is ascending and leaves the order of items of one time alone. */
  lemma {:induction false} SortIsStable(s: seq<Item>, t: int)
    ensures Ascending(StableSort(s))
    ensures AtTime(StableSort(s), t) == AtTime(s, t)
  {
    SortOrders(Later, s);
    if s != [] {
      SortIsStable(s[1..], t);
      InsertIsStable(s[0], StableSort(s[1..]), t);
      AtTimeCons(s[0], s[1..], t);
      assert s == [s[0]] + s[1..];
    }
  }

  /** Oldest first: no item stands before one that was published earlier. */
  lemma OldestFirst(items: seq<Item>, i: nat, j: nat)
    requires i < j < |StableSort(items)|
    ensures PublishedTime(StableSort(items)[i]) <= PublishedTime(StableSort(items)[j])
  {
    SortOrders(Later, items);
    assert !Later(StableSort(items)[i], StableSort(items)[j]);
  }

  /** Items without a date stand before every dated one; dates are later than the zero time, which is 0. */
  lemma UndatedFirst(items: seq<Item>, i: nat, j: nat)
    requires i < |StableSort(items)| && j < |StableSort(items)|
    requires StableSort(items)[i].published == None
    requires StableSort(items)[j].published.Some? && StableSort(items)[j].published.value > 0
    ensures i < j
  {
    if j < i { OldestFirst(items, j, i); }
  }

  /** Sorting neither loses nor invents items. */
  lemma SameItems(s: seq<Item>, it: Item)
    ensures it in StableSort(s) <==> it in s
  {
    assert it in s <==> it in multiset(s);
    assert it in StableSort(s) <==> it in multiset(StableSort(s));
  }

  lemma {:induction false} SomeAtTime(s: seq<Item>, i: nat)
    requires i < |s|
    ensures AtTime(s, PublishedTime(s[i])) != []
  {
    if i > 0 { SomeAtTime(s[1..], i - 1); }
  }

  /** Those two properties leave no choice: any stable sort gives this sequence. */
  lemma {:induction false} StableSortIsUnique(a: seq<Item>, b: seq<Item>)
    requires Ascending(a) && Ascending(b) && forall t :: AtTime(a, t) == AtTime(b, t)
    ensures a == b
    decreases |a|
  {
    if a == [] || b == [] {
      if a != [] { SomeAtTime(a, 0); }
      if b != [] { SomeAtTime(b, 0); }
    } else {
      SomeAtTime(a, 0);
      var ta := PublishedTime(a[0]);
      SomeAtTime(b, 0);
      var tb := PublishedTime(b[0]);
      assert tb <= ta by {
        if forall i | 0 <= i < |b| :: PublishedTime(b[i]) != ta { EmptyAtTime(b, ta); }
      }
      assert ta <= tb by {
        if forall i | 0 <= i < |a| :: PublishedTime(a[i]) != tb { EmptyAtTime(a, tb); }
      }
      assert AtTime(a, ta)[0] == a[0] && AtTime(b, ta)[0] == b[0];
      forall t ensures AtTime(a[1..], t) == AtTime(b[1..], t) {
        assert AtTime(a, t) == AtTime(b, t);
        if t == ta {
          assert AtTime(a, t)[1..] == AtTime(a[1..], t) && AtTime(b, t)[1..] == AtTime(b[1..], t);
        } else {
          assert AtTime(a, t) == AtTime(a[1..], t) && AtTime(b, t) == AtTime(b[1..], t);
        }
      }
      StableSortIsUnique(a[1..], b[1..]);
      assert a == [a[0]] + a[1..] && b == [b[0]] + b[1..];
    }
  }

  lemma {:induction false} EmptyAtTime(s: seq<Item>, t: int)
    requires forall i | 0 <= i < |s| :: PublishedTime(s[i]) != t
    ensures AtTime(s, t) == []
  {
    if s != [] {
      assert forall i | 0 <= i < |s[1..]| :: s[1..][i] == s[i + 1];
      EmptyAtTime(s[1..], t);
    }
  }

  // ----- classification -------------------------------------------------------------------------

  type Store = map<Id, Hash>

  predicate Unseen(store: Store, it: Item) {
    !(it.id in store && store[it.id] == it.hash)
  }

  function ToChange(feed: string, store: Store, it: Item, at: int): Change {
    Change(feed, it.id, if it.id in store then Updated else New, it.hash, PublishedTime(it), at, "", 0)
  }

  /** The changes among items already in order. */
  function Changes(feed: string, store: Store, items: seq<Item>, at: int): seq<Change> {
    if items == [] then []
    else Changes(feed, store, items[..|items| - 1], at)
         + if Unseen(store, items[|items| - 1]) then [ToChange(feed, store, items[|items| - 1], at)] else []
  }

  datatype Result = Found(changes: seq<Change>) | StoreError

  lemma ChangesGrow(feed: string, store: Store, items: seq<Item>, at: int, i: nat)
    requires i < |items|
    ensures Changes(feed, store, items[..i + 1], at) == Changes(feed, store, items[..i], at)
            + if Unseen(store, items[i]) then [ToChange(feed, store, items[i], at)] else []
  {
    var longer := items[..i + 1];
    assert longer[..|longer| - 1] == items[..i] && longer[|longer| - 1] == items[i];
  }

  /** The first i items have been looked up and classified. */
  ghost predicate Scanned(feed: string, store: Store, items: seq<Item>, broken: set<Id>, at: int, i: nat,
                          out: seq<Change>)
    requires i <= |items|
  {
    && out == Changes(feed, store, items[..i], at)
    && forall j | 0 <= j < i :: items[j].id !in broken
  }

  ghost predicate SomeBroken(items: seq<Item>, broken: set<Id>) {
    exists i :: 0 <= i < |items| && items[i].id in broken
  }

  lemma ScannedNext(feed: string, store: Store, items: seq<Item>, broken: set<Id>, at: int, i: nat, out: seq<Change>)
    requires i < |items| && Scanned(feed, store, items, broken, at, i, out) && items[i].id !in broken
    ensures Scanned(feed, store, items, broken, at, i + 1,
                    out + if Unseen(store, items[i]) then [ToChange(feed, store, items[i], at)] else [])
  {
    ChangesGrow(feed, store, items, at, i);
  }

  lemma ScannedAll(feed: string, store: Store, items: seq<Item>, broken: set<Id>, at: int, out: seq<Change>)
    requires Scanned(feed, store, items, broken, at, |items|, out)
    ensures out == Changes(feed, store, items, at) && !SomeBroken(items, broken)
  {
    assert items[..|items|] == items;
  }

  lemma SortKeepsBroken(items: seq<Item>, broken: set<Id>)
    ensures SomeBroken(StableSort(items), broken) <==> SomeBroken(items, broken)
  {
    forall it ensures it in StableSort(items) <==> it in items { SameItems(items, it); }
    BrokenIsMember(items, broken);
    BrokenIsMember(StableSort(items), broken);
  }

  lemma BrokenIsMember(items: seq<Item>, broken: set<Id>)
    ensures SomeBroken(items, broken) <==> exists it :: it in items && it.id in broken
  {
    if i :| 0 <= i < |items| && items[i].id in broken { assert items[i] in items; }
  }

  /** Detect. Looking up an id in `broken` fails, and the first failure ends the call. */
  method Detect(feed: string, items: seq<Item>, store: Store, broken: set<Id>, at: int) returns (r: Result)
    ensures r.StoreError? <==> SomeBroken(items, broken)
    ensures r.Found? ==> r.changes == Changes(feed, store, StableSort(items), at)
    ensures r.Found? ==> forall i, j | 0 <= i < j < |r.changes| :: r.changes[i].published <= r.changes[j].published
  {
    var sorted := StableSort(items);
    SortKeepsBroken(items, broken);
    var out: seq<Change> := [];
    for i := 0 to |sorted|
      invariant Scanned(feed, store, sorted, broken, at, i, out)
    {
      var it := sorted[i];
      if it.id in broken {
        return StoreError;
      }
      ScannedNext(feed, store, sorted, broken, at, i, out);
      if Unseen(store, it) {
        out := out + [ToChange(feed, store, it, at)];
      }
    }
    ScannedAll(feed, store, sorted, broken, at, out);
    forall i, j | 0 <= i < j < |out| ensures out[i].published <= out[j].published {
      ReportedOldestFirst(feed, store, items, at, i, j);
    }
    return Found(out);
  }

  /** `out` reports the unseen items at the positions `pos`, in order, and there are no others. */
  ghost predicate Reports(feed: string, store: Store, items: seq<Item>, at: int, pos: seq<nat>, out: seq<Change>) {
    && |pos| == |out|
    && (forall k | 0 <= k < |pos| ::
          pos[k] < |items| && Unseen(store, items[pos[k]]) && out[k] == ToChange(feed, store, items[pos[k]], at))
    && (forall k, l | 0 <= k < l < |pos| :: pos[k] < pos[l])
    && (forall i | 0 <= i < |items| && Unseen(store, items[i]) :: i in pos)
  }

  lemma ReportsGrow(feed: string, store: Store, items: seq<Item>, at: int, pos: seq<nat>, out: seq<Change>, it: Item)
    requires Reports(feed, store, items, at, pos, out)
    ensures if Unseen(store, it)
            then Reports(feed, store, items + [it], at, pos + [|items|], out + [ToChange(feed, store, it, at)])
            else Reports(feed, store, items + [it], at, pos, out)
  {
    var n := |items|;
    assert forall i | 0 <= i < n :: (items + [it])[i] == items[i];
    assert forall i | 0 <= i < n && Unseen(store, items[i]) :: i in pos;
  }

  /** The output is a subsequence of the sorted items: strictly increasing positions, one per change. */
  lemma {:induction false} ChangesInOrder(feed: string, store: Store, items: seq<Item>, at: int) returns (pos: seq<nat>)
    ensures Reports(feed, store, items, at, pos, Changes(feed, store, items, at))
  {
    if items == [] {
      pos := [];
    } else {
      var n := |items| - 1;
      var front := ChangesInOrder(feed, store, items[..n], at);
      assert items == items[..n] + [items[n]];
      ReportsGrow(feed, store, items[..n], at, front, Changes(feed, store, items[..n], at), items[n]);
      pos := front + if Unseen(store, items[n]) then [n] else [];
      assert front + [] == front;
    }
  }

  /** A reported change is no dead letter. */
  lemma {:induction false} ChangesAreNoLetters(feed: string, store: Store, items: seq<Item>, at: int)
    ensures forall c | c in Changes(feed, store, items, at) :: c.dlqFrom == ""
  {
    if items != [] { ChangesAreNoLetters(feed, store, items[..|items| - 1], at); }
  }

  /** The store does not hold the hash of a reported change. */
  lemma {:induction false} ChangesAreUnseen(feed: string, store: Store, items: seq<Item>, at: int)
    ensures forall c | c in Changes(feed, store, items, at) :: !(c.id in store && store[c.id] == c.hash)
  {
    if items != [] { ChangesAreUnseen(feed, store, items[..|items| - 1], at); }
  }

  /** What a reported change says: this feed, this poll, an item's id and hash, New exactly for an unknown id. */
  lemma {:induction false} ReportsTheItem(feed: string, store: Store, items: seq<Item>, at: int, c: Change)
    requires c in Changes(feed, store, items, at)
    ensures c.feed == feed && c.detectedAt == at && (c.kind == New <==> c.id !in store)
    ensures exists it :: it in items && it.id == c.id && it.hash == c.hash && PublishedTime(it) == c.published
  {
    var n := |items| - 1;
    assert items == items[..n] + [items[n]];
    if c in Changes(feed, store, items[..n], at) {
      ReportsTheItem(feed, store, items[..n], at, c);
      var it :| it in items[..n] && it.id == c.id && it.hash == c.hash && PublishedTime(it) == c.published;
      assert it in items;
    } else {
      assert items[n] in items;
    }
  }

  /** Changes are reported oldest first. */
  lemma ReportedOldestFirst(feed: string, store: Store, items: seq<Item>, at: int, i: nat, j: nat)
    requires i < j < |Changes(feed, store, StableSort(items), at)|
    ensures var cs := Changes(feed, store, StableSort(items), at); cs[i].published <= cs[j].published
  {
    var pos := ChangesInOrder(feed, store, StableSort(items), at);
    OldestFirst(items, pos[i], pos[j]);
  }

  /** An item is reported exactly when the store does not hold its hash. */
  lemma EmittedIff(feed: string, store: Store, items: seq<Item>, at: int, it: Item)
    requires it in items
    ensures !(it.id in store && store[it.id] == it.hash) <==>
              exists c :: c in Changes(feed, store, StableSort(items), at) && c.id == it.id && c.hash == it.hash
  {
    var sorted := StableSort(items);
    var out := Changes(feed, store, sorted, at);
    var pos := ChangesInOrder(feed, store, sorted, at);
    SameItems(items, it);
    if Unseen(store, it) {
      var i :| 0 <= i < |sorted| && sorted[i] == it;
      var k :| 0 <= k < |pos| && pos[k] == i;
      assert out[k] in out;
    }
    if c :| c in out && c.id == it.id && c.hash == it.hash {
      var k :| 0 <= k < |out| && out[k] == c;
      assert Unseen(store, sorted[pos[k]]);
    }
  }

  // ----- steady state ---------------------------------------------------------------------------

  /** Commit the changes in order. */
  function Committed(store: Store, changes: seq<Change>): Store {
    if changes == [] then store
    else Committed(store, changes[..|changes| - 1])[changes[|changes| - 1].id := changes[|changes| - 1].hash]
  }

  lemma {:induction false} CommittedHas(store: Store, changes: seq<Change>, id: Id)
    ensures (exists c :: c in changes && c.id == id) ==>
              && id in Committed(store, changes)
              && exists c :: c in changes && c.id == id && c.hash == Committed(store, changes)[id]
    ensures !(exists c :: c in changes && c.id == id) ==>
              && (id in Committed(store, changes) <==> id in store)
              && (id in store ==> Committed(store, changes)[id] == store[id])
  {
    if changes != [] {
      var front, last := changes[..|changes| - 1], changes[|changes| - 1];
      assert changes == front + [last];
      CommittedHas(store, front, id);
      assert last in changes;
    }
  }

  /** Of several changes of one id the last one stays. */
  lemma {:induction false} LastCommitStays(store: Store, changes: seq<Change>, i: nat)
    requires i < |changes| && forall j | i < j < |changes| :: changes[j].id != changes[i].id
    ensures changes[i].id in Committed(store, changes)
    ensures Committed(store, changes)[changes[i].id] == changes[i].hash
    decreases |changes|
  {
    if i < |changes| - 1 { LastCommitStays(store, changes[..|changes| - 1], i); }
  }

  ghost predicate OneHashPerId(items: seq<Item>) {
    forall a, b | a in items && b in items && a.id == b.id :: a.hash == b.hash
  }

  lemma ChangeComesFromItem(feed: string, store: Store, items: seq<Item>, at: int, c: Change)
    requires c in Changes(feed, store, StableSort(items), at)
    ensures exists it :: it in items && it.id == c.id && it.hash == c.hash && Unseen(store, it)
  {
    var sorted := StableSort(items);
    var pos := ChangesInOrder(feed, store, sorted, at);
    var k :| 0 <= k < |pos| && Changes(feed, store, sorted, at)[k] == c;
    SameItems(items, sorted[pos[k]]);
  }

  ghost predicate AllSeen(store: Store, items: seq<Item>) {
    forall it | it in items :: !Unseen(store, it)
  }

  lemma AllSeenGrows(store: Store, items: seq<Item>)
    requires items != []
    ensures AllSeen(store, items) <==>
              AllSeen(store, items[..|items| - 1]) && !Unseen(store, items[|items| - 1])
  {
    assert items == items[..|items| - 1] + [items[|items| - 1]];
  }

  lemma {:induction false} NoChanges(feed: string, store: Store, items: seq<Item>, at: int)
    ensures |Changes(feed, store, items, at)| == 0 <==> AllSeen(store, items)
  {
    if items != [] {
      NoChanges(feed, store, items[..|items| - 1], at);
      AllSeenGrows(store, items);
    }
  }

  lemma CommittedIsSeen(feed: string, store: Store, items: seq<Item>, at: int, it: Item)
    requires OneHashPerId(items) && it in items
    ensures !Unseen(Committed(store, Changes(feed, store, StableSort(items), at)), it)
  {
    var out := Changes(feed, store, StableSort(items), at);
    CommittedHas(store, out, it.id);
    EmittedIff(feed, store, items, at, it);
    if c :| c in out && c.id == it.id && c.hash == Committed(store, out)[it.id] {
      ChangeComesFromItem(feed, store, items, at, c);
    }
  }

  /** Committing everything silences the next Detect exactly when no two items share an id with different hashes. */
  lemma SteadyStateIff(feed: string, store: Store, items: seq<Item>, at: int, later: int)
    ensures Changes(feed, Committed(store, Changes(feed, store, StableSort(items), at)), StableSort(items), later) == []
            <==> OneHashPerId(items)
  {
    var sorted := StableSort(items);
    var store' := Committed(store, Changes(feed, store, sorted, at));
    NoChanges(feed, store', sorted, later);
    forall it ensures it in sorted <==> it in items { SameItems(items, it); }
    if OneHashPerId(items) {
      forall it | it in items ensures !Unseen(store', it) {
        CommittedIsSeen(feed, store, items, at, it);
      }
    }
  }
}
