/**
 The feed sink's rolling window. The in-memory store prunes as soon as it is over its limit, the SQL
 stores prune once every so many writes; both break ties between equal timestamps as they please.
 The reference is the log that is never pruned: the latest change of every (feed, item) pair.
 */
module FeedWindow {
  import opened Feeds
  import opened Sorting
  import Naturals

  // ----- keys ------------------------------------------------------------------------------------

  predicate SamePair(c: Change, d: Change) { c.feed == d.feed && c.id == d.id }

  /** The memory store's key. */
  function Key(c: Change): string { c.feed + "\n" + c.id }

  predicate OneLine(c: Change) { '\n' !in c.feed }

  lemma NewlineEnds(a: string, x: string, b: string, y: string)
    requires '\n' !in b && a + "\n" + x == b + "\n" + y
    ensures |a| >= |b|
  {
    var w := b + "\n" + y;
    assert forall k | 0 <= k < |b| :: w[k] == b[k] && w[k] in b;
    assert w[|a|] == '\n';
  }

  /** Newline-free feed URLs make the joined key as good as the pair. */
  lemma KeyIsPair(c: Change, d: Change)
    requires OneLine(c) && OneLine(d)
    ensures Key(c) == Key(d) <==> SamePair(c, d)
  {
    if Key(c) == Key(d) {
      NewlineEnds(c.feed, c.id, d.feed, d.id);
      NewlineEnds(d.feed, d.id, c.feed, c.id);
      assert Key(c)[..|c.feed|] == c.feed && Key(d)[..|d.feed|] == d.feed;
      assert Key(c)[|c.feed| + 1..] == c.id && Key(d)[|d.feed| + 1..] == d.id;
    }
  }

  predicate Collide(f: string, x: string, g: string, y: string) { f + "\n" + x == g + "\n" + y }

  /** Two feeds can share a key exactly when one URL continues the other after a newline. */
  lemma FeedsCollideIff(f: string, g: string)
    requires f != g
    ensures (exists x, y :: Collide(f, x, g, y)) <==> f + "\n" <= g || g + "\n" <= f
  {
    if x, y :| Collide(f, x, g, y) {
      var w := f + "\n" + x;
      assert w[..|f|] == f && w[..|g|] == g;
      assert w[..|f| + 1] == f + "\n" && w[..|g| + 1] == g + "\n";
      if |f| < |g| {
        assert g[..|f| + 1] == f + "\n";
      } else {
        assert f[..|g| + 1] == g + "\n";
      }
    }
    if f + "\n" <= g { Continues(f, g); }
    if g + "\n" <= f { Continues(g, f); }
  }

  lemma Continues(f: string, g: string)
    requires f + "\n" <= g
    ensures exists x :: Collide(f, x, g, "") && Collide(g, "", f, x)
  {
    var x := g[|f| + 1..] + "\n";
    assert g == (f + "\n") + g[|f| + 1..];
    assert f + "\n" + x == g + "\n" + "";
    assert Collide(f, x, g, "") && Collide(g, "", f, x);
  }

  // ----- windows as sets ---------------------------------------------------------------------------

  /** At most one change per pair. */
  ghost predicate Keyed(s: set<Change>) {
    forall c, d | c in s && d in s && SamePair(c, d) :: c == d
  }

  /** An update overwrites in place. */
  function Put(s: set<Change>, c: Change): set<Change> {
    (set d | d in s && !SamePair(d, c)) + {c}
  }

  ghost predicate Descending(all: seq<Change>) { Ordered(Older, all) }

  ghost predicate Different(all: seq<Change>) {
    forall i, j | 0 <= i < j < |all| :: all[i] != all[j]
  }

  /** Some ordering of the whole window, newest first. */
  ghost predicate Arrangement(s: set<Change>, all: seq<Change>) {
    && |all| == |s| && Descending(all)
    && (forall i | 0 <= i < |all| :: all[i] in s)
    && Different(all)
  }

  function Take(all: seq<Change>, n: nat): seq<Change> { if n < |all| then all[..n] else all }

  function Elements(all: seq<Change>): set<Change> { set c | c in all }

  /** r is a possible answer of Recent(n). */
  ghost predicate IsRecent(s: set<Change>, n: nat, r: seq<Change>) {
    exists all :: Arrangement(s, all) && r == Take(all, n)
  }

  /** s' is a possible outcome of pruning to max. */
  ghost predicate IsPruned(s: set<Change>, max: nat, s': set<Change>) {
    exists all :: Arrangement(s, all) && s' == Elements(Take(all, max))
  }

  function Since(s: set<Change>, t: int): set<Change> { set c | c in s && c.detectedAt >= t }

  lemma {:induction false} SubsetIsSmaller(a: set<Change>, b: set<Change>)
    requires a <= b
    ensures |a| <= |b|
  {
    assert b == a + (b - a) && |b| == |a| + |b - a|;
  }

  lemma ElementsGrow(s: seq<Change>, c: Change)
    ensures Elements(s + [c]) == Elements(s) + {c}
  {
  }

  lemma PrefixGrows(all: seq<Change>, i: nat)
    requires 0 < i <= |all| && Different(all)
    ensures |Elements(all[..i])| == |Elements(all[..i - 1])| + 1
  {
    assert all[..i] == all[..i - 1] + [all[i - 1]];
    ElementsGrow(all[..i - 1], all[i - 1]);
    assert all[i - 1] !in Elements(all[..i - 1]);
  }

  lemma {:induction false} PrefixSize(all: seq<Change>, i: nat)
    requires i <= |all| && Different(all)
    ensures |Elements(all[..i])| == i
  {
    if i == 0 {
      assert Elements(all[..0]) == {};
    } else {
      PrefixSize(all, i - 1);
      PrefixGrows(all, i);
    }
  }

  lemma {:induction false} SameSizeSubset(a: set<Change>, b: set<Change>)
    requires a <= b && |a| == |b|
    ensures a == b
  {
    assert b == a + (b - a) && |b| == |a| + |b - a|;
  }

  lemma ArrangementIsAll(s: set<Change>, all: seq<Change>)
    requires Arrangement(s, all)
    ensures Elements(all) == s
  {
    PrefixSize(all, |all|);
    assert all[..|all|] == all;
    SameSizeSubset(Elements(all), s);
  }

  /** In any ordering, position i holds time t or later exactly when more than i changes do. */
  lemma RankIsCount(s: set<Change>, all: seq<Change>, i: nat, t: int)
    requires Arrangement(s, all) && i < |all|
    ensures all[i].detectedAt >= t <==> |Since(s, t)| > i
  {
    ArrangementIsAll(s, all);
    if all[i].detectedAt >= t {
      PrefixSize(all, i + 1);
      forall c | c in Elements(all[..i + 1]) ensures c in Since(s, t) {
        var j :| 0 <= j < i + 1 && all[..i + 1][j] == c;
        assert all[j] in s && (j == i || all[j].detectedAt >= all[i].detectedAt);
      }
      SubsetIsSmaller(Elements(all[..i + 1]), Since(s, t));
    } else {
      PrefixSize(all, i);
      forall c | c in Since(s, t) ensures c in Elements(all[..i]) {
        assert c in Elements(all);
        var j :| 0 <= j < |all| && all[j] == c;
        assert j < i;
        assert all[..i][j] == c;
      }
      SubsetIsSmaller(Since(s, t), Elements(all[..i]));
    }
  }

  // ----- a pruned window against the log -------------------------------------------------------------

  /** What the window lacks is older than `max` changes it has. */
  ghost predicate Covers(log: set<Change>, window: set<Change>, max: nat) {
    && Keyed(log) && window <= log
    && forall c | c in log && c !in window :: |Since(window, c.detectedAt)| >= max
  }

  /** The write makes its pair fall behind a change it was not behind before. */
  ghost predicate Crosses(log: set<Change>, c: Change) {
    exists d, x :: Overtakes(log, c, d, x)
  }

  /** Pair d of the log, rewritten as c, falls behind change x. */
  ghost predicate Overtakes(log: set<Change>, c: Change, d: Change, x: Change) {
    && d in log && SamePair(d, c) && x in log && !SamePair(x, c)
    && c.detectedAt < x.detectedAt <= d.detectedAt
  }

  lemma PutKeepsCount(s: set<Change>, c: Change, t: int)
    requires Keyed(s) && forall d | d in s && SamePair(d, c) :: !(c.detectedAt < t <= d.detectedAt)
    ensures |Since(Put(s, c), t)| >= |Since(s, t)|
  {
    var a, b := Since(s, t), Since(Put(s, c), t);
    if d :| d in a && SamePair(d, c) {
      assert a - {d} + {c} <= b;
      assert |a - {d}| == |a| - 1;
      assert c !in a - {d};
      SubsetIsSmaller(a - {d} + {c}, b);
    } else {
      SubsetIsSmaller(a, b);
    }
  }

  lemma PutKeepsCover(log: set<Change>, window: set<Change>, max: nat, c: Change)
    requires Covers(log, window, max) && !Crosses(log, c)
    ensures Covers(Put(log, c), Put(window, c), max)
  {
    forall x | x in Put(log, c) && x !in Put(window, c) ensures |Since(Put(window, c), x.detectedAt)| >= max {
      forall d | d in window && SamePair(d, c) ensures !(c.detectedAt < x.detectedAt <= d.detectedAt) {
        assert !Overtakes(log, c, d, x);
      }
      PutKeepsCount(window, c, x.detectedAt);
    }
  }

  lemma PruneKeepsCover(log: set<Change>, window: set<Change>, max: nat, pruned: set<Change>)
    requires Covers(log, window, max) && IsPruned(window, max, pruned)
    ensures Covers(log, pruned, max) && |pruned| <= max
  {
    var all :| Arrangement(window, all) && pruned == Elements(Take(all, max));
    ArrangementIsAll(window, all);
    PrefixSize(all, |Take(all, max)|);
    assert Take(all, max) == all[..|Take(all, max)|];
    forall c | c in log && c !in pruned ensures |Since(pruned, c.detectedAt)| >= max {
      DroppedIsOlder(log, window, max, all, c);
    }
  }

  lemma DroppedIsOlder(log: set<Change>, window: set<Change>, max: nat, all: seq<Change>, c: Change)
    requires Covers(log, window, max) && Arrangement(window, all)
    requires c in log && c !in Elements(Take(all, max))
    ensures |Since(Elements(Take(all, max)), c.detectedAt)| >= max
  {
    ArrangementIsAll(window, all);
    if 0 < max < |all| {
      LastKeptIsNewer(log, window, max, all, c);
      PrefixIsSince(all, max, c.detectedAt);
    }
  }

  lemma LastKeptIsNewer(log: set<Change>, window: set<Change>, max: nat, all: seq<Change>, c: Change)
    requires Covers(log, window, max) && Arrangement(window, all) && 0 < max < |all|
    requires c in log && c !in Elements(all[..max])
    ensures all[max - 1].detectedAt >= c.detectedAt
  {
    if c in window {
      ArrangementIsAll(window, all);
      assert c in Elements(all);
      var j :| 0 <= j < |all| && all[j] == c;
      assert forall k | 0 <= k < max :: all[..max][k] == all[k];
    } else {
      RankIsCount(window, all, max - 1, c.detectedAt);
    }
  }

  lemma PrefixIsSince(all: seq<Change>, i: nat, t: int)
    requires Descending(all) && Different(all) && 0 < i <= |all| && all[i - 1].detectedAt >= t
    ensures |Since(Elements(all[..i]), t)| >= i
  {
    var kept := Elements(all[..i]);
    PrefixSize(all, i);
    forall d | d in kept ensures d in Since(kept, t) {
      var j :| 0 <= j < i && all[..i][j] == d;
      assert j == i - 1 || all[j].detectedAt >= all[i - 1].detectedAt;
    }
    SubsetIsSmaller(kept, Since(kept, t));
  }

  function Times(r: seq<Change>): (t: seq<int>)
    ensures |t| == |r| && forall i | 0 <= i < |r| :: t[i] == r[i].detectedAt
  {
    seq(|r|, i requires 0 <= i < |r| => r[i].detectedAt)
  }

  lemma CountsAgree(log: set<Change>, window: set<Change>, max: nat, t: int, i: nat)
    requires Covers(log, window, max) && i < max
    ensures |Since(log, t)| > i <==> |Since(window, t)| > i
  {
    SubsetIsSmaller(Since(window, t), Since(log, t));
    if c :| c in Since(log, t) && c !in window {
      SubsetIsSmaller(Since(window, c.detectedAt), Since(window, t));
    } else {
      assert Since(log, t) == Since(window, t);
    }
  }

  lemma SizesAgree(log: set<Change>, window: set<Change>, max: nat, n: nat)
    requires Covers(log, window, max) && n <= max
    ensures |window| <= |log| && (|window| < n ==> window == log)
  {
    SubsetIsSmaller(window, log);
    if c :| c in log && c !in window {
      SubsetIsSmaller(Since(window, c.detectedAt), window);
    }
  }

  /** A covering window answers Recent(n), n <= max, with the timestamps of the unpruned log. */
  lemma SameTimes(log: set<Change>, window: set<Change>, max: nat, n: nat, r: seq<Change>, r': seq<Change>)
    requires Covers(log, window, max) && n <= max && IsRecent(log, n, r) && IsRecent(window, n, r')
    ensures Times(r) == Times(r')
  {
    var a: seq<Change> :| Arrangement(log, a) && r == Take(a, n);
    var b: seq<Change> :| Arrangement(window, b) && r' == Take(b, n);
    SizesAgree(log, window, max, n);
    assert |r| == |r'|;
    forall i | 0 <= i < |r| ensures r[i].detectedAt == r'[i].detectedAt {
      RankIsCount(log, a, i, a[i].detectedAt);
      RankIsCount(log, a, i, b[i].detectedAt);
      RankIsCount(window, b, i, a[i].detectedAt);
      RankIsCount(window, b, i, b[i].detectedAt);
      CountsAgree(log, window, max, a[i].detectedAt, i);
      CountsAgree(log, window, max, b[i].detectedAt, i);
    }
  }

  ghost predicate DistinctTimes(s: set<Change>) {
    forall c, d | c in s && d in s && c.detectedAt == d.detectedAt :: c == d
  }

  // ----- histories -------------------------------------------------------------------------------

  /** The unpruned log after a history of writes. */
  ghost function Log(writes: seq<Change>): set<Change> {
    if writes == [] then {} else Put(Log(writes[..|writes| - 1]), writes[|writes| - 1])
  }

  /** One write, after which the store may prune or not. */
  ghost predicate Written(max: nat, before: set<Change>, c: Change, after: set<Change>) {
    after == Put(before, c) || IsPruned(Put(before, c), max, after)
  }

  /** The successive contents of a store that starts empty. */
  ghost predicate Stored(max: nat, writes: seq<Change>, windows: seq<set<Change>>) {
    && |windows| == |writes| + 1 && windows[0] == {}
    && forall i | 0 <= i < |writes| :: Written(max, windows[i], writes[i], windows[i + 1])
  }

  /** No write of the history crosses another change of the unpruned log. */
  ghost predicate NeverCrosses(writes: seq<Change>) {
    forall i | 0 <= i < |writes| :: !Crosses(Log(writes[..i]), writes[i])
  }

  lemma {:induction false} LogElements(writes: seq<Change>)
    ensures Keyed(Log(writes)) && forall c | c in Log(writes) :: c in writes
  {
    if writes != [] {
      LogElements(writes[..|writes| - 1]);
      assert writes == writes[..|writes| - 1] + [writes[|writes| - 1]];
    }
  }

  lemma LogGrows(writes: seq<Change>, c: Change)
    ensures Log(writes + [c]) == Put(Log(writes), c)
  {
    var longer := writes + [c];
    assert longer[..|longer| - 1] == writes && longer[|longer| - 1] == c;
  }

  lemma WriteKeepsCover(log: set<Change>, before: set<Change>, max: nat, c: Change, after: set<Change>)
    requires Covers(log, before, max) && !Crosses(log, c) && Written(max, before, c, after)
    ensures Covers(Put(log, c), after, max)
  {
    PutKeepsCover(log, before, max, c);
    if after != Put(before, c) { PruneKeepsCover(Put(log, c), Put(before, c), max, after); }
  }

  lemma {:induction false} StoredCovers(max: nat, writes: seq<Change>, windows: seq<set<Change>>, i: nat)
    requires Stored(max, writes, windows) && NeverCrosses(writes) && i <= |writes|
    ensures Covers(Log(writes[..i]), windows[i], max)
  {
    if i > 0 {
      StoredCovers(max, writes, windows, i - 1);
      assert Written(max, windows[i - 1], writes[i - 1], windows[i - 1 + 1]);
      assert !Crosses(Log(writes[..i - 1]), writes[i - 1]);
      WriteKeepsCover(Log(writes[..i - 1]), windows[i - 1], max, writes[i - 1], windows[i]);
      assert writes[..i] == writes[..i - 1] + [writes[i - 1]];
      LogGrows(writes[..i - 1], writes[i - 1]);
    }
  }

  lemma RecentIsInside(s: set<Change>, n: nat, r: seq<Change>)
    requires IsRecent(s, n, r)
    ensures forall i | 0 <= i < |r| :: r[i] in s
  {
  }

  lemma CoversAgree(log: set<Change>, a: set<Change>, b: set<Change>, max: nat, n: nat, ra: seq<Change>,
                    rb: seq<Change>)
    requires Covers(log, a, max) && Covers(log, b, max) && n <= max && IsRecent(a, n, ra) && IsRecent(b, n, rb)
    ensures Times(ra) == Times(rb)
    ensures DistinctTimes(log) ==> ra == rb
  {
    var r := SomeRecent(log, n);
    SameTimes(log, a, max, n, r, ra);
    SameTimes(log, b, max, n, r, rb);
    RecentIsInside(a, n, ra);
    RecentIsInside(b, n, rb);
    if DistinctTimes(log) {
      forall i | 0 <= i < |ra| ensures ra[i] == rb[i] {
        assert Times(ra)[i] == Times(rb)[i];
      }
    }
  }

  /** Eager, lazy or absent pruning: any two stores fed the same writes agree on Recent(n) for n <= max. */
  lemma WindowsAgree(max: nat, writes: seq<Change>, a: seq<set<Change>>, b: seq<set<Change>>, n: nat,
                     ra: seq<Change>, rb: seq<Change>)
    requires NeverCrosses(writes) && n <= max && Stored(max, writes, a) && Stored(max, writes, b)
    requires IsRecent(a[|writes|], n, ra) && IsRecent(b[|writes|], n, rb)
    ensures Times(ra) == Times(rb)
    ensures DistinctTimes(Log(writes)) ==> ra == rb
  {
    var k := |writes|;
    StoredCovers(max, writes, a, k);
    StoredCovers(max, writes, b, k);
    assert writes[..k] == writes;
    CoversAgree(Log(writes), a[k], b[k], max, n, ra, rb);
  }

  lemma SomeRecent(s: set<Change>, n: nat) returns (r: seq<Change>)
    ensures IsRecent(s, n, r)
  {
    var all := Arranged(s);
    r := Take(all, n);
  }

  predicate Older(c: Change, d: Change) { c.detectedAt < d.detectedAt }

  lemma InsertKeeps(c: Change, all: seq<Change>)
    requires Descending(all)
    ensures var r := Insert(Older, c, all); Descending(r) && |r| == |all| + 1 && Elements(r) == Elements(all) + {c}
  {
    InsertOrders(Older, c, all);
    var r := Insert(Older, c, all);
    forall d ensures d in r <==> d in all || d == c { InsertHas(Older, c, all, d); }
  }

  lemma {:induction false} Arranged(s: set<Change>) returns (all: seq<Change>)
    ensures Arrangement(s, all)
    decreases |s|
  {
    if s == {} {
      all := [];
    } else {
      var c :| c in s;
      var rest := Arranged(s - {c});
      ArrangementIsAll(s - {c}, rest);
      all := Insert(Older, c, rest);
      InsertKeeps(c, rest);
      AllDifferent(all, s);
    }
  }

  /** As many distinct elements as positions: none repeats. */
  lemma {:induction false} AllDifferent(all: seq<Change>, s: set<Change>)
    requires Elements(all) == s && |all| == |s|
    ensures Different(all)
  {
    forall i, j | 0 <= i < j < |all| ensures all[i] != all[j] {
      if all[i] == all[j] {
        var fewer := all[..j] + all[j + 1..];
        assert Elements(fewer) == s by {
          forall c | c in s ensures c in fewer {
            var k :| 0 <= k < |all| && all[k] == c;
            if k < j { assert fewer[k] == c; }
            else if k == j { assert fewer[i] == c; }
            else { assert fewer[k - 1] == c; }
          }
        }
        ElementsFit(fewer);
      }
    }
  }

  lemma {:induction false} ElementsFit(all: seq<Change>)
    ensures |Elements(all)| <= |all|
  {
    if all != [] {
      ElementsFit(all[1..]);
      assert all == [all[0]] + all[1..];
      assert Elements(all) == Elements(all[1..]) + {all[0]};
    }
  }

  // ----- exactly when the stores agree ----------------------------------------------------------------

  /** Histories that never lower a timestamp never cross. */
  lemma NeverLoweredNeverCrosses(writes: seq<Change>)
    requires forall i, j | 0 <= i < j < |writes| && SamePair(writes[i], writes[j]) ::
               writes[i].detectedAt <= writes[j].detectedAt
    ensures NeverCrosses(writes)
  {
    forall i | 0 <= i < |writes| ensures !Crosses(Log(writes[..i]), writes[i]) {
      LogElements(writes[..i]);
      forall d, x ensures !Overtakes(Log(writes[..i]), writes[i], d, x) {
        if d in Log(writes[..i]) && SamePair(d, writes[i]) {
          var j :| 0 <= j < i && writes[..i][j] == d;
          assert writes[j] == d;
        }
      }
    }
  }

  /** Two stores fed these writes, however they pruned, answer Recent(n) with the same timestamps. */
  ghost predicate AlwaysAgree(writes: seq<Change>) {
    forall max: nat, a, b, n: nat, ra, rb |
      n <= max && Stored(max, writes, a) && Stored(max, writes, b)
      && IsRecent(a[|writes|], n, ra) && IsRecent(b[|writes|], n, rb) :: Times(ra) == Times(rb)
  }

  lemma Concatenated(k: set<Change>, rest: set<Change>, a: seq<Change>, b: seq<Change>)
    requires Arrangement(k, a) && Arrangement(rest, b) && k !! rest
    requires forall c, d | c in k && d in rest :: c.detectedAt >= d.detectedAt
    ensures Arrangement(k + rest, a + b)
  {
  }

  /** Any set that nothing left out is newer than is what pruning to its size may keep. */
  lemma TopIsPruned(s: set<Change>, k: set<Change>)
    requires k <= s && forall c, d | c in k && d in s - k :: c.detectedAt >= d.detectedAt
    ensures IsPruned(s, |k|, k)
  {
    var a := Arranged(k);
    var b := Arranged(s - k);
    Concatenated(k, s - k, a, b);
    assert k + (s - k) == s;
    ArrangementIsAll(k, a);
    assert Take(a + b, |k|) == a;
  }

  lemma OneMore(max: nat, writes: seq<Change>, windows: seq<set<Change>>, c: Change, after: set<Change>)
    requires Stored(max, writes, windows) && Written(max, windows[|writes|], c, after)
    ensures Stored(max, writes + [c], windows + [after])
  {
    var ws, vs := writes + [c], windows + [after];
    forall i | 0 <= i < |ws| ensures Written(max, vs[i], ws[i], vs[i + 1]) {
      if i < |writes| { assert Written(max, windows[i], writes[i], windows[i + 1]); }
    }
  }

  /** The contents of a store that never prunes. */
  lemma {:induction false} Unpruned(writes: seq<Change>, max: nat) returns (full: seq<set<Change>>)
    ensures Stored(max, writes, full) && full[|writes|] == Log(writes)
    decreases |writes|, 1
  {
    if writes == [] {
      full := [{}];
    } else {
      full := PrunedOnce(writes, max, Log(writes));
    }
  }

  /** A store that prunes at most once, after the last write. */
  lemma {:induction false} PrunedOnce(writes: seq<Change>, max: nat, kept: set<Change>)
    returns (pruned: seq<set<Change>>)
    requires writes != [] && (kept == Log(writes) || IsPruned(Log(writes), max, kept))
    ensures Stored(max, writes, pruned) && pruned[|writes|] == kept
    decreases |writes|, 0
  {
    var front, c := writes[..|writes| - 1], writes[|writes| - 1];
    var full := Unpruned(front, max);
    assert writes == front + [c];
    LogGrows(front, c);
    OneMore(max, front, full, c, kept);
    pruned := full + [kept];
  }

  /** What is at least as new as x, without x: pruning to its size may drop x just before it is needed. */
  ghost function Above(log: set<Change>, x: Change): set<Change> { Since(log, x.detectedAt) - {x} }

  lemma PutLowers(s: set<Change>, c: Change, d: Change, t: int)
    requires Keyed(s) && d in s && SamePair(d, c) && c.detectedAt < t <= d.detectedAt
    ensures Since(Put(s, c), t) == Since(s, t) - {d} && Put(s, c) == s - {d} + {c}
  {
    forall e | e in s ensures SamePair(e, c) <==> e == d {}
  }

  /** Rewriting d as c leaves as many changes at least as new as x in the log, but one less above x. */
  lemma CrossingCounts(log: set<Change>, c: Change, d: Change, x: Change)
    requires Keyed(log) && Overtakes(log, c, d, x)
    ensures var k := Above(log, x);
            && d in k && |Since(Put(log, c), x.detectedAt)| == |k|
            && |Since(Put(k, c), x.detectedAt)| == |k| - 1 && |Put(k, c)| == |k|
  {
    var k, t := Above(log, x), x.detectedAt;
    PutLowers(log, c, d, t);
    assert x in Since(log, t) && |Since(log, t)| == |k| + 1;
    assert d in Since(log, t);
    PutLowers(k, c, d, t);
    assert Since(k, t) == k && c !in k;
  }

  lemma Disagreement(writes: seq<Change>, max: nat, a: seq<set<Change>>, b: seq<set<Change>>,
                     ra: seq<Change>, rb: seq<Change>)
    requires Stored(max, writes, a) && Stored(max, writes, b) && Times(ra) != Times(rb)
    requires IsRecent(a[|writes|], max, ra) && IsRecent(b[|writes|], max, rb)
    ensures !AlwaysAgree(writes)
  {
  }

  /** A crossing makes a store that pruned at the wrong moment disagree with one that did not. */
  lemma CrossingDisagrees(front: seq<Change>, c: Change, d: Change, x: Change)
    requires Overtakes(Log(front), c, d, x)
    ensures !AlwaysAgree(front + [c])
  {
    LogElements(front);
    var log, k := Log(front), Above(Log(front), x);
    CrossingCounts(log, c, d, x);
    TopIsPruned(log, k);
    var a := Unpruned(front, |k|);
    var b := PrunedOnce(front, |k|, k);
    OneMore(|k|, front, a, c, Put(log, c));
    OneMore(|k|, front, b, c, Put(k, c));
    var ra := SomeRecent(Put(log, c), |k|);
    var rb := SomeRecent(Put(k, c), |k|);
    RecentDiffers(Put(log, c), Put(k, c), |k|, x.detectedAt, ra, rb);
    Disagreement(front + [c], |k|, a + [Put(log, c)], b + [Put(k, c)], ra, rb);
  }

  lemma RecentDiffers(s: set<Change>, s': set<Change>, n: nat, t: int, r: seq<Change>, r': seq<Change>)
    requires IsRecent(s, n, r) && IsRecent(s', n, r') && |Since(s, t)| >= n == |s'| > |Since(s', t)|
    ensures Times(r) != Times(r')
  {
    var a: seq<Change> :| Arrangement(s, a) && r == Take(a, n);
    var b: seq<Change> :| Arrangement(s', b) && r' == Take(b, n);
    SubsetIsSmaller(Since(s, t), s);
    RankIsCount(s, a, n - 1, t);
    RankIsCount(s', b, n - 1, t);
    assert Times(r)[n - 1] != Times(r')[n - 1];
  }

  /** After every write all stores agree, exactly when no write crosses another change. */
  lemma AgreeIff(writes: seq<Change>)
    ensures (forall k | 0 <= k <= |writes| :: AlwaysAgree(writes[..k])) <==> NeverCrosses(writes)
  {
    if NeverCrosses(writes) {
      forall k | 0 <= k <= |writes| ensures AlwaysAgree(writes[..k]) { PrefixAgrees(writes, k); }
    }
    if forall k | 0 <= k <= |writes| :: AlwaysAgree(writes[..k]) {
      forall i | 0 <= i < |writes| ensures !Crosses(Log(writes[..i]), writes[i]) {
        assert AlwaysAgree(writes[..i + 1]) && writes[..i + 1] == writes[..i] + [writes[i]];
        if d, x :| Overtakes(Log(writes[..i]), writes[i], d, x) { CrossingDisagrees(writes[..i], writes[i], d, x); }
      }
    }
  }

  lemma PrefixAgrees(writes: seq<Change>, k: nat)
    requires NeverCrosses(writes) && k <= |writes|
    ensures AlwaysAgree(writes[..k])
  {
    var ws := writes[..k];
    assert NeverCrosses(ws) by {
      forall i | 0 <= i < k ensures !Crosses(Log(ws[..i]), ws[i]) { assert ws[..i] == writes[..i]; }
    }
    forall max: nat, a, b, n: nat, ra, rb |
      n <= max && Stored(max, ws, a) && Stored(max, ws, b) && IsRecent(a[|ws|], n, ra) && IsRecent(b[|ws|], n, rb)
      ensures Times(ra) == Times(rb)
    {
      WindowsAgree(max, ws, a, b, n, ra, rb);
    }
  }

  /** The newer of two items is rewritten with a time before that of the older one. */
  lemma LoweringBreaksAgreement(first: Change, second: Change, lowered: Change)
    requires SamePair(second, lowered) && !SamePair(first, second)
    requires lowered.detectedAt < first.detectedAt <= second.detectedAt
    ensures !AlwaysAgree([first, second, lowered])
  {
    var front := [first, second];
    assert front[..1] == [first] && [first][..0] == [];
    assert Log([]) == {} && Log([first]) == {first};
    assert Log(front) == {first, second};
    CrossingDisagrees(front, lowered, second, first);
    assert front + [lowered] == [first, second, lowered];
  }

  // ----- the stores -------------------------------------------------------------------------------

  /** Collect the values and sort them newest first; ties fall as they may. */
  method SortedValues(values: set<Change>) returns (all: seq<Change>)
    ensures Arrangement(values, all)
  {
    all := [];
    var todo := values;
    while todo != {}
      invariant todo <= values && Descending(all)
      invariant Elements(all) == values - todo && |all| == |values| - |todo|
      decreases todo
    {
      var c :| c in todo;
      InsertKeeps(c, all);
      all := Insert(Older, c, all);
      todo := todo - {c};
    }
    AllDifferent(all, values);
    forall i | 0 <= i < |all| ensures all[i] in values { assert all[i] in Elements(all); }
  }

  /** Overwriting by the joined key. */
  function PutKey(s: set<Change>, c: Change): set<Change> {
    (set d | d in s && Key(d) != Key(c)) + {c}
  }

  /** For newline-free feed URLs, overwriting by the joined key is overwriting by the pair. */
  lemma PutKeyIsPut(s: set<Change>, c: Change)
    requires OneLine(c) && forall d | d in s :: OneLine(d)
    ensures PutKey(s, c) == Put(s, c)
  {
    forall d | d in s ensures Key(d) == Key(c) <==> SamePair(d, c) { KeyIsPair(d, c); }
  }

  /** One write of the memory store: overwrite by key, and prune when over the limit. */
  ghost predicate MemoryWritten(max: nat, before: set<Change>, c: Change, after: set<Change>) {
    && |after| <= max
    && (after == PutKey(before, c) || IsPruned(PutKey(before, c), max, after))
  }

  ghost predicate MemoryStored(max: nat, writes: seq<Change>, windows: seq<set<Change>>) {
    && |windows| == |writes| + 1 && windows[0] == {}
    && forall i | 0 <= i < |writes| :: MemoryWritten(max, windows[i], writes[i], windows[i + 1])
  }

  lemma PrunedIsInside(s: set<Change>, max: nat, s': set<Change>)
    requires IsPruned(s, max, s')
    ensures s' <= s
  {
  }

  lemma {:induction false} MemoryIsStored(max: nat, writes: seq<Change>, windows: seq<set<Change>>, i: nat)
    requires MemoryStored(max, writes, windows) && i <= |writes|
    requires forall c | c in writes :: OneLine(c)
    ensures forall d | d in windows[i] :: OneLine(d)
    ensures i > 0 ==> Written(max, windows[i - 1], writes[i - 1], windows[i])
  {
    if i > 0 {
      MemoryIsStored(max, writes, windows, i - 1);
      var before, c, after := windows[i - 1], writes[i - 1], windows[i - 1 + 1];
      assert MemoryWritten(max, before, c, after) && c in writes;
      PutKeyIsPut(before, c);
      if after != PutKey(before, c) { PrunedIsInside(PutKey(before, c), max, after); }
    }
  }

  lemma MemoryRunIsStored(max: nat, writes: seq<Change>, windows: seq<set<Change>>)
    requires MemoryStored(max, writes, windows) && forall c | c in writes :: OneLine(c)
    ensures Stored(max, writes, windows)
  {
    forall i | 0 <= i < |writes| ensures Written(max, windows[i], writes[i], windows[i + 1]) {
      MemoryStepIsWritten(max, writes, windows, i);
    }
  }

  lemma MemoryStepIsWritten(max: nat, writes: seq<Change>, windows: seq<set<Change>>, i: nat)
    requires MemoryStored(max, writes, windows) && i < |writes| && forall c | c in writes :: OneLine(c)
    ensures Written(max, windows[i], writes[i], windows[i + 1])
  {
    MemoryIsStored(max, writes, windows, i + 1);
    assert i + 1 - 1 == i;
  }

  /** Fed the same writes, the memory store and any SQL store show the same recent changes. */
  lemma MemoryAgreesWithSql(max: nat, writes: seq<Change>, memory: seq<set<Change>>, sql: seq<set<Change>>, n: nat,
                            rm: seq<Change>, rs: seq<Change>)
    requires MemoryStored(max, writes, memory) && Stored(max, writes, sql)
    requires NeverCrosses(writes) && (forall c | c in writes :: OneLine(c)) && n <= max
    requires IsRecent(memory[|writes|], n, rm) && IsRecent(sql[|writes|], n, rs)
    ensures Times(rm) == Times(rs)
    ensures DistinctTimes(Log(writes)) ==> rm == rs
  {
    MemoryRunIsStored(max, writes, memory);
    WindowsAgree(max, writes, memory, sql, n, rm, rs);
  }

  function Values(m: map<string, Change>): set<Change> { set k | k in m :: m[k] }

  ghost predicate ByKey(m: map<string, Change>) { forall k | k in m :: Key(m[k]) == k }

  lemma ValuesLess(m: map<string, Change>, c: Change)
    requires ByKey(m) && c in Values(m)
    ensures ByKey(m - {Key(c)}) && Values(m - {Key(c)}) == Values(m) - {c}
  {
    var m' := m - {Key(c)};
    forall d | d in Values(m) - {c} ensures d in Values(m') {
      assert m[Key(d)] == d && m'[Key(d)] == d;
    }
  }

  lemma {:induction false} ValuesSize(m: map<string, Change>)
    requires ByKey(m)
    ensures |Values(m)| == |m|
    decreases |m|
  {
    if m != map[] {
      var k :| k in m;
      var rest := m - {k};
      ValuesSize(rest);
      ValuesLess(m, m[k]);
      assert m.Keys == rest.Keys + {k} && |m.Keys| == |rest.Keys| + 1;
    }
  }

  lemma ValuesAfterPut(m: map<string, Change>, c: Change)
    requires ByKey(m)
    ensures Values(m[Key(c) := c]) == PutKey(Values(m), c)
  {
    var m' := m[Key(c) := c];
    forall d | d in PutKey(Values(m), c) ensures d in Values(m') {
      if d != c { assert m[Key(d)] == d && m'[Key(d)] == d; } else { assert m'[Key(c)] == c; }
    }
  }

  class MemoryStore {
    const max: nat
    var byKey: map<string, Change>

    ghost predicate Valid() reads this { ByKey(byKey) && |Values(byKey)| <= max }

    ghost function View(): set<Change> reads this { Values(byKey) }

    constructor (max: nat)
      ensures Valid() && View() == {} && this.max == max
    {
      this.max := max;
      byKey := map[];
    }

    /** Overwrite, then prune at once if over the limit: the window never exceeds max. */
    method Write(c: Change)
      requires Valid()
      modifies this
      ensures Valid() && MemoryWritten(max, old(View()), c, View())
    {
      ValuesAfterPut(byKey, c);
      byKey := byKey[Key(c) := c];
      ValuesSize(byKey);
      if |byKey| > max {
        PruneLocked();
      }
    }

    method PruneLocked()
      requires ByKey(byKey) && |byKey| > max
      modifies this
      ensures Valid() && IsPruned(old(View()), max, View())
    {
      ValuesSize(byKey);
      var all := SortedValues(set k | k in byKey :: byKey[k]);
      DroppedTail(View(), all, max);
      DeleteAll(all[max..]);
    }

    method DeleteAll(dropped: seq<Change>)
      requires ByKey(byKey) && Elements(dropped) <= Values(byKey) && Different(dropped)
      modifies this
      ensures ByKey(byKey) && Values(byKey) == old(Values(byKey)) - Elements(dropped)
    {
      for i := 0 to |dropped|
        invariant ByKey(byKey) && Values(byKey) == old(Values(byKey)) - Elements(dropped[..i])
      {
        assert dropped[..i + 1] == dropped[..i] + [dropped[i]];
        assert dropped[i] in Elements(dropped) && dropped[i] !in dropped[..i];
        ValuesLess(byKey, dropped[i]);
        byKey := byKey - {Key(dropped[i])};
      }
      assert dropped[..|dropped|] == dropped;
    }

    method Recent(n: nat) returns (r: seq<Change>)
      requires Valid()
      ensures IsRecent(View(), n, r)
    {
      var all := SortedValues(set k | k in byKey :: byKey[k]);
      r := all;
      if n < |all| {
        r := all[..n];
      }
    }
  }

  /** Dropping everything after the first max elements leaves those. */
  lemma DroppedTail(s: set<Change>, all: seq<Change>, max: nat)
    requires Arrangement(s, all) && max < |all|
    ensures Elements(all[max..]) <= s && Different(all[max..])
    ensures var kept := s - Elements(all[max..]); IsPruned(s, max, kept) && |kept| == max
  {
    ArrangementIsAll(s, all);
    PrefixSize(all, max);
    var kept := s - Elements(all[max..]);
    forall c | c in s ensures c in kept <==> c in Elements(all[..max]) {
      assert c in Elements(all);
      var j :| 0 <= j < |all| && all[j] == c;
      if j < max { assert all[..max][j] == c; } else { assert all[max..][j - max] == c; }
    }
    assert forall c | c in Elements(all[..max]) :: c in Elements(all);
    assert kept == Elements(all[..max]);
    assert Take(all, max) == all[..max];
  }

  type Pair = (string, string)

  function Rows(m: map<Pair, Change>): set<Change> { set k | k in m :: m[k] }

  ghost predicate ByPair(m: map<Pair, Change>) { forall k | k in m :: k == (m[k].feed, m[k].id) }

  lemma RowsAfterUpsert(m: map<Pair, Change>, c: Change)
    requires ByPair(m)
    ensures Rows(m[(c.feed, c.id) := c]) == Put(Rows(m), c) && ByPair(m[(c.feed, c.id) := c])
  {
    var m' := m[(c.feed, c.id) := c];
    forall d | d in Put(Rows(m), c) ensures d in Rows(m') {
      if d != c { assert m[(d.feed, d.id)] == d && m'[(d.feed, d.id)] == d; } else { assert m'[(c.feed, c.id)] == c; }
    }
  }

  lemma RowsKept(m: map<Pair, Change>, keep: set<Change>)
    requires ByPair(m) && keep <= Rows(m)
    ensures var m' := map k | k in m && m[k] in keep :: m[k]; ByPair(m') && Rows(m') == keep
  {
    var m' := map k | k in m && m[k] in keep :: m[k];
    forall d | d in keep ensures d in Rows(m') {
      assert m[(d.feed, d.id)] == d && m'[(d.feed, d.id)] == d;
    }
  }

  /** One write of an SQL store, number `count`: upsert, and prune if its turn has come and the prune succeeds. */
  ghost predicate SqlWritten(max: nat, every: nat, count: nat, before: set<Change>, c: Change, pruneOk: bool,
                             after: set<Change>)
    requires every > 0
  {
    if count % every == 0 && pruneOk then IsPruned(Put(before, c), max, after) else after == Put(before, c)
  }

  ghost predicate SqlStored(max: nat, every: nat, writes: seq<Change>, pruneOk: seq<bool>, windows: seq<set<Change>>)
    requires every > 0
  {
    && |windows| == |writes| + 1 && |pruneOk| == |writes| && windows[0] == {}
    && forall i | 0 <= i < |writes| :: SqlWritten(max, every, i + 1, windows[i], writes[i], pruneOk[i], windows[i + 1])
  }

  /** Such a store is one of those that agree with each other. */
  lemma SqlIsStored(max: nat, every: nat, writes: seq<Change>, pruneOk: seq<bool>, windows: seq<set<Change>>)
    requires every > 0 && SqlStored(max, every, writes, pruneOk, windows)
    ensures Stored(max, writes, windows)
  {
    forall i | 0 <= i < |writes| ensures Written(max, windows[i], writes[i], windows[i + 1]) {
      assert SqlWritten(max, every, i + 1, windows[i], writes[i], pruneOk[i], windows[i + 1]);
    }
  }

  lemma PrunedFits(s: set<Change>, max: nat, s': set<Change>)
    requires IsPruned(s, max, s')
    ensures |s'| <= max
  {
    var all :| Arrangement(s, all) && s' == Elements(Take(all, max));
    PrefixSize(all, |Take(all, max)|);
    assert Take(all, max) == all[..|Take(all, max)|];
  }

  lemma PutAddsOne(s: set<Change>, c: Change)
    ensures |Put(s, c)| <= |s| + 1
  {
    var kept := set d | d in s && !SamePair(d, c);
    SubsetIsSmaller(kept, s);
  }

  lemma PhaseSteps(k: nat, every: nat)
    requires every > 0 && (k + 1) % every != 0
    ensures (k + 1) % every == k % every + 1
  {
    Naturals.SuccessorMod(k, every);
  }

  /** With prunes that succeed the table has at most one row over the limit per write since the last prune. */
  lemma {:induction false} SqlStaysBounded(max: nat, every: nat, writes: seq<Change>, pruneOk: seq<bool>,
                                           windows: seq<set<Change>>, i: nat)
    requires every > 0 && SqlStored(max, every, writes, pruneOk, windows) && i <= |writes|
    requires forall k | 0 <= k < |pruneOk| :: pruneOk[k]
    ensures |windows[i]| <= max + i % every <= max + every - 1
  {
    if i > 0 {
      SqlStaysBounded(max, every, writes, pruneOk, windows, i - 1);
      assert SqlWritten(max, every, i - 1 + 1, windows[i - 1], writes[i - 1], pruneOk[i - 1], windows[i - 1 + 1]);
      if i % every == 0 {
        PrunedFits(Put(windows[i - 1], writes[i - 1]), max, windows[i]);
      } else {
        PutAddsOne(windows[i - 1], writes[i - 1]);
        PhaseSteps(i - 1, every);
      }
    }
  }

  /** The SQL stores: an upsert by primary key, and a prune after every pruneEvery-th write. */
  class SqlStore {
    const max: nat
    const pruneEvery: nat
    var rows: map<Pair, Change>
    var writes: nat

    ghost predicate Valid() reads this { ByPair(rows) && pruneEvery > 0 }

    ghost function View(): set<Change> reads this { Rows(rows) }

    constructor (max: nat, pruneEvery: nat)
      requires pruneEvery > 0
      ensures Valid() && View() == {} && this.max == max
    {
      this.max, this.pruneEvery := max, pruneEvery;
      rows, writes := map[], 0;
    }

    /** `pruneOk` is false when the prune statement fails, which Write ignores. */
    method Write(c: Change, pruneOk: bool)
      requires Valid()
      modifies this
      ensures Valid() && writes == old(writes) + 1
      ensures SqlWritten(max, pruneEvery, writes, old(View()), c, pruneOk, View())
    {
      RowsAfterUpsert(rows, c);
      rows := rows[(c.feed, c.id) := c];
      writes := writes + 1;
      if writes % pruneEvery == 0 && pruneOk {
        Prune();
      }
    }

    /** Delete every row outside one ordering's first max. */
    method Prune()
      requires Valid()
      modifies this`rows
      ensures Valid() && IsPruned(old(View()), max, View())
    {
      var all := SortedValues(set k | k in rows :: rows[k]);
      ArrangementIsAll(View(), all);
      var keep := Elements(Take(all, max));
      assert keep <= View() by { forall d | d in keep ensures d in Elements(all) {} }
      RowsKept(rows, keep);
      rows := map k | k in rows && rows[k] in keep :: rows[k];
    }

    method Recent(n: nat) returns (r: seq<Change>)
      requires Valid()
      ensures IsRecent(View(), n, r)
    {
      var all := SortedValues(set k | k in rows :: rows[k]);
      r := if n < |all| then all[..n] else all;
    }
  }
}
