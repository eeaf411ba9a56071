/**
 Rendezvous (highest-random-weight) assignment of feeds to members. The hash is a parameter: every
 statement holds for any score function, including one with ties, which break toward the lexically
 larger member ID.
 */
module Assign {
  type Id = string
  type Url = string
  type Score = (Id, Url) -> nat

  // ----- string order ---------------------------------------------------------------------

  /** Byte-wise lexical order: a proper prefix comes first. */
  predicate Less(a: string, b: string) {
    if b == [] then false
    else if a == [] then true
    else if a[0] != b[0] then a[0] < b[0]
    else Less(a[1..], b[1..])
  }

  lemma {:induction false} LessIsTotal(a: string, b: string)
    ensures a == b || Less(a, b) || Less(b, a)
    ensures !(Less(a, b) && Less(b, a))
  {
    if a != [] && b != [] {
      LessIsTotal(a[1..], b[1..]);
      assert a == [a[0]] + a[1..] && b == [b[0]] + b[1..];
    }
  }

  /** What comes first: a proper prefix, or the string with the smaller character where the two first differ. */
  ghost predicate ComesFirst(a: string, b: string, k: nat) {
    k <= |a| && k < |b| && a[..k] == b[..k] && (k == |a| || a[k] < b[k])
  }

  lemma SameStart(a: string, b: string, k: nat)
    requires ComesFirst(a, b, k)
    ensures k > 0 ==> a[0] == b[0]
  {
    if k > 0 { assert a[..k][0] == a[0] && b[..k][0] == b[0]; }
  }

  lemma {:induction false} LessIff(a: string, b: string)
    ensures Less(a, b) <==> exists k: nat :: ComesFirst(a, b, k)
  {
    if a == [] || b == [] || a[0] != b[0] {
      if Less(a, b) { assert ComesFirst(a, b, 0); }
      if k: nat :| ComesFirst(a, b, k) { SameStart(a, b, k); }
    } else {
      LessIff(a[1..], b[1..]);
      if k: nat :| ComesFirst(a[1..], b[1..], k) {
        assert a[..k + 1] == [a[0]] + a[1..][..k] && b[..k + 1] == [b[0]] + b[1..][..k];
        assert ComesFirst(a, b, k + 1);
      }
      if k: nat :| ComesFirst(a, b, k) {
        assert k > 0;
        assert a[1..][..k - 1] == a[..k][1..] && b[1..][..k - 1] == b[..k][1..];
        assert ComesFirst(a[1..], b[1..], k - 1);
      }
    }
  }

  lemma {:induction false} LessIsTransitive(a: string, b: string, c: string)
    requires Less(a, b) && Less(b, c)
    ensures Less(a, c)
  {
    if a != [] && a[0] == b[0] == c[0] {
      LessIsTransitive(a[1..], b[1..], c[1..]);
    }
  }

  // ----- ownership ------------------------------------------------------------------------

  /** Member a outranks member b for the feed. */
  predicate Beats(score: Score, feed: Url, a: Id, b: Id) {
    score(a, feed) > score(b, feed) || (score(a, feed) == score(b, feed) && Less(b, a))
  }

  lemma BeatsIsTotal(score: Score, feed: Url, a: Id, b: Id)
    ensures a == b || Beats(score, feed, a, b) || Beats(score, feed, b, a)
    ensures !(Beats(score, feed, a, b) && Beats(score, feed, b, a))
  {
    LessIsTotal(a, b);
  }

  lemma BeatsIsTransitive(score: Score, feed: Url, a: Id, b: Id, c: Id)
    requires Beats(score, feed, a, b) && Beats(score, feed, b, c)
    ensures Beats(score, feed, a, c)
  {
    if Less(b, a) && Less(c, b) { LessIsTransitive(c, b, a); }
  }

  /** The member that outranks every other one. */
  ghost predicate IsOwner(score: Score, feed: Url, members: set<Id>, o: Id) {
    o in members && forall m | m in members :: m == o || Beats(score, feed, o, m)
  }

  /** The owner is the member with the highest score, the lexically largest one among equals. */
  lemma OwnerIff(score: Score, feed: Url, members: set<Id>, o: Id)
    ensures IsOwner(score, feed, members, o) <==>
              && o in members
              && (forall m | m in members :: score(m, feed) <= score(o, feed))
              && (forall m | m in members && m != o && score(m, feed) == score(o, feed) :: Less(m, o))
  {
  }

  lemma OwnerIsUnique(score: Score, feed: Url, members: set<Id>, o: Id, o': Id)
    requires IsOwner(score, feed, members, o) && IsOwner(score, feed, members, o')
    ensures o == o'
  {
    BeatsIsTotal(score, feed, o, o');
  }

  function Members(s: seq<Id>): set<Id> { set m | m in s }

  /** Owner: the loop keeps the best member seen so far, whatever the order and the duplicates. */
  method Owner(score: Score, feed: Url, members: seq<Id>) returns (best: Id, found: bool)
    ensures found <==> members != []
    ensures found ==> IsOwner(score, feed, Members(members), best)
    ensures !found ==> best == ""
  {
    best, found := "", false;
    var bestScore := 0;
    for i := 0 to |members|
      invariant found <==> i > 0
      invariant !found ==> best == ""
      invariant found ==> bestScore == score(best, feed) && IsOwner(score, feed, Members(members[..i]), best)
    {
      var m := members[i];
      var s := score(m, feed);
      assert Members(members[..i + 1]) == Members(members[..i]) + {m};
      if !found || s > bestScore || (s == bestScore && Less(best, m)) {
        if found { TakesOver(score, feed, Members(members[..i]), best, m); }
        best, bestScore, found := m, s, true;
      } else {
        BeatsIsTotal(score, feed, best, m);
      }
    }
    assert members[..|members|] == members;
  }

  lemma TakesOver(score: Score, feed: Url, members: set<Id>, o: Id, m: Id)
    requires IsOwner(score, feed, members, o) && Beats(score, feed, m, o)
    ensures IsOwner(score, feed, members + {m}, m)
  {
    forall x | x in members + {m} && x != m ensures Beats(score, feed, m, x) {
      if x != o { BeatsIsTransitive(score, feed, m, o, x); }
    }
  }

  lemma {:induction false} OwnerExists(score: Score, feed: Url, members: set<Id>)
    requires members != {}
    ensures exists o :: IsOwner(score, feed, members, o)
    decreases members
  {
    var m :| m in members;
    if members == {m} {
      assert IsOwner(score, feed, members, m);
    } else {
      OwnerExists(score, feed, members - {m});
      var o :| IsOwner(score, feed, members - {m}, o);
      BeatsIsTotal(score, feed, o, m);
      assert members == members - {m} + {m};
      if Beats(score, feed, m, o) {
        TakesOver(score, feed, members - {m}, o, m);
      } else {
        assert IsOwner(score, feed, members, o);
      }
    }
  }

  /** The owner as a function of the set of members alone. */
  ghost function OwnerOf(score: Score, feed: Url, members: set<Id>): (o: Id)
    requires members != {}
    ensures IsOwner(score, feed, members, o)
  {
    OwnerExists(score, feed, members);
    var o :| IsOwner(score, feed, members, o);
    o
  }

  // ----- minimal churn ---------------------------------------------------------------------

  /** Removing a member changes only the feeds it owned. */
  lemma RemovalMovesOnlyItsFeeds(score: Score, feed: Url, members: set<Id>, gone: Id)
    requires members - {gone} != {}
    ensures OwnerOf(score, feed, members) != gone ==>
              OwnerOf(score, feed, members - {gone}) == OwnerOf(score, feed, members)
  {
    var o := OwnerOf(score, feed, members);
    if o != gone {
      OwnerIsUnique(score, feed, members - {gone}, o, OwnerOf(score, feed, members - {gone}));
    }
  }

  /** Adding a member moves a feed to the newcomer or nowhere. */
  lemma AdditionMovesOnlyToNewcomer(score: Score, feed: Url, members: set<Id>, joined: Id)
    requires members != {}
    ensures var o := OwnerOf(score, feed, members + {joined});
            o == joined || o == OwnerOf(score, feed, members)
  {
    var o := OwnerOf(score, feed, members + {joined});
    if o != joined {
      OwnerIsUnique(score, feed, members, o, OwnerOf(score, feed, members));
    }
  }

  // ----- the feeds of one member --------------------------------------------------------------

  ghost predicate Owns(score: Score, self: Id, feed: Url, members: set<Id>) {
    self in members && self == OwnerOf(score, feed, members)
  }

  /** The feeds self owns, in the order given. */
  ghost function OwnedFeeds(score: Score, self: Id, feeds: seq<Url>, members: set<Id>): seq<Url> {
    if feeds == [] then []
    else OwnedFeeds(score, self, feeds[..|feeds| - 1], members)
         + if Owns(score, self, feeds[|feeds| - 1], members) then [feeds[|feeds| - 1]] else []
  }

  lemma {:induction false} OwnedFeedsAre(score: Score, self: Id, feeds: seq<Url>, members: set<Id>, f: Url)
    ensures f in OwnedFeeds(score, self, feeds, members) <==> f in feeds && Owns(score, self, f, members)
  {
    if feeds != [] {
      OwnedFeedsAre(score, self, feeds[..|feeds| - 1], members, f);
      assert feeds == feeds[..|feeds| - 1] + [feeds[|feeds| - 1]];
    }
  }

  /** The positions in order of the feeds self owns, and no others. */
  ghost predicate OwnedAt(score: Score, self: Id, feeds: seq<Url>, members: set<Id>, pos: seq<nat>, owned: seq<Url>) {
    && |pos| == |owned|
    && (forall k | 0 <= k < |pos| :: pos[k] < |feeds| && owned[k] == feeds[pos[k]])
    && (forall k, l | 0 <= k < l < |pos| :: pos[k] < pos[l])
    && (forall i | 0 <= i < |feeds| :: Owns(score, self, feeds[i], members) <==> i in pos)
  }

  /** The order and the repetitions of the list are kept. */
  lemma {:induction false} OwnedInOrder(score: Score, self: Id, feeds: seq<Url>, members: set<Id>)
    returns (pos: seq<nat>)
    ensures OwnedAt(score, self, feeds, members, pos, OwnedFeeds(score, self, feeds, members))
  {
    if feeds == [] {
      pos := [];
    } else {
      var n := |feeds| - 1;
      var front := OwnedInOrder(score, self, feeds[..n], members);
      pos := front + if Owns(score, self, feeds[n], members) then [n] else [];
      assert n !in front;
      forall i | 0 <= i < |feeds| ensures Owns(score, self, feeds[i], members) <==> i in pos {
        if i < n { assert feeds[..n][i] == feeds[i]; }
      }
    }
  }

  lemma {:induction false} OwnedFeedsOfStranger(score: Score, self: Id, feeds: seq<Url>, members: set<Id>)
    requires self !in members
    ensures OwnedFeeds(score, self, feeds, members) == []
  {
    if feeds != [] { OwnedFeedsOfStranger(score, self, feeds[..|feeds| - 1], members); }
  }

  method Owned(score: Score, self: Id, feeds: seq<Url>, members: seq<Id>) returns (owned: seq<Url>)
    ensures owned == OwnedFeeds(score, self, feeds, Members(members))
  {
    var inSet := false;
    var j := 0;
    while j < |members| && !inSet
      invariant 0 <= j <= |members|
      invariant inSet <==> self in members[..j]
    {
      inSet := members[j] == self;
      j := j + 1;
    }
    owned := [];
    if !inSet {
      OwnedFeedsOfStranger(score, self, feeds, Members(members));
      return;
    }
    for i := 0 to |feeds|
      invariant owned == OwnedFeeds(score, self, feeds[..i], Members(members))
    {
      assert feeds[..i + 1][..i] == feeds[..i];
      var o, ok := Owner(score, feeds[i], members);
      assert ok;
      OwnerIsUnique(score, feeds[i], Members(members), o, OwnerOf(score, feeds[i], Members(members)));
      if ok && o == self {
        owned := owned + [feeds[i]];
      }
    }
    assert feeds[..|feeds|] == feeds;
  }

  /** Every feed has exactly one owner among the members. */
  lemma OwnedFeedsPartition(score: Score, feeds: seq<Url>, members: set<Id>, f: Url)
    requires members != {} && f in feeds
    ensures exists m :: m in members && f in OwnedFeeds(score, m, feeds, members)
    ensures forall m, n | f in OwnedFeeds(score, m, feeds, members) && f in OwnedFeeds(score, n, feeds, members) ::
              m == n
  {
    var o := OwnerOf(score, f, members);
    forall m ensures f in OwnedFeeds(score, m, feeds, members) <==> m == o {
      OwnedFeedsAre(score, m, feeds, members, f);
    }
    assert o in members && f in OwnedFeeds(score, o, feeds, members);
  }
}
