/**
 Merging the feed lists of several sources: earlier sources win a URL, and a source that errors keeps
 contributing its last successful list. The one-shot Snapshot merges the same way but fails on the
 first error.
 */
module FeedSource {
  import opened Feeds

  /** What one source answers to one call. */
  datatype Reply = Feeds(list: seq<Feed>) | Error

  // ----- the merge --------------------------------------------------------------------------------

  predicate Has(feeds: seq<Feed>, url: string) { exists i :: 0 <= i < |feeds| && feeds[i].url == url }

  /** Every feed that is the first with its URL. */
  function FirstWins(all: seq<Feed>): seq<Feed> {
    if all == [] then []
    else FirstWins(all[..|all| - 1]) + if Has(all[..|all| - 1], all[|all| - 1].url) then [] else [all[|all| - 1]]
  }

  ghost predicate FirstOfItsUrl(all: seq<Feed>, i: nat)
    requires i < |all|
  {
    forall j | 0 <= j < i :: all[j].url != all[i].url
  }

  lemma LastIsFirst(all: seq<Feed>)
    requires all != []
    ensures FirstOfItsUrl(all, |all| - 1) <==> !Has(all[..|all| - 1], all[|all| - 1].url)
  {
  }

  /** The positions, in order, whose feed is the first with its URL, and nothing else. */
  ghost predicate Firsts(all: seq<Feed>, pos: seq<nat>) {
    && (forall k | 0 <= k < |pos| :: pos[k] < |all| && FirstOfItsUrl(all, pos[k]))
    && (forall k, l | 0 <= k < l < |pos| :: pos[k] < pos[l])
    && (forall i | 0 <= i < |all| && FirstOfItsUrl(all, i) :: i in pos)
  }

  lemma FirstsGrow(all: seq<Feed>, front: seq<nat>)
    requires all != [] && Firsts(all[..|all| - 1], front)
    ensures Firsts(all, front + if FirstOfItsUrl(all, |all| - 1) then [|all| - 1] else [])
  {
  }

  /** The merge keeps exactly the first feed of every URL, in order of appearance. */
  lemma {:induction false} FirstWinsKeepsFirsts(all: seq<Feed>) returns (pos: seq<nat>)
    ensures Firsts(all, pos) && |pos| == |FirstWins(all)|
    ensures forall k | 0 <= k < |pos| :: FirstWins(all)[k] == all[pos[k]]
  {
    if all == [] {
      pos := [];
    } else {
      var n := |all| - 1;
      var front := FirstWinsKeepsFirsts(all[..n]);
      LastIsFirst(all);
      FirstsGrow(all, front);
      pos := front + if FirstOfItsUrl(all, n) then [n] else [];
      assert forall k | 0 <= k < |front| :: all[..n][front[k]] == all[front[k]];
    }
  }

  /** So no URL appears twice, and every URL listed appears. */
  lemma MergeIsUrlUnique(all: seq<Feed>)
    ensures forall i, j | 0 <= i < j < |FirstWins(all)| :: FirstWins(all)[i].url != FirstWins(all)[j].url
    ensures forall f | f in all :: Has(FirstWins(all), f.url)
  {
    var pos := FirstWinsKeepsFirsts(all);
    forall f | f in all ensures Has(FirstWins(all), f.url) {
      var k :| 0 <= k < |all| && all[k] == f;
      var i := FirstIndex(all, k);
      assert i in pos;
      var p :| 0 <= p < |pos| && pos[p] == i;
      assert FirstWins(all)[p].url == f.url;
    }
  }

  lemma {:induction false} FirstIndex(all: seq<Feed>, k: nat) returns (i: nat)
    requires k < |all|
    ensures i <= k && all[i].url == all[k].url && FirstOfItsUrl(all, i)
  {
    if FirstOfItsUrl(all, k) {
      i := k;
    } else {
      var j :| 0 <= j < k && all[j].url == all[k].url;
      i := FirstIndex(all, j);
    }
  }

  // ----- one Desired call ---------------------------------------------------------------------------

  type Good = map<string, seq<Feed>>

  function Lookup(good: Good, name: string): seq<Feed> { if name in good then good[name] else [] }

  /** lastGood after the first i sources have been handled. */
  function GoodAfter(names: seq<string>, replies: seq<Reply>, good: Good, i: nat): Good
    requires i <= |names| == |replies|
  {
    if i == 0 then good
    else match replies[i - 1]
         case Feeds(l) => GoodAfter(names, replies, good, i - 1)[names[i - 1] := l]
         case Error => GoodAfter(names, replies, good, i - 1)
  }

  /** What source i contributes. */
  function Contribution(names: seq<string>, replies: seq<Reply>, good: Good, i: nat): seq<Feed>
    requires i < |names| == |replies|
  {
    match replies[i]
    case Feeds(l) => l
    case Error => Lookup(GoodAfter(names, replies, good, i), names[i])
  }

  /** The contributions of the first i sources, one after the other. */
  function Combined(names: seq<string>, replies: seq<Reply>, good: Good, i: nat): seq<Feed>
    requires i <= |names| == |replies|
  {
    if i == 0 then [] else Combined(names, replies, good, i - 1) + Contribution(names, replies, good, i - 1)
  }

  function UrlsOf(feeds: seq<Feed>): set<string> { set f | f in feeds :: f.url }

  /** The merge of `all` so far. */
  ghost predicate Merges(all: seq<Feed>, seen: set<string>, merged: seq<Feed>) {
    merged == FirstWins(all) && seen == UrlsOf(all)
  }

  /** Append the feeds of one list whose URL has not been seen. */
  method MergeList(ghost all: seq<Feed>, feeds: seq<Feed>, seen: set<string>, merged: seq<Feed>)
    returns (seen': set<string>, merged': seq<Feed>)
    requires Merges(all, seen, merged)
    ensures Merges(all + feeds, seen', merged')
  {
    seen', merged' := seen, merged;
    assert all + [] == all;
    for k := 0 to |feeds|
      invariant Merges(all + feeds[..k], seen', merged')
    {
      var fc := feeds[k];
      MergeOne(all, feeds, k);
      if fc.url in seen' {
        continue;
      }
      seen' := seen' + {fc.url};
      merged' := merged' + [fc];
    }
    assert feeds[..|feeds|] == feeds;
  }

  lemma AppendOne(all: seq<Feed>, fc: Feed)
    ensures FirstWins(all + [fc]) == FirstWins(all) + if fc.url in UrlsOf(all) then [] else [fc]
    ensures UrlsOf(all + [fc]) == UrlsOf(all) + {fc.url}
  {
    var longer := all + [fc];
    assert longer[..|longer| - 1] == all && longer[|longer| - 1] == fc;
    assert forall f :: f in longer <==> f in all || f == fc;
    assert Has(all, fc.url) <==> fc.url in UrlsOf(all);
  }

  lemma MergeOne(all: seq<Feed>, feeds: seq<Feed>, k: nat)
    requires k < |feeds|
    ensures FirstWins(all + feeds[..k + 1]) ==
            FirstWins(all + feeds[..k]) + if feeds[k].url in UrlsOf(all + feeds[..k]) then [] else [feeds[k]]
    ensures UrlsOf(all + feeds[..k + 1]) == UrlsOf(all + feeds[..k]) + {feeds[k].url}
  {
    assert all + feeds[..k + 1] == all + feeds[..k] + [feeds[k]];
    AppendOne(all + feeds[..k], feeds[k]);
  }

  class Aggregator {
    const names: seq<string>
    var lastGood: Good
    var pending: bool     // the capacity-one `out` channel
    ghost var history: seq<seq<Reply>>

    ghost predicate Valid() reads this {
      Calls(names, history) && lastGood == Remembered(names, history)
    }

    constructor (names: seq<string>)
      ensures Valid() && this.names == names && history == [] && !pending
    {
      this.names := names;
      lastGood, pending, history := map[], false, [];
    }

    method Trigger()
      modifies this`pending
      ensures pending
    {
      if !pending { pending := true; }
    }

    /** `replies` are the answers of the concurrent fetches, in source order. */
    method Desired(replies: seq<Reply>) returns (merged: seq<Feed>)
      requires Valid() && |replies| == |names|
      modifies this`lastGood, this`history
      ensures Valid() && history == old(history) + [replies]
      ensures merged == FirstWins(Combined(names, replies, old(lastGood), |names|))
      ensures UniquelyNamed(names) ==> merged == FirstWins(Flat(names, history, |names|))
    {
      merged := MergeReplies(replies);
      ghost var longer := history + [replies];
      assert longer[..|longer| - 1] == history && longer[|longer| - 1] == replies;
      if UniquelyNamed(names) { LastKnownGood(names, longer); }
      history := longer;
    }

    method MergeReplies(replies: seq<Reply>) returns (merged: seq<Feed>)
      requires |replies| == |names|
      modifies this`lastGood
      ensures merged == FirstWins(Combined(names, replies, old(lastGood), |names|))
      ensures lastGood == GoodAfter(names, replies, old(lastGood), |names|)
    {
      var seen: set<string> := {};
      merged := [];
      for i := 0 to |names|
        invariant lastGood == GoodAfter(names, replies, old(lastGood), i)
        invariant Merges(Combined(names, replies, old(lastGood), i), seen, merged)
      {
        var feeds;
        if replies[i].Error? {
          feeds := if names[i] in lastGood then lastGood[names[i]] else [];
        } else {
          feeds := replies[i].list;
          lastGood := lastGood[names[i] := feeds];
        }
        seen, merged := MergeList(Combined(names, replies, old(lastGood), i), feeds, seen, merged);
      }
    }
  }

  // ----- histories ---------------------------------------------------------------------------------

  ghost predicate UniquelyNamed(names: seq<string>) {
    forall i, j | 0 <= i < j < |names| :: names[i] != names[j]
  }

  /** A history of Desired calls: the replies of every source, call by call. */
  ghost predicate Calls(names: seq<string>, history: seq<seq<Reply>>) {
    forall c | c in history :: |c| == |names|
  }

  ghost function Remembered(names: seq<string>, history: seq<seq<Reply>>): Good
    requires Calls(names, history)
  {
    if history == [] then map[]
    else
      assert history[|history| - 1] in history;
      GoodAfter(names, history[|history| - 1], Remembered(names, history[..|history| - 1]), |names|)
  }

  /** The most recent successful list of source i; empty if it never succeeded. */
  ghost function MostRecent(names: seq<string>, history: seq<seq<Reply>>, i: nat): seq<Feed>
    requires Calls(names, history) && i < |names|
  {
    if history == [] then []
    else
      assert history[|history| - 1] in history;
      match history[|history| - 1][i]
      case Feeds(l) => l
      case Error => MostRecent(names, history[..|history| - 1], i)
  }

  /** The most recent success: nothing but errors came after it. */
  lemma {:induction false} MostRecentIs(names: seq<string>, history: seq<seq<Reply>>, i: nat, k: nat)
    requires Calls(names, history) && i < |names| && k < |history|
    requires forall j | k <= j < |history| :: |history[j]| == |names|
    requires history[k][i].Feeds? && forall j | k < j < |history| :: history[j][i].Error?
    ensures MostRecent(names, history, i) == history[k][i].list
    decreases |history|
  {
    if k < |history| - 1 { MostRecentIs(names, history[..|history| - 1], i, k); }
  }

  lemma {:induction false} GoodAfterIs(names: seq<string>, replies: seq<Reply>, good: Good, k: nat, i: nat)
    requires UniquelyNamed(names) && k <= |names| == |replies| && i < |names|
    ensures Lookup(GoodAfter(names, replies, good, k), names[i]) ==
            if i < k && replies[i].Feeds? then replies[i].list else Lookup(good, names[i])
  {
    if k > 0 { GoodAfterIs(names, replies, good, k - 1, i); }
  }

  lemma {:induction false} RememberedIsMostRecent(names: seq<string>, history: seq<seq<Reply>>, i: nat)
    requires UniquelyNamed(names) && Calls(names, history) && i < |names|
    ensures Lookup(Remembered(names, history), names[i]) == MostRecent(names, history, i)
    decreases |history|
  {
    if history != [] {
      var front, last := history[..|history| - 1], history[|history| - 1];
      assert last in history;
      RememberedIsMostRecent(names, front, i);
      GoodAfterIs(names, last, Remembered(names, front), |names|, i);
    }
  }

  ghost function Flat(names: seq<string>, history: seq<seq<Reply>>, i: nat): seq<Feed>
    requires Calls(names, history) && i <= |names|
  {
    if i == 0 then [] else Flat(names, history, i - 1) + MostRecent(names, history, i - 1)
  }

  lemma {:induction false} CombinedIsFlat(names: seq<string>, history: seq<seq<Reply>>, i: nat)
    requires UniquelyNamed(names) && Calls(names, history) && history != [] && i <= |names|
    requires |history[|history| - 1]| == |names|
    ensures Combined(names, history[|history| - 1], Remembered(names, history[..|history| - 1]), i)
            == Flat(names, history, i)
  {
    if i > 0 {
      var front, last := history[..|history| - 1], history[|history| - 1];
      CombinedIsFlat(names, history, i - 1);
      RememberedIsMostRecent(names, front, i - 1);
      var good := Remembered(names, front);
      GoodAfterIs(names, last, good, i - 1, i - 1);
      assert Contribution(names, last, good, i - 1) == MostRecent(names, history, i - 1);
    }
  }

  /** What Desired answers at the end of a history. */
  ghost function Answer(names: seq<string>, history: seq<seq<Reply>>): seq<Feed>
    requires Calls(names, history) && history != []
  {
    assert history[|history| - 1] in history;
    FirstWins(Combined(names, history[|history| - 1], Remembered(names, history[..|history| - 1]), |names|))
  }

  /** The answer is the first-wins merge of every source's most recent success. */
  ghost predicate IsLastKnownGood(names: seq<string>, history: seq<seq<Reply>>)
    requires Calls(names, history) && history != []
  {
    Answer(names, history) == FirstWins(Flat(names, history, |names|))
  }

  /** Uniquely named sources answer so after any history. */
  lemma LastKnownGood(names: seq<string>, history: seq<seq<Reply>>)
    requires UniquelyNamed(names) && Calls(names, history) && history != []
    ensures IsLastKnownGood(names, history)
  {
    assert history[|history| - 1] in history;
    CombinedIsFlat(names, history, |names|);
  }

  lemma {:induction false} FlatSplits(names: seq<string>, history: seq<seq<Reply>>, i: nat, k: nat)
    returns (rest: seq<Feed>)
    requires Calls(names, history) && i < k <= |names|
    ensures Flat(names, history, k) == Flat(names, history, i) + MostRecent(names, history, i) + rest
  {
    if k == i + 1 {
      rest := [];
    } else {
      var shorter := FlatSplits(names, history, i, k - 1);
      rest := shorter + MostRecent(names, history, k - 1);
      Regroups(Flat(names, history, i) + MostRecent(names, history, i), shorter, MostRecent(names, history, k - 1));
    }
  }

  lemma Regroups(a: seq<Feed>, b: seq<Feed>, c: seq<Feed>)
    ensures a + b + c == a + (b + c)
  {
  }

  lemma FirstBehind(a: seq<Feed>, b: seq<Feed>, at: nat)
    requires at < |b| && FirstOfItsUrl(b, at) && !Has(a, b[at].url)
    ensures (a + b)[|a| + at] == b[at] && FirstOfItsUrl(a + b, |a| + at)
  {
    forall j | 0 <= j < |a| + at ensures (a + b)[j].url != b[at].url {
      if j < |a| { assert (a + b)[j] == a[j] && a[j] in a; } else { assert (a + b)[j] == b[j - |a|]; }
    }
  }

  lemma FirstAhead(a: seq<Feed>, b: seq<Feed>, at: nat)
    requires at < |a| && FirstOfItsUrl(a, at)
    ensures (a + b)[at] == a[at] && FirstOfItsUrl(a + b, at)
  {
    assert forall j | 0 <= j < |a| :: (a + b)[j] == a[j];
  }

  lemma {:induction false} NoneBefore(names: seq<string>, history: seq<seq<Reply>>, i: nat, url: string)
    requires Calls(names, history) && i <= |names|
    requires forall j | 0 <= j < i :: !Has(MostRecent(names, history, j), url)
    ensures !Has(Flat(names, history, i), url)
  {
    if i > 0 { NoneBefore(names, history, i - 1, url); }
  }

  /** Earlier sources win: the answer has the entry of the first source whose remembered list has the URL. */
  lemma EarlierSourceWins(names: seq<string>, history: seq<seq<Reply>>, i: nat, at: nat)
    requires UniquelyNamed(names) && Calls(names, history) && history != [] && i < |names|
    requires at < |MostRecent(names, history, i)| && FirstOfItsUrl(MostRecent(names, history, i), at)
    requires forall j | 0 <= j < i :: !Has(MostRecent(names, history, j), MostRecent(names, history, i)[at].url)
    ensures MostRecent(names, history, i)[at] in Answer(names, history)
  {
    LastKnownGood(names, history);
    var all, before, list := Flat(names, history, |names|), Flat(names, history, i), MostRecent(names, history, i);
    var rest := FlatSplits(names, history, i, |names|);
    NoneBefore(names, history, i, list[at].url);
    var pos := |before| + at;
    FirstBehind(before, list, at);
    FirstAhead(before + list, rest, pos);
    var firsts := FirstWinsKeepsFirsts(all);
    var k :| 0 <= k < |firsts| && firsts[k] == pos;
    assert FirstWins(all)[k] == all[pos];
  }

  // ----- shared names ------------------------------------------------------------------------------

  /** Source i answers r, all others an empty list. */
  ghost predicate Alone(replies: seq<Reply>, n: nat, i: nat, r: Reply) {
    && |replies| == n
    && forall k | 0 <= k < n :: replies[k] == if k == i then r else Feeds([])
  }

  /** Once a later source of the same name has answered an empty list, the memory of f is gone. */
  lemma {:induction false} Overwritten(names: seq<string>, replies: seq<Reply>, f: Feed, i: nat, j: nat, k: nat)
    requires i < j < k <= |names| && names[i] == names[j] && Alone(replies, |names|, i, Feeds([f]))
    ensures Lookup(GoodAfter(names, replies, map[], k), names[i]) == []
  {
    if k > j + 1 { Overwritten(names, replies, f, i, j, k - 1); }
  }

  lemma {:induction false} StillNothing(names: seq<string>, replies: seq<Reply>, good: Good, i: nat, k: nat)
    requires i < |names| && k <= |names| && Lookup(good, names[i]) == [] && Alone(replies, |names|, i, Error)
    ensures Lookup(GoodAfter(names, replies, good, k), names[i]) == []
  {
    if k > 0 { StillNothing(names, replies, good, i, k - 1); }
  }

  lemma NothingContributed(names: seq<string>, replies: seq<Reply>, good: Good, i: nat, k: nat)
    requires i < |names| && k < |names| && Lookup(good, names[i]) == [] && Alone(replies, |names|, i, Error)
    ensures |Contribution(names, replies, good, k)| == 0
  {
    if k == i { StillNothing(names, replies, good, i, i); }
  }

  lemma {:induction false} EmptyParts(names: seq<string>, replies: seq<Reply>, good: Good, k: nat)
    requires k <= |names| == |replies| && forall j | 0 <= j < k :: |Contribution(names, replies, good, j)| == 0
    ensures |Combined(names, replies, good, k)| == 0
  {
    if k > 0 { EmptyParts(names, replies, good, k - 1); }
  }

  /** When source i then fails, nobody contributes anything. */
  lemma NothingCombined(names: seq<string>, replies: seq<Reply>, good: Good, i: nat)
    requires i < |names| && Lookup(good, names[i]) == [] && Alone(replies, |names|, i, Error)
    ensures |Combined(names, replies, good, |names|)| == 0
  {
    forall j | 0 <= j < |names| ensures |Contribution(names, replies, good, j)| == 0 {
      NothingContributed(names, replies, good, i, j);
    }
    EmptyParts(names, replies, good, |names|);
  }

  lemma {:induction false} FlatHas(names: seq<string>, history: seq<seq<Reply>>, i: nat, k: nat, f: Feed)
    requires Calls(names, history) && i < k <= |names| && f in MostRecent(names, history, i)
    ensures f in Flat(names, history, k)
  {
    if k > i + 1 { FlatHas(names, history, i, k - 1, f); }
  }

  /** A source that listed f and then failed, behind a later source of the same name: f is forgotten. */
  lemma SharedNameForgets(names: seq<string>, i: nat, j: nat, f: Feed) returns (history: seq<seq<Reply>>)
    requires i < j < |names| && names[i] == names[j]
    ensures Calls(names, history) && history != [] && !IsLastKnownGood(names, history)
  {
    var first := seq(|names|, k => if k == i then Feeds([f]) else Feeds([]));
    var second := seq(|names|, k => if k == i then Error else Feeds([]));
    history := [first, second];
    assert history[..|history| - 1] == [first] && [first][..|[first]| - 1] == [];
    assert Remembered(names, []) == map[] && Remembered(names, [first]) == GoodAfter(names, first, map[], |names|);
    Overwritten(names, first, f, i, j, |names|);
    NothingCombined(names, second, Remembered(names, [first]), i);
    assert Answer(names, history) == [];
    assert MostRecent(names, [first], i) == [f] && MostRecent(names, history, i) == [f];
    FlatHas(names, history, i, |names|, f);
    MergeIsUrlUnique(Flat(names, history, |names|));
  }

  /** Exactly unique names make every history answer the last-known-good merge. */
  lemma LastKnownGoodIff(names: seq<string>)
    ensures UniquelyNamed(names) <==>
              forall history | Calls(names, history) && history != [] :: IsLastKnownGood(names, history)
  {
    if UniquelyNamed(names) {
      forall history | Calls(names, history) && history != [] ensures IsLastKnownGood(names, history) {
        LastKnownGood(names, history);
      }
    } else {
      var i, j :| 0 <= i < j < |names| && names[i] == names[j];
      var history := SharedNameForgets(names, i, j, Feed("", 0, 0));
    }
  }

  // ----- Snapshot ----------------------------------------------------------------------------------

  ghost predicate AllOk(replies: seq<Reply>) { forall i | 0 <= i < |replies| :: replies[i].Feeds? }

  lemma CombinedGrows(names: seq<string>, replies: seq<Reply>, good: Good, i: nat)
    requires i < |names| == |replies| && replies[i].Feeds?
    ensures Combined(names, replies, good, i + 1) == Combined(names, replies, good, i) + replies[i].list
  {
  }

  /** The one-shot merge: any error aborts it; otherwise it is what Desired would answer, whatever it remembers. */
  method Snapshot(names: seq<string>, replies: seq<Reply>) returns (r: Option<seq<Feed>>)
    requires |names| == |replies|
    ensures r.Some? <==> AllOk(replies)
    ensures r.Some? ==> r.value == FirstWins(Combined(names, replies, map[], |names|))
  {
    var seen: set<string> := {};
    var merged: seq<Feed> := [];
    ghost var all: seq<Feed> := [];
    for i := 0 to |replies|
      invariant forall j | 0 <= j < i :: replies[j].Feeds?
      invariant all == Combined(names, replies, map[], i)
      invariant Merges(all, seen, merged)
    {
      if replies[i].Error? {
        return None;
      }
      CombinedGrows(names, replies, map[], i);
      seen, merged := MergeList(all, replies[i].list, seen, merged);
      all := all + replies[i].list;
    }
    return Some(merged);
  }

  lemma {:induction false} SuccessForgets(names: seq<string>, replies: seq<Reply>, good: Good, i: nat)
    requires i <= |names| == |replies| && AllOk(replies)
    ensures Combined(names, replies, good, i) == Combined(names, replies, map[], i)
  {
    if i > 0 {
      SuccessForgets(names, replies, good, i - 1);
    }
  }
}
