/**
 The heartbeat-driven provider that narrows the feed list to the feeds this instance owns. A
 heartbeat compares the joined, sorted member list with the last one and raises a capacity-one
 signal when it differs; the reconcile loop takes the signal and reads the member list afresh.
 */
module OwnerProvider {
  import opened Feeds
  import opened Assign
  import Sorting

  // ----- the key a heartbeat compares ------------------------------------------------------

  function Join(ids: seq<Id>): string {
    if ids == [] then ""
    else if |ids| == 1 then ids[0]
    else ids[0] + "," + Join(ids[1..])
  }

  /** IDs that the joined key keeps apart. */
  predicate WellNamed(ids: seq<Id>) {
    forall i | 0 <= i < |ids| :: ids[i] != "" && ',' !in ids[i]
  }

  lemma WordReaches(x: string, u: string, y: string, v: string)
    requires ',' !in y && x + u == y + v && (u == "" || u[0] == ',')
    ensures |x| >= |y|
  {
    var w := x + u;
    assert forall k | 0 <= k < |y| :: w[k] == y[k] && w[k] in y;
    if |x| < |w| { assert w[|x|] == u[0]; }
  }

  /** A comma-free word is told apart from what follows its first comma. */
  lemma FirstWord(x: string, u: string, y: string, v: string)
    requires ',' !in x && ',' !in y && x + u == y + v
    requires (u == "" || u[0] == ',') && (v == "" || v[0] == ',')
    ensures x == y && u == v
  {
    WordReaches(x, u, y, v);
    WordReaches(y, v, x, u);
    assert (x + u)[..|x|] == x && (y + v)[..|y|] == y;
    assert (x + u)[|x|..] == u && (y + v)[|y|..] == v;
  }

  function Tail(ids: seq<Id>): string
    requires ids != []
  {
    if |ids| == 1 then "" else "," + Join(ids[1..])
  }

  lemma JoinSplits(ids: seq<Id>)
    requires ids != []
    ensures Join(ids) == ids[0] + Tail(ids)
  {
  }

  /** The IDs in order, a comma between any two. */
  lemma {:induction false} JoinAppends(ids: seq<Id>, id: Id)
    ensures Join(ids + [id]) == if ids == [] then id else Join(ids) + "," + id
  {
    if ids != [] {
      var tail := ids[1..];
      JoinAppends(tail, id);
      assert (ids + [id])[1..] == tail + [id];
      if tail != [] {
        assert Join(ids + [id]) == ids[0] + "," + (Join(tail) + "," + id);
      }
    }
  }

  lemma JoinIsEmpty(ids: seq<Id>)
    requires WellNamed(ids)
    ensures Join(ids) == "" <==> ids == []
  {
    if ids != [] {
      JoinSplits(ids);
      assert |Join(ids)| >= |ids[0]| > 0;
    }
  }

  lemma SameTails(a: seq<Id>, b: seq<Id>)
    requires a != [] && b != [] && Tail(a) == Tail(b)
    ensures |a| == 1 <==> |b| == 1
    ensures |a| > 1 ==> Join(a[1..]) == Join(b[1..])
  {
    if |a| > 1 { assert Tail(a)[1..] == Join(a[1..]); }
    if |b| > 1 { assert Tail(b)[1..] == Join(b[1..]); }
  }

  /** Well-named lists have different keys exactly when they differ. */
  lemma {:induction false} JoinIsInjective(a: seq<Id>, b: seq<Id>)
    requires WellNamed(a) && WellNamed(b) && Join(a) == Join(b)
    ensures a == b
  {
    JoinIsEmpty(a);
    JoinIsEmpty(b);
    if a != [] {
      JoinSplits(a);
      JoinSplits(b);
      FirstWord(a[0], Tail(a), b[0], Tail(b));
      SameTails(a, b);
      if |a| > 1 { JoinIsInjective(a[1..], b[1..]); }
      assert a == [a[0]] + a[1..] && b == [b[0]] + b[1..];
    }
  }

  // ----- sort.Strings -----------------------------------------------------------------------

  predicate After(x: Id, y: Id) { Less(y, x) }

  ghost predicate Ascending(s: seq<Id>) { Sorting.Ordered(After, s) }

  function Sort(s: seq<Id>): (r: seq<Id>)
    ensures multiset(r) == multiset(s)
  {
    Sorting.Sort(After, s)
  }

  lemma SortAscends(s: seq<Id>)
    ensures Ascending(Sort(s))
  {
    forall x, y ensures After(x, y) ==> !After(y, x) { LessIsTotal(x, y); }
    forall x, y, z | !After(x, y) && !After(y, z) ensures !After(x, z) {
      LessIsTotal(x, y);
      LessIsTotal(y, z);
      LessIsTotal(x, z);
      if Less(z, x) && Less(x, y) { LessIsTransitive(z, x, y); }
    }
    Sorting.SortOrders(After, s);
  }

  /** sort.Strings: no ID stands before a smaller one. */
  lemma SmallestFirst(s: seq<Id>, i: nat, j: nat)
    requires i < j < |Sort(s)|
    ensures !Less(Sort(s)[j], Sort(s)[i])
  {
    SortAscends(s);
    assert !After(Sort(s)[i], Sort(s)[j]);
  }

  lemma MultisetTail(s: seq<Id>)
    requires s != []
    ensures multiset(s[1..]) == multiset(s) - multiset{s[0]}
  {
    assert s == [s[0]] + s[1..];
  }

  lemma TailAscends(s: seq<Id>)
    requires Ascending(s) && s != []
    ensures Ascending(s[1..])
  {
  }

  lemma FirstIsLeast(s: seq<Id>, x: Id)
    requires Ascending(s) && x in multiset(s)
    ensures s != [] && !Less(x, s[0])
  {
    assert x in s;
    LessIsTotal(s[0], s[0]);
  }

  lemma {:induction false} AscendingIsCanonical(a: seq<Id>, b: seq<Id>)
    requires Ascending(a) && Ascending(b) && multiset(a) == multiset(b)
    ensures a == b
  {
    if a == [] {
      assert |multiset(b)| == 0;
    } else {
      assert a[0] in multiset(a);
      FirstIsLeast(b, a[0]);
      assert b[0] in multiset(b);
      FirstIsLeast(a, b[0]);
      LessIsTotal(a[0], b[0]);
      MultisetTail(a);
      MultisetTail(b);
      TailAscends(a);
      TailAscends(b);
      AscendingIsCanonical(a[1..], b[1..]);
      assert a == [a[0]] + a[1..] && b == [b[0]] + b[1..];
    }
  }

  /** A heartbeat that reports the same members in another order computes the same key. */
  lemma KeyIgnoresOrder(a: seq<Id>, b: seq<Id>)
    requires multiset(a) == multiset(b)
    ensures Sort(a) == Sort(b) && Join(Sort(a)) == Join(Sort(b))
  {
    SortAscends(a);
    SortAscends(b);
    AscendingIsCanonical(Sort(a), Sort(b));
  }

  lemma SortKeepsNames(ids: seq<Id>)
    requires WellNamed(ids)
    ensures WellNamed(Sort(ids))
  {
    var r := Sort(ids);
    forall i | 0 <= i < |r| ensures r[i] != "" && ',' !in r[i] {
      assert r[i] in multiset(ids);
    }
  }

  // ----- the provider object ------------------------------------------------------------------

  /** The feeds of `all` this member owns, in order. */
  ghost function OwnedConfigs(score: Score, self: Id, all: seq<Feed>, members: set<Id>): seq<Feed> {
    if all == [] then []
    else OwnedConfigs(score, self, all[..|all| - 1], members)
         + if Owns(score, self, all[|all| - 1].url, members) then [all[|all| - 1]] else []
  }

  lemma {:induction false} OwnedConfigsAre(score: Score, self: Id, all: seq<Feed>, members: set<Id>, f: Feed)
    ensures f in OwnedConfigs(score, self, all, members) <==> f in all && Owns(score, self, f.url, members)
  {
    if all != [] {
      OwnedConfigsAre(score, self, all[..|all| - 1], members, f);
      assert all == all[..|all| - 1] + [all[|all| - 1]];
    }
  }

  /** The filter keeps the listed order. */
  lemma {:induction false} OwnedConfigsInOrder(score: Score, self: Id, all: seq<Feed>, members: set<Id>)
    returns (pos: seq<nat>)
    ensures var owned := OwnedConfigs(score, self, all, members);
            && |pos| == |owned|
            && (forall k | 0 <= k < |pos| :: pos[k] < |all| && owned[k] == all[pos[k]])
            && (forall k, l | 0 <= k < l < |pos| :: pos[k] < pos[l])
            && (forall i | 0 <= i < |all| :: Owns(score, self, all[i].url, members) <==> i in pos)
  {
    if all == [] {
      pos := [];
    } else {
      var n := |all| - 1;
      var front := OwnedConfigsInOrder(score, self, all[..n], members);
      pos := front + if Owns(score, self, all[n].url, members) then [n] else [];
      assert n !in front;
      forall i | 0 <= i < |all| ensures Owns(score, self, all[i].url, members) <==> i in pos {
        if i < n { assert all[..n][i] == all[i]; }
      }
    }
  }

  function Urls(feeds: seq<Feed>): (r: seq<Url>)
    ensures |r| == |feeds| && forall i | 0 <= i < |feeds| :: r[i] == feeds[i].url
  {
    seq(|feeds|, i requires 0 <= i < |feeds| => feeds[i].url)
  }

  class Provider {
    const self: Id
    var members: seq<Id>
    var lastKey: string
    var pending: bool    // the capacity-one `changes` channel holds a signal

    constructor (self: Id)
      ensures this.self == self && members == [self] && lastKey == "" && !pending
    {
      this.self := self;
      members, lastKey, pending := [self], "", false;
    }

    method Signal()
      modifies this`pending
      ensures pending
    {
      if !pending { pending := true; }
    }

    /** `live` is what the membership answered; None is its error, which keeps the last-known set. */
    method Heartbeat(live: Option<seq<Id>>) returns (result: seq<Id>)
      modifies this
      ensures live.None? ==> unchanged(this) && result == members
      ensures live.Some? ==> result == members == Sort(live.value) && lastKey == Join(members)
                             && pending == (old(pending) || lastKey != old(lastKey))
    {
      if live.None? {
        return members;
      }
      var sorted := Sort(live.value);
      var key := Join(sorted);
      var changed := key != lastKey;
      members := sorted;
      lastKey := key;
      if changed {
        Signal();
      }
      return sorted;
    }

    /** Only this instance's feeds; an inner error passes through. */
    method Desired(score: Score, inner: Option<seq<Feed>>) returns (r: Option<seq<Feed>>)
      ensures inner.None? ==> r.None?
      ensures inner.Some? ==> r == Some(OwnedConfigs(score, self, inner.value, Members(members)))
    {
      if inner.None? {
        return None;
      }
      var all := inner.value;
      var owned := Assign.Owned(score, self, Urls(all), members);
      var out: seq<Feed> := [];
      for i := 0 to |all|
        invariant out == OwnedConfigs(score, self, all[..i], Members(members))
      {
        assert all[..i + 1][..i] == all[..i];
        assert Urls(all)[i] == all[i].url;
        OwnedFeedsAre(score, self, Urls(all), Members(members), all[i].url);
        if all[i].url in owned {
          out := out + [all[i]];
        }
      }
      assert all[..|all|] == all;
      return Some(out);
    }
  }

  // ----- no lost rebalance ---------------------------------------------------------------------

  /** The heartbeat goroutine. */
  datatype Driver = Idle | Signalling

  /** The reconcile loop: Desired asks the inner provider for its list, then takes the member snapshot. */
  datatype Loop = Reading | Listed | Applying | Waiting

  datatype State = State(
    members: seq<Id>,
    lastKey: string,
    pending: bool,
    driver: Driver,
    loop: Loop,
    seen: seq<Id>,       // the members the last Desired call read
    feeds: seq<Feed>,    // what the inner provider would answer
    owed: bool,          // the inner provider has signalled a change that is not yet forwarded
    read: seq<Feed>,     // the feeds the last Desired call read
    erred: bool)         // in the last Desired call the inner provider erred

  ghost predicate Init(s: State, self: Id) {
    && s.members == [self] && s.lastKey == "" && !s.pending && !s.owed && !s.erred
    && s.driver == Idle && s.loop == Reading
  }

  datatype Action =
    | Update(live: seq<Id>)   // Heartbeat's mutex section
    | Signal                  // Heartbeat's signal
    | Relist(feeds: seq<Feed>) // the inner provider's list changes
    | Forward                 // the inner provider's change, forwarded
    | Receive                 // the loop takes the signal
    | List                    // Desired gets the inner provider's list
    | ListError               // the inner provider errs, which ends the reconcile
    | Read                    // Desired takes its snapshot of the members
    | Apply                   // the reconcile is done

  ghost predicate Step(s: State, a: Action, s': State) {
    match a
    case Update(live) =>
      && s.driver == Idle
      && var sorted := Sort(live);
         s' == s.(members := sorted, lastKey := Join(sorted),
                  driver := if Join(sorted) != s.lastKey then Signalling else Idle)
    case Signal => s.driver == Signalling && s' == s.(pending := true, driver := Idle)
    case Relist(feeds) => s' == s.(feeds := feeds, owed := true)
    case Forward => s' == s.(pending := true, owed := false)
    case Receive => s.loop == Waiting && s.pending && s' == s.(pending := false, loop := Reading)
    case List => s.loop == Reading && s' == s.(read := s.feeds, loop := Listed, erred := false)
    case ListError => s.loop == Reading && s' == s.(loop := Waiting, erred := true)
    case Read => s.loop == Listed && s' == s.(seen := s.members, loop := Applying)
    case Apply => s.loop == Applying && s' == s.(loop := Waiting)
  }

  ghost predicate FreeRun(tr: seq<State>, acts: seq<Action>, self: Id) {
    && |tr| == |acts| + 1 && Init(tr[0], self)
    && forall i | 0 <= i < |acts| :: Step(tr[i], acts[i], tr[i + 1])
  }

  /** Desired has been called and has yet to take its snapshot. */
  predicate Due(s: State) { s.loop == Reading || s.loop == Listed }

  /** The reconcile loop has worked with the current members, or is bound to. */
  predicate Covered(s: State) {
    Due(s) || s.seen == s.members || s.pending || s.driver == Signalling
  }

  predicate AtRest(s: State) {
    !s.pending && s.driver == Idle && s.loop == Waiting
  }

  /** An answer with the key of the last one that names other members than the loop has seen. */
  predicate SameKey(s: State, a: Action) {
    && a.Update? && Join(Sort(a.live)) == s.lastKey && Sort(a.live) != s.seen
    && !Due(s) && !s.pending
  }

  /** An error of the inner provider that uses up the signal of a change the loop has not seen. */
  predicate Wasted(s: State, a: Action) {
    a == ListError && s.seen != s.members && !s.pending && s.driver == Idle
  }

  /** The two ways to lose a rebalance. */
  predicate Missed(s: State, a: Action) {
    SameKey(s, a) || Wasted(s, a)
  }

  lemma CoveredUntilMissed(s: State, a: Action, s': State)
    requires Covered(s) && Step(s, a, s')
    ensures Covered(s') <==> !Missed(s, a)
  {
  }

  lemma {:induction false} RunIsCovered(tr: seq<State>, acts: seq<Action>, self: Id, i: nat)
    requires FreeRun(tr, acts, self) && i < |tr| && forall j | 0 <= j < i :: !Missed(tr[j], acts[j])
    ensures Covered(tr[i])
  {
    if i > 0 {
      RunIsCovered(tr, acts, self, i - 1);
      assert Step(tr[i - 1], acts[i - 1], tr[i - 1 + 1]) && !Missed(tr[i - 1], acts[i - 1]);
      CoveredUntilMissed(tr[i - 1], acts[i - 1], tr[i]);
    }
  }

  /** Whatever the member IDs are, a run loses no rebalance exactly when it misses no answer and wastes no signal. */
  lemma NoLostRebalanceIff(tr: seq<State>, acts: seq<Action>, self: Id)
    requires FreeRun(tr, acts, self)
    ensures (forall i | 0 <= i < |tr| :: Covered(tr[i])) <==> (forall i | 0 <= i < |acts| :: !Missed(tr[i], acts[i]))
  {
    if forall i | 0 <= i < |tr| :: Covered(tr[i]) {
      forall i | 0 <= i < |acts| ensures !Missed(tr[i], acts[i]) {
        assert Step(tr[i], acts[i], tr[i + 1]) && Covered(tr[i]) && Covered(tr[i + 1]);
        CoveredUntilMissed(tr[i], acts[i], tr[i + 1]);
      }
    }
    if forall i | 0 <= i < |acts| :: !Missed(tr[i], acts[i]) {
      forall i | 0 <= i < |tr| ensures Covered(tr[i]) { RunIsCovered(tr, acts, self, i); }
    }
  }

  // ----- no lost list ----------------------------------------------------------------------------

  /** The reconcile loop has worked with the current list, or is bound to. */
  predicate ListCovered(s: State) {
    s.loop == Reading || s.read == s.feeds || s.pending || s.owed || s.erred
  }

  lemma {:induction false} RunIsListCovered(tr: seq<State>, acts: seq<Action>, self: Id, i: nat)
    requires FreeRun(tr, acts, self) && i < |tr|
    ensures ListCovered(tr[i])
  {
    if i > 0 {
      RunIsListCovered(tr, acts, self, i - 1);
      assert Step(tr[i - 1], acts[i - 1], tr[i - 1 + 1]);
    }
  }

  /** At rest, with every change forwarded, the last reconcile worked with the current list, unless it got an error. */
  lemma NoLostList(tr: seq<State>, acts: seq<Action>, self: Id, i: nat)
    requires FreeRun(tr, acts, self) && i < |tr| && AtRest(tr[i]) && !tr[i].owed
    ensures tr[i].read == tr[i].feeds || tr[i].erred
  {
    RunIsListCovered(tr, acts, self, i);
  }

  // ----- well-named members --------------------------------------------------------------------

  ghost predicate NamedRun(tr: seq<State>, acts: seq<Action>, self: Id) {
    && FreeRun(tr, acts, self)
    && forall i | 0 <= i < |acts| && acts[i].Update? :: WellNamed(acts[i].live)
  }

  /** No heartbeat has succeeded yet. */
  predicate Fresh(s: State, self: Id) {
    s.lastKey == "" && s.members == [self]
  }

  /** A first heartbeat that answers nobody, when no reconcile is about to take its snapshot anyway. */
  predicate Unheard(s: State, a: Action, self: Id) {
    Fresh(s, self) && a == Update([]) && !Due(s) && !s.pending
  }

  ghost predicate KeyOk(s: State, self: Id) {
    Fresh(s, self) || (WellNamed(s.members) && s.lastKey == Join(s.members))
  }

  lemma EmptySort(live: seq<Id>)
    ensures Sort(live) == [] <==> live == []
  {
  }

  /** Every heartbeat answered so far, if any, named nobody. */
  predicate NobodyNamed(acts: seq<Action>, i: nat)
    requires i <= |acts|
  {
    forall j | 0 <= j < i && acts[j].Update? :: acts[j].live == []
  }

  lemma {:induction false} NamedRunKeepsKey(tr: seq<State>, acts: seq<Action>, self: Id, i: nat)
    requires NamedRun(tr, acts, self) && i < |tr|
    ensures KeyOk(tr[i], self) && (Fresh(tr[i], self) ==> NobodyNamed(acts, i))
  {
    if i > 0 {
      NamedRunKeepsKey(tr, acts, self, i - 1);
      assert Step(tr[i - 1], acts[i - 1], tr[i - 1 + 1]);
      if acts[i - 1].Update? {
        SortKeepsNames(acts[i - 1].live);
        JoinIsEmpty(tr[i].members);
      }
    }
  }

  /** Among well-named members only an empty first answer can be missed, and a signal wasted. */
  lemma MissedIsUnheard(s: State, a: Action, s': State, self: Id)
    requires KeyOk(s, self) && Covered(s) && Step(s, a, s') && (a.Update? ==> WellNamed(a.live))
    ensures Missed(s, a) <==> Unheard(s, a, self) || Wasted(s, a)
  {
    if a.Update? && Join(Sort(a.live)) == s.lastKey {
      SortKeepsNames(a.live);
      EmptySort(a.live);
      if Fresh(s, self) { JoinIsInjective(Sort(a.live), []); } else { JoinIsInjective(Sort(a.live), s.members); }
    }
    EmptySort([]);
  }

  /** An answer among well-named members leaves the loop covered, unless all answers so far named nobody. */
  lemma AnswerIsHeard(s: State, a: Action, s': State, self: Id)
    requires KeyOk(s, self) && Step(s, a, s') && (a.Update? ==> WellNamed(a.live))
    requires Covered(s) || s.members == []
    ensures Covered(s') || s'.erred || (s'.members == [] && (a.Update? ==> a.live == []))
    ensures Covered(s) && !Covered(s') ==> s'.erred || Fresh(s, self)
  {
    if Covered(s) {
      CoveredUntilMissed(s, a, s');
      MissedIsUnheard(s, a, s', self);
      EmptySort([]);
    } else if a.Update? {
      SortKeepsNames(a.live);
      JoinIsEmpty(Sort(a.live));
      EmptySort(a.live);
    }
  }

  lemma {:induction false} NamedRunIsHeard(tr: seq<State>, acts: seq<Action>, self: Id, i: nat)
    requires NamedRun(tr, acts, self) && i < |tr|
    ensures Covered(tr[i]) || tr[i].erred || (tr[i].members == [] && NobodyNamed(acts, i))
  {
    if i > 0 {
      NamedRunIsHeard(tr, acts, self, i - 1);
      NamedRunKeepsKey(tr, acts, self, i - 1);
      assert Step(tr[i - 1], acts[i - 1], tr[i - 1 + 1]);
      if Covered(tr[i - 1]) || tr[i - 1].members == [] { AnswerIsHeard(tr[i - 1], acts[i - 1], tr[i], self); }
    }
  }

  /**
   Whenever everything is at rest, the last reconcile worked with the current member set, unless it got an
   error from the inner provider, or every answer so far has named nobody.
   */
  lemma NoLostRebalance(tr: seq<State>, acts: seq<Action>, self: Id, i: nat)
    requires NamedRun(tr, acts, self) && i < |tr| && AtRest(tr[i])
    ensures tr[i].seen == tr[i].members || tr[i].erred || (tr[i].members == [] && NobodyNamed(acts, i))
  {
    NamedRunIsHeard(tr, acts, self, i);
  }

  lemma {:induction false} NothingMissed(tr: seq<State>, acts: seq<Action>, self: Id, i: nat)
    requires NamedRun(tr, acts, self) && i <= |acts|
    requires forall j | 0 <= j < |acts| :: !Unheard(tr[j], acts[j], self) && !Wasted(tr[j], acts[j])
    ensures forall j | 0 <= j < i :: !Missed(tr[j], acts[j])
  {
    if i > 0 {
      NothingMissed(tr, acts, self, i - 1);
      RunIsCovered(tr, acts, self, i - 1);
      NamedRunKeepsKey(tr, acts, self, i - 1);
      assert Step(tr[i - 1], acts[i - 1], tr[i - 1 + 1]) && !Unheard(tr[i - 1], acts[i - 1], self);
      MissedIsUnheard(tr[i - 1], acts[i - 1], tr[i], self);
    }
  }

  /** Over well-named members a run loses no rebalance exactly when it has no unheard answer and wastes no signal. */
  lemma NamedRebalanceIff(tr: seq<State>, acts: seq<Action>, self: Id)
    requires NamedRun(tr, acts, self)
    ensures (forall i | 0 <= i < |tr| :: Covered(tr[i]))
            <==> (forall i | 0 <= i < |acts| :: !Unheard(tr[i], acts[i], self) && !Wasted(tr[i], acts[i]))
  {
    NoLostRebalanceIff(tr, acts, self);
    if forall i | 0 <= i < |tr| :: Covered(tr[i]) {
      forall i | 0 <= i < |acts| ensures !Unheard(tr[i], acts[i], self) && !Wasted(tr[i], acts[i]) {
        NamedRunKeepsKey(tr, acts, self, i);
        assert Step(tr[i], acts[i], tr[i + 1]) && Covered(tr[i]) && !Missed(tr[i], acts[i]);
        MissedIsUnheard(tr[i], acts[i], tr[i + 1], self);
      }
    }
    if forall i | 0 <= i < |acts| :: !Unheard(tr[i], acts[i], self) && !Wasted(tr[i], acts[i]) {
      NothingMissed(tr, acts, self, |acts|);
    }
  }

  lemma Extend(tr: seq<State>, acts: seq<Action>, self: Id, a: Action, s: State)
    requires FreeRun(tr, acts, self) && Step(tr[|tr| - 1], a, s)
    ensures FreeRun(tr + [s], acts + [a], self)
  {
  }

  /** The first reconcile, before any heartbeat. */
  lemma FirstReconcile(self: Id) returns (tr: seq<State>, acts: seq<Action>)
    ensures FreeRun(tr, acts, self) && acts == [List, Read, Apply]
    ensures tr[|tr| - 1] == State([self], "", false, Idle, Waiting, [self], [], false, [], false)
  {
    var s0 := State([self], "", false, Idle, Reading, [], [], false, [], false);
    var s1 := s0.(loop := Listed);
    var s2 := s1.(seen := [self], loop := Applying);
    var s3 := s2.(loop := Waiting);
    tr, acts := [s0, s1, s2, s3], [List, Read, Apply];
    assert Step(s0, List, s1) && Step(s1, Read, s2) && Step(s2, Apply, s3);
  }

  /** A first heartbeat that answers nobody has the key of "no heartbeat yet" and is not signalled. */
  lemma EmptyAnswerIsLost(self: Id) returns (tr: seq<State>, acts: seq<Action>)
    ensures FreeRun(tr, acts, self)
    ensures var s := tr[|tr| - 1];
            AtRest(s) && !s.erred && s.seen != s.members
  {
    tr, acts := FirstReconcile(self);
    var s := tr[|tr| - 1];
    assert Sort([]) == [] && Join([]) == "";
    Extend(tr, acts, self, Update([]), s.(members := []));
    tr, acts := tr + [s.(members := [])], acts + [Update([])];
  }

  lemma TwoNamed(live: seq<Id>)
    requires WellNamed(live) && |live| == 2
    ensures |Sort(live)| == 2 && Join(Sort(live)) != ""
  {
    assert |multiset(Sort(live))| == |multiset(live)|;
    SortKeepsNames(live);
    JoinIsEmpty(Sort(live));
  }

  /** An error of the inner provider right after the signal was taken leaves the loop with the old members. */
  lemma ErrorWastesTheSignal(self: Id, live: seq<Id>) returns (tr: seq<State>, acts: seq<Action>)
    requires WellNamed(live) && |live| == 2
    ensures NamedRun(tr, acts, self)
    ensures var s := tr[|tr| - 1]; AtRest(s) && s.seen != s.members
  {
    tr, acts := FirstReconcile(self);
    TwoNamed(live);
    var s := tr[|tr| - 1];
    var s1 := s.(members := Sort(live), lastKey := Join(Sort(live)), driver := Signalling);
    Extend(tr, acts, self, Update(live), s1);
    var s2 := s1.(pending := true, driver := Idle);
    Extend(tr + [s1], acts + [Update(live)], self, Signal, s2);
    var s3 := s2.(pending := false, loop := Reading);
    Extend(tr + [s1] + [s2], acts + [Update(live)] + [Signal], self, Receive, s3);
    var s4 := s3.(loop := Waiting, erred := true);
    Extend(tr + [s1] + [s2] + [s3], acts + [Update(live)] + [Signal] + [Receive], self, ListError, s4);
    tr, acts := tr + [s1] + [s2] + [s3] + [s4], acts + [Update(live)] + [Signal] + [Receive] + [ListError];
  }

  /** The loop has read the one member "a,b" of the first answer, and its signal is still pending. */
  lemma CommaIsRead(self: Id) returns (tr: seq<State>, acts: seq<Action>)
    ensures FreeRun(tr, acts, self)
    ensures tr[|tr| - 1] == State(["a,b"], "a,b", true, Idle, Waiting, ["a,b"], [], false, [], false)
  {
    var s0 := State([self], "", false, Idle, Reading, [], [], false, [], false);
    var s1 := s0.(members := ["a,b"], lastKey := "a,b", driver := Signalling);
    var s2 := s1.(pending := true, driver := Idle);
    var s3 := s2.(loop := Listed);
    var s4 := s3.(seen := ["a,b"], loop := Applying);
    var s5 := s4.(loop := Waiting);
    CommaKeys();
    assert Step(s0, Update(["a,b"]), s1) && Step(s1, Signal, s2) && Step(s2, List, s3);
    assert Step(s3, Read, s4) && Step(s4, Apply, s5);
    tr, acts := [s0, s1, s2, s3, s4, s5], [Update(["a,b"]), Signal, List, Read, Apply];
  }

  /** A comma in a member ID can hide a change of membership. */
  lemma CommaIsLost(self: Id) returns (tr: seq<State>, acts: seq<Action>)
    ensures FreeRun(tr, acts, self)
    ensures var s := tr[|tr| - 1];
            AtRest(s) && s.seen != s.members && s.members != []
  {
    tr, acts := CommaIsRead(self);
    var s5 := tr[|tr| - 1];
    var s6 := s5.(pending := false, loop := Reading);
    Extend(tr, acts, self, Receive, s6);
    var s7 := s6.(loop := Listed);
    Extend(tr + [s6], acts + [Receive], self, List, s7);
    var s8 := s7.(loop := Applying);
    Extend(tr + [s6] + [s7], acts + [Receive] + [List], self, Read, s8);
    var s9 := s8.(loop := Waiting);
    Extend(tr + [s6] + [s7] + [s8], acts + [Receive] + [List] + [Read], self, Apply, s9);
    var s10 := s9.(members := ["a", "b"]);
    CommaKeys();
    tr, acts := tr + [s6] + [s7] + [s8] + [s9], acts + [Receive] + [List] + [Read] + [Apply];
    Extend(tr, acts, self, Update(["a", "b"]), s10);
    tr, acts := tr + [s10], acts + [Update(["a", "b"])];
  }

  lemma CommaKeys()
    ensures Sort(["a,b"]) == ["a,b"] && Join(["a,b"]) == "a,b"
    ensures Sort(["a", "b"]) == ["a", "b"] && Join(["a", "b"]) == "a,b"
  {
  }
}
