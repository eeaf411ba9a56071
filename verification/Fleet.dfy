/**
 The whole fleet: assignment, provider and reconcile composed. When every instance has reconciled
 against one member set and one feed list, the running loops partition the feeds; a change of
 membership restarts nothing that did not have to move.
 */
module Fleet {
  import opened Feeds
  import opened Assign
  import O = OwnerProvider
  import Rec = Reconcile

  /** What instance m must run, given the feed list and the member set. */
  ghost function Wanted(score: Score, m: Id, all: seq<Feed>, members: set<Id>): map<Url, Feed> {
    Rec.ByUrl(O.OwnedConfigs(score, m, all, members))
  }

  /** Instance m's running map is the outcome of an applied reconcile against this input. */
  ghost predicate Settled(score: Score, m: Id, all: seq<Feed>, members: set<Id>, running: map<Url, Rec.Handle>) {
    exists before, firstId :: Rec.Reconciled(before, running, Wanted(score, m, all, members), firstId)
  }

  lemma {:induction false} ByUrlOfOwned(score: Score, m: Id, all: seq<Feed>, members: set<Id>, u: Url)
    ensures u in Wanted(score, m, all, members) <==> u in Rec.ByUrl(all) && Owns(score, m, u, members)
    ensures u in Wanted(score, m, all, members) ==> Wanted(score, m, all, members)[u] == Rec.ByUrl(all)[u]
  {
    if all != [] {
      var front, last := all[..|all| - 1], all[|all| - 1];
      ByUrlOfOwned(score, m, front, members, u);
      var kept := O.OwnedConfigs(score, m, front, members);
      if Owns(score, m, last.url, members) {
        assert (kept + [last])[..|kept|] == kept;
      } else {
        assert O.OwnedConfigs(score, m, all, members) == kept;
      }
    }
  }

  /** Instance m runs exactly the listed feeds it owns, with their listed configuration. */
  lemma SettledRuns(score: Score, m: Id, all: seq<Feed>, members: set<Id>, running: map<Url, Rec.Handle>, u: Url)
    requires Settled(score, m, all, members, running)
    ensures u in running <==> u in Rec.ByUrl(all) && Owns(score, m, u, members)
    ensures u in running ==> running[u].cfg == Rec.ByUrl(all)[u]
  {
    var before, firstId :| Rec.Reconciled(before, running, Wanted(score, m, all, members), firstId);
    ByUrlOfOwned(score, m, all, members, u);
  }

  ghost predicate AllSettled(score: Score, all: seq<Feed>, fleet: map<Id, map<Url, Rec.Handle>>) {
    forall m | m in fleet :: Settled(score, m, all, fleet.Keys, fleet[m])
  }

  lemma RunsOnItsOwner(score: Score, all: seq<Feed>, fleet: map<Id, map<Url, Rec.Handle>>, f: Feed)
    requires fleet.Keys != {} && AllSettled(score, all, fleet) && f in all
    ensures exists m :: m in fleet && f.url in fleet[m]
  {
    var o := OwnerOf(score, f.url, fleet.Keys);
    SettledRuns(score, o, all, fleet.Keys, fleet[o], f.url);
    assert o in fleet && f.url in fleet[o];
  }

  lemma RunsNowhereElse(score: Score, all: seq<Feed>, fleet: map<Id, map<Url, Rec.Handle>>, m: Id, n: Id, u: Url)
    requires AllSettled(score, all, fleet) && m in fleet && n in fleet && u in fleet[m] && u in fleet[n]
    ensures m == n
  {
    SettledRuns(score, m, all, fleet.Keys, fleet[m], u);
    SettledRuns(score, n, all, fleet.Keys, fleet[n], u);
  }

  lemma EveryFeedRuns(score: Score, all: seq<Feed>, fleet: map<Id, map<Url, Rec.Handle>>)
    requires fleet.Keys != {} && AllSettled(score, all, fleet)
    ensures forall f | f in all :: exists m :: m in fleet && f.url in fleet[m]
  {
    forall f | f in all ensures exists m :: m in fleet && f.url in fleet[m] {
      RunsOnItsOwner(score, all, fleet, f);
    }
  }

  lemma NothingRunsTwice(score: Score, all: seq<Feed>, fleet: map<Id, map<Url, Rec.Handle>>)
    requires AllSettled(score, all, fleet)
    ensures forall m, n, u | m in fleet && n in fleet && u in fleet[m] && u in fleet[n] :: m == n
  {
    forall m, n, u | m in fleet && n in fleet && u in fleet[m] && u in fleet[n] ensures m == n {
      RunsNowhereElse(score, all, fleet, m, n, u);
    }
  }

  /** Every running loop has its feed's listed configuration. */
  ghost predicate AsListed(all: seq<Feed>, running: map<Url, Rec.Handle>) {
    var listed := Rec.ByUrl(all);
    forall u | u in running :: u in listed && running[u].cfg == listed[u]
  }

  lemma NothingElseRuns(score: Score, m: Id, all: seq<Feed>, members: set<Id>, running: map<Url, Rec.Handle>)
    requires Settled(score, m, all, members, running)
    ensures AsListed(all, running)
  {
    forall u | u in running ensures u in Rec.ByUrl(all) && running[u].cfg == Rec.ByUrl(all)[u] {
      SettledRuns(score, m, all, members, running, u);
    }
  }

  /** Every feed runs on exactly one instance, and nothing else runs. */
  lemma FleetPartition(score: Score, all: seq<Feed>, fleet: map<Id, map<Url, Rec.Handle>>)
    requires fleet.Keys != {} && AllSettled(score, all, fleet)
    ensures forall f | f in all :: exists m :: m in fleet && f.url in fleet[m]
    ensures forall m, n, u | m in fleet && n in fleet && u in fleet[m] && u in fleet[n] :: m == n
    ensures forall m | m in fleet :: AsListed(all, fleet[m])
  {
    EveryFeedRuns(score, all, fleet);
    NothingRunsTwice(score, all, fleet);
    forall m | m in fleet ensures AsListed(all, fleet[m]) {
      NothingElseRuns(score, m, all, fleet.Keys, fleet[m]);
    }
  }

  /** When a member leaves, every loop that ran elsewhere goes on running: same handle, no restart. */
  lemma DepartureRestartsNothing(score: Score, m: Id, all: seq<Feed>, members: set<Id>, gone: Id,
                                 before: map<Url, Rec.Handle>, after: map<Url, Rec.Handle>, firstId: nat, u: Url)
    requires m != gone && m in members && Settled(score, m, all, members, before) && u in before
    requires Rec.Reconciled(before, after, Wanted(score, m, all, members - {gone}), firstId)
    ensures u in after && after[u] == before[u]
  {
    SettledRuns(score, m, all, members, before, u);
    RemovalMovesOnlyItsFeeds(score, u, members, gone);
    ByUrlOfOwned(score, m, all, members - {gone}, u);
  }

  /** When a member joins, a loop stops only if the newcomer takes the feed over. */
  lemma ArrivalStopsOnlyWhatMoves(score: Score, m: Id, all: seq<Feed>, members: set<Id>, joined: Id,
                                  before: map<Url, Rec.Handle>, after: map<Url, Rec.Handle>, firstId: nat, u: Url)
    requires m in members && m != joined && Settled(score, m, all, members, before) && u in before
    requires Rec.Reconciled(before, after, Wanted(score, m, all, members + {joined}), firstId)
    ensures if OwnerOf(score, u, members + {joined}) == joined then u !in after else u in after && after[u] == before[u]
  {
    SettledRuns(score, m, all, members, before, u);
    AdditionMovesOnlyToNewcomer(score, u, members, joined);
    ByUrlOfOwned(score, m, all, members + {joined}, u);
  }

  // ----- from heartbeats to the partition -------------------------------------------------------

  /** One instance: its provider and heartbeat driver, its running loops, and the ids handed out. */
  datatype Node = Node(s: O.State, running: map<Url, Rec.Handle>, nextId: nat)

  /** A step of the provider; the Apply step is the reconcile against what Desired has read. */
  ghost predicate NodeStep(score: Score, m: Id, build: Feed -> bool, n: Node, a: O.Action, n': Node) {
    && O.Step(n.s, a, n'.s)
    && var want := Wanted(score, m, n.s.read, Members(n.s.seen));
       if a.Apply? && Rec.Buildable(n.running, want, build)
       then Rec.Reconciled(n.running, n'.running, want, n.nextId) && n.nextId <= n'.nextId
       else n'.running == n.running && n'.nextId == n.nextId
  }

  datatype Course = Course(nodes: seq<Node>, acts: seq<O.Action>)
  {
    function States(): (tr: seq<O.State>)
      ensures |tr| == |nodes| && forall i | 0 <= i < |nodes| :: tr[i] == nodes[i].s
    {
      seq(|nodes|, i requires 0 <= i < |nodes| => nodes[i].s)
    }

    /** The loops running at the end. */
    function Loops(): map<Url, Rec.Handle> { if nodes == [] then map[] else nodes[|nodes| - 1].running }

    /** Any run of instance m: lists and members change, signals are forwarded, reconciles apply or abort. */
    ghost predicate Run(score: Score, m: Id, build: Feed -> bool) {
      && |nodes| == |acts| + 1 && O.FreeRun(States(), acts, m)
      && forall i | 0 <= i < |acts| :: Linked(score, m, build, i)
    }

    ghost predicate Linked(score: Score, m: Id, build: Feed -> bool, i: nat)
      requires i < |acts| && |nodes| == |acts| + 1
    {
      NodeStep(score, m, build, nodes[i], acts[i], nodes[i + 1])
    }
  }

  ghost predicate AllBuild(all: seq<Feed>, build: Feed -> bool) {
    forall f | f in all :: f.interval > 0 && build(f)
  }

  lemma WantedBuilds(score: Score, m: Id, all: seq<Feed>, members: set<Id>, build: Feed -> bool,
                     running: map<Url, Rec.Handle>)
    requires AllBuild(all, build)
    ensures Rec.Buildable(running, Wanted(score, m, all, members), build)
  {
    var owned := O.OwnedConfigs(score, m, all, members);
    forall f | f in owned ensures f in all { O.OwnedConfigsAre(score, m, all, members, f); }
    var want := Rec.ByUrl(owned);
    assert forall u | u in want :: want[u] in owned;
  }

  /** If the loop waits after a call without an error, and all feeds read can be built, it runs what it owns of them. */
  ghost predicate RunsWhatItRead(score: Score, m: Id, build: Feed -> bool, n: Node) {
    n.s.loop == O.Waiting && !n.s.erred && AllBuild(n.s.read, build) ==>
      Settled(score, m, n.s.read, Members(n.s.seen), n.running)
  }

  lemma StepIsSettled(score: Score, m: Id, build: Feed -> bool, n: Node, a: O.Action, n': Node)
    requires NodeStep(score, m, build, n, a, n') && RunsWhatItRead(score, m, build, n)
    ensures RunsWhatItRead(score, m, build, n')
  {
    if AllBuild(n.s.read, build) { WantedBuilds(score, m, n.s.read, Members(n.s.seen), build, n.running); }
  }

  /** Every step of the course hands the property on. */
  lemma LinksSettle(score: Score, m: Id, build: Feed -> bool, c: Course)
    requires c.Run(score, m, build)
    ensures forall i | 0 <= i < |c.acts| && RunsWhatItRead(score, m, build, c.nodes[i]) ::
              RunsWhatItRead(score, m, build, c.nodes[i + 1])
  {
    forall i | 0 <= i < |c.acts| && RunsWhatItRead(score, m, build, c.nodes[i])
      ensures RunsWhatItRead(score, m, build, c.nodes[i + 1])
    {
      assert c.Linked(score, m, build, i);
      StepIsSettled(score, m, build, c.nodes[i], c.acts[i], c.nodes[i + 1]);
    }
  }

  lemma {:induction false} Climb(score: Score, m: Id, build: Feed -> bool, nodes: seq<Node>, i: nat)
    requires i < |nodes| && RunsWhatItRead(score, m, build, nodes[0])
    requires forall j | 0 <= j < |nodes| - 1 && RunsWhatItRead(score, m, build, nodes[j]) ::
               RunsWhatItRead(score, m, build, nodes[j + 1])
    ensures RunsWhatItRead(score, m, build, nodes[i])
  {
    if i > 0 { Climb(score, m, build, nodes, i - 1); }
  }

  /** Whatever the lists and the member IDs were: while the loop waits, the instance runs what it last read. */
  lemma WaitingIsSettled(score: Score, m: Id, build: Feed -> bool, c: Course, i: nat)
    requires c.Run(score, m, build) && i < |c.nodes|
    ensures RunsWhatItRead(score, m, build, c.nodes[i])
  {
    assert c.States()[0] == c.nodes[0].s;
    LinksSettle(score, m, build, c);
    Climb(score, m, build, c.nodes, i);
  }

  /**
   Instance m has come to rest after a Desired call without an error. Its inner provider lists these feeds
   and owes no signal, and its latest heartbeat named exactly these members; all heartbeats named non-empty,
   comma-free IDs.
   */
  ghost predicate Rests(score: Score, m: Id, all: seq<Feed>, build: Feed -> bool, c: Course, members: set<Id>) {
    && c.Run(score, m, build) && O.NamedRun(c.States(), c.acts, m)
    && var s := c.nodes[|c.nodes| - 1].s;
       O.AtRest(s) && !s.erred && !s.owed && s.feeds == all && Members(s.members) == members
  }

  lemma RestingIsSettled(score: Score, m: Id, all: seq<Feed>, build: Feed -> bool, c: Course, members: set<Id>)
    requires Rests(score, m, all, build, c, members) && AllBuild(all, build) && members != {}
    ensures Settled(score, m, all, members, c.Loops())
  {
    var last := |c.nodes| - 1;
    WaitingIsSettled(score, m, build, c, last);
    O.NoLostList(c.States(), c.acts, m, last);
    O.NoLostRebalance(c.States(), c.acts, m, last);
    assert c.States()[last] == c.nodes[last].s;
  }

  /**
   Over whole runs of all instances, with lists and memberships that change: whenever every instance is
   at rest, lists the same feeds, all of which can be built, and its latest heartbeat named exactly the
   fleet, the feeds are partitioned.
   */
  lemma RestingFleetPartitions(score: Score, all: seq<Feed>, build: Feed -> bool, fleet: map<Id, Course>)
    requires fleet.Keys != {} && AllBuild(all, build)
    requires forall m | m in fleet :: Rests(score, m, all, build, fleet[m], fleet.Keys)
    ensures forall f | f in all :: exists m :: m in fleet && f.url in fleet[m].Loops()
    ensures forall m, n, u | m in fleet && n in fleet && u in fleet[m].Loops() && u in fleet[n].Loops() :: m == n
    ensures forall m | m in fleet :: AsListed(all, fleet[m].Loops())
  {
    var runs := map m | m in fleet :: fleet[m].Loops();
    assert runs.Keys == fleet.Keys;
    forall m | m in runs ensures Settled(score, m, all, runs.Keys, runs[m]) {
      RestingIsSettled(score, m, all, build, fleet[m], fleet.Keys);
    }
    FleetPartition(score, all, runs);
    forall f | f in all ensures exists m :: m in fleet && f.url in fleet[m].Loops() {
      var m :| m in runs && f.url in runs[m];
      assert m in fleet && f.url in fleet[m].Loops();
    }
    forall m | m in fleet ensures AsListed(all, fleet[m].Loops()) { assert runs[m] == fleet[m].Loops(); }
    forall m, n, u | m in fleet && n in fleet && u in fleet[m].Loops() && u in fleet[n].Loops() ensures m == n {
      assert u in runs[m] && u in runs[n];
    }
  }
}
