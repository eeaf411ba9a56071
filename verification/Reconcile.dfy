/**
 The reconcile closure of ServeDynamic: bring the set of running poll loops to the desired feed
 list, all or nothing. A loop is a handle; the log records every cancel, every observed end of a
 loop and every start, so that overlap of two loops of one URL would be visible in it.
 */
module Reconcile {
  import opened Feeds

  type Url = string

  datatype Handle = Handle(id: nat, cfg: Feed)

  datatype Event = Cancel(url: Url, id: nat) | Done(url: Url, id: nat) | Start(url: Url, id: nat)

  datatype Outcome = Aborted | Applied(added: nat, removed: nat, changed: nat)

  // ----- the desired map ---------------------------------------------------------------------

  /** byURL: a URL listed twice keeps its last entry. */
  function ByUrl(desired: seq<Feed>): (m: map<Url, Feed>)
    ensures forall u | u in m :: m[u].url == u && m[u] in desired
    ensures forall f | f in desired :: f.url in m
  {
    if desired == [] then map[]
    else
      var last := desired[|desired| - 1];
      assert desired == desired[..|desired| - 1] + [last];
      ByUrl(desired[..|desired| - 1])[last.url := last]
  }

  /** The last entry of a URL is the one that counts. */
  lemma {:induction false} LastEntryCounts(desired: seq<Feed>, i: nat)
    requires i < |desired| && forall j | i < j < |desired| :: desired[j].url != desired[i].url
    ensures desired[i].url in ByUrl(desired) && ByUrl(desired)[desired[i].url] == desired[i]
  {
    if i < |desired| - 1 { LastEntryCounts(desired[..|desired| - 1], i); }
  }

  /** New or changed: everything but a running feed whose configuration is still the desired one. */
  predicate NeedsStart(running: map<Url, Handle>, want: map<Url, Feed>, u: Url) {
    u in want && !(u in running && running[u].cfg == want[u])
  }

  ghost predicate Buildable(running: map<Url, Handle>, want: map<Url, Feed>, build: Feed -> bool) {
    forall u | u in want && NeedsStart(running, want, u) :: want[u].interval > 0 && build(want[u])
  }

  function Added(running: map<Url, Handle>, want: map<Url, Feed>): set<Url> { want.Keys - running.Keys }
  function Removed(running: map<Url, Handle>, want: map<Url, Feed>): set<Url> { running.Keys - want.Keys }
  function Changed(running: map<Url, Handle>, want: map<Url, Feed>): set<Url> {
    set u | u in want && u in running && running[u].cfg != want[u]
  }

  /** What an applied reconcile leaves behind. `firstId` bounds the ids handed out before it. */
  ghost predicate Reconciled(before: map<Url, Handle>, after: map<Url, Handle>, want: map<Url, Feed>, firstId: nat) {
    && after.Keys == want.Keys
    && (forall u | u in want :: after[u].cfg == want[u])
    && (forall u | u in want && !NeedsStart(before, want, u) :: after[u] == before[u])
    && (forall u | u in want && NeedsStart(before, want, u) :: after[u].id >= firstId)
  }

  ghost predicate Counts(before: map<Url, Handle>, want: map<Url, Feed>, o: Outcome) {
    && o.Applied?
    && o.added == |Added(before, want)|
    && o.removed == |Removed(before, want)|
    && o.changed == |Changed(before, want)|
  }

  /** Exactly the URLs of `up` have been started with their desired configuration. */
  ghost predicate Restarted(before: map<Url, Handle>, after: map<Url, Handle>, want: map<Url, Feed>,
                            up: set<Url>, firstId: nat)
  {
    && up <= want.Keys && after.Keys == before.Keys + up
    && (forall u | u in up :: after[u].cfg == want[u] && after[u].id >= firstId)
    && (forall u | u in before && u !in up :: after[u] == before[u])
  }

  lemma RestartedOneMore(before: map<Url, Handle>, was: map<Url, Handle>, now: map<Url, Handle>,
                         want: map<Url, Feed>, up: set<Url>, u: Url, firstId: nat)
    requires Restarted(before, was, want, up, firstId) && u in want && u in now
    requires now == was[u := now[u]] && now[u].cfg == want[u] && now[u].id >= firstId
    ensures Restarted(before, now, want, up + {u}, firstId)
  {
  }

  lemma RestartedIsReconciled(before: map<Url, Handle>, mid: map<Url, Handle>, after: map<Url, Handle>,
                              want: map<Url, Feed>, toStart: set<Url>, firstId: nat)
    requires mid == before - Removed(before, want)
    requires toStart == set u | u in want && NeedsStart(before, want, u)
    requires Restarted(mid, after, want, toStart, firstId)
    ensures Reconciled(before, after, want, firstId)
    ensures toStart - mid.Keys == Added(before, want) && toStart * mid.Keys == Changed(before, want)
  {
  }

  /** How many of the URLs started were not running before, and how many were. */
  ghost predicate Tally(before: set<Url>, up: set<Url>, added: nat, changed: nat) {
    added == |up - before| && changed == |up * before|
  }

  lemma TallyOneMore(before: set<Url>, up: set<Url>, u: Url, added: nat, changed: nat)
    requires Tally(before, up, added, changed) && u !in up
    ensures if u in before then Tally(before, up + {u}, added, changed + 1)
            else Tally(before, up + {u}, added + 1, changed)
  {
    if u in before {
      assert (up + {u}) * before == up * before + {u} && (up + {u}) - before == up - before;
    } else {
      assert (up + {u}) * before == up * before && (up + {u}) - before == up - before + {u};
    }
  }

  /** Some of the URLs are still to do, the others are up. */
  ghost predicate Parts(all: set<Url>, todo: set<Url>, up: set<Url>) {
    && (forall u | u in all :: u in todo || u in up)
    && (forall u | u in todo || u in up :: u in all)
    && (forall u | u in todo :: u !in up)
  }

  lemma PartsMove(all: set<Url>, todo: set<Url>, up: set<Url>, u: Url)
    requires Parts(all, todo, up) && u in todo
    ensures Parts(all, todo - {u}, up + {u}) && u in all && u !in up
  {
  }

  // ----- one loop per URL --------------------------------------------------------------------

  /** The poll loops alive after a history of events. */
  function LiveLoops(log: seq<Event>): map<Url, nat> {
    if log == [] then map[] else Next(LiveLoops(log[..|log| - 1]), log[|log| - 1])
  }

  function Next(live: map<Url, nat>, e: Event): map<Url, nat> {
    match e
    case Cancel(_, _) => live
    case Done(u, id) => if u in live && live[u] == id then live - {u} else live
    case Start(u, id) => live[u := id]
  }

  /** No loop is ever started while an older one of the same URL is alive. */
  ghost predicate Orderly(log: seq<Event>) {
    forall i | 0 <= i < |log| && log[i].Start? :: log[i].url !in LiveLoops(log[..i])
  }

  lemma OrderlyAppend(log: seq<Event>, e: Event)
    requires Orderly(log) && (e.Start? ==> e.url !in LiveLoops(log))
    ensures Orderly(log + [e])
    ensures (log + [e])[..|log|] == log
  {
    var longer := log + [e];
    forall i | 0 <= i < |longer| && longer[i].Start? ensures longer[i].url !in LiveLoops(longer[..i]) {
      if i < |log| { assert longer[..i] == log[..i]; } else { assert longer[..i] == log; }
    }
  }

  lemma LiveAfter(log: seq<Event>, e: Event)
    ensures LiveLoops(log + [e]) == Next(LiveLoops(log), e)
  {
    var longer := log + [e];
    assert longer[..|longer| - 1] == log && longer[|longer| - 1] == e;
  }

  /** The running map is exactly the set of loops alive, and none ever overlapped another. */
  ghost predicate Agrees(log: seq<Event>, running: map<Url, Handle>, nextId: nat) {
    && Orderly(log) && LiveLoops(log) == Ids(running)
    && forall u | u in running :: running[u].id < nextId
  }

  lemma StartAgrees(log: seq<Event>, running: map<Url, Handle>, nextId: nat, u: Url, cfg: Feed)
    requires Agrees(log, running, nextId) && u !in running
    ensures Agrees(log + [Start(u, nextId)], running[u := Handle(nextId, cfg)], nextId + 1)
  {
    OrderlyAppend(log, Start(u, nextId));
    LiveAfter(log, Start(u, nextId));
    assert Ids(running[u := Handle(nextId, cfg)]) == Ids(running)[u := nextId];
  }

  lemma StopAgrees(log: seq<Event>, running: map<Url, Handle>, nextId: nat, u: Url)
    requires Agrees(log, running, nextId) && u in running
    ensures var id := running[u].id; Agrees(log + [Cancel(u, id)] + [Done(u, id)], running - {u}, nextId)
  {
    var id := running[u].id;
    var cancelled := log + [Cancel(u, id)];
    OrderlyAppend(log, Cancel(u, id));
    LiveAfter(log, Cancel(u, id));
    OrderlyAppend(cancelled, Done(u, id));
    LiveAfter(cancelled, Done(u, id));
    assert Ids(running - {u}) == Ids(running) - {u};
  }

  function Ids(running: map<Url, Handle>): map<Url, nat> {
    map u | u in running :: running[u].id
  }

  class Scheduler {
    var running: map<Url, Handle>
    var log: seq<Event>
    var nextId: nat

    ghost predicate Valid() reads this { Agrees(log, running, nextId) }

    constructor ()
      ensures Valid() && running == map[]
    {
      running, log, nextId := map[], [], 0;
    }

    /** cancel, then wait for the loop to end. */
    method Stop(u: Url)
      requires Valid() && u in running
      modifies this`running, this`log
      ensures Valid() && running == old(running) - {u}
    {
      StopAgrees(log, running, nextId, u);
      var id := running[u].id;
      log := log + [Cancel(u, id)];
      log := log + [Done(u, id)];
      running := running - {u};
    }

    method StartFeed(u: Url, cfg: Feed)
      requires Valid() && u !in running
      modifies this
      ensures Valid() && running == old(running)[u := Handle(old(nextId), cfg)] && nextId == old(nextId) + 1
    {
      StartAgrees(log, running, nextId, u, cfg);
      log := log + [Start(u, nextId)];
      running := running[u := Handle(nextId, cfg)];
      nextId := nextId + 1;
    }

    /** Pre-build the pipelines of new and changed feeds; one failure aborts everything. */
    method Prebuild(want: map<Url, Feed>, build: Feed -> bool) returns (ok: bool, toStart: set<Url>)
      ensures ok <==> Buildable(running, want, build)
      ensures ok ==> toStart == set u | u in want && NeedsStart(running, want, u)
    {
      toStart := {};
      var todo := want.Keys;
      while todo != {}
        invariant todo <= want.Keys
        invariant toStart == set u | u in want && u !in todo && NeedsStart(running, want, u)
        invariant forall u | u in toStart :: want[u].interval > 0 && build(want[u])
        decreases todo
      {
        var u :| u in todo;
        todo := todo - {u};
        if NeedsStart(running, want, u) {
          if want[u].interval <= 0 || !build(want[u]) {
            return false, {};
          }
          toStart := toStart + {u};
        }
      }
      return true, toStart;
    }

    method StopRemoved(want: map<Url, Feed>) returns (ghost gone: set<Url>, removed: nat)
      requires Valid()
      modifies this`running, this`log
      ensures Valid() && gone == Removed(old(running), want) && removed == |gone|
      ensures running == old(running) - gone
    {
      removed, gone := 0, {};
      var todo := running.Keys;
      while todo != {}
        invariant Valid() && todo <= old(running).Keys && gone <= old(running).Keys && gone !! todo
        invariant forall u | u in old(running) :: u in gone <==> u !in want && u !in todo
        invariant removed == |gone| && running == old(running) - gone
        decreases todo
      {
        var u :| u in todo;
        todo := todo - {u};
        if u !in want {
          Stop(u);
          removed, gone := removed + 1, gone + {u};
        }
      }
    }

    /** Start or restart one feed. */
    method Restart(u: Url, cfg: Feed) returns (wasRunning: bool)
      requires Valid()
      modifies this
      ensures Valid() && wasRunning == (u in old(running))
      ensures running == old(running)[u := Handle(old(nextId), cfg)] && nextId == old(nextId) + 1
    {
      wasRunning := u in running;
      if wasRunning {
        Stop(u);
      }
      StartFeed(u, cfg);
    }

    method StartNext(want: map<Url, Feed>, u: Url, ghost before: map<Url, Handle>, ghost up: set<Url>,
                     ghost firstId: nat, added: nat, changed: nat)
      returns (added': nat, changed': nat)
      requires Valid() && nextId >= firstId && u in want && u !in up
      requires Restarted(before, running, want, up, firstId) && Tally(before.Keys, up, added, changed)
      modifies this
      ensures Valid() && nextId >= firstId
      ensures Restarted(before, running, want, up + {u}, firstId) && Tally(before.Keys, up + {u}, added', changed')
    {
      TallyOneMore(before.Keys, up, u, added, changed);
      var wasRunning := Restart(u, want[u]);
      RestartedOneMore(before, old(running), running, want, up, u, firstId);
      if wasRunning {
        return added, changed + 1;
      }
      return added + 1, changed;
    }

    method StartAll(want: map<Url, Feed>, toStart: set<Url>) returns (added: nat, changed: nat)
      requires Valid() && toStart <= want.Keys
      modifies this
      ensures Valid() && Restarted(old(running), running, want, toStart, old(nextId))
      ensures Tally(old(running).Keys, toStart, added, changed)
    {
      added, changed := 0, 0;
      var todo := toStart;
      ghost var before, firstId := running, nextId;
      ghost var up: set<Url> := {};
      while todo != {}
        invariant Valid() && nextId >= firstId
        invariant Parts(toStart, todo, up)
        invariant Restarted(before, running, want, up, firstId)
        invariant Tally(before.Keys, up, added, changed)
        decreases todo
      {
        var u :| u in todo;
        PartsMove(toStart, todo, up, u);
        added, changed := StartNext(want, u, before, up, firstId, added, changed);
        up := up + {u};
        todo := todo - {u};
      }
      assert up == toStart;
    }

    /** One reconcile. `desired` is None when the provider errors. */
    method Reconcile(desired: Option<seq<Feed>>, build: Feed -> bool) returns (o: Outcome)
      requires Valid()
      modifies this
      ensures Valid()
      ensures o.Aborted? <==> desired.None? || !Buildable(old(running), ByUrl(desired.value), build)
      ensures desired.Some? ==> var want := ByUrl(desired.value);
                (o.Aborted? <==> exists u ::
                  && u in want && (u !in old(running) || old(running)[u].cfg != want[u])
                  && (want[u].interval <= 0 || !build(want[u])))
      ensures o.Aborted? ==> unchanged(this)
      ensures o.Applied? ==> Reconciled(old(running), running, ByUrl(desired.value), old(nextId))
                             && Counts(old(running), ByUrl(desired.value), o)
    {
      if desired.None? {
        return Aborted;
      }
      var want := ByUrl(desired.value);
      var ok, toStart := Prebuild(want, build);
      if !ok {
        return Aborted;
      }
      ghost var before := running;
      ghost var gone;
      var removed;
      gone, removed := StopRemoved(want);
      ghost var mid := running;
      var added, changed := StartAll(want, toStart);
      RestartedIsReconciled(before, mid, running, want, toStart, old(nextId));
      return Applied(added, removed, changed);
    }
  }

  // ----- what a completed reconcile means ----------------------------------------------------

  /** Feeds are conserved: what runs afterwards is what ran before, plus added, minus removed. */
  lemma FeedsConserved(before: map<Url, Handle>, after: map<Url, Handle>, want: map<Url, Feed>, firstId: nat,
                       o: Outcome)
    requires Reconciled(before, after, want, firstId) && Counts(before, want, o)
    ensures |after| == |before| + o.added - o.removed
    ensures o.changed <= |after|
  {
    assert want.Keys == Added(before, want) + (want.Keys * before.Keys);
    assert before.Keys == Removed(before, want) + (want.Keys * before.Keys);
    assert |want.Keys| == |Added(before, want)| + |want.Keys * before.Keys|;
    assert |before.Keys| == |Removed(before, want)| + |want.Keys * before.Keys|;
    assert |after| == |after.Keys| == |want.Keys|;
    SubsetSize(Changed(before, want), want.Keys);
  }

  lemma {:induction false} SubsetSize(a: set<Url>, b: set<Url>)
    requires a <= b
    ensures |a| <= |b|
  {
    assert b == a + (b - a);
    assert |b| == |a| + |b - a|;
  }

  /** A repeat finds nothing to do, cannot abort, and reports (0, 0, 0). */
  lemma RepeatIsIdle(before: map<Url, Handle>, after: map<Url, Handle>, again: map<Url, Handle>,
                     want: map<Url, Feed>, firstId: nat, firstIdAgain: nat, build: Feed -> bool, o: Outcome)
    requires Reconciled(before, after, want, firstId)
    requires Reconciled(after, again, want, firstIdAgain) && Counts(after, want, o)
    ensures Buildable(after, want, build)
    ensures again == after && o == Applied(0, 0, 0)
  {
  }
}
