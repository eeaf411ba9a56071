/**
 The no-loss invariant over single steps. Any number of pollers of one feed, on instances that share a
 lease, a lapsed lease or none, work at the same time: each takes up changes, delivers them sink by
 sink, and sends its state writes, which may land after other pollers have moved on. A poll may end
 at any point, in the middle of a delivery too. A poller's own log holds the sink calls it has made.
 */
module Pollers {
  import opened Feeds
  import opened Detector
  import F = FanOut
  import P = Pipeline
  import Retry

  type Poller = nat

  /** A change being delivered: to how many sinks so far, and whether none of them dropped it. */
  datatype Job = Job(change: Change, done: nat, ok: bool)

  /** A write of the state store. */
  datatype Upsert = Upsert(id: Id, hash: Hash)

  datatype State = State(
    store: Store,
    logs: map<Poller, seq<F.Event>>,
    jobs: map<Poller, Job>,
    net: set<Upsert>)            // writes that reported an error and may land late, more than once or never

  ghost predicate Init(s: State) {
    s.store == map[] && s.logs == map[] && s.jobs == map[] && s.net == {}
  }

  function LogOf(s: State, p: Poller): seq<F.Event> { if p in s.logs then s.logs[p] else [] }

  function Logged(s: State, p: Poller, log: seq<F.Event>): State { s.(logs := s.logs[p := log]) }

  function Idle(s: State, p: Poller): State { s.(jobs := s.jobs - {p}) }

  datatype Action =
    | Start(p: Poller, change: Change)                          // detected in whatever store the poll has read
    | Deliver(p: Poller, tape: Retry.World, d: F.Delivered)     // to the next sink
    | Commit(p: Poller)
    | CommitError(p: Poller)
    | Land(w: Upsert)
    | Skip(p: Poller)                                           // some sink dropped the change
    | Crash(p: Poller, log: seq<F.Event>)                       // with part of a delivery made
    | Prune(ids: set<Id>)

  predicate Delivering(u: P.Setup, s: State, p: Poller) {
    p in s.jobs && s.jobs[p].done < |u.sinks|
  }

  /** Every sink has been delivered to and none dropped the change. */
  predicate Committable(u: P.Setup, s: State, p: Poller) {
    p in s.jobs && s.jobs[p].done == |u.sinks| && s.jobs[p].ok
  }

  function UpsertOf(j: Job): Upsert { Upsert(j.change.id, j.change.hash) }

  ghost predicate Step(u: P.Setup, s: State, a: Action, s': State)
    requires u.Valid()
  {
    match a
    case Start(p, change) =>
      p !in s.jobs && change.dlqFrom == "" && s' == s.(jobs := s.jobs[p := Job(change, 0, true)])
    case Deliver(p, tape, d) =>
      && Delivering(u, s, p)
      && var j := s.jobs[p];
         && Delivered(u, tape, LogOf(s, p), j.done, j.change) == Some(d)
         && s' == Logged(s, p, d.log).(jobs := s.jobs[p := j.(done := j.done + 1, ok := j.ok && d.state != F.Dropped)])
    case Commit(p) =>
      && Committable(u, s, p)
      && s' == Idle(s, p).(store := s.store[s.jobs[p].change.id := s.jobs[p].change.hash])
    case CommitError(p) =>
      Committable(u, s, p) && s' == Idle(s, p).(net := s.net + {UpsertOf(s.jobs[p])})
    case Land(w) => w in s.net && s' == s.(store := s.store[w.id := w.hash])
    case Skip(p) => p in s.jobs && s' == Idle(s, p)
    case Crash(p, log) => LogOf(s, p) <= log && s' == Logged(Idle(s, p), p, log)
    case Prune(ids) => s' == s.(store := s.store - ids)
  }

  /** RetryingPublisher.Deliver to the k-th sink of the feed. */
  ghost function Delivered(u: P.Setup, tape: Retry.World, log: seq<F.Event>, k: nat, change: Change)
    : Option<F.Delivered>
    requires u.Valid() && k < |u.sinks|
  {
    assert u.sinks[k] in u.sinks;
    F.Deliver(F.Env(u.cfg, u.retry, tape), log, u.sinks[k], change, F.Deep(u.cfg))
  }

  ghost predicate Linked(u: P.Setup, tr: seq<State>, acts: seq<Action>, i: nat)
    requires u.Valid() && i < |acts| && |tr| == |acts| + 1
  {
    Step(u, tr[i], acts[i], tr[i + 1])
  }

  ghost predicate Path(u: P.Setup, tr: seq<State>, acts: seq<Action>)
    requires u.Valid()
  {
    |tr| == |acts| + 1 && forall i | 0 <= i < |acts| :: Linked(u, tr, acts, i)
  }

  ghost predicate Run(u: P.Setup, tr: seq<State>, acts: seq<Action>)
    requires u.Valid()
  {
    Path(u, tr, acts) && Init(tr[0])
  }

  // ----- what every step keeps ------------------------------------------------------------------

  /** Some poller's calls show that every branch has taken the item. */
  ghost predicate Taken(u: P.Setup, s: State, id: Id, hash: Hash) {
    exists q :: P.Everywhere(u, LogOf(s, q), id, hash)
  }

  ghost predicate TakenBy(u: P.Setup, log: seq<F.Event>, k: nat, change: Change)
    requires k < |u.sinks|
  {
    F.Kept(u.cfg, log, u.sinks[k], F.Copy("", change.id, change.hash), F.Deep(u.cfg))
  }

  /** Unless something was dropped, the sinks delivered to have taken the change. */
  ghost predicate JobOk(u: P.Setup, log: seq<F.Event>, j: Job) {
    && j.done <= |u.sinks| && j.change.dlqFrom == ""
    && (j.ok ==> forall k | 0 <= k < j.done :: TakenBy(u, log, k, j.change))
  }

  ghost predicate JobsOk(u: P.Setup, s: State) {
    forall p | p in s.jobs :: JobOk(u, LogOf(s, p), s.jobs[p])
  }

  /** What is committed, or on its way to be, has been taken by every branch. */
  ghost predicate NoLoss(u: P.Setup, s: State) {
    && (forall id | id in s.store :: Taken(u, s, id, s.store[id]))
    && (forall w | w in s.net :: Taken(u, s, w.id, w.hash))
  }

  ghost predicate LogsGrow(s: State, s': State) {
    forall q :: LogOf(s, q) <= LogOf(s', q)
  }

  lemma DeliverGrows(u: P.Setup, tape: Retry.World, log: seq<F.Event>, k: nat, change: Change, d: F.Delivered)
    requires u.Valid() && k < |u.sinks| && Delivered(u, tape, log, k, change) == Some(d) && change.dlqFrom == ""
    ensures log <= d.log && (d.state != F.Dropped ==> TakenBy(u, d.log, k, change))
  {
    assert u.sinks[k] in u.sinks;
    F.DeliverKeeps(F.Env(u.cfg, u.retry, tape), log, u.sinks[k], change, F.Deep(u.cfg));
  }

  lemma StepGrowsLogs(u: P.Setup, s: State, a: Action, s': State)
    requires u.Valid() && JobsOk(u, s) && Step(u, s, a, s')
    ensures LogsGrow(s, s')
  {
    if a.Deliver? {
      assert JobOk(u, LogOf(s, a.p), s.jobs[a.p]);
      DeliverGrows(u, a.tape, LogOf(s, a.p), s.jobs[a.p].done, s.jobs[a.p].change, a.d);
    }
  }

  lemma JobStaysOk(u: P.Setup, log: seq<F.Event>, longer: seq<F.Event>, j: Job)
    requires JobOk(u, log, j) && log <= longer
    ensures JobOk(u, longer, j)
  {
    if j.ok {
      forall k | 0 <= k < j.done ensures TakenBy(u, longer, k, j.change) {
        assert TakenBy(u, log, k, j.change);
        F.KeptForGood(u.cfg, log, longer, u.sinks[k], F.Copy("", j.change.id, j.change.hash), F.Deep(u.cfg));
      }
    }
  }

  lemma JobMovesOn(u: P.Setup, tape: Retry.World, log: seq<F.Event>, j: Job, d: F.Delivered)
    requires u.Valid() && JobOk(u, log, j) && j.done < |u.sinks|
    requires Delivered(u, tape, log, j.done, j.change) == Some(d)
    ensures JobOk(u, d.log, j.(done := j.done + 1, ok := j.ok && d.state != F.Dropped))
  {
    DeliverGrows(u, tape, log, j.done, j.change, d);
    JobStaysOk(u, log, d.log, j);
  }

  lemma StepKeepsJobs(u: P.Setup, s: State, a: Action, s': State)
    requires u.Valid() && JobsOk(u, s) && Step(u, s, a, s')
    ensures JobsOk(u, s')
  {
    StepGrowsLogs(u, s, a, s');
    forall p | p in s'.jobs ensures JobOk(u, LogOf(s', p), s'.jobs[p]) {
      if a.Deliver? && a.p == p {
        assert JobOk(u, LogOf(s, p), s.jobs[p]);
        JobMovesOn(u, a.tape, LogOf(s, p), s.jobs[p], a.d);
      } else if p in s.jobs && s'.jobs[p] == s.jobs[p] {
        JobStaysOk(u, LogOf(s, p), LogOf(s', p), s.jobs[p]);
      }
    }
  }

  lemma TakenForGood(u: P.Setup, s: State, s': State, id: Id, hash: Hash)
    requires LogsGrow(s, s') && Taken(u, s, id, hash)
    ensures Taken(u, s', id, hash)
  {
    var q :| P.Everywhere(u, LogOf(s, q), id, hash);
    P.EverywhereForGood(u, LogOf(s, q), LogOf(s', q), id, hash);
  }

  lemma CommittableIsTaken(u: P.Setup, s: State, p: Poller)
    requires JobsOk(u, s) && Committable(u, s, p)
    ensures Taken(u, s, s.jobs[p].change.id, s.jobs[p].change.hash)
  {
    var j := s.jobs[p];
    assert JobOk(u, LogOf(s, p), j);
    var copy := F.Copy("", j.change.id, j.change.hash);
    forall b | b in u.sinks ensures F.Kept(u.cfg, LogOf(s, p), b, copy, F.Deep(u.cfg)) {
      var k :| 0 <= k < |u.sinks| && u.sinks[k] == b;
      assert TakenBy(u, LogOf(s, p), k, j.change);
    }
    assert P.Everywhere(u, LogOf(s, p), j.change.id, j.change.hash);
  }

  lemma StepKeepsNoLoss(u: P.Setup, s: State, a: Action, s': State)
    requires u.Valid() && JobsOk(u, s) && NoLoss(u, s) && Step(u, s, a, s')
    ensures NoLoss(u, s')
  {
    StepGrowsLogs(u, s, a, s');
    if a.Commit? || a.CommitError? { CommittableIsTaken(u, s, a.p); }
    forall id | id in s'.store ensures Taken(u, s', id, s'.store[id]) {
      TakenForGood(u, s, s', id, s'.store[id]);
    }
    forall w | w in s'.net ensures Taken(u, s', w.id, w.hash) {
      TakenForGood(u, s, s', w.id, w.hash);
    }
  }

  ghost predicate Safe(u: P.Setup, s: State) { JobsOk(u, s) && NoLoss(u, s) }

  lemma LinkKeepsSafe(u: P.Setup, tr: seq<State>, acts: seq<Action>, i: nat)
    requires u.Valid() && Path(u, tr, acts) && i < |acts| && Safe(u, tr[i])
    ensures Safe(u, tr[i + 1])
  {
    assert Linked(u, tr, acts, i);
    StepKeepsJobs(u, tr[i], acts[i], tr[i + 1]);
    StepKeepsNoLoss(u, tr[i], acts[i], tr[i + 1]);
  }

  lemma {:induction false} RunIsSafe(u: P.Setup, tr: seq<State>, acts: seq<Action>, i: nat)
    requires u.Valid() && Run(u, tr, acts) && i < |tr|
    ensures Safe(u, tr[i])
  {
    if i > 0 {
      RunIsSafe(u, tr, acts, i - 1);
      LinkKeepsSafe(u, tr, acts, i - 1);
    }
  }

  /** At every moment of every run, what is committed has been taken by every branch, from one poller's hands. */
  lemma CommittedWasTaken(u: P.Setup, tr: seq<State>, acts: seq<Action>, i: nat, id: Id)
    requires u.Valid() && Run(u, tr, acts) && i < |tr| && id in tr[i].store
    ensures exists q :: P.Everywhere(u, LogOf(tr[i], q), id, tr[i].store[id])
  {
    RunIsSafe(u, tr, acts, i);
    assert Taken(u, tr[i], id, tr[i].store[id]);
  }

  // ----- a whole poll is a run of these steps --------------------------------------------------------

  lemma Append(u: P.Setup, tr: seq<State>, acts: seq<Action>, a: Action, s: State)
    requires u.Valid() && Path(u, tr, acts) && Step(u, tr[|tr| - 1], a, s)
    ensures Path(u, tr + [s], acts + [a])
  {
    var tr', acts' := tr + [s], acts + [a];
    forall i | 0 <= i < |acts'| ensures Linked(u, tr', acts', i) {
      if i < |acts| { assert Linked(u, tr, acts, i); }
    }
  }

  /** What delivering to the sinks from the k-th on amounts to, given how it went so far. */
  ghost function Rest(u: P.Setup, tape: Retry.World, log: seq<F.Event>, k: nat, change: Change, ok: bool): F.Published
    requires u.Valid() && k <= |u.sinks|
    decreases |u.sinks| - k
  {
    if k == |u.sinks| then F.Published(log, ok)
    else
      var d := OneSink(u, tape, log, k, change);
      Rest(u, tape, d.log, k + 1, change, ok && d.state != F.Dropped)
  }

  ghost function OneSink(u: P.Setup, tape: Retry.World, log: seq<F.Event>, k: nat, change: Change): (d: F.Delivered)
    requires u.Valid() && k < |u.sinks|
    ensures Delivered(u, tape, log, k, change) == Some(d)
  {
    SinkFinishes(u, tape, log, k, change);
    Delivered(u, tape, log, k, change).value
  }

  lemma SinkFinishes(u: P.Setup, tape: Retry.World, log: seq<F.Event>, k: nat, change: Change)
    requires u.Valid() && k < |u.sinks|
    ensures Delivered(u, tape, log, k, change).Some?
  {
    assert u.sinks[k] in u.sinks;
    var one := u.(sinks := [u.sinks[k]]);
    P.DeliveryFinishes(one, F.Env(u.cfg, u.retry, tape), log, change);
  }

  /** Sink by sink is what the composite's loop computes. */
  lemma {:induction false} RestIsAll(u: P.Setup, tape: Retry.World, log: seq<F.Event>, k: nat, change: Change, ok: bool)
    requires u.Valid() && k <= |u.sinks|
    ensures F.DeliverAll(F.Env(u.cfg, u.retry, tape), log, u.sinks[k..], change, F.Deep(u.cfg)).Some?
    ensures var f := F.DeliverAll(F.Env(u.cfg, u.retry, tape), log, u.sinks[k..], change, F.Deep(u.cfg)).value;
            Rest(u, tape, log, k, change, ok) == F.Published(f.log, ok && f.ok)
    decreases |u.sinks| - k
  {
    if k < |u.sinks| {
      var d := OneSink(u, tape, log, k, change);
      RestIsAll(u, tape, d.log, k + 1, change, ok && d.state != F.Dropped);
      assert u.sinks[k..][0] == u.sinks[k] && u.sinks[k..][1..] == u.sinks[k + 1..];
    }
  }

  lemma {:induction false} DeliversRest(u: P.Setup, s: State, p: Poller, tape: Retry.World)
    returns (tr: seq<State>, acts: seq<Action>)
    requires u.Valid() && p in s.jobs && s.jobs[p].done <= |u.sinks|
    ensures Path(u, tr, acts) && tr[0] == s
    ensures var j := s.jobs[p]; var f := Rest(u, tape, LogOf(s, p), j.done, j.change, j.ok);
            var e := tr[|tr| - 1];
            LogOf(e, p) == f.log && e.store == s.store && p in e.jobs && e.jobs[p] == Job(j.change, |u.sinks|, f.ok)
    decreases |u.sinks| - s.jobs[p].done
  {
    var j := s.jobs[p];
    if j.done == |u.sinks| {
      tr, acts := [s], [];
    } else {
      var d := OneSink(u, tape, LogOf(s, p), j.done, j.change);
      var a := Deliver(p, tape, d);
      var s1 := Logged(s, p, d.log).(jobs := s.jobs[p := j.(done := j.done + 1, ok := j.ok && d.state != F.Dropped)]);
      var more, steps := DeliversRest(u, s1, p, tape);
      Prepend(u, s, a, more, steps);
      tr, acts := [s] + more, [a] + steps;
    }
  }

  lemma Prepend(u: P.Setup, s: State, a: Action, tr: seq<State>, acts: seq<Action>)
    requires u.Valid() && Path(u, tr, acts) && Step(u, s, a, tr[0])
    ensures Path(u, [s] + tr, [a] + acts)
  {
    var tr', acts' := [s] + tr, [a] + acts;
    forall i | 0 <= i < |acts'| ensures Linked(u, tr', acts', i) {
      if i > 0 { assert Linked(u, tr, acts, i - 1); }
    }
  }

  /** An idle poller takes up a change and delivers it to all sinks. */
  lemma DeliversAll(u: P.Setup, poll: P.Poll, s: State, p: Poller, change: Change)
    returns (tr: seq<State>, acts: seq<Action>)
    requires u.Valid() && change.dlqFrom == "" && p !in s.jobs
    ensures Path(u, tr, acts) && tr[0] == s
    ensures var e, f := tr[|tr| - 1], P.Fanned(u, poll, LogOf(s, p), change);
            LogOf(e, p) == f.log && e.store == s.store && p in e.jobs && e.jobs[p] == Job(change, |u.sinks|, f.ok)
  {
    var s1 := s.(jobs := s.jobs[p := Job(change, 0, true)]);
    var more, steps := DeliversRest(u, s1, p, poll.tape);
    RestIsAll(u, poll.tape, LogOf(s, p), 0, change, true);
    assert u.sinks[0..] == u.sinks;
    Prepend(u, s, Start(p, change), more, steps);
    tr, acts := [s] + more, [Start(p, change)] + steps;
  }

  /** It then commits, with whatever becomes of the write, or skips the change. */
  lemma Closes(u: P.Setup, e: State, p: Poller, w: P.Write) returns (a: Action, e': State)
    requires u.Valid() && p in e.jobs && e.jobs[p].done == |u.sinks|
    ensures Step(u, e, a, e') && LogOf(e', p) == LogOf(e, p) && p !in e'.jobs
    ensures e'.store == if e.jobs[p].ok then P.Upserted(e.store, e.jobs[p].change, w) else e.store
  {
    var j := e.jobs[p];
    if !j.ok {
      a, e' := Skip(p), Idle(e, p);
    } else if w == P.ErrorLost {
      a, e' := CommitError(p), Idle(e, p).(net := e.net + {UpsertOf(j)});
    } else {
      a, e' := Commit(p), Idle(e, p).(store := e.store[j.change.id := j.change.hash]);
    }
  }

  /** The way an idle poller handles one change in a whole poll is one of these runs. */
  lemma HandledIsRun(u: P.Setup, poll: P.Poll, ps: P.State, change: Change, i: nat, s: State, p: Poller)
    returns (tr: seq<State>, acts: seq<Action>)
    requires u.Valid() && change.dlqFrom == "" && p !in s.jobs && s.store == ps.store && LogOf(s, p) == ps.log
    ensures Path(u, tr, acts) && tr[0] == s
    ensures var e, h := tr[|tr| - 1], P.Handled(u, poll, ps, change, i);
            e.store == h.store && LogOf(e, p) == h.log && p !in e.jobs
  {
    tr, acts := DeliversAll(u, poll, s, p, change);
    var a, e := Closes(u, tr[|tr| - 1], p, poll.commit(i));
    Append(u, tr, acts, a, e);
    tr, acts := tr + [e], acts + [a];
  }

  lemma Joined(u: P.Setup, tr: seq<State>, acts: seq<Action>, more: seq<State>, steps: seq<Action>)
    requires u.Valid() && Path(u, tr, acts) && Path(u, more, steps) && tr[|tr| - 1] == more[0]
    ensures Path(u, tr + more[1..], acts + steps)
  {
    var tr', acts' := tr + more[1..], acts + steps;
    forall i | 0 <= i < |acts'| ensures Linked(u, tr', acts', i) {
      if i < |acts| {
        assert Linked(u, tr, acts, i);
      } else {
        var j := i - |acts|;
        assert Linked(u, more, steps, j);
        assert tr'[i] == more[j] && tr'[i + 1] == more[j + 1];
      }
    }
  }

  /** So is a whole poll: the sequential pipeline does nothing the step model does not. */
  lemma {:induction false} HandledAllIsRun(u: P.Setup, poll: P.Poll, ps: P.State, changes: seq<Change>,
                                           s: State, p: Poller)
    returns (tr: seq<State>, acts: seq<Action>)
    requires u.Valid() && (forall c | c in changes :: c.dlqFrom == "")
    requires p !in s.jobs && s.store == ps.store && LogOf(s, p) == ps.log
    ensures Path(u, tr, acts) && tr[0] == s
    ensures var e, h := tr[|tr| - 1], P.HandledAll(u, poll, ps, changes);
            e.store == h.store && LogOf(e, p) == h.log && p !in e.jobs
    decreases |changes|
  {
    if changes == [] {
      tr, acts := [s], [];
    } else {
      var n := |changes| - 1;
      tr, acts := HandledAllIsRun(u, poll, ps, changes[..n], s, p);
      var e, h := tr[|tr| - 1], P.HandledAll(u, poll, ps, changes[..n]);
      var more, steps := HandledIsRun(u, poll, h, changes[n], n, e, p);
      Joined(u, tr, acts, more, steps);
      tr, acts := tr + more[1..], acts + steps;
    }
  }
}
