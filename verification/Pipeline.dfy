/**
 One feed's poll pipeline: acquire the lease, fetch, store the HTTP validators, detect, deliver each
 change to every sink, and commit a change to the state store only when no sink dropped it.
 Everything outside the pipeline (lease, HTTP, store errors, sinks) is an input of the poll.
 */
module Pipeline {
  import opened Feeds
  import opened Detector
  import F = FanOut
  import C = CompositeCycle
  import Retry

  datatype Lease = Acquired | NotOwner | LeaseError

  datatype Fetch = FetchError | NotModified | Body(items: seq<Item>, validators: nat)

  /** What becomes of one write: an error may or may not have let it through. */
  datatype Write = Ok | ErrorLanded | ErrorLost

  datatype Poll = Poll(
    at: int,
    lease: Lease,
    metaReadable: bool,
    fetch: Fetch,
    metaWrite: Write,
    broken: set<Id>,            // ids whose lookup fails
    tape: Retry.World,          // the sinks' answers
    commit: nat -> Write)       // the fate of the i-th state write

  datatype State = State(
    store: Store,               // committed item hashes of this feed
    validators: nat,            // ETag and Last-Modified
    log: seq<F.Event>)          // every call of a sink so far

  /**
   The feed's sinks and the configuration they live in. What they enter may not call itself for ever, and
   no sink has the empty name, which marks a copy that is no dead letter.
   */
  datatype Setup = Setup(feed: string, cfg: F.Config, retry: Retry.Config, sinks: seq<F.Name>)
  {
    ghost predicate Valid() {
      && F.Declared(cfg) && "" !in cfg
      && forall b | b in sinks ::
           b in cfg && (F.Target(cfg, b).Some? ==> !C.CycleReachable(F.Calls(cfg), F.Target(cfg, b).value))
    }

    function Env(p: Poll): F.Env { F.Env(cfg, retry, p.tape) }
  }

  lemma DeliveryFinishes(u: Setup, e: F.Env, log: seq<F.Event>, change: Change)
    requires u.Valid() && e.cfg == u.cfg
    ensures F.DeliverAll(e, log, u.sinks, change, F.Deep(u.cfg)).Some?
  {
    forall i, x | 0 <= i < |u.sinks| && F.Target(u.cfg, u.sinks[i]) == Some(x)
      ensures !C.CanWalk(F.Calls(u.cfg), x, F.Deep(u.cfg))
    {
      assert u.sinks[i] in u.sinks;
      C.CycleIffEndless(F.Calls(u.cfg), x, 0);
    }
    F.ShortWalksFinishAll(e, log, u.sinks, change, F.Deep(u.cfg));
  }

  // ----- the meaning of a poll ------------------------------------------------------------------

  /** The delivery of one change to all sinks. */
  ghost function Fanned(u: Setup, p: Poll, log: seq<F.Event>, change: Change): F.Published
    requires u.Valid()
  {
    DeliveryFinishes(u, u.Env(p), log, change);
    F.DeliverAll(u.Env(p), log, u.sinks, change, F.Deep(u.cfg)).value
  }

  function Upserted(store: Store, change: Change, w: Write): Store {
    if w == ErrorLost then store else store[change.id := change.hash]
  }

  /** One change: deliver, then commit if no sink dropped it. */
  ghost function Handled(u: Setup, p: Poll, s: State, change: Change, i: nat): State
    requires u.Valid()
  {
    var d := Fanned(u, p, s.log, change);
    State(if d.ok then Upserted(s.store, change, p.commit(i)) else s.store, s.validators, d.log)
  }

  ghost function HandledAll(u: Setup, p: Poll, s: State, changes: seq<Change>): State
    requires u.Valid()
  {
    if changes == [] then s
    else Handled(u, p, HandledAll(u, p, s, changes[..|changes| - 1]), changes[|changes| - 1], |changes| - 1)
  }

  datatype Outcome = Polled(changes: seq<Change>) | Failed

  predicate LookupFails(p: Poll) {
    p.fetch.Body? && exists i :: 0 <= i < |p.fetch.items| && p.fetch.items[i].id in p.broken
  }

  /** The poll got as far as detection and detection succeeded. */
  predicate Detects(p: Poll) {
    p.lease == Acquired && p.metaReadable && p.fetch.Body? && !LookupFails(p)
  }

  function Emitted(u: Setup, p: Poll, s: State): seq<Change> {
    if Detects(p) then Changes(u.feed, s.store, StableSort(p.fetch.items), p.at) else []
  }

  /** The state in which a poll with a body starts to deliver. */
  function Entered(p: Poll, s: State): State
    requires p.fetch.Body?
  {
    s.(validators := if p.metaWrite == ErrorLost then s.validators else p.fetch.validators)
  }

  ghost function After(u: Setup, p: Poll, s: State): State
    requires u.Valid()
  {
    if p.lease != Acquired || !p.metaReadable || !p.fetch.Body? then s
    else
      HandledAll(u, p, Entered(p, s), Emitted(u, p, s))
  }

  // ----- the pipeline object ----------------------------------------------------------------------

  class Runner {
    const setup: Setup
    var store: Store
    var validators: nat
    const delivery: F.Delivery

    ghost predicate Valid() reads this { setup.Valid() }

    ghost function View(): State reads this, delivery {
      State(store, validators, delivery.log)
    }

    constructor (setup: Setup)
      requires setup.Valid()
      ensures Valid() && View() == State(map[], 0, []) && this.setup == setup && fresh(delivery)
    {
      this.setup := setup;
      store, validators := map[], 0;
      delivery := new F.Delivery([]);
    }

    /** Deliver one change to every sink, dropped or not. */
    method DeliverToSinks(p: Poll, change: Change) returns (allOk: bool)
      requires Valid()
      modifies delivery
      ensures F.Published(delivery.log, allOk) == Fanned(setup, p, old(delivery.log), change)
    {
      allOk := true;
      ghost var e, bound := setup.Env(p), F.Deep(setup.cfg);
      DeliveryFinishes(setup, e, delivery.log, change);
      ghost var whole := F.DeliverAll(e, delivery.log, setup.sinks, change, bound).value;
      for i := 0 to |setup.sinks|
        invariant F.DeliverAll(e, delivery.log, setup.sinks[i..], change, bound).Some?
        invariant var rest := F.DeliverAll(e, delivery.log, setup.sinks[i..], change, bound).value;
                  whole.log == rest.log && whole.ok == (allOk && rest.ok)
      {
        assert setup.sinks[i..][1..] == setup.sinks[i + 1..] && setup.sinks[i..][0] == setup.sinks[i];
        var state, _ := delivery.DeliverTo(setup.Env(p), setup.sinks[i], change, bound);
        if state == F.Dropped {
          allOk := false;
        }
      }
    }

    /** Each change in turn; only what no sink dropped is committed. */
    method HandleChanges(p: Poll, changes: seq<Change>)
      requires Valid()
      modifies this`store, delivery
      ensures View() == HandledAll(setup, p, old(View()), changes)
    {
      ghost var s0 := View();
      for i := 0 to |changes|
        invariant View() == HandledAll(setup, p, s0, changes[..i])
      {
        assert changes[..i + 1][..i] == changes[..i];
        var allOk := DeliverToSinks(p, changes[i]);
        if allOk && p.commit(i) != ErrorLost {
          store := store[changes[i].id := changes[i].hash];
        }
      }
      assert changes[..|changes|] == changes;
    }

    method RunOnce(p: Poll) returns (o: Outcome)
      requires Valid()
      modifies this, delivery
      ensures Valid() && View() == After(setup, p, old(View()))
      ensures o.Polled? ==> o.changes == Emitted(setup, p, old(View()))
      ensures o.Failed? <==> p.lease == Acquired && (!p.metaReadable || p.fetch.FetchError? || LookupFails(p))
      ensures p.lease != Acquired || !p.metaReadable || p.fetch.FetchError? || p.fetch.NotModified? ==>
                View() == old(View()) && (o.Polled? ==> o.changes == [])
    {
      if p.lease != Acquired {
        return Polled([]);
      }
      if !p.metaReadable {
        return Failed;
      }
      if p.fetch.FetchError? {
        return Failed;
      }
      if p.fetch.NotModified? {
        return Polled([]);
      }
      if p.metaWrite != ErrorLost {
        validators := p.fetch.validators;
      }
      var r := Detect(setup.feed, p.fetch.items, store, p.broken, p.at);
      if r.StoreError? {
        return Failed;
      }
      HandleChanges(p, r.changes);
      return Polled(r.changes);
    }
  }

  // ----- what a poll does, case by case -------------------------------------------------------------

  /** Without the lease, a readable meta and a body, a poll does nothing and reports nothing. */
  lemma IdlePoll(u: Setup, p: Poll, s: State)
    requires u.Valid() && (p.lease != Acquired || !p.metaReadable || p.fetch.FetchError? || p.fetch.NotModified?)
    ensures After(u, p, s) == s && Emitted(u, p, s) == []
  {
  }

  /** A poll that gets a body stores its validators, whatever follows; a failed lookup then ends it. */
  lemma BodyPoll(u: Setup, p: Poll, s: State)
    requires u.Valid() && p.lease == Acquired && p.metaReadable && p.fetch.Body?
    ensures p.metaWrite != ErrorLost ==> After(u, p, s).validators == p.fetch.validators
    ensures p.metaWrite == ErrorLost ==> After(u, p, s).validators == s.validators
    ensures (exists it :: it in p.fetch.items && it.id in p.broken) ==>
              Emitted(u, p, s) == [] && After(u, p, s).store == s.store && After(u, p, s).log == s.log
  {
    HandledKeepsValidators(u, p, Entered(p, s), Emitted(u, p, s));
    if it :| it in p.fetch.items && it.id in p.broken {
      var i :| 0 <= i < |p.fetch.items| && p.fetch.items[i] == it;
      assert LookupFails(p);
    }
  }

  /** Every sink is delivered to, in order, whatever became of the ones before it. */
  lemma EverySinkInTurn(u: Setup, p: Poll, log: seq<F.Event>, change: Change) returns (ds: seq<F.Delivered>)
    requires u.Valid()
    ensures F.InTurn(u.Env(p), log, u.sinks, change, F.Deep(u.cfg), ds)
    ensures Fanned(u, p, log, change) == F.Published(F.LogBefore(log, ds, |ds|), F.NoneDropped(ds))
  {
    DeliveryFinishes(u, u.Env(p), log, change);
    ds := F.EachChildInTurn(u.Env(p), log, u.sinks, change, F.Deep(u.cfg));
  }

  /** The log before the i-th change: each change is delivered, in order, whatever became of the ones before it. */
  ghost predicate ChangeByChange(u: Setup, p: Poll, log: seq<F.Event>, changes: seq<Change>, logs: seq<seq<F.Event>>)
    requires u.Valid()
  {
    && |logs| == |changes| + 1 && logs[0] == log
    && forall i | 0 <= i < |changes| :: logs[i + 1] == Fanned(u, p, logs[i], changes[i]).log
  }

  /** The i-th change was dropped by no sink and its state write was not lost. */
  ghost predicate CommitsAt(u: Setup, p: Poll, changes: seq<Change>, logs: seq<seq<F.Event>>, i: nat)
    requires u.Valid() && i < |changes| < |logs|
  {
    Fanned(u, p, logs[i], changes[i]).ok && p.commit(i) != ErrorLost
  }

  /** The i-th change is the last of its id that was committed. */
  ghost predicate LastCommit(u: Setup, p: Poll, changes: seq<Change>, logs: seq<seq<F.Event>>, i: nat)
    requires u.Valid() && i < |changes| < |logs|
  {
    CommitsAt(u, p, changes, logs, i)
    && forall j | i < j < |changes| && changes[j].id == changes[i].id :: !CommitsAt(u, p, changes, logs, j)
  }

  lemma {:induction false} EveryChangeInTurn(u: Setup, p: Poll, s: State, changes: seq<Change>)
    returns (logs: seq<seq<F.Event>>)
    requires u.Valid()
    ensures ChangeByChange(u, p, s.log, changes, logs)
    ensures GoesThrough(u, p, s, changes, logs)
    decreases |changes|
  {
    if changes == [] {
      logs := [s.log];
    } else {
      var n := |changes| - 1;
      var front := EveryChangeInTurn(u, p, s, changes[..n]);
      logs := front + [HandledAll(u, p, s, changes).log];
      assert changes[..|changes|] == changes && changes[..n][..n] == changes[..n];
      forall i | 0 <= i < |changes| ensures logs[i + 1] == Fanned(u, p, logs[i], changes[i]).log {
        if i < n {
          assert changes[..n][i] == changes[i] && front[i + 1] == Fanned(u, p, front[i], changes[..n][i]).log;
        }
      }
      forall i | 0 <= i <= |changes| ensures logs[i] == HandledAll(u, p, s, changes[..i]).log {
        if i <= n { assert changes[..n][..i] == changes[..i]; }
      }
    }
  }

  /** The logs are those the poll goes through. */
  ghost predicate GoesThrough(u: Setup, p: Poll, s: State, changes: seq<Change>, logs: seq<seq<F.Event>>)
    requires u.Valid()
  {
    |logs| == |changes| + 1 && forall i | 0 <= i <= |changes| :: logs[i] == HandledAll(u, p, s, changes[..i]).log
  }

  /** Store t has the hash of the last committed change of this id, or what it had if there is none. */
  ghost predicate Exactly(u: Setup, p: Poll, before: Store, changes: seq<Change>, logs: seq<seq<F.Event>>,
                          id: Id, t: Store)
    requires u.Valid() && |logs| == |changes| + 1
  {
    && (forall i | 0 <= i < |changes| && changes[i].id == id && LastCommit(u, p, changes, logs, i) ::
          id in t && t[id] == changes[i].hash)
    && ((forall i | 0 <= i < |changes| && changes[i].id == id :: !CommitsAt(u, p, changes, logs, i)) ==>
          (id in t <==> id in before) && (id in t ==> t[id] == before[id]))
  }

  lemma FrontCommits(u: Setup, p: Poll, changes: seq<Change>, logs: seq<seq<F.Event>>, i: nat)
    requires u.Valid() && |logs| == |changes| + 1 && i < |changes| - 1
    ensures CommitsAt(u, p, changes[..|changes| - 1], logs[..|changes|], i) <==> CommitsAt(u, p, changes, logs, i)
  {
  }

  lemma FrontLastCommit(u: Setup, p: Poll, changes: seq<Change>, logs: seq<seq<F.Event>>, i: nat)
    requires u.Valid() && |logs| == |changes| + 1 && i < |changes| - 1 && LastCommit(u, p, changes, logs, i)
    ensures LastCommit(u, p, changes[..|changes| - 1], logs[..|changes|], i)
  {
    var front, shorter := changes[..|changes| - 1], logs[..|changes|];
    FrontCommits(u, p, changes, logs, i);
    forall j | i < j < |front| && front[j].id == front[i].id ensures !CommitsAt(u, p, front, shorter, j) {
      FrontCommits(u, p, changes, logs, j);
      assert changes[j].id == changes[i].id;
    }
  }

  lemma OneMoreCommit(u: Setup, p: Poll, before: Store, changes: seq<Change>, logs: seq<seq<F.Event>>, id: Id,
                      was: Store, t: Store)
    requires u.Valid() && |logs| == |changes| + 1 && changes != []
    requires Exactly(u, p, before, changes[..|changes| - 1], logs[..|changes|], id, was)
    requires var n := |changes| - 1;
             t == if CommitsAt(u, p, changes, logs, n) then was[changes[n].id := changes[n].hash] else was
    ensures Exactly(u, p, before, changes, logs, id, t)
  {
    var n := |changes| - 1;
    var front, shorter := changes[..n], logs[..n + 1];
    forall i | 0 <= i < n ensures CommitsAt(u, p, front, shorter, i) <==> CommitsAt(u, p, changes, logs, i) {
      FrontCommits(u, p, changes, logs, i);
    }
    forall i | 0 <= i < |changes| && changes[i].id == id && LastCommit(u, p, changes, logs, i)
      ensures id in t && t[id] == changes[i].hash
    {
      if i < n {
        FrontLastCommit(u, p, changes, logs, i);
        assert changes[..n][i] == changes[i];
      }
    }
  }

  /** Exactly what is committed: for every id its last committed change, and nothing else. */
  lemma {:induction false} CommitsExactly(u: Setup, p: Poll, s: State, changes: seq<Change>,
                                          logs: seq<seq<F.Event>>, id: Id)
    requires u.Valid() && GoesThrough(u, p, s, changes, logs)
    ensures Exactly(u, p, s.store, changes, logs, id, HandledAll(u, p, s, changes).store)
    decreases |changes|
  {
    if changes != [] {
      var n := |changes| - 1;
      FrontGoesThrough(u, p, s, changes, logs);
      CommitsExactly(u, p, s, changes[..n], logs[..n + 1], id);
      var was, t := LastChange(u, p, s, changes, logs);
      OneMoreCommit(u, p, s.store, changes, logs, id, was, t);
    }
  }

  /** What the last change does to the store. */
  lemma LastChange(u: Setup, p: Poll, s: State, changes: seq<Change>, logs: seq<seq<F.Event>>)
    returns (was: Store, t: Store)
    requires u.Valid() && GoesThrough(u, p, s, changes, logs) && changes != []
    ensures was == HandledAll(u, p, s, changes[..|changes| - 1]).store && t == HandledAll(u, p, s, changes).store
    ensures var n := |changes| - 1;
            t == if CommitsAt(u, p, changes, logs, n) then was[changes[n].id := changes[n].hash] else was
  {
    was, t := HandledAll(u, p, s, changes[..|changes| - 1]).store, HandledAll(u, p, s, changes).store;
    assert logs[|changes| - 1] == HandledAll(u, p, s, changes[..|changes| - 1]).log;
  }

  lemma FrontGoesThrough(u: Setup, p: Poll, s: State, changes: seq<Change>, logs: seq<seq<F.Event>>)
    requires u.Valid() && GoesThrough(u, p, s, changes, logs) && changes != []
    ensures GoesThrough(u, p, s, changes[..|changes| - 1], logs[..|changes|])
  {
    var n := |changes| - 1;
    forall i | 0 <= i <= n ensures logs[..n + 1][i] == HandledAll(u, p, s, changes[..n][..i]).log {
      assert changes[..n][..i] == changes[..i];
    }
  }

  // ----- no loss --------------------------------------------------------------------------------

  /** Every branch has taken its own copy of the item, or its dead letter has taken the branch's envelope. */
  ghost predicate Everywhere(u: Setup, log: seq<F.Event>, id: Id, hash: Hash) {
    forall b | b in u.sinks :: F.Kept(u.cfg, log, b, F.Copy("", id, hash), F.Deep(u.cfg))
  }

  /** What is committed has been delivered. */
  ghost predicate NoLoss(u: Setup, s: State) {
    forall id | id in s.store :: Everywhere(u, s.log, id, s.store[id])
  }

  lemma EverywhereForGood(u: Setup, log: seq<F.Event>, longer: seq<F.Event>, id: Id, hash: Hash)
    requires log <= longer && Everywhere(u, log, id, hash)
    ensures Everywhere(u, longer, id, hash)
  {
    forall b | b in u.sinks ensures F.Kept(u.cfg, longer, b, F.Copy("", id, hash), F.Deep(u.cfg)) {
      F.KeptForGood(u.cfg, log, longer, b, F.Copy("", id, hash), F.Deep(u.cfg));
    }
  }

  lemma HandledKeepsNoLoss(u: Setup, p: Poll, s: State, change: Change, i: nat)
    requires u.Valid() && NoLoss(u, s) && change.dlqFrom == ""
    ensures NoLoss(u, Handled(u, p, s, change, i)) && s.log <= Handled(u, p, s, change, i).log
  {
    var s' := Handled(u, p, s, change, i);
    DeliveryFinishes(u, u.Env(p), s.log, change);
    F.AllLand(u.Env(p), s.log, u.sinks, change, F.Deep(u.cfg));
    forall id | id in s'.store ensures Everywhere(u, s'.log, id, s'.store[id]) {
      if id in s.store && s'.store[id] == s.store[id] {
        EverywhereForGood(u, s.log, s'.log, id, s.store[id]);
      }
    }
  }

  lemma {:induction false} HandledAllKeepsNoLoss(u: Setup, p: Poll, s: State, changes: seq<Change>)
    requires u.Valid() && NoLoss(u, s) && forall c | c in changes :: c.dlqFrom == ""
    ensures NoLoss(u, HandledAll(u, p, s, changes))
    decreases |changes|
  {
    if changes != [] {
      var front := changes[..|changes| - 1];
      HandledAllKeepsNoLoss(u, p, s, front);
      HandledKeepsNoLoss(u, p, HandledAll(u, p, s, front), changes[|changes| - 1], |changes| - 1);
    }
  }

  /** A poll's changes are no dead letters. */
  lemma EmittedAreNoLetters(u: Setup, p: Poll, s: State)
    ensures forall c | c in Emitted(u, p, s) :: c.dlqFrom == ""
  {
    if Detects(p) { ChangesAreNoLetters(u.feed, s.store, StableSort(p.fetch.items), p.at); }
  }

  /** Between polls the store may prune old entries. */
  datatype Event = PollOnce(poll: Poll) | Prune(ids: set<Id>)

  ghost function Stepped(u: Setup, s: State, e: Event): State
    requires u.Valid()
  {
    match e
    case PollOnce(p) => After(u, p, s)
    case Prune(ids) => s.(store := s.store - ids)
  }

  ghost function History(u: Setup, events: seq<Event>): State
    requires u.Valid()
  {
    if events == [] then State(map[], 0, [])
    else Stepped(u, History(u, events[..|events| - 1]), events[|events| - 1])
  }

  /** Over every history of polls, failures and prunings: committed means accepted by every branch. */
  lemma {:induction false} CommittedWasDelivered(u: Setup, events: seq<Event>)
    requires u.Valid()
    ensures NoLoss(u, History(u, events))
    decreases |events|
  {
    if events != [] {
      var s := History(u, events[..|events| - 1]);
      CommittedWasDelivered(u, events[..|events| - 1]);
      match events[|events| - 1]
      case Prune(_) =>
      case PollOnce(p) =>
        if p.lease == Acquired && p.metaReadable && p.fetch.Body? {
          EmittedAreNoLetters(u, p, s);
          HandledAllKeepsNoLoss(u, p, Entered(p, s), Emitted(u, p, s));
        }
    }
  }

  /** After any history, a poll emits an item of its body exactly when that hash is not committed. */
  lemma UncommittedIsReemitted(u: Setup, events: seq<Event>, p: Poll, it: Item)
    requires u.Valid() && Detects(p) && it in p.fetch.items
    ensures !(it.id in History(u, events).store && History(u, events).store[it.id] == it.hash) <==>
              exists c :: c in Emitted(u, p, History(u, events)) && c.id == it.id && c.hash == it.hash
  {
    EmittedIff(u.feed, History(u, events).store, p.fetch.items, p.at, it);
  }

  /** No sink dropped the i-th change. */
  ghost predicate DeliveredAt(u: Setup, p: Poll, s: State, changes: seq<Change>, i: nat)
    requires u.Valid() && i < |changes|
  {
    Fanned(u, p, HandledAll(u, p, s, changes[..i]).log, changes[i]).ok
  }

  /** The change this hash came from, of which no sink dropped anything. */
  ghost predicate Source(u: Setup, p: Poll, s: State, changes: seq<Change>, i: nat, id: Id, hash: Hash)
    requires u.Valid() && i < |changes|
  {
    changes[i].id == id && changes[i].hash == hash && DeliveredAt(u, p, s, changes, i)
  }

  lemma {:induction false} HandledAllCommitsOnly(u: Setup, p: Poll, s: State, changes: seq<Change>, id: Id)
    requires u.Valid()
    ensures var t := HandledAll(u, p, s, changes);
            id in t.store && !(id in s.store && t.store[id] == s.store[id]) ==>
              exists i :: 0 <= i < |changes| && Source(u, p, s, changes, i, id, t.store[id])
    decreases |changes|
  {
    if changes != [] {
      var n := |changes| - 1;
      var front := changes[..n];
      HandledAllCommitsOnly(u, p, s, front, id);
      var was, now := HandledAll(u, p, s, front), HandledAll(u, p, s, changes);
      if id in now.store && !(id in s.store && now.store[id] == s.store[id]) {
        if id in was.store && was.store[id] == now.store[id] {
          var i :| 0 <= i < n && Source(u, p, s, front, i, id, was.store[id]);
          assert front[..i] == changes[..i];
          assert Source(u, p, s, changes, i, id, now.store[id]);
        } else {
          assert Source(u, p, s, changes, n, id, now.store[id]);
        }
      }
    }
  }

  /** A poll commits only what it emitted and no sink dropped: without a body it changes no item state. */
  lemma CommitsOnlyDelivered(u: Setup, p: Poll, s: State, id: Id)
    requires u.Valid()
    ensures var t := After(u, p, s);
            id in t.store && !(id in s.store && t.store[id] == s.store[id]) ==>
              p.fetch.Body? && var cs := Emitted(u, p, s);
              exists i :: 0 <= i < |cs| && Source(u, p, Entered(p, s), cs, i, id, t.store[id])
  {
    if p.lease == Acquired && p.metaReadable && p.fetch.Body? {
      HandledAllCommitsOnly(u, p, Entered(p, s), Emitted(u, p, s), id);
    }
  }

  /** Every change was taken by every sink, and its state write landed. */
  ghost predicate AllDelivered(u: Setup, p: Poll, s: State, changes: seq<Change>)
    requires u.Valid()
  {
    changes == [] ||
    (var front := changes[..|changes| - 1];
     && AllDelivered(u, p, s, front)
     && Fanned(u, p, HandledAll(u, p, s, front).log, changes[|changes| - 1]).ok
     && p.commit(|changes| - 1) != ErrorLost)
  }

  lemma {:induction false} DeliveredIsCommitted(u: Setup, p: Poll, s: State, changes: seq<Change>)
    requires u.Valid() && AllDelivered(u, p, s, changes)
    ensures HandledAll(u, p, s, changes).store == Committed(s.store, changes)
    decreases |changes|
  {
    if changes != [] { DeliveredIsCommitted(u, p, s, changes[..|changes| - 1]); }
  }

  /** After a poll that delivered everything, the same body is silent exactly when no id carries two hashes. */
  lemma SuccessIsSilentIff(u: Setup, s: State, first: Poll, second: Poll)
    requires u.Valid() && Detects(first) && Detects(second) && second.fetch.items == first.fetch.items
    requires AllDelivered(u, first, Entered(first, s), Emitted(u, first, s))
    ensures Emitted(u, second, After(u, first, s)) == [] <==> OneHashPerId(first.fetch.items)
  {
    DeliveredIsCommitted(u, first, Entered(first, s), Emitted(u, first, s));
    SteadyStateIff(u.feed, s.store, first.fetch.items, first.at, second.at);
  }

  /** The state after some polls that the server answered with 304. */
  ghost function AfterAll(u: Setup, polls: seq<Poll>, s: State): State
    requires u.Valid()
  {
    if polls == [] then s else After(u, polls[|polls| - 1], AfterAll(u, polls[..|polls| - 1], s))
  }

  lemma {:induction false} NotModifiedIsIdle(u: Setup, polls: seq<Poll>, s: State)
    requires u.Valid() && forall p | p in polls :: p.fetch.NotModified?
    ensures AfterAll(u, polls, s) == s
    ensures forall p | p in polls :: Emitted(u, p, s) == []
    decreases |polls|
  {
    if polls != [] {
      NotModifiedIsIdle(u, polls[..|polls| - 1], s);
    }
  }

  /**
   A change that was dropped has already cost its validators: unless another change committed the same
   hash, it stays uncommitted, and however often the server answers 304 it is not retried.
   */
  lemma DroppedWaitsForABody(u: Setup, s: State, first: Poll, k: nat, quiet: seq<Poll>)
    requires u.Valid() && Detects(first) && first.metaWrite != ErrorLost
    requires k < |Emitted(u, first, s)|
    requires var cs := Emitted(u, first, s);
             forall i | 0 <= i < |cs| && cs[i].id == cs[k].id && cs[i].hash == cs[k].hash ::
               !DeliveredAt(u, first, Entered(first, s), cs, i)
    requires forall p | p in quiet :: p.fetch.NotModified?
    ensures After(u, first, s).validators == first.fetch.validators
    ensures var c := Emitted(u, first, s)[k]; var t := AfterAll(u, quiet, After(u, first, s));
            t == After(u, first, s) && !(c.id in t.store && t.store[c.id] == c.hash)
    ensures forall p | p in quiet :: Emitted(u, p, After(u, first, s)) == []
  {
    var cs := Emitted(u, first, s);
    NotModifiedIsIdle(u, quiet, After(u, first, s));
    CommitsOnlyDelivered(u, first, s, cs[k].id);
    HandledKeepsValidators(u, first, Entered(first, s), cs);
    ChangesAreUnseen(u.feed, s.store, StableSort(first.fetch.items), first.at);
    assert cs[k] in cs;
  }

  lemma {:induction false} HandledKeepsValidators(u: Setup, p: Poll, s: State, changes: seq<Change>)
    requires u.Valid()
    ensures HandledAll(u, p, s, changes).validators == s.validators
    decreases |changes|
  {
    if changes != [] { HandledKeepsValidators(u, p, s, changes[..|changes| - 1]); }
  }
}
