/**
 Delivery of one change: a plain sink is tried under its retry budget and then handed to its
 dead-letter sink; a composite publishes to each child in turn, wrapped pass-through, so it is never
 retried as a unit. Outside behaviour is a tape of answers, read by the number of the publish call.

 Publishing recurses through composites. The evaluator is indexed by a nesting bound, and the first
 main result says for which configurations a bound exists whatever the sinks do.
 */
module FanOut {
  import opened Feeds
  import C = CompositeCycle
  import Retry

  type Name = string

  datatype Sink =
    | Leaf(deadLetter: Option<Name>)
    | Composite(children: seq<Name>)

  type Config = map<Name, Sink>

  /** One call of a plain sink's Publish. */
  datatype Event = Event(sink: Name, change: Change, ok: bool)

  datatype Env = Env(cfg: Config, retry: Retry.Config, tape: Retry.World)

  datatype BranchState = Success | Dlq | Dropped

  datatype Published = Published(log: seq<Event>, ok: bool)
  datatype Delivered = Delivered(log: seq<Event>, state: BranchState, attempts: nat)

  predicate IsComposite(cfg: Config, n: Name) { n in cfg && cfg[n].Composite? }

  /** Every name a sink refers to is declared. */
  ghost predicate Declared(cfg: Config) {
    forall n | n in cfg :: RefersInto(cfg, cfg[n])
  }

  ghost predicate RefersInto(cfg: Config, sink: Sink) {
    match sink
    case Leaf(dl) => dl.Some? ==> dl.value in cfg
    case Composite(children) => forall c | c in children :: c in cfg
  }

  // ----- the meaning of Publish and Deliver ------------------------------------------------------

  /** The events of `attempts` calls of which only the last may have succeeded. */
  function Trail(sink: Name, change: Change, attempts: nat, ok: bool): seq<Event> {
    seq(attempts, i => Event(sink, change, ok && i == attempts - 1))
  }

  function Envelope(change: Change, from: Name, attempts: nat): Change {
    change.(dlqFrom := from, dlqAttempts := attempts)
  }

  function Tried(e: Env, log: seq<Event>): Retry.Result {
    Retry.Attempts(e.tape, |log|, 0, Retry.Budget(e.retry))
  }

  /** A publisher's Publish; None when the nesting bound runs out. */
  function Publish(e: Env, log: seq<Event>, n: Name, change: Change, bound: nat): Option<Published>
    requires Declared(e.cfg) && n in e.cfg
    decreases bound, 0, 0
  {
    match e.cfg[n]
    case Leaf(_) =>
      var ok := e.tape.accepts(|log|);
      Some(Published(log + [Event(n, change, ok)], ok))
    case Composite(children) =>
      if bound == 0 then None else DeliverAll(e, log, children, change, bound - 1)
  }

  /** RetryingPublisher.Deliver of the sink named n, as wrapSink builds it. */
  function Deliver(e: Env, log: seq<Event>, n: Name, change: Change, bound: nat): Option<Delivered>
    requires Declared(e.cfg) && n in e.cfg
    decreases bound, 1, 0
  {
    match e.cfg[n]
    case Composite(_) =>
      if e.tape.cancelled(|log|) then Some(Delivered(log, Dropped, 0))
      else (match Publish(e, log, n, change, bound)
            case None => None
            case Some(p) => Some(Delivered(p.log, if p.ok then Success else Dropped, 1)))
    case Leaf(deadLetter) =>
      var r := Tried(e, log);
      var tried := log + Trail(n, change, r.attempts, r.ok);
      if r.ok then Some(Delivered(tried, Success, r.attempts))
      else if deadLetter.None? then Some(Delivered(tried, Dropped, r.attempts))
      else match Publish(e, tried, deadLetter.value, Envelope(change, n, r.attempts), bound)
           case None => None
           case Some(p) => Some(Delivered(p.log, if p.ok then Dlq else Dropped, r.attempts))
  }

  /** composite.Publish: every child in order; ok when none was dropped. */
  function DeliverAll(e: Env, log: seq<Event>, children: seq<Name>, change: Change, bound: nat): Option<Published>
    requires Declared(e.cfg) && forall c | c in children :: c in e.cfg
    decreases bound, 2, |children|
  {
    if children == [] then Some(Published(log, true))
    else match Deliver(e, log, children[0], change, bound)
         case None => None
         case Some(d) =>
           (match DeliverAll(e, d.log, children[1..], change, bound)
            case None => None
            case Some(p) => Some(Published(p.log, d.state != Dropped && p.ok)))
  }

  // ----- the same, as the program runs it ----------------------------------------------------------

  class Delivery {
    var log: seq<Event>

    constructor (log: seq<Event>)
      ensures this.log == log
    {
      this.log := log;
    }

    /** One call of a plain sink. */
    method Call(e: Env, n: Name, change: Change) returns (ok: bool)
      modifies this
      ensures ok == e.tape.accepts(|old(log)|) && log == old(log) + [Event(n, change, ok)]
    {
      ok := e.tape.accepts(|log|);
      log := log + [Event(n, change, ok)];
    }

    method PublishTo(e: Env, n: Name, change: Change, ghost bound: nat) returns (ok: bool)
      requires Declared(e.cfg) && n in e.cfg && Publish(e, log, n, change, bound).Some?
      modifies this
      ensures Publish(e, old(log), n, change, bound) == Some(Published(log, ok))
      decreases bound, 0, 0
    {
      match e.cfg[n]
      case Leaf(_) =>
        ok := Call(e, n, change);
      case Composite(children) =>
        var dropped: seq<Name> := [];
        ghost var whole := DeliverAll(e, log, children, change, bound - 1).value;
        for i := 0 to |children|
          invariant DeliverAll(e, log, children[i..], change, bound - 1).Some?
          invariant var rest := DeliverAll(e, log, children[i..], change, bound - 1).value;
                    whole.log == rest.log && whole.ok == (dropped == [] && rest.ok)
        {
          assert children[i..][1..] == children[i + 1..] && children[i..][0] == children[i];
          var state, _ := DeliverTo(e, children[i], change, bound - 1);
          if state == Dropped {
            dropped := dropped + [children[i]];
          }
        }
        ok := dropped == [];
    }

    method DeliverTo(e: Env, n: Name, change: Change, ghost bound: nat) returns (state: BranchState, attempts: nat)
      requires Declared(e.cfg) && n in e.cfg && Deliver(e, log, n, change, bound).Some?
      modifies this
      ensures Deliver(e, old(log), n, change, bound) == Some(Delivered(log, state, attempts))
      decreases bound, 1, 0
    {
      match e.cfg[n]
      case Composite(_) =>
        if e.tape.cancelled(|log|) {
          return Dropped, 0;
        }
        var ok := PublishTo(e, n, change, bound);
        return if ok then Success else Dropped, 1;
      case Leaf(deadLetter) =>
        var r, calls, _ := Retry.Do(e.retry, e.tape, |log|, i => i);
        log := log + Trail(n, change, calls, r.ok);
        if r.ok {
          return Success, r.attempts;
        }
        if deadLetter.None? {
          return Dropped, r.attempts;
        }
        var ok := PublishTo(e, deadLetter.value, Envelope(change, n, r.attempts), bound);
        return if ok then Dlq else Dropped, r.attempts;
    }
  }

  // ----- when publishing terminates --------------------------------------------------------------

  /** The composites that delivering to child c may enter: itself, or the composite it dead-letters to. */
  function Target(cfg: Config, c: Name): Option<Name> {
    if c !in cfg then None
    else match cfg[c]
         case Composite(_) => Some(c)
         case Leaf(dl) => if dl.Some? && IsComposite(cfg, dl.value) then dl else None
  }

  function Targets(cfg: Config, children: seq<Name>): seq<Name> {
    if children == [] then []
    else match Target(cfg, children[0])
         case None => Targets(cfg, children[1..])
         case Some(x) => [x] + Targets(cfg, children[1..])
  }

  lemma {:induction false} TargetsAre(cfg: Config, children: seq<Name>, x: Name)
    ensures x in Targets(cfg, children) <==> exists i :: 0 <= i < |children| && Target(cfg, children[i]) == Some(x)
  {
    if children != [] {
      TargetsAre(cfg, children[1..], x);
      assert forall i | 1 <= i < |children| :: children[i] == children[1..][i - 1];
    }
  }

  /** Which composite's Publish may call which, through children and dead letters together. */
  function Calls(cfg: Config): C.Graph {
    map n | n in cfg && cfg[n].Composite? :: Targets(cfg, cfg[n].children)
  }

  /** What the validator's cycle check looks at: children only. */
  function ChildrenOf(cfg: Config): C.Graph {
    map n | n in cfg && cfg[n].Composite? :: cfg[n].children
  }

  lemma TargetIsEdge(cfg: Config, n: Name, i: nat, x: Name)
    requires IsComposite(cfg, n) && i < |cfg[n].children| && Target(cfg, cfg[n].children[i]) == Some(x)
    ensures C.Edge(Calls(cfg), n, x)
  {
    TargetsAre(cfg, cfg[n].children, x);
  }

  lemma EdgeIsTarget(cfg: Config, n: Name, x: Name) returns (i: nat)
    requires C.Edge(Calls(cfg), n, x)
    ensures IsComposite(cfg, n) && i < |cfg[n].children| && Target(cfg, cfg[n].children[i]) == Some(x)
  {
    TargetsAre(cfg, cfg[n].children, x);
    i :| 0 <= i < |cfg[n].children| && Target(cfg, cfg[n].children[i]) == Some(x);
  }

  /** While walks from n are shorter than the bound, publishing to n finishes, whatever the tape says. */
  lemma {:induction false} ShortWalksFinish(e: Env, log: seq<Event>, n: Name, change: Change, bound: nat)
    requires Declared(e.cfg) && IsComposite(e.cfg, n) && !C.CanWalk(Calls(e.cfg), n, bound)
    ensures Publish(e, log, n, change, bound).Some?
    decreases bound, 1, 0
  {
    var children := e.cfg[n].children;
    forall i, x | 0 <= i < |children| && Target(e.cfg, children[i]) == Some(x)
      ensures !C.CanWalk(Calls(e.cfg), x, bound - 1)
    {
      TargetIsEdge(e.cfg, n, i, x);
    }
    ShortWalksFinishAll(e, log, children, change, bound - 1);
  }

  lemma {:induction false} ShortWalksFinishAll(e: Env, log: seq<Event>, children: seq<Name>, change: Change, bound: nat)
    requires Declared(e.cfg) && forall c | c in children :: c in e.cfg
    requires forall i, x | 0 <= i < |children| && Target(e.cfg, children[i]) == Some(x) ::
               !C.CanWalk(Calls(e.cfg), x, bound)
    ensures DeliverAll(e, log, children, change, bound).Some?
    decreases bound, 2, |children|
  {
    if children != [] {
      var c := children[0];
      assert Target(e.cfg, c).Some? ==> !C.CanWalk(Calls(e.cfg), Target(e.cfg, c).value, bound);
      match e.cfg[c] {
        case Composite(_) => ShortWalksFinish(e, log, c, change, bound);
        case Leaf(dl) =>
          var r := Tried(e, log);
          var tried := log + Trail(c, change, r.attempts, r.ok);
          if dl.Some? {
            var envelope := Envelope(change, c, r.attempts);
            if IsComposite(e.cfg, dl.value) { ShortWalksFinish(e, tried, dl.value, envelope, bound); }
            assert Publish(e, tried, dl.value, envelope, bound).Some?;
          }
      }
      var d := Deliver(e, log, c, change, bound).value;
      ShortWalksFinishAll(e, d.log, children[1..], change, bound);
    }
  }

  lemma Unfolds(e: Env, log: seq<Event>, n: Name, change: Change, bound: nat)
    requires Declared(e.cfg) && IsComposite(e.cfg, n) && bound > 0
    ensures Publish(e, log, n, change, bound) == DeliverAll(e, log, e.cfg[n].children, change, bound - 1)
  {
  }

  /** Sinks that refuse everything, under a context that stays live. */
  ghost predicate Refusing(tape: Retry.World) {
    forall i :: !tape.accepts(i) && !tape.cancelled(i)
  }

  /** With every sink refusing, a walk as long as the bound exhausts it. */
  lemma {:induction false} LongWalksExhaust(e: Env, log: seq<Event>, n: Name, change: Change, bound: nat)
    requires Declared(e.cfg) && IsComposite(e.cfg, n) && Refusing(e.tape) && C.CanWalk(Calls(e.cfg), n, bound)
    ensures Publish(e, log, n, change, bound).None?
    decreases bound, 1, 0
  {
    if bound > 0 {
      var x := C.WalkOn(Calls(e.cfg), n, bound);
      var i := EdgeIsTarget(e.cfg, n, x);
      var children := e.cfg[n].children;
      LongWalksExhaustAll(e, log, children, change, i, bound - 1);
      Unfolds(e, log, n, change, bound);
    }
  }

  lemma {:induction false} LongWalksExhaustAll(e: Env, log: seq<Event>, children: seq<Name>, change: Change,
                                               i: nat, bound: nat)
    requires Declared(e.cfg) && (forall c | c in children :: c in e.cfg) && Refusing(e.tape)
    requires i < |children| && Target(e.cfg, children[i]).Some?
    requires C.CanWalk(Calls(e.cfg), Target(e.cfg, children[i]).value, bound)
    ensures DeliverAll(e, log, children, change, bound).None?
    decreases bound, 2, |children|
  {
    var c := children[0];
    if i == 0 {
      match e.cfg[c]
      case Composite(_) => LongWalksExhaust(e, log, c, change, bound);
      case Leaf(dl) =>
        var r := Tried(e, log);
        LongWalksExhaust(e, log + Trail(c, change, r.attempts, r.ok), dl.value, Envelope(change, c, r.attempts), bound);
    } else {
      var d := Deliver(e, log, c, change, bound);
      if d.Some? {
        assert children[1..][i - 1] == children[i];
        LongWalksExhaustAll(e, d.value.log, children[1..], change, i - 1, bound);
      }
    }
  }

  /** A nesting bound that no acyclic configuration exceeds. */
  function Deep(cfg: Config): nat { |Calls(cfg).Keys| + 1 }

  /** Publishing to n terminates under every sink behaviour exactly when no call cycle is reachable from n. */
  lemma TerminatesIff(cfg: Config, retry: Retry.Config, n: Name)
    requires Declared(cfg) && IsComposite(cfg, n)
    ensures !C.CycleReachable(Calls(cfg), n) ==>
              forall tape, log, change :: Publish(Env(cfg, retry, tape), log, n, change, Deep(cfg)).Some?
    ensures C.CycleReachable(Calls(cfg), n) ==>
              forall tape, log, change, bound | Refusing(tape) ::
                Publish(Env(cfg, retry, tape), log, n, change, bound).None?
  {
    var k := Deep(cfg);
    C.CycleIffEndless(Calls(cfg), n, k);
    if !C.CycleReachable(Calls(cfg), n) {
      forall tape, log, change ensures Publish(Env(cfg, retry, tape), log, n, change, k).Some? {
        ShortWalksFinish(Env(cfg, retry, tape), log, n, change, k);
      }
    } else {
      forall tape, log, change, bound | Refusing(tape)
        ensures Publish(Env(cfg, retry, tape), log, n, change, bound).None?
      {
        C.CycleIffEndless(Calls(cfg), n, bound);
        LongWalksExhaust(Env(cfg, retry, tape), log, n, change, bound);
      }
    }
  }

  /** The result does not depend on the bound once there is one. */
  lemma {:induction false} MoreBoundSameResult(e: Env, log: seq<Event>, n: Name, change: Change, bound: nat, more: nat)
    requires Declared(e.cfg) && n in e.cfg && bound <= more && Publish(e, log, n, change, bound).Some?
    ensures Publish(e, log, n, change, more) == Publish(e, log, n, change, bound)
    decreases bound, 0, 0
  {
    if IsComposite(e.cfg, n) {
      MoreBoundSameAll(e, log, e.cfg[n].children, change, bound - 1, more - 1);
    }
  }

  lemma {:induction false} MoreBoundSameDelivery(e: Env, log: seq<Event>, n: Name, change: Change, bound: nat,
                                                 more: nat)
    requires Declared(e.cfg) && n in e.cfg && bound <= more && Deliver(e, log, n, change, bound).Some?
    ensures Deliver(e, log, n, change, more) == Deliver(e, log, n, change, bound)
    decreases bound, 1, 0
  {
    match e.cfg[n]
    case Composite(_) =>
      if !e.tape.cancelled(|log|) { MoreBoundSameResult(e, log, n, change, bound, more); }
    case Leaf(dl) =>
      var r := Tried(e, log);
      if !r.ok && dl.Some? {
        var tried := log + Trail(n, change, r.attempts, r.ok);
        MoreBoundSameResult(e, tried, dl.value, Envelope(change, n, r.attempts), bound, more);
      }
  }

  lemma {:induction false} MoreBoundSameAll(e: Env, log: seq<Event>, children: seq<Name>, change: Change,
                                            bound: nat, more: nat)
    requires Declared(e.cfg) && (forall c | c in children :: c in e.cfg) && bound <= more
    requires DeliverAll(e, log, children, change, bound).Some?
    ensures DeliverAll(e, log, children, change, more) == DeliverAll(e, log, children, change, bound)
    decreases bound, 2, |children|
  {
    if children != [] {
      MoreBoundSameDelivery(e, log, children[0], change, bound, more);
      var d := Deliver(e, log, children[0], change, bound).value;
      MoreBoundSameAll(e, d.log, children[1..], change, bound, more);
    }
  }

  // ----- what the validator accepts ----------------------------------------------------------------

  /** The composite and dead_letter checks on one sink. */
  ghost predicate SinkAccepted(cfg: Config, n: Name)
    requires n in cfg
  {
    match cfg[n]
    case Leaf(dl) => dl != Some(n)
    case Composite(children) =>
      children != [] && n !in children && C.Distinct(children) && !C.CycleReachable(ChildrenOf(cfg), n)
  }

  /** The checks as the validator runs them; a configuration is accepted when every sink passes. */
  method CheckSink(cfg: Config, n: Name) returns (ok: bool)
    requires n in cfg
    ensures ok <==> RefersInto(cfg, cfg[n]) && SinkAccepted(cfg, n)
  {
    match cfg[n]
    case Leaf(None) =>
      return true;
    case Leaf(Some(dl)) =>
      return dl != n && dl in cfg;
    case Composite(children) =>
      if children == [] {
        return false;
      }
      var seen: set<Name> := {};
      for i := 0 to |children|
        invariant forall k | 0 <= k < i :: children[k] != n && children[k] in cfg && children[k] in seen
        invariant forall x | x in seen :: x in children[..i]
        invariant C.Distinct(children[..i])
      {
        var child := children[i];
        if child == n || child !in cfg || child in seen {
          assert child in children;
          return false;
        }
        seen := seen + {child};
      }
      assert children[..|children|] == children;
      var rendered, _ := C.CompositeCycle(ChildrenOf(cfg), n);
      return rendered == "";
  }

  ghost predicate Accepted(cfg: Config) {
    Declared(cfg) && forall n | n in cfg :: SinkAccepted(cfg, n)
  }

  ghost predicate LeafDeadLetters(cfg: Config) {
    forall n | n in cfg && cfg[n].Leaf? && cfg[n].deadLetter.Some? :: !IsComposite(cfg, cfg[n].deadLetter.value)
  }

  lemma CallsAreChildren(cfg: Config, a: Name, b: Name)
    requires LeafDeadLetters(cfg) && C.Edge(Calls(cfg), a, b)
    ensures C.Edge(ChildrenOf(cfg), a, b)
  {
    var i := EdgeIsTarget(cfg, a, b);
  }

  /** With plain dead letters the validator's check is the right one: accepted means terminating. */
  lemma AcceptedTerminates(cfg: Config, n: Name)
    requires Accepted(cfg) && LeafDeadLetters(cfg) && IsComposite(cfg, n)
    ensures !C.CycleReachable(Calls(cfg), n)
  {
    if C.CycleReachable(Calls(cfg), n) {
      var w :| C.Lasso(Calls(cfg), n, w);
      forall i | 0 <= i < |w| - 1 ensures C.Edge(ChildrenOf(cfg), w[i], w[i + 1]) {
        assert C.Edge(Calls(cfg), w[i], w[i + 1]);
        CallsAreChildren(cfg, w[i], w[i + 1]);
      }
      assert C.Lasso(ChildrenOf(cfg), n, w);
      assert false;
    }
  }

  /** A sink that dead-letters to the composite it belongs to is accepted and can call itself for ever. */
  lemma AcceptedCanLoop() returns (cfg: Config)
    ensures Accepted(cfg) && IsComposite(cfg, "c") && C.CycleReachable(Calls(cfg), "c")
  {
    cfg := map["c" := Composite(["l"]), "l" := Leaf(Some("c"))];
    var g := ChildrenOf(cfg);
    assert forall a, b :: !C.Edge(g, a, b);
    C.CycleIffEndless(g, "c", 1);
    TargetIsEdge(cfg, "c", 0, "c");
    var w := ["c", "c"];
    assert C.Walk(Calls(cfg), w) && w[0] == w[|w| - 1];
    assert C.Lasso(Calls(cfg), "c", w);
  }

  // ----- flattening -------------------------------------------------------------------------------

  /** The root-to-leaf paths below n, depth first. */
  function Paths(cfg: Config, n: Name, bound: nat): seq<seq<Name>>
    decreases bound, 0, 0
  {
    if !IsComposite(cfg, n) then [[n]]
    else if bound == 0 then []
    else Prefixed(n, AllPaths(cfg, cfg[n].children, bound - 1))
  }

  function AllPaths(cfg: Config, children: seq<Name>, bound: nat): seq<seq<Name>>
    decreases bound, 1, |children|
  {
    if children == [] then [] else Paths(cfg, children[0], bound) + AllPaths(cfg, children[1..], bound)
  }

  function Prefixed(n: Name, ps: seq<seq<Name>>): (r: seq<seq<Name>>)
    ensures |r| == |ps| && forall i | 0 <= i < |ps| :: r[i] == [n] + ps[i]
  {
    seq(|ps|, i requires 0 <= i < |ps| => [n] + ps[i])
  }

  function Ends(ps: seq<seq<Name>>): (r: seq<Name>)
    ensures |r| == |ps|
  {
    seq(|ps|, i requires 0 <= i < |ps| => if ps[i] == [] then "" else ps[i][|ps[i]| - 1])
  }

  datatype Flat = Flat(log: seq<Event>, states: seq<BranchState>)

  ghost predicate AllLeaves(cfg: Config, names: seq<Name>) {
    forall n | n in names :: n in cfg && !IsComposite(cfg, n)
  }

  lemma LeafNeedsNoBound(e: Env, log: seq<Event>, n: Name, change: Change, bound: nat)
    requires Declared(e.cfg) && LeafDeadLetters(e.cfg) && n in e.cfg && !IsComposite(e.cfg, n)
    ensures Deliver(e, log, n, change, bound).Some?
            && Deliver(e, log, n, change, bound) == Deliver(e, log, n, change, 0)
  {
  }

  /** Deliver to plain sinks one after the other. */
  function DeliverEach(e: Env, log: seq<Event>, leaves: seq<Name>, change: Change): (f: Flat)
    requires Declared(e.cfg) && LeafDeadLetters(e.cfg)
    requires AllLeaves(e.cfg, leaves)
    ensures |f.states| == |leaves|
    decreases |leaves|
  {
    if leaves == [] then Flat(log, [])
    else
      LeafNeedsNoBound(e, log, leaves[0], change, 0);
      var d := Deliver(e, log, leaves[0], change, 0).value;
      var rest := DeliverEach(e, d.log, leaves[1..], change);
      Flat(rest.log, [d.state] + rest.states)
  }

  /** The first delivery does not depend on the ones after it. */
  lemma DeliverFirst(e: Env, log: seq<Event>, n: Name, t: seq<Name>, u: seq<Name>, change: Change)
    returns (d: Delivered)
    requires Declared(e.cfg) && LeafDeadLetters(e.cfg) && AllLeaves(e.cfg, [n] + t) && AllLeaves(e.cfg, [n] + u)
    ensures AllLeaves(e.cfg, t) && AllLeaves(e.cfg, u)
    ensures var f := DeliverEach(e, d.log, t, change);
            DeliverEach(e, log, [n] + t, change) == Flat(f.log, [d.state] + f.states)
    ensures var f := DeliverEach(e, d.log, u, change);
            DeliverEach(e, log, [n] + u, change) == Flat(f.log, [d.state] + f.states)
  {
    LeavesSplit(e.cfg, [n], t);
    LeavesSplit(e.cfg, [n], u);
    LeafNeedsNoBound(e, log, n, change, 0);
    d := Deliver(e, log, n, change, 0).value;
    assert ([n] + t)[1..] == t && ([n] + u)[1..] == u;
  }

  lemma LeavesSplit(cfg: Config, a: seq<Name>, b: seq<Name>)
    ensures AllLeaves(cfg, a + b) <==> AllLeaves(cfg, a) && AllLeaves(cfg, b)
  {
  }

  lemma {:induction false} DeliverEachSplits(e: Env, log: seq<Event>, a: seq<Name>, b: seq<Name>, change: Change)
    requires Declared(e.cfg) && LeafDeadLetters(e.cfg) && AllLeaves(e.cfg, a) && AllLeaves(e.cfg, b)
    ensures AllLeaves(e.cfg, a + b)
    ensures var f := DeliverEach(e, log, a, change); var g := DeliverEach(e, f.log, b, change);
            DeliverEach(e, log, a + b, change) == Flat(g.log, f.states + g.states)
    decreases |a|
  {
    LeavesSplit(e.cfg, a, b);
    if a == [] {
      assert a + b == b;
      assert [] + DeliverEach(e, log, b, change).states == DeliverEach(e, log, b, change).states;
    } else {
      var n, t := a[0], a[1..];
      assert a == [n] + t && a + b == [n] + (t + b);
      var d := DeliverFirst(e, log, n, t, t + b, change);
      DeliverEachSplits(e, d.log, t, b, change);
      var f := DeliverEach(e, d.log, t, change);
      var g := DeliverEach(e, f.log, b, change);
      assert [d.state] + (f.states + g.states) == ([d.state] + f.states) + g.states;
    }
  }

  lemma {:induction false} EndsAreLeaves(cfg: Config, n: Name, bound: nat)
    requires Declared(cfg) && n in cfg
    ensures AllLeaves(cfg, Ends(Paths(cfg, n, bound)))
    ensures forall p | p in Paths(cfg, n, bound) :: p != []
    decreases bound, 0, 0
  {
    if IsComposite(cfg, n) && bound > 0 {
      EndsOfPrefixed(n, AllPaths(cfg, cfg[n].children, bound - 1));
      AllEndsAreLeaves(cfg, cfg[n].children, bound - 1);
    }
  }

  lemma {:induction false} AllEndsAreLeaves(cfg: Config, children: seq<Name>, bound: nat)
    requires Declared(cfg) && forall c | c in children :: c in cfg
    ensures AllLeaves(cfg, Ends(AllPaths(cfg, children, bound)))
    ensures forall p | p in AllPaths(cfg, children, bound) :: p != []
    decreases bound, 1, |children|
  {
    if children != [] {
      EndsAreLeaves(cfg, children[0], bound);
      AllEndsAreLeaves(cfg, children[1..], bound);
      EndsSplit(Paths(cfg, children[0], bound), AllPaths(cfg, children[1..], bound));
    }
  }

  lemma EndsSplit(a: seq<seq<Name>>, b: seq<seq<Name>>)
    ensures Ends(a + b) == Ends(a) + Ends(b)
  {
  }

  lemma EndsOfPrefixed(n: Name, ps: seq<seq<Name>>)
    ensures (forall p | p in ps :: p != []) ==> Ends(Prefixed(n, ps)) == Ends(ps)
    ensures forall p | p in Prefixed(n, ps) :: p != []
  {
    if forall p | p in ps :: p != [] {
      forall i | 0 <= i < |ps| ensures Ends(Prefixed(n, ps))[i] == Ends(ps)[i] {
        assert ps[i] in ps;
        assert Prefixed(n, ps)[i][|Prefixed(n, ps)[i]| - 1] == ps[i][|ps[i]| - 1];
      }
    }
  }

  ghost predicate NeverCancelled(tape: Retry.World) {
    forall i :: !tape.cancelled(i)
  }

  /** Publishing to a composite is delivering to the ends of its root-to-leaf paths, in order. */
  ghost predicate IsFlat(e: Env, log: seq<Event>, leaves: seq<Name>, change: Change, p: Published)
    requires Declared(e.cfg) && LeafDeadLetters(e.cfg)
    requires AllLeaves(e.cfg, leaves)
  {
    var f := DeliverEach(e, log, leaves, change);
    p == Published(f.log, Dropped !in f.states)
  }

  lemma {:induction false} PublishFlattens(e: Env, log: seq<Event>, n: Name, change: Change, bound: nat)
    requires Declared(e.cfg) && LeafDeadLetters(e.cfg) && NeverCancelled(e.tape) && IsComposite(e.cfg, n)
    requires Publish(e, log, n, change, bound).Some?
    ensures AllLeaves(e.cfg, Ends(Paths(e.cfg, n, bound)))
    ensures IsFlat(e, log, Ends(Paths(e.cfg, n, bound)), change, Publish(e, log, n, change, bound).value)
    decreases bound, 0, 0
  {
    var ps := AllPaths(e.cfg, e.cfg[n].children, bound - 1);
    AllEndsAreLeaves(e.cfg, e.cfg[n].children, bound - 1);
    EndsOfPrefixed(n, ps);
    AllFlatten(e, log, e.cfg[n].children, change, bound - 1);
  }

  lemma {:induction false} AllFlatten(e: Env, log: seq<Event>, children: seq<Name>, change: Change, bound: nat)
    requires Declared(e.cfg) && LeafDeadLetters(e.cfg) && NeverCancelled(e.tape)
    requires (forall c | c in children :: c in e.cfg) && DeliverAll(e, log, children, change, bound).Some?
    ensures AllLeaves(e.cfg, Ends(AllPaths(e.cfg, children, bound)))
    ensures var p := DeliverAll(e, log, children, change, bound).value;
            IsFlat(e, log, Ends(AllPaths(e.cfg, children, bound)), change, p)
    decreases bound, 1, |children|
  {
    AllEndsAreLeaves(e.cfg, children, bound);
    if children != [] {
      var c := children[0];
      var d := Deliver(e, log, c, change, bound).value;
      var a, b := Ends(Paths(e.cfg, c, bound)), Ends(AllPaths(e.cfg, children[1..], bound));
      EndsAreLeaves(e.cfg, c, bound);
      FirstFlattens(e, log, c, change, bound);
      AllFlatten(e, d.log, children[1..], change, bound);
      EndsSplit(Paths(e.cfg, c, bound), AllPaths(e.cfg, children[1..], bound));
      DeliverEachSplits(e, log, a, b, change);
    }
  }

  lemma {:induction false} FirstFlattens(e: Env, log: seq<Event>, c: Name, change: Change, bound: nat)
    requires Declared(e.cfg) && LeafDeadLetters(e.cfg) && NeverCancelled(e.tape) && c in e.cfg
    requires Deliver(e, log, c, change, bound).Some?
    ensures AllLeaves(e.cfg, Ends(Paths(e.cfg, c, bound)))
    ensures var d := Deliver(e, log, c, change, bound).value;
            IsFlat(e, log, Ends(Paths(e.cfg, c, bound)), change, Published(d.log, d.state != Dropped))
    decreases bound, 0, 1
  {
    EndsAreLeaves(e.cfg, c, bound);
    if IsComposite(e.cfg, c) {
      PublishFlattens(e, log, c, change, bound);
    } else {
      LeafNeedsNoBound(e, log, c, change, bound);
      assert Ends([[c]]) == [c];
      var d := Deliver(e, log, c, change, 0).value;
      assert DeliverEach(e, d.log, [c][1..], change) == Flat(d.log, []);
      assert DeliverEach(e, log, [c], change) == Flat(d.log, [d.state]);
    }
  }

  // ----- the paths are exactly the root-to-leaf paths, each once ------------------------------------

  ghost predicate RootToLeaf(cfg: Config, n: Name, p: seq<Name>) {
    && p != [] && p[0] == n && !IsComposite(cfg, p[|p| - 1])
    && forall i | 0 <= i < |p| - 1 :: IsComposite(cfg, p[i]) && p[i + 1] in cfg[p[i]].children
  }

  lemma RootToLeafTail(cfg: Config, p: seq<Name>)
    requires |p| > 1 && RootToLeaf(cfg, p[0], p)
    ensures RootToLeaf(cfg, p[1], p[1..]) && IsComposite(cfg, p[0]) && p[1] in cfg[p[0]].children
  {
  }

  lemma {:induction false} PathsAre(cfg: Config, n: Name, p: seq<Name>, bound: nat)
    ensures p in Paths(cfg, n, bound) <==> RootToLeaf(cfg, n, p) && |p| <= bound + 1
    decreases bound, 0, 0
  {
    if IsComposite(cfg, n) && bound > 0 {
      var ps := AllPaths(cfg, cfg[n].children, bound - 1);
      if p != [] && p[0] == n {
        assert p == [n] + p[1..];
        AllPathsAre(cfg, cfg[n].children, p[1..], bound - 1);
        if RootToLeaf(cfg, n, p) { RootToLeafTail(cfg, p); }
        if p[1..] in ps {
          var i :| 0 <= i < |ps| && ps[i] == p[1..];
          assert Prefixed(n, ps)[i] == p;
          assert RootToLeaf(cfg, p[1], p[1..]) && p[1] in cfg[n].children;
          forall i | 0 <= i < |p| - 1 ensures IsComposite(cfg, p[i]) && p[i + 1] in cfg[p[i]].children {
            if i > 0 { assert p[1..][i - 1] == p[i] && p[1..][i - 1 + 1] == p[i + 1]; }
          }
        }
        if p in Prefixed(n, ps) {
          var i :| 0 <= i < |ps| && Prefixed(n, ps)[i] == p;
          assert ps[i] == ([n] + ps[i])[1..];
        }
      }
    } else if !IsComposite(cfg, n) {
      assert RootToLeaf(cfg, n, p) ==> |p| <= 1;
      assert RootToLeaf(cfg, n, p) <==> p == [n];
    } else {
      assert RootToLeaf(cfg, n, p) ==> |p| > 1;
    }
  }

  lemma {:induction false} AllPathsAre(cfg: Config, children: seq<Name>, p: seq<Name>, bound: nat)
    ensures p in AllPaths(cfg, children, bound)
            <==> p != [] && p[0] in children && RootToLeaf(cfg, p[0], p) && |p| <= bound + 1
    decreases bound, 1, |children|
  {
    if children != [] {
      PathsAre(cfg, children[0], p, bound);
      AllPathsAre(cfg, children[1..], p, bound);
    }
  }

  ghost predicate NoRepeats(ps: seq<seq<Name>>) {
    forall i, j | 0 <= i < j < |ps| :: ps[i] != ps[j]
  }

  lemma {:induction false} PathsOnce(cfg: Config, n: Name, bound: nat)
    requires forall m | IsComposite(cfg, m) :: C.Distinct(cfg[m].children)
    ensures NoRepeats(Paths(cfg, n, bound))
    decreases bound, 0, 0
  {
    if IsComposite(cfg, n) && bound > 0 {
      AllPathsOnce(cfg, cfg[n].children, bound - 1);
      var ps := AllPaths(cfg, cfg[n].children, bound - 1);
      forall i, j | 0 <= i < j < |ps| ensures Prefixed(n, ps)[i] != Prefixed(n, ps)[j] {
        assert ([n] + ps[i])[1..] == ps[i] && ([n] + ps[j])[1..] == ps[j];
      }
    }
  }

  lemma {:induction false} AllPathsOnce(cfg: Config, children: seq<Name>, bound: nat)
    requires C.Distinct(children) && forall m | IsComposite(cfg, m) :: C.Distinct(cfg[m].children)
    ensures NoRepeats(AllPaths(cfg, children, bound))
    decreases bound, 1, |children|
  {
    if children != [] {
      PathsOnce(cfg, children[0], bound);
      AllPathsOnce(cfg, children[1..], bound);
      var a, b := Paths(cfg, children[0], bound), AllPaths(cfg, children[1..], bound);
      forall i, j | 0 <= i < |a| && 0 <= j < |b| ensures a[i] != b[j] {
        PathsAre(cfg, children[0], a[i], bound);
        AllPathsAre(cfg, children[1..], b[j], bound);
        assert a[i] in a && b[j] in b && a[i][0] == children[0] && b[j][0] in children[1..];
      }
    }
  }

  /** The two paths part at p[d - 1], where p takes the earlier child. */
  ghost predicate PartsAt(cfg: Config, p: seq<Name>, q: seq<Name>, d: nat, a: nat, b: nat) {
    && 0 < d < |p| && d < |q| && p[..d] == q[..d] && IsComposite(cfg, p[d - 1])
    && TakesEarlier(cfg[p[d - 1]].children, p[d], q[d], a, b)
  }

  predicate TakesEarlier(children: seq<Name>, x: Name, y: Name, a: nat, b: nat) {
    a < b < |children| && children[a] == x && children[b] == y
  }

  /** Path p comes before path q in the order in which children are listed. */
  ghost predicate Precedes(cfg: Config, p: seq<Name>, q: seq<Name>) {
    exists d: nat, a: nat, b: nat :: PartsAt(cfg, p, q, d, a, b)
  }

  /** The same for paths that start among these children. */
  ghost predicate PrecedesAmong(cfg: Config, children: seq<Name>, p: seq<Name>, q: seq<Name>) {
    && p != [] && q != []
    && ((p[0] == q[0] && Precedes(cfg, p, q)) || exists a: nat, b: nat :: TakesEarlier(children, p[0], q[0], a, b))
  }

  lemma PrefixPrecedes(cfg: Config, n: Name, p: seq<Name>, q: seq<Name>)
    requires IsComposite(cfg, n) && PrecedesAmong(cfg, cfg[n].children, p, q)
    ensures Precedes(cfg, [n] + p, [n] + q)
  {
    var p', q' := [n] + p, [n] + q;
    if a: nat, b: nat :| TakesEarlier(cfg[n].children, p[0], q[0], a, b) {
      assert PartsAt(cfg, p', q', 1, a, b);
    } else {
      var d: nat, a: nat, b: nat :| PartsAt(cfg, p, q, d, a, b);
      assert p'[..d + 1] == [n] + p[..d] && q'[..d + 1] == [n] + q[..d];
      assert PartsAt(cfg, p', q', d + 1, a, b);
    }
  }

  lemma LaterChildren(cfg: Config, children: seq<Name>, p: seq<Name>, q: seq<Name>)
    requires children != [] && PrecedesAmong(cfg, children[1..], p, q)
    ensures PrecedesAmong(cfg, children, p, q)
  {
    if a: nat, b: nat :| TakesEarlier(children[1..], p[0], q[0], a, b) {
      assert TakesEarlier(children, p[0], q[0], a + 1, b + 1);
    }
  }

  ghost predicate InOrder(cfg: Config, ps: seq<seq<Name>>) {
    forall i, j | 0 <= i < j < |ps| :: Precedes(cfg, ps[i], ps[j])
  }

  ghost predicate InOrderAmong(cfg: Config, children: seq<Name>, ps: seq<seq<Name>>) {
    forall i, j | 0 <= i < j < |ps| :: PrecedesAmong(cfg, children, ps[i], ps[j])
  }

  /** The paths are listed depth first, in the order of the children. */
  lemma {:induction false} PathsInOrder(cfg: Config, n: Name, bound: nat)
    ensures InOrder(cfg, Paths(cfg, n, bound))
    decreases bound, 0, 0
  {
    if IsComposite(cfg, n) && bound > 0 {
      var ps := AllPaths(cfg, cfg[n].children, bound - 1);
      AllPathsInOrder(cfg, cfg[n].children, bound - 1);
      forall i, j | 0 <= i < j < |ps| ensures Precedes(cfg, Prefixed(n, ps)[i], Prefixed(n, ps)[j]) {
        assert PrecedesAmong(cfg, cfg[n].children, ps[i], ps[j]);
        PrefixPrecedes(cfg, n, ps[i], ps[j]);
      }
    }
  }

  lemma {:induction false} AllPathsInOrder(cfg: Config, children: seq<Name>, bound: nat)
    ensures InOrderAmong(cfg, children, AllPaths(cfg, children, bound))
    decreases bound, 1, |children|
  {
    if children != [] {
      var a, b := Paths(cfg, children[0], bound), AllPaths(cfg, children[1..], bound);
      PathsInOrder(cfg, children[0], bound);
      AllPathsInOrder(cfg, children[1..], bound);
      var ps := a + b;
      forall i, j | 0 <= i < j < |ps| ensures PrecedesAmong(cfg, children, ps[i], ps[j]) {
        if j < |a| {
          PathsAre(cfg, children[0], a[i], bound);
          PathsAre(cfg, children[0], a[j], bound);
        } else if i < |a| {
          FirstChildFirst(cfg, children, a[i], b[j - |a|], bound);
        } else {
          LaterChildren(cfg, children, b[i - |a|], b[j - |a|]);
        }
      }
    }
  }

  lemma FirstChildFirst(cfg: Config, children: seq<Name>, p: seq<Name>, q: seq<Name>, bound: nat)
    requires children != [] && p in Paths(cfg, children[0], bound) && q in AllPaths(cfg, children[1..], bound)
    ensures PrecedesAmong(cfg, children, p, q)
  {
    PathsAre(cfg, children[0], p, bound);
    AllPathsAre(cfg, children[1..], q, bound);
    var k :| 0 <= k < |children| - 1 && children[1..][k] == q[0];
    assert TakesEarlier(children, p[0], q[0], 0, k + 1);
  }

  /** Without call cycles a root-to-leaf path fits in the bound. */
  lemma PathsFit(cfg: Config, n: Name, p: seq<Name>)
    requires !C.CycleReachable(Calls(cfg), n) && RootToLeaf(cfg, n, p)
    ensures |p| <= Deep(cfg) + 1
  {
    if |p| > Deep(cfg) + 1 {
      var w := p[..|p| - 1];
      forall i | 0 <= i < |w| - 1 ensures C.Edge(Calls(cfg), w[i], w[i + 1]) {
        assert IsComposite(cfg, p[i]) && p[i + 1] in cfg[p[i]].children && IsComposite(cfg, p[i + 1]);
        var k :| 0 <= k < |cfg[p[i]].children| && cfg[p[i]].children[k] == p[i + 1];
        TargetIsEdge(cfg, p[i], k, p[i + 1]);
      }
      C.LongWalkCloses(Calls(cfg), n, w);
    }
  }

  /**
   The fan-out theorem. For an accepted configuration with plain dead letters and a live context,
   publishing to a composite finishes; it delivers once to the end of every root-to-leaf path, depth
   first, with nothing in between; and it succeeds exactly when none of those deliveries was dropped.
   */
  lemma FanOutFlattens(e: Env, log: seq<Event>, n: Name, change: Change)
    requires Accepted(e.cfg) && LeafDeadLetters(e.cfg) && NeverCancelled(e.tape) && IsComposite(e.cfg, n)
    ensures Publish(e, log, n, change, Deep(e.cfg)).Some?
    ensures forall p :: p in Paths(e.cfg, n, Deep(e.cfg)) <==> RootToLeaf(e.cfg, n, p)
    ensures NoRepeats(Paths(e.cfg, n, Deep(e.cfg))) && InOrder(e.cfg, Paths(e.cfg, n, Deep(e.cfg)))
    ensures AllLeaves(e.cfg, Ends(Paths(e.cfg, n, Deep(e.cfg))))
    ensures IsFlat(e, log, Ends(Paths(e.cfg, n, Deep(e.cfg))), change, Publish(e, log, n, change, Deep(e.cfg)).value)
  {
    var bound := Deep(e.cfg);
    AcceptedTerminates(e.cfg, n);
    TerminatesIff(e.cfg, e.retry, n);
    assert Publish(Env(e.cfg, e.retry, e.tape), log, n, change, bound).Some?;
    PublishFlattens(e, log, n, change, bound);
    forall m | IsComposite(e.cfg, m) ensures C.Distinct(e.cfg[m].children) { assert SinkAccepted(e.cfg, m); }
    PathsOnce(e.cfg, n, bound);
    PathsInOrder(e.cfg, n, bound);
    forall p ensures p in Paths(e.cfg, n, bound) <==> RootToLeaf(e.cfg, n, p) {
      PathsAre(e.cfg, n, p, bound);
      if RootToLeaf(e.cfg, n, p) { PathsFit(e.cfg, n, p); }
    }
  }

  // ----- the calls that are made, from the tape alone ------------------------------------------------

  /** Call after call of one sink, answered by the tape. */
  function Calls1(e: Env, n: Name, change: Change, start: nat, attempts: nat): (s: seq<Event>)
    ensures |s| == attempts
  {
    seq(attempts, i requires 0 <= i < attempts => Event(n, change, e.tape.accepts(start + i)))
  }

  function AsResult(d: Delivered): Retry.Result { Retry.Result(d.attempts, d.state == Success) }

  /**
   What delivering to the plain sink n must do, if its dead letter, if any, is plain too: call n until a call
   is accepted or there is a reason to stop; after a failure hand the marked change to the dead letter, once.
   Success exactly if n accepted, Dlq exactly if the dead letter did instead, Dropped otherwise.
   */
  ghost predicate LeafOutcome(e: Env, log: seq<Event>, n: Name, change: Change, deadLetter: Option<Name>,
                              d: Delivered)
  {
    var tried := log + Calls1(e, n, change, |log|, d.attempts);
    && Retry.Outcome(e.tape, |log|, Retry.Limit(e.retry.maxAttempts), AsResult(d))
    && (d.state == Success ==> d.log == tried)
    && (d.state != Success && deadLetter.None? ==> d.log == tried && d.state == Dropped)
    && (d.state != Success && deadLetter.Some? ==>
          var taken := e.tape.accepts(|tried|);
          && d.log == tried + [Event(deadLetter.value, change.(dlqFrom := n, dlqAttempts := d.attempts), taken)]
          && d.state == if taken then Dlq else Dropped)
  }

  /** That leaves no choice. */
  lemma LeafOutcomeIsUnique(e: Env, log: seq<Event>, n: Name, change: Change, deadLetter: Option<Name>,
                            d: Delivered, d': Delivered)
    requires LeafOutcome(e, log, n, change, deadLetter, d) && LeafOutcome(e, log, n, change, deadLetter, d')
    ensures d == d'
  {
    Retry.OutcomeIsUnique(e.tape, |log|, Retry.Limit(e.retry.maxAttempts), AsResult(d), AsResult(d'));
  }

  lemma TrailIsCalls(e: Env, log: seq<Event>, n: Name, change: Change)
    ensures var r := Tried(e, log); Trail(n, change, r.attempts, r.ok) == Calls1(e, n, change, |log|, r.attempts)
    ensures Retry.Outcome(e.tape, |log|, Retry.Limit(e.retry.maxAttempts), Tried(e, log))
  {
    Retry.AttemptsIsOutcome(e.retry, e.tape, |log|);
  }

  /** Whatever its dead letter is, a plain sink is called, and then its dead letter published to, as it must be. */
  lemma LeafTries(e: Env, log: seq<Event>, n: Name, change: Change, bound: nat)
    requires Declared(e.cfg) && n in e.cfg && e.cfg[n].Leaf? && Deliver(e, log, n, change, bound).Some?
    ensures var d := Deliver(e, log, n, change, bound).value; var dl := e.cfg[n].deadLetter;
            var tried := log + Calls1(e, n, change, |log|, d.attempts);
            && Retry.Outcome(e.tape, |log|, Retry.Limit(e.retry.maxAttempts), AsResult(d))
            && (d.state == Success ==> d.log == tried)
            && (d.state != Success && dl.None? ==> d.log == tried && d.state == Dropped)
            && (d.state != Success && dl.Some? ==>
                  Publish(e, tried, dl.value, change.(dlqFrom := n, dlqAttempts := d.attempts), bound)
                  == Some(Published(d.log, d.state == Dlq)))
  {
    TrailIsCalls(e, log, n, change);
  }

  lemma LeafDelivery(e: Env, log: seq<Event>, n: Name, change: Change, bound: nat)
    requires Declared(e.cfg) && LeafDeadLetters(e.cfg) && n in e.cfg && !IsComposite(e.cfg, n)
    ensures Deliver(e, log, n, change, bound).Some?
    ensures LeafOutcome(e, log, n, change, e.cfg[n].deadLetter, Deliver(e, log, n, change, bound).value)
  {
    LeafNeedsNoBound(e, log, n, change, bound);
    LeafTries(e, log, n, change, bound);
  }

  /** A composite whose context is done is dropped without a call; otherwise its publish decides. */
  lemma CompositeDelivery(e: Env, log: seq<Event>, n: Name, change: Change, bound: nat)
    requires Declared(e.cfg) && IsComposite(e.cfg, n) && Deliver(e, log, n, change, bound).Some?
    ensures var d := Deliver(e, log, n, change, bound).value;
            if e.tape.cancelled(|log|) then d == Delivered(log, Dropped, 0)
            else Publish(e, log, n, change, bound) == Some(Published(d.log, d.state == Success))
                 && d.attempts == 1 && d.state != Dlq
  {
  }

  /** The log before the i-th of a row of deliveries. */
  function LogBefore(log: seq<Event>, ds: seq<Delivered>, i: nat): seq<Event>
    requires i <= |ds|
  {
    if i == 0 then log else ds[i - 1].log
  }

  lemma LogBeforeTail(log: seq<Event>, d: Delivered, rest: seq<Delivered>, i: nat)
    requires i <= |rest|
    ensures LogBefore(log, [d] + rest, i + 1) == LogBefore(d.log, rest, i)
  {
  }

  predicate NoneDropped(ds: seq<Delivered>) { forall i | 0 <= i < |ds| :: ds[i].state != Dropped }

  lemma NoneDroppedTail(d: Delivered, rest: seq<Delivered>)
    ensures NoneDropped([d] + rest) <==> d.state != Dropped && NoneDropped(rest)
  {
    var ds := [d] + rest;
    assert ds[0] == d && forall i | 0 <= i < |rest| :: ds[i + 1] == rest[i];
    if NoneDropped(ds) { forall i | 0 <= i < |rest| ensures rest[i].state != Dropped { assert ds[i + 1] == rest[i]; } }
  }

  /** The i-th child was delivered to after the ones before it. */
  ghost predicate ChildAt(e: Env, log: seq<Event>, children: seq<Name>, change: Change, bound: nat,
                          ds: seq<Delivered>, i: nat)
    requires Declared(e.cfg) && i < |ds| == |children|
  {
    children[i] in e.cfg && Deliver(e, LogBefore(log, ds, i), children[i], change, bound) == Some(ds[i])
  }

  ghost predicate InTurn(e: Env, log: seq<Event>, children: seq<Name>, change: Change, bound: nat, ds: seq<Delivered>)
    requires Declared(e.cfg)
  {
    |ds| == |children| && forall i | 0 <= i < |ds| :: ChildAt(e, log, children, change, bound, ds, i)
  }

  lemma InTurnGrows(e: Env, log: seq<Event>, children: seq<Name>, change: Change, bound: nat,
                    d: Delivered, rest: seq<Delivered>)
    requires Declared(e.cfg) && children != [] && children[0] in e.cfg
    requires Deliver(e, log, children[0], change, bound) == Some(d)
    requires InTurn(e, d.log, children[1..], change, bound, rest)
    ensures InTurn(e, log, children, change, bound, [d] + rest)
  {
    var ds := [d] + rest;
    forall i | 0 <= i < |ds| ensures ChildAt(e, log, children, change, bound, ds, i) {
      if i > 0 {
        assert ChildAt(e, d.log, children[1..], change, bound, rest, i - 1);
        LogBeforeTail(log, d, rest, i - 1);
      }
    }
  }

  /** Every child is delivered to, in order, whatever became of the ones before it; ok means none was dropped. */
  lemma {:induction false} EachChildInTurn(e: Env, log: seq<Event>, children: seq<Name>, change: Change, bound: nat)
    returns (ds: seq<Delivered>)
    requires Declared(e.cfg) && (forall c | c in children :: c in e.cfg)
    requires DeliverAll(e, log, children, change, bound).Some?
    ensures InTurn(e, log, children, change, bound, ds)
    ensures DeliverAll(e, log, children, change, bound).value == Published(LogBefore(log, ds, |ds|), NoneDropped(ds))
    decreases |children|
  {
    if children == [] {
      ds := [];
    } else {
      var d := Deliver(e, log, children[0], change, bound).value;
      var rest := EachChildInTurn(e, d.log, children[1..], change, bound);
      ds := [d] + rest;
      InTurnGrows(e, log, children, change, bound, d, rest);
      LogBeforeTail(log, d, rest, |rest|);
      NoneDroppedTail(d, rest);
    }
  }

  /** The i-th plain sink was delivered to as it must be. */
  ghost predicate LeafAt(e: Env, log: seq<Event>, leaves: seq<Name>, change: Change, ds: seq<Delivered>, i: nat)
    requires i < |ds| == |leaves|
  {
    && leaves[i] in e.cfg && e.cfg[leaves[i]].Leaf?
    && LeafOutcome(e, LogBefore(log, ds, i), leaves[i], change, e.cfg[leaves[i]].deadLetter, ds[i])
  }

  ghost predicate LeafRow(e: Env, log: seq<Event>, leaves: seq<Name>, change: Change, ds: seq<Delivered>) {
    |ds| == |leaves| && forall i | 0 <= i < |ds| :: LeafAt(e, log, leaves, change, ds, i)
  }

  lemma LeafAtTail(e: Env, log: seq<Event>, leaves: seq<Name>, change: Change,
                   d: Delivered, rest: seq<Delivered>, i: nat)
    requires i < |rest| == |leaves| - 1 && LeafAt(e, d.log, leaves[1..], change, rest, i)
    ensures LeafAt(e, log, leaves, change, [d] + rest, i + 1)
  {
    LogBeforeTail(log, d, rest, i);
    assert ([d] + rest)[i + 1] == rest[i] && leaves[i + 1] == leaves[1..][i];
  }

  lemma RowGrows(e: Env, log: seq<Event>, leaves: seq<Name>, change: Change, d: Delivered, rest: seq<Delivered>)
    requires leaves != [] && leaves[0] in e.cfg && e.cfg[leaves[0]].Leaf?
    requires LeafOutcome(e, log, leaves[0], change, e.cfg[leaves[0]].deadLetter, d)
    requires LeafRow(e, d.log, leaves[1..], change, rest)
    ensures LeafRow(e, log, leaves, change, [d] + rest)
  {
    var ds := [d] + rest;
    forall i | 0 <= i < |ds| ensures LeafAt(e, log, leaves, change, ds, i) {
      if i > 0 { LeafAtTail(e, log, leaves, change, d, rest, i - 1); }
    }
  }

  /** Delivering to plain sinks one after the other is such a row. */
  lemma {:induction false} EachIsRow(e: Env, log: seq<Event>, leaves: seq<Name>, change: Change)
    returns (ds: seq<Delivered>)
    requires Declared(e.cfg) && LeafDeadLetters(e.cfg) && AllLeaves(e.cfg, leaves)
    ensures LeafRow(e, log, leaves, change, ds)
    ensures var f := DeliverEach(e, log, leaves, change);
            f.log == LogBefore(log, ds, |ds|) && (Dropped !in f.states <==> NoneDropped(ds))
    decreases |leaves|
  {
    if leaves == [] {
      ds := [];
    } else {
      assert leaves[0] in leaves;
      LeafDelivery(e, log, leaves[0], change, 0);
      var d := Deliver(e, log, leaves[0], change, 0).value;
      var rest := EachIsRow(e, d.log, leaves[1..], change);
      ds := [d] + rest;
      RowGrows(e, log, leaves, change, d, rest);
      LogBeforeTail(log, d, rest, |rest|);
      NoneDroppedTail(d, rest);
    }
  }

  /**
   The fan-out theorem in terms of calls. For an accepted configuration with plain dead letters and a live
   context, publishing makes one delivery to the end of every root-to-leaf path, one after the other, each as
   the tape and the retry limit dictate; it succeeds exactly when none of them was dropped.
   */
  lemma FanOutCalls(e: Env, log: seq<Event>, n: Name, change: Change) returns (ds: seq<Delivered>)
    requires Accepted(e.cfg) && LeafDeadLetters(e.cfg) && NeverCancelled(e.tape) && IsComposite(e.cfg, n)
    ensures LeafRow(e, log, Ends(Paths(e.cfg, n, Deep(e.cfg))), change, ds)
    ensures Publish(e, log, n, change, Deep(e.cfg)) == Some(Published(LogBefore(log, ds, |ds|), NoneDropped(ds)))
  {
    FanOutFlattens(e, log, n, change);
    ds := EachIsRow(e, log, Ends(Paths(e.cfg, n, Deep(e.cfg))), change);
  }

  // ----- what success means -------------------------------------------------------------------------

  /** What a sink is to receive: the item, marked with the sink it is a dead letter of, or "" if of none. */
  datatype Copy = Copy(from: Name, id: string, hash: string)

  function CopyOf(change: Change): Copy { Copy(change.dlqFrom, change.id, change.hash) }

  /** Plain sink n accepted this very copy. */
  ghost predicate Accepts(log: seq<Event>, n: Name, copy: Copy) {
    exists i :: 0 <= i < |log| && log[i].ok && log[i].sink == n && CopyOf(log[i].change) == copy
  }

  /** Sink n has taken the copy: a plain sink itself, a composite through all its children. */
  ghost predicate Landed(cfg: Config, log: seq<Event>, n: Name, copy: Copy, bound: nat)
    decreases bound, 0
  {
    if !IsComposite(cfg, n) then Accepts(log, n, copy)
    else bound > 0 && forall c | c in cfg[n].children :: Kept(cfg, log, c, copy, bound - 1)
  }

  predicate HasDeadLetter(cfg: Config, n: Name) { n in cfg && cfg[n].Leaf? && cfg[n].deadLetter.Some? }

  /** Branch n has taken the copy, or its dead letter has taken n's envelope of it. */
  ghost predicate Kept(cfg: Config, log: seq<Event>, n: Name, copy: Copy, bound: nat)
    decreases bound, 1
  {
    || Landed(cfg, log, n, copy, bound)
    || (HasDeadLetter(cfg, n) && Landed(cfg, log, cfg[n].deadLetter.value, copy.(from := n), bound))
  }

  lemma {:induction false} LandedForGood(cfg: Config, log: seq<Event>, longer: seq<Event>, n: Name, copy: Copy,
                                         bound: nat)
    requires log <= longer && Landed(cfg, log, n, copy, bound)
    ensures Landed(cfg, longer, n, copy, bound)
    decreases bound, 0
  {
    if IsComposite(cfg, n) {
      forall c | c in cfg[n].children ensures Kept(cfg, longer, c, copy, bound - 1) {
        KeptForGood(cfg, log, longer, c, copy, bound - 1);
      }
    } else {
      var i :| 0 <= i < |log| && log[i].ok && log[i].sink == n && CopyOf(log[i].change) == copy;
      assert longer[i] == log[i];
    }
  }

  lemma {:induction false} KeptForGood(cfg: Config, log: seq<Event>, longer: seq<Event>, n: Name, copy: Copy,
                                       bound: nat)
    requires log <= longer && Kept(cfg, log, n, copy, bound)
    ensures Kept(cfg, longer, n, copy, bound)
    decreases bound, 1
  {
    if Landed(cfg, log, n, copy, bound) {
      LandedForGood(cfg, log, longer, n, copy, bound);
    } else {
      LandedForGood(cfg, log, longer, cfg[n].deadLetter.value, copy.(from := n), bound);
    }
  }

  /** A publish that reports success has landed, and the log only grows. */
  lemma {:induction false} PublishLands(e: Env, log: seq<Event>, n: Name, change: Change, bound: nat)
    requires Declared(e.cfg) && n in e.cfg && Publish(e, log, n, change, bound).Some?
    ensures var p := Publish(e, log, n, change, bound).value;
            log <= p.log && (p.ok ==> Landed(e.cfg, p.log, n, CopyOf(change), bound))
    decreases bound, 0, 0
  {
    var p := Publish(e, log, n, change, bound).value;
    if IsComposite(e.cfg, n) {
      AllLand(e, log, e.cfg[n].children, change, bound - 1);
    } else if p.ok {
      assert p.log[|log|] == Event(n, change, true);
    }
  }

  /** A delivery that is not dropped has been kept. */
  lemma {:induction false} DeliverKeeps(e: Env, log: seq<Event>, n: Name, change: Change, bound: nat)
    requires Declared(e.cfg) && n in e.cfg && Deliver(e, log, n, change, bound).Some?
    ensures var d := Deliver(e, log, n, change, bound).value;
            log <= d.log && (d.state != Dropped ==> Kept(e.cfg, d.log, n, CopyOf(change), bound))
    decreases bound, 1, 0
  {
    match e.cfg[n]
    case Composite(_) =>
      if !e.tape.cancelled(|log|) { PublishLands(e, log, n, change, bound); }
    case Leaf(dl) =>
      var r := Tried(e, log);
      var tried := log + Trail(n, change, r.attempts, r.ok);
      if r.ok {
        assert tried[|tried| - 1] == Event(n, change, true);
      } else if dl.Some? {
        PublishLands(e, tried, dl.value, Envelope(change, n, r.attempts), bound);
      }
  }

  lemma {:induction false} AllLand(e: Env, log: seq<Event>, children: seq<Name>, change: Change, bound: nat)
    requires Declared(e.cfg) && forall c | c in children :: c in e.cfg
    requires DeliverAll(e, log, children, change, bound).Some?
    ensures var p := DeliverAll(e, log, children, change, bound).value;
            log <= p.log && (p.ok ==> forall c | c in children :: Kept(e.cfg, p.log, c, CopyOf(change), bound))
    decreases bound, 2, |children|
  {
    if children != [] {
      var d := Deliver(e, log, children[0], change, bound).value;
      DeliverKeeps(e, log, children[0], change, bound);
      AllLand(e, d.log, children[1..], change, bound);
      var p := DeliverAll(e, d.log, children[1..], change, bound).value;
      if d.state != Dropped { KeptForGood(e.cfg, d.log, p.log, children[0], CopyOf(change), bound); }
    }
  }
}
