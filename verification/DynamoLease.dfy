/**
 The DynamoDB lease protocol: one conditional put that succeeds when the row is absent or its
 lease_expiry is strictly before the caller's `now`, and a conditional delete that compares only
 the owner token, which is per process and not per acquisition. Two rules for callers matter.
 `Released` is the documented one: release a feed's lease before the next attempt for that feed.
 It does not suffice, because a delete that reported an error may land later and hit the row of the
 next acquisition; exclusion then lasts exactly until such a hit. `Unfailed` is a further rule that a
 caller can follow and that excludes hits: make no new attempt for a feed whose release has failed.
 */
module DynamoLease {
  import opened LeaseLedger
  import R = LeaseRegister
  import Naturals

  type Key = R.Key
  type CallId = nat

  /** A lock row. The tag names the put that wrote it; no condition ever reads it. */
  datatype Row = Row(owner: Proc, expiry: int, tag: Tag)

  /** A TryAcquire whose put has not been answered. */
  datatype Call = Call(p: Proc, key: Key, now: int, expiry: int)

  datatype Request =
    | Put(call: Call)
    | Delete(p: Proc, key: Key)

  datatype State = State(
    clock: int,
    rows: map<Key, Row>,
    calls: map<CallId, Call>,
    net: set<Request>,           // requests nobody waits for any more
    writes: map<Tag, R.Write>,     // history: every put the table accepted
    ledger: Ledger,
    failed: set<Tag>)            // leases whose conditional delete returned an error

  ghost predicate Init(s: State) {
    && s.rows == map[] && s.calls == map[] && s.net == {} && s.writes == map[]
    && s.ledger == Empty && s.failed == {}
  }

  // ----- the table ------------------------------------------------------------------------

  /** attribute_not_exists(pk) OR lease_expiry < :now */
  predicate PutAccepted(s: State, c: Call) {
    c.key in s.rows ==> s.rows[c.key].expiry < c.now
  }

  function Stored(s: State, c: Call, tag: Tag): State {
    s.(rows := s.rows[c.key := Row(c.p, c.expiry, tag)], writes := s.writes[tag := R.Write(c.p, c.key, c.expiry)])
  }

  /** owner = :me */
  predicate Owns(s: State, p: Proc, key: Key) { key in s.rows && s.rows[key].owner == p }

  function Deleted(s: State, p: Proc, key: Key): State {
    if Owns(s, p, key) then s.(rows := s.rows - {key}) else s
  }

  function Applied(s: State, r: Request, tag: Tag): State {
    match r
    case Put(c) => if PutAccepted(s, c) then Stored(s, c, tag) else s
    case Delete(p, key) => Deleted(s, p, key)
  }

  // ----- the steps ------------------------------------------------------------------------

  datatype Action =
    | Tick(now: int)
    | Begin(c: CallId, p: Proc, key: Key, read: int, lease: int)
    | PutOk(c: CallId, tag: Tag)
    | GiveUp(c: CallId)
    | Abandon(c: CallId)
    | Land(r: Request, tag: Tag)
    | Drop(r: Request)
    | Record(t: Tag)
    | Release(t: Tag)
    | Close(p: Proc)
    | DeleteOk(t: Tag)
    | DeleteError(t: Tag)

  ghost predicate Step(s: State, a: Action, s': State) {
    match a
    case Tick(now) => s.clock <= now && s' == s.(clock := now)
    case Begin(c, p, key, read, lease) =>
      && c !in s.calls && read <= s.clock
      && s' == s.(calls := s.calls[c := Call(p, key, read, read + lease)])
    case PutOk(c, tag) =>
      && c in s.calls && tag !in s.writes && PutAccepted(s, s.calls[c])
      && s' == Stored(s, s.calls[c], tag).(calls := s.calls - {c}, ledger := s.ledger.Win(tag, s.calls[c].p))
    case GiveUp(c) => c in s.calls && s' == s.(calls := s.calls - {c})
    case Abandon(c) => c in s.calls && s' == s.(net := s.net + {Put(s.calls[c])})
    case Land(r, tag) => r in s.net && tag !in s.writes && s' == Applied(s, r, tag)
    case Drop(r) => s' == s.(net := s.net - {r})
    case Record(t) => t in s.ledger.pending && t in s.ledger.owner && s' == s.(ledger := s.ledger.Record(t))
    case Release(t) => s' == s.(ledger := s.ledger.Release(t))
    case Close(p) => s' == s.(ledger := s.ledger.Close(p))
    case DeleteOk(t) =>
      && t in s.ledger.deleting && t in s.writes
      && s' == Deleted(s, s.writes[t].owner, s.writes[t].key).(ledger := s.ledger.Finish(t))
    case DeleteError(t) =>
      && t in s.ledger.deleting && t in s.writes
      && s' == s.(ledger := s.ledger.Finish(t), failed := s.failed + {t},
                  net := s.net + {Delete(s.writes[t].owner, s.writes[t].key)})
  }

  ghost predicate Linked(tr: seq<State>, acts: seq<Action>, i: nat)
    requires i < |acts| && |tr| == |acts| + 1
  {
    Step(tr[i], acts[i], tr[i + 1])
  }

  /** Any number of steps, by anybody, in any order. */
  ghost predicate FreeRun(tr: seq<State>, acts: seq<Action>) {
    && |tr| == |acts| + 1 && Init(tr[0])
    && forall i | 0 <= i < |acts| :: Linked(tr, acts, i)
  }

  // ----- the callers' rules ---------------------------------------------------------------

  /** Leases won and not yet disposed of. */
  function Active(s: State): set<Tag> {
    s.ledger.pending + s.ledger.held + s.ledger.deleting
  }

  ghost predicate CallFor(s: State, c: CallId, p: Proc, key: Key) {
    c in s.calls && s.calls[c].p == p && s.calls[c].key == key
  }

  ghost predicate LeaseFor(s: State, t: Tag, p: Proc, key: Key) {
    t in Active(s) && t in s.writes && s.writes[t].owner == p && s.writes[t].key == key
  }

  /** Process p has a call for this key under way, or a lease whose release has not returned. */
  ghost predicate Busy(s: State, p: Proc, key: Key) {
    (exists c :: CallFor(s, c, p, key)) || (exists t :: LeaseFor(s, t, p, key))
  }

  /** Callers release a feed's lease before their next attempt for the same feed. */
  ghost predicate Released(s: State, a: Action) {
    a.Begin? ==> a.p in s.ledger.closed || !Busy(s, a.p, a.key)
  }

  /** The release of this lease returned an error to process p. */
  ghost predicate FailedFor(s: State, t: Tag, p: Proc, key: Key) {
    t in s.failed && t in s.writes && s.writes[t].owner == p && s.writes[t].key == key
  }

  /** Callers make no further attempt for a feed whose release has failed. */
  ghost predicate Unfailed(s: State, a: Action) {
    a.Begin? ==> a.p in s.ledger.closed || forall t :: !FailedFor(s, t, a.p, a.key)
  }

  /** A run whose callers keep the documented rule. */
  ghost predicate RuledRun(tr: seq<State>, acts: seq<Action>) {
    FreeRun(tr, acts) && forall i | 0 <= i < |acts| :: Released(tr[i], acts[i])
  }

  /** A run whose callers keep both rules. */
  ghost predicate CarefulRun(tr: seq<State>, acts: seq<Action>) {
    RuledRun(tr, acts) && forall i | 0 <= i < |acts| :: Unfailed(tr[i], acts[i])
  }

  // ----- what every step keeps ------------------------------------------------------------

  ghost predicate LedgerOk(s: State) {
    && s.ledger.Placed()
    && forall t | t in s.ledger.owner :: t in s.writes && s.writes[t].owner == s.ledger.owner[t]
  }

  ghost predicate RowsOk(s: State) {
    forall k | k in s.rows ::
      s.rows[k].tag in s.writes && s.writes[s.rows[k].tag] == R.Write(s.rows[k].owner, k, s.rows[k].expiry)
  }

  ghost predicate ClocksOk(s: State) {
    && (forall c | c in s.calls :: s.calls[c].now <= s.clock)
    && (forall r | r in s.net && r.Put? :: r.call.now <= s.clock)
  }

  /** A lease whose delete went through is out of the table for good. */
  ghost predicate DisposedOk(s: State) {
    forall t | t in s.ledger.owner && t !in Active(s) && t !in s.failed ::
      t in s.writes && !(s.writes[t].key in s.rows && s.rows[s.writes[t].key].tag == t)
  }

  /** What every step keeps, rule or no rule. */
  ghost predicate Base(s: State) {
    LedgerOk(s) && RowsOk(s) && ClocksOk(s) && DisposedOk(s)
  }

  lemma WinKeepsBase(s: State, c: CallId, tag: Tag, s': State)
    requires Base(s) && Step(s, PutOk(c, tag), s')
    ensures Base(s')
  {
    WinKeeps(s.ledger, tag, s.calls[c].p);
    assert forall t | t in s.writes :: s'.writes[t] == s.writes[t];
    assert forall t | t in s.ledger.owner :: s'.ledger.owner[t] == s.ledger.owner[t];
    assert Active(s') == Active(s) + {tag};
  }

  lemma LandKeepsBase(s: State, r: Request, tag: Tag, s': State)
    requires Base(s) && Step(s, Land(r, tag), s')
    ensures Base(s')
  {
    assert forall t | t in s.writes :: s'.writes[t] == s.writes[t];
  }

  /** The mutex sections: no lease is won or disposed of, and the table is left alone. */
  lemma SectionKeepsBase(s: State, a: Action, s': State)
    requires Base(s) && Step(s, a, s') && (a.Record? || a.Release? || a.Close?)
    ensures Base(s') && Active(s') == Active(s)
  {
    match a
    case Record(t) => RecordKeeps(s.ledger, t);
    case Release(t) => ReleaseKeeps(s.ledger, t);
    case Close(p) => CloseKeeps(s.ledger, p);
  }

  lemma FinishKeepsBase(s: State, a: Action, s': State)
    requires Base(s) && Step(s, a, s') && (a.DeleteOk? || a.DeleteError?)
    ensures Base(s') && Active(s') == Active(s) - {a.t}
  {
    FinishKeeps(s.ledger, a.t);
  }

  lemma StepKeepsBase(s: State, a: Action, s': State)
    requires Base(s) && Step(s, a, s')
    ensures Base(s')
  {
    match a
    case PutOk(c, tag) => WinKeepsBase(s, c, tag, s');
    case Land(r, tag) => LandKeepsBase(s, r, tag, s');
    case Record(_) => SectionKeepsBase(s, a, s');
    case Release(_) => SectionKeepsBase(s, a, s');
    case Close(_) => SectionKeepsBase(s, a, s');
    case DeleteOk(_) => FinishKeepsBase(s, a, s');
    case DeleteError(_) => FinishKeepsBase(s, a, s');
    case _ => assert Active(s') == Active(s);
  }

  lemma StepCounts(s: State, a: Action, s': State)
    requires LedgerOk(s) && s.ledger.Counted() && Step(s, a, s')
    ensures s'.ledger.Counted()
  {
    match a
    case PutOk(c, tag) => WinKeeps(s.ledger, tag, s.calls[c].p);
    case Record(t) => RecordKeeps(s.ledger, t);
    case Release(t) => ReleaseKeeps(s.ledger, t);
    case Close(p) => CloseKeeps(s.ledger, p);
    case DeleteOk(t) => FinishKeeps(s.ledger, t);
    case DeleteError(t) => FinishKeeps(s.ledger, t);
    case _ =>
  }

  lemma {:induction false} FreeRunKeeps(tr: seq<State>, acts: seq<Action>, i: nat)
    requires FreeRun(tr, acts) && i < |tr|
    ensures Base(tr[i]) && tr[i].ledger.Counted()
  {
    if i == 0 {
      EmptyIsConsistent();
    } else {
      FreeRunKeeps(tr, acts, i - 1);
      assert Linked(tr, acts, i - 1);
      StepKeepsBase(tr[i - 1], acts[i - 1], tr[i]);
      StepCounts(tr[i - 1], acts[i - 1], tr[i]);
    }
  }

  /** Exactly-once disposal over every race of TryAcquire, release and Close, whatever callers do. */
  lemma ExactlyOnceDisposal(tr: seq<State>, acts: seq<Action>, i: nat, t: Tag)
    requires FreeRun(tr, acts) && i < |tr| && t in tr[i].ledger.owner
    ensures tr[i].ledger.issued[t] <= 1
    ensures tr[i].ledger.owner[t] in tr[i].ledger.closed && tr[i].ledger.Quiet(tr[i].ledger.owner[t]) ==>
              && tr[i].ledger.issued[t] == 1
              && t in tr[i].writes
              && (t in tr[i].failed ||
                  !(tr[i].writes[t].key in tr[i].rows && tr[i].rows[tr[i].writes[t].key].tag == t))
  {
    FreeRunKeeps(tr, acts, i);
    DisposedOnce(tr[i].ledger, t);
  }

  // ----- what the documented rule keeps -----------------------------------------------------

  /** An open coordinator has at most one call or lease per key. */
  ghost predicate Apart(s: State) {
    && (forall c, d, p, k | CallFor(s, c, p, k) && CallFor(s, d, p, k) && p !in s.ledger.closed :: c == d)
    && (forall t, u, p, k | LeaseFor(s, t, p, k) && LeaseFor(s, u, p, k) && p !in s.ledger.closed :: t == u)
    && (forall c, t, p, k | CallFor(s, c, p, k) && LeaseFor(s, t, p, k) :: p in s.ledger.closed)
  }

  lemma BeginAdds(s: State, a: Action, s': State)
    requires a.Begin? && Step(s, a, s')
    ensures forall c, p, k :: CallFor(s', c, p, k) <==> CallFor(s, c, p, k) || (c == a.c && p == a.p && k == a.key)
    ensures forall t, p, k :: LeaseFor(s', t, p, k) <==> LeaseFor(s, t, p, k)
  {
  }

  lemma WinMoves(s: State, c: CallId, tag: Tag, s': State)
    requires Step(s, PutOk(c, tag), s')
    ensures var l := s.calls[c]; CallFor(s, c, l.p, l.key) && forall t, p, k :: LeaseFor(s', t, p, k) ==>
              LeaseFor(s, t, p, k) || (t == tag && p == l.p && k == l.key)
    ensures forall d, p, k :: CallFor(s', d, p, k) <==> CallFor(s, d, p, k) && d != c
  {
    assert forall t | t in s.writes :: s'.writes[t] == s.writes[t];
  }

  /** Steps after which there is no new call or active lease. */
  ghost predicate Shrinks(s: State, s': State) {
    && s.ledger.closed <= s'.ledger.closed
    && (forall c, p, k :: CallFor(s', c, p, k) ==> CallFor(s, c, p, k))
    && (forall t, p, k :: LeaseFor(s', t, p, k) ==> LeaseFor(s, t, p, k))
  }

  lemma OthersShrink(s: State, a: Action, s': State)
    requires Base(s) && Step(s, a, s') && !a.Begin? && !a.PutOk?
    ensures Shrinks(s, s')
  {
    match a
    case Begin(_, _, _, _, _) =>
    case PutOk(_, _) =>
    case Land(_, tag) => assert Active(s') == Active(s) && tag !in Active(s);
    case Record(_) => SectionKeepsBase(s, a, s');
    case Release(_) => SectionKeepsBase(s, a, s');
    case Close(_) => SectionKeepsBase(s, a, s');
    case DeleteOk(_) => FinishKeepsBase(s, a, s');
    case DeleteError(_) => FinishKeepsBase(s, a, s');
    case _ => assert Active(s') == Active(s);
  }

  lemma StepKeepsApart(s: State, a: Action, s': State)
    requires Base(s) && Apart(s) && Step(s, a, s') && Released(s, a)
    ensures Apart(s')
  {
    match a
    case Begin(_, _, _, _, _) => BeginAdds(s, a, s');
    case PutOk(c, tag) => WinMoves(s, c, tag, s');
    case _ => OthersShrink(s, a, s');
  }

  lemma {:induction false} RuledRunKeeps(tr: seq<State>, acts: seq<Action>, i: nat)
    requires RuledRun(tr, acts) && i < |tr|
    ensures Base(tr[i]) && Apart(tr[i])
  {
    FreeRunKeeps(tr, acts, i);
    if i > 0 {
      RuledRunKeeps(tr, acts, i - 1);
      assert Linked(tr, acts, i - 1) && Released(tr[i - 1], acts[i - 1]);
      StepKeepsApart(tr[i - 1], acts[i - 1], tr[i]);
    }
  }

  // ----- refinement of the lease register ---------------------------------------------------

  ghost function Abs(s: State): R.Register
    requires LedgerOk(s)
  {
    R.Register(s.clock,
               map k | k in s.rows :: R.Grant(s.rows[k].tag, s.rows[k].expiry),
               R.ClaimsOf(s.ledger.Claimed(), s.writes),
               s.writes.Keys)
  }

  /** The register step each protocol step amounts to. */
  ghost function AbsAction(s: State, a: Action): R.Action
    requires LedgerOk(s)
  {
    match a
    case Tick(now) => R.Tick(now)
    case PutOk(c, tag) =>
      if c in s.calls then R.Give(s.calls[c].key, tag, s.calls[c].expiry, s.calls[c].p !in s.ledger.closed)
      else R.Stay
    case Land(Put(c), tag) =>
      if PutAccepted(s, c) then R.Give(c.key, tag, c.expiry, false) else R.Stay
    case Land(Delete(p, key), tag) =>
      if !Owns(s, p, key) then R.Stay
      else if s.rows[key].tag in s.ledger.Claimed() then R.Purge(key) else R.Withdraw(key)
    case Release(t) => if t in s.ledger.held then R.Disclaim({t}) else R.Stay
    case Close(p) => R.Disclaim(set t | t in s.ledger.Claimed() && s.ledger.owner[t] == p)
    case DeleteOk(t) =>
      if t in s.writes && Owns(s, s.writes[t].owner, s.writes[t].key) then R.Withdraw(s.writes[t].key) else R.Stay
    case _ => R.Stay
  }

  /** A loose delete lands on a row that its process still claims and that has not expired. */
  predicate Hits(s: State, a: Action) {
    && a.Land? && a.r.Delete? && Owns(s, a.r.p, a.r.key)
    && Entitled(s, s.rows[a.r.key].tag) && s.clock < s.rows[a.r.key].expiry
  }

  /** Some process is entitled to act on the lease. */
  predicate Entitled(s: State, t: Tag) {
    t in s.ledger.held || (t in s.ledger.pending && t in s.ledger.owner && s.ledger.owner[t] !in s.ledger.closed)
  }

  lemma WinGrants(s: State, c: CallId, tag: Tag, s': State)
    requires LedgerOk(s) && LedgerOk(s') && Step(s, PutOk(c, tag), s')
    ensures Abs(s').grants == Abs(s).grants[s.calls[c].key := R.Grant(tag, s.calls[c].expiry)]
  {
  }

  lemma WinClaims(s: State, c: CallId, tag: Tag, s': State)
    requires LedgerOk(s) && LedgerOk(s') && Step(s, PutOk(c, tag), s')
    ensures var l := s.calls[c];
            && Abs(s').used == Abs(s).used + {tag}
            && Abs(s').claims == if l.p in s.ledger.closed then Abs(s).claims
                                 else Abs(s).claims[tag := R.Claim(l.key, l.expiry)]
  {
    var l := s.calls[c];
    WinKeeps(s.ledger, tag, l.p);
    R.ClaimsAfterWrite(s.ledger.Claimed(), s.writes, tag, R.Write(l.p, l.key, l.expiry));
  }

  lemma WinRefines(s: State, c: CallId, tag: Tag, s': State)
    requires LedgerOk(s) && ClocksOk(s) && LedgerOk(s') && Step(s, PutOk(c, tag), s')
    ensures R.Step(Abs(s), AbsAction(s, PutOk(c, tag)), Abs(s'))
  {
    WinGrants(s, c, tag, s');
    WinClaims(s, c, tag, s');
  }

  /** A loose put that lands: nobody claims it. */
  lemma OrphanRefines(s: State, c: Call, tag: Tag, s': State)
    requires LedgerOk(s) && LedgerOk(s') && ClocksOk(s) && Put(c) in s.net
    requires tag !in s.writes && PutAccepted(s, c) && s' == Stored(s, c, tag)
    ensures R.Step(Abs(s), R.Give(c.key, tag, c.expiry, false), Abs(s'))
  {
    assert Abs(s').grants == Abs(s).grants[c.key := R.Grant(tag, c.expiry)];
    R.ClaimsAfterWrite(s.ledger.Claimed(), s.writes, tag, s'.writes[tag]);
  }

  lemma DeletedGrants(s: State, p: Proc, key: Key)
    requires LedgerOk(s) && Owns(s, p, key)
    ensures LedgerOk(Deleted(s, p, key))
    ensures Abs(Deleted(s, p, key)) == Abs(s).(grants := Abs(s).grants - {key})
  {
  }

  lemma LandRefines(s: State, r: Request, tag: Tag, s': State)
    requires Base(s) && Base(s') && Step(s, Land(r, tag), s') && !Hits(s, Land(r, tag))
    ensures R.Step(Abs(s), AbsAction(s, Land(r, tag)), Abs(s'))
  {
    match r
    case Put(c) =>
      if PutAccepted(s, c) { OrphanRefines(s, c, tag, s'); }
    case Delete(p, key) =>
      if Owns(s, p, key) {
        DeletedGrants(s, p, key);
        var u := s.rows[key].tag;
        assert u in s.ledger.Claimed() <==> Entitled(s, u);
        assert u in Abs(s).claims <==> u in s.ledger.Claimed();
      }
  }

  /** By the documented rule, the delete of a release never hits a lease its process still claims. */
  lemma ReleaseHitsNoClaim(s: State, t: Tag)
    requires Base(s) && Apart(s) && t in s.ledger.deleting
    ensures t in s.writes && var l := s.writes[t];
            Owns(s, l.owner, l.key) ==> !Entitled(s, s.rows[l.key].tag)
  {
    var l := s.writes[t];
    assert LeaseFor(s, t, l.owner, l.key);
    if Owns(s, l.owner, l.key) {
      var u := s.rows[l.key].tag;
      assert Entitled(s, u) ==> LeaseFor(s, u, l.owner, l.key) && l.owner !in s.ledger.closed;
    }
  }

  lemma DeleteOkRefines(s: State, t: Tag, s': State)
    requires Base(s) && Base(s') && Apart(s) && Step(s, DeleteOk(t), s')
    ensures R.Step(Abs(s), AbsAction(s, DeleteOk(t)), Abs(s'))
  {
    var p, key := s.writes[t].owner, s.writes[t].key;
    FinishKeeps(s.ledger, t);
    assert Abs(s').claims == Abs(s).claims;
    ReleaseHitsNoClaim(s, t);
    if Owns(s, p, key) {
      DeletedGrants(s, p, key);
      assert s.rows[key].tag !in s.ledger.Claimed();
    }
  }

  /** Recording, releasing, closing. */
  lemma SectionRefines(s: State, a: Action, s': State)
    requires Base(s) && Base(s') && Step(s, a, s') && (a.Record? || a.Release? || a.Close?)
    ensures R.Step(Abs(s), AbsAction(s, a), Abs(s'))
  {
    match a
    case Record(t) => RecordKeeps(s.ledger, t);
    case Release(t) =>
      ReleaseKeeps(s.ledger, t);
      if t in s.ledger.held { R.ClaimsLess(s.ledger.Claimed(), {t}, s.writes); }
    case Close(p) =>
      CloseKeeps(s.ledger, p);
      var mine := set t | t in s.ledger.Claimed() && s.ledger.owner[t] == p;
      R.ClaimsLess(s.ledger.Claimed(), mine, s.writes);
  }

  lemma DeleteErrorRefines(s: State, t: Tag, s': State)
    requires Base(s) && Base(s') && Step(s, DeleteError(t), s')
    ensures R.Step(Abs(s), R.Stay, Abs(s'))
  {
    FinishKeeps(s.ledger, t);
    assert Abs(s').claims == Abs(s).claims;
  }

  /** Under the documented rule every step but a hit is a step of the lease register. */
  lemma Refines(s: State, a: Action, s': State)
    requires Base(s) && Apart(s) && Step(s, a, s') && !Hits(s, a)
    ensures Base(s') && R.Step(Abs(s), AbsAction(s, a), Abs(s'))
  {
    StepKeepsBase(s, a, s');
    match a
    case PutOk(c, tag) => WinRefines(s, c, tag, s');
    case Land(r, tag) => LandRefines(s, r, tag, s');
    case Record(_) => SectionRefines(s, a, s');
    case Release(_) => SectionRefines(s, a, s');
    case Close(_) => SectionRefines(s, a, s');
    case DeleteOk(t) => DeleteOkRefines(s, t, s');
    case DeleteError(t) => DeleteErrorRefines(s, t, s');
    case _ =>
  }

  /** A hit leaves an unexpired claim without its row. */
  lemma HitUnbacks(s: State, a: Action, s': State)
    requires Base(s) && Base(s') && Step(s, a, s') && Hits(s, a)
    ensures !R.Backed(Abs(s'))
  {
    var k := a.r.key;
    var u := s.rows[k].tag;
    DeletedGrants(s, a.r.p, k);
    assert u in s'.ledger.Claimed() && s'.writes[u] == R.Write(a.r.p, k, s.rows[k].expiry);
    var r := Abs(s');
    assert u in r.claims && r.claims[u] == R.Claim(k, s.rows[k].expiry) && k !in r.grants;
  }

  lemma StepKeepsBacked(s: State, a: Action, s': State)
    requires Base(s) && Apart(s) && Step(s, a, s') && !Hits(s, a) && R.Backed(Abs(s))
    ensures Base(s') && R.Backed(Abs(s'))
  {
    Refines(s, a, s');
    R.StepKeepsBacked(Abs(s), AbsAction(s, a), Abs(s'));
  }

  /** Until a loose delete hits, the documented rule is enough. */
  lemma {:induction false} SafeUntilHit(tr: seq<State>, acts: seq<Action>, i: nat)
    requires RuledRun(tr, acts) && i < |tr|
    requires forall j | 0 <= j < i :: !Hits(tr[j], acts[j])
    ensures Base(tr[i]) && R.Backed(Abs(tr[i]))
  {
    RuledRunKeeps(tr, acts, i);
    if i > 0 {
      SafeUntilHit(tr, acts, i - 1);
      RuledRunKeeps(tr, acts, i - 1);
      assert Linked(tr, acts, i - 1) && !Hits(tr[i - 1], acts[i - 1]);
      StepKeepsBacked(tr[i - 1], acts[i - 1], tr[i]);
    }
  }

  /** Under the documented rule every unexpired claim is backed throughout exactly when no loose delete hits. */
  lemma BackedIff(tr: seq<State>, acts: seq<Action>)
    requires RuledRun(tr, acts)
    ensures forall i | 0 <= i < |tr| :: LedgerOk(tr[i])
    ensures (forall i | 0 <= i < |tr| :: R.Backed(Abs(tr[i])))
            <==> (forall i | 0 <= i < |acts| :: !Hits(tr[i], acts[i]))
  {
    forall i | 0 <= i < |tr| ensures LedgerOk(tr[i]) { RuledRunKeeps(tr, acts, i); }
    if forall i | 0 <= i < |acts| :: !Hits(tr[i], acts[i]) {
      forall i | 0 <= i < |tr| ensures R.Backed(Abs(tr[i])) { SafeUntilHit(tr, acts, i); }
    }
    if forall i | 0 <= i < |tr| :: R.Backed(Abs(tr[i])) {
      forall i | 0 <= i < |acts| ensures !Hits(tr[i], acts[i]) {
        assert R.Backed(Abs(tr[i + 1]));
        BackedWasNotHit(tr, acts, i);
      }
    }
  }

  lemma BackedWasNotHit(tr: seq<State>, acts: seq<Action>, i: nat)
    requires RuledRun(tr, acts) && i < |acts| && LedgerOk(tr[i + 1]) && R.Backed(Abs(tr[i + 1]))
    ensures !Hits(tr[i], acts[i])
  {
    RuledRunKeeps(tr, acts, i);
    RuledRunKeeps(tr, acts, i + 1);
    assert Linked(tr, acts, i);
    if Hits(tr[i], acts[i]) { HitUnbacks(tr[i], acts[i], tr[i + 1]); }
  }

  /** Until a hit, the protocol implements the lease register, step for step. */
  lemma RunRefinesRegister(tr: seq<State>, acts: seq<Action>)
    requires RuledRun(tr, acts) && forall i | 0 <= i < |acts| :: !Hits(tr[i], acts[i])
    ensures forall i | 0 <= i < |tr| :: LedgerOk(tr[i])
    ensures R.Init(Abs(tr[0]))
    ensures forall i | 0 <= i < |tr| - 1 :: R.Next(Abs(tr[i]), Abs(tr[i + 1]))
  {
    forall i | 0 <= i < |tr| ensures LedgerOk(tr[i]) { RuledRunKeeps(tr, acts, i); }
    forall i | 0 <= i < |tr| - 1 ensures R.Next(Abs(tr[i]), Abs(tr[i + 1])) {
      RuledRunKeeps(tr, acts, i);
      assert Linked(tr, acts, i);
      Refines(tr[i], acts[i], tr[i + 1]);
    }
  }

  /** Of two recorded leases of one key at least one has expired. */
  ghost predicate Exclusive(s: State, t: Tag, u: Tag) {
    && t in s.writes && u in s.writes
    && (s.writes[t].key == s.writes[u].key ==> s.writes[t].expiry <= s.clock || s.writes[u].expiry <= s.clock)
  }

  lemma BackedExcludes(s: State, t: Tag, u: Tag)
    requires LedgerOk(s) && R.Backed(Abs(s)) && t in s.ledger.held && u in s.ledger.held && t != u
    ensures Exclusive(s, t, u)
  {
    var r := Abs(s);
    R.BackedIsExclusive(r);
    assert t in r.claims && u in r.claims;
  }

  /** Under the documented rule at most one recorded lease per key is unexpired, until a loose delete hits. */
  lemma ExclusionUntilHit(tr: seq<State>, acts: seq<Action>, i: nat, t: Tag, u: Tag)
    requires RuledRun(tr, acts) && i < |tr| && (forall j | 0 <= j < i :: !Hits(tr[j], acts[j]))
    requires t in tr[i].ledger.held && u in tr[i].ledger.held && t != u
    ensures Exclusive(tr[i], t, u)
  {
    SafeUntilHit(tr, acts, i);
    BackedExcludes(tr[i], t, u);
  }

  // ----- the careful caller -----------------------------------------------------------------

  /** A loose delete comes from a failed release, and after one an open coordinator keeps off the key. */
  ghost predicate Barred(s: State) {
    && (forall p, k | Delete(p, k) in s.net :: exists t :: FailedFor(s, t, p, k))
    && (forall t, p, k | FailedFor(s, t, p, k) && p !in s.ledger.closed :: !Busy(s, p, k))
  }

  /** Only a delete that errs adds a failure or a loose delete. */
  lemma FailuresStay(s: State, a: Action, s': State)
    requires Base(s) && Step(s, a, s')
    ensures forall t, p, k | FailedFor(s, t, p, k) :: FailedFor(s', t, p, k)
    ensures forall t, p, k | FailedFor(s', t, p, k) && !FailedFor(s, t, p, k) :: a == DeleteError(t) || t !in s.writes
    ensures forall p, k | Delete(p, k) in s'.net && Delete(p, k) !in s.net ::
              a.DeleteError? && FailedFor(s', a.t, p, k)
  {
    assert forall t | t in s.writes :: t in s'.writes && s'.writes[t] == s.writes[t];
  }

  ghost predicate FailuresOk(s: State) { forall t | t in s.failed :: t in s.writes }

  lemma StepKeepsBarred(s: State, a: Action, s': State)
    requires Base(s) && Apart(s) && FailuresOk(s) && Barred(s) && Step(s, a, s') && Unfailed(s, a)
    ensures FailuresOk(s') && Barred(s')
  {
    FailuresStay(s, a, s');
    forall p, k | Delete(p, k) in s'.net ensures exists t :: FailedFor(s', t, p, k) {
      if Delete(p, k) in s.net { var t :| FailedFor(s, t, p, k); assert FailedFor(s', t, p, k); }
    }
    forall t, p, k | FailedFor(s', t, p, k) && p !in s'.ledger.closed ensures !Busy(s', p, k) {
      StillBarred(s, a, s', t, p, k);
    }
  }

  lemma StillBarred(s: State, a: Action, s': State, t: Tag, p: Proc, k: Key)
    requires Base(s) && Apart(s) && FailuresOk(s) && Barred(s) && Step(s, a, s') && Unfailed(s, a)
    requires FailedFor(s', t, p, k) && p !in s'.ledger.closed
    ensures !Busy(s', p, k)
  {
    FailuresStay(s, a, s');
    if a.Begin? {
      BeginAdds(s, a, s');
    } else if a.PutOk? {
      WinMoves(s, a.c, a.tag, s');
    } else {
      OthersShrink(s, a, s');
      if !FailedFor(s, t, p, k) { FailureFreesTheKey(s, a, s', p, k); }
    }
  }

  /** After a failed delete the process has nothing left with the key. */
  lemma FailureFreesTheKey(s: State, a: Action, s': State, p: Proc, k: Key)
    requires Base(s) && Apart(s) && a.DeleteError? && Step(s, a, s') && p !in s.ledger.closed
    requires LeaseFor(s, a.t, p, k) && Shrinks(s, s')
    ensures !Busy(s', p, k)
  {
    FinishKeepsBase(s, a, s');
  }

  lemma {:induction false} CarefulRunKeeps(tr: seq<State>, acts: seq<Action>, i: nat)
    requires CarefulRun(tr, acts) && i < |tr|
    ensures Base(tr[i]) && Apart(tr[i]) && FailuresOk(tr[i]) && Barred(tr[i])
  {
    RuledRunKeeps(tr, acts, i);
    if i > 0 {
      CarefulRunKeeps(tr, acts, i - 1);
      assert Linked(tr, acts, i - 1) && Unfailed(tr[i - 1], acts[i - 1]);
      StepKeepsBarred(tr[i - 1], acts[i - 1], tr[i]);
    }
  }

  lemma HitIsBusy(s: State, a: Action)
    requires Base(s) && Hits(s, a)
    ensures Busy(s, a.r.p, a.r.key) && a.r.p !in s.ledger.closed
  {
    assert LeaseFor(s, s.rows[a.r.key].tag, a.r.p, a.r.key);
  }

  /** Careful callers are never hit. */
  lemma BarredIsNotHit(s: State, a: Action, s': State)
    requires Base(s) && Barred(s) && Step(s, a, s')
    ensures !Hits(s, a)
  {
    if Hits(s, a) { HitIsBusy(s, a); }
  }

  lemma CarefulIsNotHit(tr: seq<State>, acts: seq<Action>, i: nat)
    requires CarefulRun(tr, acts) && i < |acts|
    ensures !Hits(tr[i], acts[i])
  {
    CarefulRunKeeps(tr, acts, i);
    assert Linked(tr, acts, i);
    BarredIsNotHit(tr[i], acts[i], tr[i + 1]);
  }

  /** With careful callers, at every moment of every run, at most one recorded lease per key is unexpired. */
  lemma MutualExclusion(tr: seq<State>, acts: seq<Action>, i: nat, t: Tag, u: Tag)
    requires CarefulRun(tr, acts) && i < |tr| && t in tr[i].ledger.held && u in tr[i].ledger.held && t != u
    ensures Exclusive(tr[i], t, u)
  {
    forall j | 0 <= j < i ensures !Hits(tr[j], acts[j]) { CarefulIsNotHit(tr, acts, j); }
    ExclusionUntilHit(tr, acts, i, t, u);
  }

  // ----- two runs that end with two unexpired holders -------------------------------------------

  lemma Extend(tr: seq<State>, acts: seq<Action>, a: Action, s: State)
    requires FreeRun(tr, acts) && Step(tr[|tr| - 1], a, s)
    ensures FreeRun(tr + [s], acts + [a])
    ensures RuledRun(tr, acts) && Released(tr[|tr| - 1], a) ==> RuledRun(tr + [s], acts + [a])
  {
    var tr', acts' := tr + [s], acts + [a];
    forall i | 0 <= i < |acts'| ensures Linked(tr', acts', i) {
      if i < |acts| { assert Linked(tr, acts, i); }
    }
    if RuledRun(tr, acts) && Released(tr[|tr| - 1], a) {
      forall i | 0 <= i < |acts'| ensures Released(tr'[i], acts'[i]) {
        if i < |acts| { assert Released(tr[i], acts[i]); }
      }
    }
  }

  /** The state after a TryAcquire that ran to the end without interference. */
  function Acquired(s: State, p: Proc, key: Key, lease: int, tag: Tag): State {
    Stored(s, Call(p, key, s.clock, s.clock + lease), tag).(ledger := s.ledger.Win(tag, p).Record(tag))
  }

  lemma Acquire(tr: seq<State>, acts: seq<Action>, c: CallId, p: Proc, key: Key, lease: int, tag: Tag)
    returns (tr': seq<State>, acts': seq<Action>)
    requires FreeRun(tr, acts) && var s := tr[|tr| - 1];
             && c !in s.calls && p !in s.ledger.closed && tag !in s.writes && tag !in s.ledger.owner
             && PutAccepted(s, Call(p, key, s.clock, s.clock + lease))
    ensures FreeRun(tr', acts') && tr <= tr' && tr'[|tr'| - 1] == Acquired(tr[|tr| - 1], p, key, lease, tag)
    ensures acts' == acts + [Begin(c, p, key, tr[|tr| - 1].clock, lease)] + [PutOk(c, tag)] + [Record(tag)]
    ensures RuledRun(tr, acts) && !Busy(tr[|tr| - 1], p, key) ==> RuledRun(tr', acts')
  {
    var s := tr[|tr| - 1];
    var call := Call(p, key, s.clock, s.clock + lease);
    var s1 := s.(calls := s.calls[c := call]);
    var a1 := Begin(c, p, key, s.clock, lease);
    Extend(tr, acts, a1, s1);
    var s2 := Stored(s1, call, tag).(calls := s1.calls - {c}, ledger := s1.ledger.Win(tag, p));
    Extend(tr + [s1], acts + [a1], PutOk(c, tag), s2);
    var s3 := s2.(ledger := s2.ledger.Record(tag));
    Extend(tr + [s1] + [s2], acts + [a1] + [PutOk(c, tag)], Record(tag), s3);
    assert s3.calls == s.calls;
    tr', acts' := tr + [s1] + [s2] + [s3], acts + [a1] + [PutOk(c, tag)] + [Record(tag)];
  }

  /** A call wins exactly when the row is absent or has expired strictly before the call read the clock. */
  lemma WinsIff(s: State, c: CallId, tag: Tag)
    requires c in s.calls && tag !in s.writes
    ensures (exists s' :: Step(s, PutOk(c, tag), s')) <==>
              s.calls[c].key !in s.rows || s.rows[s.calls[c].key].expiry < s.calls[c].now
  {
    if s.calls[c].key !in s.rows || s.rows[s.calls[c].key].expiry < s.calls[c].now {
      var l := s.calls[c];
      assert Step(s, PutOk(c, tag), Stored(s, l, tag).(calls := s.calls - {c}, ledger := s.ledger.Win(tag, l.p)));
    }
  }

  /** A holder can give its lease back, within the rule: its own row, and no other, is then gone. */
  lemma HeldIsReleasable(tr: seq<State>, acts: seq<Action>, t: Tag) returns (tr': seq<State>, acts': seq<Action>)
    requires RuledRun(tr, acts) && var s := tr[|tr| - 1];
             t in s.ledger.held && t in s.writes && s.writes[t].key in s.rows && s.rows[s.writes[t].key].tag == t
    ensures RuledRun(tr', acts') && tr <= tr'
    ensures var s, e := tr[|tr| - 1], tr'[|tr'| - 1];
            t !in e.ledger.held && t !in e.ledger.deleting && e.rows == s.rows - {s.writes[t].key} && e.clock == s.clock
  {
    var s := tr[|tr| - 1];
    RuledRunKeeps(tr, acts, |tr| - 1);
    var s1 := s.(ledger := s.ledger.Release(t));
    Extend(tr, acts, Release(t), s1);
    var s2 := Deleted(s1, s.writes[t].owner, s.writes[t].key).(ledger := s1.ledger.Finish(t));
    Extend(tr + [s1], acts + [Release(t)], DeleteOk(t), s2);
    tr', acts' := tr + [s1] + [s2], acts + [Release(t)] + [DeleteOk(t)];
  }

  /** Leases 1 and 2, of two processes, are held for one key and both unexpired. */
  ghost predicate TwoHolders(s: State) {
    && {1, 2} <= s.ledger.held && {1, 2} <= s.writes.Keys && s.writes[1].key == s.writes[2].key
    && s.clock < s.writes[1].expiry && s.clock < s.writes[2].expiry
    && s.writes[1].owner != s.writes[2].owner
  }

  const Start := State(0, map[], map[], {}, map[], Empty, {})

  /** A process that re-acquires before releasing deletes its own new row. */
  lemma RuleIsNeeded() returns (tr: seq<State>, acts: seq<Action>)
    ensures FreeRun(tr, acts) && TwoHolders(tr[|tr| - 1])
  {
    tr, acts := [Start], [];
    tr, acts := Acquire(tr, acts, 0, 7, 0, 10, 0);
    var late := tr[|tr| - 1].(clock := 11);
    Extend(tr, acts, Tick(11), late);
    tr, acts := Acquire(tr + [late], acts + [Tick(11)], 0, 7, 0, 10, 1);
    var s := tr[|tr| - 1];
    var released := s.(ledger := s.ledger.Release(0));
    Extend(tr, acts, Release(0), released);
    var gone := Deleted(released, 7, 0).(ledger := released.ledger.Finish(0));
    Extend(tr + [released], acts + [Release(0)], DeleteOk(0), gone);
    tr, acts := Acquire(tr + [released] + [gone], acts + [Release(0)] + [DeleteOk(0)], 0, 8, 0, 10, 2);
  }

  /** Lease 0 was released, its delete failed and is loose, and the lease has expired. */
  lemma FailedRelease() returns (tr: seq<State>, acts: seq<Action>)
    ensures RuledRun(tr, acts)
    ensures tr[|tr| - 1] == State(11, map[0 := Row(7, 10, 0)], map[], {Delete(7, 0)}, map[0 := R.Write(7, 0, 10)],
                                  Ledger(map[0 := 7], {}, {}, {}, {}, multiset{0}), {0})
  {
    tr, acts := [Start], [];
    tr, acts := Acquire(tr, acts, 0, 7, 0, 10, 0);
    var s := tr[|tr| - 1];
    var released := s.(ledger := s.ledger.Release(0));
    Extend(tr, acts, Release(0), released);
    var failed := released.(ledger := released.ledger.Finish(0), failed := {0}, net := {Delete(7, 0)});
    Extend(tr + [released], acts + [Release(0)], DeleteError(0), failed);
    var late := failed.(clock := 11);
    Extend(tr + [released] + [failed], acts + [Release(0)] + [DeleteError(0)], Tick(11), late);
    tr, acts := tr + [released] + [failed] + [late], acts + [Release(0)] + [DeleteError(0)] + [Tick(11)];
  }

  /** The documented rule is not enough: the loose delete of a failed release hits the next lease. */
  lemma FailedReleaseBreaksExclusion() returns (tr: seq<State>, acts: seq<Action>)
    ensures RuledRun(tr, acts) && TwoHolders(tr[|tr| - 1])
  {
    tr, acts := FailedRelease();
    tr, acts := Acquire(tr, acts, 0, 7, 0, 10, 1);
    var s := tr[|tr| - 1];
    var hit := Deleted(s, 7, 0);
    Extend(tr, acts, Land(Delete(7, 0), 2), hit);
    tr, acts := Acquire(tr + [hit], acts + [Land(Delete(7, 0), 2)], 0, 8, 0, 10, 2);
  }

  // ----- exactly when the documented rule keeps exclusion ---------------------------------------------

  ghost predicate AllExclusive(s: State) {
    forall t, u | t in s.ledger.held && u in s.ledger.held && t != u :: Exclusive(s, t, u)
  }

  ghost predicate HitFree(tr: seq<State>, acts: seq<Action>, first: nat)
    requires |tr| == |acts| + 1
  {
    forall j | first <= j < |acts| :: !Hits(tr[j], acts[j])
  }

  /** The second run goes on from the first, keeps the documented rule and is not hit any more. */
  ghost predicate Continues(tr: seq<State>, acts: seq<Action>, tr': seq<State>, acts': seq<Action>) {
    RuledRun(tr', acts') && tr <= tr' && acts <= acts' && HitFree(tr', acts', |acts|)
  }

  /** However the run goes on without a hit, no two recorded leases of one key are unexpired. */
  ghost predicate StaysExclusive(tr: seq<State>, acts: seq<Action>) {
    forall tr', acts' | Continues(tr, acts, tr', acts') :: AllExclusive(tr'[|tr'| - 1])
  }

  lemma HitFreeIsExclusive(tr: seq<State>, acts: seq<Action>)
    requires RuledRun(tr, acts) && HitFree(tr, acts, 0)
    ensures AllExclusive(tr[|tr| - 1])
  {
    var n := |tr| - 1;
    forall t, u | t in tr[n].ledger.held && u in tr[n].ledger.held && t != u ensures Exclusive(tr[n], t, u) {
      ExclusionUntilHit(tr, acts, n, t, u);
    }
  }

  lemma PrefixIsRuled(tr: seq<State>, acts: seq<Action>, i: nat)
    requires RuledRun(tr, acts) && i <= |acts|
    ensures RuledRun(tr[..i + 1], acts[..i])
  {
    var tr', acts' := tr[..i + 1], acts[..i];
    forall j | 0 <= j < i ensures Linked(tr', acts', j) && Released(tr'[j], acts'[j]) {
      assert Linked(tr, acts, j) && Released(tr[j], acts[j]);
    }
  }

  /** A process, a call and a tag that nothing in the state mentions. */
  lemma Newcomer(s: State) returns (q: Proc, c: CallId, tag: Tag)
    ensures q !in s.ledger.closed && forall k :: !Busy(s, q, k)
    ensures forall t | t in s.writes :: s.writes[t].owner != q
    ensures c !in s.calls && tag !in s.writes && tag !in s.ledger.owner
  {
    var owners := set t | t in s.writes :: s.writes[t].owner;
    var callers := set d | d in s.calls :: s.calls[d].p;
    q := Naturals.Unused(s.ledger.closed + owners + callers);
    c := Naturals.Unused(s.calls.Keys);
    tag := Naturals.Unused(s.writes.Keys + s.ledger.owner.Keys);
    forall k ensures !Busy(s, q, k) {
      forall t ensures !LeaseFor(s, t, q, k) { if t in s.writes { assert s.writes[t].owner in owners; } }
      forall d ensures !CallFor(s, d, q, k) { if d in s.calls { assert s.calls[d].p in callers; } }
    }
    forall t | t in s.writes ensures s.writes[t].owner != q { assert s.writes[t].owner in owners; }
  }

  /** After a hit the lease's own process records it, if it has not yet. */
  lemma HitIsRecorded(tr: seq<State>, acts: seq<Action>, u: Tag)
    returns (tr': seq<State>, acts': seq<Action>)
    requires RuledRun(tr, acts) && Entitled(tr[|tr| - 1], u)
    ensures Continues(tr, acts, tr', acts') && u in tr'[|tr'| - 1].ledger.held
    ensures tr'[|tr'| - 1] == tr[|tr| - 1].(ledger := tr'[|tr'| - 1].ledger)
    ensures tr'[|tr'| - 1].ledger.closed == tr[|tr| - 1].ledger.closed
  {
    var s := tr[|tr| - 1];
    if u in s.ledger.held {
      tr', acts' := tr, acts;
    } else {
      var s' := s.(ledger := s.ledger.Record(u));
      Extend(tr, acts, Record(u), s');
      tr', acts' := tr + [s'], acts + [Record(u)];
    }
  }

  /** Two leases of the key, of two processes, are recorded and unexpired. */
  ghost predicate BothHold(s: State, key: Key, t: Tag, u: Tag) {
    && t in s.ledger.held && u in s.ledger.held && t != u && t in s.writes && u in s.writes
    && s.writes[t].key == key == s.writes[u].key && s.writes[t].owner != s.writes[u].owner
    && s.clock < s.writes[t].expiry && s.clock < s.writes[u].expiry
  }

  ghost predicate TwoHold(s: State, key: Key) {
    exists t, u :: BothHold(s, key, t, u)
  }

  /** When an unexpired claim has no row, a newcomer can take the key at once. */
  lemma UnbackedIsTaken(tr: seq<State>, acts: seq<Action>, u: Tag)
    returns (tr': seq<State>, acts': seq<Action>)
    requires RuledRun(tr, acts) && var s := tr[|tr| - 1];
             && u in s.ledger.held && u in s.writes && s.clock < s.writes[u].expiry && s.writes[u].key !in s.rows
    ensures Continues(tr, acts, tr', acts') && tr'[|tr'| - 1].clock == tr[|tr| - 1].clock
    ensures TwoHold(tr'[|tr'| - 1], tr[|tr| - 1].writes[u].key)
  {
    var s := tr[|tr| - 1];
    var q, c, tag := Newcomer(s);
    var key := s.writes[u].key;
    tr', acts' := Acquire(tr, acts, c, q, key, 1, tag);
    var e := Acquired(s, q, key, 1, tag);
    assert tag in e.ledger.held && u in e.ledger.held && e.writes[tag] == R.Write(q, key, s.clock + 1);
    assert e.writes[u] == s.writes[u];
    assert BothHold(e, key, tag, u);
  }

  lemma ContinuesOn(tr: seq<State>, acts: seq<Action>, mid: seq<State>, more: seq<Action>,
                    tr': seq<State>, acts': seq<Action>)
    requires Continues(tr, acts, mid, more) && Continues(mid, more, tr', acts')
    ensures Continues(tr, acts, tr', acts')
  {
    forall j | |acts| <= j < |acts'| ensures !Hits(tr'[j], acts'[j]) {
      if j < |more| { assert !Hits(mid[j], more[j]); }
    }
  }

  /** After a hit the run can go on, within the rule and with the clock still, to two unexpired holders of the key. */
  lemma HitBreaksExclusion(tr: seq<State>, acts: seq<Action>, a: Action, s': State)
    returns (tr': seq<State>, acts': seq<Action>)
    requires RuledRun(tr, acts) && Step(tr[|tr| - 1], a, s') && Hits(tr[|tr| - 1], a)
    ensures Continues(tr + [s'], acts + [a], tr', acts') && tr'[|tr'| - 1].clock == tr[|tr| - 1].clock
    ensures TwoHold(tr'[|tr'| - 1], a.r.key)
  {
    var s := tr[|tr| - 1];
    var u := s.rows[a.r.key].tag;
    RuledRunKeeps(tr, acts, |tr| - 1);
    Extend(tr, acts, a, s');
    assert Entitled(s', u) && u in s'.writes && s'.writes[u] == R.Write(a.r.p, a.r.key, s.rows[a.r.key].expiry);
    var mid, more := HitIsRecorded(tr + [s'], acts + [a], u);
    tr', acts' := UnbackedIsTaken(mid, more, u);
    ContinuesOn(tr + [s'], acts + [a], mid, more, tr', acts');
  }

  /** Under the documented rule exclusion is kept, whatever follows, exactly as long as no loose delete hits. */
  lemma ExclusionIff(tr: seq<State>, acts: seq<Action>)
    requires RuledRun(tr, acts)
    ensures (forall i | 0 <= i <= |acts| :: StaysExclusive(tr[..i + 1], acts[..i])) <==> HitFree(tr, acts, 0)
  {
    if HitFree(tr, acts, 0) {
      forall i | 0 <= i <= |acts| ensures StaysExclusive(tr[..i + 1], acts[..i]) { HitFreeStays(tr, acts, i); }
    }
    if forall i | 0 <= i <= |acts| :: StaysExclusive(tr[..i + 1], acts[..i]) {
      forall i | 0 <= i < |acts| ensures !Hits(tr[i], acts[i]) {
        assert StaysExclusive(tr[..i + 1 + 1], acts[..i + 1]);
        if Hits(tr[i], acts[i]) { HitInRunBreaks(tr, acts, i); }
      }
    }
  }

  lemma HitFreeStays(tr: seq<State>, acts: seq<Action>, i: nat)
    requires RuledRun(tr, acts) && HitFree(tr, acts, 0) && i <= |acts|
    ensures StaysExclusive(tr[..i + 1], acts[..i])
  {
    var front, first := tr[..i + 1], acts[..i];
    forall tr', acts' | Continues(front, first, tr', acts') ensures AllExclusive(tr'[|tr'| - 1]) {
      forall j | 0 <= j < |acts'| ensures !Hits(tr'[j], acts'[j]) {
        if j < i { assert tr'[j] == tr[j] && acts'[j] == acts[j]; }
      }
      HitFreeIsExclusive(tr', acts');
    }
  }

  lemma HitInRunBreaks(tr: seq<State>, acts: seq<Action>, i: nat)
    requires RuledRun(tr, acts) && i < |acts| && Hits(tr[i], acts[i])
    ensures !StaysExclusive(tr[..i + 1 + 1], acts[..i + 1])
  {
    PrefixIsRuled(tr, acts, i);
    assert Linked(tr, acts, i);
    var tr', acts' := HitBreaksExclusion(tr[..i + 1], acts[..i], acts[i], tr[i + 1]);
    assert tr[..i + 1] + [tr[i + 1]] == tr[..i + 1 + 1] && acts[..i] + [acts[i]] == acts[..i + 1];
    var t, u :| BothHold(tr'[|tr'| - 1], acts[i].r.key, t, u);
    assert !Exclusive(tr'[|tr'| - 1], t, u);
  }

  // ----- the remote steps of one process, run without interference ---------------------------

  class Table {
    var rows: map<Key, Row>
    var nextTag: Tag

    /** TryAcquire up to recording the lease: wins exactly when the row is absent or expired strictly before now. */
    method TryAcquire(key: Key, p: Proc, now: int, lease: int) returns (won: bool, tag: Tag)
      modifies this
      ensures won <==> key !in old(rows) || old(rows[key].expiry) < now
      ensures won ==> tag == old(nextTag) && nextTag == tag + 1 && rows == old(rows)[key := Row(p, now + lease, tag)]
      ensures !won ==> unchanged(this)
    {
      won, tag := false, 0;
      if key in rows && rows[key].expiry >= now {
        return;
      }
      rows := rows[key := Row(p, now + lease, nextTag)];
      won, tag, nextTag := true, nextTag, nextTag + 1;
    }

    method ConditionalDelete(key: Key, p: Proc)
      modifies this`rows
      ensures rows == if key in old(rows) && old(rows[key].owner) == p then old(rows) - {key} else old(rows)
    {
      if key in rows && rows[key].owner == p {
        rows := rows - {key};
      }
    }
  }
}
