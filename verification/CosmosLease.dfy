/**
 The Cosmos DB lease protocol: create the lock document, and on a conflict read it and, if its
 lease has lapsed, replace it under its ETag; release by an ETag-guarded delete. Every remote
 call is one step, so any number of calls of any number of processes interleave. A request may
 also be left in the network (a timeout, a client retry) and be applied by the store at any
 later time, any number of times, with nobody listening for the answer.
 */
module CosmosLease {
  import opened LeaseLedger
  import R = LeaseRegister

  type Key = R.Key
  type CallId = nat

  /** A lock document; the store gives every write a fresh ETag. */
  datatype Doc = Doc(owner: Proc, expiry: int, etag: Tag)


  /** A TryAcquire between two remote steps. `now` was read before the first one. */
  datatype Call =
    | Started(p: Proc, key: Key, now: int, expiry: int)
    | Conflicted(p: Proc, key: Key, now: int, expiry: int)
    | SawLapsed(p: Proc, key: Key, now: int, expiry: int, etag: Tag)

  datatype Request =
    | Create(p: Proc, key: Key, expiry: int)
    | Replace(p: Proc, key: Key, expiry: int, ifMatch: Tag)
    | Delete(key: Key, ifMatch: Tag)

  datatype State = State(
    clock: int,
    docs: map<Key, Doc>,
    calls: map<CallId, Call>,
    net: set<Request>,           // requests nobody waits for any more
    writes: map<Tag, R.Write>,     // history: every write the store accepted
    ledger: Ledger,
    failed: set<Tag>)            // leases whose conditional delete returned an error

  ghost predicate Init(s: State) {
    && s.docs == map[] && s.calls == map[] && s.net == {} && s.writes == map[]
    && s.ledger == Empty && s.failed == {}
  }

  // ----- the store ------------------------------------------------------------------------

  /** CreateItem: 409 when the document exists. */
  predicate CreateAccepted(s: State, key: Key) { key !in s.docs }

  /** An If-Match write: 412 or 404 unless the document still has that ETag. */
  predicate Matches(s: State, key: Key, etag: Tag) { key in s.docs && s.docs[key].etag == etag }

  function Stored(s: State, p: Proc, key: Key, expiry: int, tag: Tag): State {
    s.(docs := s.docs[key := Doc(p, expiry, tag)], writes := s.writes[tag := R.Write(p, key, expiry)])
  }

  function Deleted(s: State, key: Key, etag: Tag): State {
    if Matches(s, key, etag) then s.(docs := s.docs - {key}) else s
  }

  /** The request a call is waiting for, if it would change the store. */
  function RequestOf(c: Call): set<Request> {
    match c
    case Started(p, key, _, expiry) => {Create(p, key, expiry)}
    case Conflicted(_, _, _, _) => {}
    case SawLapsed(p, key, _, expiry, etag) => {Replace(p, key, expiry, etag)}
  }

  function Applied(s: State, r: Request, tag: Tag): State {
    match r
    case Create(p, key, expiry) =>
      if CreateAccepted(s, key) then Stored(s, p, key, expiry, tag) else s
    case Replace(p, key, expiry, etag) =>
      if Matches(s, key, etag) then Stored(s, p, key, expiry, tag) else s
    case Delete(key, etag) => Deleted(s, key, etag)
  }

  // ----- the steps ------------------------------------------------------------------------

  datatype Action =
    | Tick(now: int)
    | Begin(c: CallId, p: Proc, key: Key, read: int, lease: int)
    | CreateOk(c: CallId, tag: Tag)
    | CreateConflict(c: CallId)
    | ReadLapsed(c: CallId)
    | ReplaceOk(c: CallId, tag: Tag)
    | GiveUp(c: CallId)
    | Abandon(c: CallId)
    | Land(r: Request, tag: Tag)
    | Record(t: Tag)
    | Release(t: Tag)
    | Close(p: Proc)
    | DeleteOk(t: Tag)
    | DeleteError(t: Tag)

  ghost predicate Step(s: State, a: Action, s': State) {
    match a
    case Tick(now) => s.clock <= now && s' == s.(clock := now)
    case Begin(c, p, key, read, lease) =>
      && c !in s.calls && read <= s.clock
      && s' == s.(calls := s.calls[c := Started(p, key, read, read + lease)])
    case CreateOk(c, tag) =>
      && c in s.calls && s.calls[c].Started? && tag !in s.writes
      && CreateAccepted(s, s.calls[c].key)
      && var l := s.calls[c];
         s' == Stored(s, l.p, l.key, l.expiry, tag).(calls := s.calls - {c}, ledger := s.ledger.Win(tag, l.p))
    case CreateConflict(c) =>
      && c in s.calls && s.calls[c].Started? && !CreateAccepted(s, s.calls[c].key)
      && var l := s.calls[c];
         s' == s.(calls := s.calls[c := Conflicted(l.p, l.key, l.now, l.expiry)])
    case ReadLapsed(c) =>
      && c in s.calls && s.calls[c].Conflicted?
      && var l := s.calls[c];
         && l.key in s.docs && s.docs[l.key].expiry <= l.now
         && s' == s.(calls := s.calls[c := SawLapsed(l.p, l.key, l.now, l.expiry, s.docs[l.key].etag)])
    case ReplaceOk(c, tag) =>
      && c in s.calls && s.calls[c].SawLapsed? && tag !in s.writes
      && Matches(s, s.calls[c].key, s.calls[c].etag)
      && var l := s.calls[c];
         s' == Stored(s, l.p, l.key, l.expiry, tag).(calls := s.calls - {c}, ledger := s.ledger.Win(tag, l.p))
    case GiveUp(c) =>   // a live owner, 404, 412 or an error
      c in s.calls && s' == s.(calls := s.calls - {c})
    case Abandon(c) =>  // the request is also left in the network
      c in s.calls && s' == s.(net := s.net + RequestOf(s.calls[c]))
    case Land(r, tag) => r in s.net && tag !in s.writes && s' == Applied(s, r, tag)
    case Record(t) => t in s.ledger.pending && t in s.ledger.owner && s' == s.(ledger := s.ledger.Record(t))
    case Release(t) => s' == s.(ledger := s.ledger.Release(t))
    case Close(p) => s' == s.(ledger := s.ledger.Close(p))
    case DeleteOk(t) =>
      && t in s.ledger.deleting && t in s.writes
      && s' == Deleted(s, s.writes[t].key, t).(ledger := s.ledger.Finish(t))
    case DeleteError(t) =>
      && t in s.ledger.deleting && t in s.writes
      && s' == s.(ledger := s.ledger.Finish(t), failed := s.failed + {t},
                  net := s.net + {Delete(s.writes[t].key, t)})
  }

  ghost predicate Next(s: State, s': State) {
    exists a :: Step(s, a, s')
  }

  /** Any number of steps, by anybody, in any order. */
  ghost predicate Trace(tr: seq<State>) {
    |tr| > 0 && forall i | 0 <= i < |tr| - 1 :: Next(tr[i], tr[i + 1])
  }

  ghost predicate Run(tr: seq<State>) {
    Trace(tr) && Init(tr[0])
  }

  // ----- what every step keeps ------------------------------------------------------------

  ghost predicate LedgerOk(s: State) {
    && s.ledger.Placed()
    && forall t | t in s.ledger.owner :: t in s.writes && s.writes[t].owner == s.ledger.owner[t]
  }

  ghost predicate DocsOk(s: State) {
    forall k | k in s.docs ::
      s.docs[k].etag in s.writes && s.writes[s.docs[k].etag] == R.Write(s.docs[k].owner, k, s.docs[k].expiry)
  }

  ghost predicate CallsOk(s: State) {
    forall c | c in s.calls ::
      && s.calls[c].now <= s.clock
      && (s.calls[c].SawLapsed? ==>
            s.calls[c].etag in s.writes && s.writes[s.calls[c].etag].expiry <= s.calls[c].now)
  }

  ghost predicate RequestOk(s: State, r: Request) {
    match r
    case Create(_, _, _) => true
    case Replace(_, _, _, etag) => etag in s.writes && s.writes[etag].expiry <= s.clock
    case Delete(_, etag) => etag in s.ledger.owner && etag !in s.ledger.pending && etag !in s.ledger.held
  }

  ghost predicate NetOk(s: State) {
    forall r | r in s.net :: RequestOk(s, r)
  }

  /** A lease whose delete went through is out of the store for good. */
  ghost predicate DisposedOk(s: State) {
    forall t | t in s.ledger.owner && t !in s.ledger.pending && t !in s.ledger.held
               && t !in s.ledger.deleting && t !in s.failed ::
      t in s.writes && !Matches(s, s.writes[t].key, t)
  }

  ghost predicate Inv(s: State) {
    LedgerOk(s) && DocsOk(s) && CallsOk(s) && NetOk(s) && DisposedOk(s)
  }

  // ----- refinement of the lease register ---------------------------------------------------

  ghost function Abs(s: State): R.Register
    requires LedgerOk(s)
  {
    R.Register(s.clock,
               map k | k in s.docs :: R.Grant(s.docs[k].etag, s.docs[k].expiry),
               R.ClaimsOf(s.ledger.Claimed(), s.writes),
               s.writes.Keys)
  }

  /** The register step each protocol step amounts to. */
  ghost function AbsAction(s: State, a: Action): R.Action
    requires LedgerOk(s)
  {
    match a
    case Tick(now) => R.Tick(now)
    case CreateOk(c, tag) =>
      if c in s.calls then R.Give(s.calls[c].key, tag, s.calls[c].expiry, s.calls[c].p !in s.ledger.closed)
      else R.Stay
    case ReplaceOk(c, tag) =>
      if c in s.calls then R.Give(s.calls[c].key, tag, s.calls[c].expiry, s.calls[c].p !in s.ledger.closed)
      else R.Stay
    case Land(Create(p, key, expiry), tag) =>
      if CreateAccepted(s, key) then R.Give(key, tag, expiry, false) else R.Stay
    case Land(Replace(p, key, expiry, etag), tag) =>
      if Matches(s, key, etag) then R.Give(key, tag, expiry, false) else R.Stay
    case Land(Delete(key, etag), tag) =>
      if Matches(s, key, etag) then R.Withdraw(key) else R.Stay
    case Release(t) => if t in s.ledger.held then R.Disclaim({t}) else R.Stay
    case Close(p) => R.Disclaim(set t | t in s.ledger.Claimed() && s.ledger.owner[t] == p)
    case DeleteOk(t) =>
      if t in s.writes && Matches(s, s.writes[t].key, t) then R.Withdraw(s.writes[t].key) else R.Stay
    case _ => R.Stay
  }

  ghost predicate Wins(s: State, c: CallId, tag: Tag, s': State)
    requires LedgerOk(s)
  {
    && c in s.calls && tag !in s.writes && R.Free(Abs(s), s.calls[c].key)
    && var l := s.calls[c];
       s' == Stored(s, l.p, l.key, l.expiry, tag).(calls := s.calls - {c}, ledger := s.ledger.Win(tag, l.p))
  }

  /** A write that wins a lease. */
  lemma WinKeepsInv(s: State, c: CallId, tag: Tag, s': State)
    requires Inv(s) && Wins(s, c, tag, s')
    ensures Inv(s')
  {
    WinKeeps(s.ledger, tag, s.calls[c].p);
    assert forall t | t in s.writes :: s'.writes[t] == s.writes[t];
    assert forall t | t in s.ledger.owner :: s'.ledger.owner[t] == s.ledger.owner[t];
    assert NetOk(s') by {
      forall r | r in s'.net ensures RequestOk(s', r) { assert RequestOk(s, r); }
    }
    assert DisposedOk(s');
  }

  lemma WinRefines(s: State, c: CallId, tag: Tag, s': State)
    requires LedgerOk(s) && LedgerOk(s') && Wins(s, c, tag, s')
    ensures R.Step(Abs(s), R.Give(s.calls[c].key, tag, s.calls[c].expiry, s.calls[c].p !in s.ledger.closed), Abs(s'))
  {
    var l := s.calls[c];
    WinKeeps(s.ledger, tag, l.p);
    assert Abs(s').grants == Abs(s).grants[l.key := R.Grant(tag, l.expiry)];
    R.ClaimsAfterWrite(s.ledger.Claimed(), s.writes, tag, R.Write(l.p, l.key, l.expiry));
  }

  /** A leaked write that lands: nobody claims it. */
  lemma OrphanStep(s: State, p: Proc, key: Key, expiry: int, tag: Tag, s': State)
    requires Inv(s) && tag !in s.writes && R.Free(Abs(s), key) && s' == Stored(s, p, key, expiry, tag)
    ensures Inv(s')
    ensures R.Step(Abs(s), R.Give(key, tag, expiry, false), Abs(s'))
  {
    assert forall t | t in s.writes :: s'.writes[t] == s.writes[t];
    assert Abs(s').grants == Abs(s).grants[key := R.Grant(tag, expiry)];
    R.ClaimsAfterWrite(s.ledger.Claimed(), s.writes, tag, s'.writes[tag]);
  }

  /** A guarded delete applied by the store on behalf of a lease nobody claims. */
  lemma DeleteStep(s: State, etag: Tag, s': State)
    requires Inv(s) && etag in s.ledger.owner && etag !in s.ledger.pending && etag !in s.ledger.held
    requires s' == Deleted(s, s.writes[etag].key, etag)
    ensures Inv(s')
    ensures var key := s.writes[etag].key;
            R.Step(Abs(s), if Matches(s, key, etag) then R.Withdraw(key) else R.Stay, Abs(s'))
  {
  }

  /** The leased document a SawLapsed call replaces has lapsed by now, whatever happened in between. */
  lemma ReplaceIsFree(s: State, key: Key, etag: Tag)
    requires Inv(s) && etag in s.writes && s.writes[etag].expiry <= s.clock && Matches(s, key, etag)
    ensures R.Free(Abs(s), key)
  {
  }

  lemma LandStep(s: State, r: Request, tag: Tag, s': State)
    requires Inv(s) && Step(s, Land(r, tag), s')
    ensures Inv(s') && R.Step(Abs(s), AbsAction(s, Land(r, tag)), Abs(s'))
  {
    assert RequestOk(s, r);
    match r
    case Create(p, key, expiry) =>
      if CreateAccepted(s, key) { OrphanStep(s, p, key, expiry, tag, s'); }
    case Replace(p, key, expiry, etag) =>
      if Matches(s, key, etag) {
        ReplaceIsFree(s, key, etag);
        OrphanStep(s, p, key, expiry, tag, s');
      }
    case Delete(key, etag) =>
      if Matches(s, key, etag) { DeleteStep(s, etag, s'); }
  }

  lemma RecordStep(s: State, t: Tag, s': State)
    requires Inv(s) && Step(s, Record(t), s')
    ensures Inv(s') && R.Step(Abs(s), R.Stay, Abs(s'))
  {
    RecordKeeps(s.ledger, t);
    assert Abs(s').claims == Abs(s).claims;
  }

  lemma ReleaseStep(s: State, t: Tag, s': State)
    requires Inv(s) && Step(s, Release(t), s')
    ensures Inv(s') && R.Step(Abs(s), AbsAction(s, Release(t)), Abs(s'))
  {
    ReleaseKeeps(s.ledger, t);
    if t in s.ledger.held { R.ClaimsLess(s.ledger.Claimed(), {t}, s.writes); }
  }

  lemma CloseKeepsInv(s: State, p: Proc, s': State)
    requires Inv(s) && Step(s, Close(p), s')
    ensures Inv(s')
  {
    CloseKeeps(s.ledger, p);
    assert s'.ledger.owner == s.ledger.owner && s'.ledger.held <= s.ledger.held;
    assert NetOk(s') by {
      forall r | r in s'.net ensures RequestOk(s', r) { assert RequestOk(s, r); }
    }
  }

  lemma CloseRefines(s: State, p: Proc, s': State)
    requires LedgerOk(s) && LedgerOk(s') && Step(s, Close(p), s')
    ensures R.Step(Abs(s), AbsAction(s, Close(p)), Abs(s'))
  {
    CloseKeeps(s.ledger, p);
    var mine := set t | t in s.ledger.Claimed() && s.ledger.owner[t] == p;
    R.ClaimsLess(s.ledger.Claimed(), mine, s.writes);
  }

  /** Steps that change neither the store nor what anybody claims. */
  lemma QuietStep(s: State, a: Action, s': State)
    requires Inv(s) && Step(s, a, s') && s'.clock == s.clock
    requires s'.docs == s.docs && s'.writes == s.writes && s'.ledger == s.ledger && s'.failed == s.failed
    requires CallsOk(s') && NetOk(s')
    ensures Inv(s') && R.Step(Abs(s), R.Stay, Abs(s'))
  {
  }

  lemma TickStep(s: State, now: int, s': State)
    requires Inv(s) && Step(s, Tick(now), s')
    ensures Inv(s') && R.Step(Abs(s), R.Tick(now), Abs(s'))
  {
  }

  lemma CallStep(s: State, a: Action, s': State)
    requires Inv(s) && Step(s, a, s')
    requires a.Begin? || a.CreateConflict? || a.ReadLapsed? || a.GiveUp? || a.Abandon?
    ensures CallsOk(s') && NetOk(s')
  {
    if a.Abandon? {
      assert forall r | r in RequestOf(s.calls[a.c]) :: RequestOk(s', r);
    } else {
      assert forall r | r in s'.net :: RequestOk(s, r) && RequestOk(s', r);
    }
  }

  lemma FinishStep(s: State, a: Action, s': State)
    requires Inv(s) && Step(s, a, s') && (a.DeleteOk? || a.DeleteError?)
    ensures Inv(s') && R.Step(Abs(s), AbsAction(s, a), Abs(s'))
  {
    FinishKeeps(s.ledger, a.t);
    match a
    case DeleteOk(t) =>
      var mid := Deleted(s, s.writes[t].key, t);
      DeleteStep(s, t, mid);
      assert Abs(s').claims == Abs(s).claims;
    case DeleteError(t) => assert Abs(s').claims == Abs(s).claims;
  }

  /** Every step keeps the invariant and is a step of the lease register. */
  lemma Refines(s: State, a: Action, s': State)
    requires Inv(s) && Step(s, a, s')
    ensures Inv(s') && R.Step(Abs(s), AbsAction(s, a), Abs(s'))
  {
    match a
    case CreateOk(c, tag) => WinKeepsInv(s, c, tag, s'); WinRefines(s, c, tag, s');
    case ReplaceOk(c, tag) =>
      ReplaceIsFree(s, s.calls[c].key, s.calls[c].etag);
      WinKeepsInv(s, c, tag, s');
      WinRefines(s, c, tag, s');
    case Land(r, tag) => LandStep(s, r, tag, s');
    case Record(t) => RecordStep(s, t, s');
    case Release(t) => ReleaseStep(s, t, s');
    case Close(p) => CloseKeepsInv(s, p, s'); CloseRefines(s, p, s');
    case DeleteOk(_) => FinishStep(s, a, s');
    case DeleteError(_) => FinishStep(s, a, s');
    case Tick(now) => TickStep(s, now, s');
    case _ => CallStep(s, a, s'); QuietStep(s, a, s');
  }

  lemma StepCounts(s: State, a: Action, s': State)
    requires LedgerOk(s) && s.ledger.Counted() && Step(s, a, s')
    ensures s'.ledger.Counted()
  {
    match a
    case CreateOk(c, tag) => WinKeeps(s.ledger, tag, s.calls[c].p);
    case ReplaceOk(c, tag) => WinKeeps(s.ledger, tag, s.calls[c].p);
    case Record(t) => RecordKeeps(s.ledger, t);
    case Release(t) => ReleaseKeeps(s.ledger, t);
    case Close(p) => CloseKeeps(s.ledger, p);
    case DeleteOk(t) => FinishKeeps(s.ledger, t);
    case DeleteError(t) => FinishKeeps(s.ledger, t);
    case _ =>
  }

  lemma {:induction false} RunIsSafe(tr: seq<State>, i: nat)
    requires Run(tr) && i < |tr|
    ensures Inv(tr[i]) && R.Backed(Abs(tr[i])) && tr[i].ledger.Counted()
  {
    if i == 0 {
      EmptyIsConsistent();
    } else {
      RunIsSafe(tr, i - 1);
      assert Next(tr[i - 1], tr[i - 1 + 1]);
      var a :| Step(tr[i - 1], a, tr[i]);
      Refines(tr[i - 1], a, tr[i]);
      StepCounts(tr[i - 1], a, tr[i]);
      R.StepKeepsBacked(Abs(tr[i - 1]), AbsAction(tr[i - 1], a), Abs(tr[i]));
    }
  }

  /** The protocol implements the lease register, step for step. */
  lemma RunRefinesRegister(tr: seq<State>)
    requires Run(tr)
    ensures forall i | 0 <= i < |tr| :: LedgerOk(tr[i])
    ensures R.Init(Abs(tr[0]))
    ensures forall i | 0 <= i < |tr| - 1 :: R.Next(Abs(tr[i]), Abs(tr[i + 1]))
  {
    forall i | 0 <= i < |tr| ensures LedgerOk(tr[i]) { RunIsSafe(tr, i); }
    forall i | 0 <= i < |tr| - 1 ensures R.Next(Abs(tr[i]), Abs(tr[i + 1])) {
      RunIsSafe(tr, i);
      assert Next(tr[i], tr[i + 1]);
      var a :| Step(tr[i], a, tr[i + 1]);
      Refines(tr[i], a, tr[i + 1]);
    }
  }

  /** In every run, at every moment, at most one recorded lease per key is unexpired. */
  lemma MutualExclusion(tr: seq<State>, i: nat, t: Tag, u: Tag)
    requires Run(tr) && i < |tr| && t != u
    requires t in tr[i].ledger.held && u in tr[i].ledger.held
    ensures t in tr[i].writes && u in tr[i].writes
    ensures tr[i].writes[t].key == tr[i].writes[u].key ==>
              tr[i].writes[t].expiry <= tr[i].clock || tr[i].writes[u].expiry <= tr[i].clock
  {
    RunIsSafe(tr, i);
    var r := Abs(tr[i]);
    R.BackedIsExclusive(r);
    assert t in r.claims && u in r.claims;
  }

  lemma ClaimIsStored(s: State, t: Tag)
    requires Inv(s) && R.Backed(Abs(s)) && t in s.ledger.Claimed() && s.clock < s.writes[t].expiry
    ensures Matches(s, s.writes[t].key, t)
  {
    var r, k := Abs(s), s.writes[t].key;
    assert t in r.claims && r.claims[t] == R.Claim(k, s.writes[t].expiry);
    assert k in r.grants && r.grants[k] == R.Grant(t, s.writes[t].expiry);
  }

  /** An unexpired holder's own document is the one in the store. */
  lemma HolderOwnsTheDocument(tr: seq<State>, i: nat, t: Tag)
    requires Run(tr) && i < |tr| && t in tr[i].ledger.held
    ensures t in tr[i].writes && t in tr[i].ledger.owner
    ensures tr[i].clock < tr[i].writes[t].expiry ==>
              && tr[i].writes[t].key in tr[i].docs
              && tr[i].docs[tr[i].writes[t].key] == Doc(tr[i].ledger.owner[t], tr[i].writes[t].expiry, t)
  {
    RunIsSafe(tr, i);
    if tr[i].clock < tr[i].writes[t].expiry {
      ClaimIsStored(tr[i], t);
    }
  }

  /** Exactly-once disposal over every race of TryAcquire, release and Close. */
  lemma ExactlyOnceDisposal(tr: seq<State>, i: nat, t: Tag)
    requires Run(tr) && i < |tr| && t in tr[i].ledger.owner
    ensures tr[i].ledger.issued[t] <= 1
    ensures tr[i].ledger.owner[t] in tr[i].ledger.closed && tr[i].ledger.Quiet(tr[i].ledger.owner[t]) ==>
              && tr[i].ledger.issued[t] == 1
              && t in tr[i].writes
              && (t in tr[i].failed || !Matches(tr[i], tr[i].writes[t].key, t))
  {
    RunIsSafe(tr, i);
    DisposedOnce(tr[i].ledger, t);
  }

  /** A lapsed lease can be taken over by any open coordinator, whoever wrote it and however it died. */
  lemma LapsedIsReclaimable(s: State, c: CallId, p: Proc, key: Key, lease: int, tag: Tag) returns (tr: seq<State>)
    requires c !in s.calls && p !in s.ledger.closed && tag !in s.writes
    requires key in s.docs && s.docs[key].expiry <= s.clock
    ensures Trace(tr) && tr[0] == s
    ensures var e := tr[|tr| - 1];
            tag in e.ledger.held && e.docs == s.docs[key := Doc(p, s.clock + lease, tag)] && e.clock == s.clock
  {
    var now, expiry := s.clock, s.clock + lease;
    var s1 := s.(calls := s.calls[c := Started(p, key, now, expiry)]);
    var s2 := s1.(calls := s1.calls[c := Conflicted(p, key, now, expiry)]);
    var s3 := s2.(calls := s2.calls[c := SawLapsed(p, key, now, expiry, s.docs[key].etag)]);
    var s4 := Stored(s3, p, key, expiry, tag).(calls := s3.calls - {c}, ledger := s3.ledger.Win(tag, p));
    var s5 := s4.(ledger := s4.ledger.Record(tag));
    assert Next(s, s1) by { assert Step(s, Begin(c, p, key, now, lease), s1); }
    assert Next(s1, s2) by { assert Step(s1, CreateConflict(c), s2); }
    assert Next(s2, s3) by { assert Step(s2, ReadLapsed(c), s3); }
    assert Next(s3, s4) by { assert Step(s3, ReplaceOk(c, tag), s4); }
    assert Next(s4, s5) by { assert Step(s4, Record(tag), s5); }
    assert s5.docs == s.docs[key := Doc(p, expiry, tag)];
    tr := [s, s1, s2, s3, s4, s5];
  }

  /** A lease that is live at the caller's reading of the clock is not reclaimed, and one that is not can be. */
  lemma ReclaimsIff(s: State, c: CallId)
    requires c in s.calls && s.calls[c].Conflicted?
    ensures (exists s' :: Step(s, ReadLapsed(c), s')) <==>
              s.calls[c].key in s.docs && s.docs[s.calls[c].key].expiry <= s.calls[c].now
  {
    var l := s.calls[c];
    if l.key in s.docs && s.docs[l.key].expiry <= l.now {
      assert Step(s, ReadLapsed(c),
                  s.(calls := s.calls[c := SawLapsed(l.p, l.key, l.now, l.expiry, s.docs[l.key].etag)]));
    }
  }

  /** An absent lease can be taken by any open coordinator. */
  lemma AbsentIsAcquirable(s: State, c: CallId, p: Proc, key: Key, lease: int, tag: Tag) returns (tr: seq<State>)
    requires c !in s.calls && p !in s.ledger.closed && tag !in s.writes && key !in s.docs
    ensures Trace(tr) && tr[0] == s
    ensures var e := tr[|tr| - 1];
            && tag in e.ledger.held && tag in e.ledger.owner && e.ledger.owner[tag] == p
            && e.docs == s.docs[key := Doc(p, s.clock + lease, tag)] && e.clock == s.clock
            && tag in e.writes && e.writes[tag].key == key && e.ledger.closed == s.ledger.closed
  {
    var expiry := s.clock + lease;
    var s1 := s.(calls := s.calls[c := Started(p, key, s.clock, expiry)]);
    var s2 := Stored(s1, p, key, expiry, tag).(calls := s1.calls - {c}, ledger := s1.ledger.Win(tag, p));
    var s3 := s2.(ledger := s2.ledger.Record(tag));
    assert Next(s, s1) by { assert Step(s, Begin(c, p, key, s.clock, lease), s1); }
    assert Next(s1, s2) by { assert Step(s1, CreateOk(c, tag), s2); }
    assert Next(s2, s3) by { assert Step(s2, Record(tag), s3); }
    tr := [s, s1, s2, s3];
  }

  /** A holder can give its lease back: its own document, and no other, is then gone. */
  lemma HeldIsReleasable(s: State, t: Tag) returns (tr: seq<State>)
    requires t in s.ledger.held && t in s.writes && Matches(s, s.writes[t].key, t)
    ensures Trace(tr) && tr[0] == s
    ensures var e := tr[|tr| - 1];
            t !in e.ledger.held && t !in e.ledger.deleting && e.docs == s.docs - {s.writes[t].key} && e.clock == s.clock
  {
    var s1 := s.(ledger := s.ledger.Release(t));
    var s2 := Deleted(s1, s.writes[t].key, t).(ledger := s1.ledger.Finish(t));
    assert Next(s, s1) by { assert Step(s, Release(t), s1); }
    assert Next(s1, s2) by { assert Step(s1, DeleteOk(t), s2); }
    tr := [s, s1, s2];
  }

  lemma Joined(tr: seq<State>, more: seq<State>)
    requires Run(tr) && Trace(more) && tr[|tr| - 1] == more[0]
    ensures Run(tr + more[1..])
  {
    var all := tr + more[1..];
    forall i | 0 <= i < |all| - 1 ensures Next(all[i], all[i + 1]) {
      if i < |tr| - 1 {
        assert Next(tr[i], tr[i + 1]);
      } else {
        var j := i - (|tr| - 1);
        assert Next(more[j], more[j + 1]) && all[i] == more[j] && all[i + 1] == more[j + 1];
      }
    }
  }

  /** From the start: a process takes a free key, and gives it back so that the store is empty again. */
  lemma TakenAndGivenBack(p: Proc, key: Key, lease: int) returns (tr: seq<State>, i: nat)
    ensures Run(tr) && i < |tr| && 0 in tr[i].ledger.held && tr[i].docs == map[key := Doc(p, lease, 0)]
    ensures tr[|tr| - 1].docs == map[] && 0 !in tr[|tr| - 1].ledger.held
  {
    tr := AbsentIsAcquirable(State(0, map[], map[], {}, map[], Empty, {}), 0, p, key, lease, 0);
    i := |tr| - 1;
    var more := HeldIsReleasable(tr[i], 0);
    Joined(tr, more);
    tr := tr + more[1..];
  }

  // ----- the remote steps of one TryAcquire, run without interference -----------------------

  datatype Reply = Ok(etag: Tag) | Found(doc: Doc) | Status(code: int)

  const CONFLICT := 409
  const PRECONDITION_FAILED := 412
  const NOT_FOUND := 404

  /** The lock container as the program sees it. */
  class Container {
    var docs: map<Key, Doc>
    var nextTag: Tag

    method CreateItem(key: Key, p: Proc, expiry: int) returns (r: Reply)
      modifies this
      ensures key in old(docs) ==> r == Status(CONFLICT) && unchanged(this)
      ensures key !in old(docs) ==> r == Ok(old(nextTag)) && nextTag == old(nextTag) + 1
                                    && docs == old(docs)[key := Doc(p, expiry, old(nextTag))]
    {
      if key in docs { return Status(CONFLICT); }
      docs := docs[key := Doc(p, expiry, nextTag)];
      r, nextTag := Ok(nextTag), nextTag + 1;
    }

    method ReadItem(key: Key) returns (r: Reply)
      ensures r == if key in docs then Found(docs[key]) else Status(NOT_FOUND)
    {
      r := if key in docs then Found(docs[key]) else Status(NOT_FOUND);
    }

    method ReplaceItem(key: Key, p: Proc, expiry: int, ifMatch: Tag) returns (r: Reply)
      modifies this
      ensures key !in old(docs) ==> r == Status(NOT_FOUND) && unchanged(this)
      ensures key in old(docs) && old(docs[key].etag) != ifMatch ==> r == Status(PRECONDITION_FAILED) && unchanged(this)
      ensures key in old(docs) && old(docs[key].etag) == ifMatch ==>
                r == Ok(old(nextTag)) && nextTag == old(nextTag) + 1
                && docs == old(docs)[key := Doc(p, expiry, old(nextTag))]
    {
      if key !in docs { return Status(NOT_FOUND); }
      if docs[key].etag != ifMatch { return Status(PRECONDITION_FAILED); }
      docs := docs[key := Doc(p, expiry, nextTag)];
      r, nextTag := Ok(nextTag), nextTag + 1;
    }

    /** TryAcquire up to recordHeld: wins exactly when the lease is absent or lapsed at `now`. */
    method TryAcquire(key: Key, p: Proc, now: int, lease: int) returns (won: bool, tag: Tag)
      modifies this
      ensures won <==> key !in old(docs) || old(docs[key].expiry) <= now
      ensures won ==> tag == old(nextTag) && nextTag == tag + 1 && docs == old(docs)[key := Doc(p, now + lease, tag)]
      ensures !won ==> unchanged(this)
    {
      won, tag := false, 0;
      var created := CreateItem(key, p, now + lease);
      if created.Ok? {
        return true, created.etag;
      }
      var read := ReadItem(key);
      if read == Status(NOT_FOUND) {
        return;
      }
      if read.doc.expiry > now {
        return;
      }
      var replaced := ReplaceItem(key, p, now + lease, read.doc.etag);
      if !replaced.Ok? {
        return;
      }
      return true, replaced.etag;
    }
  }
}
