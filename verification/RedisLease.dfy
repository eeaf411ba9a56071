/**
 The Redis lease protocol: SET NX with a fresh token per acquisition, a renewal goroutine that
 extends the key only while its value is that token, and a delete under the same comparison.
 Tokens identify acquisitions from the first request to the last, so one value of `Phase` per
 token follows TryAcquire, release and Close through their mutex sections and their wait for the
 renewer. Requests may stay in the network and be applied late, any number of times.
 */
module RedisLease {
  import LeaseLedger
  import LeaseRegister

  type Proc = LeaseLedger.Proc
  type Key = LeaseRegister.Key
  type Token = nat

  /** A resolved LockTTL in milliseconds. */
  type Ttl = d: int | 0 < d witness 1

  datatype Entry = Entry(token: Token, expiresAt: int)

  /** Who minted a token, for which key, with which LockTTL. */
  datatype Origin = Origin(p: Proc, key: Key, ttl: Ttl)

  datatype Phase =
    | Setting    // SET NX sent
    | Won        // accepted, not yet recorded
    | Held       // in `held`, renewer started
    | Stopping   // taken out of `held`; its renewer is being cancelled and awaited
    | Deleting   // CAS delete pending
    | Over

  datatype Request = Set(token: Token) | Extend(token: Token) | Del(token: Token)

  datatype State = State(
    clock: int,
    db: map<Key, Entry>,
    origin: map<Token, Origin>,
    phase: map<Token, Phase>,
    renewing: set<Token>,      // renewal goroutines still running
    cancelled: set<Token>,     // renewal contexts cancelled
    byClose: set<Token>,       // leases Close took over
    closing: set<Proc>,
    shut: set<Proc>,           // client closed
    net: set<Request>)

  ghost predicate Init(s: State) {
    && s.db == map[] && s.origin == map[] && s.phase == map[]
    && s.renewing == {} && s.cancelled == {} && s.byClose == {}
    && s.closing == {} && s.shut == {} && s.net == {}
  }

  /** Redis hides a key once its time to live has run out. */
  predicate Live(s: State, k: Key) {
    k in s.db && s.clock < s.db[k].expiresAt
  }

  predicate LiveFor(s: State, t: Token) {
    t in s.origin && Live(s, s.origin[t].key) && s.db[s.origin[t].key].token == t
  }

  // ----- the server -----------------------------------------------------------------------

  function Written(s: State, t: Token): State
    requires t in s.origin
  {
    s.(db := s.db[s.origin[t].key := Entry(t, s.clock + s.origin[t].ttl)])
  }

  function Applied(s: State, r: Request): State {
    if r.token !in s.origin then s else
    match r
    case Set(t) => if Live(s, s.origin[t].key) then s else Written(s, t)
    case Extend(t) => if LiveFor(s, t) then Written(s, t) else s
    case Del(t) => if LiveFor(s, t) then s.(db := s.db - {s.origin[t].key}) else s
  }

  // ----- the steps ------------------------------------------------------------------------

  datatype Action =
    | Tick(now: int)
    | Evict(k: Key)
    | Begin(t: Token, p: Proc, key: Key, ttl: Ttl)
    | SetOk(t: Token)
    | SetFail(t: Token)
    | Abandon(t: Token)
    | Record(t: Token)
    | Renew(t: Token)
    | RenewError(t: Token)
    | RenewStop(t: Token)
    | Release(t: Token)
    | CloseStart(p: Proc)
    | Cancel(t: Token)
    | Joined(t: Token)
    | DelDone(t: Token)
    | DelError(t: Token)
    | CloseDone(p: Proc)
    | Land(r: Request)
    | Drop(r: Request)

  predicate At(s: State, t: Token, ph: Phase) {
    t in s.origin && t in s.phase && s.phase[t] == ph
  }

  function Moved(s: State, t: Token, ph: Phase): State {
    s.(phase := s.phase[t := ph])
  }

  predicate Mine(s: State, t: Token, p: Proc) {
    t in s.origin && s.origin[t].p == p
  }

  function HeldBy(s: State, p: Proc): set<Token> {
    set t | t in s.phase && At(s, t, Held) && Mine(s, t, p)
  }

  ghost predicate Step(s: State, a: Action, s': State) {
    match a
    case Tick(now) => s.clock <= now && s' == s.(clock := now)
    case Evict(k) => k in s.db && !Live(s, k) && s' == s.(db := s.db - {k})
    case Begin(t, p, key, ttl) =>
      && t !in s.origin && t !in s.phase
      && s' == s.(origin := s.origin[t := Origin(p, key, ttl)], phase := s.phase[t := Setting])
    case SetOk(t) =>
      && At(s, t, Setting) && s.origin[t].p !in s.shut && !Live(s, s.origin[t].key)
      && s' == Moved(Written(s, t), t, Won)
    case SetFail(t) => At(s, t, Setting) && s' == Moved(s, t, Over)
    case Abandon(t) =>
      At(s, t, Setting) && s.origin[t].p !in s.shut && s' == s.(net := s.net + {Set(t)})
    case Record(t) =>
      && At(s, t, Won)
      && s' == if s.origin[t].p in s.closing then Moved(s, t, Deleting)
               else Moved(s, t, Held).(renewing := s.renewing + {t})
    case Renew(t) =>   // a tick of the renewer; it ends itself when the comparison fails
      && t in s.renewing && t in s.origin && s.origin[t].p !in s.shut
      && s' == if LiveFor(s, t) then Written(s, t) else s.(renewing := s.renewing - {t})
    case RenewError(t) =>   // the renewer gives up; its request may still be on its way
      && t in s.renewing && t in s.origin
      && s' == s.(renewing := s.renewing - {t},
                  net := if s.origin[t].p in s.shut then s.net else s.net + {Extend(t)})
    case RenewStop(t) =>
      t in s.renewing && t in s.cancelled && s' == s.(renewing := s.renewing - {t})
    case Release(t) => s' == if At(s, t, Held) then Moved(s, t, Stopping) else s
    case CloseStart(p) =>
      if p in s.closing then s' == s
      else s' == s.(closing := s.closing + {p}, byClose := s.byClose + HeldBy(s, p),
                    phase := map t | t in s.phase :: if t in HeldBy(s, p) then Stopping else s.phase[t])
    case Cancel(t) => At(s, t, Stopping) && s' == s.(cancelled := s.cancelled + {t})
    case Joined(t) =>   // the renewer's done channel is closed
      At(s, t, Stopping) && t in s.cancelled && t !in s.renewing && s' == Moved(s, t, Deleting)
    case DelDone(t) =>   // skipped when the client has been closed
      && At(s, t, Deleting)
      && s' == Moved(if s.origin[t].p in s.shut then s else Applied(s, Del(t)), t, Over)
    case DelError(t) =>
      At(s, t, Deleting) && s.origin[t].p !in s.shut && s' == Moved(s, t, Over).(net := s.net + {Del(t)})
    case CloseDone(p) =>
      && p in s.closing && (forall t | t in s.byClose && Mine(s, t, p) :: At(s, t, Over))
      && s' == s.(shut := s.shut + {p})
    case Land(r) => r in s.net && s' == Applied(s, r)
    case Drop(r) => s' == s.(net := s.net - {r})
  }

  /** A run, with the action between any two states. */
  ghost predicate Run(tr: seq<State>, acts: seq<Action>) {
    && |tr| == |acts| + 1 && Init(tr[0])
    && forall i | 0 <= i < |acts| :: Linked(tr, acts, i)
  }

  ghost predicate Linked(tr: seq<State>, acts: seq<Action>, i: nat)
    requires i < |acts| && |tr| == |acts| + 1
  {
    Step(tr[i], acts[i], tr[i + 1])
  }

  // ----- what every step keeps ------------------------------------------------------------

  /** Each key holds a token minted for it, for at most that token's time to live from now. */
  ghost predicate DbOk(s: State) {
    forall k | k in s.db ::
      && s.db[k].token in s.origin && s.origin[s.db[k].token].key == k
      && s.db[k].expiresAt <= s.clock + s.origin[s.db[k].token].ttl
  }

  /** A renewer runs only for a lease that is held or being stopped. */
  ghost predicate RenewersOk(s: State) {
    forall t | t in s.renewing :: t in s.phase && (s.phase[t] == Held || s.phase[t] == Stopping)
  }

  ghost predicate PhasesOk(s: State) {
    && s.phase.Keys == s.origin.Keys
    && (forall t | t in s.phase && s.phase[t] == Held :: s.origin[t].p !in s.closing)
    && (forall r | r in s.net :: r.token in s.origin)
    && s.shut <= s.closing
  }

  ghost predicate Inv(s: State) {
    DbOk(s) && RenewersOk(s) && PhasesOk(s)
  }

  /** Time does not run back and a token keeps its origin. */
  lemma StepMovesOn(s: State, a: Action, s': State)
    requires Step(s, a, s')
    ensures s.clock <= s'.clock
    ensures forall t | t in s.origin :: t in s'.origin && s'.origin[t] == s.origin[t]
  {
  }

  /** An entry that a step leaves behind was there before, or was just written for a full LockTTL. */
  lemma EntryIsOldOrNew(s: State, a: Action, s': State, k: Key)
    requires Step(s, a, s') && k in s'.db
    ensures var e := s'.db[k];
            || (k in s.db && s.db[k] == e)
            || (e.token in s.origin && s.origin[e.token].key == k && e.expiresAt == s.clock + s.origin[e.token].ttl)
  {
  }

  lemma StepKeepsDb(s: State, a: Action, s': State)
    requires DbOk(s) && Step(s, a, s')
    ensures DbOk(s')
  {
    StepMovesOn(s, a, s');
    forall k | k in s'.db
      ensures s'.db[k].token in s'.origin
      ensures s'.origin[s'.db[k].token].key == k && s'.db[k].expiresAt <= s'.clock + s'.origin[s'.db[k].token].ttl
    {
      EntryIsOldOrNew(s, a, s', k);
    }
  }

  lemma StepKeepsRenewers(s: State, a: Action, s': State)
    requires RenewersOk(s) && Step(s, a, s')
    ensures RenewersOk(s')
  {
  }

  lemma StepKeepsKeys(s: State, a: Action, s': State)
    requires s.phase.Keys == s.origin.Keys && Step(s, a, s')
    ensures s'.phase.Keys == s'.origin.Keys
  {
    match a
    case Begin(t, p, key, ttl) => assert s'.phase.Keys == s.phase.Keys + {t} == s'.origin.Keys;
    case _ => assert s'.origin == s.origin && s'.phase.Keys == s.phase.Keys;
  }

  lemma StepKeepsPhases(s: State, a: Action, s': State)
    requires PhasesOk(s) && Step(s, a, s')
    ensures PhasesOk(s')
  {
    StepKeepsKeys(s, a, s');
    StepMovesOn(s, a, s');
  }

  lemma StepKeepsInv(s: State, a: Action, s': State)
    requires Inv(s) && Step(s, a, s')
    ensures Inv(s')
  {
    StepKeepsDb(s, a, s');
    StepKeepsRenewers(s, a, s');
    StepKeepsPhases(s, a, s');
  }

  lemma {:induction false} RunKeepsInv(tr: seq<State>, acts: seq<Action>, i: nat)
    requires Run(tr, acts) && i < |tr|
    ensures Inv(tr[i])
  {
    if i > 0 {
      RunKeepsInv(tr, acts, i - 1);
      assert Linked(tr, acts, i - 1);
      StepKeepsInv(tr[i - 1], acts[i - 1], tr[i]);
    }
  }

  // ----- an acquisition is undone only by itself ---------------------------------------------

  /** The step is acquisition t's own compare-and-delete reaching the server. */
  predicate Disposes(a: Action, t: Token) {
    a == DelDone(t) || a == Land(Del(t))
  }

  /** The step is acquisition t's own renewal reaching the server. */
  predicate Renews(a: Action, t: Token) {
    a == Renew(t) || a == Land(Extend(t))
  }

  /** A live key keeps its value and never loses time, except at the hands of the token it holds. */
  lemma OnlyItsOwnToken(s: State, a: Action, s': State, k: Key)
    requires Inv(s) && Step(s, a, s') && Live(s, k)
    ensures !Disposes(a, s.db[k].token) ==>
              && k in s'.db && s'.db[k].token == s.db[k].token
              && (s'.db[k] != s.db[k] ==> Renews(a, s.db[k].token))
    ensures k in s'.db && s'.db[k].token == s.db[k].token ==> s.db[k].expiresAt <= s'.db[k].expiresAt
  {
  }

  /** The step is not t's own delete and does not let t's time run out. */
  ghost predicate Spares(s: State, a: Action, t: Token) {
    !Disposes(a, t) && (a.Tick? && LiveFor(s, t) ==> a.now < s.db[s.origin[t].key].expiresAt)
  }

  lemma StaysOrLapses(s: State, a: Action, s': State, t: Token)
    requires Inv(s) && Step(s, a, s') && LiveFor(s, t) && Spares(s, a, t)
    ensures LiveFor(s', t) && s'.origin[t] == s.origin[t]
  {
    OnlyItsOwnToken(s, a, s', s.origin[t].key);
  }

  lemma StaysAtStep(tr: seq<State>, acts: seq<Action>, i: nat, t: Token)
    requires Run(tr, acts) && i < |acts| && LiveFor(tr[i], t) && Spares(tr[i], acts[i], t)
    ensures LiveFor(tr[i + 1], t) && tr[i + 1].origin[t] == tr[i].origin[t]
  {
    RunKeepsInv(tr, acts, i);
    assert Linked(tr, acts, i);
    StaysOrLapses(tr[i], acts[i], tr[i + 1], t);
  }

  /** Over a whole stretch of a run: a key taken by t stays t's until it lapses or t itself deletes it. */
  lemma {:induction false} TakenUntilLapsedOrReleased(tr: seq<State>, acts: seq<Action>, i: nat, j: nat, t: Token)
    requires Run(tr, acts) && i <= j < |tr| && LiveFor(tr[i], t)
    requires forall m | i <= m < j :: Spares(tr[m], acts[m], t)
    ensures LiveFor(tr[j], t) && tr[j].origin[t] == tr[i].origin[t]
  {
    if i < j {
      TakenUntilLapsedOrReleased(tr, acts, i, j - 1, t);
      StaysAtStep(tr, acts, j - 1, t);
    }
  }

  /** So while a key is live nobody else can win it: SET NX succeeds for another token only after that. */
  lemma NobodyElseWins(s: State, a: Action, s': State, t: Token, u: Token)
    requires Inv(s) && Step(s, a, s') && LiveFor(s, t) && t != u && u in s.origin
    requires s.origin[u].key == s.origin[t].key
    ensures a != SetOk(u) && !LiveFor(s', u)
  {
    StepMovesOn(s, a, s');
    OnlyItsOwnToken(s, a, s', s.origin[t].key);
  }

  // ----- after Close ------------------------------------------------------------------------

  /** Close has returned and every earlier call of process p has finished; new calls reach no server. */
  ghost predicate Settled(s: State, p: Proc) {
    && p in s.shut
    && forall t | Mine(s, t, p) && t in s.phase :: s.phase[t] == Over || s.phase[t] == Setting
  }

  /** No request of process p that could write or extend a key is still on its way. */
  ghost predicate Calm(s: State, p: Proc) {
    forall r | r in s.net && Mine(s, r.token, p) :: r.Del?
  }

  /** The step is a late SET or renewal of acquisition t reaching the server. */
  predicate Writes(a: Action, t: Token) {
    a == Land(Set(t)) || a == Land(Extend(t))
  }

  lemma NoneRenews(s: State, p: Proc)
    requires RenewersOk(s) && Settled(s, p)
    ensures forall t | t in s.renewing :: !Mine(s, t, p)
    ensures HeldBy(s, p) == {}
  {
  }

  lemma SettledStays(s: State, a: Action, s': State, p: Proc)
    requires PhasesOk(s) && RenewersOk(s) && Settled(s, p) && Step(s, a, s')
    ensures Settled(s', p)
  {
    StepMovesOn(s, a, s');
    NoneRenews(s, p);
  }

  /** Who can change an entry to one that holds token t. */
  lemma WhoWrites(s: State, a: Action, s': State, k: Key)
    requires Step(s, a, s') && k in s'.db && !(k in s.db && s.db[k] == s'.db[k])
    ensures var t := s'.db[k].token; a == SetOk(t) || a == Renew(t) || Writes(a, t)
  {
  }

  /** Of a settled process's keys only its own late requests write or extend any. */
  lemma OnlyLateWrites(s: State, a: Action, s': State, p: Proc, k: Key)
    requires Inv(s) && Settled(s, p) && Step(s, a, s') && k in s'.db && Mine(s', s'.db[k].token, p)
    ensures var e := s'.db[k];
            || (k in s.db && s.db[k] == e)
            || (Writes(a, e.token) && e.token in s.origin && e.expiresAt == s.clock + s.origin[e.token].ttl)
  {
    NoneRenews(s, p);
    EntryIsOldOrNew(s, a, s', k);
    if !(k in s.db && s.db[k] == s'.db[k]) { WhoWrites(s, a, s', k); }
  }

  lemma {:induction false} SettledForever(tr: seq<State>, acts: seq<Action>, i: nat, j: nat, p: Proc)
    requires Run(tr, acts) && i <= j < |tr| && Settled(tr[i], p)
    ensures Settled(tr[j], p)
  {
    if i < j {
      SettledForever(tr, acts, i, j - 1, p);
      RunKeepsInv(tr, acts, j - 1);
      assert Linked(tr, acts, j - 1);
      SettledStays(tr[j - 1], acts[j - 1], tr[j], p);
    }
  }

  /** Step m of the run is a late request that wrote this entry. */
  ghost predicate WrittenAt(tr: seq<State>, acts: seq<Action>, m: nat, e: Entry)
    requires m < |acts| && |tr| == |acts| + 1
  {
    Writes(acts[m], e.token) && e.token in tr[m].origin && e.expiresAt == tr[m].clock + tr[m].origin[e.token].ttl
  }

  lemma EntryAtStep(tr: seq<State>, acts: seq<Action>, m: nat, p: Proc, k: Key)
    requires Run(tr, acts) && m < |acts| && Settled(tr[m], p) && k in tr[m + 1].db
    requires Mine(tr[m + 1], tr[m + 1].db[k].token, p)
    ensures WrittenAt(tr, acts, m, tr[m + 1].db[k])
            || (k in tr[m].db && tr[m].db[k] == tr[m + 1].db[k] && Mine(tr[m], tr[m].db[k].token, p))
  {
    RunKeepsInv(tr, acts, m);
    assert Linked(tr, acts, m);
    StepMovesOn(tr[m], acts[m], tr[m + 1]);
    OnlyLateWrites(tr[m], acts[m], tr[m + 1], p, k);
  }

  /** What a settled process still has in the database it had when it settled, or a late request wrote it. */
  lemma {:induction false} OrphanOrigin(tr: seq<State>, acts: seq<Action>, i: nat, j: nat, p: Proc, k: Key)
    requires Run(tr, acts) && i <= j < |tr| && Settled(tr[i], p)
    requires k in tr[j].db && Mine(tr[j], tr[j].db[k].token, p)
    ensures || (k in tr[i].db && tr[i].db[k] == tr[j].db[k] && Mine(tr[i], tr[i].db[k].token, p))
            || exists m :: i <= m < j && WrittenAt(tr, acts, m, tr[j].db[k])
  {
    if i < j {
      SettledForever(tr, acts, i, j - 1, p);
      EntryAtStep(tr, acts, j - 1, p, k);
      if !WrittenAt(tr, acts, j - 1, tr[j].db[k]) { OrphanOrigin(tr, acts, i, j - 1, p, k); }
    }
  }

  lemma {:induction false} OriginsStay(tr: seq<State>, acts: seq<Action>, i: nat, j: nat, t: Token)
    requires Run(tr, acts) && i <= j < |tr| && t in tr[i].origin
    ensures t in tr[j].origin && tr[j].origin[t] == tr[i].origin[t] && tr[i].clock <= tr[j].clock
  {
    if i < j {
      OriginsStay(tr, acts, i, j - 1, t);
      assert Linked(tr, acts, j - 1);
      StepMovesOn(tr[j - 1], acts[j - 1], tr[j]);
    }
  }

  /**
   After Close no renewer of the process runs, and a key of its that is still live was left less than
   one LockTTL ago: when the process settled, or when one of its late requests landed.
   */
  lemma OrphansDie(tr: seq<State>, acts: seq<Action>, i: nat, j: nat, p: Proc, k: Key)
    requires Run(tr, acts) && i <= j < |tr| && Settled(tr[i], p)
    ensures forall t | t in tr[j].renewing :: !Mine(tr[j], t, p)
    ensures Live(tr[j], k) && Mine(tr[j], tr[j].db[k].token, p) ==>
              var t := tr[j].db[k].token; var ttl := tr[j].origin[t].ttl;
              || tr[j].clock < tr[i].clock + ttl
              || exists m :: i <= m < j && Writes(acts[m], t) && tr[j].clock < tr[m].clock + ttl
  {
    SettledForever(tr, acts, i, j, p);
    RunKeepsInv(tr, acts, j);
    NoneRenews(tr[j], p);
    if Live(tr[j], k) && Mine(tr[j], tr[j].db[k].token, p) {
      var e := tr[j].db[k];
      OrphanOrigin(tr, acts, i, j, p, k);
      if m :| i <= m < j && WrittenAt(tr, acts, m, e) {
        OriginsStay(tr, acts, m, j, e.token);
      } else {
        RunKeepsInv(tr, acts, i);
        OriginsStay(tr, acts, i, j, e.token);
      }
    }
  }

  lemma CalmStays(s: State, a: Action, s': State, p: Proc)
    requires Inv(s) && Settled(s, p) && Calm(s, p) && Step(s, a, s')
    ensures Calm(s', p)
  {
    StepMovesOn(s, a, s');
    NoneRenews(s, p);
  }

  lemma CalmWritesNothing(s: State, a: Action, s': State, p: Proc)
    requires Calm(s, p) && Step(s, a, s')
    ensures forall t | Mine(s, t, p) :: !Writes(a, t)
  {
  }

  /** A settled and calm process stays so, and no late request of its ever writes again. */
  lemma {:induction false} CalmForever(tr: seq<State>, acts: seq<Action>, i: nat, j: nat, p: Proc)
    requires Run(tr, acts) && i <= j < |tr| && Settled(tr[i], p) && Calm(tr[i], p)
    ensures Settled(tr[j], p) && Calm(tr[j], p)
    ensures j < |acts| ==> forall t | Mine(tr[j], t, p) :: !Writes(acts[j], t)
  {
    SettledForever(tr, acts, i, j, p);
    if i < j {
      CalmForever(tr, acts, i, j - 1, p);
      RunKeepsInv(tr, acts, j - 1);
      assert Linked(tr, acts, j - 1);
      CalmStays(tr[j - 1], acts[j - 1], tr[j], p);
    }
    if j < |acts| {
      assert Linked(tr, acts, j);
      CalmWritesNothing(tr[j], acts[j], tr[j + 1], p);
    }
  }

  /** Once settled and calm, every key the process left behind is dead one LockTTL later, for good. */
  lemma CalmOrphansDie(tr: seq<State>, acts: seq<Action>, i: nat, j: nat, p: Proc, k: Key)
    requires Run(tr, acts) && i <= j < |tr| && Settled(tr[i], p) && Calm(tr[i], p)
    ensures k in tr[j].db && Mine(tr[j], tr[j].db[k].token, p) ==>
              && k in tr[i].db && tr[i].db[k] == tr[j].db[k]
              && (tr[i].clock + tr[j].origin[tr[j].db[k].token].ttl <= tr[j].clock ==> !Live(tr[j], k))
  {
    if k in tr[j].db && Mine(tr[j], tr[j].db[k].token, p) {
      var e := tr[j].db[k];
      OrphanOrigin(tr, acts, i, j, p, k);
      forall m | i <= m < j ensures !WrittenAt(tr, acts, m, e) { LateWriteIsNotCalm(tr, acts, i, m, j, p, e); }
      RunKeepsInv(tr, acts, i);
      OriginsStay(tr, acts, i, j, e.token);
    }
  }

  lemma LateWriteIsNotCalm(tr: seq<State>, acts: seq<Action>, i: nat, m: nat, j: nat, p: Proc, e: Entry)
    requires Run(tr, acts) && i <= m < j < |tr| && Settled(tr[i], p) && Calm(tr[i], p) && Mine(tr[j], e.token, p)
    ensures !WrittenAt(tr, acts, m, e)
  {
    CalmForever(tr, acts, i, m, p);
    if e.token in tr[m].origin { OriginsStay(tr, acts, m, j, e.token); }
  }

  // ----- an acquisition from beginning to end -----------------------------------------------------------

  ghost predicate Path(tr: seq<State>, acts: seq<Action>) {
    |tr| == |acts| + 1 && forall i | 0 <= i < |acts| :: Linked(tr, acts, i)
  }

  lemma Append(tr: seq<State>, acts: seq<Action>, a: Action, s: State)
    requires Path(tr, acts) && Step(tr[|tr| - 1], a, s)
    ensures Path(tr + [s], acts + [a])
  {
    var tr', acts' := tr + [s], acts + [a];
    forall i | 0 <= i < |acts'| ensures Linked(tr', acts', i) {
      if i < |acts| { assert Linked(tr, acts, i); }
    }
  }

  /** Acquisition t is held, renewed, and has the key for a full LockTTL from now. */
  predicate Holds(s: State, t: Token) {
    At(s, t, Held) && t in s.renewing && LiveFor(s, t) && s.db[s.origin[t].key].expiresAt == s.clock + s.origin[t].ttl
  }

  /** A key that is not live can be taken by any open coordinator with a new token. */
  lemma FreeIsAcquirable(s: State, t: Token, p: Proc, key: Key, ttl: Ttl) returns (tr: seq<State>, acts: seq<Action>)
    requires t !in s.origin && t !in s.phase && p !in s.closing && p !in s.shut && !Live(s, key)
    ensures Path(tr, acts) && tr[0] == s && Holds(tr[|tr| - 1], t)
    ensures var e := tr[|tr| - 1];
            && e.clock == s.clock && e.origin == s.origin[t := Origin(p, key, ttl)]
            && e.db == s.db[key := Entry(t, s.clock + ttl)] && e.shut == s.shut && e.cancelled == s.cancelled
  {
    var s1 := s.(origin := s.origin[t := Origin(p, key, ttl)], phase := s.phase[t := Setting]);
    var s2 := Moved(Written(s1, t), t, Won);
    var s3 := Moved(s2, t, Held).(renewing := s2.renewing + {t});
    tr, acts := [s], [];
    Append(tr, acts, Begin(t, p, key, ttl), s1);
    tr, acts := tr + [s1], acts + [Begin(t, p, key, ttl)];
    Append(tr, acts, SetOk(t), s2);
    tr, acts := tr + [s2], acts + [SetOk(t)];
    Append(tr, acts, Record(t), s3);
    tr, acts := tr + [s3], acts + [Record(t)];
  }

  /** While the key has not lapsed, a tick of the renewer gives it a full LockTTL again. */
  lemma HeldIsRenewable(s: State, t: Token) returns (s': State)
    requires At(s, t, Held) && t in s.renewing && LiveFor(s, t) && s.origin[t].p !in s.shut
    ensures Step(s, Renew(t), s') && Holds(s', t) && s'.clock == s.clock
  {
    s' := Written(s, t);
  }

  /** A release that runs to its end stops the renewer and frees the key. */
  lemma HeldIsReleasable(s: State, t: Token) returns (tr: seq<State>, acts: seq<Action>)
    requires At(s, t, Held) && t in s.renewing && LiveFor(s, t) && s.origin[t].p !in s.shut
    ensures Path(tr, acts) && tr[0] == s
    ensures var e := tr[|tr| - 1];
            At(e, t, Over) && t !in e.renewing && e.db == s.db - {s.origin[t].key} && e.clock == s.clock
  {
    var s1 := Moved(s, t, Stopping);
    var s2 := s1.(cancelled := s1.cancelled + {t});
    var s3 := s2.(renewing := s2.renewing - {t});
    var s4 := Moved(s3, t, Deleting);
    var s5 := Moved(Applied(s4, Del(t)), t, Over);
    tr, acts := [s], [];
    Append(tr, acts, Release(t), s1);
    tr, acts := tr + [s1], acts + [Release(t)];
    Append(tr, acts, Cancel(t), s2);
    tr, acts := tr + [s2], acts + [Cancel(t)];
    Append(tr, acts, RenewStop(t), s3);
    tr, acts := tr + [s3], acts + [RenewStop(t)];
    Append(tr, acts, Joined(t), s4);
    tr, acts := tr + [s4], acts + [Joined(t)];
    Append(tr, acts, DelDone(t), s5);
    tr, acts := tr + [s5], acts + [DelDone(t)];
  }

  // ----- one process, run without interference ------------------------------------------------------

  predicate LiveEntry(db: map<Key, Entry>, clock: int, k: Key) {
    k in db && clock < db[k].expiresAt
  }

  /** The server side of SET NX and of the two compare-and-act scripts. */
  class Server {
    var clock: int
    var db: map<Key, Entry>

    method SetNX(k: Key, t: Token, ttl: Ttl) returns (ok: bool)
      modifies this`db
      ensures ok == !LiveEntry(old(db), clock, k)
      ensures db == if ok then old(db)[k := Entry(t, clock + ttl)] else old(db)
    {
      ok := !LiveEntry(db, clock, k);
      if ok {
        db := db[k := Entry(t, clock + ttl)];
      }
    }

    /** PEXPIRE only while the value is the token. */
    method RenewScript(k: Key, t: Token, ttl: Ttl) returns (n: nat)
      modifies this`db
      ensures n == if LiveEntry(old(db), clock, k) && old(db)[k].token == t then 1 else 0
      ensures db == if n == 1 then old(db)[k := Entry(t, clock + ttl)] else old(db)
    {
      if LiveEntry(db, clock, k) && db[k].token == t {
        db := db[k := Entry(t, clock + ttl)];
        return 1;
      }
      return 0;
    }

    /** DEL only while the value is the token. */
    method ReleaseScript(k: Key, t: Token)
      modifies this`db
      ensures db == if LiveEntry(old(db), clock, k) && old(db)[k].token == t then old(db) - {k} else old(db)
    {
      if LiveEntry(db, clock, k) && db[k].token == t {
        db := db - {k};
      }
    }
  }

  class Coordinator {
    const server: Server
    var held: map<Token, Key>      // empty after Close
    var renewers: set<Token>       // renewal goroutines running
    var closing: bool
    var closed: bool

    /** A renewer runs for exactly the leases held, and a closed coordinator holds none. */
    ghost predicate Valid() reads this {
      renewers == held.Keys && (closing ==> held == map[]) && (closed ==> closing)
    }

    constructor (server: Server)
      ensures Valid() && this.server == server && held == map[] && !closing && !closed
    {
      this.server := server;
      held, renewers, closing, closed := map[], {}, false, false;
    }

    method CasDelete(k: Key, t: Token)
      modifies server`db
      ensures closed ==> server.db == old(server.db)
      ensures !closed ==> server.db == if LiveEntry(old(server.db), server.clock, k) && old(server.db)[k].token == t
                                       then old(server.db) - {k} else old(server.db)
    {
      if closed {
        return;
      }
      server.ReleaseScript(k, t);
    }

    /** Wins exactly when the key is free and the coordinator open; a closed client reaches no server. */
    method TryAcquire(k: Key, t: Token, ttl: Ttl) returns (won: bool)
      requires Valid() && t !in held
      modifies this, server`db
      ensures Valid() && closing == old(closing) && closed == old(closed)
      ensures won <==> !LiveEntry(old(server.db), server.clock, k) && !closing
      ensures won ==> held == old(held)[t := k] && server.db == old(server.db)[k := Entry(t, server.clock + ttl)]
      ensures !won ==> held == old(held)
      ensures !won && !closed ==> server.db == old(server.db) || server.db == old(server.db) - {k}
      ensures !won && (closed || LiveEntry(old(server.db), server.clock, k)) ==> server.db == old(server.db)
    {
      if closed {
        return false;
      }
      var ok := server.SetNX(k, t, ttl);
      if !ok {
        return false;
      }
      if closing {
        CasDelete(k, t);
        assert server.db == old(server.db)[k := Entry(t, server.clock + ttl)] - {k} == old(server.db) - {k};
        return false;
      }
      held, renewers := held[t := k], renewers + {t};
      return true;
    }

    /** Take the lease out, stop its renewer, then delete its key if it is still its own. */
    method Release(t: Token)
      requires Valid()
      modifies this, server`db
      ensures Valid() && held == old(held) - {t} && closing == old(closing) && closed == old(closed)
      ensures t in old(held) ==>
                server.db == if LiveEntry(old(server.db), server.clock, old(held)[t])
                                && old(server.db)[old(held)[t]].token == t
                             then old(server.db) - {old(held)[t]} else old(server.db)
      ensures t !in old(held) ==> server.db == old(server.db)
    {
      if t !in held {
        return;
      }
      var k := held[t];
      held := held - {t};
      renewers := renewers - {t};
      CasDelete(k, t);
    }

    /** After Close no renewer runs, and of the live keys exactly its own are gone. */
    method Close()
      requires Valid()
      modifies this, server`db
      ensures Valid() && closing && held == map[] && renewers == {}
      ensures old(closing) ==> server.db == old(server.db)
      ensures !old(closing) ==> closed && server.db == Without(old(server.db), server.clock, old(held), old(held).Keys)
    {
      if closing {
        return;
      }
      var leases := held;
      closing, held := true, map[];
      DeleteAll(leases);
      closed := true;
    }

    /** For each lease: cancel its renewer, wait for it, delete its key. */
    method DeleteAll(leases: map<Token, Key>)
      requires !closed && renewers == leases.Keys
      modifies this`renewers, server`db
      ensures renewers == {} && server.db == Without(old(server.db), server.clock, leases, leases.Keys)
    {
      ghost var before, done := server.db, {};
      var todo := leases.Keys;
      while todo != {}
        invariant renewers == todo && done == leases.Keys - todo && todo <= leases.Keys
        invariant server.db == Without(before, server.clock, leases, done)
        decreases todo
      {
        var t :| t in todo;
        todo := todo - {t};
        renewers := renewers - {t};
        WithoutOneMore(before, server.clock, leases, done, t);
        CasDelete(leases[t], t);
        done := done + {t};
      }
      assert done == leases.Keys;
    }
  }

  /** The database without the live keys that hold the token of one of these leases. */
  function Without(db: map<Key, Entry>, clock: int, leases: map<Token, Key>, done: set<Token>): map<Key, Entry>
    requires done <= leases.Keys
  {
    map k | k in db && !(LiveEntry(db, clock, k) && db[k].token in done && leases[db[k].token] == k) :: db[k]
  }

  lemma WithoutOneMore(db: map<Key, Entry>, clock: int, leases: map<Token, Key>, done: set<Token>, t: Token)
    requires done <= leases.Keys && t in leases && t !in done
    ensures var d := Without(db, clock, leases, done);
            Without(db, clock, leases, done + {t}) ==
              if LiveEntry(d, clock, leases[t]) && d[leases[t]].token == t then d - {leases[t]} else d
  {
  }
}
