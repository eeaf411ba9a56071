/**
 The heartbeat membership of the DynamoDB and Cosmos DB coordinators: a member refreshes its own row
 and reads all rows page by page; rows that look expired are deleted without any condition. Writes,
 page reads and deletes of all members interleave, `now` is read before all of them, and a write may
 land late. In Cosmos DB the refresh is create, read and guarded replace, and losing that race skips
 the write; both ways of getting past the write are steps here.
 */
module Membership {
  import Naturals

  /** Members are numbered in the order in which a scan meets their keys. */
  type Id = nat

  datatype Beat =
    | Writing(now: int, expiry: int)
    | Scanning(now: int, cursor: nat, last: bool, queue: map<Id, int>, ids: set<Id>)

  datatype State = State(
    clock: int,
    rows: map<Id, int>,          // lease_expiry of every member row
    live: set<Id>,               // written at least once and not deregistered
    gone: set<Id>,               // deregistered; a process that comes back has a new ID
    written: map<Id, int>,       // the expiry each member last wrote
    beats: map<Id, Beat>,        // heartbeats under way
    net: map<Id, set<int>>,      // refreshes that may land late
    loose: set<Id>)              // deletes that reported an error and may land late

  ghost predicate Init(s: State) {
    && s.rows == map[] && s.live == {} && s.gone == {} && s.written == map[]
    && s.beats == map[] && s.net == map[] && s.loose == {}
  }

  function Refreshed(s: State, m: Id, expiry: int): State {
    s.(rows := s.rows[m := expiry], written := s.written[m := expiry],
       live := if m in s.gone then s.live else s.live + {m})
  }

  /** An unconditional delete of a row: done, or answered with an error and left in the network. */
  function Removed(s: State, m: Id, ok: bool): State {
    if ok then s.(rows := s.rows - {m}) else s.(loose := s.loose + {m})
  }

  function Page(rows: map<Id, int>, lo: nat, hi: nat): map<Id, int> {
    map m | m in rows && lo <= m < hi :: rows[m]
  }

  function Rest(rows: map<Id, int>, lo: nat): map<Id, int> {
    map m | m in rows && lo <= m :: rows[m]
  }

  datatype Action =
    | Tick(now: int)
    | Begin(p: Id, read: int, ttl: int)
    | Write(p: Id)              // the refresh lands
    | Skip(p: Id)               // the refresh lost a race; the heartbeat goes on
    | Late(p: Id)               // the refresh is also left in the network
    | Land(p: Id, expiry: int)
    | NextPage(p: Id, upTo: nat)
    | LastPage(p: Id)
    | Keep(p: Id, m: Id)        // an entry of the page is live at `now`
    | Reap(p: Id, m: Id, ok: bool)
    | End(p: Id)                // answered, or failed on the way
    | Deregister(p: Id, ok: bool)
    | Strike(m: Id)             // a loose delete lands

  predicate InScan(s: State, p: Id) { p in s.beats && s.beats[p].Scanning? }

  ghost predicate Step(s: State, a: Action, s': State) {
    match a
    case Tick(now) => s.clock <= now && s' == s.(clock := now)
    case Begin(p, read, ttl) =>
      && p !in s.beats && read <= s.clock
      && s' == s.(beats := s.beats[p := Writing(read, read + ttl)])
    case Write(p) =>
      && p in s.beats && s.beats[p].Writing?
      && s' == Refreshed(s, p, s.beats[p].expiry).(beats := s.beats[p := Scanning(s.beats[p].now, 0, false, map[], {})])
    case Skip(p) =>
      && p in s.beats && s.beats[p].Writing?
      && s' == s.(beats := s.beats[p := Scanning(s.beats[p].now, 0, false, map[], {})])
    case Late(p) =>
      && p in s.beats && s.beats[p].Writing?
      && s' == s.(net := s.net[p := (if p in s.net then s.net[p] else {}) + {s.beats[p].expiry}])
    case Land(p, expiry) => p in s.net && expiry in s.net[p] && s' == Refreshed(s, p, expiry)
    case NextPage(p, upTo) =>
      && InScan(s, p) && var b := s.beats[p];
      && !b.last && b.queue == map[] && b.cursor <= upTo
      && s' == s.(beats := s.beats[p := b.(cursor := upTo, queue := Page(s.rows, b.cursor, upTo))])
    case LastPage(p) =>
      && InScan(s, p) && var b := s.beats[p];
      && !b.last && b.queue == map[]
      && s' == s.(beats := s.beats[p := b.(last := true, queue := Rest(s.rows, b.cursor))])
    case Keep(p, m) =>
      && InScan(s, p) && var b := s.beats[p];
      && m in b.queue && b.queue[m] > b.now
      && s' == s.(beats := s.beats[p := b.(queue := b.queue - {m}, ids := b.ids + {m})])
    case Reap(p, m, ok) =>
      && InScan(s, p) && var b := s.beats[p];
      && m in b.queue && b.queue[m] <= b.now
      && s' == Removed(s, m, ok).(beats := s.beats[p := b.(queue := b.queue - {m})])
    case End(p) => p in s.beats && s' == s.(beats := s.beats - {p})
    case Deregister(p, ok) => s' == Removed(s, p, ok).(live := s.live - {p}, gone := s.gone + {p})
    case Strike(m) => m in s.loose && s' == s.(rows := s.rows - {m})
  }

  ghost predicate Path(tr: seq<State>, acts: seq<Action>) {
    && |tr| == |acts| + 1
    && forall i | 0 <= i < |acts| :: Step(tr[i], acts[i], tr[i + 1])
  }

  ghost predicate FreeRun(tr: seq<State>, acts: seq<Action>) {
    Path(tr, acts) && Init(tr[0])
  }

  /** While member m lives, its refreshes land before the expiry it last wrote. */
  ghost predicate Timely(s: State, m: Id) {
    m in s.live ==> m in s.written && s.clock < s.written[m]
  }

  /** Member m refreshes in time; the others may crash, refresh late and be reaped as they please. */
  ghost predicate TimelyRun(tr: seq<State>, acts: seq<Action>, m: Id) {
    FreeRun(tr, acts) && forall i | 0 <= i < |tr| :: Timely(tr[i], m)
  }

  // ----- what every step keeps of a timely member --------------------------------------------------

  /** Only members that live or have left have a row, and one that lives has the row it last wrote. */
  ghost predicate RowOk(s: State, m: Id) {
    && !(m in s.live && m in s.gone)
    && (m in s.rows ==> m in s.live || m in s.gone)
    && (m in s.live ==> m in s.rows && m in s.written && s.rows[m] == s.written[m])
  }

  /** No heartbeat holds an expired reading of m while it lives. */
  ghost predicate BeatsOk(s: State, m: Id) {
    forall p | p in s.beats ::
      && s.beats[p].now <= s.clock
      && (s.beats[p].Scanning? && m in s.beats[p].queue ==>
            m in s.gone || (m in s.live && s.beats[p].queue[m] > s.beats[p].now))
  }

  ghost predicate Inv(s: State, m: Id) {
    RowOk(s, m) && BeatsOk(s, m) && (m in s.loose ==> m in s.gone)
  }

  lemma StepKeepsRow(s: State, a: Action, s': State, m: Id)
    requires Inv(s, m) && Step(s, a, s')
    ensures RowOk(s', m)
  {
  }

  lemma StepKeepsBeats(s: State, a: Action, s': State, m: Id)
    requires Inv(s, m) && Timely(s, m) && Step(s, a, s')
    ensures BeatsOk(s', m) && (m in s'.loose ==> m in s'.gone)
  {
  }

  lemma {:induction false} RunKeepsInv(tr: seq<State>, acts: seq<Action>, m: Id, i: nat)
    requires TimelyRun(tr, acts, m) && i < |tr|
    ensures Inv(tr[i], m)
  {
    if i > 0 {
      RunKeepsInv(tr, acts, m, i - 1);
      assert Step(tr[i - 1], acts[i - 1], tr[i - 1 + 1]);
      StepKeepsRow(tr[i - 1], acts[i - 1], tr[i], m);
      StepKeepsBeats(tr[i - 1], acts[i - 1], tr[i], m);
    }
  }

  /** A timely member is never reaped while it lives: its row is there, with what it last wrote. */
  lemma LiveIsNeverReaped(tr: seq<State>, acts: seq<Action>, i: nat, m: Id)
    requires TimelyRun(tr, acts, m) && i < |tr| && m in tr[i].live
    ensures m in tr[i].rows && m in tr[i].written && tr[i].rows[m] == tr[i].written[m] > tr[i].clock
    ensures i < |acts| && (acts[i].Reap? || acts[i].Strike?) ==> acts[i].m != m
  {
    RunKeepsInv(tr, acts, m, i);
    if i < |acts| { assert Step(tr[i], acts[i], tr[i + 1]); }
  }

  // ----- nobody is omitted -------------------------------------------------------------------------

  /** Heartbeat p has already counted m, has it in hand, or has yet to come to it. */
  ghost predicate Accounted(s: State, p: Id, m: Id) {
    && InScan(s, p)
    && (m in s.beats[p].ids || m in s.beats[p].queue || (!s.beats[p].last && s.beats[p].cursor <= m))
  }

  lemma StepKeepsAccount(s: State, a: Action, s': State, p: Id, m: Id)
    requires Inv(s, m) && Step(s, a, s') && m in s.live && Accounted(s, p, m) && InScan(s', p)
    ensures Accounted(s', p, m)
  {
  }

  lemma ScanStarts(s: State, a: Action, s': State, p: Id, m: Id)
    requires Step(s, a, s') && (a == Write(p) || a == Skip(p))
    ensures Accounted(s', p, m)
  {
  }

  /** Heartbeat p scans and member m is live in every state after i up to j. */
  ghost predicate Throughout(tr: seq<State>, i: nat, j: nat, p: Id, m: Id)
    requires j < |tr|
  {
    forall k | i < k <= j :: InScan(tr[k], p) && m in tr[k].live
  }

  lemma AccountAtStep(tr: seq<State>, acts: seq<Action>, i: nat, p: Id, m: Id)
    requires TimelyRun(tr, acts, m) && i < |acts| && m in tr[i].live && Accounted(tr[i], p, m) && InScan(tr[i + 1], p)
    ensures Accounted(tr[i + 1], p, m)
  {
    RunKeepsInv(tr, acts, m, i);
    assert Step(tr[i], acts[i], tr[i + 1]);
    StepKeepsAccount(tr[i], acts[i], tr[i + 1], p, m);
  }

  lemma {:induction false} ScanAccounts(tr: seq<State>, acts: seq<Action>, i: nat, j: nat, p: Id, m: Id)
    requires TimelyRun(tr, acts, m) && i < j < |tr| && (acts[i] == Write(p) || acts[i] == Skip(p))
    requires Throughout(tr, i, j, p, m)
    ensures Accounted(tr[j], p, m)
  {
    if j == i + 1 {
      assert Step(tr[i], acts[i], tr[i + 1]);
      ScanStarts(tr[i], acts[i], tr[j], p, m);
    } else {
      ScanAccounts(tr, acts, i, j - 1, p, m);
      AccountAtStep(tr, acts, j - 1, p, m);
    }
  }

  /** A completed scan answers every timely member that lived while it ran, whatever the others did. */
  lemma NobodyOmitted(tr: seq<State>, acts: seq<Action>, i: nat, j: nat, p: Id, m: Id)
    requires TimelyRun(tr, acts, m) && i < j < |tr| && (acts[i] == Write(p) || acts[i] == Skip(p))
    requires Throughout(tr, i, j, p, m)
    requires InScan(tr[j], p) && tr[j].beats[p].last && tr[j].beats[p].queue == map[]
    ensures m in tr[j].beats[p].ids
  {
    ScanAccounts(tr, acts, i, j, p, m);
  }

  // ----- exactly when peers can rob a member ---------------------------------------------------------

  /** A reap, at once or late, deletes the row of a living member. */
  predicate Robs(s: State, a: Action, m: Id) {
    m in s.live && (a == Strike(m) || (a.Reap? && a.m == m && a.ok))
  }

  /** The clock stands still, and member m neither refreshes nor leaves. */
  predicate Spares(a: Action, m: Id) {
    !a.Tick? && a != Write(m) && !((a.Land? || a.Deregister?) && a.p == m)
  }

  ghost predicate PeerPath(tr: seq<State>, acts: seq<Action>, m: Id) {
    Path(tr, acts) && forall i | 0 <= i < |acts| :: Spares(acts[i], m)
  }

  /** Reaps can rob m from here, before the clock moves on and before m refreshes or leaves. */
  ghost predicate CanRob(s: State, m: Id) {
    exists tr, acts :: Robbery(tr, acts, s, m)
  }

  ghost predicate Robbery(tr: seq<State>, acts: seq<Action>, s: State, m: Id) {
    PeerPath(tr, acts, m) && tr[0] == s && acts != [] && Robs(tr[|acts| - 1], acts[|acts| - 1], m)
  }

  /** Heartbeat p has in hand a reading of m that it takes for expired. */
  predicate StaleIn(s: State, p: Id, m: Id) {
    InScan(s, p) && m in s.beats[p].queue && s.beats[p].queue[m] <= s.beats[p].now
  }

  /** Member m lives, and its row has expired, or a heartbeat holds an expired reading of it, or a delete is loose. */
  ghost predicate Exposed(s: State, m: Id) {
    m in s.live && ((m in s.rows && s.rows[m] <= s.clock) || m in s.loose || exists p :: StaleIn(s, p, m))
  }

  ghost predicate ClocksOk(s: State) {
    forall p | p in s.beats :: s.beats[p].now <= s.clock
  }

  lemma {:induction false} FreeRunKeepsClocks(tr: seq<State>, acts: seq<Action>, i: nat)
    requires FreeRun(tr, acts) && i < |tr|
    ensures ClocksOk(tr[i])
  {
    if i > 0 {
      FreeRunKeepsClocks(tr, acts, i - 1);
      assert Step(tr[i - 1], acts[i - 1], tr[i - 1 + 1]);
    }
  }

  lemma StepKeepsClocks(s: State, a: Action, s': State)
    requires ClocksOk(s) && Step(s, a, s')
    ensures ClocksOk(s')
  {
  }

  /** A reading taken while the row is unexpired is not stale. */
  lemma StaysFresh(s: State, a: Action, s': State, p: Id, m: Id)
    requires ClocksOk(s) && Step(s, a, s') && Spares(a, m) && StaleIn(s', p, m)
    ensures StaleIn(s, p, m) || (m in s.rows && s.rows[m] <= s.clock)
  {
  }

  lemma StaysUnexposed(s: State, a: Action, s': State, m: Id)
    requires ClocksOk(s) && !Exposed(s, m) && Step(s, a, s') && Spares(a, m)
    ensures !Exposed(s', m)
  {
    forall p | StaleIn(s', p, m) ensures m !in s'.live { StaysFresh(s, a, s', p, m); }
    if a.Reap? { assert !(m in s.live && StaleIn(s, a.p, m)); }
  }

  lemma {:induction false} PathStaysUnexposed(tr: seq<State>, acts: seq<Action>, m: Id, i: nat)
    requires PeerPath(tr, acts, m) && i < |tr| && ClocksOk(tr[0]) && !Exposed(tr[0], m)
    ensures ClocksOk(tr[i]) && !Exposed(tr[i], m)
  {
    if i > 0 {
      PathStaysUnexposed(tr, acts, m, i - 1);
      assert Step(tr[i - 1], acts[i - 1], tr[i - 1 + 1]) && Spares(acts[i - 1], m);
      StepKeepsClocks(tr[i - 1], acts[i - 1], tr[i]);
      StaysUnexposed(tr[i - 1], acts[i - 1], tr[i], m);
    }
  }

  lemma RobbedWasExposed(tr: seq<State>, acts: seq<Action>, s: State, m: Id)
    requires Robbery(tr, acts, s, m) && ClocksOk(s)
    ensures Exposed(s, m)
  {
    if !Exposed(s, m) {
      var n := |acts| - 1;
      PathStaysUnexposed(tr, acts, m, n);
      assert Step(tr[n], acts[n], tr[n + 1]);
      if acts[n].Reap? { assert StaleIn(tr[n], acts[n].p, m); }
    }
  }

  lemma Append(tr: seq<State>, acts: seq<Action>, a: Action, s: State)
    requires Path(tr, acts) && Step(tr[|tr| - 1], a, s)
    ensures Path(tr + [s], acts + [a])
  {
  }

  /** A heartbeat of p, refreshed for one millisecond, that has read all rows and handled none. */
  function HasRead(s: State, p: Id): State {
    var t := Refreshed(s, p, s.clock + 1);
    t.(beats := s.beats[p := Scanning(s.clock, 0, true, Rest(t.rows, 0), {})])
  }

  lemma Reads(s: State, p: Id) returns (tr: seq<State>, acts: seq<Action>)
    requires p !in s.beats
    ensures Path(tr, acts) && tr[0] == s && tr[|tr| - 1] == HasRead(s, p)
    ensures acts == [Begin(p, s.clock, 1), Write(p), LastPage(p)]
  {
    var s1 := s.(beats := s.beats[p := Writing(s.clock, s.clock + 1)]);
    var b := Scanning(s.clock, 0, false, map[], {});
    var s2 := Refreshed(s1, p, s.clock + 1).(beats := s1.beats[p := b]);
    var s3 := s2.(beats := s2.beats[p := b.(last := true, queue := Rest(s2.rows, 0))]);
    assert Step(s, Begin(p, s.clock, 1), s1) && Step(s1, Write(p), s2) && Step(s2, LastPage(p), s3);
    assert s3 == HasRead(s, p);
    tr, acts := [s, s1, s2, s3], [Begin(p, s.clock, 1), Write(p), LastPage(p)];
  }

  function HasReaped(s: State, p: Id, m: Id): State
    requires InScan(s, p)
  {
    s.(beats := s.beats[p := s.beats[p].(queue := s.beats[p].queue - {m})], rows := s.rows - {m})
  }

  lemma LooseIsRobbed(s: State, m: Id)
    requires m in s.live && m in s.loose
    ensures CanRob(s, m)
  {
    assert Robbery([s, s.(rows := s.rows - {m})], [Strike(m)], s, m);
  }

  lemma StaleIsRobbed(s: State, p: Id, m: Id)
    requires m in s.live && StaleIn(s, p, m)
    ensures CanRob(s, m)
  {
    assert Robbery([s, HasReaped(s, p, m)], [Reap(p, m, true)], s, m);
  }

  lemma ExpiredIsRobbed(s: State, m: Id)
    requires m in s.live && m in s.rows && s.rows[m] <= s.clock
    ensures CanRob(s, m)
  {
    var p := Naturals.Unused(s.beats.Keys + {m});
    var tr, acts := Reads(s, p);
    var e := HasRead(s, p);
    assert StaleIn(e, p, m);
    Append(tr, acts, Reap(p, m, true), HasReaped(e, p, m));
    assert Robbery(tr + [HasReaped(e, p, m)], acts + [Reap(p, m, true)], s, m);
  }

  /** At any moment: m can be robbed exactly when it is exposed. */
  lemma CanRobIff(s: State, m: Id)
    requires ClocksOk(s)
    ensures CanRob(s, m) <==> Exposed(s, m)
  {
    if tr, acts :| Robbery(tr, acts, s, m) { RobbedWasExposed(tr, acts, s, m); }
    if Exposed(s, m) {
      if m in s.loose {
        LooseIsRobbed(s, m);
      } else if p :| StaleIn(s, p, m) {
        StaleIsRobbed(s, p, m);
      } else {
        ExpiredIsRobbed(s, m);
      }
    }
  }

  /** So at every moment of every run. */
  lemma RunCanRobIff(tr: seq<State>, acts: seq<Action>, i: nat, m: Id)
    requires FreeRun(tr, acts) && i < |tr|
    ensures CanRob(tr[i], m) <==> Exposed(tr[i], m)
  {
    FreeRunKeepsClocks(tr, acts, i);
    CanRobIff(tr[i], m);
  }

  lemma TimelyIsUnexposed(tr: seq<State>, acts: seq<Action>, i: nat, m: Id)
    requires TimelyRun(tr, acts, m) && i < |tr|
    ensures !Exposed(tr[i], m)
  {
    RunKeepsInv(tr, acts, m, i);
  }

  lemma {:induction false} UnexposedKeepsRow(tr: seq<State>, acts: seq<Action>, i: nat, m: Id)
    requires FreeRun(tr, acts) && i < |tr| && forall j | 0 <= j < i :: !Exposed(tr[j], m)
    ensures RowOk(tr[i], m)
  {
    if i > 0 {
      UnexposedKeepsRow(tr, acts, i - 1, m);
      var s, a := tr[i - 1], acts[i - 1];
      assert Step(s, a, tr[i - 1 + 1]) && !Exposed(s, m);
      UnexposedStepKeepsRow(s, a, tr[i], m);
    }
  }

  lemma UnexposedStepKeepsRow(s: State, a: Action, s': State, m: Id)
    requires RowOk(s, m) && !Exposed(s, m) && Step(s, a, s')
    ensures RowOk(s', m)
  {
    if a.Reap? { assert !(m in s.live && StaleIn(s, a.p, m)); }
  }

  /** A member's refreshes are in time throughout a run exactly when at no moment it could have been robbed. */
  lemma TimelyIff(tr: seq<State>, acts: seq<Action>, m: Id)
    requires FreeRun(tr, acts)
    ensures (forall i | 0 <= i < |tr| :: Timely(tr[i], m)) <==> (forall i | 0 <= i < |tr| :: !CanRob(tr[i], m))
  {
    forall i | 0 <= i < |tr| ensures CanRob(tr[i], m) <==> Exposed(tr[i], m) { RunCanRobIff(tr, acts, i, m); }
    if forall i | 0 <= i < |tr| :: Timely(tr[i], m) {
      forall i | 0 <= i < |tr| ensures !CanRob(tr[i], m) { TimelyIsUnexposed(tr, acts, i, m); }
    }
    if forall i | 0 <= i < |tr| :: !CanRob(tr[i], m) {
      forall i | 0 <= i < |tr| ensures Timely(tr[i], m) {
        assert !CanRob(tr[i], m) && forall j | 0 <= j < i :: !CanRob(tr[j], m);
        UnexposedKeepsRow(tr, acts, i, m);
      }
    }
  }

  // ----- a late refresh ----------------------------------------------------------------------------

  /** Member m lives and its last refresh, not yet expired, is not in the table. */
  predicate Lost(s: State, m: Id) {
    m in s.live && m in s.written && s.clock < s.written[m] && m !in s.rows
  }

  /** Any run in which a living member is late can go on, with the clock still, to the loss of its next refresh. */
  lemma LateRefreshIsLost(tr: seq<State>, acts: seq<Action>, m: Id) returns (tr': seq<State>, acts': seq<Action>)
    requires FreeRun(tr, acts) && var s := tr[|tr| - 1];
             m in s.live && m in s.rows && s.rows[m] <= s.clock && m !in s.beats
    ensures FreeRun(tr', acts') && tr <= tr' && acts <= acts'
    ensures Lost(tr'[|tr'| - 1], m) && tr'[|tr'| - 1].clock == tr[|tr| - 1].clock
  {
    var s := tr[|tr| - 1];
    var p := Naturals.Unused(s.beats.Keys + {m});
    var path, steps := Reads(s, p);
    var e := HasRead(s, p);
    tr', acts' := Joined(tr, acts, path, steps);
    var s1 := e.(beats := e.beats[m := Writing(e.clock, e.clock + 1)]);
    Append(tr', acts', Begin(m, e.clock, 1), s1);
    tr', acts' := tr' + [s1], acts' + [Begin(m, e.clock, 1)];
    var s2 := Refreshed(s1, m, e.clock + 1).(beats := s1.beats[m := Scanning(e.clock, 0, false, map[], {})]);
    Append(tr', acts', Write(m), s2);
    tr', acts' := tr' + [s2], acts' + [Write(m)];
    assert StaleIn(s2, p, m);
    Append(tr', acts', Reap(p, m, true), HasReaped(s2, p, m));
    tr', acts' := tr' + [HasReaped(s2, p, m)], acts' + [Reap(p, m, true)];
  }

  lemma Joined(tr: seq<State>, acts: seq<Action>, more: seq<State>, steps: seq<Action>)
    returns (tr': seq<State>, acts': seq<Action>)
    requires FreeRun(tr, acts) && Path(more, steps) && tr[|tr| - 1] == more[0]
    ensures FreeRun(tr', acts') && tr <= tr' && acts <= acts' && tr'[|tr'| - 1] == more[|more| - 1]
  {
    tr', acts' := tr + more[1..], acts + steps;
    forall i | 0 <= i < |acts'| ensures Step(tr'[i], acts'[i], tr'[i + 1]) {
      if i < |acts| {
        assert Step(tr[i], acts[i], tr[i + 1]);
      } else {
        var j := i - |acts|;
        assert Step(more[j], steps[j], more[j + 1]);
        assert tr'[i] == more[j] && tr'[i + 1] == more[j + 1];
      }
    }
  }

  /** A member that refreshes too late can lose its fresh row to a peer that read the old one. */
  lemma LateRefreshIsReaped() returns (tr: seq<State>, acts: seq<Action>)
    ensures FreeRun(tr, acts) && Lost(tr[|tr| - 1], 1)
  {
    var s0 := State(0, map[], {}, {}, map[], map[], map[], {});
    var s1 := s0.(beats := map[1 := Writing(0, 10)]);
    var s2 := Refreshed(s1, 1, 10).(beats := s1.beats[1 := Scanning(0, 0, false, map[], {})]);
    var s3 := s2.(beats := s2.beats - {1});
    var s4 := s3.(clock := 10);
    tr, acts := [s0, s1, s2, s3, s4], [Begin(1, 0, 10), Write(1), End(1), Tick(10)];
    assert Step(s0, Begin(1, 0, 10), s1) && Step(s1, Write(1), s2) && Step(s2, End(1), s3) && Step(s3, Tick(10), s4);
    tr, acts := LateRefreshIsLost(tr, acts, 1);
  }

  /** Member 2 has read the expired row of member 1 and tried to reap it; the delete is loose. */
  lemma FailedReap() returns (tr: seq<State>, acts: seq<Action>)
    ensures FreeRun(tr, acts)
    ensures tr[|tr| - 1] == State(1, map[1 := 1, 2 := 2], {1, 2}, {}, map[1 := 1, 2 := 2], map[], map[], {1})
  {
    var s := State(1, map[1 := 1], {1}, {}, map[1 := 1], map[], map[], {});
    tr, acts := LapsedMember();
    var path, steps := Reads(s, 2);
    tr, acts := Joined(tr, acts, path, steps);
    var e := HasRead(s, 2);
    var s1 := e.(beats := map[2 := e.beats[2].(queue := e.beats[2].queue - {1})], loose := {1});
    Append(tr, acts, Reap(2, 1, false), s1);
    tr, acts := tr + [s1], acts + [Reap(2, 1, false)];
    var s2 := s1.(beats := map[]);
    Append(tr, acts, End(2), s2);
    tr, acts := tr + [s2], acts + [End(2)];
  }

  /** A second way: the peer's reap errs, its heartbeat ends, and the delete lands on the next refresh. */
  lemma LooseReapLands() returns (tr: seq<State>, acts: seq<Action>)
    ensures FreeRun(tr, acts) && |tr| > 1 && Lost(tr[|tr| - 1], 1)
    ensures var s := tr[|tr| - 2]; 1 in s.rows && s.clock < s.rows[1] && s.beats == map[]
  {
    tr, acts := FailedReap();
    var path, steps := Beats(tr[|tr| - 1], 1);
    tr, acts := Joined(tr, acts, path, steps);
    var s := tr[|tr| - 1];
    Append(tr, acts, Strike(1), s.(rows := s.rows - {1}));
    tr, acts := tr + [s.(rows := s.rows - {1})], acts + [Strike(1)];
  }

  /** Member 1 has written once and its row has just expired. */
  lemma LapsedMember() returns (tr: seq<State>, acts: seq<Action>)
    ensures FreeRun(tr, acts) && tr[|tr| - 1] == State(1, map[1 := 1], {1}, {}, map[1 := 1], map[], map[], {})
  {
    var s0 := State(0, map[], {}, {}, map[], map[], map[], {});
    var path, steps := Beats(s0, 1);
    tr, acts := Joined([s0], [], path, steps);
    var s := tr[|tr| - 1];
    Append(tr, acts, Tick(1), s.(clock := 1));
    tr, acts := tr + [s.(clock := 1)], acts + [Tick(1)];
  }

  /** A heartbeat of p that refreshes for one millisecond and then ends. */
  lemma Beats(s: State, p: Id) returns (tr: seq<State>, acts: seq<Action>)
    requires s.beats == map[]
    ensures Path(tr, acts) && tr[0] == s && tr[|tr| - 1] == Refreshed(s, p, s.clock + 1)
  {
    var s1 := s.(beats := map[p := Writing(s.clock, s.clock + 1)]);
    var s2 := Refreshed(s1, p, s.clock + 1).(beats := s1.beats[p := Scanning(s.clock, 0, false, map[], {})]);
    var s3 := s2.(beats := s2.beats - {p});
    assert Step(s, Begin(p, s.clock, 1), s1) && Step(s1, Write(p), s2) && Step(s2, End(p), s3);
    tr, acts := [s, s1, s2, s3], [Begin(p, s.clock, 1), Write(p), End(p)];
  }

  // ----- one heartbeat, run without interference ---------------------------------------------------

  function LiveAt(rows: map<Id, int>, now: int): set<Id> { set m | m in rows && rows[m] > now }

  class Table {
    var rows: map<Id, int>

    /** Dynamo's Heartbeat: refresh, then scan page by page, collecting the live and reaping the expired. */
    method Heartbeat(self: Id, now: int, ttl: int, pageSize: nat) returns (ids: set<Id>)
      requires pageSize > 0
      modifies this
      ensures ids == LiveAt(old(rows)[self := now + ttl], now)
      ensures rows == map m | m in old(rows)[self := now + ttl] && m in ids :: old(rows)[self := now + ttl][m]
      ensures ttl > 0 ==> self in ids
    {
      rows := rows[self := now + ttl];
      ghost var all := rows;
      ids := {};
      var rest := rows.Keys;
      while rest != {}
        invariant rest <= all.Keys
        invariant ids == set m | m in all && m !in rest && all[m] > now
        invariant rows == map m | m in all && (m in rest || all[m] > now) :: all[m]
        decreases rest
      {
        var n := 0;
        ghost var start := rest;
        while rest != {} && n < pageSize
          invariant rest <= all.Keys && 0 <= n <= pageSize
          invariant if n == 0 then rest == start else rest < start
          invariant ids == set m | m in all && m !in rest && all[m] > now
          invariant rows == map m | m in all && (m in rest || all[m] > now) :: all[m]
          decreases rest
        {
          var m :| m in rest;
          rest := rest - {m};
          if rows[m] > now {
            ids := ids + {m};
          } else {
            rows := rows - {m};
          }
          n := n + 1;
        }
      }
    }

    method Deregister(self: Id)
      modifies this
      ensures rows == old(rows) - {self}
    {
      rows := rows - {self};
    }
  }

  datatype Doc = Doc(expiry: int, etag: nat)

  /** The Cosmos refresh: create, and on a conflict read and replace under the ETag. */
  class Container {
    var docs: map<Id, Doc>
    var nextTag: nat

    method CreateItem(m: Id, expiry: int) returns (conflict: bool)
      modifies this
      ensures conflict == (m in old(docs))
      ensures conflict ==> unchanged(this)
      ensures !conflict ==> docs == old(docs)[m := Doc(expiry, old(nextTag))]
    {
      conflict := m in docs;
      if !conflict {
        docs, nextTag := docs[m := Doc(expiry, nextTag)], nextTag + 1;
      }
    }

    method ReplaceItem(m: Id, expiry: int, ifMatch: nat) returns (lost: bool)
      modifies this
      ensures lost == !(m in old(docs) && old(docs[m].etag) == ifMatch)
      ensures lost ==> unchanged(this)
      ensures !lost ==> docs == old(docs)[m := Doc(expiry, old(nextTag))]
    {
      lost := !(m in docs && docs[m].etag == ifMatch);
      if !lost {
        docs, nextTag := docs[m := Doc(expiry, nextTag)], nextTag + 1;
      }
    }

    /** A peer's unconditional delete of an expired member. */
    method Reaped(m: Id)
      modifies this
      ensures docs == old(docs) - {m} && nextTag == old(nextTag)
    {
      docs := docs - {m};
    }

    /** The refresh lands unless a peer reaps the old document between its read and its replace. */
    method UpsertMember(m: Id, expiry: int, reapBeforeRead: bool, reapBeforeReplace: bool) returns (landed: bool)
      modifies this
      ensures landed <==> m !in old(docs) || reapBeforeRead || !reapBeforeReplace
      ensures landed ==> m in docs && docs[m].expiry == expiry
      ensures !landed ==> m !in docs
      ensures docs - {m} == old(docs) - {m}
    {
      var conflict := CreateItem(m, expiry);
      if !conflict {
        return true;
      }
      if reapBeforeRead { Reaped(m); }
      if m !in docs {
        conflict := CreateItem(m, expiry);
        return !conflict;
      }
      var etag := docs[m].etag;
      if reapBeforeReplace { Reaped(m); }
      var lost := ReplaceItem(m, expiry, etag);
      return !lost;
    }
  }
}
