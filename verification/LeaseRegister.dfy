/**
 The lease contract every backend is measured against: one register per key that is granted
 until a point in time, overwritten only once it has lapsed, and withdrawn only when nobody
 claims it any more or it has lapsed. Mutual exclusion is proved here once; a backend inherits it by refinement.
 */
module LeaseRegister {
  import opened LeaseLedger

  type Key = nat

  datatype Grant = Grant(id: Tag, until: int)
  datatype Claim = Claim(key: Key, until: int)

  datatype Register = Register(
    clock: int,                  // milliseconds, one clock for the fleet
    grants: map<Key, Grant>,     // what the store says
    claims: map<Tag, Claim>,     // what processes believe they hold
    used: set<Tag>)              // every id granted so far

  /** What an accepted store write said. */
  datatype Write = Write(owner: Proc, key: Key, expiry: int)

  /** The claims of the leases `ids`, each as its own write states it. */
  function ClaimsOf(ids: set<Tag>, writes: map<Tag, Write>): map<Tag, Claim>
    requires ids <= writes.Keys
  {
    map t | t in ids :: Claim(writes[t].key, writes[t].expiry)
  }

  lemma ClaimsAfterWrite(ids: set<Tag>, writes: map<Tag, Write>, t: Tag, w: Write)
    requires ids <= writes.Keys && t !in writes
    ensures ClaimsOf(ids, writes[t := w]) == ClaimsOf(ids, writes)
    ensures ClaimsOf(ids + {t}, writes[t := w]) == ClaimsOf(ids, writes)[t := Claim(w.key, w.expiry)]
    ensures writes[t := w].Keys == writes.Keys + {t}
  {
  }

  lemma ClaimsLess(ids: set<Tag>, gone: set<Tag>, writes: map<Tag, Write>)
    requires ids <= writes.Keys
    ensures ClaimsOf(ids - gone, writes) == ClaimsOf(ids, writes) - gone
  {
  }

  ghost predicate Init(r: Register) {
    r.grants == map[] && r.claims == map[] && r.used == {}
  }

  /** Key k is free to be granted: never granted, withdrawn, or lapsed. */
  predicate Free(r: Register, k: Key) {
    k in r.grants ==> r.grants[k].until <= r.clock
  }

  datatype Action =
    | Stay
    | Tick(now: int)
    | Give(key: Key, id: Tag, until: int, claimed: bool)
    | Disclaim(ids: set<Tag>)
    | Withdraw(key: Key)
    | Purge(key: Key)

  ghost predicate Step(r: Register, a: Action, r': Register) {
    match a
    case Stay => r' == r
    case Tick(now) => r.clock <= now && r' == r.(clock := now)
    case Give(k, id, until, claimed) =>
      && Free(r, k) && id !in r.used
      && r' == r.(grants := r.grants[k := Grant(id, until)], used := r.used + {id},
                  claims := if claimed then r.claims[id := Claim(k, until)] else r.claims)
    case Disclaim(ids) => r' == r.(claims := r.claims - ids)
    case Withdraw(k) =>
      && k in r.grants && r.grants[k].id !in r.claims
      && r' == r.(grants := r.grants - {k})
    case Purge(k) =>
      && k in r.grants && r.grants[k].until <= r.clock
      && r' == r.(grants := r.grants - {k})
  }

  ghost predicate Next(r: Register, r': Register) {
    exists a :: Step(r, a, r')
  }

  /** An unlapsed claim is backed by the store. */
  ghost predicate Backed(r: Register) {
    && r.claims.Keys <= r.used
    && (forall k | k in r.grants :: r.grants[k].id in r.used)
    && (forall id | id in r.claims && r.clock < r.claims[id].until ::
          r.claims[id].key in r.grants && r.grants[r.claims[id].key] == Grant(id, r.claims[id].until))
  }

  lemma StepKeepsBacked(r: Register, a: Action, r': Register)
    requires Backed(r) && Step(r, a, r')
    ensures Backed(r')
  {
  }

  /** At most one claim per key is unlapsed. */
  ghost predicate Exclusive(r: Register) {
    forall i, j | i in r.claims && j in r.claims && i != j && r.claims[i].key == r.claims[j].key ::
      r.claims[i].until <= r.clock || r.claims[j].until <= r.clock
  }

  lemma BackedIsExclusive(r: Register)
    requires Backed(r)
    ensures Exclusive(r)
  {
  }
}
