/**
 The book-keeping that the Cosmos DB and DynamoDB coordinators share: the mutex-guarded
 `held` set of a Coordinator, the closing flag, and the one conditional delete that disposes
 of a lease. A lease is named by the tag of the store write that won it.

 `Ledger` is the fleet-wide value the protocol state machines step over; `Coordinator` is the
 object of one process, whose methods are the mutex sections as the program runs them.
 */
module LeaseLedger {
  type Proc = nat
  type Tag = nat

  /** Everything the processes of a fleet know about the leases they have won. */
  datatype Ledger = Ledger(
    owner: map<Tag, Proc>,    // every lease ever won, and the process that won it
    pending: set<Tag>,        // won in the store, recordHeld not yet entered
    held: set<Tag>,           // in the `held` set of their coordinator
    deleting: set<Tag>,       // conditional delete issued, not yet finished
    closed: set<Proc>,        // coordinators whose Close has run its mutex section
    issued: multiset<Tag>)    // conditional deletes issued so far
  {
    /** Leases some process is still entitled to act on. */
    function Claimed(): set<Tag>
      requires Placed()
    {
      held + (set t | t in pending && owner[t] !in closed)
    }

    /** Every lease is in one place only. */
    ghost predicate Placed() {
      && pending <= owner.Keys && held <= owner.Keys && deleting <= owner.Keys
      && pending !! held && pending !! deleting && held !! deleting
      && (forall t | t in held :: owner[t] !in closed)
    }

    /** One delete has been issued for exactly the leases that were won and are no longer kept. */
    ghost predicate Counted() {
      forall t :: issued[t] == if t in owner && t !in pending && t !in held then 1 else 0
    }

    ghost predicate Consistent() {
      Placed() && Counted()
    }

    /** The store accepted process p's write t. */
    function Win(t: Tag, p: Proc): Ledger
    {
      this.(owner := owner[t := p], pending := pending + {t})
    }

    /** recordHeld: keep the lease, or dispose of it at once when the coordinator has closed. */
    function Record(t: Tag): Ledger
      requires t in owner
    {
      if owner[t] in closed
      then this.(pending := pending - {t}, deleting := deleting + {t}, issued := issued + multiset{t})
      else this.(pending := pending - {t}, held := held + {t})
    }

    /** The mutex section of a release func: a lease no longer held is left alone. */
    function Release(t: Tag): Ledger
    {
      if t !in held then this
      else this.(held := held - {t}, deleting := deleting + {t}, issued := issued + multiset{t})
    }

    /** The leases process p has in its `held` set. */
    function HeldBy(p: Proc): set<Tag>
    {
      set t | t in held && t in owner && owner[t] == p
    }

    /** The mutex section of Close: a second Close finds nothing to do. */
    function Close(p: Proc): Ledger
    {
      if p in closed then this
      else this.(held := held - HeldBy(p), deleting := deleting + HeldBy(p),
                 closed := closed + {p}, issued := issued + multiset(HeldBy(p)))
    }

    /** A conditional delete has returned. */
    function Finish(t: Tag): Ledger
    {
      this.(deleting := deleting - {t})
    }

    /** Nothing of process p is in flight. */
    ghost predicate Quiet(p: Proc) {
      forall t | t in pending || t in deleting :: t in owner && owner[t] != p
    }
  }

  const Empty := Ledger(map[], {}, {}, {}, {}, multiset{})

  lemma EmptyIsConsistent()
    ensures Empty.Consistent()
  {
  }

  lemma WinKeeps(g: Ledger, t: Tag, p: Proc)
    requires g.Placed() && t !in g.owner
    ensures g.Win(t, p).Placed() && (g.Counted() ==> g.Win(t, p).Counted())
    ensures g.Win(t, p).Claimed() == if p in g.closed then g.Claimed() else g.Claimed() + {t}
  {
  }

  lemma RecordKeeps(g: Ledger, t: Tag)
    requires g.Placed() && t in g.pending
    ensures g.Record(t).Placed() && (g.Counted() ==> g.Record(t).Counted())
    ensures g.Record(t).Claimed() == g.Claimed()
  {
  }

  lemma ReleaseKeeps(g: Ledger, t: Tag)
    requires g.Placed()
    ensures g.Release(t).Placed() && (g.Counted() ==> g.Release(t).Counted())
    ensures g.Release(t).Claimed() == g.Claimed() - (if t in g.held then {t} else {})
  {
  }

  lemma CloseKeeps(g: Ledger, p: Proc)
    requires g.Placed()
    ensures g.Close(p).Placed() && (g.Counted() ==> g.Close(p).Counted())
    ensures g.Close(p).Claimed() == g.Claimed() - (set t | t in g.Claimed() && g.owner[t] == p)
  {
  }

  lemma FinishKeeps(g: Ledger, t: Tag)
    requires g.Placed()
    ensures g.Finish(t).Placed() && (g.Counted() ==> g.Finish(t).Counted())
    ensures g.Finish(t).Claimed() == g.Claimed()
  {
  }

  /** Each won lease gets at most one conditional delete; after a quiet Close it has had exactly one. */
  lemma DisposedOnce(g: Ledger, t: Tag)
    requires g.Consistent()
    ensures g.issued[t] <= 1
    ensures t in g.owner && g.owner[t] in g.closed && g.Quiet(g.owner[t]) ==>
              g.issued[t] == 1 && t !in g.held + g.pending + g.deleting
  {
  }

  // ----- the object of one process -------------------------------------------------------

  /** What one process contributes to the ledger. */
  datatype Book = Book(held: set<Tag>, closed: bool, issued: multiset<Tag>)
  {
    function Record(t: Tag): Book {
      if closed then this.(issued := issued + multiset{t}) else this.(held := held + {t})
    }

    function Release(t: Tag): Book {
      if t !in held then this else this.(held := held - {t}, issued := issued + multiset{t})
    }

    function Close(): Book {
      if closed then this else Book({}, true, issued + multiset(held))
    }
  }

  /** Process p's object shows exactly p's share of the ledger. */
  ghost predicate Shows(g: Ledger, p: Proc, b: Book) {
    && b.held == g.HeldBy(p)
    && b.closed == (p in g.closed)
    && forall t | t in g.owner && g.owner[t] == p :: b.issued[t] == g.issued[t]
  }

  /** recordHeld moves the winner's share as the ledger does, and nobody else's. */
  lemma RecordAgrees(g: Ledger, p: Proc, b: Book, q: Proc, other: Book, t: Tag)
    requires g.Consistent() && Shows(g, p, b) && Shows(g, q, other) && p != q
    requires t in g.pending && g.owner[t] == p
    ensures Shows(g.Record(t), p, b.Record(t)) && Shows(g.Record(t), q, other)
  {
  }

  /** So does a release func. */
  lemma ReleaseAgrees(g: Ledger, p: Proc, b: Book, q: Proc, other: Book, t: Tag)
    requires g.Consistent() && Shows(g, p, b) && Shows(g, q, other) && p != q
    requires t in g.owner && g.owner[t] == p
    ensures Shows(g.Release(t), p, b.Release(t)) && Shows(g.Release(t), q, other)
  {
  }

  /** So does Close. */
  lemma CloseAgrees(g: Ledger, p: Proc, b: Book, q: Proc, other: Book)
    requires g.Consistent() && Shows(g, p, b) && Shows(g, q, other) && p != q
    ensures Shows(g.Close(p), p, b.Close()) && Shows(g.Close(p), q, other)
  {
  }

  /** The Coordinator object: `held` is nil after Close, which is `closed` here. */
  class Coordinator {
    var held: set<Tag>
    var closed: bool
    var deletes: seq<Tag>   // conditional deletes sent to the store, in order

    ghost predicate Valid() reads this {
      closed ==> held == {}
    }

    ghost function View(): Book reads this {
      Book(held, closed, multiset(deletes))
    }

    constructor ()
      ensures Valid() && View() == Book({}, false, multiset{})
    {
      held, closed, deletes := {}, false, [];
    }

    method ConditionalDelete(l: Tag)
      modifies this`deletes
      ensures deletes == old(deletes) + [l]
    {
      deletes := deletes + [l];
    }

    method RecordHeld(l: Tag) returns (acquired: bool)
      requires Valid()
      modifies this
      ensures Valid() && View() == old(View()).Record(l)
      ensures acquired == !old(closed)
    {
      if closed {
        ConditionalDelete(l);
        return false;
      }
      held := held + {l};
      return true;
    }

    method Release(l: Tag)
      requires Valid()
      modifies this
      ensures Valid() && View() == old(View()).Release(l)
    {
      if closed || l !in held {
        return;
      }
      held := held - {l};
      ConditionalDelete(l);
    }

    /** Every lease still held is sent one delete; none is sent two. */
    method Close()
      requires Valid()
      modifies this
      ensures Valid() && View() == old(View()).Close()
      ensures closed
    {
      if closed {
        return;
      }
      var leases := held;
      held, closed := {}, true;
      while leases != {}
        invariant leases <= old(held) && held == {} && closed
        invariant multiset(deletes) + multiset(leases) == old(multiset(deletes)) + multiset(old(held))
        decreases leases
      {
        var l :| l in leases;
        assert multiset(leases) == multiset(leases - {l}) + multiset{l};
        leases := leases - {l};
        ConditionalDelete(l);
      }
    }
  }
}
