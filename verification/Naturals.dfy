/** Names that are not in use yet, and remainders. */
module Naturals {
  lemma {:induction false} Above(s: set<nat>) returns (n: nat)
    ensures forall x | x in s :: x < n
    decreases |s|
  {
    if s == {} {
      n := 0;
    } else {
      var x :| x in s;
      n := Above(s - {x});
      if n <= x { n := x + 1; }
      assert forall y | y in s :: y == x || y in s - {x};
    }
  }

  lemma Unused(s: set<nat>) returns (n: nat)
    ensures n !in s
  {
    n := Above(s);
  }

  lemma Multiple(every: int, q: int)
    requires every > 0 && -every < every * q < every
    ensures q == 0
  {
  }

  lemma ModIs(x: nat, every: nat, q: nat, r: nat)
    requires r < every && x == every * q + r
    ensures x % every == r
  {
    var q', r' := x / every, x % every;
    assert x == every * q' + r';
    assert every * (q' - q) == r - r';
    Multiple(every, q' - q);
  }

  /** Counting on by one moves the remainder on by one, or back to zero. */
  lemma SuccessorMod(k: nat, every: nat)
    requires every > 0
    ensures (k + 1) % every == if k % every == every - 1 then 0 else k % every + 1
  {
    var q, r := k / every, k % every;
    assert k == every * q + r;
    if r == every - 1 {
      assert k + 1 == every * (q + 1) + 0;
      ModIs(k + 1, every, q + 1, 0);
    } else {
      ModIs(k + 1, every, q, r + 1);
    }
  }
}
