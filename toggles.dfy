// `for record in self: record.flag = not record.flag` over a recordset,
// which may name the same record more than once.
module Toggles {
  /** `b` negated once for each of `n` visits. */
  function Flipped(b: bool, n: nat): (r: bool)
    ensures n % 2 == 0 ==> r == b
    ensures n % 2 == 1 ==> r == !b
  {
    if n == 0 then b else !Flipped(b, n - 1)
  }

  /** Visiting a record once more negates it once more. */
  lemma FlippedStep(b: bool, n: nat)
    ensures Flipped(b, n + 1) == !Flipped(b, n)
  {
  }

  /** Two runs over the same records are no run at all. */
  lemma FlippedTwice(b: bool, n: nat)
    ensures Flipped(Flipped(b, n), n) == b
  {
  }

  /** How often position `i` occurs in the recordset `sel`. */
  function Visits(sel: seq<nat>, i: nat): nat {
    multiset(sel)[i]
  }

  lemma VisitsSnoc(sel: seq<nat>, x: nat, i: nat)
    ensures Visits(sel + [x], i) == Visits(sel, i) + (if i == x then 1 else 0)
  {
    assert multiset(sel + [x]) == multiset(sel) + multiset{x};
  }
}
