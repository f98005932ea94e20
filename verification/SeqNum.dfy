/**
 Sequence numbers of a link: arithmetic on IDs modulo the size of the ID space,
 and what it means for the unbounded numbers they stand for.

 An ID lies below the modulus, so the masked subtraction of the program is a
 subtraction with at most one correction.
 */
module SeqNum {

  /** How far x is past y, going up and around: the masked difference x - y. */
  function Dist(m: nat, x: nat, y: nat): (d: nat)
    requires x < m && y < m
    ensures d < m
  {
    if y <= x then x - y else x + m - y
  }

  /** The ID n places after x. */
  function Plus(m: nat, x: nat, n: nat): (r: nat)
    requires x < m && n <= m
    ensures r < m
  {
    if x + n < m then x + n else x + n - m
  }

  function Succ(m: nat, x: nat): (r: nat)
    requires x < m
    ensures r < m
  {
    Plus(m, x, 1)
  }

  function Pred(m: nat, x: nat): (r: nat)
    requires x < m
    ensures r < m
  {
    Dist(m, x, if m == 1 then 0 else 1)
  }

  /** Moving k places up from y, no further than x, brings x k nearer. */
  lemma DistAfter(m: nat, x: nat, y: nat, k: nat)
    requires x < m && y < m && k <= m
    ensures k <= Dist(m, x, y) ==> Dist(m, x, Plus(m, y, k)) == Dist(m, x, y) - k
    ensures Dist(m, Plus(m, y, k), Plus(m, y, k)) == 0
  {
  }

  lemma DistIs(m: nat, x: nat, y: nat, k: nat)
    requires x < m && y < m && k < m
    ensures Dist(m, x, y) == k <==> x == Plus(m, y, k)
  {
  }

  lemma DistPred(m: nat, x: nat, y: nat)
    requires x < m && y < m && x != y
    ensures Dist(m, Pred(m, x), y) == Dist(m, x, y) - 1
  {
  }

  /** n modulo m, as the program gets it by masking: the ID a sequence number
      goes out under, the slot an ID is kept in. */
  function Wrap(m: nat, n: nat): (r: nat)
    requires 0 < m
    ensures r < m
    decreases n
  {
    if n < m then n else Wrap(m, n - m)
  }

  /** Masking leaves a remainder. */
  lemma {:induction false} WrapIsRemainder(m: nat, n: nat) returns (q: nat)
    requires 0 < m
    ensures n == q * m + Wrap(m, n)
    decreases n
  {
    q := 0;
    if m <= n {
      q := WrapIsRemainder(m, n - m);
      q := q + 1;
    }
  }

  lemma {:induction false} WrapPlus(m: nat, a: nat, n: nat)
    requires 0 < m && n <= m
    ensures Plus(m, Wrap(m, a), n) == Wrap(m, a + n)
    decreases a
  {
    if a < m {
      if m <= a + n {
        assert Wrap(m, a + n) == Wrap(m, a + n - m);
        assert n == m ==> Wrap(m, a + n - m) == a;
      }
    } else {
      WrapPlus(m, a - m, n);
    }
  }

  /** Within one turn of the ID space, IDs are as far apart as their numbers. */
  lemma {:induction false} WrapDist(m: nat, a: nat, b: nat)
    requires 0 < m && b <= a < b + m
    ensures Dist(m, Wrap(m, a), Wrap(m, b)) == a - b
  {
    WrapPlus(m, b, a - b);
  }

  /** A number behind shows as one almost a whole turn ahead. */
  lemma {:induction false} WrapBehind(m: nat, a: nat, b: nat)
    requires 0 < m && a < b <= a + m
    ensures Dist(m, Wrap(m, a), Wrap(m, b)) == (if b == a + m then 0 else m - (b - a))
  {
    WrapPlus(m, a, b - a);
  }

  lemma WrapPred(m: nat, a: nat)
    requires 1 < m
    ensures Pred(m, Wrap(m, a + 1)) == Wrap(m, a)
  {
    WrapPlus(m, a, 1);
  }

  lemma WrapEqual(m: nat, a: nat, b: nat)
    requires 0 < m && a < b + m && b < a + m
    ensures Wrap(m, a) == Wrap(m, b) <==> a == b
  {
    if b <= a {
      WrapDist(m, a, b);
    } else {
      WrapDist(m, b, a);
    }
  }
}
