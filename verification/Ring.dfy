/**
 The circular window: packets with consecutive IDs in an array indexed by the ID
 modulo the window size, which divides the ID space.
 */
module Ring {
  import opened SeqNum
  import opened Common
  import opened Protocol

  /** The slot of an ID: the masked ID of the program. */
  function SlotOf(c: Config, id: nat): (k: nat)
    requires ValidConfig(c) && id < c.ids
    ensures k < c.window
  {
    Wrap(c.window, id)
  }

  /** The slot of the packet n places after ack. */
  function SlotAt(c: Config, ack: nat, n: nat): (k: nat)
    requires ValidConfig(c) && ack < c.ids && n <= c.window
    ensures k < c.window
  {
    SlotOf(c, Plus(c.ids, ack, n))
  }

  /** The n packets that follow ack. */
  ghost function Held<T>(c: Config, q: seq<T>, ack: nat, n: nat): (w: seq<T>)
    requires ValidConfig(c) && |q| == c.window && ack < c.ids && n <= c.window
    ensures |w| == n
  {
    seq(n, i requires 0 <= i < n => q[SlotAt(c, ack, i + 1)])
  }

  lemma {:induction false} WrapMultiple(m: nat, a: nat, k: nat)
    requires 0 < m && Wrap(m, k) == 0
    ensures Wrap(m, a + k) == Wrap(m, a)
    decreases k
  {
    if k != 0 {
      WrapMultiple(m, a, k - m);
    }
  }

  lemma SlotIs(c: Config, ack: nat, n: nat)
    requires ValidConfig(c) && ack < c.ids && n <= c.window
    ensures SlotAt(c, ack, n) == Wrap(c.window, ack + n)
  {
    if c.ids <= ack + n {
      WrapMultiple(c.window, ack + n - c.ids, c.ids);
    }
  }

  /** The packets of a window never share a slot, whether or not it wraps. */
  lemma SlotsDiffer(c: Config, ack: nat, i: nat, j: nat)
    requires ValidConfig(c) && ack < c.ids && 1 <= i < j <= c.window
    ensures SlotAt(c, ack, i) != SlotAt(c, ack, j)
  {
    SlotIs(c, ack, i);
    SlotIs(c, ack, j);
    WrapEqual(c.window, ack + i, ack + j);
  }

  lemma HeldStore<T>(c: Config, q: seq<T>, ack: nat, n: nat, it: T)
    requires ValidConfig(c) && |q| == c.window && ack < c.ids && n < c.window
    ensures Held(c, q[SlotAt(c, ack, n + 1) := it], ack, n + 1) == Held(c, q, ack, n) + [it]
  {
    forall i | 1 <= i < n + 1 ensures SlotAt(c, ack, i) != SlotAt(c, ack, n + 1) {
      SlotsDiffer(c, ack, i, n + 1);
    }
  }

  lemma SlotShift(c: Config, ack: nat, k: nat, i: nat)
    requires ValidConfig(c) && ack < c.ids && k + i <= c.window
    ensures SlotAt(c, Plus(c.ids, ack, k), i) == SlotAt(c, ack, k + i)
  {
    assert Plus(c.ids, Plus(c.ids, ack, k), i) == Plus(c.ids, ack, k + i);
  }

  lemma HeldDrop<T>(c: Config, q: seq<T>, ack: nat, n: nat)
    requires ValidConfig(c) && |q| == c.window && ack < c.ids && 1 <= n <= c.window
    ensures Held(c, q, Succ(c.ids, ack), n - 1) == Held(c, q, ack, n)[1..]
    ensures Held(c, q, ack, n)[0] == q[SlotOf(c, Succ(c.ids, ack))]
  {
    forall i | 1 <= i < n ensures SlotAt(c, Succ(c.ids, ack), i) == SlotAt(c, ack, 1 + i) {
      SlotShift(c, ack, 1, i);
    }
  }

  /** Writing the slot of place k changes that place alone. */
  lemma HeldWrite<T>(c: Config, q: seq<T>, ack: nat, n: nat, k: nat, it: T)
    requires ValidConfig(c) && |q| == c.window && ack < c.ids && k < n <= c.window
    ensures Held(c, q[SlotAt(c, ack, k + 1) := it], ack, n) == Held(c, q, ack, n)[k := it]
  {
    forall i | 1 <= i <= n && i != k + 1 ensures SlotAt(c, ack, i) != SlotAt(c, ack, k + 1) {
      if i < k + 1 {
        SlotsDiffer(c, ack, i, k + 1);
      } else {
        SlotsDiffer(c, ack, k + 1, i);
      }
    }
  }

  /** The window while its packets move up over the first: k have moved. */
  ghost function MovedUp<T>(w: seq<T>, k: nat): (v: seq<T>)
    requires k < |w|
    ensures |v| == |w|
  {
    w[1..k + 1] + w[k..]
  }

  lemma HeldMoveUp<T>(c: Config, q: seq<T>, ack: nat, w: seq<T>, k: nat)
    requires ValidConfig(c) && |q| == c.window && ack < c.ids && k + 1 < |w| <= c.window
    requires Held(c, q, ack, |w|) == MovedUp(w, k)
    ensures Held(c, q[SlotAt(c, ack, k + 1) := q[SlotAt(c, ack, k + 2)]], ack, |w|) == MovedUp(w, k + 1)
  {
    assert q[SlotAt(c, ack, k + 2)] == Held(c, q, ack, |w|)[k + 1] == w[k + 1];
    HeldWrite(c, q, ack, |w|, k, w[k + 1]);
    assert MovedUp(w, k)[k := w[k + 1]] == MovedUp(w, k + 1);
  }

  lemma HeldMoved<T>(c: Config, q: seq<T>, ack: nat, w: seq<T>)
    requires ValidConfig(c) && |q| == c.window && ack < c.ids && 1 <= |w| <= c.window
    requires Held(c, q, ack, |w|) == MovedUp(w, |w| - 1)
    ensures Held(c, q, ack, |w| - 1) == w[1..]
  {
    assert Held(c, q, ack, |w| - 1) == Held(c, q, ack, |w|)[..|w| - 1];
  }
}
