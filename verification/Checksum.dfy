/**
 The checksum a link runs, as the framings see it: a register folded octet by octet,
 turned into its wire value, shifted out low octet first, and recognised at the other
 end by the residual it leaves once its own octets have been folded in.
 */
module Checksum {
  import opened Common

  /** An algorithm over registers of type T; one that is not on is none at all. */
  datatype Csum<!T> = Csum(
    on: bool, octets: nat, init: T, step: (T, Octet) -> T, toWire: T -> T,
    low: T -> Octet, shift: T -> T, ok: T -> bool)

  function Width<T>(a: Csum<T>): nat {
    if a.on then a.octets else 0
  }

  function Add<T>(a: Csum<T>, csum: T, c: Octet): T {
    if a.on then a.step(csum, c) else csum
  }

  function Final<T>(a: Csum<T>, csum: T): T {
    if a.on then a.toWire(csum) else csum
  }

  function Sum<T>(a: Csum<T>, csum: T, s: seq<Octet>): T
    decreases |s|
  {
    if s == [] then csum else Sum(a, Add(a, csum, s[0]), s[1..])
  }

  lemma {:induction false} SumAppend<T>(a: Csum<T>, csum: T, s: seq<Octet>, t: seq<Octet>)
    ensures Sum(a, csum, s + t) == Sum(a, Sum(a, csum, s), t)
    decreases |s|
  {
    if s == [] {
      assert s + t == t;
    } else {
      assert (s + t)[1..] == s[1..] + t;
      SumAppend(a, Add(a, csum, s[0]), s[1..], t);
    }
  }

  /** The first n octets shifted out of a register. */
  function Little<T>(a: Csum<T>, v: T, n: nat): (r: seq<Octet>)
    ensures |r| == n
    decreases n
  {
    if n == 0 then [] else [a.low(v)] + Little(a, a.shift(v), n - 1)
  }

  /** Octet k of a register. */
  function OctetOf<T>(a: Csum<T>, v: T, k: nat): Octet {
    if k == 0 then a.low(v) else OctetOf(a, a.shift(v), k - 1)
  }

  lemma {:induction false} LittleAt<T>(a: Csum<T>, v: T, n: nat, k: nat)
    requires k < n
    ensures Little(a, v, n)[k] == OctetOf(a, v, k)
    decreases n
  {
    if k != 0 {
      LittleAt(a, a.shift(v), n - 1, k - 1);
    }
  }

  /** The octets that go out behind a body that sums to csum. */
  function Wire<T>(a: Csum<T>, csum: T): (r: seq<Octet>)
    ensures |r| == Width(a)
  {
    Little(a, Final(a, csum), Width(a))
  }

  /** A body with its checksum behind it. */
  function Sealed<T>(a: Csum<T>, body: seq<Octet>): (s: seq<Octet>)
    ensures |s| == |body| + Width(a)
  {
    body + Wire(a, Sum(a, a.init, body))
  }

  /** What the receiving end tests. */
  predicate Intact<T>(a: Csum<T>, csum: T) {
    a.on ==> a.ok(csum)
  }

  /** The law an algorithm must obey for its frames to be accepted. */
  ghost predicate Residual<T>(a: Csum<T>) {
    forall body: seq<Octet> :: Intact(a, Sum(a, a.init, Sealed(a, body)))
  }

  /** Nothing else is accepted: what passes is the rest of it, sealed. */
  ghost predicate Exact<T(!new)>(a: Csum<T>) {
    forall s: seq<Octet> :: Width(a) <= |s| && Intact(a, Sum(a, a.init, s)) ==> s == Sealed(a, s[..|s| - Width(a)])
  }
}
