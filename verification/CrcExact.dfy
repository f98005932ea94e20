/**
 Nothing but a sealed message passes either 16-bit checksum. The step is linear, so two
 registers alike but for their low octets differ in the high one after it, which the
 second octet of a wire value cannot make up for.
 */
module CrcExact {
  import opened Common
  import opened Checksum
  import opened Crc

  function Xor(x: bv16, y: bv16): bv16 {
    x ^ y
  }

  lemma XorParts(x: bv16, y: bv16)
    ensures (x ^ y) >> 1 == (x >> 1) ^ (y >> 1) && (x ^ y) & 1 == (x & 1) ^ (y & 1)
    ensures x & 1 == 0 || x & 1 == 1
  {
  }

  lemma XorMask(a: bv16, b: bv16, k: bv16)
    ensures (a ^ k) ^ (b ^ k) == a ^ b && (a ^ k) ^ b == (a ^ b) ^ k && a ^ (b ^ k) == (a ^ b) ^ k
  {
  }

  lemma BitLinear(x: bv16, y: bv16)
    ensures Bit(Xor(x, y)) == Xor(Bit(x), Bit(y))
  {
    XorParts(x, y);
    XorParts(y, x);
    XorMask(x >> 1, y >> 1, 0x8408);
  }

  function Times<T>(f: T -> T, x: T, n: nat): T
    decreases n
  {
    if n == 0 then x else Times(f, f(x), n - 1)
  }

  /** What is linear stays so when repeated. */
  lemma {:induction false} TimesLinear<T(!new)>(f: T -> T, op: (T, T) -> T, x: T, y: T, n: nat)
    requires forall a, b :: f(op(a, b)) == op(f(a), f(b))
    ensures Times(f, op(x, y), n) == op(Times(f, x, n), Times(f, y, n))
    decreases n
  {
    if n != 0 {
      TimesLinear(f, op, f(x), f(y), n - 1);
    }
  }

  lemma {:induction false} BitsAreTimes(x: bv16, n: nat)
    ensures Bits(x, n) == Times(Bit, x, n)
    decreases n
  {
    if n != 0 {
      BitsAreTimes(Bit(x), n - 1);
    }
  }

  lemma BitsLinear(x: bv16, y: bv16, n: nat)
    ensures Bits(x ^ y, n) == Bits(x, n) ^ Bits(y, n)
  {
    forall a, b ensures Bit(Xor(a, b)) == Xor(Bit(a), Bit(b)) {
      BitLinear(a, b);
    }
    TimesLinear(Bit, Xor, x, y, n);
    BitsAreTimes(x ^ y, n);
    BitsAreTimes(x, n);
    BitsAreTimes(y, n);
  }

  /** Eight bits folded in show in the high octet. */
  lemma HighOctet(w: bv16)
    requires w >> 8 == 0 && Eight(w) >> 8 == 0
    ensures w == 0
  {
  }

  lemma HighBits(w: bv16, n: nat)
    requires n == 8 && w >> 8 == 0 && Bits(w, n) >> 8 == 0
    ensures w == 0
  {
    BitsEight(w);
    HighOctet(w);
  }

  lemma BitsEight(x: bv16)
    ensures Bits(x, 8) == Eight(x)
  {
  }

  lemma XorZero(u: bv16, v: bv16)
    ensures u ^ v == 0 ==> u == v
  {
  }

  /** Registers that differ by w, in the low octet alone, differ by t in the high one
      afterwards. */
  lemma HighAlike(u: bv16, v: bv16, w: bv16, t: bv16, n: nat)
    requires n == 8 && w == u ^ v && w >> 8 == 0 && t >> 8 == 0 && t == Bits(u, n) ^ Bits(v, n)
    ensures u == v
  {
    BitsLinear(u, v, n);
    assert Bits(w, n) == t;
    assert w == 0 by {
      HighBits(w, n);
    }
    XorZero(u, v);
  }

  lemma FirstOctet(x: bv16, u: bv16, v: bv16, b: bv8, d: bv8, n: nat)
    requires n == 8 && u == x ^ (b as bv16) && v == x ^ (d as bv16) && (Bits(u, n) ^ Bits(v, n)) >> 8 == 0
    ensures b == d
  {
    LowAlike(x, b, d);
    HighAlike(u, v, u ^ v, Bits(u, n) ^ Bits(v, n), n);
    XorKeeps(x, b, d);
  }

  lemma LowAlike(x: bv16, b: bv8, d: bv8)
    ensures ((x ^ (b as bv16)) ^ (x ^ (d as bv16))) >> 8 == 0
  {
  }

  lemma SecondOctet(y: bv16, z: bv16, b: bv8, d: bv8, n: nat)
    requires Bits(y ^ (b as bv16), n) == Bits(z ^ (d as bv16), n)
    ensures (y ^ z) >> 8 == 0 && (y == z ==> b == d)
  {
    BitsInjective(y ^ (b as bv16), z ^ (d as bv16), n);
    OctetsApart(y, z, b, d);
  }

  lemma OctetsApart(y: bv16, z: bv16, b: bv8, d: bv8)
    requires y ^ (b as bv16) == z ^ (d as bv16)
    ensures (y ^ z) >> 8 == 0 && (y == z ==> b == d)
  {
  }

  lemma StepIsBits(x: bv16, b: bv8, n: nat)
    requires n == 8
    ensures StepBits(x, b) == Bits(x ^ (b as bv16), n)
  {
  }

  /** Two octets take a register to a given value in one way only. */
  lemma TwoOctets(x: bv16, y: bv16, z: bv16, b: bv8, b': bv8, d: bv8, d': bv8)
    requires y == StepBits(x, b) && z == StepBits(x, d) && StepBits(y, b') == StepBits(z, d')
    ensures b == d && b' == d'
  {
    StepIsBits(y, b', 8);
    StepIsBits(z, d', 8);
    SecondOctet(y, z, b', d', 8);
    StepIsBits(x, b, 8);
    StepIsBits(x, d, 8);
    FirstOctet(x, x ^ (b as bv16), x ^ (d as bv16), b, d, 8);
  }

  lemma TwoStep(x: bv16, c: Octet, c': Octet, d: Octet, d': Octet)
    requires Step(Step(x, c), c') == Step(Step(x, d), d')
    ensures c == d && c' == d'
  {
    TwoOctets(x, Step(x, c), Step(x, d), c as bv8, c' as bv8, d as bv8, d' as bv8);
    OctetKept(c);
    OctetKept(c');
    OctetKept(d);
    OctetKept(d');
  }

  /** Two octets take any register to a given value in one way only, and one value
      passes. */
  ghost predicate Sharp(a: Csum<bv16>) {
    && (forall x, y :: a.ok(x) && a.ok(y) ==> x == y)
    && forall x, c, c', d, d' :: SharpAt(a, x, c, c', d, d')
  }

  predicate SharpAt(a: Csum<bv16>, x: bv16, c: Octet, c': Octet, d: Octet, d': Octet) {
    a.step(a.step(x, c), c') == a.step(a.step(x, d), d') ==> c == d && c' == d'
  }

  lemma SumTwo(a: Csum<bv16>, x: bv16, w: seq<Octet>)
    requires a.on && |w| == 2
    ensures Sum(a, x, w) == a.step(a.step(x, w[0]), w[1])
  {
    assert w[1..][1..] == [];
    assert Sum(a, a.step(x, w[0]), w[1..]) == Sum(a, a.step(a.step(x, w[0]), w[1]), w[1..][1..]);
  }

  lemma TailIs(a: Csum<bv16>, body: seq<Octet>, w: seq<Octet>, u: seq<Octet>)
    requires a.on && Sharp(a) && |w| == 2 && |u| == 2
    requires a.ok(Sum(a, a.init, body + w)) && a.ok(Sum(a, a.init, body + u))
    ensures w == u
  {
    var x := Sum(a, a.init, body);
    SumAppend(a, a.init, body, w);
    SumAppend(a, a.init, body, u);
    SumTwo(a, x, w);
    SumTwo(a, x, u);
    assert SharpAt(a, x, w[0], w[1], u[0], u[1]);
  }

  /** What passes is its first octets sealed. */
  lemma ExactFrom(a: Csum<bv16>, s: seq<Octet>)
    requires a.on && a.octets == 2 && Residual(a) && Sharp(a)
    requires 2 <= |s| && Intact(a, Sum(a, a.init, s))
    ensures s == Sealed(a, s[..|s| - 2])
  {
    var body := s[..|s| - 2];
    assert s == body + s[|s| - 2..];
    assert Intact(a, Sum(a, a.init, Sealed(a, body)));
    TailIs(a, body, s[|s| - 2..], Wire(a, Sum(a, a.init, body)));
  }

  lemma BothSharp()
    ensures Sharp(KERMIT) && Sharp(FCS16)
  {
    forall x, c, c', d, d' ensures SharpAt(KERMIT, x, c, c', d, d') && SharpAt(FCS16, x, c, c', d, d') {
      if Step(Step(x, c), c') == Step(Step(x, d), d') {
        TwoStep(x, c, c', d, d');
      }
    }
  }

  /** For either checksum, what passes is the rest of it, sealed. */
  lemma BothExact()
    ensures Exact(KERMIT) && Exact(FCS16)
  {
    KermitResidual();
    FcsResidual();
    BothSharp();
    forall s: seq<Octet> | 2 <= |s| ensures Intact(KERMIT, Sum(KERMIT, 0, s)) ==> s == Sealed(KERMIT, s[..|s| - 2]) {
      if Intact(KERMIT, Sum(KERMIT, 0, s)) {
        ExactFrom(KERMIT, s);
      }
    }
    forall s: seq<Octet> | 2 <= |s| ensures Intact(FCS16, Sum(FCS16, 0xffff, s)) ==> s == Sealed(FCS16, s[..|s| - 2]) {
      if Intact(FCS16, Sum(FCS16, 0xffff, s)) {
        ExactFrom(FCS16, s);
      }
    }
  }
}
