/**
 The 16-bit checksums: CRC-16/KERMIT, and the FCS-16 of section C.2 of RFC 1662, which
 shares its step and differs in seed, complement and residual. The register may be
 wider in a build; its upper bits stay clear.
 */
module Crc {
  import opened Common
  import opened Checksum

  function Bit(x: bv16): bv16 {
    if x & 1 == 1 then (x >> 1) ^ 0x8408 else x >> 1
  }

  function Bits(x: bv16, n: nat): bv16
    decreases n
  {
    if n == 0 then x else Bits(Bit(x), n - 1)
  }

  /** The step on an octet held as bits. */
  function StepBits(crc: bv16, b: bv8): bv16 {
    Bits(crc ^ (b as bv16), 8)
  }

  function LowBits(x: bv16): bv8 {
    (x & 0xff) as bv8
  }

  function Low(x: bv16): Octet {
    LowBits(x) as int
  }

  /** One octet. */
  function Step(crc: bv16, data: Octet): bv16 {
    StepBits(crc, data as bv8)
  }

  /** The step as it is computed, bit by bit in place. */
  method CrcByte(crc: bv16, data: Octet) returns (r: bv16)
    ensures r == Step(crc, data)
  {
    r := crc ^ ((data as bv8) as bv16);
    for i := 0 to 8
      invariant Bits(r, 8 - i) == Step(crc, data)
    {
      r := if r & 1 == 1 then (r >> 1) ^ 0x8408 else r >> 1;
    }
  }

  const KERMIT: Csum<bv16> := Csum(true, 2, 0, Step, x => x, Low, x => x >> 8, x => x == 0)
  const FCS16: Csum<bv16> := Csum(true, 2, 0xffff, Step, x => !x, Low, x => x >> 8, x => x == 0xf0b8)

  // ----- the residual law

  lemma OctetBack(b: bv8)
    ensures (b as int) as bv8 == b
  {
  }

  /** Folding in an octet of a register needs no detour over its value. */
  lemma StepLow(x: bv16, w: bv16)
    ensures Step(x, Low(w)) == StepBits(x, LowBits(w))
  {
    OctetBack(LowBits(w));
  }

  function Eight(x: bv16): bv16 {
    Bit(Bit(Bit(Bit(Bit(Bit(Bit(Bit(x))))))))
  }

  lemma StepIsEight(x: bv16, b: bv8)
    ensures StepBits(x, b) == Eight(x ^ (b as bv16))
  {
  }

  lemma KermitCancels(x: bv16)
    ensures StepBits(StepBits(x, LowBits(x)), LowBits(x >> 8)) == 0
  {
    StepIsEight(x, LowBits(x));
    StepIsEight(Eight(x ^ (LowBits(x) as bv16)), LowBits(x >> 8));
  }

  lemma FcsSettles(x: bv16)
    ensures StepBits(StepBits(x, LowBits(!x)), LowBits(!x >> 8)) == 0xf0b8
  {
    StepIsEight(x, LowBits(!x));
    StepIsEight(Eight(x ^ (LowBits(!x) as bv16)), LowBits(!x >> 8));
  }

  /** Folding the two octets of a wire value w into a register x. */
  lemma WireFolds<T>(a: Csum<T>, x: T, w: T)
    requires a.on
    ensures Sum(a, x, Little(a, w, 2)) == a.step(a.step(x, a.low(w)), a.low(a.shift(w)))
  {
    var s := Little(a, w, 2);
    assert s[1..] == Little(a, a.shift(w), 1);
    assert s[1..][1..] == [];
    var y := a.step(x, s[0]);
    assert Sum(a, y, s[1..]) == Sum(a, a.step(y, s[1]), s[1..][1..]);
  }

  /** What a register becomes when its own wire value is folded in. */
  predicate Settles<T>(a: Csum<T>, x: T) {
    a.ok(a.step(a.step(x, a.low(a.toWire(x))), a.low(a.shift(a.toWire(x)))))
  }

  /** The law follows from what two octets of wire value do to any register. */
  lemma ResidualFrom<T(!new)>(a: Csum<T>)
    requires a.on && a.octets == 2 && forall x :: Settles(a, x)
    ensures Residual(a)
  {
    forall body: seq<Octet> ensures Intact(a, Sum(a, a.init, Sealed(a, body))) {
      var x := Sum(a, a.init, body);
      SumAppend(a, a.init, body, Wire(a, x));
      WireFolds(a, x, a.toWire(x));
      assert Settles(a, x);
    }
  }

  lemma KermitOctets(x: bv16)
    ensures Settles(KERMIT, x)
  {
    StepLow(x, x);
    StepLow(Step(x, Low(x)), x >> 8);
    KermitCancels(x);
  }

  lemma FcsOctets(x: bv16)
    ensures Settles(FCS16, x)
  {
    StepLow(x, !x);
    StepLow(Step(x, Low(!x)), !x >> 8);
    FcsSettles(x);
  }

  /** Every message with its CRC behind it leaves the residual 0. */
  lemma KermitResidual()
    ensures Residual(KERMIT)
  {
    forall x ensures Settles(KERMIT, x) {
      KermitOctets(x);
    }
    ResidualFrom(KERMIT);
  }

  /** Every message with its complemented FCS behind it leaves 0xf0b8. */
  lemma FcsResidual()
    ensures Residual(FCS16)
  {
    forall x ensures Settles(FCS16, x) {
      FcsOctets(x);
    }
    ResidualFrom(FCS16);
  }

  // ----- check values

  /** The message published check values are given for: the digits 1 to 9. */
  const DIGITS: seq<Octet> := [0x31, 0x32, 0x33, 0x34, 0x35, 0x36, 0x37, 0x38, 0x39]

  /** Registers that follow from one another octet by octet. */
  predicate Passes(a: Csum<bv16>, regs: seq<bv16>, s: seq<Octet>) {
    |regs| == |s| + 1 && forall i :: 0 <= i < |s| ==> a.step(regs[i], s[i]) == regs[i + 1]
  }

  lemma {:induction false} SumPasses(a: Csum<bv16>, regs: seq<bv16>, s: seq<Octet>)
    requires a.on && Passes(a, regs, s)
    ensures Sum(a, regs[0], s) == regs[|s|]
    decreases |s|
  {
    if s != [] {
      SumPasses(a, regs[1..], s[1..]);
    }
  }

  const KERMIT_REGS: seq<bv16> :=
    [0, 0x200a, 0xbdeb, 0x5a78, 0x8832, 0x7437, 0x11fd, 0x6947, 0x8b19, 0x2189]

  const FCS_REGS: seq<bv16> :=
    [0xffff, 0x2f8d, 0x4d53, 0x634b, 0x8b13, 0x44bf, 0x198d, 0x1ac8, 0xf795, 0x6f91]

  predicate Nine(a: Csum<bv16>, r: seq<bv16>, s: seq<Octet>) {
    && |r| == 10 && |s| == 9
    && a.step(r[0], s[0]) == r[1] && a.step(r[1], s[1]) == r[2] && a.step(r[2], s[2]) == r[3]
    && a.step(r[3], s[3]) == r[4] && a.step(r[4], s[4]) == r[5] && a.step(r[5], s[5]) == r[6]
    && a.step(r[6], s[6]) == r[7] && a.step(r[7], s[7]) == r[8] && a.step(r[8], s[8]) == r[9]
  }

  lemma KermitSteps()
    ensures Step(0, 0x31) == 0x200a && Step(0x200a, 0x32) == 0xbdeb && Step(0xbdeb, 0x33) == 0x5a78
    ensures Step(0x5a78, 0x34) == 0x8832 && Step(0x8832, 0x35) == 0x7437 && Step(0x7437, 0x36) == 0x11fd
    ensures Step(0x11fd, 0x37) == 0x6947 && Step(0x6947, 0x38) == 0x8b19 && Step(0x8b19, 0x39) == 0x2189
  {
  }

  lemma KermitRegisters()
    ensures Nine(KERMIT, KERMIT_REGS, DIGITS)
  {
    KermitSteps();
  }

  lemma FcsSteps()
    ensures Step(0xffff, 0x31) == 0x2f8d && Step(0x2f8d, 0x32) == 0x4d53 && Step(0x4d53, 0x33) == 0x634b
    ensures Step(0x634b, 0x34) == 0x8b13 && Step(0x8b13, 0x35) == 0x44bf && Step(0x44bf, 0x36) == 0x198d
    ensures Step(0x198d, 0x37) == 0x1ac8 && Step(0x1ac8, 0x38) == 0xf795 && Step(0xf795, 0x39) == 0x6f91
  {
  }

  lemma FcsRegisters()
    ensures Nine(FCS16, FCS_REGS, DIGITS)
  {
    FcsSteps();
  }

  lemma NinePass(a: Csum<bv16>, r: seq<bv16>, s: seq<Octet>)
    requires Nine(a, r, s)
    ensures Passes(a, r, s)
  {
  }

  /** CRC-16/KERMIT: 0x2189. */
  lemma KermitCheckValue()
    ensures Final(KERMIT, Sum(KERMIT, KERMIT.init, DIGITS)) == 0x2189
  {
    KermitRegisters();
    NinePass(KERMIT, KERMIT_REGS, DIGITS);
    SumPasses(KERMIT, KERMIT_REGS, DIGITS);
  }

  /** The FCS-16, published as CRC-16/X-25: 0x906e. */
  lemma FcsCheckValue()
    ensures Final(FCS16, Sum(FCS16, FCS16.init, DIGITS)) == 0x906e
  {
    FcsRegisters();
    NinePass(FCS16, FCS_REGS, DIGITS);
    SumPasses(FCS16, FCS_REGS, DIGITS);
  }

  // ----- a single changed octet

  /** No two registers, and no two octets, are folded to the same value. */
  ghost predicate Reversible<T(!new)>(a: Csum<T>) {
    && (forall x, y, c :: a.step(x, c) == a.step(y, c) ==> x == y)
    && (forall x, c, d :: a.step(x, c) == a.step(x, d) ==> c == d)
    && (forall x, y :: a.ok(x) && a.ok(y) ==> x == y)
  }

  lemma {:induction false} DifferenceLasts<T(!new)>(a: Csum<T>, x: T, y: T, s: seq<Octet>)
    requires Reversible(a) && a.on && x != y
    ensures Sum(a, x, s) != Sum(a, y, s)
    decreases |s|
  {
    if s != [] {
      DifferenceLasts(a, a.step(x, s[0]), a.step(y, s[0]), s[1..]);
    }
  }

  /** Changing one octet anywhere, the checksum's own included, is always seen. */
  lemma OneChangeIsSeen<T(!new)>(a: Csum<T>, s: seq<Octet>, i: nat, c: Octet)
    requires Reversible(a) && a.on && i < |s| && c != s[i]
    requires Intact(a, Sum(a, a.init, s))
    ensures !Intact(a, Sum(a, a.init, s[i := c]))
  {
    var t := s[i := c];
    var x := Sum(a, a.init, s[..i]);
    assert s == s[..i] + s[i..] && t == s[..i] + t[i..];
    SumAppend(a, a.init, s[..i], s[i..]);
    SumAppend(a, a.init, s[..i], t[i..]);
    assert s[i..][1..] == t[i..][1..];
    DifferenceLasts(a, a.step(x, s[i]), a.step(x, c), s[i..][1..]);
  }

  lemma XorKeeps(x: bv16, b: bv8, d: bv8)
    requires x ^ (b as bv16) == x ^ (d as bv16)
    ensures b == d
  {
  }

  lemma {:induction false} BitsInjective(x: bv16, y: bv16, n: nat)
    requires Bits(x, n) == Bits(y, n)
    ensures x == y
    decreases n
  {
    if n != 0 {
      BitsInjective(Bit(x), Bit(y), n - 1);
    }
  }

  lemma StepKeepsRegister(x: bv16, y: bv16, b: bv8)
    requires StepBits(x, b) == StepBits(y, b)
    ensures x == y
  {
    BitsInjective(x ^ (b as bv16), y ^ (b as bv16), 8);
  }

  lemma StepKeepsBits(x: bv16, b: bv8, d: bv8)
    requires StepBits(x, b) == StepBits(x, d)
    ensures b == d
  {
    BitsInjective(x ^ (b as bv16), x ^ (d as bv16), 8);
    XorKeeps(x, b, d);
  }

  lemma BitsCount(b: bv8)
    requires b != 255
    ensures (b + 1) as int == b as int + 1
  {
  }

  /** Counting up from zero reaches every octet. */
  lemma {:induction false} Reached(c: Octet) returns (b: bv8)
    ensures b as int == c
    decreases c
  {
    if c == 0 {
      b := 0;
    } else {
      b := Reached(c - 1);
      BitsCount(b);
      b := b + 1;
    }
  }

  lemma OctetKept(c: Octet)
    ensures (c as bv8) as int == c
  {
    var b := Reached(c);
    OctetBack(b);
  }

  lemma StepKeepsOctet(x: bv16, c: Octet, d: Octet)
    requires Step(x, c) == Step(x, d)
    ensures c == d
  {
    StepKeepsBits(x, c as bv8, d as bv8);
    OctetKept(c);
    OctetKept(d);
  }

  lemma BothReversible()
    ensures Reversible(KERMIT) && Reversible(FCS16)
  {
    forall x, y, c | Step(x, c) == Step(y, c) ensures x == y {
      StepKeepsRegister(x, y, c as bv8);
    }
    forall x, c, d | Step(x, c) == Step(x, d) ensures c == d {
      StepKeepsOctet(x, c, d);
    }
  }
}
