/**
 Consistent overhead byte stuffing, after Cheshire and Baker, as a function on whole
 messages, with the facts a receiver and a transport rely on.
 */
module Cobs {
  import opened Common

  const BLOCK := 254

  /** How many octets stand before the first zero. */
  function Run(s: seq<Octet>): (k: nat)
    ensures k <= |s|
    ensures forall i :: 0 <= i < k ==> s[i] != 0
    ensures k < |s| ==> s[k] == 0
  {
    if s == [] || s[0] == 0 then 0 else 1 + Run(s[1..])
  }

  /** How many of them one group takes. */
  function Span(s: seq<Octet>): (k: nat)
    ensures k <= |s| && k <= BLOCK
    ensures forall i :: 0 <= i < k ==> s[i] != 0
    ensures k < BLOCK && k < |s| ==> s[k] == 0
  {
    if Run(s) < BLOCK then Run(s) else BLOCK
  }

  /** What remains behind a group of k octets: a full group swallows no zero. */
  function Later(s: seq<Octet>, k: nat): seq<Octet>
    requires k < |s|
  {
    if k == BLOCK then s[k..] else s[k + 1..]
  }

  /** The encoding of a message, without the delimiter that ends the frame: one
      group after another. */
  function Encode(s: seq<Octet>): (r: seq<Octet>)
    decreases |s|, 1
  {
    [Span(s) + 1] + s[..Span(s)] + Onward(s, Span(s))
  }

  /** What follows a group of k octets. */
  function Onward(s: seq<Octet>, k: nat): (r: seq<Octet>)
    requires k <= |s|
    decreases |s|, 0
  {
    if k == |s| then [] else Encode(Later(s, k))
  }

  predicate NoZero(s: seq<Octet>) {
    forall i :: 0 <= i < |s| ==> s[i] != 0
  }

  /** The delimiter cannot occur in an encoded message. */
  lemma {:induction false} EncodedHasNoZero(s: seq<Octet>)
    ensures NoZero(Encode(s))
    decreases |s|
  {
    var k := Span(s);
    assert NoZero([k + 1] + s[..k]);
    if k < |s| {
      EncodedHasNoZero(Later(s, k));
    }
  }

  /** Room for a frame of n octets, delimiter included. */
  function EncodedMax(n: nat): nat {
    n + n / BLOCK + 2
  }

  lemma {:induction false} EncodedLength(s: seq<Octet>)
    ensures |s| + 1 <= |Encode(s)| < EncodedMax(|s|)
    decreases |s|
  {
    var k := Span(s);
    if k < |s| {
      EncodedLength(Later(s, k));
    }
  }

  /** The length a transport announces before it sends n octets. */
  function WireLen(n: nat): nat {
    if n == 0 then 1 else n + (n + BLOCK - 2) / (BLOCK - 1) + 1
  }

  /** A frame with its delimiter is never longer than announced. Nothing is not a
      frame: one octet is announced for it, and its encoding would take two. */
  lemma AnnouncedLengthSuffices(s: seq<Octet>)
    ensures |Encode(s)| + 1 <= WireLen(|s|) <==> s != []
  {
    EncodedLength(s);
    var n := |s|;
    var q, c := n / BLOCK, (n + BLOCK - 2) / (BLOCK - 1);
    assert (BLOCK - 1) * c >= n >= BLOCK * q;
  }

  /** The announcement fits the room for a frame of its size on exactly these sizes. */
  lemma AnnouncementFits(n: nat)
    requires 0 < n
    ensures WireLen(n) <= EncodedMax(n) <==> n / BLOCK + n % BLOCK < BLOCK
  {
    var q, r, c := n / BLOCK, n % BLOCK, (n + BLOCK - 2) / (BLOCK - 1);
    assert n == BLOCK * q + r;
    assert (BLOCK - 1) * c >= n > (BLOCK - 1) * (c - 1);
  }

  lemma FirstMisfit()
    ensures WireLen(507) > EncodedMax(507)
    ensures forall n :: 0 < n < 507 ==> WireLen(n) <= EncodedMax(n)
  {
    forall n | 0 < n < 507 ensures WireLen(n) <= EncodedMax(n) {
      AnnouncementFits(n);
    }
  }
}
