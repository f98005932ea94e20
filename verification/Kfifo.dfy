/**
 The byte ring between one producer and one consumer, without a lock. A step is one
 load or store of an index, or of one octet of the buffer, and the two threads
 interleave in any way. Indices count octets modulo the range of an unsigned integer.

 Every operation of the ring is a claim on a region followed by the store of an
 index: a put or a copy fills its claim from its argument, the claiming calls let the
 caller do so in place.
 */
module Kfifo {
  import opened Common
  import opened SeqNum
  import Ring

  /** The range of an index, and the size of the buffer, which divides it. */
  datatype Shape = Shape(range: nat, size: nat)

  predicate ValidShape(h: Shape) {
    0 < h.size < h.range && Wrap(h.size, h.range) == 0
  }

  datatype Fifo = Fifo(data: seq<Octet>, inIndex: nat, outIndex: nat)

  /** The producer is idle, has loaded its own index, or holds a claim, with what is
      in the claimed octets now. */
  datatype Producer = Away | Loaded(index: nat) | Claimed(index: nat, staged: seq<Octet>)

  /** The consumer is idle, has loaded the producer's index, which then stood for
      upTo octets, or holds a claim on n octets. */
  datatype Consumer = Apart | Saw(index: nat, upTo: nat) | Reading(index: nat, n: nat)

  /** An octet fetched, and its position in the stream. */
  datatype Got = Got(at: nat, octet: Octet)

  /** With the octets published, how many were released, and those fetched. Octets may
      be fetched more than once or released unread. */
  datatype Sys = Sys(
    fifo: Fifo, prod: Producer, cons: Consumer, written: seq<Octet>, released: nat, got: seq<Got>)

  /** The place of the octet k behind an index: the masked index of the program,
      which a copy in two parts follows around the end. */
  function Place(h: Shape, index: nat, k: nat): (i: nat)
    requires ValidShape(h) && index < h.range && k < h.size
    ensures i < h.size
  {
    Wrap(h.size, Plus(h.range, index, k))
  }

  predicate FifoOk(h: Shape, f: Fifo) {
    ValidShape(h) && |f.data| == h.size && f.inIndex < h.range && f.outIndex < h.range
  }

  /** How full a thread finds the ring with the indices it has loaded. */
  function Fill(h: Shape, inIndex: nat, outIndex: nat): nat
    requires inIndex < h.range && outIndex < h.range
  {
    Dist(h.range, inIndex, outIndex)
  }

  datatype Act =
    | LoadIn | ClaimSpace(n: nat) | Store(k: nat, c: Octet) | Publish(count: nat)
    | SeeIn | ClaimData(n: nat) | Fetch(k: nat) | Release(count: nat)

  /** What the octets of a region hold. */
  function Region(h: Shape, f: Fifo, index: nat, n: nat): (r: seq<Octet>)
    requires FifoOk(h, f) && index < h.range && n <= h.size
    ensures |r| == n
  {
    seq(n, k requires 0 <= k < n => f.data[Place(h, index, k)])
  }

  predicate Enabled(h: Shape, s: Sys, a: Act)
    requires FifoOk(h, s.fifo)
  {
    match a
    case LoadIn => s.prod.Away?
    case ClaimSpace(n) => s.prod.Loaded? && s.prod.index < h.range
        && n + Fill(h, s.prod.index, s.fifo.outIndex) <= h.size
    case Store(k, c) => s.prod.Claimed? && s.prod.index < h.range && k < |s.prod.staged| <= h.size
    case Publish(count) => s.prod.Claimed? && s.prod.index < h.range && count <= |s.prod.staged| <= h.size
    case SeeIn => s.cons.Apart?
    case ClaimData(n) => s.cons.Saw? && s.cons.index < h.range && n <= Fill(h, s.cons.index, s.fifo.outIndex)
    case Fetch(k) => s.cons.Reading? && s.cons.index < h.range && k < s.cons.n <= h.size
    case Release(count) => s.cons.Reading? && s.cons.index < h.range && count <= s.cons.n <= h.size
  }

  function Next(h: Shape, s: Sys, a: Act): Sys
    requires FifoOk(h, s.fifo) && Enabled(h, s, a)
  {
    match a
    case LoadIn => s.(prod := Loaded(s.fifo.inIndex))
    case ClaimSpace(n) => s.(prod := Claimed(s.prod.index, Region(h, s.fifo, s.prod.index, n)))
    case Store(k, c) =>
      s.(fifo := s.fifo.(data := s.fifo.data[Place(h, s.prod.index, k) := c]),
         prod := s.prod.(staged := s.prod.staged[k := c]))
    case Publish(count) =>
      s.(fifo := s.fifo.(inIndex := Plus(h.range, s.prod.index, count)),
         prod := Away, written := s.written + s.prod.staged[..count])
    case SeeIn => s.(cons := Saw(s.fifo.inIndex, |s.written|))
    case ClaimData(n) => s.(cons := Reading(s.fifo.outIndex, n))
    case Fetch(k) => s.(got := s.got + [Got(s.released + k, s.fifo.data[Place(h, s.cons.index, k)])])
    case Release(count) =>
      s.(fifo := s.fifo.(outIndex := Plus(h.range, s.cons.index, count)),
         cons := Apart, released := s.released + count)
  }

  // ----- what every step keeps

  /** The buffer holds these octets from stream position at on. */
  ghost predicate Holds(h: Shape, data: seq<Octet>, at: nat, octets: seq<Octet>)
    requires ValidShape(h) && |data| == h.size
  {
    forall k :: 0 <= k < |octets| ==> data[Wrap(h.size, at + k)] == octets[k]
  }

  ghost predicate ProducerOk(h: Shape, s: Sys)
    requires FifoOk(h, s.fifo)
  {
    match s.prod
    case Away => true
    case Loaded(index) => index == s.fifo.inIndex
    case Claimed(index, staged) =>
      && index == s.fifo.inIndex
      && |s.written| + |staged| <= s.released + h.size
      && Holds(h, s.fifo.data, |s.written|, staged)
  }

  predicate ConsumerOk(h: Shape, s: Sys)
    requires FifoOk(h, s.fifo)
  {
    match s.cons
    case Apart => true
    case Saw(index, upTo) => s.released <= upTo <= |s.written| && index == Wrap(h.range, upTo)
    case Reading(index, n) => index == s.fifo.outIndex && s.released + n <= |s.written|
  }

  /** What was fetched is what was written at that position. */
  predicate GotRight(written: seq<Octet>, g: Got) {
    g.at < |written| && g.octet == written[g.at]
  }

  ghost predicate Inv(h: Shape, s: Sys) {
    && FifoOk(h, s.fifo)
    && s.fifo.inIndex == Wrap(h.range, |s.written|) && s.fifo.outIndex == Wrap(h.range, s.released)
    && s.released <= |s.written| <= s.released + h.size
    && Holds(h, s.fifo.data, s.released, s.written[s.released..])
    && (forall i :: 0 <= i < |s.got| ==> GotRight(s.written, s.got[i]))
    && ProducerOk(h, s) && ConsumerOk(h, s)
  }

  // ----- places

  lemma {:induction false} WrapOfWrap(h: Shape, x: nat)
    requires ValidShape(h)
    ensures Wrap(h.size, Wrap(h.range, x)) == Wrap(h.size, x)
    decreases x
  {
    if h.range <= x {
      WrapOfWrap(h, x - h.range);
      Ring.WrapMultiple(h.size, x - h.range, h.range);
    }
  }

  /** Wrapping twice, by the index range and by the buffer, finds the same place as
      wrapping the unbounded position once. */
  lemma PlaceIs(h: Shape, at: nat, k: nat)
    requires ValidShape(h) && k < h.size
    ensures Place(h, Wrap(h.range, at), k) == Wrap(h.size, at + k)
  {
    WrapPlus(h.range, at, k);
    WrapOfWrap(h, at + k);
  }

  /** How full the ring is found, as a count of octets. */
  lemma FillIs(h: Shape, w: nat, r: nat)
    requires ValidShape(h) && r <= w <= r + h.size
    ensures Fill(h, Wrap(h.range, w), Wrap(h.range, r)) == w - r
  {
    WrapDist(h.range, w, r);
  }

  /** Storing at one position leaves every other within a turn of the buffer alone. */
  lemma StoreElsewhere(h: Shape, data: seq<Octet>, at: nat, octets: seq<Octet>, x: nat, c: Octet)
    requires ValidShape(h) && |data| == h.size && Holds(h, data, at, octets)
    requires at + |octets| <= x < at + h.size
    ensures Holds(h, data[Wrap(h.size, x) := c], at, octets)
  {
    forall k | 0 <= k < |octets| ensures data[Wrap(h.size, x) := c][Wrap(h.size, at + k)] == octets[k] {
      WrapEqual(h.size, x, at + k);
    }
  }

  lemma StoreHere(h: Shape, data: seq<Octet>, at: nat, octets: seq<Octet>, k: nat, c: Octet)
    requires ValidShape(h) && |data| == h.size && Holds(h, data, at, octets) && k < |octets| <= h.size
    ensures Holds(h, data[Wrap(h.size, at + k) := c], at, octets[k := c])
  {
    var data', octets' := data[Wrap(h.size, at + k) := c], octets[k := c];
    forall j | 0 <= j < |octets| ensures data'[Wrap(h.size, at + j)] == octets'[j] {
      WrapEqual(h.size, at + k, at + j);
    }
  }

  // ----- steps

  lemma ClaimSpaceKeeps(h: Shape, s: Sys, n: nat)
    requires Inv(h, s) && Enabled(h, s, ClaimSpace(n))
    ensures Inv(h, Next(h, s, ClaimSpace(n)))
  {
    FillIs(h, |s.written|, s.released);
    var r := Region(h, s.fifo, s.prod.index, n);
    forall k | 0 <= k < n ensures s.fifo.data[Wrap(h.size, |s.written| + k)] == r[k] {
      PlaceIs(h, |s.written|, k);
    }
  }

  lemma StoreKeeps(h: Shape, s: Sys, k: nat, c: Octet)
    requires Inv(h, s) && Enabled(h, s, Act.Store(k, c))
    ensures Inv(h, Next(h, s, Act.Store(k, c)))
  {
    PlaceIs(h, |s.written|, k);
    StoreHere(h, s.fifo.data, |s.written|, s.prod.staged, k, c);
    StoreElsewhere(h, s.fifo.data, s.released, s.written[s.released..], |s.written| + k, c);
  }

  lemma PublishKeeps(h: Shape, s: Sys, count: nat)
    requires Inv(h, s) && Enabled(h, s, Publish(count))
    ensures Inv(h, Next(h, s, Publish(count)))
  {
    WrapPlus(h.range, |s.written|, count);
    var unread, more := s.written[s.released..], s.prod.staged[..count];
    assert (s.written + more)[s.released..] == unread + more;
    HoldsMore(h, s.fifo.data, s.released, unread, more);
  }

  lemma HoldsMore(h: Shape, data: seq<Octet>, at: nat, x: seq<Octet>, y: seq<Octet>)
    requires ValidShape(h) && |data| == h.size && Holds(h, data, at, x) && Holds(h, data, at + |x|, y)
    ensures Holds(h, data, at, x + y)
  {
    forall k | 0 <= k < |x + y| ensures data[Wrap(h.size, at + k)] == (x + y)[k] {
      if |x| <= k {
        assert data[Wrap(h.size, at + |x| + (k - |x|))] == y[k - |x|];
      }
    }
  }

  lemma ClaimDataKeeps(h: Shape, s: Sys, n: nat)
    requires Inv(h, s) && Enabled(h, s, ClaimData(n))
    ensures Inv(h, Next(h, s, ClaimData(n)))
  {
    FillIs(h, s.cons.upTo, s.released);
  }

  /** An octet fetched is the one written at that position of the stream. */
  lemma FetchKeeps(h: Shape, s: Sys, k: nat)
    requires Inv(h, s) && Enabled(h, s, Fetch(k))
    ensures Inv(h, Next(h, s, Fetch(k)))
  {
    PlaceIs(h, s.released, k);
    assert s.fifo.data[Wrap(h.size, s.released + k)] == s.written[s.released..][k] == s.written[s.released + k];
  }

  lemma HoldsLater(h: Shape, data: seq<Octet>, at: nat, x: seq<Octet>, n: nat)
    requires ValidShape(h) && |data| == h.size && Holds(h, data, at, x) && n <= |x|
    ensures Holds(h, data, at + n, x[n..])
  {
    forall k | 0 <= k < |x[n..]| ensures data[Wrap(h.size, at + n + k)] == x[n..][k] {
      assert data[Wrap(h.size, at + (n + k))] == x[n + k];
    }
  }

  lemma ReleaseKeeps(h: Shape, s: Sys, count: nat)
    requires Inv(h, s) && Enabled(h, s, Release(count))
    ensures Inv(h, Next(h, s, Release(count)))
  {
    WrapPlus(h.range, s.released, count);
    HoldsLater(h, s.fifo.data, s.released, s.written[s.released..], count);
    assert s.written[s.released..][count..] == s.written[s.released + count..];
  }

  lemma StepKeeps(h: Shape, s: Sys, a: Act)
    requires Inv(h, s) && Enabled(h, s, a)
    ensures Inv(h, Next(h, s, a))
  {
    match a
    case LoadIn =>
    case ClaimSpace(n) => ClaimSpaceKeeps(h, s, n);
    case Store(k, c) => StoreKeeps(h, s, k, c);
    case Publish(count) => PublishKeeps(h, s, count);
    case SeeIn =>
    case ClaimData(n) => ClaimDataKeeps(h, s, n);
    case Fetch(k) => FetchKeeps(h, s, k);
    case Release(count) => ReleaseKeeps(h, s, count);
  }

  // ----- runs

  predicate Fresh(h: Shape, s: Sys) {
    && ValidShape(h) && |s.fifo.data| == h.size && s.fifo.inIndex == 0 && s.fifo.outIndex == 0
    && s.prod == Away && s.cons == Apart && s.written == [] && s.released == 0 && s.got == []
  }

  predicate IsStep(h: Shape, s: Sys, a: Act, r: Sys) {
    FifoOk(h, s.fifo) && Enabled(h, s, a) && r == Next(h, s, a)
  }

  ghost predicate IsRun(h: Shape, states: seq<Sys>, acts: seq<Act>) {
    && |states| == |acts| + 1 && Fresh(h, states[0])
    && forall i :: 0 <= i < |acts| ==> IsStep(h, states[i], acts[i], states[i + 1])
  }

  lemma {:induction false} RunKeeps(h: Shape, states: seq<Sys>, acts: seq<Act>, i: nat)
    requires IsRun(h, states, acts) && i < |states|
    ensures Inv(h, states[i])
    decreases i
  {
    if i != 0 {
      RunKeeps(h, states, acts, i - 1);
      assert IsStep(h, states[i - 1], acts[i - 1], states[i]);
      StepKeeps(h, states[i - 1], acts[i - 1]);
    }
  }

  /** In every state of every interleaving, whether or not the indices have wrapped:
      every octet fetched is the one written at its position, also if others were
      released unread; the ring never holds more than its size, and the index
      difference the program computes is how much it holds. */
  lemma ReadsWhatWasWritten(h: Shape, states: seq<Sys>, acts: seq<Act>, i: nat)
    requires IsRun(h, states, acts) && i < |states|
    ensures var s := states[i];
            && (forall j :: 0 <= j < |s.got| ==> GotRight(s.written, s.got[j]))
            && 0 <= |s.written| - s.released <= h.size
            && FifoOk(h, s.fifo) && Fill(h, s.fifo.inIndex, s.fifo.outIndex) == |s.written| - s.released
  {
    RunKeeps(h, states, acts, i);
    FillIs(h, |states[i].written|, states[i].released);
  }

  /** A claim is granted exactly if there is room for it, or that much was published
      when the consumer looked, in whole octets of the stream. */
  lemma ClaimsFit(h: Shape, states: seq<Sys>, acts: seq<Act>, i: nat, n: nat)
    requires IsRun(h, states, acts) && i < |states|
    ensures var s := states[i];
            && FifoOk(h, s.fifo)
            && (s.prod.Loaded? ==> (Enabled(h, s, ClaimSpace(n)) <==> |s.written| + n <= s.released + h.size))
            && (s.cons.Saw? ==> (Enabled(h, s, ClaimData(n)) <==> s.released + n <= s.cons.upTo))
  {
    RunKeeps(h, states, acts, i);
    var s := states[i];
    FillIs(h, |s.written|, s.released);
    if s.cons.Saw? {
      FillIs(h, s.cons.upTo, s.released);
    }
  }

  function OctetsOf(got: seq<Got>): (r: seq<Octet>)
    ensures |r| == |got|
    ensures forall i :: 0 <= i < |got| ==> r[i] == got[i].octet
  {
    seq(|got|, i requires 0 <= i < |got| => got[i].octet)
  }

  /** A consumer that fetches every position once and in order, as the copying calls
      do, has read a prefix of what was written. */
  lemma InOrderReadsPrefix(h: Shape, states: seq<Sys>, acts: seq<Act>, i: nat)
    requires IsRun(h, states, acts) && i < |states|
    requires forall j :: 0 <= j < |states[i].got| ==> states[i].got[j].at == j
    ensures OctetsOf(states[i].got) <= states[i].written
  {
    RunKeeps(h, states, acts, i);
    var s := states[i];
    forall j | 0 <= j < |s.got| ensures j < |s.written| && OctetsOf(s.got)[j] == s.written[j] {
      assert GotRight(s.written, s.got[j]);
    }
    if s.got != [] {
      assert GotRight(s.written, s.got[|s.got| - 1]);
    }
  }

  /** A region the producer may store into is no place of an octet not yet released. */
  lemma ClaimMissesUnread(h: Shape, states: seq<Sys>, acts: seq<Act>, i: nat, k: nat, x: nat)
    requires IsRun(h, states, acts) && i < |states|
    requires states[i].prod.Claimed? && k < |states[i].prod.staged|
    requires states[i].released <= x < |states[i].written|
    ensures var s := states[i];
            && s.prod.index < h.range && ValidShape(h) && k < h.size
            && Place(h, s.prod.index, k) != Wrap(h.size, x)
  {
    RunKeeps(h, states, acts, i);
    PlaceIs(h, |states[i].written|, k);
    WrapEqual(h.size, |states[i].written| + k, x);
  }
}
