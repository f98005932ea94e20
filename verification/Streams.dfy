/**
 Decoders as machines that read a stream octet by octet and yield packets on the way,
 and lists of frames as a transport sends them.
 */
module Streams {
  import opened Common

  datatype Machine<!D> = Machine(next: (D, Octet) -> D, emits: (D, Octet) -> seq<seq<Octet>>)

  /** The state after a stream, and the packets it completed. */
  function After<D>(m: Machine<D>, d: D, s: seq<Octet>): D
    decreases |s|
  {
    if s == [] then d else After(m, m.next(d, s[0]), s[1..])
  }

  function Yielded<D>(m: Machine<D>, d: D, s: seq<Octet>): seq<seq<Octet>>
    decreases |s|
  {
    if s == [] then [] else m.emits(d, s[0]) + Yielded(m, m.next(d, s[0]), s[1..])
  }

  /** A stream can be cut anywhere. */
  lemma {:induction false} StreamSplits<D>(m: Machine<D>, d: D, s: seq<Octet>, t: seq<Octet>)
    ensures After(m, d, s + t) == After(m, After(m, d, s), t)
    ensures Yielded(m, d, s + t) == Yielded(m, d, s) + Yielded(m, After(m, d, s), t)
    decreases |s|
  {
    if s == [] {
      assert s + t == t;
    } else {
      assert (s + t)[1..] == s[1..] + t;
      StreamSplits(m, m.next(d, s[0]), s[1..], t);
      var x, y, z := m.emits(d, s[0]), Yielded(m, m.next(d, s[0]), s[1..]), Yielded(m, After(m, d, s), t);
      assert x + (y + z) == x + y + z;
    }
  }

  lemma OneOctet<D>(m: Machine<D>, d: D, c: Octet)
    ensures After(m, d, [c]) == m.next(d, c) && Yielded(m, d, [c]) == m.emits(d, c)
  {
    assert [c][1..] == [];
  }

  lemma OneMore<D>(m: Machine<D>, d: D, s: seq<Octet>, n: nat)
    requires n < |s|
    ensures var e := After(m, d, s[..n]);
            && After(m, d, s[..n + 1]) == m.next(e, s[n])
            && Yielded(m, d, s[..n + 1]) == Yielded(m, d, s[..n]) + m.emits(e, s[n])
  {
    assert s[..n + 1] == s[..n] + [s[n]];
    StreamSplits(m, d, s[..n], [s[n]]);
    OneOctet(m, After(m, d, s[..n]), s[n]);
  }

  /** A packet to be sent: how much padding a transport puts before its frame, and
      whether nothing follows it. */
  datatype Sent = Sent(padding: nat, body: seq<Octet>, last: bool)

  function Bodies(frames: seq<Sent>): (b: seq<seq<Octet>>)
    ensures |b| == |frames|
    ensures forall i :: 0 <= i < |frames| ==> b[i] == frames[i].body
  {
    if frames == [] then [] else [frames[0].body] + Bodies(frames[1..])
  }

  function Padding(c: Octet, n: nat): seq<Octet> {
    seq(n, i => c)
  }
}
