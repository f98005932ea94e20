/**
 A link end to end: packets go through a sender's encoder into buffers of any sizes,
 over the line, and out of a receiver's decoder in reads of any sizes.
 */
module Transfer {
  import opened Common
  import opened Checksum
  import opened Streams
  import CobsEncoder
  import CobsDecoder
  import Hdlc
  import HdlcEncoder
  import HdlcDecoder

  /** A packet as the core hands it over, and how its transport sends it. */
  datatype Job = Job(header: seq<Octet>, payload: seq<Octet>, padding: nat, last: bool)

  function SentOf(j: Job): Sent {
    Sent(j.padding, j.header + j.payload, j.last)
  }

  function Frames(jobs: seq<Job>): (f: seq<Sent>)
    ensures |f| == |jobs|
    ensures forall i :: 0 <= i < |jobs| ==> f[i] == SentOf(jobs[i])
  {
    seq(|jobs|, i requires 0 <= i < |jobs| => SentOf(jobs[i]))
  }

  lemma FramesFrom(jobs: seq<Job>, i: nat)
    requires i < |jobs|
    ensures Frames(jobs)[i..] == [SentOf(jobs[i])] + Frames(jobs)[i + 1..]
  {
  }

  /** The line, cut into reads of the sizes given. */
  method Reads(wire: seq<Octet>, size: nat -> nat) returns (chunks: seq<seq<Octet>>)
    requires forall k :: 1 <= size(k)
    ensures Joined(chunks) == wire
  {
    chunks := [];
    var i := 0;
    while i < |wire|
      invariant i <= |wire| && Joined(chunks) == wire[..i]
    {
      var n := if size(|chunks|) < |wire| - i then size(|chunks|) else |wire| - i;
      var chunk := wire[i..i + n];
      assert wire[..i + n] == wire[..i] + chunk;
      assert (chunks + [chunk])[..|chunks|] == chunks;
      chunks := chunks + [chunk];
      i := i + n;
    }
    assert wire[..i] == wire;
  }

  // ----- COBS

  /** One frame, filled into buffers of the sizes given. */
  method CobsFrame<T>(enc: CobsEncoder.Encoder<T>, a: Csum<T>, j: Job, size: nat -> nat) returns (out: seq<Octet>)
    requires j.header != [] && !enc.Busy() && enc.Valid(a) && forall k :: 1 <= size(k)
    modifies enc
    ensures !enc.Busy() && enc.Valid(a) && out == CobsEncoder.Framed(a, j.header + j.payload)
  {
    enc.Prep(Some(j.header), |j.header|, j.payload);
    assert j.header[..|j.header|] == j.header;
    ghost var owed := enc.Output(a);
    out := [];
    var k := 0;
    while enc.Busy()
      invariant enc.Valid(a) && out + enc.Output(a) == owed
      decreases |enc.Output(a)|, enc.Busy()
    {
      var dst := new Octet[size(k)];
      var n := enc.Fill(a, dst);
      Rejoin(out, dst[..n], enc.Output(a));
      out := out + dst[..n];
      k := k + 1;
    }
  }

  function CobsPiece<T>(a: Csum<T>, j: Job): seq<Octet> {
    Padding(0, j.padding) + CobsEncoder.Framed(a, j.header + j.payload)
  }

  /** What is on the line and what is still to be sent, a job further. */
  lemma CobsFrom<T>(a: Csum<T>, jobs: seq<Job>, i: nat, wire: seq<Octet>, all: seq<Octet>)
    requires i < |jobs| && wire + CobsDecoder.OnWire(a, Frames(jobs)[i..]) == all
    ensures wire + CobsPiece(a, jobs[i]) + CobsDecoder.OnWire(a, Frames(jobs)[i + 1..]) == all
  {
    FramesFrom(jobs, i);
    assert Frames(jobs)[i..][1..] == Frames(jobs)[i + 1..];
    Rejoin(wire, CobsPiece(a, jobs[i]), CobsDecoder.OnWire(a, Frames(jobs)[i + 1..]));
  }

  method CobsSend<T>(a: Csum<T>, register: T, jobs: seq<Job>, size: nat -> nat) returns (wire: seq<Octet>)
    requires forall i :: 0 <= i < |jobs| ==> jobs[i].header != []
    requires forall k :: 1 <= size(k)
    ensures wire == CobsDecoder.OnWire(a, Frames(jobs))
  {
    var enc := new CobsEncoder.Encoder(register);
    wire := [];
    ghost var all := CobsDecoder.OnWire(a, Frames(jobs));
    assert Frames(jobs)[0..] == Frames(jobs);
    for i := 0 to |jobs|
      invariant !enc.Busy() && enc.Valid(a)
      invariant wire + CobsDecoder.OnWire(a, Frames(jobs)[i..]) == all
    {
      var frame := CobsFrame(enc, a, jobs[i], size);
      CobsFrom(a, jobs, i, wire, all);
      wire := wire + (Padding(0, jobs[i].padding) + frame);
    }
  }

  /** Whatever the sizes of buffers and reads, the packets come back, all of them and
      in order. */
  method CobsTransfer<T>(p: CobsDecoder.Params<T>, register: T, jobs: seq<Job>, buffers: nat -> nat, cuts: nat -> nat)
    returns (out: seq<seq<Octet>>)
    requires CobsDecoder.ValidParams(p) && Residual(p.csum)
    requires forall i :: 0 <= i < |jobs| ==> jobs[i].header != [] && CobsDecoder.Fits(p, SentOf(jobs[i]).body)
    requires forall k :: 1 <= buffers(k)
    requires forall k :: 1 <= cuts(k)
    ensures out == Bodies(Frames(jobs))
  {
    var wire := CobsSend(p.csum, register, jobs, buffers);
    var chunks := Reads(wire, cuts);
    var buf := new Octet[p.cap];
    var dec := new CobsDecoder.Decoder(p, buf);
    out := dec.ReceiveAll(p, chunks);
    CobsDecoder.StreamRoundTrip(p, Frames(jobs));
  }

  // ----- escaping

  method HdlcFrame<T>(enc: HdlcEncoder.Encoder<T>, m: Hdlc.Marks, a: Csum<T>, j: Job, size: nat -> nat)
    returns (out: seq<Octet>)
    requires j.header != [] && !enc.Busy() && (a.on ==> 0 < a.octets) && forall k :: 1 <= size(k)
    modifies enc
    ensures !enc.Busy() && out == Hdlc.Framed(m, a, j.header + j.payload, j.last)
  {
    enc.Prep(m, a, Some(j.header), |j.header|, j.payload, j.last);
    assert j.header[..|j.header|] == j.header;
    ghost var owed := enc.Output(m, a);
    out := [];
    var k := 0;
    while enc.Busy()
      invariant enc.Valid(a) && !enc.Stuck() && out + enc.Output(m, a) == owed
      decreases |enc.Output(m, a)|, enc.Busy()
    {
      var dst := new Octet[size(k)];
      var n := enc.Fill(m, a, dst);
      Rejoin(out, dst[..n], enc.Output(m, a));
      out := out + dst[..n];
      k := k + 1;
    }
  }

  lemma HdlcFrom<T>(p: HdlcDecoder.Params<T>, jobs: seq<Job>, i: nat, wire: seq<Octet>)
    requires i < |jobs|
    ensures wire + HdlcDecoder.PaddedFrame(p, SentOf(jobs[i])) + HdlcDecoder.OnWire(p, Frames(jobs)[i + 1..])
            == wire + HdlcDecoder.OnWire(p, Frames(jobs)[i..])
  {
    FramesFrom(jobs, i);
    assert Frames(jobs)[i..][1..] == Frames(jobs)[i + 1..];
    Rejoin(wire, HdlcDecoder.PaddedFrame(p, SentOf(jobs[i])), HdlcDecoder.OnWire(p, Frames(jobs)[i + 1..]));
  }

  method HdlcSend<T>(p: HdlcDecoder.Params<T>, register: T, jobs: seq<Job>, size: nat -> nat) returns (wire: seq<Octet>)
    requires (p.csum.on ==> 0 < p.csum.octets) && forall i :: 0 <= i < |jobs| ==> jobs[i].header != []
    requires forall k :: 1 <= size(k)
    ensures wire == HdlcDecoder.OnWire(p, Frames(jobs))
  {
    var enc := new HdlcEncoder.Encoder(register);
    wire := [];
    for i := 0 to |jobs|
      invariant !enc.Busy()
      invariant wire + HdlcDecoder.OnWire(p, Frames(jobs)[i..]) == HdlcDecoder.OnWire(p, Frames(jobs))
    {
      var frame := HdlcFrame(enc, p.marks, p.csum, jobs[i], size);
      HdlcFrom(p, jobs, i, wire);
      wire := wire + (Padding(p.marks.sof, jobs[i].padding) + frame);
    }
  }

  method HdlcTransfer<T>(p: HdlcDecoder.Params<T>, register: T, jobs: seq<Job>, buffers: nat -> nat, cuts: nat -> nat)
    returns (out: seq<seq<Octet>>)
    requires HdlcDecoder.ValidParams(p) && Residual(p.csum) && (p.csum.on ==> 0 < p.csum.octets)
    requires forall i :: 0 <= i < |jobs| ==> jobs[i].header != [] && HdlcDecoder.Fits(p, SentOf(jobs[i]).body)
    requires jobs != [] && jobs[|jobs| - 1].last
    requires forall k :: 1 <= buffers(k)
    requires forall k :: 1 <= cuts(k)
    ensures out == Bodies(Frames(jobs))
  {
    var wire := HdlcSend(p, register, jobs, buffers);
    var chunks := Reads(wire, cuts);
    var buf := new Octet[p.cap];
    var dec := new HdlcDecoder.Decoder(p, buf);
    ghost var d := dec.Abs();
    out := dec.ReceiveAll(p, chunks);
    HdlcDecoder.StreamRoundTrip(p, d, Frames(jobs));
    assert HdlcDecoder.Waiting(p, d) == [];
  }
}
