/**
 The streaming decoder of the escaped framing: its automaton, the object that runs it
 over a caller's buffer, and what it makes of frames that share their boundaries.
 */
module HdlcDecoder {
  import opened Common
  import opened Checksum
  import opened Streams
  import opened Hdlc

  /** A link's marks and checksum, the room for a frame, and the size of its shortest
      packet. */
  datatype Params<!T> = Params(marks: Marks, csum: Csum<T>, cap: nat, ping: nat)

  predicate ValidParams<T>(p: Params<T>) {
    ValidMarks(p.marks) && 0 < p.ping
  }

  /** Waiting for a boundary, inside a frame, or behind an escape octet. */
  datatype Mode = Lost | Inside | Escaped

  datatype Dec<T> = Dec(mode: Mode, data: seq<Octet>, csum: T)

  /** Inside a frame of which nothing has come yet. */
  function Ready<T>(p: Params<T>): Dec<T> {
    Dec(Inside, [], p.csum.init)
  }

  /** A frame that outgrows the buffer is dropped and the rest of it ignored. */
  function Store<T>(p: Params<T>, d: Dec<T>, c: Octet): Dec<T> {
    if |d.data| < p.cap then Dec(Inside, d.data + [c], Add(p.csum, d.csum, c)) else Dec(Lost, [], d.csum)
  }

  function Next<T>(p: Params<T>, d: Dec<T>, c: Octet): Dec<T> {
    if c == p.marks.sof then Ready(p)
    else match d.mode
      case Lost => d
      case Escaped => Store(p, d, Flip(c))
      case Inside => if c == p.marks.esc then d.(mode := Escaped) else Store(p, d, c)
  }

  /** Whether a boundary completes a packet. */
  predicate Accepts<T>(p: Params<T>, d: Dec<T>) {
    |d.data| >= p.ping + Width(p.csum) && Intact(p.csum, d.csum)
  }

  function PacketOf<T>(p: Params<T>, d: Dec<T>): seq<Octet>
    requires |d.data| >= Width(p.csum)
  {
    d.data[..|d.data| - Width(p.csum)]
  }

  function Yield<T>(p: Params<T>, d: Dec<T>, c: Octet): seq<seq<Octet>> {
    if c == p.marks.sof && Accepts(p, d) then [PacketOf(p, d)] else []
  }

  /** The decoder as a machine, prepared again after each packet. */
  function Reader<T>(p: Params<T>): Machine<Dec<T>> {
    Machine((d, c) => Next(p, d, c), (d, c) => Yield(p, d, c))
  }

  // ----- the object

  class Decoder<T> {
    var buf: array<Octet>
    var cap: nat
    var size: nat
    var csum: T
    var mode: Mode

    ghost predicate Valid(p: Params<T>)
      reads this
    {
      ValidParams(p) && cap == p.cap <= buf.Length && size <= cap
    }

    ghost function Abs(): Dec<T>
      requires size <= buf.Length
      reads this, buf
    {
      Dec(mode, buf[..size], csum)
    }

    constructor (p: Params<T>, b: array<Octet>)
      requires ValidParams(p) && p.cap <= b.Length
      ensures Valid(p) && buf == b && Abs() == Ready(p).(mode := Lost)
    {
      buf, cap, size, csum, mode := b, p.cap, 0, p.csum.init, Lost;
    }

    /** Gets ready for the next packet without leaving the frame. */
    method Prep(p: Params<T>)
      requires Valid(p)
      modifies this`size, this`csum
      ensures Valid(p) && Abs() == Ready(p).(mode := mode)
    {
      size, csum := 0, p.csum.init;
    }

    method StoreByte(p: Params<T>, c: Octet)
      requires Valid(p)
      modifies this`size, this`csum, this`mode, buf
      ensures Valid(p) && Abs() == Store(p, old(Abs()), c)
      ensures forall i :: cap <= i < buf.Length ==> buf[i] == old(buf[i])
    {
      if size < cap {
        buf[size] := c;
        size, mode := size + 1, Inside;
        csum := Add(p.csum, csum, c);
      } else {
        size, mode := 0, Lost;
      }
    }

    method TakeInside(p: Params<T>, c: Octet)
      requires Valid(p) && c != p.marks.sof
      modifies this`size, this`csum, this`mode, buf
      ensures Valid(p) && Abs() == Next(p, old(Abs()), c)
      ensures forall i :: cap <= i < buf.Length ==> buf[i] == old(buf[i])
    {
      match mode
      case Lost =>
      case Escaped => StoreByte(p, Flip(c));
      case Inside =>
        if c == p.marks.esc {
          mode := Escaped;
        } else {
          StoreByte(p, c);
        }
    }

    /** Takes octets until a packet is complete, the boundary that completes it
        included; a frame that is not a packet is dropped. */
    method Feed(p: Params<T>, src: seq<Octet>) returns (n: nat, done: bool)
      requires Valid(p)
      modifies this`size, this`csum, this`mode, buf
      ensures Valid(p) && n <= |src|
      ensures forall i :: cap <= i < buf.Length ==> buf[i] == old(buf[i])
      ensures !done ==>
                && n == |src| && Abs() == After(Reader(p), old(Abs()), src)
                && Yielded(Reader(p), old(Abs()), src) == []
      ensures done ==>
                && 0 < n && mode.Inside? && After(Reader(p), old(Abs()), src[..n]) == Ready(p)
                && Yielded(Reader(p), old(Abs()), src[..n]) == [buf[..size]]
    {
      n, done := 0, false;
      ghost var d := Abs();
      while n < |src|
        invariant Valid(p) && n <= |src|
        invariant Abs() == After(Reader(p), d, src[..n]) && Yielded(Reader(p), d, src[..n]) == []
        invariant forall i :: cap <= i < buf.Length ==> buf[i] == old(buf[i])
      {
        var c := src[n];
        OneMore(Reader(p), d, src, n);
        ghost var e := Abs();
        n := n + 1;
        if c != p.marks.sof {
          TakeInside(p, c);
        } else {
          mode := Inside;
          if size >= p.ping + Width(p.csum) && (p.csum.on ==> p.csum.ok(csum)) {
            size := size - Width(p.csum);
            done := true;
            assert buf[..size] == PacketOf(p, e);
            return;
          }
          size, csum := 0, p.csum.init;
        }
      }
      assert src[..n] == src;
    }

    /** The receive loop of a transport over what one read returned. */
    method Receive(p: Params<T>, chunk: seq<Octet>) returns (out: seq<seq<Octet>>)
      requires Valid(p)
      modifies this`size, this`csum, this`mode, buf
      ensures Valid(p) && Abs() == After(Reader(p), old(Abs()), chunk) && out == Yielded(Reader(p), old(Abs()), chunk)
    {
      out := [];
      var i := 0;
      ghost var d := Abs();
      while i < |chunk|
        invariant Valid(p) && i <= |chunk|
        invariant Abs() == After(Reader(p), d, chunk[..i]) && out == Yielded(Reader(p), d, chunk[..i])
      {
        ghost var j := i;
        var s := chunk[i..];
        var n, done := Feed(p, s);
        i := i + n;
        StreamSplits(Reader(p), d, chunk[..j], s[..n]);
        assert chunk[..i] == chunk[..j] + s[..n];
        if done {
          out := out + [buf[..size]];
          Prep(p);
        } else {
          assert s[..n] == s;
        }
      }
      assert chunk[..i] == chunk;
    }

    /** Reads of any sizes yield what one read of everything would. */
    method ReceiveAll(p: Params<T>, chunks: seq<seq<Octet>>) returns (out: seq<seq<Octet>>)
      requires Valid(p)
      modifies this`size, this`csum, this`mode, buf
      ensures Valid(p) && Abs() == After(Reader(p), old(Abs()), Joined(chunks))
              && out == Yielded(Reader(p), old(Abs()), Joined(chunks))
    {
      out := [];
      ghost var d := Abs();
      for i := 0 to |chunks|
        invariant Valid(p) && Abs() == After(Reader(p), d, Joined(chunks[..i]))
                  && out == Yielded(Reader(p), d, Joined(chunks[..i]))
      {
        var more := Receive(p, chunks[i]);
        StreamSplits(Reader(p), d, Joined(chunks[..i]), chunks[i]);
        assert chunks[..i + 1][..i] == chunks[..i];
        out := out + more;
      }
      assert chunks[..|chunks|] == chunks;
    }
  }

  // ----- decoding undoes encoding

  /** What a decoder that reads t in full holds then. */
  function Holding<T>(p: Params<T>, d: Dec<T>, t: seq<Octet>): Dec<T> {
    Dec(Inside, d.data + t, Sum(p.csum, d.csum, t))
  }

  /** One octet, escaped or not. */
  lemma OctetRead<T>(p: Params<T>, d: Dec<T>, c: Octet)
    requires ValidParams(p) && d.mode.Inside? && |d.data| < p.cap
    ensures After(Reader(p), d, EscapeOctet(p.marks, c)) == Store(p, d, c)
    ensures Yielded(Reader(p), d, EscapeOctet(p.marks, c)) == []
  {
    var s := EscapeOctet(p.marks, c);
    if IsMark(p.marks, c) {
      FlipsBack(c);
      var e := Next(p, d, s[0]);
      assert s[1..] == [Flip(c)] && s[1..][1..] == [];
      assert After(Reader(p), e, s[1..]) == Next(p, e, Flip(c));
      assert Yielded(Reader(p), e, s[1..]) == Yield(p, e, Flip(c)) + [];
    } else {
      assert s[1..] == [];
    }
  }

  lemma HoldingOn<T>(p: Params<T>, d: Dec<T>, t: seq<Octet>)
    requires t != [] && d.mode.Inside? && |d.data| < p.cap
    ensures Holding(p, Store(p, d, t[0]), t[1..]) == Holding(p, d, t)
  {
    assert d.data + [t[0]] + t[1..] == d.data + t;
  }

  lemma {:induction false} EscapedRead<T>(p: Params<T>, d: Dec<T>, t: seq<Octet>)
    requires ValidParams(p) && d.mode.Inside? && |d.data| + |t| <= p.cap
    ensures After(Reader(p), d, Escape(p.marks, t)) == Holding(p, d, t)
    ensures Yielded(Reader(p), d, Escape(p.marks, t)) == []
    decreases |t|
  {
    if t == [] {
      assert d.data + t == d.data;
    } else {
      var e := Store(p, d, t[0]);
      OctetRead(p, d, t[0]);
      StreamSplits(Reader(p), d, EscapeOctet(p.marks, t[0]), Escape(p.marks, t[1..]));
      EscapedRead(p, e, t[1..]);
      HoldingOn(p, d, t);
    }
  }

  /** A packet of a legal size that the peer has room for. */
  predicate Fits<T>(p: Params<T>, body: seq<Octet>) {
    p.ping <= |body| && |body| + Width(p.csum) <= p.cap
  }

  function OnWire<T>(p: Params<T>, frames: seq<Sent>): seq<Octet> {
    if frames == [] then [] else PaddedFrame(p, frames[0]) + OnWire(p, frames[1..])
  }

  /** A frame behind boundaries that pad the line. */
  function PaddedFrame<T>(p: Params<T>, f: Sent): seq<Octet> {
    Padding(p.marks.sof, f.padding) + Framed(p.marks, p.csum, f.body, f.last)
  }

  /** Whatever came before, a boundary settles it and starts afresh. */
  lemma BoundaryRead<T>(p: Params<T>, d: Dec<T>)
    ensures After(Reader(p), d, [p.marks.sof]) == Ready(p)
    ensures Yielded(Reader(p), d, [p.marks.sof]) == Yield(p, d, p.marks.sof)
  {
    assert [p.marks.sof][1..] == [];
  }

  /** A frame without its closing mark leaves its packet waiting for a boundary. */
  lemma FrameRead<T>(p: Params<T>, d: Dec<T>, body: seq<Octet>)
    requires ValidParams(p) && Residual(p.csum) && Fits(p, body)
    ensures var e := After(Reader(p), d, Framed(p.marks, p.csum, body, false)); Yield(p, e, p.marks.sof) == [body]
    ensures Yielded(Reader(p), d, Framed(p.marks, p.csum, body, false)) == Yield(p, d, p.marks.sof)
  {
    var s := Sealed(p.csum, body);
    var w := Escape(p.marks, s);
    BoundaryRead(p, d);
    EscapedRead(p, Ready(p), s);
    StreamSplits(Reader(p), d, [p.marks.sof], w);
    assert [p.marks.sof] + w + [] == [p.marks.sof] + w;
    var e := After(Reader(p), d, [p.marks.sof] + w);
    assert e.data == [] + s == s;
    assert Accepts(p, e) && PacketOf(p, e) == body;
  }

  /** The packet a boundary would complete. */
  function Waiting<T>(p: Params<T>, d: Dec<T>): seq<seq<Octet>> {
    Yield(p, d, p.marks.sof)
  }

  /** Reading w settles what was waiting and brings the packets b, of which the last
      may be waiting now. */
  ghost predicate Brings<T>(p: Params<T>, d: Dec<T>, w: seq<Octet>, b: seq<seq<Octet>>) {
    Yielded(Reader(p), d, w) + Waiting(p, After(Reader(p), d, w)) == Waiting(p, d) + b
  }

  lemma BringsThen<T>(p: Params<T>, d: Dec<T>, w: seq<Octet>, b: seq<seq<Octet>>, x: seq<Octet>, y: seq<seq<Octet>>)
    requires Brings(p, d, w, b) && Brings(p, After(Reader(p), d, w), x, y)
    ensures Brings(p, d, w + x, b + y)
  {
    var e := After(Reader(p), d, w);
    StreamSplits(Reader(p), d, w, x);
    Chained(Yielded(Reader(p), d, w), Waiting(p, e), Waiting(p, d), b,
            Yielded(Reader(p), e, x), Waiting(p, After(Reader(p), e, x)), y);
  }

  lemma Chained<X>(a: seq<X>, b: seq<X>, c: seq<X>, d: seq<X>, e: seq<X>, f: seq<X>, g: seq<X>)
    requires a + b == c + d && e + f == b + g
    ensures a + e + f == c + (d + g)
  {
    assert a + e + f == a + (e + f) == a + b + g == c + d + g;
  }

  lemma {:induction false} PaddingBringsNothing<T>(p: Params<T>, d: Dec<T>, n: nat)
    requires ValidParams(p)
    ensures Brings(p, d, Padding(p.marks.sof, n), [])
    decreases n
  {
    if n != 0 {
      BoundaryRead(p, d);
      PaddingBringsNothing(p, Ready(p), n - 1);
      BringsThen(p, d, [p.marks.sof], [], Padding(p.marks.sof, n - 1), []);
      assert [p.marks.sof] + Padding(p.marks.sof, n - 1) == Padding(p.marks.sof, n);
    }
  }

  lemma FrameBrings<T>(p: Params<T>, d: Dec<T>, body: seq<Octet>, last: bool)
    requires ValidParams(p) && Residual(p.csum) && Fits(p, body)
    ensures Brings(p, d, Framed(p.marks, p.csum, body, last), [body])
  {
    var w := Framed(p.marks, p.csum, body, false);
    FrameRead(p, d, body);
    if last {
      assert Framed(p.marks, p.csum, body, true) == w + [p.marks.sof];
      BoundaryRead(p, After(Reader(p), d, w));
      BringsThen(p, d, w, [body], [p.marks.sof], []);
      assert [body] + [] == [body];
    }
  }

  /** Any list of frames that fit, padded or not and each boundary shared or not, read
      from any state: what that state held is settled first, and then come exactly
      those packets. The last one needs a boundary behind it. */
  lemma {:induction false} StreamDecodes<T>(p: Params<T>, d: Dec<T>, frames: seq<Sent>)
    requires ValidParams(p) && Residual(p.csum)
    requires forall i :: 0 <= i < |frames| ==> Fits(p, frames[i].body)
    ensures Brings(p, d, OnWire(p, frames), Bodies(frames))
    decreases |frames|
  {
    if frames != [] {
      var f := frames[0];
      var pad, w := Padding(p.marks.sof, f.padding), Framed(p.marks, p.csum, f.body, f.last);
      PaddingBringsNothing(p, d, f.padding);
      FrameBrings(p, After(Reader(p), d, pad), f.body, f.last);
      BringsThen(p, d, pad, [], w, [f.body]);
      StreamDecodes(p, After(Reader(p), d, pad + w), frames[1..]);
      assert [] + [f.body] == [f.body];
      BringsThen(p, d, pad + w, [f.body], OnWire(p, frames[1..]), Bodies(frames[1..]));
    }
  }

  /** A closing mark leaves nothing waiting. */
  lemma {:induction false} StreamCloses<T>(p: Params<T>, d: Dec<T>, frames: seq<Sent>)
    requires frames != [] && frames[|frames| - 1].last
    ensures After(Reader(p), d, OnWire(p, frames)) == Ready(p)
    decreases |frames|
  {
    var w, more := PaddedFrame(p, frames[0]), OnWire(p, frames[1..]);
    StreamSplits(Reader(p), d, w, more);
    if |frames| == 1 {
      FrameCloses(p, d, frames[0]);
    } else {
      StreamCloses(p, After(Reader(p), d, w), frames[1..]);
    }
  }

  lemma FrameCloses<T>(p: Params<T>, d: Dec<T>, f: Sent)
    requires f.last
    ensures After(Reader(p), d, PaddedFrame(p, f)) == Ready(p)
  {
    var open := Padding(p.marks.sof, f.padding) + ([p.marks.sof] + Escape(p.marks, Sealed(p.csum, f.body)));
    assert PaddedFrame(p, f) == open + [p.marks.sof];
    StreamSplits(Reader(p), d, open, [p.marks.sof]);
    BoundaryRead(p, After(Reader(p), d, open));
  }

  /** From any decoder state: if the last frame is closed, the stream yields exactly
      the packets sent, in order, behind at most the one that was in progress. */
  lemma StreamRoundTrip<T>(p: Params<T>, d: Dec<T>, frames: seq<Sent>)
    requires ValidParams(p) && Residual(p.csum) && frames != [] && frames[|frames| - 1].last
    requires forall i :: 0 <= i < |frames| ==> Fits(p, frames[i].body)
    ensures Yielded(Reader(p), d, OnWire(p, frames)) == Waiting(p, d) + Bodies(frames)
    ensures After(Reader(p), d, OnWire(p, frames)) == Ready(p)
  {
    StreamDecodes(p, d, frames);
    StreamCloses(p, d, frames);
  }
}
