/**
 The streaming decoder: an automaton that takes one octet at a time, the object that
 runs it over a caller's buffer, and what it makes of a stream of encoded frames.
 */
module CobsDecoder {
  import opened Common
  import opened Checksum
  import opened Streams
  import opened Cobs
  import CobsEncoder

  /** A link's checksum, the room for a frame, and the size of its shortest packet. */
  datatype Params<!T> = Params(csum: Csum<T>, cap: nat, ping: nat)

  predicate ValidParams<T>(p: Params<T>) {
    0 < p.ping
  }

  /** What has been gathered of a frame, its checksum so far, the group being read
      and the octets it still lacks, whether a group was seen, and whether the frame
      outgrew the buffer. */
  datatype Dec<T> = Dec(data: seq<Octet>, csum: T, code: Octet, left: nat, started: bool, over: bool)

  function Reset<T>(p: Params<T>): Dec<T> {
    Dec([], p.csum.init, 0, 0, false, false)
  }

  function Store<T>(p: Params<T>, d: Dec<T>, c: Octet): Dec<T> {
    if |d.data| < p.cap then d.(data := d.data + [c], csum := Add(p.csum, d.csum, c)) else d.(over := true)
  }

  /** The zero between two groups counts only once a second one follows. */
  function Pending<T>(d: Dec<T>): seq<Octet> {
    if d.started && d.code != 255 then [0] else []
  }

  function StorePending<T>(p: Params<T>, d: Dec<T>): Dec<T> {
    if Pending(d) != [] then Store(p, d, 0) else d
  }

  /** An octet that is not the delimiter. */
  function Inside<T>(p: Params<T>, d: Dec<T>, c: Octet): Dec<T>
    requires c != 0
  {
    if d.over then d
    else if d.left != 0 then Store(p, d, c).(left := d.left - 1)
    else StorePending(p, d).(code := c, left := c - 1, started := true)
  }

  /** Whether a delimiter completes a packet. */
  predicate Accepts<T>(p: Params<T>, d: Dec<T>) {
    !d.over && d.left == 0 && |d.data| >= p.ping + Width(p.csum) && Intact(p.csum, d.csum)
  }

  function PacketOf<T>(p: Params<T>, d: Dec<T>): seq<Octet>
    requires |d.data| >= Width(p.csum)
  {
    d.data[..|d.data| - Width(p.csum)]
  }

  function Next<T>(p: Params<T>, d: Dec<T>, c: Octet): Dec<T> {
    if c == 0 then Reset(p) else Inside(p, d, c)
  }

  function Yield<T>(p: Params<T>, d: Dec<T>, c: Octet): seq<seq<Octet>> {
    if c == 0 && Accepts(p, d) then [PacketOf(p, d)] else []
  }

  /** The decoder as a machine, prepared again after each packet. */
  function Reader<T>(p: Params<T>): Machine<Dec<T>> {
    Machine((d, c) => Next(p, d, c), (d, c) => Yield(p, d, c))
  }

  // ----- the object

  class Decoder<T> {
    var buf: array<Octet>
    var cap: nat
    var size: nat
    var csum: T
    var code: Octet
    var left: nat
    var started: bool
    var over: bool

    ghost predicate Valid(p: Params<T>)
      reads this
    {
      ValidParams(p) && cap == p.cap <= buf.Length && size <= cap
    }

    ghost function Abs(): Dec<T>
      requires size <= buf.Length
      reads this, buf
    {
      Dec(buf[..size], csum, code, left, started, over)
    }

    /** Points the decoder at a buffer, of which it may use the first cap octets. */
    constructor (p: Params<T>, b: array<Octet>)
      requires ValidParams(p) && p.cap <= b.Length
      ensures Valid(p) && buf == b && Abs() == Reset(p)
    {
      buf, cap, size, csum, code, left, started, over := b, p.cap, 0, p.csum.init, 0, 0, false, false;
    }

    method Clear(p: Params<T>)
      requires Valid(p)
      modifies this`size, this`csum, this`code, this`left, this`started, this`over
      ensures Valid(p) && Abs() == Reset(p)
    {
      size, csum, code, left, started, over := 0, p.csum.init, 0, 0, false, false;
    }

    method StoreByte(p: Params<T>, c: Octet)
      requires Valid(p)
      modifies this`size, this`csum, this`over, buf
      ensures Valid(p) && Abs() == Store(p, old(Abs()), c)
      ensures forall i :: cap <= i < buf.Length ==> buf[i] == old(buf[i])
    {
      if size < cap {
        buf[size] := c;
        size := size + 1;
        csum := Add(p.csum, csum, c);
      } else {
        over := true;
      }
    }

    method TakeInside(p: Params<T>, c: Octet)
      requires Valid(p) && c != 0
      modifies this`size, this`csum, this`over, this`left, this`code, this`started, buf
      ensures Valid(p) && Abs() == Inside(p, old(Abs()), c)
      ensures forall i :: cap <= i < buf.Length ==> buf[i] == old(buf[i])
    {
      if over {
        return;
      }
      if left != 0 {
        StoreByte(p, c);
        left := left - 1;
        return;
      }
      if started && code != 255 {
        StoreByte(p, 0);
      }
      code, left, started := c, c - 1, true;
    }

    /** Takes octets until a packet is complete. The delimiter that completes it is
        not consumed; a frame that is not a packet is dropped. */
    method Feed(p: Params<T>, src: seq<Octet>) returns (n: nat, done: bool)
      requires Valid(p)
      modifies this`size, this`csum, this`over, this`left, this`code, this`started, buf
      ensures Valid(p) && n <= |src| && Yielded(Reader(p), old(Abs()), src[..n]) == []
      ensures forall i :: cap <= i < buf.Length ==> buf[i] == old(buf[i])
      ensures !done ==> n == |src| && Abs() == After(Reader(p), old(Abs()), src)
      ensures done ==>
                && n < |src| && src[n] == 0
                && var d := After(Reader(p), old(Abs()), src[..n]);
                   Accepts(p, d) && buf[..size] == PacketOf(p, d)
    {
      n, done := 0, false;
      ghost var d := Abs();
      while n < |src|
        invariant Valid(p) && n <= |src|
        invariant Abs() == After(Reader(p), d, src[..n]) && Yielded(Reader(p), d, src[..n]) == []
        invariant forall i :: cap <= i < buf.Length ==> buf[i] == old(buf[i])
      {
        ghost var e := Abs();
        OneMore(Reader(p), d, src, n);
        if src[n] != 0 {
          TakeInside(p, src[n]);
        } else {
          if !over && left == 0 && size >= p.ping + Width(p.csum) && Intact(p.csum, csum) {
            size := size - Width(p.csum);
            done := true;
            return;
          }
          Clear(p);
        }
        n := n + 1;
      }
      assert src[..n] == src;
    }

    /** One turn of a transport's receive loop over what one read returned: feeds the
        decoder from i on, takes the packet it may complete and points the decoder at
        its buffer again. */
    method ReceiveSome(p: Params<T>, chunk: seq<Octet>, i: nat, out: seq<seq<Octet>>)
      returns (i': nat, out': seq<seq<Octet>>)
      requires Valid(p) && i < |chunk|
      modifies this`size, this`csum, this`over, this`left, this`code, this`started, buf
      ensures Valid(p) && i <= i' <= |chunk| && (i' == i ==> size < old(size))
      ensures After(Reader(p), Abs(), chunk[i'..]) == After(Reader(p), old(Abs()), chunk[i..])
      ensures out' + Yielded(Reader(p), Abs(), chunk[i'..]) == out + Yielded(Reader(p), old(Abs()), chunk[i..])
    {
      ghost var d := Abs();
      var s := chunk[i..];
      var n, done := Feed(p, s);
      i', out' := i + n, out;
      assert chunk[i'..] == s[n..];
      if done {
        PacketAdded(p, d, s, n, out);
        out' := out + [buf[..size]];
        Clear(p);
      } else {
        assert s[..n] == s && s[n..] == [];
      }
    }

    /** The receive loop of a transport: it takes each packet and feeds on. */
    method Receive(p: Params<T>, chunk: seq<Octet>) returns (out: seq<seq<Octet>>)
      requires Valid(p)
      modifies this`size, this`csum, this`over, this`left, this`code, this`started, buf
      ensures Valid(p) && Abs() == After(Reader(p), old(Abs()), chunk) && out == Yielded(Reader(p), old(Abs()), chunk)
    {
      out := [];
      var i := 0;
      ghost var d := Abs();
      assert chunk[0..] == chunk;
      while i < |chunk|
        invariant Valid(p) && i <= |chunk|
        invariant After(Reader(p), Abs(), chunk[i..]) == After(Reader(p), d, chunk)
        invariant out + Yielded(Reader(p), Abs(), chunk[i..]) == Yielded(Reader(p), d, chunk)
        decreases |chunk| - i, size
      {
        i, out := ReceiveSome(p, chunk, i, out);
      }
    }

    /** Reads of any sizes yield what one read of everything would. */
    method ReceiveAll(p: Params<T>, chunks: seq<seq<Octet>>) returns (out: seq<seq<Octet>>)
      requires Valid(p)
      modifies this`size, this`csum, this`over, this`left, this`code, this`started, buf
      ensures Valid(p) && Abs() == After(Reader(p), old(Abs()), Joined(chunks))
              && out == Yielded(Reader(p), old(Abs()), Joined(chunks))
    {
      out := [];
      ghost var d := Abs();
      for i := 0 to |chunks|
        invariant Valid(p) && Abs() == After(Reader(p), d, Joined(chunks[..i]))
                  && out == Yielded(Reader(p), d, Joined(chunks[..i]))
      {
        var more := Receive(p, chunks[i]);
        StreamSplits(Reader(p), d, Joined(chunks[..i]), chunks[i]);
        assert chunks[..i + 1][..i] == chunks[..i];
        out := out + more;
      }
      assert chunks[..|chunks|] == chunks;
    }
  }

  /** A packet completes at n: the delimiter, seen again by a cleared decoder, yields
      nothing more. */
  lemma PacketTaken<T>(p: Params<T>, d: Dec<T>, s: seq<Octet>, n: nat)
    requires ValidParams(p) && n < |s| && s[n] == 0
    requires Yielded(Reader(p), d, s[..n]) == [] && Accepts(p, After(Reader(p), d, s[..n]))
    ensures After(Reader(p), d, s) == After(Reader(p), Reset(p), s[n..])
    ensures Yielded(Reader(p), d, s) == [PacketOf(p, After(Reader(p), d, s[..n]))]
            + Yielded(Reader(p), Reset(p), s[n..])
  {
    assert s == s[..n] + s[n..];
    StreamSplits(Reader(p), d, s[..n], s[n..]);
    var e := After(Reader(p), d, s[..n]);
    assert After(Reader(p), e, s[n..]) == After(Reader(p), Reset(p), s[n..][1..]) == After(Reader(p), Reset(p), s[n..]);
    assert Yielded(Reader(p), e, s[n..]) == [PacketOf(p, e)] + Yielded(Reader(p), Reset(p), s[n..][1..]);
    assert Yielded(Reader(p), Reset(p), s[n..]) == [] + Yielded(Reader(p), Reset(p), s[n..][1..]);
  }

  lemma PacketAdded<T>(p: Params<T>, d: Dec<T>, s: seq<Octet>, n: nat, out: seq<seq<Octet>>)
    requires ValidParams(p) && n < |s| && s[n] == 0
    requires Yielded(Reader(p), d, s[..n]) == [] && Accepts(p, After(Reader(p), d, s[..n]))
    ensures After(Reader(p), d, s) == After(Reader(p), Reset(p), s[n..])
    ensures out + Yielded(Reader(p), d, s) == out + [PacketOf(p, After(Reader(p), d, s[..n]))]
            + Yielded(Reader(p), Reset(p), s[n..])
  {
    PacketTaken(p, d, s, n);
    var x, more := [PacketOf(p, After(Reader(p), d, s[..n]))], Yielded(Reader(p), Reset(p), s[n..]);
    assert out + (x + more) == out + x + more;
  }

  // ----- decoding undoes encoding

  /** A frame in progress with room for n more octets of data. */
  predicate Roomy<T>(p: Params<T>, d: Dec<T>, n: nat) {
    !d.over && |d.data| + n <= p.cap
  }

  /** What a decoder that reads t in full holds then. */
  function Holding<T>(p: Params<T>, d: Dec<T>, t: seq<Octet>): Dec<T> {
    d.(data := d.data + t, csum := Sum(p.csum, d.csum, t))
  }

  lemma HoldingMore<T>(p: Params<T>, d: Dec<T>, t: seq<Octet>, u: seq<Octet>)
    ensures Holding(p, Holding(p, d, t), u) == Holding(p, d, t + u)
  {
    SumAppend(p.csum, d.csum, t, u);
    assert d.data + t + u == d.data + (t + u);
  }

  /** The octets of a group are gathered as they come. */
  lemma {:induction false} GroupRead<T>(p: Params<T>, d: Dec<T>, t: seq<Octet>)
    requires NoZero(t) && d.left == |t| && Roomy(p, d, |t|)
    ensures After(Reader(p), d, t) == Holding(p, d, t).(left := 0) && Yielded(Reader(p), d, t) == []
    decreases |t|
  {
    if t == [] {
      assert d.data + t == d.data;
    } else {
      var e := Holding(p, d, [t[0]]).(left := d.left - 1);
      assert Sum(p.csum, d.csum, [t[0]]) == Add(p.csum, d.csum, t[0]);
      assert Next(p, d, t[0]) == e;
      GroupRead(p, e, t[1..]);
      assert [t[0]] + t[1..] == t;
      HoldingMore(p, d, [t[0]], t[1..]);
    }
  }

  /** A code octet settles the zero before it and announces its group. */
  lemma CodeRead<T>(p: Params<T>, d: Dec<T>, k: nat)
    requires k <= BLOCK && d.left == 0 && Roomy(p, d, |Pending(d)|)
    ensures Next(p, d, k + 1) == Holding(p, d, Pending(d)).(code := k + 1, left := k, started := true)
  {
    assert Sum(p.csum, d.csum, [0]) == Add(p.csum, d.csum, 0);
  }

  /** One group: its code octet and its octets. */
  lemma GroupDecodes<T>(p: Params<T>, d: Dec<T>, t: seq<Octet>)
    requires NoZero(t) && |t| <= BLOCK && d.left == 0 && Roomy(p, d, |Pending(d)| + |t|)
    ensures After(Reader(p), d, [|t| + 1] + t) ==
            Holding(p, d, Pending(d) + t).(code := |t| + 1, left := 0, started := true)
    ensures Yielded(Reader(p), d, [|t| + 1] + t) == []
  {
    OneOctet(Reader(p), d, |t| + 1);
    StreamSplits(Reader(p), d, [|t| + 1], t);
    CodeRead(p, d, |t|);
    GroupRead(p, Next(p, d, |t| + 1), t);
    HoldingMore(p, d, Pending(d), t);
  }

  /** The zero a group stopped at, or none behind a full one, then the rest. */
  function Gap(k: nat): seq<Octet> {
    if k == BLOCK then [] else [0]
  }

  lemma GapJoins(s: seq<Octet>, k: nat)
    requires k < |s| && (k != BLOCK ==> s[k] == 0)
    ensures s == s[..k] + (Gap(k) + Later(s, k))
  {
  }

  lemma Gather<T>(p: Params<T>, d: Dec<T>, u: seq<Octet>, t: seq<Octet>, g: seq<Octet>, l: seq<Octet>, s: seq<Octet>)
    requires s == t + (g + l)
    ensures Holding(p, Holding(p, d, u + t), g + l) == Holding(p, d, u + s)
  {
    HoldingMore(p, d, u + t, g + l);
    assert u + t + (g + l) == u + s;
  }

  /** Reading an encoded message gathers the message, behind what was pending. */
  lemma {:induction false} DecodesEncoded<T>(p: Params<T>, d: Dec<T>, s: seq<Octet>)
    requires d.left == 0 && Roomy(p, d, |Pending(d)| + |s|)
    ensures var e := After(Reader(p), d, Encode(s));
            e == Holding(p, d, Pending(d) + s).(code := e.code, started := true)
    ensures Yielded(Reader(p), d, Encode(s)) == []
    decreases |s|
  {
    var k := Span(s);
    if k == |s| {
      LastDecodes(p, d, s);
    } else {
      var w := [k + 1] + s[..k];
      GroupDecodes(p, d, s[..k]);
      assert Encode(s) == w + Onward(s, k);
      var e := After(Reader(p), d, w);
      GroupLeaves(p, d, s, k, e);
      DecodesEncoded(p, e, Later(s, k));
      GapJoins(s, k);
      DecodesOn(p, d, w, Encode(Later(s, k)), e, s[..k], Gap(k), Later(s, k), s);
    }
  }

  /** A message of a single group. */
  lemma LastDecodes<T>(p: Params<T>, d: Dec<T>, s: seq<Octet>)
    requires Span(s) == |s| && d.left == 0 && Roomy(p, d, |Pending(d)| + |s|)
    ensures var e := After(Reader(p), d, Encode(s));
            e == Holding(p, d, Pending(d) + s).(code := e.code, started := true)
    ensures Yielded(Reader(p), d, Encode(s)) == []
  {
    assert s[..|s|] == s;
    assert Encode(s) == [|s| + 1] + s + Onward(s, |s|);
    GroupDecodes(p, d, s);
    assert [|s| + 1] + s + [] == [|s| + 1] + s;
  }

  /** Behind a group the decoder is ready for the next, with room for it. */
  lemma GroupLeaves<T>(p: Params<T>, d: Dec<T>, s: seq<Octet>, k: nat, e: Dec<T>)
    requires k == Span(s) < |s| && d.left == 0 && Roomy(p, d, |Pending(d)| + |s|)
    requires e == Holding(p, d, Pending(d) + s[..k]).(code := k + 1, left := 0, started := true)
    ensures e.left == 0 && Pending(e) == Gap(k) && Roomy(p, e, |Gap(k)| + |Later(s, k)|)
  {
  }

  /** A group t and what follows it, a gap and the rest, put together. */
  lemma DecodesOn<T>(p: Params<T>, d: Dec<T>, w: seq<Octet>, x: seq<Octet>, e: Dec<T>,
                     t: seq<Octet>, gap: seq<Octet>, l: seq<Octet>, s: seq<Octet>)
    requires e == After(Reader(p), d, w) && Yielded(Reader(p), d, w) == [] && Yielded(Reader(p), e, x) == []
    requires e == Holding(p, d, Pending(d) + t).(code := e.code, left := d.left, started := true)
    requires var f := After(Reader(p), e, x); f == Holding(p, e, gap + l).(code := f.code, started := true)
    requires s == t + (gap + l)
    ensures var f := After(Reader(p), d, w + x);
            f == Holding(p, d, Pending(d) + s).(code := f.code, started := true)
    ensures Yielded(Reader(p), d, w + x) == []
  {
    StreamSplits(Reader(p), d, w, x);
    Gather(p, d, Pending(d), t, gap, l, s);
  }

  // ----- streams of frames

  function OnWire<T>(a: Csum<T>, frames: seq<Sent>): seq<Octet> {
    if frames == [] then []
    else Padding(0, frames[0].padding) + CobsEncoder.Framed(a, frames[0].body) + OnWire(a, frames[1..])
  }

  /** A packet of a legal size that the peer has room for. */
  predicate Fits<T>(p: Params<T>, body: seq<Octet>) {
    p.ping <= |body| && |body| + Width(p.csum) <= p.cap
  }

  lemma {:induction false} PaddingIsIdle<T>(p: Params<T>, n: nat)
    requires ValidParams(p)
    ensures After(Reader(p), Reset(p), Padding(0, n)) == Reset(p) && Yielded(Reader(p), Reset(p), Padding(0, n)) == []
    decreases n
  {
    if n != 0 {
      assert Padding(0, n)[1..] == Padding(0, n - 1);
      PaddingIsIdle(p, n - 1);
    }
  }

  /** One frame yields its body, given the checksum's residual law. */
  lemma FrameDecodes<T>(p: Params<T>, body: seq<Octet>)
    requires ValidParams(p) && Residual(p.csum) && Fits(p, body)
    ensures var s := CobsEncoder.Framed(p.csum, body);
            After(Reader(p), Reset(p), s) == Reset(p) && Yielded(Reader(p), Reset(p), s) == [body]
  {
    var s := Sealed(p.csum, body);
    DecodesEncoded(p, Reset(p), s);
    var d := After(Reader(p), Reset(p), Encode(s));
    assert [] + s == s;
    assert d.data == s && Intact(p.csum, d.csum);
    assert PacketOf(p, d) == body;
    StreamSplits(Reader(p), Reset(p), Encode(s), [0]);
    assert [0][1..] == [];
  }

  /** Any list of frames that fit, sent back to back or with any padding between,
      comes out as those packets, in order and nothing else. */
  lemma {:induction false} StreamRoundTrip<T>(p: Params<T>, frames: seq<Sent>)
    requires ValidParams(p) && Residual(p.csum)
    requires forall i :: 0 <= i < |frames| ==> Fits(p, frames[i].body)
    ensures After(Reader(p), Reset(p), OnWire(p.csum, frames)) == Reset(p)
    ensures Yielded(Reader(p), Reset(p), OnWire(p.csum, frames)) == Bodies(frames)
    decreases |frames|
  {
    if frames != [] {
      var pad, frame := Padding(0, frames[0].padding), CobsEncoder.Framed(p.csum, frames[0].body);
      PaddingIsIdle(p, frames[0].padding);
      FrameDecodes(p, frames[0].body);
      StreamSplits(Reader(p), Reset(p), pad, frame);
      StreamSplits(Reader(p), Reset(p), pad + frame, OnWire(p.csum, frames[1..]));
      StreamRoundTrip(p, frames[1..]);
    }
  }

  /** Whatever a decoder is in the middle of, one delimiter brings it in step. */
  lemma Resynchronises<T>(p: Params<T>, d: Dec<T>, frames: seq<Sent>)
    requires ValidParams(p) && Residual(p.csum)
    requires forall i :: 0 <= i < |frames| ==> Fits(p, frames[i].body)
    ensures Yielded(Reader(p), d, [0] + OnWire(p.csum, frames)) == Yield(p, d, 0) + Bodies(frames)
  {
    StreamSplits(Reader(p), d, [0], OnWire(p.csum, frames));
    assert [0][1..] == [];
    StreamRoundTrip(p, frames);
  }
}
