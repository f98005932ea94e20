/**
 Which streams of octets are packets of the escaped framing: a reference decoding of
 what stands between two boundaries, and what the streaming decoder makes of it.
 */
module HdlcExact {
  import opened Common
  import opened Checksum
  import opened Streams
  import opened Hdlc
  import opened HdlcDecoder

  /** The message between two boundaries. An escape octet with nothing behind it
      counts for nothing. */
  function Unescape(m: Marks, x: seq<Octet>): seq<Octet>
    decreases |x|
  {
    if x == [] then []
    else if x[0] != m.esc then [x[0]] + Unescape(m, x[1..])
    else if |x| == 1 then []
    else [Flip(x[1])] + Unescape(m, x[2..])
  }

  lemma {:induction false} UnescapeUndoes(m: Marks, s: seq<Octet>)
    requires ValidMarks(m)
    ensures Unescape(m, Escape(m, s)) == s
    decreases |s|
  {
    if s != [] {
      var e, more := EscapeOctet(m, s[0]), Escape(m, s[1..]);
      UnescapeUndoes(m, s[1..]);
      if IsMark(m, s[0]) {
        FlipsBack(s[0]);
        assert (e + more)[2..] == more;
      } else {
        assert (e + more)[1..] == more;
      }
    }
  }

  // ----- reading any octets but the boundary

  lemma {:induction false} LostStays<T>(p: Params<T>, d: Dec<T>, x: seq<Octet>)
    requires SofFree(p.marks, x) && d.mode.Lost?
    ensures After(Reader(p), d, x) == d && Yielded(Reader(p), d, x) == []
    decreases |x|
  {
    if x != [] {
      LostStays(p, d, x[1..]);
    }
  }

  /** What reading x inside a frame must come to: the message behind what was there,
      or nothing if that has no room. */
  ghost predicate Gathers<T>(p: Params<T>, d: Dec<T>, x: seq<Octet>, e: Dec<T>) {
    var s := Unescape(p.marks, x);
    if |d.data| + |s| <= p.cap then e == Holding(p, d, s).(mode := e.mode) else e.mode.Lost? && e.data == []
  }

  lemma {:induction false} ReadsAny<T>(p: Params<T>, d: Dec<T>, x: seq<Octet>)
    requires SofFree(p.marks, x) && d.mode.Inside? && |d.data| <= p.cap
    ensures Yielded(Reader(p), d, x) == [] && Gathers(p, d, x, After(Reader(p), d, x))
    decreases |x|, 0
  {
    if x == [] {
      assert d.data + [] == d.data;
    } else if x[0] != p.marks.esc {
      OctetThen(p, d, x[0], x[1..]);
    } else if |x| == 1 {
      OneOctet(Reader(p), d, x[0]);
      assert x == [x[0]] && d.data + [] == d.data;
    } else {
      var e := d.(mode := Escaped);
      assert Next(p, d, x[0]) == e && Next(p, e, x[1]) == Store(p, e, Flip(x[1]));
      OctetThen(p, d, Flip(x[1]), x[2..]);
      assert x[1..][1..] == x[2..];
    }
  }

  /** One octet of the message c, and what follows it. */
  lemma {:induction false} OctetThen<T>(p: Params<T>, d: Dec<T>, c: Octet, x: seq<Octet>)
    requires SofFree(p.marks, x) && d.mode.Inside? && |d.data| <= p.cap
    ensures var e, s := Store(p, d, c), [c] + Unescape(p.marks, x);
            && Yielded(Reader(p), e, x) == []
            && var f := After(Reader(p), e, x);
               if |d.data| + |s| <= p.cap then f == Holding(p, d, s).(mode := f.mode) else f.mode.Lost? && f.data == []
    decreases |x|, 1
  {
    var e, s := Store(p, d, c), [c] + Unescape(p.marks, x);
    if |d.data| < p.cap {
      ReadsAny(p, e, x);
      assert d.data + [c] + Unescape(p.marks, x) == d.data + s;
      assert s[1..] == Unescape(p.marks, x);
    } else {
      LostStays(p, e, x);
    }
  }

  // ----- the verdict

  /** The packet a message is, if it fits the buffer, is long enough and passes the
      checksum. */
  function Verdict<T>(p: Params<T>, s: seq<Octet>): seq<seq<Octet>> {
    if p.ping + Width(p.csum) <= |s| <= p.cap && Intact(p.csum, Sum(p.csum, p.csum.init, s))
    then [s[..|s| - Width(p.csum)]] else []
  }

  /** Whatever stands between two boundaries is judged by the message it stands for. */
  lemma JudgesEveryFrame<T>(p: Params<T>, x: seq<Octet>)
    requires ValidParams(p) && SofFree(p.marks, x)
    ensures After(Reader(p), Ready(p), x + [p.marks.sof]) == Ready(p)
    ensures Yielded(Reader(p), Ready(p), x + [p.marks.sof]) == Verdict(p, Unescape(p.marks, x))
  {
    ReadsAny(p, Ready(p), x);
    var e := After(Reader(p), Ready(p), x);
    StreamSplits(Reader(p), Ready(p), x, [p.marks.sof]);
    BoundaryRead(p, e);
    BoundaryJudges(p, x, e);
  }

  lemma BoundaryJudges<T>(p: Params<T>, x: seq<Octet>, e: Dec<T>)
    requires ValidParams(p) && Gathers(p, Ready(p), x, e)
    ensures Yield(p, e, p.marks.sof) == Verdict(p, Unescape(p.marks, x))
  {
    assert [] + Unescape(p.marks, x) == Unescape(p.marks, x);
  }

  lemma VerdictIsSealed<T(!new)>(p: Params<T>, s: seq<Octet>, body: seq<Octet>)
    requires Residual(p.csum) && Exact(p.csum)
    ensures Verdict(p, s) == [body] <==> s == Sealed(p.csum, body) && Fits(p, body)
  {
    if s == Sealed(p.csum, body) && Fits(p, body) {
      assert s[..|body|] == body;
    }
  }

  /** With a checksum that seals exactly, a packet is yielded exactly if the frame
      stands for that packet sealed, and it is of a size that fits. */
  lemma YieldsOnlySealed<T(!new)>(p: Params<T>, x: seq<Octet>, body: seq<Octet>)
    requires ValidParams(p) && SofFree(p.marks, x) && Residual(p.csum) && Exact(p.csum)
    ensures Yielded(Reader(p), Ready(p), x + [p.marks.sof]) == [body] <==>
            Unescape(p.marks, x) == Sealed(p.csum, body) && Fits(p, body)
  {
    JudgesEveryFrame(p, x);
    VerdictIsSealed(p, Unescape(p.marks, x), body);
  }
}
