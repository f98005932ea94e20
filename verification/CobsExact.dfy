/**
 Which streams of octets are frames: a reference decoding of whole messages, and what
 the streaming decoder makes of every one of them, the broken ones included.
 */
module CobsExact {
  import opened Common
  import opened Checksum
  import opened Streams
  import opened Cobs
  import opened CobsDecoder

  /** The message an encoding stands for, or None if its last group is cut short. */
  function Decode(x: seq<Octet>): Option<seq<Octet>>
    requires NoZero(x)
    decreases |x|
  {
    if x == [] then Some([])
    else
      var k := x[0] - 1;
      if |x| <= k then None
      else if |x| == k + 1 then Some(x[1..])
      else
        match Decode(x[k + 1..])
        case None => None
        case Some(t) => Some(x[1..k + 1] + (Gap(k) + t))
  }

  lemma {:induction false} DecodeUndoes(s: seq<Octet>)
    ensures NoZero(Encode(s)) && Decode(Encode(s)) == Some(s)
    decreases |s|
  {
    var k, x := Span(s), Encode(s);
    EncodedHasNoZero(s);
    assert x[0] == k + 1 && x[1..] == s[..k] + Onward(s, k);
    if k == |s| {
      assert x[1..] == s;
    } else {
      DecodeUndoes(Later(s, k));
      assert x[k + 1..] == Encode(Later(s, k));
      assert x[1..k + 1] == s[..k];
      GapJoins(s, k);
    }
  }

  // ----- reading any octets but the delimiter

  lemma {:induction false} OverStays<T>(p: Params<T>, d: Dec<T>, x: seq<Octet>)
    requires NoZero(x) && d.over
    ensures After(Reader(p), d, x).over && Yielded(Reader(p), d, x) == []
    decreases |x|
  {
    if x != [] {
      OverStays(p, d, x[1..]);
    }
  }

  /** Octets of a group, as far as they go. */
  lemma {:induction false} GroupGathers<T>(p: Params<T>, d: Dec<T>, t: seq<Octet>)
    requires NoZero(t) && |t| <= d.left && !d.over && |d.data| <= p.cap
    ensures Yielded(Reader(p), d, t) == []
    ensures var e := After(Reader(p), d, t);
            if |d.data| + |t| <= p.cap then e == Holding(p, d, t).(left := d.left - |t|) else e.over
    decreases |t|
  {
    if t == [] {
      assert d.data + t == d.data;
    } else {
      var e := Next(p, d, t[0]);
      if e.over {
        OverStays(p, e, t[1..]);
      } else {
        GroupGathers(p, e, t[1..]);
        assert Sum(p.csum, d.csum, [t[0]]) == Add(p.csum, d.csum, t[0]);
        assert [t[0]] + t[1..] == t;
        HoldingMore(p, d, [t[0]], t[1..]);
      }
    }
  }

  /** What reading x from a decoder between two groups must come to. */
  ghost predicate Gathers<T>(p: Params<T>, d: Dec<T>, x: seq<Octet>, e: Dec<T>)
    requires NoZero(x)
  {
    match Decode(x)
    case None => e.over || e.left != 0
    case Some(s) =>
      if x == [] then e == d
      else if |d.data| + |Pending(d) + s| <= p.cap
      then e == Holding(p, d, Pending(d) + s).(code := e.code, started := true)
      else e.over
  }

  lemma {:induction false} ReadsAny<T>(p: Params<T>, d: Dec<T>, x: seq<Octet>)
    requires NoZero(x) && d.left == 0 && !d.over && |d.data| <= p.cap
    ensures Yielded(Reader(p), d, x) == [] && Gathers(p, d, x, After(Reader(p), d, x))
    decreases |x|
  {
    if x != [] {
      var k, e := x[0] - 1, Next(p, d, x[0]);
      if e.over {
        OverStays(p, e, x[1..]);
      } else {
        CodeRead(p, d, k);
        if |x| <= k + 1 {
          LastGroup(p, d, x, e);
        } else {
          MoreGroups(p, d, x, e);
        }
      }
    }
  }

  lemma LastGroup<T>(p: Params<T>, d: Dec<T>, x: seq<Octet>, e: Dec<T>)
    requires NoZero(x) && x != [] && |x| <= x[0] && d.left == 0 && !d.over && |d.data| + |Pending(d)| <= p.cap
    requires e == Next(p, d, x[0]) == Holding(p, d, Pending(d)).(code := x[0], left := x[0] - 1, started := true)
    ensures Yielded(Reader(p), d, x) == [] && Gathers(p, d, x, After(Reader(p), d, x))
  {
    GroupGathers(p, e, x[1..]);
    HoldingMore(p, d, Pending(d), x[1..]);
  }

  lemma {:induction false} MoreGroups<T>(p: Params<T>, d: Dec<T>, x: seq<Octet>, e: Dec<T>)
    requires NoZero(x) && x != [] && x[0] < |x| && d.left == 0 && !d.over && |d.data| + |Pending(d)| <= p.cap
    requires e == Next(p, d, x[0]) == Holding(p, d, Pending(d)).(code := x[0], left := x[0] - 1, started := true)
    ensures Yielded(Reader(p), d, x) == [] && Gathers(p, d, x, After(Reader(p), d, x))
    decreases |x|, 0
  {
    var k := x[0] - 1;
    var t, rest := x[1..k + 1], x[k + 1..];
    assert x[1..] == t + rest;
    StreamSplits(Reader(p), e, t, rest);
    GroupGathers(p, e, t);
    var f := After(Reader(p), e, t);
    if f.over {
      OverStays(p, f, rest);
    } else {
      ReadsAny(p, f, rest);
      HoldingMore(p, d, Pending(d), t);
      assert Pending(f) == Gap(k);
      match Decode(rest)
      case None =>
      case Some(s) => Gather(p, d, Pending(d), t, Gap(k), s, t + (Gap(k) + s));
    }
  }

  // ----- the verdict

  /** The packet a message is, if it fits the buffer, is long enough and passes the
      checksum. */
  function Verdict<T>(p: Params<T>, s: seq<Octet>): seq<seq<Octet>> {
    if p.ping + Width(p.csum) <= |s| <= p.cap && Intact(p.csum, Sum(p.csum, p.csum.init, s))
    then [s[..|s| - Width(p.csum)]] else []
  }

  lemma DelimiterJudges<T>(p: Params<T>, x: seq<Octet>, e: Dec<T>)
    requires ValidParams(p) && NoZero(x) && Gathers(p, Reset(p), x, e)
    ensures Yield(p, e, 0) == match Decode(x) case None => [] case Some(s) => Verdict(p, s)
  {
    if x != [] && Decode(x).Some? {
      var s := Decode(x).value;
      assert Pending(Reset(p)) + s == s && [] + s == s;
    }
  }

  /** Whatever stands between two delimiters is judged by the message it decodes to,
      and yields nothing if it decodes to none. */
  lemma JudgesEveryFrame<T>(p: Params<T>, x: seq<Octet>)
    requires ValidParams(p) && NoZero(x)
    ensures After(Reader(p), Reset(p), x + [0]) == Reset(p)
    ensures Yielded(Reader(p), Reset(p), x + [0]) == match Decode(x) case None => [] case Some(s) => Verdict(p, s)
  {
    ReadsAny(p, Reset(p), x);
    StreamSplits(Reader(p), Reset(p), x, [0]);
    OneOctet(Reader(p), After(Reader(p), Reset(p), x), 0);
    DelimiterJudges(p, x, After(Reader(p), Reset(p), x));
  }

  lemma VerdictIsSealed<T(!new)>(p: Params<T>, s: seq<Octet>, body: seq<Octet>)
    requires Residual(p.csum) && Exact(p.csum)
    ensures Verdict(p, s) == [body] <==> s == Sealed(p.csum, body) && Fits(p, body)
  {
    if s == Sealed(p.csum, body) && Fits(p, body) {
      assert s[..|body|] == body;
    }
  }

  /** With a checksum that seals exactly, a packet is yielded exactly if the frame
      decodes to that packet sealed, and it is of a size that fits. */
  lemma YieldsOnlySealed<T(!new)>(p: Params<T>, x: seq<Octet>, body: seq<Octet>)
    requires ValidParams(p) && NoZero(x) && Residual(p.csum) && Exact(p.csum)
    ensures Yielded(Reader(p), Reset(p), x + [0]) == [body] <==>
            Decode(x) == Some(Sealed(p.csum, body)) && Fits(p, body)
  {
    JudgesEveryFrame(p, x);
    if Decode(x).Some? {
      VerdictIsSealed(p, Decode(x).value, body);
    }
  }
}
