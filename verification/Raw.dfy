/**
 The framing of a transport that delimits frames itself: the announced number of
 octets makes a frame, and only the checksum tells whether it is intact.
 */
module Raw {
  import opened Common
  import opened Checksum
  import opened Crc
  import opened CrcExact

  /** Whether a whole frame is a packet. */
  predicate Deliverable<T>(a: Csum<T>, ping: nat, frame: seq<Octet>) {
    |frame| >= ping + Width(a) && Intact(a, Sum(a, a.init, frame))
  }

  class Decoder<T> {
    var buf: array<Octet>
    var size: nat
    var csum: T
    var left: nat
    var active: bool

    /** Octets gathered, and how many the frame still lacks. */
    ghost predicate Gathering(a: Csum<T>, got: seq<Octet>, lacks: nat)
      reads this, buf
    {
      && active && 0 < left == lacks && size + left <= buf.Length
      && buf[..size] == got && csum == Sum(a, a.init, got)
    }

    /** Gets ready for a frame of the announced length, which the transport has
        checked against its buffer. */
    constructor (a: Csum<T>, b: array<Octet>, length: nat)
      requires length <= b.Length
      ensures buf == b && if length == 0 then !active else Gathering(a, [], length)
    {
      buf, size, csum, left, active := b, 0, a.init, length, length != 0;
    }

    /** Takes octets up to the announced length, and judges the frame there. */
    method Feed(a: Csum<T>, ping: nat, src: seq<Octet>, ghost got: seq<Octet>) returns (take: nat, done: bool)
      requires active ==> Gathering(a, got, left)
      modifies this`size, this`csum, this`left, this`active, buf
      ensures !old(active) ==> take == |src| && !done && !active
      ensures old(active) && |src| < old(left) ==>
                take == |src| && !done && Gathering(a, got + src, old(left) - |src|)
      ensures old(active && left <= |src|) ==>
                && take == old(left) && !active
                && done == Deliverable(a, ping, got + src[..take])
                && (done ==> size <= buf.Length && buf[..size] == (got + src[..take])[..|got| + take - Width(a)])
    {
      take, done := |src|, false;
      if !active {
        return;
      }
      if left < take {
        take := left;
      }
      Gather(a, src[..take], got);
      left := left - take;
      if left != 0 {
        assert src[..take] == src;
        return;
      }
      active := false;
      if size >= ping + Width(a) && (a.on ==> a.ok(csum)) {
        size := size - Width(a);
        done := true;
      }
    }

    method Gather(a: Csum<T>, s: seq<Octet>, ghost got: seq<Octet>)
      requires Gathering(a, got, left) && |s| <= left
      modifies this`size, this`csum, buf
      ensures size == |got| + |s| <= buf.Length && buf[..size] == got + s && csum == Sum(a, a.init, got + s)
    {
      var i := 0;
      while i < |s|
        invariant i <= |s| && size == |got| + i && size + |s| - i <= buf.Length
        invariant buf[..size] == got + s[..i] && csum == Sum(a, a.init, got + s[..i])
      {
        SumAppend(a, a.init, got + s[..i], [s[i]]);
        assert got + s[..i + 1] == got + s[..i] + [s[i]];
        csum := Add(a, csum, s[i]);
        buf[size] := s[i];
        size := size + 1;
        i := i + 1;
      }
      assert s[..i] == s;
    }

    /** A frame fed in pieces of any sizes is delivered exactly if it is a packet. */
    method FeedAll(a: Csum<T>, ping: nat, pieces: seq<seq<Octet>>) returns (done: bool)
      requires Gathering(a, [], left) && |Joined(pieces)| == left
      modifies this`size, this`csum, this`left, this`active, buf
      ensures done == Deliverable(a, ping, Joined(pieces))
      ensures done ==> size <= buf.Length && buf[..size] == Joined(pieces)[..|Joined(pieces)| - Width(a)]
    {
      done := false;
      ghost var frame := Joined(pieces);
      for i := 0 to |pieces|
        invariant Joined(pieces[..i]) <= frame
        invariant if |Joined(pieces[..i])| < |frame|
                  then !done && Gathering(a, Joined(pieces[..i]), |frame| - |Joined(pieces[..i])|)
                  else !active && done == Deliverable(a, ping, frame) &&
                       (done ==> size <= buf.Length && buf[..size] == frame[..|frame| - Width(a)])
      {
        ghost var got := Joined(pieces[..i]);
        assert pieces[..i + 1][..i] == pieces[..i];
        JoinedPrefix(pieces, i + 1);
        if active {
          var take, d := Feed(a, ping, pieces[i], got);
          done := d;
          assert take == |pieces[i]|;
          assert pieces[i][..take] == pieces[i];
          assert |got + pieces[i]| == |frame| ==> got + pieces[i] == frame;
        } else {
          assert |Joined(pieces[..i + 1])| == |frame|;
        }
      }
      assert pieces[..|pieces|] == pieces;
    }
  }

  lemma {:induction false} JoinedPrefix(pieces: seq<seq<Octet>>, i: nat)
    requires i <= |pieces|
    ensures Joined(pieces[..i]) <= Joined(pieces)
    decreases |pieces|
  {
    if i == |pieces| {
      assert pieces[..i] == pieces;
    } else {
      var front := pieces[..|pieces| - 1];
      JoinedPrefix(front, i);
      assert front[..i] == pieces[..i];
    }
  }

  /** A packet sealed by its sender is delivered as it was. */
  lemma SealedIsDelivered<T>(a: Csum<T>, ping: nat, body: seq<Octet>)
    requires Residual(a) && ping <= |body|
    ensures Deliverable(a, ping, Sealed(a, body))
    ensures Sealed(a, body)[..|Sealed(a, body)| - Width(a)] == body
  {
  }

  /** Nothing else is: a frame is a packet exactly if it is long enough and the rest
      of it, sealed. */
  lemma OnlySealedIsDelivered<T(!new)>(a: Csum<T>, ping: nat, frame: seq<Octet>)
    requires Residual(a) && Exact(a)
    ensures Deliverable(a, ping, frame) <==>
            ping + Width(a) <= |frame| && frame == Sealed(a, frame[..|frame| - Width(a)])
  {
    if ping + Width(a) <= |frame| {
      assert Intact(a, Sum(a, a.init, Sealed(a, frame[..|frame| - Width(a)])));
    }
  }

  /** Changed in one octet, whatever its length, it is not. */
  lemma ChangedIsNotDelivered<T(!new)>(a: Csum<T>, ping: nat, body: seq<Octet>, i: nat, c: Octet)
    requires Residual(a) && Reversible(a) && a.on
    requires i < |Sealed(a, body)| && c != Sealed(a, body)[i]
    ensures !Deliverable(a, ping, Sealed(a, body)[i := c])
  {
    OneChangeIsSeen(a, Sealed(a, body), i, c);
  }

  /** Both hold of the two 16-bit checksums. */
  lemma SixteenBitFrames(ping: nat, body: seq<Octet>, i: nat, c: Octet)
    requires i < |body| + 2
    ensures forall a | a == KERMIT || a == FCS16 ::
              && (ping <= |body| ==> Deliverable(a, ping, Sealed(a, body)))
              && (c != Sealed(a, body)[i] ==> !Deliverable(a, ping, Sealed(a, body)[i := c]))
  {
    KermitResidual();
    FcsResidual();
    BothReversible();
    if c != Sealed(KERMIT, body)[i] {
      ChangedIsNotDelivered(KERMIT, ping, body, i, c);
    }
    if c != Sealed(FCS16, body)[i] {
      ChangedIsNotDelivered(FCS16, ping, body, i, c);
    }
  }

  /** With either, a frame is a packet exactly if it is long enough and ends in the
      checksum of the rest. */
  lemma SixteenBitExactly(ping: nat, frame: seq<Octet>)
    ensures forall a | a == KERMIT || a == FCS16 ::
              Deliverable(a, ping, frame) <==> ping + 2 <= |frame| && frame == Sealed(a, frame[..|frame| - 2])
  {
    KermitResidual();
    FcsResidual();
    BothExact();
    OnlySealedIsDelivered(KERMIT, ping, frame);
    OnlySealedIsDelivered(FCS16, ping, frame);
  }
}
