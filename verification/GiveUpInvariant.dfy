/**
 Giving packets up is safe: a packet confirmed as timed out is never delivered,
 although its number passes to the packet behind it while older frames are still
 in flight. It holds in every run in which a keep-alive PING repeats a NAK only once
 nothing is under way that answers it.

 The argument counts the NAKs a sender has handled, its epoch. In such runs a
 NAK reaches the sender only while the receiver has seen the current epoch and
 still misses the packet the NAK is about, so no copy of that packet is left, and
 no frame of an earlier epoch can ever be taken for the next one.
 */
module GiveUpInvariant {
  import opened SeqNum
  import opened Common
  import opened Protocol
  import opened Link
  import opened Delivery

  /** The unbounded numbers of one side: as a sender, packets acknowledged and NAKs
      handled; as a receiver, packets received, how far the peer was seen to have
      sent, and the epoch it was seen in; and the number its NAK is tracked by. */
  datatype Num = Num(acked: nat, epoch: nat, received: nat, seen: nat, peerEpoch: nat, track: nat)

  /** A frame in flight: the last number sent by it, its epoch and its ACK. */
  datatype Mark = Mark(pos: nat, epoch: nat, ack: nat)

  // ----- one side

  ghost predicate Local(c: Config, n: Node, g: Num) {
    && WellFormed(c, n)
    && n.tx.lastAck == Wrap(c.ids, g.acked)
    && n.rx.lastReceived == Wrap(c.ids, g.received)
    && n.rx.lastSeen == Wrap(c.ids, g.seen)
    && g.received <= g.seen <= g.received + c.window
    && !(n.nak.pending && n.nak.out)
    && (n.nak.tracked ==>
          n.nak.out && n.nak.track == Wrap(c.ids, g.track) && g.acked < g.track <= g.acked + c.window)
  }

  // ----- one direction: s sends with numbers g, r receives with numbers h

  ghost predicate Bounds(c: Config, t: Sender, g: Num, h: Num)
    requires SenderOk(c, t)
  {
    && g.acked <= h.received <= Sent(c, t, g.acked)
    && h.peerEpoch <= g.epoch <= h.peerEpoch + 1
    && (h.peerEpoch == g.epoch ==> h.seen <= Sent(c, t, g.acked))
  }

  /** A numbered frame is past p; an unnumbered one may repeat it. */
  predicate After(p: nat, f: Frame, m: Mark) {
    if f.ping then p <= m.pos else p < m.pos
  }

  /** A frame of the current epoch is past what was received and holds the packet
      of its number; one of an earlier epoch shows a gap and nothing else. */
  ghost predicate Flight(c: Config, f: Frame, m: Mark, t: Sender, g: Num, h: Num)
    requires SenderOk(c, t)
  {
    InSession(c, f) ==>
      && f.tx == Wrap(c.ids, if f.ping then m.pos + 1 else m.pos)
      && h.peerEpoch <= m.epoch <= g.epoch
      && (m.epoch == h.peerEpoch ==> After(h.seen, f, m))
      && (m.epoch == g.epoch ==> m.pos <= Sent(c, t, g.acked))
      && After(if m.epoch < g.epoch then h.received + 1 else h.received, f, m)
      && m.pos <= h.received + c.window
      && (!f.ping && m.epoch == g.epoch ==>
            && g.acked < m.pos <= g.acked + |t.window|
            && f.body == Some(t.window[m.pos - g.acked - 1].packet))
  }

  predicate Rising(c: Config, f: Frame, m: Mark, f': Frame, m': Mark)
    requires ValidConfig(c)
  {
    InSession(c, f) && InSession(c, f') ==>
      m.epoch <= m'.epoch && (m.epoch == m'.epoch ==> After(m.pos, f', m'))
  }

  ghost predicate Flights(c: Config, out: seq<Frame>, marks: seq<Mark>, t: Sender, g: Num, h: Num)
    requires SenderOk(c, t)
  {
    && |marks| == |out|
    && (forall i :: 0 <= i < |out| ==> Flight(c, out[i], marks[i], t, g, h))
    && (forall i, j :: 0 <= i < j < |out| ==> Rising(c, out[i], marks[i], out[j], marks[j]))
  }

  predicate CarriesNak(c: Config, f: Frame)
    requires ValidConfig(c)
  {
    InSession(c, f) && f.nak
  }

  /** What a frame of the receiver says: its ACK, and a NAK only while the loss it
      reports is still the sender's current state. */
  ghost predicate Reply(c: Config, f: Frame, m: Mark, nak: Nak, g: Num, h: Num)
    requires ValidConfig(c)
  {
    InSession(c, f) ==>
      && f.ack == Wrap(c.ids, m.ack)
      && g.acked <= m.ack <= h.received
      && (f.nak ==> m.ack == h.received && h.peerEpoch == g.epoch && h.received < h.seen && nak.out)
  }

  predicate OneNak(c: Config, f: Frame, m: Mark, f': Frame, m': Mark)
    requires ValidConfig(c)
  {
    InSession(c, f) && InSession(c, f') ==> m.ack <= m'.ack && !(f.nak && f'.nak)
  }

  ghost predicate Replies(c: Config, out: seq<Frame>, marks: seq<Mark>, nak: Nak, g: Num, h: Num)
    requires ValidConfig(c)
  {
    && |marks| == |out|
    && (forall i :: 0 <= i < |out| ==> Reply(c, out[i], marks[i], nak, g, h))
    && (forall i, j :: 0 <= i < j < |out| ==> OneNak(c, out[i], marks[i], out[j], marks[j]))
    && (nak.pending ==> h.peerEpoch == g.epoch && h.received < h.seen)
    && (h.peerEpoch < g.epoch ==> nak.out && h.received < h.seen)
  }

  /** While a NAK is in flight the peer cannot have the packet it is tracked by, nor
      get it from a frame ahead of the NAK; and no frame sent before the peer
      handled the NAK acknowledges that packet. */
  ghost predicate Tracks(c: Config, out: seq<Frame>, marks: seq<Mark>, rout: seq<Frame>, rmarks: seq<Mark>,
                         nak: Nak, g: Num, h: Num)
    requires ValidConfig(c) && |marks| == |out| && |rmarks| == |rout|
  {
    nak.tracked ==>
      && (forall j :: 0 <= j < |rout| && CarriesNak(c, rout[j]) ==> g.received < h.track)
      && (forall i, j :: 0 <= i < j < |rout| && CarriesNak(c, rout[j]) && Numbered(c, rout[i]) ==>
            rmarks[i].epoch == h.epoch ==> rmarks[i].pos < h.track)
      && (forall i :: 0 <= i < |out| && InSession(c, out[i]) && marks[i].epoch < g.epoch ==>
            marks[i].ack < h.track)
  }

  // ----- the ledger

  /** The packets confirmed as delivered, in order. */
  function Succeeded(o: seq<Outcome>): seq<Packet> {
    if o == [] then []
    else
      var last := o[|o| - 1];
      Succeeded(o[..|o| - 1]) + if last.result == Success then [last.packet] else []
  }

  ghost predicate Accounts(s: Side, r: Side, g: Num, h: Num) {
    && s.accepted == PacketsOf(s.confirmed) + Packets(s.node.tx.window)
    && |Succeeded(s.confirmed)| == g.acked
    && 0 <= h.received - g.acked <= |s.node.tx.window|
    && r.delivered == Succeeded(s.confirmed) + Packets(s.node.tx.window)[..h.received - g.acked]
  }

  ghost predicate Direction(c: Config, s: Side, g: Num, m: seq<Mark>, r: Side, h: Num, k: seq<Mark>)
    requires WellFormed(c, s.node)
  {
    && Bounds(c, s.node.tx, g, h)
    && Flights(c, s.out, m, s.node.tx, g, h)
    && Replies(c, r.out, k, r.node.nak, g, h)
    && Tracks(c, s.out, m, r.out, k, r.node.nak, g, h)
    && Accounts(s, r, g, h)
  }

  datatype Hist = Hist(g: Num, m: seq<Mark>)

  ghost predicate Safe(c: Config, s: Side, hs: Hist, r: Side, hr: Hist) {
    && ValidSide(c, s) && ValidSide(c, r)
    && Local(c, s.node, hs.g) && Local(c, r.node, hr.g)
    && Direction(c, s, hs.g, hs.m, r, hr.g, hr.m)
    && Direction(c, r, hr.g, hr.m, s, hs.g, hs.m)
  }

  // ----- channels

  lemma FlightsLose(c: Config, out: seq<Frame>, marks: seq<Mark>, t: Sender, g: Num, h: Num, k: nat)
    requires SenderOk(c, t) && Flights(c, out, marks, t, g, h) && k < |out|
    ensures Flights(c, Without(out, k), Without(marks, k), t, g, h)
  {
    var out', marks' := Without(out, k), Without(marks, k);
    forall i, j | 0 <= i < j < |out'| ensures Rising(c, out'[i], marks'[i], out'[j], marks'[j]) {
      var i', j' := if i < k then i else i + 1, if j < k then j else j + 1;
      assert Rising(c, out[i'], marks[i'], out[j'], marks[j']);
    }
  }

  lemma RepliesLose(c: Config, out: seq<Frame>, marks: seq<Mark>, nak: Nak, g: Num, h: Num, k: nat)
    requires ValidConfig(c) && Replies(c, out, marks, nak, g, h) && k < |out|
    ensures Replies(c, Without(out, k), Without(marks, k), nak, g, h)
  {
    var out', marks' := Without(out, k), Without(marks, k);
    forall i, j | 0 <= i < j < |out'| ensures OneNak(c, out'[i], marks'[i], out'[j], marks'[j]) {
      var i', j' := if i < k then i else i + 1, if j < k then j else j + 1;
      assert OneNak(c, out[i'], marks[i'], out[j'], marks[j']);
    }
  }

  lemma TracksLose(c: Config, out: seq<Frame>, marks: seq<Mark>, rout: seq<Frame>, rmarks: seq<Mark>,
                   nak: Nak, g: Num, h: Num, k: nat)
    requires ValidConfig(c) && |marks| == |out| && |rmarks| == |rout| && k < |out|
    requires Tracks(c, out, marks, rout, rmarks, nak, g, h)
    ensures Tracks(c, Without(out, k), Without(marks, k), rout, rmarks, nak, g, h)
  {
  }

  lemma TracksLoseReply(c: Config, out: seq<Frame>, marks: seq<Mark>, rout: seq<Frame>, rmarks: seq<Mark>,
                        nak: Nak, g: Num, h: Num, k: nat)
    requires ValidConfig(c) && |marks| == |out| && |rmarks| == |rout| && k < |rout|
    requires Tracks(c, out, marks, rout, rmarks, nak, g, h)
    ensures Tracks(c, out, marks, Without(rout, k), Without(rmarks, k), nak, g, h)
  {
  }

  lemma FlightsSend(c: Config, out: seq<Frame>, marks: seq<Mark>, t: Sender, g: Num, h: Num, f: Frame, m: Mark,
                    t': Sender)
    requires SenderOk(c, t) && SenderOk(c, t') && Flights(c, out, marks, t, g, h)
    requires t'.window == t.window && Sent(c, t, g.acked) <= Sent(c, t', g.acked)
    requires Flight(c, f, m, t', g, h)
    requires InSession(c, f) ==> m.epoch == g.epoch && After(Sent(c, t, g.acked), f, m)
    ensures Flights(c, out + [f], marks + [m], t', g, h)
  {
    forall i | 0 <= i < |out| ensures Flight(c, out[i], marks[i], t', g, h) && Rising(c, out[i], marks[i], f, m) {
      assert Flight(c, out[i], marks[i], t, g, h);
    }
  }

  // ----- a turn of the transmitter

  ghost function MarkOf(c: Config, n: Node, g: Num): Mark
    requires WellFormed(c, n)
  {
    if n.phase == Connected then
      Mark(Sent(c, n.tx, g.acked) + if LoadOf(n) == Data then 1 else 0, g.epoch, g.received)
    else Mark(0, 0, 0)
  }

  ghost function NumSent(c: Config, n: Node, g: Num): Num
    requires WellFormed(c, n)
  {
    if n.phase == Connected && ConnectedNode(c, n).nak.tracked && !(n.nak.tracked && !SendsNak(n))
    then g.(track := Sent(c, n.tx, g.acked) + 1) else g
  }

  lemma SenderTurn(c: Config, n: Node, g: Num, h: Num)
    requires Local(c, n, g) && Bounds(c, n.tx, g, h) && n.phase == Connected
    ensures var t := ConnectedNode(c, n).tx;
            && t.window == n.tx.window && t.lastAck == n.tx.lastAck
            && Sent(c, t, g.acked) == MarkOf(c, n, g).pos
            && Bounds(c, t, g, h)
  {
  }

  lemma FlightTurn(c: Config, n: Node, g: Num, h: Num)
    requires Local(c, n, g) && Bounds(c, n.tx, g, h) && n.phase == Connected
    ensures var f, m := ConnectedFrame(c, n), MarkOf(c, n, g);
            && Flight(c, f, m, ConnectedNode(c, n).tx, g, h)
            && After(Sent(c, n.tx, g.acked), f, m)
  {
    SenderTurn(c, n, g, h);
    SentWrap(c, n.tx, g.acked);
  }

  lemma LocalTurn(c: Config, n: Node, g: Num)
    requires Local(c, n, g) && n.phase == Connected
    ensures Local(c, ConnectedNode(c, n), NumSent(c, n, g))
  {
    SentWrap(c, n.tx, g.acked);
  }

  /** A NAK is repeated only if it reports the sender's current state and is the only
      one in flight. */
  ghost predicate RepeatsCurrent(c: Config, n: Node, out: seq<Frame>, g: Num, h: Num)
    requires ValidConfig(c)
  {
    RepeatsNak(n) ==>
      && h.peerEpoch == g.epoch && h.received < h.seen
      && forall i :: 0 <= i < |out| ==> !CarriesNak(c, out[i])
  }

  lemma RepliesTurn(c: Config, n: Node, out: seq<Frame>, marks: seq<Mark>, g: Num, h: Num)
    requires Local(c, n, h) && n.phase == Connected && RepeatsCurrent(c, n, out, g, h)
    requires Replies(c, out, marks, n.nak, g, h) && g.acked <= h.received
    ensures Replies(c, out + [ConnectedFrame(c, n)], marks + [MarkOf(c, n, h)], ConnectedNode(c, n).nak, g, h)
  {
    var f, m, nak := ConnectedFrame(c, n), MarkOf(c, n, h), ConnectedNode(c, n).nak;
    forall i | 0 <= i < |out|
      ensures Reply(c, out[i], marks[i], nak, g, h) && OneNak(c, out[i], marks[i], f, m)
    {
      assert Reply(c, out[i], marks[i], n.nak, g, h);
      assert RepeatsNak(n) ==> !CarriesNak(c, out[i]);
    }
  }

  /** The NAK of n, whose frames are rout, after n's turn. */
  lemma TracksTurn(c: Config, n: Node, peer: Nak, out: seq<Frame>, marks: seq<Mark>,
                   rout: seq<Frame>, rmarks: seq<Mark>, g: Num, h: Num)
    requires Local(c, n, h) && n.phase == Connected
    requires |marks| == |out| && |rmarks| == |rout|
    requires Tracks(c, out, marks, rout, rmarks, n.nak, g, h)
    requires Bounds(c, n.tx, h, g)
    requires Flights(c, rout, rmarks, n.tx, h, g) && Replies(c, out, marks, peer, h, g)
    ensures Tracks(c, out, marks, rout + [ConnectedFrame(c, n)], rmarks + [MarkOf(c, n, h)],
                   ConnectedNode(c, n).nak, g, NumSent(c, n, h))
  {
    var nak := ConnectedNode(c, n).nak;
    if nak.tracked && !(n.nak.tracked && !SendsNak(n)) {
      forall i | 0 <= i < |rout| && Numbered(c, rout[i]) && rmarks[i].epoch == h.epoch
        ensures rmarks[i].pos <= Sent(c, n.tx, h.acked)
      {
        assert Flight(c, rout[i], rmarks[i], n.tx, h, g);
      }
      forall i | 0 <= i < |out| && InSession(c, out[i]) ensures marks[i].ack <= g.received {
        assert Reply(c, out[i], marks[i], peer, h, g);
      }
    }
  }

  // ----- a frame taken: the sender's half

  ghost function NumAcked(g: Num, f: Frame, k: Mark): Num {
    g.(acked := k.ack, epoch := g.epoch + if f.nak then 1 else 0)
  }

  lemma SenderAcked(c: Config, t: Sender, f: Frame, k: Mark, nak: Nak, g: Num, h: Num)
    requires SenderOk(c, t) && t.lastAck == Wrap(c.ids, g.acked) && ValidFrame(c, f)
    requires InSession(c, f) && Reply(c, f, k, nak, g, h) && Bounds(c, t, g, h)
    ensures var n := Acked(c, t, f.ack);
            var acked := Acknowledge(c, t, n);
            var t' := HandleAck(c, t, f.ack, f.nak);
            && !AckTooFar(c, t, f.ack) && n == k.ack - g.acked
            && t'.lastAck == acked.lastAck == Wrap(c.ids, k.ack)
            && acked.window == t.window[n..]
            && Sent(c, acked, k.ack) == Sent(c, t, g.acked)
            && Sent(c, t', k.ack) == (if f.nak then k.ack else Sent(c, t, g.acked))
            && (!f.nak ==> t' == acked)
  {
    AckExact(c, t, g.acked, k.ack, f.ack);
    DistAfter(c.ids, t.lastSent, t.lastAck, k.ack - g.acked);
  }

  lemma BoundsAcked(c: Config, t: Sender, f: Frame, k: Mark, nak: Nak, g: Num, h: Num)
    requires SenderOk(c, t) && t.lastAck == Wrap(c.ids, g.acked) && ValidFrame(c, f)
    requires InSession(c, f) && Reply(c, f, k, nak, g, h) && Bounds(c, t, g, h)
    ensures Bounds(c, HandleAck(c, t, f.ack, f.nak), NumAcked(g, f, k), h)
  {
    SenderAcked(c, t, f, k, nak, g, h);
  }

  /** Handling a NAK starts an epoch in which everything in flight is stale: it
      shows the gap the NAK reported, and can be taken for nothing else. */
  lemma FlightsAcked(c: Config, out: seq<Frame>, marks: seq<Mark>, t: Sender, f: Frame, k: Mark, nak: Nak,
                     g: Num, h: Num)
    requires SenderOk(c, t) && t.lastAck == Wrap(c.ids, g.acked) && ValidFrame(c, f)
    requires InSession(c, f) && Reply(c, f, k, nak, g, h) && Bounds(c, t, g, h)
    requires Flights(c, out, marks, t, g, h)
    ensures Flights(c, out, marks, HandleAck(c, t, f.ack, f.nak), NumAcked(g, f, k), h)
  {
    SenderAcked(c, t, f, k, nak, g, h);
    var t', g' := HandleAck(c, t, f.ack, f.nak), NumAcked(g, f, k);
    forall i | 0 <= i < |out| ensures Flight(c, out[i], marks[i], t', g', h) {
      assert Flight(c, out[i], marks[i], t, g, h);
    }
  }

  lemma RepliesAcked(c: Config, out: seq<Frame>, marks: seq<Mark>, nak: Nak, g: Num, h: Num)
    requires ValidConfig(c) && Replies(c, out, marks, nak, g, h) && out != [] && InSession(c, out[0])
    requires !(nak.pending && nak.out)
    ensures Replies(c, Without(out, 0), Without(marks, 0), nak, NumAcked(g, out[0], marks[0]), h)
  {
    RepliesLose(c, out, marks, nak, g, h, 0);
    var g' := NumAcked(g, out[0], marks[0]);
    assert Reply(c, out[0], marks[0], nak, g, h);
    forall i | 1 <= i < |out| ensures Reply(c, out[i], marks[i], nak, g', h) {
      assert OneNak(c, out[0], marks[0], out[i], marks[i]);
    }
  }

  /** The peer's NAK, in flight behind the frame taken, stays untold. */
  lemma TracksAcked(c: Config, out: seq<Frame>, marks: seq<Mark>, rout: seq<Frame>, rmarks: seq<Mark>,
                    nak: Nak, mine: Nak, g: Num, h: Num, g': Num)
    requires ValidConfig(c) && |marks| == |out| && |rmarks| == |rout|
    requires rout != [] && InSession(c, rout[0])
    requires Tracks(c, out, marks, rout, rmarks, nak, g, h)
    requires Replies(c, out, marks, mine, h, g)
    requires forall i :: 0 <= i < |out| && InSession(c, out[i]) ==> marks[i].epoch <= g.epoch
    requires g'.epoch == NumAcked(g, rout[0], rmarks[0]).epoch
    requires g'.received == g.received
          || (g'.received == g.received + 1 == rmarks[0].pos && !rout[0].ping && rmarks[0].epoch == h.epoch)
    ensures Tracks(c, out, marks, Without(rout, 0), Without(rmarks, 0), nak, g', h)
  {
    if nak.tracked {
      forall i | 0 <= i < |out| && InSession(c, out[i]) && marks[i].epoch < g'.epoch
        ensures marks[i].ack < h.track
      {
        assert Reply(c, out[i], marks[i], mine, h, g);
        assert rout[0].nak ==> CarriesNak(c, rout[0]);
      }
    }
  }

  // ----- a frame taken: the receiver's half

  ghost predicate TakesNext(c: Config, f: Frame, m: Mark, h: Num)
    requires ValidConfig(c)
  {
    !f.ping && m.pos == h.received + 1
  }

  ghost function NumTaken(c: Config, h: Num, f: Frame, m: Mark): Num
    requires ValidConfig(c)
  {
    h.(received := if TakesNext(c, f, m, h) then m.pos else h.received, seen := m.pos, peerEpoch := m.epoch)
  }

  /** The masked comparison places a frame in flight as its number would. */
  lemma PlaceExact(c: Config, r: Receiver, f: Frame, m: Mark, h: Num)
    requires ReceiverOk(c, r) && r.lastReceived == Wrap(c.ids, h.received) && r.lastSeen == Wrap(c.ids, h.seen)
    requires h.received <= h.seen <= h.received + c.window
    requires f.tx == Wrap(c.ids, if f.ping then m.pos + 1 else m.pos)
    requires After(h.received, f, m) && m.pos <= h.received + c.window
    ensures PlaceOf(c, r, f.tx, f.ping)
         == if f.ping then (if m.pos == h.received then Expected else Missing(false))
            else if m.pos == h.received + 1 then Expected
            else Missing(h.received < h.seen && m.pos <= h.seen)
  {
    if f.ping {
      PingExact(c, r, h.received, m.pos);
    } else {
      NumberExact(c, r, m.pos, h);
    }
  }

  lemma PingExact(c: Config, r: Receiver, received: nat, pos: nat)
    requires ReceiverOk(c, r) && r.lastReceived == Wrap(c.ids, received)
    requires received <= pos <= received + c.window
    ensures PlaceOf(c, r, Wrap(c.ids, pos + 1), true)
         == if pos == received then Expected else Missing(false)
  {
    WrapPlus(c.ids, received, 1);
    WrapDist(c.ids, pos + 1, received + 1);
  }

  lemma NumberExact(c: Config, r: Receiver, pos: nat, h: Num)
    requires ReceiverOk(c, r) && r.lastReceived == Wrap(c.ids, h.received) && r.lastSeen == Wrap(c.ids, h.seen)
    requires h.received <= h.seen <= h.received + c.window
    requires h.received < pos <= h.received + c.window
    ensures PlaceOf(c, r, Wrap(c.ids, pos), false)
         == if pos == h.received + 1 then Expected
            else Missing(h.received < h.seen && pos <= h.seen)
  {
    var next, ahead := Wrap(c.ids, h.received + 1), pos - h.received - 1;
    assert Succ(c.ids, r.lastReceived) == next by {
      WrapPlus(c.ids, h.received, 1);
    }
    assert Dist(c.ids, Wrap(c.ids, pos), next) == ahead by {
      WrapDist(c.ids, pos, h.received + 1);
    }
    LastExact(c, r, h);
    NumberPlace(c, r, Wrap(c.ids, pos), ahead, Dist(c.ids, r.lastSeen, next));
  }

  lemma NumberPlace(c: Config, r: Receiver, tx: nat, ahead: nat, last: nat)
    requires ReceiverOk(c, r) && tx < c.ids
    requires Dist(c.ids, tx, Succ(c.ids, r.lastReceived)) == ahead < c.window
    requires Dist(c.ids, r.lastSeen, Succ(c.ids, r.lastReceived)) == last
    ensures PlaceOf(c, r, tx, false)
         == if ahead == 0 then Expected else Missing(last < c.window && ahead <= last)
  {
  }

  lemma LastExact(c: Config, r: Receiver, h: Num)
    requires ReceiverOk(c, r) && r.lastSeen == Wrap(c.ids, h.seen)
    requires h.received <= h.seen <= h.received + c.window
    ensures Dist(c.ids, r.lastSeen, Wrap(c.ids, h.received + 1))
         == if h.received < h.seen then h.seen - h.received - 1 else c.ids - 1
  {
    if h.received < h.seen {
      WrapDist(c.ids, h.seen, h.received + 1);
    } else {
      WrapBehind(c.ids, h.received, h.received + 1);
    }
  }

  lemma FlightsTaken(c: Config, out: seq<Frame>, marks: seq<Mark>, t: Sender, g: Num, h: Num)
    requires SenderOk(c, t) && Flights(c, out, marks, t, g, h) && out != [] && InSession(c, out[0])
    ensures Flights(c, Without(out, 0), Without(marks, 0), t, g, NumTaken(c, h, out[0], marks[0]))
  {
    FlightsLose(c, out, marks, t, g, h, 0);
    var h' := NumTaken(c, h, out[0], marks[0]);
    assert Flight(c, out[0], marks[0], t, g, h);
    forall i | 1 <= i < |out| ensures Flight(c, out[i], marks[i], t, g, h') {
      assert Rising(c, out[0], marks[0], out[i], marks[i]);
      assert Flight(c, out[i], marks[i], t, g, h);
    }
  }

  lemma BoundsTaken(c: Config, t: Sender, f: Frame, m: Mark, g: Num, h: Num)
    requires SenderOk(c, t) && Bounds(c, t, g, h) && InSession(c, f) && Flight(c, f, m, t, g, h)
    ensures Bounds(c, t, g, NumTaken(c, h, f, m))
  {
  }

  /** The ACK field answers this side's NAK exactly when it covers the packet
      tracked. */
  lemma TrackExact(c: Config, n: Node, h: Num, f: Frame, m: Mark)
    requires Local(c, n, h) && ValidFrame(c, f)
    requires Acked(c, n.tx, f.ack) == m.ack - h.acked
    ensures NakAfterAck(c, n.nak, n.tx, Acked(c, n.tx, f.ack))
         == if n.nak.tracked && h.track <= m.ack then NakAnswered(n.nak) else n.nak
  {
    if n.nak.tracked {
      WrapDist(c.ids, h.track, h.acked);
    }
  }

  /** The receiver's NAK after a frame: pending anew only in the epoch the sender
      is in, and never while one is in flight. */
  lemma RepliesTaken(c: Config, out: seq<Frame>, marks: seq<Mark>, nak: Nak, t: Sender, g: Num, h: Num,
                     f: Frame, m: Mark, answered: bool, place: Place)
    requires SenderOk(c, t) && InSession(c, f) && Flight(c, f, m, t, g, h) && Bounds(c, t, g, h)
    requires h.received <= h.seen && !(nak.pending && nak.out)
    requires Replies(c, out, marks, nak, g, h)
    requires answered ==> m.epoch == g.epoch && forall i :: 0 <= i < |out| ==> !CarriesNak(c, out[i])
    requires place == if f.ping then (if m.pos == h.received then Expected else Missing(false))
                      else if m.pos == h.received + 1 then Expected
                      else Missing(h.received < h.seen && m.pos <= h.seen)
    ensures var nak' := NakAfterFrame(if answered then NakAnswered(nak) else nak, place, f.ping);
            Replies(c, out, marks, nak', g, NumTaken(c, h, f, m)) && !(nak'.pending && nak'.out)
  {
    var nak' := NakAfterFrame(if answered then NakAnswered(nak) else nak, place, f.ping);
    var h' := NumTaken(c, h, f, m);
    forall i | 0 <= i < |out| ensures Reply(c, out[i], marks[i], nak', g, h') {
      assert Reply(c, out[i], marks[i], nak, g, h);
    }
  }

  lemma TracksTaken(c: Config, out: seq<Frame>, marks: seq<Mark>, rout: seq<Frame>, rmarks: seq<Mark>,
                    nak: Nak, nak': Nak, g: Num, h: Num, h': Num)
    requires ValidConfig(c) && |marks| == |out| && |rmarks| == |rout| && out != []
    requires Tracks(c, out, marks, rout, rmarks, nak, g, h)
    requires nak'.tracked ==> nak.tracked
    requires h'.track == h.track && h.epoch <= h'.epoch
    requires forall i :: 0 <= i < |rout| && InSession(c, rout[i]) ==> rmarks[i].epoch <= h.epoch
    ensures Tracks(c, Without(out, 0), Without(marks, 0), rout, rmarks, nak', g, h')
  {
    TracksLose(c, out, marks, rout, rmarks, nak, g, h, 0);
  }

  // ----- numbers that do not matter to a direction

  lemma FlightsSame(c: Config, out: seq<Frame>, marks: seq<Mark>, t: Sender, g: Num, h: Num, g': Num, h': Num)
    requires SenderOk(c, t) && Flights(c, out, marks, t, g, h)
    requires g'.acked == g.acked && g'.epoch == g.epoch
    requires h'.received == h.received && h'.seen == h.seen && h'.peerEpoch == h.peerEpoch
    ensures Flights(c, out, marks, t, g', h')
  {
    forall i | 0 <= i < |out| ensures Flight(c, out[i], marks[i], t, g', h') {
      assert Flight(c, out[i], marks[i], t, g, h);
    }
  }

  lemma RepliesSame(c: Config, out: seq<Frame>, marks: seq<Mark>, nak: Nak, g: Num, h: Num, g': Num, h': Num)
    requires ValidConfig(c) && Replies(c, out, marks, nak, g, h)
    requires g'.acked == g.acked && g'.epoch == g.epoch
    requires h'.received == h.received && h'.seen == h.seen && h'.peerEpoch == h.peerEpoch
    ensures Replies(c, out, marks, nak, g', h')
  {
    forall i | 0 <= i < |out| ensures Reply(c, out[i], marks[i], nak, g', h') {
      assert Reply(c, out[i], marks[i], nak, g, h);
    }
  }
}
