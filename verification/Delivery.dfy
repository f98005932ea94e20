/**
 In-order, exactly-once delivery over a lossy link that keeps its order, while
 no packet is given up: NAKs, keep-alives that repeat them, lost ACKs and copies
 are all allowed.

 The unbounded numbers behind the IDs are found, not assumed: from two fresh
 nodes, every step of a run extends a history of them under which each frame in
 flight is classified by the masked comparison as its number would be.
 */
module Delivery {
  import opened SeqNum
  import opened Common
  import opened Protocol
  import opened Link

  /** For one direction of the link: packets acknowledged at the sender and
      received at the receiver, the number of each frame in flight from the one
      and the acknowledgment of each frame in flight from the other. */
  datatype History = History(acked: nat, received: nat, number: seq<nat>, ack: seq<nat>)

  predicate Numbered(c: Config, f: Frame)
    requires ValidConfig(c)
  {
    !f.ping && InSession(c, f)
  }

  ghost predicate Counts(c: Config, s: Side, r: Side, h: History) {
    && ValidSide(c, s) && ValidSide(c, r)
    && s.node.tx.lastAck == Wrap(c.ids, h.acked)
    && r.node.rx.lastReceived == Wrap(c.ids, h.received)
    && h.acked <= h.received <= h.acked + |s.node.tx.window|
  }

  /** What has been said to the callers of both sides. */
  ghost predicate Ledger(s: Side, r: Side, h: History) {
    && |s.confirmed| == h.acked
    && |s.accepted| == h.acked + |s.node.tx.window|
    && (forall i :: 0 <= i < h.acked ==> s.confirmed[i] == Outcome(s.accepted[i], Success))
    && Packets(s.node.tx.window) == s.accepted[h.acked..]
    && h.received <= |s.accepted|
    && r.delivered == s.accepted[..h.received]
  }

  /** A numbered frame holds the packet of its number, and that number is less
      than a window behind everything received so far. */
  ghost predicate Datum(c: Config, f: Frame, n: nat, accepted: seq<Packet>, received: nat)
    requires ValidConfig(c)
  {
    Numbered(c, f) ==>
      && 1 <= n <= |accepted|
      && f.tx == Wrap(c.ids, n)
      && f.body == Some(accepted[n - 1])
      && received < n + c.window
  }

  /** One frame follows another: a later number is never a window behind. */
  predicate Follows(c: Config, f: Frame, n: nat, g: Frame, m: nat)
    requires ValidConfig(c)
  {
    Numbered(c, f) && Numbered(c, g) ==> n < m + c.window
  }

  ghost predicate Data(c: Config, out: seq<Frame>, number: seq<nat>, accepted: seq<Packet>, received: nat)
    requires ValidConfig(c)
  {
    && |number| == |out|
    && (forall i :: 0 <= i < |out| ==> Datum(c, out[i], number[i], accepted, received))
    && (forall i, j :: 0 <= i < j < |out| ==> Follows(c, out[i], number[i], out[j], number[j]))
  }

  ghost predicate Acks(c: Config, out: seq<Frame>, ack: seq<nat>, acked: nat, received: nat)
    requires ValidConfig(c)
  {
    && |ack| == |out|
    && (forall i :: 0 <= i < |out| && InSession(c, out[i]) ==>
          out[i].ack == Wrap(c.ids, ack[i]) && acked <= ack[i] <= received)
    && (forall i, j :: 0 <= i < j < |out| && InSession(c, out[i]) && InSession(c, out[j]) ==>
          ack[i] <= ack[j])
  }

  lemma LoseDatum(c: Config, out: seq<Frame>, number: seq<nat>, accepted: seq<Packet>, received: nat, k: nat)
    requires ValidConfig(c) && Data(c, out, number, accepted, received) && k < |out|
    ensures Data(c, Without(out, k), Without(number, k), accepted, received)
  {
    var out', number' := Without(out, k), Without(number, k);
    forall i, j | 0 <= i < j < |out'| ensures Follows(c, out'[i], number'[i], out'[j], number'[j]) {
      var i', j' := if i < k then i else i + 1, if j < k then j else j + 1;
      assert Follows(c, out[i'], number[i'], out[j'], number[j']);
    }
  }

  lemma LoseAck(c: Config, out: seq<Frame>, ack: seq<nat>, acked: nat, received: nat, k: nat)
    requires ValidConfig(c) && Acks(c, out, ack, acked, received) && k < |out|
    ensures Acks(c, Without(out, k), Without(ack, k), acked, received)
  {
  }

  /** The frame at the head was the next one: what follows it stays in range. */
  lemma TakeDatum(c: Config, out: seq<Frame>, number: seq<nat>, accepted: seq<Packet>, received: nat)
    requires ValidConfig(c) && Data(c, out, number, accepted, received) && out != []
    requires Numbered(c, out[0]) && number[0] == received + 1
    ensures Data(c, Without(out, 0), Without(number, 0), accepted, received + 1)
  {
    LoseDatum(c, out, number, accepted, received, 0);
    forall i | 1 <= i < |out| ensures Datum(c, out[i], number[i], accepted, received + 1) {
      assert Follows(c, out[0], number[0], out[i], number[i]);
    }
  }

  lemma SendDatum(c: Config, out: seq<Frame>, number: seq<nat>, accepted: seq<Packet>, received: nat,
                  f: Frame, n: nat)
    requires ValidConfig(c) && Data(c, out, number, accepted, received)
    requires Datum(c, f, n, accepted, received)
    requires Numbered(c, f) ==> |accepted| < n + c.window
    ensures Data(c, out + [f], number + [n], accepted, received)
  {
    forall i | 0 <= i < |out| ensures Follows(c, out[i], number[i], f, n) {
      assert Datum(c, out[i], number[i], accepted, received);
    }
  }

  /** s sends and r receives as unbounded numbers would have them. */
  ghost predicate InOrder(c: Config, s: Side, r: Side, h: History) {
    && Counts(c, s, r, h)
    && Ledger(s, r, h)
    && Data(c, s.out, h.number, s.accepted, h.received)
    && Acks(c, r.out, h.ack, h.acked, h.received)
  }

  // ----- single calls, in unbounded numbers

  ghost function Sent(c: Config, t: Sender, acked: nat): nat
    requires SenderOk(c, t)
  {
    acked + Dist(c.ids, t.lastSent, t.lastAck)
  }

  lemma SentWrap(c: Config, t: Sender, acked: nat)
    requires SenderOk(c, t) && t.lastAck == Wrap(c.ids, acked)
    ensures t.lastSent == Wrap(c.ids, Sent(c, t, acked))
    ensures Succ(c.ids, t.lastSent) == Wrap(c.ids, Sent(c, t, acked) + 1)
    ensures t.lastQueued == Wrap(c.ids, acked + |t.window|)
  {
    WrapPlus(c.ids, acked, Dist(c.ids, t.lastSent, t.lastAck));
    WrapPlus(c.ids, Sent(c, t, acked), 1);
    WrapPlus(c.ids, acked, |t.window|);
  }

  /** A turn of the transmitter leaves the window and the receiving side alone,
      and every frame of the session acknowledges what was received. */
  lemma TurnKeeps(c: Config, n: Node)
    requires WellFormed(c, n) && !NextFrame(c, n).report.down
    ensures var t := NextFrame(c, n);
            && t.node.tx.window == n.tx.window
            && t.node.tx.lastAck == n.tx.lastAck
            && t.node.rx == n.rx
            && Resolved(t.report) == []
            && (t.frame.Some? && InSession(c, t.frame.value) ==>
                  n.phase == Connected && t.frame.value.ack == n.rx.lastReceived)
  {
  }

  lemma TurnNumbered(c: Config, n: Node, acked: nat)
    requires WellFormed(c, n) && n.tx.lastAck == Wrap(c.ids, acked)
    requires NextFrame(c, n).frame.Some? && Numbered(c, NextFrame(c, n).frame.value)
    ensures var f := NextFrame(c, n).frame.value;
            var k := Dist(c.ids, n.tx.lastSent, n.tx.lastAck);
            && k < |n.tx.window|
            && f.tx == Wrap(c.ids, Sent(c, n.tx, acked) + 1)
            && f.body == Some(n.tx.window[k].packet)
  {
    SentWrap(c, n.tx, acked);
  }

  lemma AckExact(c: Config, t: Sender, acked: nat, ack: nat, id: nat)
    requires SenderOk(c, t) && t.lastAck == Wrap(c.ids, acked)
    requires id == Wrap(c.ids, ack) && acked <= ack <= acked + |t.window|
    ensures !AckTooFar(c, t, id)
    ensures Acked(c, t, id) == ack - acked
    ensures Acknowledge(c, t, ack - acked).lastAck == Wrap(c.ids, ack)
  {
    WrapDist(c.ids, ack, acked);
    WrapPlus(c.ids, acked, ack - acked);
  }

  /** While no packet is given up, an ACK field only drops the first packets. */
  lemma WindowAcked(c: Config, t: Sender, acked: nat, ack: nat, id: nat, nak: bool)
    requires SenderOk(c, t) && t.lastAck == Wrap(c.ids, acked)
    requires id == Wrap(c.ids, ack) && acked <= ack <= acked + |t.window|
    requires Expired(c, t, id, nak) == None
    ensures Acked(c, t, id) == ack - acked
    ensures var m := HandleAck(c, t, id, nak);
            && m.lastAck == Wrap(c.ids, ack)
            && Packets(m.window) == Packets(t.window)[ack - acked..]
  {
    AckExact(c, t, acked, ack, id);
  }

  /** The masked comparison tells the next packet from every other number that
      can be in flight. */
  lemma ExpectedExact(c: Config, r: Receiver, received: nat, number: nat)
    requires ReceiverOk(c, r) && r.lastReceived == Wrap(c.ids, received)
    requires received < number + c.window && number <= received + c.window
    ensures PlaceOf(c, r, Wrap(c.ids, number), false) == Expected <==> number == received + 1
  {
    WrapPlus(c.ids, received, 1);
    WrapEqual(c.ids, number, received + 1);
  }

  // ----- steps of the sender

  lemma EnqueueKeeps(c: Config, s: Side, r: Side, h: History, chan: nat, buf: Buffer, ttl: nat)
    requires InOrder(c, s, r, h)
    ensures InOrder(c, Enqueued(c, s, chan, buf, ttl), r, h)
  {
    var t := Enqueued(c, s, chan, buf, ttl);
    if t.accepted != s.accepted {
      var it := t.node.tx.window[|s.node.tx.window|];
      MoreAccepted(c, s.out, h.number, s.accepted, t.accepted, h.received);
      LedgerEnqueued(s, r, h, it, t);
    }
  }

  lemma LedgerEnqueued(s: Side, r: Side, h: History, it: Item, t: Side)
    requires Ledger(s, r, h) && t.node.tx.window == s.node.tx.window + [it]
    requires t.accepted == s.accepted + [it.packet] && t.confirmed == s.confirmed
    ensures Ledger(t, r, h)
  {
    assert Packets(t.node.tx.window) == Packets(s.node.tx.window) + [it.packet];
    assert t.accepted[h.acked..] == s.accepted[h.acked..] + [it.packet];
    assert t.accepted[..h.received] == s.accepted[..h.received];
  }

  lemma MoreAccepted(c: Config, out: seq<Frame>, number: seq<nat>, accepted: seq<Packet>, more: seq<Packet>,
                     received: nat)
    requires ValidConfig(c) && Data(c, out, number, accepted, received) && accepted <= more
    ensures Data(c, out, number, more, received)
  {
    forall i | 0 <= i < |out| ensures Datum(c, out[i], number[i], more, received) {
      assert Datum(c, out[i], number[i], accepted, received);
    }
  }

  lemma TransmitKeeps(c: Config, s: Side, r: Side, h: History) returns (g: History)
    requires InOrder(c, s, r, h) && !NextFrame(c, s.node).report.down
    ensures InOrder(c, Transmitted(c, s), r, g)
  {
    TurnKeeps(c, s.node);
    g := h;
    var frame := NextFrame(c, s.node).frame;
    if frame.Some? {
      var n := Sent(c, s.node.tx, h.acked) + 1;
      TransmitDatum(c, s, r, h, frame.value, n);
      SendDatum(c, s.out, h.number, s.accepted, h.received, frame.value, n);
      g := h.(number := h.number + [n]);
    }
    DatumSent(c, s, r, h, Transmitted(c, s), g);
  }

  lemma DatumSent(c: Config, s: Side, r: Side, h: History, t: Side, g: History)
    requires InOrder(c, s, r, h) && ValidSide(c, t) && g == h.(number := g.number)
    requires t.node.tx.lastAck == s.node.tx.lastAck && t.node.tx.window == s.node.tx.window
    requires t.accepted == s.accepted && t.confirmed == s.confirmed
    requires Data(c, t.out, g.number, s.accepted, h.received)
    ensures InOrder(c, t, r, g)
  {
  }

  lemma TransmitDatum(c: Config, s: Side, r: Side, h: History, f: Frame, n: nat)
    requires InOrder(c, s, r, h) && NextFrame(c, s.node).frame == Some(f)
    requires n == Sent(c, s.node.tx, h.acked) + 1
    ensures Datum(c, f, n, s.accepted, h.received)
    ensures Numbered(c, f) ==> |s.accepted| < n + c.window
  {
    if Numbered(c, f) {
      TurnNumbered(c, s.node, h.acked);
    }
  }

  /** The sender takes a frame: its ACK confirms the first packets, its NAK
      changes no packet of the window while none is given up. */
  lemma AckKeeps(c: Config, s: Side, r: Side, h: History) returns (g: History)
    requires InOrder(c, s, r, h) && r.out != []
    requires !Receive(c, s.node, r.out[0]).report.down
    requires Receive(c, s.node, r.out[0]).report.expired == None
    ensures InOrder(c, Delivered(c, s, r.out[0]), Passive(Deliver, r), g)
  {
    LoseAck(c, r.out, h.ack, h.acked, h.received, 0);
    if !Takes(c, s.node, r.out[0]) {
      ReceiveSkips(c, s.node, r.out[0]);
      g := h.(ack := Without(h.ack, 0));
    } else {
      g := h.(acked := h.ack[0], ack := Without(h.ack, 0));
      AckTaken(c, s, r, h);
      assert Acks(c, Without(r.out, 0), g.ack, g.acked, g.received);
    }
  }

  lemma AckTaken(c: Config, s: Side, r: Side, h: History)
    requires InOrder(c, s, r, h) && r.out != [] && Takes(c, s.node, r.out[0])
    requires !Receive(c, s.node, r.out[0]).report.down
    requires Receive(c, s.node, r.out[0]).report.expired == None
    ensures var t := Delivered(c, s, r.out[0]);
            && t.node.tx.lastAck == Wrap(c.ids, h.ack[0])
            && h.ack[0] + |t.node.tx.window| == h.acked + |s.node.tx.window|
            && Ledger(t, r, h.(acked := h.ack[0]))
  {
    var f, t := r.out[0], Delivered(c, s, r.out[0]);
    ReceiveTakes(c, s.node, f);
    WindowAcked(c, s.node.tx, h.acked, h.ack[0], f.ack, f.nak);
    LedgerAcked(s, r, h, h.ack[0] - h.acked, t);
  }

  lemma LedgerAcked(s: Side, r: Side, h: History, k: nat, t: Side)
    requires Ledger(s, r, h) && k <= |s.node.tx.window|
    requires t.confirmed == s.confirmed + Outcomes(s.node.tx.window[..k], Success)
    requires t.accepted == s.accepted
    requires Packets(t.node.tx.window) == Packets(s.node.tx.window)[k..]
    ensures Ledger(t, r, h.(acked := h.acked + k))
  {
    ConfirmedMore(s.accepted, s.confirmed, s.node.tx.window, h.acked, k, t.confirmed);
    assert s.accepted[h.acked..][k..] == s.accepted[h.acked + k..];
  }

  lemma ConfirmedMore(accepted: seq<Packet>, confirmed: seq<Outcome>, w: seq<Item>, n: nat, k: nat, more: seq<Outcome>)
    requires n == |confirmed| <= |accepted| && Packets(w) == accepted[n..] && k <= |w|
    requires forall i :: 0 <= i < n ==> confirmed[i] == Outcome(accepted[i], Success)
    requires more == confirmed + Outcomes(w[..k], Success)
    ensures n + k <= |accepted| && forall i :: 0 <= i < n + k ==> more[i] == Outcome(accepted[i], Success)
  {
    assert |Packets(w)| == |accepted| - n;
    forall i | 0 <= i < n + k ensures more[i] == Outcome(accepted[i], Success) {
      if n <= i {
        assert more[i] == Outcomes(w[..k], Success)[i - n];
        assert Packets(w)[i - n] == accepted[n..][i - n];
      }
    }
  }

  // ----- steps of the receiver

  lemma ReceiverTransmitKeeps(c: Config, s: Side, r: Side, h: History) returns (g: History)
    requires InOrder(c, s, r, h) && !NextFrame(c, r.node).report.down
    ensures InOrder(c, s, Transmitted(c, r), g)
  {
    TurnKeeps(c, r.node);
    if NextFrame(c, r.node).frame.None? {
      assert Transmitted(c, r).out == r.out;
      g := h;
    } else {
      g := h.(ack := h.ack + [h.received]);
      assert Acks(c, Transmitted(c, r).out, g.ack, g.acked, g.received);
    }
  }

  lemma DeliverKeeps(c: Config, s: Side, r: Side, h: History) returns (g: History)
    requires InOrder(c, s, r, h) && s.out != []
    requires !Receive(c, r.node, s.out[0]).report.down
    ensures InOrder(c, Passive(Deliver, s), Delivered(c, r, s.out[0]), g)
  {
    LoseDatum(c, s.out, h.number, s.accepted, h.received, 0);
    g := h.(number := Without(h.number, 0));
    if !Takes(c, r.node, s.out[0]) {
      ReceiveSkips(c, r.node, s.out[0]);
      assert Delivered(c, r, s.out[0]).delivered == r.delivered;
      DatumGone(c, s, r, h, Delivered(c, r, s.out[0]), g);
    } else {
      g := DeliverTakenKeeps(c, s, r, h);
    }
  }

  lemma DeliverTakenKeeps(c: Config, s: Side, r: Side, h: History) returns (g: History)
    requires InOrder(c, s, r, h) && s.out != [] && Takes(c, r.node, s.out[0])
    requires !Receive(c, r.node, s.out[0]).report.down
    ensures InOrder(c, Passive(Deliver, s), Delivered(c, r, s.out[0]), g)
  {
    assert Datum(c, s.out[0], h.number[0], s.accepted, h.received);
    DatumTaken(c, r, s.out[0], h.number[0], s.accepted, h.received);
    g := DatumCounted(c, s, r, h, Delivered(c, r, s.out[0]));
  }

  lemma DatumCounted(c: Config, s: Side, r: Side, h: History, q: Side) returns (g: History)
    requires InOrder(c, s, r, h) && s.out != [] && ValidSide(c, q) && q.out == r.out
    requires if Numbered(c, s.out[0]) && h.number[0] == h.received + 1 then
               && h.received < |s.accepted| && q.node.rx.lastReceived == Wrap(c.ids, h.received + 1)
               && q.delivered == r.delivered + [s.accepted[h.received]]
             else q.node.rx.lastReceived == r.node.rx.lastReceived && q.delivered == r.delivered
    ensures InOrder(c, Passive(Deliver, s), q, g)
  {
    g := h.(number := Without(h.number, 0));
    if Numbered(c, s.out[0]) && h.number[0] == h.received + 1 {
      TakeDatum(c, s.out, h.number, s.accepted, h.received);
      g := g.(received := h.received + 1);
      assert s.accepted[..h.received + 1] == s.accepted[..h.received] + [s.accepted[h.received]];
    } else {
      LoseDatum(c, s.out, h.number, s.accepted, h.received, 0);
    }
    DatumGone(c, s, r, h, q, g);
  }

  /** The frame is gone, and the receiver is where g says. */
  lemma DatumGone(c: Config, s: Side, r: Side, h: History, q: Side, g: History)
    requires InOrder(c, s, r, h) && s.out != [] && ValidSide(c, q) && q.out == r.out
    requires g == h.(number := Without(h.number, 0), received := g.received) && h.received <= g.received <= |s.accepted|
    requires q.node.rx.lastReceived == Wrap(c.ids, g.received) && q.delivered == s.accepted[..g.received]
    requires Data(c, Without(s.out, 0), g.number, s.accepted, g.received)
    ensures InOrder(c, Passive(Deliver, s), q, g)
  {
  }

  /** A frame taken delivers the packet of its number if that is the next, and nothing
      otherwise. */
  lemma DatumTaken(c: Config, r: Side, f: Frame, n: nat, accepted: seq<Packet>, received: nat)
    requires ValidSide(c, r) && ValidFrame(c, f) && Takes(c, r.node, f) && !Receive(c, r.node, f).report.down
    requires r.node.rx.lastReceived == Wrap(c.ids, received) && Datum(c, f, n, accepted, received)
    requires |accepted| <= received + c.window
    ensures var q := Delivered(c, r, f);
            if Numbered(c, f) && n == received + 1 then
              && q.node.rx.lastReceived == Wrap(c.ids, received + 1)
              && q.delivered == r.delivered + [accepted[received]]
            else q.node.rx.lastReceived == r.node.rx.lastReceived && q.delivered == r.delivered
  {
    ReceiveTakes(c, r.node, f);
    DeliveredReceives(c, r, f);
    if Numbered(c, f) {
      ExpectedExact(c, r.node.rx, received, n);
    }
  }

  // ----- every step

  lemma SenderMoves(c: Config, act: Act, s: Side, r: Side, h: History) returns (g: History)
    requires InOrder(c, s, r, h) && Enabled(act, r) && !Ends(c, act, s, r)
    requires act.Deliver? ==> Receive(c, s.node, r.out[0]).report.expired == None
    ensures InOrder(c, Acting(c, act, s, r), Passive(act, r), g)
  {
    g := h;
    match act
    case Enqueue(chan, buf, ttl) => EnqueueKeeps(c, s, r, h, chan, buf, ttl);
    case SendUrgent(_, _) =>
    case SendDisconnect =>
    case Transmit => g := TransmitKeeps(c, s, r, h);
    case Deliver => g := AckKeeps(c, s, r, h);
    case Lose(i) =>
      LoseAck(c, r.out, h.ack, h.acked, h.received, i);
      g := h.(ack := Without(h.ack, i));
  }

  lemma ReceiverMoves(c: Config, act: Act, s: Side, r: Side, h: History) returns (g: History)
    requires InOrder(c, s, r, h) && Enabled(act, s) && !Ends(c, act, r, s)
    ensures InOrder(c, Passive(act, s), Acting(c, act, r, s), g)
  {
    g := h;
    match act
    case Enqueue(_, _, _) =>
    case SendUrgent(_, _) =>
    case SendDisconnect =>
    case Transmit => g := ReceiverTransmitKeeps(c, s, r, h);
    case Deliver => g := DeliverKeeps(c, s, r, h);
    case Lose(i) =>
      LoseDatum(c, s.out, h.number, s.accepted, h.received, i);
      g := h.(number := Without(h.number, i));
  }

  // ----- every run

  predicate NoneGivenUp(s: Side) {
    forall i :: 0 <= i < |s.confirmed| ==> s.confirmed[i].result != TimedOut
  }

  lemma StepInOrder(c: Config, s: Sys, m: Move, t: Sys, fromX: bool, h: History) returns (g: History)
    requires Next(c, s, m, t) && InOrder(c, Near(s, fromX), Far(s, fromX), h)
    requires NoneGivenUp(Near(t, fromX))
    ensures InOrder(c, Near(t, fromX), Far(t, fromX), g)
  {
    if m.byX == fromX {
      if m.act.Deliver? {
        GiveUpShows(c, Near(s, fromX), Far(s, fromX).out[0]);
      }
      g := SenderMoves(c, m.act, Near(s, fromX), Far(s, fromX), h);
    } else {
      g := ReceiverMoves(c, m.act, Near(s, fromX), Far(s, fromX), h);
    }
  }

  lemma GiveUpShows(c: Config, s: Side, f: Frame)
    requires ValidSide(c, s) && ValidFrame(c, f)
    ensures Receive(c, s.node, f).report.expired.Some? ==> !NoneGivenUp(Delivered(c, s, f))
  {
    var t, r := Delivered(c, s, f), Receive(c, s.node, f).report;
    if r.expired.Some? {
      assert t.confirmed[|t.confirmed| - 1] == Outcome(r.expired.value, TimedOut);
    }
  }

  lemma FreshInOrder(c: Config, s: Side, r: Side) returns (h: History)
    requires FreshSide(c, s) && FreshSide(c, r)
    ensures InOrder(c, s, r, h)
  {
    h := History(0, 0, seq(|s.out|, _ => 0), seq(|r.out|, _ => 0));
    assert Packets(s.node.tx.window) == s.accepted[0..];
  }

  lemma StepGrows(c: Config, s: Sys, m: Move, t: Sys, fromX: bool)
    requires Next(c, s, m, t)
    ensures Near(s, fromX).confirmed <= Near(t, fromX).confirmed
  {
  }

  /** Every state of a run in which the sender has given nothing up so far has a
      history of unbounded numbers that its IDs stand for. */
  lemma {:induction false} RunInOrder(c: Config, tr: seq<Sys>, mv: seq<Move>, k: nat, fromX: bool)
    returns (h: History)
    requires IsRun(c, tr, mv) && k <= |mv| && NoneGivenUp(Near(tr[k], fromX))
    ensures InOrder(c, Near(tr[k], fromX), Far(tr[k], fromX), h)
  {
    if k == 0 {
      h := FreshInOrder(c, Near(tr[0], fromX), Far(tr[0], fromX));
    } else {
      StepGrows(c, tr[k - 1], mv[k - 1], tr[k], fromX);
      h := RunInOrder(c, tr, mv, k - 1, fromX);
      h := StepInOrder(c, tr[k - 1], mv[k - 1], tr[k], fromX, h);
    }
  }

  /** In-order, exactly-once delivery: what one side delivered is a prefix of what
      the other accepted, and what was confirmed is a prefix of that. */
  lemma DeliveredInOrder(c: Config, tr: seq<Sys>, mv: seq<Move>, k: nat, fromX: bool)
    requires IsRun(c, tr, mv) && k <= |mv| && NoneGivenUp(Near(tr[k], fromX))
    ensures var s, r := Near(tr[k], fromX), Far(tr[k], fromX);
            && r.delivered <= s.accepted
            && |s.confirmed| <= |r.delivered|
            && (forall i :: 0 <= i < |s.confirmed| ==> s.confirmed[i] == Outcome(r.delivered[i], Success))
            && s.accepted[|s.confirmed|..] == Packets(s.node.tx.window)
  {
    var h := RunInOrder(c, tr, mv, k, fromX);
  }
}
