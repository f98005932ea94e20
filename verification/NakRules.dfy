/**
 What a received frame does to the NAK this end owes, told by the unbounded numbers
 of packets rather than by their masked IDs.
 */
module NakRules {
  import opened SeqNum
  import opened Common
  import opened Protocol
  import opened Link

  /** An ACK that covers the packet tracked, within the window, answers the NAK. */
  predicate AckAnswers(c: Config, n: Node, ack: nat)
    requires WellFormed(c, n) && ack < c.ids
  {
    n.nak.tracked && 1 <= Dist(c.ids, n.nak.track, n.tx.lastAck) <= Dist(c.ids, ack, n.tx.lastAck) <= |n.tx.window|
  }

  /** The peer has gone back: it sends again what it had sent by the frame before. */
  predicate NewPass(received: nat, seen: nat, number: nat) {
    received < number && number <= seen
  }

  /** A numbered frame holds packet `number`; received is the last one held, and
      seen the last one the peer was seen to have sent. */
  lemma AfterNumbered(c: Config, n: Node, f: Frame, received: nat, seen: nat, number: nat)
    requires WellFormed(c, n) && ValidFrame(c, f) && Takes(c, n, f) && !f.ping
    requires n.rx.lastReceived == Wrap(c.ids, received) && n.rx.lastSeen == Wrap(c.ids, seen)
    requires received < seen + c.window && seen <= received + c.window
    requires f.tx == Wrap(c.ids, number) && received < number + c.window && number <= received + c.window
    ensures var was, m := n.nak, Receive(c, n, f).node;
            var stands := was.out && !AckAnswers(c, n, f.ack);
            && m.rx.lastReceived == Wrap(c.ids, if number == received + 1 then number else received)
            && m.rx.lastSeen == Wrap(c.ids, number)
            && if number == received + 1 then !m.nak.pending && !m.nak.out
               else if number <= received then !m.nak.out && m.nak.pending == was.pending
               else if stands && !NewPass(received, seen, number) then m.nak == was
               else m.nak.pending && !m.nak.out
  {
    NumberPlace(c, n.rx, received, seen, number);
    ReceiveTakes(c, n, f);
  }

  lemma NumberPlace(c: Config, r: Receiver, received: nat, seen: nat, number: nat)
    requires ReceiverOk(c, r) && r.lastReceived == Wrap(c.ids, received) && r.lastSeen == Wrap(c.ids, seen)
    requires received < seen + c.window && seen <= received + c.window
    requires received < number + c.window && number <= received + c.window
    ensures PlaceOf(c, r, Wrap(c.ids, number), false)
         == if number == received + 1 then Expected
            else if number <= received then Behind
            else Missing(NewPass(received, seen, number))
  {
    WrapPlus(c.ids, received, 1);
    OffsetFrom(c, received + 1, number);
    OffsetFrom(c, received + 1, seen);
    PlaceByOffset(c, r, Wrap(c.ids, number), Offset(c.ids, received + 1, number), Offset(c.ids, received + 1, seen));
    OffsetMeans(c.ids, c.window, received, seen, number);
  }

  lemma OffsetMeans(ids: nat, window: nat, received: nat, seen: nat, number: nat)
    requires 0 < window && 2 * window <= ids
    requires received < seen + window && seen <= received + window
    requires received < number + window && number <= received + window
    ensures var ahead, last := Offset(ids, received + 1, number), Offset(ids, received + 1, seen);
            && (ahead == 0 <==> number == received + 1)
            && (window <= ahead <==> number <= received)
            && (received + 1 < number ==> (ahead <= last < window <==> NewPass(received, seen, number)))
  {
  }

  lemma PlaceByOffset(c: Config, r: Receiver, tx: nat, ahead: nat, last: nat)
    requires ReceiverOk(c, r) && tx < c.ids
    requires ahead == Dist(c.ids, tx, Succ(c.ids, r.lastReceived))
    requires last == Dist(c.ids, r.lastSeen, Succ(c.ids, r.lastReceived))
    ensures PlaceOf(c, r, tx, false)
         == if ahead == 0 then Expected
            else if c.window <= ahead then Behind
            else Missing(ahead <= last < c.window)
  {
  }

  /** How far the ID of a number is past that of base, less than a turn away. */
  function Offset(ids: nat, base: nat, number: nat): nat
    requires number < base + ids && base <= number + ids
  {
    if base <= number then number - base else ids - (base - number)
  }

  lemma OffsetFrom(c: Config, base: nat, number: nat)
    requires ValidConfig(c) && number < base + c.ids && base <= number + c.ids
    ensures Dist(c.ids, Wrap(c.ids, number), Wrap(c.ids, base)) == Offset(c.ids, base, number)
  {
    if base <= number {
      WrapDist(c.ids, number, base);
    } else {
      WrapBehind(c.ids, number, base);
    }
  }

  /** Half an ID space either way: this counts as packets lost. */
  predicate Tied(c: Config, received: nat, next: nat) {
    next + c.window == received + 1 && 2 * c.window == c.ids
  }

  /** A frame outside the sequence holds the number its sender sends next. */
  lemma AfterPing(c: Config, n: Node, f: Frame, received: nat, next: nat)
    requires WellFormed(c, n) && ValidFrame(c, f) && Takes(c, n, f) && f.ping && !Receive(c, n, f).report.down
    requires n.rx.lastReceived == Wrap(c.ids, received)
    requires f.tx == Wrap(c.ids, next) && 0 < next && received < next + c.window && next <= received + c.window + 1
    ensures var was, m := n.nak, Receive(c, n, f).node;
            var stands := was.out && !AckAnswers(c, n, f.ack);
            && m.rx.lastReceived == n.rx.lastReceived
            && m.rx.lastSeen == Wrap(c.ids, next - 1)
            && if next == received + 1 || (next <= received && !Tied(c, received, next))
               then !m.nak.out && m.nak.pending == was.pending
               else if stands then m.nak == was
               else m.nak.pending && !m.nak.out
  {
    PingPlace(c, n.rx, received, next);
    WrapPred(c.ids, next - 1);
    ReceiveTakes(c, n, f);
  }

  lemma PingPlace(c: Config, r: Receiver, received: nat, next: nat)
    requires ReceiverOk(c, r) && r.lastReceived == Wrap(c.ids, received)
    requires received < next + c.window && next <= received + c.window + 1
    ensures PlaceOf(c, r, Wrap(c.ids, next), true)
         == if next == received + 1 then Expected
            else if next <= received && !Tied(c, received, next) then Behind
            else Missing(false)
  {
    WrapPlus(c.ids, received, 1);
    OffsetFrom(c, received + 1, next);
  }
}
