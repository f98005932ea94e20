/**
 What the calls of a connection answer in every state, and what becomes of every
 frame, in terms of their arguments and of what is queued.
 */
module Interface {
  import opened SeqNum
  import opened Common
  import opened Protocol

  // ----- the application's calls

  /** A buffer missing, the reserved channel under any tag, or too much payload. */
  predicate NeverSent(c: Config, chan: nat, buf: Buffer)
    requires 0 < c.chanSpan
  {
    match buf
    case Null(size) => size != 0 || Wrap(c.chanSpan, chan) == c.control
    case Octets(s) => c.payloadLim < |s| || Wrap(c.chanSpan, chan) == c.control
  }

  /** Arguments are refused for themselves alone, and a full window only holds back
      what it would take empty. An accepted packet is queued last, good for as many
      copies as asked for, at least one and at most 127. */
  lemma EnqueueAnswers(c: Config, n: Node, chan: nat, buf: Buffer, ttl: nat)
    requires WellFormed(c, n)
    ensures var code, m := EnqueueCode(c, n, chan, buf), Enqueue(c, n, chan, buf, ttl);
            && (code == Invalid <==> NeverSent(c, chan, buf))
            && (code == Again <==> |n.tx.window| == c.window && EnqueueCode(c, Sweep(n).node, chan, buf) == Ok)
            && (code == Ok || code == Again || code == Invalid)
            && m == n.(tx := m.tx)
            && if code != Ok then m == n
               else
                 var copies := if ttl == 0 then 1 else if ttl <= 127 then ttl else 127;
                 var payload := if buf.Null? then [] else buf.octets;
                 && m.tx.window == n.tx.window + [Item(Packet(chan, payload), copies)]
                 && m.tx.lastSent == n.tx.lastSent && m.tx.lastAck == n.tx.lastAck
  {
  }

  /** Unnumbered packets are never empty, need a link that is up, and go one at a
      time; a packet refused for the slot alone is taken once that is free. */
  lemma SendUrgentAnswers(c: Config, n: Node, chan: nat, buf: Buffer)
    requires WellFormed(c, n)
    ensures var code, m := SendUrgentCode(c, n, chan, buf), SendUrgent(c, n, chan, buf);
            && (code == Invalid <==> NeverSent(c, chan, buf) || buf.Null? || buf.octets == [])
            && (code == NotConnected <==> n.phase != Connected && code != Invalid)
            && (code == Again <==> n.phase == Connected && code != Invalid && (n.slot.waiting || n.slot.flying))
            && m == n.(slot := m.slot)
            && if code != Ok then m == n
               else m.slot == n.slot.(waiting := true, packet := Packet(chan, buf.octets))
  {
  }

  /** A DISCONNECT waits for a packet in flight alone; one that only waits makes way
      for it, and its caller is told. */
  lemma SendDisconnectAnswers(c: Config, n: Node)
    requires WellFormed(c, n)
    ensures var code, s := SendDisconnectCode(n), SendDisconnect(c, n);
            && (code == NotConnected <==> n.phase != Connected)
            && (code == Again <==> n.phase == Connected && n.slot.flying)
            && (code == Ok || code == NotConnected || code == Again)
            && s.node == n.(slot := s.node.slot)
            && if code != Ok then s == Step(n, QUIET)
               else
                 && s.node.slot == Slot(true, false, true, Packet(c.control, [1]))
                 && s.report == QUIET.(urgent := if n.slot.waiting && !n.slot.disconnect
                                                 then Some(Outcome(n.slot.packet, Canceled)) else None)
  {
  }

  // ----- frames received in a session

  /** The channel is the reserved one under a tag. */
  predicate Tagged(c: Config, f: Frame)
    requires 0 < c.chanSpan
  {
    f.body.Some? && f.body.value.chan != c.control && Wrap(c.chanSpan, f.body.value.chan) == c.control
  }

  predicate OnControl(c: Config, f: Frame) {
    f.body.Some? && f.body.value.chan == c.control
  }

  predicate Empty(f: Frame) {
    f.body.None? || f.body.value.payload == []
  }

  /** A numbered frame without a channel and one with the reserved channel tagged are
      dropped whole, in every state. */
  lemma DropsWhole(c: Config, n: Node, f: Frame)
    requires WellFormed(c, n) && ValidFrame(c, f)
    requires (!f.ping && (f.body.None? || Tagged(c, f))) || (f.ping && !Empty(f) && Tagged(c, f))
    ensures Receive(c, n, f) == Step(n, QUIET)
  {
  }

  /** The peer's DISCONNECT, and a handshake step other than the last, which a peer
      that has started over sends, end a session: what is outstanding fails, in order. */
  lemma EndsSession(c: Config, n: Node, f: Frame)
    requires WellFormed(c, n) && ValidFrame(c, f) && OnControl(c, f)
    requires if f.ping then f.body.value.payload != [] && f.body.value.payload[0] == 1
                              && (n.phase == Connected || n.phase == Wait2)
             else n.phase == Connected && f.tx != 2
    ensures var s := Receive(c, n, f);
            && s.node.phase == Disconnected && s.node.tx.window == [] && !s.node.slot.waiting && !s.node.slot.flying
            && s.report.down && s.report.up == (n.phase == Wait2)
            && s.report.received == None
            && Resolved(s.report) == seq(|n.tx.window|, i requires 0 <= i < |n.tx.window| =>
                                           Outcome(n.tx.window[i].packet, Broken))
            && s.report.urgent == if (n.slot.waiting || n.slot.flying) && !n.slot.disconnect
                                  then Some(Outcome(n.slot.packet, Broken)) else None
  {
    assert Resolved(Receive(c, n, f).report) == Outcomes(n.tx.window, Broken);
  }

  /** The last handshake step again says nothing new. */
  lemma LastStepAgain(c: Config, n: Node, f: Frame)
    requires WellFormed(c, n) && ValidFrame(c, f) && !f.ping && OnControl(c, f) && n.phase == Connected && f.tx == 2
    ensures Receive(c, n, f) == Step(n, QUIET)
  {
  }

  /** Every other frame is of the session, which it leaves up. A numbered one is
      handed up if it is the next, one outside the sequence if it is not empty. */
  lemma TakesInSession(c: Config, n: Node, f: Frame)
    requires WellFormed(c, n) && ValidFrame(c, f) && (n.phase == Connected || n.phase == Wait2)
    requires if f.ping then Empty(f) || (!Tagged(c, f) && (OnControl(c, f) ==> f.body.value.payload[0] != 1))
             else f.body.Some? && !Tagged(c, f) && !OnControl(c, f)
    ensures var s := Receive(c, n, f);
            && s.node.phase == Connected && !s.report.down && s.report.up == (n.phase == Wait2)
            && s.report.caps == None && s.report.urgent == None && s.node.slot == n.slot
            && s.report.received == (if f.ping then (if Empty(f) then None else f.body)
                                     else if f.tx == Succ(c.ids, n.rx.lastReceived) then f.body else None)
  {
    DistIs(c.ids, f.tx, Succ(c.ids, n.rx.lastReceived), 0);
  }

  // ----- frames sent

  /** A frame of a session carries the next ID, what was received last, and a NAK if
      one is pending; or a standing one again, if it carries nothing else and was not
      asked for by the unnumbered packet before it. The turn says that it is the last
      exactly when all that is queued has then gone out. */
  lemma TurnSays(c: Config, n: Node)
    requires WellFormed(c, n) && n.phase == Connected && !(n.slot.flying && n.slot.disconnect)
    ensures var t := NextFrame(c, n);
            && t.frame.Some? && !t.report.down
            && var f := t.frame.value;
               && f.tx == Succ(c.ids, n.tx.lastSent) && f.ack == n.rx.lastReceived
               && (f.nak <==> n.nak.pending || (n.nak.out && f.ping && f.body == None && !n.slot.flying))
               && t.node.tx.lastSent == (if f.ping then n.tx.lastSent else f.tx)
               && (t.last <==> t.node.tx.lastSent == t.node.tx.lastQueued)
               && f.body == (if n.slot.waiting then Some(n.slot.packet)
                             else if f.ping then None
                             else Some(n.tx.window[Dist(c.ids, n.tx.lastSent, n.tx.lastAck)].packet))
               && (f.ping <==> n.slot.waiting || n.tx.lastSent == n.tx.lastQueued)
  {
  }

  /** Before the link is up each turn repeats the step of the state, whose payload is
      empty until the peer has been heard, and nothing more waits. A turn that leaves
      a session hands out no frame. */
  lemma StepSays(c: Config, n: Node)
    requires WellFormed(c, n)
    ensures var t := NextFrame(c, n);
            && (n.phase != Connected && !(n.slot.flying && n.slot.disconnect) ==>
                  && t.last
                  && t.frame == Some(match n.phase
                                     case Wait1 => Frame(false, 1, false, 0, Some(Packet(c.control, c.caps)))
                                     case Wait2 => Frame(false, 2, false, 0, Some(Packet(c.control, c.caps)))
                                     case _ => Frame(false, 0, false, 0, Some(Packet(c.control, [])))))
            && (n.slot.flying && n.slot.disconnect ==> t.frame == None && !t.last)
  {
  }
}
