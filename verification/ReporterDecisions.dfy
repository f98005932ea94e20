/**
 What a build with several threads decides under the lock is what the build that
 reports inline tells its callers, one critical section at a time: the results the
 reporter is owed are those of Protocol.dfy, whoever calls back and when.
 */
module ReporterDecisions {
  import opened SeqNum
  import opened Common
  import opened Protocol
  import R = Reporter

  /** The two models hold the same packets. */
  ghost predicate Mirrors(c: Config, n: Node, s: R.Sys) {
    && WellFormed(c, n) && R.SharedOk(c, s.sh)
    && |s.ledger.decisions| + R.Unresolved(c, s.sh) == |s.ledger.accepted|
    && Packets(n.tx.window) == R.Todo(s.ledger)
    && n.slot == s.sh.slot
  }

  /** The ledger after a step decides what a report tells, and no more. */
  ghost predicate Decides(l: R.Ledger, m: R.Ledger, rep: Report) {
    && m.decisions == l.decisions + Resolved(rep)
    && m.uDecisions == l.uDecisions + if rep.urgent.Some? then [rep.urgent.value] else []
  }

  ghost predicate Agrees(c: Config, batch: nat, s: R.Sys, a: R.Act, n: Node, rep: Report)
    requires R.SharedOk(c, s.sh) && R.Enabled(c, s, a)
    requires |s.ledger.decisions| + R.Unresolved(c, s.sh) == |s.ledger.accepted|
  {
    var r := R.Next(c, batch, s, a);
    && R.SharedOk(c, r.sh)
    && Packets(n.tx.window) == r.ledger.accepted[|r.ledger.decisions|..]
    && n.slot == r.sh.slot
    && Decides(s.ledger, r.ledger, rep)
  }

  lemma SweepAgrees(c: Config, batch: nat, n: Node, s: R.Sys, t: nat)
    requires Mirrors(c, n, s) && R.Enabled(c, s, R.Act.Sweep(t))
    ensures Agrees(c, batch, s, R.Act.Sweep(t), Sweep(n).node, Sweep(n).report)
  {
    var l, k := s.ledger, R.Unresolved(c, s.sh);
    assert |Packets(n.tx.window)| == k;
    assert R.Todo(l)[..k] == R.Todo(l);
    assert Outcomes(n.tx.window, Broken) == R.Decide(R.Todo(l), Broken);
    assert Resolved(Sweep(n).report) == Outcomes(n.tx.window, Broken);
  }

  lemma SendDisconnectAgrees(c: Config, batch: nat, n: Node, s: R.Sys, t: nat)
    requires Mirrors(c, n, s) && R.Enabled(c, s, R.Act.SendDisconnect(t)) && n.phase == Connected
    ensures var d := SendDisconnect(c, n); Agrees(c, batch, s, R.Act.SendDisconnect(t), d.node, d.report)
  {
  }

  lemma TransmitAgrees(c: Config, batch: nat, n: Node, s: R.Sys, t: nat)
    requires Mirrors(c, n, s) && R.Enabled(c, s, R.Act.Transmit(t)) && n.phase == Connected
    requires !(n.slot.flying && n.slot.disconnect)
    ensures var d := NextFrame(c, n); Agrees(c, batch, s, R.Act.Transmit(t), d.node, d.report)
  {
  }

  /** What an ACK field resolves and leaves, packet by packet. */
  lemma AckSplits(c: Config, t: Sender, ack: nat, nak: bool)
    requires SenderOk(c, t) && ack < c.ids
    ensures var k, late := Acked(c, t, ack), Expired(c, t, ack, nak);
            && Outcomes(t.window[..k], Success) == R.Decide(Packets(t.window)[..k], Success)
            && k + (if late.Some? then 1 else 0) <= |t.window|
            && (late.Some? ==> late.value == Packets(t.window)[k])
            && Packets(HandleAck(c, t, ack, nak).window) == Packets(t.window)[k + if late.Some? then 1 else 0..]
  {
  }

  lemma AckLedger(c: Config, s: R.Sys, t: nat, k: nat, giveUp: bool)
    requires R.SharedOk(c, s.sh) && |s.ledger.decisions| + R.Unresolved(c, s.sh) == |s.ledger.accepted|
    requires R.IdleAt(s, t) && k + (if giveUp then 1 else 0) <= R.Unresolved(c, s.sh)
    ensures var l, m := s.ledger, R.AfterAck(c, s, t, k, giveUp).ledger;
            && m.decisions == l.decisions + (R.Decide(R.Todo(l)[..k], Success) +
                                             if giveUp then [Outcome(R.Todo(l)[k], TimedOut)] else [])
            && m.accepted[|m.decisions|..] == R.Todo(l)[k + if giveUp then 1 else 0..]
            && m.uDecisions == l.uDecisions
  {
  }

  lemma AckAgrees(c: Config, batch: nat, n: Node, s: R.Sys, t: nat, f: Frame)
    requires Mirrors(c, n, s) && ValidFrame(c, f) && R.IdleAt(s, t) && !s.sh.busOut
    ensures var a := R.Ack(t, Acked(c, n.tx, f.ack), Expired(c, n.tx, f.ack, f.nak).Some?);
            R.Enabled(c, s, a) && Agrees(c, batch, s, a, Take(c, n, f), TakeReport(c, n, f))
  {
    AckSplits(c, n.tx, f.ack, f.nak);
    assert |Packets(n.tx.window)| == R.Unresolved(c, s.sh);
    AckLedger(c, s, t, Acked(c, n.tx, f.ack), Expired(c, n.tx, f.ack, f.nak).Some?);
  }

  /** A packet the inline build takes is taken here too unless a sweep is still being
      reported, or resolved packets still fill the slots. */
  lemma EnqueueAgrees(c: Config, batch: nat, n: Node, s: R.Sys, chan: nat, buf: Buffer, ttl: nat)
    requires Mirrors(c, n, s) && EnqueueCode(c, n, chan, buf) == Ok
    ensures var p := Packet(chan, Content(buf));
            var r := R.Next(c, batch, s, R.Act.Enqueue(p));
            if !s.sh.busOut && Dist(c.ids, s.sh.lastQueued, s.sh.lastReported) < c.window
            then Mirrors(c, Enqueue(c, n, chan, buf, ttl), r)
                 && r.ledger == s.ledger.(accepted := s.ledger.accepted + [p])
            else r == s
  {
    var p := Packet(chan, Content(buf));
    var l, m := s.ledger, Enqueue(c, n, chan, buf, ttl);
    assert Packets(m.tx.window) == Packets(n.tx.window) + [p];
    assert (l.accepted + [p])[|l.decisions|..] == R.Todo(l) + [p];
    DistAfter(c.ids, s.sh.lastQueued, s.sh.lastAck, 1);
  }

  lemma SendUrgentAgrees(c: Config, batch: nat, n: Node, s: R.Sys, chan: nat, buf: Buffer)
    requires Mirrors(c, n, s) && n.phase == Connected && !s.sh.busOut
    requires SendUrgentCode(c, n, chan, buf) != Invalid
    ensures var p := Packet(chan, Content(buf));
            var r := R.Next(c, batch, s, R.Act.SendUrgent(p));
            && r.sh.slot == SendUrgent(c, n, chan, buf).slot
            && if SendUrgentCode(c, n, chan, buf) != Ok then r == s
               else r.ledger.urgents == s.ledger.urgents + [R.Posted(p, n.slot.disconnect)]
  {
  }
}
