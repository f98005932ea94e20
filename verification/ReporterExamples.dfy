/** Two runs of the deferred build, step by step. */
module ReporterExamples {
  import opened SeqNum
  import opened Common
  import opened Protocol
  import opened Reporter
  import opened ReporterNotices
  import opened ReporterInvariant
  import opened ReporterRuns

  // ----- a give-up told of too early

  /** Two packets are accepted, and thread 0 has taken the ACK of the first. */
  predicate OneAcked(c: Config, s: Sys, p: Packet, q: Packet) {
    && |s.sh.slots| == c.window && s.sh.lastQueued == 2 && s.sh.lastAck == 1 && s.sh.lastReported == 0
    && !s.sh.busOut && !s.sh.busy
    && s.threads == [Thread(Wants, None), Thread(Idle, None)]
    && s.ledger.accepted == [p, q] && s.ledger.decisions == [Outcome(p, Success)] && s.log.reported == []
  }

  lemma AckFirst(c: Config, batch: nat, slots: seq<Outcome>, p: Packet, q: Packet) returns (states: seq<Sys>)
    requires ValidConfig(c) && 2 <= c.window && 1 <= batch && |slots| == c.window
    ensures IsRun(c, batch, states, [Act.Enqueue(p), Act.Enqueue(q), Ack(0, 1, false)]) && OneAcked(c, states[3], p, q)
  {
    var acts := [Act.Enqueue(p), Act.Enqueue(q), Ack(0, 1, false)];
    var s0 := Fresh(c, slots, 2);
    var s1 := AfterEnqueue(c, s0, p);
    var s2 := AfterEnqueue(c, s1, q);
    var s3 := AfterAck(c, s2, 0, 1, false);
    states := [s0, s1, s2, s3];
    assert IsStep(c, batch, s0, acts[0], s1);
    assert IsStep(c, batch, s1, acts[1], s2);
    assert IsStep(c, batch, s2, acts[2], s3);
    assert states[0] == s0;
  }

  /** Thread 1 gave the second up and is to test the bit thread 0 has set, with the
      confirmation of the first unmade. */
  predicate Poised(s: Sys, p: Packet, q: Packet) {
    && |s.threads| == 2 && s.sh.busy && s.log.reported == []
    && s.ledger.decisions == [Outcome(p, Success), Outcome(q, TimedOut)]
    && s.threads[1] == Thread(Wants, Some(Notice(true, 1, 1, Outcome(q, TimedOut))))
  }

  lemma GiveUpBeside(c: Config, batch: nat, s: Sys, p: Packet, q: Packet) returns (r: Sys, u: Sys)
    requires ValidConfig(c) && 2 <= c.window && OneAcked(c, s, p, q)
    ensures IsStep(c, batch, s, Ack(1, 0, true), r) && IsStep(c, batch, r, Test(0), u) && Poised(u, p, q)
  {
    r := AfterAck(c, s, 1, 0, true);
    u := AfterTest(r, 0);
    assert Settle(s.ledger, 0, Success).decisions == s.ledger.decisions;
  }

  /** The whole run: thread 1 tells of q, given up, before p's earlier confirmation. */
  lemma OvertakingRun(c: Config, batch: nat, slots: seq<Outcome>, p: Packet, q: Packet)
    requires ValidConfig(c) && 2 <= c.window && 1 <= batch && |slots| == c.window
    ensures exists states: seq<Sys> ::
              && IsRun(c, batch, states, [Act.Enqueue(p), Act.Enqueue(q), Ack(0, 1, false), Ack(1, 0, true), Test(0)]
                                         + [Test(1)] + [Tell(1)])
              && Overtaken(states[7], Notice(true, 1, 1, Outcome(q, TimedOut)))
  {
    var states := AckFirst(c, batch, slots, p, q);
    var acts := [Act.Enqueue(p), Act.Enqueue(q), Ack(0, 1, false)];
    var r, u := GiveUpBeside(c, batch, states[3], p, q);
    RunExtends(c, batch, states, acts, Ack(1, 0, true), r);
    RunExtends(c, batch, states + [r], acts + [Ack(1, 0, true)], Test(0), u);
    acts := [Act.Enqueue(p), Act.Enqueue(q), Ack(0, 1, false), Ack(1, 0, true), Test(0)];
    states := states + [r] + [u];
    assert IsRun(c, batch, states, acts);
    PoisedIsUnsettled(u, p, q);
    GiveUpOvertakes(c, batch, states, acts, 1);
    var v, w :| IsRun(c, batch, states + [v] + [w], acts + [Test(1)] + [Tell(1)])
        && Overtaken(w, u.threads[1].owes.value);
    assert (states + [v] + [w])[7] == w;
  }

  lemma PoisedIsUnsettled(s: Sys, p: Packet, q: Packet)
    requires Poised(s, p, q)
    ensures !Settled(s.ledger, |s.log.reported|, s.threads[1].owes.value)
  {
    var d := s.ledger.decisions[..1];
    assert d == [] + [Outcome(p, Success)];
    ExceptOne([], Outcome(p, Success), TimedOut);
  }

  // ----- an unnumbered packet accepted too late

  /** A node at rest but for its slot. */
  predicate AtRest(c: Config, s: Sys) {
    && |s.sh.slots| == c.window && s.sh.lastQueued == 0 && s.sh.lastAck == 0 && s.sh.lastReported == 0
    && !s.sh.busOut && !s.sh.busy && s.sh.unnumbered == None
    && s.threads == [Thread(Idle, None)]
    && s.ledger == Ledger([], [], [], []) && s.log == Log([], [], [])
  }

  /** The DISCONNECT has gone out and its frame is over, but no sweep has come: the
      slot is free and still marked. */
  predicate MarkedFree(c: Config, s: Sys) {
    AtRest(c, s) && !s.sh.slot.waiting && !s.sh.slot.flying && s.sh.slot.disconnect
  }

  const LEAVING := [Act.SendDisconnect(0), Test(0), Act.Copy(0)]

  lemma Leaving(c: Config, batch: nat, slots: seq<Outcome>) returns (states: seq<Sys>)
    requires ValidConfig(c) && 1 <= batch && |slots| == c.window
    ensures IsRun(c, batch, states, LEAVING) && AtRest(c, states[3])
    ensures states[3].sh.slot.waiting && !states[3].sh.slot.flying && states[3].sh.slot.disconnect
  {
    var s0 := Fresh(c, slots, 1);
    var s1 := AfterSendDisconnect(c, s0, 0);
    var s2 := AfterTest(s1, 0);
    var s3 := AfterCopy(c, batch, s2, 0);
    states := [s0, s1, s2, s3];
    assert IsStep(c, batch, s0, LEAVING[0], s1);
    assert IsStep(c, batch, s1, LEAVING[1], s2);
    assert IsStep(c, batch, s2, LEAVING[2], s3);
    assert states[0] == s0;
  }

  const GOODBYE := LEAVING + [Act.Transmit(0)] + [Act.Transmit(0)]

  lemma Goodbye(c: Config, batch: nat, slots: seq<Outcome>) returns (states: seq<Sys>)
    requires ValidConfig(c) && 1 <= batch && |slots| == c.window
    ensures IsRun(c, batch, states, GOODBYE) && MarkedFree(c, states[5])
  {
    states := Leaving(c, batch, slots);
    var s4 := AfterTransmit(states[3], 0);
    var s5 := AfterTransmit(s4, 0);
    RunExtends(c, batch, states, LEAVING, Act.Transmit(0), s4);
    states := states + [s4];
    RunExtends(c, batch, states, LEAVING + [Act.Transmit(0)], Act.Transmit(0), s5);
    states := states + [s5];
  }

  /** Everything is at rest, the packet was accepted, and no one was or will be told. */
  predicate Forgotten(s: Sys, p: Packet) {
    && (forall t :: 0 <= t < |s.threads| ==> s.threads[t].at.Idle?)
    && s.ledger.urgents == [Posted(p, true)] && s.ledger.uDecisions == []
    && !s.sh.slot.waiting && !s.sh.slot.flying
    && s.log.unnumbered == [] && s.log.told == [] && s.log.reported == []
  }

  lemma SweptAway(c: Config, batch: nat, s: Sys, p: Packet) returns (r: seq<Sys>)
    requires ValidConfig(c) && 1 <= batch && MarkedFree(c, s)
    ensures |r| == 4 && Forgotten(r[3], p)
    ensures IsStep(c, batch, s, Act.SendUrgent(p), r[0]) && IsStep(c, batch, r[0], Act.Sweep(0), r[1])
    ensures IsStep(c, batch, r[1], Test(0), r[2]) && IsStep(c, batch, r[2], Act.Copy(0), r[3])
  {
    var a := AfterSendUrgent(s, p);
    var b := AfterSweep(c, a, 0);
    var d := AfterTest(b, 0);
    r := [a, b, d, AfterCopy(c, batch, d, 0)];
  }

  /** A whole run that ends at rest with an accepted packet unconfirmed for good. */
  lemma UnconfirmedRun(c: Config, batch: nat, slots: seq<Outcome>, p: Packet)
    requires ValidConfig(c) && 1 <= batch && |slots| == c.window
    ensures exists states: seq<Sys> ::
              && IsRun(c, batch, states, GOODBYE + [Act.SendUrgent(p)] + [Act.Sweep(0)] + [Test(0)] + [Act.Copy(0)])
              && Forgotten(states[9], p)
  {
    var states := Goodbye(c, batch, slots);
    var r := SweptAway(c, batch, states[5], p);
    var acts := GOODBYE;
    RunExtends(c, batch, states, acts, Act.SendUrgent(p), r[0]);
    states, acts := states + [r[0]], acts + [Act.SendUrgent(p)];
    RunExtends(c, batch, states, acts, Act.Sweep(0), r[1]);
    states, acts := states + [r[1]], acts + [Act.Sweep(0)];
    RunExtends(c, batch, states, acts, Test(0), r[2]);
    states, acts := states + [r[2]], acts + [Test(0)];
    RunExtends(c, batch, states, acts, Act.Copy(0), r[3]);
    states, acts := states + [r[3]], acts + [Act.Copy(0)];
    assert IsRun(c, batch, states, acts) && Forgotten(states[9], p);
  }

  /** The other way to lose it: a second DISCONNECT takes its place in silence. */
  lemma ReplacedInSilence(c: Config, s: Sys, p: Packet)
    requires MarkedFree(c, s)
    ensures var r := AfterSendDisconnect(c, AfterSendUrgent(s, p), 0);
            && r.ledger.urgents == [Posted(p, true)] && r.ledger.uDecisions == [] && r.sh.unnumbered == None
            && r.sh.slot.packet == Packet(c.control, [CTRL_DISCONNECT])
  {
  }
}
