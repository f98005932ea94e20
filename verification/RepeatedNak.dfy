/**
 A run in which the keep-alive repeats a NAK while its answer is on the way: the
 packet given up is delivered and confirmed as timed out, and the one behind it,
 dropped as a copy, is confirmed as delivered.
 */
module RepeatedNak {
  import opened SeqNum
  import opened Common
  import opened Protocol
  import opened Link
  import opened GiveUpInvariant
  import opened GiveUp

  const CFG := Config(4, 2, 1, 2, 0, [])
  const FIRST := Packet(1, [1])
  const SECOND := Packet(1, [2])
  const EMPTY := Slot(false, false, false, Packet(0, []))

  const LEFT := [Item(SECOND, 9)]
  const EXPIRED := Outcome(FIRST, TimedOut)
  const PENDING := Nak(true, false, false, 0)
  const STANDING := Nak(false, true, false, 0)

  function Sending(phase: Phase, sent: nat, acked: nat, charged: bool, w: seq<Item>): Node {
    Node(phase, Sender(acked + |w|, sent, acked, charged, false, w), Receiver(0, 0), NO_NAK, EMPTY)
  }

  function Receiving(phase: Phase, received: nat, seen: nat, nak: Nak): Node {
    Node(phase, Sender(0, 0, 0, false, false, []), Receiver(received, seen), nak, EMPTY)
  }

  function X(n: Node, out: seq<Frame>, confirmed: seq<Outcome>): Side {
    Side(n, out, [FIRST, SECOND], confirmed, [], [], [])
  }

  function Y(n: Node, out: seq<Frame>, delivered: seq<Packet>): Side {
    Side(n, out, [], [], delivered, [], [])
  }

  function Ping(id: nat, nak: bool, ack: nat): Frame {
    Frame(true, id, nak, ack, None)
  }

  function Numbered(id: nat, p: Packet): Frame {
    Frame(false, id, false, 0, Some(p))
  }

  function Queue(ttl: nat): seq<Item> {
    [Item(FIRST, ttl), Item(SECOND, 9)]
  }

  // Both ends have all but met; x holds two packets, the first good for two copies.
  const S0: Sys := Sys(X(Sending(Wait2, 0, 0, false, Queue(2)), [], []),
                       Y(Receiving(Wait2, 0, 0, NO_NAK), [HandshakeFrame(CFG, Wait2)], []))
  const S1: Sys := Sys(X(Sending(Connected, 0, 0, false, Queue(2)), [], []), Y(Receiving(Wait2, 0, 0, NO_NAK), [], []))
  // The first copy of the first packet is lost, and the second packet shows it.
  const S2: Sys := Sys(X(Sending(Connected, 1, 0, false, Queue(2)), [Numbered(1, FIRST)], []),
                       Y(Receiving(Wait2, 0, 0, NO_NAK), [], []))
  const S3: Sys := Sys(X(Sending(Connected, 1, 0, false, Queue(2)), [], []), Y(Receiving(Wait2, 0, 0, NO_NAK), [], []))
  const S4: Sys := Sys(X(Sending(Connected, 2, 0, false, Queue(2)), [Numbered(2, SECOND)], []),
                       Y(Receiving(Wait2, 0, 0, NO_NAK), [], []))
  const S5: Sys := Sys(X(Sending(Connected, 2, 0, false, Queue(2)), [], []),
                       Y(Receiving(Connected, 0, 2, PENDING), [], []))
  const S6: Sys := Sys(X(Sending(Connected, 2, 0, false, Queue(2)), [], []),
                       Y(Receiving(Connected, 0, 2, STANDING), [Ping(1, true, 0)], []))
  // The NAK is answered by another copy, but repeated before that arrives.
  const S7: Sys := Sys(X(Sending(Connected, 0, 0, true, Queue(1)), [], []),
                       Y(Receiving(Connected, 0, 2, STANDING), [], []))
  const S8: Sys := Sys(X(Sending(Connected, 1, 0, false, Queue(1)), [Numbered(1, FIRST)], []),
                       Y(Receiving(Connected, 0, 2, STANDING), [], []))
  const S9: Sys := Sys(X(Sending(Connected, 1, 0, false, Queue(1)), [Numbered(1, FIRST)], []),
                       Y(Receiving(Connected, 0, 2, STANDING), [Ping(1, true, 0)], []))
  const S10: Sys := Sys(X(Sending(Connected, 0, 0, true, LEFT), [Numbered(1, FIRST)], [EXPIRED]),
                        Y(Receiving(Connected, 0, 2, STANDING), [], []))
  // The second packet now goes out under the number the first was taken for.
  const S11: Sys := Sys(X(Sending(Connected, 0, 0, true, LEFT), [], [EXPIRED]),
                        Y(Receiving(Connected, 1, 1, NO_NAK), [], [FIRST]))
  const S12: Sys := Sys(X(Sending(Connected, 1, 0, false, LEFT), [Numbered(1, SECOND)], [EXPIRED]),
                        Y(Receiving(Connected, 1, 1, NO_NAK), [], [FIRST]))
  const S13: Sys := Sys(X(Sending(Connected, 1, 0, false, LEFT), [], [EXPIRED]),
                        Y(Receiving(Connected, 1, 1, NO_NAK), [], [FIRST]))
  const S14: Sys := Sys(X(Sending(Connected, 1, 0, false, LEFT), [], [EXPIRED]),
                        Y(Receiving(Connected, 1, 1, NO_NAK), [Ping(1, false, 1)], [FIRST]))
  const S15: Sys := Sys(X(Sending(Connected, 1, 1, false, []), [], [EXPIRED, Outcome(SECOND, Success)]),
                        Y(Receiving(Connected, 1, 1, NO_NAK), [], [FIRST]))

  function State(i: nat): Sys {
    match i
    case 0 => S0
    case 1 => S1
    case 2 => S2
    case 3 => S3
    case 4 => S4
    case 5 => S5
    case 6 => S6
    case 7 => S7
    case 8 => S8
    case 9 => S9
    case 10 => S10
    case 11 => S11
    case 12 => S12
    case 13 => S13
    case 14 => S14
    case _ => S15
  }

  function Made(i: nat): Move {
    match i
    case 0 => Move(true, Deliver)
    case 1 => Move(true, Transmit)
    case 2 => Move(false, Lose(0))
    case 3 => Move(true, Transmit)
    case 4 => Move(false, Deliver)
    case 5 => Move(false, Transmit)
    case 6 => Move(true, Deliver)
    case 7 => Move(true, Transmit)
    case 8 => Move(false, Transmit)
    case 9 => Move(true, Deliver)
    case 10 => Move(false, Deliver)
    case 11 => Move(true, Transmit)
    case 12 => Move(false, Deliver)
    case 13 => Move(false, Transmit)
    case _ => Move(true, Deliver)
  }

  const MOVES := seq(15, i requires 0 <= i => Made(i))

  const TRACE := seq(16, i requires 0 <= i => State(i))

  lemma ConfigOk()
    ensures ValidConfig(CFG)
  {
    assert Wrap(2, 4) == Wrap(2, 2) == Wrap(2, 0) == 0;
  }

  /** A frame taken, by what the node makes of it. */
  lemma Taken(s: Sys, byX: bool, t: Sys, n: Node, rep: Report)
    requires ValidSys(CFG, s) && Far(s, byX).out != [] && !rep.down
    requires Protocol.Receive(CFG, Near(s, byX).node, Far(s, byX).out[0]) == Step(n, rep)
    requires var me, f := Near(s, byX), Far(s, byX).out[0];
             Near(t, byX) == me.(node := n, confirmed := me.confirmed + Resolved(rep),
                                 delivered := me.delivered + if rep.received.Some? then [rep.received.value] else [])
    requires Far(s, byX).out[0].ping ==> rep.received == None
    requires Far(t, byX) == Far(s, byX).(out := Without(Far(s, byX).out, 0))
    ensures Next(CFG, s, Move(byX, Deliver), t)
  {
  }

  lemma GivenUp()
    ensures ValidSys(CFG, S9)
    ensures Protocol.Receive(CFG, S9.x.node, Ping(1, true, 0)) == Step(S10.x.node, QUIET.(expired := Some(FIRST)))
  {
    ConfigOk();
    var t, f := S9.x.node.tx, Ping(1, true, 0);
    assert GivesUp(CFG, t) && Acknowledge(CFG, t, 0) == t;
    assert HandleAck(CFG, t, f.ack, f.nak) == HandleNak(CFG, t) == S10.x.node.tx;
  }

  lemma Step0() ensures Next(CFG, S0, Move(true, Deliver), S1) { ConfigOk(); }
  lemma Step1() ensures Next(CFG, S1, Move(true, Transmit), S2) { ConfigOk(); }
  lemma Step2() ensures Next(CFG, S2, Move(false, Lose(0)), S3) { ConfigOk(); }
  lemma Step3() ensures Next(CFG, S3, Move(true, Transmit), S4) { ConfigOk(); }
  lemma Step4() ensures Next(CFG, S4, Move(false, Deliver), S5) { ConfigOk(); }
  lemma Step5() ensures Next(CFG, S5, Move(false, Transmit), S6) { ConfigOk(); }
  lemma Step6() ensures Next(CFG, S6, Move(true, Deliver), S7) { ConfigOk(); }
  lemma Step7() ensures Next(CFG, S7, Move(true, Transmit), S8) { ConfigOk(); }
  lemma Step8() ensures Next(CFG, S8, Move(false, Transmit), S9) { ConfigOk(); }
  lemma Step9()
    ensures Next(CFG, S9, Move(true, Deliver), S10)
  {
    GivenUp();
    Taken(S9, true, S10, S10.x.node, QUIET.(expired := Some(FIRST)));
  }

  lemma Step10() ensures Next(CFG, S10, Move(false, Deliver), S11) { ConfigOk(); }
  lemma Step11() ensures Next(CFG, S11, Move(true, Transmit), S12) { ConfigOk(); }
  lemma Step12() ensures Next(CFG, S12, Move(false, Deliver), S13) { ConfigOk(); }
  lemma Step13() ensures Next(CFG, S13, Move(false, Transmit), S14) { ConfigOk(); }
  lemma Step14() ensures Next(CFG, S14, Move(true, Deliver), S15) { ConfigOk(); }

  lemma EarlyStep(i: nat)
    requires i < 8
    ensures Next(CFG, State(i), Made(i), State(i + 1))
  {
    match i
    case 0 => Step0();
    case 1 => Step1();
    case 2 => Step2();
    case 3 => Step3();
    case 4 => Step4();
    case 5 => Step5();
    case 6 => Step6();
    case _ => Step7();
  }

  lemma LateStep(i: nat)
    requires 8 <= i < 15
    ensures Next(CFG, State(i), Made(i), State(i + 1))
  {
    match i
    case 8 => Step8();
    case 9 => Step9();
    case 10 => Step10();
    case 11 => Step11();
    case 12 => Step12();
    case 13 => Step13();
    case _ => Step14();
  }

  /** The repeat comes while the answer to the NAK is in flight. */
  lemma RepeatIsLoud()
    ensures MOVES[8] == Move(false, Transmit) && !RepeatsQuietly(CFG, S8.y, S8.x)
  {
    ConfigOk();
    assert InSession(CFG, S8.x.out[0]);
  }

  /** With a NAK repeated too early, the packet reported given up is delivered and
      the packet reported delivered is not. */
  lemma RepeatLosesPackets()
    ensures IsRun(CFG, TRACE, MOVES) && !QuietRepeats(CFG, TRACE, MOVES)
    ensures var s, r := TRACE[|MOVES|].x, TRACE[|MOVES|].y;
            && s.confirmed == [Outcome(FIRST, TimedOut), Outcome(SECOND, Success)]
            && r.delivered == [FIRST]
  {
    ConfigOk();
    forall i | 0 <= i < |MOVES| ensures Next(CFG, TRACE[i], MOVES[i], TRACE[i + 1]) {
      if i < 8 {
        EarlyStep(i);
      } else {
        LateStep(i);
      }
    }
    RepeatIsLoud();
    assert !RepeatsQuietly(CFG, Near(TRACE[8], MOVES[8].byX), Far(TRACE[8], MOVES[8].byX));
  }
}
