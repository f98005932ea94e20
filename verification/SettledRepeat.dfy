/**
 A run in which the keep-alive repeats a NAK however late: nothing is in flight and
 the peer has sent all it holds. But a give-up has taken the peer's numbers below what
 the repeating side saw, so the next packet sent reads as a new pass and raises a
 second NAK, and a packet confirmed as timed out is delivered.
 */
module SettledRepeat {
  import opened SeqNum
  import opened Common
  import opened Protocol
  import opened Link
  import opened GiveUpInvariant
  import opened GiveUp
  import opened RepeatedNak

  /** Why the last condition of quiet matters, in any state: while a side misses a
      packet its peer holds, the next packet its peer accepts and sends reads as a new
      pass, and raises a NAK beside the one repeated, exactly if what the side saw is
      further than what its peer held. */
  lemma NextReadsAsNewPass(c: Config, me: Side, peer: Side)
    requires ValidSide(c, me) && ValidSide(c, peer)
    requires var got := me.node.rx.lastReceived;
             && 1 <= Dist(c.ids, peer.node.tx.lastQueued, got) < c.window
             && 1 <= Dist(c.ids, me.node.rx.lastSeen, got) <= c.window
    ensures PlaceOf(c, me.node.rx, Succ(c.ids, peer.node.tx.lastQueued), false)
            == Missing(!SeenIsHeld(c, me, peer))
  {
  }

  const THIRD := Packet(1, [3])
  const BOTH := [FIRST, SECOND]
  const ALL := [FIRST, SECOND, THIRD]
  const NAKED := Ping(1, true, 0)

  function Once(p: Packet): Item {
    Item(p, 1)
  }

  function Lost(p: Packet): Outcome {
    Outcome(p, TimedOut)
  }

  function Sender(n: Node, out: seq<Frame>, accepted: seq<Packet>, confirmed: seq<Outcome>): Side {
    Side(n, out, accepted, confirmed, [], [], [])
  }

  /** The sender up with sent of its window gone out, none acknowledged. */
  function Up(sent: nat, charged: bool, w: seq<Item>): Node {
    Sending(Connected, sent, 0, charged, w)
  }

  const EMPTIED := Node(Connected, Protocol.Sender(0, 0, 0, true, true, []), Receiver(0, 0), NO_NAK, EMPTY)

  /** The receiver, that saw two packets and has none. */
  function Misses(nak: Nak, out: seq<Frame>): Side {
    Y(Receiving(Connected, 0, 2, nak), out, [])
  }

  const WAITING := Y(Receiving(Wait2, 0, 0, NO_NAK), [], [])

  const S0: Sys := Sys(Sender(Sending(Wait2, 0, 0, false, [Once(FIRST), Once(SECOND)]), [], BOTH, []),
    Y(Receiving(Wait2, 0, 0, NO_NAK), [HandshakeFrame(CFG, Wait2)], []))
  const S1: Sys := Sys(Sender(Up(0, false, [Once(FIRST), Once(SECOND)]), [], BOTH, []), WAITING)
  // The first packet is lost, and the second shows it.
  const S2: Sys := Sys(Sender(Up(1, false, [Once(FIRST), Once(SECOND)]), [RepeatedNak.Numbered(1, FIRST)], BOTH, []),
                       WAITING)
  const S3: Sys := Sys(Sender(Up(1, false, [Once(FIRST), Once(SECOND)]), [], BOTH, []), WAITING)
  const S4: Sys := Sys(Sender(Up(2, false, [Once(FIRST), Once(SECOND)]), [RepeatedNak.Numbered(2, SECOND)], BOTH, []),
                       WAITING)
  const S5: Sys := Sys(Sender(Up(2, false, [Once(FIRST), Once(SECOND)]), [], BOTH, []), Misses(PENDING, []))
  const S6: Sys := Sys(Sender(Up(2, false, [Once(FIRST), Once(SECOND)]), [], BOTH, []), Misses(STANDING, [NAKED]))
  // It is given up; the second takes its number and is lost as well.
  const S7: Sys := Sys(Sender(Up(0, true, [Once(SECOND)]), [], BOTH, [Lost(FIRST)]), Misses(STANDING, []))
  const S8: Sys := Sys(Sender(Up(1, false, [Once(SECOND)]), [RepeatedNak.Numbered(1, SECOND)], BOTH, [Lost(FIRST)]),
                       Misses(STANDING, []))
  const S9: Sys := Sys(Sender(Up(1, false, [Once(SECOND)]), [], BOTH, [Lost(FIRST)]), Misses(STANDING, []))
  // All is settled, and the NAK is repeated.
  const S10: Sys := Sys(Sender(Up(1, false, [Once(SECOND)]), [], BOTH, [Lost(FIRST)]), Misses(STANDING, [NAKED]))
  const S11: Sys := Sys(Sender(Up(1, false, [Once(SECOND), Once(THIRD)]), [], ALL, [Lost(FIRST)]),
                        Misses(STANDING, [NAKED]))
  const S12: Sys := Sys(Sender(Up(2, false, [Once(SECOND), Once(THIRD)]), [RepeatedNak.Numbered(2, THIRD)], ALL,
                               [Lost(FIRST)]),
    Misses(STANDING, [NAKED]))
  // The third packet is no further than what was seen, so it reads as a new pass.
  const S13: Sys := Sys(Sender(Up(2, false, [Once(SECOND), Once(THIRD)]), [], ALL, [Lost(FIRST)]),
                        Misses(PENDING, [NAKED]))
  const S14: Sys := Sys(Sender(Up(2, false, [Once(SECOND), Once(THIRD)]), [], ALL, [Lost(FIRST)]),
                        Misses(STANDING, [NAKED, NAKED]))
  const S15: Sys := Sys(Sender(Up(0, true, [Once(THIRD)]), [], ALL, [Lost(FIRST), Lost(SECOND)]),
                        Misses(STANDING, [NAKED]))
  const S16: Sys := Sys(Sender(Up(1, false, [Once(THIRD)]), [RepeatedNak.Numbered(1, THIRD)], ALL,
                               [Lost(FIRST), Lost(SECOND)]),
    Misses(STANDING, [NAKED]))
  // The second NAK charges the copy still on its way.
  const S17: Sys := Sys(Sender(EMPTIED, [RepeatedNak.Numbered(1, THIRD)], ALL,
                               [Lost(FIRST), Lost(SECOND), Lost(THIRD)]),
    Misses(STANDING, []))
  const S18: Sys := Sys(Sender(EMPTIED, [], ALL, [Lost(FIRST), Lost(SECOND), Lost(THIRD)]),
    Y(Receiving(Connected, 1, 1, NO_NAK), [], [THIRD]))

  function At(i: nat): Sys {
    match i
    case 0 => S0
    case 1 => S1
    case 2 => S2
    case 3 => S3
    case 4 => S4
    case 5 => S5
    case 6 => S6
    case 7 => S7
    case 8 => S8
    case 9 => S9
    case 10 => S10
    case 11 => S11
    case 12 => S12
    case 13 => S13
    case 14 => S14
    case 15 => S15
    case 16 => S16
    case 17 => S17
    case _ => S18
  }

  function Did(i: nat): Move {
    match i
    case 0 => Move(true, Deliver)
    case 1 => Move(true, Transmit)
    case 2 => Move(false, Lose(0))
    case 3 => Move(true, Transmit)
    case 4 => Move(false, Deliver)
    case 5 => Move(false, Transmit)
    case 6 => Move(true, Deliver)
    case 7 => Move(true, Transmit)
    case 8 => Move(false, Lose(0))
    case 9 => Move(false, Transmit)
    case 10 => Move(true, Act.Enqueue(1, Octets([3]), 1))
    case 11 => Move(true, Transmit)
    case 12 => Move(false, Deliver)
    case 13 => Move(false, Transmit)
    case 14 => Move(true, Deliver)
    case 15 => Move(true, Transmit)
    case 16 => Move(true, Deliver)
    case _ => Move(false, Deliver)
  }

  const SETTLED_MOVES := seq(18, i requires 0 <= i => Did(i))

  lemma Goes0()
    ensures Next(CFG, S0, Move(true, Deliver), S1)
  {
    ConfigOk();
  }

  lemma Goes1()
    ensures Next(CFG, S1, Move(true, Transmit), S2)
  {
    ConfigOk();
  }

  lemma Goes2()
    ensures Next(CFG, S2, Move(false, Lose(0)), S3)
  {
    ConfigOk();
  }

  lemma Goes3()
    ensures Next(CFG, S3, Move(true, Transmit), S4)
  {
    ConfigOk();
  }

  lemma Goes4()
    ensures Next(CFG, S4, Move(false, Deliver), S5)
  {
    ConfigOk();
  }

  lemma Goes5()
    ensures Next(CFG, S5, Move(false, Transmit), S6)
  {
    ConfigOk();
  }

  lemma Takes6()
    ensures Protocol.Receive(CFG, Up(2, false, [Once(FIRST), Once(SECOND)]), NAKED)
            == Step(Up(0, true, [Once(SECOND)]), QUIET.(expired := Some(FIRST)))
  {
    ConfigOk();
  }

  lemma Goes6()
    ensures Next(CFG, S6, Move(true, Deliver), S7)
  {
    ConfigOk();
    Takes6();
    Taken(S6, true, S7, Up(0, true, [Once(SECOND)]), QUIET.(expired := Some(FIRST)));
  }

  lemma Goes7()
    ensures Next(CFG, S7, Move(true, Transmit), S8)
  {
    ConfigOk();
  }

  lemma Goes8()
    ensures Next(CFG, S8, Move(false, Lose(0)), S9)
  {
    ConfigOk();
  }

  lemma Goes9()
    ensures Next(CFG, S9, Move(false, Transmit), S10)
  {
    ConfigOk();
  }

  lemma Goes10()
    ensures Next(CFG, S10, Move(true, Act.Enqueue(1, Octets([3]), 1)), S11)
  {
    ConfigOk();
  }

  lemma Goes11()
    ensures Next(CFG, S11, Move(true, Transmit), S12)
  {
    ConfigOk();
  }

  lemma Takes12()
    ensures Protocol.Receive(CFG, Receiving(Connected, 0, 2, STANDING), RepeatedNak.Numbered(2, THIRD))
            == Step(Receiving(Connected, 0, 2, PENDING), QUIET)
  {
    ConfigOk();
  }

  lemma Goes12()
    ensures Next(CFG, S12, Move(false, Deliver), S13)
  {
    ConfigOk();
    Takes12();
    Taken(S12, false, S13, Receiving(Connected, 0, 2, PENDING), QUIET);
  }

  lemma Goes13()
    ensures Next(CFG, S13, Move(false, Transmit), S14)
  {
    ConfigOk();
  }

  lemma Takes14()
    ensures Protocol.Receive(CFG, Up(2, false, [Once(SECOND), Once(THIRD)]), NAKED)
            == Step(Up(0, true, [Once(THIRD)]), QUIET.(expired := Some(SECOND)))
  {
    ConfigOk();
  }

  lemma Goes14()
    ensures Next(CFG, S14, Move(true, Deliver), S15)
  {
    ConfigOk();
    Takes14();
    Taken(S14, true, S15, Up(0, true, [Once(THIRD)]), QUIET.(expired := Some(SECOND)));
  }

  lemma Goes15()
    ensures Next(CFG, S15, Move(true, Transmit), S16)
  {
    ConfigOk();
  }

  lemma Takes16()
    ensures Protocol.Receive(CFG, Up(1, false, [Once(THIRD)]), NAKED) == Step(EMPTIED, QUIET.(expired := Some(THIRD)))
  {
    ConfigOk();
  }

  lemma Goes16()
    ensures Next(CFG, S16, Move(true, Deliver), S17)
  {
    ConfigOk();
    Takes16();
    Taken(S16, true, S17, EMPTIED, QUIET.(expired := Some(THIRD)));
  }

  lemma Takes17()
    ensures Protocol.Receive(CFG, Receiving(Connected, 0, 2, STANDING), RepeatedNak.Numbered(1, THIRD))
            == Step(Receiving(Connected, 1, 1, NO_NAK), QUIET.(received := Some(THIRD)))
  {
    ConfigOk();
  }

  lemma Goes17()
    ensures Next(CFG, S17, Move(false, Deliver), S18)
  {
    ConfigOk();
    Takes17();
    Taken(S17, false, S18, Receiving(Connected, 1, 1, NO_NAK), QUIET.(received := Some(THIRD)));
  }

  lemma GoesEarly(i: nat)
    requires i < 9
    ensures Next(CFG, At(i), Did(i), At(i + 1))
  {
    match i
    case 0 => Goes0();
    case 1 => Goes1();
    case 2 => Goes2();
    case 3 => Goes3();
    case 4 => Goes4();
    case 5 => Goes5();
    case 6 => Goes6();
    case 7 => Goes7();
    case _ => Goes8();
  }

  lemma GoesLate(i: nat)
    requires 9 <= i < 18
    ensures Next(CFG, At(i), Did(i), At(i + 1))
  {
    match i
    case 9 => Goes9();
    case 10 => Goes10();
    case 11 => Goes11();
    case 12 => Goes12();
    case 13 => Goes13();
    case 14 => Goes14();
    case 15 => Goes15();
    case 16 => Goes16();
    case _ => Goes17();
  }

  const SETTLED_TRACE := seq(19, i requires 0 <= i => At(i))

  /** The repeat meets every condition of quiet but the last: nothing is in flight
      either way, the peer has sent all it holds, and holds a packet this side misses;
      but what this side saw is further. */
  lemma RepeatIsSettled()
    ensures ValidSys(CFG, S9) && RepeatsNak(S9.y.node) && S9.x.out == [] && S9.y.out == []
    ensures AllSettled(CFG, S9.y, S9.x) && !SeenIsHeld(CFG, S9.y, S9.x)
    ensures var got := S9.y.node.rx.lastReceived;
            1 <= Dist(CFG.ids, S9.x.node.tx.lastQueued, got) < Dist(CFG.ids, S9.y.node.rx.lastSeen, got)
  {
    ConfigOk();
  }

  /** No other move repeats a NAK. */
  lemma OnlyRepeat(i: nat)
    requires i < 18 && i != 9 && Did(i).act.Transmit?
    ensures !RepeatsNak(Near(At(i), Did(i).byX).node)
  {
  }

  /** A run whose only repeat comes when all is settled; in the end every packet has
      been confirmed as timed out, and the last of them delivered. */
  lemma SettledRepeatDelivers()
    ensures IsRun(CFG, SETTLED_TRACE, SETTLED_MOVES) && SETTLED_TRACE[9] == S9
            && SETTLED_MOVES[9] == Move(false, Transmit)
    ensures var s, r := SETTLED_TRACE[18].x, SETTLED_TRACE[18].y;
            && s.confirmed == [Lost(FIRST), Lost(SECOND), Lost(THIRD)]
            && r.delivered == [THIRD]
  {
    ConfigOk();
    forall i | 0 <= i < |SETTLED_MOVES| ensures Next(CFG, SETTLED_TRACE[i], SETTLED_MOVES[i], SETTLED_TRACE[i + 1]) {
      if i < 9 {
        GoesEarly(i);
      } else {
        GoesLate(i);
      }
    }
  }
}
