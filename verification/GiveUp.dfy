/**
 The give-up theorem: every step of a run that repeats NAKs only in quiet keeps the
 invariant of GiveUpInvariant, and what the invariant says of the callbacks.
 */
module GiveUp {
  import opened SeqNum
  import opened Common
  import opened Protocol
  import opened Link
  import opened Delivery
  import opened GiveUpInvariant

  // ----- the ledger

  lemma SucceededOne(o: seq<Outcome>, x: Outcome)
    ensures Succeeded(o + [x]) == Succeeded(o) + if x.result == Success then [x.packet] else []
  {
    assert (o + [x])[..|o + [x]| - 1] == o;
  }

  lemma OutcomesLast(o: seq<Outcome>, w: seq<Item>)
    requires w != []
    ensures var init, x := w[..|w| - 1], w[|w| - 1].packet;
            && o + Outcomes(w, Success) == o + Outcomes(init, Success) + [Outcome(x, Success)]
            && Packets(w) == Packets(init) + [x]
  {
    assert Outcomes(w, Success) == Outcomes(w[..|w| - 1], Success) + [Outcome(w[|w| - 1].packet, Success)];
  }

  lemma {:induction false} SucceededMore(o: seq<Outcome>, w: seq<Item>)
    ensures Succeeded(o + Outcomes(w, Success)) == Succeeded(o) + Packets(w)
    decreases |w|
  {
    if w == [] {
      assert o + Outcomes(w, Success) == o;
    } else {
      var init, x := w[..|w| - 1], w[|w| - 1].packet;
      OutcomesLast(o, w);
      SucceededOne(o + Outcomes(init, Success), Outcome(x, Success));
      SucceededMore(o, init);
      PacketsMore(Succeeded(o), Packets(init), [x]);
    }
  }

  lemma PacketsMore(x: seq<Packet>, y: seq<Packet>, z: seq<Packet>)
    ensures x + (y + z) == x + y + z
  {
  }

  /** Packets leave the window by its front: k of them confirmed as delivered. */
  lemma ConfirmedAcked(conf: seq<Outcome>, w: seq<Item>, k: nat)
    requires k <= |w|
    ensures PacketsOf(conf + Outcomes(w[..k], Success)) + Packets(w)[k..] == PacketsOf(conf) + Packets(w)
  {
    assert PacketsOf(conf + Outcomes(w[..k], Success)) == PacketsOf(conf) + Packets(w)[..k];
    Halves(PacketsOf(conf), Packets(w), k);
  }

  lemma Halves(s: seq<Packet>, p: seq<Packet>, k: nat)
    requires k <= |p|
    ensures s + p[..k] + p[k..] == s + p
  {
  }

  lemma SucceededAcked(conf: seq<Outcome>, w: seq<Item>, d: nat, k: nat)
    requires k <= d <= |w|
    ensures var more, p := conf + Outcomes(w[..k], Success), Packets(w);
            && Succeeded(more) + p[k..][..d - k] == Succeeded(conf) + p[..d]
            && |Succeeded(more)| == |Succeeded(conf)| + k
  {
    SucceededMore(conf, w[..k]);
    assert Packets(w[..k]) == Packets(w)[..k];
    Reassembled(Succeeded(conf), Packets(w), k, d);
  }

  lemma Reassembled(s: seq<Packet>, p: seq<Packet>, k: nat, d: nat)
    requires k <= d <= |p|
    ensures s + p[..k] + p[k..][..d - k] == s + p[..d]
  {
    assert p[..d] == p[..k] + p[k..][..d - k];
  }

  lemma AccountsAcked(s: Side, r: Side, g: Num, h: Num, t: Side, g': Num)
    requires Accounts(s, r, g, h) && g.acked <= g'.acked <= h.received
    requires t.accepted == s.accepted
    requires t.confirmed == s.confirmed + Outcomes(s.node.tx.window[..g'.acked - g.acked], Success)
    requires Packets(t.node.tx.window) == Packets(s.node.tx.window)[g'.acked - g.acked..]
    ensures Accounts(t, r, g', h)
  {
    var k := g'.acked - g.acked;
    ConfirmedAcked(s.confirmed, s.node.tx.window, k);
    SucceededAcked(s.confirmed, s.node.tx.window, h.received - g.acked, k);
    assert t.accepted == PacketsOf(t.confirmed) + Packets(t.node.tx.window);
    assert h.received - g'.acked == h.received - g.acked - k;
  }

  /** The packet given up is the first, and nothing past it has been delivered. */
  lemma AccountsExpired(s: Side, r: Side, g: Num, h: Num, t: Side, p: Packet)
    requires Accounts(s, r, g, h) && g.acked == h.received
    requires t.accepted == s.accepted
    requires t.confirmed == s.confirmed + [Outcome(p, TimedOut)]
    requires Packets(s.node.tx.window) == [p] + Packets(t.node.tx.window)
    ensures Accounts(t, r, g, h)
  {
    SucceededOne(s.confirmed, Outcome(p, TimedOut));
    assert PacketsOf(t.confirmed) == PacketsOf(s.confirmed) + [p];
    assert Packets(t.node.tx.window)[..0] == Packets(s.node.tx.window)[..0];
  }

  lemma AccountsTaken(s: Side, r: Side, g: Num, h: Num, q: Side)
    requires Accounts(s, r, g, h) && h.received - g.acked < |s.node.tx.window|
    requires q.delivered == r.delivered + [s.node.tx.window[h.received - g.acked].packet]
    ensures Accounts(s, q, g, h.(received := h.received + 1))
  {
    var p, k := Packets(s.node.tx.window), h.received - g.acked;
    assert p[..k + 1] == p[..k] + [p[k]];
  }

  // ----- a frame taken

  ghost function NumAfter(c: Config, g: Num, f: Frame, k: Mark): Num
    requires ValidConfig(c)
  {
    NumTaken(c, NumAcked(g, f, k), f, k)
  }

  /** Whether the ACK of the frame answers this side's NAK. */
  predicate Answers(nak: Nak, g: Num, k: Mark) {
    nak.tracked && g.track <= k.ack
  }

  lemma NakTaken(c: Config, n: Node, f: Frame, k: Mark, nak: Nak, g: Num, h: Num, t: Sender)
    requires Local(c, n, g) && ValidFrame(c, f) && InSession(c, f)
    requires Reply(c, f, k, nak, g, h) && Bounds(c, n.tx, g, h)
    requires SenderOk(c, t) && Flight(c, f, k, t, h, g)
    ensures Take(c, n, f).nak
         == NakAfterFrame(if Answers(n.nak, g, k) then NakAnswered(n.nak) else n.nak,
                          PlaceOf(c, n.rx, f.tx, f.ping), f.ping)
    ensures PlaceOf(c, n.rx, f.tx, f.ping)
         == if f.ping then (if k.pos == g.received then Expected else Missing(false))
            else if k.pos == g.received + 1 then Expected
            else Missing(g.received < g.seen && k.pos <= g.seen)
  {
    SenderAcked(c, n.tx, f, k, nak, g, h);
    TrackExact(c, n, g, f, k);
    PlaceExact(c, n.rx, f, k, g);
  }

  lemma LocalTaken(c: Config, n: Node, f: Frame, k: Mark, nak: Nak, g: Num, h: Num, t: Sender)
    requires Local(c, n, g) && ValidFrame(c, f) && InSession(c, f)
    requires Reply(c, f, k, nak, g, h) && Bounds(c, n.tx, g, h)
    requires SenderOk(c, t) && Flight(c, f, k, t, h, g)
    requires !(Take(c, n, f).nak.pending && Take(c, n, f).nak.out)
    ensures Local(c, Take(c, n, f), NumAfter(c, g, f, k))
  {
    SenderAcked(c, n.tx, f, k, nak, g, h);
    NakTaken(c, n, f, k, nak, g, h, t);
    if f.ping {
      WrapPred(c.ids, k.pos);
    }
  }

  /** The taker as a sender. */
  lemma SenderTakes(c: Config, s: Side, hs: Hist, r: Side, hr: Hist, t: Sender, g': Num)
    requires Safe(c, s, hs, r, hr) && r.out != [] && InSession(c, r.out[0])
    requires t == HandleAck(c, s.node.tx, r.out[0].ack, r.out[0].nak)
    requires g' == NumAfter(c, hs.g, r.out[0], hr.m[0])
    ensures Bounds(c, t, g', hr.g)
    ensures Flights(c, s.out, hs.m, t, g', hr.g)
    ensures Replies(c, Without(r.out, 0), Without(hr.m, 0), r.node.nak, g', hr.g)
  {
    var f, k, a := r.out[0], hr.m[0], NumAcked(hs.g, r.out[0], hr.m[0]);
    assert Reply(c, r.out[0], hr.m[0], r.node.nak, hs.g, hr.g);
    BoundsAcked(c, s.node.tx, f, k, r.node.nak, hs.g, hr.g);
    FlightsAcked(c, s.out, hs.m, s.node.tx, f, k, r.node.nak, hs.g, hr.g);
    FlightsSame(c, s.out, hs.m, t, a, hr.g, g', hr.g);
    RepliesAcked(c, r.out, hr.m, r.node.nak, hs.g, hr.g);
    RepliesSame(c, Without(r.out, 0), Without(hr.m, 0), r.node.nak, a, hr.g, g', hr.g);
  }

  lemma SenderTracks(c: Config, s: Side, hs: Hist, r: Side, hr: Hist, g': Num)
    requires Safe(c, s, hs, r, hr) && r.out != [] && InSession(c, r.out[0])
    requires g' == NumAfter(c, hs.g, r.out[0], hr.m[0])
    ensures Tracks(c, s.out, hs.m, Without(r.out, 0), Without(hr.m, 0), r.node.nak, g', hr.g)
  {
    assert Flight(c, r.out[0], hr.m[0], r.node.tx, hr.g, hs.g);
    forall i | 0 <= i < |s.out| && InSession(c, s.out[i]) ensures hs.m[i].epoch <= hs.g.epoch {
      assert Flight(c, s.out[i], hs.m[i], s.node.tx, hs.g, hr.g);
    }
    TracksAcked(c, s.out, hs.m, r.out, hr.m, r.node.nak, s.node.nak, hs.g, hr.g, g');
  }

  /** What a frame taken into the sequence does to the taker's own packets. */
  lemma DeliveredResolves(c: Config, s: Side, f: Frame)
    requires ValidSide(c, s) && ValidFrame(c, f) && Takes(c, s.node, f)
    requires !Receive(c, s.node, f).report.down
    ensures var t := Delivered(c, s, f);
            && t.node.tx == HandleAck(c, s.node.tx, f.ack, f.nak) && t.accepted == s.accepted
            && t.confirmed == s.confirmed + (Outcomes(s.node.tx.window[..Acked(c, s.node.tx, f.ack)], Success) +
                                             ExpiredOutcome(Expired(c, s.node.tx, f.ack, f.nak)))
  {
    ReceiveTakes(c, s.node, f);
  }

  lemma SenderAccounts(c: Config, s: Side, g: Num, r: Side, h: Num, f: Frame, k: Mark, t: Side, g': Num)
    requires ValidSide(c, s) && ValidFrame(c, f) && s.node.tx.lastAck == Wrap(c.ids, g.acked)
    requires InSession(c, f) && Reply(c, f, k, r.node.nak, g, h) && Bounds(c, s.node.tx, g, h) && Accounts(s, r, g, h)
    requires t.node.tx == HandleAck(c, s.node.tx, f.ack, f.nak) && t.accepted == s.accepted
    requires t.confirmed == s.confirmed + (Outcomes(s.node.tx.window[..Acked(c, s.node.tx, f.ack)], Success) +
                                           ExpiredOutcome(Expired(c, s.node.tx, f.ack, f.nak)))
    requires g' == NumAfter(c, g, f, k)
    ensures Accounts(t, r, g', h)
  {
    SenderAcked(c, s.node.tx, f, k, r.node.nak, g, h);
    var n := k.ack - g.acked;
    MidAccounts(c, s, g, r, h, n, g');
    ResolvedMore(s.confirmed, Outcomes(s.node.tx.window[..n], Success),
                 ExpiredOutcome(Expired(c, s.node.tx, f.ack, f.nak)));
    NakAccounts(c, s, AfterAcks(c, s, n), r, h, f, t, g');
  }

  lemma ResolvedMore(x: seq<Outcome>, y: seq<Outcome>, z: seq<Outcome>)
    ensures x + (y + z) == x + y + z
  {
  }

  /** A side that has handled an ACK of n packets and no NAK yet. */
  function AfterAcks(c: Config, s: Side, n: nat): Side
    requires SenderOk(c, s.node.tx) && n <= |s.node.tx.window|
  {
    s.(node := s.node.(tx := Acknowledge(c, s.node.tx, n)),
       confirmed := s.confirmed + Outcomes(s.node.tx.window[..n], Success))
  }

  lemma MidAccounts(c: Config, s: Side, g: Num, r: Side, h: Num, n: nat, g': Num)
    requires SenderOk(c, s.node.tx) && n <= |s.node.tx.window| && Accounts(s, r, g, h)
    requires g'.acked == g.acked + n <= h.received
    ensures Accounts(AfterAcks(c, s, n), r, g', h)
  {
    assert Packets(Acknowledge(c, s.node.tx, n).window) == Packets(s.node.tx.window)[n..];
    AccountsAcked(s, r, g, h, AfterAcks(c, s, n), g');
  }

  function ExpiredOutcome(e: Option<Packet>): seq<Outcome> {
    if e.Some? then [Outcome(e.value, TimedOut)] else []
  }

  lemma NakAccounts(c: Config, s: Side, mid: Side, r: Side, h: Num, f: Frame, t: Side, g': Num)
    requires SenderOk(c, s.node.tx) && ValidFrame(c, f) && !AckTooFar(c, s.node.tx, f.ack)
    requires mid.node.tx == Acknowledge(c, s.node.tx, Acked(c, s.node.tx, f.ack))
    requires t.node.tx == if f.nak then HandleNak(c, mid.node.tx) else mid.node.tx
    requires Accounts(mid, r, g', h) && (f.nak ==> g'.acked == h.received)
    requires t.accepted == mid.accepted
    requires t.confirmed == mid.confirmed + ExpiredOutcome(Expired(c, s.node.tx, f.ack, f.nak))
    ensures Accounts(t, r, g', h)
  {
    var m := mid.node.tx;
    if f.nak && GivesUp(c, m) {
      assert Packets(m.window) == [m.window[0].packet] + Packets(m.window[1..]);
      AccountsExpired(mid, r, g', h, t, m.window[0].packet);
    } else {
      assert Packets(t.node.tx.window) == Packets(m.window);
      AccountsSame(mid, r, g', h, t);
    }
  }

  lemma AccountsSame(s: Side, r: Side, g: Num, h: Num, t: Side)
    requires Accounts(s, r, g, h) && t.accepted == s.accepted && t.confirmed == s.confirmed
    requires Packets(t.node.tx.window) == Packets(s.node.tx.window)
    ensures Accounts(t, r, g, h)
  {
  }

  /** The taker as a receiver. */
  lemma ReceiverTakes(c: Config, s: Side, hs: Hist, r: Side, hr: Hist, g': Num)
    requires Safe(c, s, hs, r, hr) && r.out != [] && InSession(c, r.out[0])
    requires g' == NumAfter(c, hs.g, r.out[0], hr.m[0])
    ensures Bounds(c, r.node.tx, hr.g, g')
    ensures Flights(c, Without(r.out, 0), Without(hr.m, 0), r.node.tx, hr.g, g')
    ensures Replies(c, s.out, hs.m, Take(c, s.node, r.out[0]).nak, hr.g, g')
    ensures Local(c, Take(c, s.node, r.out[0]), g')
  {
    var f, k, b := r.out[0], hr.m[0], NumTaken(c, hs.g, r.out[0], hr.m[0]);
    assert Flight(c, r.out[0], hr.m[0], r.node.tx, hr.g, hs.g);
    BoundsTaken(c, r.node.tx, f, k, hr.g, hs.g);
    FlightsTaken(c, r.out, hr.m, r.node.tx, hr.g, hs.g);
    FlightsSame(c, Without(r.out, 0), Without(hr.m, 0), r.node.tx, hr.g, b, hr.g, g');
    ReceiverReplies(c, s, hs, r, hr, g');
  }

  lemma ReceiverReplies(c: Config, s: Side, hs: Hist, r: Side, hr: Hist, g': Num)
    requires Safe(c, s, hs, r, hr) && r.out != [] && InSession(c, r.out[0])
    requires g' == NumAfter(c, hs.g, r.out[0], hr.m[0])
    ensures Replies(c, s.out, hs.m, Take(c, s.node, r.out[0]).nak, hr.g, g')
    ensures Local(c, Take(c, s.node, r.out[0]), g')
  {
    var f, k, b := r.out[0], hr.m[0], NumTaken(c, hs.g, r.out[0], hr.m[0]);
    assert Flight(c, r.out[0], hr.m[0], r.node.tx, hr.g, hs.g);
    assert Reply(c, r.out[0], hr.m[0], r.node.nak, hs.g, hr.g);
    NakTaken(c, s.node, f, k, r.node.nak, hs.g, hr.g, r.node.tx);
    AnswerIsCurrent(c, s, hs, r, hr);
    RepliesTaken(c, s.out, hs.m, s.node.nak, r.node.tx, hr.g, hs.g, f, k,
                 Answers(s.node.nak, hs.g, k), PlaceOf(c, s.node.rx, f.tx, f.ping));
    RepliesSame(c, s.out, hs.m, Take(c, s.node, f).nak, hr.g, b, hr.g, g');
    LocalTaken(c, s.node, f, k, r.node.nak, hs.g, hr.g, r.node.tx);
  }

  /** An ACK that covers the packet tracked was sent after the NAK was handled or
      lost. */
  lemma AnswerIsCurrent(c: Config, s: Side, hs: Hist, r: Side, hr: Hist)
    requires Safe(c, s, hs, r, hr) && r.out != [] && InSession(c, r.out[0])
    ensures Answers(s.node.nak, hs.g, hr.m[0]) ==>
              && hr.m[0].epoch == hr.g.epoch
              && forall i :: 0 <= i < |s.out| ==> !CarriesNak(c, s.out[i])
  {
    assert Flight(c, r.out[0], hr.m[0], r.node.tx, hr.g, hs.g);
    assert Reply(c, r.out[0], hr.m[0], r.node.nak, hs.g, hr.g);
  }

  lemma ReceiverTracks(c: Config, s: Side, hs: Hist, r: Side, hr: Hist, g': Num)
    requires Safe(c, s, hs, r, hr) && r.out != [] && InSession(c, r.out[0])
    requires g' == NumAfter(c, hs.g, r.out[0], hr.m[0])
    ensures Tracks(c, Without(r.out, 0), Without(hr.m, 0), s.out, hs.m, Take(c, s.node, r.out[0]).nak, hr.g, g')
  {
    forall i | 0 <= i < |s.out| && InSession(c, s.out[i]) ensures hs.m[i].epoch <= hs.g.epoch {
      assert Flight(c, s.out[i], hs.m[i], s.node.tx, hs.g, hr.g);
    }
    TracksTaken(c, r.out, hr.m, s.out, hs.m, s.node.nak, Take(c, s.node, r.out[0]).nak, hr.g, hs.g, g');
  }

  /** The packets a frame delivers. */
  function DeliveredBy(c: Config, n: Node, f: Frame): seq<Packet>
    requires ReceiverOk(c, n.rx) && ValidFrame(c, f)
  {
    if !f.ping && PlaceOf(c, n.rx, f.tx, false) == Expected && f.body.Some? then [f.body.value] else []
  }

  lemma ReceiverAccounts(c: Config, s: Side, g: Num, r: Side, h: Num, f: Frame, k: Mark, t: Side)
    requires Local(c, s.node, g) && ValidFrame(c, f) && InSession(c, f)
    requires Bounds(c, s.node.tx, g, h) && Reply(c, f, k, r.node.nak, g, h)
    requires SenderOk(c, r.node.tx) && Flight(c, f, k, r.node.tx, h, g) && Accounts(r, s, h, g)
    requires t.delivered == s.delivered + DeliveredBy(c, s.node, f)
    ensures Accounts(r, t, h, NumAfter(c, g, f, k))
  {
    NakTaken(c, s.node, f, k, r.node.nak, g, h, r.node.tx);
    if TakesNext(c, f, k, g) {
      AccountsTaken(r, s, h, g, t);
    } else {
      assert t.delivered == s.delivered;
    }
  }

  lemma DeliverSafe(c: Config, s: Side, hs: Hist, r: Side, hr: Hist) returns (ht: Hist, hq: Hist)
    requires Safe(c, s, hs, r, hr) && r.out != []
    requires !Receive(c, s.node, r.out[0]).report.down
    ensures Safe(c, Delivered(c, s, r.out[0]), ht, Passive(Deliver, r), hq)
  {
    hq := hr.(m := Without(hr.m, 0));
    if Takes(c, s.node, r.out[0]) {
      ht := hs.(g := NumAfter(c, hs.g, r.out[0], hr.m[0]));
      DeliverTaken(c, s, hs, r, hr, ht, hq);
    } else {
      ht := hs;
      DeliverSkipped(c, s, hs, r, hr, hq);
    }
  }

  lemma DeliverSkipped(c: Config, s: Side, hs: Hist, r: Side, hr: Hist, hq: Hist)
    requires Safe(c, s, hs, r, hr) && r.out != [] && !Takes(c, s.node, r.out[0])
    requires !Receive(c, s.node, r.out[0]).report.down && hq == hr.(m := Without(hr.m, 0))
    ensures Safe(c, Delivered(c, s, r.out[0]), hs, Passive(Deliver, r), hq)
  {
    ReceiveSkips(c, s.node, r.out[0]);
    LoseSafe(c, s, hs, r, hr, 0);
    IdleSafe(c, s, hs, Passive(Lose(0), r), hq, Delivered(c, s, r.out[0]));
  }

  lemma DeliverTaken(c: Config, s: Side, hs: Hist, r: Side, hr: Hist, ht: Hist, hq: Hist)
    requires Safe(c, s, hs, r, hr) && r.out != [] && Takes(c, s.node, r.out[0])
    requires !Receive(c, s.node, r.out[0]).report.down
    requires hq == hr.(m := Without(hr.m, 0)) && ht == hs.(g := NumAfter(c, hs.g, r.out[0], hr.m[0]))
    ensures Safe(c, Delivered(c, s, r.out[0]), ht, Passive(Deliver, r), hq)
  {
    ReceiveTakes(c, s.node, r.out[0]);
    DeliveredResolves(c, s, r.out[0]);
    DeliveredReceives(c, s, r.out[0]);
    TakenSafe(c, s, hs, r, hr, Delivered(c, s, r.out[0]), ht.g);
  }

  /** What the taker was told, and what it was given. */
  ghost predicate Took(c: Config, s: Side, f: Frame, t: Side)
    requires ValidSide(c, s) && ValidFrame(c, f)
  {
    && t.node == Take(c, s.node, f).(phase := Connected)
    && t.out == s.out && t.accepted == s.accepted
    && t.confirmed == s.confirmed + (Outcomes(s.node.tx.window[..Acked(c, s.node.tx, f.ack)], Success) +
                                     ExpiredOutcome(Expired(c, s.node.tx, f.ack, f.nak)))
    && t.delivered == s.delivered + DeliveredBy(c, s.node, f)
  }

  lemma TakenSafe(c: Config, s: Side, hs: Hist, r: Side, hr: Hist, t: Side, g': Num)
    requires Safe(c, s, hs, r, hr) && r.out != [] && InSession(c, r.out[0]) && ValidSide(c, t)
    requires Took(c, s, r.out[0], t) && g' == NumAfter(c, hs.g, r.out[0], hr.m[0])
    ensures Safe(c, t, hs.(g := g'), Passive(Deliver, r), hr.(m := Without(hr.m, 0)))
  {
    TakerSends(c, s, hs, r, hr, t, g');
    TakerReceives(c, s, hs, r, hr, t, g');
  }

  /** The direction out of the taker. */
  lemma TakerSends(c: Config, s: Side, hs: Hist, r: Side, hr: Hist, t: Side, g': Num)
    requires Safe(c, s, hs, r, hr) && r.out != [] && InSession(c, r.out[0]) && ValidSide(c, t)
    requires Took(c, s, r.out[0], t) && g' == NumAfter(c, hs.g, r.out[0], hr.m[0])
    ensures Direction(c, t, g', hs.m, Passive(Deliver, r), hr.g, Without(hr.m, 0))
  {
    SenderTakes(c, s, hs, r, hr, t.node.tx, g');
    SenderTracks(c, s, hs, r, hr, g');
    assert Reply(c, r.out[0], hr.m[0], r.node.nak, hs.g, hr.g);
    SenderAccounts(c, s, hs.g, r, hr.g, r.out[0], hr.m[0], t, g');
  }

  /** The direction into the taker. */
  lemma TakerReceives(c: Config, s: Side, hs: Hist, r: Side, hr: Hist, t: Side, g': Num)
    requires Safe(c, s, hs, r, hr) && r.out != [] && InSession(c, r.out[0]) && ValidSide(c, t)
    requires Took(c, s, r.out[0], t) && g' == NumAfter(c, hs.g, r.out[0], hr.m[0])
    ensures Local(c, t.node, g')
    ensures Direction(c, Passive(Deliver, r), hr.g, Without(hr.m, 0), t, g', hs.m)
  {
    ReceiverTakes(c, s, hs, r, hr, g');
    ReceiverTracks(c, s, hs, r, hr, g');
    assert Reply(c, r.out[0], hr.m[0], r.node.nak, hs.g, hr.g);
    assert Flight(c, r.out[0], hr.m[0], r.node.tx, hr.g, hs.g);
    ReceiverAccounts(c, s, hs.g, r, hr.g, r.out[0], hr.m[0], t);
  }

  /** What a side may change without a number moving: its phase and its slot. */
  lemma IdleSafe(c: Config, s: Side, hs: Hist, r: Side, hr: Hist, t: Side)
    requires Safe(c, s, hs, r, hr)
    requires t.node.tx == s.node.tx && t.node.rx == s.node.rx && t.node.nak == s.node.nak
    requires t.out == s.out && t.accepted == s.accepted
    requires t.confirmed == s.confirmed && t.delivered == s.delivered
    ensures Safe(c, t, hs, r, hr)
  {
  }

  lemma LoseSafe(c: Config, s: Side, hs: Hist, r: Side, hr: Hist, i: nat)
    requires Safe(c, s, hs, r, hr) && i < |r.out|
    ensures Safe(c, s, hs, Passive(Lose(i), r), hr.(m := Without(hr.m, i)))
  {
    FlightsLose(c, r.out, hr.m, r.node.tx, hr.g, hs.g, i);
    RepliesLose(c, r.out, hr.m, r.node.nak, hs.g, hr.g, i);
    TracksLose(c, r.out, hr.m, s.out, hs.m, s.node.nak, hr.g, hs.g, i);
    TracksLoseReply(c, s.out, hs.m, r.out, hr.m, r.node.nak, hs.g, hr.g, i);
  }

  // ----- the other steps

  lemma EnqueueSafe(c: Config, s: Side, hs: Hist, r: Side, hr: Hist, chan: nat, buf: Buffer, ttl: nat)
    requires Safe(c, s, hs, r, hr)
    ensures Safe(c, Enqueued(c, s, chan, buf, ttl), hs, r, hr)
  {
    var t := Enqueued(c, s, chan, buf, ttl);
    if EnqueueCode(c, s.node, chan, buf) == Ok {
      WindowGrows(c, s.out, hs.m, s.node.tx, hs.g, hr.g, t.node.tx);
      AccountsEnqueued(s, r, hs.g, hr.g, t);
      FlightsSame(c, r.out, hr.m, r.node.tx, hr.g, hs.g, hr.g, hs.g);
    } else {
      IdleSafe(c, s, hs, r, hr, t);
    }
  }

  lemma WindowGrows(c: Config, out: seq<Frame>, marks: seq<Mark>, t: Sender, g: Num, h: Num, t': Sender)
    requires SenderOk(c, t) && SenderOk(c, t') && Flights(c, out, marks, t, g, h) && Bounds(c, t, g, h)
    requires t.window <= t'.window && t'.lastSent == t.lastSent && t'.lastAck == t.lastAck
    ensures Flights(c, out, marks, t', g, h) && Bounds(c, t', g, h)
  {
    forall i | 0 <= i < |out| ensures Flight(c, out[i], marks[i], t', g, h) {
      assert Flight(c, out[i], marks[i], t, g, h);
    }
  }

  lemma AccountsEnqueued(s: Side, r: Side, g: Num, h: Num, t: Side)
    requires Accounts(s, r, g, h) && t.confirmed == s.confirmed
    requires |t.node.tx.window| == |s.node.tx.window| + 1
    requires t.node.tx.window[..|s.node.tx.window|] == s.node.tx.window
    requires t.accepted == s.accepted + [t.node.tx.window[|s.node.tx.window|].packet]
    ensures Accounts(t, r, g, h)
  {
    var n := |s.node.tx.window|;
    assert Packets(t.node.tx.window) == Packets(s.node.tx.window) + [t.node.tx.window[n].packet];
  }

  /** Nothing is under way that answers a NAK of this side: none of its own, no frame
      of its peer's, which has sent all it holds. */
  predicate AllSettled(c: Config, me: Side, peer: Side)
    requires ValidSide(c, me) && ValidSide(c, peer)
  {
    && (forall i :: 0 <= i < |me.out| ==> !CarriesNak(c, me.out[i]))
    && (forall i :: 0 <= i < |peer.out| ==> !InSession(c, peer.out[i]))
    && peer.node.tx.lastSent == peer.node.tx.lastQueued
  }

  /** What this side saw is something it misses, and no further than what its peer
      holds. */
  predicate SeenIsHeld(c: Config, me: Side, peer: Side)
    requires ValidSide(c, me) && ValidSide(c, peer)
  {
    var got := me.node.rx.lastReceived;
    1 <= Dist(c.ids, me.node.rx.lastSeen, got) <= Dist(c.ids, peer.node.tx.lastQueued, got)
  }

  predicate Quiet(c: Config, me: Side, peer: Side)
    requires ValidSide(c, me) && ValidSide(c, peer)
  {
    AllSettled(c, me, peer) && SeenIsHeld(c, me, peer)
  }

  /** In quiet, a side may as well have seen the epoch its peer is in. */
  lemma Resynchronised(c: Config, s: Side, hs: Hist, r: Side, hr: Hist) returns (ht: Hist)
    requires Safe(c, s, hs, r, hr) && Quiet(c, s, r)
    ensures ht == hs.(g := hs.g.(peerEpoch := hr.g.epoch)) && Safe(c, s, ht, r, hr)
    ensures RepeatsCurrent(c, s.node, s.out, hr.g, ht.g)
  {
    ht := hs.(g := hs.g.(peerEpoch := hr.g.epoch));
    QuietNumbers(c, s, hs.g, r, hr.g);
    assert Flights(c, r.out, hr.m, r.node.tx, hr.g, ht.g);
    forall i | 0 <= i < |s.out| ensures Reply(c, s.out[i], hs.m[i], s.node.nak, hr.g, ht.g) {
      assert Reply(c, s.out[i], hs.m[i], s.node.nak, hr.g, hs.g);
    }
    FlightsSame(c, s.out, hs.m, s.node.tx, hs.g, hr.g, ht.g, hr.g);
    RepliesSame(c, r.out, hr.m, r.node.nak, hs.g, hr.g, ht.g, hr.g);
  }

  lemma QuietNumbers(c: Config, s: Side, h: Num, r: Side, g: Num)
    requires ValidSide(c, s) && ValidSide(c, r) && Local(c, s.node, h) && Local(c, r.node, g)
    requires Bounds(c, r.node.tx, g, h) && Quiet(c, s, r)
    ensures h.received < h.seen <= Sent(c, r.node.tx, g.acked)
  {
    SentWrap(c, r.node.tx, g.acked);
    WrapDist(c.ids, h.seen, h.received);
    WrapDist(c.ids, Sent(c, r.node.tx, g.acked), h.received);
  }

  lemma TransmitSafe(c: Config, s: Side, hs: Hist, r: Side, hr: Hist) returns (ht: Hist)
    requires Safe(c, s, hs, r, hr) && !NextFrame(c, s.node).report.down
    requires RepeatsNak(s.node) ==> Quiet(c, s, r)
    ensures Safe(c, Transmitted(c, s), ht, r, hr)
  {
    ht := hs;
    if RepeatsNak(s.node) {
      ht := Resynchronised(c, s, hs, r, hr);
    }
    ht := TurnSafe(c, s, ht, r, hr);
  }

  lemma TurnSafe(c: Config, s: Side, hs: Hist, r: Side, hr: Hist) returns (ht: Hist)
    requires Safe(c, s, hs, r, hr) && !NextFrame(c, s.node).report.down
    requires RepeatsCurrent(c, s.node, s.out, hr.g, hs.g)
    ensures Safe(c, Transmitted(c, s), ht, r, hr)
  {
    var t := Transmitted(c, s);
    if NextFrame(c, s.node).frame.None? {
      ht := hs;
      assert t.out == s.out;
      IdleSafe(c, s, hs, r, hr, t);
      return;
    }
    TransmittedIs(c, s);
    ht := Hist(NumSent(c, s.node, hs.g), hs.m + [MarkOf(c, s.node, hs.g)]);
    if s.node.phase == Connected {
      ConnectedSafe(c, s, hs, r, hr, t, ht);
    } else {
      HandshakeSafe(c, s, hs, r, hr, t, ht);
    }
  }

  /** What a turn that sends a frame changes. */
  lemma TransmittedIs(c: Config, s: Side)
    requires ValidSide(c, s) && !NextFrame(c, s.node).report.down && NextFrame(c, s.node).frame.Some?
    ensures var t, n := Transmitted(c, s), ConnectedNode(c, s.node);
            && ValidSide(c, t) && t.node.rx == s.node.rx
            && t.accepted == s.accepted && t.confirmed == s.confirmed && t.delivered == s.delivered
            && if s.node.phase == Connected then
                 t.node.tx == n.tx && t.node.nak == n.nak && t.out == s.out + [ConnectedFrame(c, s.node)]
               else
                 t.node.tx == s.node.tx && t.node.nak == s.node.nak
                     && t.out == s.out + [HandshakeFrame(c, s.node.phase)]
  {
  }

  lemma HandshakeSafe(c: Config, s: Side, hs: Hist, r: Side, hr: Hist, t: Side, ht: Hist)
    requires Safe(c, s, hs, r, hr) && s.node.phase != Connected && ValidSide(c, t)
    requires t.node.tx == s.node.tx && t.node.rx == s.node.rx && t.node.nak == s.node.nak
    requires t.accepted == s.accepted && t.confirmed == s.confirmed && t.delivered == s.delivered
    requires t.out == s.out + [HandshakeFrame(c, s.node.phase)] && ht == hs.(m := hs.m + [Mark(0, 0, 0)])
    ensures Safe(c, t, ht, r, hr)
  {
    var f := HandshakeFrame(c, s.node.phase);
    assert !InSession(c, f);
    FlightsSend(c, s.out, hs.m, s.node.tx, hs.g, hr.g, f, Mark(0, 0, 0), t.node.tx);
    RepliesHandshake(c, s.out, hs.m, s.node.nak, hr.g, hs.g, f);
    TracksHandshake(c, r.out, hr.m, s.out, hs.m, s.node.nak, hr.g, hs.g, f);
    TracksHandshakeBack(c, s.out, hs.m, r.out, hr.m, r.node.nak, hs.g, hr.g, f);
  }

  /** A frame outside the session adds nothing to what frames in flight promise. */
  lemma RepliesHandshake(c: Config, out: seq<Frame>, marks: seq<Mark>, nak: Nak, g: Num, h: Num, f: Frame)
    requires ValidConfig(c) && Replies(c, out, marks, nak, g, h) && !InSession(c, f)
    ensures Replies(c, out + [f], marks + [Mark(0, 0, 0)], nak, g, h)
  {
  }

  lemma TracksHandshake(c: Config, out: seq<Frame>, marks: seq<Mark>, rout: seq<Frame>, rmarks: seq<Mark>,
                        nak: Nak, g: Num, h: Num, f: Frame)
    requires ValidConfig(c) && |marks| == |out| && |rmarks| == |rout| && !InSession(c, f)
    requires Tracks(c, out, marks, rout, rmarks, nak, g, h)
    ensures Tracks(c, out, marks, rout + [f], rmarks + [Mark(0, 0, 0)], nak, g, h)
  {
  }

  lemma TracksHandshakeBack(c: Config, out: seq<Frame>, marks: seq<Mark>, rout: seq<Frame>, rmarks: seq<Mark>,
                            nak: Nak, g: Num, h: Num, f: Frame)
    requires ValidConfig(c) && |marks| == |out| && |rmarks| == |rout| && !InSession(c, f)
    requires Tracks(c, out, marks, rout, rmarks, nak, g, h)
    ensures Tracks(c, out + [f], marks + [Mark(0, 0, 0)], rout, rmarks, nak, g, h)
  {
  }

  lemma ConnectedSafe(c: Config, s: Side, hs: Hist, r: Side, hr: Hist, t: Side, ht: Hist)
    requires Safe(c, s, hs, r, hr) && s.node.phase == Connected && ValidSide(c, t)
    requires RepeatsCurrent(c, s.node, s.out, hr.g, hs.g)
    requires t.node.tx == ConnectedNode(c, s.node).tx && t.node.rx == s.node.rx
    requires t.node.nak == ConnectedNode(c, s.node).nak
    requires t.accepted == s.accepted && t.confirmed == s.confirmed && t.delivered == s.delivered
    requires t.out == s.out + [ConnectedFrame(c, s.node)]
    requires ht == Hist(NumSent(c, s.node, hs.g), hs.m + [MarkOf(c, s.node, hs.g)])
    ensures Safe(c, t, ht, r, hr)
  {
    ConnectedSends(c, s, hs, r, hr, t, ht);
    ConnectedReplies(c, s, hs, r, hr, ht.g);
  }

  lemma ConnectedSends(c: Config, s: Side, hs: Hist, r: Side, hr: Hist, t: Side, ht: Hist)
    requires Safe(c, s, hs, r, hr) && s.node.phase == Connected && ValidSide(c, t)
    requires t.node.tx == ConnectedNode(c, s.node).tx && t.out == s.out + [ConnectedFrame(c, s.node)]
    requires t.accepted == s.accepted && t.confirmed == s.confirmed
    requires ht == Hist(NumSent(c, s.node, hs.g), hs.m + [MarkOf(c, s.node, hs.g)])
    ensures Direction(c, t, ht.g, ht.m, r, hr.g, hr.m)
  {
    var f, k := ConnectedFrame(c, s.node), MarkOf(c, s.node, hs.g);
    SenderTurn(c, s.node, hs.g, hr.g);
    FlightTurn(c, s.node, hs.g, hr.g);
    FlightsSend(c, s.out, hs.m, s.node.tx, hs.g, hr.g, f, k, t.node.tx);
    FlightsSame(c, t.out, ht.m, t.node.tx, hs.g, hr.g, ht.g, hr.g);
    RepliesSame(c, r.out, hr.m, r.node.nak, hs.g, hr.g, ht.g, hr.g);
    TracksSent(c, s.out, hs.m, r.out, hr.m, r.node.nak, hs.g, hr.g, f, k, ht.g);
  }

  /** A frame of the current epoch tells nothing of an earlier one. */
  lemma TracksSent(c: Config, out: seq<Frame>, marks: seq<Mark>, rout: seq<Frame>, rmarks: seq<Mark>,
                   nak: Nak, g: Num, h: Num, f: Frame, m: Mark, g': Num)
    requires ValidConfig(c) && |marks| == |out| && |rmarks| == |rout| && m.epoch == g.epoch
    requires Tracks(c, out, marks, rout, rmarks, nak, g, h) && g' == g.(track := g'.track)
    ensures Tracks(c, out + [f], marks + [m], rout, rmarks, nak, g', h)
  {
  }

  lemma ConnectedReplies(c: Config, s: Side, hs: Hist, r: Side, hr: Hist, g': Num)
    requires Safe(c, s, hs, r, hr) && s.node.phase == Connected && RepeatsCurrent(c, s.node, s.out, hr.g, hs.g)
    requires g' == NumSent(c, s.node, hs.g)
    ensures var f, k, nak := ConnectedFrame(c, s.node), MarkOf(c, s.node, hs.g), ConnectedNode(c, s.node).nak;
            && Replies(c, s.out + [f], hs.m + [k], nak, hr.g, g')
            && Tracks(c, r.out, hr.m, s.out + [f], hs.m + [k], nak, hr.g, g')
            && Flights(c, r.out, hr.m, r.node.tx, hr.g, g')
            && Local(c, ConnectedNode(c, s.node), g')
  {
    var f, k, nak := ConnectedFrame(c, s.node), MarkOf(c, s.node, hs.g), ConnectedNode(c, s.node).nak;
    RepliesTurn(c, s.node, s.out, hs.m, hr.g, hs.g);
    RepliesSame(c, s.out + [f], hs.m + [k], nak, hr.g, hs.g, hr.g, g');
    TracksTurn(c, s.node, r.node.nak, r.out, hr.m, s.out, hs.m, hr.g, hs.g);
    FlightsSame(c, r.out, hr.m, r.node.tx, hr.g, hs.g, hr.g, g');
    LocalTurn(c, s.node, hs.g);
  }

  lemma ActSafe(c: Config, act: Act, s: Side, hs: Hist, r: Side, hr: Hist) returns (ht: Hist, hq: Hist)
    requires Safe(c, s, hs, r, hr) && Enabled(act, r) && !Ends(c, act, s, r)
    requires act.Transmit? && RepeatsNak(s.node) ==> Quiet(c, s, r)
    ensures Safe(c, Acting(c, act, s, r), ht, Passive(act, r), hq)
  {
    ht, hq := hs, hr;
    match act
    case Enqueue(chan, buf, ttl) => EnqueueSafe(c, s, hs, r, hr, chan, buf, ttl);
    case SendUrgent(_, _) => IdleSafe(c, s, hs, r, hr, Acting(c, act, s, r));
    case SendDisconnect => IdleSafe(c, s, hs, r, hr, Acting(c, act, s, r));
    case Transmit => ht := TransmitSafe(c, s, hs, r, hr);
    case Deliver => ht, hq := DeliverSafe(c, s, hs, r, hr);
    case Lose(i) =>
      LoseSafe(c, s, hs, r, hr, i);
      hq := hr.(m := Without(hr.m, i));
  }

  // ----- every run

  /** A keep-alive PING repeats a NAK only in quiet. */
  predicate QuietRepeats(c: Config, tr: seq<Sys>, mv: seq<Move>)
    requires |tr| == |mv| + 1
  {
    forall i :: 0 <= i < |mv| && mv[i].act.Transmit?
        ==> RepeatsQuietly(c, Near(tr[i], mv[i].byX), Far(tr[i], mv[i].byX))
  }

  predicate RepeatsQuietly(c: Config, me: Side, peer: Side) {
    RepeatsNak(me.node) ==> ValidSide(c, me) && ValidSide(c, peer) && Quiet(c, me, peer)
  }

  lemma FreshSafe(c: Config, s: Side, r: Side) returns (hs: Hist, hr: Hist)
    requires FreshSide(c, s) && FreshSide(c, r)
    ensures Safe(c, s, hs, r, hr)
  {
    hs := Hist(Num(0, 0, 0, 0, 0, 0), seq(|s.out|, _ => Mark(0, 0, 0)));
    hr := Hist(Num(0, 0, 0, 0, 0, 0), seq(|r.out|, _ => Mark(0, 0, 0)));
    assert s.accepted == PacketsOf([]) + Packets(s.node.tx.window);
    assert r.accepted == PacketsOf([]) + Packets(r.node.tx.window);
  }

  lemma {:induction false} RunSafe(c: Config, tr: seq<Sys>, mv: seq<Move>, k: nat) returns (hx: Hist, hy: Hist)
    requires IsRun(c, tr, mv) && QuietRepeats(c, tr, mv) && k <= |mv|
    ensures Safe(c, tr[k].x, hx, tr[k].y, hy)
  {
    if k == 0 {
      hx, hy := FreshSafe(c, tr[0].x, tr[0].y);
    } else {
      hx, hy := RunSafe(c, tr, mv, k - 1);
      var s, m := tr[k - 1], mv[k - 1];
      assert Next(c, s, m, tr[k]);
      if m.byX {
        hx, hy := ActSafe(c, m.act, s.x, hx, s.y, hy);
      } else {
        hy, hx := ActSafe(c, m.act, s.y, hy, s.x, hx);
      }
    }
  }

  /** Giving up is safe. What one side delivered is exactly what the other has
      been told was delivered, in order, and then the first packets of its window;
      what it accepted is what it has been told about, in order, and its window. */
  lemma GiveUpIsSafe(c: Config, tr: seq<Sys>, mv: seq<Move>, k: nat, fromX: bool)
    requires IsRun(c, tr, mv) && QuietRepeats(c, tr, mv) && k <= |mv|
    ensures var s, r := Near(tr[k], fromX), Far(tr[k], fromX);
            && s.accepted == PacketsOf(s.confirmed) + Packets(s.node.tx.window)
            && |Succeeded(s.confirmed)| <= |r.delivered|
            && r.delivered <= Succeeded(s.confirmed) + Packets(s.node.tx.window)
  {
    var hx, hy := RunSafe(c, tr, mv, k);
  }
}
