/**
 Two nodes and the lossy, order-keeping channels between them.

 Each side keeps, beside its node, the frames it has in flight and what its
 callbacks have been told: the numbered packets it accepted from its caller, how
 each was confirmed, and the numbered packets it delivered. Of unnumbered packets
 it keeps those its frames carried and those it handed up.
 */
module Link {
  import opened SeqNum
  import opened Common
  import opened Protocol

  datatype Side = Side(
    node: Node, out: seq<Frame>,
    accepted: seq<Packet>, confirmed: seq<Outcome>, delivered: seq<Packet>,
    posted: seq<Packet>, handed: seq<Packet>)

  datatype Sys = Sys(x: Side, y: Side)

  // ----- steps

  datatype Act =
    | Enqueue(chan: nat, buf: Buffer, ttl: nat)
    | SendUrgent(chan: nat, buf: Buffer)
    | SendDisconnect
    | Transmit
    | Deliver
    | Lose(at: nat)

  predicate ValidSide(c: Config, s: Side) {
    WellFormed(c, s.node) && forall i :: 0 <= i < |s.out| ==> ValidFrame(c, s.out[i])
  }

  /** A side takes the frame at the head of its peer's channel, or loses any. */
  predicate Enabled(act: Act, peer: Side) {
    match act
    case Deliver => peer.out != []
    case Lose(i) => i < |peer.out|
    case _ => true
  }

  function Enqueued(c: Config, me: Side, chan: nat, buf: Buffer, ttl: nat): Side
    requires ValidSide(c, me)
  {
    me.(node := Protocol.Enqueue(c, me.node, chan, buf, ttl),
        accepted := me.accepted + if EnqueueCode(c, me.node, chan, buf) == Ok
                                  then [Packet(chan, Content(buf))] else [])
  }

  function Transmitted(c: Config, me: Side): Side
    requires ValidSide(c, me)
  {
    var t := NextFrame(c, me.node);
    me.(node := t.node,
        out := me.out + (if t.frame.Some? then [t.frame.value] else []),
        confirmed := me.confirmed + Resolved(t.report),
        posted := me.posted + if t.frame.Some? then UnnumberedOf(t.frame.value) else [])
  }

  /** The unnumbered packet in a frame. */
  function UnnumberedOf(f: Frame): seq<Packet> {
    if f.ping && f.body.Some? then [f.body.value] else []
  }

  /** A packet is delivered in sequence if the frame is numbered, and handed up
      outside it otherwise. */
  function Delivered(c: Config, me: Side, f: Frame): Side
    requires ValidSide(c, me) && ValidFrame(c, f)
  {
    var s := Receive(c, me.node, f);
    var got := if s.report.received.Some? then [s.report.received.value] else [];
    me.(node := s.node,
        confirmed := me.confirmed + Resolved(s.report),
        delivered := me.delivered + (if f.ping then [] else got),
        handed := me.handed + if f.ping then got else [])
  }

  /** The acting side afterwards. */
  function Acting(c: Config, act: Act, me: Side, peer: Side): Side
    requires ValidSide(c, me) && ValidSide(c, peer) && Enabled(act, peer)
  {
    match act
    case Enqueue(chan, buf, ttl) => Enqueued(c, me, chan, buf, ttl)
    case SendUrgent(chan, buf) => me.(node := Protocol.SendUrgent(c, me.node, chan, buf))
    case SendDisconnect => me.(node := Protocol.SendDisconnect(c, me.node).node)
    case Transmit => Transmitted(c, me)
    case Deliver => Delivered(c, me, peer.out[0])
    case Lose(_) => me
  }

  /** Whether the session ends with the step. */
  predicate Ends(c: Config, act: Act, me: Side, peer: Side)
    requires ValidSide(c, me) && ValidSide(c, peer) && Enabled(act, peer)
  {
    match act
    case Transmit => NextFrame(c, me.node).report.down
    case Deliver => Receive(c, me.node, peer.out[0]).report.down
    case _ => false
  }

  /** Its peer afterwards, a frame short if one was taken or lost. */
  function Passive(act: Act, peer: Side): Side
    requires Enabled(act, peer)
  {
    match act
    case Deliver => peer.(out := Without(peer.out, 0))
    case Lose(i) => peer.(out := Without(peer.out, i))
    case _ => peer
  }

  datatype Move = Move(byX: bool, act: Act)

  /** The two ends of the direction out of x, or of the one out of y. */
  function Near(s: Sys, fromX: bool): Side { if fromX then s.x else s.y }
  function Far(s: Sys, fromX: bool): Side { if fromX then s.y else s.x }

  predicate ValidSys(c: Config, s: Sys) {
    ValidSide(c, s.x) && ValidSide(c, s.y)
  }

  /** A step after which the session goes on: no disconnect was seen or reached. */
  predicate Next(c: Config, s: Sys, m: Move, t: Sys) {
    && ValidSys(c, s)
    && Enabled(m.act, Far(s, m.byX))
    && !Ends(c, m.act, Near(s, m.byX), Far(s, m.byX))
    && Near(t, m.byX) == Acting(c, m.act, Near(s, m.byX), Far(s, m.byX))
    && Far(t, m.byX) == Passive(m.act, Far(s, m.byX))
  }

  /** A node as every state other than CONNECTED has it: see NodeRuns. */
  predicate Fresh(n: Node) {
    && n.phase != Connected
    && n.tx.lastSent == n.tx.lastAck == n.rx.lastReceived == n.rx.lastSeen == 0
    && !n.nak.pending && !n.nak.out && !n.nak.tracked
    && !n.slot.waiting && !n.slot.flying
  }

  /** Packets may wait already; only handshake frames may be in flight. */
  predicate FreshSide(c: Config, s: Side) {
    && ValidSide(c, s)
    && Fresh(s.node)
    && |s.accepted| == |s.node.tx.window|
    && (forall i :: 0 <= i < |s.accepted| ==> s.accepted[i] == s.node.tx.window[i].packet)
    && (forall i :: 0 <= i < |s.out| ==> Handshaking(c, s.out[i]))
    && s.confirmed == []
    && s.delivered == s.posted == s.handed == []
  }

  /** A session: from two fresh nodes, through the handshake, while it lasts. */
  predicate IsRun(c: Config, tr: seq<Sys>, mv: seq<Move>) {
    && |tr| == |mv| + 1
    && FreshSide(c, tr[0].x) && FreshSide(c, tr[0].y)
    && forall i :: 0 <= i < |mv| ==> Next(c, tr[i], mv[i], tr[i + 1])
  }

  // ----- facts about a step

  lemma StepValid(c: Config, act: Act, me: Side, peer: Side)
    requires ValidSide(c, me) && ValidSide(c, peer) && Enabled(act, peer)
    ensures ValidSide(c, Acting(c, act, me, peer)) && ValidSide(c, Passive(act, peer))
  {
  }

  /** A frame of the session proper, rather than a handshake step or one dropped. */
  predicate InSession(c: Config, f: Frame)
    requires ValidConfig(c)
  {
    !Malformed(c, f) && !Handshaking(c, f)
  }

  /** Whether a node takes a frame into its sequence. */
  predicate Takes(c: Config, n: Node, f: Frame)
    requires ValidConfig(c)
  {
    InSession(c, f) && (n.phase == Connected || n.phase == Wait2)
  }

  /** A frame not taken changes nothing but the phase. */
  lemma ReceiveSkips(c: Config, n: Node, f: Frame)
    requires WellFormed(c, n) && ValidFrame(c, f) && !Takes(c, n, f)
    requires !Receive(c, n, f).report.down
    ensures var m := Receive(c, n, f).node;
            m.tx == n.tx && m.rx == n.rx && m.nak == n.nak && m.slot == n.slot
    ensures Resolved(Receive(c, n, f).report) == [] && Receive(c, n, f).report.received == None
  {
  }

  lemma ReceiveTakes(c: Config, n: Node, f: Frame)
    requires WellFormed(c, n) && ValidFrame(c, f) && Takes(c, n, f)
    requires !Receive(c, n, f).report.down
    ensures var s := Receive(c, n, f);
            && s.node == Take(c, n, f).(phase := Connected)
            && Resolved(s.report) == Resolved(TakeReport(c, n, f))
            && s.report.expired == Expired(c, n.tx, f.ack, f.nak)
            && s.report.received == TakeReport(c, n, f).received
  {
  }

  /** What a frame taken into the sequence delivers. */
  lemma DeliveredReceives(c: Config, s: Side, f: Frame)
    requires ValidSide(c, s) && ValidFrame(c, f) && Takes(c, s.node, f)
    requires !Receive(c, s.node, f).report.down
    ensures Delivered(c, s, f).delivered ==
            s.delivered + if !f.ping && PlaceOf(c, s.node.rx, f.tx, false) == Expected && f.body.Some?
                          then [f.body.value] else []
  {
    ReceiveTakes(c, s.node, f);
  }

  // ----- runs

  /** What a move makes of the system. */
  function Moved(c: Config, s: Sys, m: Move): Sys
    requires ValidSys(c, s) && Enabled(m.act, Far(s, m.byX))
  {
    var me, peer := Acting(c, m.act, Near(s, m.byX), Far(s, m.byX)), Passive(m.act, Far(s, m.byX));
    if m.byX then Sys(me, peer) else Sys(peer, me)
  }

  lemma RunValid(c: Config, tr: seq<Sys>, mv: seq<Move>, k: nat)
    requires IsRun(c, tr, mv) && k <= |mv|
    ensures ValidSys(c, tr[k])
  {
    if k != 0 {
      var s, m := tr[k - 1], mv[k - 1];
      assert Next(c, s, m, tr[k]);
      StepValid(c, m.act, Near(s, m.byX), Far(s, m.byX));
    }
  }

  /** Every move that is possible and does not end the session continues every run. */
  lemma RunContinues(c: Config, tr: seq<Sys>, mv: seq<Move>, m: Move)
    requires IsRun(c, tr, mv)
    ensures ValidSys(c, tr[|mv|])
    ensures var s := tr[|mv|];
            Enabled(m.act, Far(s, m.byX)) && !Ends(c, m.act, Near(s, m.byX), Far(s, m.byX)) ==>
              IsRun(c, tr + [Moved(c, s, m)], mv + [m])
  {
    RunValid(c, tr, mv, |mv|);
    var s := tr[|mv|];
    if Enabled(m.act, Far(s, m.byX)) && !Ends(c, m.act, Near(s, m.byX), Far(s, m.byX)) {
      var tr', mv' := tr + [Moved(c, s, m)], mv + [m];
      assert tr'[0] == tr[0];
      forall i | 0 <= i < |mv'| ensures Next(c, tr'[i], mv'[i], tr'[i + 1]) {
        if i < |mv| {
          assert Next(c, tr[i], mv[i], tr[i + 1]);
        }
      }
    }
  }
}
