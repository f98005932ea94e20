/**
 What one node of a LuDLC link does, call by call, as functions on values.

 The transmit window is the sequence of packets not yet acknowledged; the class
 in Connection.dfy keeps the same packets in a circular array and is proved to
 compute these functions. The build modelled reports confirmations inline.
 */
module Protocol {
  import opened Common
  import opened SeqNum

  /** ids is the number of sequence numbers, window the slots of the queue; the
      channel field selects a channel by its value modulo chanSpan. */
  datatype Config = Config(
    ids: nat, window: nat, payloadLim: nat, chanSpan: nat, control: nat, caps: seq<Octet>)

  /** A window of a power of two, up to half an ID space that is a power of two,
      meets this. The handshake needs its step numbers to be IDs. */
  predicate ValidConfig(c: Config) {
    && 4 <= c.ids
    && 0 < c.window
    && 2 * c.window <= c.ids
    && Wrap(c.window, c.ids) == 0
    && c.control < c.chanSpan
  }

  const MAX_TTL := 127
  const CTRL_DISCONNECT: Octet := 1

  datatype Packet = Packet(chan: nat, payload: seq<Octet>)
  datatype Item = Item(packet: Packet, ttl: nat)

  /** A frame as the core hands it over or takes it, flags split from the IDs.
      Without a body it ends after the two IDs. */
  datatype Frame = Frame(ping: bool, tx: nat, nak: bool, ack: nat, body: Option<Packet>)

  predicate ValidFrame(c: Config, f: Frame) {
    f.tx < c.ids && f.ack < c.ids
  }

  datatype Phase = Disconnected | Wait1 | Wait2 | Connected

  function StepOf(p: Phase): nat {
    match p
    case Disconnected => 0
    case Wait1 => 1
    case Wait2 => 2
    case Connected => 3
  }

  function Advance(p: Phase): Phase {
    match p
    case Disconnected => Wait1
    case Wait1 => Wait2
    case _ => Connected
  }

  const LAST_STEP := 2

  datatype Result = Success | TimedOut | Broken | Canceled
  datatype Outcome = Outcome(packet: Packet, result: Result)

  /** The callbacks of one call, in the order they are made: the confirmation of
      the unnumbered packet, those of numbered packets decided under the lock,
      the peer's capabilities, the link coming up, the packet a NAK gave up, the
      link going down, and a packet received. */
  datatype Report = Report(
    urgent: Option<Outcome>, confirmed: seq<Outcome>, caps: Option<seq<Octet>>, up: bool,
    expired: Option<Packet>, down: bool, received: Option<Packet>)

  const QUIET := Report(None, [], None, false, None, false, None)

  /** How numbered packets were resolved, in the order reported. */
  function Resolved(r: Report): seq<Outcome> {
    r.confirmed + if r.expired.Some? then [Outcome(r.expired.value, TimedOut)] else []
  }

  /** The sending half of a connection. */
  datatype Sender = Sender(
    lastQueued: nat, lastSent: nat, lastAck: nat, ttlCharged: bool, ttlHold: bool, window: seq<Item>)

  datatype Receiver = Receiver(lastReceived: nat, lastSeen: nat)

  /** The NAK this end owes its peer: pending until a frame carries it, out until
      the peer is seen answering, tracked once a numbered packet follows it. */
  datatype Nak = Nak(pending: bool, out: bool, tracked: bool, track: nat)

  /** The unnumbered packet: waiting for a frame, or flying in the last one. */
  datatype Slot = Slot(waiting: bool, flying: bool, disconnect: bool, packet: Packet)

  datatype Node = Node(phase: Phase, tx: Sender, rx: Receiver, nak: Nak, slot: Slot)

  datatype Step = Step(node: Node, report: Report)

  predicate IsControl(c: Config, chan: nat)
    requires ValidConfig(c)
  {
    Wrap(c.chanSpan, chan) == c.control
  }

  /** The window is the packets after lastAck up to lastQueued, of which those up
      to lastSent have gone out. */
  predicate SenderOk(c: Config, t: Sender) {
    && ValidConfig(c)
    && t.lastQueued < c.ids && t.lastSent < c.ids && t.lastAck < c.ids
    && |t.window| <= c.window
    && Dist(c.ids, t.lastQueued, t.lastAck) == |t.window|
    && Dist(c.ids, t.lastSent, t.lastAck) <= |t.window|
  }

  predicate ReceiverOk(c: Config, r: Receiver) {
    ValidConfig(c) && r.lastReceived < c.ids && r.lastSeen < c.ids
  }

  predicate WellFormed(c: Config, n: Node) {
    SenderOk(c, n.tx) && ReceiverOk(c, n.rx) && n.nak.track < c.ids
  }

  const NO_NAK := Nak(false, false, false, 0)

  function InitialNode(c: Config): (n: Node)
    requires ValidConfig(c)
    ensures WellFormed(c, n)
  {
    Node(Disconnected, Sender(0, 0, 0, false, false, []), Receiver(0, 0), NO_NAK,
         Slot(false, false, false, Packet(c.control, [])))
  }

  // ----- ending a session

  function Outcomes(w: seq<Item>, r: Result): (o: seq<Outcome>)
    ensures |o| == |w|
    ensures forall i :: 0 <= i < |w| ==> o[i] == Outcome(w[i].packet, r)
  {
    seq(|w|, i requires 0 <= i < |w| => Outcome(w[i].packet, r))
  }

  /** The packets outcomes are about. */
  function PacketsOf(o: seq<Outcome>): (p: seq<Packet>)
    ensures |p| == |o|
    ensures forall i :: 0 <= i < |o| ==> p[i] == o[i].packet
  {
    seq(|o|, i requires 0 <= i < |o| => o[i].packet)
  }

  function Packets(w: seq<Item>): (p: seq<Packet>)
    ensures |p| == |w|
    ensures forall i :: 0 <= i < |w| ==> p[i] == w[i].packet
  {
    seq(|w|, i requires 0 <= i < |w| => w[i].packet)
  }

  /** A caller's unnumbered packet is held, rather than the core's DISCONNECT. */
  predicate UrgentOwed(s: Slot) {
    (s.waiting || s.flying) && !s.disconnect
  }

  /** Fails everything outstanding and starts the sequence over. */
  function Sweep(n: Node): Step {
    Step(
      Node(Disconnected, Sender(0, 0, 0, false, false, []), Receiver(0, 0),
           NO_NAK.(track := n.nak.track), Slot(false, false, false, n.slot.packet)),
      QUIET.(urgent := if UrgentOwed(n.slot) then Some(Outcome(n.slot.packet, Broken)) else None,
             confirmed := Outcomes(n.tx.window, Broken)))
  }

  // ----- calls of the application and the transport

  datatype Buffer = Null(size: nat) | Octets(octets: seq<Octet>)
  datatype Code = Ok | Invalid | Again | NotConnected

  function Content(buf: Buffer): seq<Octet> {
    if buf.Null? then [] else buf.octets
  }

  predicate Acceptable(c: Config, chan: nat, buf: Buffer)
    requires ValidConfig(c)
  {
    && (buf.Null? ==> buf.size == 0)
    && !IsControl(c, chan)
    && |Content(buf)| <= c.payloadLim
  }

  function ClampTtl(ttl: nat): nat {
    if MAX_TTL < ttl then MAX_TTL else if ttl == 0 then 1 else ttl
  }

  function EnqueueCode(c: Config, n: Node, chan: nat, buf: Buffer): Code
    requires WellFormed(c, n)
  {
    if !Acceptable(c, chan, buf) then Invalid
    else if c.window <= |n.tx.window| then Again
    else Ok
  }

  function Append(c: Config, t: Sender, it: Item): (r: Sender)
    requires SenderOk(c, t) && |t.window| < c.window
    ensures SenderOk(c, r)
  {
    t.(lastQueued := Succ(c.ids, t.lastQueued), window := t.window + [it])
  }

  function Enqueue(c: Config, n: Node, chan: nat, buf: Buffer, ttl: nat): (r: Node)
    requires WellFormed(c, n)
    ensures WellFormed(c, r)
  {
    if EnqueueCode(c, n, chan, buf) != Ok then n
    else n.(tx := Append(c, n.tx, Item(Packet(chan, Content(buf)), ClampTtl(ttl))))
  }

  function SendUrgentCode(c: Config, n: Node, chan: nat, buf: Buffer): Code
    requires WellFormed(c, n)
  {
    if buf.Null? || buf.octets == [] || !Acceptable(c, chan, buf) then Invalid
    else if n.phase != Connected then NotConnected
    else if n.slot.waiting || n.slot.flying then Again
    else Ok
  }

  function SendUrgent(c: Config, n: Node, chan: nat, buf: Buffer): Node
    requires WellFormed(c, n)
  {
    if SendUrgentCode(c, n, chan, buf) != Ok then n
    else n.(slot := n.slot.(packet := Packet(chan, Content(buf)), waiting := true))
  }

  function SendDisconnectCode(n: Node): Code {
    if n.phase != Connected then NotConnected
    else if n.slot.flying then Again
    else Ok
  }

  /** The DISCONNECT takes the unnumbered slot, returning what waited there. */
  function SendDisconnect(c: Config, n: Node): Step {
    if SendDisconnectCode(n) != Ok then Step(n, QUIET)
    else
      Step(n.(slot := n.slot.(packet := Packet(c.control, [CTRL_DISCONNECT]), waiting := true, disconnect := true)),
           QUIET.(urgent := if n.slot.waiting && !n.slot.disconnect
                            then Some(Outcome(n.slot.packet, Canceled)) else None))
  }

  function HandleDisconnect(n: Node): Step {
    if n.phase == Disconnected then Step(n, QUIET)
    else
      var s := Sweep(n);
      s.(report := s.report.(down := true))
  }

  // ----- receiving: the sender's half

  /** Whether a NAK charges the first unacknowledged packet. */
  predicate Charges(t: Sender) {
    t.lastSent != t.lastAck && !t.ttlCharged
  }

  /** An octet counted down. */
  function Lowered(ttl: nat): nat {
    if ttl == 0 then 255 else ttl - 1
  }

  predicate GivesUp(c: Config, t: Sender)
    requires SenderOk(c, t)
  {
    Charges(t) && Lowered(t.window[0].ttl) == 0
  }

  /** Sends everything unacknowledged again, the first packet paying for its
      last copy. One with nothing left is given up, those behind moving up. */
  function HandleNak(c: Config, t: Sender): (r: Sender)
    requires SenderOk(c, t)
    ensures SenderOk(c, r)
  {
    if !Charges(t) then t.(lastSent := t.lastAck)
    else if GivesUp(c, t) then
      t.(lastSent := t.lastAck,
         lastQueued := Pred(c.ids, t.lastQueued),
         ttlCharged := true,
         ttlHold := t.ttlHold || |t.window| == 1,
         window := t.window[1..])
    else
      t.(lastSent := t.lastAck,
         ttlCharged := true,
         window := t.window[0 := t.window[0].(ttl := Lowered(t.window[0].ttl))])
  }

  predicate AckTooFar(c: Config, t: Sender, ack: nat)
    requires SenderOk(c, t) && ack < c.ids
  {
    |t.window| < Dist(c.ids, ack, t.lastAck)
  }

  /** The packets an acknowledgment covers, or none if it runs past the queue. */
  function Acked(c: Config, t: Sender, ack: nat): (k: nat)
    requires SenderOk(c, t) && ack < c.ids
    ensures k <= |t.window|
  {
    if AckTooFar(c, t, ack) then 0 else Dist(c.ids, ack, t.lastAck)
  }

  /** Drops the first k packets of the window. An ACK past lastSent, which a NAK
      sent back, moves it up. */
  function Acknowledge(c: Config, t: Sender, k: nat): (r: Sender)
    requires SenderOk(c, t) && k <= |t.window|
    ensures SenderOk(c, r)
  {
    var ack := Plus(c.ids, t.lastAck, k);
    DistAfter(c.ids, t.lastQueued, t.lastAck, k);
    DistAfter(c.ids, t.lastSent, t.lastAck, k);
    t.(lastAck := ack,
       lastSent := if Dist(c.ids, t.lastSent, t.lastAck) < k then ack else t.lastSent,
       ttlCharged := t.ttlCharged && k == 0,
       window := t.window[k..])
  }

  /** What an ACK field does to the sending half. */
  function HandleAck(c: Config, t: Sender, ack: nat, nak: bool): (r: Sender)
    requires SenderOk(c, t) && ack < c.ids
    ensures SenderOk(c, r)
  {
    if AckTooFar(c, t, ack) then t
    else
      var acked := Acknowledge(c, t, Acked(c, t, ack));
      if nak then HandleNak(c, acked) else acked
  }

  /** The packet an ACK field gives up, if any. */
  function Expired(c: Config, t: Sender, ack: nat, nak: bool): Option<Packet>
    requires SenderOk(c, t) && ack < c.ids
  {
    if AckTooFar(c, t, ack) || !nak then None
    else
      var acked := Acknowledge(c, t, Acked(c, t, ack));
      if GivesUp(c, acked) then Some(acked.window[0].packet) else None
  }

  // ----- receiving: the receiver's half

  /** A NAK stands no longer: the peer was seen answering it, or needs none. */
  function NakAnswered(n: Nak): Nak {
    n.(out := false, tracked := false)
  }

  /** An acknowledgment of k packets that covers the one tracked answers the NAK:
      the peer has had it by now, or lost it. */
  function NakAfterAck(c: Config, n: Nak, t: Sender, k: nat): Nak
    requires SenderOk(c, t) && n.track < c.ids
  {
    if n.tracked && 1 <= Dist(c.ids, n.track, t.lastAck) <= k then NakAnswered(n) else n
  }

  function Gap(n: Nak, newPass: bool): Nak {
    var n1 := if newPass then NakAnswered(n) else n;
    if n1.out then n1 else n1.(pending := true)
  }

  /** Where a frame's ID falls in the sequence received. */
  datatype Place = Expected | Missing(newPass: bool) | Behind

  function PlaceOf(c: Config, r: Receiver, tx: nat, ping: bool): Place
    requires ReceiverOk(c, r) && tx < c.ids
  {
    var next := Succ(c.ids, r.lastReceived);
    var ahead := Dist(c.ids, tx, next);
    if ahead == 0 then Expected
    else if ping then
      if ahead <= c.window then Missing(false) else Behind
    else if ahead < c.window then
      var last := Dist(c.ids, r.lastSeen, next);
      Missing(last < c.window && ahead <= last)
    else Behind
  }

  function NakAfterFrame(n: Nak, place: Place, ping: bool): Nak {
    match place
    case Missing(newPass) => Gap(n, newPass)
    case Behind => NakAnswered(n)
    case Expected => if ping then NakAnswered(n) else NakAnswered(n).(pending := false)
  }

  function ReceiverAfter(c: Config, r: Receiver, tx: nat, ping: bool): (q: Receiver)
    requires ReceiverOk(c, r) && tx < c.ids
    ensures ReceiverOk(c, q)
  {
    Receiver(if !ping && PlaceOf(c, r, tx, ping) == Expected then tx else r.lastReceived,
             if ping then Pred(c.ids, tx) else tx)
  }

  // ----- receiving

  predicate Handshaking(c: Config, f: Frame) {
    !f.ping && f.body.Some? && f.body.value.chan == c.control
  }

  predicate Unnumbered(f: Frame) {
    f.ping && f.body.Some? && f.body.value.payload != []
  }

  /** Frames no node of this version sends: a numbered one without a channel,
      or one whose channel is the control channel with a tag. */
  predicate Malformed(c: Config, f: Frame)
    requires ValidConfig(c)
  {
    || (!f.ping && f.body.None?)
    || ((Unnumbered(f) || !f.ping) && f.body.value.chan != c.control && IsControl(c, f.body.value.chan))
  }

  predicate ClosesSession(c: Config, f: Frame) {
    Unnumbered(f) && f.body.value.chan == c.control && f.body.value.payload[0] == CTRL_DISCONNECT
  }

  datatype Greeting = Greeting(phase: Phase, caps: bool, up: bool, proceed: bool)

  /** The handshake: the state a frame leads to from one that is not CONNECTED. */
  function Greet(phase: Phase, step: bool, tx: nat): Greeting
    requires phase != Connected
  {
    if !step then
      if phase == Wait2 then Greeting(Connected, false, true, true)
      else Greeting(Disconnected, false, false, false)
    else if tx == StepOf(phase) || tx == StepOf(phase) + 1 then
      Greeting(Advance(phase), phase == Wait1, phase == Wait2, false)
    else if tx + 1 != StepOf(phase) then Greeting(Disconnected, false, false, false)
    else Greeting(phase, false, false, false)
  }

  /** A frame of the session proper: its ACK field first, then its place in the
      sequence. */
  function Take(c: Config, n: Node, f: Frame): (r: Node)
    requires WellFormed(c, n) && ValidFrame(c, f)
    ensures WellFormed(c, r)
  {
    var nak := NakAfterAck(c, n.nak, n.tx, Acked(c, n.tx, f.ack));
    n.(tx := HandleAck(c, n.tx, f.ack, f.nak),
       rx := ReceiverAfter(c, n.rx, f.tx, f.ping),
       nak := NakAfterFrame(nak, PlaceOf(c, n.rx, f.tx, f.ping), f.ping))
  }

  function TakeReport(c: Config, n: Node, f: Frame): Report
    requires WellFormed(c, n) && ValidFrame(c, f)
  {
    QUIET.(confirmed := Outcomes(n.tx.window[..Acked(c, n.tx, f.ack)], Success),
           expired := Expired(c, n.tx, f.ack, f.nak),
           received := if Unnumbered(f) || (!f.ping && PlaceOf(c, n.rx, f.tx, false) == Expected)
                       then f.body else None)
  }

  /** A frame on an established link; up if it has just brought the link up. */
  function ReceiveUp(c: Config, n: Node, f: Frame, up: bool): (s: Step)
    requires WellFormed(c, n) && ValidFrame(c, f) && !Malformed(c, f)
    ensures WellFormed(c, s.node)
  {
    if ClosesSession(c, f) || (Handshaking(c, f) && f.tx != LAST_STEP) then
      var s := Sweep(n);
      s.(report := s.report.(up := up, down := true))
    else if Handshaking(c, f) then Step(n, QUIET.(up := up))
    else Step(Take(c, n, f), TakeReport(c, n, f).(up := up))
  }

  function Receive(c: Config, n: Node, f: Frame): (s: Step)
    requires WellFormed(c, n) && ValidFrame(c, f)
    ensures WellFormed(c, s.node)
  {
    if Malformed(c, f) then Step(n, QUIET)
    else if n.phase == Connected then ReceiveUp(c, n, f, false)
    else
      var g := Greet(n.phase, Handshaking(c, f), f.tx);
      var n1 := n.(phase := g.phase);
      if g.proceed then ReceiveUp(c, n1, f, true)
      else Step(n1, QUIET.(caps := if g.caps then Some(f.body.value.payload) else None, up := g.up))
  }

  // ----- sending

  /** A turn of the transmitter: the frame handed out, if any, and whether no
      more is waiting. */
  datatype Turn = Turn(node: Node, frame: Option<Frame>, last: bool, report: Report)

  /** A bare PING repeats a standing NAK, unless the turn was asked for by the
      unnumbered packet sent before it. */
  predicate RepeatsNak(n: Node) {
    && n.phase == Connected
    && !n.slot.waiting
    && n.tx.lastSent == n.tx.lastQueued
    && !n.slot.flying
    && n.nak.out
    && !n.nak.pending
  }

  predicate SendsNak(n: Node) {
    n.nak.pending || RepeatsNak(n)
  }

  /** The NAK after a frame: one sent anew is tracked by the first numbered packet
      that goes out with it or after it. */
  function NakAfterSend(n: Nak, sent: bool, numbered: bool, id: nat): Nak {
    var n1 := if sent then n.(pending := false, out := true, tracked := false) else n;
    if numbered && n1.out && !n1.tracked then n1.(track := id, tracked := true) else n1
  }

  /** The next packet of the window goes out. A new copy of the first one may be
      charged for again, unless a give-up has just emptied the window. */
  function PacketSent(c: Config, t: Sender): (r: Sender)
    requires SenderOk(c, t) && t.lastSent != t.lastQueued
    ensures SenderOk(c, r)
  {
    var first := t.lastSent == t.lastAck;
    t.(lastSent := Succ(c.ids, t.lastSent),
       ttlCharged := t.ttlCharged && (!first || t.ttlHold),
       ttlHold := t.ttlHold && !first)
  }

  function HandshakeFrame(c: Config, p: Phase): Frame {
    Frame(false, StepOf(p), false, 0,
          Some(Packet(c.control, if p == Wait1 || p == Wait2 then c.caps else [])))
  }

  /** Which packet a turn on an established link carries. */
  datatype Load = Urgent | Bare | Data

  function LoadOf(n: Node): Load {
    if n.slot.waiting then Urgent
    else if n.tx.lastSent == n.tx.lastQueued then Bare
    else Data
  }

  function ConnectedNode(c: Config, n: Node): (r: Node)
    requires WellFormed(c, n)
    ensures WellFormed(c, r)
  {
    var load := LoadOf(n);
    n.(tx := if load == Data then PacketSent(c, n.tx) else n.tx,
       nak := NakAfterSend(n.nak, SendsNak(n), load == Data, Succ(c.ids, n.tx.lastSent)),
       slot := n.slot.(waiting := false, flying := load == Urgent))
  }

  function BodyOf(c: Config, n: Node): Option<Packet>
    requires SenderOk(c, n.tx)
  {
    match LoadOf(n)
    case Urgent => Some(n.slot.packet)
    case Bare => None
    case Data => Some(n.tx.window[Dist(c.ids, n.tx.lastSent, n.tx.lastAck)].packet)
  }

  function ConnectedFrame(c: Config, n: Node): Frame
    requires WellFormed(c, n)
  {
    var load := LoadOf(n);
    Frame(load != Data, Succ(c.ids, n.tx.lastSent), SendsNak(n), n.rx.lastReceived, BodyOf(c, n))
  }

  /** Packets are left for another turn. */
  predicate MoreWaiting(c: Config, n: Node)
    requires WellFormed(c, n)
  {
    match LoadOf(n)
    case Urgent => n.tx.lastSent != n.tx.lastQueued
    case Bare => false
    case Data => Succ(c.ids, n.tx.lastSent) != n.tx.lastQueued
  }

  function NextFrame(c: Config, n: Node): (t: Turn)
    requires WellFormed(c, n)
    ensures WellFormed(c, t.node)
  {
    var landed := n.(slot := n.slot.(flying := false));
    if n.slot.flying && n.slot.disconnect then
      var s := HandleDisconnect(landed);
      Turn(s.node, None, false, s.report)
    else
      var done := QUIET.(urgent := if n.slot.flying then Some(Outcome(n.slot.packet, Success)) else None);
      if n.phase == Connected then
        Turn(ConnectedNode(c, n), Some(ConnectedFrame(c, n)), !MoreWaiting(c, n), done)
      else
        Turn(landed, Some(HandshakeFrame(c, n.phase)), true, done)
  }
}
