/**
 What holds of one node after every run of calls and received frames, whatever
 the frames: nothing its callers hand over is lost, doubled or reordered, TTLs
 count copies, NAKs are answered one by one, and sessions start fresh.
 */
module NodeRuns {
  import opened SeqNum
  import opened Common
  import opened Protocol
  import A = Attempts

  datatype Call =
    | Enqueue(chan: nat, buf: Buffer, ttl: nat)
    | SendUrgent(chan: nat, buf: Buffer)
    | SendDisconnect
    | Connect
    | HandleDisconnect
    | Receive(f: Frame)
    | NextFrame

  /** What the unnumbered slot shows outside: a packet in a frame handed to the
      transport, its confirmation, and a turn that ends the session instead. */
  datatype Event = Carried(packet: Packet) | Told(outcome: Outcome) | Left

  /** A node and what its callers and its transport have seen of it so far; `since`
      is the ID of the first numbered packet that went out with or after the last
      frame that carried a NAK. */
  datatype Log = Log(
    node: Node,
    accepted: seq<Packet>, outcomes: seq<Outcome>,
    urgents: seq<Packet>, urgentOutcomes: seq<Outcome>, trail: seq<Event>,
    account: A.Account,
    since: Option<nat>, caps: nat, naks: nat, answers: nat)

  predicate ValidCall(c: Config, call: Call) {
    call.Receive? ==> ValidFrame(c, call.f)
  }

  function StepOfCall(c: Config, n: Node, call: Call): (s: Step)
    requires WellFormed(c, n) && ValidCall(c, call)
    ensures WellFormed(c, s.node)
  {
    match call
    case Enqueue(chan, buf, ttl) => Step(Protocol.Enqueue(c, n, chan, buf, ttl), QUIET)
    case SendUrgent(chan, buf) => Step(Protocol.SendUrgent(c, n, chan, buf), QUIET)
    case SendDisconnect => Protocol.SendDisconnect(c, n)
    case Connect => Sweep(n)
    case HandleDisconnect => Protocol.HandleDisconnect(n)
    case Receive(f) => Protocol.Receive(c, n, f)
    case NextFrame => Step(Protocol.NextFrame(c, n).node, Protocol.NextFrame(c, n).report)
  }

  /** The frame a call hands to the transport on an established link. */
  function SessionFrame(c: Config, n: Node, call: Call): Option<Frame>
    requires WellFormed(c, n)
  {
    if call.NextFrame? && n.phase == Connected then Protocol.NextFrame(c, n).frame else None
  }

  predicate SendsNumbered(c: Config, n: Node, call: Call)
    requires WellFormed(c, n)
  {
    var f := SessionFrame(c, n, call);
    f.Some? && !f.value.ping
  }

  predicate SendsFreshNak(c: Config, n: Node, call: Call)
    requires WellFormed(c, n)
  {
    var f := SessionFrame(c, n, call);
    f.Some? && f.value.nak && !n.nak.out
  }

  function SinceNak(since: Option<nat>, f: Option<Frame>): Option<nat> {
    if f.None? then since
    else if f.value.nak then (if f.value.ping then None else Some(f.value.tx))
    else if since.None? && !f.value.ping then Some(f.value.tx)
    else since
  }

  /** The events of a call, in the order they come. */
  function Events(c: Config, n: Node, call: Call, rep: Report): seq<Event>
    requires WellFormed(c, n)
  {
    var f := SessionFrame(c, n, call);
    (if rep.urgent.Some? then [Told(rep.urgent.value)] else []) +
    (if call.NextFrame? && rep.down then [Left] else []) +
    (if f.Some? && f.value.ping && f.value.body.Some? then [Carried(f.value.body.value)] else [])
  }

  predicate TakesFrame(c: Config, n: Node, call: Call)
    requires ValidConfig(c)
  {
    && call.Receive?
    && !Malformed(c, call.f) && !Handshaking(c, call.f) && !ClosesSession(c, call.f)
    && (n.phase == Connected || n.phase == Wait2)
  }

  predicate Accepts(c: Config, n: Node, call: Call)
    requires WellFormed(c, n)
  {
    call.Enqueue? && EnqueueCode(c, n, call.chan, call.buf) == Ok
  }

  /** The account of the window, from what is seen outside: the TTL asked for, the
      frames that went out and the ACK fields of those taken. */
  function AccountAfter(c: Config, l: Log, call: Call): A.Account
    requires Sound(c, l) && ValidCall(c, call)
  {
    var n, a := l.node, l.account;
    if call.Connect? || StepOfCall(c, n, call).report.down then A.Ended(a)
    else if Accepts(c, n, call) then A.Queued(a, Packet(call.chan, Content(call.buf)), call.ttl)
    else if SendsNumbered(c, n, call) && a.sent < |a.tallies| then A.Copied(a)
    else if TakesFrame(c, n, call) then A.Answered(c, n.tx, a, call.f.ack, call.f.nak)
    else a
  }

  function After(c: Config, l: Log, call: Call): Log
    requires Sound(c, l) && ValidCall(c, call)
  {
    var n, s := l.node, StepOfCall(c, l.node, call);
    var ended := s.node.phase == Disconnected;
    Log(s.node,
        l.accepted + (if Accepts(c, n, call) then [Packet(call.chan, Content(call.buf))] else []),
        l.outcomes + Resolved(s.report),
        l.urgents + (if call.SendUrgent? && SendUrgentCode(c, n, call.chan, call.buf) == Ok
                     then [Packet(call.chan, Content(call.buf))] else []),
        l.urgentOutcomes + (if s.report.urgent.Some? then [s.report.urgent.value] else []),
        l.trail + Events(c, n, call, s.report),
        AccountAfter(c, l, call),
        SinceNak(l.since, SessionFrame(c, n, call)),
        if ended then 0 else l.caps + (if s.report.caps.Some? then 1 else 0),
        if ended then 0 else l.naks + (if SendsFreshNak(c, n, call) then 1 else 0),
        if ended then 0 else l.answers + (if call.Receive? && n.nak.out && !s.node.nak.out then 1 else 0))
  }

  function Started(c: Config): Log
    requires ValidConfig(c)
  {
    Log(InitialNode(c), [], [], [], [], [], A.NO_ACCOUNT, None, 0, 0, 0)
  }

  predicate Sound(c: Config, l: Log) {
    WellFormed(c, l.node) && A.Sound(l.account)
  }

  /** A run: each log follows from the one before by a call. */
  predicate IsRun(c: Config, logs: seq<Log>, calls: seq<Call>) {
    && ValidConfig(c)
    && |logs| == |calls| + 1
    && logs[0] == Started(c)
    && forall i :: 0 <= i < |calls| ==> IsStep(c, logs[i], calls[i], logs[i + 1])
  }

  predicate IsStep(c: Config, l: Log, call: Call, m: Log) {
    ValidCall(c, call) && Sound(c, l) && m == After(c, l, call)
  }

  /** Conservation, in order: every accepted packet has been resolved or is in the
      window, whether it left by ACK, by TTL or with its session. */
  ghost predicate Conserved(l: Log) {
    l.accepted == PacketsOf(l.outcomes) + Packets(l.node.tx.window)
  }

  /** The same for unnumbered packets, of which the core's DISCONNECT is none. */
  ghost predicate UrgentConserved(l: Log) {
    l.urgents == PacketsOf(l.urgentOutcomes) + if UrgentOwed(l.node.slot) then [l.node.slot.packet] else []
  }

  /** The slot is never both waiting and in flight, and only used on a live link. */
  predicate SlotOk(n: Node) {
    && !(n.slot.waiting && n.slot.flying)
    && (n.slot.disconnect ==> n.slot.waiting || n.slot.flying)
    && (n.phase != Connected ==> !n.slot.waiting && !n.slot.flying)
  }

  /** A state other than CONNECTED has a fresh sequence. */
  predicate FreshUnlessUp(n: Node) {
    n.phase != Connected ==>
      && n.tx.lastSent == n.tx.lastAck == n.rx.lastReceived == n.rx.lastSeen == 0
      && !n.nak.pending && !n.nak.out && !n.nak.tracked
      && !n.tx.ttlCharged && !n.tx.ttlHold
  }

  /** Exactly one announcement of capabilities precedes CONNECTED. */
  predicate CapsOnce(l: Log) {
    l.caps == if l.node.phase == Wait2 || l.node.phase == Connected then 1 else 0
  }

  /** A pending NAK and a standing one never coexist; one that stands is tracked by
      the first numbered packet sent since it last went out, if there is one, whose
      ID is then within one window ahead; and fresh NAKs alternate with answers. */
  predicate NakOk(c: Config, l: Log)
    requires WellFormed(c, l.node)
  {
    var n := l.node.nak;
    && !(n.pending && n.out)
    && (n.out ==> l.since == if n.tracked then Some(n.track) else None)
    && (n.tracked ==> n.out && 1 <= Dist(c.ids, n.track, l.node.tx.lastAck) <= c.window)
    && l.naks == l.answers + if n.out then 1 else 0
  }

  /** The sending half keeps its account: TTLs count copies. */
  ghost predicate AccountOk(c: Config, l: Log)
    requires WellFormed(c, l.node)
  {
    A.Kept(c, l.node.tx, l.account)
  }

  /** The packets given up, in order. */
  function TimedOuts(o: seq<Outcome>): seq<Packet> {
    if o == [] then []
    else TimedOuts(o[..|o| - 1]) + if o[|o| - 1].result == TimedOut then [o[|o| - 1].packet] else []
  }

  /** Packets reported given up are those whose accounts are closed, in order. */
  ghost predicate ExpiredOk(l: Log) {
    && |TimedOuts(l.outcomes)| == |l.account.expired|
    && forall i :: 0 <= i < |l.account.expired| ==> TimedOuts(l.outcomes)[i] == l.account.expired[i].packet
  }

  // ----- what a call comes to

  datatype Kind = Sweeps | Takes | Queues | Turns | Holds | Leaves | Greets | Rests

  function KindOf(c: Config, n: Node, call: Call): Kind
    requires WellFormed(c, n) && ValidCall(c, call)
  {
    match call
    case Enqueue(chan, buf, _) => if EnqueueCode(c, n, chan, buf) == Ok then Queues else Rests
    case SendUrgent(chan, buf) => if SendUrgentCode(c, n, chan, buf) == Ok then Holds else Rests
    case SendDisconnect => if SendDisconnectCode(n) == Ok then Leaves else Rests
    case Connect => Sweeps
    case HandleDisconnect => if n.phase == Disconnected then Rests else Sweeps
    case NextFrame =>
      if n.slot.flying && n.slot.disconnect then Sweeps
      else if n.phase == Connected then Turns else Rests
    case Receive(f) =>
      if Malformed(c, f) then Rests
      else if TakesFrame(c, n, call) then Takes
      else if n.phase != Connected && !(n.phase == Wait2 && !Handshaking(c, f)) then Greets
      else if Handshaking(c, f) && f.tx == LAST_STEP then Rests
      else Sweeps
  }

  /** What is told of the unnumbered slot. */
  function Ending(n: Node): seq<Outcome> {
    if UrgentOwed(n.slot) then [Outcome(n.slot.packet, Broken)] else []
  }

  /** The events of a turn on an established link. */
  function TurnEvents(n: Node): seq<Event> {
    (if n.slot.flying then [Told(Outcome(n.slot.packet, Success))] else []) +
    (if n.slot.waiting then [Carried(n.slot.packet)] else [])
  }

  function SweepEvents(n: Node, leaving: bool): seq<Event> {
    Tellings(Ending(n)) + if leaving then [Left] else []
  }

  function Tellings(o: seq<Outcome>): seq<Event> {
    seq(|o|, i requires 0 <= i < |o| => Told(o[i]))
  }

  /** The log after a call, by what the call comes to. */
  ghost predicate Effect(c: Config, l: Log, call: Call, m: Log)
    requires Sound(c, l) && ValidCall(c, call)
  {
    var n := l.node;
    match KindOf(c, n, call)
    case Sweeps =>
      && m.node == Sweep(n).node
      && m == l.(node := m.node, outcomes := l.outcomes + Outcomes(n.tx.window, Broken),
                 urgentOutcomes := l.urgentOutcomes + Ending(n), trail := l.trail + SweepEvents(n, call.NextFrame?),
                 account := A.Ended(l.account), caps := 0, naks := 0, answers := 0)
    case Takes =>
      && m.node == Take(c, n, call.f).(phase := Connected)
      && m == l.(node := m.node, outcomes := l.outcomes + Resolved(TakeReport(c, n, call.f)),
                 account := A.Answered(c, n.tx, l.account, call.f.ack, call.f.nak),
                 answers := l.answers + if n.nak.out && !m.node.nak.out then 1 else 0)
    case Queues =>
      var p := Packet(call.chan, Content(call.buf));
      && m.node == n.(tx := Append(c, n.tx, Item(p, A.Granted(call.ttl))))
      && m == Reset(l.(node := m.node, accepted := l.accepted + [p], account := A.Queued(l.account, p, call.ttl)))
    case Turns =>
      && m.node == ConnectedNode(c, n)
      && m == l.(node := m.node,
                 urgentOutcomes := l.urgentOutcomes
                                   + if n.slot.flying then [Outcome(n.slot.packet, Success)] else [],
                 trail := l.trail + TurnEvents(n),
                 account := AccountAfter(c, l, call),
                 since := SinceNak(l.since, SessionFrame(c, n, call)),
                 naks := l.naks + if n.nak.pending && !n.nak.out then 1 else 0)
    case Holds =>
      && m.node == n.(slot := n.slot.(packet := Packet(call.chan, Content(call.buf)), waiting := true))
      && m == l.(node := m.node, urgents := l.urgents + [Packet(call.chan, Content(call.buf))])
    case Leaves =>
      var o := if n.slot.waiting && !n.slot.disconnect then [Outcome(n.slot.packet, Canceled)] else [];
      && m.node == n.(slot := Slot(true, n.slot.flying, true, Packet(c.control, [CTRL_DISCONNECT])))
      && m == l.(node := m.node, urgentOutcomes := l.urgentOutcomes + o, trail := l.trail + Tellings(o))
    case Greets =>
      var g := Greet(n.phase, Handshaking(c, call.f), call.f.tx);
      && m.node == n.(phase := g.phase)
      && m == Reset(l.(node := m.node, caps := l.caps + if g.caps then 1 else 0))
    case Rests => m == Reset(l)
  }

  /** A session that is over has counted nothing. */
  function Reset(l: Log): Log {
    if l.node.phase == Disconnected then l.(caps := 0, naks := 0, answers := 0) else l
  }

  lemma AfterEffect(c: Config, l: Log, call: Call)
    requires Sound(c, l) && ValidCall(c, call) && SlotOk(l.node)
    ensures Effect(c, l, call, After(c, l, call))
  {
    if call.Receive? {
      ReceiveEffect(c, l, call);
    } else if call.NextFrame? {
      TurnEffect(c, l, call);
    } else {
      CallerEffect(c, l, call);
    }
  }

  lemma CallerEffect(c: Config, l: Log, call: Call)
    requires Sound(c, l) && SlotOk(l.node) && !call.Receive? && !call.NextFrame?
    ensures Effect(c, l, call, After(c, l, call))
  {
    if call.Connect? || call.HandleDisconnect? {
      EndEffect(c, l, call);
    } else {
      ServiceEffect(c, l, call);
    }
  }

  lemma EndEffect(c: Config, l: Log, call: Call)
    requires Sound(c, l) && (call.Connect? || call.HandleDisconnect?)
    ensures Effect(c, l, call, After(c, l, call))
  {
  }

  lemma ServiceEffect(c: Config, l: Log, call: Call)
    requires Sound(c, l) && SlotOk(l.node) && (call.Enqueue? || call.SendUrgent? || call.SendDisconnect?)
    ensures Effect(c, l, call, After(c, l, call))
  {
  }

  lemma ReceiveEffect(c: Config, l: Log, call: Call)
    requires Sound(c, l) && ValidCall(c, call) && call.Receive?
    ensures Effect(c, l, call, After(c, l, call))
  {
    if TakesFrame(c, l.node, call) {
      TakeEffect(c, l, call);
    } else {
      MissEffect(c, l, call);
    }
  }

  lemma MissEffect(c: Config, l: Log, call: Call)
    requires Sound(c, l) && ValidCall(c, call) && call.Receive? && !TakesFrame(c, l.node, call)
    ensures Effect(c, l, call, After(c, l, call))
  {
  }

  lemma TakeEffect(c: Config, l: Log, call: Call)
    requires Sound(c, l) && ValidCall(c, call) && TakesFrame(c, l.node, call)
    ensures Effect(c, l, call, After(c, l, call))
  {
    var s := Protocol.Receive(c, l.node, call.f);
    assert s.node == Take(c, l.node, call.f).(phase := Connected);
    assert Resolved(s.report) == Resolved(TakeReport(c, l.node, call.f));
  }

  lemma TurnEffect(c: Config, l: Log, call: Call)
    requires Sound(c, l) && SlotOk(l.node) && call.NextFrame?
    ensures Effect(c, l, call, After(c, l, call))
  {
  }

  // ----- each property through one call

  lemma ConservedStep(c: Config, l: Log, call: Call, m: Log)
    requires Sound(c, l) && ValidCall(c, call) && Effect(c, l, call, m) && Conserved(l)
    ensures Conserved(m)
  {
    if MovesWindow(KindOf(c, l.node, call)) {
      ConservedMoves(c, l, call, m);
    } else if KindOf(c, l.node, call) == Sweeps {
      ConservedBy(l, m, Outcomes(l.node.tx.window, Broken));
    } else {
      ConservedBy(l, m, []);
    }
  }

  lemma ConservedMoves(c: Config, l: Log, call: Call, m: Log)
    requires Sound(c, l) && ValidCall(c, call) && Effect(c, l, call, m) && Conserved(l)
    requires MovesWindow(KindOf(c, l.node, call))
    ensures Conserved(m)
  {
    match KindOf(c, l.node, call)
    case Takes =>
      TakeConserves(c, l.node, call.f);
      ConservedBy(l, m, Resolved(TakeReport(c, l.node, call.f)));
    case Turns => ConservedBy(l, m, []);
    case Queues => ConservedQueued(l, m, m.node.tx.window[|l.node.tx.window|]);
  }

  lemma ConservedQueued(l: Log, m: Log, it: Item)
    requires Conserved(l) && m.accepted == l.accepted + [it.packet] && m.outcomes == l.outcomes
    requires m.node.tx.window == l.node.tx.window + [it]
    ensures Conserved(m)
  {
    assert Packets(m.node.tx.window) == Packets(l.node.tx.window) + [it.packet];
  }

  lemma ConservedBy(l: Log, m: Log, o: seq<Outcome>)
    requires Conserved(l) && m.accepted == l.accepted && m.outcomes == l.outcomes + o
    requires Packets(l.node.tx.window) == PacketsOf(o) + Packets(m.node.tx.window)
    ensures Conserved(m)
  {
    assert PacketsOf(m.outcomes) == PacketsOf(l.outcomes) + PacketsOf(o);
  }

  lemma TakeConserves(c: Config, n: Node, f: Frame)
    requires WellFormed(c, n) && ValidFrame(c, f)
    ensures Packets(n.tx.window)
         == PacketsOf(Resolved(TakeReport(c, n, f))) + Packets(Take(c, n, f).tx.window)
  {
    var t, k := n.tx, Acked(c, n.tx, f.ack);
    var done, r := Outcomes(t.window[..k], Success), Resolved(TakeReport(c, n, f));
    assert Packets(t.window) == PacketsOf(done) + Packets(t.window[k..]);
    if AckTooFar(c, t, f.ack) || !f.nak {
      assert r == done;
    } else {
      var acked := Acknowledge(c, t, k);
      var e := if GivesUp(c, acked) then [Outcome(acked.window[0].packet, TimedOut)] else [];
      NakConserves(c, acked);
      assert r == done + e;
      ResolvedThen(done, e, Packets(HandleNak(c, acked).window));
    }
  }

  lemma ResolvedThen(x: seq<Outcome>, y: seq<Outcome>, z: seq<Packet>)
    ensures PacketsOf(x + y) + z == PacketsOf(x) + (PacketsOf(y) + z)
  {
    assert PacketsOf(x + y) == PacketsOf(x) + PacketsOf(y);
  }

  lemma NakConserves(c: Config, t: Sender)
    requires SenderOk(c, t)
    ensures Packets(t.window)
         == PacketsOf(if GivesUp(c, t) then [Outcome(t.window[0].packet, TimedOut)] else []) +
            Packets(HandleNak(c, t).window)
  {
    if GivesUp(c, t) {
      var p := t.window[0].packet;
      assert PacketsOf([Outcome(p, TimedOut)]) == [p];
      assert Packets(t.window) == [p] + Packets(t.window[1..]);
    } else {
      assert PacketsOf([]) == [];
      assert Packets(HandleNak(c, t).window) == Packets(t.window);
    }
  }

  lemma UrgentStep(c: Config, l: Log, call: Call, m: Log)
    requires Sound(c, l) && ValidCall(c, call) && Effect(c, l, call, m)
    requires SlotOk(l.node) && UrgentConserved(l)
    ensures SlotOk(m.node) && UrgentConserved(m)
  {
    if MovesWindow(KindOf(c, l.node, call)) {
      UrgentMoves(c, l, call, m);
    } else {
      UrgentRests(c, l, call, m);
    }
  }

  lemma UrgentMoves(c: Config, l: Log, call: Call, m: Log)
    requires Sound(c, l) && ValidCall(c, call) && Effect(c, l, call, m)
    requires SlotOk(l.node) && UrgentConserved(l) && MovesWindow(KindOf(c, l.node, call))
    ensures SlotOk(m.node) && UrgentConserved(m)
  {
    OutcomesAppend(l.urgentOutcomes, m.urgentOutcomes);
  }

  lemma UrgentRests(c: Config, l: Log, call: Call, m: Log)
    requires Sound(c, l) && ValidCall(c, call) && Effect(c, l, call, m)
    requires SlotOk(l.node) && UrgentConserved(l) && !MovesWindow(KindOf(c, l.node, call))
    ensures SlotOk(m.node) && UrgentConserved(m)
  {
    OutcomesAppend(l.urgentOutcomes, m.urgentOutcomes);
  }

  lemma OutcomesAppend(o: seq<Outcome>, more: seq<Outcome>)
    ensures o <= more ==> PacketsOf(more) == PacketsOf(o) + PacketsOf(more[|o|..])
  {
  }

  lemma FreshStep(c: Config, l: Log, call: Call, m: Log)
    requires Sound(c, l) && ValidCall(c, call) && Effect(c, l, call, m)
    requires FreshUnlessUp(l.node) && CapsOnce(l)
    ensures FreshUnlessUp(m.node) && CapsOnce(m)
  {
  }

  lemma NakStep(c: Config, l: Log, call: Call, m: Log)
    requires Sound(c, l) && ValidCall(c, call) && Effect(c, l, call, m)
    requires FreshUnlessUp(l.node) && NakOk(c, l)
    ensures WellFormed(c, m.node) && NakOk(c, m)
  {
    if MovesWindow(KindOf(c, l.node, call)) {
      NakMoves(c, l, call, m);
    } else {
      NakRests(c, l, call, m);
    }
  }

  lemma NakMoves(c: Config, l: Log, call: Call, m: Log)
    requires Sound(c, l) && ValidCall(c, call) && Effect(c, l, call, m)
    requires FreshUnlessUp(l.node) && NakOk(c, l) && MovesWindow(KindOf(c, l.node, call))
    ensures WellFormed(c, m.node) && NakOk(c, m)
  {
    match KindOf(c, l.node, call)
    case Takes => NakTaken(c, l, call, m);
    case Turns => NakTurn(c, l, call, m);
    case Queues =>
  }

  lemma NakTaken(c: Config, l: Log, call: Call, m: Log)
    requires Sound(c, l) && call.Receive? && ValidCall(c, call) && NakOk(c, l) && m.since == l.since
    requires m.node == Take(c, l.node, call.f).(phase := Connected) && WellFormed(c, m.node) && m.naks == l.naks
    requires m.answers == l.answers + if l.node.nak.out && !m.node.nak.out then 1 else 0
    ensures NakOk(c, m)
  {
    TrackTaken(c, l.node, call.f);
  }

  lemma NakTurn(c: Config, l: Log, call: Call, m: Log)
    requires Sound(c, l) && call.NextFrame? && NakOk(c, l) && KindOf(c, l.node, call) == Turns
    requires m.node == ConnectedNode(c, l.node) && m.since == SinceNak(l.since, SessionFrame(c, l.node, call))
    requires m.naks == l.naks + if l.node.nak.pending && !l.node.nak.out then 1 else 0
    requires m.answers == l.answers
    ensures NakOk(c, m)
  {
    TrackTurn(c, l.node);
    SinceTurn(c, l, call, m);
  }

  lemma NakRests(c: Config, l: Log, call: Call, m: Log)
    requires Sound(c, l) && ValidCall(c, call) && Effect(c, l, call, m)
    requires FreshUnlessUp(l.node) && NakOk(c, l) && !MovesWindow(KindOf(c, l.node, call))
    ensures WellFormed(c, m.node) && NakOk(c, m)
  {
  }

  lemma SinceTurn(c: Config, l: Log, call: Call, m: Log)
    requires Sound(c, l) && call.NextFrame? && KindOf(c, l.node, call) == Turns
    requires m.node == ConnectedNode(c, l.node) && m.since == SinceNak(l.since, SessionFrame(c, l.node, call))
    requires l.node.nak.out ==> l.since == if l.node.nak.tracked then Some(l.node.nak.track) else None
    ensures m.node.nak.out ==> m.since == if m.node.nak.tracked then Some(m.node.nak.track) else None
  {
  }

  lemma TrackTurn(c: Config, n: Node)
    requires WellFormed(c, n)
    requires n.nak.tracked ==> n.nak.out && 1 <= Dist(c.ids, n.nak.track, n.tx.lastAck) <= c.window
    ensures var m := ConnectedNode(c, n);
            && !m.nak.pending
            && m.nak.out == (n.nak.out || n.nak.pending)
            && m.tx.lastAck == n.tx.lastAck
            && (m.nak.tracked ==> m.nak.out && 1 <= Dist(c.ids, m.nak.track, m.tx.lastAck) <= c.window)
  {
  }

  lemma TrackTaken(c: Config, n: Node, f: Frame)
    requires WellFormed(c, n) && ValidFrame(c, f)
    requires n.nak.tracked ==> n.nak.out && 1 <= Dist(c.ids, n.nak.track, n.tx.lastAck) <= c.window
    requires !(n.nak.pending && n.nak.out)
    ensures var m := Take(c, n, f);
            && !(m.nak.pending && m.nak.out)
            && (m.nak.out ==> n.nak.out && m.nak == n.nak)
            && (m.nak.tracked ==> m.nak.out && 1 <= Dist(c.ids, m.nak.track, m.tx.lastAck) <= c.window)
  {
    var k := Acked(c, n.tx, f.ack);
    assert HandleAck(c, n.tx, f.ack, f.nak).lastAck == Plus(c.ids, n.tx.lastAck, k);
    DistAfter(c.ids, n.nak.track, n.tx.lastAck, k);
  }

  predicate MovesWindow(k: Kind) {
    k == Takes || k == Turns || k == Queues
  }

  lemma AccountStep(c: Config, l: Log, call: Call, m: Log)
    requires Sound(c, l) && ValidCall(c, call) && Effect(c, l, call, m) && AccountOk(c, l)
    ensures Sound(c, m) && AccountOk(c, m)
  {
    if MovesWindow(KindOf(c, l.node, call)) {
      AccountMoves(c, l, call, m);
    } else {
      AccountRests(c, l, call, m);
    }
  }

  lemma AccountMoves(c: Config, l: Log, call: Call, m: Log)
    requires Sound(c, l) && ValidCall(c, call) && Effect(c, l, call, m) && AccountOk(c, l)
    requires MovesWindow(KindOf(c, l.node, call))
    ensures Sound(c, m) && AccountOk(c, m)
  {
    match KindOf(c, l.node, call)
    case Takes => A.AnsweredKept(c, l.node.tx, l.account, call.f.ack, call.f.nak);
    case Turns => TurnAccount(c, l, call, m);
    case Queues =>
      A.QueuedKept(c, l.node.tx, l.account, Item(Packet(call.chan, Content(call.buf)), A.Granted(call.ttl)), call.ttl);
  }

  lemma AccountRests(c: Config, l: Log, call: Call, m: Log)
    requires Sound(c, l) && ValidCall(c, call) && Effect(c, l, call, m) && AccountOk(c, l)
    requires !MovesWindow(KindOf(c, l.node, call))
    ensures Sound(c, m) && AccountOk(c, m)
  {
  }

  lemma TurnAccount(c: Config, l: Log, call: Call, m: Log)
    requires Sound(c, l) && call.NextFrame? && AccountOk(c, l)
    requires KindOf(c, l.node, call) == Turns
    requires m.node == ConnectedNode(c, l.node) && m.account == AccountAfter(c, l, call)
    ensures Sound(c, m) && AccountOk(c, m)
  {
    assert SendsNumbered(c, l.node, call) == (LoadOf(l.node) == Data);
    if LoadOf(l.node) == Data {
      A.CopiedKept(c, l.node.tx, l.account);
    }
  }

  // ----- packets given up

  lemma TimedOutsMore(o: seq<Outcome>, more: seq<Outcome>)
    ensures TimedOuts(o + more) == TimedOuts(o) + TimedOuts(more)
  {
    if more == [] {
      assert o + more == o;
    } else {
      var rest := more[..|more| - 1];
      assert (o + more)[..|o + more| - 1] == o + rest;
      TimedOutsMore(o, rest);
    }
  }

  lemma NoneTimedOut(w: seq<Item>, r: Result)
    requires r != TimedOut
    ensures TimedOuts(Outcomes(w, r)) == []
  {
    if w != [] {
      assert Outcomes(w, r)[..|w| - 1] == Outcomes(w[..|w| - 1], r);
      NoneTimedOut(w[..|w| - 1], r);
    }
  }

  lemma ExpiredStep(c: Config, l: Log, call: Call, m: Log)
    requires Sound(c, l) && ValidCall(c, call) && Effect(c, l, call, m) && AccountOk(c, l) && ExpiredOk(l)
    ensures ExpiredOk(m)
  {
    if KindOf(c, l.node, call) == Takes {
      ExpiredTaken(c, l, call, m);
    } else {
      ExpiredRests(c, l, call, m);
    }
  }

  lemma ExpiredRests(c: Config, l: Log, call: Call, m: Log)
    requires Sound(c, l) && ValidCall(c, call) && Effect(c, l, call, m) && AccountOk(c, l) && ExpiredOk(l)
    requires KindOf(c, l.node, call) != Takes
    ensures ExpiredOk(m)
  {
    if KindOf(c, l.node, call) == Sweeps {
      TimedOutsMore(l.outcomes, Outcomes(l.node.tx.window, Broken));
      NoneTimedOut(l.node.tx.window, Broken);
    } else if KindOf(c, l.node, call) == Turns {
      AccountTurned(c, l, call);
    }
  }

  /** A turn on an established link gives nothing up. */
  lemma AccountTurned(c: Config, l: Log, call: Call)
    requires Sound(c, l) && call.NextFrame? && KindOf(c, l.node, call) == Turns
    ensures AccountAfter(c, l, call).expired == l.account.expired
  {
  }

  function Late(expired: Option<Packet>): seq<Outcome> {
    if expired.Some? then [Outcome(expired.value, TimedOut)] else []
  }

  lemma TakenTimedOuts(done: seq<Item>, expired: Option<Packet>)
    ensures TimedOuts(Outcomes(done, Success) + Late(expired)) == PacketsOf(Late(expired))
  {
    TimedOutsMore(Outcomes(done, Success), Late(expired));
    NoneTimedOut(done, Success);
  }

  lemma ExpiredTaken(c: Config, l: Log, call: Call, m: Log)
    requires Sound(c, l) && ValidCall(c, call) && AccountOk(c, l) && ExpiredOk(l)
    requires TakesFrame(c, l.node, call)
    requires m.outcomes == l.outcomes + Resolved(TakeReport(c, l.node, call.f))
    requires m.account == A.Answered(c, l.node.tx, l.account, call.f.ack, call.f.nak)
    ensures ExpiredOk(m)
  {
    var t, f := l.node.tx, call.f;
    var done, expired := t.window[..Acked(c, t, f.ack)], Expired(c, t, f.ack, f.nak);
    assert Resolved(TakeReport(c, l.node, f)) == Outcomes(done, Success) + Late(expired);
    A.AnsweredKept(c, t, l.account, f.ack, f.nak);
    TimedOutsMore(l.outcomes, Outcomes(done, Success) + Late(expired));
    TakenTimedOuts(done, expired);
    ExpiredMore(l, m, expired);
  }

  lemma ExpiredMore(l: Log, m: Log, expired: Option<Packet>)
    requires ExpiredOk(l) && A.Reported(l.account, m.account, expired)
    requires TimedOuts(m.outcomes) == TimedOuts(l.outcomes) + PacketsOf(Late(expired))
    ensures ExpiredOk(m)
  {
  }

  // ----- every run

  ghost predicate Good(c: Config, l: Log) {
    && Sound(c, l)
    && Conserved(l) && UrgentConserved(l) && SlotOk(l.node)
    && FreshUnlessUp(l.node) && CapsOnce(l) && NakOk(c, l) && AccountOk(c, l) && ExpiredOk(l)
  }

  lemma GoodStep(c: Config, l: Log, call: Call)
    requires Good(c, l) && ValidCall(c, call)
    ensures Good(c, After(c, l, call))
  {
    var m := After(c, l, call);
    AfterEffect(c, l, call);
    ConservedStep(c, l, call, m);
    UrgentStep(c, l, call, m);
    FreshStep(c, l, call, m);
    NakStep(c, l, call, m);
    AccountStep(c, l, call, m);
    ExpiredStep(c, l, call, m);
  }

  lemma StepGood(c: Config, l: Log, call: Call, m: Log)
    requires Good(c, l) && IsStep(c, l, call, m)
    ensures Good(c, m)
  {
    GoodStep(c, l, call);
  }

  lemma StartedGood(c: Config)
    requires ValidConfig(c)
    ensures Good(c, Started(c))
  {
    assert Conserved(Started(c)) && UrgentConserved(Started(c));
  }

  /** Every state of every run is good. */
  lemma {:induction false} RunsAreGood(c: Config, logs: seq<Log>, calls: seq<Call>, k: nat)
    requires IsRun(c, logs, calls) && k <= |calls|
    ensures Good(c, logs[k])
  {
    if k == 0 {
      StartedGood(c);
    } else {
      RunsAreGood(c, logs, calls, k - 1);
      assert IsStep(c, logs[k - 1], calls[k - 1], logs[k]);
      StepGood(c, logs[k - 1], calls[k - 1], logs[k]);
    }
  }

  /** In every run, a packet reported given up was asked to be sent some number of
      times, and went out at least as often, that number taken as 1 if it is 0 and
      as 127 if it is more; once more if its first copy was spared. */
  lemma GivenUpHadItsAttempts(c: Config, logs: seq<Log>, calls: seq<Call>, k: nat, i: nat)
    requires IsRun(c, logs, calls) && k <= |calls| && i < |TimedOuts(logs[k].outcomes)|
    ensures |logs[k].account.expired| == |TimedOuts(logs[k].outcomes)|
    ensures var t := logs[k].account.expired[i];
            && t.packet == TimedOuts(logs[k].outcomes)[i]
            && t.charges == (if t.asked == 0 then 1 else if t.asked <= 127 then t.asked else 127)
            && t.charges <= t.copies
            && (t.spared ==> t.charges < t.copies)
  {
    RunsAreGood(c, logs, calls, k);
    assert A.SpentOk(logs[k].account.expired[i]);
  }

  /** The packets still in the window: what they have left, and that no charge is
      for the copy a packet is spared. */
  lemma QueuedKeepsItsAttempts(c: Config, logs: seq<Log>, calls: seq<Call>, k: nat, i: nat)
    requires IsRun(c, logs, calls) && k <= |calls| && i < |logs[k].node.tx.window|
    ensures |logs[k].account.tallies| == |logs[k].node.tx.window|
    ensures var t, it := logs[k].account.tallies[i], logs[k].node.tx.window[i];
            && t.packet == it.packet
            && it.ttl + t.charges == (if t.asked == 0 then 1 else if t.asked <= 127 then t.asked else 127)
            && 1 <= it.ttl
            && t.charges <= t.copies
            && (t.spared ==> t.charges < t.copies)
  {
    RunsAreGood(c, logs, calls, k);
    assert A.TallyOk(logs[k].node.tx.window[i], logs[k].account.tallies[i]);
  }

  /** Any call continues any run: soundness in IsRun excludes none. */
  lemma RunContinues(c: Config, logs: seq<Log>, calls: seq<Call>, call: Call)
    requires IsRun(c, logs, calls) && ValidCall(c, call)
    ensures Sound(c, logs[|calls|]) && IsRun(c, logs + [After(c, logs[|calls|], call)], calls + [call])
  {
    RunsAreGood(c, logs, calls, |calls|);
    var logs', calls' := logs + [After(c, logs[|calls|], call)], calls + [call];
    assert logs'[0] == logs[0];
    forall i | 0 <= i < |calls'| ensures IsStep(c, logs'[i], calls'[i], logs'[i + 1]) {
      if i < |calls| {
        assert IsStep(c, logs[i], calls[i], logs[i + 1]);
      }
    }
  }
}
