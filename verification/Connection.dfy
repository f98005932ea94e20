/**
 The connection object: fields updated in place, the window in a circular array.
 Every entry point is proved to compute the function of Protocol that specifies
 it, on the abstract value the fields stand for.
 */
module ConnectionModel {
  import opened SeqNum
  import opened Common
  import opened Protocol
  import opened Ring

  lemma OutcomesMore(w: seq<Item>, k: nat)
    requires k < |w|
    ensures Outcomes(w[..k + 1], Success) == Outcomes(w[..k], Success) + [Outcome(w[k].packet, Success)]
    ensures w[k..][0] == w[k] && w[k..][1..] == w[k + 1..]
  {
  }

  class Connection {
    const cfg: Config
    const queue: array<Item>

    var phase: Phase
    var lastQueued: nat
    var lastSent: nat
    var lastAck: nat
    var lastReceived: nat
    var lastSeen: nat
    var nakTrack: nat

    // The flag word; the first three are active low.
    var noNak: bool
    var uIdle: bool
    var uDone: bool
    var nakOut: bool
    var nakTracked: bool
    var ttlCharged: bool
    var ttlHold: bool
    var discAfterTx: bool

    var urgent: Packet

    /** The window lies within the array. */
    ghost predicate InRing()
      reads `lastQueued, `lastAck
    {
      && ValidConfig(cfg)
      && queue.Length == cfg.window
      && lastAck < cfg.ids && lastQueued < cfg.ids
      && Dist(cfg.ids, lastQueued, lastAck) <= cfg.window
    }

    ghost function Window(): seq<Item>
      requires InRing()
      reads `lastQueued, `lastAck, queue
    {
      Held(cfg, queue[..], lastAck, Dist(cfg.ids, lastQueued, lastAck))
    }

    ghost function Tx(): Sender
      requires InRing()
      reads `lastQueued, `lastAck, `lastSent, `ttlCharged, `ttlHold, queue
    {
      Sender(lastQueued, lastSent, lastAck, ttlCharged, ttlHold, Window())
    }

    ghost function Rx(): Receiver
      reads `lastReceived, `lastSeen
    {
      Receiver(lastReceived, lastSeen)
    }

    ghost function NakState(): Nak
      reads `noNak, `nakOut, `nakTracked, `nakTrack
    {
      Nak(!noNak, nakOut, nakTracked, nakTrack)
    }

    /** The node these fields stand for. */
    ghost function Abs(): Node
      requires InRing()
      reads this, queue
    {
      Node(phase, Tx(), Rx(), NakState(), Slot(!uIdle, !uDone, discAfterTx, urgent))
    }

    ghost predicate Valid()
      reads this, queue
    {
      InRing() && WellFormed(cfg, Abs())
    }

    constructor (c: Config)
      requires ValidConfig(c)
      ensures cfg == c && Valid() && fresh(queue) && Abs() == InitialNode(c)
    {
      cfg := c;
      queue := new Item[c.window](_ => Item(Packet(c.control, []), 0));
      phase := Disconnected;
      lastQueued, lastSent, lastAck, lastReceived, lastSeen, nakTrack := 0, 0, 0, 0, 0, 0;
      noNak, uIdle, uDone := true, true, true;
      nakOut, nakTracked, ttlCharged, ttlHold, discAfterTx := false, false, false, false, false;
      urgent := Packet(c.control, []);
    }

    method Enqueue(chan: nat, buf: Buffer, ttl: nat) returns (code: Code)
      requires Valid()
      modifies this, queue
      ensures Valid() && code == EnqueueCode(cfg, old(Abs()), chan, buf)
      ensures Abs() == Protocol.Enqueue(cfg, old(Abs()), chan, buf, ttl)
      ensures code == Again ==> |old(Window())| == cfg.window
      ensures var copies := if ttl == 0 then 1 else if ttl <= 127 then ttl else 127;
              Window() == old(Window()) + if code == Ok then [Item(Packet(chan, Content(buf)), copies)] else []
    {
      if (buf.Null? && buf.size != 0) || IsControl(cfg, chan) {
        return Invalid;
      }
      if cfg.payloadLim < |Content(buf)| {
        return Invalid;
      }
      if cfg.window <= Dist(cfg.ids, lastQueued, lastAck) {
        return Again;
      }
      var id := Succ(cfg.ids, lastQueued);
      var n := Dist(cfg.ids, lastQueued, lastAck);
      assert id == Plus(cfg.ids, lastAck, n + 1);
      HeldStore(cfg, queue[..], lastAck, n, Item(Packet(chan, Content(buf)), ClampTtl(ttl)));
      queue[SlotOf(cfg, id)] := Item(Packet(chan, Content(buf)), ClampTtl(ttl));
      lastQueued := id;
      return Ok;
    }

    method SendUrgent(chan: nat, buf: Buffer) returns (code: Code)
      requires Valid()
      modifies this
      ensures Valid() && code == SendUrgentCode(cfg, old(Abs()), chan, buf)
      ensures Abs() == Protocol.SendUrgent(cfg, old(Abs()), chan, buf)
    {
      if buf.Null? || |buf.octets| == 0 || cfg.payloadLim < |buf.octets| || IsControl(cfg, chan) {
        return Invalid;
      }
      if phase != Connected {
        return NotConnected;
      }
      if !uIdle || !uDone {
        return Again;
      }
      urgent, uIdle := Packet(chan, buf.octets), false;
      return Ok;
    }

    method SendDisconnect() returns (code: Code, rep: Report)
      requires Valid()
      modifies this
      ensures Valid() && code == SendDisconnectCode(old(Abs()))
      ensures Step(Abs(), rep) == Protocol.SendDisconnect(cfg, old(Abs()))
    {
      rep := QUIET;
      if phase != Connected {
        return NotConnected, rep;
      }
      if !uDone {
        return Again, rep;
      }
      if !uIdle && !discAfterTx {
        rep := rep.(urgent := Some(Outcome(urgent, Canceled)));
      }
      urgent, uIdle, discAfterTx := Packet(cfg.control, [CTRL_DISCONNECT]), false, true;
      return Ok, rep;
    }

    /** on_disconnect_lock: fails what is outstanding, then resets the sequence. */
    method OnDisconnect() returns (rep: Report)
      requires Valid()
      modifies `phase, `noNak, `uIdle, `uDone, `nakOut, `nakTracked, `ttlCharged, `ttlHold, `discAfterTx
      modifies `lastSent, `lastQueued, `lastAck, `lastReceived, `lastSeen
      ensures Valid() && Step(Abs(), rep) == Sweep(old(Abs()))
    {
      var done := Failed();
      rep := QUIET.(confirmed := done);
      if (!uIdle || !uDone) && !discAfterTx {
        rep := rep.(urgent := Some(Outcome(urgent, Broken)));
      }
      phase := Disconnected;
      StartOver();
    }

    method StartOver()
      requires InRing()
      modifies `noNak, `uIdle, `uDone, `nakOut, `nakTracked, `ttlCharged, `ttlHold, `discAfterTx
      modifies `lastSent, `lastQueued, `lastAck, `lastReceived, `lastSeen
      ensures InRing()
      ensures Abs() == Node(phase, Sender(0, 0, 0, false, false, []), Receiver(0, 0),
                            Nak(false, false, false, nakTrack), Slot(false, false, false, urgent))
    {
      ClearRuntimeFlags();
      ResetSequence();
    }

    /** The idle mask set and the sweep mask cleared. */
    method ClearRuntimeFlags()
      modifies `noNak, `uIdle, `uDone, `nakOut, `nakTracked, `ttlCharged, `ttlHold, `discAfterTx
      ensures noNak && uIdle && uDone
      ensures !nakOut && !nakTracked && !ttlCharged && !ttlHold && !discAfterTx
    {
      noNak, uIdle, uDone := true, true, true;
      nakOut, nakTracked, ttlCharged, ttlHold, discAfterTx := false, false, false, false, false;
    }

    /** ludlc_seq_reset_if_drained, where reporting inline leaves nothing pending. */
    method ResetSequence()
      requires InRing()
      modifies `lastSent, `lastQueued, `lastAck, `lastReceived, `lastSeen
      ensures lastSent == lastQueued == lastAck == lastReceived == lastSeen == 0
      ensures InRing() && Window() == []
    {
      lastSent, lastQueued, lastAck, lastReceived, lastSeen := 0, 0, 0, 0, 0;
    }

    /** Packets (last_ack, last_queued], walked in ID space. */
    method Failed() returns (done: seq<Outcome>)
      requires InRing()
      ensures done == Outcomes(Window(), Broken)
    {
      var i, n := lastAck, Dist(cfg.ids, lastQueued, lastAck);
      done := [];
      for k := 0 to n
        invariant i == Plus(cfg.ids, lastAck, k)
        invariant done == Outcomes(Window()[..k], Broken)
      {
        i := Succ(cfg.ids, i);
        assert i == Plus(cfg.ids, lastAck, k + 1);
        assert queue[SlotOf(cfg, i)] == Window()[k];
        done := done + [Outcome(queue[SlotOf(cfg, i)].packet, Broken)];
      }
      assert Window()[..n] == Window();
    }

    method Connect() returns (rep: Report)
      requires Valid()
      modifies this
      ensures Valid() && Step(Abs(), rep) == Sweep(old(Abs()))
    {
      rep := OnDisconnect();
    }

    method HandleDisconnect() returns (rep: Report)
      requires Valid()
      modifies this
      ensures Valid() && Step(Abs(), rep) == Protocol.HandleDisconnect(old(Abs()))
    {
      if phase == Disconnected {
        return QUIET;
      }
      rep := OnDisconnect();
      rep := rep.(down := true);
    }

    /** rx_handle_nak: the give-up shifts the packets behind in place. */
    method HandleNak() returns (expired: Option<Packet>)
      requires InRing() && SenderOk(cfg, Tx())
      modifies `lastQueued, `lastSent, `ttlCharged, `ttlHold, queue
      ensures InRing() && Tx() == Protocol.HandleNak(cfg, old(Tx()))
      ensures expired == if GivesUp(cfg, old(Tx())) then Some(old(Tx()).window[0].packet) else None
    {
      expired := None;
      if lastSent != lastAck && !ttlCharged {
        var id := Succ(cfg.ids, lastAck);
        var it := queue[SlotOf(cfg, id)];
        assert it == Window()[0];
        ttlCharged := true;
        if Lowered(it.ttl) == 0 {
          expired := Some(it.packet);
          DropFirst();
        } else {
          HeldWrite(cfg, queue[..], lastAck, Dist(cfg.ids, lastQueued, lastAck), 0, it.(ttl := Lowered(it.ttl)));
          queue[SlotOf(cfg, id)] := it.(ttl := Lowered(it.ttl));
        }
      }
      lastSent := lastAck;
    }

    method DropFirst()
      requires InRing() && lastQueued != lastAck
      modifies `lastQueued, `ttlHold, queue
      ensures InRing() && Window() == old(Window())[1..]
      ensures lastQueued == Pred(cfg.ids, old(lastQueued))
      ensures ttlHold == (old(ttlHold) || |old(Window())| == 1)
    {
      DistPred(cfg.ids, lastQueued, lastAck);
      MoveUp();
      lastQueued := Pred(cfg.ids, lastQueued);
      if lastQueued == lastAck {
        ttlHold := true;
      }
    }

    /** The packets behind the first move up one place, each into the slot of the
        one before. */
    method MoveUp()
      requires InRing() && lastQueued != lastAck
      modifies queue
      ensures Held(cfg, queue[..], lastAck, Dist(cfg.ids, lastQueued, lastAck) - 1) == old(Window())[1..]
    {
      var id, n := Succ(cfg.ids, lastAck), Dist(cfg.ids, lastQueued, lastAck);
      ghost var w := Window();
      assert MovedUp(w, 0) == w;
      for k := 0 to n - 1
        invariant id == Plus(cfg.ids, lastAck, k + 1)
        invariant Held(cfg, queue[..], lastAck, n) == MovedUp(w, k)
      {
        var next := Succ(cfg.ids, id);
        assert next == Plus(cfg.ids, lastAck, k + 2);
        HeldMoveUp(cfg, queue[..], lastAck, w, k);
        queue[SlotOf(cfg, id)] := queue[SlotOf(cfg, next)];
        id := next;
      }
      HeldMoved(cfg, queue[..], lastAck, w);
    }
  
    /** rx_handle_ack: one slot at a time, each confirmed as last_ack passes it. */
    method HandleAck(ack: nat, nak: bool) returns (done: seq<Outcome>, expired: Option<Packet>)
      requires Valid() && ack < cfg.ids
      modifies `lastQueued, `lastSent, `lastAck, `ttlCharged, `ttlHold, `nakOut, `nakTracked, queue
      ensures InRing()
      ensures Tx() == Protocol.HandleAck(cfg, old(Tx()), ack, nak)
      ensures NakState()
           == NakAfterAck(cfg, old(NakState()), old(Tx()), Acked(cfg, old(Tx()), ack))
      ensures done == Outcomes(old(Window())[..Acked(cfg, old(Tx()), ack)], Success)
      ensures expired == Expired(cfg, old(Tx()), ack, nak)
    {
      done, expired := [], None;
      if Dist(cfg.ids, lastQueued, lastAck) < Dist(cfg.ids, ack, lastAck) {
        return;
      }
      done, expired := AcceptAck(Dist(cfg.ids, ack, lastAck), nak);
    }

    /** The ACK is not too far. */
    method AcceptAck(n: nat, nak: bool) returns (done: seq<Outcome>, expired: Option<Packet>)
      requires Valid() && n <= Dist(cfg.ids, lastQueued, lastAck)
      modifies `lastQueued, `lastSent, `lastAck, `ttlCharged, `ttlHold, `nakOut, `nakTracked, queue
      ensures InRing()
      ensures var acked := Acknowledge(cfg, old(Tx()), n);
              && Tx() == (if nak then Protocol.HandleNak(cfg, acked) else acked)
              && expired == if nak && GivesUp(cfg, acked) then Some(acked.window[0].packet) else None
      ensures NakState() == NakAfterAck(cfg, old(NakState()), old(Tx()), n)
      ensures done == Outcomes(old(Window())[..n], Success)
    {
      expired := None;
      done := Confirm(n);
      if nak {
        expired := HandleNak();
      }
    }

    method Confirm(n: nat) returns (done: seq<Outcome>)
      requires Valid() && n <= Dist(cfg.ids, lastQueued, lastAck)
      modifies `lastSent, `lastAck, `ttlCharged, `nakOut, `nakTracked
      ensures InRing() && Tx() == Acknowledge(cfg, old(Tx()), n)
      ensures NakState() == NakAfterAck(cfg, old(NakState()), old(Tx()), n)
      ensures done == Outcomes(old(Window())[..n], Success)
    {
      var sent := Dist(cfg.ids, lastSent, lastAck);
      DistAfter(cfg.ids, lastSent, lastAck, n);
      DistAfter(cfg.ids, lastQueued, lastAck, n);
      done := ConfirmAcked(n);
      if n != 0 {
        ttlCharged := false;
        if sent < n {
          lastSent := lastAck;
        }
      }
    }

    method ConfirmAcked(n: nat) returns (done: seq<Outcome>)
      requires Valid() && n <= Dist(cfg.ids, lastQueued, lastAck)
      modifies `lastAck, `nakOut, `nakTracked
      ensures InRing() && lastAck == Plus(cfg.ids, old(lastAck), n) && Window() == old(Window())[n..]
      ensures NakState() == NakAfterAck(cfg, old(NakState()), old(Tx()), n)
      ensures done == Outcomes(old(Window())[..n], Success)
    {
      done := ConfirmUpTo(n);
    }

    method ConfirmUpTo(n: nat) returns (done: seq<Outcome>)
      requires InRing() && nakTrack < cfg.ids && n <= Dist(cfg.ids, lastQueued, lastAck)
      modifies `lastAck, `nakOut, `nakTracked
      ensures InRing() && lastAck == Plus(cfg.ids, old(lastAck), n) && Window() == old(Window())[n..]
      ensures done == Outcomes(old(Window())[..n], Success)
      ensures var answered := old(nakTracked) && 1 <= Dist(cfg.ids, nakTrack, old(lastAck)) <= n;
              nakOut == (old(nakOut) && !answered) && nakTracked == (old(nakTracked) && !answered)
    {
      done := [];
      ghost var w, ack, total := Window(), lastAck, Dist(cfg.ids, lastQueued, lastAck);
      for k := 0 to n
        invariant InRing() && lastAck == Plus(cfg.ids, ack, k)
        invariant Dist(cfg.ids, lastQueued, lastAck) == total - k && Window() == w[k..]
        invariant done == Outcomes(w[..k], Success)
        invariant var answered := old(nakTracked) && 1 <= Dist(cfg.ids, nakTrack, ack) <= k;
                  nakOut == (old(nakOut) && !answered) && nakTracked == (old(nakTracked) && !answered)
      {
        OutcomesMore(w, k);
        DistIs(cfg.ids, nakTrack, ack, k + 1);
        var o := ConfirmNext();
        done := done + [o];
      }
    }

    method ConfirmNext() returns (o: Outcome)
      requires InRing() && nakTrack < cfg.ids && lastQueued != lastAck
      modifies `lastAck, `nakOut, `nakTracked
      ensures InRing() && lastAck == Succ(cfg.ids, old(lastAck)) && Window() == old(Window())[1..]
      ensures o == Outcome(old(Window())[0].packet, Success)
      ensures var answered := old(nakTracked) && lastAck == nakTrack;
              nakOut == (old(nakOut) && !answered) && nakTracked == (old(nakTracked) && !answered)
    {
      HeldDrop(cfg, queue[..], lastAck, Dist(cfg.ids, lastQueued, lastAck));
      DistAfter(cfg.ids, lastQueued, lastAck, 1);
      lastAck := Succ(cfg.ids, lastAck);
      o := Outcome(queue[SlotOf(cfg, lastAck)].packet, Success);
      if lastAck == nakTrack && nakTracked {
        nakOut, nakTracked := false, false;
      }
    }
  
    method NakAnswered()
      modifies `nakOut, `nakTracked
      ensures !nakOut && !nakTracked
    {
      nakOut, nakTracked := false, false;
    }

    /** rx_gap */
    method Gap(newPass: bool)
      modifies `noNak, `nakOut, `nakTracked
      ensures NakState()
           == Protocol.Gap(old(NakState()), newPass)
    {
      if newPass {
        NakAnswered();
      }
      if !nakOut {
        noNak := false;
      }
    }

    /** The second half of rx_handle_packet: where the frame falls in the sequence. */
    method HandleSequence(tx: nat, ping: bool) returns (next: bool)
      requires ReceiverOk(cfg, Rx()) && tx < cfg.ids
      modifies `noNak, `nakOut, `nakTracked, `lastReceived, `lastSeen
      ensures var rx, place := old(Rx()), PlaceOf(cfg, old(Rx()), tx, ping);
              && next == (place == Expected && !ping)
              && Rx() == ReceiverAfter(cfg, rx, tx, ping)
              && NakState() == NakAfterFrame(old(NakState()), place, ping)
    {
      var expected := Succ(cfg.ids, lastReceived);
      var ahead := Dist(cfg.ids, tx, expected);
      next := false;
      if ping {
        if ahead == 0 || cfg.window < ahead {
          NakAnswered();
        } else {
          Gap(false);
        }
      } else if ahead == 0 {
        lastReceived, noNak, next := tx, true, true;
        NakAnswered();
      } else if ahead < cfg.window {
        var last := Dist(cfg.ids, lastSeen, expected);
        Gap(last < cfg.window && ahead <= last);
      } else {
        NakAnswered();
      }
      lastSeen := if ping then Pred(cfg.ids, tx) else tx;
    }

    /** rx_handle_packet from the point where the link is up. */
    method HandleUp(f: Frame, up: bool) returns (rep: Report)
      requires Valid() && ValidFrame(cfg, f) && !Malformed(cfg, f)
      modifies this, queue
      ensures Valid() && Step(Abs(), rep) == ReceiveUp(cfg, old(Abs()), f, up)
    {
      var hshake := Handshaking(cfg, f);
      if ClosesSession(cfg, f) || (hshake && f.tx != LAST_STEP) {
        rep := OnDisconnect();
        return rep.(up := up, down := true);
      }
      if hshake {
        return QUIET.(up := up);
      }
      rep := Take(f);
      rep := rep.(up := up);
    }

    method Take(f: Frame) returns (rep: Report)
      requires Valid() && ValidFrame(cfg, f)
      modifies `lastQueued, `lastSent, `lastAck, `ttlCharged, `ttlHold, `noNak, `nakOut, `nakTracked
      modifies `lastReceived, `lastSeen, queue
      ensures InRing() && Abs() == Protocol.Take(cfg, old(Abs()), f)
      ensures rep == TakeReport(cfg, old(Abs()), f)
    {
      ghost var n := Abs();
      var done, expired, next := TakeParts(f);
      assert Abs() == n.(tx := Tx(), rx := Rx(), nak := NakState());
      rep := QUIET.(confirmed := done, expired := expired,
                    received := if Unnumbered(f) || next then f.body else None);
    }

    method TakeParts(f: Frame) returns (done: seq<Outcome>, expired: Option<Packet>, next: bool)
      requires Valid() && ValidFrame(cfg, f)
      modifies `lastQueued, `lastSent, `lastAck, `ttlCharged, `ttlHold, `noNak, `nakOut, `nakTracked
      modifies `lastReceived, `lastSeen, queue
      ensures InRing() && Tx() == Protocol.HandleAck(cfg, old(Tx()), f.ack, f.nak)
      ensures var acked, place := Acked(cfg, old(Tx()), f.ack), PlaceOf(cfg, old(Rx()), f.tx, f.ping);
              && next == (place == Expected && !f.ping)
              && Rx() == ReceiverAfter(cfg, old(Rx()), f.tx, f.ping)
              && NakState() == NakAfterFrame(NakAfterAck(cfg, old(NakState()), old(Tx()), acked), place, f.ping)
              && done == Outcomes(old(Window())[..acked], Success)
              && expired == Expired(cfg, old(Tx()), f.ack, f.nak)
    {
      done, expired := HandleAck(f.ack, f.nak);
      next := HandleSequence(f.tx, f.ping);
    }

    /** ludlc_receive */
    method Receive(f: Frame) returns (rep: Report)
      requires Valid() && ValidFrame(cfg, f)
      modifies this, queue
      ensures Valid() && Step(Abs(), rep) == Protocol.Receive(cfg, old(Abs()), f)
    {
      if Malformed(cfg, f) {
        return QUIET;
      }
      if phase == Connected {
        rep := HandleUp(f, false);
        return;
      }
      var g := Greet(phase, Handshaking(cfg, f), f.tx);
      phase := g.phase;
      if g.proceed {
        rep := HandleUp(f, true);
      } else {
        rep := QUIET.(caps := if g.caps then Some(f.body.value.payload) else None, up := g.up);
      }
    }

    /** ludlc_get_packet_to_send */
    method NextFrame() returns (frame: Option<Frame>, last: bool, rep: Report)
      requires Valid()
      modifies this
      ensures Valid() && Turn(Abs(), frame, last, rep) == Protocol.NextFrame(cfg, old(Abs()))
    {
      rep := QUIET;
      var flown := !uDone;
      uDone := true;
      if flown {
        if discAfterTx {
          rep := HandleDisconnect();
          return None, false, rep;
        }
        rep := rep.(urgent := Some(Outcome(urgent, Success)));
      }
      if phase != Connected {
        frame, last := Some(HandshakeFrame(cfg, phase)), true;
      } else {
        var f;
        f, last := ConnectedTurn(flown);
        frame := Some(f);
      }
    }

    method ConnectedTurn(flown: bool) returns (f: Frame, last: bool)
      requires Valid() && phase == Connected && uDone
      modifies `uIdle, `uDone, `lastSent, `ttlCharged, `ttlHold, `noNak, `nakOut, `nakTracked, `nakTrack
      ensures InRing()
      ensures var n := old(Abs()).(slot := old(Abs()).slot.(flying := flown));
              Abs() == ConnectedNode(cfg, n) && f == ConnectedFrame(cfg, n) && last == !MoreWaiting(cfg, n)
    {
      ghost var n := Abs().(slot := Abs().slot.(flying := flown));
      f, last := TurnParts(flown, n);
      assert Abs() == n.(tx := Tx(), nak := NakState(), slot := Abs().slot);
    }

    method TurnParts(flown: bool, ghost n: Node) returns (f: Frame, last: bool)
      requires Valid() && phase == Connected && uDone && n == Abs().(slot := Abs().slot.(flying := flown))
      modifies `uIdle, `uDone, `lastSent, `ttlCharged, `ttlHold, `noNak, `nakOut, `nakTracked, `nakTrack
      ensures InRing() && Tx() == ConnectedNode(cfg, n).tx && NakState() == ConnectedNode(cfg, n).nak
      ensures uIdle && !uDone == (LoadOf(n) == Urgent)
      ensures f == ConnectedFrame(cfg, n) && last == !MoreWaiting(cfg, n)
    {
      var id := Succ(cfg.ids, lastSent);
      var ping := uIdle && lastSent == lastQueued && !flown;
      var body;
      var numbered;
      body, numbered, last := Load(id);
      var nak := AddNak(ping, numbered, id);
      f := Frame(!numbered, id, nak, lastReceived, body);
    }

    method Load(id: nat) returns (body: Option<Packet>, numbered: bool, last: bool)
      requires Valid() && uDone && id == Succ(cfg.ids, lastSent)
      modifies `uIdle, `uDone, `lastSent, `ttlCharged, `ttlHold
      ensures InRing()
      ensures var n := old(Abs());
              && numbered == (LoadOf(n) == Data) && last == !MoreWaiting(cfg, n)
              && Tx() == (if numbered then PacketSent(cfg, n.tx) else n.tx)
              && body == BodyOf(cfg, n)
              && uIdle && uDone == (LoadOf(n) != Urgent)
    {
      body, numbered, last := None, false, true;
      if !uIdle {
        uIdle, uDone := true, false;
        body, last := Some(urgent), lastSent == lastQueued;
      } else if lastSent != lastQueued {
        body := LoadData(id);
        numbered, last := true, id == lastQueued;
      }
    }

    /** The next packet of the window, from its slot. */
    method LoadData(id: nat) returns (body: Option<Packet>)
      requires InRing() && SenderOk(cfg, Tx()) && lastSent != lastQueued && id == Succ(cfg.ids, lastSent)
      modifies `lastSent, `ttlCharged, `ttlHold
      ensures Tx() == PacketSent(cfg, old(Tx()))
      ensures body == Some(old(Window())[Dist(cfg.ids, old(lastSent), lastAck)].packet)
    {
      body := Some(queue[SlotOf(cfg, id)].packet);
      assert queue[SlotOf(cfg, id)] == Window()[Dist(cfg.ids, lastSent, lastAck)];
      SendPacket(id);
    }

    method SendPacket(id: nat)
      requires InRing() && SenderOk(cfg, Tx()) && lastSent != lastQueued && id == Succ(cfg.ids, lastSent)
      modifies `lastSent, `ttlCharged, `ttlHold
      ensures Tx() == PacketSent(cfg, old(Tx()))
    {
      if lastSent == lastAck {
        if ttlHold {
          ttlHold := false;
        } else {
          ttlCharged := false;
        }
      }
      lastSent := id;
    }

    method AddNak(ping: bool, numbered: bool, id: nat) returns (nak: bool)
      modifies `noNak, `nakOut, `nakTracked, `nakTrack
      ensures nak == (old(!noNak) || (ping && old(nakOut)))
      ensures NakState()
           == NakAfterSend(old(NakState()), nak, numbered, id)
    {
      nak := !noNak || (ping && nakOut);
      noNak := true;
      if nak {
        nakOut, nakTracked := true, false;
      }
      if numbered && nakOut && !nakTracked {
        nakTrack, nakTracked := id, true;
      }
    }
  }
}
