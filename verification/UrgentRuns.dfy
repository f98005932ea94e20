/**
 Unnumbered packets on the wire: every one confirmed as sent is the body of the
 frame handed to the transport just before, and a node leaves a session only
 after a frame that says so.
 */
module UrgentRuns {
  import opened Common
  import opened Protocol
  import opened NodeRuns

  /** What tells the peer that this end leaves. */
  function Farewell(c: Config): Packet {
    Packet(c.control, [CTRL_DISCONNECT])
  }

  function Last(trail: seq<Event>): Option<Event> {
    if trail == [] then None else Some(trail[|trail| - 1])
  }

  /** Whether an event may follow another. Success follows a frame with the very
      packet, a caller's packet carried is told of next, and leaving follows the
      farewell. */
  predicate MayFollow(c: Config, before: Option<Event>, e: Event) {
    match e
    case Carried(_) => before.Some? && before.value.Carried? ==> before.value.packet == Farewell(c)
    case Left => before == Some(Carried(Farewell(c)))
    case Told(o) =>
      && (o.result == Success ==> before == Some(Carried(o.packet)) && o.packet != Farewell(c))
      && (before.Some? && before.value.Carried? && before.value.packet != Farewell(c) ==>
            o.packet == before.value.packet && (o.result == Success || o.result == Broken))
  }

  ghost predicate Chained(c: Config, trail: seq<Event>) {
    forall i :: 0 <= i < |trail| ==> MayFollow(c, Last(trail[..i]), trail[i])
  }

  /** The last event, when it is a packet carried, is about the one flying. */
  predicate SlotShown(c: Config, s: Slot, trail: seq<Event>) {
    var last := Last(trail);
    && (s.flying ==> last == Some(Carried(s.packet)))
    && (last.Some? && last.value.Carried? && last.value.packet != Farewell(c) ==> s.flying && !s.disconnect)
    && (s.waiting || s.flying ==> s.disconnect == (s.packet == Farewell(c)))
  }

  /** What the trail says the caller was told. */
  function Tolds(trail: seq<Event>): seq<Outcome> {
    if trail == [] then []
    else
      var last := trail[|trail| - 1];
      Tolds(trail[..|trail| - 1]) + if last.Told? then [last.outcome] else []
  }

  ghost predicate TrailOk(c: Config, l: Log) {
    Tolds(l.trail) == l.urgentOutcomes && Chained(c, l.trail) && SlotShown(c, l.node.slot, l.trail)
  }

  lemma ChainedMore(c: Config, trail: seq<Event>, e: Event)
    requires Chained(c, trail) && MayFollow(c, Last(trail), e)
    ensures Chained(c, trail + [e]) && Last(trail + [e]) == Some(e)
    ensures Tolds(trail + [e]) == Tolds(trail) + if e.Told? then [e.outcome] else []
  {
    var more := trail + [e];
    assert more[..|more| - 1] == trail;
    assert trail[..|trail|] == trail;
    forall i | 0 <= i < |more| ensures MayFollow(c, Last(more[..i]), more[i]) {
      assert more[..i] == trail[..i];
    }
  }

  lemma {:induction false} TrailStep(c: Config, l: Log, call: Call, m: Log)
    requires Sound(c, l) && ValidCall(c, call) && Effect(c, l, call, m) && SlotOk(l.node) && TrailOk(c, l)
    ensures TrailOk(c, m)
  {
    match KindOf(c, l.node, call)
    case Sweeps => SweepTrail(c, l, call, m);
    case Turns => TurnTrail(c, l, m);
    case Leaves => LeaveTrail(c, l, m);
    case _ => QuietTrail(c, l, call, m);
  }

  lemma QuietTrail(c: Config, l: Log, call: Call, m: Log)
    requires Sound(c, l) && ValidCall(c, call) && Effect(c, l, call, m) && SlotOk(l.node) && TrailOk(c, l)
    requires var k := KindOf(c, l.node, call); k != Sweeps && k != Turns && k != Leaves
    ensures TrailOk(c, m)
  {
    assert m.trail == l.trail && m.urgentOutcomes == l.urgentOutcomes;
  }

  lemma SweepTrail(c: Config, l: Log, call: Call, m: Log)
    requires WellFormed(c, l.node) && SlotOk(l.node) && TrailOk(c, l)
    requires call.NextFrame? ==> l.node.slot.flying && l.node.slot.disconnect
    requires m.trail == l.trail + SweepEvents(l.node, call.NextFrame?)
    requires m.urgentOutcomes == l.urgentOutcomes + Ending(l.node)
    requires !m.node.slot.waiting && !m.node.slot.flying
    ensures TrailOk(c, m)
  {
    var s := l.node.slot;
    if UrgentOwed(s) {
      assert SweepEvents(l.node, call.NextFrame?) == [Told(Outcome(s.packet, Broken))];
      ChainedMore(c, l.trail, Told(Outcome(s.packet, Broken)));
    } else if call.NextFrame? {
      assert SweepEvents(l.node, call.NextFrame?) == [Left];
      ChainedMore(c, l.trail, Left);
    } else {
      assert m.trail == l.trail;
    }
  }

  lemma TurnTrail(c: Config, l: Log, m: Log)
    requires WellFormed(c, l.node) && SlotOk(l.node) && TrailOk(c, l)
    requires !(l.node.slot.flying && l.node.slot.disconnect)
    requires m.trail == l.trail + TurnEvents(l.node)
    requires m.urgentOutcomes == l.urgentOutcomes + if l.node.slot.flying
                                                    then [Outcome(l.node.slot.packet, Success)] else []
    requires m.node.slot == l.node.slot.(waiting := false, flying := l.node.slot.waiting)
    ensures TrailOk(c, m)
  {
    var s := l.node.slot;
    if s.flying {
      assert TurnEvents(l.node) == [Told(Outcome(s.packet, Success))];
      ChainedMore(c, l.trail, Told(Outcome(s.packet, Success)));
    } else if s.waiting {
      assert TurnEvents(l.node) == [Carried(s.packet)];
      ChainedMore(c, l.trail, Carried(s.packet));
    } else {
      assert m.trail == l.trail;
    }
  }

  lemma LeaveTrail(c: Config, l: Log, m: Log)
    requires WellFormed(c, l.node) && SlotOk(l.node) && TrailOk(c, l) && !l.node.slot.flying
    requires var o := if l.node.slot.waiting && !l.node.slot.disconnect
                      then [Outcome(l.node.slot.packet, Canceled)] else [];
             m.trail == l.trail + Tellings(o) && m.urgentOutcomes == l.urgentOutcomes + o
    requires m.node.slot == Slot(true, false, true, Farewell(c))
    ensures TrailOk(c, m)
  {
    if l.node.slot.waiting && !l.node.slot.disconnect {
      var o := Outcome(l.node.slot.packet, Canceled);
      assert Tellings([o]) == [Told(o)];
      ChainedMore(c, l.trail, Told(o));
    } else {
      assert m.trail == l.trail;
    }
  }

  /** In every run, the packets confirmed are those the frames carried, each told
      of before anything else is, and no session is left without a farewell. */
  lemma {:induction false} RunsTell(c: Config, logs: seq<Log>, calls: seq<Call>, k: nat)
    requires IsRun(c, logs, calls) && k <= |calls|
    ensures TrailOk(c, logs[k])
  {
    if k != 0 {
      RunsTell(c, logs, calls, k - 1);
      RunsAreGood(c, logs, calls, k - 1);
      assert IsStep(c, logs[k - 1], calls[k - 1], logs[k]);
      AfterEffect(c, logs[k - 1], calls[k - 1]);
      TrailStep(c, logs[k - 1], calls[k - 1], logs[k]);
    }
  }

  /** What is confirmed as sent was the body of a frame, and of the last event. */
  lemma SuccessWasCarried(c: Config, logs: seq<Log>, calls: seq<Call>, k: nat, i: nat)
    requires IsRun(c, logs, calls) && k <= |calls| && i < |logs[k].trail|
    requires logs[k].trail[i].Told? && logs[k].trail[i].outcome.result == Success
    ensures 0 < i && logs[k].trail[i - 1] == Carried(logs[k].trail[i].outcome.packet)
  {
    RunsTell(c, logs, calls, k);
    assert MayFollow(c, Last(logs[k].trail[..i]), logs[k].trail[i]);
  }

  /** A caller's packet in a frame is confirmed before anything else is told or
      carried, or fails with its session. */
  lemma CarriedIsTold(c: Config, logs: seq<Log>, calls: seq<Call>, k: nat, i: nat)
    requires IsRun(c, logs, calls) && k <= |calls| && i + 1 < |logs[k].trail|
    requires logs[k].trail[i].Carried? && logs[k].trail[i].packet.chan != c.control
    ensures var p := logs[k].trail[i].packet;
            logs[k].trail[i + 1] == Told(Outcome(p, Success)) || logs[k].trail[i + 1] == Told(Outcome(p, Broken))
  {
    RunsTell(c, logs, calls, k);
    assert Last(logs[k].trail[..i + 1]) == Some(logs[k].trail[i]);
    assert MayFollow(c, Last(logs[k].trail[..i + 1]), logs[k].trail[i + 1]);
  }

  /** A turn that ends the session follows a frame with the DISCONNECT. */
  lemma LeavingFollowsFarewell(c: Config, logs: seq<Log>, calls: seq<Call>, k: nat, i: nat)
    requires IsRun(c, logs, calls) && k <= |calls| && i < |logs[k].trail| && logs[k].trail[i] == Left
    ensures 0 < i && logs[k].trail[i - 1] == Carried(Packet(c.control, [CTRL_DISCONNECT]))
  {
    RunsTell(c, logs, calls, k);
    assert MayFollow(c, Last(logs[k].trail[..i]), Left);
  }

  /** The next frame of a session carries the packet that waits, whatever else is
      queued, and the turn after it settles the packet. */
  lemma WaitingGoesOut(c: Config, logs: seq<Log>, calls: seq<Call>, k: nat)
    requires IsRun(c, logs, calls) && k <= |calls| && logs[k].node.slot.waiting
    ensures WellFormed(c, logs[k].node)
    ensures var n := logs[k].node;
            var t := Protocol.NextFrame(c, n);
            var u := Protocol.NextFrame(c, t.node);
            && t.frame.Some? && t.frame.value.ping && t.frame.value.body == Some(n.slot.packet)
            && t.report == QUIET
            && if n.slot.packet == Packet(c.control, [CTRL_DISCONNECT])
               then u.frame == None && u.report.down && u.node.phase == Disconnected
               else u.frame.Some? && u.report.urgent == Some(Outcome(n.slot.packet, Success)) && !u.report.down
  {
    RunsTell(c, logs, calls, k);
    RunsAreGood(c, logs, calls, k);
  }
}
