/**
 Unnumbered packets over a link that loses frames: none is handed up twice or out
 of order, none is made up, and none is missing for another cause than a frame
 lost or one that found no session.
 */
module Unnumbered {
  import opened Common
  import opened Protocol
  import opened Link

  /** The unnumbered packets in frames in flight. */
  function UnnumberedIn(out: seq<Frame>): seq<Packet> {
    if out == [] then [] else UnnumberedIn(out[..|out| - 1]) + UnnumberedOf(out[|out| - 1])
  }

  /** p is q with some elements left out. */
  ghost predicate Within(p: seq<Packet>, q: seq<Packet>) {
    if p == [] then true
    else if q == [] then false
    else
      var p', q' := p[..|p| - 1], q[..|q| - 1];
      Within(p, q') || (p[|p| - 1] == q[|q| - 1] && Within(p', q'))
  }

  lemma {:induction false} WithinLength(p: seq<Packet>, q: seq<Packet>)
    requires Within(p, q)
    ensures |p| <= |q|
    ensures |p| == |q| ==> p == q
    decreases |q|
  {
    if p != [] {
      var p', q' := p[..|p| - 1], q[..|q| - 1];
      if Within(p, q') {
        WithinLength(p, q');
      } else {
        WithinLength(p', q');
        assert p == p' + [p[|p| - 1]] && q == q' + [q[|q| - 1]];
      }
    }
  }

  lemma WithinMore(p: seq<Packet>, q: seq<Packet>, x: Packet)
    requires Within(p, q)
    ensures Within(p, q + [x]) && Within(p + [x], q + [x])
  {
    assert (q + [x])[..|q|] == q && (p + [x])[..|p|] == p;
  }

  lemma {:induction false} WithinLess(p: seq<Packet>, q: seq<Packet>, k: nat)
    requires Within(p, q) && k < |p|
    ensures Within(Without(p, k), q)
    decreases |q|
  {
    var p', q' := p[..|p| - 1], q[..|q| - 1];
    var less := Without(p, k);
    if Within(p, q') {
      WithinLess(p, q', k);
    } else if k == |p| - 1 {
      assert less == p';
      if p' != [] {
        assert Within(p', q');
      }
    } else {
      WithinLess(p', q', k);
      assert less[..|less| - 1] == Without(p', k);
    }
  }

  lemma {:induction false} InMore(out: seq<Frame>, more: seq<Frame>)
    ensures UnnumberedIn(out + more) == UnnumberedIn(out) + UnnumberedIn(more)
    decreases |more|
  {
    if more == [] {
      assert out + more == out;
    } else {
      var rest := more[..|more| - 1];
      assert (out + more)[..|out + more| - 1] == out + rest;
      InMore(out, rest);
    }
  }

  lemma InOne(f: Frame)
    ensures UnnumberedIn([f]) == UnnumberedOf(f)
  {
    assert [f][..0] == [];
  }

  /** A frame gone takes its packet along, or none. */
  lemma InWithout(out: seq<Frame>, k: nat)
    requires k < |out|
    ensures UnnumberedIn(out) == UnnumberedIn(out[..k]) + UnnumberedOf(out[k]) + UnnumberedIn(out[k + 1..])
    ensures UnnumberedIn(Without(out, k)) == UnnumberedIn(out[..k]) + UnnumberedIn(out[k + 1..])
  {
    Split(out, k);
    InThree(out[..k], out[k], out[k + 1..]);
    InMore(out[..k], out[k + 1..]);
  }

  lemma InHead(out: seq<Frame>)
    requires out != []
    ensures UnnumberedIn(out) == UnnumberedOf(out[0]) + UnnumberedIn(Without(out, 0))
  {
    InWithout(out, 0);
    assert out[..0] == [] && [] + UnnumberedOf(out[0]) == UnnumberedOf(out[0]);
    assert [] + UnnumberedIn(out[1..]) == UnnumberedIn(out[1..]);
  }

  lemma Regroup(x: seq<Packet>, y: seq<Packet>, z: seq<Packet>)
    ensures x + (y + z) == (x + y) + z
  {
  }

  lemma Split<T>(q: seq<T>, k: nat)
    requires k < |q|
    ensures q == q[..k] + [q[k]] + q[k + 1..]
  {
  }

  lemma InThree(front: seq<Frame>, f: Frame, back: seq<Frame>)
    ensures UnnumberedIn(front + [f] + back) == UnnumberedIn(front) + UnnumberedOf(f) + UnnumberedIn(back)
  {
    InMore(front + [f], back);
    InMore(front, [f]);
    InOne(f);
  }

  // ----- one step

  /** What is handed up for a frame: the packet of an unnumbered one, whole, if it
      finds a session, and nothing for any other that is not numbered. */
  lemma HandedUp(c: Config, r: Side, f: Frame)
    requires ValidSide(c, r) && ValidFrame(c, f) && !Receive(c, r.node, f).report.down
    requires f.ping && f.body.Some? && f.body.value.payload != []
    requires f.body.value.chan == c.control || !IsControl(c, f.body.value.chan)
    ensures Delivered(c, r, f).handed ==
            r.handed + if r.node.phase == Connected || r.node.phase == Wait2 then [f.body.value] else []
    ensures Delivered(c, r, f).delivered == r.delivered
  {
  }

  /** A frame a node sends is numbered, or has no body, or one that is handed up. */
  predicate Whole(c: Config, f: Frame)
    requires ValidConfig(c)
  {
    f.ping && f.body.Some? ==>
      f.body.value.payload != [] && (f.body.value.chan == c.control || !IsControl(c, f.body.value.chan))
  }

  /** Whether a step loses an unnumbered packet of the direction from s to r: a
      frame is lost, or finds r out of session. */
  predicate Loses(c: Config, s: Side, r: Side, act: Act) {
    match act
    case Lose(i) => i < |s.out| && UnnumberedOf(s.out[i]) != []
    case Deliver => s.out != [] && UnnumberedOf(s.out[0]) != [] && r.node.phase != Connected && r.node.phase != Wait2
    case _ => false
  }

  /** The unnumbered packets of the direction that steps up to the k-th have lost. */
  function Lost(c: Config, tr: seq<Sys>, mv: seq<Move>, k: nat, fromX: bool): nat
    requires k <= |mv| < |tr|
  {
    if k == 0 then 0
    else
      var s, m := tr[k - 1], mv[k - 1];
      Lost(c, tr, mv, k - 1, fromX) +
      if m.byX != fromX && Loses(c, Near(s, fromX), Far(s, fromX), m.act) then 1 else 0
  }

  /** Packets handed up and those still in flight are those put on the wire, in
      order, lost ones left out. */
  ghost predicate Passed(c: Config, s: Side, r: Side, lost: nat) {
    && ValidSide(c, s) && ValidSide(c, r)
    && (forall i :: 0 <= i < |s.out| ==> Whole(c, s.out[i]))
    && Within(r.handed + UnnumberedIn(s.out), s.posted)
    && |s.posted| == |r.handed| + |UnnumberedIn(s.out)| + lost
  }

  /** The slot holds what a frame may carry. */
  predicate SlotWhole(c: Config, n: Node)
    requires ValidConfig(c)
  {
    n.slot.waiting ==>
      n.slot.packet.payload != [] && (n.slot.packet.chan == c.control || !IsControl(c, n.slot.packet.chan))
  }

  // ----- steps of the sender

  lemma SlotStays(c: Config, n: Node, f: Frame)
    requires WellFormed(c, n) && ValidFrame(c, f) && !Receive(c, n, f).report.down
    ensures Receive(c, n, f).node.slot == n.slot
  {
    if Takes(c, n, f) {
      ReceiveTakes(c, n, f);
    } else {
      ReceiveSkips(c, n, f);
    }
  }

  lemma TurnWhole(c: Config, n: Node)
    requires WellFormed(c, n) && SlotWhole(c, n) && !NextFrame(c, n).report.down
    ensures var t := NextFrame(c, n);
            SlotWhole(c, t.node) && (t.frame.Some? ==> Whole(c, t.frame.value))
  {
  }

  lemma SenderSlot(c: Config, act: Act, s: Side, r: Side)
    requires ValidSide(c, s) && ValidSide(c, r) && Enabled(act, r) && !Ends(c, act, s, r)
    requires SlotWhole(c, s.node)
    ensures SlotWhole(c, Acting(c, act, s, r).node)
  {
    match act
    case Deliver => SlotStays(c, s.node, r.out[0]);
    case Transmit => TurnWhole(c, s.node);
    case _ =>
  }

  lemma TransmitPasses(c: Config, s: Side, r: Side, lost: nat)
    requires Passed(c, s, r, lost) && SlotWhole(c, s.node) && !NextFrame(c, s.node).report.down
    ensures Passed(c, Transmitted(c, s), r, lost)
  {
    TurnWhole(c, s.node);
    var f := NextFrame(c, s.node).frame;
    if f.Some? {
      SentPasses(c, s, r, lost, f.value, Transmitted(c, s));
    } else {
      assert Transmitted(c, s).out == s.out && Transmitted(c, s).posted == s.posted;
    }
  }

  lemma SentPasses(c: Config, s: Side, r: Side, lost: nat, f: Frame, t: Side)
    requires Passed(c, s, r, lost) && ValidSide(c, t) && Whole(c, f)
    requires t.out == s.out + [f] && t.posted == s.posted + UnnumberedOf(f) && t.handed == s.handed
    ensures Passed(c, t, r, lost)
  {
    InMore(s.out, [f]);
    InOne(f);
    SentOrder(r.handed, UnnumberedIn(s.out), UnnumberedOf(f), s.posted);
  }

  lemma SentOrder(handed: seq<Packet>, flying: seq<Packet>, sent: seq<Packet>, posted: seq<Packet>)
    requires |sent| <= 1 && Within(handed + flying, posted)
    ensures Within(handed + (flying + sent), posted + sent)
  {
    Regroup(handed, flying, sent);
    if sent == [] {
      assert posted + sent == posted && (handed + flying) + sent == handed + flying;
    } else {
      assert sent == [sent[0]];
      WithinMore(handed + flying, posted, sent[0]);
    }
  }

  lemma SenderPasses(c: Config, act: Act, s: Side, r: Side, lost: nat)
    requires Passed(c, s, r, lost) && SlotWhole(c, s.node) && Enabled(act, r) && !Ends(c, act, s, r)
    ensures Passed(c, Acting(c, act, s, r), Passive(act, r), lost)
  {
    StepValid(c, act, s, r);
    if act.Transmit? {
      TransmitPasses(c, s, r, lost);
    }
  }

  // ----- steps of the receiver

  lemma LostPasses(c: Config, s: Side, r: Side, k: nat, lost: nat, q: Side)
    requires Passed(c, s, r, lost) && k < |s.out| && ValidSide(c, q) && q.handed == r.handed
    ensures Passed(c, s.(out := Without(s.out, k)), q, lost + |UnnumberedOf(s.out[k])|)
  {
    InWithout(s.out, k);
    LostOrder(r.handed, UnnumberedIn(s.out[..k]), UnnumberedOf(s.out[k]), UnnumberedIn(s.out[k + 1..]), s.posted);
  }

  lemma LostOrder(handed: seq<Packet>, front: seq<Packet>, gone: seq<Packet>, back: seq<Packet>, posted: seq<Packet>)
    requires |gone| <= 1 && Within(handed + (front + gone + back), posted)
    ensures Within(handed + (front + back), posted)
  {
    var p := handed + (front + gone + back);
    if gone != [] {
      WithinLess(p, posted, |handed| + |front|);
      assert Without(p, |handed| + |front|) == handed + (front + back);
    } else {
      assert front + gone == front;
    }
  }

  lemma TakenPasses(c: Config, s: Side, r: Side, lost: nat, q: Side)
    requires Passed(c, s, r, lost) && s.out != [] && ValidSide(c, q)
    requires q.handed == r.handed + UnnumberedOf(s.out[0])
    ensures Passed(c, s.(out := Without(s.out, 0)), q, lost)
  {
    InHead(s.out);
    Regroup(r.handed, UnnumberedOf(s.out[0]), UnnumberedIn(Without(s.out, 0)));
  }

  lemma DeliverHands(c: Config, r: Side, f: Frame)
    requires ValidSide(c, r) && ValidFrame(c, f) && Whole(c, f) && !Receive(c, r.node, f).report.down
    ensures Delivered(c, r, f).handed ==
            r.handed + if r.node.phase == Connected || r.node.phase == Wait2 then UnnumberedOf(f) else []
  {
    if UnnumberedOf(f) != [] {
      HandedUp(c, r, f);
    }
  }

  lemma ReceiverPasses(c: Config, act: Act, s: Side, r: Side, lost: nat)
    requires Passed(c, s, r, lost) && Enabled(act, s) && !Ends(c, act, r, s)
    ensures Passed(c, Passive(act, s), Acting(c, act, r, s), lost + if Loses(c, s, r, act) then 1 else 0)
  {
    StepValid(c, act, r, s);
    match act
    case Lose(i) => LostPasses(c, s, r, i, lost, r);
    case Deliver =>
      var q := Delivered(c, r, s.out[0]);
      DeliverHands(c, r, s.out[0]);
      if r.node.phase == Connected || r.node.phase == Wait2 {
        TakenPasses(c, s, r, lost, q);
      } else {
        LostPasses(c, s, r, 0, lost, q);
      }
    case _ =>
  }

  // ----- what is lost

  /** The packets handed up, then those in flight. */
  function Flow(s: Side, r: Side): seq<Packet> {
    r.handed + UnnumberedIn(s.out)
  }

  /** The frame a step of the receiver takes out of the channel. */
  function Gone(act: Act): nat {
    if act.Lose? then act.at else 0
  }

  /** A step of the sender adds what it puts on the wire. */
  lemma SenderFlows(c: Config, act: Act, s: Side, r: Side)
    requires ValidSide(c, s) && ValidSide(c, r) && Enabled(act, r) && !Ends(c, act, s, r)
    ensures var t := Acting(c, act, s, r);
            s.posted <= t.posted && Flow(t, Passive(act, r)) == Flow(s, r) + t.posted[|s.posted|..]
  {
    if act.Transmit? && NextFrame(c, s.node).frame.Some? {
      var f := NextFrame(c, s.node).frame.value;
      InMore(s.out, [f]);
      InOne(f);
      Regroup(r.handed, UnnumberedIn(s.out), UnnumberedOf(f));
      assert Transmitted(c, s).posted[|s.posted|..] == UnnumberedOf(f);
    } else if act.Transmit? {
      assert Transmitted(c, s).out == s.out && Transmitted(c, s).posted == s.posted;
    }
  }

  /** One of the receiver leaves out the very packet of the frame it loses, or
      nothing. */
  ghost predicate Leaves(c: Config, act: Act, s: Side, r: Side, t: Side, q: Side) {
    if Loses(c, s, r, act) then
      && Gone(act) < |s.out|
      && var front, back := UnnumberedIn(s.out[..Gone(act)]), UnnumberedIn(s.out[Gone(act) + 1..]);
         && Flow(s, r) == r.handed + (front + UnnumberedOf(s.out[Gone(act)]) + back)
         && Flow(t, q) == r.handed + (front + back)
    else Flow(t, q) == Flow(s, r)
  }

  lemma ReceiverFlows(c: Config, act: Act, s: Side, r: Side)
    requires ValidSide(c, s) && ValidSide(c, r) && Enabled(act, s) && !Ends(c, act, r, s)
    requires forall i :: 0 <= i < |s.out| ==> Whole(c, s.out[i])
    ensures Leaves(c, act, s, r, Passive(act, s), Acting(c, act, r, s))
  {
    match act
    case Lose(i) => GoneFlows(s, r, i);
    case Deliver =>
      DeliverHands(c, r, s.out[0]);
      DeliverFlows(c, s, r, Delivered(c, r, s.out[0]));
    case _ =>
  }

  lemma DeliverFlows(c: Config, s: Side, r: Side, q: Side)
    requires s.out != []
    requires q.handed == r.handed + if r.node.phase == Connected || r.node.phase == Wait2
                                    then UnnumberedOf(s.out[0]) else []
    ensures Leaves(c, Deliver, s, r, Passive(Deliver, s), q)
  {
    if r.node.phase == Connected || r.node.phase == Wait2 {
      TakenFlows(s, r, q);
    } else {
      assert q.handed == r.handed;
      GoneFlows(s, r, 0);
    }
  }

  lemma TakenFlows(s: Side, r: Side, q: Side)
    requires s.out != [] && q.handed == r.handed + UnnumberedOf(s.out[0])
    ensures Flow(Passive(Deliver, s), q) == Flow(s, r)
  {
    InHead(s.out);
    Regroup(r.handed, UnnumberedOf(s.out[0]), UnnumberedIn(Without(s.out, 0)));
  }

  /** The flow around the frame at i. */
  lemma GoneFlows(s: Side, r: Side, i: nat)
    requires i < |s.out|
    ensures var front, gone, back := UnnumberedIn(s.out[..i]), UnnumberedOf(s.out[i]), UnnumberedIn(s.out[i + 1..]);
            && Flow(s, r) == r.handed + (front + gone + back)
            && r.handed + UnnumberedIn(Without(s.out, i)) == r.handed + (front + back)
            && (gone == [] ==> front + gone + back == front + back)
  {
    InWithout(s.out, i);
  }

  // ----- every run

  lemma StepPasses(c: Config, s: Sys, m: Move, t: Sys, fromX: bool, lost: nat)
    requires Next(c, s, m, t) && Passed(c, Near(s, fromX), Far(s, fromX), lost) && SlotWhole(c, Near(s, fromX).node)
    ensures SlotWhole(c, Near(t, fromX).node)
    ensures Passed(c, Near(t, fromX), Far(t, fromX),
                   lost + if m.byX != fromX && Loses(c, Near(s, fromX), Far(s, fromX), m.act) then 1 else 0)
  {
    if m.byX == fromX {
      SenderSlot(c, m.act, Near(s, fromX), Far(s, fromX));
      SenderPasses(c, m.act, Near(s, fromX), Far(s, fromX), lost);
    } else {
      ReceiverPasses(c, m.act, Near(s, fromX), Far(s, fromX), lost);
    }
  }

  lemma HandshakesWhole(c: Config, out: seq<Frame>)
    requires ValidConfig(c) && forall i :: 0 <= i < |out| ==> Handshaking(c, out[i])
    ensures UnnumberedIn(out) == [] && forall i :: 0 <= i < |out| ==> Whole(c, out[i])
  {
    if out != [] {
      HandshakesWhole(c, out[..|out| - 1]);
    }
  }

  ghost predicate PassedBy(c: Config, tr: seq<Sys>, mv: seq<Move>, k: nat, fromX: bool)
    requires k <= |mv| < |tr|
  {
    && ValidConfig(c) && SlotWhole(c, Near(tr[k], fromX).node)
    && Passed(c, Near(tr[k], fromX), Far(tr[k], fromX), Lost(c, tr, mv, k, fromX))
  }

  lemma MovePasses(c: Config, tr: seq<Sys>, mv: seq<Move>, k: nat, fromX: bool)
    requires 0 < k <= |mv| < |tr| && Next(c, tr[k - 1], mv[k - 1], tr[k]) && PassedBy(c, tr, mv, k - 1, fromX)
    ensures PassedBy(c, tr, mv, k, fromX)
  {
    StepPasses(c, tr[k - 1], mv[k - 1], tr[k], fromX, Lost(c, tr, mv, k - 1, fromX));
  }

  lemma FreshPasses(c: Config, s: Side, r: Side)
    requires FreshSide(c, s) && FreshSide(c, r)
    ensures SlotWhole(c, s.node) && Passed(c, s, r, 0)
  {
    HandshakesWhole(c, s.out);
  }

  lemma {:induction false} RunPasses(c: Config, tr: seq<Sys>, mv: seq<Move>, k: nat, fromX: bool)
    requires IsRun(c, tr, mv) && k <= |mv|
    ensures PassedBy(c, tr, mv, k, fromX)
  {
    if k == 0 {
      FreshPasses(c, Near(tr[0], fromX), Far(tr[0], fromX));
    } else {
      RunPasses(c, tr, mv, k - 1, fromX);
      assert Next(c, tr[k - 1], mv[k - 1], tr[k]);
      MovePasses(c, tr, mv, k, fromX);
    }
  }

  /** In every run, what one side was handed, and after it what is in flight to it,
      are the packets the other put on the wire, in order and each at most once,
      less as many as the steps lost. */
  lemma HandedInOrder(c: Config, tr: seq<Sys>, mv: seq<Move>, k: nat, fromX: bool)
    requires IsRun(c, tr, mv) && k <= |mv|
    ensures var s, r := Near(tr[k], fromX), Far(tr[k], fromX);
            && Within(r.handed + UnnumberedIn(s.out), s.posted)
            && |s.posted| == |r.handed| + |UnnumberedIn(s.out)| + Lost(c, tr, mv, k, fromX)
            && (Lost(c, tr, mv, k, fromX) == 0 ==> r.handed + UnnumberedIn(s.out) == s.posted)
  {
    RunPasses(c, tr, mv, k, fromX);
    var s, r := Near(tr[k], fromX), Far(tr[k], fromX);
    WithinLength(r.handed + UnnumberedIn(s.out), s.posted);
  }

  /** And in every run each step adds exactly what it puts on the wire, or leaves out
      exactly the packet of the frame it loses. */
  lemma RunFlows(c: Config, tr: seq<Sys>, mv: seq<Move>, k: nat, fromX: bool)
    requires IsRun(c, tr, mv) && k < |mv|
    ensures var s, r, t, q := Near(tr[k], fromX), Far(tr[k], fromX), Near(tr[k + 1], fromX), Far(tr[k + 1], fromX);
            if mv[k].byX == fromX then s.posted <= t.posted && Flow(t, q) == Flow(s, r) + t.posted[|s.posted|..]
            else Leaves(c, mv[k].act, s, r, t, q)
  {
    RunPasses(c, tr, mv, k, fromX);
    assert Next(c, tr[k], mv[k], tr[k + 1]);
    if mv[k].byX == fromX {
      SenderFlows(c, mv[k].act, Near(tr[k], fromX), Far(tr[k], fromX));
    } else {
      ReceiverFlows(c, mv[k].act, Near(tr[k], fromX), Far(tr[k], fromX));
    }
  }
}
