/**
 The handshake gets somewhere: while frames arrive, two ends reach CONNECTED from
 whatever states they are in, each told once what its peer announces and once
 that the link is up.
 */
module Handshake {
  import opened Common
  import opened Protocol

  /** One end and what its application has been told since it was last
      DISCONNECTED: the capabilities announced to it, and how often the link has
      come up. */
  datatype End = End(node: Node, caps: seq<seq<Octet>>, ups: nat)

  datatype Pair = Pair(x: End, y: End)

  /** The ends differ in the capabilities they announce. */
  predicate Peers(cx: Config, cy: Config) {
    ValidConfig(cx) && cy == cx.(caps := cy.caps)
  }

  /** No packet uses the control channel: Enqueue refuses one that would. */
  predicate OffControl(c: Config, w: seq<Item>)
    requires ValidConfig(c)
  {
    forall i :: 0 <= i < |w| ==> !IsControl(c, w[i].packet.chan)
  }

  /** Nothing unnumbered is held, such as a DISCONNECT. */
  predicate Calm(c: Config, n: Node) {
    WellFormed(c, n) && !n.slot.waiting && !n.slot.flying && OffControl(c, n.tx.window)
  }

  /** The peer's capabilities have been announced once by the time its frames can
      bring the link up. */
  predicate Informed(e: End, caps: seq<Octet>) {
    && e.caps == (if e.node.phase == Wait2 || e.node.phase == Connected then [caps] else [])
    && e.ups == if e.node.phase == Connected then 1 else 0
  }

  predicate Ready(cx: Config, cy: Config, p: Pair) {
    && Peers(cx, cy)
    && Calm(cx, p.x.node) && Informed(p.x, cy.caps)
    && Calm(cy, p.y.node) && Informed(p.y, cx.caps)
  }

  // ----- lossless exchanges

  /** An end takes a frame. */
  function Heard(c: Config, e: End, f: Frame): End
    requires WellFormed(c, e.node) && ValidFrame(c, f)
  {
    var s := Receive(c, e.node, f);
    if s.node.phase == Disconnected then End(s.node, [], 0)
    else
      End(s.node,
          e.caps + (if s.report.caps.Some? then [s.report.caps.value] else []),
          e.ups + if s.report.up then 1 else 0)
  }

  /** An end takes the frame of its peer's turn, if there is one. */
  function Hearing(c: Config, e: End, f: Option<Frame>): End
    requires WellFormed(c, e.node) && (f.Some? ==> ValidFrame(c, f.value))
  {
    if f.Some? then Heard(c, e, f.value) else e
  }

  /** An end after a turn of its transmitter. */
  function Spoke(c: Config, e: End): End
    requires WellFormed(c, e.node)
  {
    e.(node := NextFrame(c, e.node).node)
  }

  function Swapped(p: Pair): Pair {
    Pair(p.y, p.x)
  }

  /** x speaks and y hears it, then y speaks and x hears it. */
  function InTurn(cx: Config, cy: Config, p: Pair): Pair
    requires Ready(cx, cy, p)
  {
    HearsPhase(cx, cy, p.x.node, p.y);
    var y := Hearing(cy, p.y, NextFrame(cx, p.x.node).frame);
    HearsPhase(cy, cx, y.node, Spoke(cx, p.x));
    Pair(Hearing(cx, Spoke(cx, p.x), NextFrame(cy, y.node).frame), Spoke(cy, y))
  }

  /** Both speak, then each hears the other. */
  function AtOnce(cx: Config, cy: Config, p: Pair): Pair
    requires Ready(cx, cy, p)
  {
    HearsPhase(cx, cy, p.x.node, Spoke(cy, p.y));
    HearsPhase(cy, cx, p.y.node, Spoke(cx, p.x));
    Pair(Hearing(cx, Spoke(cx, p.x), NextFrame(cy, p.y.node).frame),
         Hearing(cy, Spoke(cy, p.y), NextFrame(cx, p.x.node).frame))
  }

  datatype Round = XFirst | YFirst | Together

  function Exchanged(cx: Config, cy: Config, p: Pair, r: Round): Pair
    requires Ready(cx, cy, p)
  {
    match r
    case XFirst => InTurn(cx, cy, p)
    case YFirst => Swapped(InTurn(cy, cx, Swapped(p)))
    case Together => AtOnce(cx, cy, p)
  }

  /** After one round after another. */
  function After(cx: Config, cy: Config, p: Pair, rounds: seq<Round>): (q: Pair)
    requires Ready(cx, cy, p)
    ensures Ready(cx, cy, q)
    decreases |rounds|
  {
    if rounds == [] then p
    else
      ExchangeKeeps(cx, cy, p, rounds[0]);
      After(cx, cy, Exchanged(cx, cy, p, rounds[0]), rounds[1..])
  }

  // ----- what the states do to each other

  /** The state an end is in after a frame its peer sent in the state heard. */
  function Met(mine: Phase, heard: Phase): Phase {
    match heard
    case Disconnected => if mine == Disconnected || mine == Wait1 then Wait1 else Disconnected
    case Wait1 => if mine == Disconnected then Wait1 else if mine == Connected then Disconnected else Wait2
    case Wait2 => if mine == Disconnected then Disconnected else if mine == Wait1 then Wait2 else Connected
    case Connected => if mine == Wait2 || mine == Connected then Connected else Disconnected
  }

  /** A frame neither dropped nor ending the session. */
  predicate Lasting(c: Config, f: Frame)
    requires ValidConfig(c)
  {
    !Malformed(c, f) && !Handshaking(c, f) && !ClosesSession(c, f)
  }

  /** A calm end always has something to say, and stays as it is saying it. */
  lemma SpeaksOfPhase(c: Config, n: Node)
    requires Calm(c, n)
    ensures var t := NextFrame(c, n);
            && t.frame.Some? && ValidFrame(c, t.frame.value)
            && Calm(c, t.node) && t.node.phase == n.phase
            && (n.phase == Connected ==> Lasting(c, t.frame.value))
            && (n.phase != Connected ==> Handshaking(c, t.frame.value))
  {
  }

  lemma HearsStep(c: Config, e: End, f: Frame, heard: Phase, caps: seq<Octet>)
    requires Calm(c, e.node) && Informed(e, caps) && ValidFrame(c, f) && heard != Connected
    requires Handshaking(c, f) && f.tx == match heard case Disconnected => 0 case Wait1 => 1 case _ => 2
    requires heard != Disconnected ==> f.body.value.payload == caps
    ensures var d := Heard(c, e, f); Calm(c, d.node) && d.node.phase == Met(e.node.phase, heard) && Informed(d, caps)
  {
  }

  lemma HearsSession(c: Config, e: End, f: Frame, caps: seq<Octet>)
    requires Calm(c, e.node) && Informed(e, caps) && ValidFrame(c, f) && Lasting(c, f)
    ensures var d := Heard(c, e, f);
            Calm(c, d.node) && d.node.phase == Met(e.node.phase, Connected) && Informed(d, caps)
  {
    AckOffControl(c, e.node.tx, f.ack, f.nak);
    var n := Take(c, e.node, f);
    assert OffControl(c, n.tx.window);
  }

  lemma AckOffControl(c: Config, t: Sender, ack: nat, nak: bool)
    requires SenderOk(c, t) && ack < c.ids && OffControl(c, t.window)
    ensures OffControl(c, HandleAck(c, t, ack, nak).window)
  {
    if !AckTooFar(c, t, ack) {
      var u := Acknowledge(c, t, Acked(c, t, ack));
      assert OffControl(c, u.window);
    }
  }

  lemma HearsPhase(cx: Config, cy: Config, n: Node, e: End)
    requires Peers(cx, cy) && Calm(cx, n) && Calm(cy, e.node) && Informed(e, cx.caps)
    ensures var f := NextFrame(cx, n).frame;
            && f.Some? && ValidFrame(cy, f.value)
            && Calm(cx, NextFrame(cx, n).node) && NextFrame(cx, n).node.phase == n.phase
            && var d := Heard(cy, e, f.value);
               Calm(cy, d.node) && d.node.phase == Met(e.node.phase, n.phase) && Informed(d, cx.caps)
  {
    SpeaksOfPhase(cx, n);
    var f := NextFrame(cx, n).frame.value;
    if n.phase == Connected {
      HearsSession(cy, e, f, cx.caps);
    } else {
      HearsStep(cy, e, f, n.phase, cx.caps);
    }
  }

  // ----- rounds

  /** The states after a round. */
  function Phases(x: Phase, y: Phase, r: Round): (Phase, Phase) {
    match r
    case XFirst => (Met(x, Met(y, x)), Met(y, x))
    case YFirst => (Met(x, y), Met(y, Met(x, y)))
    case Together => (Met(x, y), Met(y, x))
  }

  lemma ExchangeKeeps(cx: Config, cy: Config, p: Pair, r: Round)
    requires Ready(cx, cy, p)
    ensures var q := Exchanged(cx, cy, p, r);
            Ready(cx, cy, q) && (q.x.node.phase, q.y.node.phase) == Phases(p.x.node.phase, p.y.node.phase, r)
  {
    match r
    case XFirst => InTurnKeeps(cx, cy, p);
    case YFirst => InTurnKeeps(cy, cx, Swapped(p));
    case Together =>
      HearsPhase(cx, cy, p.x.node, Spoke(cy, p.y));
      HearsPhase(cy, cx, p.y.node, Spoke(cx, p.x));
  }

  lemma InTurnKeeps(cx: Config, cy: Config, p: Pair)
    requires Ready(cx, cy, p)
    ensures var q := InTurn(cx, cy, p);
            && Ready(cx, cy, q)
            && q.y.node.phase == Met(p.y.node.phase, p.x.node.phase)
            && q.x.node.phase == Met(p.x.node.phase, q.y.node.phase)
  {
    HearsPhase(cx, cy, p.x.node, p.y);
    var y := Hearing(cy, p.y, NextFrame(cx, p.x.node).frame);
    HearsPhase(cy, cx, y.node, Spoke(cx, p.x));
  }

  /** How many rounds two states can be from CONNECTED. */
  function Rounds(x: Phase, y: Phase): nat {
    if x == y then match x case Disconnected => 3 case Wait1 => 2 case Wait2 => 1 case Connected => 0
    else if x != Disconnected && y != Disconnected then
      if x == Wait1 || y == Wait1 then (if x == Connected || y == Connected then 4 else 2) else 1
    else if x == Wait1 || y == Wait1 then 3
    else 4
  }

  lemma RoundsFall(x: Phase, y: Phase, r: Round)
    ensures var (x', y') := Phases(x, y, r); Rounds(x', y') <= if Rounds(x, y) == 0 then 0 else Rounds(x, y) - 1
  {
  }

  lemma {:induction false} ComesUpIn(cx: Config, cy: Config, p: Pair, rounds: seq<Round>)
    requires Ready(cx, cy, p) && Rounds(p.x.node.phase, p.y.node.phase) <= |rounds|
    ensures var q := After(cx, cy, p, rounds);
            && q.x.node.phase == q.y.node.phase == Connected
            && q.x.caps == [cy.caps] && q.y.caps == [cx.caps]
            && q.x.ups == q.y.ups == 1
    decreases |rounds|
  {
    if rounds != [] {
      ExchangeKeeps(cx, cy, p, rounds[0]);
      RoundsFall(p.x.node.phase, p.y.node.phase, rounds[0]);
      ComesUpIn(cx, cy, Exchanged(cx, cy, p, rounds[0]), rounds[1..]);
    }
  }

  /** Any four rounds of any kinds bring the link up from any states, and it then
      stays up. */
  lemma LinkComesUp(cx: Config, cy: Config, p: Pair, rounds: seq<Round>)
    requires Ready(cx, cy, p) && 4 <= |rounds|
    ensures var q := After(cx, cy, p, rounds);
            && q.x.node.phase == q.y.node.phase == Connected
            && q.x.caps == [cy.caps] && q.y.caps == [cx.caps]
            && q.x.ups == q.y.ups == 1
  {
    ComesUpIn(cx, cy, p, rounds);
  }

  /** Two ends just started, or started over, take three. */
  lemma FreshLinkComesUp(cx: Config, cy: Config, rounds: seq<Round>)
    requires Peers(cx, cy) && 3 <= |rounds|
    ensures var p := Pair(End(InitialNode(cx), [], 0), End(InitialNode(cy), [], 0));
            && Ready(cx, cy, p)
            && var q := After(cx, cy, p, rounds);
               && q.x.node.phase == q.y.node.phase == Connected
               && q.x.caps == [cy.caps] && q.y.caps == [cx.caps]
               && q.x.ups == q.y.ups == 1
  {
    ComesUpIn(cx, cy, Pair(End(InitialNode(cx), [], 0), End(InitialNode(cy), [], 0)), rounds);
  }
}
