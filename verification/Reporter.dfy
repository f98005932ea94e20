/**
 The deferred reporter of a build with several threads: confirmations are decided
 under the connection lock and run outside it, by whichever thread finds the busy
 bit clear. A packet given up is confirmed by the thread that received the NAK, once
 it is done with the reporter, and an unnumbered packet that was sent by the thread
 that asks for the next frame. A step here is one critical section, one atomic bit
 operation or one callback, and any number of threads interleave.
 */
module Reporter {
  import opened SeqNum
  import opened Common
  import opened Protocol
  import opened Ring

  /** What the lock protects, and the busy bit, which it does not. A slot holds the
      packet and the result its confirmation will report; `unnumbered` is the
      confirmation of the unnumbered packet, saved outside the window. */
  datatype Shared = Shared(
    slots: seq<Outcome>, lastQueued: nat, lastAck: nat, lastReported: nat,
    busOut: bool, slot: Slot, unnumbered: Option<Outcome>, busy: bool)

  /** A callback a thread makes itself: for the numbered packet it gave up, or the
      unnumbered one it saw sent. The index is the place of the decision. */
  datatype Notice = Notice(numbered: bool, thread: nat, index: nat, outcome: Outcome)

  /** Where a thread is: outside, about to test the busy bit, about to take the lock
      as the reporter, running the callbacks it copied, or about to make a callback
      of its own, sure or not that all decided before it were made. */
  datatype Spot = Idle | Wants | Holds | Calls(first: Option<Outcome>, batch: seq<Outcome>) | Tells(sure: bool)

  datatype Thread = Thread(at: Spot, owes: Option<Notice>)

  /** An unnumbered packet, and whether a DISCONNECT was marked when it was accepted. */
  datatype Posted = Posted(packet: Packet, marked: bool)

  /** What was accepted and what was decided, in order, kept apart from the slots. */
  datatype Ledger = Ledger(
    accepted: seq<Packet>, decisions: seq<Outcome>, urgents: seq<Posted>, uDecisions: seq<Outcome>)

  /** A callback made, and how many confirmations the reporter had made by then. */
  datatype Told = Told(notice: Notice, sure: bool, reported: nat)

  /** The callbacks made: by the reporter for numbered packets and for unnumbered
      ones, and by threads themselves. */
  datatype Log = Log(reported: seq<Outcome>, unnumbered: seq<Outcome>, told: seq<Told>)

  /** `holder` is the thread that last set the busy bit. */
  datatype Sys = Sys(sh: Shared, threads: seq<Thread>, holder: nat, ledger: Ledger, log: Log)

  predicate SharedOk(c: Config, s: Shared) {
    && ValidConfig(c)
    && |s.slots| == c.window
    && s.lastQueued < c.ids && s.lastAck < c.ids && s.lastReported < c.ids
    && Dist(c.ids, s.lastQueued, s.lastReported) <= c.window
    && Dist(c.ids, s.lastAck, s.lastReported) <= Dist(c.ids, s.lastQueued, s.lastReported)
  }

  /** How many packets are resolved and still in their slots. */
  function PendingCount(c: Config, s: Shared): (n: nat)
    requires SharedOk(c, s)
  {
    Dist(c.ids, s.lastAck, s.lastReported)
  }

  function Unresolved(c: Config, s: Shared): (n: nat)
    requires SharedOk(c, s)
    ensures n == Dist(c.ids, s.lastQueued, s.lastReported) - PendingCount(c, s)
  {
    Dist(c.ids, s.lastQueued, s.lastAck)
  }

  /** Every slot in use, in sequence order: the pending ones, then the unresolved. */
  ghost function InUse(c: Config, s: Shared): (w: seq<Outcome>)
    requires SharedOk(c, s)
    ensures |w| == PendingCount(c, s) + Unresolved(c, s)
  {
    Held(c, s.slots, s.lastReported, Dist(c.ids, s.lastQueued, s.lastReported))
  }

  // ----- critical sections

  predicate Closed(c: Config, s: Shared)
    requires SharedOk(c, s)
  {
    s.busOut || c.window <= Dist(c.ids, s.lastQueued, s.lastReported)
  }

  /** The result a slot is given here is of no account: it is written when the
      packet is resolved. */
  function EnqueueSection(c: Config, s: Shared, p: Packet): (r: Shared)
    requires SharedOk(c, s)
    ensures SharedOk(c, r)
  {
    if Closed(c, s) then s
    else
      var id := Succ(c.ids, s.lastQueued);
      s.(slots := s.slots[SlotOf(c, id) := s.slots[SlotOf(c, id)].(packet := p)], lastQueued := id)
  }

  /** Resolves the next k packets with r, each in its slot. */
  function Resolve(c: Config, s: Shared, k: nat, r: Result): (t: Shared)
    requires SharedOk(c, s) && k <= Unresolved(c, s)
    ensures SharedOk(c, t) && Unresolved(c, t) == Unresolved(c, s) - k
    ensures t == s.(slots := t.slots, lastAck := t.lastAck)
    decreases k
  {
    if k == 0 then s
    else
      var id := Succ(c.ids, s.lastAck);
      Resolve(c, s.(slots := s.slots[SlotOf(c, id) := s.slots[SlotOf(c, id)].(result := r)], lastAck := id), k - 1, r)
  }

  /** Moves up the n packets behind id, each to the slot before its own. */
  function MoveUp(c: Config, slots: seq<Outcome>, id: nat, n: nat): (r: seq<Outcome>)
    requires ValidConfig(c) && |slots| == c.window && id < c.ids
    ensures |r| == |slots|
    decreases n
  {
    if n == 0 then slots
    else
      var next := Succ(c.ids, id);
      MoveUp(c, slots[SlotOf(c, id) := slots[SlotOf(c, next)]], next, n - 1)
  }

  /** A NAK gives the first unresolved packet up; its caller is told by the thread
      that received the NAK. */
  function GiveUp(c: Config, s: Shared): (r: Shared)
    requires SharedOk(c, s) && 0 < Unresolved(c, s)
    ensures SharedOk(c, r)
  {
    s.(slots := MoveUp(c, s.slots, Succ(c.ids, s.lastAck), Unresolved(c, s) - 1),
       lastQueued := Pred(c.ids, s.lastQueued))
  }

  function ResetIfDrained(s: Shared): Shared {
    if s.busOut && s.lastReported == s.lastAck && s.unnumbered == None
    then s.(lastQueued := 0, lastAck := 0, lastReported := 0, busOut := false)
    else s
  }

  /** The confirmation a sweep owes the caller of an unnumbered packet. */
  function SweptUnnumbered(s: Shared): Option<Outcome> {
    if (s.slot.waiting || s.slot.flying) && !s.slot.disconnect then Some(Outcome(s.slot.packet, Broken)) else None
  }

  function SweepSection(c: Config, s: Shared): (r: Shared)
    requires SharedOk(c, s)
  {
    var u := SweptUnnumbered(s);
    ResetIfDrained(Resolve(c, s, Unresolved(c, s), Broken)
                   .(busOut := true, slot := s.slot.(waiting := false, flying := false, disconnect := false),
                     unnumbered := if u.Some? then u else s.unnumbered))
  }

  function ReplacedUnnumbered(s: Shared): Option<Outcome> {
    if s.slot.waiting && !s.slot.disconnect then Some(Outcome(s.slot.packet, Canceled)) else None
  }

  function DisconnectSection(c: Config, s: Shared): Shared {
    var u := ReplacedUnnumbered(s);
    s.(slot := s.slot.(packet := Packet(c.control, [CTRL_DISCONNECT]), waiting := true, disconnect := true),
       unnumbered := if u.Some? then u else s.unnumbered)
  }

  function UrgentSection(s: Shared, p: Packet): Shared {
    if s.slot.waiting || s.slot.flying then s else s.(slot := s.slot.(packet := p, waiting := true))
  }

  /** The transmitter asks for a frame: the unnumbered packet in the last one is
      done with, and one waiting goes out unless that was a DISCONNECT. */
  function TransmitSection(s: Shared): Shared {
    if s.slot.flying && s.slot.disconnect then s.(slot := s.slot.(flying := false))
    else s.(slot := s.slot.(flying := s.slot.waiting, waiting := false))
  }

  /** One pass of the reporter copies this many slots. */
  function BatchSize(c: Config, batch: nat, s: Shared): (n: nat)
    requires SharedOk(c, s)
    ensures n <= PendingCount(c, s) && n <= batch
    ensures n == PendingCount(c, s) || n == batch
  {
    if PendingCount(c, s) <= batch then PendingCount(c, s) else batch
  }

  /** The state with the next n slots copied. */
  function Past(c: Config, s: Shared, n: nat): (t: Shared)
    requires SharedOk(c, s) && n <= PendingCount(c, s)
    ensures SharedOk(c, t) && PendingCount(c, t) == PendingCount(c, s) - n && Unresolved(c, t) == Unresolved(c, s)
  {
    s.(lastReported := Plus(c.ids, s.lastReported, n))
  }

  /** The copying loop of a pass, run until n slots are copied. */
  function CopySlots(c: Config, s: Shared, n: nat): (r: seq<Outcome>)
    requires SharedOk(c, s) && n <= PendingCount(c, s)
    ensures |r| == n
    decreases n
  {
    if n == 0 then []
    else [s.slots[SlotOf(c, Succ(c.ids, s.lastReported))]] + CopySlots(c, Past(c, s, 1), n - 1)
  }

  function NothingToCopy(c: Config, s: Shared): bool
    requires SharedOk(c, s)
  {
    PendingCount(c, s) == 0 && s.unnumbered == None
  }

  function CopySection(c: Config, batch: nat, s: Shared): (r: Shared)
    requires SharedOk(c, s)
  {
    ResetIfDrained(Past(c, s, BatchSize(c, batch, s)).(unnumbered := None))
    .(busy := s.busy && !NothingToCopy(c, s))
  }

  // ----- the ledger

  /** The outcomes that are not this one. */
  function Except(o: seq<Outcome>, r: Result): seq<Outcome> {
    if o == [] then []
    else
      var last := o[|o| - 1];
      Except(o[..|o| - 1], r) + if last.result == r then [] else [last]
  }

  /** The numbered packets the reporter confirms: all but those given up. */
  function Through(l: Ledger): seq<Outcome> {
    Except(l.decisions, TimedOut)
  }

  /** The unnumbered ones: all but those sent. */
  function Saved(l: Ledger): seq<Outcome> {
    Except(l.uDecisions, Success)
  }

  function Decide(p: seq<Packet>, r: Result): (o: seq<Outcome>)
    ensures |o| == |p|
    ensures forall i :: 0 <= i < |p| ==> o[i] == Outcome(p[i], r)
  {
    seq(|p|, i requires 0 <= i < |p| => Outcome(p[i], r))
  }

  /** Accepted packets not yet decided on. */
  function Todo(l: Ledger): seq<Packet>
    requires |l.decisions| <= |l.accepted|
  {
    l.accepted[|l.decisions|..]
  }

  function Settle(l: Ledger, k: nat, r: Result): Ledger
    requires |l.decisions| + k <= |l.accepted|
  {
    l.(decisions := l.decisions + Decide(Todo(l)[..k], r))
  }

  function DecideOne(o: seq<Outcome>, u: Option<Outcome>): seq<Outcome> {
    if u.Some? then o + [u.value] else o
  }

  /** How many confirmations of the reporter come before the decision of a notice. */
  function Before(l: Ledger, n: Notice): nat {
    if n.numbered && n.index <= |l.decisions| then |Except(l.decisions[..n.index], TimedOut)| else 0
  }

  /** Whether they have all been made. */
  predicate Settled(l: Ledger, reported: nat, n: Notice) {
    Before(l, n) <= reported
  }

  // ----- steps

  /** Calls of the program that end in a run of the reporter go through Wants. The
      last four kinds of step are a thread's own. */
  datatype Act =
    | Enqueue(p: Packet) | SendUrgent(p: Packet) | Transmit(t: nat)
    | Ack(t: nat, k: nat, giveUp: bool) | Sweep(t: nat) | SendDisconnect(t: nat)
    | Test(t: nat) | Copy(t: nat) | Callback(t: nat) | Tell(t: nat)

  predicate IdleAt(s: Sys, t: nat) {
    t < |s.threads| && s.threads[t].at.Idle?
  }

  /** When a step may happen. No frame is sent or taken, and no unnumbered packet
      accepted, while a sweep is still being reported. */
  predicate Enabled(c: Config, s: Sys, a: Act)
    requires SharedOk(c, s.sh)
  {
    match a
    case Enqueue(p) => true
    case SendUrgent(p) => !s.sh.busOut
    case Transmit(t) => !s.sh.busOut && IdleAt(s, t)
    case Ack(t, k, giveUp) =>
      !s.sh.busOut && IdleAt(s, t) && k + (if giveUp then 1 else 0) <= Unresolved(c, s.sh)
    case Sweep(t) => IdleAt(s, t)
    case SendDisconnect(t) => !s.sh.busOut && IdleAt(s, t) && !s.sh.slot.flying
    case Test(t) => t < |s.threads| && s.threads[t].at.Wants?
    case Copy(t) => t < |s.threads| && s.threads[t].at.Holds?
    case Callback(t) => t < |s.threads| && s.threads[t].at.Calls?
    case Tell(t) => t < |s.threads| && s.threads[t].at.Tells? && s.threads[t].owes.Some?
  }

  function Move(s: Sys, t: nat, at: Spot): Sys
    requires t < |s.threads|
  {
    s.(threads := s.threads[t := s.threads[t].(at := at)])
  }

  function AfterEnqueue(c: Config, s: Sys, p: Packet): Sys
    requires SharedOk(c, s.sh)
  {
    if Closed(c, s.sh) then s
    else s.(sh := EnqueueSection(c, s.sh, p), ledger := s.ledger.(accepted := s.ledger.accepted + [p]))
  }

  function AfterSendUrgent(s: Sys, p: Packet): Sys {
    if s.sh.slot.waiting || s.sh.slot.flying then s
    else s.(sh := UrgentSection(s.sh, p),
            ledger := s.ledger.(urgents := s.ledger.urgents + [Posted(p, s.sh.slot.disconnect)]))
  }

  /** The unnumbered packet of the frame before is confirmed as sent, unless it is
      taken for the DISCONNECT. */
  function AfterTransmit(s: Sys, t: nat): Sys
    requires t < |s.threads|
  {
    var l := s.ledger;
    if s.sh.slot.flying && !s.sh.slot.disconnect then
      var o := Outcome(s.sh.slot.packet, Success);
      s.(sh := TransmitSection(s.sh), ledger := l.(uDecisions := l.uDecisions + [o]),
         threads := s.threads[t := Thread(Tells(true), Some(Notice(false, t, |l.uDecisions|, o)))])
    else s.(sh := TransmitSection(s.sh))
  }

  /** What ludlc_receive does under the lock: k packets acknowledged, and the one
      behind them given up or not. */
  function AfterAck(c: Config, s: Sys, t: nat, k: nat, giveUp: bool): Sys
    requires SharedOk(c, s.sh) && t < |s.threads| && |s.ledger.decisions| + Unresolved(c, s.sh) == |s.ledger.accepted|
    requires k + (if giveUp then 1 else 0) <= Unresolved(c, s.sh)
  {
    var sh, l := Resolve(c, s.sh, k, Success), Settle(s.ledger, k, Success);
    if !giveUp then s.(sh := sh, ledger := l, threads := s.threads[t := Thread(Wants, None)])
    else
      var o := Outcome(Todo(l)[0], TimedOut);
      s.(sh := GiveUp(c, sh), ledger := l.(decisions := l.decisions + [o]),
         threads := s.threads[t := Thread(Wants, Some(Notice(true, t, |l.decisions|, o)))])
  }

  function AfterSweep(c: Config, s: Sys, t: nat): Sys
    requires SharedOk(c, s.sh) && t < |s.threads| && |s.ledger.decisions| + Unresolved(c, s.sh) == |s.ledger.accepted|
  {
    s.(sh := SweepSection(c, s.sh), threads := s.threads[t := Thread(Wants, None)],
       ledger := Settle(s.ledger, Unresolved(c, s.sh), Broken)
                 .(uDecisions := DecideOne(s.ledger.uDecisions, SweptUnnumbered(s.sh))))
  }

  function AfterSendDisconnect(c: Config, s: Sys, t: nat): Sys
    requires t < |s.threads|
  {
    s.(sh := DisconnectSection(c, s.sh), threads := s.threads[t := Thread(Wants, None)],
       ledger := s.ledger.(uDecisions := DecideOne(s.ledger.uDecisions, ReplacedUnnumbered(s.sh))))
  }

  /** Where a thread goes when it is done with the reporter. */
  function Leave(th: Thread, sure: bool): Spot {
    if th.owes.Some? then Tells(sure) else Idle
  }

  function AfterTest(s: Sys, t: nat): Sys
    requires t < |s.threads|
  {
    var th := s.threads[t];
    if s.sh.busy then
      Move(s, t, Leave(th, th.owes.Some? && Settled(s.ledger, |s.log.reported|, th.owes.value)))
    else Move(s, t, Holds).(sh := s.sh.(busy := true), holder := t)
  }

  function AfterCopy(c: Config, batch: nat, s: Sys, t: nat): Sys
    requires SharedOk(c, s.sh) && t < |s.threads|
  {
    var next :=
      if NothingToCopy(c, s.sh) then Leave(s.threads[t], true)
      else Calls(s.sh.unnumbered, CopySlots(c, s.sh, BatchSize(c, batch, s.sh)));
    Move(s, t, next).(sh := CopySection(c, batch, s.sh))
  }

  /** The callback a reporter makes next, and where that leaves it. */
  function AfterCallback(s: Sys, t: nat): Sys
    requires t < |s.threads| && s.threads[t].at.Calls?
  {
    var at := s.threads[t].at;
    if at.first.Some? then
      Move(s, t, at.(first := None)).(log := s.log.(unnumbered := s.log.unnumbered + [at.first.value]))
    else if at.batch != [] then
      Move(s, t, at.(batch := at.batch[1..])).(log := s.log.(reported := s.log.reported + [at.batch[0]]))
    else Move(s, t, Holds)
  }

  function AfterTell(s: Sys, t: nat): Sys
    requires t < |s.threads| && s.threads[t].at.Tells? && s.threads[t].owes.Some?
  {
    var told := Told(s.threads[t].owes.value, s.threads[t].at.sure, |s.log.reported|);
    s.(threads := s.threads[t := Thread(Idle, None)], log := s.log.(told := s.log.told + [told]))
  }

  function Next(c: Config, batch: nat, s: Sys, a: Act): Sys
    requires SharedOk(c, s.sh) && Enabled(c, s, a)
    requires |s.ledger.decisions| + Unresolved(c, s.sh) == |s.ledger.accepted|
  {
    match a
    case Enqueue(p) => AfterEnqueue(c, s, p)
    case SendUrgent(p) => AfterSendUrgent(s, p)
    case Transmit(t) => AfterTransmit(s, t)
    case Ack(t, k, giveUp) => AfterAck(c, s, t, k, giveUp)
    case Sweep(t) => AfterSweep(c, s, t)
    case SendDisconnect(t) => AfterSendDisconnect(c, s, t)
    case Test(t) => AfterTest(s, t)
    case Copy(t) => AfterCopy(c, batch, s, t)
    case Callback(t) => AfterCallback(s, t)
    case Tell(t) => AfterTell(s, t)
  }

  // ----- runs

  function Fresh(c: Config, slots: seq<Outcome>, threads: nat): Sys
    requires ValidConfig(c) && |slots| == c.window
  {
    Sys(Shared(slots, 0, 0, 0, false, Slot(false, false, false, Packet(c.control, [])), None, false),
        seq(threads, i => Thread(Idle, None)), 0, Ledger([], [], [], []), Log([], [], []))
  }

  predicate IsStep(c: Config, batch: nat, s: Sys, a: Act, r: Sys) {
    && SharedOk(c, s.sh) && Enabled(c, s, a)
    && |s.ledger.decisions| + Unresolved(c, s.sh) == |s.ledger.accepted|
    && r == Next(c, batch, s, a)
  }

  /** states[i + 1] is what acts[i] makes of states[i]; any number of threads. */
  ghost predicate IsRun(c: Config, batch: nat, states: seq<Sys>, acts: seq<Act>) {
    && ValidConfig(c) && 1 <= batch
    && |states| == |acts| + 1
    && (exists slots: seq<Outcome>, n: nat :: |slots| == c.window && 1 <= n && states[0] == Fresh(c, slots, n))
    && forall i :: 0 <= i < |acts| ==> IsStep(c, batch, states[i], acts[i], states[i + 1])
  }

  /** No thread is inside. */
  ghost predicate Quiescent(s: Sys) {
    forall t :: 0 <= t < |s.threads| ==> s.threads[t].at.Idle?
  }
}
