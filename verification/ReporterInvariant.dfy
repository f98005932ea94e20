/** What every step of the deferred build keeps, however its threads interleave. */
module ReporterInvariant {
  import opened SeqNum
  import opened Common
  import opened Protocol
  import opened Ring
  import opened Reporter
  import opened ReporterSlots
  import opened ReporterNotices

  // ----- the invariant

  predicate Active(th: Thread) {
    th.at.Holds? || th.at.Calls?
  }

  /** The busy bit is set exactly while one thread reports. */
  predicate OneReporter(threads: seq<Thread>, holder: nat, busy: bool) {
    && holder < |threads|
    && forall t :: 0 <= t < |threads| ==> (Active(threads[t]) <==> busy && t == holder)
  }

  /** Copied and not yet reported. */
  function Batch(th: Thread): seq<Outcome> {
    if th.at.Calls? then th.at.batch else []
  }

  function First(th: Thread): Option<Outcome> {
    if th.at.Calls? then th.at.first else None
  }

  /** What has left the slots: reported, or on the reporter's stack. */
  function Left(s: Sys): seq<Outcome>
    requires s.holder < |s.threads|
  {
    s.log.reported + Batch(s.threads[s.holder])
  }

  /** Every accepted packet was decided on, in order, or is still to be; what the
      reporter has to confirm has left the slots or is in them. */
  ghost predicate NumberedOk(c: Config, sh: Shared, left: seq<Outcome>, l: Ledger) {
    && SharedOk(c, sh)
    && |l.decisions| <= |l.accepted|
    && PacketsOf(l.decisions) == l.accepted[..|l.decisions|]
    && SlotsHold(c, sh, left, Through(l), Todo(l))
  }

  /** Unnumbered packets accepted while no DISCONNECT was marked. */
  function Unmarked(u: seq<Posted>): seq<Packet> {
    if u == [] then []
    else Unmarked(u[..|u| - 1]) + if u[|u| - 1].marked then [] else [u[|u| - 1].packet]
  }

  /** The unnumbered packet a caller still waits for. */
  function HeldUrgent(slot: Slot): seq<Packet> {
    if (slot.waiting || slot.flying) && !slot.disconnect then [slot.packet] else []
  }

  /** Exactly the unmarked ones are decided on, in order, or held; and what the
      reporter has to confirm of them was reported, is on its stack, or saved. */
  ghost predicate UnnumberedOk(sh: Shared, first: Option<Outcome>, made: seq<Outcome>, l: Ledger) {
    && Unmarked(l.urgents) == PacketsOf(l.uDecisions) + HeldUrgent(sh.slot)
    && Saved(l) == DecideOne(DecideOne(made, first), sh.unnumbered)
    && !(sh.slot.waiting && sh.slot.flying)
    && (sh.unnumbered.Some? ==> sh.busOut || sh.slot.disconnect)
    && (sh.busOut ==> !sh.slot.waiting && !sh.slot.flying && Closing(sh))
  }

  /** Whatever is pending has a thread that will see it. */
  predicate WillReport(c: Config, s: Sys)
    requires SharedOk(c, s.sh)
  {
    !NothingToCopy(c, s.sh) ==> s.sh.busy || exists t :: 0 <= t < |s.threads| && s.threads[t].at.Wants?
  }

  ghost predicate Inv(c: Config, s: Sys) {
    && OneReporter(s.threads, s.holder, s.sh.busy)
    && NumberedOk(c, s.sh, Left(s), s.ledger)
    && UnnumberedOk(s.sh, First(s.threads[s.holder]), s.log.unnumbered, s.ledger)
    && NoticesOk(s.threads, s.log.told, s.ledger, |s.log.reported|)
    && WillReport(c, s)
  }

  /** The count a step relies on. */
  lemma InvCounts(c: Config, s: Sys)
    requires Inv(c, s)
    ensures |s.ledger.decisions| + Unresolved(c, s.sh) == |s.ledger.accepted|
  {
  }

  // ----- numbered packets

  lemma NumberedEnqueue(c: Config, sh: Shared, left: seq<Outcome>, l: Ledger, p: Packet)
    requires NumberedOk(c, sh, left, l) && !Closed(c, sh)
    ensures NumberedOk(c, EnqueueSection(c, sh, p), left, l.(accepted := l.accepted + [p]))
  {
    EnqueueHolds(c, sh, left, Through(l), Todo(l), p);
    assert Todo(l.(accepted := l.accepted + [p])) == Todo(l) + [p];
  }

  /** Deciding on the next packets keeps decisions in step with the packets. */
  lemma DecidedPackets(l: Ledger, more: seq<Outcome>)
    requires |l.decisions| + |more| <= |l.accepted| && PacketsOf(l.decisions) == l.accepted[..|l.decisions|]
    requires forall i :: 0 <= i < |more| ==> more[i].packet == l.accepted[|l.decisions| + i]
    ensures PacketsOf(l.decisions + more) == l.accepted[..|l.decisions| + |more|]
  {
    var d, n := l.decisions + more, |l.decisions|;
    forall i | 0 <= i < |d| ensures PacketsOf(d)[i] == l.accepted[i] {
      if i < n {
        assert PacketsOf(l.decisions)[i] == l.accepted[..n][i];
      } else {
        assert d[i] == more[i - n];
      }
    }
  }

  lemma SettledPackets(l: Ledger, k: nat, r: Result)
    requires |l.decisions| + k <= |l.accepted| && PacketsOf(l.decisions) == l.accepted[..|l.decisions|]
    ensures var m := Settle(l, k, r);
            PacketsOf(m.decisions) == m.accepted[..|m.decisions|] && Todo(m) == Todo(l)[k..]
  {
    var todo := Todo(l);
    var more := Decide(todo[..k], r);
    forall i | 0 <= i < k ensures more[i].packet == l.accepted[|l.decisions| + i] {
      assert more[i].packet == todo[..k][i] == todo[i];
    }
    DecidedPackets(l, more);
  }

  lemma SettledThrough(l: Ledger, k: nat, r: Result)
    requires |l.decisions| + k <= |l.accepted| && r != TimedOut
    ensures Through(Settle(l, k, r)) == Through(l) + Decide(Todo(l)[..k], r)
  {
    ExceptAppend(l.decisions, Decide(Todo(l)[..k], r), TimedOut);
    ExceptDecided(Todo(l)[..k], r, TimedOut);
  }

  lemma NumberedResolve(c: Config, sh: Shared, left: seq<Outcome>, l: Ledger, k: nat, r: Result)
    requires NumberedOk(c, sh, left, l) && k <= Unresolved(c, sh) && r != TimedOut
    ensures |l.decisions| + k <= |l.accepted| && NumberedOk(c, Resolve(c, sh, k, r), left, Settle(l, k, r))
  {
    ResolveHolds(c, sh, left, Through(l), Todo(l), k, r);
    SettledPackets(l, k, r);
    SettledThrough(l, k, r);
  }

  lemma NumberedGiveUp(c: Config, sh: Shared, left: seq<Outcome>, l: Ledger)
    requires NumberedOk(c, sh, left, l) && 0 < Unresolved(c, sh)
    ensures Todo(l) != []
    ensures NumberedOk(c, GiveUp(c, sh), left, l.(decisions := l.decisions + [Outcome(Todo(l)[0], TimedOut)]))
  {
    GiveUpHolds(c, sh, left, Through(l), Todo(l));
    var o := Outcome(Todo(l)[0], TimedOut);
    var m := l.(decisions := l.decisions + [o]);
    ExceptOne(l.decisions, o, TimedOut);
    assert Todo(m) == Todo(l)[1..];
    DecidedPackets(l, [o]);
  }

  /** The window and the numbered part of the ledger are all it depends on. */
  lemma NumberedSame(c: Config, sh: Shared, sh': Shared, left: seq<Outcome>, l: Ledger, m: Ledger)
    requires NumberedOk(c, sh, left, l) && m.accepted == l.accepted && m.decisions == l.decisions
    requires sh'.slots == sh.slots && sh'.lastQueued == sh.lastQueued
    requires sh'.lastAck == sh.lastAck && sh'.lastReported == sh.lastReported
    ensures NumberedOk(c, sh', left, m)
  {
    SlotsSame(c, sh, sh', left, Through(l), Todo(l));
  }

  // ----- unnumbered packets

  lemma UnmarkedOne(u: seq<Posted>, x: Posted)
    ensures Unmarked(u + [x]) == Unmarked(u) + if x.marked then [] else [x.packet]
  {
    assert (u + [x])[..|u|] == u;
  }

  lemma UnnumberedPosted(sh: Shared, first: Option<Outcome>, made: seq<Outcome>, l: Ledger, p: Packet)
    requires UnnumberedOk(sh, first, made, l) && !sh.busOut && !sh.slot.waiting && !sh.slot.flying
    ensures UnnumberedOk(UrgentSection(sh, p), first, made,
                         l.(urgents := l.urgents + [Posted(p, sh.slot.disconnect)]))
  {
    UnmarkedOne(l.urgents, Posted(p, sh.slot.disconnect));
  }

  lemma UnnumberedSent(sh: Shared, first: Option<Outcome>, made: seq<Outcome>, l: Ledger)
    requires UnnumberedOk(sh, first, made, l) && !sh.busOut
    ensures var m := if sh.slot.flying && !sh.slot.disconnect
                     then l.(uDecisions := l.uDecisions + [Outcome(sh.slot.packet, Success)]) else l;
            UnnumberedOk(TransmitSection(sh), first, made, m)
  {
    if sh.slot.flying && !sh.slot.disconnect {
      var o := Outcome(sh.slot.packet, Success);
      ExceptOne(l.uDecisions, o, Success);
      assert PacketsOf(l.uDecisions + [o]) == PacketsOf(l.uDecisions) + [o.packet];
    }
  }

  /** A decision for the reporter: the slot's packet, and the saved one is free. */
  lemma UnnumberedDecided(l: Ledger, held: seq<Packet>, made: seq<Outcome>, u: Option<Outcome>)
    requires Unmarked(l.urgents) == PacketsOf(l.uDecisions) + held && Saved(l) == made
    requires u.Some? ==> u.value.result != Success && held == [u.value.packet]
    ensures var m := l.(uDecisions := DecideOne(l.uDecisions, u));
            && Unmarked(m.urgents) == PacketsOf(m.uDecisions) + (if u.Some? then [] else held)
            && Saved(m) == DecideOne(made, u)
  {
    if u.Some? {
      ExceptOne(l.uDecisions, u.value, Success);
      assert PacketsOf(l.uDecisions + [u.value]) == PacketsOf(l.uDecisions) + [u.value.packet];
    }
  }

  lemma UnnumberedReplaced(c: Config, sh: Shared, first: Option<Outcome>, made: seq<Outcome>, l: Ledger)
    requires UnnumberedOk(sh, first, made, l) && !sh.busOut && !sh.slot.flying
    ensures UnnumberedOk(DisconnectSection(c, sh), first, made,
                         l.(uDecisions := DecideOne(l.uDecisions, ReplacedUnnumbered(sh))))
  {
    UnnumberedDecided(l, HeldUrgent(sh.slot), Saved(l), ReplacedUnnumbered(sh));
  }

  /** After a sweep, wherever the window then stands. */
  lemma UnnumberedSwept(sh: Shared, first: Option<Outcome>, made: seq<Outcome>, l: Ledger, after: Shared)
    requires UnnumberedOk(sh, first, made, l)
    requires !after.slot.waiting && !after.slot.flying && !after.slot.disconnect
    requires after.unnumbered == if SweptUnnumbered(sh).Some? then SweptUnnumbered(sh) else sh.unnumbered
    requires after.busOut ==> Closing(after)
    requires after.unnumbered.Some? ==> after.busOut
    ensures UnnumberedOk(after, first, made, l.(uDecisions := DecideOne(l.uDecisions, SweptUnnumbered(sh))))
  {
    UnnumberedDecided(l, HeldUrgent(sh.slot), Saved(l), SweptUnnumbered(sh));
  }

  // ----- threads

  /** A thread outside the reporter goes elsewhere outside it. */
  lemma OutsiderMoves(threads: seq<Thread>, holder: nat, busy: bool, t: nat, th: Thread)
    requires OneReporter(threads, holder, busy) && t < |threads| && !Active(threads[t]) && !Active(th)
    ensures OneReporter(threads[t := th], holder, busy)
    ensures Batch(threads[t := th][holder]) == Batch(threads[holder])
    ensures First(threads[t := th][holder]) == First(threads[holder])
  {
  }

  /** The reporter leaves the lock with something copied, or stops. */
  lemma ReporterMoves(threads: seq<Thread>, holder: nat, th: Thread, busy: bool)
    requires OneReporter(threads, holder, true)
    requires Active(th) == busy
    ensures OneReporter(threads[holder := th], holder, busy)
  {
  }

  /** A call has done its part under the lock, and its thread asks for the reporter. */
  lemma Asked(c: Config, s: Sys, t: nat, sh: Shared, m: Ledger, th: Thread)
    requires OneReporter(s.threads, s.holder, s.sh.busy) && IdleAt(s, t) && th.at.Wants? && sh.busy == s.sh.busy
    requires NumberedOk(c, sh, Left(s), m)
    requires UnnumberedOk(sh, First(s.threads[s.holder]), s.log.unnumbered, m)
    requires NoticesOk(s.threads[t := th], s.log.told, m, |s.log.reported|)
    ensures Inv(c, s.(sh := sh, ledger := m, threads := s.threads[t := th]))
  {
    OutsiderMoves(s.threads, s.holder, s.sh.busy, t, th);
    assert s.threads[t := th][t].at.Wants?;
  }

  // ----- steps

  lemma EnqueueKeeps(c: Config, s: Sys, p: Packet)
    requires Inv(c, s)
    ensures Inv(c, AfterEnqueue(c, s, p))
  {
    if !Closed(c, s.sh) {
      var r := AfterEnqueue(c, s, p);
      NumberedEnqueue(c, s.sh, Left(s), s.ledger, p);
      QuietKeeps(s.threads, s.log.told, s.ledger, r.ledger, |s.log.reported|, |s.log.reported|);
    }
  }

  lemma SendUrgentKeeps(c: Config, s: Sys, p: Packet)
    requires Inv(c, s) && Enabled(c, s, Act.SendUrgent(p))
    ensures Inv(c, AfterSendUrgent(s, p))
  {
    if !s.sh.slot.waiting && !s.sh.slot.flying {
      var r := AfterSendUrgent(s, p);
      NumberedSame(c, s.sh, r.sh, Left(s), s.ledger, r.ledger);
      UnnumberedPosted(s.sh, First(s.threads[s.holder]), s.log.unnumbered, s.ledger, p);
      QuietKeeps(s.threads, s.log.told, s.ledger, r.ledger, |s.log.reported|, |s.log.reported|);
    }
  }

  lemma TransmitKeeps(c: Config, s: Sys, t: nat)
    requires Inv(c, s) && Enabled(c, s, Act.Transmit(t))
    ensures Inv(c, AfterTransmit(s, t))
  {
    var r := AfterTransmit(s, t);
    NumberedSame(c, s.sh, r.sh, Left(s), s.ledger, r.ledger);
    UnnumberedSent(s.sh, First(s.threads[s.holder]), s.log.unnumbered, s.ledger);
    if s.sh.slot.flying && !s.sh.slot.disconnect {
      OutsiderMoves(s.threads, s.holder, s.sh.busy, t, r.threads[t]);
      NoticeAdds(s.threads, s.log.told, s.ledger, r.ledger, |s.log.reported|, t, r.threads[t]);
      WantsKept(c, s, r, t);
    }
  }

  /** An idle thread is not the one a pending confirmation waits for. */
  lemma WantsKept(c: Config, s: Sys, r: Sys, t: nat)
    requires SharedOk(c, s.sh) && SharedOk(c, r.sh) && WillReport(c, s)
    requires NothingToCopy(c, r.sh) == NothingToCopy(c, s.sh) && r.sh.busy == s.sh.busy
    requires t < |s.threads| == |r.threads| && !s.threads[t].at.Wants? && r.threads == s.threads[t := r.threads[t]]
    ensures WillReport(c, r)
  {
    if u :| 0 <= u < |s.threads| && s.threads[u].at.Wants? {
      assert r.threads[u].at.Wants?;
    }
  }

  lemma AckKeeps(c: Config, s: Sys, t: nat, k: nat, giveUp: bool)
    requires Inv(c, s) && Enabled(c, s, Ack(t, k, giveUp))
    requires |s.ledger.decisions| + Unresolved(c, s.sh) == |s.ledger.accepted|
    ensures Inv(c, AfterAck(c, s, t, k, giveUp))
  {
    var r := AfterAck(c, s, t, k, giveUp);
    AckNumbered(c, s.sh, Left(s), s.ledger, k, giveUp, r.sh, r.ledger);
    AckNotices(s.threads, s.log.told, s.ledger, |s.log.reported|, t, k, giveUp, r.threads[t], r.ledger);
    Asked(c, s, t, r.sh, r.ledger, r.threads[t]);
  }

  lemma AckNumbered(c: Config, sh: Shared, left: seq<Outcome>, l: Ledger, k: nat, giveUp: bool, sh': Shared, l': Ledger)
    requires NumberedOk(c, sh, left, l) && k + (if giveUp then 1 else 0) <= Unresolved(c, sh)
    requires |l.decisions| + Unresolved(c, sh) == |l.accepted|
    requires var r, m := Resolve(c, sh, k, Success), Settle(l, k, Success);
             if giveUp then sh' == GiveUp(c, r) && l' == m.(decisions := m.decisions + [Outcome(Todo(m)[0], TimedOut)])
             else sh' == r && l' == m
    ensures NumberedOk(c, sh', left, l')
  {
    NumberedResolve(c, sh, left, l, k, Success);
    if giveUp {
      NumberedGiveUp(c, Resolve(c, sh, k, Success), left, Settle(l, k, Success));
    }
  }

  lemma AckNotices(threads: seq<Thread>, told: seq<Told>, l: Ledger, reported: nat, t: nat, k: nat, giveUp: bool,
                   th: Thread, l': Ledger)
    requires NoticesOk(threads, told, l, reported) && t < |threads| && threads[t].at.Idle?
    requires |l.decisions| + k + (if giveUp then 1 else 0) <= |l.accepted|
    requires var m := Settle(l, k, Success);
             if giveUp then
               var o := Outcome(Todo(m)[0], TimedOut);
               l' == m.(decisions := m.decisions + [o]) && th == Thread(Wants, Some(Notice(true, t, |m.decisions|, o)))
             else l' == m && th == Thread(Wants, None)
    ensures NoticesOk(threads[t := th], told, l', reported)
  {
    var m := Settle(l, k, Success);
    QuietKeeps(threads, told, l, m, reported, reported);
    if giveUp {
      NoticeAdds(threads, told, m, l', reported, t, th);
    } else {
      ThreadAsks(threads, told, m, reported, t);
    }
  }

  lemma ThreadAsks(threads: seq<Thread>, told: seq<Told>, l: Ledger, reported: nat, t: nat)
    requires NoticesOk(threads, told, l, reported) && t < |threads| && threads[t].at.Idle?
    ensures NoticesOk(threads[t := Thread(Wants, None)], told, l, reported)
  {
    assert ThreadOk(l, reported, t, threads[t]);
    assert threads[t].(at := Wants) == Thread(Wants, None);
    MoveKeeps(threads, told, l, reported, t, Wants);
  }

  lemma AskQuietly(threads: seq<Thread>, told: seq<Told>, l: Ledger, m: Ledger, reported: nat, t: nat)
    requires NoticesOk(threads, told, l, reported) && GrewQuietly(l, m) && t < |threads| && threads[t].at.Idle?
    ensures NoticesOk(threads[t := Thread(Wants, None)], told, m, reported)
  {
    QuietKeeps(threads, told, l, m, reported, reported);
    ThreadAsks(threads, told, m, reported, t);
  }

  /** What a sweep makes of the window, before the reset is considered. */
  function SweptWindow(c: Config, sh: Shared): Shared
    requires SharedOk(c, sh)
  {
    var u := SweptUnnumbered(sh);
    Resolve(c, sh, Unresolved(c, sh), Broken)
    .(busOut := true, slot := sh.slot.(waiting := false, flying := false, disconnect := false),
      unnumbered := if u.Some? then u else sh.unnumbered)
  }

  lemma SweepNumbered(c: Config, sh: Shared, left: seq<Outcome>, l: Ledger, u: seq<Outcome>)
    requires NumberedOk(c, sh, left, l)
    ensures |l.decisions| + Unresolved(c, sh) <= |l.accepted|
    ensures NumberedOk(c, SweepSection(c, sh), left, Settle(l, Unresolved(c, sh), Broken).(uDecisions := u))
    ensures SweepSection(c, sh).busOut ==> Closing(SweepSection(c, sh))
  {
    var n := Unresolved(c, sh);
    NumberedResolve(c, sh, left, l, n, Broken);
    var m := Settle(l, n, Broken).(uDecisions := u);
    NumberedSame(c, Resolve(c, sh, n, Broken), SweptWindow(c, sh), left, Settle(l, n, Broken), m);
    ResetHolds(c, SweptWindow(c, sh), left, Through(m), Todo(m));
  }

  lemma SweepUnnumbered(c: Config, sh: Shared, first: Option<Outcome>, made: seq<Outcome>, l: Ledger, m: Ledger)
    requires SharedOk(c, sh) && UnnumberedOk(sh, first, made, l)
    requires SweepSection(c, sh).busOut ==> Closing(SweepSection(c, sh))
    requires m.urgents == l.urgents && m.uDecisions == DecideOne(l.uDecisions, SweptUnnumbered(sh))
    ensures UnnumberedOk(SweepSection(c, sh), first, made, m)
  {
    UnnumberedSwept(sh, first, made, l, SweepSection(c, sh));
  }

  lemma SweepQuiet(c: Config, sh: Shared, l: Ledger)
    requires SharedOk(c, sh) && |l.decisions| + Unresolved(c, sh) <= |l.accepted|
    ensures GrewQuietly(l, Settle(l, Unresolved(c, sh),
                                  Broken).(uDecisions := DecideOne(l.uDecisions, SweptUnnumbered(sh))))
  {
  }

  lemma SweepKeeps(c: Config, s: Sys, t: nat)
    requires Inv(c, s) && Enabled(c, s, Act.Sweep(t))
    requires |s.ledger.decisions| + Unresolved(c, s.sh) == |s.ledger.accepted|
    ensures Inv(c, AfterSweep(c, s, t))
  {
    var r := AfterSweep(c, s, t);
    SweepNumbered(c, s.sh, Left(s), s.ledger, r.ledger.uDecisions);
    SweepUnnumbered(c, s.sh, First(s.threads[s.holder]), s.log.unnumbered, s.ledger, r.ledger);
    SweepQuiet(c, s.sh, s.ledger);
    AskQuietly(s.threads, s.log.told, s.ledger, r.ledger, |s.log.reported|, t);
    Asked(c, s, t, r.sh, r.ledger, Thread(Wants, None));
  }

  lemma SendDisconnectKeeps(c: Config, s: Sys, t: nat)
    requires Inv(c, s) && Enabled(c, s, Act.SendDisconnect(t))
    ensures Inv(c, AfterSendDisconnect(c, s, t))
  {
    var r := AfterSendDisconnect(c, s, t);
    NumberedSame(c, s.sh, r.sh, Left(s), s.ledger, r.ledger);
    UnnumberedReplaced(c, s.sh, First(s.threads[s.holder]), s.log.unnumbered, s.ledger);
    AskQuietly(s.threads, s.log.told, s.ledger, r.ledger, |s.log.reported|, t);
    Asked(c, s, t, r.sh, r.ledger, Thread(Wants, None));
  }

  lemma TestKeeps(c: Config, s: Sys, t: nat)
    requires Inv(c, s) && Enabled(c, s, Test(t))
    ensures Inv(c, AfterTest(s, t))
  {
    var r := AfterTest(s, t);
    assert ThreadOk(s.ledger, |s.log.reported|, t, s.threads[t]);
    MoveKeeps(s.threads, s.log.told, s.ledger, |s.log.reported|, t, r.threads[t].at);
    if s.sh.busy {
      OutsiderMoves(s.threads, s.holder, true, t, r.threads[t]);
    } else {
      assert !Active(s.threads[s.holder]);
      assert OneReporter(r.threads, t, true);
      NumberedSame(c, s.sh, r.sh, Left(s), s.ledger, s.ledger);
    }
  }

  /** A reporter that finds nothing left has reported everything decided. */
  lemma NothingLeft(c: Config, s: Sys, t: nat)
    requires Inv(c, s) && Enabled(c, s, Act.Copy(t)) && NothingToCopy(c, s.sh)
    ensures s.log.reported == Through(s.ledger)
    ensures s.threads[t].owes.Some? ==> Before(s.ledger, s.threads[t].owes.value) <= |s.log.reported|
  {
    assert Active(s.threads[t]) && t == s.holder;
    if s.threads[t].owes.Some? {
      var n := s.threads[t].owes.value;
      assert ThreadOk(s.ledger, |s.log.reported|, t, s.threads[t]);
      if n.numbered {
        var d := s.ledger.decisions;
        assert d == d[..n.index] + d[n.index..];
        ExceptAppend(d[..n.index], d[n.index..], TimedOut);
      }
    }
  }

  /** The reporter's part of a step of its own: the window, its stack, its log. */
  ghost predicate Reports(c: Config, sh: Shared, th: Thread, log: Log, l: Ledger) {
    && NumberedOk(c, sh, log.reported + Batch(th), l)
    && UnnumberedOk(sh, First(th), log.unnumbered, l)
  }

  lemma CopyReports(c: Config, batch: nat, sh: Shared, th: Thread, log: Log, l: Ledger)
    requires Reports(c, sh, th, log, l) && th.at.Holds? && 1 <= batch && !NothingToCopy(c, sh)
    ensures Reports(c, CopySection(c, batch, sh),
                    th.(at := Calls(sh.unnumbered, CopySlots(c, sh, BatchSize(c, batch, sh)))), log, l)
  {
    assert log.reported + [] == log.reported;
    CopyPassHolds(c, batch, sh, log.reported, Through(l), Todo(l));
    CopyUnnumbered(c, batch, sh, log.unnumbered, l);
  }

  lemma CopyUnnumbered(c: Config, batch: nat, sh: Shared, made: seq<Outcome>, l: Ledger)
    requires SharedOk(c, sh) && UnnumberedOk(sh, None, made, l)
    requires CopySection(c, batch, sh).busOut ==> sh.busOut && Closing(CopySection(c, batch, sh))
    ensures UnnumberedOk(CopySection(c, batch, sh), sh.unnumbered, made, l)
  {
  }

  lemma StopReports(c: Config, batch: nat, sh: Shared, th: Thread, log: Log, l: Ledger, at: Spot)
    requires Reports(c, sh, th, log, l) && th.at.Holds? && 1 <= batch && NothingToCopy(c, sh) && !at.Calls?
    ensures Reports(c, CopySection(c, batch, sh), th.(at := at), log, l)
    ensures NothingToCopy(c, CopySection(c, batch, sh))
  {
    assert BatchSize(c, batch, sh) == 0 && log.reported + [] == log.reported;
    CopyPassHolds(c, batch, sh, log.reported, Through(l), Todo(l));
  }

  lemma CopyKeeps(c: Config, batch: nat, s: Sys, t: nat)
    requires Inv(c, s) && Enabled(c, s, Act.Copy(t)) && 1 <= batch
    ensures Inv(c, AfterCopy(c, batch, s, t))
  {
    var r := AfterCopy(c, batch, s, t);
    assert Active(s.threads[t]) && t == s.holder;
    assert Reports(c, s.sh, s.threads[t], s.log, s.ledger);
    ReporterMoves(s.threads, s.holder, r.threads[t], r.sh.busy);
    assert ThreadOk(s.ledger, |s.log.reported|, t, s.threads[t]);
    if NothingToCopy(c, s.sh) {
      NothingLeft(c, s, t);
      StopReports(c, batch, s.sh, s.threads[t], s.log, s.ledger, r.threads[t].at);
    } else {
      CopyReports(c, batch, s.sh, s.threads[t], s.log, s.ledger);
    }
    MoveKeeps(s.threads, s.log.told, s.ledger, |s.log.reported|, t, r.threads[t].at);
    assert Reports(c, r.sh, r.threads[t], r.log, r.ledger);
  }

  /** A callback moves one confirmation from the reporter's stack to the log. */
  lemma CallbackLogs(s: Sys, t: nat)
    requires t < |s.threads| && s.threads[t].at.Calls?
    ensures var r := AfterCallback(s, t);
            && r.sh == s.sh && r.ledger == s.ledger && r.log.told == s.log.told
            && r.log.reported + Batch(r.threads[t]) == s.log.reported + Batch(s.threads[t])
            && DecideOne(r.log.unnumbered, First(r.threads[t])) == DecideOne(s.log.unnumbered, First(s.threads[t]))
  {
    var at := s.threads[t].at;
    if at.first.None? && at.batch != [] {
      assert at.batch == [at.batch[0]] + at.batch[1..];
      assert s.log.reported + [at.batch[0]] + at.batch[1..] == s.log.reported + at.batch;
    }
  }

  lemma CallbackReports(c: Config, s: Sys, t: nat)
    requires t < |s.threads| && s.threads[t].at.Calls? && Reports(c, s.sh, s.threads[t], s.log, s.ledger)
    ensures var r := AfterCallback(s, t); Reports(c, r.sh, r.threads[t], r.log, r.ledger)
  {
    CallbackLogs(s, t);
  }

  lemma CallbackKeeps(c: Config, s: Sys, t: nat)
    requires Inv(c, s) && Enabled(c, s, Callback(t))
    ensures Inv(c, AfterCallback(s, t))
  {
    var r := AfterCallback(s, t);
    assert Active(s.threads[t]) && t == s.holder;
    ReporterMoves(s.threads, s.holder, r.threads[t], true);
    assert Reports(c, s.sh, s.threads[t], s.log, s.ledger);
    CallbackReports(c, s, t);
    CallbackNotices(s, t, r);
  }

  lemma CallbackNotices(s: Sys, t: nat, r: Sys)
    requires NoticesOk(s.threads, s.log.told, s.ledger, |s.log.reported|) && t < |s.threads| && s.threads[t].at.Calls?
    requires r == AfterCallback(s, t)
    ensures NoticesOk(r.threads, r.log.told, r.ledger, |r.log.reported|)
  {
    assert ThreadOk(s.ledger, |s.log.reported|, t, s.threads[t]);
    MoveKeeps(s.threads, s.log.told, s.ledger, |s.log.reported|, t, r.threads[t].at);
    QuietKeeps(r.threads, s.log.told, s.ledger, s.ledger, |s.log.reported|, |r.log.reported|);
  }

  lemma TellKeepsInv(c: Config, s: Sys, t: nat)
    requires Inv(c, s) && Enabled(c, s, Tell(t))
    ensures Inv(c, AfterTell(s, t))
  {
    var r := AfterTell(s, t);
    OutsiderMoves(s.threads, s.holder, s.sh.busy, t, r.threads[t]);
    TellKeeps(s.threads, s.log.told, s.ledger, |s.log.reported|, t, r.log.told[|s.log.told|]);
    WantsKept(c, s, r, t);
  }

  lemma StepKeeps(c: Config, batch: nat, s: Sys, a: Act)
    requires Inv(c, s) && Enabled(c, s, a) && 1 <= batch
    requires |s.ledger.decisions| + Unresolved(c, s.sh) == |s.ledger.accepted|
    ensures Inv(c, Next(c, batch, s, a))
  {
    match a
    case Enqueue(p) => EnqueueKeeps(c, s, p);
    case SendUrgent(p) => SendUrgentKeeps(c, s, p);
    case Transmit(t) => TransmitKeeps(c, s, t);
    case Ack(t, k, giveUp) => AckKeeps(c, s, t, k, giveUp);
    case Sweep(t) => SweepKeeps(c, s, t);
    case SendDisconnect(t) => SendDisconnectKeeps(c, s, t);
    case Test(t) => TestKeeps(c, s, t);
    case Copy(t) => CopyKeeps(c, batch, s, t);
    case Callback(t) => CallbackKeeps(c, s, t);
    case Tell(t) => TellKeepsInv(c, s, t);
  }
}
