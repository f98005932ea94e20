/**
 What every run of the deferred build promises: each decision is reported once, in
 order, and none is left behind; which callbacks can overtake others, and which
 unnumbered packets are never confirmed.
 */
module ReporterRuns {
  import opened SeqNum
  import opened Common
  import opened Protocol
  import opened Ring
  import opened Reporter
  import opened ReporterSlots
  import opened ReporterNotices
  import opened ReporterInvariant

  lemma FreshKeeps(c: Config, slots: seq<Outcome>, n: nat)
    requires ValidConfig(c) && |slots| == c.window && 1 <= n
    ensures Inv(c, Fresh(c, slots, n))
  {
    var s := Fresh(c, slots, n);
    assert PacketsOf([]) == [];
    assert NumberedOk(c, s.sh, [], s.ledger) && Left(s) == [];
    assert NoticesOk(s.threads, [], s.ledger, 0);
  }

  lemma {:induction false} RunKeeps(c: Config, batch: nat, states: seq<Sys>, acts: seq<Act>, i: nat)
    requires IsRun(c, batch, states, acts) && i < |states|
    ensures Inv(c, states[i])
    decreases i
  {
    if i == 0 {
      var slots: seq<Outcome>, n: nat :| |slots| == c.window && 1 <= n && states[0] == Fresh(c, slots, n);
      FreshKeeps(c, slots, n);
    } else {
      RunKeeps(c, batch, states, acts, i - 1);
      IsStepKeeps(c, batch, states[i - 1], acts[i - 1], states[i]);
    }
  }

  lemma IsStepKeeps(c: Config, batch: nat, s: Sys, a: Act, r: Sys)
    requires Inv(c, s) && 1 <= batch && IsStep(c, batch, s, a, r)
    ensures Inv(c, r)
  {
    StepKeeps(c, batch, s, a);
  }

  /** Nothing in IsStep but Enabled keeps a step from being taken. */
  lemma RunContinues(c: Config, batch: nat, states: seq<Sys>, acts: seq<Act>, a: Act)
    requires IsRun(c, batch, states, acts)
    ensures SharedOk(c, states[|acts|].sh)
    ensures Enabled(c, states[|acts|], a) ==>
              exists r :: IsRun(c, batch, states + [r], acts + [a])
  {
    RunKeeps(c, batch, states, acts, |acts|);
    if Enabled(c, states[|acts|], a) {
      InvCounts(c, states[|acts|]);
      var r := Next(c, batch, states[|acts|], a);
      RunExtends(c, batch, states, acts, a, r);
    }
  }

  lemma RunExtends(c: Config, batch: nat, states: seq<Sys>, acts: seq<Act>, a: Act, r: Sys)
    requires IsRun(c, batch, states, acts) && IsStep(c, batch, states[|acts|], a, r)
    ensures IsRun(c, batch, states + [r], acts + [a])
  {
    var states', acts' := states + [r], acts + [a];
    assert states'[0] == states[0];
    forall i | 0 <= i < |acts'| ensures IsStep(c, batch, states'[i], acts'[i], states'[i + 1]) {
      if i < |acts| {
        assert IsStep(c, batch, states[i], acts[i], states[i + 1]);
      }
    }
  }

  // ----- once, and in order

  /** Told of, by one callback only. */
  ghost predicate ToldOnce(told: seq<Told>, numbered: bool, index: nat) {
    exists i :: 0 <= i < |told| && IsOf(told[i].notice, numbered, index) &&
                forall j :: 0 <= j < |told| && j != i ==> !IsOf(told[j].notice, numbered, index)
  }

  lemma ToldOfOnce(threads: seq<Thread>, told: seq<Told>, l: Ledger, reported: nat, numbered: bool, index: nat)
    requires NoticesOk(threads, told, l, reported) && Calling(l, numbered, index)
    requires forall t :: 0 <= t < |threads| ==> threads[t].at.Idle?
    ensures ToldOnce(told, numbered, index)
  {
    assert Covered(threads, told, numbered, index);
    forall t | 0 <= t < |threads| ensures !Owes(threads[t], numbered, index) {
      assert ThreadOk(l, reported, t, threads[t]);
    }
    var i :| 0 <= i < |told| && IsOf(told[i].notice, numbered, index);
    forall j | 0 <= j < |told| && j != i ensures !IsOf(told[j].notice, numbered, index) {
      if j < i {
        assert Precedes(told[j].notice, told[i].notice);
      } else {
        assert Precedes(told[i].notice, told[j].notice);
      }
    }
  }

  /** In every state of every run, however threads interleave: the packets accepted
      are those decided on, in order, and those still in unresolved slots. The
      reporter has confirmed a prefix of the decisions that are its to confirm,
      and every other callback made was for a decision of its own. Once no thread is
      inside, every decision has been reported, those of given-up and of sent packets
      by exactly one callback each, and the queue is open again. */
  lemma ReportedOnceInOrder(c: Config, batch: nat, states: seq<Sys>, acts: seq<Act>, i: nat)
    requires IsRun(c, batch, states, acts) && i < |states|
    ensures var s := states[i];
            && SharedOk(c, s.sh)
            && s.ledger.accepted == PacketsOf(s.ledger.decisions) + PacketsOf(InUse(c, s.sh)[PendingCount(c, s.sh)..])
            && s.log.reported <= Through(s.ledger)
            && s.log.unnumbered <= Saved(s.ledger)
            && (forall j :: 0 <= j < |s.log.told| ==> Due(s.ledger, s.log.told[j].notice))
            && (forall j, k :: 0 <= j < k < |s.log.told| ==> Precedes(s.log.told[j].notice, s.log.told[k].notice))
    ensures Quiescent(states[i]) ==>
              && states[i].log.reported == Through(states[i].ledger)
              && states[i].log.unnumbered == Saved(states[i].ledger)
              && (forall numbered, index :: Calling(states[i].ledger, numbered, index) ==>
                    ToldOnce(states[i].log.told, numbered, index))
              && !states[i].sh.busy && !states[i].sh.busOut
  {
    RunKeeps(c, batch, states, acts, i);
    InvReports(c, states[i]);
    if Quiescent(states[i]) {
      QuiescentReports(c, states[i]);
    }
  }

  lemma InvReports(c: Config, s: Sys)
    requires Inv(c, s)
    ensures s.ledger.accepted == PacketsOf(s.ledger.decisions) + PacketsOf(InUse(c, s.sh)[PendingCount(c, s.sh)..])
    ensures s.log.reported <= Through(s.ledger) && s.log.unnumbered <= Saved(s.ledger)
    ensures forall j :: 0 <= j < |s.log.told| ==> Due(s.ledger, s.log.told[j].notice)
  {
    assert s.ledger.accepted == s.ledger.accepted[..|s.ledger.decisions|] + Todo(s.ledger);
    forall j | 0 <= j < |s.log.told| ensures Due(s.ledger, s.log.told[j].notice) {
      assert ToldOk(s.ledger, |s.log.reported|, s.log.told[j]);
    }
  }

  lemma QuiescentReports(c: Config, s: Sys)
    requires Inv(c, s) && Quiescent(s)
    ensures s.log.reported == Through(s.ledger) && s.log.unnumbered == Saved(s.ledger)
    ensures forall numbered, index :: Calling(s.ledger, numbered, index) ==> ToldOnce(s.log.told, numbered, index)
    ensures !s.sh.busy && !s.sh.busOut
  {
    assert !Active(s.threads[s.holder]);
    forall numbered, index | Calling(s.ledger, numbered, index) ensures ToldOnce(s.log.told, numbered, index) {
      ToldOfOnce(s.threads, s.log.told, s.ledger, |s.log.reported|, numbered, index);
    }
  }

  // ----- giving up, in order

  /** The confirmations decided before a give-up, if they were made before it was told
      of, are the first the reporter made. */
  lemma SureFollows(c: Config, batch: nat, states: seq<Sys>, acts: seq<Act>, i: nat, j: nat)
    requires IsRun(c, batch, states, acts) && i < |states| && j < |states[i].log.told|
    requires states[i].log.told[j].sure && states[i].log.told[j].notice.numbered
    ensures var s, x := states[i], states[i].log.told[j];
            && x.notice.index < |s.ledger.decisions| && x.reported <= |s.log.reported|
            && Except(s.ledger.decisions[..x.notice.index], TimedOut) <= s.log.reported[..x.reported]
  {
    RunKeeps(c, batch, states, acts, i);
    var s, x := states[i], states[i].log.told[j];
    InvReports(c, s);
    assert ToldOk(s.ledger, |s.log.reported|, x);
    var d, n := s.ledger.decisions, x.notice.index;
    EarlierReported(d, n, s.log.reported, x.reported);
  }

  lemma EarlierReported(d: seq<Outcome>, n: nat, reported: seq<Outcome>, k: nat)
    requires n <= |d| && reported <= Except(d, TimedOut) && |Except(d[..n], TimedOut)| <= k <= |reported|
    ensures Except(d[..n], TimedOut) <= reported[..k]
  {
    var x := Except(d[..n], TimedOut);
    assert d == d[..n] + d[n..];
    ExceptAppend(d[..n], d[n..], TimedOut);
    assert reported[..k][..|x|] == Except(d, TimedOut)[..|x|] == x;
  }

  /** Where a thread that found the bit clear can be until it makes its callback. */
  predicate Clear(th: Thread) {
    th.at.Holds? || th.at.Calls? || (th.at.Tells? && th.at.sure)
  }

  lemma ClearStep(c: Config, batch: nat, s: Sys, a: Act, r: Sys, t: nat)
    requires IsStep(c, batch, s, a, r) && t < |s.threads| && s.threads[t].owes.Some?
    requires if a == Test(t) then !s.sh.busy else Clear(s.threads[t]) && a != Tell(t)
    ensures t < |r.threads| && r.threads[t].owes == s.threads[t].owes && Clear(r.threads[t])
  {
  }

  lemma {:induction false} ClearStaysSure(c: Config, batch: nat, states: seq<Sys>, acts: seq<Act>, i: nat, j: nat,
                                          t: nat)
    requires IsRun(c, batch, states, acts) && i < j <= |acts| && acts[i] == Test(t)
    requires t < |states[i].threads| && states[i].threads[t].owes.Some? && !states[i].sh.busy
    requires forall k :: i < k < j ==> acts[k] != Tell(t) && acts[k] != Test(t)
    ensures t < |states[j].threads| && states[j].threads[t].owes == states[i].threads[t].owes
            && Clear(states[j].threads[t])
    decreases j
  {
    assert IsStep(c, batch, states[j - 1], acts[j - 1], states[j]);
    if i + 1 < j {
      ClearStaysSure(c, batch, states, acts, i, j - 1, t);
    }
    ClearStep(c, batch, states[j - 1], acts[j - 1], states[j], t);
  }

  /** A thread that found the busy bit clear tells of the packet it gave up after every
      confirmation decided before that. */
  lemma GiveUpFollows(c: Config, batch: nat, states: seq<Sys>, acts: seq<Act>, i: nat, j: nat, t: nat)
    requires IsRun(c, batch, states, acts) && i < j < |acts| && acts[i] == Test(t) && acts[j] == Tell(t)
    requires forall k :: i < k < j ==> acts[k] != Tell(t) && acts[k] != Test(t)
    requires t < |states[i].threads| && states[i].threads[t].owes.Some? && states[i].threads[t].owes.value.numbered
    requires !states[i].sh.busy
    ensures var s, n := states[j], states[i].threads[t].owes.value;
            && states[j + 1].log.told == s.log.told + [Told(n, true, |s.log.reported|)]
            && n.index < |s.ledger.decisions|
            && Except(s.ledger.decisions[..n.index], TimedOut) <= s.log.reported
  {
    ClearStaysSure(c, batch, states, acts, i, j, t);
    assert IsStep(c, batch, states[j], acts[j], states[j + 1]);
    SureFollows(c, batch, states, acts, j + 1, |states[j].log.told|);
  }

  /** A thread that finds the bit set while a confirmation decided before is still to
      be made can overtake it: its next two steps do. */
  lemma GiveUpOvertakes(c: Config, batch: nat, states: seq<Sys>, acts: seq<Act>, t: nat)
    requires IsRun(c, batch, states, acts) && t < |states[|acts|].threads|
    requires var s := states[|acts|];
             && s.threads[t].at.Wants? && s.threads[t].owes.Some? && s.sh.busy
             && !Settled(s.ledger, |s.log.reported|, s.threads[t].owes.value)
    ensures exists r, q ::
              && IsRun(c, batch, states + [r] + [q], acts + [Test(t)] + [Tell(t)])
              && Overtaken(q, states[|acts|].threads[t].owes.value)
  {
    RunKeeps(c, batch, states, acts, |acts|);
    var s := states[|acts|];
    var r := AfterTest(s, t);
    var q := AfterTell(r, t);
    BusyTest(c, batch, s, t, r);
    RunExtends(c, batch, states, acts, Test(t), r);
    RunExtends(c, batch, states + [r], acts + [Test(t)], Tell(t), q);
    assert q.log.told[|q.log.told| - 1] == Told(s.threads[t].owes.value, false, |s.log.reported|);
  }

  /** Finding the bit set, a thread goes straight on to its own callback. */
  lemma BusyTest(c: Config, batch: nat, s: Sys, t: nat, r: Sys)
    requires Inv(c, s) && t < |s.threads| && s.threads[t].at.Wants? && s.threads[t].owes.Some? && s.sh.busy
    requires r == AfterTest(s, t)
    ensures IsStep(c, batch, s, Test(t), r) && IsStep(c, batch, r, Tell(t), AfterTell(r, t))
  {
    InvCounts(c, s);
  }

  /** Such a thread is sure exactly if what was decided before has been reported. */
  lemma BusyTestSays(c: Config, s: Sys, t: nat)
    requires Inv(c, s) && t < |s.threads| && s.threads[t].at.Wants? && s.sh.busy
    requires s.threads[t].owes.Some? && s.threads[t].owes.value.numbered
    ensures var n := s.threads[t].owes.value;
            && n.index < |s.ledger.decisions|
            && AfterTest(s, t).threads[t].at == Tells(Except(s.ledger.decisions[..n.index], TimedOut) <= s.log.reported)
  {
    InvReports(c, s);
    var n := s.threads[t].owes.value;
    ExceptPrefix(s.ledger.decisions, n.index, TimedOut);
  }

  lemma {:induction false} ExceptPrefix(o: seq<Outcome>, k: nat, r: Result)
    requires k <= |o|
    ensures Except(o[..k], r) <= Except(o, r)
    decreases |o|
  {
    if k == |o| {
      assert o[..k] == o;
    } else {
      ExceptPrefix(o[..|o| - 1], k, r);
      assert o[..|o| - 1][..k] == o[..k];
    }
  }

  /** A pass makes the confirmation of an unnumbered packet before those it copied. */
  lemma UnnumberedFirst(s: Sys, t: nat)
    requires t < |s.threads| && s.threads[t].at.Calls? && s.threads[t].at.first.Some?
    ensures var r := AfterCallback(s, t);
            && r.log.unnumbered == s.log.unnumbered + [s.threads[t].at.first.value]
            && r.log.reported == s.log.reported && r.threads[t].at == s.threads[t].at.(first := None)
  {
  }

  /** The last callback made tells of n, with confirmations decided before n unmade. */
  predicate Overtaken(s: Sys, n: Notice) {
    && s.log.told != [] && s.log.told[|s.log.told| - 1].notice == n
    && s.log.told[|s.log.told| - 1].reported < Before(s.ledger, n)
  }

  /** If one thread receives, give-ups too are told of in the order decided. */
  lemma OneReceiverInOrder(c: Config, batch: nat, states: seq<Sys>, acts: seq<Act>, i: nat, t: nat, k: nat, index: nat)
    requires IsRun(c, batch, states, acts) && i < |states| && k < |states[i].log.told|
    requires var s := states[i];
             && s.log.told[k].notice.numbered && index < s.log.told[k].notice.index
             && Calling(s.ledger, true, index)
             && (forall j :: 0 <= j < |s.log.told| && s.log.told[j].notice.numbered ==>
                   s.log.told[j].notice.thread == t)
             && (forall u :: 0 <= u < |s.threads| && s.threads[u].owes.Some? && s.threads[u].owes.value.numbered ==>
                   u == t)
    ensures exists j :: 0 <= j < k && IsOf(states[i].log.told[j].notice, true, index)
  {
    RunKeeps(c, batch, states, acts, i);
    var s := states[i];
    EarlierTold(s.threads, s.log.told, s.ledger, |s.log.reported|, t, k, index);
  }

  lemma EarlierTold(threads: seq<Thread>, told: seq<Told>, l: Ledger, reported: nat, t: nat, k: nat, index: nat)
    requires NoticesOk(threads, told, l, reported) && k < |told| && Calling(l, true, index)
    requires told[k].notice.numbered && told[k].notice.thread == t && index < told[k].notice.index
    requires forall j :: 0 <= j < |told| && told[j].notice.numbered ==> told[j].notice.thread == t
    requires forall u :: 0 <= u < |threads| && threads[u].owes.Some? && threads[u].owes.value.numbered ==> u == t
    ensures exists j :: 0 <= j < k && IsOf(told[j].notice, true, index)
  {
    assert Covered(threads, told, true, index);
    forall u | 0 <= u < |threads| ensures !Owes(threads[u], true, index) {
      assert ThreadOk(l, reported, u, threads[u]);
      assert threads[u].owes.Some? ==> Precedes(told[k].notice, threads[u].owes.value);
    }
    var j :| 0 <= j < |told| && IsOf(told[j].notice, true, index);
    assert k < j ==> Precedes(told[k].notice, told[j].notice);
  }

  // ----- unnumbered packets

  /** In every state of every run: of the unnumbered packets accepted, exactly those
      accepted while no DISCONNECT was marked have been decided on, in order, or are
      held. */
  lemma UrgentConfirmedIffUnmarked(c: Config, batch: nat, states: seq<Sys>, acts: seq<Act>, i: nat)
    requires IsRun(c, batch, states, acts) && i < |states|
    ensures Unmarked(states[i].ledger.urgents) == PacketsOf(states[i].ledger.uDecisions) + HeldUrgent(states[i].sh.slot)
  {
    RunKeeps(c, batch, states, acts, i);
  }

  function PostedPackets(u: seq<Posted>): (p: seq<Packet>)
    ensures |p| == |u|
    ensures forall i :: 0 <= i < |u| ==> p[i] == u[i].packet
  {
    seq(|u|, i requires 0 <= i < |u| => u[i].packet)
  }

  lemma {:induction false} AllUnmarked(u: seq<Posted>)
    requires forall i :: 0 <= i < |u| ==> !u[i].marked
    ensures Unmarked(u) == PostedPackets(u)
    decreases |u|
  {
    if u != [] {
      AllUnmarked(u[..|u| - 1]);
      assert PostedPackets(u) == PostedPackets(u[..|u| - 1]) + [u[|u| - 1].packet];
    }
  }

  /** Only an unmarked packet is among the unmarked. */
  lemma {:induction false} UnmarkedFrom(u: seq<Posted>, p: Packet)
    requires forall i :: 0 <= i < |u| && u[i].packet == p ==> u[i].marked
    ensures p !in Unmarked(u)
    decreases |u|
  {
    if u != [] {
      UnmarkedFrom(u[..|u| - 1], p);
    }
  }

  /** If none is accepted while one is marked, every packet accepted is decided on, in
      order, or held. */
  lemma UrgentsConserved(c: Config, batch: nat, states: seq<Sys>, acts: seq<Act>, i: nat)
    requires IsRun(c, batch, states, acts) && i < |states|
    requires forall k :: 0 <= k < |states[i].ledger.urgents| ==> !states[i].ledger.urgents[k].marked
    ensures PostedPackets(states[i].ledger.urgents) == PacketsOf(states[i].ledger.uDecisions)
            + HeldUrgent(states[i].sh.slot)
  {
    UrgentConfirmedIffUnmarked(c, batch, states, acts, i);
    AllUnmarked(states[i].ledger.urgents);
  }

  /** A packet accepted while one is marked, and no other like it, is decided on in no
      state of the run, however long that is continued. */
  lemma MarkedNeverDecided(c: Config, batch: nat, states: seq<Sys>, acts: seq<Act>, i: nat, k: nat)
    requires IsRun(c, batch, states, acts) && i < |states| && k < |states[i].ledger.urgents|
    requires states[i].ledger.urgents[k].marked
    requires forall j :: 0 <= j < |states[i].ledger.urgents| && j != k ==>
               states[i].ledger.urgents[j].packet != states[i].ledger.urgents[k].packet
    ensures states[i].ledger.urgents[k].packet !in PacketsOf(states[i].ledger.uDecisions)
  {
    UrgentConfirmedIffUnmarked(c, batch, states, acts, i);
    UnmarkedFrom(states[i].ledger.urgents, states[i].ledger.urgents[k].packet);
  }
}
