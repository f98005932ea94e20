/**
 What the slots of the deferred build hold under each critical section: first the
 decisions not yet copied by the reporter, then the packets not yet decided on.
 */
module ReporterSlots {
  import opened SeqNum
  import opened Common
  import opened Protocol
  import opened Ring
  import opened Reporter

  /** Of the outcomes w, the first n are the decisions after those that left, and the
      others have the packets still to be decided on. */
  ghost predicate Continues(n: nat, w: seq<Outcome>, left: seq<Outcome>, resolved: seq<Outcome>, todo: seq<Packet>) {
    && n <= |w|
    && resolved == left + w[..n]
    && todo == PacketsOf(w[n..])
  }

  ghost predicate SlotsHold(c: Config, sh: Shared, left: seq<Outcome>, resolved: seq<Outcome>, todo: seq<Packet>)
    requires SharedOk(c, sh)
  {
    Continues(PendingCount(c, sh), InUse(c, sh), left, resolved, todo)
  }

  /** The slots depend on the window alone. */
  lemma SlotsSame(c: Config, sh: Shared, sh': Shared, left: seq<Outcome>, resolved: seq<Outcome>, todo: seq<Packet>)
    requires SharedOk(c, sh) && SlotsHold(c, sh, left, resolved, todo)
    requires sh'.slots == sh.slots && sh'.lastQueued == sh.lastQueued
    requires sh'.lastAck == sh.lastAck && sh'.lastReported == sh.lastReported
    ensures SharedOk(c, sh') && SlotsHold(c, sh', left, resolved, todo)
  {
    assert InUse(c, sh') == InUse(c, sh);
  }

  // ----- enqueueing

  lemma ContinuesStored(n: nat, w: seq<Outcome>, left: seq<Outcome>, resolved: seq<Outcome>, todo: seq<Packet>,
                        o: Outcome)
    requires Continues(n, w, left, resolved, todo)
    ensures Continues(n, w + [o], left, resolved, todo + [o.packet])
  {
    assert (w + [o])[n..] == w[n..] + [o];
    assert (w + [o])[..n] == w[..n];
  }

  /** A slot is not reused before its packet was copied. */
  lemma EnqueueHolds(c: Config, sh: Shared, left: seq<Outcome>, resolved: seq<Outcome>, todo: seq<Packet>, p: Packet)
    requires SharedOk(c, sh) && SlotsHold(c, sh, left, resolved, todo) && !Closed(c, sh)
    ensures SlotsHold(c, EnqueueSection(c, sh, p), left, resolved, todo + [p])
  {
    var n := Dist(c.ids, sh.lastQueued, sh.lastReported);
    var id := Succ(c.ids, sh.lastQueued);
    var it := sh.slots[SlotOf(c, id)].(packet := p);
    assert id == Plus(c.ids, sh.lastReported, n + 1);
    HeldStore(c, sh.slots, sh.lastReported, n, it);
    assert InUse(c, EnqueueSection(c, sh, p)) == InUse(c, sh) + [it];
    ContinuesStored(PendingCount(c, sh), InUse(c, sh), left, resolved, todo, it);
  }

  // ----- resolving

  lemma ContinuesResolved(n: nat, w: seq<Outcome>, left: seq<Outcome>, resolved: seq<Outcome>, todo: seq<Packet>,
                          r: Result)
    requires Continues(n, w, left, resolved, todo) && n < |w|
    ensures todo != []
    ensures var o := Outcome(w[n].packet, r);
            o.packet == todo[0] && Continues(n + 1, w[n := o], left, resolved + [o], todo[1..])
  {
    var o := Outcome(w[n].packet, r);
    assert w[n := o][..n + 1] == w[..n] + [o];
    assert w[n := o][n + 1..] == w[n..][1..];
  }

  /** Resolving one packet writes its result into its own slot alone. */
  lemma ResolveOneHolds(c: Config, sh: Shared, left: seq<Outcome>, resolved: seq<Outcome>, todo: seq<Packet>, r: Result)
    requires SharedOk(c, sh) && SlotsHold(c, sh, left, resolved, todo) && 1 <= Unresolved(c, sh)
    ensures todo != [] && SlotsHold(c, Resolve(c, sh, 1, r), left, resolved + [Outcome(todo[0], r)], todo[1..])
  {
    var n, w := PendingCount(c, sh), InUse(c, sh);
    var id := Succ(c.ids, sh.lastAck);
    var it := sh.slots[SlotOf(c, id)].(result := r);
    assert Resolve(c, sh, 1, r) == Resolve(c, sh.(slots := sh.slots[SlotOf(c, id) := it], lastAck := id), 0, r);
    assert id == Plus(c.ids, sh.lastReported, n + 1);
    HeldWrite(c, sh.slots, sh.lastReported, |w|, n, it);
    assert InUse(c, Resolve(c, sh, 1, r)) == w[n := it];
    ContinuesResolved(n, w, left, resolved, todo, r);
  }

  lemma ResolveSplit(c: Config, sh: Shared, k: nat, r: Result)
    requires SharedOk(c, sh) && 1 <= k <= Unresolved(c, sh)
    ensures Resolve(c, Resolve(c, sh, 1, r), k - 1, r) == Resolve(c, sh, k, r)
  {
    var id := Succ(c.ids, sh.lastAck);
    var t := sh.(slots := sh.slots[SlotOf(c, id) := sh.slots[SlotOf(c, id)].(result := r)], lastAck := id);
    assert Resolve(c, sh, 1, r) == Resolve(c, t, 0, r) == t;
  }

  lemma DecideSplit(resolved: seq<Outcome>, todo: seq<Packet>, k: nat, r: Result)
    requires 1 <= k <= |todo|
    ensures resolved + [Outcome(todo[0], r)] + Decide(todo[1..][..k - 1], r) == resolved + Decide(todo[..k], r)
    ensures todo[1..][k - 1..] == todo[k..]
  {
    assert [Outcome(todo[0], r)] + Decide(todo[1..][..k - 1], r) == Decide(todo[..k], r);
  }

  lemma {:induction false} ResolveHolds(c: Config, sh: Shared, left: seq<Outcome>, resolved: seq<Outcome>,
                                        todo: seq<Packet>, k: nat, r: Result)
    requires SharedOk(c, sh) && SlotsHold(c, sh, left, resolved, todo) && k <= Unresolved(c, sh)
    ensures k <= |todo| && SlotsHold(c, Resolve(c, sh, k, r), left, resolved + Decide(todo[..k], r), todo[k..])
    decreases k
  {
    if k == 0 {
      assert resolved + Decide(todo[..0], r) == resolved && todo[0..] == todo;
    } else {
      ResolveOneHolds(c, sh, left, resolved, todo, r);
      ResolveHolds(c, Resolve(c, sh, 1, r), left, resolved + [Outcome(todo[0], r)], todo[1..], k - 1, r);
      ResolveSplit(c, sh, k, r);
      DecideSplit(resolved, todo, k, r);
    }
  }

  // ----- giving up

  lemma MoveOne(c: Config, slots: seq<Outcome>, base: nat, w: seq<Outcome>, k: nat)
    requires ValidConfig(c) && |slots| == c.window && base < c.ids && k + 1 < |w| <= c.window
    requires Held(c, slots, base, |w|) == w
    ensures var id := Plus(c.ids, base, k + 1);
            && Succ(c.ids, id) == Plus(c.ids, base, k + 2)
            && slots[SlotOf(c, Succ(c.ids, id))] == w[k + 1]
            && Held(c, slots[SlotOf(c, id) := w[k + 1]], base, |w|) == w[k := w[k + 1]]
  {
    HeldWrite(c, slots, base, |w|, k, w[k + 1]);
    assert slots[SlotAt(c, base, k + 2)] == Held(c, slots, base, |w|)[k + 1];
  }

  /** The moves leave the places before k alone, and the last packet in two slots. */
  lemma {:induction false} MoveUpHeld(c: Config, slots: seq<Outcome>, base: nat, w: seq<Outcome>, k: nat)
    requires ValidConfig(c) && |slots| == c.window && base < c.ids && k < |w| <= c.window
    requires Held(c, slots, base, |w|) == w
    ensures Held(c, MoveUp(c, slots, Plus(c.ids, base, k + 1), |w| - 1 - k), base, |w|) == Without(w, k) + [w[|w| - 1]]
    decreases |w| - k
  {
    if k == |w| - 1 {
      assert Without(w, k) + [w[k]] == w;
    } else {
      var id := Plus(c.ids, base, k + 1);
      MoveOne(c, slots, base, w, k);
      MoveUpHeld(c, slots[SlotOf(c, id) := w[k + 1]], base, w[k := w[k + 1]], k + 1);
      assert Without(w[k := w[k + 1]], k + 1) == Without(w, k);
    }
  }

  lemma ContinuesWithout(n: nat, w: seq<Outcome>, left: seq<Outcome>, resolved: seq<Outcome>, todo: seq<Packet>)
    requires Continues(n, w, left, resolved, todo) && n < |w|
    ensures todo != [] && Continues(n, Without(w, n), left, resolved, todo[1..])
  {
    assert Without(w, n)[..n] == w[..n];
    assert Without(w, n)[n..] == w[n..][1..];
  }

  lemma GiveUpInUse(c: Config, sh: Shared)
    requires SharedOk(c, sh) && 0 < Unresolved(c, sh)
    ensures PendingCount(c, GiveUp(c, sh)) == PendingCount(c, sh)
    ensures InUse(c, GiveUp(c, sh)) == Without(InUse(c, sh), PendingCount(c, sh))
  {
    var n, w, t := PendingCount(c, sh), InUse(c, sh), GiveUp(c, sh);
    assert Succ(c.ids, sh.lastAck) == Plus(c.ids, sh.lastReported, n + 1);
    MoveUpHeld(c, sh.slots, sh.lastReported, w, n);
    assert InUse(c, t) == Held(c, t.slots, sh.lastReported, |w|)[..|w| - 1];
  }

  /** Giving up moves only slots not decided on, none that is pending. */
  lemma GiveUpHolds(c: Config, sh: Shared, left: seq<Outcome>, resolved: seq<Outcome>, todo: seq<Packet>)
    requires SharedOk(c, sh) && SlotsHold(c, sh, left, resolved, todo) && 0 < Unresolved(c, sh)
    ensures todo != [] && SlotsHold(c, GiveUp(c, sh), left, resolved, todo[1..])
  {
    GiveUpInUse(c, sh);
    ContinuesWithout(PendingCount(c, sh), InUse(c, sh), left, resolved, todo);
  }

  // ----- copying

  lemma ContinuesAfter(n: nat, w: seq<Outcome>, v: seq<Outcome>, left: seq<Outcome>, resolved: seq<Outcome>,
                       todo: seq<Packet>)
    requires Continues(n, w, left, resolved, todo) && 1 <= n && v == w[1..]
    ensures Continues(n - 1, v, left + [w[0]], resolved, todo)
  {
    assert v[n - 1..] == w[n..];
    assert left + [w[0]] + v[..n - 1] == left + w[..n];
  }

  lemma CopyOneHolds(c: Config, sh: Shared, left: seq<Outcome>, resolved: seq<Outcome>, todo: seq<Packet>)
    requires SharedOk(c, sh) && SlotsHold(c, sh, left, resolved, todo) && 1 <= PendingCount(c, sh)
    ensures SlotsHold(c, Past(c, sh, 1), left + CopySlots(c, sh, 1), resolved, todo)
  {
    HeldDrop(c, sh.slots, sh.lastReported, |InUse(c, sh)|);
    ContinuesAfter(PendingCount(c, sh), InUse(c, sh), InUse(c, Past(c, sh, 1)), left, resolved, todo);
    assert CopySlots(c, sh, 1) == [InUse(c, sh)[0]];
  }

  lemma CopySplit(c: Config, sh: Shared, left: seq<Outcome>, n: nat)
    requires SharedOk(c, sh) && 1 <= n <= PendingCount(c, sh)
    ensures Past(c, Past(c, sh, 1), n - 1) == Past(c, sh, n)
    ensures left + CopySlots(c, sh, n) == left + CopySlots(c, sh, 1) + CopySlots(c, Past(c, sh, 1), n - 1)
  {
    assert CopySlots(c, sh, n) == CopySlots(c, sh, 1) + CopySlots(c, Past(c, sh, 1), n - 1);
  }

  /** The copying loop reads the pending slots in sequence order. */
  lemma {:induction false} CopyHolds(c: Config, sh: Shared, left: seq<Outcome>, resolved: seq<Outcome>,
                                     todo: seq<Packet>, n: nat)
    requires SharedOk(c, sh) && SlotsHold(c, sh, left, resolved, todo) && n <= PendingCount(c, sh)
    ensures SlotsHold(c, Past(c, sh, n), left + CopySlots(c, sh, n), resolved, todo)
    decreases n
  {
    if n == 0 {
      assert left + CopySlots(c, sh, 0) == left;
    } else {
      CopyOneHolds(c, sh, left, resolved, todo);
      CopySplit(c, sh, left, n);
      CopyHolds(c, Past(c, sh, 1), left + CopySlots(c, sh, 1), resolved, todo, n - 1);
    }
  }

  // ----- the reset

  /** While the bus is out everything is decided, and something is still pending. */
  predicate Closing(sh: Shared) {
    sh.lastQueued == sh.lastAck && (sh.lastReported != sh.lastAck || sh.unnumbered.Some?)
  }

  /** Nothing is lost to the reset: it finds every slot free. */
  lemma ResetHolds(c: Config, sh: Shared, left: seq<Outcome>, resolved: seq<Outcome>, todo: seq<Packet>)
    requires SharedOk(c, sh) && SlotsHold(c, sh, left, resolved, todo)
    requires sh.busOut ==> sh.lastQueued == sh.lastAck
    ensures var t := ResetIfDrained(sh); SharedOk(c, t) && SlotsHold(c, t, left, resolved, todo)
    ensures ResetIfDrained(sh).busOut ==> Closing(ResetIfDrained(sh))
  {
  }

  /** One pass of the reporter under the lock. */
  lemma CopyPassHolds(c: Config, batch: nat, sh: Shared, left: seq<Outcome>, resolved: seq<Outcome>, todo: seq<Packet>)
    requires SharedOk(c, sh) && SlotsHold(c, sh, left, resolved, todo) && 1 <= batch
    requires sh.busOut ==> sh.lastQueued == sh.lastAck
    ensures SharedOk(c, CopySection(c, batch, sh))
    ensures SlotsHold(c, CopySection(c, batch, sh), left + CopySlots(c, sh, BatchSize(c, batch, sh)), resolved, todo)
    ensures CopySection(c, batch, sh).busOut ==> sh.busOut && Closing(CopySection(c, batch, sh))
    ensures NothingToCopy(c, sh) ==> NothingToCopy(c, CopySection(c, batch, sh))
  {
    var n := BatchSize(c, batch, sh);
    var more := left + CopySlots(c, sh, n);
    CopyHolds(c, sh, left, resolved, todo, n);
    var past := Past(c, sh, n).(unnumbered := None);
    SlotsSame(c, Past(c, sh, n), past, more, resolved, todo);
    ResetHolds(c, past, more, resolved, todo);
    SlotsSame(c, ResetIfDrained(past), CopySection(c, batch, sh), more, resolved, todo);
  }
}
