/**
 Callbacks that threads make themselves: each decision that calls for one is told of
 exactly once, by the thread that made it, and those of one thread in the order they
 were decided.
 */
module ReporterNotices {
  import opened Common
  import opened Protocol
  import opened Reporter

  // ----- filtering

  lemma {:induction false} ExceptAppend(x: seq<Outcome>, y: seq<Outcome>, r: Result)
    ensures Except(x + y, r) == Except(x, r) + Except(y, r)
    decreases |y|
  {
    if y == [] {
      assert x + y == x;
    } else {
      var init, last := y[..|y| - 1], y[|y| - 1];
      assert x + y == (x + init) + [last];
      ExceptOne(x + init, last, r);
      ExceptAppend(x, init, r);
      assert Except(x, r) + Except(init, r) + (if last.result == r then [] else [last])
          == Except(x, r) + (Except(init, r) + if last.result == r then [] else [last]);
    }
  }

  lemma ExceptOne(x: seq<Outcome>, o: Outcome, r: Result)
    ensures Except(x + [o], r) == Except(x, r) + if o.result == r then [] else [o]
  {
    assert (x + [o])[..|x|] == x;
  }

  lemma {:induction false} ExceptDecided(p: seq<Packet>, q: Result, r: Result)
    requires q != r
    ensures Except(Decide(p, q), r) == Decide(p, q)
    decreases |p|
  {
    if p != [] {
      var init := p[..|p| - 1];
      assert Decide(p, q) == Decide(init, q) + [Outcome(p[|p| - 1], q)];
      ExceptOne(Decide(init, q), Outcome(p[|p| - 1], q), r);
      ExceptDecided(init, q, r);
    }
  }

  // ----- notices

  /** A decision a thread has to tell of: a packet given up, or one sent. */
  predicate Calling(l: Ledger, numbered: bool, index: nat) {
    if numbered then index < |l.decisions| && l.decisions[index].result == TimedOut
    else index < |l.uDecisions| && l.uDecisions[index].result == Success
  }

  function DecisionOf(l: Ledger, numbered: bool, index: nat): Outcome
    requires Calling(l, numbered, index)
  {
    if numbered then l.decisions[index] else l.uDecisions[index]
  }

  /** A notice of a decision made. */
  predicate Due(l: Ledger, n: Notice) {
    Calling(l, n.numbered, n.index) && n.outcome == DecisionOf(l, n.numbered, n.index)
  }

  /** Of different decisions, and in order if one thread's. */
  predicate Precedes(a: Notice, b: Notice) {
    a.numbered == b.numbered ==> a.index != b.index && (a.thread == b.thread ==> a.index < b.index)
  }

  predicate ThreadOk(l: Ledger, reported: nat, t: nat, th: Thread) {
    && (th.at.Idle? ==> th.owes == None)
    && (th.at.Tells? ==> th.owes.Some?)
    && (th.owes.Some? ==>
          && Due(l, th.owes.value) && th.owes.value.thread == t
          && (th.at.Tells? && th.at.sure ==> Before(l, th.owes.value) <= reported))
  }

  predicate ToldOk(l: Ledger, reported: nat, x: Told) {
    && Due(l, x.notice) && x.reported <= reported
    && (x.sure ==> Before(l, x.notice) <= x.reported)
  }

  predicate Apart(a: Thread, b: Thread) {
    a.owes.Some? && b.owes.Some? && a.owes.value.numbered == b.owes.value.numbered ==>
      a.owes.value.index != b.owes.value.index
  }

  predicate IsOf(n: Notice, numbered: bool, index: nat) {
    n.numbered == numbered && n.index == index
  }

  predicate Owes(th: Thread, numbered: bool, index: nat) {
    th.owes.Some? && IsOf(th.owes.value, numbered, index)
  }

  /** Told of, or about to be. */
  ghost predicate Covered(threads: seq<Thread>, told: seq<Told>, numbered: bool, index: nat) {
    || (exists i :: 0 <= i < |told| && IsOf(told[i].notice, numbered, index))
    || (exists t :: 0 <= t < |threads| && Owes(threads[t], numbered, index))
  }

  ghost predicate NoticesOk(threads: seq<Thread>, told: seq<Told>, l: Ledger, reported: nat) {
    && (forall t :: 0 <= t < |threads| ==> ThreadOk(l, reported, t, threads[t]))
    && (forall i :: 0 <= i < |told| ==> ToldOk(l, reported, told[i]))
    && (forall i, j :: 0 <= i < j < |told| ==> Precedes(told[i].notice, told[j].notice))
    && (forall i, t :: 0 <= i < |told| && 0 <= t < |threads| && threads[t].owes.Some? ==>
          Precedes(told[i].notice, threads[t].owes.value))
    && (forall t, u :: 0 <= t < u < |threads| ==> Apart(threads[t], threads[u]))
    && (forall numbered, index :: Calling(l, numbered, index) ==> Covered(threads, told, numbered, index))
  }

  /** A ledger that has grown without a decision a thread must tell of. */
  ghost predicate GrewQuietly(l: Ledger, m: Ledger) {
    && l.decisions <= m.decisions && l.uDecisions <= m.uDecisions
    && (forall i :: |l.decisions| <= i < |m.decisions| ==> m.decisions[i].result != TimedOut)
    && (forall i :: |l.uDecisions| <= i < |m.uDecisions| ==> m.uDecisions[i].result != Success)
  }

  lemma BeforeKept(l: Ledger, m: Ledger, n: Notice)
    requires l.decisions <= m.decisions && Due(l, n)
    ensures Before(m, n) == Before(l, n)
  {
    if n.numbered {
      assert m.decisions[..n.index] == l.decisions[..n.index];
    }
  }

  lemma DueKept(l: Ledger, m: Ledger, n: Notice)
    requires l.decisions <= m.decisions && l.uDecisions <= m.uDecisions && Due(l, n)
    ensures Due(m, n) && Before(m, n) == Before(l, n)
  {
    BeforeKept(l, m, n);
  }

  lemma ElementsKept(threads: seq<Thread>, told: seq<Told>, l: Ledger, m: Ledger, reported: nat, more: nat)
    requires l.decisions <= m.decisions && l.uDecisions <= m.uDecisions && reported <= more
    requires forall t :: 0 <= t < |threads| ==> ThreadOk(l, reported, t, threads[t])
    requires forall i :: 0 <= i < |told| ==> ToldOk(l, reported, told[i])
    ensures forall t :: 0 <= t < |threads| ==> ThreadOk(m, more, t, threads[t])
    ensures forall i :: 0 <= i < |told| ==> ToldOk(m, more, told[i])
  {
    forall t | 0 <= t < |threads| ensures ThreadOk(m, more, t, threads[t]) {
      assert ThreadOk(l, reported, t, threads[t]);
      if threads[t].owes.Some? {
        DueKept(l, m, threads[t].owes.value);
      }
    }
    forall i | 0 <= i < |told| ensures ToldOk(m, more, told[i]) {
      assert ToldOk(l, reported, told[i]);
      DueKept(l, m, told[i].notice);
    }
  }

  lemma QuietKeeps(threads: seq<Thread>, told: seq<Told>, l: Ledger, m: Ledger, reported: nat, more: nat)
    requires NoticesOk(threads, told, l, reported) && GrewQuietly(l, m) && reported <= more
    ensures NoticesOk(threads, told, m, more)
  {
    ElementsKept(threads, told, l, m, reported, more);
    forall numbered, index | Calling(m, numbered, index) ensures Covered(threads, told, numbered, index) {
      assert Calling(l, numbered, index);
    }
  }

  /** A thread goes elsewhere and owes what it owed. */
  lemma MoveKeeps(threads: seq<Thread>, told: seq<Told>, l: Ledger, reported: nat, t: nat, at: Spot)
    requires NoticesOk(threads, told, l, reported) && t < |threads|
    requires ThreadOk(l, reported, t, threads[t].(at := at))
    ensures NoticesOk(threads[t := threads[t].(at := at)], told, l, reported)
  {
    var threads' := threads[t := threads[t].(at := at)];
    assert forall u :: 0 <= u < |threads| ==> threads'[u].owes == threads[u].owes;
    forall u, v | 0 <= u < v < |threads| ensures Apart(threads'[u], threads'[v]) {
      assert Apart(threads[u], threads[v]);
    }
    forall numbered, index | Calling(l, numbered, index) ensures Covered(threads', told, numbered, index) {
      SameCover(threads, threads', told, numbered, index);
    }
  }

  lemma SameCover(threads: seq<Thread>, threads': seq<Thread>, told: seq<Told>, numbered: bool, index: nat)
    requires Covered(threads, told, numbered, index) && |threads'| == |threads|
    requires forall u :: 0 <= u < |threads| && threads[u].owes.Some? ==> threads'[u].owes == threads[u].owes
    ensures Covered(threads', told, numbered, index)
  {
    if u :| 0 <= u < |threads| && Owes(threads[u], numbered, index) {
      assert Owes(threads'[u], numbered, index);
    }
  }

  /** The newest decision, of which thread t is to tell. */
  ghost predicate Newest(l: Ledger, m: Ledger, n: Notice) {
    && l.decisions <= m.decisions && l.uDecisions <= m.uDecisions
    && |m.decisions| == |l.decisions| + (if n.numbered then 1 else 0)
    && |m.uDecisions| == |l.uDecisions| + (if n.numbered then 0 else 1)
    && n.index == (if n.numbered then |l.decisions| else |l.uDecisions|)
    && Due(m, n)
  }

  lemma NewestIsNew(l: Ledger, m: Ledger, n: Notice, o: Notice)
    requires Newest(l, m, n) && Due(l, o)
    ensures Precedes(o, n) && (o.numbered == n.numbered ==> o.index < n.index)
  {
  }

  lemma NoticeAdds(threads: seq<Thread>, told: seq<Told>, l: Ledger, m: Ledger, reported: nat, t: nat, th: Thread)
    requires NoticesOk(threads, told, l, reported) && t < |threads| && threads[t].at.Idle?
    requires th.owes.Some? && Newest(l, m, th.owes.value) && th.owes.value.thread == t
    requires ThreadOk(m, reported, t, th)
    ensures NoticesOk(threads[t := th], told, m, reported)
  {
    var threads', n := threads[t := th], th.owes.value;
    ElementsKept(threads, told, l, m, reported, reported);
    assert ThreadOk(l, reported, t, threads[t]);
    NoticeApart(threads, threads', l, m, reported, t, th);
    forall i, u | 0 <= i < |told| && 0 <= u < |threads'| && threads'[u].owes.Some?
      ensures Precedes(told[i].notice, threads'[u].owes.value) {
      assert ToldOk(l, reported, told[i]);
      if u == t {
        NewestIsNew(l, m, n, told[i].notice);
      }
    }
    forall numbered, index | Calling(m, numbered, index) ensures Covered(threads', told, numbered, index) {
      if IsOf(n, numbered, index) {
        assert Owes(threads'[t], numbered, index);
      } else {
        assert Calling(l, numbered, index);
        SameCover(threads, threads', told, numbered, index);
      }
    }
  }

  lemma NoticeApart(threads: seq<Thread>, threads': seq<Thread>, l: Ledger, m: Ledger, reported: nat, t: nat,
                    th: Thread)
    requires t < |threads| && threads' == threads[t := th] && th.owes.Some? && Newest(l, m, th.owes.value)
    requires forall u :: 0 <= u < |threads| ==> ThreadOk(l, reported, u, threads[u])
    requires forall u, v :: 0 <= u < v < |threads| ==> Apart(threads[u], threads[v])
    ensures forall u, v :: 0 <= u < v < |threads| ==> Apart(threads'[u], threads'[v])
  {
    forall u, v | 0 <= u < v < |threads| ensures Apart(threads'[u], threads'[v]) {
      assert Apart(threads[u], threads[v]);
      assert ThreadOk(l, reported, u, threads[u]) && ThreadOk(l, reported, v, threads[v]);
    }
  }

  /** The callback is made. */
  lemma TellKeeps(threads: seq<Thread>, told: seq<Told>, l: Ledger, reported: nat, t: nat, x: Told)
    requires NoticesOk(threads, told, l, reported) && t < |threads|
    requires threads[t].at.Tells? && threads[t].owes.Some?
    requires x == Told(threads[t].owes.value, threads[t].at.sure, reported)
    ensures NoticesOk(threads[t := Thread(Idle, None)], told + [x], l, reported)
  {
    var threads', told' := threads[t := Thread(Idle, None)], told + [x];
    assert ThreadOk(l, reported, t, threads[t]);
    forall u, v | 0 <= u < v < |threads'| ensures Apart(threads'[u], threads'[v]) {
      assert Apart(threads[u], threads[v]);
    }
    forall i, u | 0 <= i < |told'| && 0 <= u < |threads'| && threads'[u].owes.Some?
      ensures Precedes(told'[i].notice, threads'[u].owes.value) {
      if i == |told| {
        if u < t {
          assert Apart(threads[u], threads[t]);
        } else {
          assert Apart(threads[t], threads[u]);
        }
        assert ThreadOk(l, reported, u, threads[u]);
      }
    }
    forall numbered, index | Calling(l, numbered, index) ensures Covered(threads', told', numbered, index) {
      ToldCover(threads, told, t, x, numbered, index);
    }
  }

  lemma ToldCover(threads: seq<Thread>, told: seq<Told>, t: nat, x: Told, numbered: bool, index: nat)
    requires Covered(threads, told, numbered, index) && t < |threads| && threads[t].owes == Some(x.notice)
    ensures Covered(threads[t := Thread(Idle, None)], told + [x], numbered, index)
  {
    var threads', told' := threads[t := Thread(Idle, None)], told + [x];
    if i :| 0 <= i < |told| && IsOf(told[i].notice, numbered, index) {
      assert IsOf(told'[i].notice, numbered, index);
    } else {
      var u :| 0 <= u < |threads| && Owes(threads[u], numbered, index);
      if u == t {
        assert IsOf(told'[|told|].notice, numbered, index);
      } else {
        assert Owes(threads'[u], numbered, index);
      }
    }
  }
}
