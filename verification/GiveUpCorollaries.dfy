/**
 What the give-up theorem means to a caller whose packets can be told apart.
 */
module GiveUpCorollaries {
  import opened SeqNum
  import opened Common
  import opened Protocol
  import opened Link
  import opened GiveUpInvariant
  import opened GiveUp

  predicate Distinct<T(==)>(q: seq<T>) {
    forall i, j :: 0 <= i < j < |q| ==> q[i] != q[j]
  }

  lemma {:induction false} SucceededIff(o: seq<Outcome>, p: Packet)
    ensures p in Succeeded(o) <==> Outcome(p, Success) in o
  {
    if o != [] {
      var init, last := o[..|o| - 1], o[|o| - 1];
      SucceededIff(init, p);
      assert o == init + [last];
    }
  }

  lemma {:induction false} SucceededDistinct(o: seq<Outcome>)
    requires Distinct(PacketsOf(o))
    ensures Distinct(Succeeded(o))
  {
    if o != [] {
      var init, last := o[..|o| - 1], o[|o| - 1];
      assert PacketsOf(init) == PacketsOf(o)[..|init|];
      SucceededDistinct(init);
      forall i | 0 <= i < |Succeeded(init)| ensures Succeeded(init)[i] != last.packet {
        SucceededIff(init, Succeeded(init)[i]);
        assert PacketsOf(o)[|o| - 1] == last.packet;
      }
    }
  }

  /** No packet reported given up is ever delivered; each packet reported
      delivered was delivered, and nothing was delivered twice. */
  lemma GivenUpNeverDelivered(c: Config, tr: seq<Sys>, mv: seq<Move>, k: nat, fromX: bool)
    requires IsRun(c, tr, mv) && QuietRepeats(c, tr, mv) && k <= |mv|
    requires Distinct(Near(tr[k], fromX).accepted)
    ensures var s, r := Near(tr[k], fromX), Far(tr[k], fromX);
            && Distinct(r.delivered)
            && forall i :: 0 <= i < |s.confirmed| ==>
                 (s.confirmed[i].packet in r.delivered <==> s.confirmed[i].result == Success)
  {
    GiveUpIsSafe(c, tr, mv, k, fromX);
    var s, r := Near(tr[k], fromX), Far(tr[k], fromX);
    Reading(s.accepted, s.confirmed, Packets(s.node.tx.window), r.delivered);
  }

  lemma Reading(accepted: seq<Packet>, o: seq<Outcome>, w: seq<Packet>, delivered: seq<Packet>)
    requires accepted == PacketsOf(o) + w && Distinct(accepted)
    requires |Succeeded(o)| <= |delivered| && delivered <= Succeeded(o) + w
    ensures Distinct(delivered)
    ensures forall i :: 0 <= i < |o| ==> (o[i].packet in delivered <==> o[i].result == Success)
  {
    assert PacketsOf(o) == accepted[..|o|] && w == accepted[|o|..];
    SucceededDistinct(o);
    var d := |Succeeded(o)|;
    assert delivered == Succeeded(o) + w[..|delivered| - d];
    forall i, j | 0 <= i < d && 0 <= j < |w| ensures Succeeded(o)[i] != w[j] {
      SucceededIff(o, Succeeded(o)[i]);
      var n :| 0 <= n < |o| && o[n] == Outcome(Succeeded(o)[i], Success);
      assert PacketsOf(o)[n] == accepted[n] && w[j] == accepted[|o| + j];
    }
    forall i | 0 <= i < |o| ensures o[i].packet in delivered <==> o[i].result == Success {
      var p := o[i].packet;
      SucceededIff(o, p);
      assert p == accepted[i];
      assert p !in w;
      if p in Succeeded(o) {
        var n :| 0 <= n < |o| && o[n] == Outcome(p, Success);
        assert accepted[n] == p;
      }
    }
  }
}
