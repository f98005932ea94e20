/**
 The attempts packets get, told by events alone: a packet is accepted with a TTL,
 copied to the transport, acknowledged, reported missing by a NAK.

 The sending half of a connection keeps the same account in one octet a packet
 and two flags; the lemmas say that it does, event by event.
 */
module Attempts {
  import opened SeqNum
  import opened Common
  import opened Protocol

  /** A packet, the TTL its caller asked for, the copies of it handed to the
      transport, and how often it was charged for one. It is spared its first
      copy if that followed the give-up of the last packet of the window. */
  datatype Tally = Tally(packet: Packet, asked: nat, copies: nat, charges: nat, spared: bool)

  /** The tallies of the window, how many of its packets have gone out since a NAK
      last sent the sender back, whether a give-up has just emptied it, and the
      tallies of the packets given up so far. */
  datatype Account = Account(tallies: seq<Tally>, sent: nat, emptied: bool, expired: seq<Tally>)

  const NO_ACCOUNT := Account([], 0, false, [])

  /** The attempts a packet gets: those asked for, at least one and at most 127. */
  function Granted(asked: nat): nat {
    if asked < 1 then 1 else if asked < 127 then asked else 127
  }

  predicate Sound(a: Account) {
    a.sent <= |a.tallies|
  }

  // ----- events

  function Queued(a: Account, p: Packet, asked: nat): Account {
    a.(tallies := a.tallies + [Tally(p, asked, 0, 0, false)])
  }

  /** The next packet goes out. */
  function Copied(a: Account): Account
    requires a.sent < |a.tallies|
  {
    var t := a.tallies[a.sent];
    var u := t.(copies := t.copies + 1, spared := t.spared || (t.copies == 0 && a.emptied));
    a.(tallies := a.tallies[a.sent := u], sent := a.sent + 1, emptied := false)
  }

  /** The first k packets are acknowledged, gone out or not. */
  function Covered(a: Account, k: nat): Account
    requires Sound(a) && k <= |a.tallies|
  {
    a.(tallies := a.tallies[k..], sent := if a.sent < k then 0 else a.sent - k, emptied := a.emptied && k == 0)
  }

  /** The first packet of the window pays for a NAK if a copy of it has gone out
      since the last one, other than the copy it is spared. */
  predicate Pays(a: Account)
    requires Sound(a)
  {
    a.sent != 0 && !(a.tallies[0].spared && a.tallies[0].copies == 1)
  }

  function Charged(t: Tally): Tally {
    t.(charges := t.charges + 1)
  }

  /** A NAK: everything goes out again, and a packet that has paid for all its
      attempts is given up. */
  function Missed(a: Account): Account
    requires Sound(a)
  {
    if !Pays(a) then a.(sent := 0)
    else
      var t := Charged(a.tallies[0]);
      if t.charges == Granted(t.asked) then
        Account(a.tallies[1..], 0, |a.tallies| == 1, a.expired + [t])
      else a.(tallies := a.tallies[0 := t], sent := 0)
  }

  /** An ACK field, which counts for nothing if it runs past the window. */
  function Answered(c: Config, t: Sender, a: Account, ack: nat, nak: bool): Account
    requires SenderOk(c, t) && ack < c.ids && Sound(a)
  {
    var k := Dist(c.ids, ack, t.lastAck);
    if |a.tallies| < k then a
    else if nak then Missed(Covered(a, k))
    else Covered(a, k)
  }

  function Ended(a: Account): Account {
    NO_ACCOUNT.(expired := a.expired)
  }

  // ----- what the sending half keeps of it

  /** A charge is for a copy no earlier charge was for, a spared copy for none. */
  predicate Covers(t: Tally, charges: nat) {
    charges + (if t.spared then 1 else 0) <= t.copies
  }

  predicate TallyOk(it: Item, t: Tally) {
    && it.packet == t.packet
    && 1 <= it.ttl
    && it.ttl + t.charges == Granted(t.asked)
    && Covers(t, t.charges)
  }

  /** Only the first packet is ever charged or spared. */
  predicate Untouched(t: Tally) {
    t.charges == 0 && !t.spared
  }

  /** A packet given up was charged all its attempts, each for a copy of its own. */
  predicate SpentOk(t: Tally) {
    t.charges == Granted(t.asked) && Covers(t, t.charges)
  }

  ghost predicate Kept(c: Config, t: Sender, a: Account)
    requires SenderOk(c, t)
  {
    && |a.tallies| == |t.window| && a.sent == Dist(c.ids, t.lastSent, t.lastAck)
    && (forall i :: 0 <= i < |a.tallies| ==> TallyOk(t.window[i], a.tallies[i]))
    && (forall i :: 1 <= i < |a.tallies| ==> Untouched(a.tallies[i]))
    && (forall i :: 0 <= i < a.sent ==> 1 <= a.tallies[i].copies)
    && (a.emptied ==> forall i :: 0 <= i < |a.tallies| ==> a.tallies[i].copies == 0)
    && (forall i :: 0 <= i < |a.expired| ==> SpentOk(a.expired[i]))
    && FlagsOk(t, a)
  }

  /** What the two flags mean. */
  predicate FlagsOk(t: Sender, a: Account)
    requires Sound(a)
  {
    && a.emptied == (t.ttlHold && t.ttlCharged)
    && (t.ttlHold ==> a.sent == 0)
    && (a.sent != 0 ==> !t.ttlCharged == Pays(a))
    && (a.sent != 0 && !t.ttlCharged ==> Covers(a.tallies[0], a.tallies[0].charges + 1))
  }

  /** The count is an octet, which wraps; TallyOk says that none is ever 0. */
  lemma LoweredWraps(ttl: nat)
    requires ttl < 256
    ensures Lowered(ttl) == (ttl + 255) % 256
  {
  }

  lemma QueuedKept(c: Config, t: Sender, a: Account, it: Item, asked: nat)
    requires SenderOk(c, t) && Kept(c, t, a) && |t.window| < c.window && it.ttl == Granted(asked)
    ensures Kept(c, Append(c, t, it), Queued(a, it.packet, asked))
  {
  }

  lemma CopiedKept(c: Config, t: Sender, a: Account)
    requires SenderOk(c, t) && Kept(c, t, a) && t.lastSent != t.lastQueued
    ensures a.sent < |a.tallies| && Kept(c, PacketSent(c, t), Copied(a))
  {
    assert Dist(c.ids, PacketSent(c, t).lastSent, t.lastAck) == a.sent + 1;
  }

  lemma CoveredKept(c: Config, t: Sender, a: Account, k: nat)
    requires SenderOk(c, t) && Kept(c, t, a) && k <= |a.tallies|
    ensures Kept(c, Acknowledge(c, t, k), Covered(a, k))
  {
    DistAfter(c.ids, t.lastSent, t.lastAck, k);
    DistAfter(c.ids, t.lastQueued, t.lastAck, k);
  }

  /** What a NAK charges and gives up is what the account says. */
  lemma MissedKept(c: Config, t: Sender, a: Account)
    requires SenderOk(c, t) && Kept(c, t, a)
    ensures Kept(c, HandleNak(c, t), Missed(a))
    ensures GivesUp(c, t) ==> Missed(a).expired == a.expired + [Charged(a.tallies[0])]
    ensures !GivesUp(c, t) ==> Missed(a).expired == a.expired
  {
    if a.sent != 0 {
      assert TallyOk(t.window[0], a.tallies[0]);
    }
  }

  lemma AnsweredKept(c: Config, t: Sender, a: Account, ack: nat, nak: bool)
    requires SenderOk(c, t) && Kept(c, t, a) && ack < c.ids
    ensures var b := Answered(c, t, a, ack, nak);
            Kept(c, HandleAck(c, t, ack, nak), b) && Reported(a, b, Expired(c, t, ack, nak))
  {
    if !AckTooFar(c, t, ack) {
      var k := Acked(c, t, ack);
      CoveredKept(c, t, a, k);
      if nak {
        MissedKept(c, Acknowledge(c, t, k), Covered(a, k));
      }
    }
  }

  /** A packet is reported given up exactly when its account closes. */
  predicate Reported(a: Account, b: Account, expired: Option<Packet>) {
    match expired
    case None => b.expired == a.expired
    case Some(p) => |b.expired| == |a.expired| + 1 && b.expired == a.expired + [b.expired[|a.expired|]]
                    && b.expired[|a.expired|].packet == p
  }
}
