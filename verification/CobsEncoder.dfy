/**
 The streaming encoder: it fills whatever room it is given, stops anywhere, and
 carries on at the next call. What it still owes the wire is a function of its
 fields, and every call pays off a front part of that.
 */
module CobsEncoder {
  import opened Common
  import opened Checksum
  import opened Cobs

  datatype State = AtIdle | AtCode | AtData

  /** A whole frame on the wire. */
  function Framed<T>(a: Csum<T>, body: seq<Octet>): seq<Octet> {
    Encode(Sealed(a, body)) + [0]
  }

  /** What a frame has not sent yet: the body from the cursor on and its checksum.
      Before the checksum is ready, `scanned` octets of the body are folded into csum;
      after that csum is what is left of its wire value. */
  ghost function Unsent<T>(a: Csum<T>, body: seq<Octet>, armed: bool, csum: T, left: nat, scanned: nat): seq<Octet> {
    body + if armed then Little(a, csum, left)
           else if scanned <= |body| then Wire(a, Sum(a, csum, body[scanned..])) else []
  }

  ghost predicate Owes<T>(a: Csum<T>, rest: seq<Octet>, body: seq<Octet>, armed: bool, csum: T, left: nat,
                          scanned: nat) {
    && rest == Unsent(a, body, armed, csum, left, scanned)
    && scanned <= |rest|
    && (if armed then |body| <= scanned else left == 0 && scanned <= |body|)
  }

  /** What is still to be sent when an open group has run octets to go. A group that
      is neither full nor ended by a zero is the last. */
  ghost function GroupOutput(rest: seq<Octet>, run: nat, delim: bool, full: bool): seq<Octet>
    requires run + (if delim then 1 else 0) <= |rest|
  {
    rest[..run] + (GroupTail(rest[run..], delim, full) + [0])
  }

  ghost function GroupTail(rest: seq<Octet>, delim: bool, full: bool): seq<Octet>
    requires delim ==> 0 < |rest|
  {
    if delim then Encode(rest[1..]) else if full && rest != [] then Encode(rest) else []
  }

  /** A group that has been sent owes what comes behind it. */
  lemma GroupEnds(rest: seq<Octet>, delim: bool, full: bool)
    requires delim ==> rest != []
    ensures GroupOutput(rest, 0, delim, full) ==
            if delim || (full && rest != []) then Encode(rest[if delim then 1 else 0..]) + [0] else [0]
  {
    assert rest[0..] == rest && rest[..0] == [];
  }

  lemma Regroup(x: seq<Octet>, y: seq<Octet>, t: seq<Octet>, z: seq<Octet>)
    ensures x + y + t + z == x + (y + (t + z))
  {
  }

  function Least(x: nat, y: nat, z: nat): (k: nat)
    ensures k <= x && k <= y && k <= z && (k == x || k == y || k == z)
  {
    var m := if y < x then y else x;
    if z < m then z else m
  }

  /** k octets of a run go out: what was sent and what the run has left is the same
      as before, and so is what lies behind the run. */
  lemma RunMoves(sent: seq<Octet>, now: seq<Octet>, rest: seq<Octet>, run: nat, k: nat)
    requires k <= run <= |rest| && now == sent + rest[..k]
    ensures now + rest[k..][..run - k] == sent + rest[..run]
    ensures rest[k..][run - k..] == rest[run..]
  {
    assert rest[..k] + rest[k..][..run - k] == rest[..run];
  }

  lemma GroupTailIs(rest: seq<Octet>, run: nat, delim: bool)
    requires run <= BLOCK && run <= |rest|
    requires delim <==> run < BLOCK && run < |rest|
    ensures GroupTail(rest[run..], delim, run == BLOCK) == Onward(rest, run)
  {
    if delim {
      assert rest[run..][1..] == rest[run + 1..];
    }
  }

  predicate ZeroFree(s: seq<Octet>, k: nat)
    requires k <= |s|
  {
    forall i :: 0 <= i < k ==> s[i] != 0
  }

  /** The group a message starts with: up to its first zero, its end, or full. */
  predicate IsGroup(rest: seq<Octet>, run: nat, delim: bool, full: bool) {
    && run <= |rest| && ZeroFree(rest, run)
    && run <= BLOCK && (full <==> run == BLOCK)
    && (delim <==> run < BLOCK && run < |rest|)
    && (delim ==> rest[run] == 0)
  }

  /** Opening a group: its code octet, then its output. */
  lemma GroupOpens(rest: seq<Octet>, run: nat, delim: bool, full: bool)
    requires IsGroup(rest, run, delim, full)
    ensures Encode(rest) + [0] == [run + 1] + GroupOutput(rest, run, delim, full)
  {
    assert Span(rest) == run;
    GroupTailIs(rest, run, delim);
    Regroup([run + 1], rest[..run], Onward(rest, run), [0]);
  }

  lemma OpeningPays(sent: seq<Octet>, now: seq<Octet>, rest: seq<Octet>, run: nat, delim: bool, full: bool)
    requires IsGroup(rest, run, delim, full) && now == sent + [run + 1]
    ensures now + GroupOutput(rest, run, delim, full) == sent + (Encode(rest) + [0])
  {
    GroupOpens(rest, run, delim, full);
    Rejoin(sent, [run + 1], GroupOutput(rest, run, delim, full));
  }

  /** The scan passes one octet of the body. */
  lemma OwesScanned<T>(a: Csum<T>, rest: seq<Octet>, body: seq<Octet>, csum: T, s: nat)
    requires Owes(a, rest, body, false, csum, 0, s) && s < |body|
    ensures Owes(a, rest, body, false, Add(a, csum, body[s]), 0, s + 1)
  {
    assert body[s..][1..] == body[s + 1..];
  }

  /** The cursor passes k octets the group has scanned. */
  lemma OwesPassed<T>(a: Csum<T>, rest: seq<Octet>, body: seq<Octet>, armed: bool, csum: T, left: nat, s: nat, k: nat)
    requires Owes(a, rest, body, armed, csum, left, s) && k <= |body| && k <= s
    ensures Owes(a, rest[k..], body[k..], armed, csum, left, s - k)
  {
    if !armed {
      assert body[k..][s - k..] == body[s..];
    }
  }

  class Encoder<T> {
    var hdr: Option<seq<Octet>>
    var hdrSize: nat
    var payload: seq<Octet>
    var cur: seq<Octet>
    var csum: T
    var csumLeft: nat
    var run: nat
    var state: State
    var full: bool
    var armed: bool
    var delim: bool

    /** What the frame has not sent yet, before stuffing. */
    ghost var rest: seq<Octet>

    /** How many octets ahead of the cursor the open group has scanned. */
    ghost function Scanned(): nat
      reads this`state, this`run, this`delim
    {
      if state.AtData? then run + (if delim then 1 else 0) else 0
    }

    ghost predicate Tied(a: Csum<T>)
      reads this
    {
      Owes(a, rest, cur + payload, armed, csum, csumLeft, Scanned())
    }

    ghost predicate Valid(a: Csum<T>)
      reads this
    {
      && (hdr.Some? ==> hdrSize <= |hdr.value|)
      && (if state.AtIdle? then !armed else hdrSize != 0 && Tied(a))
    }

    /** Everything the encoder still has to send of the packet it holds. */
    ghost function Output(a: Csum<T>): seq<Octet>
      requires Valid(a)
      reads this
    {
      match state
      case AtIdle => if hdrSize == 0 || hdr.None? then [] else Framed(a, hdr.value[..hdrSize] + payload)
      case AtCode => Encode(rest) + [0]
      case AtData => GroupOutput(rest, run, delim, full)
    }

    predicate Busy()
      reads this
    {
      !state.AtIdle? || hdrSize != 0
    }

    constructor (register: T)
      ensures !Busy() && forall a :: Valid(a)
    {
      hdr, hdrSize, payload, cur, csum, csumLeft, run, state := None, 0, [], [], register, 0, 0, AtIdle;
      full, armed, delim := false, false, false;
    }

    method Init()
      modifies this
      ensures !Busy() && forall a :: Valid(a) && Output(a) == []
    {
      hdrSize, payload, csumLeft, state := 0, [], 0, AtIdle;
      full, armed, delim := false, false, false;
    }

    method Prep(h: Option<seq<Octet>>, size: nat, p: seq<Octet>)
      requires !Busy() && !armed && (h.Some? ==> size <= |h.value|)
      modifies this
      ensures forall a :: Valid(a) && Output(a) == if size == 0 || h.None? then [] else Framed(a, h.value[..size] + p)
    {
      hdr, hdrSize, payload := h, size, p;
    }

    /** Loads the packet the encoder was given. */
    method Start(a: Csum<T>)
      requires Valid(a) && state.AtIdle? && hdrSize != 0 && hdr.Some?
      modifies this
      ensures Valid(a) && state.AtCode?
      ensures rest == old(Sealed(a, hdr.value[..hdrSize] + payload))
    {
      cur := hdr.value[..hdrSize];
      csumLeft := 0;
      csum := a.init;
      state := AtCode;
      rest := Sealed(a, cur + payload);
      assert (cur + payload)[0..] == cur + payload;
    }

    /** The next octet of a scan, s octets ahead of the cursor, if any is left: an
        octet of the body is folded into the checksum, which is made ready at its
        end. `cleft` counts the checksum octets the scan has not passed. */
    method ScanOctet(a: Csum<T>, p: seq<Octet>, pay: seq<Octet>, cleft: nat, ghost r: seq<Octet>,
                     ghost body: seq<Octet>, ghost s: nat)
      returns (c: Option<Octet>, p': seq<Octet>, pay': seq<Octet>, cleft': nat)
      requires Owes(a, r, body, armed, csum, csumLeft, s) && Ahead(body, s, p + pay, cleft)
      modifies this`csum, this`csumLeft, this`armed
      ensures c == if s < |r| then Some(r[s]) else None
      ensures Owes(a, r, body, armed, csum, csumLeft, if c.Some? then s + 1 else s)
      ensures c.Some? ==> Ahead(body, s + 1, p' + pay', cleft')
    {
      c, p', pay', cleft' := None, p, pay, cleft;
      if p != [] || pay != [] {
        OwesScanned(a, r, body, csum, s);
        var o: Octet;
        if p != [] {
          o, p' := p[0], p[1..];
        } else {
          o, pay' := pay[0], pay[1..];
        }
        csum := Add(a, csum, o);
        c := Some(o);
        assert p' + pay' == (p + pay)[1..] == body[s + 1..];
      } else {
        if !armed {
          csum := Final(a, csum);
          cleft' := Width(a);
          csumLeft := cleft';
          armed := true;
        }
        if cleft' != 0 {
          LittleAt(a, csum, csumLeft, csumLeft - cleft');
          c := Some(OctetOf(a, csum, csumLeft - cleft'));
          cleft' := cleft' - 1;
        }
      }
    }

    /** Where the cursors of a scan stand. */
    ghost predicate Ahead(body: seq<Octet>, s: nat, ahead: seq<Octet>, cleft: nat)
      reads this`armed, this`csumLeft
    {
      if armed then ahead == [] && |body| + csumLeft == s + cleft && |body| <= s
      else s <= |body| && ahead == body[s..]
    }

    /** Passes one octet of a run, or finds what ends it. */
    method ScanOne(a: Csum<T>, p: seq<Octet>, pay: seq<Octet>, cleft: nat, ghost r: seq<Octet>,
                   ghost body: seq<Octet>, ghost s: nat)
      returns (on: bool, zero: bool, p': seq<Octet>, pay': seq<Octet>, cleft': nat)
      requires Owes(a, r, body, armed, csum, csumLeft, s) && Ahead(body, s, p + pay, cleft)
      modifies this`csum, this`csumLeft, this`armed
      ensures on ==> s < |r| && r[s] != 0 && Owes(a, r, body, armed, csum, csumLeft, s + 1)
      ensures on ==> !zero && Ahead(body, s + 1, p' + pay', cleft')
      ensures !on ==> Owes(a, r, body, armed, csum, csumLeft, if zero then s + 1 else s)
      ensures !on ==> if zero then s < |r| && r[s] == 0 else s == |r|
    {
      var c;
      c, p', pay', cleft' := ScanOctet(a, p, pay, cleft, r, body, s);
      zero := c == Some(0);
      on := c.Some? && !zero;
    }

    /** A scan that passed a run of k octets, and goes on or has found its end. */
    ghost predicate Scanning(a: Csum<T>, r: seq<Octet>, body: seq<Octet>, k: nat, on: bool, zero: bool,
                             ahead: seq<Octet>, cleft: nat)
      reads this`csum, this`csumLeft, this`armed
    {
      && k <= BLOCK && k <= |r| && ZeroFree(r, k)
      && Owes(a, r, body, armed, csum, csumLeft, if zero then k + 1 else k)
      && (if on then !zero && Ahead(body, k, ahead, cleft)
          else k < BLOCK && if zero then k < |r| && r[k] == 0 else k == |r|)
    }

    method ScanOn(a: Csum<T>, p: seq<Octet>, pay: seq<Octet>, cleft: nat, ghost r: seq<Octet>, ghost body: seq<Octet>,
                  k: nat)
      returns (on: bool, zero: bool, p': seq<Octet>, pay': seq<Octet>, cleft': nat, k': nat)
      requires Scanning(a, r, body, k, true, false, p + pay, cleft) && k < BLOCK
      modifies this`csum, this`csumLeft, this`armed
      ensures Scanning(a, r, body, k', on, zero, p' + pay', cleft') && k' == if on then k + 1 else k
    {
      on, zero, p', pay', cleft' := ScanOne(a, p, pay, cleft, r, body, k);
      k' := if on then k + 1 else k;
    }

    /** Scans ahead up to a zero, the end or a full group. */
    method Scan(a: Csum<T>, ghost r: seq<Octet>, ghost body: seq<Octet>) returns (k: nat, zero: bool)
      requires body == cur + payload && Owes(a, r, body, armed, csum, csumLeft, 0)
      modifies this`csum, this`csumLeft, this`armed
      ensures IsGroup(r, k, zero, k == BLOCK)
      ensures Owes(a, r, body, armed, csum, csumLeft, if zero then k + 1 else k)
    {
      var p, pay, cleft := cur, payload, csumLeft;
      var on := true;
      k, zero := 0, false;
      assert body[0..] == body;
      while k < BLOCK && on
        invariant Scanning(a, r, body, k, on, zero, p + pay, cleft)
        decreases BLOCK - k, on
      {
        on, zero, p, pay, cleft, k := ScanOn(a, p, pay, cleft, r, body, k);
      }
    }

    /** Opens the next group and returns its code octet. */
    method OpenGroup(a: Csum<T>) returns (code: Octet)
      requires Tied(a) && state.AtCode?
      modifies this`csum, this`csumLeft, this`armed, this`run, this`delim, this`full, this`state
      ensures Tied(a) && state.AtData? && code == run + 1
      ensures IsGroup(rest, run, delim, full)
    {
      var k, zero := Scan(a, rest, cur + payload);
      Enter(k, zero);
      code := k + 1;
    }

    method Enter(k: nat, zero: bool)
      modifies this`run, this`delim, this`full, this`state
      ensures run == k && delim == zero && full == (k == BLOCK) && state.AtData?
      ensures Scanned() == if zero then k + 1 else k
    {
      delim, full, run, state := zero, k == BLOCK, k, AtData;
    }

    /** Moves the cursor to the payload once the header is sent. */
    method Advance()
      modifies this`cur, this`payload
      ensures cur + payload == old(cur + payload) && (cur == [] ==> payload == [])
    {
      if cur == [] && payload != [] {
        cur := payload;
        payload := [];
      }
      assert cur + payload == old(cur + payload);
    }

    /** Passes k octets of the body at the cursor. */
    method PassBody(a: Csum<T>, k: nat, ghost s: nat)
      requires Owes(a, rest, cur + payload, armed, csum, csumLeft, s) && k <= |cur| && k <= s
      modifies this`cur, this`rest
      ensures rest == old(rest)[k..] && Owes(a, rest, cur + payload, armed, csum, csumLeft, s - k)
    {
      OwesPassed(a, rest, cur + payload, armed, csum, csumLeft, s, k);
      assert (cur + payload)[k..] == cur[k..] + payload;
      cur := cur[k..];
      rest := rest[k..];
    }

    /** Passes one octet of the checksum. */
    method PassCsum(a: Csum<T>, ghost s: nat)
      requires Owes(a, rest, cur + payload, armed, csum, csumLeft, s) && cur == [] && payload == [] && 0 < s
      modifies this`csum, this`csumLeft, this`rest
      ensures rest == old(rest)[1..] && a.low(old(csum)) == old(rest)[0]
      ensures Owes(a, rest, cur + payload, armed, csum, csumLeft, s - 1)
    {
      csum := a.shift(csum);
      csumLeft := csumLeft - 1;
      rest := rest[1..];
    }

    /** Copies k octets from the cursor. */
    method CopyOut(dst: array<Octet>, n: nat, k: nat)
      requires k <= |cur| && n + k <= dst.Length
      modifies dst
      ensures dst[..n + k] == old(dst[..n]) + cur[..k]
    {
      for i := 0 to k
        invariant dst[..n + i] == old(dst[..n]) + cur[..i]
      {
        dst[n + i] := cur[i];
      }
    }

    method SendBody(a: Csum<T>, dst: array<Octet>, n: nat, k: nat, ghost s: nat)
      requires Owes(a, rest, cur + payload, armed, csum, csumLeft, s) && k <= |cur| && k <= s && n + k <= dst.Length
      modifies this`cur, this`rest, dst
      ensures rest == old(rest)[k..] && Owes(a, rest, cur + payload, armed, csum, csumLeft, s - k)
      ensures dst[..n + k] == old(dst[..n]) + old(rest)[..k]
    {
      CopyOut(dst, n, k);
      assert cur[..k] == rest[..k];
      PassBody(a, k, s);
    }

    method SendCsum(a: Csum<T>, dst: array<Octet>, n: nat, ghost s: nat)
      requires Owes(a, rest, cur + payload, armed, csum, csumLeft, s) && cur == [] && payload == [] && 0 < s
      requires n < dst.Length
      modifies this`csum, this`csumLeft, this`rest, dst
      ensures rest == old(rest)[1..] && Owes(a, rest, cur + payload, armed, csum, csumLeft, s - 1)
      ensures dst[..n + 1] == old(dst[..n]) + old(rest)[..1]
    {
      dst[n] := a.low(csum);
      PassCsum(a, s);
    }

    /** One round of sending an open group: from the body as much as there is and
        fits, from the checksum one octet. A group that goes on past the body ran
        into the checksum when it was scanned, so checksum octets are left then. */
    method SendSome(a: Csum<T>, dst: array<Octet>, n: nat) returns (k: nat)
      requires Tied(a) && state.AtData? && 0 < run && n < dst.Length
      modifies this`cur, this`payload, this`run, this`csum, this`csumLeft, this`rest, dst
      ensures Tied(a) && 0 < k <= old(run) && n + k <= dst.Length && run == old(run) - k
      ensures rest == old(rest)[k..]
      ensures dst[..n + k] == old(dst[..n]) + old(rest)[..k]
    {
      Advance();
      ghost var s := Scanned();
      k := SendPiece(a, dst, n, run, s);
      run := run - k;
      assert Scanned() == s - k;
    }

    method SendPiece(a: Csum<T>, dst: array<Octet>, n: nat, most: nat, ghost s: nat) returns (k: nat)
      requires Owes(a, rest, cur + payload, armed, csum, csumLeft, s) && (cur == [] ==> payload == [])
      requires 0 < most <= s && n < dst.Length
      modifies this`cur, this`csum, this`csumLeft, this`rest, dst
      ensures 0 < k <= most && n + k <= dst.Length
      ensures rest == old(rest)[k..] && Owes(a, rest, cur + payload, armed, csum, csumLeft, s - k)
      ensures dst[..n + k] == old(dst[..n]) + old(rest)[..k]
    {
      if cur == [] {
        k := 1;
        SendCsum(a, dst, n, s);
      } else {
        k := Least(most, |cur|, dst.Length - n);
        SendBody(a, dst, n, k, s);
      }
    }

    /** Sends what fits of an open group. */
    method SendRun(a: Csum<T>, dst: array<Octet>, n: nat) returns (n': nat)
      requires Tied(a) && state.AtData? && n <= dst.Length
      modifies this`cur, this`payload, this`run, this`csum, this`csumLeft, this`rest, dst
      ensures Tied(a) && n <= n' <= dst.Length && (run == 0 || n' == dst.Length)
      ensures run <= |rest| && rest[run..] == old(rest[run..])
      ensures dst[..n'] + rest[..run] == old(dst[..n] + rest[..run])
    {
      n' := n;
      while 0 < run && n' < dst.Length
        invariant Tied(a) && n <= n' <= dst.Length
        invariant rest[run..] == old(rest[run..])
        invariant dst[..n'] + rest[..run] == old(dst[..n] + rest[..run])
        decreases run
      {
        ghost var sent, all, r := dst[..n'], rest, run;
        var k := SendSome(a, dst, n');
        n' := n' + k;
        RunMoves(sent, dst[..n'], all, r, k);
      }
    }

    /** Swallows the zero a group stopped at. */
    method SkipZero(a: Csum<T>)
      requires Tied(a) && state.AtData? && run == 0 && delim
      modifies this`cur, this`payload, this`csum, this`csumLeft, this`rest, this`state
      ensures Tied(a) && state.AtCode? && rest == old(rest)[1..]
    {
      Advance();
      if cur != [] {
        PassBody(a, 1, 1);
      } else {
        PassCsum(a, 1);
      }
      assert Owes(a, rest, cur + payload, armed, csum, csumLeft, 0);
      state := AtCode;
    }

    /** Ends a group that has been sent, and tells whether the frame ends here. */
    method CloseGroup(a: Csum<T>) returns (end: bool)
      requires Tied(a) && state.AtData? && run == 0
      modifies this`cur, this`payload, this`csum, this`csumLeft, this`rest, this`state
      ensures end <==> !delim && !(full && old(rest) != [])
      ensures !end ==> Tied(a) && state.AtCode? && rest == old(rest)[if delim then 1 else 0..]
      ensures end ==> state.AtData?
    {
      end := false;
      if delim {
        SkipZero(a);
      } else if full && (cur != [] || payload != [] || csumLeft != 0 || (!armed && Width(a) != 0)) {
        state := AtCode;
      } else {
        end := true;
      }
    }

    method Put(dst: array<Octet>, n: nat, c: Octet)
      requires n < dst.Length
      modifies dst
      ensures dst[..n + 1] == old(dst[..n]) + [c]
    {
      dst[n] := c;
    }

    /** Turns a group that was sent into the next one, or ends the frame with its
        delimiter; there is room for one octet. */
    method Proceed(a: Csum<T>, dst: array<Octet>, n: nat) returns (n': nat)
      requires Valid(a) && state.AtData? && run == 0 && n < dst.Length
      modifies this, dst
      ensures Valid(a) && !state.AtData? && n <= n' <= n + 1
      ensures dst[..n'] + Output(a) == old(dst[..n]) + old(Output(a))
    {
      GroupEnds(rest, delim, full);
      var end := CloseGroup(a);
      n' := n;
      if end {
        Put(dst, n, 0);
        n' := n + 1;
        Init();
        assert dst[..n'] + [] == dst[..n'];
      }
    }

    method Continue(a: Csum<T>, dst: array<Octet>, n: nat) returns (n': nat)
      requires Valid(a) && state.AtData? && n <= dst.Length
      modifies this`cur, this`payload, this`run, this`csum, this`csumLeft, this`rest, dst
      ensures Valid(a) && n <= n' <= dst.Length && (run == 0 || n' == dst.Length)
      ensures dst[..n'] + Output(a) == old(dst[..n] + Output(a))
    {
      ghost var sent, front, tail := dst[..n], rest[..run], GroupTail(rest[run..], delim, full) + [0];
      n' := SendRun(a, dst, n);
      Rejoin(sent, front, tail);
      Rejoin(dst[..n'], rest[..run], tail);
    }

    /** Sends the code octet of the next group. */
    method Open(a: Csum<T>, dst: array<Octet>, n: nat)
      requires Valid(a) && state.AtCode? && n < dst.Length
      modifies this`csum, this`csumLeft, this`armed, this`run, this`delim, this`full, this`state, dst
      ensures Tied(a) && state.AtData?
      ensures dst[..n + 1] + GroupOutput(rest, run, delim, full) == old(dst[..n]) + (Encode(rest) + [0])
    {
      ghost var sent := dst[..n];
      var code := OpenGroup(a);
      Put(dst, n, code);
      OpeningPays(sent, dst[..n + 1], rest, run, delim, full);
    }

    /** One turn of the encoder's state machine; it may write nothing. */
    method Turn(a: Csum<T>, dst: array<Octet>, n: nat) returns (n': nat)
      requires Valid(a) && Busy() && n < dst.Length
      modifies this, dst
      ensures Valid(a) && n <= n' <= dst.Length
      ensures n' == n ==> !Busy() || (old(state.AtData?) && !state.AtData?)
      ensures dst[..n'] + Output(a) == old(dst[..n]) + old(Output(a))
    {
      n' := n;
      if state.AtIdle? {
        if hdrSize == 0 || hdr.None? {
          Init();
        } else {
          Start(a);
          Open(a, dst, n);
          n' := n + 1;
        }
      } else if state.AtCode? {
        Open(a, dst, n);
        n' := n + 1;
      } else {
        n' := Continue(a, dst, n);
        if run == 0 && n' < dst.Length {
          n' := Proceed(a, dst, n');
        }
      }
    }

    /** The encoder's one operation. However much room each call has, what it writes
        is the front of what was owed and what it owes then is the rest; it stops
        only when the room is used up or the frame is out. */
    method Fill(a: Csum<T>, dst: array<Octet>) returns (n: nat)
      requires Valid(a)
      modifies this, dst
      ensures Valid(a) && n <= dst.Length
      ensures dst[..n] + Output(a) == old(Output(a))
      ensures (n == dst.Length || !Busy()) && (Busy() ==> old(Busy()))
    {
      n := 0;
      ghost var owed := Output(a);
      while n < dst.Length && Busy()
        invariant Valid(a) && n <= dst.Length
        invariant dst[..n] + Output(a) == owed && (Busy() ==> old(Busy()))
        decreases dst.Length - n, if state.AtData? then 1 else 0, if Busy() then 1 else 0
      {
        n := Turn(a, dst, n);
      }
    }

    /** Filling one buffer after another, of any sizes, writes the frame out exactly
        as far as the buffers together have room. */
    method FillAll(a: Csum<T>, rooms: seq<nat>) returns (out: seq<Octet>)
      requires Valid(a)
      modifies this
      ensures Valid(a) && out + Output(a) == old(Output(a))
      ensures |out| == Total(rooms) || (!Busy() && out == old(Output(a)))
    {
      out := [];
      ghost var owed := Output(a);
      for i := 0 to |rooms|
        invariant Valid(a) && out + Output(a) == owed
        invariant |out| == Total(rooms[..i]) || !Busy()
      {
        var dst := new Octet[rooms[i]];
        ghost var owes := Output(a);
        var n := Fill(a, dst);
        Rejoin(out, dst[..n], Output(a));
        out := out + dst[..n];
        assert rooms[..i + 1][..i] == rooms[..i];
      }
      assert rooms[..|rooms|] == rooms;
    }
  }
}
