/** The streaming encoder of the escaped framing, one octet at a time. */
module HdlcEncoder {
  import opened Common
  import opened Checksum
  import opened Hdlc

  datatype State = AtIdle | AtData | AtCsum | AtEnd | AtEscaped

  predicate AllBoundaries(m: Marks, s: seq<Octet>) {
    forall i :: 0 <= i < |s| ==> s[i] == m.sof
  }

  class Encoder<T> {
    var hdr: Option<seq<Octet>>
    var hdrSize: nat
    var payload: seq<Octet>
    var cur: seq<Octet>
    var csum: T
    var csumLeft: nat
    var state: State
    var escState: State
    var escData: Octet
    var eof: bool

    /** What the frame has not sent yet, before escaping. */
    ghost var rest: seq<Octet>

    ghost predicate Tied(a: Csum<T>, st: State)
      reads this`cur, this`payload, this`csum, this`csumLeft, this`rest
    {
      match st
      case AtData => cur != [] && rest == cur + payload + Wire(a, Sum(a, csum, cur + payload))
      case AtCsum => 0 < csumLeft && rest == Little(a, csum, csumLeft)
      case AtEnd => rest == []
      case _ => false
    }

    ghost predicate Valid(a: Csum<T>)
      reads this
    {
      && (a.on ==> 0 < a.octets)
      && (hdr.Some? ==> hdrSize <= |hdr.value|)
      && (!state.AtIdle? ==>
            hdrSize != 0 && hdr.Some? && Tied(a, if state.AtEscaped? then escState else state))
    }

    /** Everything the encoder still has to send. */
    ghost function Output(m: Marks, a: Csum<T>): seq<Octet>
      requires Valid(a)
      reads this
    {
      match state
      case AtIdle => if hdrSize == 0 || hdr.None? then [] else Framed(m, a, hdr.value[..hdrSize] + payload, eof)
      case AtEscaped => [escData] + (Escape(m, rest) + Eof(m, eof))
      case _ => Escape(m, rest) + Eof(m, eof)
    }

    predicate Busy()
      reads this
    {
      !state.AtIdle? || hdrSize != 0
    }

    /** A size without a header: the encoder never gets past the boundary. */
    predicate Stuck()
      reads this
    {
      state.AtIdle? && hdrSize != 0 && hdr.None?
    }

    constructor (register: T)
      ensures !Busy()
    {
      hdr, hdrSize, payload, cur, csum, csumLeft, state := None, 0, [], [], register, 0, AtIdle;
      escState, escData, eof := AtIdle, 0, false;
    }

    method Init()
      modifies this
      ensures !Busy() && !eof && hdr == old(hdr)
    {
      hdrSize, payload, state, eof := 0, [], AtIdle, false;
    }

    method Prep(m: Marks, a: Csum<T>, h: Option<seq<Octet>>, size: nat, p: seq<Octet>, sendEof: bool)
      requires !Busy() && (a.on ==> 0 < a.octets) && (h.Some? ==> size <= |h.value|)
      modifies this
      ensures Valid(a) && (Stuck() <==> h.None? && size != 0)
      ensures Output(m, a) == if size == 0 || h.None? then [] else Framed(m, a, h.value[..size] + p, sendEof)
    {
      hdr, hdrSize, payload, eof := h, size, p, sendEof;
    }

    method Start(a: Csum<T>)
      requires Valid(a) && state.AtIdle? && hdrSize != 0 && hdr.Some?
      modifies this`state, this`cur, this`csum, this`rest
      ensures Valid(a) && state.AtData? && rest == Sealed(a, hdr.value[..hdrSize] + payload)
    {
      state, cur, csum := AtData, hdr.value[..hdrSize], a.init;
      rest := Sealed(a, cur + payload);
    }

    /** Passes the next octet of header or payload. */
    method PassData(a: Csum<T>) returns (c: Octet)
      requires Tied(a, AtData)
      modifies this`cur, this`csum, this`rest
      ensures old(rest) == [c] + rest && rest == cur + payload + Wire(a, Sum(a, csum, cur + payload))
    {
      c := cur[0];
      assert (cur + payload)[1..] == cur[1..] + payload;
      cur := cur[1..];
      csum := Add(a, csum, c);
      rest := rest[1..];
    }

    /** The next octet of header or payload; its checksum follows the last. */
    method NextData(a: Csum<T>) returns (c: Octet)
      requires Valid(a) && state.AtData?
      modifies this`cur, this`payload, this`csum, this`csumLeft, this`state, this`rest
      ensures Valid(a) && !state.AtIdle? && !state.AtEscaped? && old(rest) == [c] + rest
    {
      c := PassData(a);
      if cur == [] {
        if payload != [] {
          ghost var body := cur + payload;
          cur, payload := payload, [];
          assert cur + payload == body;
        } else if a.on {
          state := AtCsum;
          csum := Final(a, csum);
          csumLeft := a.octets;
        } else {
          state := AtEnd;
        }
      }
    }

    method NextCsum(a: Csum<T>) returns (c: Octet)
      requires Valid(a) && state.AtCsum?
      modifies this`csum, this`csumLeft, this`state, this`rest
      ensures Valid(a) && !state.AtIdle? && !state.AtEscaped? && old(rest) == [c] + rest
    {
      c := a.low(csum);
      csum := a.shift(csum);
      csumLeft := csumLeft - 1;
      rest := rest[1..];
      if csumLeft == 0 {
        state := AtEnd;
      }
    }

    /** Sends an octet of the frame, or the first half of its escape. */
    method Emit(m: Marks, a: Csum<T>, c: Octet) returns (o: Octet)
      requires Valid(a) && !state.AtIdle? && !state.AtEscaped?
      modifies this`state, this`escState, this`escData
      ensures Valid(a) && !state.AtIdle?
      ensures [o] + Output(m, a) == EscapeOctet(m, c) + old(Output(m, a))
    {
      o := c;
      ghost var owed := Output(m, a);
      if c == m.sof || c == m.esc {
        escState, escData := state, Flip(c);
        state := AtEscaped;
        o := m.esc;
        assert [o] + ([escData] + owed) == [o, escData] + owed;
      }
    }

    /** The next octet of the body or the checksum goes out. */
    method SendNext(m: Marks, a: Csum<T>) returns (o: Octet)
      requires Valid(a) && (state.AtData? || state.AtCsum?)
      modifies this`cur, this`payload, this`csum, this`csumLeft, this`state, this`rest, this`escState, this`escData
      ensures Valid(a) && [o] + Output(m, a) == old(Output(m, a))
    {
      var c;
      ghost var all, end := rest, Eof(m, eof);
      if state.AtData? {
        c := NextData(a);
      } else {
        c := NextCsum(a);
      }
      assert all[1..] == rest && all[0] == c;
      ghost var piece, more := EscapeOctet(m, c), Escape(m, rest);
      assert piece + more + end == piece + (more + end);
      o := Emit(m, a, c);
    }

    /** Ends the frame, with a closing mark if one was asked for. */
    method Finish(m: Marks, a: Csum<T>) returns (o: Option<Octet>)
      requires Valid(a) && state.AtEnd?
      modifies this
      ensures Valid(a) && !Busy() && old(Output(m, a)) == if o.Some? then [o.value] else []
    {
      o := if eof then Some(m.sof) else None;
      Init();
    }

    /** The encoder's one operation: what it writes is the front of what was owed,
        whatever room each call has. A size without a header has it write boundaries
        and nothing else, as far as there is room, and stay busy. */
    method Fill(m: Marks, a: Csum<T>, dst: array<Octet>) returns (n: nat)
      requires Valid(a)
      modifies this, dst
      ensures Valid(a) && n <= dst.Length && Stuck() == old(Stuck())
      ensures !Stuck() ==> dst[..n] + Output(m, a) == old(Output(m, a))
      ensures Stuck() ==> n == dst.Length && AllBoundaries(m, dst[..n])
      ensures (n == dst.Length || !Busy()) && (Busy() ==> old(Busy()))
    {
      n := 0;
      ghost var owed := Output(m, a);
      while n < dst.Length && Busy()
        invariant Valid(a) && n <= dst.Length && (Busy() ==> old(Busy())) && Stuck() == old(Stuck())
        invariant !Stuck() ==> dst[..n] + Output(m, a) == owed
        invariant Stuck() ==> AllBoundaries(m, dst[..n])
        decreases dst.Length - n, if Busy() then 1 else 0
      {
        ghost var sent := dst[..n];
        var o := Step(m, a);
        if o.Some? {
          dst[n] := o.value;
          n := n + 1;
          assert dst[..n] == sent + [o.value];
          Rejoin(sent, [o.value], Output(m, a));
        }
      }
    }

    /** One turn of the state machine. */
    method Step(m: Marks, a: Csum<T>) returns (o: Option<Octet>)
      requires Valid(a) && Busy()
      modifies this
      ensures Valid(a) && Stuck() == old(Stuck())
      ensures Stuck() ==> o == Some(m.sof) && Busy()
      ensures !Stuck() ==>
                if o.Some? then [o.value] + Output(m, a) == old(Output(m, a))
                else !Busy() && old(Output(m, a)) == []
    {
      if state.AtIdle? {
        if hdr.Some? {
          ghost var frame := Escape(m, Sealed(a, hdr.value[..hdrSize] + payload));
          assert [m.sof] + frame + Eof(m, eof) == [m.sof] + (frame + Eof(m, eof));
          Start(a);
        }
        o := Some(m.sof);
      } else if state.AtEscaped? {
        state := escState;
        o := Some(escData);
      } else if state.AtEnd? {
        o := Finish(m, a);
      } else {
        var c := SendNext(m, a);
        o := Some(c);
      }
    }

    /** Filling one buffer after another, of any sizes, writes the frame out exactly
        as far as the buffers together have room. With room to spare the encoder ends
        up idle, unless it is stuck. */
    method FillAll(m: Marks, a: Csum<T>, rooms: seq<nat>) returns (out: seq<Octet>)
      requires Valid(a)
      modifies this
      ensures Valid(a) && Stuck() == old(Stuck())
      ensures !Stuck() ==> out + Output(m, a) == old(Output(m, a))
      ensures Stuck() ==> AllBoundaries(m, out)
      ensures |out| == Total(rooms) || !Busy()
      ensures |old(Output(m, a))| < Total(rooms) ==> (Busy() <==> Stuck())
    {
      out := [];
      ghost var owed := Output(m, a);
      for i := 0 to |rooms|
        invariant Valid(a) && Stuck() == old(Stuck())
        invariant if Stuck() then AllBoundaries(m, out) else out + Output(m, a) == owed
        invariant |out| == Total(rooms[..i]) || !Busy()
      {
        var dst := new Octet[rooms[i]];
        var n := Fill(m, a, dst);
        Rejoin(out, dst[..n], Output(m, a));
        out := out + dst[..n];
        assert rooms[..i + 1][..i] == rooms[..i];
      }
      assert rooms[..|rooms|] == rooms;
    }
  }
}
