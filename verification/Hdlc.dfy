/**
 Escaping in the manner of section 4.2 of RFC 1662, with marks of the link's choosing:
 a frame starts at a mark, which also ends the frame before it, and neither mark
 survives inside one.
 */
module Hdlc {
  import opened Common
  import opened Checksum

  /** The frame boundary and the escape octet. */
  datatype Marks = Marks(sof: Octet, esc: Octet)

  /** Exclusive or with the mask 0x20. */
  function Flip(c: Octet): Octet {
    if c / 32 % 2 == 0 then c + 32 else c - 32
  }

  /** The same, on the octet's bits. */
  lemma FlipIsXor(b: bv8)
    ensures Flip(b as int) == (b ^ 0x20) as int
  {
  }

  lemma FlipsBack(c: Octet)
    ensures Flip(Flip(c)) == c
  {
  }

  predicate ValidMarks(m: Marks) {
    m.sof != m.esc && Flip(m.esc) != m.sof
  }

  predicate IsMark(m: Marks, c: Octet) {
    c == m.sof || c == m.esc
  }

  function EscapeOctet(m: Marks, c: Octet): seq<Octet> {
    if IsMark(m, c) then [m.esc, Flip(c)] else [c]
  }

  function Escape(m: Marks, s: seq<Octet>): seq<Octet>
    decreases |s|
  {
    if s == [] then [] else EscapeOctet(m, s[0]) + Escape(m, s[1..])
  }

  predicate SofFree(m: Marks, s: seq<Octet>) {
    forall i :: 0 <= i < |s| ==> s[i] != m.sof
  }

  lemma {:induction false} EscapedIsSofFree(m: Marks, s: seq<Octet>)
    requires ValidMarks(m)
    ensures SofFree(m, Escape(m, s))
    decreases |s|
  {
    if s != [] {
      EscapedIsSofFree(m, s[1..]);
    }
  }

  /** The conditions on the marks are exactly what keeps boundaries out of frames. */
  lemma MarksMustDiffer(m: Marks)
    ensures (forall s :: SofFree(m, Escape(m, s))) <==> ValidMarks(m)
  {
    if ValidMarks(m) {
      forall s ensures SofFree(m, Escape(m, s)) {
        EscapedIsSofFree(m, s);
      }
    } else {
      var s := [m.esc];
      assert Escape(m, s) == [m.esc, Flip(m.esc)];
      assert Escape(m, s)[0] == m.esc && Escape(m, s)[1] == Flip(m.esc);
      assert !SofFree(m, Escape(m, s));
    }
  }

  /** A frame on the wire; the closing mark is sent when nothing follows. */
  function Framed<T>(m: Marks, a: Csum<T>, body: seq<Octet>, eof: bool): seq<Octet> {
    [m.sof] + Escape(m, Sealed(a, body)) + Eof(m, eof)
  }

  function Eof(m: Marks, eof: bool): seq<Octet> {
    if eof then [m.sof] else []
  }

  lemma FrameLength<T>(m: Marks, a: Csum<T>, body: seq<Octet>, eof: bool)
    ensures |body| + Width(a) < |Framed(m, a, body, eof)| <= 2 * (|body| + Width(a)) + 2
  {
    EscapedLength(m, Sealed(a, body));
  }

  lemma {:induction false} EscapedLength(m: Marks, s: seq<Octet>)
    ensures |s| <= |Escape(m, s)| <= 2 * |s|
    decreases |s|
  {
    if s != [] {
      EscapedLength(m, s[1..]);
    }
  }
}
