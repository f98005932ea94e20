/**
 The byte ring as one thread uses it, on its buffer: the copying calls, which move a
 region in two parts when it runs around the end, append to and take from a queue.
 */
module KfifoRing {
  import opened Common
  import opened SeqNum
  import opened Kfifo

  class ByteRing {
    const h: Shape
    const data: array<Octet>
    var inIndex: nat
    var outIndex: nat

    /** What the ring holds, and how many octets went through it before. */
    ghost var contents: seq<Octet>
    ghost var at: nat

    ghost predicate Stored()
      reads this, data
    {
      && ValidShape(h) && data.Length == h.size
      && |contents| <= h.size && Holds(h, data[..], at, contents)
    }

    ghost predicate Valid()
      reads this, data
    {
      Stored() && inIndex == Wrap(h.range, at + |contents|) && outIndex == Wrap(h.range, at)
    }

    constructor (shape: Shape, buffer: array<Octet>)
      requires ValidShape(shape) && buffer.Length == shape.size
      ensures Valid() && h == shape && data == buffer && contents == []
    {
      h, data, inIndex, outIndex := shape, buffer, 0, 0;
      contents, at := [], 0;
    }

    /** How many octets the ring holds, by its indices. */
    method Len() returns (n: nat)
      requires Valid()
      ensures n == |contents|
    {
      FillIs(h, at + |contents|, at);
      n := Fill(h, inIndex, outIndex);
    }

    method Append(place: nat, c: Octet)
      requires Stored() && |contents| < h.size && place == Wrap(h.size, at + |contents|)
      modifies this`contents, data
      ensures Stored() && contents == old(contents) + [c]
    {
      StoreElsewhere(h, data[..], at, contents, at + |contents|, c);
      data[place] := c;
      assert data[..] == old(data[..])[place := c];
      HoldsMore(h, data[..], at, contents, [c]);
      contents := contents + [c];
    }

    /** Copies src in behind the contents, in two parts when it runs around the end. */
    method CopyIn(head: nat, src: seq<Octet>)
      requires Stored() && |contents| + |src| <= h.size && head == Wrap(h.size, at + |contents|)
      modifies this`contents, data
      ensures Stored() && contents == old(contents) + src
    {
      ghost var w := at + |contents|;
      var l := if |src| < h.size - head then |src| else h.size - head;
      for i := 0 to l
        invariant Stored() && contents == old(contents) + src[..i]
      {
        WrapPlus(h.size, w, i);
        Append(head + i, src[i]);
        assert src[..i + 1] == src[..i] + [src[i]];
      }
      for i := l to |src|
        invariant Stored() && contents == old(contents) + src[..i]
      {
        WrapPlus(h.size, w, i);
        Append(i - l, src[i]);
        assert src[..i + 1] == src[..i] + [src[i]];
      }
      assert src[..|src|] == src;
    }

    /** Takes as much of src as there is room for. */
    method In(src: seq<Octet>) returns (len: nat)
      requires Valid()
      modifies this`contents, this`inIndex, data
      ensures Valid() && len == (if |src| < h.size - |old(contents)| then |src| else h.size - |old(contents)|)
      ensures contents == old(contents) + src[..len]
    {
      var used := Len();
      len := if |src| < h.size - used then |src| else h.size - used;
      WrapOfWrap(h, at + |contents|);
      WrapPlus(h.range, at + |contents|, len);
      CopyIn(Wrap(h.size, inIndex), src[..len]);
      inIndex := Plus(h.range, inIndex, len);
    }

    /** Copies the first n octets out, in two parts when they run around the end. */
    method CopyOut(tail: nat, n: nat) returns (dst: seq<Octet>)
      requires Stored() && n <= |contents| && tail == Wrap(h.size, at)
      ensures dst == contents[..n]
    {
      var l := if n < h.size - tail then n else h.size - tail;
      dst := [];
      for i := 0 to l
        invariant dst == contents[..i]
      {
        WrapPlus(h.size, at, i);
        assert data[..][Wrap(h.size, at + i)] == contents[i];
        dst := dst + [data[tail + i]];
      }
      for i := l to n
        invariant dst == contents[..i]
      {
        WrapPlus(h.size, at, i);
        assert data[..][Wrap(h.size, at + i)] == contents[i];
        dst := dst + [data[i - l]];
      }
    }

    /** Takes up to n octets out. */
    method Out(n: nat) returns (dst: seq<Octet>)
      requires Valid()
      modifies this`contents, this`at, this`outIndex
      ensures Valid() && |dst| == (if n < |old(contents)| then n else |old(contents)|)
      ensures old(contents) == dst + contents && at == old(at) + |dst|
    {
      var used := Len();
      var sz := if n < used then n else used;
      WrapOfWrap(h, at);
      WrapPlus(h.range, at, sz);
      HoldsLater(h, data[..], at, contents, sz);
      dst := CopyOut(Wrap(h.size, outIndex), sz);
      outIndex := Plus(h.range, outIndex, sz);
      at, contents := at + sz, contents[sz..];
    }
  }
}
