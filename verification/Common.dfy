/** Types every part of the project uses. */
module Common {
  type Octet = x: int | 0 <= x < 256

  datatype Option<T> = None | Some(value: T)

  function Joined(pieces: seq<seq<Octet>>): seq<Octet> {
    if pieces == [] then [] else Joined(pieces[..|pieces| - 1]) + pieces[|pieces| - 1]
  }

  /** The room of several buffers together. */
  function Total(rooms: seq<nat>): nat {
    if rooms == [] then 0 else Total(rooms[..|rooms| - 1]) + rooms[|rooms| - 1]
  }

  lemma Rejoin(x: seq<Octet>, y: seq<Octet>, z: seq<Octet>)
    ensures (x + y) + z == x + (y + z)
  {
  }

  /** A sequence without its k-th element. */
  function Without<T>(q: seq<T>, k: nat): (r: seq<T>)
    requires k < |q|
    ensures |r| == |q| - 1
    ensures forall i :: 0 <= i < |r| ==> r[i] == if i < k then q[i] else q[i + 1]
  {
    q[..k] + q[k + 1..]
  }
}
