/** What several parts of the model share: a value that may be missing, bytes, and the joining of pieces. */
module Common {
  datatype Option<T> = None | Some(value: T)

  /** A byte that is only carried. */
  type Byte = bv8

  /** A byte whose value is worked out: numbers and bits are packed into it. */
  type Octet = b: nat | b < 256

  function Least(a: nat, b: nat): nat { if a <= b then a else b }

  /** The pieces, one after the other. */
  function Joined<T>(pieces: seq<seq<T>>): seq<T> {
    if pieces == [] then [] else Joined(pieces[..|pieces| - 1]) + pieces[|pieces| - 1]
  }

  lemma JoinedSnoc<T>(pieces: seq<seq<T>>, piece: seq<T>)
    ensures Joined(pieces + [piece]) == Joined(pieces) + piece
  {
    assert (pieces + [piece])[..|pieces|] == pieces;
  }
}
