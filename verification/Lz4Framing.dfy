/**
 LZ4 data cut into frames, each behind a skippable frame that says how long it
 is, and the reader that follows the frames. The codec of one frame is given.
 */
module Lz4Framing {
  import opened Common

  const SKIPPABLE_FRAME_MAGIC: nat := 0x184D2A50
  const U32: nat := 0x1_0000_0000

  datatype Codec = Codec(encode: seq<Octet> -> seq<Octet>, decode: seq<Octet> -> seq<Octet>)

  /** The frame decoder undoes the encoder, on pieces that make a frame short enough to be announced. */
  ghost predicate Faithful(codec: Codec, frameSize: nat) {
    forall d :: 0 < |d| <= frameSize ==>
      codec.encode(d) != [] && |codec.encode(d)| < U32 && codec.decode(codec.encode(d)) == d
  }

  /** The lowest `n` bytes of a number, the lowest first. */
  function Le(v: nat, n: nat): (r: seq<Octet>)
    ensures |r| == n
  {
    if n == 0 then [] else [v % 256] + Le(v / 256, n - 1)
  }

  function FromLe(b: seq<Octet>): nat {
    if b == [] then 0 else b[0] as nat + 256 * FromLe(b[1..])
  }

  function Pow256(n: nat): nat { if n == 0 then 1 else 256 * Pow256(n - 1) }

  lemma {:induction false} LeRoundTrip(v: nat, n: nat)
    requires v < Pow256(n)
    ensures FromLe(Le(v, n)) == v
  {
    if n > 0 {
      LeRoundTrip(v / 256, n - 1);
      assert Le(v, n)[1..] == Le(v / 256, n - 1);
    }
  }

  function Le32(v: nat): (r: seq<Octet>)
    ensures |r| == 4
  {
    Le(v, 4)
  }

  lemma Le32RoundTrip(v: nat)
    requires v < U32
    ensures FromLe(Le32(v)) == v
  {
    assert Pow256(4) == U32;
    LeRoundTrip(v, 4);
  }

  /** The skippable frame that announces a frame of `n` bytes. */
  function Header(n: nat): (h: seq<Octet>)
    ensures |h| == 12
  {
    Le32(SKIPPABLE_FRAME_MAGIC) + Le32(4) + Le32(n)
  }

  /** The header byte by byte: the magic of a skippable frame, the length of its content, and the announced length, each lowest byte first. */
  lemma HeaderBytes(n: nat)
    ensures Header(n)[..8] == [0x50, 0x2A, 0x4D, 0x18, 4, 0, 0, 0]
    ensures Header(n)[8] == n % 256 && Header(n)[9] == n / 256 % 256
    ensures Header(n)[10] == n / 65536 % 256 && Header(n)[11] == n / 16777216 % 256
  {
    Le32Bytes(SKIPPABLE_FRAME_MAGIC);
    Le32Bytes(4);
    Le32Bytes(n);
  }

  lemma Le32Bytes(v: nat)
    ensures Le32(v) == [v % 256, v / 256 % 256, v / 65536 % 256, v / 16777216 % 256]
  {
    DivisionsJoin(v);
    var a, b, c := v / 256, v / 256 / 256, v / 256 / 256 / 256;
    assert Le(c, 1) == [c % 256] + Le(c / 256, 0);
    assert Le(b, 2) == [b % 256] + Le(c, 1);
    assert Le(a, 3) == [a % 256] + Le(b, 2);
    assert Le(v, 4) == [v % 256] + Le(a, 3);
  }

  lemma DivisionsJoin(v: nat)
    ensures v / 256 / 256 == v / 65536 && v / 256 / 256 / 256 == v / 16777216
  {
  }

  /** One piece as it is written: nothing for an empty one. */
  function Frame(codec: Codec, d: seq<Octet>): seq<Octet> {
    if d == [] || codec.encode(d) == [] then []
    else Header(|codec.encode(d)| % U32) + codec.encode(d)
  }

  /** What becomes of a piece. */
  function Framer(codec: Codec): seq<Octet> -> seq<Octet> {
    d => Frame(codec, d)
  }

  /** The data piece by piece: full pieces, and what is left over. */
  function Pieces(frame: seq<Octet> -> seq<Octet>, frameSize: nat, d: seq<Octet>): seq<Octet>
    requires frameSize > 0
  {
    if |d| <= frameSize then frame(d)
    else frame(d[..frameSize]) + Pieces(frame, frameSize, d[frameSize..])
  }

  /** The data as frames. */
  function Frames(codec: Codec, frameSize: nat, d: seq<Octet>): seq<Octet>
    requires frameSize > 0
  {
    Pieces(Framer(codec), frameSize, d)
  }

  /** A whole number of full pieces. */
  predicate Whole(n: nat, frameSize: nat)
    requires frameSize > 0
  {
    n == 0 || (n >= frameSize && Whole(n - frameSize, frameSize))
  }

  lemma {:induction false} PiecesSnoc(frame: seq<Octet> -> seq<Octet>, frameSize: nat, d: seq<Octet>, piece: seq<Octet>)
    requires frameSize > 0 && Whole(|d|, frameSize) && |piece| <= frameSize && frame([]) == []
    ensures Pieces(frame, frameSize, d + piece) == Pieces(frame, frameSize, d) + frame(piece)
    decreases |d|
  {
    if d == [] {
      assert d + piece == piece;
    } else {
      var first, rest := d[..frameSize], d[frameSize..];
      PiecesSnoc(frame, frameSize, rest, piece);
      PiecesFirst(frame, frameSize, first, rest);
      PiecesFirst(frame, frameSize, first, rest + piece);
      assert d == first + rest && first + (rest + piece) == d + piece;
      Regroup(frame(first), Pieces(frame, frameSize, rest), frame(piece));
    }
  }

  lemma Appended(w: seq<Octet>, a: seq<Octet>, b: seq<Octet>, c: seq<Octet>, d: seq<Octet>)
    ensures w + a + b + c + d == w + (a + b + c + d)
  {
  }

  lemma Regroup(a: seq<Octet>, b: seq<Octet>, c: seq<Octet>)
    ensures (a + b) + c == a + (b + c)
  {
  }

  lemma PiecesFirst(frame: seq<Octet> -> seq<Octet>, frameSize: nat, first: seq<Octet>, rest: seq<Octet>)
    requires frameSize > 0 && |first| == frameSize && frame([]) == []
    ensures Pieces(frame, frameSize, first + rest) == frame(first) + Pieces(frame, frameSize, rest)
  {
    if rest == [] {
      assert first + rest == first;
    } else {
      assert (first + rest)[..frameSize] == first && (first + rest)[frameSize..] == rest;
    }
  }

  lemma FramesSnoc(codec: Codec, frameSize: nat, d: seq<Octet>, piece: seq<Octet>)
    requires frameSize > 0 && Whole(|d|, frameSize) && |piece| <= frameSize
    ensures Frames(codec, frameSize, d + piece) == Frames(codec, frameSize, d) + Frame(codec, piece)
  {
    PiecesSnoc(Framer(codec), frameSize, d, piece);
  }

  // ------------------------------------------------- writing

  class Encoder {
    const codec: Codec
    const frameSize: nat
    const buffer: array<Octet>
    var writer: seq<Octet>
    var size: nat
    /** What had been written when the frames were last cut short, and the data in full frames since. */
    ghost var base: seq<Octet>
    ghost var framed: seq<Octet>

    ghost predicate Valid()
      reads this, buffer
    {
      && frameSize == buffer.Length > 0 && size < frameSize && Whole(|framed|, frameSize)
      && writer == base + Frames(codec, frameSize, framed)
    }

    /** The data taken since the frames were last cut short. */
    ghost function Taken(): seq<Octet>
      reads this, buffer
      requires Valid()
    {
      framed + buffer[..size]
    }

    constructor (codec: Codec, frameSize: nat)
      requires frameSize > 0
      ensures Valid() && fresh(buffer) && this.codec == codec && this.frameSize == frameSize && base == [] && Taken() == []
    {
      this.codec, this.frameSize := codec, frameSize;
      buffer := new Octet[frameSize](_ => 0);
      writer, size, base, framed := [], 0, [], [];
    }

    method WriteFrame(data: seq<Octet>)
      modifies this`writer
      ensures writer == old(writer) + Frame(codec, data)
    {
      if data == [] {
        return;
      }
      var compressed := codec.encode(data);
      if compressed == [] {
        return;
      }
      writer := writer + Le32(SKIPPABLE_FRAME_MAGIC);
      writer := writer + Le32(4);
      writer := writer + Le32(|compressed| % U32);
      writer := writer + compressed;
      Appended(old(writer), Le32(SKIPPABLE_FRAME_MAGIC), Le32(4), Le32(|compressed| % U32), compressed);
    }

    /** The buffer is full: it is written out as a frame. */
    method Emit()
      requires frameSize == buffer.Length == size > 0 && Whole(|framed|, frameSize)
      requires writer == base + Frames(codec, frameSize, framed)
      modifies this
      ensures Valid() && base == old(base) && size == 0 && framed == old(framed) + buffer[..]
    {
      FramesSnoc(codec, frameSize, framed, buffer[..size]);
      Regroup(base, Frames(codec, frameSize, framed), Frame(codec, buffer[..size]));
      assert buffer[..size] == buffer[..];
      WriteFrame(buffer[..size]);
      framed := framed + buffer[..];
      size := 0;
    }

    /** Copies into the buffer as much as it has room for; a full one is written out. */
    method Take(data: seq<Octet>, from: nat) returns (n: nat)
      requires Valid() && from < |data|
      modifies this, buffer
      ensures Valid() && base == old(base) && 0 < n <= |data| - from && Taken() == old(Taken()) + data[from..from + n]
    {
      var space := frameSize - size;
      n := if |data| - from <= space then |data| - from else space;
      Fill(data[from..from + n]);
      Regroup(framed, old(buffer[..size]), data[from..from + n]);
      if size >= frameSize {
        assert buffer[..size] == buffer[..];
        Emit();
        assert buffer[..0] == [];
      }
    }

    method Fill(data: seq<Octet>)
      requires size + |data| <= buffer.Length
      modifies buffer, this`size
      ensures size == old(size) + |data| && buffer[..size] == old(buffer[..size]) + data
    {
      forall i | 0 <= i < |data| {
        buffer[size + i] := data[i];
      }
      size := size + |data|;
    }

    /** All of `data` is taken, however it falls over the frames. */
    method Write(data: seq<Octet>) returns (n: nat)
      requires Valid()
      modifies this, buffer
      ensures Valid() && base == old(base) && Taken() == old(Taken()) + data && n == |data|
    {
      n := 0;
      while n < |data|
        invariant n <= |data| && Valid() && base == old(base) && Taken() == old(Taken()) + data[..n]
      {
        ghost var before := Taken();
        var k := Take(data, n);
        assert data[..n + k] == data[..n] + data[n..n + k];
        Regroup(old(Taken()), data[..n], data[n..n + k]);
        n := n + k;
      }
      assert data[..n] == data;
    }

    /** The frames written so far and the one of what is left over are the frames of the data. */
    lemma LeftOver()
      requires Valid()
      ensures writer + Frame(codec, buffer[..size]) == base + Frames(codec, frameSize, Taken())
    {
      FramesSnoc(codec, frameSize, framed, buffer[..size]);
      Regroup(base, Frames(codec, frameSize, framed), Frame(codec, buffer[..size]));
    }

    /** What is left over is written as a frame of its own. */
    method Flush()
      requires Valid()
      modifies this
      ensures Valid() && Taken() == [] && writer == base == old(base) + Frames(codec, frameSize, old(Taken()))
    {
      LeftOver();
      WriteFrame(buffer[..size]);
      size, framed, base := 0, [], writer;
    }

    method Finish() returns (out: seq<Octet>)
      requires Valid()
      modifies this
      ensures out == old(base) + Frames(codec, frameSize, old(Taken()))
    {
      LeftOver();
      WriteFrame(buffer[..size]);
      out := writer;
    }
  }

  /** The output depends on the data alone, not on how it was split into writes. */
  method EncodeAll(codec: Codec, frameSize: nat, pieces: seq<seq<Octet>>) returns (out: seq<Octet>)
    requires frameSize > 0
    ensures out == Frames(codec, frameSize, Joined(pieces))
  {
    var e := new Encoder(codec, frameSize);
    for i := 0 to |pieces|
      invariant e.Valid() && fresh(e) && fresh(e.buffer) && e.codec == codec && e.frameSize == frameSize
      invariant e.base == [] && e.Taken() == Joined(pieces[..i])
    {
      assert pieces[..i + 1][..i] == pieces[..i];
      var _ := e.Write(pieces[i]);
    }
    assert pieces[..|pieces|] == pieces;
    out := e.Finish();
  }
}
