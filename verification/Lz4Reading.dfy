/** The reader that follows announced frames one after another, each through a decoder of its own. */
module Lz4Reading {
  import opened Common
  import opened Lz4Framing

  datatype Opened = TooShort | BadSize | Plain | Announced(compressed: nat)

  /** The probe at the start of the data: twelve bytes, or all there are. */
  method Open(input: seq<Octet>) returns (o: Opened)
    ensures o.TooShort? <==> |input| < 4
    ensures o.Announced? <==> |input| >= 12 && FromLe(input[..4]) == SKIPPABLE_FRAME_MAGIC && FromLe(input[4..8]) == 4
    ensures o.Announced? ==> o.compressed == FromLe(input[8..12])
    ensures o.Plain? <==> |input| >= 4 && !(|input| >= 12 && FromLe(input[..4]) == SKIPPABLE_FRAME_MAGIC)
  {
    var header := if |input| < 12 then input else input[..12];
    if |header| < 4 {
      return TooShort;
    }
    assert header[..4] == input[..4];
    if FromLe(header[..4]) == SKIPPABLE_FRAME_MAGIC && |header| >= 12 {
      assert header[4..8] == input[4..8] && header[8..12] == input[8..12];
      if FromLe(header[4..8]) != 4 {
        return BadSize;
      }
      return Announced(FromLe(header[8..12]));
    }
    o := Plain;
  }

  predicate Announces(data: seq<Octet>) {
    |data| >= 12 && FromLe(data[..4]) == SKIPPABLE_FRAME_MAGIC && FromLe(data[4..8]) == 4
  }

  /** An announcement as far as it goes, but less than all of it. */
  predicate CutShort(data: seq<Octet>) {
    4 <= |data| < 12 && FromLe(data[..4]) == SKIPPABLE_FRAME_MAGIC && (|data| >= 8 ==> FromLe(data[4..8]) == 4)
  }

  /** The data starts with the announced frame of `first`, and `tail` comes after it. */
  ghost predicate StartsWith(codec: Codec, data: seq<Octet>, first: seq<Octet>, tail: seq<Octet>) {
    var body := codec.encode(first);
    0 < |body| < U32 && data == Header(|body|) + body + tail && codec.decode(body) == first
  }

  lemma HeaderReads(n: nat)
    requires n < U32
    ensures Announces(Header(n)) && FromLe(Header(n)[8..12]) == n
  {
    Le32RoundTrip(SKIPPABLE_FRAME_MAGIC);
    Le32RoundTrip(4);
    Le32RoundTrip(n);
    assert Header(n)[..4] == Le32(SKIPPABLE_FRAME_MAGIC) && Header(n)[4..8] == Le32(4) && Header(n)[8..12] == Le32(n);
  }

  lemma HeaderFirst(h: seq<Octet>, body: seq<Octet>, tail: seq<Octet>)
    requires |h| == 12
    ensures var data := h + body + tail;
      && data[..4] == h[..4] && data[4..8] == h[4..8] && data[8..12] == h[8..12]
      && data[12..12 + |body|] == body && data[12 + |body|..] == tail
  {
  }

  /** The announced frame of `first` sits at `at`, and `tail` comes after it. */
  ghost predicate SitsAt(codec: Codec, input: seq<Octet>, at: nat, first: seq<Octet>, tail: seq<Octet>)
    requires at <= |input|
  {
    && Announces(input[at..])
    && var n := FromLe(input[at..][8..12]);
       && n > 0 && at + 12 + n <= |input| && codec.decode(input[at + 12..at + 12 + n]) == first
       && input[at + 12 + n..] == tail
  }

  /** What a reader finds at `at` when the frame of `first` starts there. */
  lemma FrameAt(codec: Codec, input: seq<Octet>, at: nat, first: seq<Octet>, tail: seq<Octet>)
    requires at <= |input| && StartsWith(codec, input[at..], first, tail)
    ensures SitsAt(codec, input, at, first, tail)
  {
    var body := codec.encode(first);
    HeaderReads(|body|);
    HeaderFirst(Header(|body|), body, tail);
    assert input[at..][12..12 + |body|] == input[at + 12..at + 12 + |body|];
    assert input[at..][12 + |body|..] == input[at + 12 + |body|..];
  }

  lemma FrameIs(codec: Codec, d: seq<Octet>)
    requires d != [] && 0 < |codec.encode(d)| < U32
    ensures Frame(codec, d) == Header(|codec.encode(d)|) + codec.encode(d)
  {
  }

  /** The data's first piece and the rest. */
  lemma FirstFrame(codec: Codec, frameSize: nat, d: seq<Octet>) returns (first: seq<Octet>, rest: seq<Octet>)
    requires frameSize > 0 && Faithful(codec, frameSize) && d != []
    ensures d == first + rest && first != []
    ensures StartsWith(codec, Frames(codec, frameSize, d), first, Frames(codec, frameSize, rest))
  {
    first := if |d| <= frameSize then d else d[..frameSize];
    rest := if |d| <= frameSize then [] else d[frameSize..];
    assert codec.encode(first) != [];
    FrameIs(codec, first);
    FirstPiece(Framer(codec), frameSize, d);
  }

  lemma FirstPiece(frame: seq<Octet> -> seq<Octet>, frameSize: nat, d: seq<Octet>)
    requires frameSize > 0 && frame([]) == []
    ensures var first, rest := if |d| <= frameSize then d else d[..frameSize], if |d| <= frameSize then [] else d[frameSize..];
      d == first + rest && Pieces(frame, frameSize, d) == frame(first) + Pieces(frame, frameSize, rest)
  {
  }

  /** Where the frames of some data start, its first piece is announced, and the frames of the rest come after it. */
  lemma FramesAt(codec: Codec, frameSize: nat, input: seq<Octet>, at: nat, d: seq<Octet>) returns (first: seq<Octet>, rest: seq<Octet>)
    requires frameSize > 0 && Faithful(codec, frameSize) && at <= |input| && input[at..] == Frames(codec, frameSize, d) && d != []
    ensures d == first + rest && first != [] && SitsAt(codec, input, at, first, Frames(codec, frameSize, rest))
  {
    first, rest := FirstFrame(codec, frameSize, d);
    FrameAt(codec, input, at, first, Frames(codec, frameSize, rest));
  }

  lemma NoFrames(codec: Codec, frameSize: nat)
    requires frameSize > 0
    ensures Frames(codec, frameSize, []) == []
  {
  }

  class Decoder {
    const codec: Codec
    const input: seq<Octet>
    var pos: nat
    var remaining: nat
    var finished: bool
    /** What the frame in hand decodes to and has not been handed out. */
    var left: seq<Octet>
    var over: bool

    /** The frame announced by the twelve bytes before `pos`. */
    constructor (codec: Codec, input: seq<Octet>, compressed: nat)
      requires |input| >= 12
      ensures this.codec == codec && this.input == input && pos == 12 && remaining == compressed && !finished && !over
      ensures 12 + compressed <= |input| ==> left == codec.decode(input[12..12 + compressed])
    {
      this.codec, this.input := codec, input;
      pos, remaining, finished, over := 12, compressed, false, false;
      left := if 12 + compressed <= |input| then codec.decode(input[12..12 + compressed]) else [];
    }

    /** The frame in hand is all there, and the frames of `rest` come after it. */
    ghost predicate Carries(frameSize: nat, rest: seq<Octet>)
      requires frameSize > 0
      reads this
    {
      && !over && pos + remaining <= |input| && (finished <==> remaining == 0)
      && input[pos + remaining..] == Frames(codec, frameSize, rest)
    }

    /** The frame decoder's read, which stops at the frame's end. */
    method InnerRead(max: nat) returns (n: nat)
      requires max > 0 && pos <= |input|
      modifies this`pos, this`remaining, this`finished
      ensures pos == old(pos) + n <= |input| && remaining == old(remaining) - n
      ensures n == 0 <==> old(finished) || old(remaining) == 0 || old(pos) == |input|
      ensures n > 0 ==> (finished <==> remaining == 0)
      ensures n == 0 ==> (finished <==> old(finished) || old(remaining) > 0)
    {
      if finished || remaining == 0 {
        return 0;
      }
      if pos == |input| {
        finished := true;
        return 0;
      }
      n :| 1 <= n <= max && n <= remaining && pos + n <= |input|;
      pos, remaining := pos + n, remaining - n;
      finished := remaining == 0;
    }

    /** A read of the frame's data: some of it, having read ahead as far as it liked; or its end, having read it all. */
    method FrameRead(max: nat, ghost frameSize: nat, ghost rest: seq<Octet>) returns (bytes: seq<Octet>, fail: bool)
      requires max > 0 && frameSize > 0 && pos <= |input|
      modifies this`pos, this`remaining, this`finished, this`left
      ensures pos <= |input| && bytes + left == old(left) && (bytes == [] <==> old(left) == [])
      ensures old(Carries(frameSize, rest)) ==> !fail && Carries(frameSize, rest)
      ensures old(Carries(frameSize, rest)) && bytes == [] ==> finished
    {
      fail := false;
      if left != [] {
        ReadAhead(max, false, frameSize, rest);
        var n: nat :| 1 <= n && n <= max && n <= |left|;
        bytes := left[..n];
        left := left[n..];
        return;
      }
      bytes := [];
      ReadAhead(max, true, frameSize, rest);
      fail := remaining > 0;
    }

    /** The frame decoder reads its frame as far as it likes, or to the end. */
    method ReadAhead(max: nat, all: bool, ghost frameSize: nat, ghost rest: seq<Octet>)
      requires max > 0 && frameSize > 0 && pos <= |input|
      modifies this`pos, this`remaining, this`finished
      ensures pos <= |input| && (old(Carries(frameSize, rest)) ==> Carries(frameSize, rest))
      ensures all ==> finished || remaining == 0
    {
      while !finished && remaining > 0
        invariant pos <= |input| && (old(Carries(frameSize, rest)) ==> Carries(frameSize, rest))
        decreases remaining, !finished
      {
        var enough: bool := *;
        if !all && enough {
          break;
        }
        var _ := InnerRead(max);
      }
    }

    /**
     The twelve bytes that announce the next frame; none at the end of the data,
     or when they are something else; a failure when an announcement is cut short.
     */
    method NextHeader() returns (more: bool, fail: bool)
      requires pos <= |input|
      modifies this`pos, this`remaining, this`finished
      ensures pos <= |input|
      ensures old(finished) && Announces(input[old(pos)..]) ==>
        more && !fail && pos == old(pos) + 12 && remaining == FromLe(input[old(pos)..][8..12]) && !finished
      ensures more <==> old(finished) && Announces(input[old(pos)..])
      ensures fail <==> old(finished) && CutShort(input[old(pos)..])
      ensures !more ==> remaining == old(remaining) && finished == old(finished)
      ensures old(pos) == |input| ==> !more && !fail
    {
      if !finished || pos + 4 > |input| {
        return false, false;
      }
      assert input[pos..][..4] == input[pos..pos + 4];
      var magic := FromLe(input[pos..pos + 4]);
      if magic != SKIPPABLE_FRAME_MAGIC {
        pos := pos + 4;
        return false, false;
      }
      if pos + 8 > |input| {
        return false, true;
      }
      assert input[pos..][4..8] == input[pos + 4..pos + 8];
      if FromLe(input[pos + 4..pos + 8]) != 4 {
        pos := pos + 8;
        return false, false;
      }
      if pos + 12 > |input| {
        return false, true;
      }
      assert input[pos..][8..12] == input[pos + 8..pos + 12];
      remaining := FromLe(input[pos + 8..pos + 12]);
      pos, finished := pos + 12, false;
      return true, false;
    }

    /** The next frame taken in hand, if one is announced. */
    method TakeFrame(ghost first: seq<Octet>, ghost tail: seq<Octet>) returns (more: bool, fail: bool)
      requires pos <= |input|
      modifies this`pos, this`remaining, this`finished, this`left
      ensures pos <= |input| && (!more ==> left == old(left))
      ensures old(finished) && SitsAt(codec, input, old(pos), first, tail) ==>
        more && !fail && left == first && !finished && remaining > 0 && pos + remaining <= |input| && input[pos + remaining..] == tail
      ensures old(pos) == |input| ==> !more && !fail
    {
      more, fail := NextHeader();
      if more {
        left := if pos + remaining <= |input| then codec.decode(input[pos..pos + remaining]) else [];
      }
    }

    /** Between two frames: the next one's data, or nothing when all of it has been read. */
    method NextFrame(ghost frameSize: nat, ghost rest: seq<Octet>) returns (more: bool, fail: bool, ghost after: seq<Octet>)
      requires frameSize > 0 && pos <= |input| && Faithful(codec, frameSize) && left == []
      modifies this`pos, this`remaining, this`finished, this`left
      ensures pos <= |input| && (!more ==> left == [])
      ensures old(Carries(frameSize, rest)) && old(finished) ==> !fail && (more <==> rest != []) && (!more ==> after == [])
      ensures old(Carries(frameSize, rest)) && old(finished) && more ==> rest == left + after && left != [] && Carries(frameSize, after)
    {
      after := rest;
      ghost var first: seq<Octet> := [];
      if Carries(frameSize, rest) && finished {
        assert input[pos + remaining..] == input[pos..];
        if rest != [] {
          first, after := FramesAt(codec, frameSize, input, pos, rest);
        } else {
          NoFrames(codec, frameSize);
        }
      }
      more, fail := TakeFrame(first, Frames(codec, frameSize, after));
    }

    /** A read of the data: from the frame in hand, or the next one. Nothing more comes once it gives nothing. */
    method Read(max: nat, ghost frameSize: nat, ghost rest: seq<Octet>) returns (bytes: seq<Octet>, fail: bool, ghost after: seq<Octet>)
      requires max > 0 && frameSize > 0 && pos <= |input| && Faithful(codec, frameSize)
      modifies this
      ensures pos <= |input|
      ensures old(Carries(frameSize, rest)) ==> !fail && old(left) + rest == bytes + (left + after)
      ensures old(Carries(frameSize, rest)) && bytes != [] ==> Carries(frameSize, after)
      ensures old(Carries(frameSize, rest)) && bytes == [] ==> old(left) + rest == []
    {
      after := rest;
      if over {
        return [], false, after;
      }
      bytes, fail := FrameRead(max, frameSize, rest);
      if fail || bytes != [] {
        assert old(left) + rest == bytes + (left + rest);
        return;
      }
      var more;
      more, fail, after := NextFrame(frameSize, rest);
      if fail {
        return;
      }
      if !more {
        over := true;
        assert old(Carries(frameSize, rest)) ==> rest == [] && bytes + (left + after) == [];
        return;
      }
      ghost var held := left;
      bytes, fail := FrameRead(max, frameSize, after);
      assert held + after == bytes + (left + after);
    }
  }

  datatype Decoded = Data(bytes: seq<Octet>) | Failed | NotAnnounced(o: Opened)

  /** Reads of any size until there is no more, or for as many as are allowed. */
  method ReadToEnd(decoder: Decoder, steps: nat, ghost frameSize: nat, ghost rest: seq<Octet>) returns (r: Decoded)
    requires frameSize > 0 && Faithful(decoder.codec, frameSize) && decoder.pos <= |decoder.input|
    modifies decoder
    ensures old(decoder.Carries(frameSize, rest)) && steps > |old(decoder.left) + rest| ==> r == Data(old(decoder.left) + rest)
  {
    ghost var whole, data, ahead := decoder.Carries(frameSize, rest), decoder.left + rest, rest;
    var bytes := [];
    for i := 0 to steps
      invariant decoder.pos <= |decoder.input|
      invariant whole ==> decoder.Carries(frameSize, ahead) && data == bytes + (decoder.left + ahead) && |bytes| >= i
    {
      var max: nat :| max > 0;
      var more, fail;
      ghost var before := decoder.left + ahead;
      more, fail, ahead := decoder.Read(max, frameSize, ahead);
      if fail {
        return Failed;
      }
      if more == [] {
        return Data(bytes);
      }
      assert whole ==> bytes + before == (bytes + more) + (decoder.left + ahead);
      bytes := bytes + more;
    }
    r := Failed;
  }

  /**
   Decoding what an encoder wrote gives the data back, by reads of any size;
   except that nothing at all was written for no data, which is refused as too short.
   */
  method DecodeAll(codec: Codec, input: seq<Octet>, steps: nat, ghost frameSize: nat, ghost data: seq<Octet>) returns (r: Decoded)
    requires frameSize > 0 && Faithful(codec, frameSize)
    ensures input == Frames(codec, frameSize, data) && data != [] && steps > |data| ==> r == Data(data)
    ensures input == Frames(codec, frameSize, data) && data == [] ==> r == NotAnnounced(TooShort)
  {
    ghost var first: seq<Octet>, rest: seq<Octet> := [], [];
    if input == Frames(codec, frameSize, data) && data != [] {
      assert input[0..] == input;
      first, rest := FramesAt(codec, frameSize, input, 0, data);
    }
    var o := Open(input);
    if !o.Announced? {
      return NotAnnounced(o);
    }
    var decoder := new Decoder(codec, input, o.compressed);
    r := ReadToEnd(decoder, steps, frameSize, rest);
  }

  /** The round trip: however the data was split into writes and whatever the sizes of the reads. */
  method RoundTrip(codec: Codec, frameSize: nat, pieces: seq<seq<Octet>>) returns (r: Decoded)
    requires frameSize > 0 && Faithful(codec, frameSize)
    ensures r == if Joined(pieces) == [] then NotAnnounced(TooShort) else Data(Joined(pieces))
  {
    var encoded := EncodeAll(codec, frameSize, pieces);
    r := DecodeAll(codec, encoded, |Joined(pieces)| + 1, frameSize, Joined(pieces));
  }
}
