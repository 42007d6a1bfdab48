/**
 The readers over one block: the decoder under its declared length and its
 checksum, and for the file in hand the bound on its size and its own checksum.
 A failure anywhere among them is recorded.
 */
module BlockChain {
  import opened Common
  import opened FolderFiles

  datatype Reading = Got(bytes: seq<Byte>) | End | Failed

  class Chain {
    const sum: Checksum
    const w: Folder
    const bytes: seq<Byte>
    const whole: bool
    var pos: nat
    var faulted: bool
    var file: File
    var remain: nat
    var report: Option<nat>
    ghost var start: nat

    constructor (sum: Checksum, w: Folder, bytes: seq<Byte>, whole: bool)
      ensures this.sum == sum && this.w == w && this.bytes == bytes && this.whole == whole
      ensures pos == 0 && !faulted
    {
      this.sum, this.w, this.bytes, this.whole := sum, w, bytes, whole;
      pos, faulted, file, remain, report, start := 0, false, File(false, 0, false, 0), 0, None, 0;
    }

    /** Every checksum whose last byte is out has agreed. */
    ghost predicate Passed()
      reads this
    {
      pos <= |bytes| && (Guarded(w) && 0 < pos && pos >= w.unpackSize ==> sum(bytes[..pos]) == w.crc)
    }

    /** What a read gets from here when the decoder gives no more than `give`. */
    function AtHand(from: nat, give: nat): nat {
      if from + give <= |bytes| then give else if from <= |bytes| then |bytes| - from else 0
    }

    /**
     A read of the block: up to `max` bytes, of which the decoder gives no more
     than `give`, or the end, or a failure.
     */
    method ReadBlock(max: nat, give: nat) returns (r: Reading)
      requires 0 < give <= max && !faulted && Passed()
      modifies this`pos, this`faulted
      ensures r.Failed? <==> faulted
      ensures old(pos) <= pos <= |bytes|
      ensures r.Got? ==> Passed() && pos == old(pos) + |r.bytes| && r.bytes == bytes[old(pos)..pos]
      ensures r.Got? ==> |r.bytes| == AtHand(old(pos), give) > 0
      ensures r.End? ==> pos == old(pos)
      ensures r.End? <==> old(pos) >= w.unpackSize && (Guarded(w) || (old(pos) == |bytes| && whole))
      ensures r.Failed? ==>
        || (pos == old(pos) == |bytes| && !(Guarded(w) && pos >= w.unpackSize) && (!whole || pos < w.unpackSize))
        || (pos == old(pos) + AtHand(old(pos), give) > old(pos) && Guarded(w) && pos >= w.unpackSize && sum(bytes[..pos]) != w.crc)
    {
      if Guarded(w) && pos >= w.unpackSize {
        return End;
      }
      if pos == |bytes| {
        faulted := !whole || pos < w.unpackSize;
        return if faulted then Failed else End;
      }
      var n := AtHand(pos, give);
      var got := bytes[pos..pos + n];
      pos := pos + n;
      if Guarded(w) && pos >= w.unpackSize && sum(bytes[..pos]) != w.crc {
        faulted := true;
        return Failed;
      }
      r := Got(got);
    }

    /** The readers for the next file, stacked on the block. */
    method Open(f: File)
      requires Sized(f) && !faulted && Passed()
      modifies this`file, this`remain, this`report, this`start
      ensures Reading() && file == f && start == pos && remain == f.size
    {
      file, remain, report := f, f.size, None;
      start := pos;
    }

    /** The file in hand has been read to here without a failure. */
    ghost predicate Reading()
      reads this
    {
      && Sized(file) && !faulted && Passed()
      && remain <= file.size && pos == start + file.size - remain
      && (Guarded(w) && remain < file.size ==> start < w.unpackSize)
      && (remain == 0 ==> ComesOut(sum, w, bytes, start, file))
      && report == if remain == 0 && Checked(w, file) then Some(file.crc) else None
    }

    /** A read of the file in hand, as the callback makes it: the decoder gives as much as it likes. */
    method ReadFile(max: nat) returns (r: Reading)
      requires max > 0 && Reading()
      modifies this`pos, this`faulted, this`remain, this`report
      ensures r.Failed? <==> faulted
      ensures r.Got? ==> Reading() && 0 < |r.bytes| <= max && old(pos) + |r.bytes| == pos && r.bytes == bytes[old(pos)..pos] && remain == old(remain) - |r.bytes|
      ensures r.End? ==> Reading() && remain == old(remain) == 0 && pos == old(pos)
      ensures r.Failed? ==> old(remain) > 0 && MayFail(sum, w, bytes, start, file)
    {
      var give: nat :| 0 < give <= max;
      r := ReadGiven(max, give);
    }

    /** The same read, of which the decoder gives no more than `give`. */
    method ReadGiven(max: nat, give: nat) returns (r: Reading)
      requires 0 < give <= max && Reading()
      modifies this`pos, this`faulted, this`remain, this`report
      ensures r.Failed? <==> faulted
      ensures r.Got? ==> Reading() && 0 < |r.bytes| <= max && old(pos) + |r.bytes| == pos && r.bytes == bytes[old(pos)..pos] && remain == old(remain) - |r.bytes|
      ensures r.Got? && give <= old(remain) ==> |r.bytes| == AtHand(old(pos), give)
      ensures r.End? ==> Reading() && remain == old(remain) == 0 && pos == old(pos)
      ensures r.Failed? ==> old(remain) > 0 && MayFail(sum, w, bytes, start, file)
      ensures give == old(remain) == file.size && ComesOut(sum, w, bytes, start, file) ==> r.Got? && remain == 0
      ensures Guarded(w) && old(pos) >= w.unpackSize && old(remain) > 0 ==> r.Failed?
    {
      if remain == 0 {
        return End;
      }
      var want := if max <= remain then max else remain;
      r := ReadBlock(want, if give <= want then give else want);
      if r.End? {
        faulted := true;
        return Failed;
      }
      if r.Failed? {
        return;
      }
      remain := remain - |r.bytes|;
      if Checked(w, file) && remain == 0 {
        var c := sum(bytes[pos - file.size..pos]);
        if c != file.crc {
          faulted := true;
          return Failed;
        }
        report := Some(c);
      }
    }

    /**
     What is left of a file when the callback asked to go on, read for it.
     After the end there is nothing; a chain that has failed may answer anything.
     */
    method Drain() returns (ok: bool)
      requires faulted || (Reading() && remain == 0)
      modifies this`pos, this`faulted, this`remain, this`report
      ensures faulted == old(faulted)
      ensures !faulted ==> ok && pos == old(pos) && remain == old(remain) && report == old(report)
    {
      if faulted {
        ok := *;
      } else {
        var r := ReadFile(65536);
        ok := !r.Failed?;
      }
    }

    /** One byte more than the block declares is asked for, and must not come. */
    method ReadToStreamEnd() returns (ok: bool)
      requires !faulted && Passed() && pos == w.unpackSize
      modifies this`pos, this`faulted
      ensures ok <==> Guarded(w) || (old(pos) == |bytes| && whole)
      ensures ok ==> pos == old(pos)
    {
      var r := ReadBlock(1, 1);
      ok := r.End?;
    }
  }

  /**
   Two readers over the same bytes of a block whose first file straddles its
   declared end: read at once the file is whole, and read up to that end it fails.
   */
  method TwoReaders(sum: Checksum, w: Folder, bytes: seq<Byte>, whole: bool) returns (atOnce: Reading, byParts: Reading)
    requires w.files != [] && Sized(w.files[0])
    requires Straddles(w, 0, w.files[0]) && ComesOut(sum, w, bytes, 0, w.files[0])
    ensures atOnce == Got(bytes[..w.files[0].size])
    ensures byParts == Failed
  {
    var f := w.files[0];
    var one := new Chain(sum, w, bytes, whole);
    one.Open(f);
    atOnce := one.ReadGiven(f.size, f.size);
    var other := new Chain(sum, w, bytes, whole);
    other.Open(f);
    byParts := other.ReadGiven(w.unpackSize, w.unpackSize);
    if byParts.Got? {
      byParts := other.ReadGiven(1, 1);
    }
  }
}
