/**
 A block's files as the header gives them to the walk: the files of its range,
 each with its sub-stream's size, over the size the block declares.
 */
module HeaderFolders {
  import opened Common
  import opened Sums
  import opened StreamMap
  import opened FilesInfo
  import opened FolderFiles
  import SubStreams

  function FolderOf(entries: seq<ArchiveEntry>, start: nat, end: nat, block: SubStreams.BlockInfo, verify: bool): (w: Folder)
    requires start <= end <= |entries|
    ensures |w.files| == end - start
    ensures forall k :: 0 <= k < end - start ==>
      w.files[k] == File(entries[start + k].hasStream, entries[start + k].size, entries[start + k].hasCrc, entries[start + k].crc)
  {
    var files := seq(end - start, k requires 0 <= k < end - start =>
      File(entries[start + k].hasStream, entries[start + k].size, entries[start + k].hasCrc, entries[start + k].crc));
    Folder(files, block.unpackSize, block.hasCrc, block.crc, verify)
  }

  /** The folder has each of its files' own size and checksum, and its block's. */
  predicate Carries(w: Folder, entries: seq<ArchiveEntry>, start: nat, end: nat, block: SubStreams.BlockInfo, verify: bool) {
    && start <= end <= |entries| && |w.files| == end - start
    && w.unpackSize == block.unpackSize && w.hasCrc == block.hasCrc && w.crc == block.crc && w.verify == verify
    && forall k :: 0 <= k < end - start ==>
         && w.files[k].hasStream == entries[start + k].hasStream && w.files[k].size == entries[start + k].size
         && w.files[k].hasCrc == entries[start + k].hasCrc && w.files[k].crc == entries[start + k].crc
  }

  /** Files `start..end` are block `b`'s, with its sub-streams' sizes in order. */
  ghost predicate Filed(counts: seq<nat>, streamed: seq<bool>, sizes: seq<nat>, entries: seq<ArchiveEntry>, b: nat, start: nat, end: nat) {
    && b < |counts| && |entries| == |streamed| && start <= end <= |streamed| && Prefix(counts, b + 1) <= |sizes|
    && Prefix(counts, b) <= Prefix(counts, b + 1)
    && (start < end ==> Marked(streamed, start) == Prefix(counts, b))
    && forall i :: start <= i < end ==> FiledAt(counts, streamed, sizes, entries, b, i)
  }

  predicate FiledAt(counts: seq<nat>, streamed: seq<bool>, sizes: seq<nat>, entries: seq<ArchiveEntry>, b: nat, i: nat)
    requires b < |counts| && i < |streamed| == |entries| && Prefix(counts, b + 1) <= |sizes|
  {
    var n := Marked(streamed, i);
    && Prefix(counts, b) <= n < Prefix(counts, b + 1)
    && entries[i].hasStream == streamed[i] && (streamed[i] ==> entries[i].size == sizes[n])
  }

  /** The files `start..end` are those block `b` holds. */
  ghost predicate RangeOf(counts: seq<nat>, streamed: seq<bool>, b: nat, start: nat, end: nat)
    requires b < |counts|
  {
    forall i: nat :: i < |streamed| ==> (start <= i < end <==> Holds(counts, streamed, b, i))
  }

  /** The files `start..end` are those of block `b`, sized by its sub-streams. */
  ghost predicate FilesOf(counts: seq<nat>, streamed: seq<bool>, sizes: seq<nat>, entries: seq<ArchiveEntry>, b: nat, start: nat, end: nat) {
    Filed(counts, streamed, sizes, entries, b, start, end) && RangeOf(counts, streamed, b, start, end)
  }

  /** A file a block holds is filed under it. */
  lemma HeldIsFiled(counts: seq<nat>, streamed: seq<bool>, emptyFile: Option<seq<bool>>, anti: Option<seq<bool>>, listed: Listed,
                    entries: seq<ArchiveEntry>, b: nat, i: nat)
    requires b < |counts| && i < |streamed| == |entries| && Holds(counts, streamed, b, i)
    requires Marked(streamed, i) <= i && Right(streamed, emptyFile, anti, Some(listed), entries[i], i)
    requires Prefix(counts, b + 1) <= |listed.sizes|
    ensures FiledAt(counts, streamed, listed.sizes, entries, b, i)
  {
  }

  /** The range of a block in an accepted header is filed under it. */
  lemma RangeIsFiled(counts: seq<nat>, streamed: seq<bool>, emptyFile: Option<seq<bool>>, anti: Option<seq<bool>>, listed: Listed,
                     entries: seq<ArchiveEntry>, b: nat, start: nat, end: nat)
    requires b < |counts| && |entries| == |streamed| && AllRight(streamed, emptyFile, anti, Some(listed), entries)
    requires Marked(streamed, |streamed|) == Prefix(counts, |counts|) == |listed.sizes|
    requires start <= end <= |streamed| && RangeOf(counts, streamed, b, start, end)
    ensures FilesOf(counts, streamed, listed.sizes, entries, b, start, end)
  {
    PrefixGrows(counts, b, b + 1);
    PrefixGrows(counts, b + 1, |counts|);
    forall i | start <= i < end ensures FiledAt(counts, streamed, listed.sizes, entries, b, i) {
      HeldIsFiled(counts, streamed, emptyFile, anti, listed, entries, b, i);
    }
    if start < end {
      FirstIsFirst(counts, streamed, b, start, end);
    }
  }

  /** A block's range starts at its first sub-stream's file. */
  lemma FirstIsFirst(counts: seq<nat>, streamed: seq<bool>, b: nat, start: nat, end: nat)
    requires b < |counts| && Marked(streamed, |streamed|) == Prefix(counts, |counts|)
    requires start < end <= |streamed| && RangeOf(counts, streamed, b, start, end)
    ensures Marked(streamed, start) == Prefix(counts, b)
  {
    assert Holds(counts, streamed, b, start);
    PrefixGrows(counts, b + 1, |counts|);
    var f := Nth(streamed, |streamed|, Prefix(counts, b));
    assert Holds(counts, streamed, b, f);
    MarkedGrows(streamed, start, f);
  }

  /** Where a file starts is the sum of the sub-streams before it. */
  lemma {:induction false} StartIsSum(counts: seq<nat>, streamed: seq<bool>, sizes: seq<nat>, entries: seq<ArchiveEntry>, b: nat,
                                      start: nat, end: nat, block: SubStreams.BlockInfo, verify: bool, k: nat)
    requires Filed(counts, streamed, sizes, entries, b, start, end) && k < end - start
    ensures var n := Marked(streamed, start + k);
      Prefix(counts, b) <= n < Prefix(counts, b + 1)
      && Start(FolderOf(entries, start, end, block, verify).files, k) == SubStreams.Sum(sizes, Prefix(counts, b), n)
  {
    assert FiledAt(counts, streamed, sizes, entries, b, start + k);
    if k > 0 {
      StartIsSum(counts, streamed, sizes, entries, b, start, end, block, verify, k - 1);
      assert FiledAt(counts, streamed, sizes, entries, b, start + k - 1);
    }
  }

  /** A block whose sub-streams add up to it has no file across its declared end. */
  lemma RightSumsNoneStraddle(counts: seq<nat>, streamed: seq<bool>, sizes: seq<nat>, entries: seq<ArchiveEntry>, b: nat,
                              start: nat, end: nat, block: SubStreams.BlockInfo, verify: bool)
    requires Filed(counts, streamed, sizes, entries, b, start, end)
    requires SubStreams.Sum(sizes, Prefix(counts, b), Prefix(counts, b + 1)) == block.unpackSize
    ensures NoneStraddles(FolderOf(entries, start, end, block, verify))
  {
    var w := FolderOf(entries, start, end, block, verify);
    forall k | 0 <= k < |w.files| && Sized(w.files[k]) ensures !Straddles(w, Start(w.files, k), w.files[k]) {
      StartIsSum(counts, streamed, sizes, entries, b, start, end, block, verify, k);
      assert FiledAt(counts, streamed, sizes, entries, b, start + k);
      var n := Marked(streamed, start + k);
      SubStreams.SumNext(sizes, Prefix(counts, b), n);
      SubStreams.SumSplits(sizes, Prefix(counts, b), n + 1, Prefix(counts, b + 1));
    }
  }

  /** The header is accepted: its sub-streams can be read, and there are as many of them as files with streams. */
  ghost predicate Accepted(blocks: seq<SubStreams.BlockInfo>, h: SubStreams.Header, limit: nat, streamed: seq<bool>) {
    var counts := SubStreams.CountsOf(|blocks|, h.counts);
    SubStreams.Readable(blocks, h, limit) && Marked(streamed, |streamed|) == Prefix(counts, |counts|)
  }

  /**
   A block of a header, as the walk gets it: of exactly the headers that are
   accepted, and with exactly the block's files. Reads tell one story of it when
   its sizes are listed, when each block is one stream, and otherwise when no
   block with bytes follows one with several sub-streams.
   */
  method ReadFolder(blocks: seq<SubStreams.BlockInfo>, h: SubStreams.Header, limit: nat, files: nat,
                    emptyStream: Option<seq<bool>>, emptyFile: Option<seq<bool>>, anti: Option<seq<bool>>, b: nat, verify: bool)
    returns (w: Option<Folder>, info: Option<SubStreams.Info>, entries: seq<ArchiveEntry>, start: nat, end: nat)
    requires b < |blocks| && forall a :: 0 <= a < |blocks| ==> blocks[a].unpackSize <= SubStreams.U64_MAX
    ensures w.Some? <==> Accepted(blocks, h, limit, Streamed(files, emptyStream))
    ensures w.Some? ==> info.Some? && info.value.counts == SubStreams.CountsOf(|blocks|, h.counts)
    ensures w.Some? ==>
      && FilesOf(info.value.counts, Streamed(files, emptyStream), info.value.sizes, entries, b, start, end)
      && w.value == FolderOf(entries, start, end, blocks[b], verify)
    ensures w.Some? ==> Carries(w.value, entries, start, end, blocks[b], verify)
    ensures w.Some? ==> SubStreams.ChecksumsRight(info.value, blocks, h.digests)
    ensures w.Some? ==> |entries| == files
    ensures w.Some? ==>
      AllListed(emptyStream, emptyFile, anti, Some(Listed(info.value.sizes, info.value.hasCrc, info.value.crcs)), entries)
    ensures w.Some? && h.sizes.None? ==> SubStreams.Placed(info.value.counts, SubStreams.Unpack(blocks), info.value.sizes)
    ensures w.Some? && (h.sizes.Some? || h.counts.None? || SubStreams.Harmless(info.value.counts, SubStreams.Unpack(blocks))) ==>
      NoneStraddles(w.value)
  {
    w, entries, start, end := None, [], 0, 0;
    info := SubStreams.ReadSubStreamsInfo(blocks, h, limit);
    if info.None? {
      return;
    }
    var counts := info.value.counts;
    var listed := Listed(info.value.sizes, info.value.hasCrc, info.value.crcs);
    var read;
    read, start, end := BlockFiles(counts, files, emptyStream, emptyFile, anti, listed, b);
    if read.None? {
      return;
    }
    entries := read.value;
    w := Some(FolderOf(entries, start, end, blocks[b], verify));
    var streamed := Streamed(files, emptyStream);
    if h.sizes.Some? || h.counts.None? || SubStreams.Harmless(counts, SubStreams.Unpack(blocks)) {
      FiledNoneStraddle(counts, streamed, listed.sizes, entries, b, start, end, blocks, verify);
    }
  }

  /** The files of a block by a map that is right. */
  method FilesHeld(counts: seq<nat>, ghost streamed: seq<bool>, firstFile: seq<nat>, blockOf: seq<Option<nat>>, b: nat)
    returns (start: nat, end: nat)
    requires RightMap(counts, streamed, firstFile, blockOf) && b < |counts|
    ensures start <= end <= |streamed| && RangeOf(counts, streamed, b, start, end)
  {
    start, end := BlockFileRange(counts, |blockOf|, firstFile, blockOf, b);
    HeldIsMapped(counts, streamed, firstFile, blockOf, b);
  }

  /** A header's files, when there are as many with streams as sub-streams, and which of them are a block's. */
  method BlockFiles(counts: seq<nat>, files: nat, emptyStream: Option<seq<bool>>, emptyFile: Option<seq<bool>>, anti: Option<seq<bool>>,
                    listed: Listed, b: nat)
    returns (entries: Option<seq<ArchiveEntry>>, start: nat, end: nat)
    requires b < |counts| && |listed.sizes| == |listed.crcs| == Prefix(counts, |counts|)
    ensures entries.Some? <==> Marked(Streamed(files, emptyStream), files) == |listed.sizes|
    ensures entries.Some? ==> |entries.value| == files
    ensures entries.Some? ==> AllListed(emptyStream, emptyFile, anti, Some(listed), entries.value)
    ensures entries.Some? ==> FilesOf(counts, Streamed(files, emptyStream), listed.sizes, entries.value, b, start, end)
  {
    start, end := 0, 0;
    var firstFile, blockOf;
    entries, firstFile, blockOf := MapAccepted(counts, files, emptyStream, emptyFile, anti, listed);
    if entries.Some? {
      var streamed := Streamed(files, emptyStream);
      start, end := FilesHeld(counts, streamed, firstFile, blockOf, b);
      RangeIsFiled(counts, streamed, emptyFile, anti, listed, entries.value, b, start, end);
    }
  }

  lemma HeldIsMapped(counts: seq<nat>, streamed: seq<bool>, firstFile: seq<nat>, blockOf: seq<Option<nat>>, b: nat)
    requires RightMap(counts, streamed, firstFile, blockOf) && b < |counts|
    ensures forall i: nat :: i < |streamed| ==> (blockOf[i] == Some(b) <==> Holds(counts, streamed, b, i))
  {
  }

  lemma FiledNoneStraddle(counts: seq<nat>, streamed: seq<bool>, sizes: seq<nat>, entries: seq<ArchiveEntry>, b: nat,
                          start: nat, end: nat, blocks: seq<SubStreams.BlockInfo>, verify: bool)
    requires Filed(counts, streamed, sizes, entries, b, start, end)
    requires |counts| == |blocks| && |sizes| == Prefix(counts, |counts|)
    requires SubStreams.SumsRight(counts, SubStreams.Unpack(blocks), sizes)
    ensures NoneStraddles(FolderOf(entries, start, end, blocks[b], verify))
  {
    if start < end {
      assert FiledAt(counts, streamed, sizes, entries, b, start);
      assert SubStreams.SumRight(counts, SubStreams.Unpack(blocks), sizes, b);
      RightSumsNoneStraddle(counts, streamed, sizes, entries, b, start, end, blocks[b], verify);
    }
  }

  /**
   A header without listed sizes that is accepted, and whose second block holds a
   file across its end: of blocks of ten, twenty and thirty bytes with two, two and
   one sub-streams, the second is given the third's thirty bytes as its first file.
   */
  method UnlistedCanStraddle(crc: nat) returns (w: Option<Folder>)
    ensures w.Some? && !NoneStraddles(w.value)
  {
    var ten, twenty, thirty := SubStreams.BlockInfo(10, false, 0), SubStreams.BlockInfo(20, true, crc), SubStreams.BlockInfo(30, false, 0);
    var blocks := [ten, twenty, thirty];
    var h := SubStreams.Header(Some([2, 2, 1]), None, None);
    FiveCounts();
    FiveMarked(5);
    assert Streamed(5, None) == Five();
    assert SubStreams.CountsOf(3, h.counts) == [2, 2, 1];
    var info, entries, start, end;
    w, info, entries, start, end := ReadFolder(blocks, h, 5, 5, None, None, None, 1, true);
    assert SubStreams.Unpack(blocks) == [10, 20, 30];
    SecondStraddles(info.value.sizes, entries, start, end, crc);
  }

  lemma FiveCounts()
    ensures Prefix([2, 2, 1], 1) == 2 && Prefix([2, 2, 1], 2) == 4 && Prefix([2, 2, 1], 3) == 5
  {
    assert Prefix([2, 2, 1], 1) == Prefix([2, 2, 1], 0) + 2;
  }

  lemma SecondStraddles(sizes: seq<nat>, entries: seq<ArchiveEntry>, start: nat, end: nat, crc: nat)
    requires SubStreams.Placed([2, 2, 1], [10, 20, 30], sizes)
    requires FilesOf([2, 2, 1], Five(), sizes, entries, 1, start, end)
    ensures !NoneStraddles(FolderOf(entries, start, end, SubStreams.BlockInfo(20, true, crc), true))
  {
    var counts, unpack := [2, 2, 1], [10, 20, 30];
    FiveCounts();
    FiveMarked(2);
    FiveMarked(3);
    FiveMarked(start);
    assert Holds(counts, Five(), 1, 2);
    assert SubStreams.Full(counts, 1) == 1 && SubStreams.Full(counts, 2) == 2;
    assert SubStreams.BlockPlaced(counts, unpack, sizes, 2);
    assert FiledAt(counts, Five(), sizes, entries, 1, start);
    var w := FolderOf(entries, start, end, SubStreams.BlockInfo(20, true, crc), true);
    assert w.files[0].size == 30 && Straddles(w, Start(w.files, 0), w.files[0]);
  }

  /** Five files, all with streams. */
  function Five(): seq<bool> { [true, true, true, true, true] }

  lemma {:induction false} FiveMarked(i: nat)
    requires i <= 5
    ensures Marked(Five(), i) == i
  {
    if i > 0 {
      FiveMarked(i - 1);
    }
  }
}
