/**
 The end of the "FilesInfo" section: files with streams take the sub-streams in
 order, the others are directories or empty files, and the two counts must agree.
 */
module FilesInfo {
  import opened Common
  import opened Sums
  import opened StreamMap

  datatype ArchiveEntry = ArchiveEntry(hasStream: bool, directory: bool, anti: bool, hasCrc: bool, crc: nat, size: nat)

  /** The sub-streams' sizes and checksums; absent when the header has no such section. */
  datatype Listed = Listed(sizes: seq<nat>, hasCrc: seq<bool>, crcs: seq<nat>)

  predicate Set(bits: Option<seq<bool>>, i: nat, absent: bool) {
    match bits
    case None => absent
    case Some(b) => i < |b| && b[i]
  }

  /** Which files have streams: those not marked empty, or all of them. */
  function Streamed(files: nat, emptyStream: Option<seq<bool>>): (s: seq<bool>)
    ensures |s| == files
  {
    seq(files, i requires 0 <= i < files => !Set(emptyStream, i, false))
  }

  /** File `i`: the sub-stream with its number when it has one, and otherwise what the bits for empty files say of it. */
  predicate Right(streamed: seq<bool>, emptyFile: Option<seq<bool>>, anti: Option<seq<bool>>, listed: Option<Listed>, e: ArchiveEntry, i: nat)
    requires i < |streamed| && Marked(streamed, i) <= i
  {
    var n := Marked(streamed, i);
    if streamed[i] then
      && listed.Some? && n < |listed.value.sizes| && n < |listed.value.crcs|
      && e.hasStream && !e.directory && !e.anti && e.size == listed.value.sizes[n] && e.crc == listed.value.crcs[n]
      && e.hasCrc == Set(Some(listed.value.hasCrc), n, false)
    else
      && e == ArchiveEntry(false, !Set(emptyFile, i - n, false), Set(anti, i - n, false), false, 0, 0)
  }

  lemma MarkedAtMost(bits: seq<bool>, i: nat)
    requires i <= |bits|
    ensures Marked(bits, i) <= i
  {
    MarkedGrows(bits, 0, i);
  }

  ghost predicate AllRight(streamed: seq<bool>, emptyFile: Option<seq<bool>>, anti: Option<seq<bool>>, listed: Option<Listed>,
                           entries: seq<ArchiveEntry>)
    requires |entries| <= |streamed|
  {
    forall i :: 0 <= i < |entries| ==> Marked(streamed, i) <= i && Right(streamed, emptyFile, anti, listed, entries[i], i)
  }

  lemma OneMoreRight(streamed: seq<bool>, emptyFile: Option<seq<bool>>, anti: Option<seq<bool>>, listed: Option<Listed>,
                     entries: seq<ArchiveEntry>, e: ArchiveEntry)
    requires |entries| < |streamed| && AllRight(streamed, emptyFile, anti, listed, entries)
    requires Marked(streamed, |entries|) <= |entries| && Right(streamed, emptyFile, anti, listed, e, |entries|)
    ensures AllRight(streamed, emptyFile, anti, listed, entries + [e])
  {
  }

  /** Bit `i` of a list that may be absent or too short to have it. */
  predicate BitIs(bits: Option<seq<bool>>, i: nat, value: bool) {
    bits.Some? && i < |bits.value| && bits.value[i] == value
  }

  /** How many files before file `i` have streams. */
  function StreamsBefore(entries: seq<ArchiveEntry>, i: nat): nat
    requires i <= |entries|
  {
    if i == 0 then 0 else StreamsBefore(entries, i - 1) + if entries[i - 1].hasStream then 1 else 0
  }

  /** File `i` in the header's own lists: with the streams and the others each numbered as they come. */
  ghost predicate AsListed(emptyStream: Option<seq<bool>>, emptyFile: Option<seq<bool>>, anti: Option<seq<bool>>, listed: Option<Listed>,
                           entries: seq<ArchiveEntry>, i: nat)
    requires i < |entries|
  {
    var n := StreamsBefore(entries, i);
    && n <= i
    && (entries[i].hasStream <==> !BitIs(emptyStream, i, true))
    && if entries[i].hasStream then
         && listed.Some? && n < |listed.value.sizes| && n < |listed.value.crcs|
         && entries[i].size == listed.value.sizes[n] && entries[i].crc == listed.value.crcs[n]
         && (entries[i].hasCrc <==> n < |listed.value.hasCrc| && listed.value.hasCrc[n])
         && !entries[i].directory && !entries[i].anti
       else
         && entries[i].size == 0 && !entries[i].hasCrc
         && (entries[i].directory <==> !BitIs(emptyFile, i - n, true))
         && (entries[i].anti <==> BitIs(anti, i - n, true))
  }

  /** Each file is as the header lists it. */
  ghost predicate AllListed(emptyStream: Option<seq<bool>>, emptyFile: Option<seq<bool>>, anti: Option<seq<bool>>, listed: Option<Listed>,
                            entries: seq<ArchiveEntry>) {
    forall i :: 0 <= i < |entries| ==> AsListed(emptyStream, emptyFile, anti, listed, entries, i)
  }

  lemma {:induction false} StreamsAreMarked(emptyStream: Option<seq<bool>>, emptyFile: Option<seq<bool>>, anti: Option<seq<bool>>,
                                            listed: Option<Listed>, entries: seq<ArchiveEntry>, i: nat)
    requires AllRight(Streamed(|entries|, emptyStream), emptyFile, anti, listed, entries) && i <= |entries|
    ensures StreamsBefore(entries, i) == Marked(Streamed(|entries|, emptyStream), i)
  {
    if i > 0 {
      StreamsAreMarked(emptyStream, emptyFile, anti, listed, entries, i - 1);
    }
  }

  lemma RightIsAsListed(emptyStream: Option<seq<bool>>, emptyFile: Option<seq<bool>>, anti: Option<seq<bool>>, listed: Option<Listed>,
                        entries: seq<ArchiveEntry>)
    requires AllRight(Streamed(|entries|, emptyStream), emptyFile, anti, listed, entries)
    ensures AllListed(emptyStream, emptyFile, anti, listed, entries)
  {
    forall i | 0 <= i < |entries| ensures AsListed(emptyStream, emptyFile, anti, listed, entries, i) {
      StreamsAreMarked(emptyStream, emptyFile, anti, listed, entries, i);
    }
  }

  /** The files, or nothing when there are more or fewer of them with streams than there are sub-streams. */
  method Finish(files: nat, emptyStream: Option<seq<bool>>, emptyFile: Option<seq<bool>>, anti: Option<seq<bool>>, listed: Option<Listed>)
    returns (r: Option<seq<ArchiveEntry>>)
    requires listed.Some? ==> |listed.value.crcs| == |listed.value.sizes|
    ensures var streamed := Streamed(files, emptyStream);
      && (r.Some? ==> |r.value| == files && AllRight(streamed, emptyFile, anti, listed, r.value))
      && (r.Some? <==> Marked(streamed, files) == if listed.Some? then |listed.value.sizes| else 0)
    ensures r.Some? ==> AllListed(emptyStream, emptyFile, anti, listed, r.value)
  {
    var streamed := Streamed(files, emptyStream);
    var known := if listed.Some? then |listed.value.sizes| else 0;
    var entries: seq<ArchiveEntry> := [];
    var nonEmpty, empty := 0, 0;
    for i := 0 to files
      invariant |entries| == i && nonEmpty == Marked(streamed, i) && empty == i - nonEmpty
      invariant nonEmpty <= known
      invariant AllRight(streamed, emptyFile, anti, listed, entries)
    {
      MarkedAtMost(streamed, i);
      if streamed[i] {
        if nonEmpty >= known {
          MarkedGrows(streamed, i + 1, files);
          return None;
        }
        var e := ArchiveEntry(true, false, false, Set(Some(listed.value.hasCrc), nonEmpty, false), listed.value.crcs[nonEmpty],
                       listed.value.sizes[nonEmpty]);
        OneMoreRight(streamed, emptyFile, anti, listed, entries, e);
        entries := entries + [e];
        nonEmpty := nonEmpty + 1;
      } else {
        var e := ArchiveEntry(false, !Set(emptyFile, empty, false), Set(anti, empty, false), false, 0, 0);
        OneMoreRight(streamed, emptyFile, anti, listed, entries, e);
        entries := entries + [e];
        empty := empty + 1;
      }
    }
    if nonEmpty != known {
      return None;
    }
    RightIsAsListed(emptyStream, emptyFile, anti, listed, entries);
    r := Some(entries);
  }

  /** The streamed file with number `n` is mapped to the block whose sub-streams include `n`. */
  ghost predicate NthMapped(counts: seq<nat>, streamed: seq<bool>, blockOf: seq<Option<nat>>, n: nat) {
    exists f: nat, b: nat :: f < |streamed| == |blockOf| && b < |counts| && streamed[f] && blockOf[f] == Some(b)
      && Marked(streamed, f) == n && Prefix(counts, b) <= n < Prefix(counts, b + 1)
  }

  /**
   An accepted header with files: as many have streams as there are sub-streams,
   so the map is built, and it holds every sub-stream's file.
   */
  method MapAccepted(counts: seq<nat>, files: nat, emptyStream: Option<seq<bool>>, emptyFile: Option<seq<bool>>,
                     anti: Option<seq<bool>>, listed: Listed)
    returns (entries: Option<seq<ArchiveEntry>>, firstFile: seq<nat>, blockOf: seq<Option<nat>>)
    requires |listed.sizes| == |listed.crcs| == Prefix(counts, |counts|)
    ensures entries.Some? <==> Marked(Streamed(files, emptyStream), files) == |listed.sizes|
    ensures entries.Some? ==> |entries.value| == files
    ensures entries.Some? ==> AllRight(Streamed(files, emptyStream), emptyFile, anti, Some(listed), entries.value)
    ensures entries.Some? ==> AllListed(emptyStream, emptyFile, anti, Some(listed), entries.value)
    ensures entries.Some? ==> RightMap(counts, Streamed(files, emptyStream), firstFile, blockOf)
    ensures entries.Some? ==>
      forall n: nat :: n < |listed.sizes| ==> NthMapped(counts, Streamed(files, emptyStream), blockOf, n)
  {
    entries := Finish(files, emptyStream, emptyFile, anti, Some(listed));
    firstFile, blockOf := [], [];
    if entries.Some? {
      var streamed := Streamed(files, emptyStream);
      var ok;
      ok, firstFile, blockOf := CalculateFiles(counts, streamed);
      forall n: nat | n < |listed.sizes| ensures NthMapped(counts, streamed, blockOf, n) {
        EveryStreamMapped(counts, streamed, firstFile, blockOf, n);
      }
    }
  }

  lemma EveryStreamMapped(counts: seq<nat>, streamed: seq<bool>, firstFile: seq<nat>, blockOf: seq<Option<nat>>, n: nat)
    requires RightMap(counts, streamed, firstFile, blockOf) && Marked(streamed, |streamed|) == Prefix(counts, |counts|)
    requires n < Prefix(counts, |counts|)
    ensures NthMapped(counts, streamed, blockOf, n)
  {
    var f := Nth(streamed, |streamed|, n);
    var b := IntervalOf(counts, 0, |counts|, n);
    assert Holds(counts, streamed, b, f);
  }
}
