/**
 The sizes and checksums of the files packed into each block, as the section
 "SubStreams Info" lists them: all sizes of a block but its last, and the
 digests of the streams whose block does not already carry theirs.
 */
module SubStreams {
  import opened Common
  import opened Sums

  datatype BlockInfo = BlockInfo(unpackSize: nat, hasCrc: bool, crc: nat)

  /** What the header has: sub-stream counts, listed sizes, digest flags with the values of the set ones; each optional. */
  datatype Header = Header(counts: Option<seq<nat>>, sizes: Option<seq<nat>>, digests: Option<(seq<bool>, seq<nat>)>)

  datatype Info = Info(counts: seq<nat>, sizes: seq<nat>, hasCrc: seq<bool>, crcs: seq<nat>)

  const U64_MAX: nat := 0xFFFF_FFFF_FFFF_FFFF

  /** The sum of `sizes[from..to]`. */
  function Sum(sizes: seq<nat>, from: nat, to_: nat): nat
    requires from <= to_ <= |sizes|
  {
    if from == to_ then 0 else Sum(sizes, from, to_ - 1) + sizes[to_ - 1]
  }

  lemma {:induction false} SumSplits(sizes: seq<nat>, a: nat, b: nat, c: nat)
    requires a <= b <= c <= |sizes|
    ensures Sum(sizes, a, c) == Sum(sizes, a, b) + Sum(sizes, b, c)
    decreases c
  {
    if b < c {
      SumSplits(sizes, a, b, c - 1);
    }
  }

  lemma {:induction false} SumSame(s: seq<nat>, t: seq<nat>, from: nat, to_: nat)
    requires from <= to_ <= |s| && to_ <= |t| && forall i :: from <= i < to_ ==> s[i] == t[i]
    ensures Sum(s, from, to_) == Sum(t, from, to_)
    decreases to_
  {
    if from < to_ {
      SumSame(s, t, from, to_ - 1);
    }
  }

  lemma {:induction false} SumZero(s: seq<nat>, from: nat, to_: nat)
    requires from <= to_ <= |s|
    ensures Sum(s, from, to_) == 0 <==> forall i :: from <= i < to_ ==> s[i] == 0
    decreases to_
  {
    if from < to_ {
      SumZero(s, from, to_ - 1);
    }
  }

  // ------------------------------------------------- counts

  /** One sub-stream for each block unless the header counts them, up to the limit on entries. */
  method ReadCounts(blocks: nat, listed: Option<seq<nat>>, limit: nat) returns (r: Option<seq<nat>>)
    ensures r.Some? ==> |r.value| == blocks
    ensures r.Some? && listed.None? ==> forall b :: 0 <= b < blocks ==> r.value[b] == 1
    ensures r.Some? && listed.Some? ==> blocks <= |listed.value| && r.value == listed.value[..blocks] && Prefix(r.value, blocks) <= limit
    ensures r.None? <==> listed.Some? && (|listed.value| < blocks || Prefix(listed.value, blocks) > limit)
  {
    if listed.None? {
      return Some(seq(blocks, _ => 1));
    }
    var total := 0;
    var counts: seq<nat> := [];
    for b := 0 to blocks
      invariant b <= |listed.value| && counts == listed.value[..b] && total == Prefix(listed.value, b) <= limit
    {
      if b == |listed.value| {
        return None;
      }
      total := total + listed.value[b];
      counts := counts + [listed.value[b]];
      if total > limit {
        PrefixLonger(listed.value, b + 1, blocks, limit);
        return None;
      }
    }
    SamePrefix(listed.value, blocks);
    r := Some(counts);
  }

  lemma PrefixLonger(counts: seq<nat>, b: nat, blocks: nat, limit: nat)
    requires b <= blocks && b <= |counts| && Prefix(counts, b) > limit
    ensures |counts| < blocks || Prefix(counts, blocks) > limit
  {
    if blocks <= |counts| {
      PrefixGrows(counts, b, blocks);
    }
  }

  lemma {:induction false} PrefixOf(s: seq<nat>, t: seq<nat>, b: nat)
    requires b <= |s| && b <= |t| && forall i :: 0 <= i < b ==> s[i] == t[i]
    ensures Prefix(s, b) == Prefix(t, b)
  {
    if b > 0 {
      PrefixOf(s, t, b - 1);
    }
  }

  lemma SamePrefix(counts: seq<nat>, b: nat)
    requires b <= |counts|
    ensures Prefix(counts[..b], b) == Prefix(counts, b)
  {
    PrefixOf(counts[..b], counts, b);
  }

  // ------------------------------------------------- sizes

  /** How many sizes the header lists for the first `b` blocks: all but the last of each. */
  function Listed(counts: seq<nat>, b: nat): nat
    requires b <= |counts|
  {
    if b == 0 then 0 else Listed(counts, b - 1) + if counts[b - 1] > 0 then counts[b - 1] - 1 else 0
  }

  /** How many of the first `b` blocks have sub-streams at all. */
  function Full(counts: seq<nat>, b: nat): nat
    requires b <= |counts|
  {
    if b == 0 then 0 else Full(counts, b - 1) + if counts[b - 1] > 0 then 1 else 0
  }

  lemma {:induction false} ListedGrows(counts: seq<nat>, a: nat, b: nat)
    requires a <= b <= |counts|
    ensures Listed(counts, a) <= Listed(counts, b)
    decreases b
  {
    if a < b {
      ListedGrows(counts, a, b - 1);
    }
  }

  lemma {:induction false} FullGrows(counts: seq<nat>, a: nat, b: nat)
    requires a <= b <= |counts|
    ensures Full(counts, a) <= Full(counts, b) && Full(counts, b) - Full(counts, a) <= Prefix(counts, b) - Prefix(counts, a)
    decreases b
  {
    if a < b {
      FullGrows(counts, a, b - 1);
    }
  }

  /** The sizes of one block are those listed for it and, last, what they leave of the block. */
  ghost predicate BlockSized(counts: seq<nat>, listed: seq<nat>, unpack: seq<nat>, sizes: seq<nat>, b: nat)
    requires b < |counts| == |unpack|
  {
    counts[b] > 0 ==>
      && Prefix(counts, b) + counts[b] <= |sizes| && Listed(counts, b) + counts[b] - 1 <= |listed|
      && sizes[Prefix(counts, b)..Prefix(counts, b) + counts[b] - 1] == listed[Listed(counts, b)..Listed(counts, b) + counts[b] - 1]
      && Sum(sizes, Prefix(counts, b), Prefix(counts, b) + counts[b]) == unpack[b]
  }

  /** What the header lists for block `b` is there and does not exceed the block. */
  ghost predicate BlockFits(counts: seq<nat>, listed: seq<nat>, unpack: seq<nat>, b: nat)
    requires b < |counts| == |unpack|
  {
    counts[b] > 0 ==>
      && Listed(counts, b) + counts[b] - 1 <= |listed|
      && Sum(listed, Listed(counts, b), Listed(counts, b) + counts[b] - 1) <= unpack[b]
  }

  /** Without listed sizes each block's size is put in the next place, one for a block however many sub-streams it has. */
  ghost predicate BlockPlaced(counts: seq<nat>, unpack: seq<nat>, sizes: seq<nat>, b: nat)
    requires b < |counts| == |unpack|
  {
    counts[b] > 0 ==> Full(counts, b) < |sizes| && sizes[Full(counts, b)] == unpack[b]
  }

  /** Reads the listed sizes of one block and works out its last. */
  method ReadBlockSizes(listed: seq<nat>, at: nat, count: nat, unpack: nat, sizes: seq<nat>, next: nat)
    returns (ok: bool, out: seq<nat>)
    requires count > 0 && next + count <= |sizes| && at <= |listed| && unpack <= U64_MAX
    ensures |out| == |sizes|
    ensures ok ==> out[..next] == sizes[..next] && at + count - 1 <= |listed|
    ensures ok ==> out[next..next + count - 1] == listed[at..at + count - 1]
    ensures ok ==> Sum(out, next, next + count) == unpack
    ensures ok <==> at + count - 1 <= |listed| && Sum(listed, at, at + count - 1) <= unpack
  {
    out := sizes;
    var sum := 0;
    for i := 0 to count - 1
      invariant |out| == |sizes| && out[..next] == sizes[..next] && at + i <= |listed|
      invariant out[next..next + i] == listed[at..at + i]
      invariant sum == Sum(listed, at, at + i) <= U64_MAX
    {
      if at + i == |listed| {
        return false, out;
      }
      OneMoreCopied(out, next, listed, at, i);
      out := out[next + i := listed[at + i]];
      sum := sum + listed[at + i];
      if sum > U64_MAX {
        if at + count - 1 <= |listed| {
          SumSplits(listed, at, at + i + 1, at + count - 1);
        }
        return false, out;
      }
    }
    if sum > unpack {
      return false, out;
    }
    out := out[next + count - 1 := unpack - sum];
    SumShifted(out, next, listed, at, count - 1);
    SumNext(out, next, next + count - 1);
    ok := true;
  }

  lemma OneMoreCopied(out: seq<nat>, next: nat, listed: seq<nat>, at: nat, i: nat)
    requires next + i < |out| && at + i < |listed| && out[next..next + i] == listed[at..at + i]
    ensures var n := i + 1;
      var more := out[next + i := listed[at + i]];
      more[..next] == out[..next] && more[next..next + n] == listed[at..at + n]
      && Sum(listed, at, at + n) == Sum(listed, at, at + i) + listed[at + i]
  {
    var more := out[next + i := listed[at + i]];
    assert more[next..next + i] == out[next..next + i];
    assert more[next..next + (i + 1)] == more[next..next + i] + [listed[at + i]];
    assert listed[at..at + (i + 1)] == listed[at..at + i] + [listed[at + i]];
    SumNext(listed, at, at + i);
  }

  lemma SumNext(s: seq<nat>, from: nat, to_: nat)
    requires from <= to_ < |s|
    ensures Sum(s, from, to_ + 1) == Sum(s, from, to_) + s[to_]
  {
  }

  lemma {:induction false} SumShifted(s: seq<nat>, from: nat, t: seq<nat>, at: nat, n: nat)
    requires from + n <= |s| && at + n <= |t| && s[from..from + n] == t[at..at + n]
    ensures Sum(s, from, from + n) == Sum(t, at, at + n)
  {
    if n > 0 {
      assert s[from..from + n][..n - 1] == s[from..from + (n - 1)];
      assert t[at..at + n][..n - 1] == t[at..at + (n - 1)];
      assert s[from..from + n][n - 1] == s[from + (n - 1)] && t[at..at + n][n - 1] == t[at + (n - 1)];
      SumShifted(s, from, t, at, n - 1);
      SumNext(s, from, from + (n - 1));
      SumNext(t, at, at + (n - 1));
    }
  }

  /** A block's sizes are its own places; what is written after them leaves it as it was. */
  lemma SizedStill(counts: seq<nat>, listed: seq<nat>, unpack: seq<nat>, sizes: seq<nat>, out: seq<nat>, a: nat, b: nat)
    requires a < b < |counts| == |unpack| && BlockSized(counts, listed, unpack, sizes, a)
    requires |out| == |sizes| && Prefix(counts, b) <= |sizes| && out[..Prefix(counts, b)] == sizes[..Prefix(counts, b)]
    ensures BlockSized(counts, listed, unpack, out, a)
  {
    PrefixGrows(counts, a + 1, b);
    if counts[a] > 0 {
      SliceStill(sizes, out, Prefix(counts, b), Prefix(counts, a), Prefix(counts, a) + counts[a]);
      SliceStill(sizes, out, Prefix(counts, b), Prefix(counts, a), Prefix(counts, a) + counts[a] - 1);
    }
  }

  lemma SliceStill(s: seq<nat>, t: seq<nat>, end: nat, a: nat, b: nat)
    requires a <= b <= end <= |s| == |t| && s[..end] == t[..end]
    ensures s[a..b] == t[a..b] && Sum(s, a, b) == Sum(t, a, b)
  {
    assert s[..end][a..b] == s[a..b] && t[..end][a..b] == t[a..b];
    assert b == a + (b - a);
    SumShifted(s, a, t, a, b - a);
  }

  method ReadListedSizes(counts: seq<nat>, unpack: seq<nat>, listed: seq<nat>) returns (ok: bool, sizes: seq<nat>)
    requires |counts| == |unpack| && forall b :: 0 <= b < |unpack| ==> unpack[b] <= U64_MAX
    ensures |sizes| == Prefix(counts, |counts|)
    ensures ok ==> forall b :: 0 <= b < |counts| ==> BlockSized(counts, listed, unpack, sizes, b)
    ensures ok <==> forall b :: 0 <= b < |counts| ==> BlockFits(counts, listed, unpack, b)
  {
    sizes := seq(Prefix(counts, |counts|), _ => 0);
    for b := 0 to |counts|
      invariant |sizes| == Prefix(counts, |counts|) && Listed(counts, b) <= |listed|
      invariant forall a :: 0 <= a < b ==> BlockSized(counts, listed, unpack, sizes, a) && BlockFits(counts, listed, unpack, a)
    {
      if counts[b] == 0 {
        continue;
      }
      PrefixGrows(counts, b + 1, |counts|);
      var out;
      ok, out := ReadBlockSizes(listed, Listed(counts, b), counts[b], unpack[b], sizes, Prefix(counts, b));
      if !ok {
        assert !BlockFits(counts, listed, unpack, b);
        return;
      }
      forall a | 0 <= a < b ensures BlockSized(counts, listed, unpack, out, a) {
        SizedStill(counts, listed, unpack, sizes, out, a, b);
      }
      sizes := out;
    }
    ok := true;
  }

  lemma PlacedStill(counts: seq<nat>, unpack: seq<nat>, sizes: seq<nat>, a: nat, b: nat, size: nat)
    requires a < b <= |counts| == |unpack| && BlockPlaced(counts, unpack, sizes, a) && Full(counts, b) < |sizes|
    ensures BlockPlaced(counts, unpack, sizes[Full(counts, b) := size], a)
  {
    FullGrows(counts, a + 1, b);
  }

  method PlaceSizes(counts: seq<nat>, unpack: seq<nat>) returns (sizes: seq<nat>)
    requires |counts| == |unpack|
    ensures Placed(counts, unpack, sizes)
  {
    sizes := seq(Prefix(counts, |counts|), _ => 0);
    var next := 0;
    for b := 0 to |counts|
      invariant |sizes| == Prefix(counts, |counts|) && next == Full(counts, b)
      invariant forall a :: 0 <= a < b ==> BlockPlaced(counts, unpack, sizes, a)
      invariant forall j :: next <= j < |sizes| ==> sizes[j] == 0
    {
      if counts[b] > 0 {
        FullGrows(counts, b + 1, |counts|);
        FullGrows(counts, 0, b + 1);
        PrefixGrows(counts, b + 1, |counts|);
        var updated := sizes[next := unpack[b]];
        forall a | 0 <= a < b ensures BlockPlaced(counts, unpack, updated, a) {
          PlacedStill(counts, unpack, sizes, a, b, unpack[b]);
        }
        sizes := updated;
        next := next + 1;
      }
    }
  }

  // ------------------------------------------------- when sizes are not listed

  /** Each block's sub-streams add up to it. */
  ghost predicate SumsRight(counts: seq<nat>, unpack: seq<nat>, sizes: seq<nat>)
    requires |counts| == |unpack| && |sizes| == Prefix(counts, |counts|)
  {
    forall b :: 0 <= b < |counts| && counts[b] > 0 ==> SumRight(counts, unpack, sizes, b)
  }

  ghost predicate SumRight(counts: seq<nat>, unpack: seq<nat>, sizes: seq<nat>, b: nat)
    requires b < |counts| == |unpack| && |sizes| == Prefix(counts, |counts|)
  {
    PrefixGrows(counts, b, b + 1);
    PrefixGrows(counts, b + 1, |counts|);
    Sum(sizes, Prefix(counts, b), Prefix(counts, b + 1)) == unpack[b]
  }

  /** No block with bytes comes after one with several sub-streams. */
  predicate Harmless(counts: seq<nat>, unpack: seq<nat>)
    requires |counts| == |unpack|
  {
    forall a, b :: 0 <= a < b < |counts| && counts[a] > 1 && counts[b] > 0 ==> unpack[b] == 0
  }

  ghost predicate Placed(counts: seq<nat>, unpack: seq<nat>, sizes: seq<nat>)
    requires |counts| == |unpack|
  {
    && |sizes| == Prefix(counts, |counts|)
    && (forall b :: 0 <= b < |counts| ==> BlockPlaced(counts, unpack, sizes, b))
    && (forall j :: Full(counts, |counts|) <= j < |sizes| ==> sizes[j] == 0)
  }

  /** The block with number `n` among those with sub-streams. */
  lemma {:induction false} NthFull(counts: seq<nat>, b: nat, n: nat) returns (c: nat)
    requires b <= |counts| && n < Full(counts, b)
    ensures c < b && counts[c] > 0 && Full(counts, c) == n
    decreases b
  {
    c := b - 1;
    if !(counts[c] > 0 && Full(counts, c) == n) {
      c := NthFull(counts, b - 1, n);
    }
  }

  lemma {:induction false} SinglesAlign(counts: seq<nat>, b: nat)
    requires b <= |counts| && forall a :: 0 <= a < b ==> counts[a] <= 1
    ensures Full(counts, b) == Prefix(counts, b)
  {
    if b > 0 {
      SinglesAlign(counts, b - 1);
    }
  }

  /** Past block `b`'s own place, a block's places hold sizes of later blocks, or nothing. */
  lemma PlaceHolds(counts: seq<nat>, unpack: seq<nat>, sizes: seq<nat>, b: nat, j: nat)
    requires |counts| == |unpack| && Placed(counts, unpack, sizes) && b < |counts| && counts[b] > 0
    requires Full(counts, b) < j < |sizes|
    ensures sizes[j] == 0 || exists c :: b < c < |counts| && counts[c] > 0 && sizes[j] == unpack[c]
  {
    if j < Full(counts, |counts|) {
      var c := NthFull(counts, |counts|, j);
      if c <= b {
        FullGrows(counts, c, b);
      }
      assert BlockPlaced(counts, unpack, sizes, c);
    }
  }

  /** Places of block `b` that are not its own size hold zeros, when no block after it has bytes. */
  lemma RestIsZero(counts: seq<nat>, unpack: seq<nat>, sizes: seq<nat>, b: nat, from: nat)
    requires |counts| == |unpack| && Placed(counts, unpack, sizes) && b < |counts| && counts[b] > 0
    requires forall c :: b < c < |counts| && counts[c] > 0 ==> unpack[c] == 0
    requires Full(counts, b) < from <= Prefix(counts, b + 1) <= |sizes|
    ensures Sum(sizes, from, Prefix(counts, b + 1)) == 0
  {
    forall j | from <= j < Prefix(counts, b + 1) ensures sizes[j] == 0 {
      PlaceHolds(counts, unpack, sizes, b, j);
    }
    SumZero(sizes, from, Prefix(counts, b + 1));
  }

  lemma HarmlessSumsRight(counts: seq<nat>, unpack: seq<nat>, sizes: seq<nat>, b: nat)
    requires |counts| == |unpack| && Placed(counts, unpack, sizes) && Harmless(counts, unpack)
    requires b < |counts| && counts[b] > 0
    ensures SumRight(counts, unpack, sizes, b)
  {
    PrefixGrows(counts, b + 1, |counts|);
    FullGrows(counts, 0, b);
    var from, end := Prefix(counts, b), Prefix(counts, b + 1);
    if a :| 0 <= a < b && counts[a] > 1 {
      FullGrows(counts, 0, a);
      FullGrows(counts, a + 1, b);
      RestIsZero(counts, unpack, sizes, b, from);
    } else {
      SinglesAlign(counts, b);
      assert BlockPlaced(counts, unpack, sizes, b);
      SumSplits(sizes, from, from + 1, end);
      if counts[b] > 1 {
        RestIsZero(counts, unpack, sizes, b, from + 1);
      }
    }
  }

  /** Past the first block with several sub-streams, a block's size is put in a place of an earlier block. */
  lemma AfterMulti(counts: seq<nat>, a: nat, b: nat)
    requires a < b < |counts| && counts[a] > 1 && forall c :: 0 <= c < a ==> counts[c] <= 1
    ensures Full(counts, a) == Prefix(counts, a) < Full(counts, b) < Prefix(counts, b)
  {
    SinglesAlign(counts, a);
    FullGrows(counts, a + 1, b);
  }

  /** Conversely, once a block has several sub-streams the sums force every later block to be empty of bytes. */
  lemma {:induction false} RightSumsForceZero(counts: seq<nat>, unpack: seq<nat>, sizes: seq<nat>, a: nat, b: nat)
    requires |counts| == |unpack| && Placed(counts, unpack, sizes) && SumsRight(counts, unpack, sizes)
    requires a < b < |counts| && counts[a] > 1 && counts[b] > 0 && forall c :: 0 <= c < a ==> counts[c] <= 1
    ensures unpack[b] == 0
    decreases b
  {
    var j := Full(counts, b);
    AfterMulti(counts, a, b);
    PrefixGrows(counts, b, |counts|);
    assert BlockPlaced(counts, unpack, sizes, b);
    var c := IntervalOf(counts, a, b, j);
    assert SumRight(counts, unpack, sizes, c);
    if c == a {
      SinglesAlign(counts, a);
      assert BlockPlaced(counts, unpack, sizes, a);
      RestOfBlockIsZero(counts, unpack, sizes, a, j);
    } else {
      RightSumsForceZero(counts, unpack, sizes, a, c);
      EmptyBlockIsZero(counts, unpack, sizes, c, j);
    }
  }

  /** A block whose first place holds all of it has nothing in the others. */
  lemma RestOfBlockIsZero(counts: seq<nat>, unpack: seq<nat>, sizes: seq<nat>, c: nat, j: nat)
    requires c < |counts| == |unpack| && |sizes| == Prefix(counts, |counts|) && SumRight(counts, unpack, sizes, c)
    requires Prefix(counts, c) < j < Prefix(counts, c + 1) && j < |sizes| && sizes[Prefix(counts, c)] == unpack[c]
    ensures sizes[j] == 0
  {
    var from, end := Prefix(counts, c), Prefix(counts, c + 1);
    PrefixGrows(counts, c + 1, |counts|);
    SumSplits(sizes, from, from + 1, end);
    SumZero(sizes, from + 1, end);
  }

  lemma EmptyBlockIsZero(counts: seq<nat>, unpack: seq<nat>, sizes: seq<nat>, c: nat, j: nat)
    requires c < |counts| == |unpack| && |sizes| == Prefix(counts, |counts|) && SumRight(counts, unpack, sizes, c)
    requires Prefix(counts, c) <= j < Prefix(counts, c + 1) && j < |sizes| && unpack[c] == 0
    ensures sizes[j] == 0
  {
    PrefixGrows(counts, c + 1, |counts|);
    SumZero(sizes, Prefix(counts, c), Prefix(counts, c + 1));
  }

  lemma {:induction false} FirstMulti(counts: seq<nat>, a: nat) returns (f: nat)
    requires a < |counts| && counts[a] > 1
    ensures f <= a && counts[f] > 1 && forall c :: 0 <= c < f ==> counts[c] <= 1
  {
    f := a;
    if c :| 0 <= c < a && counts[c] > 1 {
      f := FirstMulti(counts, c);
    }
  }

  /**
   Without listed sizes, every block's sub-streams add up to it exactly when no
   block with bytes comes after one with several sub-streams.
   */
  lemma UnlistedSumsRightExactlyWhen(counts: seq<nat>, unpack: seq<nat>, sizes: seq<nat>)
    requires |counts| == |unpack| && Placed(counts, unpack, sizes)
    ensures SumsRight(counts, unpack, sizes) <==> Harmless(counts, unpack)
  {
    if Harmless(counts, unpack) {
      forall b | 0 <= b < |counts| && counts[b] > 0 ensures SumRight(counts, unpack, sizes, b) {
        HarmlessSumsRight(counts, unpack, sizes, b);
      }
    }
    if SumsRight(counts, unpack, sizes) {
      forall a, b | 0 <= a < b < |counts| && counts[a] > 1 && counts[b] > 0 ensures unpack[b] == 0 {
        var f := FirstMulti(counts, a);
        RightSumsForceZero(counts, unpack, sizes, f, b);
      }
    }
  }

  /** Two sub-streams in the first of two blocks, and no sizes listed: the first block's add up to both blocks. */
  lemma UnlistedSumsCanBeWrong()
    ensures var counts, unpack, sizes := [2, 1], [10, 5], [10, 5, 0];
      Prefix(counts, 2) == 3 && Placed(counts, unpack, sizes) && Sum(sizes, 0, 2) == 15 && !SumsRight(counts, unpack, sizes)
  {
    var counts, unpack, sizes := [2, 1], [10, 5], [10, 5, 0];
    assert Prefix(counts, 1) == 2 && Prefix(counts, 2) == 3 && Full(counts, 1) == 1 && Full(counts, 2) == 2;
    assert Sum(sizes, 0, 1) == 10 && Sum(sizes, 0, 2) == 15;
    assert Placed(counts, unpack, sizes);
    assert !Harmless(counts, unpack) by {
      assert counts[0] > 1 && counts[1] > 0 && unpack[1] == 5;
    }
    UnlistedSumsRightExactlyWhen(counts, unpack, sizes);
  }

  // ------------------------------------------------- digests

  /** A block of one stream that has a checksum gives it to the stream; every other stream's is listed. */
  predicate Inherits(counts: seq<nat>, blocks: seq<BlockInfo>, b: nat)
    requires b < |counts| == |blocks|
  {
    counts[b] == 1 && blocks[b].hasCrc
  }

  /** How many digests are listed for the first `b` blocks. */
  function Digests(counts: seq<nat>, blocks: seq<BlockInfo>, b: nat): nat
    requires b <= |counts| == |blocks|
  {
    if b == 0 then 0 else Digests(counts, blocks, b - 1) + if Inherits(counts, blocks, b - 1) then 0 else counts[b - 1]
  }

  /** The digests listed for some blocks are no more than their sub-streams, so the count is never out of range. */
  lemma {:induction false} DigestsFit(counts: seq<nat>, blocks: seq<BlockInfo>, a: nat, b: nat)
    requires a <= b <= |counts| == |blocks|
    ensures 0 <= Digests(counts, blocks, b) - Digests(counts, blocks, a) <= Prefix(counts, b) - Prefix(counts, a)
    decreases b
  {
    if a < b {
      DigestsFit(counts, blocks, a, b - 1);
    }
  }

  /** A value is listed for each set flag; zero stands for the others. */
  ghost predicate Missing(bits: seq<bool>, values: seq<nat>, missing: seq<nat>) {
    |missing| <= |bits| && forall d :: 0 <= d < |missing| ==>
      if bits[d] then Marked(bits, d) < |values| && missing[d] == values[Marked(bits, d)] else missing[d] == 0
  }

  /** The listed digests in their places: a value is listed for each set flag, zero stands for the others. */
  method ReadMissing(bits: seq<bool>, values: seq<nat>, n: nat) returns (ok: bool, missing: seq<nat>)
    ensures ok <==> n <= |bits| && Marked(bits, n) <= |values|
    ensures ok ==> |missing| == n && Missing(bits, values, missing)
  {
    missing := [];
    if n > |bits| {
      return false, missing;
    }
    var next := 0;
    for d := 0 to n
      invariant |missing| == d && next == Marked(bits, d) <= |values| && Missing(bits, values, missing)
    {
      if bits[d] {
        if next == |values| {
          MarkedGrows(bits, d + 1, n);
          return false, missing;
        }
        missing := missing + [values[next]];
        next := next + 1;
      } else {
        missing := missing + [0];
      }
    }
    ok := true;
  }

  predicate InBlock(counts: seq<nat>, b: nat, s: nat) {
    b < |counts| && Prefix(counts, b) <= s < Prefix(counts, b + 1)
  }

  /** Stream `s` of block `b`: the block's checksum, or the listed digest with its number, or none. */
  ghost predicate StreamDigested(counts: seq<nat>, blocks: seq<BlockInfo>, listed: bool, bits: seq<bool>, missing: seq<nat>,
                                 hasCrc: seq<bool>, crcs: seq<nat>, b: nat, s: nat)
    requires b < |counts| == |blocks| && s < |hasCrc| == |crcs|
  {
    var d := Digests(counts, blocks, b) + (s - Prefix(counts, b));
    if Inherits(counts, blocks, b) then hasCrc[s] && crcs[s] == blocks[b].crc
    else if listed then 0 <= d < |bits| && d < |missing| && hasCrc[s] == bits[d] && crcs[s] == missing[d]
    else !hasCrc[s] && crcs[s] == 0
  }

  /** The streams of the first `n` blocks with listed digests, and of the first `m` that give their own, are right. */
  ghost predicate DigestedTo(counts: seq<nat>, blocks: seq<BlockInfo>, listed: bool, bits: seq<bool>, missing: seq<nat>,
                             hasCrc: seq<bool>, crcs: seq<nat>, n: nat, m: nat)
    requires |counts| == |blocks| && |hasCrc| == |crcs|
  {
    forall b: nat, s: nat :: InBlock(counts, b, s) && s < |hasCrc| && b < (if Inherits(counts, blocks, b) then m else n) ==>
      StreamDigested(counts, blocks, listed, bits, missing, hasCrc, crcs, b, s)
  }

  /** Every stream has its block's checksum or its own listed digest, and those are the values listed. */
  ghost predicate Digested(info: Info, blocks: seq<BlockInfo>, digests: Option<(seq<bool>, seq<nat>)>, missing: seq<nat>) {
    && |info.counts| == |blocks| && |info.hasCrc| == |info.crcs|
    && (digests.Some? ==> Missing(digests.value.0, digests.value.1, missing) && |missing| == Digests(info.counts, blocks, |blocks|))
    && DigestedTo(info.counts, blocks, digests.Some?, if digests.Some? then digests.value.0 else [], missing,
                  info.hasCrc, info.crcs, |blocks|, |blocks|)
  }

  /** The listed digests handed out to the streams whose block has none to give them. */
  method AssignDigests(counts: seq<nat>, blocks: seq<BlockInfo>, bits: seq<bool>, missing: seq<nat>)
    returns (hasCrc: seq<bool>, crcs: seq<nat>)
    requires |counts| == |blocks| && |missing| == Digests(counts, blocks, |counts|) <= |bits|
    ensures |hasCrc| == |crcs| == Prefix(counts, |counts|)
    ensures DigestedTo(counts, blocks, true, bits, missing, hasCrc, crcs, |counts|, 0)
  {
    hasCrc := seq(Prefix(counts, |counts|), _ => false);
    crcs := seq(Prefix(counts, |counts|), _ => 0);
    var next, nextMissing := 0, 0;
    for b := 0 to |counts|
      invariant next == Prefix(counts, b) && nextMissing == Digests(counts, blocks, b)
      invariant |hasCrc| == |crcs| == Prefix(counts, |counts|)
      invariant DigestedTo(counts, blocks, true, bits, missing, hasCrc, crcs, b, 0)
    {
      PrefixGrows(counts, b + 1, |counts|);
      DigestsFit(counts, blocks, b + 1, |counts|);
      if Inherits(counts, blocks, b) {
        next := next + 1;
      } else {
        var has, values := AssignBlock(bits, missing, next, nextMissing, counts[b], hasCrc, crcs);
        AssignedOneMore(counts, blocks, bits, missing, hasCrc, crcs, has, values, b);
        hasCrc, crcs := has, values;
        next, nextMissing := next + counts[b], nextMissing + counts[b];
      }
    }
  }

  ghost predicate Assigned(bits: seq<bool>, missing: seq<nat>, next: nat, at: nat, count: nat,
                           hasCrc: seq<bool>, crcs: seq<nat>, has: seq<bool>, values: seq<nat>)
    requires |has| == |values| == |hasCrc| == |crcs| && at + count <= |missing| <= |bits|
  {
    forall s :: 0 <= s < |has| ==>
      if next <= s < next + count then has[s] == bits[at + (s - next)] && values[s] == missing[at + (s - next)]
      else has[s] == hasCrc[s] && values[s] == crcs[s]
  }

  lemma AssignedOneMore(counts: seq<nat>, blocks: seq<BlockInfo>, bits: seq<bool>, missing: seq<nat>,
                        hasCrc: seq<bool>, crcs: seq<nat>, has: seq<bool>, values: seq<nat>, b: nat)
    requires b < |counts| == |blocks| && |has| == |values| == |hasCrc| == |crcs| && !Inherits(counts, blocks, b)
    requires Digests(counts, blocks, b) + counts[b] <= |missing| <= |bits|
    requires DigestedTo(counts, blocks, true, bits, missing, hasCrc, crcs, b, 0)
    requires Assigned(bits, missing, Prefix(counts, b), Digests(counts, blocks, b), counts[b], hasCrc, crcs, has, values)
    ensures DigestedTo(counts, blocks, true, bits, missing, has, values, b + 1, 0)
  {
    forall a: nat, s: nat | InBlock(counts, a, s) && s < |has| && a < b + 1 && !Inherits(counts, blocks, a)
      ensures StreamDigested(counts, blocks, true, bits, missing, has, values, a, s)
    {
      if a < b {
        StreamBefore(counts, blocks, bits, missing, hasCrc, crcs, has, values, b, a, s);
      } else {
        StreamAssigned(counts, blocks, bits, missing, hasCrc, crcs, has, values, b, s);
      }
    }
  }

  /** A stream of an earlier block is left as it was. */
  lemma StreamBefore(counts: seq<nat>, blocks: seq<BlockInfo>, bits: seq<bool>, missing: seq<nat>,
                     hasCrc: seq<bool>, crcs: seq<nat>, has: seq<bool>, values: seq<nat>, b: nat, a: nat, s: nat)
    requires a < b < |counts| == |blocks| && |has| == |values| == |hasCrc| == |crcs| && !Inherits(counts, blocks, a)
    requires Digests(counts, blocks, b) + counts[b] <= |missing| <= |bits| && InBlock(counts, a, s) && s < |has|
    requires DigestedTo(counts, blocks, true, bits, missing, hasCrc, crcs, b, 0)
    requires Assigned(bits, missing, Prefix(counts, b), Digests(counts, blocks, b), counts[b], hasCrc, crcs, has, values)
    ensures StreamDigested(counts, blocks, true, bits, missing, has, values, a, s)
  {
    PrefixGrows(counts, a + 1, b);
    AssignedElsewhere(bits, missing, Prefix(counts, b), Digests(counts, blocks, b), counts[b], hasCrc, crcs, has, values, s);
    StreamKept(counts, blocks, bits, missing, hasCrc, crcs, has, values, a, s);
  }

  lemma AssignedElsewhere(bits: seq<bool>, missing: seq<nat>, next: nat, at: nat, count: nat,
                          hasCrc: seq<bool>, crcs: seq<nat>, has: seq<bool>, values: seq<nat>, s: nat)
    requires |has| == |values| == |hasCrc| == |crcs| && at + count <= |missing| <= |bits|
    requires Assigned(bits, missing, next, at, count, hasCrc, crcs, has, values) && s < next && s < |has|
    ensures has[s] == hasCrc[s] && values[s] == crcs[s]
  {
  }

  lemma StreamKept(counts: seq<nat>, blocks: seq<BlockInfo>, bits: seq<bool>, missing: seq<nat>,
                   hasCrc: seq<bool>, crcs: seq<nat>, has: seq<bool>, values: seq<nat>, a: nat, s: nat)
    requires a < |counts| == |blocks| && s < |has| == |values| == |hasCrc| == |crcs|
    requires has[s] == hasCrc[s] && values[s] == crcs[s]
    requires StreamDigested(counts, blocks, true, bits, missing, hasCrc, crcs, a, s)
    ensures StreamDigested(counts, blocks, true, bits, missing, has, values, a, s)
  {
  }

  lemma StreamAssigned(counts: seq<nat>, blocks: seq<BlockInfo>, bits: seq<bool>, missing: seq<nat>,
                       hasCrc: seq<bool>, crcs: seq<nat>, has: seq<bool>, values: seq<nat>, b: nat, s: nat)
    requires b < |counts| == |blocks| && |has| == |values| == |hasCrc| == |crcs| && !Inherits(counts, blocks, b)
    requires Digests(counts, blocks, b) + counts[b] <= |missing| <= |bits| && InBlock(counts, b, s) && s < |has|
    requires Assigned(bits, missing, Prefix(counts, b), Digests(counts, blocks, b), counts[b], hasCrc, crcs, has, values)
    ensures StreamDigested(counts, blocks, true, bits, missing, has, values, b, s)
  {
  }

  method AssignBlock(bits: seq<bool>, missing: seq<nat>, next: nat, at: nat, count: nat, hasCrc: seq<bool>, crcs: seq<nat>)
    returns (has: seq<bool>, values: seq<nat>)
    requires next + count <= |hasCrc| == |crcs| && at + count <= |missing| <= |bits|
    ensures |has| == |values| == |hasCrc| && Assigned(bits, missing, next, at, count, hasCrc, crcs, has, values)
  {
    has, values := hasCrc, crcs;
    for i := 0 to count
      invariant |has| == |values| == |hasCrc| && Assigned(bits, missing, next, at, i, hasCrc, crcs, has, values)
    {
      has := has[next + i := bits[at + i]];
      values := values[next + i := missing[at + i]];
    }
  }

  /** Streams that are alone in a block with a checksum take it, whatever was or was not listed. */
  method Inherit(counts: seq<nat>, blocks: seq<BlockInfo>, listed: bool, bits: seq<bool>, missing: seq<nat>, hasCrc: seq<bool>, crcs: seq<nat>)
    returns (has: seq<bool>, values: seq<nat>)
    requires |counts| == |blocks| && |hasCrc| == |crcs| == Prefix(counts, |counts|)
    requires DigestedTo(counts, blocks, listed, bits, missing, hasCrc, crcs, |counts|, 0)
    ensures |has| == |values| == |hasCrc|
    ensures DigestedTo(counts, blocks, listed, bits, missing, has, values, |counts|, |counts|)
  {
    has, values := hasCrc, crcs;
    var first := 0;
    for b := 0 to |counts|
      invariant first == Prefix(counts, b) && |has| == |values| == |hasCrc|
      invariant DigestedTo(counts, blocks, listed, bits, missing, has, values, |counts|, b)
    {
      PrefixGrows(counts, b + 1, |counts|);
      if Inherits(counts, blocks, b) {
        InheritedOneMore(counts, blocks, listed, bits, missing, has, values, b);
        has, values := has[first := true], values[first := blocks[b].crc];
      }
      first := first + counts[b];
    }
  }

  lemma InheritedOneMore(counts: seq<nat>, blocks: seq<BlockInfo>, listed: bool, bits: seq<bool>, missing: seq<nat>,
                         hasCrc: seq<bool>, crcs: seq<nat>, b: nat)
    requires b < |counts| == |blocks| && |hasCrc| == |crcs| && Inherits(counts, blocks, b) && Prefix(counts, b) < |hasCrc|
    requires DigestedTo(counts, blocks, listed, bits, missing, hasCrc, crcs, |counts|, b)
    ensures var first := Prefix(counts, b);
      DigestedTo(counts, blocks, listed, bits, missing, hasCrc[first := true], crcs[first := blocks[b].crc], |counts|, b + 1)
  {
    var first := Prefix(counts, b);
    var has, values := hasCrc[first := true], crcs[first := blocks[b].crc];
    forall a: nat, s: nat | InBlock(counts, a, s) && s < |has| && a < (if Inherits(counts, blocks, a) then b + 1 else |counts|)
      ensures StreamDigested(counts, blocks, listed, bits, missing, has, values, a, s)
    {
      if a != b {
        assert StreamDigested(counts, blocks, listed, bits, missing, hasCrc, crcs, a, s);
        if s == first {
          OneInterval(counts, a, b, s);
        }
      }
    }
  }

  method ReadDigests(counts: seq<nat>, blocks: seq<BlockInfo>, digests: Option<(seq<bool>, seq<nat>)>)
    returns (ok: bool, hasCrc: seq<bool>, crcs: seq<nat>, missing: seq<nat>)
    requires |counts| == |blocks|
    ensures ok <==> digests.Some? ==>
      var n := Digests(counts, blocks, |counts|); n <= |digests.value.0| && Marked(digests.value.0, n) <= |digests.value.1|
    ensures ok ==> |hasCrc| == |crcs| == Prefix(counts, |counts|)
    ensures ok ==> DigestedTo(counts, blocks, digests.Some?, if digests.Some? then digests.value.0 else [], missing, hasCrc, crcs, |counts|, |counts|)
    ensures ok && digests.Some? ==> |missing| == Digests(counts, blocks, |counts|) && Missing(digests.value.0, digests.value.1, missing)
  {
    ok, missing := true, [];
    var total := Prefix(counts, |counts|);
    hasCrc, crcs := seq(total, _ => false), seq(total, _ => 0);
    var bits := [];
    if digests.Some? {
      bits := digests.value.0;
      ok, missing := ReadMissing(bits, digests.value.1, Digests(counts, blocks, |counts|));
      if !ok {
        return;
      }
      hasCrc, crcs := AssignDigests(counts, blocks, bits, missing);
    }
    hasCrc, crcs := Inherit(counts, blocks, digests.Some?, bits, missing, hasCrc, crcs);
  }

  /** How many streams of the first `b` blocks have their digest listed: all but the lone ones of blocks with a checksum. */
  function TakeListed(counts: seq<nat>, blocks: seq<BlockInfo>, b: nat): nat
    requires b <= |counts| == |blocks|
  {
    if b == 0 then 0
    else TakeListed(counts, blocks, b - 1) + if counts[b - 1] == 1 && blocks[b - 1].hasCrc then 0 else counts[b - 1]
  }

  /**
   Stream number `i` of block `b`, in the fields: alone in a block with a checksum it
   has that checksum; otherwise it has the next listed digest, if its flag is set the
   next listed value; and none when none are listed.
   */
  ghost predicate ChecksumRight(info: Info, blocks: seq<BlockInfo>, digests: Option<(seq<bool>, seq<nat>)>, b: nat, i: nat)
    requires b < |info.counts| == |blocks| && i < info.counts[b]
  {
    var s := Prefix(info.counts, b) + i;
    && s < |info.hasCrc| == |info.crcs|
    && if info.counts[b] == 1 && blocks[b].hasCrc then info.hasCrc[s] && info.crcs[s] == blocks[b].crc
       else if digests.None? then !info.hasCrc[s] && info.crcs[s] == 0
       else
         var (bits, values) := digests.value;
         var d := TakeListed(info.counts, blocks, b) + i;
         && d < |bits| && info.hasCrc[s] == bits[d]
         && if bits[d] then Marked(bits, d) < |values| && info.crcs[s] == values[Marked(bits, d)] else info.crcs[s] == 0
  }

  ghost predicate ChecksumsRight(info: Info, blocks: seq<BlockInfo>, digests: Option<(seq<bool>, seq<nat>)>)
    requires |info.counts| == |blocks|
  {
    forall b: nat, i: nat :: b < |blocks| && i < info.counts[b] ==> ChecksumRight(info, blocks, digests, b, i)
  }

  lemma {:induction false} TakeListedIs(counts: seq<nat>, blocks: seq<BlockInfo>, b: nat)
    requires b <= |counts| == |blocks|
    ensures TakeListed(counts, blocks, b) == Digests(counts, blocks, b)
  {
    if b > 0 {
      TakeListedIs(counts, blocks, b - 1);
    }
  }

  lemma DigestedIsRight(info: Info, blocks: seq<BlockInfo>, digests: Option<(seq<bool>, seq<nat>)>, missing: seq<nat>)
    requires Digested(info, blocks, digests, missing) && |info.hasCrc| == Prefix(info.counts, |blocks|)
    ensures ChecksumsRight(info, blocks, digests)
  {
    forall b: nat, i: nat | b < |blocks| && i < info.counts[b] ensures ChecksumRight(info, blocks, digests, b, i) {
      var s := Prefix(info.counts, b) + i;
      PrefixGrows(info.counts, b + 1, |blocks|);
      TakeListedIs(info.counts, blocks, b);
      assert InBlock(info.counts, b, s);
      assert StreamDigested(info.counts, blocks, digests.Some?, if digests.Some? then digests.value.0 else [], missing,
                            info.hasCrc, info.crcs, b, s);
    }
  }

  // ------------------------------------------------- the section

  function Unpack(blocks: seq<BlockInfo>): (u: seq<nat>)
    ensures |u| == |blocks| && forall b :: 0 <= b < |blocks| ==> u[b] == blocks[b].unpackSize
  {
    seq(|blocks|, b requires 0 <= b < |blocks| => blocks[b].unpackSize)
  }

  /** The sub-streams of each block: one each, or as the header counts them. */
  function CountsOf(blocks: nat, listed: Option<seq<nat>>): seq<nat> {
    if listed.None? then seq(blocks, _ => 1)
    else if blocks <= |listed.value| then listed.value[..blocks] else listed.value
  }

  /** The section can be read: enough counts, within the limit; sizes that fit their blocks; enough digests and values for them. */
  ghost predicate Readable(blocks: seq<BlockInfo>, h: Header, limit: nat) {
    var counts := CountsOf(|blocks|, h.counts);
    && |counts| == |blocks|
    && (h.counts.Some? ==> Prefix(counts, |counts|) <= limit)
    && (h.sizes.Some? ==> forall b :: 0 <= b < |blocks| ==> BlockFits(counts, h.sizes.value, Unpack(blocks), b))
    && (h.digests.Some? ==>
          var n := Digests(counts, blocks, |counts|); n <= |h.digests.value.0| && Marked(h.digests.value.0, n) <= |h.digests.value.1|)
  }

  /**
   The whole section, and when it is refused. When it is read, there is a size and a checksum place for
   every sub-stream; every block's sub-streams add up to it when sizes are
   listed, and otherwise exactly when no block with bytes follows one with
   several sub-streams.
   */
  method ReadSubStreamsInfo(blocks: seq<BlockInfo>, h: Header, limit: nat) returns (r: Option<Info>)
    requires forall b :: 0 <= b < |blocks| ==> blocks[b].unpackSize <= U64_MAX
    ensures r.Some? <==> Readable(blocks, h, limit)
    ensures r.Some? ==> r.value.counts == CountsOf(|blocks|, h.counts) && |r.value.counts| == |blocks|
    ensures r.Some? ==> var n := Prefix(r.value.counts, |blocks|); |r.value.sizes| == |r.value.hasCrc| == |r.value.crcs| == n
    ensures r.Some? && h.sizes.Some? ==> SumsRight(r.value.counts, Unpack(blocks), r.value.sizes)
    ensures r.Some? && h.sizes.None? ==>
      (SumsRight(r.value.counts, Unpack(blocks), r.value.sizes) <==> Harmless(r.value.counts, Unpack(blocks)))
    ensures r.Some? && h.sizes.None? ==> Placed(r.value.counts, Unpack(blocks), r.value.sizes)
    ensures r.Some? && h.counts.None? ==> SumsRight(r.value.counts, Unpack(blocks), r.value.sizes)
    ensures r.Some? ==> exists missing :: Digested(r.value, blocks, h.digests, missing)
    ensures r.Some? ==> ChecksumsRight(r.value, blocks, h.digests)
  {
    var counts := ReadCounts(|blocks|, h.counts, limit);
    SamePrefixOf(|blocks|, h.counts);
    if counts.None? {
      return None;
    }
    var c, unpack := counts.value, Unpack(blocks);
    assert c == CountsOf(|blocks|, h.counts);
    var sizes;
    if h.sizes.Some? {
      var fits;
      fits, sizes := ReadListedSizes(c, unpack, h.sizes.value);
      if !fits {
        return None;
      }
      ListedSumsRight(c, h.sizes.value, unpack, sizes);
    } else {
      sizes := PlaceSizes(c, unpack);
      UnlistedSumsRightExactlyWhen(c, unpack, sizes);
    }
    var ok, hasCrc, crcs, missing := ReadDigests(c, blocks, h.digests);
    if !ok {
      return None;
    }
    r := Some(Info(c, sizes, hasCrc, crcs));
    assert Digested(r.value, blocks, h.digests, missing);
    DigestedIsRight(r.value, blocks, h.digests, missing);
  }

  lemma SamePrefixOf(blocks: nat, listed: Option<seq<nat>>)
    ensures listed.Some? && blocks <= |listed.value| ==>
      Prefix(CountsOf(blocks, listed), blocks) == Prefix(listed.value, blocks)
  {
    if listed.Some? && blocks <= |listed.value| {
      SamePrefix(listed.value, blocks);
    }
  }

  lemma ListedSumsRight(counts: seq<nat>, listed: seq<nat>, unpack: seq<nat>, sizes: seq<nat>)
    requires |counts| == |unpack| && |sizes| == Prefix(counts, |counts|)
    requires forall b :: 0 <= b < |counts| ==> BlockSized(counts, listed, unpack, sizes, b)
    ensures SumsRight(counts, unpack, sizes)
  {
    forall b | 0 <= b < |counts| && counts[b] > 0 ensures SumRight(counts, unpack, sizes, b) {
      assert BlockSized(counts, listed, unpack, sizes, b);
      PrefixGrows(counts, b + 1, |counts|);
    }
  }
}
