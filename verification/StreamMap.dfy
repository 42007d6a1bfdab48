/** Which block holds which file: built from the blocks' sub-stream counts and the files' has-stream flags. */
module StreamMap {
  import opened Common
  import opened Sums

  const USIZE_MAX: nat := 0xFFFF_FFFF_FFFF_FFFF

  // ------------------------------------------------- running sub-stream offsets, in two representations

  datatype SubStreamOffsets = Identity(len: nat) | Explicit(offsets: seq<nat>)

  function Get(o: SubStreamOffsets, index: nat): Option<nat> {
    match o
    case Identity(len) => if index < len then Some(index) else None
    case Explicit(offsets) => if index < |offsets| then Some(offsets[index]) else None
  }

  lemma {:induction false} OnesAddUp(counts: seq<nat>, b: nat)
    requires b <= |counts| && forall i :: 0 <= i < |counts| ==> counts[i] == 1
    ensures Prefix(counts, b) == b
  {
    if b > 0 {
      OnesAddUp(counts, b - 1);
    }
  }

  /** Whichever representation is picked, it gives each block's running sum, and nothing past the last block. */
  method FromCounts(counts: seq<nat>) returns (o: Option<SubStreamOffsets>)
    ensures o.Some? ==> forall b: nat :: Get(o.value, b) == if b < |counts| then Some(Prefix(counts, b)) else None
    ensures o.None? <==> Prefix(counts, |counts|) > USIZE_MAX && exists i :: 0 <= i < |counts| && counts[i] != 1
  {
    if forall i :: 0 <= i < |counts| ==> counts[i] == 1 {
      forall b: nat | b < |counts| ensures Prefix(counts, b) == b {
        OnesAddUp(counts, b);
      }
      return Some(Identity(|counts|));
    }
    var offsets: seq<nat> := [];
    var next := 0;
    for b := 0 to |counts|
      invariant next == Prefix(counts, b) <= USIZE_MAX && |offsets| == b
      invariant forall a :: 0 <= a < b ==> offsets[a] == Prefix(counts, a)
    {
      offsets := offsets + [next];
      next := next + counts[b];
      if next > USIZE_MAX {
        PrefixGrows(counts, b + 1, |counts|);
        return None;
      }
    }
    o := Some(Explicit(offsets));
  }

  // ------------------------------------------------- pack streams

  /** Each block's first pack stream; refused when the blocks name more than there are. */
  method FirstPackStreams(packed: seq<nat>, streams: nat) returns (ok: bool, first: seq<nat>)
    ensures ok <==> Prefix(packed, |packed|) <= streams
    ensures ok ==> |first| == |packed| && forall b :: 0 <= b < |packed| ==> first[b] == Prefix(packed, b)
  {
    first := [];
    var next := 0;
    for b := 0 to |packed|
      invariant next == Prefix(packed, b) <= streams && |first| == b
      invariant forall a :: 0 <= a < b ==> first[a] == Prefix(packed, a)
    {
      first := first + [next];
      next := next + packed[b];
      if next > streams {
        PrefixGrows(packed, b + 1, |packed|);
        return false, first;
      }
    }
    ok := true;
  }

  /** Each pack stream's offset; refused when they overflow. */
  method PackOffsets(packSizes: seq<nat>) returns (ok: bool, offsets: seq<nat>)
    ensures ok <==> Prefix(packSizes, |packSizes|) <= USIZE_MAX
    ensures ok ==> |offsets| == |packSizes| && forall p :: 0 <= p < |packSizes| ==> offsets[p] == Prefix(packSizes, p)
  {
    offsets := [];
    var offset := 0;
    for p := 0 to |packSizes|
      invariant offset == Prefix(packSizes, p) <= USIZE_MAX && |offsets| == p
      invariant forall a :: 0 <= a < p ==> offsets[a] == Prefix(packSizes, a)
    {
      offsets := offsets + [offset];
      offset := offset + packSizes[p];
      if offset > USIZE_MAX {
        PrefixGrows(packSizes, p + 1, |packSizes|);
        return false, offsets;
      }
    }
    ok := true;
  }

  // ------------------------------------------------- files and blocks

  /** Block `b` holds file `i`: a streamed file by its number, any other when it lies inside the block's span. */
  predicate Holds(counts: seq<nat>, streamed: seq<bool>, b: nat, i: nat)
    requires b < |counts| && i < |streamed|
  {
    && Prefix(counts, b) <= Marked(streamed, i) < Prefix(counts, b + 1)
    && (streamed[i] || Prefix(counts, b) < Marked(streamed, i))
  }

  /** File `f` is the one block `b` starts with; past all files when the block is not reached. */
  predicate StartsAt(counts: seq<nat>, streamed: seq<bool>, b: nat, f: nat)
    requires b < |counts|
  {
    if Prefix(counts, b) < Marked(streamed, |streamed|) then
      f < |streamed| && streamed[f] && Marked(streamed, f) == Prefix(counts, b)
    else f == |streamed|
  }

  ghost predicate FilesMapped(counts: seq<nat>, streamed: seq<bool>, blockOf: seq<Option<nat>>, k: nat)
    requires k <= |streamed|
  {
    && |blockOf| >= k
    && (forall i :: 0 <= i < k && blockOf[i].Some? ==> blockOf[i].value < |counts| && Holds(counts, streamed, blockOf[i].value, i))
    && (forall i, b :: 0 <= i < k && 0 <= b < |counts| && Holds(counts, streamed, b, i) ==> blockOf[i] == Some(b))
  }

  ghost predicate BlocksStarted(counts: seq<nat>, streamed: seq<bool>, firstFile: seq<nat>, from: nat, to: nat)
    requires to <= |counts|
  {
    |firstFile| == |counts| && forall b :: from <= b < to ==> StartsAt(counts, streamed, b, firstFile[b])
  }

  lemma HeldByOne(counts: seq<nat>, streamed: seq<bool>, a: nat, b: nat, i: nat)
    requires a < |counts| && b < |counts| && i < |streamed|
    requires Holds(counts, streamed, a, i) && Holds(counts, streamed, b, i)
    ensures a == b
  {
    OneInterval(counts, a, b, Marked(streamed, i));
  }

  /** A file outside every block's span: between two blocks, and without a stream. */
  lemma HeldByNone(counts: seq<nat>, streamed: seq<bool>, next: nat, i: nat, b: nat)
    requires next <= |counts| && b < |counts| && i < |streamed| && !streamed[i] && Marked(streamed, i) == Prefix(counts, next)
    ensures !Holds(counts, streamed, b, i)
  {
    if b < next {
      PrefixGrows(counts, b + 1, next);
    } else {
      PrefixGrows(counts, next, b);
    }
  }

  /** The blocks without sub-streams ahead are skipped, each starting where the next full one does. */
  method SkipEmpty(counts: seq<nat>, streamed: seq<bool>, i: nat, next: nat, firstFile: seq<nat>)
    returns (block: nat, first: seq<nat>)
    requires i < |streamed| && streamed[i] && next <= |counts| && Marked(streamed, i) == Prefix(counts, next)
    requires BlocksStarted(counts, streamed, firstFile, 0, next)
    ensures next <= block <= |counts| && Prefix(counts, block) == Prefix(counts, next)
    ensures block < |counts| ==> counts[block] > 0 && BlocksStarted(counts, streamed, first, 0, block + 1) && first[block] == i
    ensures block == |counts| ==> Prefix(counts, |counts|) < Marked(streamed, |streamed|)
  {
    block, first := next, firstFile;
    MarkedGrows(streamed, i + 1, |streamed|);
    while block < |counts|
      invariant next <= block <= |counts| && Prefix(counts, block) == Prefix(counts, next)
      invariant BlocksStarted(counts, streamed, first, 0, block)
    {
      first := first[block := i];
      if counts[block] > 0 {
        break;
      }
      block := block + 1;
    }
  }

  /**
   The map from files to blocks and back. With as many streamed files as
   sub-streams it is always built; otherwise it may be refused, and is right
   when it is not.
   */
  method CalculateFiles(counts: seq<nat>, streamed: seq<bool>)
    returns (ok: bool, firstFile: seq<nat>, blockOf: seq<Option<nat>>)
    ensures Marked(streamed, |streamed|) == Prefix(counts, |counts|) ==> ok
    ensures ok ==> |blockOf| == |streamed| && FilesMapped(counts, streamed, blockOf, |streamed|)
    ensures ok ==> BlocksStarted(counts, streamed, firstFile, 0, |counts|)
    ensures ok ==> Marked(streamed, |streamed|) <= Prefix(counts, |counts|)
  {
    firstFile, blockOf := seq(|counts|, _ => 0), [];
    var block, within := 0, 0;
    for i := 0 to |streamed|
      invariant |blockOf| == i && FilesMapped(counts, streamed, blockOf, i)
      invariant block <= |counts| && Marked(streamed, i) == Prefix(counts, block) + within
      invariant within > 0 ==> block < |counts| && within < counts[block]
      invariant BlocksStarted(counts, streamed, firstFile, 0, if within > 0 then block + 1 else block)
    {
      if !streamed[i] && within == 0 {
        forall b | 0 <= b < |counts| ensures !Holds(counts, streamed, b, i) {
          HeldByNone(counts, streamed, block, i, b);
        }
        blockOf := blockOf + [None];
        continue;
      }
      if within == 0 {
        block, firstFile := SkipEmpty(counts, streamed, i, block, firstFile);
        if block >= |counts| {
          return false, firstFile, blockOf;
        }
      }
      assert Holds(counts, streamed, block, i);
      forall b | 0 <= b < |counts| && Holds(counts, streamed, b, i) ensures b == block {
        HeldByOne(counts, streamed, b, block, i);
      }
      blockOf := blockOf + [Some(block)];
      if streamed[i] {
        within := within + 1;
        if within >= counts[block] {
          block, within := block + 1, 0;
        }
      }
    }
    var unreached := block + if within != 0 then 1 else 0;
    firstFile := Unreached(counts, streamed, firstFile, unreached);
    PrefixGrows(counts, unreached, |counts|);
    ok := SpansFit(counts, streamed, firstFile);
  }

  /** Blocks from `unreached` on hold no file; their first file is put past all of them. */
  method Unreached(counts: seq<nat>, streamed: seq<bool>, firstFile: seq<nat>, unreached: nat) returns (first: seq<nat>)
    requires unreached <= |counts| && BlocksStarted(counts, streamed, firstFile, 0, unreached)
    requires Marked(streamed, |streamed|) <= Prefix(counts, unreached)
    ensures BlocksStarted(counts, streamed, first, 0, |counts|)
  {
    first := firstFile;
    for b := unreached to |counts|
      invariant BlocksStarted(counts, streamed, first, 0, b)
    {
      PrefixGrows(counts, unreached, b);
      first := first[b := |streamed|];
    }
  }

  /** No block has more sub-streams than files from its first on. */
  method SpansFit(counts: seq<nat>, streamed: seq<bool>, firstFile: seq<nat>) returns (ok: bool)
    requires BlocksStarted(counts, streamed, firstFile, 0, |counts|)
    ensures Marked(streamed, |streamed|) == Prefix(counts, |counts|) ==> ok
  {
    for b := 0 to |counts| {
      if firstFile[b] + counts[b] > |streamed| {
        SpanFits(counts, streamed, b, firstFile[b]);
        return false;
      }
    }
    ok := true;
  }

  lemma SpanFits(counts: seq<nat>, streamed: seq<bool>, b: nat, f: nat)
    requires b < |counts| && StartsAt(counts, streamed, b, f)
    ensures Marked(streamed, |streamed|) == Prefix(counts, |counts|) ==> f + counts[b] <= |streamed|
  {
    PrefixGrows(counts, b + 1, |counts|);
    MarkedGrows(streamed, f, |streamed|);
  }

  // ------------------------------------------------- what the map says

  /**
   With as many streamed files as sub-streams, a file without a stream is in a
   block exactly when files of that block with streams lie on both sides of it.
   */
  lemma InsideMeansBetween(counts: seq<nat>, streamed: seq<bool>, b: nat, i: nat)
    requires b < |counts| && i < |streamed| && !streamed[i]
    requires Marked(streamed, |streamed|) == Prefix(counts, |counts|)
    ensures Holds(counts, streamed, b, i) <==>
      exists f, l :: 0 <= f < i < l < |streamed| && StreamOf(counts, streamed, b, f) && StreamOf(counts, streamed, b, l)
  {
    PrefixGrows(counts, b + 1, |counts|);
    if Holds(counts, streamed, b, i) {
      var f := Nth(streamed, i, Prefix(counts, b));
      var l := Nth(streamed, |streamed|, Prefix(counts, b + 1) - 1);
      assert l > i by {
        if l <= i {
          MarkedGrows(streamed, l, i);
          MarkedGrows(streamed, l + 1, i);
        }
      }
      assert StreamOf(counts, streamed, b, f) && StreamOf(counts, streamed, b, l);
    }
    if f, l :| 0 <= f < i < l < |streamed| && StreamOf(counts, streamed, b, f) && StreamOf(counts, streamed, b, l) {
      MarkedGrows(streamed, f + 1, i);
      MarkedGrows(streamed, i, l);
    }
  }

  /** File `f` is streamed and its number is in block `b`'s interval. */
  predicate StreamOf(counts: seq<nat>, streamed: seq<bool>, b: nat, f: nat)
    requires b < |counts| && f < |streamed|
  {
    streamed[f] && Prefix(counts, b) <= Marked(streamed, f) < Prefix(counts, b + 1)
  }

  // ------------------------------------------------- the files of a block

  /** The map as it was built, or as a caller changed it; the range is inside the files whatever it says. */
  method BlockFileRange(counts: seq<nat>, files: nat, firstFile: seq<nat>, blockOf: seq<Option<nat>>, b: nat)
    returns (start: nat, end: nat)
    ensures start <= end <= files
    ensures b >= |counts| || b >= |firstFile| || counts[b] == 0 ==> start == end
    ensures forall streamed: seq<bool> ::
      |streamed| == files && RightMap(counts, streamed, firstFile, blockOf) && b < |counts| ==>
        forall i: nat :: i < files ==> (start <= i < end <==> blockOf[i] == Some(b))
  {
    if b >= |counts| || b >= |firstFile| {
      return files, files;
    }
    start := if firstFile[b] <= files then firstFile[b] else files;
    end := start;
    if counts[b] == 0 {
      forall streamed: seq<bool> | |streamed| == files && RightMap(counts, streamed, firstFile, blockOf)
        ensures forall i: nat :: i < files ==> blockOf[i] != Some(b)
      {
        EmptyHoldsNone(counts, streamed, firstFile, blockOf, b);
      }
      return;
    }
    var next := b + 1;
    while next < |counts| && counts[next] == 0
      invariant b < next <= |counts| && forall a :: b < a < next ==> counts[a] == 0
    {
      next := next + 1;
    }
    end := if next < |counts| && next < |firstFile| then firstFile[next] else files;
    end := if end < start then start else if end > files then files else end;
    ghost var bound := end;
    while end > start && !(end - 1 < |blockOf| && blockOf[end - 1] == Some(b))
      invariant start <= end <= bound <= files
      invariant forall i :: end <= i < bound && i < |blockOf| ==> blockOf[i] != Some(b)
    {
      end := end - 1;
    }
    forall streamed: seq<bool> | |streamed| == files && RightMap(counts, streamed, firstFile, blockOf)
      ensures forall i: nat :: i < files ==> (start <= i < end <==> blockOf[i] == Some(b))
    {
      RangeIsExact(counts, streamed, firstFile, blockOf, b, next, start, end);
    }
  }

  /** The map the parser builds. */
  ghost predicate RightMap(counts: seq<nat>, streamed: seq<bool>, firstFile: seq<nat>, blockOf: seq<Option<nat>>) {
    && |blockOf| == |streamed| && FilesMapped(counts, streamed, blockOf, |streamed|)
    && BlocksStarted(counts, streamed, firstFile, 0, |counts|)
  }

  lemma EmptyHoldsNone(counts: seq<nat>, streamed: seq<bool>, firstFile: seq<nat>, blockOf: seq<Option<nat>>, b: nat)
    requires RightMap(counts, streamed, firstFile, blockOf) && b < |counts| && counts[b] == 0
    ensures forall i: nat :: i < |streamed| ==> blockOf[i] != Some(b)
  {
  }

  lemma {:induction false} EmptiesAddNothing(counts: seq<nat>, a: nat, b: nat)
    requires a <= b <= |counts| && forall i :: a <= i < b ==> counts[i] == 0
    ensures Prefix(counts, a) == Prefix(counts, b)
    decreases b
  {
    if a < b {
      EmptiesAddNothing(counts, a, b - 1);
    }
  }

  /** A file block `b` holds is not before its first file, and is before the first file of the next full block. */
  lemma HeldInSpan(counts: seq<nat>, streamed: seq<bool>, b: nat, next: nat, start: nat, bound: nat, i: nat)
    requires b < next <= |counts| && (forall a :: b < a < next ==> counts[a] == 0)
    requires StartsAt(counts, streamed, b, start) && i < |streamed| && Holds(counts, streamed, b, i)
    requires if next < |counts| then StartsAt(counts, streamed, next, bound) else bound == |streamed|
    ensures start <= i < bound
  {
    EmptiesAddNothing(counts, b + 1, next);
    MarkedGrows(streamed, i, |streamed|);
    MarkedGrows(streamed, if streamed[i] then i + 1 else i, |streamed|);
    if i < start {
      MarkedGrows(streamed, if streamed[i] then i + 1 else i, start);
    }
    if bound <= i {
      MarkedGrows(streamed, bound, i);
    }
  }

  /** Between its first file and any file the block holds, it holds every file. */
  lemma HeldWithout(counts: seq<nat>, streamed: seq<bool>, b: nat, start: nat, i: nat, j: nat)
    requires b < |counts| && StartsAt(counts, streamed, b, start) && start <= i <= j < |streamed|
    requires Holds(counts, streamed, b, j)
    ensures Holds(counts, streamed, b, i)
  {
    MarkedGrows(streamed, start, i);
    MarkedGrows(streamed, i, j);
    if i > start {
      MarkedGrows(streamed, start + 1, i);
    }
  }

  lemma RangeIsExact(counts: seq<nat>, streamed: seq<bool>, firstFile: seq<nat>, blockOf: seq<Option<nat>>,
                     b: nat, next: nat, start: nat, end: nat)
    requires RightMap(counts, streamed, firstFile, blockOf)
    requires b < next <= |counts| && counts[b] > 0 && forall a :: b < a < next ==> counts[a] == 0
    requires start == firstFile[b] <= |streamed| && start <= end <= |streamed|
    requires end > start ==> blockOf[end - 1] == Some(b)
    requires var bound := if next < |counts| then firstFile[next] else |streamed|;
      forall i :: end <= i < bound && i < |blockOf| ==> blockOf[i] != Some(b)
    ensures forall i: nat :: i < |streamed| ==> (start <= i < end <==> blockOf[i] == Some(b))
  {
    var bound := if next < |counts| then firstFile[next] else |streamed|;
    forall i: nat | i < |streamed| ensures start <= i < end <==> blockOf[i] == Some(b) {
      if start <= i < end {
        HeldWithout(counts, streamed, b, start, i, end - 1);
      }
      if blockOf[i] == Some(b) {
        HeldInSpan(counts, streamed, b, next, start, bound, i);
      }
    }
  }

  /** The files of an earlier block come before those of a later one. */
  lemma RangesInOrder(counts: seq<nat>, streamed: seq<bool>, a: nat, b: nat, i: nat, j: nat)
    requires a < b < |counts| && i < |streamed| && j < |streamed|
    requires Holds(counts, streamed, a, i) && Holds(counts, streamed, b, j)
    ensures i < j
  {
    PrefixGrows(counts, a + 1, b);
    if j <= i {
      MarkedGrows(streamed, j, i);
    }
  }
}
