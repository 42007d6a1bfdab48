/** Which folders are decoded alone and which runs of small ones in parallel, and by how many workers. */
module FolderPlan {
  import opened Common

  const U64_MAX: nat := 0xFFFF_FFFF_FFFF_FFFF
  const FOLDER_STAGE_BYTES: nat := 8 * 1048576
  const FOLDER_CHUNK_BYTES: nat := 1048576
  const FOLDER_WINDOW_PER_WORKER: nat := 2
  const BLOCK_INPUT_BYTES: nat := 65536
  const FOLDER_WORKER_BYTES: nat := BLOCK_INPUT_BYTES + FOLDER_STAGE_BYTES * FOLDER_WINDOW_PER_WORKER + FOLDER_CHUNK_BYTES

  datatype Folder = Folder(unpacked: nat, estimate: nat)

  datatype Phase = Alone(block: nat) | Parallel(start: nat, end: nat, workers: nat, threadsPerFolder: nat)

  function Most(a: nat, b: nat): nat { if a >= b then a else b }

  function SaturatingAdd(a: nat, b: nat): nat { Least(a + b, U64_MAX) }

  predicate Small(f: Folder) { f.unpacked <= FOLDER_STAGE_BYTES }

  /** The largest decoder among the folders from `s` to `e`. */
  function Largest(folders: seq<Folder>, s: nat, e: nat): nat
    requires s <= e <= |folders|
  {
    if s == e then 0 else Most(Largest(folders, s, e - 1), folders[e - 1].estimate)
  }

  /** A longest run of small folders. */
  predicate Run(folders: seq<Folder>, s: nat, e: nat) {
    && s < e <= |folders|
    && (forall i :: s <= i < e ==> Small(folders[i]))
    && (s > 0 ==> !Small(folders[s - 1]))
    && (e < |folders| ==> !Small(folders[e]))
  }

  function Quotient(a: nat, b: nat): nat
    requires b > 0
  {
    a / b
  }

  /** How many workers the memory limit allows, each with the run's largest decoder; the callback's piece is the caller's. */
  function ByMemory(largest: nat, limit: nat): nat {
    if limit == U64_MAX then U64_MAX
    else Quotient(if limit >= FOLDER_CHUNK_BYTES then limit - FOLDER_CHUNK_BYTES else 0, SaturatingAdd(largest, FOLDER_WORKER_BYTES))
  }

  /** How many workers a run gets: as many as threads, folders and memory allow. */
  function Workers(folders: seq<Folder>, s: nat, e: nat, threads: nat, limit: nat): nat
    requires s <= e <= |folders|
  {
    Most(Least(Least(threads, e - s), ByMemory(Largest(folders, s, e), limit)), 1)
  }

  // ------------------------------------------------- what a plan promises

  function From(a: nat, b: nat): seq<nat>
    requires a <= b
  {
    seq(b - a, i requires 0 <= i < b - a => a + i)
  }

  function BlocksOf(p: Phase): seq<nat> {
    match p
    case Alone(block) => [block]
    case Parallel(start, end, _, _) => if start <= end then From(start, end) else []
  }

  /** The folders of a plan, phase after phase. */
  function Blocks(phases: seq<Phase>): seq<nat> {
    if phases == [] then [] else Blocks(phases[..|phases| - 1]) + BlocksOf(phases[|phases| - 1])
  }

  /** A folder is alone because it is too large to stage, or its run is too short or the workers too few. */
  ghost predicate Justified(folders: seq<Folder>, threads: nat, limit: nat, p: Phase) {
    match p
    case Alone(block) =>
      && block < |folders|
      && (Small(folders[block]) ==> exists s: nat, e: nat ::
            Run(folders, s, e) && s <= block < e && (e - s < 2 || Workers(folders, s, e, threads, limit) < 2))
    case Parallel(start, end, workers, each) =>
      && Run(folders, start, end) && workers == Workers(folders, start, end, threads, limit)
      && 2 <= workers <= end - start
      && workers * each <= threads
      && (if limit == U64_MAX then each == Most(Quotient(threads, workers), 1)
          else each == 1 && workers * (Largest(folders, start, end) + FOLDER_WORKER_BYTES) + FOLDER_CHUNK_BYTES <= limit)
  }

  ghost predicate AllJustified(folders: seq<Folder>, threads: nat, limit: nat, phases: seq<Phase>) {
    forall i :: 0 <= i < |phases| ==> Justified(folders, threads, limit, phases[i])
  }

  // ------------------------------------------------- arithmetic

  lemma DivTimes(a: nat, b: nat, q: nat)
    requires b > 0 && q <= a / b
    ensures q * b <= a
  {
    TimesGrows(q, a / b, b);
    assert (a / b) * b + a % b == a;
  }

  lemma TimesGrows(a: nat, b: nat, c: nat)
    requires a <= b
    ensures a * c <= b * c
  {
  }

  /** Two workers or more never come from a saturated sum, and all of them fit the limit together. */
  lemma WorkersFit(folders: seq<Folder>, s: nat, e: nat, threads: nat, limit: nat)
    requires s < e <= |folders| && limit < U64_MAX
    ensures var workers := Workers(folders, s, e, threads, limit);
      workers >= 2 ==> workers * (Largest(folders, s, e) + FOLDER_WORKER_BYTES) + FOLDER_CHUNK_BYTES <= limit
  {
    var workers := Workers(folders, s, e, threads, limit);
    if workers >= 2 {
      var shared: nat := if limit >= FOLDER_CHUNK_BYTES then limit - FOLDER_CHUNK_BYTES else 0;
      var charge := SaturatingAdd(Largest(folders, s, e), FOLDER_WORKER_BYTES);
      assert workers <= Quotient(shared, charge);
      DivTimes(shared, charge, workers);
      TimesGrows(2, workers, charge);
      assert charge == Largest(folders, s, e) + FOLDER_WORKER_BYTES;
    }
  }

  lemma ThreadsFit(threads: nat, workers: nat)
    requires 2 <= workers <= threads
    ensures workers * Most(Quotient(threads, workers), 1) <= threads
  {
    DivTimes(threads, workers, threads / workers);
    assert Quotient(threads, workers) >= 1;
  }

  // ------------------------------------------------- the most workers there can be

  /**
   `n` workers can decode the folders from `s` to `e` at once: there are threads and
   folders for them, and the limit, if there is one, holds the caller's piece and for
   each worker its input, its stage, its piece and the decoder of any folder.
   */
  ghost predicate Affords(folders: seq<Folder>, s: nat, e: nat, threads: nat, limit: nat, n: nat)
    requires s <= e <= |folders|
  {
    && n <= threads && n <= e - s
    && (limit == 0xFFFF_FFFF_FFFF_FFFF ||
          forall i :: s <= i < e ==> n * (folders[i].estimate + 65536 + 2 * 8388608 + 1048576) + 1048576 <= limit)
  }

  /** The folders from `s` to `e` are those small enough to stage between two that are not. */
  ghost predicate SmallBetween(folders: seq<Folder>, s: nat, e: nat) {
    && s < e <= |folders|
    && (forall i :: s <= i < e ==> folders[i].unpacked <= 8388608)
    && (s > 0 ==> folders[s - 1].unpacked > 8388608)
    && (e < |folders| ==> folders[e].unpacked > 8388608)
  }

  /** Nothing better could be done with the folders of a phase. */
  ghost predicate Best(folders: seq<Folder>, threads: nat, limit: nat, p: Phase) {
    match p
    case Alone(block) =>
      && block < |folders|
      && (folders[block].unpacked <= 8388608 ==>
            exists s: nat, e: nat :: SmallBetween(folders, s, e) && s <= block < e && !Affords(folders, s, e, threads, limit, 2))
    case Parallel(s, e, workers, each) =>
      && SmallBetween(folders, s, e) && workers >= 2
      && Affords(folders, s, e, threads, limit, workers) && !Affords(folders, s, e, threads, limit, workers + 1)
      && (if limit == 0xFFFF_FFFF_FFFF_FFFF then workers * each <= threads < workers * (each + 1) else each == 1)
  }

  /** The largest decoder is one of them, and at least each. */
  lemma {:induction false} LargestIs(folders: seq<Folder>, s: nat, e: nat)
    requires s <= e <= |folders|
    ensures forall i :: s <= i < e ==> folders[i].estimate <= Largest(folders, s, e)
    ensures s < e ==> exists i :: s <= i < e && folders[i].estimate == Largest(folders, s, e)
  {
    if s < e {
      LargestIs(folders, s, e - 1);
      assert folders[e - 1].estimate <= Largest(folders, s, e);
    }
  }

  lemma QuotientIs(a: nat, b: nat, n: nat)
    requires b > 0
    ensures n <= Quotient(a, b) <==> n * b <= a
  {
    if n <= a / b {
      DivTimes(a, b, n);
    } else {
      TimesGrows(a / b + 1, n, b);
      assert (a / b) * b + a % b == a;
    }
  }

  lemma MemoryAllows(largest: nat, limit: nat, n: nat)
    requires limit < U64_MAX && n >= 1
    ensures n <= ByMemory(largest, limit) <==> n * (largest + FOLDER_WORKER_BYTES) + FOLDER_CHUNK_BYTES <= limit
  {
    var shared: nat := if limit >= FOLDER_CHUNK_BYTES then limit - FOLDER_CHUNK_BYTES else 0;
    var each := largest + FOLDER_WORKER_BYTES;
    TimesGrows(1, n, each);
    QuotientIs(shared, SaturatingAdd(largest, FOLDER_WORKER_BYTES), n);
    if each > U64_MAX {
      TimesGrows(1, n, U64_MAX);
    }
  }

  lemma LargestDecides(folders: seq<Folder>, s: nat, e: nat, limit: nat, n: nat)
    requires s < e <= |folders|
    ensures n * (Largest(folders, s, e) + FOLDER_WORKER_BYTES) + FOLDER_CHUNK_BYTES <= limit
      <==> forall i :: s <= i < e ==> n * (folders[i].estimate + FOLDER_WORKER_BYTES) + FOLDER_CHUNK_BYTES <= limit
  {
    LargestIs(folders, s, e);
    forall i | s <= i < e
      ensures n * (folders[i].estimate + FOLDER_WORKER_BYTES) <= n * (Largest(folders, s, e) + FOLDER_WORKER_BYTES)
    {
      TimesGrows(folders[i].estimate + FOLDER_WORKER_BYTES, Largest(folders, s, e) + FOLDER_WORKER_BYTES, n);
    }
  }

  /** The workers of a run are the greatest number it affords, from two on; with no limit, the lesser of threads and folders. */
  lemma WorkersAreTheMost(folders: seq<Folder>, s: nat, e: nat, threads: nat, limit: nat, n: nat)
    requires s < e <= |folders| && limit <= U64_MAX && 1 <= threads < U64_MAX
    ensures n >= 2 ==> (n <= Workers(folders, s, e, threads, limit) <==> Affords(folders, s, e, threads, limit, n))
    ensures limit == 0xFFFF_FFFF_FFFF_FFFF ==>
      Workers(folders, s, e, threads, limit) == if threads <= e - s then threads else e - s
  {
    if n >= 2 && limit < U64_MAX {
      MemoryAllows(Largest(folders, s, e), limit, n);
      LargestDecides(folders, s, e, limit, n);
    }
  }

  lemma ShareIsTheMost(threads: nat, workers: nat)
    requires 2 <= workers <= threads
    ensures var each := Most(Quotient(threads, workers), 1); workers * each <= threads < workers * (each + 1)
  {
    ThreadsFit(threads, workers);
    QuotientIs(threads, workers, Quotient(threads, workers) + 1);
  }

  lemma JustifiedIsBest(folders: seq<Folder>, threads: nat, limit: nat, p: Phase)
    requires limit <= U64_MAX && 1 <= threads < U64_MAX && Justified(folders, threads, limit, p)
    ensures Best(folders, threads, limit, p)
  {
    match p
    case Alone(block) =>
      if Small(folders[block]) {
        var s: nat, e: nat :| Run(folders, s, e) && s <= block < e && (e - s < 2 || Workers(folders, s, e, threads, limit) < 2);
        WorkersAreTheMost(folders, s, e, threads, limit, 2);
        assert SmallBetween(folders, s, e);
      }
    case Parallel(s, e, workers, each) =>
      WorkersAreTheMost(folders, s, e, threads, limit, workers);
      WorkersAreTheMost(folders, s, e, threads, limit, workers + 1);
      if limit == U64_MAX {
        ShareIsTheMost(threads, workers);
      }
  }

  // ------------------------------------------------- the plan

  lemma BlocksSnoc(phases: seq<Phase>, p: Phase)
    ensures Blocks(phases + [p]) == Blocks(phases) + BlocksOf(p)
  {
    assert (phases + [p])[..|phases|] == phases;
  }

  lemma FromJoins(a: nat, b: nat, c: nat)
    requires a <= b <= c
    ensures From(a, b) + From(b, c) == From(a, c)
  {
  }

  /** A plan so far, for the folders before `upTo`. */
  ghost predicate Planned(folders: seq<Folder>, threads: nat, limit: nat, phases: seq<Phase>, upTo: nat) {
    AllJustified(folders, threads, limit, phases) && Blocks(phases) == From(0, upTo)
  }

  lemma JustifiedSnoc(folders: seq<Folder>, threads: nat, limit: nat, phases: seq<Phase>, p: Phase)
    requires AllJustified(folders, threads, limit, phases) && Justified(folders, threads, limit, p)
    ensures AllJustified(folders, threads, limit, phases + [p])
  {
  }

  lemma OneBlock(block: nat)
    ensures From(0, block) + [block] == From(0, block + 1)
  {
    FromJoins(0, block, block + 1);
    assert From(block, block + 1) == [block];
  }

  lemma AloneAdded(folders: seq<Folder>, threads: nat, limit: nat, phases: seq<Phase>, block: nat)
    requires Planned(folders, threads, limit, phases, block) && Justified(folders, threads, limit, Alone(block))
    ensures Planned(folders, threads, limit, phases + [Alone(block)], block + 1)
  {
    BlocksSnoc(phases, Alone(block));
    OneBlock(block);
    JustifiedSnoc(folders, threads, limit, phases, Alone(block));
  }

  lemma ParallelAdded(folders: seq<Folder>, threads: nat, limit: nat, phases: seq<Phase>, p: Phase)
    requires p.Parallel? && p.start <= p.end && Justified(folders, threads, limit, p)
    requires Planned(folders, threads, limit, phases, p.start)
    ensures Planned(folders, threads, limit, phases + [p], p.end)
  {
    BlocksSnoc(phases, p);
    FromJoins(0, p.start, p.end);
    JustifiedSnoc(folders, threads, limit, phases, p);
  }

  lemma ParallelJustified(folders: seq<Folder>, threads: nat, limit: nat, start: nat, end: nat)
    requires Run(folders, start, end) && limit <= U64_MAX && end - start >= 2
    requires var workers := Workers(folders, start, end, threads, limit); workers >= 2
    ensures var workers := Workers(folders, start, end, threads, limit);
      Justified(folders, threads, limit, Parallel(start, end, workers, if limit == U64_MAX then Most(Quotient(threads, workers), 1) else 1))
  {
    var workers := Workers(folders, start, end, threads, limit);
    ThreadsFit(threads, workers);
    if limit < U64_MAX {
      WorkersFit(folders, start, end, threads, limit);
    }
  }

  /** A run too short, or with too few workers, decoded a folder at a time. */
  method CloseAlone(folders: seq<Folder>, threads: nat, limit: nat, phases: seq<Phase>, start: nat, end: nat)
    returns (out: seq<Phase>)
    requires Run(folders, start, end) && (end - start < 2 || Workers(folders, start, end, threads, limit) < 2)
    requires Planned(folders, threads, limit, phases, start)
    ensures Planned(folders, threads, limit, out, end)
  {
    out := phases;
    for block := start to end
      invariant Planned(folders, threads, limit, out, block)
    {
      assert Justified(folders, threads, limit, Alone(block));
      AloneAdded(folders, threads, limit, out, block);
      out := out + [Alone(block)];
    }
  }

  /** Ends the run from `start` to `end`: in parallel, or each folder alone. */
  method Close(folders: seq<Folder>, threads: nat, limit: nat, phases: seq<Phase>, start: nat, end: nat, largest: nat)
    returns (out: seq<Phase>)
    requires Run(folders, start, end) && largest == Largest(folders, start, end) && threads >= 1 && limit <= U64_MAX
    requires Planned(folders, threads, limit, phases, start)
    ensures Planned(folders, threads, limit, out, end)
  {
    var len := end - start;
    var workers := Most(Least(Least(threads, len), ByMemory(largest, limit)), 1);
    if len < 2 || workers < 2 {
      out := CloseAlone(folders, threads, limit, phases, start, end);
      return;
    }
    ParallelJustified(folders, threads, limit, start, end);
    var p := Parallel(start, end, workers, if limit == U64_MAX then Most(Quotient(threads, workers), 1) else 1);
    ParallelAdded(folders, threads, limit, phases, p);
    out := phases + [p];
  }

  /** The open run: small folders since the last large one, and their largest decoder. */
  ghost predicate OpenRun(folders: seq<Folder>, start: nat, largest: nat, i: nat) {
    && start < i <= |folders| && largest == Largest(folders, start, i)
    && (forall j :: start <= j < i ==> Small(folders[j]))
    && (start > 0 ==> !Small(folders[start - 1]))
  }

  /** A folder too large to stage ends the run, and is decoded alone. */
  method AddLarge(folders: seq<Folder>, threads: nat, limit: nat, phases: seq<Phase>, run: Option<(nat, nat)>, i: nat)
    returns (out: seq<Phase>)
    requires i < |folders| && !Small(folders[i]) && threads >= 1 && limit <= U64_MAX
    requires Planned(folders, threads, limit, phases, if run.Some? then run.value.0 else i)
    requires run.Some? ==> OpenRun(folders, run.value.0, run.value.1, i)
    ensures Planned(folders, threads, limit, out, i + 1)
  {
    out := phases;
    if run.Some? {
      out := Close(folders, threads, limit, phases, run.value.0, i, run.value.1);
    }
    assert Justified(folders, threads, limit, Alone(i));
    AloneAdded(folders, threads, limit, out, i);
    out := out + [Alone(i)];
  }

  /**
   The plan: every folder once, in order, and every phase the best there can be. A
   budget of no threads counts as one; it is a 32-bit number in the source.
   */
  method PlanFolders(folders: seq<Folder>, budget: nat, limit: nat) returns (phases: seq<Phase>)
    requires limit <= U64_MAX
    ensures Blocks(phases) == From(0, |folders|)
    ensures AllJustified(folders, Most(budget, 1), limit, phases)
    ensures budget <= 0xFFFF_FFFF ==> forall i :: 0 <= i < |phases| ==> Best(folders, Most(budget, 1), limit, phases[i])
  {
    var threads := Most(budget, 1);
    phases := [];
    var run: Option<(nat, nat)> := None;
    for i := 0 to |folders|
      invariant Planned(folders, threads, limit, phases, if run.Some? then run.value.0 else i)
      invariant run.None? && i > 0 ==> !Small(folders[i - 1])
      invariant run.Some? ==> OpenRun(folders, run.value.0, run.value.1, i)
    {
      var f := folders[i];
      if f.unpacked <= FOLDER_STAGE_BYTES {
        run := Some(if run.Some? then (run.value.0, Most(run.value.1, f.estimate)) else (i, f.estimate));
      } else {
        phases := AddLarge(folders, threads, limit, phases, run, i);
        run := None;
      }
    }
    if run.Some? {
      phases := Close(folders, threads, limit, phases, run.value.0, |folders|, run.value.1);
    }
    if budget <= 0xFFFF_FFFF {
      AllBest(folders, threads, limit, phases);
    }
  }

  lemma AllBest(folders: seq<Folder>, threads: nat, limit: nat, phases: seq<Phase>)
    requires limit <= U64_MAX && 1 <= threads < U64_MAX && AllJustified(folders, threads, limit, phases)
    ensures forall i :: 0 <= i < |phases| ==> Best(folders, threads, limit, phases[i])
  {
    forall i | 0 <= i < |phases| ensures Best(folders, threads, limit, phases[i]) {
      JustifiedIsBest(folders, threads, limit, phases[i]);
    }
  }
}
