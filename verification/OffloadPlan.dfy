/** Which coders of a block are given a thread of their own, and what else the plan reserves. */
module OffloadPlan {
  import opened CoderGraph
  import opened GraphValidation

  const MIN_STAGE_BYTES: nat := 1048576
  const MT_MIN_BLOCK_BYTES: nat := 1048576
  const PIPE_KB: nat := 768
  const MAX_PLANNED_CODERS: nat := 64

  predicate IsHeavy(kind: Method) {
    kind.Lzma? || kind.Lzma2? || kind.Ppmd? || kind.Bzip2? || kind.Zstd? || kind.Brotli? || kind.Lz4?
    || kind.Deflate? || kind.Deflate64? || kind.Aes?
  }

  /** Coder `c` is the LZMA2 coder with the most to decode, the first of several that tie. */
  ghost predicate LargestLzma2(b: Block, c: int) {
    if c < 0 then c == -1 && forall d :: 0 <= d < |b.coders| ==> !b.coders[d].kind.Lzma2?
    else
      && c < |b.coders| && b.coders[c].kind.Lzma2?
      && forall d :: 0 <= d < |b.coders| && b.coders[d].kind.Lzma2? ==>
        b.coders[d].size <= b.coders[c].size && (d < c ==> b.coders[d].size < b.coders[c].size)
  }

  method ParallelLzma2Coder(b: Block) returns (best: int)
    ensures LargestLzma2(b, best)
  {
    best := -1;
    for c := 0 to |b.coders|
      invariant best == -1 ==> forall d :: 0 <= d < c ==> !b.coders[d].kind.Lzma2?
      invariant best != -1 ==> 0 <= best < c && b.coders[best].kind.Lzma2?
      invariant best != -1 ==> forall d :: 0 <= d < c && b.coders[d].kind.Lzma2? ==>
        b.coders[d].size <= b.coders[best].size && (d < best ==> b.coders[d].size < b.coders[best].size)
    {
      if b.coders[c].kind.Lzma2? && (best == -1 || b.coders[c].size > b.coders[best].size) {
        best := c;
      }
    }
  }

  /** Heavy, unless it is the LZMA2 coder that decodes on workers of its own. */
  predicate HeavyHere(b: Block, lzma2: int, serial: int, c: nat)
    requires c < |b.coders|
  {
    IsHeavy(b.coders[c].kind)
    && !(lzma2 == c && serial != c && b.coders[c].size > MT_MIN_BLOCK_BYTES)
  }

  function HeavyCount(b: Block, lzma2: int, serial: int, n: nat): nat
    requires n <= |b.coders|
  {
    if n == 0 then 0 else HeavyCount(b, lzma2, serial, n - 1) + if HeavyHere(b, lzma2, serial, n - 1) then 1 else 0
  }

  predicate Candidate(b: Block, lzma2: int, serial: int, top: nat, c: nat) {
    && c < |b.coders|
    && HeavyHere(b, lzma2, serial, c)
    && c != top
    && b.coders[c].numIn == 1
    && b.coders[c].size >= MIN_STAGE_BYTES
  }

  /** `c` can run on its own thread: what it reads is packed, or is made by a coder with a thread. */
  predicate Fed(b: Block, chosen: set<nat>, c: nat)
    requires c < |b.coders|
  {
    var stream := FirstIn(b.coders, c);
    stream in b.packed || (var r := FindIn(b.binds, stream); r >= 0 && b.binds[r].outIndex in chosen)
  }

  predicate Eligible(b: Block, lzma2: int, serial: int, top: nat, chosen: set<nat>, c: nat) {
    c !in chosen && Candidate(b, lzma2, serial, top, c) && Fed(b, chosen, c)
  }

  /** `c` is the largest eligible coder, the last of several that tie. */
  ghost predicate Largest(b: Block, lzma2: int, serial: int, top: nat, chosen: set<nat>, c: nat) {
    && Eligible(b, lzma2, serial, top, chosen, c)
    && forall d: nat :: Eligible(b, lzma2, serial, top, chosen, d) ==>
      b.coders[d].size <= b.coders[c].size && (d > c ==> b.coders[d].size < b.coders[c].size)
  }

  method PickLargest(b: Block, lzma2: int, serial: int, top: nat, chosen: set<nat>) returns (next: int)
    ensures next == -1 ==> forall d: nat :: !Eligible(b, lzma2, serial, top, chosen, d)
    ensures next != -1 ==> next >= 0 && Largest(b, lzma2, serial, top, chosen, next)
  {
    next := -1;
    for c := 0 to |b.coders|
      invariant next == -1 ==> forall d :: 0 <= d < c ==> !Eligible(b, lzma2, serial, top, chosen, d)
      invariant next != -1 ==> 0 <= next < c && Eligible(b, lzma2, serial, top, chosen, next)
      invariant next != -1 ==> forall d :: 0 <= d < c && Eligible(b, lzma2, serial, top, chosen, d) ==>
        b.coders[d].size <= b.coders[next].size && (d > next ==> b.coders[d].size < b.coders[next].size)
    {
      if Eligible(b, lzma2, serial, top, chosen, c) && (next == -1 || b.coders[c].size >= b.coders[next].size) {
        next := c;
      }
    }
  }

  function Chosen(order: seq<nat>): set<nat> {
    if order == [] then {} else Chosen(order[..|order| - 1]) + {order[|order| - 1]}
  }

  /** Coders taken one by one, each the largest that could be taken at its turn. */
  ghost predicate Greedy(b: Block, lzma2: int, serial: int, top: nat, order: seq<nat>) {
    forall i :: 0 <= i < |order| ==> Largest(b, lzma2, serial, top, Chosen(order[..i]), order[i])
  }

  predicate FirstRoot(b: Block, top: int) {
    if top < 0 then forall c :: 0 <= c < |b.coders| ==> BindsOut(b, c)
    else top < |b.coders| && !BindsOut(b, top) && forall c :: 0 <= c < top ==> BindsOut(b, c)
  }

  predicate NothingToPlan(b: Block, threads: nat, lzma2: int, serial: int) {
    threads < 2 || |b.coders| > MAX_PLANNED_CODERS || HeavyCount(b, lzma2, serial, |b.coders|) < 2
  }

  /**
   A plan, as the order its coders were taken in: greedy, as many as there are
   threads beyond the caller's, and no eligible coder left over.
   */
  ghost predicate Planned(b: Block, threads: nat, serial: int, lzma2: int, top: int, order: seq<nat>) {
    && LargestLzma2(b, lzma2) && FirstRoot(b, top)
    && (NothingToPlan(b, threads, lzma2, serial) || top < 0 ==> order == [])
    && (top >= 0 ==> Greedy(b, lzma2, serial, top, order))
    && (threads >= 1 ==> |order| <= threads - 1)
    && (!NothingToPlan(b, threads, lzma2, serial) && top >= 0 && |order| < threads - 1 ==>
          forall c: nat :: !Eligible(b, lzma2, serial, top, Chosen(order), c))
  }

  /** What a chosen coder is, whatever the order: heavy, large, not the top, and reading a pack stream or a chosen coder. */
  ghost predicate Closed(b: Block, chosen: set<nat>) {
    forall c :: c in chosen ==>
      && c < |b.coders| && !FirstRoot(b, c)
      && IsHeavy(b.coders[c].kind) && b.coders[c].numIn == 1 && b.coders[c].size >= MIN_STAGE_BYTES
      && Fed(b, chosen, c)
  }

  lemma {:induction false} ChosenIs(order: seq<nat>)
    ensures forall c :: c in Chosen(order) <==> c in order
    ensures |Chosen(order)| <= |order|
  {
    if order != [] {
      ChosenIs(order[..|order| - 1]);
      assert order == order[..|order| - 1] + [order[|order| - 1]];
    }
  }

  lemma FedMonotone(b: Block, fewer: set<nat>, more: set<nat>, c: nat)
    requires c < |b.coders| && fewer <= more && Fed(b, fewer, c)
    ensures Fed(b, more, c)
  {
  }

  /** Each coder was fed by those taken before it, so the plan as a whole is closed. */
  lemma PlanIsClosed(b: Block, lzma2: int, serial: int, top: nat, order: seq<nat>)
    requires FirstRoot(b, top) && Greedy(b, lzma2, serial, top, order)
    ensures Closed(b, Chosen(order))
  {
    ChosenIs(order);
    forall c | c in Chosen(order)
      ensures Candidate(b, lzma2, serial, top, c) && Fed(b, Chosen(order), c)
    {
      var i :| 0 <= i < |order| && order[i] == c;
      assert Largest(b, lzma2, serial, top, Chosen(order[..i]), order[i]);
      ChosenIs(order[..i]);
      FedMonotone(b, Chosen(order[..i]), Chosen(order), c);
    }
  }

  /** Every coder is taken once, so the plan is as large as its order is long. */
  lemma {:induction false} PlanSize(b: Block, lzma2: int, serial: int, top: nat, order: seq<nat>)
    requires Greedy(b, lzma2, serial, top, order)
    ensures |Chosen(order)| == |order|
  {
    if order != [] {
      var init := order[..|order| - 1];
      assert forall i :: 0 <= i < |init| ==> init[..i] == order[..i] && init[i] == order[i];
      PlanSize(b, lzma2, serial, top, init);
      assert Largest(b, lzma2, serial, top, Chosen(init), order[|order| - 1]);
    }
  }

  method PlanOffload(b: Block, threads: nat, serial: int)
    returns (chosen: set<nat>, ghost order: seq<nat>, ghost lzma2: int, ghost top: int)
    ensures Planned(b, threads, serial, lzma2, top, order) && chosen == Chosen(order)
    ensures Closed(b, chosen)
    ensures threads >= 1 ==> |chosen| <= threads - 1
  {
    chosen, order := {}, [];
    var largest := ParallelLzma2Coder(b);
    lzma2 := largest;
    var first: int := 0;
    while first < |b.coders| && BindsOut(b, first)
      invariant 0 <= first <= |b.coders|
      invariant forall c :: 0 <= c < first ==> BindsOut(b, c)
    {
      first := first + 1;
    }
    top := if first < |b.coders| then first else -1;
    if threads < 2 || |b.coders| > MAX_PLANNED_CODERS {
      return;
    }
    var heavy := 0;
    for c := 0 to |b.coders|
      invariant heavy == HeavyCount(b, largest, serial, c)
    {
      if HeavyHere(b, largest, serial, c) {
        heavy := heavy + 1;
      }
    }
    if heavy < 2 || first >= |b.coders| {
      return;
    }
    for turn := 1 to threads
      invariant chosen == Chosen(order) && |order| == turn - 1
      invariant Greedy(b, largest, serial, first, order)
    {
      var next := PickLargest(b, largest, serial, first, chosen);
      if next == -1 {
        PlanIsClosed(b, largest, serial, first, order);
        ChosenIs(order);
        return;
      }
      ghost var longer := order + [next as nat];
      assert longer[..|order|] == order;
      assert forall i :: 0 <= i < |order| ==> longer[..i] == order[..i];
      chosen := chosen + {next};
      order := longer;
    }
    PlanIsClosed(b, largest, serial, first, order);
    ChosenIs(order);
  }

  // ------------------------------------------------- the plan in the block's own fields

  /** Coder `c` costs the caller's thread real time: of a costly method, and not the LZMA2 coder that has workers of its own. */
  ghost predicate Costly(b: Block, serial: int, c: nat) {
    && c < |b.coders|
    && b.coders[c].kind in {Lzma, Lzma2, Ppmd, Bzip2, Zstd, Brotli, Lz4, Deflate, Deflate64, Aes}
    && !(b.coders[c].kind == Lzma2 && serial != c && b.coders[c].size > 1048576
         && forall d :: 0 <= d < |b.coders| && b.coders[d].kind == Lzma2 ==>
              if d < c then b.coders[d].size < b.coders[c].size else b.coders[d].size <= b.coders[c].size)
  }

  ghost predicate TwoCostly(b: Block, serial: int) {
    exists c: nat, d: nat :: c < d && Costly(b, serial, c) && Costly(b, serial, d)
  }

  /** A coder a thread can be given to, once what it reads is packed or made on a thread. */
  ghost predicate Takeable(b: Block, serial: int, top: int, taken: set<nat>, c: nat) {
    && Costly(b, serial, c) && c != top && b.coders[c].numIn == 1 && b.coders[c].size >= 1048576
    && var stream := FirstIn(b.coders, c);
       stream in b.packed
       || (exists i :: 0 <= i < |b.binds| && FirstBind(b, i, stream) && b.binds[i].outIndex in taken)
  }

  predicate FirstBind(b: Block, i: nat, stream: nat)
    requires i < |b.binds|
  {
    b.binds[i].inIndex == stream && forall j :: 0 <= j < i ==> b.binds[j].inIndex != stream
  }

  lemma HeavyIsCostly(b: Block, lzma2: int, serial: int, c: nat)
    requires LargestLzma2(b, lzma2) && c < |b.coders|
    ensures HeavyHere(b, lzma2, serial, c) <==> Costly(b, serial, c)
  {
  }

  lemma EligibleIsTakeable(b: Block, lzma2: int, serial: int, top: nat, chosen: set<nat>, c: nat)
    requires LargestLzma2(b, lzma2)
    ensures Eligible(b, lzma2, serial, top, chosen, c) <==> c !in chosen && Takeable(b, serial, top, chosen, c)
  {
    if c < |b.coders| {
      HeavyIsCostly(b, lzma2, serial, c);
      FedByBind(b, chosen, c);
    }
  }

  lemma FedByBind(b: Block, chosen: set<nat>, c: nat)
    requires c < |b.coders|
    ensures var stream := FirstIn(b.coders, c);
      Fed(b, chosen, c)
      <==> (stream in b.packed || exists i :: 0 <= i < |b.binds| && FirstBind(b, i, stream) && b.binds[i].outIndex in chosen)
  {
    var stream := FirstIn(b.coders, c);
    var r := FindIn(b.binds, stream);
    if r >= 0 {
      assert FirstBind(b, r, stream);
    }
  }

  lemma {:induction false} OneHeavy(b: Block, lzma2: int, serial: int, n: nat)
    requires n <= |b.coders|
    ensures HeavyCount(b, lzma2, serial, n) >= 1 <==> exists c :: 0 <= c < n && HeavyHere(b, lzma2, serial, c)
  {
    if n > 0 {
      OneHeavy(b, lzma2, serial, n - 1);
    }
  }

  lemma {:induction false} TwoHeavy(b: Block, lzma2: int, serial: int, n: nat)
    requires n <= |b.coders|
    ensures HeavyCount(b, lzma2, serial, n) >= 2 <==>
      exists c, d :: 0 <= c < d < n && HeavyHere(b, lzma2, serial, c) && HeavyHere(b, lzma2, serial, d)
  {
    if n > 0 {
      OneHeavy(b, lzma2, serial, n - 1);
      TwoHeavy(b, lzma2, serial, n - 1);
    }
  }

  lemma TwoHeavyAreCostly(b: Block, lzma2: int, serial: int)
    requires LargestLzma2(b, lzma2)
    ensures HeavyCount(b, lzma2, serial, |b.coders|) >= 2 <==> TwoCostly(b, serial)
  {
    TwoHeavy(b, lzma2, serial, |b.coders|);
    forall c: nat | c < |b.coders| ensures HeavyHere(b, lzma2, serial, c) <==> Costly(b, serial, c) {
      HeavyIsCostly(b, lzma2, serial, c);
    }
    if TwoCostly(b, serial) {
      var c: nat, d: nat :| c < d && Costly(b, serial, c) && Costly(b, serial, d);
      assert HeavyHere(b, lzma2, serial, c) && HeavyHere(b, lzma2, serial, d);
    }
  }

  /**
   The plan in the block's own fields: nothing unless there are threads to give, few
   enough coders and two costly ones; each coder taken was costly, large, not the
   first one nothing reads, fed by those before it, and no smaller than any other
   that could be taken then; and coders go untaken only when threads run out.
   */
  lemma PlanIsSpelledOut(b: Block, threads: nat, serial: int, lzma2: int, top: int, order: seq<nat>)
    requires Planned(b, threads, serial, lzma2, top, order)
    ensures order != [] ==> threads >= 2 && |b.coders| <= 64 && TwoCostly(b, serial) && top >= 0
    ensures forall i :: 0 <= i < |order| ==>
      && order[i] !in order[..i] && Takeable(b, serial, top, Chosen(order[..i]), order[i])
      && forall c: nat :: c !in order[..i] && Takeable(b, serial, top, Chosen(order[..i]), c) ==>
           if c > order[i] then b.coders[c].size < b.coders[order[i]].size else b.coders[c].size <= b.coders[order[i]].size
    ensures threads >= 2 && |b.coders| <= 64 && TwoCostly(b, serial) && top >= 0 && |order| < threads - 1 ==>
      forall c: nat :: c !in order ==> !Takeable(b, serial, top, Chosen(order), c)
  {
    TwoHeavyAreCostly(b, lzma2, serial);
    ChosenIs(order);
    forall i | 0 <= i < |order|
      ensures order[i] !in order[..i] && Takeable(b, serial, top, Chosen(order[..i]), order[i])
      ensures forall c: nat :: c !in order[..i] && Takeable(b, serial, top, Chosen(order[..i]), c) ==>
        if c > order[i] then b.coders[c].size < b.coders[order[i]].size else b.coders[c].size <= b.coders[order[i]].size
    {
      ChosenIs(order[..i]);
      assert Largest(b, lzma2, serial, top, Chosen(order[..i]), order[i]);
      forall c: nat ensures Eligible(b, lzma2, serial, top, Chosen(order[..i]), c)
        <==> c !in Chosen(order[..i]) && Takeable(b, serial, top, Chosen(order[..i]), c)
      {
        EligibleIsTakeable(b, lzma2, serial, top, Chosen(order[..i]), c);
      }
    }
    if !NothingToPlan(b, threads, lzma2, serial) && top >= 0 && |order| < threads - 1 {
      forall c: nat | c !in order ensures !Takeable(b, serial, top, Chosen(order), c) {
        EligibleIsTakeable(b, lzma2, serial, top, Chosen(order), c);
      }
    }
  }

  // ------------------------------------------------- the chain's reservations

  /** Pipes a plan opens, over the first `n` coders. */
  function PlanPipes(b: Block, offload: set<nat>, n: nat): nat
    requires n <= |b.coders|
  {
    if n == 0 then 0
    else PlanPipes(b, offload, n - 1)
         + if n - 1 in offload then 1 + (if FirstIn(b.coders, n - 1) in b.packed then 1 else 0) else 0
  }

  /** The offloaded ones among the first `n` coders, and those of them that read a pack stream. */
  ghost function Offloaded(b: Block, offload: set<nat>, n: nat): set<nat> {
    set c: nat | c < n && c < |b.coders| && c in offload
  }

  ghost function OverPacked(b: Block, offload: set<nat>, n: nat): set<nat> {
    set c: nat | c < n && c < |b.coders| && c in offload && FirstIn(b.coders, c) in b.packed
  }

  /** A pipe for each coder on a thread, and one more for each of those that reads a pack stream. */
  lemma {:induction false} PipesAre(b: Block, offload: set<nat>, n: nat)
    requires n <= |b.coders|
    ensures PlanPipes(b, offload, n) == |Offloaded(b, offload, n)| + |OverPacked(b, offload, n)|
  {
    if n > 0 {
      PipesAre(b, offload, n - 1);
      var c := n - 1;
      assert Offloaded(b, offload, n) == Offloaded(b, offload, c) + if c in offload then {c} else {};
      assert OverPacked(b, offload, n)
          == OverPacked(b, offload, c) + if c in offload && FirstIn(b.coders, c) in b.packed then {c} else {};
    } else {
      assert Offloaded(b, offload, 0) == {} && OverPacked(b, offload, 0) == {};
    }
  }

  datatype Budget = Budget(threads: nat, limited: bool, limitKb: nat, reservedKb: nat, unsizedKb: nat, bzip2Kb: nat)

  datatype Plan = Plan(offload: set<nat>, lzma2: int, bzip2: int, reservedKb: nat)

  method FindTopBzip2(b: Block) returns (c: int)
    ensures c >= 0 ==> Root(b, c) && b.coders[c].kind.Bzip2?
    ensures c < 0 ==> c == -1 && forall d: nat :: Root(b, d) ==> !b.coders[d].kind.Bzip2?
  {
    for d := 0 to |b.coders|
      invariant forall e :: 0 <= e < d && Root(b, e) ==> !b.coders[e].kind.Bzip2?
    {
      if b.coders[d].kind.Bzip2? && !BindsOut(b, d) {
        return d;
      }
    }
    return -1;
  }

  predicate ChainFits(b: Block, opts: Budget, offload: set<nat>) {
    opts.reservedKb + PlanPipes(b, offload, |b.coders|) * PIPE_KB + opts.unsizedKb <= opts.limitKb
  }

  method CountPipes(b: Block, offload: set<nat>) returns (pipes: nat)
    ensures pipes == PlanPipes(b, offload, |b.coders|)
    ensures pipes == |Offloaded(b, offload, |b.coders|)| + |OverPacked(b, offload, |b.coders|)|
  {
    PipesAre(b, offload, |b.coders|);
    pipes := 0;
    for c := 0 to |b.coders|
      invariant pipes == PlanPipes(b, offload, c)
    {
      if c in offload {
        pipes := pipes + 1 + if FirstIn(b.coders, c) in b.packed then 1 else 0;
      }
    }
  }

  method RoomForBzip2Worker(opts: Budget, reserved: nat) returns (room: bool, after: nat)
    ensures room <==> !opts.limited || reserved + opts.bzip2Kb + opts.unsizedKb <= opts.limitKb
    ensures after == reserved + if room && opts.limited then opts.bzip2Kb else 0
  {
    if !opts.limited {
      return true, reserved;
    }
    var chain := reserved + opts.bzip2Kb;
    if chain + opts.unsizedKb > opts.limitKb {
      return false, reserved;
    }
    return true, chain;
  }

  /**
   Plans the chain: the stages, given up when their pipes do not fit; the parallel
   LZMA2 coder; and, with a thread to spare and room for it, the BZip2 worker.
   */
  method PlanChain(b: Block, opts: Budget, serial: int)
    returns (plan: Plan, ghost order: seq<nat>, ghost largest: int, ghost top: int)
    ensures Planned(b, opts.threads, serial, largest, top, order)
    ensures plan.offload == if Chosen(order) == {} || ChainFits(b, opts, Chosen(order)) then Chosen(order) else {}
    ensures Closed(b, plan.offload)
    ensures plan.lzma2 == if largest == serial then -1 else largest
    ensures plan.bzip2 >= 0 ==>
      Root(b, plan.bzip2) && b.coders[plan.bzip2].kind.Bzip2? && plan.lzma2 < 0 && |plan.offload| + 1 < opts.threads
    ensures plan.bzip2 < 0 && plan.lzma2 < 0 && |plan.offload| + 1 < opts.threads ==>
      || (forall c: nat :: Root(b, c) ==> !b.coders[c].kind.Bzip2?)
      || (opts.limited && plan.reservedKb + opts.bzip2Kb + opts.unsizedKb > opts.limitKb)
    ensures opts.threads >= 1 ==> 1 + |plan.offload| + (if plan.bzip2 >= 0 then 1 else 0) <= opts.threads
    ensures plan.offload != {} || (plan.bzip2 >= 0 && opts.limited) ==> plan.reservedKb + opts.unsizedKb <= opts.limitKb
    ensures plan.reservedKb == opts.reservedKb + PlanPipes(b, plan.offload, |b.coders|) * PIPE_KB
      + if plan.bzip2 >= 0 && opts.limited then opts.bzip2Kb else 0
  {
    var offload;
    offload, order, largest, top := PlanOffload(b, opts.threads, serial);
    var reserved := opts.reservedKb;
    NoPipes(b, |b.coders|);
    if offload != {} {
      var pipes := CountPipes(b, offload);
      var chain := reserved + pipes * PIPE_KB;
      if chain + opts.unsizedKb > opts.limitKb {
        offload := {};
      } else {
        reserved := chain;
      }
    }
    var best := ParallelLzma2Coder(b);
    var parallel := if best == serial then -1 else best;
    var bzip2: int := -1;
    if parallel < 0 && |offload| + 1 < opts.threads {
      bzip2 := FindTopBzip2(b);
      if bzip2 >= 0 {
        var room;
        room, reserved := RoomForBzip2Worker(opts, reserved);
        bzip2 := if room then bzip2 else -1;
      }
    }
    plan := Plan(offload, parallel, bzip2, reserved);
  }

  lemma {:induction false} NoPipes(b: Block, n: nat)
    requires n <= |b.coders|
    ensures PlanPipes(b, {}, n) == 0
  {
    if n > 0 {
      NoPipes(b, n - 1);
    }
  }
}
