/**
 Building the decoders of a validated block: the recursion from the final output
 down the coder graph, and the chain that puts each coder on the caller's thread
 or on one of its own. A thread that is refused puts the rest on the caller's.
 */
module StackBuilder {
  import opened CoderGraph
  import opened GraphValidation
  import opened GraphTree
  import opened OffloadPlan

  /** The input a coder is built over: a pack stream, or another coder here or on a thread of its own. */
  datatype Stage = Leaf(pack: nat) | OwnedLeaf(pack: nat) | Here(coder: nat) | There(coder: nat)

  datatype BuildError = CyclicGraph | IndexOutOfRange | NoBindPair | WrongBcj2Inputs | UnsupportedCoder | CoderRefused | HereBelowThere

  /** What the surroundings decide: owned pack streams, a memory limit, threads refused, coders that cannot be built. */
  datatype Setting = Setting(owned: bool, limited: bool, refused: set<nat>, unbuildable: set<nat>)

  /** The mutable part of a chain: coders still to be offloaded, threads asked for, coders built, those given a thread, and pack streams opened. */
  datatype Chain = Chain(offload: set<nat>, asked: nat, built: seq<nat>, threads: seq<nat>, leaves: seq<nat>)

  function Unbuilt(offload: set<nat>): Chain { Chain(offload, 0, [], [], []) }

  datatype Built = Ok(stage: Stage) | Err(error: BuildError)

  function Position(xs: seq<nat>, x: nat): (r: int)
    ensures -1 <= r < |xs|
    ensures r >= 0 ==> xs[r] == x
    ensures r < 0 <==> x !in xs
  {
    if xs == [] then -1
    else if xs[0] == x then 0
    else
      var r := Position(xs[1..], x);
      if r < 0 then -1 else r + 1
  }

  /** `Chain::add`: the coder over its input, on a thread of its own when the plan still gives it one. */
  function AddCoder(b: Block, e: Setting, c: nat, input: Stage, chain: Chain): (Built, Chain)
    requires c < |b.coders|
  {
    if b.coders[c].kind.Copy? && e.limited then
      (Ok(if input.Leaf? || input.OwnedLeaf? then Here(c) else input), chain.(built := chain.built + [c]))
    else if c in chain.offload && chain.asked !in e.refused then
      var next := chain.(asked := chain.asked + 1);
      if input.Here? then (Err(HereBelowThere), next)
      else if c in e.unbuildable then (Err(CoderRefused), next)
      else (Ok(There(c)), next.(built := chain.built + [c], threads := chain.threads + [c]))
    else
      var next := if c in chain.offload then chain.(asked := chain.asked + 1, offload := {}) else chain;
      if c in e.unbuildable then (Err(CoderRefused), next)
      else (Ok(Here(c)), next.(built := next.built + [c]))
  }

  /** `get_in_stream`: a pack stream, or the coder bound to this input. */
  function BuildInput(b: Block, e: Setting, stream: nat, depth: nat, chain: Chain): (Built, Chain)
    decreases if depth <= |b.coders| + 1 then |b.coders| + 1 - depth else 0, 2
  {
    var pack := Position(b.packed, stream);
    if pack >= 0 then
      (Ok(if e.owned then OwnedLeaf(pack) else Leaf(pack)), chain.(leaves := chain.leaves + [pack]))
    else
      var r := FindIn(b.binds, stream);
      if r < 0 then (Err(NoBindPair), chain)
      else BuildCoder(b, e, b.binds[r].outIndex, depth, chain)
  }

  /** The inputs of a multi-input coder, one after the other. */
  function BuildInputs(b: Block, e: Setting, stream: nat, count: nat, depth: nat, chain: Chain): (Built, Chain)
    decreases if depth <= |b.coders| + 1 then |b.coders| + 1 - depth else 0, 3, count
  {
    if count == 0 then (Ok(Here(0)), chain)
    else
      var (first, next) := BuildInput(b, e, stream, depth, chain);
      if first.Err? then (first, next) else BuildInputs(b, e, stream + 1, count - 1, depth, next)
  }

  /** `get_in_stream2`: a coder over its inputs. */
  function BuildCoder(b: Block, e: Setting, c: nat, depth: nat, chain: Chain): (Built, Chain)
    decreases if depth <= |b.coders| + 1 then |b.coders| + 1 - depth else 0, 1
  {
    if depth > |b.coders| then (Err(CyclicGraph), chain)
    else if c >= |b.coders| then (Err(IndexOutOfRange), chain)
    else if b.coders[c].numIn == 1 then
      var (input, next) := BuildInput(b, e, FirstIn(b.coders, c), depth + 1, chain);
      if input.Err? then (input, next) else AddCoder(b, e, c, input.stage, next)
    else if b.coders[c].kind.Bcj2? then
      if b.coders[c].numIn != 4 then (Err(WrongBcj2Inputs), chain)
      else
        var (inputs, next) := BuildInputs(b, e, FirstIn(b.coders, c), 4, depth + 1, chain);
        if inputs.Err? then (inputs, next) else (Ok(Here(c)), next.(built := next.built + [c]))
    else (Err(UnsupportedCoder), chain)
  }

  // ------------------------------------------------- no structural error, whatever is refused

  ghost predicate StructuralError(r: Built) {
    r.Err? && (r.error.CyclicGraph? || r.error.IndexOutOfRange? || r.error.NoBindPair? || r.error.HereBelowThere?)
  }

  /** The plan in force is the planned one, until a thread was refused. */
  ghost predicate PlanInForce(plan: set<nat>, chain: Chain) {
    chain.offload == plan || chain.offload == {}
  }

  /** Planned coders take one input and are fed by pack streams or planned coders; COPY is not among them. */
  ghost predicate GoodPlan(b: Block, plan: set<nat>) {
    forall c :: c in plan ==> c < |b.coders| && b.coders[c].numIn == 1 && !b.coders[c].kind.Copy? && Fed(b, plan, c)
  }

  /** The planned ones among the coders built, in the order they were built. */
  function PlannedIn(built: seq<nat>, plan: set<nat>): seq<nat> {
    if built == [] then []
    else PlannedIn(built[..|built| - 1], plan) + if built[|built| - 1] in plan then [built[|built| - 1]] else []
  }

  /** Requests are granted in order until one is refused, which ends the plan; each granted one is a planned coder's thread. */
  ghost predicate Grants(refused: set<nat>, plan: set<nat>, planned: seq<nat>, threads: seq<nat>, offload: set<nat>, asked: nat) {
    && |threads| <= |planned| && threads == planned[..|threads|]
    && (forall i :: 0 <= i < |threads| ==> i !in refused)
    && (if |threads| < |planned| then offload == {} && |threads| in refused else offload == plan && asked == |threads|)
  }

  ghost predicate Granted(e: Setting, plan: set<nat>, chain: Chain) {
    Grants(e.refused, plan, PlannedIn(chain.built, plan), chain.threads, chain.offload, chain.asked)
  }

  lemma GrantOne(refused: set<nat>, plan: set<nat>, planned: seq<nat>, threads: seq<nat>, asked: nat, c: nat)
    requires c in plan && Grants(refused, plan, planned, threads, plan, asked)
    ensures asked !in refused ==> Grants(refused, plan, planned + [c], threads + [c], plan, asked + 1)
    ensures asked in refused ==> Grants(refused, plan, planned + [c], threads, {}, asked + 1)
  {
    assert planned[..|threads|] == planned;
    assert (planned + [c])[..|threads| + 1] == planned + [c] && (planned + [c])[..|threads|] == planned;
  }

  lemma GrantNone(refused: set<nat>, plan: set<nat>, planned: seq<nat>, threads: seq<nat>, asked: nat, c: nat)
    requires c in plan && Grants(refused, plan, planned, threads, {}, asked)
    ensures Grants(refused, plan, planned + [c], threads, {}, asked)
  {
    assert (planned + [c])[..|threads|] == planned[..|threads|];
  }

  /** What building a coder, or an input, leaves true of the chain. */
  ghost predicate Kept(e: Setting, plan: set<nat>, before: Chain, r: Built, after: Chain) {
    && PlanInForce(plan, after)
    && (r.Ok? && Granted(e, plan, before) ==> Granted(e, plan, after))
    && (before.offload == {} ==> after.offload == {})
    && !StructuralError(r)
  }

  /** A walk that ends at `c` is at most as long as there are coders, so the depth guard stays out of reach. */
  lemma {:induction false} DistinctFits(path: seq<nat>, n: nat)
    requires Distinct(path) && forall i :: 0 <= i < |path| ==> path[i] < n
    ensures |path| <= n
  {
    var all := UpTo(n);
    ElementsAre(path);
    ElementsCount(path);
    assert Elements(path) <= all;
    SubsetSize(Elements(path), all);
  }

  lemma SubsetSize(s: set<nat>, t: set<nat>)
    requires s <= t
    ensures |s| <= |t|
  {
    assert |t - s| == |t| - |s|;
  }

  lemma AddKeeps(b: Block, e: Setting, plan: set<nat>, c: nat, input: Stage, chain: Chain)
    requires c < |b.coders| && GoodPlan(b, plan) && PlanInForce(plan, chain)
    requires c in chain.offload ==> !input.Here?
    ensures var (r, after) := AddCoder(b, e, c, input, chain);
      && Kept(e, plan, chain, r, after)
      && (r.Ok? && c in after.offload ==> r.stage == There(c))
  {
    var (r, after) := AddCoder(b, e, c, input, chain);
    if r.Ok? && Granted(e, plan, chain) {
      AddGrants(b, e, plan, c, input, chain);
    }
  }

  lemma AddGrants(b: Block, e: Setting, plan: set<nat>, c: nat, input: Stage, chain: Chain)
    requires c < |b.coders| && GoodPlan(b, plan) && Granted(e, plan, chain)
    ensures var (r, after) := AddCoder(b, e, c, input, chain); r.Ok? ==> Granted(e, plan, after)
  {
    var planned := PlannedIn(chain.built, plan);
    PlannedSnoc(chain.built, plan, c);
    if c in chain.offload {
      GrantOne(e.refused, plan, planned, chain.threads, chain.asked, c);
    } else if c in plan {
      GrantNone(e.refused, plan, planned, chain.threads, chain.asked, c);
    } else {
      assert planned + [] == planned;
    }
  }

  /** COPY under a memory limit forwards its input, which is on the caller's thread when it was a pack stream, and asks for no thread. */
  lemma CopyForwards(b: Block, e: Setting, c: nat, input: Stage, chain: Chain)
    requires c < |b.coders| && b.coders[c].kind == Copy && e.limited
    ensures var (r, after) := AddCoder(b, e, c, input, chain);
      && r.Ok? && (if input.Here? || input.There? then r.stage == input else r.stage == Here(c))
      && after.offload == chain.offload && after.asked == chain.asked && after.threads == chain.threads
      && after.leaves == chain.leaves && after.built == chain.built + [c]
  {
  }

  lemma PlannedSnoc(built: seq<nat>, plan: set<nat>, c: nat)
    ensures PlannedIn(built + [c], plan) == PlannedIn(built, plan) + if c in plan then [c] else []
  {
    assert (built + [c])[..|built|] == built;
  }

  /**
   Where a coder that can be built goes: on its own thread exactly when the plan
   gives it one and the request is granted; and a refusal, and nothing else, ends
   the plan.
   */
  lemma PlacedAsGranted(b: Block, e: Setting, c: nat, input: Stage, chain: Chain)
    requires c < |b.coders| && c !in e.unbuildable && !(b.coders[c].kind.Copy? && e.limited)
    requires c in chain.offload && chain.asked !in e.refused ==> !input.Here?
    ensures var (r, after) := AddCoder(b, e, c, input, chain);
      var given := c in chain.offload && chain.asked !in e.refused;
      && r.Ok? && (r.stage == There(c) <==> given) && (r.stage == Here(c) <==> !given)
      && (after.offload == {} <==> chain.offload == {} || (c in chain.offload && chain.asked in e.refused))
      && (after.offload != {} ==> after.offload == chain.offload)
      && after.asked == chain.asked + (if c in chain.offload then 1 else 0)
      && (c in after.threads[|chain.threads|..] <==> given) && chain.threads <= after.threads
  {
  }

  /** A coder out of the plan changes nothing of what was granted. */
  lemma HereGrants(e: Setting, plan: set<nat>, c: nat, chain: Chain)
    requires c !in plan
    ensures Granted(e, plan, chain) ==> Granted(e, plan, chain.(built := chain.built + [c]))
  {
    PlannedSnoc(chain.built, plan, c);
    assert PlannedIn(chain.built, plan) + [] == PlannedIn(chain.built, plan);
  }

  lemma InputInRange(b: Block, c: nat, step: nat)
    requires InputsCovered(b) && InRange(b) && c < |b.coders| && step < b.coders[c].numIn
    ensures var stream := FirstIn(b.coders, c) + step;
      stream !in b.packed ==>
        var r := FindIn(b.binds, stream); r >= 0 && b.binds[r].outIndex < |b.coders| && Feeds(b, c, step, b.binds[r].outIndex)
  {
    var stream := FirstIn(b.coders, c) + step;
    OwnedInRange(b, c, stream);
    assert BindsIn(b, stream) || stream in b.packed;
  }

  lemma WalkExtends(b: Block, root: nat, path: seq<nat>, c: nat, step: nat, d: nat)
    requires Walk(b, root, path) && path[|path| - 1] == c && Feeds(b, c, step, d) && d < |b.coders|
    ensures Walk(b, root, path + [d])
  {
    var longer := path + [d];
    forall i | 0 < i < |longer| ensures Edge(b, longer[i - 1], longer[i]) {
      if i < |path| {
        assert Edge(b, path[i - 1], path[i]);
      }
    }
  }

  ghost predicate CoderKeeps(b: Block, e: Setting, plan: set<nat>, c: nat, depth: nat, chain: Chain) {
    var (r, after) := BuildCoder(b, e, c, depth, chain);
    Kept(e, plan, chain, r, after) && (r.Ok? && c in after.offload ==> r.stage == There(c))
  }

  ghost predicate InputKeeps(b: Block, e: Setting, plan: set<nat>, c: nat, step: nat, depth: nat, chain: Chain)
    requires c < |b.coders|
  {
    var (r, after) := BuildInput(b, e, FirstIn(b.coders, c) + step, depth, chain);
    Kept(e, plan, chain, r, after) && (r.Ok? && c in after.offload && step == 0 ==> !r.stage.Here?)
  }

  ghost predicate InputsKeep(b: Block, e: Setting, plan: set<nat>, c: nat, depth: nat)
    requires c < |b.coders|
  {
    forall step: nat, at: Chain :: step < b.coders[c].numIn && PlanInForce(plan, at) ==>
      InputKeeps(b, e, plan, c, step, depth, at)
  }

  /** The coder at the end of a walk from the root, at the depth of that walk. */
  lemma {:induction false} BuildCoderKeeps(b: Block, e: Setting, plan: set<nat>, root: nat, path: seq<nat>, c: nat, chain: Chain)
    requires WellBound(b) && InRange(b) && Root(b, root) && GoodPlan(b, plan) && PlanInForce(plan, chain)
    requires Walk(b, root, path) && path[|path| - 1] == c
    ensures CoderKeeps(b, e, plan, c, |path| - 1, chain)
    decreases |b.coders| + 1 - |path|, 1
  {
    WalkFits(b, root, path);
    forall step: nat, at: Chain | step < b.coders[c].numIn && PlanInForce(plan, at)
      ensures InputKeeps(b, e, plan, c, step, |path|, at)
    {
      BuildInputKeeps(b, e, plan, root, path, c, step, at);
    }
    OverInputsKeeps(b, e, plan, c, |path| - 1, chain);
  }

  /** A coder of one input, over what its input came to. */
  lemma OverOneKeeps(b: Block, e: Setting, plan: set<nat>, c: nat, depth: nat, chain: Chain)
    requires c < |b.coders| && depth <= |b.coders| && GoodPlan(b, plan) && b.coders[c].numIn == 1
    requires InputKeeps(b, e, plan, c, 0, depth + 1, chain)
    ensures CoderKeeps(b, e, plan, c, depth, chain)
  {
    var (input, next) := BuildInput(b, e, FirstIn(b.coders, c), depth + 1, chain);
    assert FirstIn(b.coders, c) + 0 == FirstIn(b.coders, c);
    if input.Ok? {
      AddKeeps(b, e, plan, c, input.stage, next);
      var (r, after) := AddCoder(b, e, c, input.stage, next);
      KeptThen(e, plan, chain, input, next, r, after);
    }
  }

  lemma KeptThen(e: Setting, plan: set<nat>, p: Chain, first: Built, q: Chain, r: Built, after: Chain)
    requires first.Ok? && Kept(e, plan, p, first, q) && Kept(e, plan, q, r, after)
    ensures Kept(e, plan, p, r, after)
  {
  }

  /** BCJ2, over its four. */
  lemma OverFourKeeps(b: Block, e: Setting, plan: set<nat>, c: nat, depth: nat, chain: Chain)
    requires c < |b.coders| && depth <= |b.coders| && c !in plan && b.coders[c].numIn == 4 && b.coders[c].kind.Bcj2?
    requires var (r, after) := BuildInputs(b, e, FirstIn(b.coders, c), 4, depth + 1, chain); Kept(e, plan, chain, r, after)
    ensures CoderKeeps(b, e, plan, c, depth, chain)
  {
    HereGrants(e, plan, c, BuildInputs(b, e, FirstIn(b.coders, c), 4, depth + 1, chain).1);
  }

  /** A coder keeps what each of its inputs keeps. */
  lemma OverInputsKeeps(b: Block, e: Setting, plan: set<nat>, c: nat, depth: nat, chain: Chain)
    requires c < |b.coders| && depth <= |b.coders| && GoodPlan(b, plan) && PlanInForce(plan, chain)
    requires InputsKeep(b, e, plan, c, depth + 1)
    ensures CoderKeeps(b, e, plan, c, depth, chain)
  {
    if b.coders[c].numIn == 1 {
      assert InputKeeps(b, e, plan, c, 0, depth + 1, chain);
      OverOneKeeps(b, e, plan, c, depth, chain);
    } else if b.coders[c].kind.Bcj2? && b.coders[c].numIn == 4 {
      BuildInputsKeep(b, e, plan, c, 0, depth + 1, chain);
      OverFourKeeps(b, e, plan, c, depth, chain);
    }
  }

  lemma {:induction false} BuildInputsKeep(b: Block, e: Setting, plan: set<nat>, c: nat, step: nat, depth: nat, chain: Chain)
    requires c < |b.coders| && step <= b.coders[c].numIn && PlanInForce(plan, chain)
    requires InputsKeep(b, e, plan, c, depth)
    ensures var (r, after) := BuildInputs(b, e, FirstIn(b.coders, c) + step, b.coders[c].numIn - step, depth, chain);
      Kept(e, plan, chain, r, after)
    decreases b.coders[c].numIn - step
  {
    if step < b.coders[c].numIn {
      assert InputKeeps(b, e, plan, c, step, depth, chain);
      var (r, next) := BuildInput(b, e, FirstIn(b.coders, c) + step, depth, chain);
      if r.Ok? {
        BuildInputsKeep(b, e, plan, c, step + 1, depth, next);
      }
    }
  }

  lemma {:induction false} BuildInputKeeps(b: Block, e: Setting, plan: set<nat>, root: nat, path: seq<nat>, c: nat, step: nat, chain: Chain)
    requires WellBound(b) && InRange(b) && Root(b, root) && GoodPlan(b, plan) && PlanInForce(plan, chain)
    requires Walk(b, root, path) && path[|path| - 1] == c && step < b.coders[c].numIn && |path| <= |b.coders|
    ensures InputKeeps(b, e, plan, c, step, |path|, chain)
    decreases |b.coders| + 1 - |path|, 0
  {
    if FirstIn(b.coders, c) + step in b.packed {
      PackedKeeps(b, e, plan, c, step, |path|, chain);
    } else {
      var d := InputBelow(b, root, path, c, step);
      var longer := path + [d];
      assert |longer| == |path| + 1 && longer[|path|] == d;
      BuildCoderKeeps(b, e, plan, root, longer, d, chain);
      BoundKeeps(b, e, plan, c, step, |path|, d, chain);
    }
  }

  /** The coder bound to an input ends a walk one longer, which still fits. */
  lemma InputBelow(b: Block, root: nat, path: seq<nat>, c: nat, step: nat) returns (d: nat)
    requires WellBound(b) && InRange(b) && Root(b, root)
    requires Walk(b, root, path) && path[|path| - 1] == c && step < b.coders[c].numIn
    requires FirstIn(b.coders, c) + step !in b.packed
    ensures d < |b.coders| && Feeds(b, c, step, d) && BoundTo(b, c, step, d)
    ensures Walk(b, root, path + [d]) && |path| < |b.coders|
  {
    d := BoundInput(b, c, step);
    WalkExtends(b, root, path, c, step, d);
    WalkFits(b, root, path + [d]);
  }

  predicate BoundTo(b: Block, c: nat, step: nat, d: nat)
    requires c < |b.coders|
  {
    var stream := FirstIn(b.coders, c) + step;
    var r := FindIn(b.binds, stream);
    stream !in b.packed && r >= 0 && b.binds[r].outIndex == d
  }

  /** A planned coder is fed by a planned one, where it is not fed by a pack stream. */
  lemma FedByPlanned(b: Block, plan: set<nat>, c: nat, d: nat)
    requires c in plan && c < |b.coders| && GoodPlan(b, plan) && BoundTo(b, c, 0, d)
    ensures d in plan
  {
    assert Fed(b, plan, c);
  }

  lemma KeptOnward(e: Setting, plan: set<nat>, c: nat, step: nat, d: nat, chain: Chain, r: Built, after: Chain)
    requires Kept(e, plan, chain, r, after) && (r.Ok? && d in after.offload ==> r.stage == There(d))
    requires c in plan && step == 0 ==> d in plan
    ensures r.Ok? && c in after.offload && step == 0 ==> !r.stage.Here?
  {
  }

  /** A bound input keeps what the coder it is bound to keeps. */
  lemma BoundKeeps(b: Block, e: Setting, plan: set<nat>, c: nat, step: nat, depth: nat, d: nat, chain: Chain)
    requires c < |b.coders| && GoodPlan(b, plan)
    requires CoderKeeps(b, e, plan, d, depth, chain) && BoundTo(b, c, step, d)
    ensures InputKeeps(b, e, plan, c, step, depth, chain)
  {
    BoundIs(b, e, c, step, depth, d, chain);
    if c in plan && step == 0 {
      FedByPlanned(b, plan, c, d);
    }
    var (r, after) := BuildCoder(b, e, d, depth, chain);
    KeptOnward(e, plan, c, step, d, chain, r, after);
  }

  lemma BoundIs(b: Block, e: Setting, c: nat, step: nat, depth: nat, d: nat, chain: Chain)
    requires c < |b.coders| && BoundTo(b, c, step, d)
    ensures BuildInput(b, e, FirstIn(b.coders, c) + step, depth, chain) == BuildCoder(b, e, d, depth, chain)
  {
  }

  lemma PackedInput(b: Block, e: Setting, stream: nat, depth: nat, chain: Chain)
    requires stream in b.packed
    ensures var (r, after) := BuildInput(b, e, stream, depth, chain);
      var pack := Position(b.packed, stream);
      pack >= 0 && r == Ok(if e.owned then OwnedLeaf(pack) else Leaf(pack))
      && after == chain.(leaves := chain.leaves + [pack])
  {
  }

  lemma PackedKeeps(b: Block, e: Setting, plan: set<nat>, c: nat, step: nat, depth: nat, chain: Chain)
    requires c < |b.coders| && PlanInForce(plan, chain) && FirstIn(b.coders, c) + step in b.packed
    ensures InputKeeps(b, e, plan, c, step, depth, chain)
  {
    PackedInput(b, e, FirstIn(b.coders, c) + step, depth, chain);
  }

  lemma BoundInput(b: Block, c: nat, step: nat) returns (d: nat)
    requires InputsCovered(b) && InRange(b) && c < |b.coders| && step < b.coders[c].numIn
    requires FirstIn(b.coders, c) + step !in b.packed
    ensures d < |b.coders| && Feeds(b, c, step, d) && BoundTo(b, c, step, d)
  {
    InputInRange(b, c, step);
    d := b.binds[FindIn(b.binds, FirstIn(b.coders, c) + step)].outIndex;
  }

  lemma WalkFits(b: Block, root: nat, path: seq<nat>)
    requires BindsDistinct(b) && Root(b, root) && Walk(b, root, path)
    ensures |path| <= |b.coders|
  {
    WellBoundHasNoCycle(b, root);
    DistinctFits(path, |b.coders|);
  }

  /**
   A validated block, built from its one output with the plan made for it, never
   runs into the depth guard, a missing bind pair or an index out of range, and
   never hands a stage a coder on the caller's thread, whichever threads are refused.
   */
  lemma NoStructuralError(b: Block, e: Setting, plan: set<nat>, top: nat)
    requires WellBound(b) && InRange(b) && Root(b, top) && Closed(b, plan)
    ensures !StructuralError(BuildCoder(b, e, top, 0, Unbuilt(plan)).0)
  {
    BuildCoderKeeps(b, e, plan, top, [top], top, Unbuilt(plan));
  }

  lemma {:induction false} PlannedInIs(built: seq<nat>, plan: set<nat>)
    ensures forall c :: c in PlannedIn(built, plan) <==> c in built && c in plan
    ensures Distinct(built) ==> Distinct(PlannedIn(built, plan))
  {
    if built != [] {
      var init := built[..|built| - 1];
      assert built == init + [built[|built| - 1]];
      PlannedInIs(init, plan);
      PlannedSnoc(init, plan, built[|built| - 1]);
    }
  }

  /**
   Over a whole block: threads are granted to the planned coders in the order they
   are built, up to the first request that is refused; and with none refused, all
   of them have one and the plan stands.
   */
  lemma ThreadsAsGranted(b: Block, e: Setting, plan: set<nat>, top: nat)
    requires WellBound(b) && InRange(b) && Root(b, top) && Closed(b, plan)
    ensures var (r, after) := BuildCoder(b, e, top, 0, Unbuilt(plan));
      r.Ok? ==>
        var planned := PlannedIn(after.built, plan);
        && |after.threads| <= |planned| && after.threads == planned[..|after.threads|]
        && (forall i :: 0 <= i < |after.threads| ==> i !in e.refused)
        && (if |after.threads| < |planned| then |after.threads| in e.refused && after.offload == {} else after.offload == plan)
  {
    BuildCoderKeeps(b, e, plan, top, [top], top, Unbuilt(plan));
  }
}
