/** When a block builds: exactly when each coder its output reaches can be built. */
module StackOutcome {
  import opened CoderGraph
  import opened GraphValidation
  import opened GraphTree
  import opened OffloadPlan
  import opened StackBuilder
  import opened StackOnce

  /** A coder of one input whose decoder can be made, or that only forwards it; or BCJ2 with its four. */
  ghost predicate Buildable(b: Block, e: Setting, c: nat) {
    && c < |b.coders|
    && if b.coders[c].numIn == 1 then c !in e.unbuildable || (b.coders[c].kind == Copy && e.limited)
       else b.coders[c].kind == Bcj2 && b.coders[c].numIn == 4
  }

  ghost predicate AllBuildable(b: Block, e: Setting, reached: iset<nat>) {
    forall x: nat :: x in reached ==> Buildable(b, e, x)
  }

  lemma AddBuilds(b: Block, e: Setting, plan: set<nat>, c: nat, input: Stage, chain: Chain)
    requires c < |b.coders| && b.coders[c].numIn == 1 && GoodPlan(b, plan) && PlanInForce(plan, chain)
    requires c in chain.offload ==> !input.Here?
    ensures AddCoder(b, e, c, input, chain).0.Ok? <==> Buildable(b, e, c)
  {
  }

  /** What the inputs from `s` to `t` of a coder lead to can all be built. */
  ghost function BelowInputs(b: Block, e: Setting, root: nat, path: seq<nat>, c: nat): (nat, nat) -> bool {
    (s: nat, t: nat) => AllBuildable(b, e, ReachedBy(b, root, path, c, s, t))
  }

  ghost predicate InputBuilt(b: Block, e: Setting, plan: set<nat>, root: nat, path: seq<nat>, c: nat, step: nat, at: Chain)
    requires c < |b.coders|
  {
    var (r, after) := BuildInput(b, e, FirstIn(b.coders, c) + step, |path|, at);
    PlanInForce(plan, after) && (r.Ok? <==> BelowInputs(b, e, root, path, c)(step, step + 1))
  }

  ghost predicate InputsBuilt(b: Block, e: Setting, plan: set<nat>, root: nat, path: seq<nat>, c: nat)
    requires c < |b.coders|
  {
    forall step: nat, at: Chain :: step < b.coders[c].numIn && PlanInForce(plan, at) ==>
      InputBuilt(b, e, plan, root, path, c, step, at)
  }

  lemma BelowTwice(b: Block, e: Setting, root: nat, path: seq<nat>, c: nat, s: nat, t: nat)
    requires s < t
    ensures var below := BelowInputs(b, e, root, path, c);
      below(s, t) <==> below(s, s + 1) && below(s + 1, t)
  {
    assert ReachedBy(b, root, path, c, s, t) == ReachedBy(b, root, path, c, s, s + 1) + ReachedBy(b, root, path, c, s + 1, t);
  }

  lemma BelowNone(b: Block, e: Setting, root: nat, path: seq<nat>, c: nat, n: nat)
    ensures BelowInputs(b, e, root, path, c)(n, n)
  {
  }

  /** The inputs of a coder one after the other: all of them build, or the first that does not ends it. */
  lemma {:induction false} InputsBuild(b: Block, e: Setting, plan: set<nat>, root: nat, path: seq<nat>, c: nat, step: nat, chain: Chain)
    requires c < |b.coders| && step <= b.coders[c].numIn && PlanInForce(plan, chain)
    requires InputsBuilt(b, e, plan, root, path, c)
    ensures var n := b.coders[c].numIn;
      var (r, after) := BuildInputs(b, e, FirstIn(b.coders, c) + step, n - step, |path|, chain);
      r.Ok? <==> BelowInputs(b, e, root, path, c)(step, n)
    decreases b.coders[c].numIn - step
  {
    var n := b.coders[c].numIn;
    if step < n {
      assert InputBuilt(b, e, plan, root, path, c, step, chain);
      var (first, next) := BuildInput(b, e, FirstIn(b.coders, c) + step, |path|, chain);
      BelowTwice(b, e, root, path, c, step, n);
      if first.Ok? {
        InputsBuild(b, e, plan, root, path, c, step + 1, next);
      }
    } else {
      BelowNone(b, e, root, path, c, n);
    }
  }

  /** A coder builds when its inputs do and it can. */
  lemma OverInputsBuild(b: Block, e: Setting, plan: set<nat>, root: nat, path: seq<nat>, c: nat, chain: Chain)
    requires Ready(b, root, path, c) && GoodPlan(b, plan) && PlanInForce(plan, chain) && |path| <= |b.coders|
    requires InputsBuilt(b, e, plan, root, path, c)
    ensures BuildCoder(b, e, c, |path| - 1, chain).0.Ok? <==>
      Buildable(b, e, c) && BelowInputs(b, e, root, path, c)(0, b.coders[c].numIn)
  {
    var n := b.coders[c].numIn;
    if n == 1 {
      assert InputBuilt(b, e, plan, root, path, c, 0, chain);
      BuildInputKeeps(b, e, plan, root, path, c, 0, chain);
      var (input, next) := BuildInput(b, e, FirstIn(b.coders, c), |path|, chain);
      if input.Ok? {
        AddBuilds(b, e, plan, c, input.stage, next);
      }
    } else if b.coders[c].kind.Bcj2? && n == 4 {
      InputsBuild(b, e, plan, root, path, c, 0, chain);
      var (inputs, next) := BuildInputs(b, e, FirstIn(b.coders, c), 4, |path|, chain);
      assert inputs.Ok? <==> BelowInputs(b, e, root, path, c)(0, 4);
      assert Buildable(b, e, c);
    }
  }

  lemma {:induction false} CoderBuilds(b: Block, e: Setting, plan: set<nat>, root: nat, path: seq<nat>, c: nat, chain: Chain)
    requires Ready(b, root, path, c) && GoodPlan(b, plan) && PlanInForce(plan, chain)
    ensures BuildCoder(b, e, c, |path| - 1, chain).0.Ok? <==> AllBuildable(b, e, Reached(b, root, path))
    decreases |b.coders| + 1 - |path|, 1
  {
    WalkFits(b, root, path);
    forall step: nat, at: Chain | step < b.coders[c].numIn && PlanInForce(plan, at)
      ensures InputBuilt(b, e, plan, root, path, c, step, at)
    {
      InputBuilds(b, e, plan, root, path, c, step, at);
    }
    OverInputsBuild(b, e, plan, root, path, c, chain);
    ReachedSplits(b, root, path, c);
  }

  /** A pack stream is always opened; a bound input builds when the coder bound to it does. */
  lemma {:induction false} InputBuilds(b: Block, e: Setting, plan: set<nat>, root: nat, path: seq<nat>, c: nat, step: nat, chain: Chain)
    requires Ready(b, root, path, c) && GoodPlan(b, plan) && PlanInForce(plan, chain)
    requires step < b.coders[c].numIn && |path| <= |b.coders|
    ensures InputBuilt(b, e, plan, root, path, c, step, chain)
    decreases |b.coders| + 1 - |path|, 0
  {
    BuildInputKeeps(b, e, plan, root, path, c, step, chain);
    var stream := FirstIn(b.coders, c) + step;
    if stream in b.packed {
      PackedInput(b, e, stream, |path|, chain);
      NothingBelow(b, e, root, path, c, step);
    } else {
      var d := InputBelow(b, root, path, c, step);
      BoundIs(b, e, c, step, |path|, d, chain);
      var longer := path + [d];
      assert |longer| == |path| + 1 && longer[|path|] == d;
      CoderBuilds(b, e, plan, root, longer, d, chain);
      OneInputReached(b, root, path, c, step, d);
    }
  }

  lemma NothingBelow(b: Block, e: Setting, root: nat, path: seq<nat>, c: nat, step: nat)
    requires WellBound(b) && c < |b.coders| && FirstIn(b.coders, c) + step in b.packed
    ensures BelowInputs(b, e, root, path, c)(step, step + 1)
  {
    var k :| 0 <= k < |b.packed| && b.packed[k] == FirstIn(b.coders, c) + step;
    assert !BindsIn(b, b.packed[k]);
    assert forall d: nat :: !Feeds(b, c, step, d);
    assert forall x: nat :: !ViaInput(b, root, path, c, step, x);
  }

  /**
   A validated block builds exactly when each coder its output reaches can be built,
   whichever threads the plan asks for and are refused.
   */
  lemma BuildsExactlyWhen(b: Block, e: Setting, root: nat, plan: set<nat>)
    requires WellBound(b) && InRange(b) && Root(b, root) && Closed(b, plan)
    ensures BuildCoder(b, e, root, 0, Unbuilt(plan)).0.Ok? <==>
      forall c: nat :: ReachableFrom(b, root, c) ==> Buildable(b, e, c)
  {
    CoderBuilds(b, e, plan, root, [root], root, Unbuilt(plan));
    forall c: nat ensures c in Reached(b, root, [root]) <==> ReachableFrom(b, root, c) {
      if ReachableFrom(b, root, c) {
        var w :| Walk(b, root, w) && w[|w| - 1] == c;
        assert [root] <= w;
      }
    }
  }
}
