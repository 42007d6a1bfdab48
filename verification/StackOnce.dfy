/** A block that builds has each coder its output reaches built once, and each of their pack streams opened once. */
module StackOnce {
  import opened CoderGraph
  import opened GraphValidation
  import opened GraphTree
  import opened OffloadPlan
  import opened StackBuilder

  /** `x` is reached from the root along a walk that starts with `path`. */
  ghost predicate Via(b: Block, root: nat, path: seq<nat>, x: nat) {
    exists w :: Walk(b, root, w) && path <= w && w[|w| - 1] == x
  }

  ghost predicate ViaInput(b: Block, root: nat, path: seq<nat>, c: nat, step: nat, x: nat) {
    exists d: nat :: Feeds(b, c, step, d) && Via(b, root, path + [d], x)
  }

  ghost predicate ViaInputs(b: Block, root: nat, path: seq<nat>, c: nat, from: nat, to: nat, x: nat) {
    exists step: nat :: from <= step < to && ViaInput(b, root, path, c, step, x)
  }

  function Added(before: seq<nat>, after: seq<nat>): seq<nat> {
    if |before| <= |after| then after[|before|..] else []
  }

  ghost predicate Owner(b: Block, coders: seq<nat>, pack: nat) {
    pack < |b.packed| && exists x :: x in coders && Owns(b, x, b.packed[pack])
  }

  /** What was built and opened on top of `before`: each once, and the coders are those of `reached`. */
  ghost predicate Grown(before: Chain, after: Chain, reached: iset<nat>) {
    && before.built <= after.built && before.leaves <= after.leaves
    && Distinct(Added(before.built, after.built))
    && (forall x: nat :: x in Added(before.built, after.built) <==> x in reached)
    && Distinct(Added(before.leaves, after.leaves))
  }

  /** Every leaf opened feeds a coder built, or one of the inputs `from..to` of the coder in hand. */
  ghost predicate LeavesOf(b: Block, before: Chain, after: Chain, c: nat, from: nat, to: nat)
    requires c < |b.coders|
  {
    forall l :: l in Added(before.leaves, after.leaves) ==>
      l < |b.packed|
      && (Owner(b, Added(before.built, after.built), l)
          || FirstIn(b.coders, c) + from <= b.packed[l] < FirstIn(b.coders, c) + to)
  }

  /** Conversely, every pack stream that feeds one of those was opened. */
  ghost predicate OpensAll(b: Block, before: Chain, after: Chain, c: nat, from: nat, to: nat)
    requires c < |b.coders|
  {
    forall l: nat :: l < |b.packed| && Wanted(b, Added(before.built, after.built), c, from, to, l) ==>
      l in Added(before.leaves, after.leaves)
  }

  ghost predicate Wanted(b: Block, built: seq<nat>, c: nat, from: nat, to: nat, l: nat)
    requires c < |b.coders| && l < |b.packed|
  {
    Owner(b, built, l) || FirstIn(b.coders, c) + from <= b.packed[l] < FirstIn(b.coders, c) + to
  }

  lemma ViaIsWalk(b: Block, root: nat, path: seq<nat>, x: nat, y: nat, other: seq<nat>)
    requires BindsDistinct(b) && Root(b, root)
    requires Via(b, root, path, x) && Via(b, root, other, x)
    ensures path <= other || other <= path
  {
    var w :| Walk(b, root, w) && path <= w && w[|w| - 1] == x;
    var v :| Walk(b, root, v) && other <= v && v[|v| - 1] == x;
    OneWalkToEachCoder(b, root, w, v);
  }

  /** Two different inputs of a coder lead to different coders. */
  lemma InputsDisjoint(b: Block, root: nat, path: seq<nat>, c: nat, s: nat, t: nat, x: nat)
    requires BindsDistinct(b) && Root(b, root)
    requires ViaInput(b, root, path, c, s, x) && ViaInput(b, root, path, c, t, x)
    ensures s == t
  {
    var d: nat :| Feeds(b, c, s, d) && Via(b, root, path + [d], x);
    var e: nat :| Feeds(b, c, t, e) && Via(b, root, path + [e], x);
    ViaIsWalk(b, root, path + [d], x, x, path + [e]);
    assert (path + [d])[|path|] == (path + [e])[|path|];
    OneParent(b, c, s, c, t, d);
  }

  /** The coder in hand is not among those its inputs lead to. */
  lemma NotBelowItself(b: Block, root: nat, path: seq<nat>, c: nat, s: nat)
    requires BindsDistinct(b) && Root(b, root) && Walk(b, root, path) && path[|path| - 1] == c
    ensures !ViaInput(b, root, path, c, s, c)
  {
    if ViaInput(b, root, path, c, s, c) {
      var d: nat :| Feeds(b, c, s, d) && Via(b, root, path + [d], c);
      var w :| Walk(b, root, w) && path + [d] <= w && w[|w| - 1] == c;
      OneWalkToEachCoder(b, root, path, w);
    }
  }

  lemma ViaDown(b: Block, root: nat, path: seq<nat>, c: nat, x: nat)
    requires Walk(b, root, path) && path[|path| - 1] == c && BindsDistinct(b) && Root(b, root)
    requires Via(b, root, path, x) && x != c
    ensures ViaInputs(b, root, path, c, 0, b.coders[c].numIn, x)
  {
    var w :| Walk(b, root, w) && path <= w && w[|w| - 1] == x;
    var n := |path|;
    assert w[n - 1] == c && |w| > n;
    assert Edge(b, w[n - 1], w[n]);
    var step: nat :| Feeds(b, w[n - 1], step, w[n]);
    assert path + [w[n]] <= w;
    assert Via(b, root, path + [w[n]], x);
    assert ViaInput(b, root, path, c, step, x);
  }

  lemma ViaUp(b: Block, root: nat, path: seq<nat>, c: nat, x: nat)
    requires c < |b.coders| && ViaInputs(b, root, path, c, 0, b.coders[c].numIn, x)
    ensures Via(b, root, path, x)
  {
    var step: nat :| 0 <= step < b.coders[c].numIn && ViaInput(b, root, path, c, step, x);
    var d: nat :| Feeds(b, c, step, d) && Via(b, root, path + [d], x);
    var w :| Walk(b, root, w) && path + [d] <= w && w[|w| - 1] == x;
    assert path <= w;
  }

  ghost function Reached(b: Block, root: nat, path: seq<nat>): iset<nat> {
    iset x: nat | Via(b, root, path, x)
  }

  ghost function ReachedBy(b: Block, root: nat, path: seq<nat>, c: nat, from: nat, to: nat): iset<nat> {
    iset x: nat | ViaInputs(b, root, path, c, from, to, x)
  }

  lemma AddedThen(x: seq<nat>, y: seq<nat>, z: seq<nat>)
    requires x <= y <= z
    ensures x <= z && Added(x, z) == Added(x, y) + Added(y, z)
  {
  }

  lemma DistinctJoin(x: seq<nat>, y: seq<nat>)
    requires Distinct(x) && Distinct(y) && forall i, j :: 0 <= i < |x| && 0 <= j < |y| ==> x[i] != y[j]
    ensures Distinct(x + y)
  {
  }

  lemma NoneIsHand(b: Block, root: nat, path: seq<nat>, c: nat, from: nat, to: nat)
    requires BindsDistinct(b) && Root(b, root) && Walk(b, root, path) && path[|path| - 1] == c
    ensures c !in ReachedBy(b, root, path, c, from, to)
  {
    forall s: nat | from <= s < to ensures !ViaInput(b, root, path, c, s, c) {
      NotBelowItself(b, root, path, c, s);
    }
  }

  lemma Apart(b: Block, root: nat, path: seq<nat>, c: nat, s: nat, to: nat, x: nat)
    requires BindsDistinct(b) && Root(b, root)
    requires x in ReachedBy(b, root, path, c, s, s + 1)
    ensures x !in ReachedBy(b, root, path, c, s + 1, to)
  {
    forall t: nat | s + 1 <= t < to ensures !ViaInput(b, root, path, c, t, x) {
      if ViaInput(b, root, path, c, t, x) {
        InputsDisjoint(b, root, path, c, s, t, x);
      }
    }
  }

  /** The leaves of one input and those of the inputs after it are different pack streams. */
  lemma LeavesDisjoint(b: Block, root: nat, path: seq<nat>, c: nat, s: nat, to: nat, p: Chain, q: Chain, r: Chain, l: nat)
    requires BindsDistinct(b) && Root(b, root) && Walk(b, root, path) && path[|path| - 1] == c
    requires s + 1 <= to <= b.coders[c].numIn
    requires Grown(p, q, ReachedBy(b, root, path, c, s, s + 1)) && LeavesOf(b, p, q, c, s, s + 1)
    requires Grown(q, r, ReachedBy(b, root, path, c, s + 1, to)) && LeavesOf(b, q, r, c, s + 1, to)
    requires l in Added(p.leaves, q.leaves)
    ensures l !in Added(q.leaves, r.leaves)
  {
    var stream := b.packed[l];
    NoneIsHand(b, root, path, c, s, s + 1);
    NoneIsHand(b, root, path, c, s + 1, to);
    if x :| x in Added(p.built, q.built) && Owns(b, x, stream) {
      Apart(b, root, path, c, s, to, x);
      NotInHand(b, c, x, stream);
      forall y | y in Added(q.built, r.built) ensures !Owns(b, y, stream) {
        if Owns(b, y, stream) {
          OneOwner(b, x, y, stream);
        }
      }
    } else {
      assert Owns(b, c, stream);
      forall y | y in Added(q.built, r.built) ensures !Owns(b, y, stream) {
        NotInHand(b, c, y, stream);
      }
    }
  }

  lemma NotInHand(b: Block, c: nat, x: nat, stream: nat)
    requires x != c
    ensures !(Owns(b, x, stream) && Owns(b, c, stream))
  {
    if Owns(b, x, stream) && Owns(b, c, stream) {
      OneOwner(b, x, c, stream);
    }
  }

  // ------------------------------------------------- the recursion

  ghost predicate Ready(b: Block, root: nat, path: seq<nat>, c: nat) {
    WellBound(b) && InRange(b) && Root(b, root) && Walk(b, root, path) && path[|path| - 1] == c
  }

  lemma AddGrows(b: Block, e: Setting, c: nat, input: Stage, before: Chain, chain: Chain, below: iset<nat>, all: iset<nat>)
    requires c < |b.coders| && Grown(before, chain, below) && LeavesOf(b, before, chain, c, 0, b.coders[c].numIn)
    requires OpensAll(b, before, chain, c, 0, b.coders[c].numIn)
    requires c !in below && forall x: nat :: x in all <==> x == c || x in below
    ensures var (r, after) := AddCoder(b, e, c, input, chain);
      r.Ok? ==> Grown(before, after, all) && LeavesOf(b, before, after, c, 0, 0) && OpensAll(b, before, after, c, 0, 0)
  {
    var (r, after) := AddCoder(b, e, c, input, chain);
    if r.Ok? {
      CoderAdded(b, c, before, chain, after, below, all);
    }
  }

  lemma CoderAdded(b: Block, c: nat, before: Chain, chain: Chain, after: Chain, below: iset<nat>, all: iset<nat>)
    requires c < |b.coders| && Grown(before, chain, below) && LeavesOf(b, before, chain, c, 0, b.coders[c].numIn)
    requires OpensAll(b, before, chain, c, 0, b.coders[c].numIn)
    requires c !in below && forall x: nat :: x in all <==> x == c || x in below
    requires after.built == chain.built + [c] && after.leaves == chain.leaves
    ensures Grown(before, after, all) && LeavesOf(b, before, after, c, 0, 0) && OpensAll(b, before, after, c, 0, 0)
  {
    var was, now := Added(before.built, chain.built), Added(before.built, after.built);
    assert now == was + [c];
    DistinctJoin(was, [c]);
    forall l | l in Added(before.leaves, after.leaves) ensures Owner(b, now, l) {
      if Owner(b, was, l) {
        var x :| x in was && Owns(b, x, b.packed[l]);
        assert x in now;
      } else {
        assert c in now && Owns(b, c, b.packed[l]);
      }
    }
    forall l: nat | l < |b.packed| && Wanted(b, now, c, 0, 0, l) ensures l in Added(before.leaves, after.leaves) {
      var x :| x in now && Owns(b, x, b.packed[l]);
      assert x in was || x == c;
      assert Wanted(b, was, c, 0, b.coders[c].numIn, l);
    }
  }

  /** A step of the recursion, when it succeeds, has built what is reached, each coder once, and opened leaves of its own. */
  ghost predicate Once(b: Block, before: Chain, r: Built, after: Chain, reached: iset<nat>, c: nat, from: nat, to: nat)
    requires c < |b.coders|
  {
    r.Ok? ==> Grown(before, after, reached) && LeavesOf(b, before, after, c, from, to) && OpensAll(b, before, after, c, from, to)
  }

  lemma {:induction false} CoderOnce(b: Block, e: Setting, root: nat, path: seq<nat>, c: nat, chain: Chain)
    requires Ready(b, root, path, c)
    ensures var (r, after) := BuildCoder(b, e, c, |path| - 1, chain); Once(b, chain, r, after, Reached(b, root, path), c, 0, 0)
    decreases |b.coders| + 1 - |path|, 1
  {
    WalkFits(b, root, path);
    var n := b.coders[c].numIn;
    var below, all := ReachedBy(b, root, path, c, 0, n), Reached(b, root, path);
    ReachedSplits(b, root, path, c);
    forall step: nat, at: Chain | step < n ensures InputIsOnce(b, e, root, path, c, step, at) {
      InputOnce(b, e, root, path, c, step, at);
    }
    if n == 1 {
      assert InputIsOnce(b, e, root, path, c, 0, chain);
      var (input, next) := BuildInput(b, e, FirstIn(b.coders, c), |path|, chain);
      if input.Ok? {
        AddGrows(b, e, c, input.stage, chain, next, below, all);
      }
    } else if b.coders[c].kind.Bcj2? && n == 4 {
      OnceEach(b, e, root, path, c);
      OnceJoin(b, root, path, c);
      InputsOnce(b, e, root, path, c, chain);
      var (inputs, next) := BuildInputs(b, e, FirstIn(b.coders, c), 4, |path|, chain);
      if inputs.Ok? {
        CoderAdded(b, c, chain, next, next.(built := next.built + [c]), below, all);
      }
    }
  }

  lemma ReachedSplits(b: Block, root: nat, path: seq<nat>, c: nat)
    requires Ready(b, root, path, c)
    ensures var below, all := ReachedBy(b, root, path, c, 0, b.coders[c].numIn), Reached(b, root, path);
      c !in below && forall x: nat :: x in all <==> x == c || x in below
  {
    var below, all := ReachedBy(b, root, path, c, 0, b.coders[c].numIn), Reached(b, root, path);
    NoneIsHand(b, root, path, c, 0, b.coders[c].numIn);
    assert Via(b, root, path, c);
    forall x: nat ensures x in all <==> x == c || x in below {
      if x in all && x != c {
        ViaDown(b, root, path, c, x);
      }
      if x in below {
        ViaUp(b, root, path, c, x);
      }
    }
  }

  /** One input: a pack stream opened, or everything its coder leads to built. */
  lemma {:induction false} InputOnce(b: Block, e: Setting, root: nat, path: seq<nat>, c: nat, step: nat, chain: Chain)
    requires Ready(b, root, path, c) && step < b.coders[c].numIn && |path| <= |b.coders|
    ensures InputIsOnce(b, e, root, path, c, step, chain)
    decreases |b.coders| + 1 - |path|, 0
  {
    var stream := FirstIn(b.coders, c) + step;
    var reached := ReachedBy(b, root, path, c, step, step + 1);
    if stream in b.packed {
      PackedInput(b, e, stream, |path|, chain);
      PackGrows(b, root, path, c, step, chain, Position(b.packed, stream));
    } else {
      var d := InputBelow(b, root, path, c, step);
      BoundIs(b, e, c, step, |path|, d, chain);
      CoderOnce(b, e, root, path + [d], d, chain);
      OneInputReached(b, root, path, c, step, d);
      BoundOpens(b, e, c, step, |path|, d, chain);
    }
  }

  /** A bound input has no pack stream of its own. */
  lemma BoundOpens(b: Block, e: Setting, c: nat, step: nat, depth: nat, d: nat, chain: Chain)
    requires c < |b.coders| && d < |b.coders| && FirstIn(b.coders, c) + step !in b.packed
    ensures var (r, after) := BuildCoder(b, e, d, depth, chain);
      OpensAll(b, chain, after, d, 0, 0) ==> OpensAll(b, chain, after, c, step, step + 1)
  {
    var (r, after) := BuildCoder(b, e, d, depth, chain);
    forall l: nat | l < |b.packed| && OpensAll(b, chain, after, d, 0, 0) && Wanted(b, Added(chain.built, after.built), c, step, step + 1, l)
      ensures l in Added(chain.leaves, after.leaves)
    {
      assert b.packed[l] in b.packed;
      assert Wanted(b, Added(chain.built, after.built), d, 0, 0, l);
    }
  }

  lemma PackGrows(b: Block, root: nat, path: seq<nat>, c: nat, step: nat, chain: Chain, pack: nat)
    requires Ready(b, root, path, c) && step < b.coders[c].numIn
    requires pack < |b.packed| && b.packed[pack] == FirstIn(b.coders, c) + step
    ensures var after := chain.(leaves := chain.leaves + [pack]);
      Grown(chain, after, ReachedBy(b, root, path, c, step, step + 1)) && LeavesOf(b, chain, after, c, step, step + 1)
      && OpensAll(b, chain, after, c, step, step + 1)
  {
    var after := chain.(leaves := chain.leaves + [pack]);
    assert Added(chain.leaves, after.leaves) == [pack] && Added(chain.built, after.built) == [];
    assert !BindsIn(b, b.packed[pack]);
    assert forall d: nat :: !Feeds(b, c, step, d);
    assert forall x: nat :: !ViaInput(b, root, path, c, step, x);
  }

  lemma OneInputReached(b: Block, root: nat, path: seq<nat>, c: nat, step: nat, d: nat)
    requires Feeds(b, c, step, d)
    ensures ReachedBy(b, root, path, c, step, step + 1) == Reached(b, root, path + [d])
  {
    forall x: nat ensures x in ReachedBy(b, root, path, c, step, step + 1) <==> x in Reached(b, root, path + [d]) {
      if x in Reached(b, root, path + [d]) {
        assert ViaInput(b, root, path, c, step, x);
      }
    }
  }

  ghost predicate InputIsOnce(b: Block, e: Setting, root: nat, path: seq<nat>, c: nat, step: nat, chain: Chain)
    requires c < |b.coders|
  {
    var (r, after) := BuildInput(b, e, FirstIn(b.coders, c) + step, |path|, chain);
    Once(b, chain, r, after, ReachedBy(b, root, path, c, step, step + 1), c, step, step + 1)
  }

  // ------------------------------------------------- the inputs of a coder, one after the other

  /** Something that can be said of building the inputs `from..to` on top of a chain. */
  type Claim = (nat, nat, Chain, Built, Chain) -> bool

  ghost predicate InputHolds(b: Block, e: Setting, c: nat, depth: nat, holds: Claim, step: nat, at: Chain)
    requires c < |b.coders|
  {
    var (r, after) := BuildInput(b, e, FirstIn(b.coders, c) + step, depth, at);
    holds(step, step + 1, at, r, after)
  }

  /** One input, and those after it: what holds of each holds of all, up to the first that fails. */
  predicate JoinHolds(n: nat, holds: Claim, s: nat, p: Chain, first: Built, q: Chain, rest: Built, r: Chain) {
    s < n && holds(s, s + 1, p, first, q) ==>
      if first.Err? then holds(s, n, p, first, q) else holds(s + 1, n, q, rest, r) ==> holds(s, n, p, rest, r)
  }

  ghost predicate EachHolds(b: Block, e: Setting, c: nat, depth: nat, holds: Claim)
    requires c < |b.coders|
  {
    forall s: nat, at: Chain :: s < b.coders[c].numIn ==> InputHolds(b, e, c, depth, holds, s, at)
  }

  /** It holds of no inputs, and of some followed by the rest. */
  ghost predicate Joins(n: nat, holds: Claim) {
    && (forall at, r :: holds(n, n, at, r, at))
    && (forall s, p, first, q, rest, r :: JoinHolds(n, holds, s, p, first, q, rest, r))
  }

  lemma {:induction false} InputsHold(b: Block, e: Setting, c: nat, depth: nat, holds: Claim, step: nat, chain: Chain)
    requires c < |b.coders| && step <= b.coders[c].numIn
    requires EachHolds(b, e, c, depth, holds) && Joins(b.coders[c].numIn, holds)
    ensures var n := b.coders[c].numIn;
      var (r, after) := BuildInputs(b, e, FirstIn(b.coders, c) + step, n - step, depth, chain);
      holds(step, n, chain, r, after)
    decreases b.coders[c].numIn - step
  {
    var n := b.coders[c].numIn;
    if step < n {
      assert InputHolds(b, e, c, depth, holds, step, chain);
      var (first, next) := BuildInput(b, e, FirstIn(b.coders, c) + step, depth, chain);
      InputsHold(b, e, c, depth, holds, step + 1, next);
      var (rest, after) := BuildInputs(b, e, FirstIn(b.coders, c) + (step + 1), n - (step + 1), depth, next);
      assert JoinHolds(n, holds, step, chain, first, next, rest, after);
    }
  }

  ghost function OnceClaim(b: Block, root: nat, path: seq<nat>, c: nat): Claim
    requires c < |b.coders|
  {
    (s: nat, t: nat, p: Chain, r: Built, q: Chain) => Once(b, p, r, q, ReachedBy(b, root, path, c, s, t), c, s, t)
  }

  /** One input and those after it, each built once, are all built once. */
  lemma OnceJoins(b: Block, root: nat, path: seq<nat>, c: nat, s: nat, p: Chain, first: Built, q: Chain, rest: Built, r: Chain)
    requires Ready(b, root, path, c)
    ensures JoinHolds(b.coders[c].numIn, OnceClaim(b, root, path, c), s, p, first, q, rest, r)
  {
    var n := b.coders[c].numIn;
    var holds := OnceClaim(b, root, path, c);
    if s < n && rest.Ok? && first.Ok? && holds(s, s + 1, p, first, q) && holds(s + 1, n, q, rest, r) {
      GrownJoin(b, root, path, c, s, n, p, q, r);
      OpensJoin(b, c, s, n, p, q, r);
    }
  }

  lemma OnceJoin(b: Block, root: nat, path: seq<nat>, c: nat)
    requires Ready(b, root, path, c)
    ensures Joins(b.coders[c].numIn, OnceClaim(b, root, path, c))
  {
    var n := b.coders[c].numIn;
    var holds := OnceClaim(b, root, path, c);
    forall s, p, first, q, rest, r ensures JoinHolds(n, holds, s, p, first, q, rest, r) {
      OnceJoins(b, root, path, c, s, p, first, q, rest, r);
    }
    forall at, r ensures holds(n, n, at, r, at) {
      NothingGrown(b, root, path, c, n, at);
    }
  }

  lemma OnceEach(b: Block, e: Setting, root: nat, path: seq<nat>, c: nat)
    requires c < |b.coders|
    requires forall step: nat, at: Chain :: step < b.coders[c].numIn ==> InputIsOnce(b, e, root, path, c, step, at)
    ensures EachHolds(b, e, c, |path|, OnceClaim(b, root, path, c))
  {
    forall s: nat, at: Chain | s < b.coders[c].numIn
      ensures InputHolds(b, e, c, |path|, OnceClaim(b, root, path, c), s, at)
    {
      assert InputIsOnce(b, e, root, path, c, s, at);
    }
  }

  lemma InputsOnce(b: Block, e: Setting, root: nat, path: seq<nat>, c: nat, chain: Chain)
    requires c < |b.coders| && Joins(b.coders[c].numIn, OnceClaim(b, root, path, c))
    requires EachHolds(b, e, c, |path|, OnceClaim(b, root, path, c))
    ensures var n := b.coders[c].numIn;
      var (r, after) := BuildInputs(b, e, FirstIn(b.coders, c), n, |path|, chain);
      Once(b, chain, r, after, ReachedBy(b, root, path, c, 0, n), c, 0, n)
  {
    InputsHold(b, e, c, |path|, OnceClaim(b, root, path, c), 0, chain);
  }

  lemma NothingGrown(b: Block, root: nat, path: seq<nat>, c: nat, n: nat, chain: Chain)
    requires c < |b.coders|
    ensures Grown(chain, chain, ReachedBy(b, root, path, c, n, n)) && LeavesOf(b, chain, chain, c, n, n)
    ensures OpensAll(b, chain, chain, c, n, n)
  {
  }

  lemma GrownJoin(b: Block, root: nat, path: seq<nat>, c: nat, s: nat, to: nat, p: Chain, q: Chain, r: Chain)
    requires Ready(b, root, path, c) && s + 1 <= to <= b.coders[c].numIn
    requires Grown(p, q, ReachedBy(b, root, path, c, s, s + 1)) && LeavesOf(b, p, q, c, s, s + 1)
    requires Grown(q, r, ReachedBy(b, root, path, c, s + 1, to)) && LeavesOf(b, q, r, c, s + 1, to)
    ensures Grown(p, r, ReachedBy(b, root, path, c, s, to)) && LeavesOf(b, p, r, c, s, to)
  {
    var x, y := Added(p.built, q.built), Added(q.built, r.built);
    var l, m := Added(p.leaves, q.leaves), Added(q.leaves, r.leaves);
    AddedThen(p.built, q.built, r.built);
    AddedThen(p.leaves, q.leaves, r.leaves);
    forall i, j | 0 <= i < |x| && 0 <= j < |y| ensures x[i] != y[j] {
      assert x[i] in x && y[j] in y;
      Apart(b, root, path, c, s, to, x[i]);
    }
    DistinctJoin(x, y);
    forall i, j | 0 <= i < |l| && 0 <= j < |m| ensures l[i] != m[j] {
      assert l[i] in l && m[j] in m;
      LeavesDisjoint(b, root, path, c, s, to, p, q, r, l[i]);
    }
    DistinctJoin(l, m);
    OwnersJoin(b, x, y);
  }

  lemma OpensJoin(b: Block, c: nat, s: nat, to: nat, p: Chain, q: Chain, r: Chain)
    requires c < |b.coders| && s + 1 <= to && p.built <= q.built <= r.built && p.leaves <= q.leaves <= r.leaves
    requires OpensAll(b, p, q, c, s, s + 1) && OpensAll(b, q, r, c, s + 1, to)
    ensures OpensAll(b, p, r, c, s, to)
  {
    var x, y := Added(p.built, q.built), Added(q.built, r.built);
    AddedThen(p.built, q.built, r.built);
    AddedThen(p.leaves, q.leaves, r.leaves);
    forall l: nat | l < |b.packed| && Wanted(b, x + y, c, s, to, l) ensures l in Added(p.leaves, r.leaves) {
      if Owner(b, x + y, l) {
        var o :| o in x + y && Owns(b, o, b.packed[l]);
        assert o in x || o in y;
      }
      assert Wanted(b, x, c, s, s + 1, l) || Wanted(b, y, c, s + 1, to, l);
    }
  }

  lemma OwnersJoin(b: Block, x: seq<nat>, y: seq<nat>)
    ensures forall l: nat :: Owner(b, x, l) || Owner(b, y, l) ==> Owner(b, x + y, l)
  {
    forall l: nat | Owner(b, x, l) || Owner(b, y, l) ensures Owner(b, x + y, l) {
      var o :| (o in x || o in y) && Owns(b, o, b.packed[l]);
      assert o in x + y;
    }
  }

  /**
   When a validated block builds, the coders built are those its output reaches,
   each once, and the pack streams opened are those that feed them, each once.
   */
  lemma BuiltOnce(b: Block, e: Setting, root: nat, offload: set<nat>)
    requires WellBound(b) && InRange(b) && Root(b, root)
    ensures var (r, after) := BuildCoder(b, e, root, 0, Unbuilt(offload));
      r.Ok? ==>
        && Distinct(after.built) && (forall c: nat :: c in after.built <==> ReachableFrom(b, root, c))
        && Distinct(after.leaves)
        && (forall l: nat :: l in after.leaves <==> Owner(b, after.built, l))
  {
    var start := Unbuilt(offload);
    CoderOnce(b, e, root, [root], root, start);
    var (r, after) := BuildCoder(b, e, root, 0, start);
    if r.Ok? {
      assert Added([], after.built) == after.built && Added([], after.leaves) == after.leaves;
      forall l: nat | Owner(b, after.built, l) ensures l in after.leaves {
        assert Wanted(b, after.built, root, 0, 0, l);
      }
      forall c: nat ensures c in Reached(b, root, [root]) <==> ReachableFrom(b, root, c) {
        if ReachableFrom(b, root, c) {
          var w :| Walk(b, root, w) && w[|w| - 1] == c;
          assert [root] <= w;
        }
      }
    }
  }

  /** With every request granted, exactly the planned coders its output reaches are on threads, each once. */
  lemma AllGranted(b: Block, e: Setting, root: nat, plan: set<nat>)
    requires WellBound(b) && InRange(b) && Root(b, root) && Closed(b, plan) && e.refused == {}
    ensures var (r, after) := BuildCoder(b, e, root, 0, Unbuilt(plan));
      r.Ok? ==>
        && after.offload == plan && Distinct(after.threads)
        && forall c: nat :: c in after.threads <==> c in plan && ReachableFrom(b, root, c)
  {
    BuiltOnce(b, e, root, plan);
    ThreadsAsGranted(b, e, plan, root);
    PlannedInIs(BuildCoder(b, e, root, 0, Unbuilt(plan)).1.built, plan);
  }
}
