/**
 The order in which a chain of one-in, one-out coders is decoded: from the packed
 stream along the bind pairs to the final output. The iterator counts the coders
 it may still yield, a guard against bind pairs that form a cycle.
 */
module CoderOrder {
  import opened Common
  import opened CoderGraph
  import opened GraphValidation
  import opened BlockStorage
  import opened StackBuilder

  /** Where the output of `c` goes. */
  function After(b: Block, c: nat): Option<nat> {
    var r := FindOut(b.binds, c);
    if r < 0 then None else Some(b.binds[r].inIndex)
  }

  /** What an iterator at `current` still yields. */
  function Follow(b: Block, current: Option<nat>, remaining: nat): (s: seq<nat>)
    ensures |s| <= remaining && forall i :: 0 <= i < |s| ==> s[i] < |b.coders|
    decreases remaining
  {
    if remaining == 0 || current.None? || current.value >= |b.coders| then []
    else [current.value] + Follow(b, After(b, current.value), remaining - 1)
  }

  function Start(b: Block): Option<nat> {
    if b.packed == [] then None else Some(b.packed[0])
  }

  function Order(b: Block): seq<nat> { Follow(b, Start(b), |b.coders|) }

  class OrderedCoderIter {
    const block: Block
    var current: Option<nat>
    var remaining: nat

    constructor (b: Block)
      ensures block == b && Ahead() == Order(b)
    {
      block := b;
      current := if b.packed == [] then None else Some(b.packed[0]);
      remaining := |b.coders|;
    }

    function Ahead(): seq<nat>
      reads this
    {
      Follow(block, current, remaining)
    }

    method Next() returns (item: Option<nat>)
      modifies this
      ensures item.None? <==> old(Ahead()) == []
      ensures item.Some? ==> old(Ahead()) == [item.value] + Ahead()
    {
      if remaining == 0 {
        return None;
      }
      if current.None? {
        return None;
      }
      var i := current.value;
      current := After(block, i);
      if i < |block.coders| {
        remaining := remaining - 1;
        return Some(i);
      }
      return None;
    }
  }

  // ------------------------------------------------- the order of a validated chain

  ghost predicate OneInEach(b: Block) {
    forall c :: 0 <= c < |b.coders| ==> b.coders[c].numIn == 1
  }

  ghost predicate Chain1(b: Block) {
    Parsed(b) && WellBound(b) && OneInEach(b)
  }

  /** Each coder's output is bound to the input of the next. */
  ghost predicate Linked(b: Block, p: seq<nat>) {
    && p != [] && Start(b) == Some(p[0])
    && (forall i :: 0 <= i < |p| ==> p[i] < |b.coders|)
    && (forall i :: 0 <= i < |p| - 1 ==> After(b, p[i]) == Some(p[i + 1]))
  }

  lemma {:induction false} OneInCounts(b: Block, c: nat)
    requires OneInEach(b) && c <= |b.coders|
    ensures FirstIn(b.coders, c) == c
  {
    if c > 0 {
      OneInCounts(b, c - 1);
    }
  }

  lemma ChainInRange(b: Block, c: nat)
    requires Chain1(b)
    ensures TotalIn(b) == |b.coders| && |b.packed| == 1 && b.packed[0] < |b.coders|
    ensures After(b, c).Some? ==> After(b, c).value < |b.coders|
  {
    OneInCounts(b, |b.coders|);
  }

  lemma {:induction false} LinkedDistinct(b: Block, p: seq<nat>, i: nat, j: nat)
    requires Chain1(b) && Linked(b, p) && i < j < |p|
    ensures p[i] != p[j]
    decreases i
  {
    var s := FindOut(b.binds, p[j - 1]);
    assert After(b, p[j - 1]) == Some(p[j - 1 + 1]);
    if i == 0 {
      assert !BindsIn(b, b.packed[0]);
      assert BindsIn(b, p[j]);
    } else {
      assert After(b, p[i - 1]) == Some(p[i - 1 + 1]);
      LinkedDistinct(b, p, i - 1, j - 1);
      var r := FindOut(b.binds, p[i - 1]);
      assert r != s;
    }
  }

  lemma LinkedFits(b: Block, p: seq<nat>)
    requires Chain1(b) && Linked(b, p)
    ensures Distinct(p) && |p| <= |b.coders|
  {
    forall i, j | 0 <= i < j < |p| ensures p[i] != p[j] {
      LinkedDistinct(b, p, i, j);
    }
    DistinctFits(p, |b.coders|);
  }

  lemma LinkedSnoc(b: Block, p: seq<nat>, next: nat)
    requires Linked(b, p) && After(b, p[|p| - 1]) == Some(next) && next < |b.coders|
    ensures Linked(b, p + [next])
  {
    var longer := p + [next];
    forall i | 0 <= i < |longer| - 1 ensures After(b, longer[i]) == Some(longer[i + 1]) {
      if i < |p| - 1 {
        assert After(b, p[i]) == Some(p[i + 1]);
      }
    }
  }

  /** The coders walked so far, and those the iterator goes on to. */
  function WalkedOn(b: Block, walked: seq<nat>): seq<nat>
    requires walked != [] && |walked| <= |b.coders|
  {
    walked + Follow(b, After(b, walked[|walked| - 1]), |b.coders| - |walked|)
  }

  ghost predicate WholeChain(b: Block, p: seq<nat>) {
    Linked(b, p) && After(b, p[|p| - 1]).None?
  }

  lemma WalkedOnce(b: Block, walked: seq<nat>, next: nat)
    requires walked != [] && |walked| < |b.coders| && After(b, walked[|walked| - 1]) == Some(next) && next < |b.coders|
    ensures WalkedOn(b, walked) == WalkedOn(b, walked + [next])
  {
    var rest := Follow(b, After(b, next), |b.coders| - |walked| - 1);
    assert Follow(b, Some(next), |b.coders| - |walked|) == [next] + rest;
    assert (walked + [next]) + rest == walked + ([next] + rest);
  }

  /** From the coders walked so far on, the iterator goes to the end of the chain. */
  lemma {:induction false} FollowToTheEnd(b: Block, walked: seq<nat>)
    requires Chain1(b) && Linked(b, walked) && |walked| <= |b.coders|
    ensures WholeChain(b, WalkedOn(b, walked))
    decreases |b.coders| - |walked|
  {
    var last := walked[|walked| - 1];
    ChainInRange(b, last);
    var next := After(b, last);
    if next.None? {
      assert walked + [] == walked;
    } else {
      LinkedSnoc(b, walked, next.value);
      LinkedFits(b, walked + [next.value]);
      WalkedOnce(b, walked, next.value);
      FollowToTheEnd(b, walked + [next.value]);
    }
  }

  /**
   A validated chain is yielded from its packed stream along the bind pairs to
   the coder whose output is left unbound, each coder once; the count of coders
   left never ends it early.
   */
  lemma OrderIsTheChain(b: Block)
    requires Chain1(b)
    ensures Linked(b, Order(b)) && Distinct(Order(b))
    ensures var last := Order(b)[|Order(b)| - 1]; After(b, last).None? && Root(b, last)
    ensures Follow(b, Start(b), |b.coders| + 1) == Order(b)
  {
    ChainInRange(b, 0);
    var p := [b.packed[0]];
    FollowToTheEnd(b, p);
    assert Order(b) == p + Follow(b, After(b, p[0]), |b.coders| - 1);
    LinkedFits(b, Order(b));
    var last := Order(b)[|Order(b)| - 1];
    assert FindOut(b.binds, last) < 0;
    FollowNeedsNoMore(b, Start(b), |b.coders|);
  }

  /** A walk that ended because the chain did goes no further with more to spend. */
  lemma {:induction false} FollowNeedsNoMore(b: Block, current: Option<nat>, remaining: nat)
    requires var s := Follow(b, current, remaining); s != [] && After(b, s[|s| - 1]).None?
    ensures Follow(b, current, remaining + 1) == Follow(b, current, remaining)
    decreases remaining
  {
    var rest := Follow(b, After(b, current.value), remaining - 1);
    if rest != [] {
      assert Follow(b, current, remaining)[|rest|] == rest[|rest| - 1];
      FollowNeedsNoMore(b, After(b, current.value), remaining - 1);
    }
  }

  /** The block's unpack size is the size of the coder the order ends with, however the streams are stored. */
  lemma LastSizeIsUnpackSize(b: Block, f: Form, c: nat)
    requires Chain1(b) && BindsOf(f) == b.binds && TotalOutOf(f) == |b.coders|
    ensures Order(b) != [] && (Unbound(f, c) <==> c == Order(b)[|Order(b)| - 1])
  {
    OrderIsTheChain(b);
    var last := Order(b)[|Order(b)| - 1];
    if Unbound(f, c) {
      assert Root(b, c);
    }
  }

  // ------------------------------------------------- the loop and the recursion build the same

  /** The coders of `order` added one after another, from the packed stream up; the first failure ends it. */
  function AddAll(b: Block, e: Setting, order: seq<nat>, chain: StackBuilder.Chain): (Built, StackBuilder.Chain)
    requires forall i :: 0 <= i < |order| ==> order[i] < |b.coders|
  {
    if order == [] then (Ok(Leaf(0)), chain.(leaves := chain.leaves + [0]))
    else AddOver(b, e, order[|order| - 1], AddAll(b, e, order[..|order| - 1], chain))
  }

  /** A coder over what was built below it, unless that failed. */
  function AddOver(b: Block, e: Setting, c: nat, below: (Built, StackBuilder.Chain)): (Built, StackBuilder.Chain)
    requires c < |b.coders|
  {
    if below.0.Err? then below else AddCoder(b, e, c, below.0.stage, below.1)
  }

  lemma CoderOverPack(b: Block, e: Setting, c: nat, depth: nat, chain: StackBuilder.Chain)
    requires c < |b.coders| && depth < |b.coders| && b.coders[c].numIn == 1 && FirstIn(b.coders, c) == c
    requires !e.owned && Position(b.packed, c) == 0
    ensures BuildCoder(b, e, c, depth, chain) == AddCoder(b, e, c, Leaf(0), chain.(leaves := chain.leaves + [0]))
  {
  }

  lemma CoderOverCoder(b: Block, e: Setting, c: nat, d: nat, depth: nat, chain: StackBuilder.Chain)
    requires c < |b.coders| && depth < |b.coders| && b.coders[c].numIn == 1 && FirstIn(b.coders, c) == c
    requires c !in b.packed && After(b, d) == Some(c) && BindsDistinct(b)
    ensures BuildCoder(b, e, c, depth, chain) == AddOver(b, e, c, BuildCoder(b, e, d, depth + 1, chain))
  {
    var r := FindOut(b.binds, d);
    assert FindIn(b.binds, c) == r;
  }

  lemma NotPacked(b: Block, c: nat)
    requires Chain1(b) && BindsIn(b, c)
    ensures c !in b.packed
  {
  }

  lemma {:induction false} RecursionFollowsOrder(b: Block, e: Setting, k: nat, depth: nat, chain: StackBuilder.Chain)
    requires Chain1(b) && !e.owned && Linked(b, Order(b)) && k < |Order(b)| && depth + k < |b.coders|
    ensures BuildCoder(b, e, Order(b)[k], depth, chain) == AddAll(b, e, Order(b)[..k + 1], chain)
  {
    var c := Order(b)[k];
    assert Order(b)[..k + 1][..k] == Order(b)[..k];
    if k == 0 {
      OneInCounts(b, c);
      CoderOverPack(b, e, c, depth, chain);
    } else {
      LinkBelow(b, e, k, depth, chain);
      RecursionFollowsOrder(b, e, k - 1, depth + 1, chain);
    }
  }

  /** A coder past the first is built over the one before it. */
  lemma LinkBelow(b: Block, e: Setting, k: nat, depth: nat, chain: StackBuilder.Chain)
    requires Chain1(b) && !e.owned && Linked(b, Order(b)) && 0 < k < |Order(b)| && depth + k < |b.coders|
    ensures var c, d := Order(b)[k], Order(b)[k - 1];
      BuildCoder(b, e, c, depth, chain) == AddOver(b, e, c, BuildCoder(b, e, d, depth + 1, chain))
  {
    var c, d := Order(b)[k], Order(b)[k - 1];
    OneInCounts(b, c);
    assert After(b, d) == Some(Order(b)[k - 1 + 1]);
    NotPacked(b, c);
    CoderOverCoder(b, e, c, d, depth, chain);
  }

  /** The loop over a chain builds what the recursion from its final output would, whatever is refused. */
  lemma LoopBuildsTheGraph(b: Block, e: Setting, top: nat, chain: StackBuilder.Chain)
    requires Chain1(b) && !e.owned && Root(b, top)
    ensures AddAll(b, e, Order(b), chain) == BuildCoder(b, e, top, 0, chain)
  {
    OrderIsTheChain(b);
    LinkedFits(b, Order(b));
    var n := |Order(b)|;
    assert Order(b)[..n] == Order(b);
    RecursionFollowsOrder(b, e, n - 1, 0, chain);
  }
}
