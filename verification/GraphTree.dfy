/**
 What acceptance means: the coders reachable from the one unbound output form a
 tree. A coder has one output, a bound output feeds one input, and the final
 output feeds none, so a walk against the flow can never come back to a coder;
 a cycle among coders that the output does not reach is never walked.
 */
module GraphTree {
  import opened CoderGraph
  import opened GraphValidation

  lemma OneParent(b: Block, c: nat, s: nat, d: nat, t: nat, child: nat)
    requires BindsDistinct(b) && Feeds(b, c, s, child) && Feeds(b, d, t, child)
    ensures c == d && s == t
  {
    var i := FindIn(b.binds, FirstIn(b.coders, c) + s);
    var j := FindIn(b.binds, FirstIn(b.coders, d) + t);
    assert i == j;
    OneOwner(b, c, d, FirstIn(b.coders, c) + s);
  }

  lemma RootHasNoParent(b: Block, c: nat, root: nat)
    requires Root(b, root)
    ensures !Edge(b, c, root)
  {
  }

  lemma {:induction false} WalksFromRootNeverRepeat(b: Block, root: nat, path: seq<nat>, i: nat, j: nat)
    requires BindsDistinct(b) && Root(b, root) && Walk(b, root, path) && i < j < |path|
    ensures path[i] != path[j]
    decreases i
  {
    assert Edge(b, path[j - 1], path[j]);
    if i == 0 {
      RootHasNoParent(b, path[j - 1], root);
    } else if path[i] == path[j] {
      assert Edge(b, path[i - 1], path[i]);
      var s: nat :| Feeds(b, path[i - 1], s, path[i]);
      var t: nat :| Feeds(b, path[j - 1], t, path[j]);
      OneParent(b, path[i - 1], s, path[j - 1], t, path[i]);
      WalksFromRootNeverRepeat(b, root, path, i - 1, j - 1);
    }
  }

  /** The cycle check never fires: everything it could find, the duplicate check has refused. */
  lemma WellBoundHasNoCycle(b: Block, root: nat)
    requires BindsDistinct(b) && Root(b, root)
    ensures NoWalkRepeats(b, root)
  {
    forall path | Walk(b, root, path) ensures Distinct(path) {
      forall i, j | 0 <= i < j < |path| ensures path[i] != path[j] {
        WalksFromRootNeverRepeat(b, root, path, i, j);
      }
    }
  }

  // ------------------------------------------------- counting, for a block as it is read

  function OutSet(binds: seq<BindPair>): set<nat> {
    if binds == [] then {} else OutSet(binds[..|binds| - 1]) + {binds[|binds| - 1].outIndex}
  }

  lemma {:induction false} OutSetHolds(binds: seq<BindPair>, c: nat)
    ensures c in OutSet(binds) <==> exists i :: 0 <= i < |binds| && binds[i].outIndex == c
  {
    if binds != [] {
      var init := binds[..|binds| - 1];
      OutSetHolds(init, c);
      if c in OutSet(init) {
        var i :| 0 <= i < |init| && init[i].outIndex == c;
        assert binds[i].outIndex == c;
      }
      if i :| 0 <= i < |init| && binds[i].outIndex == c {
        assert init[i].outIndex == c;
      }
    }
  }

  lemma {:induction false} OutSetCounts(binds: seq<BindPair>)
    requires forall i, j :: 0 <= i < j < |binds| ==> binds[i].outIndex != binds[j].outIndex
    ensures |OutSet(binds)| == |binds|
  {
    if binds != [] {
      var init, last := binds[..|binds| - 1], binds[|binds| - 1].outIndex;
      OutSetCounts(init);
      OutSetHolds(init, last);
    }
  }

  lemma {:induction false} UpTo(n: nat) returns (s: set<nat>)
    ensures |s| == n && forall x: nat :: x in s <==> x < n
  {
    if n == 0 {
      s := {};
    } else {
      var t := UpTo(n - 1);
      s := t + {n - 1};
    }
  }

  /** With one bind pair fewer than coders, distinct pairs leave exactly one output. */
  lemma ParsedHasOneOutput(b: Block)
    requires Parsed(b) && BindsDistinct(b)
    ensures OneOutput(b)
  {
    var outs := OutSet(b.binds);
    OutSetCounts(b.binds);
    forall c | c in outs ensures BindsOut(b, c) {
      OutSetHolds(b.binds, c);
    }
    var all := UpTo(|b.coders|);
    var left := all - outs;
    assert outs <= all;
    assert |left| == 1;
    var c :| c in left;
    assert |left - {c}| == 0;
    assert forall d :: d in left ==> d == c || d in left - {c};
    forall d: nat | Root(b, d) ensures d == c {
      OutSetHolds(b.binds, d);
      assert d in left;
    }
    OutSetHolds(b.binds, c);
    assert Root(b, c);
  }

  function Elements(xs: seq<nat>): set<nat> {
    if xs == [] then {} else Elements(xs[..|xs| - 1]) + {xs[|xs| - 1]}
  }

  lemma {:induction false} ElementsAre(xs: seq<nat>)
    ensures forall x :: x in Elements(xs) <==> x in xs
  {
    if xs != [] {
      ElementsAre(xs[..|xs| - 1]);
      assert xs == xs[..|xs| - 1] + [xs[|xs| - 1]];
    }
  }

  lemma {:induction false} ElementsCount(xs: seq<nat>)
    requires Distinct(xs)
    ensures |Elements(xs)| == |xs|
  {
    if xs != [] {
      var init, last := xs[..|xs| - 1], xs[|xs| - 1];
      ElementsAre(init);
      ElementsCount(init);
      assert forall k :: 0 <= k < |init| ==> init[k] == xs[k];
      assert last !in init;
    }
  }

  function InSet(b: Block, k: nat): set<nat>
    requires k <= |b.binds|
  {
    if k == 0 then Elements(b.packed) else InSet(b, k - 1) + {b.binds[k - 1].inIndex}
  }

  lemma {:induction false} InSetIs(b: Block, k: nat)
    requires k <= |b.binds|
    ensures forall s :: s in InSet(b, k) <==> s in b.packed || BoundBefore(b, k, s)
  {
    if k == 0 {
      ElementsAre(b.packed);
    } else {
      InSetIs(b, k - 1);
      forall s | s in InSet(b, k) ensures s in b.packed || BoundBefore(b, k, s) {
        if s == b.binds[k - 1].inIndex {
          assert BoundBefore(b, k, s);
        }
      }
    }
  }

  /** One of the first `k` bind pairs names input stream `s`. */
  predicate BoundBefore(b: Block, k: nat, s: nat)
    requires k <= |b.binds|
  {
    exists i :: 0 <= i < k && b.binds[i].inIndex == s
  }

  lemma {:induction false} InSetCounts(b: Block, k: nat)
    requires k <= |b.binds| && BindsDistinct(b) && PackedFree(b)
    ensures |InSet(b, k)| == |b.packed| + k
  {
    if k == 0 {
      ElementsCount(b.packed);
    } else {
      InSetCounts(b, k - 1);
      NextBindIsNew(b, k - 1);
    }
  }

  lemma NextBindIsNew(b: Block, k: nat)
    requires k < |b.binds| && BindsDistinct(b) && PackedFree(b)
    ensures b.binds[k].inIndex !in InSet(b, k)
  {
    var s := b.binds[k].inIndex;
    InSetIs(b, k);
    assert BindsIn(b, s);
    assert s !in b.packed;
    assert !BoundBefore(b, k, s);
  }

  /** With as many packed streams as are left over, distinct sources cover every input. */
  lemma ParsedCoversInputs(b: Block)
    requires Parsed(b) && BindsDistinct(b) && PackedInRange(b) && PackedFree(b)
    ensures InputsCovered(b)
  {
    var n := |b.binds|;
    InSetIs(b, n);
    InSetCounts(b, n);
    var all := UpTo(TotalIn(b));
    var rest := all - InSet(b, n);
    assert InSet(b, n) <= all;
    assert |rest| == 0;
    forall s | 0 <= s < TotalIn(b) ensures BindsIn(b, s) || s in b.packed {
      assert s in all && s !in rest;
      assert s in InSet(b, n);
    }
  }

  /** A block read from a header is accepted exactly when no stream is bound or packed twice or out of range. */
  lemma AcceptedExactlyWhenDistinct(b: Block)
    requires Parsed(b)
    ensures (WellBound(b) && forall root: nat :: Root(b, root) ==> NoWalkRepeats(b, root))
       <==> BindsDistinct(b) && PackedInRange(b) && PackedFree(b)
  {
    if BindsDistinct(b) && PackedInRange(b) && PackedFree(b) {
      ParsedHasOneOutput(b);
      ParsedCoversInputs(b);
      forall root: nat | Root(b, root) ensures NoWalkRepeats(b, root) {
        WellBoundHasNoCycle(b, root);
      }
    }
  }

  /** Each coder that the output reaches is reached along one walk only. */
  lemma {:induction false} OneWalkToEachCoder(b: Block, root: nat, p: seq<nat>, q: seq<nat>)
    requires BindsDistinct(b) && Root(b, root) && Walk(b, root, p) && Walk(b, root, q)
    requires p[|p| - 1] == q[|q| - 1]
    ensures p == q
    decreases |p|
  {
    if |p| == 1 {
      if |q| > 1 {
        SamePredecessor(b, root, q, p);
      }
    } else {
      SamePredecessor(b, root, p, q);
      WalkBefore(b, root, p);
      WalkBefore(b, root, q);
      OneWalkToEachCoder(b, root, p[..|p| - 1], q[..|q| - 1]);
      assert p == p[..|p| - 1] + [p[|p| - 1]] && q == q[..|q| - 1] + [q[|q| - 1]];
    }
  }

  /** Two walks to one coder come to it from one coder, and neither ends at the output itself. */
  lemma SamePredecessor(b: Block, root: nat, p: seq<nat>, q: seq<nat>)
    requires BindsDistinct(b) && Root(b, root) && Walk(b, root, p) && Walk(b, root, q)
    requires |p| > 1 && p[|p| - 1] == q[|q| - 1]
    ensures |q| > 1 && p[|p| - 2] == q[|q| - 2]
  {
    var c, child := p[|p| - 2], p[|p| - 1];
    assert Edge(b, c, child);
    RootHasNoParent(b, c, root);
    var d := q[|q| - 2];
    assert Edge(b, d, child);
    var s: nat :| Feeds(b, c, s, child);
    var t: nat :| Feeds(b, d, t, child);
    OneParent(b, c, s, d, t, child);
  }

  lemma WalkBefore(b: Block, root: nat, p: seq<nat>)
    requires Walk(b, root, p) && |p| > 1
    ensures Walk(b, root, p[..|p| - 1])
  {
    var q := p[..|p| - 1];
    forall i | 0 < i < |q| ensures Edge(b, q[i - 1], q[i]) {
      assert Edge(b, p[i - 1], p[i]);
    }
  }

  /** Three coders: the output's own, and two beside it that feed each other. */
  const DETACHED: Block := Block([Coder(Copy, 1, 0), Coder(Copy, 1, 0), Coder(Copy, 1, 0)], [BindPair(1, 2), BindPair(2, 1)], [0])

  lemma DetachedIsBound()
    ensures Parsed(DETACHED) && WellBound(DETACHED)
    ensures FirstIn(DETACHED.coders, 1) == 1 && FirstIn(DETACHED.coders, 2) == 2
  {
    assert FirstIn(DETACHED.coders, 1) == 1 && FirstIn(DETACHED.coders, 2) == 2 && FirstIn(DETACHED.coders, 3) == 3;
    ParsedHasOneOutput(DETACHED);
    ParsedCoversInputs(DETACHED);
  }

  /** A cycle among coders that the output does not reach does not stop acceptance. */
  lemma DetachedCycleIsAccepted()
    ensures Parsed(DETACHED) && WellBound(DETACHED) && Edge(DETACHED, 1, 2) && Edge(DETACHED, 2, 1)
  {
    DetachedIsBound();
    var b := DETACHED;
    assert b.binds[0] == BindPair(1, 2) && b.binds[1] == BindPair(2, 1);
    assert b.coders[1].numIn == 1 && b.coders[2].numIn == 1;
    FeedsFrom(b, 1, 0, 0, 2);
    FeedsFrom(b, 2, 0, 1, 1);
  }

  /** The bind pair at `i`, when pairs are distinct, feeds its coder to its input. */
  lemma FeedsFrom(b: Block, c: nat, step: nat, i: nat, d: nat)
    requires BindsDistinct(b) && i < |b.binds| && c < |b.coders| && step < b.coders[c].numIn
    requires b.binds[i] == BindPair(FirstIn(b.coders, c) + step, d)
    ensures Edge(b, c, d)
  {
    var r := FindIn(b.binds, FirstIn(b.coders, c) + step);
    assert r == i;
    assert Feeds(b, c, step, d);
  }
}
