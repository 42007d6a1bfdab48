/** `validate_coder_graph`: the checks on bind pairs and packed streams, then the walk. */
module GraphValidation {
  import opened CoderGraph

  datatype Verdict = Accepted | BoundTwice | PackedOutOfRange | PackedAndBound | InputUnaccounted | NotOneOutput | Cyclic

  predicate BindsDistinct(b: Block) {
    forall i, j :: 0 <= i < j < |b.binds| ==>
      b.binds[i].inIndex != b.binds[j].inIndex && b.binds[i].outIndex != b.binds[j].outIndex
  }

  predicate BindsIn(b: Block, stream: nat) {
    exists i :: 0 <= i < |b.binds| && b.binds[i].inIndex == stream
  }

  predicate BindsOut(b: Block, c: nat) {
    exists i :: 0 <= i < |b.binds| && b.binds[i].outIndex == c
  }

  predicate PackedInRange(b: Block) {
    forall k :: 0 <= k < |b.packed| ==> b.packed[k] < TotalIn(b)
  }

  predicate PackedFree(b: Block) {
    && (forall k :: 0 <= k < |b.packed| ==> !BindsIn(b, b.packed[k]))
    && (forall k, l :: 0 <= k < l < |b.packed| ==> b.packed[k] != b.packed[l])
  }

  predicate InputsCovered(b: Block) {
    forall s :: 0 <= s < TotalIn(b) ==> BindsIn(b, s) || s in b.packed
  }

  predicate Root(b: Block, c: nat) { c < |b.coders| && !BindsOut(b, c) }

  ghost predicate OneOutput(b: Block) {
    exists c: nat :: Root(b, c) && forall d: nat :: Root(b, d) ==> d == c
  }

  /** Every input stream has exactly one source, and one output is left over. */
  ghost predicate WellBound(b: Block) {
    BindsDistinct(b) && PackedInRange(b) && PackedFree(b) && InputsCovered(b) && OneOutput(b)
  }

  ghost predicate InRange(b: Block) {
    && |b.coders| >= 1
    && forall i :: 0 <= i < |b.binds| ==> b.binds[i].inIndex < TotalIn(b) && b.binds[i].outIndex < |b.coders|
  }

  predicate SimpleFolder(b: Block) {
    TotalIn(b) == 1 && |b.coders| == 1 && b.binds == [] && b.packed == [0] && b.coders[0].numIn == 1
  }

  lemma SimpleFolderIsFine(b: Block)
    requires SimpleFolder(b)
    ensures WellBound(b) && Root(b, 0) && NoWalkRepeats(b, 0)
  {
    forall path | Walk(b, 0, path) ensures Distinct(path) {
      assert |path| > 1 ==> Edge(b, path[0], path[1]);
    }
    assert OneOutput(b) by {
      assert Root(b, 0);
    }
  }

  /** Marks the streams the bind pairs use; false at the first used twice. */
  method MarkBinds(b: Block) returns (ok: bool, inBound: seq<bool>, outBound: seq<bool>)
    requires InRange(b)
    ensures ok <==> BindsDistinct(b)
    ensures |inBound| == TotalIn(b) && |outBound| == |b.coders|
    ensures ok ==> forall s :: 0 <= s < |inBound| ==> (inBound[s] <==> BindsIn(b, s))
    ensures ok ==> forall c :: 0 <= c < |outBound| ==> (outBound[c] <==> BindsOut(b, c))
  {
    inBound := seq(TotalIn(b), _ => false);
    outBound := seq(|b.coders|, _ => false);
    for k := 0 to |b.binds|
      invariant |inBound| == TotalIn(b) && |outBound| == |b.coders|
      invariant forall i, j :: 0 <= i < j < k ==>
        b.binds[i].inIndex != b.binds[j].inIndex && b.binds[i].outIndex != b.binds[j].outIndex
      invariant forall s :: 0 <= s < |inBound| ==> (inBound[s] <==> exists i :: 0 <= i < k && b.binds[i].inIndex == s)
      invariant forall c :: 0 <= c < |outBound| ==> (outBound[c] <==> exists i :: 0 <= i < k && b.binds[i].outIndex == c)
    {
      var bp := b.binds[k];
      if inBound[bp.inIndex] || outBound[bp.outIndex] {
        return false, inBound, outBound;
      }
      inBound := inBound[bp.inIndex := true];
      outBound := outBound[bp.outIndex := true];
    }
    ok := true;
  }

  /** Packed stream `k` is an input stream, not bound, and not packed before. */
  predicate PackedFine(b: Block, k: nat)
    requires k < |b.packed|
  {
    b.packed[k] < TotalIn(b) && !BindsIn(b, b.packed[k]) && forall l :: 0 <= l < k ==> b.packed[l] != b.packed[k]
  }

  /** Packed stream `k` is the first that is not fine. */
  predicate FirstNotFine(b: Block, k: nat) {
    k < |b.packed| && !PackedFine(b, k) && forall l :: 0 <= l < k ==> PackedFine(b, l)
  }

  /** Marks the packed streams on top; stops at one out of range or already marked. */
  method MarkPacked(b: Block, bound: seq<bool>) returns (verdict: Verdict, inBound: seq<bool>)
    requires |bound| == TotalIn(b)
    requires forall s :: 0 <= s < |bound| ==> (bound[s] <==> BindsIn(b, s))
    ensures verdict in {Accepted, PackedOutOfRange, PackedAndBound}
    ensures verdict.Accepted? <==> PackedInRange(b) && PackedFree(b)
    ensures verdict.PackedOutOfRange? ==> exists k: nat :: FirstNotFine(b, k) && b.packed[k] >= TotalIn(b)
    ensures verdict.PackedAndBound? ==> exists k: nat :: FirstNotFine(b, k) && b.packed[k] < TotalIn(b)
    ensures |inBound| == TotalIn(b)
    ensures verdict.Accepted? ==> forall s :: 0 <= s < |inBound| ==> (inBound[s] <==> BindsIn(b, s) || s in b.packed)
  {
    inBound := bound;
    for k := 0 to |b.packed|
      invariant |inBound| == TotalIn(b)
      invariant forall l :: 0 <= l < k ==> b.packed[l] < TotalIn(b) && !BindsIn(b, b.packed[l])
      invariant forall l, m :: 0 <= l < m < k ==> b.packed[l] != b.packed[m]
      invariant forall s :: 0 <= s < |inBound| ==> (inBound[s] <==> BindsIn(b, s) || s in b.packed[..k])
    {
      var s := b.packed[k];
      if s >= TotalIn(b) {
        return PackedOutOfRange, inBound;
      }
      if inBound[s] {
        return PackedAndBound, inBound;
      }
      inBound := inBound[s := true];
      assert b.packed[..k + 1] == b.packed[..k] + [s];
    }
    assert b.packed[..|b.packed|] == b.packed;
    verdict := Accepted;
  }

  /** How many outputs no bind pair uses, and the first of them. */
  method UnboundOutputs(b: Block, outBound: seq<bool>) returns (count: nat, first: nat)
    requires |outBound| == |b.coders|
    requires forall c :: 0 <= c < |outBound| ==> (outBound[c] <==> BindsOut(b, c))
    ensures count == 1 <==> OneOutput(b)
    ensures count == 1 ==> Root(b, first)
  {
    count, first := 0, 0;
    ghost var second: nat := 0;
    for c := 0 to |outBound|
      invariant count == 0 ==> forall d :: 0 <= d < c ==> !Root(b, d)
      invariant count >= 1 ==> first < c && Root(b, first)
      invariant count == 1 ==> forall d :: 0 <= d < c && Root(b, d) ==> d == first
      invariant count >= 2 ==> second < c && Root(b, second) && second != first
    {
      if !outBound[c] {
        assert Root(b, c);
        if count == 0 {
          first := c;
        } else {
          second := c;
        }
        count := count + 1;
      }
    }
  }

  method Validate(b: Block) returns (verdict: Verdict)
    requires InRange(b)
    ensures verdict.Accepted? <==> WellBound(b) && forall root: nat :: Root(b, root) ==> NoWalkRepeats(b, root)
    ensures verdict.BoundTwice? <==> !BindsDistinct(b)
    ensures verdict.PackedOutOfRange? ==> BindsDistinct(b) && exists k: nat :: FirstNotFine(b, k) && b.packed[k] >= TotalIn(b)
    ensures verdict.PackedAndBound? ==> BindsDistinct(b) && exists k: nat :: FirstNotFine(b, k) && b.packed[k] < TotalIn(b)
    ensures verdict.NotOneOutput? ==> BindsDistinct(b) && PackedInRange(b) && PackedFree(b) && InputsCovered(b) && !OneOutput(b)
    ensures verdict.InputUnaccounted? ==> BindsDistinct(b) && PackedInRange(b) && PackedFree(b) && !InputsCovered(b)
    ensures verdict.Cyclic? ==> WellBound(b) && exists root: nat :: Root(b, root) && !NoWalkRepeats(b, root)
  {
    if SimpleFolder(b) {
      SimpleFolderIsFine(b);
      return Accepted;
    }
    var ok, inBound, outBound := MarkBinds(b);
    if !ok {
      return BoundTwice;
    }
    verdict, inBound := MarkPacked(b, inBound);
    if !verdict.Accepted? {
      return;
    }
    if exists s :: 0 <= s < |inBound| && !inBound[s] {
      return InputUnaccounted;
    }
    var count, root := UnboundOutputs(b, outBound);
    if count != 1 {
      return NotOneOutput;
    }
    var acyclic := WalkGraph(b, root);
    return if acyclic then Accepted else Cyclic;
  }
}
