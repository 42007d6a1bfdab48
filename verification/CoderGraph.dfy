/**
 The coder graph of one block, as a header declares it, and its validation: the
 checks on the bind pairs and the walk with an explicit stack. Every coder has
 one output stream, so output stream `c` is the output of coder `c`.
 */
module CoderGraph {

  datatype Method =
    | Copy | Bcj2 | Filter
    | Lzma | Lzma2 | Ppmd | Bzip2 | Zstd | Brotli | Lz4 | Deflate | Deflate64 | Aes

  datatype Coder = Coder(kind: Method, numIn: nat, size: nat)

  datatype BindPair = BindPair(inIndex: nat, outIndex: nat)

  datatype Block = Block(coders: seq<Coder>, binds: seq<BindPair>, packed: seq<nat>)

  /** The first input stream of coder `c`: inputs are numbered coder after coder. */
  function FirstIn(coders: seq<Coder>, c: nat): nat
    requires c <= |coders|
  {
    if c == 0 then 0 else FirstIn(coders, c - 1) + coders[c - 1].numIn
  }

  function TotalIn(b: Block): nat { FirstIn(b.coders, |b.coders|) }

  /** What reading the block from the header has already made sure of. */
  ghost predicate Parsed(b: Block) {
    && |b.coders| >= 1
    && |b.binds| == |b.coders| - 1
    && (forall i :: 0 <= i < |b.binds| ==> b.binds[i].inIndex < TotalIn(b) && b.binds[i].outIndex < |b.coders|)
    && TotalIn(b) >= |b.binds| + 1
    && |b.packed| == TotalIn(b) - |b.binds|
  }

  lemma {:induction false} FirstInMonotone(coders: seq<Coder>, c: nat, d: nat)
    requires c <= d <= |coders|
    ensures FirstIn(coders, c) <= FirstIn(coders, d)
    decreases d
  {
    if c < d {
      FirstInMonotone(coders, c, d - 1);
    }
  }

  ghost predicate Owns(b: Block, c: nat, stream: nat) {
    c < |b.coders| && FirstIn(b.coders, c) <= stream < FirstIn(b.coders, c) + b.coders[c].numIn
  }

  lemma OneOwner(b: Block, c: nat, d: nat, stream: nat)
    requires Owns(b, c, stream) && Owns(b, d, stream)
    ensures c == d
  {
    if c < d {
      FirstInMonotone(b.coders, c + 1, d);
    } else if d < c {
      FirstInMonotone(b.coders, d + 1, c);
    }
  }

  lemma OwnedInRange(b: Block, c: nat, stream: nat)
    requires Owns(b, c, stream)
    ensures stream < TotalIn(b)
  {
    FirstInMonotone(b.coders, c + 1, |b.coders|);
  }

  /** The bind pair that feeds an input stream, by position: the first that names it. */
  function FindIn(binds: seq<BindPair>, stream: nat): (r: int)
    ensures -1 <= r < |binds|
    ensures r >= 0 ==> binds[r].inIndex == stream
    ensures forall i :: 0 <= i < (if r < 0 then |binds| else r) ==> binds[i].inIndex != stream
  {
    if binds == [] then -1
    else if binds[0].inIndex == stream then 0
    else
      var r := FindIn(binds[1..], stream);
      assert forall i :: 1 <= i < |binds| ==> binds[i] == binds[1..][i - 1];
      if r < 0 then -1 else r + 1
  }

  /** Coder `d` feeds input `step` of coder `c`. */
  ghost predicate Feeds(b: Block, c: nat, step: nat, d: nat) {
    && c < |b.coders| && step < b.coders[c].numIn
    && var r := FindIn(b.binds, FirstIn(b.coders, c) + step);
       r >= 0 && b.binds[r].outIndex == d
  }

  ghost predicate Edge(b: Block, c: nat, d: nat) {
    exists step: nat :: Feeds(b, c, step, d)
  }

  /** A walk from `root` against the flow of the data. */
  ghost predicate Walk(b: Block, root: nat, path: seq<nat>) {
    && path != [] && path[0] == root
    && (forall i :: 0 <= i < |path| ==> path[i] < |b.coders|)
    && (forall i :: 0 < i < |path| ==> Edge(b, path[i - 1], path[i]))
  }

  ghost predicate Distinct(path: seq<nat>) {
    forall i, j :: 0 <= i < j < |path| ==> path[i] != path[j]
  }

  ghost predicate NoWalkRepeats(b: Block, root: nat) {
    forall path :: Walk(b, root, path) ==> Distinct(path)
  }

  ghost predicate ReachableFrom(b: Block, root: nat, c: nat) {
    exists path :: Walk(b, root, path) && path[|path| - 1] == c
  }

  // ------------------------------------------------- the walk with an explicit stack

  datatype Mark = Unseen | OnPath | Finished

  /** Where the walk is: coders marked, coders finished so far in order, and the stack of (coder, step). */
  datatype Frame = Frame(coder: nat, step: nat)

  ghost predicate BindsInRange(b: Block) {
    forall i :: 0 <= i < |b.binds| ==> b.binds[i].outIndex < |b.coders|
  }

  /** The stack is a path from the root: each frame is the input its predecessor walked last. */
  ghost predicate StackOk(b: Block, root: nat, stack: seq<Frame>, marks: seq<Mark>)
    requires |marks| == |b.coders|
  {
    && (forall i :: 0 <= i < |stack| ==> stack[i].coder < |b.coders| && stack[i].step <= b.coders[stack[i].coder].numIn)
    && (stack != [] ==> stack[0].coder == root)
    && (forall i :: 0 <= i < |stack| - 1 ==> Link(b, stack[i], stack[i + 1]))
    && (forall i :: 0 <= i < |stack| && stack[i].step >= 1 ==> marks[stack[i].coder] == OnPath)
    && (forall i, j :: 0 <= i < j < |stack| && stack[j].step >= 1 ==> stack[i].coder != stack[j].coder)
    && (forall c :: 0 <= c < |marks| && marks[c] == OnPath ==> OnStack(stack, c))
  }

  ghost predicate Link(b: Block, below: Frame, above: Frame) {
    below.step >= 1 && Feeds(b, below.coder, below.step - 1, above.coder)
  }

  ghost predicate OnStack(stack: seq<Frame>, c: nat) {
    exists i :: 0 <= i < |stack| && stack[i] == Frame(c, stack[i].step) && stack[i].step >= 1
  }

  /** Finished coders come after everything that feeds them. */
  ghost predicate OrderOk(b: Block, order: seq<nat>, marks: seq<Mark>)
    requires |marks| == |b.coders|
  {
    && (forall i :: 0 <= i < |order| ==> order[i] < |b.coders| && marks[order[i]] == Finished)
    && (forall c :: 0 <= c < |marks| && marks[c] == Finished ==> c in order)
    && (forall i, j :: 0 <= i < j < |order| ==> order[i] != order[j])
    && (forall i, step: nat, d: nat :: 0 <= i < |order| && Feeds(b, order[i], step, d) ==> d in order[..i])
  }

  /** The inputs a frame has walked are finished, save the one above it on the stack. */
  ghost predicate WalkedOk(b: Block, stack: seq<Frame>, order: seq<nat>)
    requires forall i :: 0 <= i < |stack| ==> stack[i].coder < |b.coders|
  {
    forall i, step: nat, d: nat :: 0 <= i < |stack| && step < stack[i].step && Feeds(b, stack[i].coder, step, d) ==>
      d in order || (i + 1 < |stack| && step + 1 == stack[i].step)
  }

  function UnseenIn(marks: seq<Mark>): nat {
    if marks == [] then 0 else UnseenIn(marks[..|marks| - 1]) + if marks[|marks| - 1] == Unseen then 1 else 0
  }

  lemma {:induction false} UnseenAfter(marks: seq<Mark>, c: nat, m: Mark)
    requires c < |marks| && m != Unseen
    ensures UnseenIn(marks[c := m]) == UnseenIn(marks) - if marks[c] == Unseen then 1 else 0
  {
    var last := |marks| - 1;
    if c == last {
      assert marks[c := m][..last] == marks[..last];
    } else {
      assert marks[c := m][..last] == marks[..last][c := m];
      UnseenAfter(marks[..last], c, m);
    }
  }

  /** Work left on the stack: two for each input still to walk, one for a frame not yet entered. */
  function WorkIn(b: Block, stack: seq<Frame>): nat {
    if stack == [] then 0
    else
      var f := stack[|stack| - 1];
      WorkIn(b, stack[..|stack| - 1])
      + if f.step == 0 then 1
        else if f.coder < |b.coders| && f.step <= b.coders[f.coder].numIn then 2 * (b.coders[f.coder].numIn - f.step) + 2
        else 0
  }

  /** Everything the walk keeps from one turn of its loop to the next. */
  ghost predicate WalkState(b: Block, root: nat, stack: seq<Frame>, marks: seq<Mark>, order: seq<nat>) {
    && |marks| == |b.coders| && root < |b.coders|
    && StackOk(b, root, stack, marks)
    && OrderOk(b, order, marks)
    && WalkedOk(b, stack, order)
    && (stack == [] ==> root in order)
  }

  /** The coders along the stack are a walk from the root. */
  lemma StackIsWalk(b: Block, root: nat, stack: seq<Frame>, marks: seq<Mark>, path: seq<nat>)
    requires |marks| == |b.coders| && StackOk(b, root, stack, marks) && stack != []
    requires |path| == |stack| && forall i :: 0 <= i < |stack| ==> path[i] == stack[i].coder
    ensures Walk(b, root, path)
  {
    forall i | 0 < i < |path| ensures Edge(b, path[i - 1], path[i]) {
      assert Link(b, stack[i - 1], stack[i]);
      assert Feeds(b, path[i - 1], stack[i - 1].step - 1, path[i]);
    }
  }

  /** A frame met again on its own path closes a walk that repeats a coder. */
  lemma CycleFound(b: Block, root: nat, stack: seq<Frame>, marks: seq<Mark>)
    requires |marks| == |b.coders| && StackOk(b, root, stack, marks)
    requires stack != [] && stack[|stack| - 1].step == 0 && marks[stack[|stack| - 1].coder] == OnPath
    ensures !NoWalkRepeats(b, root)
  {
    var c := stack[|stack| - 1].coder;
    var path := seq(|stack|, i requires 0 <= i < |stack| => stack[i].coder);
    StackIsWalk(b, root, stack, marks, path);
    assert OnStack(stack, c);
    var k :| 0 <= k < |stack| && stack[k] == Frame(c, stack[k].step) && stack[k].step >= 1;
    assert path[k] == path[|stack| - 1];
  }

  /** The top frame, whose coder is on the path, moves to its next input. */
  lemma StackAdvanced(b: Block, root: nat, rest: seq<Frame>, c: nat, step: nat, before: seq<Mark>, marks: seq<Mark>)
    requires |before| == |marks| == |b.coders| && c < |b.coders| && step < b.coders[c].numIn
    requires StackOk(b, root, rest + [Frame(c, step)], before) && marks == before[c := OnPath]
    requires forall i :: 0 <= i < |rest| ==> rest[i].coder != c
    ensures StackOk(b, root, rest + [Frame(c, step + 1)], marks)
  {
    var was, stack := rest + [Frame(c, step)], rest + [Frame(c, step + 1)];
    assert forall i :: 0 <= i < |rest| ==> was[i] == rest[i] && stack[i] == rest[i];
    assert was[|rest|] == Frame(c, step) && stack[|rest|] == Frame(c, step + 1);
    LinksKept(b, rest, Frame(c, step), Frame(c, step + 1));
    forall d | 0 <= d < |marks| && marks[d] == OnPath ensures OnStack(stack, d) {
      if d == c {
        assert stack[|rest|] == Frame(c, stack[|rest|].step);
      } else {
        OnStackBelow(rest, Frame(c, step), Frame(c, step + 1), d);
      }
    }
  }

  lemma LinksKept(b: Block, rest: seq<Frame>, was: Frame, top: Frame)
    requires top.coder == was.coder
    requires var stack := rest + [was]; forall i :: 0 <= i < |stack| - 1 ==> Link(b, stack[i], stack[i + 1])
    ensures var stack := rest + [top]; forall i :: 0 <= i < |stack| - 1 ==> Link(b, stack[i], stack[i + 1])
  {
    var before, stack := rest + [was], rest + [top];
    forall i | 0 <= i < |stack| - 1 ensures Link(b, stack[i], stack[i + 1]) {
      assert Link(b, before[i], before[i + 1]);
    }
  }

  lemma OnStackBelow(rest: seq<Frame>, was: Frame, top: Frame, d: nat)
    requires OnStack(rest + [was], d) && was.coder != d
    ensures OnStack(rest + [top], d)
  {
    var stack := rest + [was];
    var i :| 0 <= i < |stack| && stack[i] == Frame(d, stack[i].step) && stack[i].step >= 1;
    assert (rest + [top])[i] == stack[i];
  }

  lemma StackPushed(b: Block, root: nat, stack: seq<Frame>, child: nat, marks: seq<Mark>)
    requires |marks| == |b.coders| && StackOk(b, root, stack, marks) && stack != []
    requires child < |b.coders| && Link(b, stack[|stack| - 1], Frame(child, 0))
    ensures StackOk(b, root, stack + [Frame(child, 0)], marks)
  {
    var longer := stack + [Frame(child, 0)];
    forall i | 0 <= i < |longer| - 1 ensures Link(b, longer[i], longer[i + 1]) {
      assert i < |stack| - 1 ==> Link(b, stack[i], stack[i + 1]);
    }
    forall d | 0 <= d < |marks| && marks[d] == OnPath ensures OnStack(longer, d) {
      assert OnStack(stack, d);
      var i :| 0 <= i < |stack| && stack[i] == Frame(d, stack[i].step) && stack[i].step >= 1;
      assert longer[i] == stack[i];
    }
  }

  lemma StackPopped(b: Block, root: nat, rest: seq<Frame>, top: Frame, before: seq<Mark>, marks: seq<Mark>)
    requires |before| == |marks| == |b.coders| && StackOk(b, root, rest + [top], before)
    requires forall d :: 0 <= d < |marks| && d != top.coder ==> marks[d] == before[d]
    requires top.coder < |marks| ==> marks[top.coder] != OnPath
    requires forall i :: 0 <= i < |rest| && rest[i].step >= 1 ==> rest[i].coder != top.coder
    ensures StackOk(b, root, rest, marks)
  {
    var was := rest + [top];
    assert forall i :: 0 <= i < |rest| ==> was[i] == rest[i];
    assert was[|rest|] == top;
    forall i | 0 <= i < |rest| - 1 ensures Link(b, rest[i], rest[i + 1]) {
      assert Link(b, was[i], was[i + 1]);
    }
    forall d | 0 <= d < |marks| && marks[d] == OnPath ensures OnStack(rest, d) {
      assert OnStack(was, d);
      var i :| 0 <= i < |was| && was[i] == Frame(d, was[i].step) && was[i].step >= 1;
      assert rest[i] == was[i];
    }
  }

  // What the frames have walked.

  lemma WalkedAdvanced(b: Block, rest: seq<Frame>, c: nat, step: nat, order: seq<nat>, above: seq<Frame>)
    requires c < |b.coders| && forall i :: 0 <= i < |rest| ==> rest[i].coder < |b.coders|
    requires WalkedOk(b, rest + [Frame(c, step)], order)
    requires forall s: nat, d: nat :: s < step && Feeds(b, c, s, d) ==> d in order
    requires above == [] || (|above| == 1 && above[0].coder < |b.coders| && above[0].step == 0)
    requires above == [] ==> forall d: nat :: !Feeds(b, c, step, d)
    ensures WalkedOk(b, rest + [Frame(c, step + 1)] + above, order)
  {
    var was, stack := rest + [Frame(c, step)], rest + [Frame(c, step + 1)] + above;
    forall i, s: nat, d: nat | 0 <= i < |stack| && s < stack[i].step && Feeds(b, stack[i].coder, s, d)
      ensures d in order || (i + 1 < |stack| && s + 1 == stack[i].step)
    {
      if i < |rest| {
        assert was[i] == stack[i];
      }
    }
  }

  /** The top frame is gone, its coder finished: whoever walked to it last now has it behind. */
  lemma WalkedPopped(b: Block, rest: seq<Frame>, top: Frame, order: seq<nat>, longer: seq<nat>)
    requires top.coder < |b.coders| && forall i :: 0 <= i < |rest| ==> rest[i].coder < |b.coders|
    requires WalkedOk(b, rest + [top], order)
    requires forall i :: 0 <= i < |rest| - 1 ==> Link(b, rest[i], rest[i + 1])
    requires rest != [] ==> Link(b, rest[|rest| - 1], top)
    requires top.coder in longer && forall d :: d in order ==> d in longer
    ensures WalkedOk(b, rest, longer)
  {
    var was := rest + [top];
    forall i, s: nat, d: nat | 0 <= i < |rest| && s < rest[i].step && Feeds(b, rest[i].coder, s, d)
      ensures d in longer || (i + 1 < |rest| && s + 1 == rest[i].step)
    {
      assert was[i] == rest[i];
    }
  }

  lemma OrderEntered(b: Block, order: seq<nat>, marks: seq<Mark>, c: nat)
    requires |marks| == |b.coders| && c < |marks| && OrderOk(b, order, marks) && marks[c] != Finished
    ensures OrderOk(b, order, marks[c := OnPath])
  {
  }

  /** A coder whose inputs are all finished is finished after them. */
  lemma OrderExtended(b: Block, order: seq<nat>, marks: seq<Mark>, c: nat)
    requires |marks| == |b.coders| && c < |marks| && OrderOk(b, order, marks) && marks[c] != Finished
    requires forall s: nat, d: nat :: Feeds(b, c, s, d) ==> d in order
    ensures OrderOk(b, order + [c], marks[c := Finished])
  {
    var longer := order + [c];
    forall i, s: nat, d: nat | 0 <= i < |longer| && Feeds(b, longer[i], s, d) ensures d in longer[..i] {
      if i < |order| {
        assert longer[..i] == order[..i] && longer[i] == order[i];
      } else {
        assert longer[..i] == order;
      }
    }
  }

  /** A walk only goes to coders finished earlier, so it meets none of them twice. */
  lemma {:induction false} WalkDescends(b: Block, root: nat, order: seq<nat>, marks: seq<Mark>, path: seq<nat>, i: nat, j: nat)
    requires |marks| == |b.coders| && OrderOk(b, order, marks) && root in order
    requires Walk(b, root, path) && i < j < |path|
    ensures path[i] in order && path[j] in order && path[i] != path[j]
    ensures forall x, y :: 0 <= x < |order| && 0 <= y < |order| && order[x] == path[i] && order[y] == path[j] ==> y < x
    decreases j
  {
    if i > 0 {
      WalkDescends(b, root, order, marks, path, 0, i);
    }
    if j - 1 > i {
      WalkDescends(b, root, order, marks, path, i, j - 1);
    }
    assert Edge(b, path[j - 1], path[j]);
    var step: nat :| Feeds(b, path[j - 1], step, path[j]);
    var y :| 0 <= y < |order| && order[y] == path[j - 1];
    assert path[j] in order[..y];
    var z :| 0 <= z < y && order[z] == path[j];
  }

  lemma FinishedMeansNoRepeat(b: Block, root: nat, order: seq<nat>, marks: seq<Mark>)
    requires |marks| == |b.coders| && OrderOk(b, order, marks) && root in order
    ensures NoWalkRepeats(b, root)
  {
    forall path | Walk(b, root, path) ensures Distinct(path) {
      forall i, j | 0 <= i < j < |path| ensures path[i] != path[j] {
        WalkDescends(b, root, order, marks, path, i, j);
      }
    }
  }

  // The turns of the loop, one by one.

  function Weight(b: Block, f: Frame): nat {
    if f.step == 0 then 1
    else if f.coder < |b.coders| && f.step <= b.coders[f.coder].numIn then 2 * (b.coders[f.coder].numIn - f.step) + 2
    else 0
  }

  lemma WorkPushed(b: Block, rest: seq<Frame>, f: Frame)
    ensures WorkIn(b, rest + [f]) == WorkIn(b, rest) + Weight(b, f)
  {
    assert (rest + [f])[..|rest|] == rest;
  }

  /** What is known of the popped frame once its coder is on the path. */
  ghost predicate InHand(b: Block, root: nat, rest: seq<Frame>, top: Frame, before: seq<Mark>, marks: seq<Mark>, order: seq<nat>) {
    && WalkState(b, root, rest + [top], before, order)
    && top.coder < |b.coders|
    && marks == before[top.coder := OnPath]
    && OrderOk(b, order, marks)
    && (forall i :: 0 <= i < |rest| ==> rest[i].coder != top.coder)
    && (if top.step == 0 then before[top.coder] == Unseen else before[top.coder] == OnPath)
  }

  lemma TakenInHand(b: Block, root: nat, rest: seq<Frame>, top: Frame, before: seq<Mark>, order: seq<nat>)
    requires WalkState(b, root, rest + [top], before, order)
    requires top.step == 0 ==> top.coder < |before| ==> before[top.coder] == Unseen
    ensures top.coder < |b.coders|
    ensures InHand(b, root, rest, top, before, before[top.coder := OnPath], order)
  {
    var stack := rest + [top];
    assert stack[|rest|] == top && forall i :: 0 <= i < |rest| ==> stack[i] == rest[i];
    OrderEntered(b, order, before, top.coder);
    forall i | 0 <= i < |rest| ensures rest[i].coder != top.coder {
      assert Link(b, stack[i], stack[i + 1]);
    }
  }

  lemma InputsBehind(b: Block, root: nat, rest: seq<Frame>, top: Frame, before: seq<Mark>, marks: seq<Mark>, order: seq<nat>)
    requires InHand(b, root, rest, top, before, marks, order)
    ensures forall i :: 0 <= i < |rest| ==> rest[i].coder < |b.coders|
    ensures forall s: nat, d: nat :: s < top.step && Feeds(b, top.coder, s, d) ==> d in order
    ensures rest != [] ==> Link(b, rest[|rest| - 1], top)
    ensures forall i :: 0 <= i < |rest| - 1 ==> Link(b, rest[i], rest[i + 1])
  {
    var stack := rest + [top];
    assert stack[|rest|] == top && forall i :: 0 <= i < |rest| ==> stack[i] == rest[i];
    forall i | 0 <= i < |rest| ensures Link(b, stack[i], stack[i + 1]) {
    }
  }

  /** The frames a turn puts back for a coder with an input left to walk. */
  function Descent(b: Block, top: Frame): seq<Frame>
    requires top.coder < |b.coders|
  {
    var r := FindIn(b.binds, FirstIn(b.coders, top.coder) + top.step);
    [Frame(top.coder, top.step + 1)] + if r >= 0 then [Frame(b.binds[r].outIndex, 0)] else []
  }

  lemma DescentStack(b: Block, root: nat, rest: seq<Frame>, top: Frame, before: seq<Mark>, marks: seq<Mark>, order: seq<nat>)
    requires BindsInRange(b) && InHand(b, root, rest, top, before, marks, order) && top.step < b.coders[top.coder].numIn
    ensures StackOk(b, root, rest + Descent(b, top), marks)
  {
    assert top == Frame(top.coder, top.step);
    StackAdvanced(b, root, rest, top.coder, top.step, before, marks);
    DescentPushed(b, root, rest, top, marks);
  }

  /** With the top moved on to its next input, the coder bound to this one goes on the stack. */
  lemma DescentPushed(b: Block, root: nat, rest: seq<Frame>, top: Frame, marks: seq<Mark>)
    requires BindsInRange(b) && |marks| == |b.coders| && top.coder < |b.coders| && top.step < b.coders[top.coder].numIn
    requires StackOk(b, root, rest + [Frame(top.coder, top.step + 1)], marks)
    ensures StackOk(b, root, rest + Descent(b, top), marks)
  {
    var moved := rest + [Frame(top.coder, top.step + 1)];
    if |Descent(b, top)| == 2 {
      var child := Descent(b, top)[1].coder;
      assert Feeds(b, top.coder, top.step, child);
      StackPushed(b, root, moved, child, marks);
      assert rest + Descent(b, top) == moved + [Frame(child, 0)];
    } else {
      assert rest + Descent(b, top) == moved;
    }
  }

  lemma TurnDescends(b: Block, root: nat, rest: seq<Frame>, top: Frame, before: seq<Mark>, marks: seq<Mark>, order: seq<nat>)
    requires BindsInRange(b) && InHand(b, root, rest, top, before, marks, order) && top.step < b.coders[top.coder].numIn
    ensures WalkState(b, root, rest + Descent(b, top), marks, order)
  {
    var c, step := top.coder, top.step;
    DescentStack(b, root, rest, top, before, marks, order);
    InputsBehind(b, root, rest, top, before, marks, order);
    var above := Descent(b, top)[1..];
    assert top == Frame(c, step);
    WalkedAdvanced(b, rest, c, step, order, above);
    assert rest + Descent(b, top) == rest + [Frame(c, step + 1)] + above;
  }

  lemma DescentSpends(b: Block, rest: seq<Frame>, top: Frame, before: seq<Mark>)
    requires top.coder < |b.coders| == |before| && top.step < b.coders[top.coder].numIn
    requires top.step == 0 ==> before[top.coder] == Unseen
    ensures var marks := before[top.coder := OnPath];
      UnseenIn(marks) <= UnseenIn(before)
      && (UnseenIn(marks) == UnseenIn(before) ==> WorkIn(b, rest + Descent(b, top)) < WorkIn(b, rest + [top]))
  {
    UnseenAfter(before, top.coder, OnPath);
    if top.step > 0 {
      DescentWork(b, rest, top);
      WorkPushed(b, rest, top);
    }
  }

  lemma DescentWork(b: Block, rest: seq<Frame>, top: Frame)
    requires top.coder < |b.coders| && top.step < b.coders[top.coder].numIn
    ensures WorkIn(b, rest + Descent(b, top)) <= WorkIn(b, rest) + 2 * (b.coders[top.coder].numIn - top.step) + 1
  {
    var moved := Frame(top.coder, top.step + 1);
    WorkPushed(b, rest, moved);
    if |Descent(b, top)| == 2 {
      WorkPushed(b, rest + [moved], Descent(b, top)[1]);
      assert rest + Descent(b, top) == rest + [moved] + [Descent(b, top)[1]];
    } else {
      assert Descent(b, top) == [moved];
    }
  }

  lemma TurnFinishes(b: Block, root: nat, rest: seq<Frame>, top: Frame, before: seq<Mark>, marks: seq<Mark>, order: seq<nat>)
    requires InHand(b, root, rest, top, before, marks, order) && top.step >= b.coders[top.coder].numIn
    ensures WalkState(b, root, rest, marks[top.coder := Finished], order + [top.coder])
  {
    var c := top.coder;
    InputsBehind(b, root, rest, top, before, marks, order);
    OrderExtended(b, order, marks, c);
    StackPopped(b, root, rest, top, before, marks[c := Finished]);
    WalkedPopped(b, rest, top, order, order + [c]);
    assert (rest + [top])[0].coder == root;
    assert (rest + [top])[|rest|] == top;
  }

  lemma FinishSpends(b: Block, rest: seq<Frame>, top: Frame, before: seq<Mark>)
    requires top.coder < |b.coders| == |before| && top.step == b.coders[top.coder].numIn
    ensures var marks := before[top.coder := OnPath][top.coder := Finished];
      UnseenIn(marks) <= UnseenIn(before)
      && (UnseenIn(marks) == UnseenIn(before) ==> WorkIn(b, rest) < WorkIn(b, rest + [top]))
  {
    UnseenAfter(before, top.coder, OnPath);
    UnseenAfter(before[top.coder := OnPath], top.coder, Finished);
    WorkPushed(b, rest, top);
  }

  lemma TurnSkips(b: Block, root: nat, rest: seq<Frame>, top: Frame, marks: seq<Mark>, order: seq<nat>)
    requires WalkState(b, root, rest + [top], marks, order)
    requires top.step == 0 && top.coder < |marks| && marks[top.coder] == Finished
    ensures WalkState(b, root, rest, marks, order)
    ensures WorkIn(b, rest) < WorkIn(b, rest + [top])
  {
    var stack := rest + [top];
    assert stack[|rest|] == top && forall i :: 0 <= i < |rest| ==> stack[i] == rest[i];
    forall i | 0 <= i < |rest| ensures Link(b, stack[i], stack[i + 1]) {
    }
    StackPopped(b, root, rest, top, marks, marks);
    WalkedPopped(b, rest, top, order, order);
    WorkPushed(b, rest, top);
  }

  lemma WalkStarts(b: Block, root: nat)
    requires root < |b.coders|
    ensures WalkState(b, root, [Frame(root, 0)], seq(|b.coders|, _ => Unseen), [])
  {
  }

  /** A turn that leaves an input to walk. */
  lemma StepDown(b: Block, root: nat, rest: seq<Frame>, top: Frame, before: seq<Mark>, order: seq<nat>)
    requires BindsInRange(b) && WalkState(b, root, rest + [top], before, order)
    requires top.coder < |b.coders| && top.step < b.coders[top.coder].numIn
    requires top.step == 0 ==> before[top.coder] == Unseen
    ensures var marks := before[top.coder := OnPath];
      && WalkState(b, root, rest + Descent(b, top), marks, order)
      && UnseenIn(marks) <= UnseenIn(before)
      && (UnseenIn(marks) == UnseenIn(before) ==> WorkIn(b, rest + Descent(b, top)) < WorkIn(b, rest + [top]))
  {
    TakenInHand(b, root, rest, top, before, order);
    TurnDescends(b, root, rest, top, before, before[top.coder := OnPath], order);
    DescentSpends(b, rest, top, before);
  }

  /** A turn that finishes a coder. */
  lemma StepUp(b: Block, root: nat, rest: seq<Frame>, top: Frame, before: seq<Mark>, order: seq<nat>)
    requires WalkState(b, root, rest + [top], before, order)
    requires top.coder < |b.coders| && top.step >= b.coders[top.coder].numIn
    requires top.step == 0 ==> before[top.coder] == Unseen
    ensures var marks := before[top.coder := OnPath][top.coder := Finished];
      && WalkState(b, root, rest, marks, order + [top.coder])
      && UnseenIn(marks) <= UnseenIn(before)
      && (UnseenIn(marks) == UnseenIn(before) ==> WorkIn(b, rest) < WorkIn(b, rest + [top]))
  {
    TakenInHand(b, root, rest, top, before, order);
    TurnFinishes(b, root, rest, top, before, before[top.coder := OnPath], order);
    assert (rest + [top])[|rest|] == top;
    FinishSpends(b, rest, top, before);
  }

  lemma TopInRange(b: Block, root: nat, rest: seq<Frame>, top: Frame, marks: seq<Mark>, order: seq<nat>)
    requires WalkState(b, root, rest + [top], marks, order)
    ensures top.coder < |b.coders|
  {
    assert (rest + [top])[|rest|] == top;
  }

  /** The walk itself: false when it meets a coder that is still on its path. */
  method WalkGraph(b: Block, root: nat) returns (acyclic: bool)
    requires BindsInRange(b) && root < |b.coders|
    ensures acyclic <==> NoWalkRepeats(b, root)
  {
    var marks := seq(|b.coders|, _ => Unseen);
    var stack := [Frame(root, 0)];
    ghost var order: seq<nat> := [];
    WalkStarts(b, root);
    while stack != []
      invariant WalkState(b, root, stack, marks, order)
      decreases UnseenIn(marks), WorkIn(b, stack)
    {
      var top, rest := stack[|stack| - 1], stack[..|stack| - 1];
      assert stack == rest + [top];
      ghost var before := marks;
      TopInRange(b, root, rest, top, marks, order);
      stack := rest;
      if top.step == 0 {
        if marks[top.coder] == OnPath {
          CycleFound(b, root, rest + [top], marks);
          return false;
        }
        if marks[top.coder] == Finished {
          TurnSkips(b, root, rest, top, marks, order);
          continue;
        }
      }
      marks := marks[top.coder := OnPath];
      if top.step < b.coders[top.coder].numIn {
        StepDown(b, root, rest, top, before, order);
        stack := stack + Descent(b, top);
      } else {
        StepUp(b, root, rest, top, before, order);
        marks := marks[top.coder := Finished];
        order := order + [top.coder];
      }
    }
    FinishedMeansNoRepeat(b, root, order, marks);
    return true;
  }
}
