/** What holds over every run of a coder pipeline. */
module PipelineTheorems {
  import opened PipeState
  import opened Pipeline
  import opened PipelineInvariant
  import opened PipelineSteps

  lemma InvInitially(kinds: seq<Kind>)
    requires ValidPlan(kinds)
    ensures Inv(kinds, Initial(kinds))
  {
    var a := Initial(kinds);
    forall p | 0 <= p < |kinds| ensures LineOk(kinds[p], a.lines[p], false) {
    }
  }

  lemma {:induction false} InvAlong(kinds: seq<Kind>, trace: seq<System>, steps: seq<Step>, k: nat)
    requires ValidPlan(kinds) && Run(kinds, trace, steps) && k <= |steps|
    ensures Inv(kinds, trace[k])
  {
    if k == 0 {
      InvInitially(kinds);
    } else {
      InvAlong(kinds, trace, steps, k - 1);
      assert Moves(kinds, trace, steps, k - 1);
      InvKept(kinds, trace[k - 1], steps[k - 1]);
    }
  }

  lemma ReachableInv(kinds: seq<Kind>, a: System)
    requires ValidPlan(kinds) && Reachable(kinds, a)
    ensures Inv(kinds, a)
  {
    var trace, steps :| Run(kinds, trace, steps) && trace[|steps|] == a;
    InvAlong(kinds, trace, steps, |steps|);
  }

  // ------------------------------------------------- no deadlock

  predicate StageMoves(kinds: seq<Kind>, a: System, p: nat) {
    && p < |a.lines| == |kinds|
    && !kinds[p].Feed?
    && !a.lines[p].pc.Exited?
    && a.lines[p].pc != ForRoom(false)
    && !(a.lines[p].pc.ForInput? && !a.lines[p].pc.woken)
  }

  lemma MovingStageHasStep(kinds: seq<Kind>, a: System, p: nat)
    requires Inv(kinds, a) && StageMoves(kinds, a, p)
    ensures exists step :: IsStage(step) && Enabled(kinds, a, step)
  {
    assert LineOk(kinds[p], a.lines[p], a.abandoned) && StageSleepOk(kinds, a, p);
    var step := match a.lines[p].pc
      case WantRoom => RoomPass(p)
      case ForRoom(_) => RoomPass(p)
      case Filling => CoderStops(p, Clean)
      case Reading(_) => ReadPass(p)
      case ForInput(_, _) => ReadPass(p)
      case Sending(_) => SendPass(p)
      case _ => PanicPass(p);
    assert IsStage(step) && Enabled(kinds, a, step);
  }

  /** Below an empty open pipe, with every pack stream topped up, some stage can run. */
  lemma {:induction false} StarvedPipeIsFed(kinds: seq<Kind>, a: System, p: nat)
    requires Inv(kinds, a) && !a.abandoned
    requires p < |a.lines| && !kinds[p].Feed? && Starved(a, p)
    requires forall g :: 0 <= g < |a.lines| ==> ToppedUp(kinds, a, g)
    ensures exists r :: 0 <= r <= p && StageMoves(kinds, a, r)
    decreases p
  {
    assert LineOk(kinds[p], a.lines[p], a.abandoned) && StageSleepOk(kinds, a, p);
    if a.lines[p].pc.ForInput? && !a.lines[p].pc.woken {
      var q := kinds[p].input;
      assert ToppedUp(kinds, a, q);
      StarvedPipeIsFed(kinds, a, q);
    } else {
      assert StageMoves(kinds, a, p);
    }
  }

  /** A caller asleep in its refill waits on a stage that can take a step. */
  lemma SleepingCallerIsFed(kinds: seq<Kind>, a: System)
    requires ValidPlan(kinds) && Reachable(kinds, a)
    requires a.caller.Asleep? && !a.caller.woken
    ensures exists r :: 0 <= r <= a.caller.pipe && StageMoves(kinds, a, r)
  {
    ReachableInv(kinds, a);
    StarvedPipeIsFed(kinds, a, a.caller.pipe);
  }

  /** While the caller is asleep un-woken, the generation is the one it saw: no change was slept through. */
  lemma NoChangeSleptThrough(kinds: seq<Kind>, a: System)
    requires ValidPlan(kinds) && Reachable(kinds, a)
    requires a.caller.Asleep? && !a.caller.woken
    ensures |a.lines| == |kinds| && a.caller.pipe < |a.lines|
    ensures a.generation == a.caller.seen
    ensures Starved(a, a.caller.pipe)
    ensures forall f :: 0 <= f < |a.lines| && kinds[f].Feed? ==>
      !a.lines[f].pipe.end.Open? || |a.lines[f].pipe.chunks| == PIPE_DEPTH
  {
    ReachableInv(kinds, a);
    assert forall f :: 0 <= f < |a.lines| ==> ToppedUp(kinds, a, f) && LineOk(kinds[f], a.lines[f], a.abandoned);
  }

  lemma CallerHasStep(kinds: seq<Kind>, a: System)
    requires Inv(kinds, a)
    requires !a.caller.Joining? && !a.caller.Gone? && !(a.caller.Asleep? && !a.caller.woken)
    ensures exists step :: Enabled(kinds, a, step) && !Spurious(step)
  {
    var step := match a.caller
      case Working => CallerDrops
      case Taking(_, _) => TakePass
      case Pumping(f, _, _, _) =>
        if f < |a.lines| && a.lines[f].pc.PumpFilling? then SourceStops(Clean)
        else if f < |a.lines| && a.lines[f].pc.PumpSending? then PumpSend
        else PumpLook
      case Waiting(_, _, _) => WaitPass
      case Asleep(_, _, _, _) => WaitPass
      case _ => DropPass;
    assert Enabled(kinds, a, step) && !Spurious(step);
  }

  /** While the caller waits to join its stages, one that has not exited can step, or the join can return. */
  lemma JoiningHasStep(kinds: seq<Kind>, a: System)
    requires Inv(kinds, a) && a.caller.Joining?
    ensures exists step :: Enabled(kinds, a, step) && !Spurious(step)
  {
    if p :| 0 <= p < |a.lines| && !kinds[p].Feed? && !a.lines[p].pc.Exited? {
      assert StageSleepOk(kinds, a, p);
      MovingStageHasStep(kinds, a, p);
    } else {
      assert Enabled(kinds, a, JoinAll);
    }
  }

  /** In every reachable state in which the caller has not joined every stage, something can step. */
  lemma NeverDeadlocks(kinds: seq<Kind>, a: System)
    requires ValidPlan(kinds) && Reachable(kinds, a) && !a.caller.Gone?
    ensures |a.lines| == |kinds|
    ensures exists step :: Enabled(kinds, a, step) && !Spurious(step)
  {
    ReachableInv(kinds, a);
    if a.caller.Asleep? && !a.caller.woken {
      SleepingCallerIsFed(kinds, a);
      var r :| 0 <= r <= a.caller.pipe && StageMoves(kinds, a, r);
      MovingStageHasStep(kinds, a, r);
    } else if a.caller.Joining? {
      JoiningHasStep(kinds, a);
    } else {
      CallerHasStep(kinds, a);
    }
  }

  // ------------------------------------------------- the bytes

  /** Everything the writer has made of its stream so far. */
  function Produced(line: Line): Bytes { line.made + line.hand }

  lemma LineTells(line: Line)
    requires line.reader.pos <= |line.reader.buf| && Conserved(line) && Ended(line)
    requires !line.pipe.end.Open? ==> line.hand == []
    ensures DataOf(line.log) <= Produced(line)
    ensures Drained(line) ==> line.made == DataOf(line.log)
    ensures EndsCleanly(line.log) ==> line.ending.Clean? && DataOf(line.log) == Produced(line)
    ensures forall fault :: EndsBroken(line.log, fault) ==> line.ending == Broken(fault) && DataOf(line.log) == Produced(line)
    ensures OnlyData(line.log) || EndsCleanly(line.log) || (line.ending.Broken? && EndsBroken(line.log, line.ending.fault))
  {
    var rest := line.reader.buf[line.reader.pos..];
    assert line.made == DataOf(line.log) + (rest + Flat(line.pipe.chunks));
    assert Drained(line) ==> rest == [] && Flat(line.pipe.chunks) == [];
    OneEnd(line.log);
  }

  lemma OneFault(log: seq<Told>, fault: Fault, other: Fault)
    requires EndsBroken(log, fault) && EndsBroken(log, other)
    ensures fault == other
  {
    var k :| 0 <= k < |log| && OnlyData(log[..k]) && log[k] == Error(fault);
    var m :| 0 <= m < |log| && OnlyData(log[..m]) && log[m] == Error(other);
  }

  lemma FaultIsNoEnd(log: seq<Told>, fault: Fault)
    requires EndsBroken(log, fault)
    ensures !EndsCleanly(log) && !OnlyData(log)
  {
    var k :| 0 <= k < |log| && OnlyData(log[..k]) && log[k] == Error(fault);
    assert !log[k].Data?;
    assert forall m :: k < m <= |log| ==> log[..m][k] == log[k];
  }

  /** A log has at most one kind of end, and at most one fault. */
  lemma OneEnd(log: seq<Told>)
    ensures forall fault :: EndsBroken(log, fault) ==> !EndsCleanly(log) && !OnlyData(log)
    ensures forall fault, other :: EndsBroken(log, fault) && EndsBroken(log, other) ==> fault == other
    ensures EndsCleanly(log) ==> !OnlyData(log)
  {
    forall fault, other | EndsBroken(log, fault) && EndsBroken(log, other)
      ensures fault == other
    {
      OneFault(log, fault, other);
    }
    forall fault | EndsBroken(log, fault)
      ensures !EndsCleanly(log) && !OnlyData(log)
    {
      FaultIsNoEnd(log, fault);
    }
    if EndsCleanly(log) {
      var k :| 0 <= k < |log| && OnlyData(log[..k]) && forall i :: k <= i < |log| ==> log[i] == Eof;
      assert !log[k].Data?;
    }
  }

  /**
   What the reads of one pipe were told: the writer's bytes in order, a prefix
   until the end is told; then its clean end, for ever, or its own fault, once,
   after every byte it sent, and from then on another error.
   */
  lemma ReadsTellTheWholeStream(kinds: seq<Kind>, a: System, p: nat)
    requires ValidPlan(kinds) && Reachable(kinds, a) && p < |kinds|
    ensures |a.lines| == |kinds|
    ensures var line := a.lines[p];
      && DataOf(line.log) <= Produced(line)
      && (EndsCleanly(line.log) ==> line.ending.Clean? && DataOf(line.log) == Produced(line))
      && (forall fault :: EndsBroken(line.log, fault) ==> line.ending == Broken(fault) && DataOf(line.log) == Produced(line))
      && (OnlyData(line.log) || EndsCleanly(line.log) || (line.ending.Broken? && EndsBroken(line.log, line.ending.fault)))
  {
    ReachableInv(kinds, a);
    assert LineOk(kinds[p], a.lines[p], a.abandoned);
    LineTells(a.lines[p]);
  }

  /** Never more than one allocation beyond the pipe's depth. */
  lemma BuffersAreBounded(kinds: seq<Kind>, a: System, p: nat)
    requires ValidPlan(kinds) && Reachable(kinds, a) && p < |kinds|
    ensures |a.lines| == |kinds|
    ensures Buffers(a.lines[p]) <= PIPE_DEPTH + 1
  {
    ReachableInv(kinds, a);
    assert LineOk(kinds[p], a.lines[p], a.abandoned);
  }

  // ------------------------------------------------- through any number of stages

  ghost predicate Monotone(f: Bytes -> Bytes) {
    forall x: Bytes, y: Bytes :: x <= y ==> f(x) <= f(y)
  }

  /** Whatever comes after `x`, `f` has no more to give: a decoder that has made all its header declares. */
  ghost predicate Complete(f: Bytes -> Bytes, x: Bytes) {
    forall y: Bytes :: x <= y ==> f(y) == f(x)
  }

  /**
   The coder of stage `p` computes `f` of what it reads: a part of it at any
   time, and all of it by a clean end, which it makes at its input's end or once
   nothing that follows could add to it. Its faults are its own affair.
   */
  ghost predicate Computes(kinds: seq<Kind>, a: System, p: nat, f: Bytes -> Bytes)
    requires |a.lines| == |kinds| && p < |kinds| && kinds[p].PipedStage? && kinds[p].input < p
  {
    var line, input := a.lines[p], a.lines[kinds[p].input];
    && Produced(line) <= f(DataOf(input.log))
    && (line.ending.Clean? ==>
          Produced(line) == f(DataOf(input.log)) && (EndsCleanly(input.log) || Complete(f, DataOf(input.log))))
  }

  /** The coder of stage `p` ends as its input does: cleanly at its end, and with its fault once all before it is out. */
  ghost predicate HandsOn(kinds: seq<Kind>, a: System, p: nat, f: Bytes -> Bytes)
    requires |a.lines| == |kinds| && p < |kinds| && kinds[p].PipedStage? && kinds[p].input < p
  {
    var line, input := a.lines[p], a.lines[kinds[p].input];
    && (line.ending.Clean? ==> EndsCleanly(input.log))
    && (line.ending.Broken? ==> EndsBroken(input.log, line.ending.fault) && Produced(line) == f(DataOf(input.log)))
  }

  /** `path` climbs from a pipe through stages that each compute their function of the pipe below, and may hand its end on. */
  ghost predicate Climb(kinds: seq<Kind>, a: System, path: seq<nat>, fs: seq<Bytes -> Bytes>, handing: bool)
    requires |a.lines| == |kinds|
    decreases |fs|
  {
    && |path| == |fs| + 1
    && path[|fs|] < |kinds|
    && (fs != [] ==>
        && Climb(kinds, a, path[..|fs|], fs[..|fs| - 1], handing)
        && Monotone(fs[|fs| - 1])
        && kinds[path[|fs|]] == PipedStage(path[|fs| - 1]) && path[|fs| - 1] < path[|fs|]
        && Computes(kinds, a, path[|fs|], fs[|fs| - 1])
        && (handing ==> HandsOn(kinds, a, path[|fs|], fs[|fs| - 1])))
  }

  lemma {:induction false} ClimbStarts(kinds: seq<Kind>, a: System, path: seq<nat>, fs: seq<Bytes -> Bytes>, handing: bool)
    requires |a.lines| == |kinds| && Climb(kinds, a, path, fs, handing)
    ensures path[0] < |kinds|
    decreases |fs|
  {
    if fs != [] {
      ClimbStarts(kinds, a, path[..|fs|], fs[..|fs| - 1], handing);
    }
  }

  function Through(fs: seq<Bytes -> Bytes>, bytes: Bytes): Bytes {
    if fs == [] then bytes else fs[|fs| - 1](Through(fs[..|fs| - 1], bytes))
  }

  /**
   The reader at the top is told the composition of the stages applied to the
   bytes that came in at the bottom: a prefix of it, and all of it before a clean
   end. When the stages hand their input's end on, a clean end is the bottom's,
   and a fault is the bottom's own, unchanged, told after all of it.
   */
  lemma {:induction false} TopReadsTheComposition(kinds: seq<Kind>, a: System, path: seq<nat>, fs: seq<Bytes -> Bytes>, handing: bool)
    requires ValidPlan(kinds) && Reachable(kinds, a) && |a.lines| == |kinds|
    requires Climb(kinds, a, path, fs, handing)
    ensures path[0] < |kinds|
    ensures TopTold(a.lines[path[|fs|]], a.lines[path[0]], fs, handing)
    decreases |fs|
  {
    var n := |fs|;
    ReadsTellTheWholeStream(kinds, a, path[n]);
    if n > 0 {
      var below := path[..n];
      TopReadsTheComposition(kinds, a, below, fs[..n - 1], handing);
      assert below[0] == path[0] && below[n - 1] == path[n - 1];
      OneStageUp(kinds, a, path[n], a.lines[path[0]], fs, handing);
    }
  }

  ghost predicate TopTold(top: Line, bottom: Line, fs: seq<Bytes -> Bytes>, handing: bool) {
    var all := Through(fs, Produced(bottom));
    && DataOf(top.log) <= all
    && (EndsCleanly(top.log) ==> DataOf(top.log) == all && (handing || fs == [] ==> bottom.ending.Clean?))
    && (handing || fs == [] ==> forall fault :: EndsBroken(top.log, fault) ==> bottom.ending == Broken(fault) && DataOf(top.log) == all)
  }

  lemma OneStageUp(kinds: seq<Kind>, a: System, p: nat, bottom: Line, fs: seq<Bytes -> Bytes>, handing: bool)
    requires |a.lines| == |kinds| && p < |kinds| && kinds[p].PipedStage? && kinds[p].input < p && fs != []
    requires var f := fs[|fs| - 1]; Monotone(f) && Computes(kinds, a, p, f) && (handing ==> HandsOn(kinds, a, p, f))
    requires TopTold(a.lines[kinds[p].input], bottom, fs[..|fs| - 1], handing)
    requires var line := a.lines[p];
      && DataOf(line.log) <= Produced(line)
      && (EndsCleanly(line.log) ==> line.ending.Clean? && DataOf(line.log) == Produced(line))
      && (forall fault :: EndsBroken(line.log, fault) ==> line.ending == Broken(fault) && DataOf(line.log) == Produced(line))
    ensures TopTold(a.lines[p], bottom, fs, handing)
  {
    var f, input := fs[|fs| - 1], a.lines[kinds[p].input];
    assert f(DataOf(input.log)) <= f(Through(fs[..|fs| - 1], Produced(bottom)));
  }

  // ------------------------------------------------- after the block is abandoned

  /** Steps a stage has left once the block is abandoned, reads of its coder aside. */
  function Left(line: Line): nat {
    match line.pc
    case WantRoom => 1
    case ForRoom(_) => 1
    case Sending(_) => 2
    case Panicking => 1
    case Filling => 3 + if |line.hand| < PIPE_CHUNK then PIPE_CHUNK - |line.hand| else 0
    case Reading(_) => 4 + if |line.hand| < PIPE_CHUNK then PIPE_CHUNK - |line.hand| else 0
    case ForInput(_, _) => 4 + if |line.hand| < PIPE_CHUNK then PIPE_CHUNK - |line.hand| else 0
    case _ => 0
  }

  function AllLeft(lines: seq<Line>): nat {
    if lines == [] then 0 else AllLeft(lines[..|lines| - 1]) + Left(lines[|lines| - 1])
  }

  lemma {:induction false} LeftAfterPut(lines: seq<Line>, p: nat, line: Line)
    requires p < |lines|
    ensures AllLeft(lines[p := line]) == AllLeft(lines) - Left(lines[p]) + Left(line)
  {
    var last := |lines| - 1;
    if p == last {
      assert lines[p := line][..last] == lines[..last];
    } else {
      assert lines[p := line][..last] == lines[..last][p := line];
      LeftAfterPut(lines[..last], p, line);
    }
  }

  lemma {:induction false} LeftWhenWoken(lines: seq<Line>, woken: seq<Line>)
    requires |lines| == |woken|
    requires forall i :: 0 <= i < |lines| ==> Left(woken[i]) == Left(lines[i])
    ensures AllLeft(woken) == AllLeft(lines)
  {
    if lines != [] {
      LeftWhenWoken(lines[..|lines| - 1], woken[..|lines| - 1]);
    }
  }

  lemma ChangedLeavesLeft(a: System)
    ensures AllLeft(Changed(a).lines) == AllLeft(a.lines)
  {
    LeftWhenWoken(a.lines, Changed(a).lines);
  }

  lemma AnnouncedPutSpends(a: System, p: nat, next: Line)
    requires p < |a.lines| && Left(next) < Left(a.lines[p])
    ensures AllLeft(Changed(Put(a, p, next)).lines) < AllLeft(a.lines)
  {
    LeftAfterPut(a.lines, p, next);
    ChangedLeavesLeft(Put(a, p, next));
  }

  lemma ReadSpends(kinds: seq<Kind>, a: System, p: nat, max: nat)
    requires |kinds| == |a.lines| && Enabled(kinds, a, CoderReads(p, max))
    ensures AllLeft(Apply(kinds, a, CoderReads(p, max)).lines) <= AllLeft(a.lines) + 1
  {
    var q := kinds[p].input;
    if Unread(a.lines[q].reader) {
      LeftAfterPut(a.lines, q, CopiedOut(a.lines[q], max));
    } else {
      LeftAfterPut(a.lines, p, a.lines[p].(pc := Reading(max)));
    }
  }

  lemma QuietStepSpends(kinds: seq<Kind>, a: System, step: Step)
    requires Inv(kinds, a) && a.abandoned && Enabled(kinds, a, step)
    requires step.RoomPass? || step.CoderYields? || step.CoderStops? || step.CoderPanics? || step.ReadPass?
    ensures AllLeft(Apply(kinds, a, step).lines) < AllLeft(a.lines)
  {
    var p := step.stage;
    assert LineOk(kinds[p], a.lines[p], a.abandoned) && StageSleepOk(kinds, a, p);
    var next := Apply(kinds, a, step).lines[p];
    assert Apply(kinds, a, step) == Put(a, p, next);
    assert Left(next) < Left(a.lines[p]);
    LeftAfterPut(a.lines, p, next);
  }

  /** Each step of an abandoned pipeline uses one up, except that a coder may read again. */
  lemma AbandonedStepSpends(kinds: seq<Kind>, a: System, step: Step)
    requires Inv(kinds, a) && a.abandoned && Enabled(kinds, a, step) && !Spurious(step) && !step.JoinAll?
    ensures Apply(kinds, a, step).abandoned
    ensures AllLeft(Apply(kinds, a, step).lines) <= AllLeft(a.lines) + if step.CoderReads? then 1 else -1
  {
    assert IsStage(step);
    var p := step.stage;
    var line := a.lines[p];
    assert LineOk(kinds[p], line, a.abandoned);
    if step.SendPass? {
      AnnouncedPutSpends(a, p, LineSent(line, line.pc.outcome, if line.pc.outcome.More? then WantRoom else Exited));
    } else if step.PanicPass? {
      AnnouncedPutSpends(a, p, line.(pipe := line.pipe.(end := Failed(CoderPanicked)), pc := Exited, ending := Broken(CoderPanicked)));
    } else if step.CoderReads? {
      ReadSpends(kinds, a, p, step.max);
    } else {
      QuietStepSpends(kinds, a, step);
    }
  }

  function CoderReadsIn(steps: seq<Step>): nat {
    if steps == [] then 0 else CoderReadsIn(steps[..|steps| - 1]) + if steps[|steps| - 1].CoderReads? then 1 else 0
  }

  /** Every stage thread has exited, and the join of them has returned. */
  ghost predicate Over(kinds: seq<Kind>, a: System) {
    && |a.lines| == |kinds| && a.caller.Gone?
    && forall p :: 0 <= p < |kinds| && !kinds[p].Feed? ==> a.lines[p].pc.Exited?
  }

  /** After the joins nothing steps. */
  lemma NothingAfterTheJoins(kinds: seq<Kind>, a: System, step: Step)
    requires Inv(kinds, a) && Enabled(kinds, a, step) && !Spurious(step)
    ensures !a.caller.Gone?
  {
    if IsStage(step) {
      assert LineOk(kinds[step.stage], a.lines[step.stage], a.abandoned);
    }
  }

  /** A step after abandonment, not counted once the joins have returned. */
  lemma AbandonedStepTaken(kinds: seq<Kind>, a: System, step: Step)
    requires Inv(kinds, a) && a.abandoned && Enabled(kinds, a, step) && !Spurious(step)
    ensures var b := Apply(kinds, a, step);
      && Inv(kinds, b) && b.abandoned
      && (b.caller.Gone? || AllLeft(b.lines) <= AllLeft(a.lines) + if step.CoderReads? then 1 else -1)
  {
    InvKept(kinds, a, step);
    if !step.JoinAll? {
      AbandonedStepSpends(kinds, a, step);
    }
  }

  /** A run from a state in which the block is abandoned. */
  ghost predicate AbandonedRun(kinds: seq<Kind>, trace: seq<System>, steps: seq<Step>) {
    && |trace| == |steps| + 1 && Inv(kinds, trace[0]) && trace[0].abandoned
    && forall i :: 0 <= i < |steps| ==> Moves(kinds, trace, steps, i) && !Spurious(steps[i])
  }

  lemma {:induction false} UntilTheJoins(kinds: seq<Kind>, trace: seq<System>, steps: seq<Step>, k: nat)
    requires AbandonedRun(kinds, trace, steps) && k <= |steps|
    ensures Inv(kinds, trace[k]) && trace[k].abandoned
    ensures trace[k].caller.Gone? || k + AllLeft(trace[k].lines) <= AllLeft(trace[0].lines) + 2 * CoderReadsIn(steps[..k])
  {
    if k > 0 {
      UntilTheJoins(kinds, trace, steps, k - 1);
      assert Moves(kinds, trace, steps, k - 1);
      assert steps[..k][..k - 1] == steps[..k - 1];
      NothingAfterTheJoins(kinds, trace[k - 1], steps[k - 1]);
      AbandonedStepTaken(kinds, trace[k - 1], steps[k - 1]);
    }
  }

  lemma ReadsGrow(steps: seq<Step>)
    requires steps != []
    ensures CoderReadsIn(steps[..|steps| - 1]) <= CoderReadsIn(steps)
  {
  }

  /** A run that is not at its end has not reached the joins. */
  lemma WithinBound(kinds: seq<Kind>, trace: seq<System>, steps: seq<Step>, k: nat)
    requires AbandonedRun(kinds, trace, steps) && k < |steps|
    ensures k <= AllLeft(trace[0].lines) + 2 * CoderReadsIn(steps[..k])
  {
    UntilTheJoins(kinds, trace, steps, k);
    assert Moves(kinds, trace, steps, k);
    NothingAfterTheJoins(kinds, trace[k], steps[k]);
  }

  /**
   From abandonment on, a run takes no more steps than the stages had left and
   twice the reads of their coders, and one for the join.
   */
  lemma AbandonedRunsAreFinite(kinds: seq<Kind>, trace: seq<System>, steps: seq<Step>)
    requires AbandonedRun(kinds, trace, steps)
    ensures |steps| <= AllLeft(trace[0].lines) + 2 * CoderReadsIn(steps) + 1
  {
    if steps != [] {
      ReadsGrow(steps);
      WithinBound(kinds, trace, steps, |steps| - 1);
    }
  }

  /** Whatever the schedule, a run that has gone on longer has every stage exited and the joins returned. */
  lemma AbandonedRunsReturn(kinds: seq<Kind>, trace: seq<System>, steps: seq<Step>, k: nat)
    requires AbandonedRun(kinds, trace, steps) && k <= |steps|
    requires k > AllLeft(trace[0].lines) + 2 * CoderReadsIn(steps[..k])
    ensures Over(kinds, trace[k])
  {
    UntilTheJoins(kinds, trace, steps, k);
  }

  /** And a run that can go no further, abandoned or not, has got there. */
  lemma OverWhenNothingMoves(kinds: seq<Kind>, a: System)
    requires ValidPlan(kinds) && Reachable(kinds, a) && |a.lines| == |kinds|
    requires forall step :: Enabled(kinds, a, step) ==> Spurious(step)
    ensures Over(kinds, a)
  {
    ReachableInv(kinds, a);
    if !a.caller.Gone? {
      NeverDeadlocks(kinds, a);
    }
  }
}
