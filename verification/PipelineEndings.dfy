/** How a pipe ends for its reader is how its coder or its source ended, a panic included. */
module PipelineEndings {
  import opened PipeState
  import opened Pipeline
  import opened PipelineInvariant
  import opened PipelineSteps
  import opened PipelineTheorems
  import opened PipelineBytes

  /** Step `i` is one at which the writer of pipe `p` stopped with `outcome`. */
  predicate StopsAt(a: System, step: Step, p: nat, outcome: Filled) {
    step == CoderStops(p, outcome) || (step == SourceStops(outcome) && a.caller.Pumping? && a.caller.feed == p)
  }

  ghost predicate Stopped(trace: seq<System>, steps: seq<Step>, k: nat, p: nat, outcome: Filled)
    requires |trace| == |steps| + 1 && k <= |steps|
  {
    exists i :: 0 <= i < k && StopsAt(trace[i], steps[i], p, outcome)
  }

  ghost predicate Panicked(steps: seq<Step>, k: nat, p: nat)
    requires k <= |steps|
  {
    exists i :: 0 <= i < k && steps[i] == CoderPanics(p)
  }

  // ------------------------------------------------- what the writer's steps came to

  /** What the writer of pipe `p` has ended with after a step, from what it had ended with before. */
  function NextVerdict(a: System, step: Step, p: nat, verdict: Filled): Filled {
    match step
    case CoderStops(q, outcome) => if q == p then outcome else verdict
    case CoderPanics(q) => if q == p then Broken(CoderPanicked) else verdict
    case SourceStops(outcome) => if a.caller.Pumping? && a.caller.feed == p then outcome else verdict
    case _ => verdict
  }

  function Verdict(trace: seq<System>, steps: seq<Step>, k: nat, p: nat): Filled
    requires |trace| == |steps| + 1 && k <= |steps|
  {
    if k == 0 then More else NextVerdict(trace[k - 1], steps[k - 1], p, Verdict(trace, steps, k - 1, p))
  }

  /** Until the writer stops it has come to nothing; what it came to is on its way, and then what it ended with. */
  predicate Settled(line: Line, verdict: Filled) {
    match line.pc
    case Sending(outcome) => verdict == outcome
    case PumpSending(outcome) => verdict == outcome
    case Panicking => verdict == Broken(CoderPanicked)
    case Exited => verdict == line.ending
    case _ => verdict.More?
  }

  lemma SettledQuietly(kinds: seq<Kind>, a: System, step: Step, p: nat, verdict: Filled)
    requires Inv(kinds, a) && Enabled(kinds, a, step) && p < |kinds| && !Announces(step)
    requires Settled(a.lines[p], verdict)
    ensures Settled(Apply(kinds, a, step).lines[p], NextVerdict(a, step, p, verdict))
  {
    assert LineOk(kinds[p], a.lines[p], a.abandoned);
  }

  /** A step that announces a change leaves a writer where it was, or takes it past its read, its send or its panic. */
  predicate MovesOn(was: Line, now: Line) {
    || ((now.pc == was.pc || now.pc == WokenPc(was.pc)) && now.ending == was.ending)
    || ((was.pc.Reading? || was.pc.ForInput?) && (now.pc.Filling? || now.pc.ForInput?))
    || ((was.pc == Sending(More) || was.pc == PumpSending(More)) && (now.pc.WantRoom? || now.pc.Resting?))
    || ((was.pc == Sending(now.ending) || was.pc == PumpSending(now.ending)) && now.pc.Exited?)
    || (was.pc.Panicking? && now.pc.Exited? && now.ending == Broken(CoderPanicked))
  }

  lemma ReadMovesOn(kinds: seq<Kind>, a: System, r: nat, p: nat)
    requires |kinds| == |a.lines| && Enabled(kinds, a, ReadPass(r)) && p < |kinds|
    ensures MovesOn(a.lines[p], Apply(kinds, a, ReadPass(r)).lines[p])
  {
    var q := kinds[r].input;
    var (line, answer) := LineTaken(a.lines[q]);
    assert line.pc == a.lines[q].pc && line.ending == a.lines[q].ending;
  }

  lemma TakeMovesOn(kinds: seq<Kind>, a: System, p: nat)
    requires |kinds| == |a.lines| && Enabled(kinds, a, TakePass) && p < |kinds|
    ensures MovesOn(a.lines[p], Apply(kinds, a, TakePass).lines[p])
  {
    var (line, answer) := LineTaken(a.lines[a.caller.pipe]);
    assert line.pc == a.lines[a.caller.pipe].pc && line.ending == a.lines[a.caller.pipe].ending;
  }

  lemma AnnouncedMovesOn(kinds: seq<Kind>, a: System, step: Step, p: nat)
    requires |kinds| == |a.lines| && Enabled(kinds, a, step) && p < |kinds| && Announces(step)
    ensures |Apply(kinds, a, step).lines| == |kinds| && MovesOn(a.lines[p], Apply(kinds, a, step).lines[p])
  {
    if step.ReadPass? {
      ReadMovesOn(kinds, a, step.stage, p);
    } else if step.TakePass? {
      TakeMovesOn(kinds, a, p);
    }
  }

  /** A writer that still has something to do has not stopped. */
  lemma StopsOnce(kinds: seq<Kind>, a: System, step: Step, p: nat, verdict: Filled)
    requires Inv(kinds, a) && Enabled(kinds, a, step) && p < |kinds| && Settled(a.lines[p], verdict)
    ensures NextVerdict(a, step, p, verdict) == verdict || verdict.More?
  {
  }

  lemma SettledStep(kinds: seq<Kind>, a: System, step: Step, p: nat, verdict: Filled)
    requires Inv(kinds, a) && Enabled(kinds, a, step) && p < |kinds| && Settled(a.lines[p], verdict)
    ensures |Apply(kinds, a, step).lines| == |kinds|
    ensures Settled(Apply(kinds, a, step).lines[p], NextVerdict(a, step, p, verdict))
    ensures NextVerdict(a, step, p, verdict) == verdict || verdict.More?
  {
    StopsOnce(kinds, a, step, p, verdict);
    if Announces(step) {
      AnnouncedMovesOn(kinds, a, step, p);
    } else {
      SettledQuietly(kinds, a, step, p, verdict);
      InvKept(kinds, a, step);
    }
  }

  lemma {:induction false} SettledAlong(kinds: seq<Kind>, trace: seq<System>, steps: seq<Step>, k: nat, p: nat)
    requires ValidPlan(kinds) && Run(kinds, trace, steps) && k <= |steps| && p < |kinds|
    ensures |trace[k].lines| == |kinds| && Settled(trace[k].lines[p], Verdict(trace, steps, k, p))
    ensures k > 0 ==> Verdict(trace, steps, k, p) == Verdict(trace, steps, k - 1, p) || Verdict(trace, steps, k - 1, p).More?
  {
    if k > 0 {
      SettledAlong(kinds, trace, steps, k - 1, p);
      InvAlong(kinds, trace, steps, k - 1);
      assert Moves(kinds, trace, steps, k - 1);
      SettledStep(kinds, trace[k - 1], steps[k - 1], p, Verdict(trace, steps, k - 1, p));
    }
  }

  /** What the writer came to at step `i` it has come to ever since. */
  lemma {:induction false} VerdictStands(kinds: seq<Kind>, trace: seq<System>, steps: seq<Step>, i: nat, k: nat, p: nat)
    requires ValidPlan(kinds) && Run(kinds, trace, steps) && i <= k <= |steps| && p < |kinds|
    requires !Verdict(trace, steps, i, p).More?
    ensures Verdict(trace, steps, k, p) == Verdict(trace, steps, i, p)
  {
    if i < k {
      VerdictStands(kinds, trace, steps, i, k - 1, p);
      SettledAlong(kinds, trace, steps, k, p);
    }
  }

  lemma VerdictIsTheStop(kinds: seq<Kind>, trace: seq<System>, steps: seq<Step>, k: nat, p: nat, outcome: Filled)
    requires ValidPlan(kinds) && Run(kinds, trace, steps) && k <= |steps| && p < |kinds|
    requires Stopped(trace, steps, k, p, outcome)
    ensures Verdict(trace, steps, k, p) == outcome
  {
    var i :| 0 <= i < k && StopsAt(trace[i], steps[i], p, outcome);
    StillToStop(kinds, trace, steps, i, p, outcome);
    VerdictStands(kinds, trace, steps, i + 1, k, p);
  }

  lemma VerdictIsThePanic(kinds: seq<Kind>, trace: seq<System>, steps: seq<Step>, k: nat, p: nat)
    requires ValidPlan(kinds) && Run(kinds, trace, steps) && k <= |steps| && p < |kinds|
    requires Panicked(steps, k, p)
    ensures Verdict(trace, steps, k, p) == Broken(CoderPanicked)
  {
    var i :| 0 <= i < k && steps[i] == CoderPanics(p);
    VerdictStands(kinds, trace, steps, i + 1, k, p);
  }

  lemma StillToStop(kinds: seq<Kind>, trace: seq<System>, steps: seq<Step>, i: nat, p: nat, outcome: Filled)
    requires Run(kinds, trace, steps) && i < |steps| && StopsAt(trace[i], steps[i], p, outcome)
    ensures !outcome.More?
  {
    assert Moves(kinds, trace, steps, i);
  }

  lemma {:induction false} VerdictWasReached(trace: seq<System>, steps: seq<Step>, k: nat, p: nat)
    requires |trace| == |steps| + 1 && k <= |steps|
    ensures var verdict := Verdict(trace, steps, k, p);
      verdict.More? || Stopped(trace, steps, k, p, verdict) || (verdict == Broken(CoderPanicked) && Panicked(steps, k, p))
  {
    if k > 0 {
      VerdictWasReached(trace, steps, k - 1, p);
      var before := Verdict(trace, steps, k - 1, p);
      assert NextVerdict(trace[k - 1], steps[k - 1], p, before) == before
        || StopsAt(trace[k - 1], steps[k - 1], p, Verdict(trace, steps, k, p))
        || steps[k - 1] == CoderPanics(p);
    }
  }

  /**
   A reader is told a clean end only when the writer stopped cleanly, and a fault
   only when the writer stopped with it or its coder panicked; a panic is never
   told as anything else, and above all never as an end.
   */
  lemma EndsAsItsWriterDid(kinds: seq<Kind>, trace: seq<System>, steps: seq<Step>, k: nat, p: nat)
    requires ValidPlan(kinds) && Run(kinds, trace, steps) && k <= |steps| && p < |kinds|
    ensures |trace[k].lines| == |kinds|
    ensures var log := trace[k].lines[p].log;
      && (EndsCleanly(log) ==> Stopped(trace, steps, k, p, Clean))
      && (forall fault :: EndsBroken(log, fault) ==>
            Stopped(trace, steps, k, p, Broken(fault)) || (fault == CoderPanicked && Panicked(steps, k, p)))
      && (Panicked(steps, k, p) ==>
            !EndsCleanly(log) && forall fault :: EndsBroken(log, fault) ==> fault == CoderPanicked)
  {
    SettledAlong(kinds, trace, steps, k, p);
    VerdictWasReached(trace, steps, k, p);
    if Panicked(steps, k, p) {
      VerdictIsThePanic(kinds, trace, steps, k, p);
    }
    InvAlong(kinds, trace, steps, k);
    PrefixRuns(kinds, trace, steps, k);
    assert trace[..k + 1][|steps[..k]|] == trace[k];
    ReadsTellTheWholeStream(kinds, trace[k], p);
    assert LineOk(kinds[p], trace[k].lines[p], trace[k].abandoned);
  }

  lemma PrefixRuns(kinds: seq<Kind>, trace: seq<System>, steps: seq<Step>, k: nat)
    requires Run(kinds, trace, steps) && k <= |steps|
    ensures Run(kinds, trace[..k + 1], steps[..k])
  {
    var shorter, taken := trace[..k + 1], steps[..k];
    forall i | 0 <= i < k ensures Moves(kinds, shorter, taken, i) {
      assert Moves(kinds, trace, steps, i);
    }
  }

  /** A writer that stopped or panicked, and whose thread is done, has left that as the pipe's end, or its reader has it. */
  lemma TheEndIsLeft(kinds: seq<Kind>, trace: seq<System>, steps: seq<Step>, k: nat, p: nat)
    requires ValidPlan(kinds) && Run(kinds, trace, steps) && k <= |steps| && p < |kinds|
    ensures |trace[k].lines| == |kinds|
    ensures var line := trace[k].lines[p];
      line.pc.Exited? ==>
        && (Stopped(trace, steps, k, p, Clean) ==> line.pipe.end == Done)
        && (forall fault :: Stopped(trace, steps, k, p, Broken(fault)) ==>
              line.pipe.end == Failed(fault) || EndsBroken(line.log, fault))
        && (Panicked(steps, k, p) ==> line.pipe.end == Failed(CoderPanicked) || EndsBroken(line.log, CoderPanicked))
  {
    SettledAlong(kinds, trace, steps, k, p);
    InvAlong(kinds, trace, steps, k);
    assert LineOk(kinds[p], trace[k].lines[p], trace[k].abandoned);
    if Stopped(trace, steps, k, p, Clean) {
      VerdictIsTheStop(kinds, trace, steps, k, p, Clean);
    }
    forall fault | Stopped(trace, steps, k, p, Broken(fault)) ensures Verdict(trace, steps, k, p) == Broken(fault) {
      VerdictIsTheStop(kinds, trace, steps, k, p, Broken(fault));
    }
    if Panicked(steps, k, p) {
      VerdictIsThePanic(kinds, trace, steps, k, p);
    }
  }

  // ------------------------------------------------- what a panic loses

  lemma NothingYieldedWhenDone(kinds: seq<Kind>, a: System, step: Step, p: nat)
    requires |kinds| == |a.lines| && Enabled(kinds, a, step) && p < |kinds|
    requires a.lines[p].pc.Panicking? || a.lines[p].pc.Exited?
    ensures Contribution(a, step, p) == [] && step != CoderPanics(p)
  {
  }

  lemma DoneStaysDone(kinds: seq<Kind>, a: System, step: Step, p: nat)
    requires Inv(kinds, a) && Enabled(kinds, a, step) && p < |kinds|
    requires a.lines[p].pc.Panicking? || a.lines[p].pc.Exited?
    ensures var b := Apply(kinds, a, step);
      |b.lines| == |kinds| && (b.lines[p].pc.Panicking? || b.lines[p].pc.Exited?)
  {
    if Announces(step) {
      AnnouncedMovesOn(kinds, a, step, p);
    } else {
      DoneStaysDoneQuietly(kinds, a, step, p);
    }
  }

  lemma DoneStaysDoneQuietly(kinds: seq<Kind>, a: System, step: Step, p: nat)
    requires |kinds| == |a.lines| && Enabled(kinds, a, step) && p < |kinds| && !Announces(step)
    requires a.lines[p].pc.Panicking? || a.lines[p].pc.Exited?
    ensures var b := Apply(kinds, a, step);
      |b.lines| == |kinds| && (b.lines[p].pc.Panicking? || b.lines[p].pc.Exited?)
  {
  }

  lemma PanicDropsTheHand(kinds: seq<Kind>, a: System, p: nat)
    requires Inv(kinds, a) && Enabled(kinds, a, CoderPanics(p))
    ensures var b := Apply(kinds, a, CoderPanics(p));
      |b.lines| == |kinds| && Produced(b.lines[p]) <= Produced(a.lines[p]) && b.lines[p].pc.Panicking?
  {
  }

  /** What pipe `p` has carried against what its writer yielded: all of it, or less once the coder has panicked. */
  predicate Carried(line: Line, yielded: Bytes, panicked: bool) {
    if panicked then Produced(line) <= yielded && (line.pc.Panicking? || line.pc.Exited?) else Produced(line) == yielded
  }

  lemma CarriedAfter(kinds: seq<Kind>, a: System, step: Step, p: nat, yielded: Bytes, panicked: bool)
    requires Inv(kinds, a) && Enabled(kinds, a, step) && p < |kinds| && Carried(a.lines[p], yielded, panicked)
    ensures |Apply(kinds, a, step).lines| == |kinds|
    ensures Carried(Apply(kinds, a, step).lines[p], yielded + Contribution(a, step, p), panicked || step == CoderPanics(p))
  {
    if panicked {
      NothingYieldedWhenDone(kinds, a, step, p);
      DoneStaysDone(kinds, a, step, p);
      assert yielded + [] == yielded;
      StepContribution(kinds, a, step, p);
      assert Produced(a.lines[p]) + [] == Produced(a.lines[p]);
    } else if step == CoderPanics(p) {
      PanicDropsTheHand(kinds, a, p);
      assert yielded + [] == yielded;
    } else {
      StepContribution(kinds, a, step, p);
    }
  }

  lemma {:induction false} LessOnlyAfterPanic(kinds: seq<Kind>, trace: seq<System>, steps: seq<Step>, p: nat, k: nat)
    requires ValidPlan(kinds) && Run(kinds, trace, steps) && p < |kinds| && k <= |steps|
    ensures |trace[k].lines| == |kinds|
    ensures Carried(trace[k].lines[p], Contributions(trace, steps[..k], p), Panicked(steps, k, p))
  {
    if k > 0 {
      LessOnlyAfterPanic(kinds, trace, steps, p, k - 1);
      InvAlong(kinds, trace, steps, k - 1);
      assert Moves(kinds, trace, steps, k - 1);
      assert steps[..k][..k - 1] == steps[..k - 1] && steps[..k][k - 1] == steps[k - 1];
      assert Panicked(steps, k, p) <==> Panicked(steps, k - 1, p) || steps[k - 1] == CoderPanics(p);
      CarriedAfter(kinds, trace[k - 1], steps[k - 1], p, Contributions(trace, steps[..k - 1], p), Panicked(steps, k - 1, p));
    }
  }

  /**
   What a reader is told is always a prefix of what the coder or the source
   yielded, whatever becomes of the writer; and before a clean end it is all of it.
   */
  lemma ReadsAreWhatWasYielded(kinds: seq<Kind>, trace: seq<System>, steps: seq<Step>, p: nat, k: nat)
    requires ValidPlan(kinds) && Run(kinds, trace, steps) && p < |kinds| && k <= |steps|
    ensures |trace[k].lines| == |kinds|
    ensures var log := trace[k].lines[p].log;
      && DataOf(log) <= Contributions(trace, steps[..k], p)
      && (EndsCleanly(log) ==> DataOf(log) == Contributions(trace, steps[..k], p))
      && (forall fault :: EndsBroken(log, fault) && !Panicked(steps, k, p) ==> DataOf(log) == Contributions(trace, steps[..k], p))
  {
    LessOnlyAfterPanic(kinds, trace, steps, p, k);
    EndsAsItsWriterDid(kinds, trace, steps, k, p);
    PrefixRuns(kinds, trace, steps, k);
    assert trace[..k + 1][|steps[..k]|] == trace[k];
    ReadsTellTheWholeStream(kinds, trace[k], p);
  }
}
