/** The bytes a pipe carries are the bytes its coder or its source yielded, in the order it yielded them. */
module PipelineBytes {
  import opened PipeState
  import opened Pipeline
  import opened PipelineInvariant
  import opened PipelineTheorems

  /** What a step adds to the stream of pipe `p`. */
  function Contribution(a: System, step: Step, p: nat): Bytes {
    match step
    case CoderYields(q, bytes) => if q == p then bytes else []
    case SourceYields(bytes) => if a.caller.Pumping? && a.caller.feed == p then bytes else []
    case _ => []
  }

  function Contributions(trace: seq<System>, steps: seq<Step>, p: nat): Bytes
    requires |trace| > |steps|
  {
    if steps == [] then []
    else Contributions(trace, steps[..|steps| - 1], p) + Contribution(trace[|steps| - 1], steps[|steps| - 1], p)
  }

  predicate Announces(step: Step) { step.SendPass? || step.PanicPass? || step.ReadPass? || step.TakePass? || step.PumpSend? || step.DropPass? }

  lemma QuietContribution(kinds: seq<Kind>, a: System, step: Step, p: nat)
    requires Inv(kinds, a) && Enabled(kinds, a, step) && p < |kinds| && step != CoderPanics(p) && !Announces(step)
    ensures Produced(Apply(kinds, a, step).lines[p]) == Produced(a.lines[p]) + Contribution(a, step, p)
  {
    assert LineOk(kinds[p], a.lines[p], a.abandoned);
  }

  lemma SentContribution(line: Line, outcome: Filled, pc: WriterPc)
    ensures Produced(LineSent(line, outcome, pc)) == Produced(line)
  {
  }

  lemma ReadContribution(kinds: seq<Kind>, a: System, r: nat, p: nat)
    requires |kinds| == |a.lines| && Enabled(kinds, a, ReadPass(r)) && p < |kinds|
    ensures Produced(Apply(kinds, a, ReadPass(r)).lines[p]) == Produced(a.lines[p])
  {
    var q := kinds[r].input;
    var (line, answer) := LineTaken(a.lines[q]);
    assert Produced(line) == Produced(a.lines[q]) && Produced(CopiedOut(line, a.lines[r].pc.max)) == Produced(line);
  }

  lemma AnnouncedContribution(kinds: seq<Kind>, a: System, step: Step, p: nat)
    requires Inv(kinds, a) && Enabled(kinds, a, step) && p < |kinds| && Announces(step)
    ensures Produced(Apply(kinds, a, step).lines[p]) == Produced(a.lines[p])
  {
    if step.ReadPass? {
      ReadContribution(kinds, a, step.stage, p);
    } else if step.SendPass? {
      SentContribution(a.lines[step.stage], a.lines[step.stage].pc.outcome, WantRoom);
    } else if step.PumpSend? {
      SentContribution(a.lines[a.caller.feed], a.lines[a.caller.feed].pc.outcome, Resting);
    }
  }

  lemma StepContribution(kinds: seq<Kind>, a: System, step: Step, p: nat)
    requires Inv(kinds, a) && Enabled(kinds, a, step) && p < |kinds| && step != CoderPanics(p)
    ensures |Apply(kinds, a, step).lines| == |kinds|
    ensures Produced(Apply(kinds, a, step).lines[p]) == Produced(a.lines[p]) + Contribution(a, step, p)
  {
    if Announces(step) {
      AnnouncedContribution(kinds, a, step, p);
    } else {
      QuietContribution(kinds, a, step, p);
    }
  }

  /** Unless the coder panicked, which loses the piece in its hand, nothing it yielded is missing. */
  lemma {:induction false} ProducedIsWhatWasYielded(kinds: seq<Kind>, trace: seq<System>, steps: seq<Step>, p: nat, k: nat)
    requires ValidPlan(kinds) && Run(kinds, trace, steps) && p < |kinds| && k <= |steps|
    requires forall i :: 0 <= i < |steps| ==> steps[i] != CoderPanics(p)
    ensures |trace[k].lines| == |kinds|
    ensures Produced(trace[k].lines[p]) == Contributions(trace, steps[..k], p)
  {
    if k > 0 {
      ProducedIsWhatWasYielded(kinds, trace, steps, p, k - 1);
      InvAlong(kinds, trace, steps, k - 1);
      assert Moves(kinds, trace, steps, k - 1);
      assert steps[..k][..k - 1] == steps[..k - 1] && steps[..k][k - 1] == steps[k - 1];
      StepContribution(kinds, trace[k - 1], steps[k - 1], p);
    }
  }
}
