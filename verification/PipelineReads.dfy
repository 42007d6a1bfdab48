/** Every read of a pipe is answered once, in order, and with no more than it asked for. */
module PipelineReads {
  import opened Common
  import opened PipeState
  import opened Pipeline
  import opened PipelineInvariant
  import opened PipelineSteps
  import opened PipelineTheorems

  /** The bytes a step asks pipe `q` for, when it begins a read of it. */
  function AskedAt(kinds: seq<Kind>, step: Step, q: nat): seq<nat> {
    match step
    case CallerReads(p, max) => if p == q then [max] else []
    case CoderReads(p, max) => if p < |kinds| && kinds[p] == PipedStage(q) then [max] else []
    case _ => []
  }

  /** What the reads of pipe `q` asked for in the first `k` steps, in order. */
  function Asked(kinds: seq<Kind>, steps: seq<Step>, k: nat, q: nat): seq<nat>
    requires k <= |steps|
  {
    if k == 0 then [] else Asked(kinds, steps, k - 1, q) + AskedAt(kinds, steps[k - 1], q)
  }

  /** The read of pipe `q` that the caller is in the middle of. */
  function CallerPending(caller: CallerPc, q: nat): Option<nat> {
    match caller
    case Taking(p, max) => if p == q then Some(max) else None
    case Pumping(_, p, max, after) => if p == q && (after.Recheck? || after.answer.Piece?) then Some(max) else None
    case Waiting(p, max, _) => if p == q then Some(max) else None
    case Asleep(p, max, _, _) => if p == q then Some(max) else None
    case _ => None
  }

  function StagePending(pc: WriterPc): Option<nat> {
    match pc
    case Reading(max) => Some(max)
    case ForInput(max, _) => Some(max)
    case _ => None
  }

  /** Reads asked for and answered, all but the one pending; data comes to at least a byte and no more than was asked. */
  ghost predicate Matches(log: seq<Told>, asked: seq<nat>, pending: Option<nat>) {
    && |asked| == |log| + (if pending.Some? then 1 else 0)
    && (pending.Some? ==> asked[|log|] == pending.value)
    && forall i :: 0 <= i < |log| && log[i].Data? ==> 0 < |log[i].bytes| <= asked[i]
  }

  lemma AskOne(log: seq<Told>, asked: seq<nat>, max: nat)
    requires Matches(log, asked, None)
    ensures Matches(log, asked + [max], Some(max))
  {
  }

  lemma TellOne(log: seq<Told>, asked: seq<nat>, max: nat, told: Told)
    requires Matches(log, asked, Some(max)) && (told.Data? ==> 0 < |told.bytes| <= max)
    ensures Matches(log + [told], asked, None)
  {
  }

  /** The reads of pipe `q` against its reader, the caller or a stage. */
  ghost predicate Answered(kinds: seq<Kind>, a: System, q: nat, asked: seq<nat>)
    requires |kinds| == |a.lines| && q < |kinds|
  {
    && (ReadByCaller(kinds, q) ==> Matches(a.lines[q].log, asked, CallerPending(a.caller, q)))
    && forall p :: 0 <= p < |kinds| && kinds[p] == PipedStage(q) ==> Matches(a.lines[q].log, asked, StagePending(a.lines[p].pc))
  }

  /** Nothing was told of `q`, and its reader is where it was. */
  ghost predicate Unmoved(kinds: seq<Kind>, a: System, b: System, q: nat)
    requires |kinds| == |a.lines| && q < |kinds|
  {
    && |b.lines| == |a.lines| && b.lines[q].log == a.lines[q].log
    && (ReadByCaller(kinds, q) ==> CallerPending(b.caller, q) == CallerPending(a.caller, q))
    && forall p :: 0 <= p < |kinds| && kinds[p] == PipedStage(q) ==> StagePending(b.lines[p].pc) == StagePending(a.lines[p].pc)
  }

  lemma UnmovedAnswered(kinds: seq<Kind>, a: System, b: System, q: nat, asked: seq<nat>)
    requires |kinds| == |a.lines| && q < |kinds| && Answered(kinds, a, q, asked) && Unmoved(kinds, a, b, q)
    ensures Answered(kinds, b, q, asked)
  {
  }

  lemma CopiedTells(line: Line, max: nat)
    requires Unread(line.reader) && max > 0
    ensures var next := CopiedOut(line, max);
      |next.log| == |line.log| + 1 && next.log[..|line.log|] == line.log && next.log[|line.log|].Data?
      && 0 < |next.log[|line.log|].bytes| <= max && next.log == line.log + [next.log[|line.log|]] && next.pc == line.pc
  {
  }

  // ------------------------------------------------- the caller's reads

  lemma AnsweredAfterAsk(kinds: seq<Kind>, a: System, q: nat, max: nat, r: nat, asked: seq<nat>)
    requires Inv(kinds, a) && Enabled(kinds, a, CallerReads(r, max)) && q < |kinds| && Answered(kinds, a, q, asked)
    ensures var b := Apply(kinds, a, CallerReads(r, max));
      |b.lines| == |kinds| && Answered(kinds, b, q, asked + AskedAt(kinds, CallerReads(r, max), q))
  {
    var b := Apply(kinds, a, CallerReads(r, max));
    assert asked + [] == asked;
    if q == r {
      AskOne(a.lines[q].log, asked, max);
      if Unread(a.lines[q].reader) {
        CopiedTells(a.lines[q], max);
        TellOne(a.lines[q].log, asked + [max], max, b.lines[q].log[|a.lines[q].log|]);
      }
    } else {
      UnmovedAnswered(kinds, a, b, q, asked);
    }
  }

  lemma TakenTells(line: Line)
    ensures var (next, answer) := LineTaken(line);
      && next.pc == line.pc
      && (if answer.EndOfStream? then next.log == line.log + [Eof]
          else if answer.Failure? then next.log == line.log + [Error(answer.fault)]
          else next.log == line.log)
  {
  }

  /** The caller's read, line by line. */
  lemma TakeLine(kinds: seq<Kind>, a: System, i: nat)
    requires |kinds| == |a.lines| && Enabled(kinds, a, TakePass) && i < |kinds|
    ensures var b, (line, answer) := Apply(kinds, a, TakePass), LineTaken(a.lines[a.caller.pipe]);
      && |b.lines| == |kinds| && StagePending(b.lines[i].pc) == StagePending(a.lines[i].pc)
      && b.lines[i].log == if i == a.caller.pipe then line.log else a.lines[i].log
  {
    TakenTells(a.lines[a.caller.pipe]);
  }

  lemma TakeCaller(kinds: seq<Kind>, a: System, q: nat)
    requires |kinds| == |a.lines| && Enabled(kinds, a, TakePass)
    ensures var b, (line, answer) := Apply(kinds, a, TakePass), LineTaken(a.lines[a.caller.pipe]);
      CallerPending(b.caller, q) ==
        if q == a.caller.pipe && (answer.EndOfStream? || answer.Failure?) then None else CallerPending(a.caller, q)
  {
  }

  lemma AnsweredAfterTake(kinds: seq<Kind>, a: System, q: nat, asked: seq<nat>)
    requires Inv(kinds, a) && Enabled(kinds, a, TakePass) && q < |kinds| && Answered(kinds, a, q, asked)
    ensures var b := Apply(kinds, a, TakePass); |b.lines| == |kinds| && Answered(kinds, b, q, asked)
  {
    var b, r := Apply(kinds, a, TakePass), a.caller.pipe;
    var (line, answer) := LineTaken(a.lines[r]);
    TakenTells(a.lines[r]);
    TakeCaller(kinds, a, q);
    forall i | 0 <= i < |kinds|
      ensures |b.lines| == |kinds| && StagePending(b.lines[i].pc) == StagePending(a.lines[i].pc)
      ensures b.lines[i].log == if i == r then line.log else a.lines[i].log
    {
      TakeLine(kinds, a, i);
    }
    if q == r && (answer.EndOfStream? || answer.Failure?) {
      TellOne(a.lines[q].log, asked, a.caller.max, if answer.EndOfStream? then Eof else Error(answer.fault));
    } else {
      UnmovedAnswered(kinds, a, b, q, asked);
    }
  }

  lemma AnsweredAfterLook(kinds: seq<Kind>, a: System, q: nat, asked: seq<nat>)
    requires Inv(kinds, a) && Enabled(kinds, a, PumpLook) && q < |kinds| && Answered(kinds, a, q, asked)
    ensures var b := Apply(kinds, a, PumpLook); |b.lines| == |kinds| && Answered(kinds, b, q, asked)
  {
    var b, c := Apply(kinds, a, PumpLook), a.caller;
    if q == c.pipe && c.feed >= |a.lines| && c.after == Resume(Piece) {
      CopiedTells(a.lines[q], c.max);
      TellOne(a.lines[q].log, asked, c.max, b.lines[q].log[|a.lines[q].log|]);
    } else {
      UnmovedAnswered(kinds, a, b, q, asked);
    }
  }

  // ------------------------------------------------- a stage's reads

  lemma AnsweredAfterCoderAsks(kinds: seq<Kind>, a: System, q: nat, p: nat, max: nat, asked: seq<nat>)
    requires Inv(kinds, a) && Enabled(kinds, a, CoderReads(p, max)) && q < |kinds| && Answered(kinds, a, q, asked)
    ensures var b := Apply(kinds, a, CoderReads(p, max));
      |b.lines| == |kinds| && Answered(kinds, b, q, asked + AskedAt(kinds, CoderReads(p, max), q))
  {
    var b := Apply(kinds, a, CoderReads(p, max));
    assert asked + [] == asked;
    if q == kinds[p].input {
      AskOne(a.lines[q].log, asked, max);
      if Unread(a.lines[q].reader) {
        CopiedTells(a.lines[q], max);
        TellOne(a.lines[q].log, asked + [max], max, b.lines[q].log[|a.lines[q].log|]);
      }
    } else {
      UnmovedAnswered(kinds, a, b, q, asked);
    }
  }

  /** What a stage's read of pipe `r` is told; nothing while it has to wait. */
  function ReadTold(line: Line, max: nat): seq<Told> {
    var (next, answer) := LineTaken(line);
    match answer
    case Piece => [Data(next.reader.buf[..Least(max, |next.reader.buf|)])]
    case EndOfStream => [Eof]
    case Failure(fault) => [Error(fault)]
    case NotYet => []
  }

  lemma TakenRead(kind: Kind, line: Line, max: nat, abandoned: bool)
    requires LineOk(kind, line, abandoned) && Drained2(line) && max > 0
    ensures var (next, answer) := LineTaken(line);
      && next.pc == line.pc && CopiedOut(next, max).pc == line.pc
      && (if answer.Piece? then CopiedOut(next, max).log == line.log + ReadTold(line, max) else next.log == line.log + ReadTold(line, max))
      && |ReadTold(line, max)| <= 1
      && (ReadTold(line, max) == [] <==> answer.NotYet?)
      && (ReadTold(line, max) != [] && ReadTold(line, max)[0].Data? ==> 0 < |ReadTold(line, max)[0].bytes| <= max)
  {
    LineTakenOk(kind, line, abandoned);
    TakenTells(line);
    assert line.log + [] == line.log;
  }

  lemma ReadPassPc(kinds: seq<Kind>, a: System, p: nat, i: nat)
    requires |kinds| == |a.lines| && Enabled(kinds, a, ReadPass(p)) && i < |kinds| && !a.abandoned
    ensures var b, r, max := Apply(kinds, a, ReadPass(p)), kinds[p].input, a.lines[p].pc.max;
      && |b.lines| == |kinds|
      && StagePending(b.lines[i].pc) ==
           if i == p then (if ReadTold(a.lines[r], max) == [] then Some(max) else None) else StagePending(a.lines[i].pc)
  {
    TakenTells(a.lines[kinds[p].input]);
  }

  lemma ReadPassLog(kinds: seq<Kind>, a: System, p: nat, i: nat)
    requires Inv(kinds, a) && Enabled(kinds, a, ReadPass(p)) && i < |kinds| && !a.abandoned
    ensures var b, r, max := Apply(kinds, a, ReadPass(p)), kinds[p].input, a.lines[p].pc.max;
      && |b.lines| == |kinds|
      && b.lines[i].log == (if i == r then a.lines[i].log + ReadTold(a.lines[r], max) else a.lines[i].log)
  {
    var r, max := kinds[p].input, a.lines[p].pc.max;
    assert LineOk(kinds[p], a.lines[p], a.abandoned) && LineOk(kinds[r], a.lines[r], a.abandoned) && StageSleepOk(kinds, a, p);
    TakenRead(kinds[r], a.lines[r], max, a.abandoned);
    assert a.lines[r].log + [] == a.lines[r].log;
  }

  lemma ReadPassCaller(kinds: seq<Kind>, a: System, p: nat, q: nat)
    requires |kinds| == |a.lines| && Enabled(kinds, a, ReadPass(p))
    ensures CallerPending(Apply(kinds, a, ReadPass(p)).caller, q) == CallerPending(a.caller, q)
  {
  }

  lemma AnsweredAfterReadPass(kinds: seq<Kind>, a: System, q: nat, p: nat, asked: seq<nat>)
    requires Inv(kinds, a) && Enabled(kinds, a, ReadPass(p)) && q < |kinds| && Answered(kinds, a, q, asked) && !a.abandoned
    ensures var b := Apply(kinds, a, ReadPass(p)); |b.lines| == |kinds| && Answered(kinds, b, q, asked)
  {
    var b, r, max := Apply(kinds, a, ReadPass(p)), kinds[p].input, a.lines[p].pc.max;
    forall i | 0 <= i < |kinds|
      ensures |b.lines| == |kinds|
      ensures b.lines[i].log == (if i == r then a.lines[i].log + ReadTold(a.lines[r], max) else a.lines[i].log)
      ensures StagePending(b.lines[i].pc) ==
           if i == p then (if ReadTold(a.lines[r], max) == [] then Some(max) else None) else StagePending(a.lines[i].pc)
    {
      ReadPassPc(kinds, a, p, i);
      ReadPassLog(kinds, a, p, i);
    }
    assert LineOk(kinds[r], a.lines[r], a.abandoned) && LineOk(kinds[p], a.lines[p], a.abandoned) && StageSleepOk(kinds, a, p);
    TakenRead(kinds[r], a.lines[r], max, a.abandoned);
    ReadPassCaller(kinds, a, p, q);
    ReadPassAnswers(kinds, a, b, p, q, asked);
  }

  lemma ReadPassAnswers(kinds: seq<Kind>, a: System, b: System, p: nat, q: nat, asked: seq<nat>)
    requires Inv(kinds, a) && p < |kinds| && kinds[p].PipedStage? && kinds[p].input < p && StagePending(a.lines[p].pc).Some?
    requires q < |kinds| && Answered(kinds, a, q, asked) && |b.lines| == |kinds|
    requires var told, max := ReadTold(a.lines[kinds[p].input], StagePending(a.lines[p].pc).value), StagePending(a.lines[p].pc).value;
      && |told| <= 1 && (told != [] && told[0].Data? ==> 0 < |told[0].bytes| <= max)
      && forall i :: 0 <= i < |kinds| ==>
           && b.lines[i].log == (if i == kinds[p].input then a.lines[i].log + told else a.lines[i].log)
           && StagePending(b.lines[i].pc) == if i == p then (if told == [] then Some(max) else None) else StagePending(a.lines[i].pc)
    requires CallerPending(b.caller, q) == CallerPending(a.caller, q)
    ensures Answered(kinds, b, q, asked)
  {
    var max := StagePending(a.lines[p].pc).value;
    var told := ReadTold(a.lines[kinds[p].input], max);
    if q == kinds[p].input && told != [] {
      assert told == [told[0]];
      TellOne(a.lines[q].log, asked, max, told[0]);
    } else {
      assert a.lines[q].log + [] == a.lines[q].log;
      UnmovedAnswered(kinds, a, b, q, asked);
    }
  }

  // ------------------------------------------------- every step

  predicate Reads(step: Step) {
    step.CallerReads? || step.TakePass? || step.PumpLook? || step.CoderReads? || step.ReadPass?
  }

  lemma OthersUnmoved(kinds: seq<Kind>, a: System, step: Step, q: nat)
    requires Inv(kinds, a) && Enabled(kinds, a, step) && q < |kinds| && !Reads(step) && !step.DropPass?
    ensures Unmoved(kinds, a, Apply(kinds, a, step), q) && AskedAt(kinds, step, q) == []
  {
    OtherCaller(kinds, a, step, q);
    OtherLine(kinds, a, step, q);
    forall p | 0 <= p < |kinds| ensures StagePending(Apply(kinds, a, step).lines[p].pc) == StagePending(a.lines[p].pc) {
      OtherLine(kinds, a, step, p);
    }
  }

  lemma OtherCaller(kinds: seq<Kind>, a: System, step: Step, q: nat)
    requires |kinds| == |a.lines| && Enabled(kinds, a, step) && !Reads(step) && !step.DropPass?
    ensures CallerPending(Apply(kinds, a, step).caller, q) == CallerPending(a.caller, q)
  {
  }

  lemma OtherLine(kinds: seq<Kind>, a: System, step: Step, p: nat)
    requires |kinds| == |a.lines| && Enabled(kinds, a, step) && p < |kinds| && !Reads(step) && !step.DropPass?
    ensures var b := Apply(kinds, a, step);
      |b.lines| == |kinds| && b.lines[p].log == a.lines[p].log && StagePending(b.lines[p].pc) == StagePending(a.lines[p].pc)
  {
    if step.SendPass? || step.PanicPass? || step.PumpSend? {
      SendingLine(kinds, a, step, p);
    }
  }

  lemma SendingLine(kinds: seq<Kind>, a: System, step: Step, p: nat)
    requires |kinds| == |a.lines| && Enabled(kinds, a, step) && p < |kinds| && (step.SendPass? || step.PanicPass? || step.PumpSend?)
    ensures var b := Apply(kinds, a, step);
      |b.lines| == |kinds| && b.lines[p].log == a.lines[p].log && StagePending(b.lines[p].pc) == StagePending(a.lines[p].pc)
  {
  }

  lemma AnsweredAfter(kinds: seq<Kind>, a: System, step: Step, q: nat, asked: seq<nat>)
    requires Inv(kinds, a) && Enabled(kinds, a, step) && q < |kinds| && Answered(kinds, a, q, asked)
    requires !a.abandoned && !step.DropPass?
    ensures var b := Apply(kinds, a, step); |b.lines| == |kinds| && Answered(kinds, b, q, asked + AskedAt(kinds, step, q))
  {
    assert asked + [] == asked;
    if step.CallerReads? {
      AnsweredAfterAsk(kinds, a, q, step.max, step.pipe, asked);
    } else if step.TakePass? {
      AnsweredAfterTake(kinds, a, q, asked);
    } else if step.PumpLook? {
      AnsweredAfterLook(kinds, a, q, asked);
    } else if step.CoderReads? {
      AnsweredAfterCoderAsks(kinds, a, q, step.stage, step.max, asked);
    } else if step.ReadPass? {
      AnsweredAfterReadPass(kinds, a, q, step.stage, asked);
    } else {
      OthersUnmoved(kinds, a, step, q);
      UnmovedAnswered(kinds, a, Apply(kinds, a, step), q, asked);
    }
  }

  lemma AbandonedSince(kinds: seq<Kind>, a: System, step: Step)
    requires |kinds| == |a.lines| && Enabled(kinds, a, step)
    ensures Apply(kinds, a, step).abandoned <==> a.abandoned || step.DropPass?
  {
  }

  /**
   While the block is not abandoned, the reads of a pipe have been answered one for
   one, all but the one its reader is in the middle of: each with data, from one byte
   to as many as it asked for, with the end, or with an error.
   */
  lemma {:induction false} EveryReadIsAnswered(kinds: seq<Kind>, trace: seq<System>, steps: seq<Step>, k: nat, q: nat)
    requires ValidPlan(kinds) && Run(kinds, trace, steps) && k <= |steps| && q < |kinds| && !trace[k].abandoned
    ensures |trace[k].lines| == |kinds| && Answered(kinds, trace[k], q, Asked(kinds, steps, k, q))
  {
    if k > 0 {
      InvAlong(kinds, trace, steps, k - 1);
      assert Moves(kinds, trace, steps, k - 1);
      AbandonedSince(kinds, trace[k - 1], steps[k - 1]);
      EveryReadIsAnswered(kinds, trace, steps, k - 1, q);
      AnsweredAfter(kinds, trace[k - 1], steps[k - 1], q, Asked(kinds, steps, k - 1, q));
    }
  }
}
