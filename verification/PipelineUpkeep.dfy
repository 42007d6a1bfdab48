/** What keeps the pipes going: pack streams topped up in every read that takes a piece, and pieces used again. */
module PipelineUpkeep {
  import opened PipeState
  import opened Pipeline
  import opened PipelineInvariant
  import opened PipelineSteps
  import opened PipelineTheorems
  import opened PipelineBytes
  import opened PipelineEndings
  import OffloadPlan

  // ------------------------------------------------- pieces are used again

  /** A step that makes a new piece for pipe `p`, because none was handed back. */
  predicate MakesPiece(kinds: seq<Kind>, a: System, step: Step, p: nat)
    requires |kinds| == |a.lines| && p < |kinds|
  {
    && a.lines[p].pipe.spare == 0 && HasRoom(a.lines[p].pipe)
    && ((step == RoomPass(p) && !a.abandoned)
        || (step.PumpLook? && PumpingAt(a) && a.caller.feed == p && kinds[p].Feed? && a.lines[p].pc.Resting?))
  }

  /** The pieces ever made for pipe `p` in the first `k` steps. */
  function PiecesMade(kinds: seq<Kind>, trace: seq<System>, steps: seq<Step>, k: nat, p: nat): nat
    requires |trace| == |steps| + 1 && k <= |steps| && p < |kinds|
    requires forall i :: 0 <= i < |trace| ==> |trace[i].lines| == |kinds|
  {
    if k == 0 then 0
    else PiecesMade(kinds, trace, steps, k - 1, p) + if MakesPiece(kinds, trace[k - 1], steps[k - 1], p) then 1 else 0
  }

  predicate Stopping(line: Line) { line.pc.Panicking? || line.pc.Exited? }

  /** Until its writer is done with it, every piece made for a pipe is still about. */
  predicate Kept(line: Line, pieces: nat) {
    pieces <= PIPE_DEPTH + 1 && (!Stopping(line) ==> pieces == Buffers(line))
  }

  lemma KeptWhenTaken(kind: Kind, line: Line, abandoned: bool)
    requires LineOk(kind, line, abandoned) && Drained2(line) && !Stopping(line)
    ensures LineTaken(line).0.pc == line.pc && Buffers(LineTaken(line).0) == Buffers(line)
  {
  }

  lemma KeptWhenCopied(line: Line, max: nat)
    ensures Buffers(CopiedOut(line, max)) == Buffers(line) && CopiedOut(line, max).pc == line.pc
  {
  }

  /** A line's pieces are as many as before, and `made` more; or its writer is stopping, and makes no more. */
  predicate Level(was: Line, now: Line, made: bool) {
    if Stopping(was) then Stopping(now) && !made
    else Stopping(now) || Buffers(now) == Buffers(was) + if made then 1 else 0
  }

  lemma LevelAfterReadPass(kinds: seq<Kind>, a: System, r: nat, p: nat)
    requires Inv(kinds, a) && Enabled(kinds, a, ReadPass(r)) && p < |kinds|
    ensures Level(a.lines[p], Apply(kinds, a, ReadPass(r)).lines[p], false)
  {
    var q, max := kinds[r].input, a.lines[r].pc.max;
    assert LineOk(kinds[q], a.lines[q], a.abandoned) && StageSleepOk(kinds, a, r);
    TakenLevel(kinds[q], a.lines[q], a.abandoned);
    KeptWhenCopied(LineTaken(a.lines[q]).0, max);
    LevelAround(kinds, a, r, p);
  }

  lemma TakenLevel(kind: Kind, line: Line, abandoned: bool)
    requires LineOk(kind, line, abandoned) && Drained2(line)
    ensures LineTaken(line).0.pc == line.pc
    ensures !Stopping(line) ==> Buffers(LineTaken(line).0) == Buffers(line)
  {
    if !Stopping(line) {
      KeptWhenTaken(kind, line, abandoned);
    }
  }

  /** A read moves no piece of any pipe but the one it takes from. */
  lemma LevelAround(kinds: seq<Kind>, a: System, r: nat, p: nat)
    requires |kinds| == |a.lines| && Enabled(kinds, a, ReadPass(r)) && p < |kinds|
    requires var q, max := kinds[r].input, a.lines[r].pc.max;
      var taken := LineTaken(a.lines[q]).0;
      && taken.pc == a.lines[q].pc && (!Stopping(a.lines[q]) ==> Buffers(taken) == Buffers(a.lines[q]))
      && CopiedOut(taken, max).pc == taken.pc && Buffers(CopiedOut(taken, max)) == Buffers(taken)
    ensures Level(a.lines[p], Apply(kinds, a, ReadPass(r)).lines[p], false)
  {
    var q, max := kinds[r].input, a.lines[r].pc.max;
    var (line, answer) := LineTaken(a.lines[q]);
    if !a.abandoned && !answer.NotYet? {
      LevelTwoPut(a, q, if answer.Piece? then CopiedOut(line, max) else line, r, p);
    }
  }

  lemma LevelTwoPut(a: System, q: nat, line: Line, r: nat, p: nat)
    requires q < r < |a.lines| && p < |a.lines| && Level(a.lines[q], line, false)
    requires a.lines[r].pc.Reading? || a.lines[r].pc.ForInput?
    ensures |Changed(AtPc(Put(a, q, line), r, Filling)).lines| == |a.lines|
    ensures Level(a.lines[p], Changed(AtPc(Put(a, q, line), r, Filling)).lines[p], false)
  {
    LevelWhenAnnounced(a, AtPc(Put(a, q, line), r, Filling), p);
  }

  lemma LevelAfterTake(kinds: seq<Kind>, a: System, p: nat)
    requires Inv(kinds, a) && Enabled(kinds, a, TakePass) && p < |kinds|
    ensures Level(a.lines[p], Apply(kinds, a, TakePass).lines[p], false)
  {
    var q := a.caller.pipe;
    assert LineOk(kinds[q], a.lines[q], a.abandoned);
    TakenLevel(kinds[q], a.lines[q], a.abandoned);
  }

  /** A full piece sent on is a piece still. */
  lemma LevelWhenSent(kind: Kind, line: Line, outcome: Filled, pc: WriterPc, abandoned: bool)
    requires LineOk(kind, line, abandoned) && (line.pc == Sending(outcome) || line.pc == PumpSending(outcome))
    requires if outcome.More? then pc.WantRoom? || pc.Resting? else pc.Exited?
    ensures Level(line, LineSent(line, outcome, pc), false)
  {
  }

  /** Waking sleepers moves no piece. */
  lemma LevelWhenAnnounced(a: System, b: System, p: nat)
    requires p < |a.lines| == |b.lines| && Level(a.lines[p], b.lines[p], false)
    ensures |Changed(b).lines| == |b.lines| && Level(a.lines[p], Changed(b).lines[p], false)
  {
  }

  lemma LevelPut(a: System, q: nat, line: Line, p: nat)
    requires q < |a.lines| && p < |a.lines| && Level(a.lines[q], line, false)
    ensures Level(a.lines[p], Changed(Put(a, q, line)).lines[p], false)
  {
    LevelWhenAnnounced(a, Put(a, q, line), p);
  }

  lemma LevelSent(kinds: seq<Kind>, a: System, q: nat, next: WriterPc, p: nat)
    requires Inv(kinds, a) && q < |kinds| && p < |kinds| && (a.lines[q].pc.Sending? || a.lines[q].pc.PumpSending?)
    requires next.WantRoom? || next.Resting?
    ensures var outcome := a.lines[q].pc.outcome;
      Level(a.lines[p], Changed(Put(a, q, LineSent(a.lines[q], outcome, if outcome.More? then next else Exited))).lines[p], false)
  {
    var outcome := a.lines[q].pc.outcome;
    var pc := if outcome.More? then next else Exited;
    assert LineOk(kinds[q], a.lines[q], a.abandoned);
    LevelWhenSent(kinds[q], a.lines[q], outcome, pc, a.abandoned);
    LevelPut(a, q, LineSent(a.lines[q], outcome, pc), p);
  }

  lemma LevelAfterSend(kinds: seq<Kind>, a: System, step: Step, p: nat)
    requires Inv(kinds, a) && Enabled(kinds, a, step) && p < |kinds|
    requires step.SendPass? || step.PumpSend? || step.PanicPass? || step.DropPass?
    ensures Level(a.lines[p], Apply(kinds, a, step).lines[p], false)
  {
    if step.SendPass? {
      LevelSent(kinds, a, step.stage, WantRoom, p);
    } else if step.PumpSend? {
      LevelSent(kinds, a, a.caller.feed, Resting, p);
    }
  }

  lemma LevelAfterRoom(kinds: seq<Kind>, a: System, step: Step, p: nat)
    requires Inv(kinds, a) && Enabled(kinds, a, step) && p < |kinds| && (step.RoomPass? || step.PumpLook?)
    ensures Level(a.lines[p], Apply(kinds, a, step).lines[p], MakesPiece(kinds, a, step, p))
  {
  }

  predicate Waits(step: Step) {
    step.WaitPass? || step.CallerDrops? || step.JoinAll? || step.SpuriousStage? || step.SpuriousCaller? || step.CallerReads?
  }

  lemma LevelWhileWaiting(kinds: seq<Kind>, a: System, step: Step, p: nat)
    requires |kinds| == |a.lines| && Enabled(kinds, a, step) && p < |kinds| && Waits(step)
    ensures Level(a.lines[p], Apply(kinds, a, step).lines[p], false)
  {
  }

  lemma LevelQuietly(kinds: seq<Kind>, a: System, step: Step, p: nat)
    requires |kinds| == |a.lines| && Enabled(kinds, a, step) && p < |kinds|
    requires !Announces(step) && !step.RoomPass? && !step.PumpLook?
    ensures Level(a.lines[p], Apply(kinds, a, step).lines[p], false)
  {
    if Waits(step) {
      LevelWhileWaiting(kinds, a, step, p);
    }
  }

  lemma LevelAfter(kinds: seq<Kind>, a: System, step: Step, p: nat)
    requires Inv(kinds, a) && Enabled(kinds, a, step) && p < |kinds|
    ensures |Apply(kinds, a, step).lines| == |kinds|
    ensures Level(a.lines[p], Apply(kinds, a, step).lines[p], MakesPiece(kinds, a, step, p))
  {
    InvKept(kinds, a, step);
    if step.ReadPass? {
      LevelAfterReadPass(kinds, a, step.stage, p);
    } else if step.TakePass? {
      LevelAfterTake(kinds, a, p);
    } else if Announces(step) {
      LevelAfterSend(kinds, a, step, p);
    } else if step.RoomPass? || step.PumpLook? {
      LevelAfterRoom(kinds, a, step, p);
    } else {
      LevelQuietly(kinds, a, step, p);
    }
  }

  lemma KeptAfter(kinds: seq<Kind>, a: System, step: Step, p: nat, pieces: nat)
    requires Inv(kinds, a) && Enabled(kinds, a, step) && p < |kinds| && Kept(a.lines[p], pieces)
    ensures var b := Apply(kinds, a, step);
      |b.lines| == |kinds| && Kept(b.lines[p], pieces + if MakesPiece(kinds, a, step, p) then 1 else 0)
  {
    InvKept(kinds, a, step);
    LevelAfter(kinds, a, step, p);
    assert LineOk(kinds[p], Apply(kinds, a, step).lines[p], Apply(kinds, a, step).abandoned);
    assert LineOk(kinds[p], a.lines[p], a.abandoned);
  }

  lemma {:induction false} SameLines(kinds: seq<Kind>, trace: seq<System>, steps: seq<Step>)
    requires ValidPlan(kinds) && Run(kinds, trace, steps)
    ensures forall i :: 0 <= i < |trace| ==> |trace[i].lines| == |kinds|
  {
    forall i | 0 <= i < |trace| ensures |trace[i].lines| == |kinds| {
      InvAlong(kinds, trace, steps, i);
    }
  }

  /** However long it runs, a pipe makes no more pieces than it can hold and one, which is what the plan charges for it. */
  lemma {:induction false} PiecesAreUsedAgain(kinds: seq<Kind>, trace: seq<System>, steps: seq<Step>, k: nat, p: nat)
    requires ValidPlan(kinds) && Run(kinds, trace, steps) && k <= |steps| && p < |kinds|
    ensures forall i :: 0 <= i < |trace| ==> |trace[i].lines| == |kinds|
    ensures Kept(trace[k].lines[p], PiecesMade(kinds, trace, steps, k, p))
    ensures PiecesMade(kinds, trace, steps, k, p) * PIPE_CHUNK <= OffloadPlan.PIPE_KB * 1024
  {
    SameLines(kinds, trace, steps);
    if k > 0 {
      PiecesAreUsedAgain(kinds, trace, steps, k - 1, p);
      InvAlong(kinds, trace, steps, k - 1);
      assert Moves(kinds, trace, steps, k - 1);
      KeptAfter(kinds, trace[k - 1], steps[k - 1], p, PiecesMade(kinds, trace, steps, k - 1, p));
    }
  }

  // ------------------------------------------------- pack streams are topped up

  /** At step `i` the pump went past pipe `g`, and left it with nothing to do. */
  ghost predicate Passes(kinds: seq<Kind>, trace: seq<System>, steps: seq<Step>, i: nat, g: nat)
    requires |trace| == |steps| + 1 && i < |steps|
  {
    && steps[i] == PumpLook && g < |trace[i].lines| == |kinds|
    && trace[i].caller.Pumping? && trace[i].caller.feed == g && ToppedUp(kinds, trace[i], g)
  }

  /** Since the caller last took from its pipe, the pump has gone past pipe `g`. */
  ghost predicate Passed(kinds: seq<Kind>, trace: seq<System>, steps: seq<Step>, k: nat, g: nat)
    requires |trace| == |steps| + 1 && k <= |steps|
  {
    exists i :: 0 <= i < k && Passes(kinds, trace, steps, i, g) && NoTake(steps, i, k)
  }

  predicate NoTake(steps: seq<Step>, from: nat, to_: nat)
    requires from <= to_ <= |steps|
  {
    forall j :: from <= j < to_ ==> steps[j] != TakePass
  }

  /** The pump goes on by one pipe at a time, and only past one it has nothing to do for. */
  lemma PumpGoesOn(kinds: seq<Kind>, a: System, step: Step)
    requires Inv(kinds, a) && Enabled(kinds, a, step)
    ensures var b := Apply(kinds, a, step);
      b.caller.Pumping? ==>
        || (step == TakePass && b.caller.feed == 0)
        || (step != TakePass && a.caller.Pumping? && b.caller.feed == a.caller.feed)
        || (step == PumpLook && a.caller.Pumping? && b.caller.feed == a.caller.feed + 1
            && a.caller.feed < |a.lines| && ToppedUp(kinds, a, a.caller.feed))
  {
    if step.PumpLook? && a.caller.feed < |a.lines| {
      assert LineOk(kinds[a.caller.feed], a.lines[a.caller.feed], a.abandoned);
    }
  }

  lemma PumpGoesOnAt(kinds: seq<Kind>, trace: seq<System>, steps: seq<Step>, k: nat)
    requires ValidPlan(kinds) && Run(kinds, trace, steps) && k < |steps|
    ensures var p, q := trace[k].caller, trace[k + 1].caller;
      q.Pumping? ==>
        || (steps[k] == TakePass && q.feed == 0)
        || (steps[k] != TakePass && p.Pumping? && q.feed == p.feed)
        || (p.Pumping? && q.feed == p.feed + 1 && Passes(kinds, trace, steps, k, p.feed))
  {
    InvAlong(kinds, trace, steps, k);
    assert Moves(kinds, trace, steps, k);
    PumpGoesOn(kinds, trace[k], steps[k]);
  }

  lemma PassedStill(kinds: seq<Kind>, trace: seq<System>, steps: seq<Step>, k: nat, g: nat)
    requires |trace| == |steps| + 1 && k < |steps| && Passed(kinds, trace, steps, k, g) && steps[k] != TakePass
    ensures Passed(kinds, trace, steps, k + 1, g)
  {
    var i :| 0 <= i < k && Passes(kinds, trace, steps, i, g) && NoTake(steps, i, k);
    assert NoTake(steps, i, k + 1);
  }

  lemma PassedNow(kinds: seq<Kind>, trace: seq<System>, steps: seq<Step>, k: nat, g: nat)
    requires |trace| == |steps| + 1 && k < |steps| && Passes(kinds, trace, steps, k, g)
    ensures Passed(kinds, trace, steps, k + 1, g)
  {
    assert NoTake(steps, k, k + 1);
  }

  lemma {:induction false} PumpPassesAll(kinds: seq<Kind>, trace: seq<System>, steps: seq<Step>, k: nat, g: nat)
    requires ValidPlan(kinds) && Run(kinds, trace, steps) && k <= |steps|
    requires trace[k].caller.Pumping? && g < trace[k].caller.feed
    ensures Passed(kinds, trace, steps, k, g)
  {
    if k > 0 {
      PumpGoesOnAt(kinds, trace, steps, k - 1);
      if trace[k - 1].caller.Pumping? && g < trace[k - 1].caller.feed {
        PumpPassesAll(kinds, trace, steps, k - 1, g);
        assert steps[k - 1] != TakePass;
        PassedStill(kinds, trace, steps, k - 1, g);
      } else {
        PassedNow(kinds, trace, steps, k - 1, g);
      }
    }
  }

  /**
   Every read that had to take from its pipe goes past each pack stream before the
   caller has its answer, or sleeps, leaving each full or at its end as it passes.
   */
  lemma EveryTakeTopsUp(kinds: seq<Kind>, trace: seq<System>, steps: seq<Step>, k: nat, g: nat)
    requires ValidPlan(kinds) && Run(kinds, trace, steps) && k < |steps| && g < |kinds|
    requires trace[k].caller.Pumping? && (trace[k + 1].caller.Working? || trace[k + 1].caller.Waiting?)
    ensures Passed(kinds, trace, steps, k, g)
  {
    InvAlong(kinds, trace, steps, k);
    assert Moves(kinds, trace, steps, k);
    PumpEndsAtTheEnd(kinds, trace[k], steps[k]);
    PumpPassesAll(kinds, trace, steps, k, g);
  }

  lemma PumpEndsAtTheEnd(kinds: seq<Kind>, a: System, step: Step)
    requires Inv(kinds, a) && Enabled(kinds, a, step) && a.caller.Pumping?
    requires var c := Apply(kinds, a, step).caller; c.Working? || c.Waiting?
    ensures a.caller.feed >= |kinds|
  {
  }
}
