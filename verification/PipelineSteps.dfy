/** Every step of a pipeline keeps the invariant. */
module PipelineSteps {
  import opened PipeState
  import opened Pipeline
  import opened PipelineInvariant

  /** Queues and endings are as they were, and so is the generation. */
  ghost predicate SamePipes(a: System, b: System) {
    && |a.lines| == |b.lines| && b.abandoned == a.abandoned && b.generation == a.generation
    && forall i :: 0 <= i < |a.lines| ==>
      b.lines[i].pipe.chunks == a.lines[i].pipe.chunks && b.lines[i].pipe.end == a.lines[i].pipe.end
  }

  /** Something changed, and everyone who slept has been woken. */
  ghost predicate Announced(a: System, b: System) {
    && |a.lines| == |b.lines| && b.generation > a.generation
    && forall i :: 0 <= i < |b.lines| ==> b.lines[i].pc == WokenPc(b.lines[i].pc)
  }

  ghost predicate CallerReadersSame(kinds: seq<Kind>, a: System, b: System)
    requires |kinds| == |a.lines| == |b.lines|
  {
    forall p :: 0 <= p < |kinds| && ReadByCaller(kinds, p) ==> b.lines[p].reader == a.lines[p].reader
  }

  /** Stages that stay in a read keep it, over a buffer nobody else touches. */
  ghost predicate StageReadersSame(kinds: seq<Kind>, a: System, b: System)
    requires |kinds| == |a.lines| == |b.lines|
  {
    forall p :: 0 <= p < |kinds| && (b.lines[p].pc.Reading? || b.lines[p].pc.ForInput?) ==>
      && kinds[p].PipedStage? && kinds[p].input < p
      && Drained2(b.lines[kinds[p].input])
  }

  lemma CallerFrame(kinds: seq<Kind>, a: System, b: System)
    requires |kinds| == |a.lines| == |b.lines| && CallerOk(kinds, a) && CallerReadersSame(kinds, a, b)
    requires b.caller == a.caller || b.caller == WokenCaller(a.caller)
    requires SamePipes(a, b) || (Announced(a, b) && b.abandoned == a.abandoned && b.caller == WokenCaller(a.caller))
    requires !a.caller.Gone?
    ensures CallerOk(kinds, b)
  {
    if SamePipes(a, b) {
      assert forall g :: 0 <= g < |a.lines| ==> ToppedUp(kinds, a, g) == ToppedUp(kinds, b, g);
    }
  }

  lemma SleepFrame(kinds: seq<Kind>, a: System, b: System)
    requires |kinds| == |a.lines| == |b.lines|
    requires forall p :: 0 <= p < |a.lines| ==> StageSleepOk(kinds, a, p)
    requires StageReadersSame(kinds, a, b)
    requires Announced(a, b)
      || (SamePipes(a, b)
          && forall p :: 0 <= p < |a.lines| ==>
            b.lines[p].pc == a.lines[p].pc || b.lines[p].pc == WokenPc(b.lines[p].pc))
    ensures forall p :: 0 <= p < |b.lines| ==> StageSleepOk(kinds, b, p)
  {
    forall p | 0 <= p < |b.lines| ensures StageSleepOk(kinds, b, p) {
      assert StageSleepOk(kinds, a, p);
    }
  }

  lemma ReadersKept(kinds: seq<Kind>, a: System, b: System)
    requires |kinds| == |a.lines| == |b.lines|
    requires forall p :: 0 <= p < |a.lines| ==> StageSleepOk(kinds, a, p)
    requires forall q :: 0 <= q < |a.lines| ==> b.lines[q].reader == a.lines[q].reader
    requires forall p :: 0 <= p < |a.lines| && (b.lines[p].pc.Reading? || b.lines[p].pc.ForInput?) ==>
      a.lines[p].pc.Reading? || a.lines[p].pc.ForInput?
    ensures StageReadersSame(kinds, a, b)
    ensures CallerReadersSame(kinds, a, b)
  {
    forall p | 0 <= p < |kinds| && (b.lines[p].pc.Reading? || b.lines[p].pc.ForInput?)
      ensures kinds[p].PipedStage? && kinds[p].input < p && Drained2(b.lines[kinds[p].input])
    {
      assert StageSleepOk(kinds, a, p);
    }
  }

  /** Line `p` becomes `line`, and nothing else moves. */
  lemma LinesPut(kinds: seq<Kind>, a: System, p: nat, line: Line)
    requires |kinds| == |a.lines| && p < |a.lines| && LineOk(kinds[p], line, a.abandoned)
    requires forall i :: 0 <= i < |a.lines| ==> LineOk(kinds[i], a.lines[i], a.abandoned)
    ensures forall i :: 0 <= i < |a.lines| ==> LineOk(kinds[i], Put(a, p, line).lines[i], a.abandoned)
  {
  }

  lemma LinesChanged(kinds: seq<Kind>, a: System)
    requires |kinds| == |a.lines|
    requires forall i :: 0 <= i < |a.lines| ==> LineOk(kinds[i], a.lines[i], a.abandoned)
    ensures var b := Changed(a);
      && (forall i :: 0 <= i < |b.lines| ==> LineOk(kinds[i], b.lines[i], b.abandoned))
      && Announced(a, b)
  {
    forall i | 0 <= i < |a.lines| ensures LineOk(kinds[i], Changed(a).lines[i], a.abandoned) {
      LineWoken(kinds[i], a.lines[i], a.abandoned);
    }
  }

  /** A step that rewrites line `p` of a live pipeline without announcing anything. */
  lemma QuietStep(kinds: seq<Kind>, a: System, p: nat, line: Line)
    requires Inv(kinds, a) && p < |a.lines| && LineOk(kinds[p], line, a.abandoned) && !a.caller.Gone?
    requires line.pipe.chunks == a.lines[p].pipe.chunks && line.pipe.end == a.lines[p].pipe.end
    requires line.reader == a.lines[p].reader
    requires line.pc == WokenPc(line.pc) && !line.pc.Reading? && !line.pc.ForInput?
    requires line.pc.PumpFilling? || line.pc.PumpSending? ==> a.caller.Pumping? && a.caller.feed == p
    ensures Inv(kinds, Put(a, p, line))
  {
    var b := Put(a, p, line);
    LinesPut(kinds, a, p, line);
    ReadersKept(kinds, a, b);
    SleepFrame(kinds, a, b);
    CallerFrame(kinds, a, b);
  }

  // ------------------------------------------------- stages

  lemma AfterRoom(kinds: seq<Kind>, a: System, p: nat)
    requires Inv(kinds, a) && Enabled(kinds, a, RoomPass(p))
    ensures Inv(kinds, Apply(kinds, a, RoomPass(p)))
  {
    var line := a.lines[p];
    if a.abandoned {
      QuietStep(kinds, a, p, line.(pc := Exited));
    } else if HasRoom(line.pipe) {
      QuietStep(kinds, a, p, line.(pipe := WithoutSpare(line.pipe), pc := Filling, hand := []));
    } else {
      AfterMove(kinds, a, p, ForRoom(false));
    }
  }

  lemma AfterCoder(kinds: seq<Kind>, a: System, step: Step)
    requires Inv(kinds, a) && Enabled(kinds, a, step)
    requires step.CoderYields? || step.CoderStops? || step.CoderPanics?
    ensures Inv(kinds, Apply(kinds, a, step))
  {
    var p := step.stage;
    var line := Apply(kinds, a, step).lines[p];
    assert LineOk(kinds[p], a.lines[p], a.abandoned);
    assert LineOk(kinds[p], line, a.abandoned);
    QuietStep(kinds, a, p, line);
  }

  lemma AfterSend(kinds: seq<Kind>, a: System, p: nat)
    requires Inv(kinds, a) && Enabled(kinds, a, SendPass(p))
    ensures Inv(kinds, Apply(kinds, a, SendPass(p)))
  {
    var outcome := a.lines[p].pc.outcome;
    var next := LineSent(a.lines[p], outcome, if outcome.More? then WantRoom else Exited);
    LineSentOk(kinds[p], a.lines[p], outcome, next.pc, a.abandoned);
    AfterAnnouncedPut(kinds, a, p, next);
  }

  lemma LinesPutAndChanged(kinds: seq<Kind>, a: System, p: nat, line: Line)
    requires |kinds| == |a.lines| && p < |a.lines| && LineOk(kinds[p], line, a.abandoned)
    requires forall i :: 0 <= i < |a.lines| ==> LineOk(kinds[i], a.lines[i], a.abandoned)
    requires PumpPlace(a)
    requires !line.pc.PumpFilling? && !line.pc.PumpSending?
    ensures var b := Changed(Put(a, p, line));
      && |b.lines| == |a.lines| && b.abandoned == a.abandoned && b.caller == WokenCaller(a.caller)
      && Announced(a, b) && PumpPlace(b)
      && (forall i :: 0 <= i < |a.lines| ==> LineOk(kinds[i], b.lines[i], b.abandoned))
      && (forall i :: 0 <= i < |a.lines| ==> b.lines[i] == (if i == p then line else a.lines[i]).(pc := b.lines[i].pc))
      && (forall i :: 0 <= i < |a.lines| ==> b.lines[i].pc == WokenPc(if i == p then line.pc else a.lines[i].pc))
  {
    LinesPut(kinds, a, p, line);
    LinesChanged(kinds, Put(a, p, line));
  }

  /** What an announced change of lines leaves to show: each line, the stages in a read, the caller's buffers. */
  lemma AfterAnnouncement(kinds: seq<Kind>, a: System, b: System)
    requires Inv(kinds, a) && |b.lines| == |a.lines| && Announced(a, b) && b.abandoned == a.abandoned
    requires b.caller == WokenCaller(a.caller) && !a.caller.Gone?
    requires forall i :: 0 <= i < |b.lines| ==> LineOk(kinds[i], b.lines[i], b.abandoned)
    requires StageReadersSame(kinds, a, b) && CallerReadersSame(kinds, a, b)
    requires PumpPlace(b)
    ensures Inv(kinds, b)
  {
    SleepFrame(kinds, a, b);
    CallerFrame(kinds, a, b);
  }

  /** A step that rewrites line `p`, but not its reader's buffer, and announces it. */
  lemma AfterAnnouncedPut(kinds: seq<Kind>, a: System, p: nat, line: Line)
    requires Inv(kinds, a) && p < |a.lines| && LineOk(kinds[p], line, a.abandoned) && !a.caller.Gone?
    requires line.reader == a.lines[p].reader
    requires line.pc.WantRoom? || line.pc.Exited? || line.pc.Resting?
    ensures Inv(kinds, Changed(Put(a, p, line)))
  {
    var b := Changed(Put(a, p, line));
    LinesPutAndChanged(kinds, a, p, line);
    ReadersKept(kinds, a, b);
    AfterAnnouncement(kinds, a, b);
  }

  lemma AfterPanic(kinds: seq<Kind>, a: System, p: nat)
    requires Inv(kinds, a) && Enabled(kinds, a, PanicPass(p))
    ensures Inv(kinds, Apply(kinds, a, PanicPass(p)))
  {
    var line := a.lines[p];
    assert LineOk(kinds[p], line, a.abandoned);
    var next := line.(pipe := line.pipe.(end := Failed(CoderPanicked)), pc := Exited, ending := Broken(CoderPanicked));
    assert LineOk(kinds[p], next, a.abandoned);
    AfterAnnouncedPut(kinds, a, p, next);
  }

  /** Stage `p` has read from pipe `q`: nobody else has a buffer there. */
  lemma ReaderMoved(kinds: seq<Kind>, a: System, b: System, p: nat, q: nat)
    requires |kinds| == |a.lines| == |b.lines| && ValidPlan(kinds) && q < p < |kinds| && kinds[p] == PipedStage(q)
    requires forall r :: 0 <= r < |a.lines| ==> StageSleepOk(kinds, a, r)
    requires forall r :: 0 <= r < |a.lines| && r != q ==> b.lines[r].reader == a.lines[r].reader
    requires !b.lines[p].pc.Reading? && !b.lines[p].pc.ForInput?
    requires forall r :: 0 <= r < |a.lines| && r != p && (b.lines[r].pc.Reading? || b.lines[r].pc.ForInput?) ==>
      a.lines[r].pc.Reading? || a.lines[r].pc.ForInput?
    ensures StageReadersSame(kinds, a, b)
    ensures CallerReadersSame(kinds, a, b)
  {
    forall r | 0 <= r < |kinds| && (b.lines[r].pc.Reading? || b.lines[r].pc.ForInput?)
      ensures kinds[r].PipedStage? && kinds[r].input < r && Drained2(b.lines[kinds[r].input])
    {
      assert StageSleepOk(kinds, a, r);
    }
  }

  lemma AfterBufferedRead(kinds: seq<Kind>, a: System, p: nat, max: nat)
    requires Inv(kinds, a) && Enabled(kinds, a, CoderReads(p, max)) && Unread(a.lines[kinds[p].input].reader)
    ensures Inv(kinds, Apply(kinds, a, CoderReads(p, max)))
  {
    var q := kinds[p].input;
    LineCopied(kinds[q], a.lines[q], max, a.abandoned);
    AfterBufferMoved(kinds, a, p, q, CopiedOut(a.lines[q], max));
  }

  /** A working stage has moved on in the buffer of its own input. */
  lemma AfterBufferMoved(kinds: seq<Kind>, a: System, p: nat, q: nat, line: Line)
    requires Inv(kinds, a) && q < p < |a.lines| && kinds[p] == PipedStage(q) && a.lines[p].pc.Filling?
    requires LineOk(kinds[q], line, a.abandoned) && line.pc == a.lines[q].pc && line.pipe == a.lines[q].pipe
    ensures Inv(kinds, Put(a, q, line))
  {
    var b := Put(a, q, line);
    LinesPut(kinds, a, q, line);
    ReaderMoved(kinds, a, b, p, q);
    SleepFrame(kinds, a, b);
    CallerFrame(kinds, a, b);
  }

  lemma AfterRefillStarts(kinds: seq<Kind>, a: System, p: nat, max: nat)
    requires Inv(kinds, a) && Enabled(kinds, a, CoderReads(p, max)) && !Unread(a.lines[kinds[p].input].reader)
    ensures Inv(kinds, Apply(kinds, a, CoderReads(p, max)))
  {
    assert LineOk(kinds[kinds[p].input], a.lines[kinds[p].input], a.abandoned);
    assert LineOk(kinds[p], a.lines[p], a.abandoned);
    AfterMove(kinds, a, p, Reading(max));
  }

  /** Stage `p` moves to a place that is justified as things stand. */
  lemma AfterMove(kinds: seq<Kind>, a: System, p: nat, pc: WriterPc)
    requires Inv(kinds, a) && p < |a.lines| && !a.caller.Gone?
    requires LineOk(kinds[p], a.lines[p].(pc := pc), a.abandoned)
    requires !pc.PumpFilling? && !pc.PumpSending?
    requires StageSleepOk(kinds, AtPc(a, p, pc), p)
    ensures Inv(kinds, AtPc(a, p, pc))
  {
    var b := AtPc(a, p, pc);
    LinesPut(kinds, a, p, a.lines[p].(pc := pc));
    CallerFrame(kinds, a, b);
    forall r | 0 <= r < |b.lines| ensures StageSleepOk(kinds, b, r) {
      assert StageSleepOk(kinds, a, r);
    }
  }

  lemma AfterReadStarved(kinds: seq<Kind>, a: System, p: nat)
    requires Inv(kinds, a) && Enabled(kinds, a, ReadPass(p)) && !a.abandoned
    requires LineTaken(a.lines[kinds[p].input]).1.NotYet?
    ensures Inv(kinds, Apply(kinds, a, ReadPass(p)))
  {
    assert StageSleepOk(kinds, a, p);
    assert LineOk(kinds[p], a.lines[p], a.abandoned);
    AfterMove(kinds, a, p, ForInput(a.lines[p].pc.max, false));
  }

  /** Lines `q` and `p` change together, `q` in its queue and its reader's buffer, `p` back to work. */
  lemma AfterReadServed(kinds: seq<Kind>, a: System, p: nat, q: nat, line: Line)
    requires Inv(kinds, a) && q < p < |a.lines| && kinds[p] == PipedStage(q) && !a.caller.Gone?
    requires a.lines[p].pc.Reading? || a.lines[p].pc.ForInput?
    requires LineOk(kinds[q], line, a.abandoned) && line.pc == a.lines[q].pc
    ensures Inv(kinds, Changed(AtPc(Put(a, q, line), p, Filling)))
  {
    AfterMove(kinds, a, p, Filling);
    var mid := AtPc(a, p, Filling);
    assert Put(mid, q, line) == AtPc(Put(a, q, line), p, Filling);
    AfterServed(kinds, mid, p, q, line);
  }

  lemma AfterServed(kinds: seq<Kind>, a: System, p: nat, q: nat, line: Line)
    requires Inv(kinds, a) && q < p < |a.lines| && kinds[p] == PipedStage(q) && !a.caller.Gone?
    requires a.lines[p].pc.Filling?
    requires LineOk(kinds[q], line, a.abandoned) && line.pc == a.lines[q].pc
    ensures Inv(kinds, Changed(Put(a, q, line)))
  {
    var b := Changed(Put(a, q, line));
    TwoLinesChanged(kinds, a, q, line);
    ReaderMoved(kinds, a, b, p, q);
    AfterAnnouncement(kinds, a, b);
  }

  lemma TwoLinesChanged(kinds: seq<Kind>, a: System, q: nat, line: Line)
    requires |kinds| == |a.lines| && q < |a.lines| && LineOk(kinds[q], line, a.abandoned) && line.pc == a.lines[q].pc
    requires forall i :: 0 <= i < |a.lines| ==> LineOk(kinds[i], a.lines[i], a.abandoned)
    requires PumpPlace(a)
    ensures var b := Changed(Put(a, q, line));
      && |b.lines| == |a.lines| && b.abandoned == a.abandoned && b.caller == WokenCaller(a.caller)
      && Announced(a, b) && PumpPlace(b)
      && (forall i :: 0 <= i < |a.lines| ==> LineOk(kinds[i], b.lines[i], b.abandoned))
      && (forall i :: 0 <= i < |a.lines| ==> b.lines[i].reader == (if i == q then line else a.lines[i]).reader)
      && (forall i :: 0 <= i < |a.lines| ==> b.lines[i].pc == WokenPc(a.lines[i].pc))
  {
    LinesPut(kinds, a, q, line);
    LinesChanged(kinds, Put(a, q, line));
  }

  lemma AfterReadPass(kinds: seq<Kind>, a: System, p: nat)
    requires Inv(kinds, a) && Enabled(kinds, a, ReadPass(p))
    ensures Inv(kinds, Apply(kinds, a, ReadPass(p)))
  {
    var q, max := kinds[p].input, a.lines[p].pc.max;
    assert StageSleepOk(kinds, a, p);
    assert LineOk(kinds[p], a.lines[p], a.abandoned) && LineOk(kinds[q], a.lines[q], a.abandoned);
    if a.abandoned {
      QuietStep(kinds, a, p, a.lines[p].(pc := Filling));
    } else {
      LineTakenOk(kinds[q], a.lines[q], a.abandoned);
      var (line, answer) := LineTaken(a.lines[q]);
      if answer.NotYet? {
        AfterReadStarved(kinds, a, p);
      } else if answer.Piece? {
        LineCopied(kinds[q], line, max, a.abandoned);
        AfterReadServed(kinds, a, p, q, CopiedOut(line, max));
      } else {
        AfterReadServed(kinds, a, p, q, line);
      }
    }
  }

  // ------------------------------------------------- the caller

  lemma AfterCallerMove(kinds: seq<Kind>, a: System, pc: CallerPc)
    requires Inv(kinds, a) && CallerOk(kinds, a.(caller := pc)) && PumpPlace(a.(caller := pc))
    ensures Inv(kinds, a.(caller := pc))
  {
    var b := a.(caller := pc);
    forall p | 0 <= p < |b.lines| ensures StageSleepOk(kinds, b, p) {
      assert StageSleepOk(kinds, a, p);
    }
  }

  /** The caller has read from pipe `p`: no stage has a buffer there. */
  lemma CallerReaderMoved(kinds: seq<Kind>, a: System, b: System, p: nat)
    requires |kinds| == |a.lines| == |b.lines| && ReadByCaller(kinds, p)
    requires forall r :: 0 <= r < |a.lines| ==> StageSleepOk(kinds, a, r)
    requires forall r :: 0 <= r < |a.lines| && r != p ==> b.lines[r].reader == a.lines[r].reader
    requires forall r :: 0 <= r < |a.lines| && (b.lines[r].pc.Reading? || b.lines[r].pc.ForInput?) ==>
      a.lines[r].pc.Reading? || a.lines[r].pc.ForInput?
    ensures StageReadersSame(kinds, a, b)
  {
    forall r | 0 <= r < |kinds| && (b.lines[r].pc.Reading? || b.lines[r].pc.ForInput?)
      ensures kinds[r].PipedStage? && kinds[r].input < r && Drained2(b.lines[kinds[r].input])
    {
      assert StageSleepOk(kinds, a, r);
      assert kinds[r] != PipedStage(p);
    }
  }

  /** The caller has moved on in a buffer of its own and goes back to work. */
  lemma AfterCallerMoved(kinds: seq<Kind>, a: System, p: nat, line: Line)
    requires Inv(kinds, a) && ReadByCaller(kinds, p) && !a.abandoned && PumpPlace(a.(caller := Working))
    requires LineOk(kinds[p], line, a.abandoned) && line.pc == a.lines[p].pc && line.pipe == a.lines[p].pipe
    ensures Inv(kinds, Put(a, p, line).(caller := Working))
  {
    var b := Put(a, p, line).(caller := Working);
    LinesPut(kinds, a, p, line);
    CallerReaderMoved(kinds, a, b, p);
    SleepFrame(kinds, a, b);
  }

  /** The caller copies from a buffer of its own and goes back to work. */
  lemma AfterCallerCopies(kinds: seq<Kind>, a: System, p: nat, max: nat)
    requires Inv(kinds, a) && ReadByCaller(kinds, p) && max > 0 && Unread(a.lines[p].reader) && !a.abandoned
    requires PumpPlace(a.(caller := Working))
    ensures Inv(kinds, Put(a, p, CopiedOut(a.lines[p], max)).(caller := Working))
  {
    LineCopied(kinds[p], a.lines[p], max, a.abandoned);
    AfterCallerMoved(kinds, a, p, CopiedOut(a.lines[p], max));
  }

  lemma AfterTake(kinds: seq<Kind>, a: System)
    requires Inv(kinds, a) && Enabled(kinds, a, TakePass)
    ensures Inv(kinds, Apply(kinds, a, TakePass))
  {
    var p, max := a.caller.pipe, a.caller.max;
    assert LineOk(kinds[p], a.lines[p], a.abandoned);
    LineTakenOk(kinds[p], a.lines[p], a.abandoned);
    var (line, answer) := LineTaken(a.lines[p]);
    if answer.NotYet? {
      AfterCallerMove(kinds, a, Pumping(0, p, max, Recheck(a.generation, false)));
    } else {
      TwoLinesChanged(kinds, a, p, line);
      var b := Changed(Put(a, p, line)).(caller := Pumping(0, p, max, Resume(answer)));
      CallerReaderMoved(kinds, a, b, p);
      SleepFrame(kinds, a, b);
    }
  }

  /** The pump finds room in a feed and starts to fill it. */
  lemma AfterFillStarts(kinds: seq<Kind>, a: System)
    requires Inv(kinds, a) && Enabled(kinds, a, PumpLook) && a.caller.feed < |a.lines|
    requires var line := a.lines[a.caller.feed]; kinds[a.caller.feed].Feed? && line.pc.Resting? && HasRoom(line.pipe)
    ensures Inv(kinds, Apply(kinds, a, PumpLook))
  {
    var c := a.caller;
    var line := a.lines[c.feed];
    assert LineOk(kinds[c.feed], line, a.abandoned);
    QuietStep(kinds, a, c.feed, line.(pipe := WithoutSpare(line.pipe), pc := PumpFilling, hand := []));
  }

  /** The pump has nothing to do at a pipe and goes on to the next. */
  lemma AfterFeedPassed(kinds: seq<Kind>, a: System)
    requires Inv(kinds, a) && Enabled(kinds, a, PumpLook) && a.caller.feed < |a.lines|
    requires var line := a.lines[a.caller.feed]; !(kinds[a.caller.feed].Feed? && line.pc.Resting? && HasRoom(line.pipe))
    ensures Inv(kinds, Apply(kinds, a, PumpLook))
  {
    var c := a.caller;
    assert LineOk(kinds[c.feed], a.lines[c.feed], a.abandoned);
    assert ToppedUp(kinds, a, c.feed);
    ToppedUpAs(kinds, a, a.(caller := c.(feed := c.feed + 1)));
    AfterCallerMove(kinds, a, c.(feed := c.feed + 1));
  }

  lemma ToppedUpAs(kinds: seq<Kind>, a: System, b: System)
    requires b.lines == a.lines && |kinds| == |a.lines|
    ensures forall g :: 0 <= g < |a.lines| ==> ToppedUp(kinds, a, g) == ToppedUp(kinds, b, g)
  {
  }

  /** Every pipe looked at: the caller goes on with what it was about to do. */
  lemma AfterPumpDone(kinds: seq<Kind>, a: System)
    requires Inv(kinds, a) && Enabled(kinds, a, PumpLook) && a.caller.feed >= |a.lines|
    ensures Inv(kinds, Apply(kinds, a, PumpLook))
  {
    if a.caller.after == Resume(Piece) {
      AfterCallerCopies(kinds, a, a.caller.pipe, a.caller.max);
    } else {
      var b := Apply(kinds, a, PumpLook);
      ToppedUpAs(kinds, a, b);
      AfterCallerMove(kinds, a, b.caller);
    }
  }

  lemma AfterLook(kinds: seq<Kind>, a: System)
    requires Inv(kinds, a) && Enabled(kinds, a, PumpLook)
    ensures Inv(kinds, Apply(kinds, a, PumpLook))
  {
    if a.caller.feed >= |a.lines| {
      AfterPumpDone(kinds, a);
    } else {
      var line := a.lines[a.caller.feed];
      if kinds[a.caller.feed].Feed? && line.pc.Resting? && HasRoom(line.pipe) {
        AfterFillStarts(kinds, a);
      } else {
        AfterFeedPassed(kinds, a);
      }
    }
  }

  lemma AfterSource(kinds: seq<Kind>, a: System, step: Step)
    requires Inv(kinds, a) && Enabled(kinds, a, step)
    requires step.SourceYields? || step.SourceStops?
    ensures Inv(kinds, Apply(kinds, a, step))
  {
    var f := a.caller.feed;
    var line := Apply(kinds, a, step).lines[f];
    assert LineOk(kinds[f], a.lines[f], a.abandoned);
    assert LineOk(kinds[f], line, a.abandoned);
    QuietStep(kinds, a, f, line);
  }

  lemma AfterPumpSend(kinds: seq<Kind>, a: System)
    requires Inv(kinds, a) && Enabled(kinds, a, PumpSend)
    ensures Inv(kinds, Apply(kinds, a, PumpSend))
  {
    var f := a.caller.feed;
    var outcome := a.lines[f].pc.outcome;
    var next := LineSent(a.lines[f], outcome, if outcome.More? then Resting else Exited);
    LineSentOk(kinds[f], a.lines[f], outcome, next.pc, a.abandoned);
    AfterAnnouncedPut(kinds, a, f, next);
    var b := Changed(Put(a, f, next));
    AfterCallerMove(kinds, b, a.caller.(after := Progressed(a.caller.after)));
  }

  lemma AfterWait(kinds: seq<Kind>, a: System)
    requires Inv(kinds, a) && Enabled(kinds, a, WaitPass)
    ensures Inv(kinds, Apply(kinds, a, WaitPass))
  {
    var b := Apply(kinds, a, WaitPass);
    assert forall g :: 0 <= g < |a.lines| ==> ToppedUp(kinds, a, g) == ToppedUp(kinds, b, g);
    AfterCallerMove(kinds, a, b.caller);
  }

  lemma AfterDrop(kinds: seq<Kind>, a: System)
    requires Inv(kinds, a) && Enabled(kinds, a, DropPass)
    ensures Inv(kinds, Apply(kinds, a, DropPass))
  {
    var gone := a.(abandoned := true);
    forall i | 0 <= i < |a.lines| ensures LineOk(kinds[i], gone.lines[i], true) {
      assert LineOk(kinds[i], a.lines[i], a.abandoned);
    }
    LinesChanged(kinds, gone);
    var b := Apply(kinds, a, DropPass);
    ReadersKept(kinds, a, b);
    SleepFrame(kinds, a, b);
  }

  lemma AfterCaller(kinds: seq<Kind>, a: System, step: Step)
    requires Inv(kinds, a) && Enabled(kinds, a, step) && !IsStage(step) && !Spurious(step)
    ensures Inv(kinds, Apply(kinds, a, step))
  {
    match step
    case CallerReads(p, max) =>
      assert LineOk(kinds[p], a.lines[p], a.abandoned);
      if Unread(a.lines[p].reader) {
        AfterCallerCopies(kinds, a, p, max);
      } else {
        AfterCallerMove(kinds, a, Taking(p, max));
      }
    case TakePass => AfterTake(kinds, a);
    case PumpLook => AfterLook(kinds, a);
    case SourceYields(_) => AfterSource(kinds, a, step);
    case SourceStops(_) => AfterSource(kinds, a, step);
    case PumpSend => AfterPumpSend(kinds, a);
    case WaitPass => AfterWait(kinds, a);
    case CallerDrops => AfterCallerMove(kinds, a, Dropping);
    case DropPass => AfterDrop(kinds, a);
    case JoinAll => AfterCallerMove(kinds, a, Gone);
  }

  lemma AfterSpurious(kinds: seq<Kind>, a: System, step: Step)
    requires Inv(kinds, a) && Enabled(kinds, a, step) && Spurious(step)
    ensures Inv(kinds, Apply(kinds, a, step))
  {
    if step.SpuriousStage? {
      var p := step.stage;
      var pc := a.lines[p].pc;
      assert LineOk(kinds[p], a.lines[p], a.abandoned);
      if pc.ForRoom? || pc.ForInput? {
        LineWoken(kinds[p], a.lines[p], a.abandoned);
        assert StageSleepOk(kinds, a, p);
        AfterMove(kinds, a, p, WokenPc(pc));
      } else {
        assert AtPc(a, p, WokenPc(pc)).lines == a.lines;
      }
    } else {
      var b := Apply(kinds, a, step);
      assert forall g :: 0 <= g < |a.lines| ==> ToppedUp(kinds, a, g) == ToppedUp(kinds, b, g);
      AfterCallerMove(kinds, a, b.caller);
    }
  }

  lemma InvKept(kinds: seq<Kind>, a: System, step: Step)
    requires Inv(kinds, a) && Enabled(kinds, a, step)
    ensures Inv(kinds, Apply(kinds, a, step))
  {
    if Spurious(step) {
      AfterSpurious(kinds, a, step);
    } else if !IsStage(step) {
      AfterCaller(kinds, a, step);
    } else {
      match step
      case RoomPass(p) => AfterRoom(kinds, a, p);
      case CoderReads(p, max) =>
        if Unread(a.lines[kinds[p].input].reader) {
          AfterBufferedRead(kinds, a, p, max);
        } else {
          AfterRefillStarts(kinds, a, p, max);
        }
      case ReadPass(p) => AfterReadPass(kinds, a, p);
      case SendPass(p) => AfterSend(kinds, a, p);
      case PanicPass(p) => AfterPanic(kinds, a, p);
      case CoderYields(_, _) => AfterCoder(kinds, a, step);
      case CoderStops(_, _) => AfterCoder(kinds, a, step);
      case CoderPanics(_) => AfterCoder(kinds, a, step);
    }
  }
}
