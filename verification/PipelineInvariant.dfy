/** What every reachable state of a pipeline satisfies: line by line, and across the sleepers. */
module PipelineInvariant {
  import opened PipeState
  import opened Pipeline

  // ------------------------------------------------- logs of what reads were told

  function Flat(chunks: seq<Bytes>): Bytes {
    if chunks == [] then [] else chunks[0] + Flat(chunks[1..])
  }

  function DataOf(log: seq<Told>): Bytes {
    if log == [] then []
    else DataOf(log[..|log| - 1]) + if log[|log| - 1].Data? then log[|log| - 1].bytes else []
  }

  predicate OnlyData(log: seq<Told>) {
    forall i :: 0 <= i < |log| ==> log[i].Data?
  }

  /** Data first, and from some point on nothing but the end of the stream. */
  ghost predicate EndsCleanly(log: seq<Told>) {
    exists k :: 0 <= k < |log| && OnlyData(log[..k]) && forall i :: k <= i < |log| ==> log[i] == Eof
  }

  /** Data first, then the fault once, and from then on a different error. */
  ghost predicate EndsBroken(log: seq<Told>, fault: Fault) {
    exists k :: 0 <= k < |log| && OnlyData(log[..k]) && log[k] == Error(fault)
      && forall i :: k < i < |log| ==> log[i] == Error(AlreadyFailed)
  }

  lemma {:induction false} FlatAppend(chunks: seq<Bytes>, chunk: Bytes)
    ensures Flat(chunks + [chunk]) == Flat(chunks) + chunk
  {
    if chunks == [] {
      assert [chunk][1..] == [];
    } else {
      assert (chunks + [chunk])[1..] == chunks[1..] + [chunk];
      FlatAppend(chunks[1..], chunk);
    }
  }

  lemma DataAppend(log: seq<Told>, told: Told)
    ensures DataOf(log + [told]) == DataOf(log) + if told.Data? then told.bytes else []
  {
    assert (log + [told])[..|log|] == log;
  }

  lemma CleanAppend(log: seq<Told>)
    ensures OnlyData(log) || EndsCleanly(log) ==> EndsCleanly(log + [Eof])
  {
    var longer := log + [Eof];
    if OnlyData(log) {
      assert longer[..|log|] == log;
    } else if EndsCleanly(log) {
      var k :| 0 <= k < |log| && OnlyData(log[..k]) && forall i :: k <= i < |log| ==> log[i] == Eof;
      assert longer[..k] == log[..k];
    }
  }

  lemma BrokenAppend(log: seq<Told>, fault: Fault)
    ensures OnlyData(log) ==> EndsBroken(log + [Error(fault)], fault)
    ensures EndsBroken(log, fault) ==> EndsBroken(log + [Error(AlreadyFailed)], fault)
  {
    if OnlyData(log) {
      assert (log + [Error(fault)])[..|log|] == log;
    }
    if EndsBroken(log, fault) {
      var k :| 0 <= k < |log| && OnlyData(log[..k]) && log[k] == Error(fault)
        && forall i :: k < i < |log| ==> log[i] == Error(AlreadyFailed);
      assert (log + [Error(AlreadyFailed)])[..k] == log[..k];
    }
  }

  // ------------------------------------------------- one line

  predicate Holds(pc: WriterPc) {
    pc.Filling? || pc.Reading? || pc.ForInput? || pc.Sending? || pc.PumpFilling? || pc.PumpSending?
  }

  predicate PumpPc(pc: WriterPc) { pc.Resting? || pc.PumpFilling? || pc.PumpSending? || pc.Exited? }

  predicate StagePc(pc: WriterPc) { !pc.Resting? && !pc.PumpFilling? && !pc.PumpSending? }

  function Bit(b: bool): nat { if b then 1 else 0 }

  /** Allocations of a pipe: queued, recycled, in the writer's hand and in the reader's buffer. */
  function Buffers(line: Line): nat {
    |line.pipe.chunks| + line.pipe.spare + Bit(Holds(line.pc)) + Bit(line.reader.alive)
  }

  predicate Drained(line: Line) { line.pipe.chunks == [] && line.reader.pos == |line.reader.buf| }

  predicate Room(line: Line) {
    && |line.pipe.chunks| <= PIPE_DEPTH
    && (Holds(line.pc) ==> |line.pipe.chunks| < PIPE_DEPTH)
    && Buffers(line) <= PIPE_DEPTH + 1
    && (forall i :: 0 <= i < |line.pipe.chunks| ==> line.pipe.chunks[i] != [])
    && line.reader.pos <= |line.reader.buf|
    && (!Holds(line.pc) ==> line.hand == [])
  }

  predicate Sized(line: Line) {
    && (line.pc.Filling? || line.pc.PumpFilling? || line.pc.Reading? || line.pc.ForInput? ==> |line.hand| < PIPE_CHUNK)
    && (line.pc.Sending? && line.pc.outcome.More? ==> |line.hand| == PIPE_CHUNK)
    && (line.pc.PumpSending? && line.pc.outcome.More? ==> |line.hand| == PIPE_CHUNK)
    && (line.pc.Reading? || line.pc.ForInput? ==> line.pc.max > 0)
  }

  /** Nothing is lost, repeated or reordered between what was sent and what was read. */
  predicate Conserved(line: Line)
    requires line.reader.pos <= |line.reader.buf|
  {
    line.made == DataOf(line.log) + line.reader.buf[line.reader.pos..] + Flat(line.pipe.chunks)
  }

  ghost predicate Ended(line: Line) {
    match line.pipe.end
    case Open => line.ending.More? && OnlyData(line.log)
    case Done => line.ending.Clean? && (OnlyData(line.log) || (EndsCleanly(line.log) && Drained(line)))
    case Failed(fault) => line.ending == Broken(fault) && OnlyData(line.log)
    case Reported => line.ending.Broken? && EndsBroken(line.log, line.ending.fault) && Drained(line)
  }

  ghost predicate LineOk(kind: Kind, line: Line, abandoned: bool) {
    && Room(line)
    && Sized(line)
    && Conserved(line)
    && Ended(line)
    && (if kind.Feed? then PumpPc(line.pc) else StagePc(line.pc))
    && (line.pipe.end.Open? || line.pc.Exited?)
    && (line.pc.Exited? ==> !line.pipe.end.Open? || (abandoned && !kind.Feed?))
  }

  // ------------------------------------------------- across lines

  /** A sleeping stage sleeps for a reason that still holds. */
  ghost predicate StageSleepOk(kinds: seq<Kind>, a: System, p: nat)
    requires p < |a.lines| == |kinds|
  {
    && (a.lines[p].pc == ForRoom(false) ==> !a.abandoned && !HasRoom(a.lines[p].pipe))
    && (a.lines[p].pc.ForInput? && !a.lines[p].pc.woken ==>
        && !a.abandoned
        && kinds[p].PipedStage? && kinds[p].input < p
        && a.lines[kinds[p].input].pipe.chunks == []
        && a.lines[kinds[p].input].pipe.end.Open?)
    && (a.lines[p].pc.Reading? || a.lines[p].pc.ForInput? ==>
        kinds[p].PipedStage? && kinds[p].input < p && Drained2(a.lines[kinds[p].input]))
  }

  predicate Drained2(line: Line) { line.reader.pos == |line.reader.buf| }

  /** A pack stream's pipe the pump has nothing to do for. */
  predicate ToppedUp(kinds: seq<Kind>, a: System, f: nat)
    requires f < |a.lines| == |kinds|
  {
    kinds[f].Feed? ==> !a.lines[f].pipe.end.Open? || !HasRoom(a.lines[f].pipe)
  }

  predicate Starved(a: System, p: nat)
    requires p < |a.lines|
  {
    a.lines[p].pipe.chunks == [] && a.lines[p].pipe.end.Open?
  }

  /** While the generation is the one it saw, what the caller saw is what there is. */
  ghost predicate CallerOk(kinds: seq<Kind>, a: System)
    requires |a.lines| == |kinds|
  {
    match a.caller
    case Taking(p, max) => ReadByCaller(kinds, p) && max > 0 && !a.abandoned && Drained2(a.lines[p])
    case Pumping(f, p, max, after) =>
      && ReadByCaller(kinds, p) && max > 0 && !a.abandoned
      && (match after
          case Resume(answer) => answer.Piece? ==> Unread(a.lines[p].reader)
          case Recheck(seen, progressed) =>
            && Drained2(a.lines[p])
            && seen <= a.generation
            && (progressed ==> seen < a.generation)
            && (a.generation == seen ==>
                Starved(a, p) && forall g :: 0 <= g < f && g < |a.lines| ==> ToppedUp(kinds, a, g)))
    case Waiting(p, max, seen) =>
      && ReadByCaller(kinds, p) && max > 0 && !a.abandoned && seen <= a.generation && Drained2(a.lines[p])
      && (a.generation == seen ==> Starved(a, p) && forall g :: 0 <= g < |a.lines| ==> ToppedUp(kinds, a, g))
    case Asleep(p, max, seen, woken) =>
      && ReadByCaller(kinds, p) && max > 0 && !a.abandoned && seen <= a.generation && Drained2(a.lines[p])
      && (!woken ==> a.generation == seen)
      && (a.generation == seen ==> Starved(a, p) && forall g :: 0 <= g < |a.lines| ==> ToppedUp(kinds, a, g))
    case Working => !a.abandoned
    case Dropping => !a.abandoned
    case Joining => a.abandoned
    case Gone => a.abandoned && forall p :: 0 <= p < |a.lines| && !kinds[p].Feed? ==> a.lines[p].pc.Exited?
  }

  /** The pump is at work on at most one pipe, the one the caller is at. */
  predicate PumpPlace(a: System) {
    forall f :: 0 <= f < |a.lines| && (a.lines[f].pc.PumpFilling? || a.lines[f].pc.PumpSending?) ==>
      a.caller.Pumping? && a.caller.feed == f
  }

  ghost predicate Inv(kinds: seq<Kind>, a: System) {
    && |a.lines| == |kinds|
    && ValidPlan(kinds)
    && (forall p :: 0 <= p < |a.lines| ==> LineOk(kinds[p], a.lines[p], a.abandoned))
    && (forall p :: 0 <= p < |a.lines| ==> StageSleepOk(kinds, a, p))
    && CallerOk(kinds, a)
    && PumpPlace(a)
  }

  // ------------------------------------------------- how a line changes

  lemma Regroup(d: Bytes, piece: Bytes, rest: Bytes, f: Bytes)
    ensures d + (piece + rest) + f == (d + piece) + rest + f
    ensures d + [] + (piece + f) == d + piece + f
  {
  }

  lemma SplitAt(buf: Bytes, pos: nat, n: nat)
    requires pos + n <= |buf|
    ensures buf[pos..] == buf[pos..pos + n] + buf[pos + n..]
  {
  }

  lemma ConservedWhenCopied(line: Line, max: nat)
    requires line.reader.pos <= |line.reader.buf| && Conserved(line)
    ensures Conserved(CopiedOut(line, max))
  {
    var buf, pos := line.reader.buf, line.reader.pos;
    var n := if max < |buf| - pos then max else |buf| - pos;
    var next := CopiedOut(line, max);
    SplitAt(buf, pos, n);
    DataAppend(line.log, Data(buf[pos..pos + n]));
    assert next.reader.buf[next.reader.pos..] == buf[pos + n..] && next.log == line.log + [Data(buf[pos..pos + n])];
    Regroup(DataOf(line.log), buf[pos..pos + n], buf[pos + n..], Flat(line.pipe.chunks));
  }

  lemma EndedWhenCopied(line: Line, max: nat)
    requires Unread(line.reader) && Ended(line)
    ensures Ended(CopiedOut(line, max))
  {
    assert OnlyData(line.log);
  }

  lemma LineCopied(kind: Kind, line: Line, max: nat, abandoned: bool)
    requires LineOk(kind, line, abandoned) && Unread(line.reader) && max > 0
    ensures LineOk(kind, CopiedOut(line, max), abandoned)
  {
    ConservedWhenCopied(line, max);
    EndedWhenCopied(line, max);
  }

  /** A buffer used up, and the next piece in its place. */
  lemma NextPiece(made: Bytes, d: Bytes, buf: Bytes, pos: nat, chunks: seq<Bytes>)
    requires pos == |buf| && chunks != [] && made == d + buf[pos..] + Flat(chunks)
    ensures made == d + chunks[0][0..] + Flat(chunks[1..])
  {
    Regroup(d, chunks[0], [], Flat(chunks[1..]));
    assert chunks[0][0..] == chunks[0] && buf[pos..] == [];
  }

  /** A buffer used up, and dropped. */
  lemma NoPiece(made: Bytes, d: Bytes, buf: Bytes, pos: nat, flat: Bytes)
    requires pos == |buf| && made == d + buf[pos..] + flat
    ensures made == d + [][0..] + flat
  {
  }

  lemma ConservedPiece(line: Line, spare: nat)
    requires line.reader.pos == |line.reader.buf| && Conserved(line) && line.pipe.chunks != []
    ensures Conserved(line.(pipe := line.pipe.(chunks := line.pipe.chunks[1..], spare := spare),
                            reader := Reader(line.pipe.chunks[0], 0, true)))
  {
    NextPiece(line.made, DataOf(line.log), line.reader.buf, line.reader.pos, line.pipe.chunks);
  }

  lemma ConservedEnd(line: Line, end: End, told: Told)
    requires line.reader.pos == |line.reader.buf| && Conserved(line) && !told.Data?
    ensures Conserved(line.(pipe := line.pipe.(end := end), reader := line.reader.(buf := [], pos := 0), log := line.log + [told]))
  {
    DataAppend(line.log, told);
    NoPiece(line.made, DataOf(line.log), line.reader.buf, line.reader.pos, Flat(line.pipe.chunks));
    assert DataOf(line.log) + [] == DataOf(line.log);
  }

  lemma ConservedWhenTaken(line: Line)
    requires line.reader.pos == |line.reader.buf| && Conserved(line)
    ensures LineTaken(line).0.reader.pos <= |LineTaken(line).0.reader.buf|
    ensures Conserved(LineTaken(line).0)
  {
    var pipe, next := line.pipe, LineTaken(line).0;
    if pipe.chunks != [] {
      ConservedPiece(line, next.pipe.spare);
    } else if pipe.end.Done? {
      ConservedEnd(line, pipe.end, Eof);
    } else if pipe.end.Failed? {
      ConservedEnd(line, Reported, Error(pipe.end.fault));
    } else if pipe.end.Reported? {
      ConservedEnd(line, Reported, Error(AlreadyFailed));
    }
  }

  lemma EndedWhenTaken(line: Line)
    requires Ended(line) && line.reader.pos == |line.reader.buf|
    requires forall i :: 0 <= i < |line.pipe.chunks| ==> line.pipe.chunks[i] != []
    ensures Ended(LineTaken(line).0)
  {
    var (next, answer) := LineTaken(line);
    match answer
    case Piece =>
    case EndOfStream =>
      CleanAppend(line.log);
    case Failure(fault) =>
      BrokenAppend(line.log, line.ending.fault);
    case NotYet =>
  }

  lemma RoomWhenTaken(line: Line)
    requires Room(line) && Sized(line) && line.reader.pos == |line.reader.buf| && (line.pipe.end.Open? || line.pc.Exited?)
    ensures var (next, answer) := LineTaken(line);
      && Room(next) && Sized(next) && next.pc == line.pc && next.made == line.made && next.ending == line.ending
      && (answer.Piece? ==> Unread(next.reader))
      && (!answer.Piece? ==> next.reader.pos == |next.reader.buf|)
      && (answer.NotYet? <==> line.pipe.chunks == [] && line.pipe.end.Open?)
      && (answer.NotYet? ==> next == line)
      && (next.pipe.end.Open? <==> line.pipe.end.Open?)
  {
  }

  lemma LineTakenOk(kind: Kind, line: Line, abandoned: bool)
    requires LineOk(kind, line, abandoned) && line.reader.pos == |line.reader.buf|
    ensures var (next, answer) := LineTaken(line);
      && LineOk(kind, next, abandoned)
      && next.pc == line.pc && next.made == line.made
      && (answer.Piece? ==> Unread(next.reader))
      && (!answer.Piece? ==> next.reader.pos == |next.reader.buf|)
      && (answer.NotYet? <==> line.pipe.chunks == [] && line.pipe.end.Open?)
      && (answer.NotYet? ==> next == line)
  {
    ConservedWhenTaken(line);
    EndedWhenTaken(line);
    RoomWhenTaken(line);
  }

  lemma ConservedWhenSent(line: Line, outcome: Filled, pc: WriterPc)
    requires line.reader.pos <= |line.reader.buf| && Conserved(line)
    ensures Conserved(LineSent(line, outcome, pc))
  {
    FlatAppend(line.pipe.chunks, line.hand);
  }

  lemma LineSentOk(kind: Kind, line: Line, outcome: Filled, pc: WriterPc, abandoned: bool)
    requires LineOk(kind, line, abandoned)
    requires line.pc == Sending(outcome) || line.pc == PumpSending(outcome)
    requires pc == if outcome.More? then (if kind.Feed? then Resting else WantRoom) else Exited
    ensures LineOk(kind, LineSent(line, outcome, pc), abandoned)
  {
    ConservedWhenSent(line, outcome, pc);
    var next := LineSent(line, outcome, pc);
    assert line.pipe.end.Open?;
    assert Ended(next);
    assert Room(next);
  }

  lemma LineWoken(kind: Kind, line: Line, abandoned: bool)
    requires LineOk(kind, line, abandoned)
    ensures LineOk(kind, line.(pc := WokenPc(line.pc)), abandoned)
  {
  }
}
