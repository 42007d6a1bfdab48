/**
 The threads of one block's coder pipeline. Pipe `p` is written either by the
 stage that has a thread for it or, for a pack stream, by the caller's pump. A
 step is one section run under the mutex or one choice of a coder or a source:
 a coder is any producer of bytes that may read its input as it likes and ends
 in an end, an error or a panic.
 */
module Pipeline {
  import opened PipeState

  datatype Kind = OwnStage | PipedStage(input: nat) | Feed

  /** A stage reads a pipe opened before its own, which nothing else reads. */
  ghost predicate ValidPlan(kinds: seq<Kind>) {
    && (forall p :: 0 <= p < |kinds| && kinds[p].PipedStage? ==> kinds[p].input < p)
    && (forall p, r :: 0 <= p < r < |kinds| && kinds[p].PipedStage? && kinds[r].PipedStage? ==>
        kinds[p].input != kinds[r].input)
  }

  predicate ReadByCaller(kinds: seq<Kind>, p: nat) {
    && p < |kinds|
    && !kinds[p].Feed?
    && forall r :: 0 <= r < |kinds| ==> kinds[r] != PipedStage(p)
  }

  datatype WriterPc =
    | WantRoom
    | ForRoom(woken: bool)
    | Filling
    | Reading(max: nat)
    | ForInput(max: nat, woken: bool)
    | Sending(outcome: Filled)
    | Panicking
    | Resting
    | PumpFilling
    | PumpSending(outcome: Filled)
    | Exited

  /** What a read of a pipe was answered with. */
  datatype Told = Data(bytes: Bytes) | Eof | Error(fault: Fault)

  /**
   A pipe, its writer with the piece in its hand, its reader's buffer, all that
   was sent into it, all its reads were told, and what its writer ended with.
   */
  datatype Line = Line(
    pipe: Pipe,
    pc: WriterPc,
    hand: Bytes,
    reader: Reader,
    made: Bytes,
    log: seq<Told>,
    ending: Filled)

  datatype After = Resume(answer: Answer) | Recheck(seen: nat, progressed: bool)

  datatype CallerPc =
    | Working
    | Taking(pipe: nat, max: nat)
    | Pumping(feed: nat, pipe: nat, max: nat, after: After)
    | Waiting(pipe: nat, max: nat, seen: nat)
    | Asleep(pipe: nat, max: nat, seen: nat, woken: bool)
    | Dropping
    | Joining
    | Gone

  datatype System = System(lines: seq<Line>, caller: CallerPc, abandoned: bool, generation: nat)

  datatype Step =
    | RoomPass(stage: nat)
    | CoderYields(stage: nat, bytes: Bytes)
    | CoderStops(stage: nat, outcome: Filled)
    | CoderPanics(stage: nat)
    | CoderReads(stage: nat, max: nat)
    | ReadPass(stage: nat)
    | SendPass(stage: nat)
    | PanicPass(stage: nat)
    | CallerReads(pipe: nat, max: nat)
    | TakePass
    | PumpLook
    | SourceYields(bytes: Bytes)
    | SourceStops(outcome: Filled)
    | PumpSend
    | WaitPass
    | CallerDrops
    | DropPass
    | JoinAll
    | SpuriousStage(stage: nat)
    | SpuriousCaller

  predicate IsStage(step: Step) {
    step.RoomPass? || step.CoderYields? || step.CoderStops? || step.CoderPanics? || step.CoderReads?
    || step.ReadPass? || step.SendPass? || step.PanicPass?
  }

  predicate Spurious(step: Step) { step.SpuriousStage? || step.SpuriousCaller? }

  // ---------------------------------------------------------------- the pieces of a step

  function WokenPc(pc: WriterPc): WriterPc {
    match pc
    case ForRoom(_) => ForRoom(true)
    case ForInput(max, _) => ForInput(max, true)
    case _ => pc
  }

  function WokenCaller(pc: CallerPc): CallerPc {
    if pc.Asleep? then pc.(woken := true) else pc
  }

  /** Every change bumps the generation and wakes every sleeper, still under the mutex. */
  function Changed(a: System): System {
    a.(generation := a.generation + 1,
       lines := seq(|a.lines|, i requires 0 <= i < |a.lines| => a.lines[i].(pc := WokenPc(a.lines[i].pc))),
       caller := WokenCaller(a.caller))
  }

  function Put(a: System, p: nat, line: Line): System
    requires p < |a.lines|
  {
    a.(lines := a.lines[p := line])
  }

  function AtPc(a: System, p: nat, pc: WriterPc): System
    requires p < |a.lines|
  {
    Put(a, p, a.lines[p].(pc := pc))
  }

  predicate Unread(r: Reader) { r.pos < |r.buf| }

  /** Hands out up to `max` bytes of the buffer. */
  function CopiedOut(line: Line, max: nat): Line {
    var r := line.reader;
    if r.pos <= |r.buf| then
      var n := if max < |r.buf| - r.pos then max else |r.buf| - r.pos;
      line.(reader := r.(pos := r.pos + n), log := line.log + [Data(r.buf[r.pos..r.pos + n])])
    else line
  }

  function LineSent(line: Line, outcome: Filled, pc: WriterPc): Line {
    line.(pipe := Sent(line.pipe, line.hand, outcome), made := line.made + line.hand, hand := [], pc := pc,
          ending := outcome)
  }

  /** A read that found its buffer used up: the pipe's answer, with a verdict logged as it is given. */
  function LineTaken(line: Line): (Line, Answer) {
    var (pipe, reader, answer) := Taken(line.pipe, line.reader);
    var log := match answer
      case EndOfStream => line.log + [Eof]
      case Failure(fault) => line.log + [Error(fault)]
      case _ => line.log;
    (line.(pipe := pipe, reader := reader, log := log), answer)
  }

  function RunRoom(a: System, p: nat): System
    requires p < |a.lines|
  {
    var line := a.lines[p];
    if a.abandoned then AtPc(a, p, Exited)
    else if HasRoom(line.pipe) then Put(a, p, line.(pipe := WithoutSpare(line.pipe), pc := Filling, hand := []))
    else AtPc(a, p, ForRoom(false))
  }

  function RunRead(a: System, p: nat, q: nat, max: nat): System
    requires p < |a.lines| && q < p
  {
    if a.abandoned then AtPc(a, p, Filling)
    else
      var (line, answer) := LineTaken(a.lines[q]);
      match answer
      case NotYet => AtPc(a, p, ForInput(max, false))
      case Piece => Changed(AtPc(Put(a, q, CopiedOut(line, max)), p, Filling))
      case _ => Changed(AtPc(Put(a, q, line), p, Filling))
  }

  function RunTake(a: System): System
    requires a.caller.Taking? && a.caller.pipe < |a.lines|
  {
    var p, max := a.caller.pipe, a.caller.max;
    var (line, answer) := LineTaken(a.lines[p]);
    if answer.NotYet? then a.(caller := Pumping(0, p, max, Recheck(a.generation, false)))
    else Changed(Put(a, p, line)).(caller := Pumping(0, p, max, Resume(answer)))
  }

  function RunLook(kinds: seq<Kind>, a: System): System
    requires a.caller.Pumping? && a.caller.pipe < |a.lines| == |kinds|
  {
    var c := a.caller;
    if c.feed >= |a.lines| then
      match c.after
      case Resume(Piece) => Put(a, c.pipe, CopiedOut(a.lines[c.pipe], c.max)).(caller := Working)
      case Resume(_) => a.(caller := Working)
      case Recheck(seen, true) => a.(caller := Taking(c.pipe, c.max))
      case Recheck(seen, false) => a.(caller := Waiting(c.pipe, c.max, seen))
    else
      var line := a.lines[c.feed];
      if kinds[c.feed].Feed? && line.pc.Resting? && HasRoom(line.pipe) then
        Put(a, c.feed, line.(pipe := WithoutSpare(line.pipe), pc := PumpFilling, hand := []))
      else
        a.(caller := c.(feed := c.feed + 1))
  }

  function Progressed(after: After): After {
    if after.Recheck? then after.(progressed := true) else after
  }

  predicate MayYield(line: Line, bytes: Bytes) {
    bytes != [] && |line.hand| + |bytes| <= PIPE_CHUNK
  }

  predicate PumpingAt(a: System) { a.caller.Pumping? && a.caller.feed < |a.lines| }

  predicate Enabled(kinds: seq<Kind>, a: System, step: Step)
    requires |kinds| == |a.lines|
  {
    match step
    case RoomPass(p) => p < |a.lines| && (a.lines[p].pc.WantRoom? || a.lines[p].pc == ForRoom(true))
    case CoderYields(p, bytes) => p < |a.lines| && a.lines[p].pc.Filling? && MayYield(a.lines[p], bytes)
    case CoderStops(p, outcome) => p < |a.lines| && a.lines[p].pc.Filling? && !outcome.More?
    case CoderPanics(p) => p < |a.lines| && a.lines[p].pc.Filling?
    case CoderReads(p, max) => p < |a.lines| && a.lines[p].pc.Filling? && kinds[p].PipedStage? && kinds[p].input < p && max > 0
    case ReadPass(p) =>
      p < |a.lines| && kinds[p].PipedStage? && kinds[p].input < p
      && (a.lines[p].pc.Reading? || (a.lines[p].pc.ForInput? && a.lines[p].pc.woken))
    case SendPass(p) => p < |a.lines| && a.lines[p].pc.Sending?
    case PanicPass(p) => p < |a.lines| && a.lines[p].pc.Panicking?
    case CallerReads(p, max) => a.caller.Working? && ReadByCaller(kinds, p) && max > 0
    case TakePass => a.caller.Taking? && a.caller.pipe < |a.lines|
    case PumpLook =>
      a.caller.Pumping? && a.caller.pipe < |a.lines|
      && (a.caller.feed < |a.lines| ==> !a.lines[a.caller.feed].pc.PumpFilling? && !a.lines[a.caller.feed].pc.PumpSending?)
    case SourceYields(bytes) => PumpingAt(a) && a.lines[a.caller.feed].pc.PumpFilling? && MayYield(a.lines[a.caller.feed], bytes)
    case SourceStops(outcome) => PumpingAt(a) && a.lines[a.caller.feed].pc.PumpFilling? && !outcome.More?
    case PumpSend => PumpingAt(a) && a.lines[a.caller.feed].pc.PumpSending?
    case WaitPass => a.caller.Waiting? || (a.caller.Asleep? && a.caller.woken)
    case CallerDrops => a.caller.Working?
    case DropPass => a.caller.Dropping?
    case JoinAll => a.caller.Joining? && forall p :: 0 <= p < |a.lines| && !kinds[p].Feed? ==> a.lines[p].pc.Exited?
    case SpuriousStage(p) => p < |a.lines|
    case SpuriousCaller => true
  }

  function Yielded(line: Line, bytes: Bytes, full: WriterPc): Line {
    var hand := line.hand + bytes;
    line.(hand := hand, pc := if |hand| == PIPE_CHUNK then full else line.pc)
  }

  function Apply(kinds: seq<Kind>, a: System, step: Step): System
    requires |kinds| == |a.lines| && Enabled(kinds, a, step)
  {
    match step
    case RoomPass(p) => RunRoom(a, p)
    case CoderYields(p, bytes) => Put(a, p, Yielded(a.lines[p], bytes, Sending(More)))
    case CoderStops(p, outcome) => AtPc(a, p, Sending(outcome))
    case CoderPanics(p) => Put(a, p, a.lines[p].(pc := Panicking, hand := []))
    case CoderReads(p, max) =>
      var q := kinds[p].input;
      if Unread(a.lines[q].reader) then Put(a, q, CopiedOut(a.lines[q], max)) else AtPc(a, p, Reading(max))
    case ReadPass(p) => RunRead(a, p, kinds[p].input, a.lines[p].pc.max)
    case SendPass(p) =>
      var outcome := a.lines[p].pc.outcome;
      Changed(Put(a, p, LineSent(a.lines[p], outcome, if outcome.More? then WantRoom else Exited)))
    case PanicPass(p) =>
      var line := a.lines[p];
      Changed(Put(a, p, line.(pipe := line.pipe.(end := Failed(CoderPanicked)), pc := Exited, ending := Broken(CoderPanicked))))
    case CallerReads(p, max) =>
      if Unread(a.lines[p].reader) then Put(a, p, CopiedOut(a.lines[p], max)) else a.(caller := Taking(p, max))
    case TakePass => RunTake(a)
    case PumpLook => RunLook(kinds, a)
    case SourceYields(bytes) => Put(a, a.caller.feed, Yielded(a.lines[a.caller.feed], bytes, PumpSending(More)))
    case SourceStops(outcome) => AtPc(a, a.caller.feed, PumpSending(outcome))
    case PumpSend =>
      var f := a.caller.feed;
      var outcome := a.lines[f].pc.outcome;
      Changed(Put(a, f, LineSent(a.lines[f], outcome, if outcome.More? then Resting else Exited)))
        .(caller := a.caller.(after := Progressed(a.caller.after)))
    case WaitPass =>
      var c := a.caller;
      a.(caller := if a.generation == c.seen then Asleep(c.pipe, c.max, c.seen, false) else Taking(c.pipe, c.max))
    case CallerDrops => a.(caller := Dropping)
    case DropPass => Changed(a.(abandoned := true)).(caller := Joining)
    case JoinAll => a.(caller := Gone)
    case SpuriousStage(p) => AtPc(a, p, WokenPc(a.lines[p].pc))
    case SpuriousCaller => a.(caller := WokenCaller(a.caller))
  }

  function NewLine(kind: Kind): Line {
    Line(NEW_PIPE, if kind.Feed? then Resting else WantRoom, [], NEW_READER, [], [], More)
  }

  /** The chain is built: every stage has its coder, and the caller has read nothing yet. */
  function Initial(kinds: seq<Kind>): System {
    System(seq(|kinds|, p requires 0 <= p < |kinds| => NewLine(kinds[p])), Working, false, 0)
  }

  /** Step `k` is one the threads can take, and leads to the next state. */
  ghost predicate Moves(kinds: seq<Kind>, trace: seq<System>, steps: seq<Step>, k: nat)
    requires |trace| == |steps| + 1 && k < |steps|
  {
    |trace[k].lines| == |kinds| && Enabled(kinds, trace[k], steps[k]) && trace[k + 1] == Apply(kinds, trace[k], steps[k])
  }

  ghost predicate Run(kinds: seq<Kind>, trace: seq<System>, steps: seq<Step>) {
    && |trace| == |steps| + 1
    && trace[0] == Initial(kinds)
    && forall k :: 0 <= k < |steps| ==> Moves(kinds, trace, steps, k)
  }

  ghost predicate Reachable(kinds: seq<Kind>, a: System) {
    exists trace, steps :: Run(kinds, trace, steps) && trace[|steps|] == a
  }
}
