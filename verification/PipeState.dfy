/** One bounded pipe between two coders: its state, and the class that updates it in place. */
module PipeState {
  import opened Common

  type Bytes = seq<Byte>

  const PIPE_CHUNK: nat := 262144
  const PIPE_DEPTH: nat := 2

  datatype Fault = CoderFailed(code: int) | CoderPanicked | AlreadyFailed | Abandoned

  datatype End = Open | Done | Failed(fault: Fault) | Reported

  /** How filling a piece came out: full, at the end of the stream, or at an error. */
  datatype Filled = More | Clean | Broken(fault: Fault)

  /** `spare` counts the emptied pieces handed back to the writer. */
  datatype Pipe = Pipe(chunks: seq<Bytes>, spare: nat, end: End)

  /** A reader's buffer; `alive` says that it holds an allocation at all. */
  datatype Reader = Reader(buf: Bytes, pos: nat, alive: bool)

  datatype Answer = Piece | EndOfStream | Failure(fault: Fault) | NotYet

  const NEW_PIPE := Pipe([], 0, Open)
  const NEW_READER := Reader([], 0, false)

  predicate HasRoom(p: Pipe) { |p.chunks| < PIPE_DEPTH }

  function WithoutSpare(p: Pipe): Pipe {
    p.(spare := if p.spare > 0 then p.spare - 1 else 0)
  }

  function Sent(p: Pipe, chunk: Bytes, outcome: Filled): Pipe {
    var queued :=
      if chunk != [] then p.(chunks := p.chunks + [chunk])
      else if p.spare < PIPE_DEPTH then p.(spare := p.spare + 1)
      else p;
    match outcome
    case More => queued
    case Clean => queued.(end := Done)
    case Broken(fault) => queued.(end := Failed(fault))
  }

  /** What `take` leaves in the pipe and in the buffer, and what it answers. */
  function Taken(p: Pipe, r: Reader): (Pipe, Reader, Answer) {
    if p.chunks != [] then
      (p.(chunks := p.chunks[1..], spare := if r.alive && p.spare < PIPE_DEPTH then p.spare + 1 else p.spare),
       Reader(p.chunks[0], 0, true), Piece)
    else
      match p.end
      case Open => (p, r, NotYet)
      case Done => (p, r.(buf := [], pos := 0), EndOfStream)
      case Failed(fault) => (p.(end := Reported), r.(buf := [], pos := 0), Failure(fault))
      case Reported => (p, r.(buf := [], pos := 0), Failure(AlreadyFailed))
  }

  class PipeCell {
    var chunks: seq<Bytes>
    var spare: seq<Bytes>
    var end: End

    function View(): Pipe
      reads this
    {
      Pipe(chunks, |spare|, end)
    }

    constructor ()
      ensures View() == NEW_PIPE
    {
      chunks, spare, end := [], [], Open;
    }

    method Room() returns (room: bool)
      ensures room == HasRoom(View())
    {
      room := |chunks| < PIPE_DEPTH;
    }

    /** Pops a recycled piece, or makes a new one when there is none. */
    method Spare() returns (piece: Bytes)
      modifies this`spare
      ensures View() == WithoutSpare(old(View()))
      ensures old(spare) != [] ==> piece == old(spare)[|old(spare)| - 1]
      ensures old(spare) == [] ==> piece == []
    {
      if spare == [] {
        return [];
      }
      piece := spare[|spare| - 1];
      spare := spare[..|spare| - 1];
    }

    method Send(chunk: Bytes, outcome: Filled)
      modifies this
      ensures View() == Sent(old(View()), chunk, outcome)
    {
      if chunk != [] {
        chunks := chunks + [chunk];
      } else if |spare| < PIPE_DEPTH {
        spare := spare + [chunk];
      }
      match outcome {
        case More =>
        case Clean => end := Done;
        case Broken(fault) => end := Failed(fault);
      }
    }

    /** Swaps the next piece into the caller's buffer. */
    method Take(r: Reader) returns (next: Reader, answer: Answer)
      modifies this
      ensures (View(), next, answer) == Taken(old(View()), r)
    {
      if chunks != [] {
        var chunk := chunks[0];
        chunks := chunks[1..];
        if r.alive && |spare| < PIPE_DEPTH {
          spare := spare + [r.buf];
        }
        return Reader(chunk, 0, true), Piece;
      }
      next := if end == Open then r else r.(buf := [], pos := 0);
      match end {
        case Open => answer := NotYet;
        case Done => answer := EndOfStream;
        case Failed(fault) =>
          end := Reported;
          answer := Failure(fault);
        case Reported => answer := Failure(AlreadyFailed);
      }
    }
  }
}
