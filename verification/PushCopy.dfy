/**
 An entry written on to a sink: read and written piece by piece, or lent by the
 decoder and written from its own output. Both are proved against one account of
 what reaches the sink.
 */
module PushCopy {
  import opened Common
  import opened ReaderStack

  const COPY_REST_BYTES: nat := 65536

  datatype Ending = Ok(total: nat) | Err(error: Error)

  /** Work left in a script: its steps and its bytes. */
  function Work(script: seq<Next>): nat {
    if script == [] then 0
    else 1 + (if script[0].Span? then |script[0].bytes| else 0) + Work(script[1..])
  }

  /** Everything the decoder gives, whatever failures come between. */
  function Output(script: seq<Next>): seq<Byte> {
    if script == [] then [] else (if script[0].Span? then script[0].bytes else []) + Output(script[1..])
  }

  /** The bytes a read gets at most, from the span at hand. */
  function AtHand(st: State, max: nat): nat
    requires st.script != [] && st.script[0].Span?
  {
    Least(Least(max, st.remain), |st.script[0].bytes|)
  }

  /** What a step does to the script: nothing, a failure raised, or bytes taken off the span at hand. */
  lemma StepMoves(sum: seq<Byte> -> nat, checks: Checks, st: State, max: nat)
    requires SpansFull(st.script) && max > 0
    ensures var (after, r) := Step(sum, checks, st, max);
      if after.script == st.script then r == Got([]) || r == Failed(EndedEarly)
      else
        && st.script != [] && st.remain > 0
        && if st.script[0].Fails? then after.script == st.script[1..] && r == Failed(st.script[0].error)
           else
             var n := AtHand(st, max);
             n > 0 && after.script == Without(st.script, n) && (r == Got(st.script[0].bytes[..n]) || r == Failed(BadChecksum))
  {
  }

  lemma WithoutSpends(script: seq<Next>, n: nat)
    requires SpansFull(script) && script != [] && script[0].Span? && 0 < n <= |script[0].bytes|
    ensures SpansFull(Without(script, n)) && Work(Without(script, n)) < Work(script)
  {
    var rest := Without(script, n);
    if n < |script[0].bytes| {
      assert rest[0] == Span(script[0].bytes[n..]) && rest[1..] == script[1..];
    }
  }

  lemma WithoutOutput(script: seq<Next>, n: nat)
    requires script != [] && script[0].Span? && n <= |script[0].bytes|
    ensures Output(script) == script[0].bytes[..n] + Output(Without(script, n))
  {
    var bytes, rest := script[0].bytes, Output(script[1..]);
    if n < |bytes| {
      var w := Without(script, n);
      assert w[0] == Span(bytes[n..]) && w[1..] == script[1..];
      assert bytes[..n] + (bytes[n..] + rest) == bytes + rest;
    } else {
      assert bytes[..n] == bytes;
    }
  }

  lemma StepSpends(sum: seq<Byte> -> nat, checks: Checks, st: State, max: nat)
    requires SpansFull(st.script) && max > 0
    ensures var (after, r) := Step(sum, checks, st, max);
      && SpansFull(after.script) && Work(after.script) <= Work(st.script)
      && (after.script != st.script ==> Work(after.script) < Work(st.script))
      && (r == Failed(Interrupted) || (r.Got? && r.bytes != []) ==> Work(after.script) < Work(st.script))
  {
    StepMoves(sum, checks, st, max);
    if st.script != [] && st.script[0].Span? && AtHand(st, max) > 0 {
      WithoutSpends(st.script, AtHand(st, max));
    }
  }

  /** What is read from here on, written to the sink until it refuses: the reader's state, the writes made, the ending. */
  function Copied(sum: seq<Byte> -> nat, checks: Checks, refuses: seq<seq<Byte>> -> Option<Error>,
                  st: State, writes: seq<seq<Byte>>, total: nat): (r: (State, seq<seq<Byte>>, Ending))
    requires SpansFull(st.script)
    decreases Work(st.script)
  {
    StepSpends(sum, checks, st, COPY_REST_BYTES);
    var (after, r) := Step(sum, checks, st, COPY_REST_BYTES);
    if r.Failed? then
      if r.error.Interrupted? then Copied(sum, checks, refuses, after, writes, total) else (after, writes, Err(r.error))
    else if r.bytes == [] then (after, writes, Ok(total))
    else
      var written := writes + [r.bytes];
      var e := refuses(written);
      if e.Some? then (after, written, Err(e.value)) else Copied(sum, checks, refuses, after, written, total + |r.bytes|)
  }

  function CopiedFrom(reader: Reader, sink: Sink, total: nat): (State, seq<seq<Byte>>, Ending)
    requires SpansFull(reader.st.script)
    reads reader, sink
  {
    Copied(reader.sum, reader.checks, sink.refuses, reader.st, sink.writes, total)
  }

  method CopyRest(reader: Reader, sink: Sink) returns (r: Ending)
    requires SpansFull(reader.st.script)
    modifies reader, sink
    ensures (reader.st, sink.writes, r) == old(CopiedFrom(reader, sink, 0))
  {
    var total: nat := 0;
    while true
      invariant SpansFull(reader.st.script) && CopiedFrom(reader, sink, total) == old(CopiedFrom(reader, sink, 0))
      decreases Work(reader.st.script)
    {
      StepSpends(reader.sum, reader.checks, reader.st, COPY_REST_BYTES);
      var n := reader.Read(COPY_REST_BYTES);
      if n.Failed? {
        if n.error.Interrupted? {
          continue;
        }
        return Err(n.error);
      }
      if n.bytes == [] {
        return Ok(total);
      }
      var e := sink.WriteAll(n.bytes);
      if e.Some? {
        return Err(e.value);
      }
      total := total + |n.bytes|;
    }
  }

  /** What is left of a copy once a read came to `r`. */
  function AfterRead(reader: Reader, sink: Sink, total: nat, r: Reading): (State, seq<seq<Byte>>, Ending)
    requires SpansFull(reader.st.script)
    reads reader, sink
  {
    if r.Failed? then (reader.st, sink.writes, Err(r.error))
    else if r.bytes == [] then (reader.st, sink.writes, Ok(total))
    else
      var written := sink.writes + [r.bytes];
      var e := sink.refuses(written);
      if e.Some? then (reader.st, written, Err(e.value))
      else Copied(reader.sum, reader.checks, sink.refuses, reader.st, written, total + |r.bytes|)
  }

  /** An ordinary read, made again while it is interrupted. */
  method ReadAgain(reader: Reader, sink: Sink, ghost total: nat) returns (n: Reading)
    requires SpansFull(reader.st.script)
    modifies reader
    ensures SpansFull(reader.st.script) && Work(reader.st.script) <= old(Work(reader.st.script))
    ensures AfterRead(reader, sink, total, n) == old(CopiedFrom(reader, sink, total))
    ensures n.Got? && n.bytes != [] ==> Work(reader.st.script) < old(Work(reader.st.script))
  {
    while true
      invariant SpansFull(reader.st.script) && Work(reader.st.script) <= old(Work(reader.st.script))
      invariant CopiedFrom(reader, sink, total) == old(CopiedFrom(reader, sink, total))
      decreases Work(reader.st.script)
    {
      StepSpends(reader.sum, reader.checks, reader.st, COPY_REST_BYTES);
      n := reader.Read(COPY_REST_BYTES);
      if n != Failed(Interrupted) {
        return;
      }
    }
  }

  /** One ordinary read across a boundary the decoder would not lend over, its bytes written. */
  method CopyOnce(reader: Reader, sink: Sink, ghost total: nat) returns (r: Ending)
    requires SpansFull(reader.st.script)
    modifies reader, sink
    ensures SpansFull(reader.st.script) && Work(reader.st.script) <= old(Work(reader.st.script))
    ensures r.Ok? && r.total > 0 ==>
      CopiedFrom(reader, sink, total + r.total) == old(CopiedFrom(reader, sink, total)) && Work(reader.st.script) < old(Work(reader.st.script))
    ensures r.Ok? && r.total == 0 ==> (reader.st, sink.writes, Ok(total)) == old(CopiedFrom(reader, sink, total))
    ensures r.Err? ==> (reader.st, sink.writes, r) == old(CopiedFrom(reader, sink, total))
  {
    var n := ReadAgain(reader, sink, total);
    if n.Failed? {
      return Err(n.error);
    }
    if n.bytes == [] {
      return Ok(0);
    }
    var e := sink.WriteAll(n.bytes);
    if e.Some? {
      return Err(e.value);
    }
    r := Ok(|n.bytes|);
  }

  /** One turn of the push: a span lent and written, or a read across a boundary; or the end. */
  method PushOnce(reader: Reader, sink: Sink, total: nat) returns (next: nat, over: Option<Ending>)
    requires SpansFull(reader.st.script)
    modifies reader, sink
    ensures SpansFull(reader.st.script)
    ensures over.None? ==>
      CopiedFrom(reader, sink, next) == old(CopiedFrom(reader, sink, total)) && Work(reader.st.script) < old(Work(reader.st.script))
    ensures over.Some? ==> (reader.st, sink.writes, over.value) == old(CopiedFrom(reader, sink, total))
  {
    StepSpends(reader.sum, reader.checks, reader.st, COPY_REST_BYTES);
    sink.failed := None;
    next := total;
    var borrowed := reader.Borrow(COPY_REST_BYTES, sink);
    if borrowed.None? {
      var once := CopyOnce(reader, sink, total);
      if once.Err? {
        return next, Some(once);
      }
      if once.total == 0 {
        return next, Some(Ok(total));
      }
      return total + once.total, None;
    }
    if borrowed == Some(Failed(Interrupted)) {
      return next, None;
    }
    if sink.failed.Some? {
      return next, Some(Err(sink.failed.value));
    }
    if borrowed.value.Failed? {
      return next, Some(Err(borrowed.value.error));
    }
    if borrowed.value.bytes == [] {
      return next, Some(Ok(total));
    }
    return total + |borrowed.value.bytes|, None;
  }

  /** Whatever the decoder lends and whenever it declines, the same reaches the sink, and the same is left behind. */
  method WritePushed(reader: Reader, sink: Sink) returns (r: Ending)
    requires SpansFull(reader.st.script)
    modifies reader, sink
    ensures (reader.st, sink.writes, r) == old(CopiedFrom(reader, sink, 0))
  {
    if !reader.lends {
      r := CopyRest(reader, sink);
      return;
    }
    var total: nat := 0;
    while true
      invariant SpansFull(reader.st.script) && CopiedFrom(reader, sink, total) == old(CopiedFrom(reader, sink, 0))
      decreases Work(reader.st.script)
    {
      var over;
      total, over := PushOnce(reader, sink, total);
      if over.Some? {
        return over.value;
      }
    }
  }

  /** The same entry and the same sink, copied and pushed: the same writes, ending, failure recorded and checksum reported. */
  method EitherWay(sum: seq<Byte> -> nat, checks: Checks, st: State, refuses: seq<seq<Byte>> -> Option<Error>)
    returns (copied: Sink, x: Ending, pushed: Sink, y: Ending, reader: Reader, lender: Reader)
    requires SpansFull(st.script)
    ensures x == y && copied.writes == pushed.writes && reader.st == lender.st
    ensures fresh(reader) && fresh(lender) && fresh(copied) && fresh(pushed)
  {
    reader := new Reader(sum, checks, true, st);
    copied := new Sink(refuses);
    lender := new Reader(sum, checks, true, st);
    pushed := new Sink(refuses);
    x := CopyRest(reader, copied);
    y := WritePushed(lender, pushed);
  }

  // ------------------------------------------------- what the account says

  lemma StepTakes(sum: seq<Byte> -> nat, checks: Checks, st: State, max: nat)
    requires SpansFull(st.script) && max > 0
    ensures var (after, r) := Step(sum, checks, st, max);
      && (r.Got? ==> Output(st.script) == r.bytes + Output(after.script))
      && (r == Failed(Interrupted) ==> Output(st.script) == Output(after.script))
  {
    StepMoves(sum, checks, st, max);
    if st.script != [] && st.script[0].Span? && AtHand(st, max) > 0 {
      WithoutOutput(st.script, AtHand(st, max));
    }
  }

  /** From `st` on, all of the entry and no more is written, as the decoder gave it and as its checksum says. */
  ghost predicate Written(sum: seq<Byte> -> nat, checks: Checks, st: State, writes: seq<seq<Byte>>, total: nat,
                          after: State, out: seq<seq<Byte>>, r: Ending) {
    && st.remain <= |Output(st.script)| && r == Ok(total + st.remain)
    && Joined(out) == Joined(writes) + Output(st.script)[..st.remain]
    && (st.remain == 0 ==> after == st)
    && (checks.entry.Checked? && st.remain > 0 ==>
          after.report == Some(checks.entry.expected) && sum(st.digest + Output(st.script)[..st.remain]) == checks.entry.expected)
    && (checks.block.Checked? && st.remain > 0 ==> BlockAnswered(sum, checks.block.expected, st, Output(st.script)[..st.remain], after))
  }

  /** Bytes of a checked block read: they were short of its end, and are digested, or its checksum agreed with all of it. */
  ghost predicate BlockAnswered(sum: seq<Byte> -> nat, expected: nat, st: State, bytes: seq<Byte>, after: State) {
    && st.blockUnseen > 0
    && if |bytes| < st.blockUnseen then after.blockUnseen == st.blockUnseen - |bytes| && after.blockDigest == st.blockDigest + bytes
       else after.blockUnseen <= 0 && sum(st.blockDigest + bytes) == expected
  }

  /** Some of the block and then some more, none of it past its end until the last. */
  lemma BlockAnsweredOn(sum: seq<Byte> -> nat, expected: nat, st: State, bytes: seq<Byte>, next: State, rest: seq<Byte>, after: State)
    requires BlockAnswered(sum, expected, st, bytes, next) && BlockAnswered(sum, expected, next, rest, after)
    ensures BlockAnswered(sum, expected, st, bytes + rest, after)
  {
    assert st.blockDigest + (bytes + rest) == (st.blockDigest + bytes) + rest;
  }

  lemma PrefixJoins(bytes: seq<Byte>, rest: seq<Byte>, n: nat, before: seq<Byte>)
    requires n <= |rest|
    ensures (bytes + rest)[..|bytes| + n] == bytes + rest[..n]
    ensures before + (bytes + rest[..n]) == (before + bytes) + rest[..n]
  {
  }

  /** Bytes of the entry taken: counted, and digested or answered for when the entry is checked. */
  ghost predicate Taken(sum: seq<Byte> -> nat, checks: Checks, st: State, next: State, bytes: seq<Byte>) {
    && st.remain == next.remain + |bytes| && Output(st.script) == bytes + Output(next.script)
    && (checks.entry.Checked? && next.remain > 0 ==> next.digest == st.digest + bytes)
    && (checks.entry.Checked? && next.remain == 0 ==>
          sum(st.digest + bytes) == checks.entry.expected && next.report == Some(checks.entry.expected))
    && (checks.block.Checked? ==> BlockAnswered(sum, checks.block.expected, st, bytes, next))
  }

  /** A step that gives bytes: they are counted, and digested when the entry is checked. */
  lemma StepGot(sum: seq<Byte> -> nat, checks: Checks, st: State, max: nat)
    requires SpansFull(st.script) && max > 0 && (checks.entry.Checked? ==> st.unseen == st.remain)
    requires var r := Step(sum, checks, st, max).1; r.Got? && r.bytes != []
    ensures var (next, r) := Step(sum, checks, st, max);
      Taken(sum, checks, st, next, r.bytes) && (checks.entry.Checked? ==> next.unseen == next.remain)
  {
    StepTakes(sum, checks, st, max);
  }

  lemma StepWritten(sum: seq<Byte> -> nat, checks: Checks, st: State, next: State, bytes: seq<Byte>, writes: seq<seq<Byte>>,
                    total: nat, after: State, out: seq<seq<Byte>>, r: Ending)
    requires bytes != [] && Taken(sum, checks, st, next, bytes)
    requires Written(sum, checks, next, writes + [bytes], total + |bytes|, after, out, r)
    ensures Written(sum, checks, st, writes, total, after, out, r)
  {
    JoinedSnoc(writes, bytes);
    PrefixJoins(bytes, Output(next.script), next.remain, Joined(writes));
    PrefixJoins(bytes, Output(next.script), next.remain, st.digest);
    if next.remain == 0 {
      assert bytes + Output(next.script)[..0] == bytes;
    } else if checks.block.Checked? {
      BlockAnsweredOn(sum, checks.block.expected, st, bytes, next, Output(next.script)[..next.remain], after);
    }
  }

  /** `Copied` by its first step. */
  lemma CopiedOnce(sum: seq<Byte> -> nat, checks: Checks, refuses: seq<seq<Byte>> -> Option<Error>,
                   st: State, writes: seq<seq<Byte>>, total: nat)
    requires SpansFull(st.script) && Copied(sum, checks, refuses, st, writes, total).2.Ok?
    ensures var (next, r) := Step(sum, checks, st, COPY_REST_BYTES);
      && SpansFull(next.script)
      && Copied(sum, checks, refuses, st, writes, total) ==
         if r.Failed? then Copied(sum, checks, refuses, next, writes, total)
         else if r.bytes == [] then (next, writes, Ok(total))
         else Copied(sum, checks, refuses, next, writes + [r.bytes], total + |r.bytes|)
    ensures Step(sum, checks, st, COPY_REST_BYTES).1 in {Failed(Interrupted)} || Step(sum, checks, st, COPY_REST_BYTES).1.Got?
  {
    StepSpends(sum, checks, st, COPY_REST_BYTES);
  }

  /** A step that gives nothing well is the end of the entry; one that is only interrupted changes nothing of it. */
  lemma StepIdle(sum: seq<Byte> -> nat, checks: Checks, st: State, max: nat)
    requires SpansFull(st.script) && max > 0 && (checks.entry.Checked? ==> st.unseen == st.remain)
    ensures var (next, r) := Step(sum, checks, st, max);
      && (r == Got([]) ==> st.remain == 0 && next == st)
      && (r == Failed(Interrupted) ==>
            next.remain == st.remain > 0 && next.unseen == st.unseen && next.digest == st.digest && Output(next.script) == Output(st.script))
  {
    StepTakes(sum, checks, st, max);
  }

  lemma NothingWritten(sum: seq<Byte> -> nat, checks: Checks, st: State, writes: seq<seq<Byte>>, total: nat)
    requires st.remain == 0
    ensures Written(sum, checks, st, writes, total, st, writes, Ok(total))
  {
    assert Output(st.script)[..0] == [];
  }

  lemma IdleWritten(sum: seq<Byte> -> nat, checks: Checks, st: State, next: State, writes: seq<seq<Byte>>, total: nat,
                    after: State, out: seq<seq<Byte>>, r: Ending)
    requires next.remain == st.remain > 0 && next.digest == st.digest && Output(next.script) == Output(st.script)
    requires next.blockUnseen == st.blockUnseen && next.blockDigest == st.blockDigest
    requires Written(sum, checks, next, writes, total, after, out, r)
    ensures Written(sum, checks, st, writes, total, after, out, r)
  {
  }

  /** What one step of a copy that ends well comes to: a retry, the end, or bytes counted and digested. */
  lemma OneStep(sum: seq<Byte> -> nat, checks: Checks, refuses: seq<seq<Byte>> -> Option<Error>,
                st: State, writes: seq<seq<Byte>>, total: nat) returns (next: State, r: Reading)
    requires SpansFull(st.script) && (checks.entry.Checked? ==> st.unseen == st.remain)
    requires Copied(sum, checks, refuses, st, writes, total).2.Ok?
    ensures SpansFull(next.script) && (checks.entry.Checked? ==> next.unseen == next.remain)
    ensures r.Got? && r.bytes == [] ==>
      st.remain == 0 && next == st && Copied(sum, checks, refuses, st, writes, total) == (st, writes, Ok(total))
    ensures r.Failed? ==>
      && Work(next.script) < Work(st.script)
      && Copied(sum, checks, refuses, st, writes, total) == Copied(sum, checks, refuses, next, writes, total)
      && next.remain == st.remain > 0 && next.digest == st.digest && Output(next.script) == Output(st.script)
      && next.blockUnseen == st.blockUnseen && next.blockDigest == st.blockDigest
    ensures r.Got? && r.bytes != [] ==>
      && Work(next.script) < Work(st.script)
      && Copied(sum, checks, refuses, st, writes, total) == Copied(sum, checks, refuses, next, writes + [r.bytes], total + |r.bytes|)
      && Taken(sum, checks, st, next, r.bytes)
  {
    StepSpends(sum, checks, st, COPY_REST_BYTES);
    CopiedOnce(sum, checks, refuses, st, writes, total);
    StepIdle(sum, checks, st, COPY_REST_BYTES);
    next, r := Step(sum, checks, st, COPY_REST_BYTES).0, Step(sum, checks, st, COPY_REST_BYTES).1;
    if r.Got? && r.bytes != [] {
      StepGot(sum, checks, st, COPY_REST_BYTES);
    }
  }

  /**
   A copy that ends well has written the entry's bytes as the decoder gave them,
   all of them and no more; and when the entry is checked they have its checksum.
   */
  lemma {:induction false} OkMeansWritten(sum: seq<Byte> -> nat, checks: Checks, refuses: seq<seq<Byte>> -> Option<Error>,
                                          st: State, writes: seq<seq<Byte>>, total: nat)
    requires SpansFull(st.script) && (checks.entry.Checked? ==> st.unseen == st.remain)
    requires Copied(sum, checks, refuses, st, writes, total).2.Ok?
    ensures var (after, out, r) := Copied(sum, checks, refuses, st, writes, total);
      Written(sum, checks, st, writes, total, after, out, r)
    decreases Work(st.script)
  {
    var next, r := OneStep(sum, checks, refuses, st, writes, total);
    var (after, out, ending) := Copied(sum, checks, refuses, st, writes, total);
    if r.Failed? {
      OkMeansWritten(sum, checks, refuses, next, writes, total);
      IdleWritten(sum, checks, st, next, writes, total, after, out, ending);
    } else if r.bytes == [] {
      NothingWritten(sum, checks, st, writes, total);
    } else {
      OkMeansWritten(sum, checks, refuses, next, writes + [r.bytes], total + |r.bytes|);
      StepWritten(sum, checks, st, next, r.bytes, writes, total, after, out, ending);
    }
  }

  // ------------------------------------------------- and nothing else stops it

  /** The bytes are what was declared: enough of them, with nothing raised but retries, and the checksums that end with them agree. */
  ghost predicate AsDeclared(sum: seq<Byte> -> nat, checks: Checks, st: State) {
    && SpansFull(st.script) && st.remain <= |Output(st.script)|
    && (forall i :: 0 <= i < |st.script| && st.script[i].Fails? ==> st.script[i].error == Interrupted)
    && (checks.entry.Checked? ==> st.unseen == st.remain)
    && (st.remain > 0 ==>
          var bytes := Output(st.script)[..st.remain];
          && (checks.entry.Checked? ==> sum(st.digest + bytes) == checks.entry.expected)
          && (checks.block.Checked? ==>
                st.remain <= st.blockUnseen && (st.remain == st.blockUnseen ==> sum(st.blockDigest + bytes) == checks.block.expected)))
  }

  /** A read of such an entry is retried or gives bytes, and leaves such an entry. */
  lemma DeclaredStep(sum: seq<Byte> -> nat, checks: Checks, st: State, max: nat)
    requires AsDeclared(sum, checks, st) && st.remain > 0 && max > 0
    ensures var (next, r) := Step(sum, checks, st, max);
      && AsDeclared(sum, checks, next)
      && (r == Failed(Interrupted) || (r.Got? && r.bytes != []))
      && st.remain == next.remain + if r.Got? then |r.bytes| else 0
  {
    assert st.script != [];
    if st.script[0].Span? {
      DeclaredSpan(sum, checks, st, max);
    } else {
      assert Output(st.script) == Output(st.script[1..]);
    }
  }

  lemma DeclaredSpan(sum: seq<Byte> -> nat, checks: Checks, st: State, max: nat)
    requires AsDeclared(sum, checks, st) && st.remain > 0 && max > 0 && st.script != [] && st.script[0].Span?
    ensures var (next, r) := Step(sum, checks, st, max);
      && AsDeclared(sum, checks, next)
      && r.Got? && r.bytes != [] && st.remain == next.remain + |r.bytes|
  {
    var n := AtHand(st, max);
    var bytes, rest := st.script[0].bytes[..n], Output(Without(st.script, n));
    WithoutSpends(st.script, n);
    WithoutOutput(st.script, n);
    PrefixJoins(bytes, rest, st.remain - n, st.digest);
    PrefixJoins(bytes, rest, st.remain - n, st.blockDigest);
    if st.remain == n {
      assert bytes + rest[..0] == bytes;
    }
    OnlyRetriesLeft(st.script, n);
  }

  lemma OnlyRetriesLeft(script: seq<Next>, n: nat)
    requires script != [] && script[0].Span? && n <= |script[0].bytes|
    requires forall i :: 0 <= i < |script| && script[i].Fails? ==> script[i].error == Interrupted
    ensures var w := Without(script, n); forall i :: 0 <= i < |w| && w[i].Fails? ==> w[i].error == Interrupted
  {
  }

  /** An entry that is as declared, written to a sink that takes it, is copied whole. */
  lemma {:induction false} DeclaredIsCopied(sum: seq<Byte> -> nat, checks: Checks, refuses: seq<seq<Byte>> -> Option<Error>,
                                            st: State, writes: seq<seq<Byte>>, total: nat)
    requires AsDeclared(sum, checks, st) && forall w :: refuses(w).None?
    ensures Copied(sum, checks, refuses, st, writes, total).2 == Ok(total + st.remain)
    decreases Work(st.script)
  {
    StepSpends(sum, checks, st, COPY_REST_BYTES);
    if st.remain > 0 {
      DeclaredStep(sum, checks, st, COPY_REST_BYTES);
      var (next, r) := Step(sum, checks, st, COPY_REST_BYTES);
      if r.Got? {
        DeclaredIsCopied(sum, checks, refuses, next, writes + [r.bytes], total + |r.bytes|);
      } else {
        DeclaredIsCopied(sum, checks, refuses, next, writes, total);
      }
    }
  }

  // ------------------------------------------------- however it ends

  /** What has been written since `writes` is the entry's bytes so far: the first `n` of those it still had. */
  ghost predicate WrittenTo(st: State, writes: seq<seq<Byte>>, out: seq<seq<Byte>>, n: nat) {
    n <= st.remain && n <= |Output(st.script)| && Joined(out) == Joined(writes) + Output(st.script)[..n]
  }

  lemma StepStaysInside(sum: seq<Byte> -> nat, checks: Checks, st: State, max: nat)
    requires SpansFull(st.script) && max > 0
    ensures var (next, r) := Step(sum, checks, st, max);
      && (r.Got? ==> st.remain == next.remain + |r.bytes|)
      && (r == Failed(Interrupted) ==> next.remain == st.remain && Output(next.script) == Output(st.script))
  {
    StepTakes(sum, checks, st, max);
  }

  lemma MoreWritten(st: State, next: State, bytes: seq<Byte>, writes: seq<seq<Byte>>, out: seq<seq<Byte>>, n: nat)
    requires st.remain == next.remain + |bytes| && Output(st.script) == bytes + Output(next.script)
    requires WrittenTo(next, writes + [bytes], out, n)
    ensures WrittenTo(st, writes, out, |bytes| + n)
  {
    JoinedSnoc(writes, bytes);
    PrefixJoins(bytes, Output(next.script), n, Joined(writes));
  }

  lemma NoneWritten(st: State, writes: seq<seq<Byte>>)
    ensures WrittenTo(st, writes, writes, 0)
  {
    assert Output(st.script)[..0] == [] && Joined(writes) + [] == Joined(writes);
  }

  lemma SameWritten(st: State, next: State, writes: seq<seq<Byte>>, out: seq<seq<Byte>>, n: nat)
    requires next.remain == st.remain && Output(next.script) == Output(st.script) && WrittenTo(next, writes, out, n)
    ensures WrittenTo(st, writes, out, n)
  {
  }

  /** A copy writes the entry's bytes in order and never past its end, also when it fails: `n` of them. */
  lemma {:induction false} NeverPastTheEnd(sum: seq<Byte> -> nat, checks: Checks, refuses: seq<seq<Byte>> -> Option<Error>,
                                           st: State, writes: seq<seq<Byte>>, total: nat) returns (n: nat)
    requires SpansFull(st.script)
    ensures WrittenTo(st, writes, Copied(sum, checks, refuses, st, writes, total).1, n)
    decreases Work(st.script)
  {
    StepSpends(sum, checks, st, COPY_REST_BYTES);
    StepTakes(sum, checks, st, COPY_REST_BYTES);
    StepStaysInside(sum, checks, st, COPY_REST_BYTES);
    var (next, r) := Step(sum, checks, st, COPY_REST_BYTES);
    n := 0;
    if r == Failed(Interrupted) {
      n := NeverPastTheEnd(sum, checks, refuses, next, writes, total);
      SameWritten(st, next, writes, Copied(sum, checks, refuses, next, writes, total).1, n);
    } else if r.Failed? || r.bytes == [] {
      NoneWritten(st, writes);
    } else {
      var written := writes + [r.bytes];
      NoneWritten(next, written);
      if refuses(written).None? {
        n := NeverPastTheEnd(sum, checks, refuses, next, written, total + |r.bytes|);
      }
      MoreWritten(st, next, r.bytes, writes, Copied(sum, checks, refuses, st, writes, total).1, n);
      n := |r.bytes| + n;
    }
  }

  // ------------------------------------------------- the failure that is kept

  predicate OnlyRetried(fault: Option<Error>) { fault == None || fault == Some(Interrupted) }

  /** The first failure is the one kept: a later one does not replace it, and one that was only a retry gives way. */
  lemma FirstFailureIsKept(sum: seq<Byte> -> nat, checks: Checks, st: State, max: nat)
    ensures var (next, r) := Step(sum, checks, st, max);
      && (!OnlyRetried(st.fault) || r.Got? ==> next.fault == st.fault)
      && (OnlyRetried(st.fault) && r.Failed? ==> next.fault == Some(r.error))
  {
  }

  /**
   What a copy leaves recorded: what was recorded before, if that was a failure;
   otherwise the reader's failure it ended with, and at most a retry when it ended
   well or because the sink refused.
   */
  lemma {:induction false} CopyRecordsItsFailure(sum: seq<Byte> -> nat, checks: Checks, refuses: seq<seq<Byte>> -> Option<Error>,
                                                 st: State, writes: seq<seq<Byte>>, total: nat)
    requires SpansFull(st.script)
    ensures var (after, out, r) := Copied(sum, checks, refuses, st, writes, total);
      && (!OnlyRetried(st.fault) ==> after.fault == st.fault)
      && (OnlyRetried(st.fault) && r.Ok? ==> OnlyRetried(after.fault))
      && (OnlyRetried(st.fault) && r.Err? ==> after.fault == Some(r.error) || (OnlyRetried(after.fault) && refuses(out) == Some(r.error)))
    decreases Work(st.script)
  {
    StepSpends(sum, checks, st, COPY_REST_BYTES);
    FirstFailureIsKept(sum, checks, st, COPY_REST_BYTES);
    var (next, r) := Step(sum, checks, st, COPY_REST_BYTES);
    if r == Failed(Interrupted) {
      CopyRecordsItsFailure(sum, checks, refuses, next, writes, total);
    } else if r.Got? && r.bytes != [] && refuses(writes + [r.bytes]).None? {
      CopyRecordsItsFailure(sum, checks, refuses, next, writes + [r.bytes], total + |r.bytes|);
    }
  }
}
