/**
 The readers between a block's decoder and an entry's bytes, read in two ways:
 into a buffer, layer by layer from the inside, and by lending out the decoder's
 own bytes, where each layer's bookkeeping runs before the layers above see them.
 */
module ReaderStack {
  import opened Common

  datatype Error = Interrupted | EndedEarly | BadChecksum | Other(code: nat)

  /** What the decoder does next: a span of output, or a failure that is over once it is raised. */
  datatype Next = Span(bytes: seq<Byte>) | Fails(error: Error)

  datatype Reading = Got(bytes: seq<Byte>) | Failed(error: Error)

  /** A checksum to compare, or none. */
  datatype Checking = Unchecked | Checked(expected: nat)

  /** The block's own checksum and the entry's. */
  datatype Checks = Checks(block: Checking, entry: Checking)

  datatype State = State(script: seq<Next>, owed: nat, blockUnseen: int, blockDigest: seq<Byte>,
                         remain: nat, unseen: int, digest: seq<Byte>, fault: Option<Error>, report: Option<nat>)

  ghost predicate SpansFull(script: seq<Next>) {
    forall i :: 0 <= i < |script| && script[i].Span? ==> script[i].bytes != []
  }

  /** The first failure is kept; one that was only a retry gives way to the next. */
  function Recorded(fault: Option<Error>, e: Error): Option<Error> {
    if fault.None? || fault.value.Interrupted? then Some(e) else fault
  }

  function Without(script: seq<Next>, n: nat): seq<Next>
    requires script != [] && script[0].Span? && n <= |script[0].bytes|
  {
    if n == |script[0].bytes| then script[1..] else [Span(script[0].bytes[n..])] + script[1..]
  }

  function Deducted(owed: nat, n: nat): nat { if n <= owed then owed - n else 0 }

  /** Bytes seen by the block's checksum, which speaks with the last of them. */
  function BlockSeen(sum: seq<Byte> -> nat, block: Checking, st: State, bytes: seq<Byte>): (r: (State, Option<Error>))
    ensures r.0 == st.(blockUnseen := r.0.blockUnseen, blockDigest := r.0.blockDigest)
    ensures r.1.Some? ==> r.1 == Some(BadChecksum)
  {
    if block.Unchecked? then (st, None)
    else
      var seen := st.(blockUnseen := st.blockUnseen - |bytes|, blockDigest := st.blockDigest + bytes);
      if seen.blockUnseen > 0 then (seen, None)
      else (seen.(blockDigest := []), if sum(seen.blockDigest) != block.expected then Some(BadChecksum) else None)
  }

  /** Bytes seen by the entry's checksum, which is reported when it agrees. */
  function Seen(sum: seq<Byte> -> nat, entry: Checking, st: State, bytes: seq<Byte>): (r: (State, Option<Error>))
    ensures r.0 == st.(unseen := r.0.unseen, digest := r.0.digest, report := r.0.report)
    ensures r.1.Some? ==> r.1 == Some(BadChecksum)
  {
    if entry.Unchecked? then (st, None)
    else
      var seen := st.(unseen := st.unseen - |bytes|, digest := st.digest + bytes);
      if seen.unseen > 0 then (seen, None)
      else if sum(seen.digest) != entry.expected then (seen.(digest := []), Some(BadChecksum))
      else (seen.(digest := [], report := Some(entry.expected)), None)
  }

  /** The decoder's next bytes, counted by the declared length. */
  function Given(st: State, n: nat): State
    requires st.script != [] && st.script[0].Span? && n <= |st.script[0].bytes|
  {
    st.(script := Without(st.script, n), owed := Deducted(st.owed, n))
  }

  /** What one read of the block comes to: nothing once its checksum has spoken, or at its end. */
  function BlockStep(sum: seq<Byte> -> nat, block: Checking, st: State, max: nat): (r: (State, Reading))
    ensures r.1.Got? ==> |r.1.bytes| <= max
    ensures r.0.remain == st.remain && r.0.unseen == st.unseen && r.0.digest == st.digest && r.0.fault == st.fault && r.0.report == st.report
  {
    if block.Checked? && st.blockUnseen <= 0 then (st, Got([]))
    else if st.script == [] then (st, if st.owed > 0 then Failed(EndedEarly) else Got([]))
    else if st.script[0].Fails? then (st.(script := st.script[1..]), Failed(st.script[0].error))
    else
      var n := Least(max, |st.script[0].bytes|);
      var bytes := st.script[0].bytes[..n];
      var (seen, e) := BlockSeen(sum, block, Given(st, n), bytes);
      (seen, if e.Some? then Failed(e.value) else Got(bytes))
  }

  /** What one read of the entry comes to, whichever way it is made. */
  function Step(sum: seq<Byte> -> nat, checks: Checks, st: State, max: nat): (State, Reading) {
    if (checks.entry.Checked? && st.unseen <= 0) || st.remain == 0 then (st, Got([]))
    else
      var (next, r) := BlockStep(sum, checks.block, st, Least(max, st.remain));
      if r.Failed? then (next.(fault := Recorded(st.fault, r.error)), r)
      else if r.bytes == [] then (next.(fault := Recorded(st.fault, EndedEarly)), Failed(EndedEarly))
      else
        var (seen, e) := Seen(sum, checks.entry, next.(remain := st.remain - |r.bytes|), r.bytes);
        if e.Some? then (seen.(fault := Recorded(st.fault, e.value)), Failed(e.value)) else (seen, r)
  }

  class Sink {
    /** The sink fails or not by what it has been asked to write so far. */
    const refuses: seq<seq<Byte>> -> Option<Error>
    var writes: seq<seq<Byte>>
    /** The failure of a write made while the decoder lent its bytes. */
    var failed: Option<Error>

    constructor (refuses: seq<seq<Byte>> -> Option<Error>)
      ensures this.refuses == refuses && writes == [] && failed == None
    {
      this.refuses, writes, failed := refuses, [], None;
    }

    method WriteAll(bytes: seq<Byte>) returns (e: Option<Error>)
      modifies this`writes
      ensures writes == old(writes) + [bytes] && e == refuses(writes)
    {
      writes := writes + [bytes];
      e := refuses(writes);
    }

    /** A lent span: written unless an earlier one of the same loan could not be. */
    method Deliver(bytes: seq<Byte>)
      requires failed.None?
      modifies this
      ensures writes == old(writes) + [bytes] && failed == refuses(writes)
    {
      failed := WriteAll(bytes);
    }
  }

  class Reader {
    const sum: seq<Byte> -> nat
    const checks: Checks
    /** Whether the chain lends its output at all. */
    const lends: bool
    var st: State

    constructor (sum: seq<Byte> -> nat, checks: Checks, lends: bool, st: State)
      ensures this.sum == sum && this.checks == checks && this.lends == lends && this.st == st
    {
      this.sum, this.checks, this.lends, this.st := sum, checks, lends, st;
    }

    method Record(e: Error)
      modifies this
      ensures st == old(st).(fault := Recorded(old(st.fault), e))
    {
      if st.fault.None? || st.fault.value.Interrupted? {
        st := st.(fault := Some(e));
      }
    }

    // ------------------------------------------------- into a buffer

    method ReadSource(max: nat) returns (r: Reading)
      requires max > 0 && SpansFull(st.script)
      modifies this
      ensures st == old(st).(script := st.script)
      ensures old(st.script) == [] ==> st.script == [] && r == Got([])
      ensures old(st.script) != [] && old(st.script)[0].Fails? ==> st.script == old(st.script)[1..] && r == Failed(old(st.script)[0].error)
      ensures old(st.script) != [] && old(st.script)[0].Span? ==>
        var n := Least(max, |old(st.script)[0].bytes|);
        n > 0 && st.script == Without(old(st.script), n) && r == Got(old(st.script)[0].bytes[..n])
    {
      if st.script == [] {
        return Got([]);
      }
      var next := st.script[0];
      if next.Fails? {
        st := st.(script := st.script[1..]);
        return Failed(next.error);
      }
      var n := Least(max, |next.bytes|);
      st := st.(script := Without(st.script, n));
      r := Got(next.bytes[..n]);
    }

    /** `DeclaredLength`: an end before the declared length is a failure. */
    method ReadDeclared(max: nat) returns (r: Reading)
      requires max > 0 && SpansFull(st.script)
      modifies this
      ensures st == old(st).(script := st.script, owed := st.owed)
      ensures old(st.script) == [] ==> st.script == [] && st.owed == old(st.owed) && r == if old(st.owed) > 0 then Failed(EndedEarly) else Got([])
      ensures old(st.script) != [] && old(st.script)[0].Fails? ==>
        st.script == old(st.script)[1..] && st.owed == old(st.owed) && r == Failed(old(st.script)[0].error)
      ensures old(st.script) != [] && old(st.script)[0].Span? ==>
        var n := Least(max, |old(st.script)[0].bytes|);
        && n > 0 && st.script == Without(old(st.script), n) && r == Got(old(st.script)[0].bytes[..n])
        && st.owed == if n <= old(st.owed) then old(st.owed) - n else 0
    {
      r := ReadSource(max);
      if r.Failed? {
        return;
      }
      if r.bytes == [] && st.owed > 0 {
        return Failed(EndedEarly);
      }
      st := st.(owed := if |r.bytes| <= st.owed then st.owed - |r.bytes| else 0);
    }

    /** The block's `Crc32VerifyingReader` over the declared length. */
    method ReadBlock(max: nat) returns (r: Reading)
      requires max > 0 && SpansFull(st.script)
      modifies this
      ensures (st, r) == BlockStep(sum, checks.block, old(st), max)
    {
      if checks.block.Checked? && st.blockUnseen <= 0 {
        return Got([]);
      }
      r := ReadDeclared(max);
      if r.Got? && r.bytes != [] {
        var e := SeeBlock(r.bytes);
        r := if e.Some? then Failed(e.value) else r;
      }
    }

    method SeeBlock(bytes: seq<Byte>) returns (e: Option<Error>)
      modifies this
      ensures (st, e) == BlockSeen(sum, checks.block, old(st), bytes)
    {
      e := None;
      if checks.block.Checked? {
        st := st.(blockUnseen := st.blockUnseen - |bytes|, blockDigest := st.blockDigest + bytes);
        if st.blockUnseen <= 0 {
          var d := sum(st.blockDigest);
          st := st.(blockDigest := []);
          e := if d != checks.block.expected then Some(BadChecksum) else None;
        }
      }
    }

    /** The block's recorder, and the entry's bound over it. */
    method ReadBounded(max: nat) returns (r: Reading)
      requires max > 0 && SpansFull(st.script)
      modifies this
      ensures Step(sum, Checks(checks.block, Unchecked), old(st), max).1 == r
      ensures var expected := Step(sum, Checks(checks.block, Unchecked), old(st), max).0;
        st == expected || (r == Failed(EndedEarly) && st == expected.(fault := old(st.fault)))
    {
      if st.remain == 0 {
        return Got([]);
      }
      r := ReadBlock(Least(max, st.remain));
      if r.Failed? {
        Record(r.error);
        return;
      }
      if r.bytes == [] {
        return Failed(EndedEarly);
      }
      st := st.(remain := st.remain - |r.bytes|);
    }

    /** The entry's `Crc32VerifyingReader`: the checksum compared on the read that brings the last byte. */
    method ReadChecked(max: nat) returns (r: Reading)
      requires max > 0 && SpansFull(st.script) && checks.entry.Checked?
      modifies this
      ensures Step(sum, checks, old(st), max).1 == r
      ensures var expected := Step(sum, checks, old(st), max).0;
        st == expected || (r.Failed? && st == expected.(fault := old(st.fault)))
    {
      if st.unseen <= 0 {
        return Got([]);
      }
      r := ReadBounded(max);
      if r.Failed? {
        return;
      }
      if r.bytes != [] {
        var e := See(r.bytes);
        r := if e.Some? then Failed(e.value) else r;
      }
    }

    method See(bytes: seq<Byte>) returns (e: Option<Error>)
      modifies this
      ensures (st, e) == Seen(sum, checks.entry, old(st), bytes)
    {
      e := None;
      if checks.entry.Checked? {
        st := st.(unseen := st.unseen - |bytes|, digest := st.digest + bytes);
        e := CheckAtEnd();
      }
    }

    method CheckAtEnd() returns (e: Option<Error>)
      requires checks.entry.Checked?
      modifies this
      ensures old(st.unseen) > 0 ==> st == old(st) && e == None
      ensures old(st.unseen) <= 0 && sum(old(st.digest)) != checks.entry.expected ==> st == old(st).(digest := []) && e == Some(BadChecksum)
      ensures old(st.unseen) <= 0 && sum(old(st.digest)) == checks.entry.expected ==>
        st == old(st).(digest := [], report := Some(checks.entry.expected)) && e == None
    {
      e := None;
      if st.unseen <= 0 {
        var d := sum(st.digest);
        st := st.(digest := []);
        if d != checks.entry.expected {
          return Some(BadChecksum);
        }
        st := st.(report := Some(d));
      }
    }

    /** A read through every layer, the recorder outermost. */
    method Read(max: nat) returns (r: Reading)
      requires max > 0 && SpansFull(st.script)
      modifies this
      ensures (st, r) == Step(sum, checks, old(st), max)
    {
      if checks.entry.Checked? {
        r := ReadChecked(max);
      } else {
        r := ReadBounded(max);
      }
      if r.Failed? {
        Record(r.error);
      }
    }

    // ------------------------------------------------- lending the decoder's bytes

    /**
     What the layers do to a span as it is lent: the declared length counts it,
     the block's checksum sees it, the bound counts it, the entry's checksum sees
     it, either of which may refuse it, and only then is it delivered.
     */
    method Lend(bytes: seq<Byte>, sink: Sink) returns (e: Option<Error>)
      requires sink.failed.None? && |bytes| <= st.remain
      modifies this, sink
      ensures (st, e) == Lent(sum, checks, old(st), bytes)
      ensures e.Some? ==> sink.writes == old(sink.writes) && sink.failed == None
      ensures e.None? ==> sink.writes == old(sink.writes) + [bytes] && sink.failed == sink.refuses(sink.writes)
    {
      st := st.(owed := Deducted(st.owed, |bytes|));
      e := SeeBlock(bytes);
      if e.None? {
        st := st.(remain := st.remain - |bytes|);
        e := See(bytes);
      }
      if e.None? {
        sink.Deliver(bytes);
      }
    }

    /** The decoder lends its next span, or declines for now. */
    method BorrowSource(max: nat, sink: Sink) returns (r: Option<Reading>)
      requires max > 0 && max <= st.remain && SpansFull(st.script) && sink.failed.None?
      modifies this, sink
      ensures r.None? || old(st.script) == [] ==> st == old(st)
      ensures r.Some? ==> Borrowed(sum, checks, old(st), max, st, r.value)
      ensures r.None? || old(st.script) == [] || old(st.script)[0].Fails? || r.value.Failed? ==> sink.writes == old(sink.writes) && sink.failed == None
      ensures r.Some? && r.value.Got? && r.value.bytes != [] ==>
        sink.writes == old(sink.writes) + [r.value.bytes] && sink.failed == sink.refuses(sink.writes)
    {
      if * {
        return None;
      }
      if st.script == [] {
        return Some(Got([]));
      }
      var next := st.script[0];
      if next.Fails? {
        st := st.(script := st.script[1..]);
        return Some(Failed(next.error));
      }
      var n := Least(max, |next.bytes|);
      st := st.(script := Without(st.script, n));
      var e := Lend(next.bytes[..n], sink);
      r := Some(if e.Some? then Failed(e.value) else Got(next.bytes[..n]));
    }

    /** The declared length and the block's checksum over the lender. */
    method BorrowBlock(max: nat, sink: Sink) returns (r: Option<Reading>)
      requires max > 0 && max <= st.remain && SpansFull(st.script) && sink.failed.None?
      modifies this, sink
      ensures r.None? ==> st == old(st)
      ensures r.Some? ==> BlockBorrowed(sum, checks, old(st), max, st, r.value)
      ensures r.None? || r.value.Failed? || r.value.bytes == [] ==> sink.writes == old(sink.writes) && sink.failed == None
      ensures r.Some? && r.value.Got? && r.value.bytes != [] ==>
        sink.writes == old(sink.writes) + [r.value.bytes] && sink.failed == sink.refuses(sink.writes)
    {
      if checks.block.Checked? && st.blockUnseen <= 0 {
        return Some(Got([]));
      }
      r := BorrowSource(max, sink);
      if r == Some(Got([])) && st.owed > 0 {
        r := Some(Failed(EndedEarly));
      }
    }

    /** The layers over the lender, each with its say on what came back. */
    method Borrow(max: nat, sink: Sink) returns (r: Option<Reading>)
      requires max > 0 && SpansFull(st.script) && sink.failed.None?
      modifies this, sink
      ensures r.None? ==> st == old(st) && sink.writes == old(sink.writes) && sink.failed == None
      ensures r.Some? ==> (st, r.value) == Step(sum, checks, old(st), max)
      ensures r.Some? && (r.value.Failed? || r.value.bytes == []) ==> sink.writes == old(sink.writes) && sink.failed == None
      ensures r.Some? && r.value.Got? && r.value.bytes != [] ==>
        sink.writes == old(sink.writes) + [r.value.bytes] && sink.failed == sink.refuses(sink.writes)
    {
      if (checks.entry.Checked? && st.unseen <= 0) || st.remain == 0 {
        return Some(Got([]));
      }
      r := BorrowBlock(Least(max, st.remain), sink);
      if r.None? {
        return;
      }
      BorrowedIsStep(sum, checks, old(st), max, st, r.value);
      if r.value.Failed? {
        Record(r.value.error);
      }
      if r == Some(Got([])) {
        r := Some(Failed(EndedEarly));
      }
      if r.value.Failed? {
        Record(r.value.error);
      }
    }
  }

  /** A span lent through the layers: counted, seen by the block's checksum, counted by the bound, seen by the entry's. */
  function Lent(sum: seq<Byte> -> nat, checks: Checks, st: State, bytes: seq<Byte>): (State, Option<Error>)
    requires |bytes| <= st.remain
  {
    var (b, e) := BlockSeen(sum, checks.block, st.(owed := Deducted(st.owed, |bytes|)), bytes);
    if e.Some? then (b, e) else Seen(sum, checks.entry, b.(remain := st.remain - |bytes|), bytes)
  }

  /** What lending a span leaves, before any failure is recorded. */
  ghost predicate Borrowed(sum: seq<Byte> -> nat, checks: Checks, before: State, max: nat, after: State, r: Reading)
    requires max <= before.remain
  {
    if before.script == [] then r == Got([])
    else if before.script[0].Fails? then after == before.(script := before.script[1..]) && r == Failed(before.script[0].error)
    else
      var n := Least(max, |before.script[0].bytes|);
      var bytes := before.script[0].bytes[..n];
      var (lent, e) := Lent(sum, checks, before.(script := Without(before.script, n)), bytes);
      after == lent && r == if e.Some? then Failed(e.value) else Got(bytes)
  }

  ghost predicate BlockBorrowed(sum: seq<Byte> -> nat, checks: Checks, before: State, max: nat, after: State, r: Reading)
    requires max <= before.remain
  {
    if checks.block.Checked? && before.blockUnseen <= 0 then after == before && r == Got([])
    else if before.script == [] then after == before && r == if before.owed > 0 then Failed(EndedEarly) else Got([])
    else Borrowed(sum, checks, before, max, after, r)
  }

  /** What lending leaves is what a read leaves, but for the failure to be recorded. */
  lemma BorrowedIsStep(sum: seq<Byte> -> nat, checks: Checks, before: State, max: nat, after: State, r: Reading)
    requires max > 0 && SpansFull(before.script) && before.remain > 0 && !(checks.entry.Checked? && before.unseen <= 0)
    requires BlockBorrowed(sum, checks, before, Least(max, before.remain), after, r)
    ensures var (expected, e) := Step(sum, checks, before, max);
      && e == (if r == Got([]) then Failed(EndedEarly) else r)
      && after.fault == before.fault && after == expected.(fault := before.fault)
      && (e.Got? ==> expected.fault == before.fault)
      && (e.Failed? ==> expected.fault == Recorded(before.fault, e.error))
  {
  }
}
