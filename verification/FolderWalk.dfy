/**
 The walk over a folder's files, and the two callbacks it is used with: a
 caller's, which takes each file's bytes, and a folder worker's, which sends
 them on as messages for a replay.
 */
module FolderWalk {
  import opened Common
  import opened FolderFiles
  import opened BlockChain
  import opened FolderReplay

  const FOLDER_CHUNK_BYTES: nat := 1048576

  class Listener {
    const w: Folder
    const worker: bool
    const raises: bool
    var events: seq<Event>
    var messages: seq<Message>
    var pending: seq<Completion>
    var nextFile: nat
    var stopped: bool

    constructor (w: Folder, worker: bool, raises: bool)
      ensures this.w == w && this.worker == worker && this.raises == raises
      ensures Between() && Told() == [] && nextFile == 0 && !stopped
    {
      this.w, this.worker, this.raises := w, worker, raises;
      events, messages, pending, nextFile, stopped := [], [], [], 0, false;
    }

    /** What the callbacks and the hook have been told, or will be once the messages are replayed. */
    ghost function Told(): seq<Event>
      reads this
    {
      if worker then Fold(w, true, messages).events + HeardAll(pending) else events
    }

    /** Between two files the messages mean the same whatever the callback does with a failure. */
    ghost predicate Between()
      reads this
    {
      && nextFile <= |w.files| && !stopped
      && (worker ==> Settled(w, messages, Start(w.files, nextFile)))
    }

    /** After a file that failed: the messages tell of it, and no more of the folder will come. */
    ghost predicate Broke()
      reads this
    {
      nextFile <= |w.files| && stopped == worker && (worker ==> pending == [] && StoppedShort(w, messages))
    }

    method Send(m: Message)
      requires worker
      modifies this`messages
      ensures messages == old(messages) + [m]
    {
      messages := messages + [m];
    }

    /** The hook: heard at once by a caller, kept by a worker until the callback has returned. */
    method Hook(c: Completion)
      requires Between()
      modifies this`events, this`pending
      ensures Between() && Told() == old(Told()) + [Heard(c)]
    {
      if worker {
        HeardSnoc(pending, c);
        assert Fold(w, true, messages).events + (HeardAll(pending) + [Heard(c)])
            == Fold(w, true, messages).events + HeardAll(pending) + [Heard(c)];
        pending := pending + [c];
      } else {
        events := events + [Heard(c)];
      }
    }

    method SendCompletion()
      requires worker && pending != [] && Between()
      modifies this`messages, this`pending
      ensures pending == old(pending[1..]) && Told() == old(Told()) && Between()
    {
      var c := pending[0];
      CompletionSent(w, messages, Start(w.files, nextFile), c);
      HeardMoves(Fold(w, true, messages).events, pending);
      Send(Completed(c));
      pending := pending[1..];
    }

    /** Sends what the hook has left. */
    method Flush()
      requires worker && (pending == [] || Between())
      modifies this`messages, this`pending
      ensures pending == [] && Told() == old(Told()) && (old(Between()) ==> Between())
      ensures old(pending) == [] ==> messages == old(messages)
    {
      while pending != []
        invariant Told() == old(Told()) && (old(Between()) ==> Between()) && (pending != [] ==> Between())
        invariant old(pending) == [] ==> pending == [] && messages == old(messages)
        decreases |pending|
      {
        SendCompletion();
      }
    }

    /** `bytes` is what has been read of the file in hand. */
    ghost predicate HasRead(chain: Chain, bytes: seq<Byte>)
      reads this, chain
    {
      && chain.w == w && chain.Reading() && |bytes| + chain.remain == chain.file.size
      && bytes == Part(chain.bytes, chain.start, chain.start + |bytes|)
    }

    /** A read of any size, and what has been read with it. */
    method ReadMore(chain: Chain, bytes: seq<Byte>) returns (more: seq<Byte>, over: Reading)
      requires HasRead(chain, bytes)
      modifies chain`pos, chain`faulted, chain`remain, chain`report
      ensures over.Got? ==> HasRead(chain, more) && chain.remain < old(chain.remain)
      ensures over.End? ==> HasRead(chain, more) && chain.remain == 0
      ensures over.Failed? <==> chain.faulted
      ensures over.Failed? ==> more == bytes && MayFail(chain.sum, w, chain.bytes, chain.start, chain.file)
    {
      var max: nat :| max > 0;
      ghost var from := chain.pos;
      over := chain.ReadFile(max);
      more := bytes;
      if over.Got? {
        PartsMeet(chain.bytes, chain.start, from - chain.start, |over.bytes|);
        more := bytes + over.bytes;
      }
    }

    /** Reads of any size, to the end of a file or a failure. */
    method ReadOut(chain: Chain) returns (bytes: seq<Byte>, clean: bool)
      requires chain.w == w && chain.Reading() && chain.remain == chain.file.size
      modifies chain`pos, chain`faulted, chain`remain, chain`report
      ensures clean <==> !chain.faulted
      ensures chain.start + |bytes| <= |chain.bytes| && |bytes| <= chain.file.size
      ensures bytes == Part(chain.bytes, chain.start, chain.start + |bytes|)
      ensures clean ==> chain.Reading() && chain.remain == 0 && |bytes| == chain.file.size
      ensures !clean ==> MayFail(chain.sum, w, chain.bytes, chain.start, chain.file)
    {
      bytes := [];
      while true
        invariant HasRead(chain, bytes) && !chain.faulted
        decreases chain.remain
      {
        var over;
        bytes, over := ReadMore(chain, bytes);
        if !over.Got? {
          return bytes, over.End?;
        }
      }
    }

    /** The caller's callback over a file with bytes. */
    method TakeFile(chain: Chain, k: nat) returns (ok: bool)
      requires !worker && Between() && k == nextFile && Opened(w, chain, k)
      modifies this`events, this`nextFile, chain`pos, chain`faulted, chain`remain, chain`report
      ensures FileTold(w, chain, k, old(Told()), Told())
      ensures nextFile == k + 1 && (!chain.faulted ==> ok && Between())
      ensures chain.faulted ==> ok == !raises
    {
      var bytes, clean := ReadOut(chain);
      assert FailedPart(w, chain.bytes, k, Given(k, bytes, false));
      events := events + [Given(k, bytes, clean)];
      nextFile := nextFile + 1;
      ok := clean || !raises;
    }

    /** Fills one chunk of a file, until it is full, the file ends or a read fails. */
    method FillChunk(chain: Chain, left: nat) returns (chunk: seq<Byte>, fault: bool)
      requires chain.w == w && chain.Reading() && left == chain.remain
      modifies chain`pos, chain`faulted, chain`remain, chain`report
      ensures fault <==> chain.faulted
      ensures |chunk| <= left && old(chain.pos) + |chunk| <= |chain.bytes|
      ensures chunk == chain.bytes[old(chain.pos)..old(chain.pos) + |chunk|]
      ensures |chunk| <= 1048576 && (!fault ==> |chunk| == if left < 1048576 then left else 1048576)
      ensures !fault ==> chain.Reading() && chain.remain == left - |chunk| && (left > 0 ==> chunk != [])
      ensures fault ==> MayFail(chain.sum, w, chain.bytes, chain.start, chain.file)
    {
      chunk, fault := [], false;
      ghost var from := chain.pos;
      var want := if left < FOLDER_CHUNK_BYTES then left else FOLDER_CHUNK_BYTES;
      while |chunk| < want
        invariant !fault && chain.Reading() && chain.remain == left - |chunk| && |chunk| <= want
        invariant chain.pos == from + |chunk| && chunk == chain.bytes[from..chain.pos]
      {
        var r := chain.ReadFile(want - |chunk|);
        if r.End? {
          break;
        }
        if r.Failed? {
          fault := true;
          return;
        }
        chunk := chunk + r.bytes;
      }
    }

    /** A chunk, as what it adds to the part of the file already read. */
    method NextPart(chain: Chain, left: nat) returns (chunk: seq<Byte>, fault: bool)
      requires chain.w == w && chain.Reading() && left == chain.remain
      modifies chain`pos, chain`faulted, chain`remain, chain`report
      ensures fault <==> chain.faulted
      ensures |chunk| <= left && old(chain.pos) + |chunk| <= |chain.bytes|
      ensures Part(chain.bytes, chain.start, old(chain.pos)) + chunk == Part(chain.bytes, chain.start, old(chain.pos) + |chunk|)
      ensures !fault ==> chain.Reading() && chain.remain == left - |chunk| && (left > 0 ==> chunk != [])
      ensures fault ==> MayFail(chain.sum, w, chain.bytes, chain.start, chain.file)
    {
      ghost var from := chain.pos;
      chunk, fault := FillChunk(chain, left);
      PartsMeet(chain.bytes, chain.start, from - chain.start, |chunk|);
    }

    /** One chunk of a file read and sent, and the failure that cut it short. */
    method SendChunk(chain: Chain, k: nat, left: nat, ghost st: Replaying) returns (filled: nat, fault: bool)
      requires worker && InHand(w, chain, k) && 0 < left == chain.remain
      requires !stopped && InFile(w, messages, st, k, Part(chain.bytes, chain.start, chain.pos))
      modifies this`messages, this`stopped, chain`pos, chain`faulted, chain`remain, chain`report
      ensures fault <==> chain.faulted
      ensures !fault ==> chain.Reading() && 0 < filled <= left && chain.remain == left - filled && !stopped
      ensures !fault ==> InFile(w, messages, st, k, Part(chain.bytes, chain.start, chain.pos))
      ensures fault ==> stopped && StoppedShort(w, messages) && MayFail(chain.sum, w, chain.bytes, chain.start, chain.file)
      ensures fault ==> FailedTail(w, chain.bytes, k, st.events, Fold(w, true, messages).events)
    {
      ghost var from := chain.pos;
      var chunk;
      chunk, fault := NextPart(chain, left);
      filled := |chunk|;
      SendData(k, st, Part(chain.bytes, chain.start, from), chunk);
      if fault {
        SendFault(k, st, chain.bytes, from + |chunk|);
      }
    }

    method SendData(k: nat, ghost st: Replaying, ghost sent: seq<Byte>, chunk: seq<Byte>)
      requires worker && k < |w.files| && Sized(w.files[k]) && InFile(w, messages, st, k, sent)
      modifies this`messages
      ensures InFile(w, messages, st, k, sent + chunk)
    {
      DataSent(w, messages, st, k, sent, chunk);
      if chunk != [] {
        Send(Data(chunk));
      }
    }

    method SendFault(k: nat, ghost st: Replaying, ghost bytes: seq<Byte>, ghost to: nat)
      requires worker && k < |w.files| && Sized(w.files[k])
      requires Start(w.files, k) <= to <= |bytes| && to <= Start(w.files, k) + w.files[k].size
      requires InFile(w, messages, st, k, Part(bytes, Start(w.files, k), to))
      modifies this`messages, this`stopped
      ensures stopped && StoppedShort(w, messages) && FailedTail(w, bytes, k, st.events, Fold(w, true, messages).events)
    {
      ghost var given := Part(bytes, Start(w.files, k), to);
      FaultSent(w, messages, st, k, given);
      assert FailedPart(w, bytes, k, Given(k, given, false));
      stopped := true;
      Send(Fault);
    }

    /** What the hook left is sent, then that file `k` begins. */
    method Announce(k: nat) returns (ghost st: Replaying)
      requires worker && Between() && k == nextFile && k < |w.files|
      modifies this`messages, this`pending, this`nextFile
      ensures pending == [] && nextFile == k + 1 && InFile(w, messages, st, k, [])
      ensures st.events == old(Told()) && st.delivered == Start(w.files, k)
    {
      Flush();
      nextFile := nextFile + 1;
      st := Fold(w, true, messages);
      BeginSent(w, messages, k);
      Send(Begin(k));
    }

    lemma NothingPending()
      requires worker && pending == []
      ensures Told() == Fold(w, true, messages).events
    {
    }

    method SendBytes(chain: Chain, k: nat, ghost st: Replaying) returns (fault: bool)
      requires worker && Opened(w, chain, k) && !stopped && pending == [] && nextFile <= |w.files| && InFile(w, messages, st, k, [])
      modifies this`messages, this`stopped, chain`pos, chain`faulted, chain`remain, chain`report
      ensures fault <==> chain.faulted
      ensures !fault ==> chain.Reading() && chain.remain == 0 && !stopped && InFile(w, messages, st, k, Part(chain.bytes, chain.start, chain.pos))
      ensures fault ==> Broke() && FileTold(w, chain, k, st.events, Told())
    {
      var left := chain.file.size;
      while left > 0
        invariant InHand(w, chain, k) && left == chain.remain && !stopped
        invariant InFile(w, messages, st, k, Part(chain.bytes, chain.start, chain.pos))
      {
        var filled;
        filled, fault := SendChunk(chain, k, left, st);
        if fault {
          NothingPending();
          return;
        }
        left := left - filled;
        if filled == 0 {
          break;
        }
      }
      fault := false;
    }

    /** The end of a file that came out; after a failure there is none. */
    method SendEnd(chain: Chain, fault: bool, k: nat, ghost st: Replaying)
      requires worker && k < |w.files| && Sized(w.files[k]) && chain.file == w.files[k]
      requires fault == chain.faulted && nextFile == k + 1 && pending == [] && st.delivered == Start(w.files, k)
      requires fault ==> Broke() && FileTold(w, chain, k, st.events, Told())
      requires !fault ==> chain.Reading() && chain.remain == 0 && !stopped && InFile(w, messages, st, k, Part(chain.bytes, chain.start, chain.pos))
      modifies this`messages
      ensures FileTold(w, chain, k, st.events, Told())
      ensures if fault then Broke() else Between()
    {
      if !fault {
        EndSent(w, messages, st, k, Part(chain.bytes, chain.start, chain.pos));
        Send(Message.End);
        NothingPending();
      }
    }

    method SendRest(chain: Chain, k: nat, ghost st: Replaying) returns (ok: bool)
      requires worker && Opened(w, chain, k) && !stopped && pending == [] && InFile(w, messages, st, k, [])
      requires st.delivered == Start(w.files, k) && nextFile == k + 1
      modifies this`messages, this`stopped, chain`pos, chain`faulted, chain`remain, chain`report
      ensures FileTold(w, chain, k, st.events, Told())
      ensures ok == !chain.faulted && if ok then Between() else Broke()
    {
      var fault := SendBytes(chain, k, st);
      SendEnd(chain, fault, k, st);
      ok := !fault;
    }

    /** The worker's callback over a file with bytes: sent in chunks, then its end or its failure. */
    method SendFile(chain: Chain, k: nat) returns (ok: bool)
      requires worker && Between() && k == nextFile && Opened(w, chain, k)
      modifies this`messages, this`pending, this`nextFile, this`stopped, chain`pos, chain`faulted, chain`remain, chain`report
      ensures FileTold(w, chain, k, old(Told()), Told())
      ensures ok == !chain.faulted && nextFile == k + 1 && if ok then Between() else Broke()
    {
      ghost var st := Announce(k);
      ok := SendRest(chain, k, st);
    }

    /** The callback over a file with bytes; `ok` when it asks to go on. */
    method Each(chain: Chain, k: nat) returns (ok: bool)
      requires Between() && k == nextFile && Opened(w, chain, k)
      modifies this, chain`pos, chain`faulted, chain`remain, chain`report
      ensures FileTold(w, chain, k, old(Told()), Told())
      ensures !chain.faulted ==> ok && Between() && nextFile == k + 1
      ensures chain.faulted ==> Broke()
    {
      if worker {
        ok := SendFile(chain, k);
      } else {
        ok := TakeFile(chain, k);
      }
    }

    /** What the hook left is sent, then how the folder ended. */
    method SendDone(ending: Ending)
      requires worker && (Between() || (Broke() && ending == InBlock))
      requires ending == InBlock || ending == Complete(Start(w.files, nextFile) == w.unpackSize)
      modifies this`messages, this`pending
      ensures BeginsInRange(w, messages)
      ensures forall raises :: Closed(w, Fold(w, raises, messages)) == (old(Told()), ending)
    {
      Flush();
      NothingPending();
      var end := if stopped then Stopped else if ending.Complete? then Finished else FolderEnd.Failed;
      DoneSent(w, messages, end, ending, Start(w.files, nextFile));
      Send(Done(end));
    }

    /** The callback over a file without bytes. */
    method EachEmpty(k: nat)
      requires Between() && k == nextFile && k < |w.files| && !Sized(w.files[k]) && !EmptyMismatch(w, w.files[k])
      modifies this
      ensures Between() && nextFile == k + 1 && Told() == old(Told()) + [Given(k, [], true)]
    {
      if worker {
        ghost var st := Announce(k);
        EmptySent(w, messages, st, k);
        Send(Message.End);
      } else {
        events := events + [Given(k, [], true)];
        nextFile := nextFile + 1;
      }
    }
  }

  function HeardAll(cs: seq<Completion>): seq<Event> {
    if cs == [] then [] else [Heard(cs[0])] + HeardAll(cs[1..])
  }

  lemma HeardMoves(before: seq<Event>, cs: seq<Completion>)
    requires cs != []
    ensures before + HeardAll(cs) == (before + [Heard(cs[0])]) + HeardAll(cs[1..])
  {
  }

  lemma {:induction false} HeardSnoc(cs: seq<Completion>, c: Completion)
    ensures HeardAll(cs + [c]) == HeardAll(cs) + [Heard(c)]
  {
    if cs != [] {
      assert (cs + [c])[1..] == cs[1..] + [c];
      HeardSnoc(cs[1..], c);
    }
  }

  lemma PartsMeet(bytes: seq<Byte>, from: nat, done: nat, more: nat)
    requires from + done + more <= |bytes|
    ensures Part(bytes, from, from + done) + Part(bytes, from + done, from + done + more) == Part(bytes, from, from + done + more)
  {
  }

  ghost predicate Settled(w: Folder, messages: seq<Message>, delivered: nat) {
    var st := Fold(w, true, messages);
    && BeginsInRange(w, messages) && Fold(w, false, messages) == st
    && st.current.None? && st.ending.None? && st.swallowed.None? && st.delivered == delivered
  }

  ghost predicate StoppedShort(w: Folder, messages: seq<Message>) {
    var st, kept := Fold(w, true, messages), Fold(w, false, messages);
    && BeginsInRange(w, messages) && st.ending == Some(InBlock) && kept.events == st.events
    && kept.current.None? && kept.ending.None? && kept.swallowed == Some(InBlock)
  }

  ghost predicate InFile(w: Folder, messages: seq<Message>, st: Replaying, k: nat, bytes: seq<Byte>) {
    && BeginsInRange(w, messages) && st.current.None? && st.ending.None? && st.swallowed.None?
    && Fold(w, true, messages) == st.(current := Some(k), bytes := bytes)
    && Fold(w, false, messages) == st.(current := Some(k), bytes := bytes)
  }

  lemma CompletionSent(w: Folder, messages: seq<Message>, delivered: nat, c: Completion)
    requires Settled(w, messages, delivered)
    ensures Settled(w, messages + [Completed(c)], delivered)
    ensures Fold(w, true, messages + [Completed(c)]).events == Fold(w, true, messages).events + [Heard(c)]
  {
    FoldSent(w, true, messages, Completed(c));
    FoldSent(w, false, messages, Completed(c));
  }

  lemma BeginSent(w: Folder, messages: seq<Message>, k: nat)
    requires Settled(w, messages, Fold(w, true, messages).delivered) && k < |w.files|
    ensures InFile(w, messages + [Begin(k)], Fold(w, true, messages), k, [])
  {
    FoldSent(w, true, messages, Begin(k));
    FoldSent(w, false, messages, Begin(k));
  }

  lemma DataSent(w: Folder, messages: seq<Message>, st: Replaying, k: nat, bytes: seq<Byte>, chunk: seq<Byte>)
    requires InFile(w, messages, st, k, bytes) && k < |w.files| && Sized(w.files[k])
    ensures InFile(w, if chunk == [] then messages else messages + [Data(chunk)], st, k, bytes + chunk)
  {
    if chunk == [] {
      assert bytes + chunk == bytes;
    } else {
      FoldSent(w, true, messages, Data(chunk));
      FoldSent(w, false, messages, Data(chunk));
    }
  }

  lemma EndSent(w: Folder, messages: seq<Message>, st: Replaying, k: nat, bytes: seq<Byte>)
    requires InFile(w, messages, st, k, bytes) && k < |w.files| && Sized(w.files[k])
    requires |bytes| == w.files[k].size && st.delivered == Start(w.files, k)
    ensures Settled(w, messages + [Message.End], Start(w.files, k + 1))
    ensures Fold(w, true, messages + [Message.End]).events == st.events + [Given(k, bytes, true)]
  {
    FoldSent(w, true, messages, Message.End);
    FoldSent(w, false, messages, Message.End);
  }

  lemma EmptySent(w: Folder, messages: seq<Message>, st: Replaying, k: nat)
    requires InFile(w, messages, st, k, []) && k < |w.files| && !Sized(w.files[k]) && !EmptyMismatch(w, w.files[k])
    requires st.delivered == Start(w.files, k)
    ensures Settled(w, messages + [Message.End], Start(w.files, k + 1))
    ensures Fold(w, true, messages + [Message.End]).events == st.events + [Given(k, [], true)]
  {
    FoldSent(w, true, messages, Message.End);
    FoldSent(w, false, messages, Message.End);
  }

  lemma DoneSent(w: Folder, messages: seq<Message>, end: FolderEnd, ending: Ending, delivered: nat)
    requires if end.Stopped? then StoppedShort(w, messages) && ending == InBlock
             else Settled(w, messages, delivered) && ending == if end.Finished? then Complete(delivered == w.unpackSize) else InBlock
    ensures BeginsInRange(w, messages + [Done(end)])
    ensures forall raises :: Closed(w, Fold(w, raises, messages + [Done(end)])) == (Fold(w, true, messages).events, ending)
  {
    FoldSent(w, true, messages, Done(end));
    FoldSent(w, false, messages, Done(end));
  }

  lemma FaultSent(w: Folder, messages: seq<Message>, st: Replaying, k: nat, bytes: seq<Byte>)
    requires InFile(w, messages, st, k, bytes) && k < |w.files| && Sized(w.files[k])
    ensures StoppedShort(w, messages + [Fault])
    ensures Fold(w, true, messages + [Fault]).events == st.events + [Given(k, bytes, false)]
  {
    FoldSent(w, true, messages, Fault);
    FoldSent(w, false, messages, Fault);
  }

  /** The readers are stacked for file `k`. */
  ghost predicate InHand(w: Folder, chain: Chain, k: nat)
    reads chain
  {
    chain.w == w && chain.Reading() && k < |w.files| && chain.file == w.files[k] && chain.start == Start(w.files, k)
  }

  /** The readers are stacked for file `k`, none of it read yet. */
  ghost predicate Opened(w: Folder, chain: Chain, k: nat)
    reads chain
  {
    InHand(w, chain, k) && chain.remain == chain.file.size
  }

  ghost predicate FailedTail(w: Folder, bytes: seq<Byte>, k: nat, before: seq<Event>, after: seq<Event>)
    requires k < |w.files|
  {
    exists e: Event :: after == before + [e] && FailedPart(w, bytes, k, e)
  }

  /** What a callback told of file `k`: all of it when it came out whole, and otherwise how far it came. */
  ghost predicate FileTold(w: Folder, chain: Chain, k: nat, before: seq<Event>, after: seq<Event>)
    requires k < |w.files|
    reads chain
  {
    if chain.faulted then
      && MayFail(chain.sum, w, chain.bytes, chain.start, chain.file)
      && FailedTail(w, chain.bytes, k, before, after)
    else
      && chain.Reading() && chain.remain == 0
      && after == before + [Given(k, Part(chain.bytes, chain.start, chain.start + chain.file.size), true)]
  }
}
