/**
 The messages of a folder worker and their replay to the callback. What a queue
 of messages means is a fold over them; the replay, with its own reads into each
 file's chunks, is proved to deliver that meaning for any messages at all.
 */
module FolderReplay {
  import opened Common
  import opened FolderFiles

  datatype FolderEnd = Finished | Stopped | Failed

  datatype Message =
    | Begin(file: nat)
    | Data(bytes: seq<Byte>)
    | End
    | Fault
    | Completed(completion: Completion)
    | Done(end: FolderEnd)

  /** Where a replay is: what it has delivered, the file it is in, a failure the callback kept to itself. */
  datatype Replaying = Replaying(events: seq<Event>, current: Option<nat>, bytes: seq<Byte>,
                                 swallowed: Option<Ending>, delivered: nat, ending: Option<Ending>)

  predicate InBytes(w: Folder, st: Replaying) {
    st.current.Some? && st.current.value < |w.files| && Sized(w.files[st.current.value])
  }

  /** The callback reads a failure: it returns it (`raises`), or keeps it and asks to go on. */
  function Broken(raises: bool, st: Replaying, as_: Ending): Replaying
    requires st.current.Some?
  {
    var e := Given(st.current.value, st.bytes, false);
    var next := st.(events := st.events + [e], current := None, delivered := st.delivered + |st.bytes|);
    if raises then next.(ending := Some(as_)) else next.(swallowed := Some(as_))
  }

  function FileEnded(w: Folder, st: Replaying): Replaying
    requires InBytes(w, st)
  {
    var k := st.current.value;
    st.(events := st.events + [Given(k, st.bytes, true)], current := None,
        delivered := st.delivered + if LaterSized(w.files, k) then w.files[k].size else |st.bytes|)
  }

  function EmptyEnded(w: Folder, st: Replaying): Replaying
    requires st.current.Some?
  {
    var k := st.current.value;
    if k < |w.files| && EmptyMismatch(w, w.files[k]) then st.(current := None, ending := Some(InBlock))
    else st.(events := st.events + [Given(k, [], true)], current := None)
  }

  function Take(w: Folder, raises: bool, st: Replaying, m: Message): Replaying {
    if st.ending.Some? then st
    else if InBytes(w, st) then
      if m.Data? then st.(bytes := st.bytes + m.bytes)
      else if m.End? then FileEnded(w, st)
      else Broken(raises, st, if m.Fault? then InBlock else Lost)
    else if st.current.Some? then
      if m.End? then EmptyEnded(w, st) else st.(current := None, ending := Some(Lost))
    else
      match m
      case Begin(k) => st.(current := Some(k), bytes := [])
      case Completed(c) => st.(events := st.events + [Heard(c)])
      case Done(end) =>
        st.(ending := Some(if end.Finished? then Complete(st.delivered == w.unpackSize)
                           else if end.Stopped? && st.swallowed.Some? then st.swallowed.value
                           else InBlock))
      case Data(_) => st.(ending := Some(Lost))
      case End => st.(ending := Some(Lost))
      case Fault => st.(ending := Some(Lost))
  }

  function Fold(w: Folder, raises: bool, messages: seq<Message>): Replaying {
    if messages == [] then Replaying([], None, [], None, 0, None)
    else Take(w, raises, Fold(w, raises, messages[..|messages| - 1]), messages[|messages| - 1])
  }

  // ------------------------------------------------- what any messages at all come to

  /** A worker that failed outside its files ends the folder with that failure; one that was stopped in a file, with what the callback kept to itself. */
  lemma HowItEnds(w: Folder, raises: bool, st: Replaying, end: FolderEnd)
    requires st.ending.None? && st.current.None?
    ensures var ending := Take(w, raises, st, Done(end)).ending;
      && (end == Finished ==> ending == Some(Complete(st.delivered == w.unpackSize)))
      && (end == Failed ==> ending == Some(InBlock))
      && (end == Stopped ==> ending == if st.swallowed.Some? then st.swallowed else Some(InBlock))
  {
  }

  /** A file without bytes is not given when its checksum is to be verified and is not that of nothing. */
  ghost predicate EmptiesChecked(w: Folder, events: seq<Event>) {
    forall i :: 0 <= i < |events| && events[i].Given? && events[i].clean && events[i].file < |w.files| ==>
      var f := w.files[events[i].file];
      (f.hasStream && f.size > 0) || !(w.verify && f.hasCrc && f.crc != 0)
  }

  lemma {:induction false} ReplayChecksEmpties(w: Folder, raises: bool, messages: seq<Message>)
    ensures EmptiesChecked(w, Fold(w, raises, messages).events)
    ensures EmptiesChecked(w, Closed(w, Fold(w, raises, messages)).0)
  {
    if messages != [] {
      ReplayChecksEmpties(w, raises, messages[..|messages| - 1]);
    }
  }

  ghost predicate BeginsInRange(w: Folder, messages: seq<Message>) {
    forall i :: 0 <= i < |messages| && messages[i].Begin? ==> messages[i].file < |w.files|
  }

  /** What the queue comes to when it closes here. */
  function Closed(w: Folder, st: Replaying): (seq<Event>, Ending) {
    if st.ending.Some? then (st.events, st.ending.value)
    else if InBytes(w, st) then (st.events + [Given(st.current.value, st.bytes, false)], Lost)
    else (st.events, Lost)
  }

  lemma FoldNext(w: Folder, raises: bool, messages: seq<Message>, at: nat)
    requires at < |messages|
    ensures Fold(w, raises, messages[..at + 1]) == Take(w, raises, Fold(w, raises, messages[..at]), messages[at])
  {
    assert messages[..at + 1][..at] == messages[..at];
  }

  lemma FoldSent(w: Folder, raises: bool, messages: seq<Message>, m: Message)
    ensures Fold(w, raises, messages + [m]) == Take(w, raises, Fold(w, raises, messages), m)
  {
    assert (messages + [m])[..|messages|] == messages;
  }

  lemma {:induction false} FoldEnded(w: Folder, raises: bool, messages: seq<Message>, at: nat)
    requires at <= |messages| && Fold(w, raises, messages[..at]).ending.Some?
    ensures Fold(w, raises, messages) == Fold(w, raises, messages[..at])
    decreases |messages| - at
  {
    if at < |messages| {
      FoldNext(w, raises, messages, at);
      FoldEnded(w, raises, messages, at + 1);
    } else {
      assert messages[..at] == messages;
    }
  }

  datatype EntryState = Open | Ended | Faulted | Gone

  /** The fold after a file's messages so far, by what the reader has met in them. */
  ghost predicate Stands(w: Folder, raises: bool, st: Replaying, state: EntryState, now: Replaying, dry: bool)
    requires InBytes(w, st)
  {
    if state == Open then now == st
    else if state == Ended then now == FileEnded(w, st)
    else if state == Faulted then now == Broken(raises, st, InBlock)
    else now == Broken(raises, st, Lost) || (dry && now == st)
  }

  lemma TakenInFile(w: Folder, raises: bool, st: Replaying, m: Message, dry: bool)
    requires InBytes(w, st) && st.ending.None?
    ensures m.Data? ==> Take(w, raises, st, m) == st.(bytes := st.bytes + m.bytes)
    ensures !m.Data? ==>
      Stands(w, raises, st, if m.End? then Ended else if m.Fault? then Faulted else Gone, Take(w, raises, st, m), dry)
  {
  }

  /** The reader the callback is handed for one file: chunks taken from the queue as its reads need them. */
  class Entry {
    const w: Folder
    const raises: bool
    const messages: seq<Message>
    var at: nat
    var chunk: seq<Byte>
    var pos: nat
    var delivered: nat
    var state: EntryState
    ghost var before: Replaying
    ghost var taken: seq<Byte>

    constructor (w: Folder, raises: bool, messages: seq<Message>, at: nat)
      requires at <= |messages| && InBytes(w, Fold(w, raises, messages[..at]))
      requires var st := Fold(w, raises, messages[..at]); st.ending.None? && st.bytes == []
      ensures Valid() && this.w == w && this.raises == raises && this.messages == messages && this.at == at
      ensures state == Open && taken == [] && before == Fold(w, raises, messages[..at])
    {
      this.w, this.raises, this.messages, this.at := w, raises, messages, at;
      chunk, pos, delivered, state := [], 0, 0, Open;
      taken := [];
      before := Fold(w, raises, messages[..at]);
    }

    /** The fold has the bytes handed out and those still in the chunk; the callback has the former. */
    ghost predicate Valid()
      reads this
    {
      && at <= |messages| && pos <= |chunk| && delivered == |taken|
      && before.ending.None? && InBytes(w, before) && before.bytes == []
      && (state == Open || pos == |chunk|)
      && Stands(w, raises, before.(bytes := taken + chunk[pos..]), state, Fold(w, raises, messages[..at]), at == |messages|)
    }

    /** Takes the next message of the file; false when it is not a chunk. */
    method TakeMessage() returns (chunked: bool)
      requires Valid() && state == Open && pos == |chunk|
      modifies this`at, this`chunk, this`pos, this`state
      ensures Valid() && (chunked <==> state == Open) && (!chunked ==> pos == old(pos) && chunk == old(chunk))
      ensures at >= old(at) && (chunked ==> at > old(at))
    {
      ghost var st := before.(bytes := taken + chunk[pos..]);
      if at == |messages| {
        state := Gone;
        return false;
      }
      FoldNext(w, raises, messages, at);
      var m := messages[at];
      TakenInFile(w, raises, st, m, at + 1 == |messages|);
      at := at + 1;
      if m.Data? {
        ghost var was := chunk[pos..];
        chunk, pos := m.bytes, 0;
        assert taken + was + m.bytes == taken + chunk[pos..];
        return true;
      }
      state := if m.End? then Ended else if m.Fault? then Faulted else Gone;
      return false;
    }

    /** Makes sure a byte is at hand, taking messages until there is one; false at the end or a failure. */
    method NextChunk() returns (more: bool)
      requires Valid()
      modifies this`at, this`chunk, this`pos, this`state
      ensures Valid()
      ensures more ==> pos < |chunk| && state == Open
      ensures !more ==> state != Open && pos == |chunk|
      ensures at >= old(at) && (at == old(at) ==> pos == old(pos) && chunk == old(chunk))
    {
      while true
        invariant Valid() && at >= old(at) && (at == old(at) ==> pos == old(pos) && chunk == old(chunk))
        decreases |messages| - at
      {
        if pos < |chunk| {
          return true;
        }
        if state != Open {
          return false;
        }
        more := TakeMessage();
        if !more {
          return;
        }
      }
    }

    /** A read of up to `max` bytes; none at the end of the file or at its failure. */
    method Read(max: nat) returns (bytes: seq<Byte>)
      requires max > 0 && Valid()
      modifies this
      ensures Valid() && before == old(before)
      ensures taken == old(taken) + bytes
      ensures bytes == [] <==> state != Open
      ensures at > old(at) || (at == old(at) && (bytes != [] ==> |chunk| - pos < old(|chunk| - pos)))
    {
      var more := NextChunk();
      if !more {
        return [];
      }
      var n := if max <= |chunk| - pos then max else |chunk| - pos;
      bytes := chunk[pos..pos + n];
      assert taken + chunk[pos..] == (taken + bytes) + chunk[pos + n..];
      taken := taken + bytes;
      pos := pos + n;
      delivered := delivered + n;
    }
  }

  /** The callback reads the file to its end or its failure, however large its reads are. */
  method ReadThrough(entry: Entry) returns (bytes: seq<Byte>)
    requires entry.Valid() && entry.state == Open && entry.taken == []
    modifies entry
    ensures entry.Valid() && entry.state != Open && entry.before == old(entry.before) && entry.taken == bytes
    ensures entry.at >= old(entry.at)
  {
    bytes := [];
    while true
      invariant entry.Valid() && entry.before == old(entry.before) && entry.taken == bytes && entry.at >= old(entry.at)
      decreases |entry.messages| - entry.at, |entry.chunk| - entry.pos
    {
      var max: nat :| max > 0;
      var more := entry.Read(max);
      bytes := bytes + more;
      if more == [] {
        return;
      }
    }
  }

  /** One file with bytes, its `Begin` taken: what the callback got of it, and how it ended. */
  method ReplayFile(w: Folder, raises: bool, messages: seq<Message>, from: nat, ghost st: Replaying)
    returns (at: nat, given: seq<Byte>, state: EntryState)
    requires from <= |messages| && Fold(w, raises, messages[..from]) == st
    requires InBytes(w, st) && st.ending.None? && st.bytes == []
    ensures from <= at <= |messages| && state != Open
    ensures Stands(w, raises, st.(bytes := given), state, Fold(w, raises, messages[..at]), at == |messages|)
  {
    var entry := new Entry(w, raises, messages, from);
    given := ReadThrough(entry);
    at, state := entry.at, entry.state;
    assert given + entry.chunk[entry.pos..] == given;
  }

  /** What ends a replay outside any file, or does not. */
  method ReplayOther(w: Folder, m: Message, swallowed: Option<Ending>, delivered: nat) returns (ending: Option<Ending>)
    ensures forall raises, st: Replaying ::
      st.current.None? && st.ending.None? && st.swallowed == swallowed && st.delivered == delivered && !m.Begin? ==>
        Take(w, raises, st, m) == if m.Completed? then st.(events := st.events + [Heard(m.completion)]) else st.(ending := ending)
    ensures ending.None? <==> m.Begin? || m.Completed?
  {
    match m
    case Begin(_) => ending := None;
    case Completed(_) => ending := None;
    case Done(end) =>
      ending := Some(if end.Finished? then Complete(delivered == w.unpackSize)
                     else if end.Stopped? && swallowed.Some? then swallowed.value
                     else InBlock);
    case Data(_) => ending := Some(Lost);
    case End => ending := Some(Lost);
    case Fault => ending := Some(Lost);
  }

  /** The folder as its messages tell it, handed to the callback. */
  method ReplayFolder(w: Folder, raises: bool, messages: seq<Message>) returns (events: seq<Event>, ending: Ending)
    requires BeginsInRange(w, messages)
    ensures (events, ending) == Closed(w, Fold(w, raises, messages))
  {
    events := [];
    var at: nat, delivered: nat := 0, 0;
    var swallowed: Option<Ending> := None;
    ghost var bytes: seq<Byte> := [];
    while at < |messages|
      invariant 0 <= at <= |messages|
      invariant Fold(w, raises, messages[..at]) == Replaying(events, None, bytes, swallowed, delivered, None)
      decreases |messages| - at
    {
      FoldNext(w, raises, messages, at);
      var m := messages[at];
      at := at + 1;
      if m.Begin? && Sized(w.files[m.file]) {
        ghost var st := Replaying(events, Some(m.file), [], swallowed, delivered, None);
        var given, state;
        at, given, state := ReplayFile(w, raises, messages, at, st);
        events := events + [Given(m.file, given, state == Ended)];
        delivered := delivered + if state == Ended && LaterSized(w.files, m.file) then w.files[m.file].size else |given|;
        bytes := given;
        if state != Ended {
          ending := if state == Faulted then InBlock else Lost;
          if raises {
            EndedHere(w, raises, messages, at);
            return;
          }
          swallowed := Some(ending);
          if at == |messages| && Fold(w, raises, messages[..at]).current.Some? {
            assert messages[..at] == messages;
            return events, Lost;
          }
        }
      } else if m.Begin? {
        var ended;
        bytes := [];
        ending, ended := ReplayEmpty(w, raises, messages, at, m.file, Replaying(events, Some(m.file), [], swallowed, delivered, None));
        if ended {
          return;
        }
        at := at + 1;
        events := events + [Given(m.file, [], true)];
      } else {
        var end := ReplayOther(w, m, swallowed, delivered);
        if end.Some? {
          EndedHere(w, raises, messages, at);
          return events, end.value;
        }
        events := events + [Heard(m.completion)];
      }
    }
    assert messages[..at] == messages;
    ending := Lost;
  }

  /** A file without bytes, its `Begin` taken: its end must come next, and its checksum must be that of nothing. */
  method ReplayEmpty(w: Folder, raises: bool, messages: seq<Message>, at: nat, k: nat, ghost st: Replaying)
    returns (ending: Ending, ended: bool)
    requires at <= |messages| && Fold(w, raises, messages[..at]) == st
    requires st.current == Some(k) && k < |w.files| && !InBytes(w, st) && st.ending.None?
    ensures ended ==> (st.events, ending) == Closed(w, Fold(w, raises, messages))
    ensures !ended ==> at < |messages|
    ensures !ended ==> Fold(w, raises, messages[..at + 1]) == st.(events := st.events + [Given(k, [], true)], current := None)
  {
    if at == |messages| {
      assert messages[..at] == messages;
      return Lost, true;
    }
    FoldNext(w, raises, messages, at);
    if !messages[at].End? {
      FoldEnded(w, raises, messages, at + 1);
      return Lost, true;
    }
    if EmptyMismatch(w, w.files[k]) {
      FoldEnded(w, raises, messages, at + 1);
      return InBlock, true;
    }
    return InBlock, false;
  }

  lemma EndedHere(w: Folder, raises: bool, messages: seq<Message>, at: nat)
    requires at <= |messages| && (Fold(w, raises, messages[..at]).ending.Some? || at == |messages|)
    ensures Fold(w, raises, messages) == Fold(w, raises, messages[..at])
  {
    if at == |messages| {
      assert messages[..at] == messages;
    } else {
      FoldEnded(w, raises, messages, at);
    }
  }
}
