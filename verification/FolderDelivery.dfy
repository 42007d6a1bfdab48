/**
 The whole folder, walked by the caller itself or decoded by a worker and
 replayed: both deliver it, and in one way unless a file straddles the declared
 end of a checked block.
 */
module FolderDelivery {
  import opened Common
  import opened FolderFiles
  import opened FolderVouching
  import opened BlockChain
  import opened FolderReplay
  import opened FolderWalk

  /** The walk has handed over the files before `k` whole. */
  ghost predicate WalkedTo(chain: Chain, listener: Listener, k: nat)
    reads chain, listener
  {
    && k <= |chain.w.files| && listener.w == chain.w
    && listener.Between() && listener.nextFile == k
    && !chain.faulted && chain.Passed() && chain.pos == Start(chain.w.files, k)
    && listener.Told() == EventsUpTo(chain.w, chain.bytes, k)
    && forall j :: 0 <= j < k ==> FileOk(chain.sum, chain.w, chain.bytes, j)
  }

  /** The walk ended in file `k`: it, or its checksum, is not what the header says. */
  ghost predicate EndedIn(chain: Chain, listener: Listener, k: nat)
    reads chain, listener
  {
    && k < |chain.w.files| && listener.w == chain.w
    && (listener.Broke() || listener.Between())
    && RunsTo(chain.sum, chain.w, Stream(chain.bytes, chain.whole), k, listener.Told(), InBlock)
  }

  /** A file that failed ends the run in it. */
  lemma StoppedHere(sum: Checksum, w: Folder, bytes: seq<Byte>, whole: bool, k: nat, told: seq<Event>, events: seq<Event>)
    requires k < |w.files| && Sized(w.files[k]) && told == EventsUpTo(w, bytes, k)
    requires forall j :: 0 <= j < k ==> FileOk(sum, w, bytes, j)
    requires MayFail(sum, w, bytes, Start(w.files, k), w.files[k]) && FailedTail(w, bytes, k, told, events)
    ensures RunsTo(sum, w, Stream(bytes, whole), k, events, InBlock)
  {
  }

  /** A file that came out is one more that did. */
  lemma ThroughHere(sum: Checksum, w: Folder, bytes: seq<Byte>, k: nat)
    requires k < |w.files| && Sized(w.files[k]) && ComesOut(sum, w, bytes, Start(w.files, k), w.files[k])
    requires forall j :: 0 <= j < k ==> FileOk(sum, w, bytes, j)
    ensures forall j :: 0 <= j < k + 1 ==> FileOk(sum, w, bytes, j)
    ensures EventsUpTo(w, bytes, k + 1) == EventsUpTo(w, bytes, k) + EventsOf(w, bytes, k)
  {
  }

  /** The callback and what it left of file `k` are over: the walk stops at a failure, or the hook hears the checksum. */
  method Conclude(chain: Chain, listener: Listener, k: nat, offset: nat, subStream: nat, ghost told: seq<Event>, goOn: bool)
    returns (ok: bool)
    requires k < |chain.w.files| && Sized(chain.w.files[k]) && listener.w == chain.w
    requires offset == Start(chain.w.files, k) && subStream == SubStreamAt(chain.w.files, k)
    requires told == EventsUpTo(chain.w, chain.bytes, k) && forall j :: 0 <= j < k ==> FileOk(chain.sum, chain.w, chain.bytes, j)
    requires FileTold(chain.w, chain, k, told, listener.Told()) && chain.file == chain.w.files[k] && chain.start == offset
    requires if chain.faulted then listener.Broke() else goOn && listener.Between() && listener.nextFile == k + 1
    modifies listener
    ensures ok ==> WalkedTo(chain, listener, k + 1)
    ensures !ok ==> EndedIn(chain, listener, k)
    ensures ok == !chain.faulted
  {
    if !goOn || chain.faulted {
      StoppedHere(chain.sum, chain.w, chain.bytes, chain.whole, k, told, listener.Told());
      return false;
    }
    if chain.report.Some? {
      listener.Hook(Completion(k, subStream, offset, chain.file.size, chain.report.value));
    }
    assert listener.Told() == told + EventsOf(chain.w, chain.bytes, k);
    ThroughHere(chain.sum, chain.w, chain.bytes, k);
    ok := true;
  }

  /** One file with bytes: the callback, what it left, and the sub-stream hook. */
  method WalkSized(chain: Chain, listener: Listener, k: nat, offset: nat, subStream: nat) returns (ok: bool, taken: nat)
    requires WalkedTo(chain, listener, k) && k < |chain.w.files| && Sized(chain.w.files[k])
    requires offset == Start(chain.w.files, k) && subStream == SubStreamAt(chain.w.files, k)
    modifies chain, listener
    ensures ok ==> WalkedTo(chain, listener, k + 1) && taken == chain.w.files[k].size
    ensures !ok ==> EndedIn(chain, listener, k)
  {
    ghost var told := listener.Told();
    chain.Open(chain.w.files[k]);
    var goOn := listener.Each(chain, k);
    if goOn && LaterSized(chain.w.files, k) {
      goOn := chain.Drain();
    }
    ok := Conclude(chain, listener, k, offset, subStream, told, goOn);
    taken := if ok then chain.file.size - chain.remain else 0;
  }

  /** Every file is through: a block read to its declared end must have nothing more. */
  method WalkEnd(chain: Chain, listener: Listener, consumed: nat) returns (ending: Ending)
    requires WalkedTo(chain, listener, |chain.w.files|) && consumed == Start(chain.w.files, |chain.w.files|)
    modifies chain`pos, chain`faulted
    ensures RunsTo(chain.sum, chain.w, Stream(chain.bytes, chain.whole), |chain.w.files|, listener.Told(), ending)
  {
    var ok := true;
    if chain.w.unpackSize != 0 && consumed == chain.w.unpackSize {
      ok := chain.ReadToStreamEnd();
    }
    ending := if ok then Complete(consumed == chain.w.unpackSize) else InBlock;
  }

  /** The next file without bytes: its checksum must be that of nothing, before the callback sees it. */
  method WalkEmpty(chain: Chain, listener: Listener, k: nat) returns (ok: bool)
    requires WalkedTo(chain, listener, k) && k < |chain.w.files| && !Sized(chain.w.files[k])
    modifies listener
    ensures ok ==> WalkedTo(chain, listener, k + 1)
    ensures !ok ==> EndedIn(chain, listener, k)
  {
    if EmptyMismatch(chain.w, chain.w.files[k]) {
      return false;
    }
    listener.EachEmpty(k);
    ok := true;
  }

  /** The next file, whichever it is; `taken` is what it adds to the bytes handed over. */
  method WalkNext(chain: Chain, listener: Listener, k: nat, offset: nat, subStream: nat) returns (ok: bool, taken: nat)
    requires WalkedTo(chain, listener, k) && k < |chain.w.files|
    requires offset == Start(chain.w.files, k) && subStream == SubStreamAt(chain.w.files, k)
    modifies chain, listener
    ensures ok ==> WalkedTo(chain, listener, k + 1) && offset + taken == Start(chain.w.files, k + 1)
    ensures !ok ==> EndedIn(chain, listener, k)
  {
    if Sized(chain.w.files[k]) {
      ok, taken := WalkSized(chain, listener, k, offset, subStream);
    } else {
      ok := WalkEmpty(chain, listener, k);
      taken := 0;
    }
  }

  /** The walk over a folder's files, for whichever callback: a delivery, which the header's fields answer for. */
  method WalkEntries(sum: Checksum, w: Folder, d: Decoded, listener: Listener) returns (ending: Ending)
    requires listener.w == w && listener.Between() && listener.Told() == [] && listener.nextFile == 0
    modifies listener
    ensures Delivered(sum, w, d, listener.Told(), ending)
    ensures Vouched(sum, w, d, listener.Told(), ending)
    ensures AsDeclared(sum, w, d) ==> ending.Complete?
    ensures !ending.Lost? && (ending.Complete? ==> listener.nextFile == |w.files|)
    ensures listener.Between() || (listener.Broke() && ending.InBlock?)
  {
    ending := WalkFiles(sum, w, d, listener);
    DeliveredIsVouched(sum, w, d, listener.Told(), ending);
    if AsDeclared(sum, w, d) {
      DeclaredIsComplete(sum, w, d, listener.Told(), ending);
    }
  }

  method WalkFiles(sum: Checksum, w: Folder, d: Decoded, listener: Listener) returns (ending: Ending)
    requires listener.w == w && listener.Between() && listener.Told() == [] && listener.nextFile == 0
    modifies listener
    ensures Delivered(sum, w, d, listener.Told(), ending)
    ensures !ending.Lost? && (ending.Complete? ==> listener.nextFile == |w.files|)
    ensures listener.Between() || (listener.Broke() && ending.InBlock?)
  {
    if d.Unbuildable? {
      return InBlock;
    }
    var chain := new Chain(sum, w, d.bytes, d.whole);
    var consumed, offset, subStream := 0, 0, 0;
    for k := 0 to |w.files|
      invariant chain.sum == sum && chain.w == w && chain.bytes == d.bytes && chain.whole == d.whole
      invariant WalkedTo(chain, listener, k)
      invariant consumed == offset == Start(w.files, k) && subStream == SubStreamAt(w.files, k)
    {
      var ok, taken := WalkNext(chain, listener, k, offset, subStream);
      if !ok {
        assert RunsTo(sum, w, d, k, listener.Told(), InBlock);
        return InBlock;
      }
      consumed := consumed + taken;
      if Sized(w.files[k]) {
        offset := offset + w.files[k].size;
      }
      if w.files[k].hasStream {
        subStream := subStream + 1;
      }
    }
    ending := WalkEnd(chain, listener, consumed);
  }

  /** The messages replay to a delivery of the folder, whatever the callback does with a failure. */
  ghost predicate Tells(sum: Checksum, w: Folder, d: Decoded, messages: seq<Message>) {
    && BeginsInRange(w, messages)
    && forall raises :: var (events, ending) := Closed(w, Fold(w, raises, messages)); Delivered(sum, w, d, events, ending)
  }

  /** A worker decodes the folder: whatever the callback will do with a failure, its messages deliver the folder. */
  method Decode(sum: Checksum, w: Folder, d: Decoded) returns (messages: seq<Message>)
    ensures Tells(sum, w, d, messages)
  {
    var listener := new Listener(w, true, true);
    var ending := WalkEntries(sum, w, d, listener);
    if ending.Complete? {
      CompleteIsWhole(sum, w, d, listener.Told(), ending);
    }
    listener.SendDone(ending);
    messages := listener.messages;
  }

  lemma CompleteIsWhole(sum: Checksum, w: Folder, d: Decoded, events: seq<Event>, ending: Ending)
    requires Delivered(sum, w, d, events, ending) && ending.Complete?
    ensures ending == Complete(Start(w.files, |w.files|) == w.unpackSize)
  {
  }

  lemma CompleteOneWay(sum: Checksum, w: Folder, d: Decoded, e: seq<Event>, x: Ending, f: seq<Event>, y: Ending)
    requires Delivered(sum, w, d, e, x) && Delivered(sum, w, d, f, y) && x.Complete? && y.Complete?
    ensures x == y && e == f
  {
  }

  /**
   A folder walked by its caller, and the same folder decoded by a worker and
   replayed, with reads falling anywhere in either: each is a delivery of it and
   neither loses a worker. Unless a file straddles the declared end of a checked
   block they are the same: the same files in order, the same bytes of each that
   came out whole, the same completions between them, and the same ending.
   */
  method EitherWay(sum: Checksum, w: Folder, d: Decoded, raises: bool)
    returns (direct: seq<Event>, x: Ending, replayed: seq<Event>, y: Ending)
    ensures Delivered(sum, w, d, direct, x) && Delivered(sum, w, d, replayed, y)
    ensures Vouched(sum, w, d, direct, x) && Vouched(sum, w, d, replayed, y)
    ensures AsDeclared(sum, w, d) ==> x.Complete? && x == y && direct == replayed
    ensures !x.Lost? && !y.Lost?
    ensures NoneStraddles(w) ==> SameButFailed(direct, replayed) && x == y
  {
    var listener := new Listener(w, false, raises);
    x := WalkEntries(sum, w, d, listener);
    direct := listener.events;
    var messages := Decode(sum, w, d);
    replayed, y := ReplayFolder(w, raises, messages);
    DeliveredIsVouched(sum, w, d, replayed, y);
    if AsDeclared(sum, w, d) {
      DeclaredIsComplete(sum, w, d, replayed, y);
      CompleteOneWay(sum, w, d, direct, x, replayed, y);
    }
    if NoneStraddles(w) {
      DeliveredOneWay(sum, w, d, direct, x, replayed, y);
    }
  }
}
