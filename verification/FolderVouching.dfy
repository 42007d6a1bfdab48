/**
 What a delivery of a folder vouches for, in the header's own fields: which bytes
 came out whole, which checksums they were held against, and what was heard of them.
 */
module FolderVouching {
  import opened Common
  import opened FolderFiles

  /** All bytes handed over in the first `n` events, one file after the other. */
  function HandedOver(events: seq<Event>, n: nat): seq<Byte>
    requires n <= |events|
  {
    if n == 0 then [] else HandedOver(events, n - 1) + if events[n - 1].Given? then events[n - 1].bytes else []
  }

  function FilesGiven(events: seq<Event>, n: nat): nat
    requires n <= |events|
  {
    if n == 0 then 0 else FilesGiven(events, n - 1) + if events[n - 1].Given? then 1 else 0
  }

  function StreamsBefore(files: seq<File>, k: nat): set<nat> {
    set j: nat | j < k && j < |files| && files[j].hasStream
  }

  /** File `k`, handed over to its end, was held against every checksum that ends with it. */
  ghost predicate GivenRight(sum: Checksum, w: Folder, bytes: seq<Byte>, events: seq<Event>, i: nat)
    requires i < |events| && events[i].Given? && events[i].file < |w.files|
  {
    var k, given := events[i].file, events[i].bytes;
    var f, before, after := w.files[k], HandedOver(events, i), HandedOver(events, i + 1);
    if f.hasStream && f.size > 0 then
      && |given| == f.size
      && (w.verify && f.hasCrc ==>
            && sum(given) == f.crc
            && i + 1 < |events|
            && events[i + 1] == Heard(Completion(k, |StreamsBefore(w.files, k)|, |before|, f.size, f.crc)))
      && (w.verify && w.hasCrc ==> |before| < w.unpackSize && (|after| >= w.unpackSize ==> sum(after) == w.crc))
    else
      given == [] && (w.verify && f.hasCrc ==> f.crc == 0)
  }

  /** The hook hears of a file just after the callback had it whole, and of none that has no checksum to answer for. */
  ghost predicate HeardRight(w: Folder, events: seq<Event>, i: nat)
    requires i < |events| && events[i].Heard?
  {
    && i > 0 && events[i - 1].Given? && events[i - 1].clean
    && events[i - 1].file == events[i].completion.file < |w.files|
    && var f := w.files[events[i].completion.file]; w.verify && f.hasCrc && f.hasStream && f.size > 0
  }

  ghost predicate EventRight(sum: Checksum, w: Folder, bytes: seq<Byte>, events: seq<Event>, i: nat)
    requires i < |events|
  {
    match events[i]
    case Given(k, given, clean) =>
      && k == FilesGiven(events, i) < |w.files|
      && HandedOver(events, i + 1) <= bytes
      && (if clean then GivenRight(sum, w, bytes, events, i) else i + 1 == |events| && |given| <= w.files[k].size)
    case Heard(_) => HeardRight(w, events, i)
  }

  /** Every event is right; and a folder that is complete was given to its last file, with nothing left to come when read in full. */
  ghost predicate Vouched(sum: Checksum, w: Folder, d: Decoded, events: seq<Event>, ending: Ending) {
    && (d.Unbuildable? ==> events == [] && ending == InBlock)
    && (d.Stream? ==> forall i :: 0 <= i < |events| ==> EventRight(sum, w, d.bytes, events, i))
    && (forall i :: 0 <= i < |events| && events[i].Given? && !events[i].clean ==> ending == InBlock)
    && (d.Stream? && ending.Complete? ==>
          && FilesGiven(events, |events|) == |w.files|
          && (ending.readInFull <==> |HandedOver(events, |events|)| == w.unpackSize)
          && (ending.readInFull && w.unpackSize > 0 ==>
                if w.verify && w.hasCrc then sum(HandedOver(events, |events|)) == w.crc
                else HandedOver(events, |events|) == d.bytes && d.whole))
  }

  // ------------------------------------------------- the files that came through

  lemma {:induction false} StreamsCounted(files: seq<File>, k: nat)
    requires k <= |files|
    ensures |StreamsBefore(files, k)| == SubStreamAt(files, k)
  {
    if k == 0 {
      assert StreamsBefore(files, 0) == {};
    } else {
      StreamsCounted(files, k - 1);
      assert StreamsBefore(files, k) == StreamsBefore(files, k - 1) + if files[k - 1].hasStream then {k - 1} else {};
    }
  }

  /** In the first `n` events the files before `k` came out whole: they are right, and hand over the bytes before it. */
  ghost predicate Through(sum: Checksum, w: Folder, bytes: seq<Byte>, events: seq<Event>, k: nat, n: nat)
    requires k <= |w.files| && n <= |events|
  {
    && Start(w.files, k) <= |bytes|
    && HandedOver(events, n) == bytes[..Start(w.files, k)] && FilesGiven(events, n) == k
    && RightSoFar(sum, w, bytes, events, n)
  }

  ghost predicate RightSoFar(sum: Checksum, w: Folder, bytes: seq<Byte>, events: seq<Event>, n: nat)
    requires n <= |events|
  {
    forall i :: 0 <= i < n ==> EventRight(sum, w, bytes, events, i) && (events[i].Given? ==> events[i].clean)
  }

  lemma OneMoreRight(sum: Checksum, w: Folder, bytes: seq<Byte>, events: seq<Event>, n: nat)
    requires n < |events| && RightSoFar(sum, w, bytes, events, n)
    requires EventRight(sum, w, bytes, events, n) && (events[n].Given? ==> events[n].clean)
    ensures RightSoFar(sum, w, bytes, events, n + 1)
  {
  }

  lemma BytesUpTo(bytes: seq<Byte>, a: nat, b: nat)
    requires a <= b <= |bytes|
    ensures bytes[..a] + bytes[a..b] == bytes[..b] && bytes[..b] <= bytes && bytes[..a] <= bytes
  {
  }

  /** What the events of file `k` look like inside those of the whole folder. */
  lemma EventsOfFile(w: Folder, bytes: seq<Byte>, events: seq<Event>, k: nat)
    requires k < |w.files| && EventsUpTo(w, bytes, k + 1) <= events
    ensures EventsUpTo(w, bytes, k) <= events
    ensures var n, f := |EventsUpTo(w, bytes, k)|, w.files[k];
      var heard := Sized(f) && Checked(w, f);
      && |EventsUpTo(w, bytes, k + 1)| == n + (if heard then 2 else 1) <= |events|
      && events[n] == Given(k, if Sized(f) then Part(bytes, Start(w.files, k), Start(w.files, k) + f.size) else [], true)
      && (heard ==> events[n + 1] == Heard(CompletionOf(w, k)))
  {
    var before, all := EventsUpTo(w, bytes, k), EventsUpTo(w, bytes, k + 1);
    assert all == before + EventsOf(w, bytes, k);
    assert forall i :: 0 <= i < |all| ==> events[i] == all[i];
  }

  /** The event of a file with bytes that came out whole, where it stands. */
  lemma SizedGivenRight(sum: Checksum, w: Folder, bytes: seq<Byte>, events: seq<Event>, k: nat, i: nat)
    requires k < |w.files| && Sized(w.files[k]) && FileOk(sum, w, bytes, k) && i < |events|
    requires events[i] == Given(k, Part(bytes, Start(w.files, k), Start(w.files, k) + w.files[k].size), true)
    requires HandedOver(events, i) == bytes[..Start(w.files, k)] && FilesGiven(events, i) == k
    requires Checked(w, w.files[k]) ==> i + 1 < |events| && events[i + 1] == Heard(CompletionOf(w, k))
    ensures EventRight(sum, w, bytes, events, i)
    ensures HandedOver(events, i + 1) == bytes[..Start(w.files, k) + w.files[k].size]
  {
    var a := Start(w.files, k);
    BytesUpTo(bytes, a, a + w.files[k].size);
    StreamsCounted(w.files, k);
  }

  lemma EmptyGivenRight(sum: Checksum, w: Folder, bytes: seq<Byte>, events: seq<Event>, k: nat, i: nat)
    requires k < |w.files| && !Sized(w.files[k]) && FileOk(sum, w, bytes, k) && i < |events|
    requires events[i] == Given(k, [], true) && Start(w.files, k) <= |bytes|
    requires HandedOver(events, i) == bytes[..Start(w.files, k)] && FilesGiven(events, i) == k
    ensures EventRight(sum, w, bytes, events, i) && HandedOver(events, i + 1) == HandedOver(events, i)
  {
    BytesUpTo(bytes, Start(w.files, k), Start(w.files, k));
  }

  /** The event of file `k` comes next and is right. */
  lemma ThroughGiven(sum: Checksum, w: Folder, bytes: seq<Byte>, events: seq<Event>, k: nat, n: nat)
    requires k < |w.files| && n < |events| && Through(sum, w, bytes, events, k, n)
    requires events[n].Given? && events[n].clean && EventRight(sum, w, bytes, events, n)
    requires Start(w.files, k + 1) <= |bytes| && HandedOver(events, n + 1) == bytes[..Start(w.files, k + 1)]
    ensures Through(sum, w, bytes, events, k + 1, n + 1)
  {
    OneMoreRight(sum, w, bytes, events, n);
  }

  /** And what is heard of it hands over nothing. */
  lemma ThroughHeard(sum: Checksum, w: Folder, bytes: seq<Byte>, events: seq<Event>, k: nat, n: nat)
    requires k <= |w.files| && n < |events| && Through(sum, w, bytes, events, k, n)
    requires events[n].Heard? && EventRight(sum, w, bytes, events, n)
    ensures Through(sum, w, bytes, events, k, n + 1)
  {
    assert HandedOver(events, n) + [] == HandedOver(events, n);
    OneMoreRight(sum, w, bytes, events, n);
  }

  lemma HeardEventRight(sum: Checksum, w: Folder, bytes: seq<Byte>, events: seq<Event>, k: nat, i: nat)
    requires k < |w.files| && Sized(w.files[k]) && Checked(w, w.files[k]) && i + 1 < |events|
    requires events[i].Given? && events[i].clean && events[i].file == k && events[i + 1] == Heard(CompletionOf(w, k))
    ensures EventRight(sum, w, bytes, events, i + 1)
  {
  }

  lemma ThroughSizedGiven(sum: Checksum, w: Folder, bytes: seq<Byte>, events: seq<Event>, k: nat, n: nat)
    requires k < |w.files| && Sized(w.files[k]) && FileOk(sum, w, bytes, k)
    requires n < |events| && Through(sum, w, bytes, events, k, n)
    requires events[n] == Given(k, Part(bytes, Start(w.files, k), Start(w.files, k) + w.files[k].size), true)
    requires Checked(w, w.files[k]) ==> n + 1 < |events| && events[n + 1] == Heard(CompletionOf(w, k))
    ensures Through(sum, w, bytes, events, k + 1, n + 1)
  {
    SizedGivenRight(sum, w, bytes, events, k, n);
    ThroughGiven(sum, w, bytes, events, k, n);
  }

  lemma ThroughSized(sum: Checksum, w: Folder, bytes: seq<Byte>, events: seq<Event>, k: nat, n: nat)
    requires k < |w.files| && Sized(w.files[k]) && FileOk(sum, w, bytes, k)
    requires n < |events| && Through(sum, w, bytes, events, k, n)
    requires events[n] == Given(k, Part(bytes, Start(w.files, k), Start(w.files, k) + w.files[k].size), true)
    requires Checked(w, w.files[k]) ==> n + 1 < |events| && events[n + 1] == Heard(CompletionOf(w, k))
    ensures Through(sum, w, bytes, events, k + 1, if Checked(w, w.files[k]) then n + 2 else n + 1)
  {
    ThroughSizedGiven(sum, w, bytes, events, k, n);
    if Checked(w, w.files[k]) {
      HeardEventRight(sum, w, bytes, events, k, n);
      ThroughHeard(sum, w, bytes, events, k + 1, n + 1);
    }
  }

  lemma ThroughNext(sum: Checksum, w: Folder, bytes: seq<Byte>, events: seq<Event>, k: nat)
    requires k < |w.files| && FileOk(sum, w, bytes, k) && EventsUpTo(w, bytes, k + 1) <= events
    requires |EventsUpTo(w, bytes, k)| <= |events| && Through(sum, w, bytes, events, k, |EventsUpTo(w, bytes, k)|)
    ensures Through(sum, w, bytes, events, k + 1, |EventsUpTo(w, bytes, k + 1)|)
  {
    var n := |EventsUpTo(w, bytes, k)|;
    EventsOfFile(w, bytes, events, k);
    if Sized(w.files[k]) {
      ThroughSized(sum, w, bytes, events, k, n);
    } else {
      EmptyGivenRight(sum, w, bytes, events, k, n);
      ThroughGiven(sum, w, bytes, events, k, n);
    }
  }

  lemma {:induction false} ThroughAll(sum: Checksum, w: Folder, bytes: seq<Byte>, events: seq<Event>, k: nat)
    requires k <= |w.files| && forall j :: 0 <= j < k ==> FileOk(sum, w, bytes, j)
    requires EventsUpTo(w, bytes, k) <= events
    ensures |EventsUpTo(w, bytes, k)| <= |events| && Through(sum, w, bytes, events, k, |EventsUpTo(w, bytes, k)|)
  {
    if k > 0 {
      EventsOfFile(w, bytes, events, k - 1);
      ThroughAll(sum, w, bytes, events, k - 1);
      ThroughNext(sum, w, bytes, events, k - 1);
    } else {
      assert bytes[..0] == [];
    }
  }

  // ------------------------------------------------- the whole folder

  lemma StoppedRight(sum: Checksum, w: Folder, bytes: seq<Byte>, events: seq<Event>, k: nat)
    requires k < |w.files| && |events| > 0 && Through(sum, w, bytes, events, k, |events| - 1)
    requires FailedPart(w, bytes, k, events[|events| - 1])
    ensures EventRight(sum, w, bytes, events, |events| - 1)
  {
    BytesUpTo(bytes, Start(w.files, k), Start(w.files, k) + |events[|events| - 1].bytes|);
  }

  /** The checksum of a block that was read to its declared end. */
  lemma {:induction false} BlockSumChecked(sum: Checksum, w: Folder, bytes: seq<Byte>, k: nat)
    requires k <= |w.files| && forall j :: 0 <= j < k ==> FileOk(sum, w, bytes, j)
    requires w.verify && w.hasCrc && Start(w.files, k) == w.unpackSize > 0
    ensures w.unpackSize <= |bytes| && sum(bytes[..w.unpackSize]) == w.crc
  {
    assert FileOk(sum, w, bytes, k - 1);
    if !Sized(w.files[k - 1]) {
      BlockSumChecked(sum, w, bytes, k - 1);
    }
  }

  lemma CompleteRight(sum: Checksum, w: Folder, d: Decoded, events: seq<Event>)
    requires d.Stream? && Through(sum, w, d.bytes, events, |w.files|, |events|) && EndOk(w, d)
    requires forall j :: 0 <= j < |w.files| ==> FileOk(sum, w, d.bytes, j)
    ensures Vouched(sum, w, d, events, Complete(Start(w.files, |w.files|) == w.unpackSize))
  {
    var read := Start(w.files, |w.files|);
    if read == w.unpackSize > 0 {
      if w.verify && w.hasCrc {
        BlockSumChecked(sum, w, d.bytes, |w.files|);
      } else {
        assert d.bytes[..read] == d.bytes;
      }
    }
  }

  /** Whatever is delivered of a folder, the header's fields answer for it. */
  lemma DeliveredIsVouched(sum: Checksum, w: Folder, d: Decoded, events: seq<Event>, ending: Ending)
    requires Delivered(sum, w, d, events, ending)
    ensures Vouched(sum, w, d, events, ending)
  {
    if d.Stream? {
      var k: nat :| RunsTo(sum, w, d, k, events, ending);
      EventsBegin(sum, w, d, k, events, ending);
      ThroughAll(sum, w, d.bytes, events, k);
      if k == |w.files| && EndOk(w, d) {
        CompleteRight(sum, w, d, events);
      } else if k < |w.files| && Sized(w.files[k]) {
        StoppedRight(sum, w, d.bytes, events, k);
      }
    }
  }

  lemma EventsBegin(sum: Checksum, w: Folder, d: Decoded, k: nat, events: seq<Event>, ending: Ending)
    requires d.Stream? && RunsTo(sum, w, d, k, events, ending)
    ensures EventsUpTo(w, d.bytes, k) <= events
    ensures if k < |w.files| && Sized(w.files[k]) then
              |events| == |EventsUpTo(w, d.bytes, k)| + 1 && FailedPart(w, d.bytes, k, events[|events| - 1])
            else events == EventsUpTo(w, d.bytes, k)
  {
  }

  // ------------------------------------------------- and nothing else fails

  /** The bytes are what the header says: there are enough, no file goes past the declared end of a checked block, and each checksum that is to be verified agrees. */
  ghost predicate AsDeclared(sum: Checksum, w: Folder, d: Decoded) {
    && d.Stream?
    && Start(w.files, |w.files|) <= |d.bytes|
    && (forall k :: 0 <= k < |w.files| && w.verify && w.files[k].hasCrc ==>
          var f, start := w.files[k], Start(w.files, k);
          if f.hasStream && f.size > 0 then start + f.size <= |d.bytes| && sum(d.bytes[start..start + f.size]) == f.crc
          else f.crc == 0)
    && var read := Start(w.files, |w.files|);
       if w.verify && w.hasCrc then read <= w.unpackSize && (read == w.unpackSize > 0 ==> sum(d.bytes[..read]) == w.crc)
       else read == w.unpackSize > 0 ==> |d.bytes| == read && d.whole
  }

  lemma DeclaredComesOut(sum: Checksum, w: Folder, d: Decoded, k: nat)
    requires AsDeclared(sum, w, d) && k < |w.files|
    ensures FileOk(sum, w, d.bytes, k) && !FileFails(sum, w, d.bytes, k)
  {
    StartGrows(w.files, k + 1, |w.files|);
  }

  /** A folder whose bytes are as declared is delivered complete: verification off, nothing is held against it. */
  lemma DeclaredIsComplete(sum: Checksum, w: Folder, d: Decoded, events: seq<Event>, ending: Ending)
    requires AsDeclared(sum, w, d) && Delivered(sum, w, d, events, ending)
    ensures ending == Complete(Start(w.files, |w.files|) == w.unpackSize)
  {
    var k: nat :| RunsTo(sum, w, d, k, events, ending);
    if k < |w.files| {
      DeclaredComesOut(sum, w, d, k);
      assert false;
    }
  }
}
