/**
 One folder as the walk over it sees it: its files, what its coders decode to,
 and which files that gives back whole. Every read may stop short of what was
 asked for; where reads fall matters to no file but one across the declared end
 of a checked block.
 */
module FolderFiles {
  import opened Common

  type Checksum = seq<Byte> -> nat

  datatype File = File(hasStream: bool, size: nat, hasCrc: bool, crc: nat)

  datatype Folder = Folder(files: seq<File>, unpackSize: nat, hasCrc: bool, crc: nat, verify: bool)

  /** The coders cannot be built, or give these bytes and then end or fail. */
  datatype Decoded = Unbuildable | Stream(bytes: seq<Byte>, whole: bool)

  datatype Completion = Completion(file: nat, subStream: nat, offset: nat, len: nat, crc: nat)

  /** A file handed to the callback, read to its end or to a failure; or the sub-stream hook called. */
  datatype Event = Given(file: nat, bytes: seq<Byte>, clean: bool) | Heard(completion: Completion)

  /** How a folder ends: with its files delivered, with an error of this block, or with its worker lost. */
  datatype Ending = Complete(readInFull: bool) | InBlock | Lost

  predicate Sized(f: File) { f.hasStream && f.size > 0 }

  /** A file with bytes follows, so what is left of this one is read before it. */
  predicate LaterSized(files: seq<File>, k: nat) {
    exists j :: k < j < |files| && Sized(files[j])
  }

  /** Where file `k` starts in the decoded stream. */
  function Start(files: seq<File>, k: nat): nat
    requires k <= |files|
  {
    if k == 0 then 0 else Start(files, k - 1) + if Sized(files[k - 1]) then files[k - 1].size else 0
  }

  function SubStreamAt(files: seq<File>, k: nat): nat
    requires k <= |files|
  {
    if k == 0 then 0 else SubStreamAt(files, k - 1) + if files[k - 1].hasStream then 1 else 0
  }

  lemma {:induction false} StartGrows(files: seq<File>, j: nat, k: nat)
    requires j <= k <= |files|
    ensures Start(files, j) <= Start(files, k)
  {
    if j < k {
      StartGrows(files, j, k - 1);
    }
  }

  predicate EmptyMismatch(w: Folder, f: File) { w.verify && f.hasCrc && f.crc != 0 }

  predicate Guarded(w: Folder) { w.verify && w.hasCrc }

  predicate Checked(w: Folder, f: File) { w.verify && f.hasCrc }

  function Part(bytes: seq<Byte>, from: nat, to: nat): seq<Byte> {
    if from <= to <= |bytes| then bytes[from..to] else []
  }

  /**
   File `f` at `start` can come out whole: decoded to its end, begun before the
   declared end of a checked block, and every checksum that ends with it agrees.
   */
  predicate ComesOut(sum: Checksum, w: Folder, bytes: seq<Byte>, start: nat, f: File) {
    && start + f.size <= |bytes|
    && (Checked(w, f) ==> sum(bytes[start..start + f.size]) == f.crc)
    && (Guarded(w) ==> start < w.unpackSize)
    && (Guarded(w) && start + f.size >= w.unpackSize ==> sum(bytes[..start + f.size]) == w.crc)
  }

  /** The declared end of a checked block falls inside the file: a read that stops there, or past it but short of the file's end, is the last. */
  predicate Straddles(w: Folder, start: nat, f: File) {
    Guarded(w) && start < w.unpackSize < start + f.size
  }

  predicate MayFail(sum: Checksum, w: Folder, bytes: seq<Byte>, start: nat, f: File) {
    !ComesOut(sum, w, bytes, start, f) || Straddles(w, start, f)
  }

  /** What the sizes in a header must be for reads to tell one story: no file straddles its block's declared end. */
  ghost predicate NoneStraddles(w: Folder) {
    forall k :: 0 <= k < |w.files| && Sized(w.files[k]) ==> !Straddles(w, Start(w.files, k), w.files[k])
  }

  /** File `k` can be handed over whole. */
  predicate FileOk(sum: Checksum, w: Folder, bytes: seq<Byte>, k: nat)
    requires k < |w.files|
  {
    var f := w.files[k];
    if Sized(f) then ComesOut(sum, w, bytes, Start(w.files, k), f) else !EmptyMismatch(w, f)
  }

  /** The walk can end in file `k`. */
  predicate FileFails(sum: Checksum, w: Folder, bytes: seq<Byte>, k: nat)
    requires k < |w.files|
  {
    var f := w.files[k];
    if Sized(f) then MayFail(sum, w, bytes, Start(w.files, k), f) else EmptyMismatch(w, f)
  }

  /** A block read to its declared end has nothing after it, unless its own checksum has spoken for it. */
  predicate EndOk(w: Folder, d: Decoded)
    requires d.Stream?
  {
    var read := Start(w.files, |w.files|);
    read != 0 && read == w.unpackSize ==> Guarded(w) || (|d.bytes| == read && d.whole)
  }

  function CompletionOf(w: Folder, k: nat): Completion
    requires k < |w.files|
  {
    Completion(k, SubStreamAt(w.files, k), Start(w.files, k), w.files[k].size, w.files[k].crc)
  }

  function EventsOf(w: Folder, bytes: seq<Byte>, k: nat): seq<Event>
    requires k < |w.files|
  {
    var f := w.files[k];
    if Sized(f) then
      [Given(k, Part(bytes, Start(w.files, k), Start(w.files, k) + f.size), true)]
      + if Checked(w, f) then [Heard(CompletionOf(w, k))] else []
    else [Given(k, [], true)]
  }

  function EventsUpTo(w: Folder, bytes: seq<Byte>, k: nat): seq<Event>
    requires k <= |w.files|
  {
    if k == 0 then [] else EventsUpTo(w, bytes, k - 1) + EventsOf(w, bytes, k - 1)
  }

  /** The file the walk stopped at was handed over as far as its bytes came, and failed. */
  ghost predicate StoppedIn(w: Folder, bytes: seq<Byte>, k: nat, events: seq<Event>)
    requires k < |w.files|
  {
    exists e: Event :: events == EventsUpTo(w, bytes, k) + [e] && FailedPart(w, bytes, k, e)
  }

  ghost predicate FailedPart(w: Folder, bytes: seq<Byte>, k: nat, e: Event)
    requires k < |w.files|
  {
    && e.Given? && e.file == k && !e.clean
    && var from, to := Start(w.files, k), Start(w.files, k) + |e.bytes|;
       to <= from + w.files[k].size && to <= |bytes| && e.bytes == bytes[from..to]
  }

  /** The first `k` files came out whole and the next one, if there is one, did not. */
  ghost predicate RunsTo(sum: Checksum, w: Folder, d: Decoded, k: nat, events: seq<Event>, ending: Ending)
    requires d.Stream?
  {
    && k <= |w.files|
    && (forall j :: 0 <= j < k ==> FileOk(sum, w, d.bytes, j))
    && if k == |w.files| then
         && events == EventsUpTo(w, d.bytes, k)
         && ending == if EndOk(w, d) then Complete(Start(w.files, k) == w.unpackSize) else InBlock
       else
         && FileFails(sum, w, d.bytes, k)
         && ending == InBlock
         && if Sized(w.files[k]) then StoppedIn(w, d.bytes, k, events) else events == EventsUpTo(w, d.bytes, k)
  }

  /** What a caller that reads every file to its end or its failure may be told of a folder. */
  ghost predicate Delivered(sum: Checksum, w: Folder, d: Decoded, events: seq<Event>, ending: Ending) {
    if d.Unbuildable? then events == [] && ending == InBlock
    else exists k: nat :: RunsTo(sum, w, d, k, events, ending)
  }

  /** The same events, save how much of a file that failed had come out before it did. */
  ghost predicate SameButFailed(e: seq<Event>, f: seq<Event>) {
    && |e| == |f|
    && forall i :: 0 <= i < |e| ==>
         e[i] == f[i] || (e[i].Given? && f[i].Given? && e[i].file == f[i].file && !e[i].clean && !f[i].clean)
  }

  lemma OkOrFails(sum: Checksum, w: Folder, bytes: seq<Byte>, k: nat)
    requires NoneStraddles(w) && k < |w.files|
    ensures FileFails(sum, w, bytes, k) <==> !FileOk(sum, w, bytes, k)
  {
  }

  lemma StopsNoEarlier(sum: Checksum, w: Folder, d: Decoded, k: nat, e: seq<Event>, x: Ending, l: nat)
    requires NoneStraddles(w) && d.Stream? && RunsTo(sum, w, d, k, e, x)
    requires l <= |w.files| && forall j :: 0 <= j < l ==> FileOk(sum, w, d.bytes, j)
    ensures l <= k
  {
    if k < |w.files| {
      OkOrFails(sum, w, d.bytes, k);
    }
  }

  lemma SameStop(sum: Checksum, w: Folder, d: Decoded, k: nat, e: seq<Event>, x: Ending, f: seq<Event>, y: Ending)
    requires d.Stream? && RunsTo(sum, w, d, k, e, x) && RunsTo(sum, w, d, k, f, y)
    ensures SameButFailed(e, f) && x == y
  {
  }

  lemma RunsOneWay(sum: Checksum, w: Folder, d: Decoded, k: nat, e: seq<Event>, x: Ending, l: nat, f: seq<Event>, y: Ending)
    requires NoneStraddles(w) && d.Stream? && RunsTo(sum, w, d, k, e, x) && RunsTo(sum, w, d, l, f, y)
    ensures SameButFailed(e, f) && x == y
  {
    StopsNoEarlier(sum, w, d, k, e, x, l);
    StopsNoEarlier(sum, w, d, l, f, y, k);
    SameStop(sum, w, d, k, e, x, f, y);
  }

  /** However its reads fall, a folder none of whose files straddles is delivered in one way. */
  lemma DeliveredOneWay(sum: Checksum, w: Folder, d: Decoded, e: seq<Event>, x: Ending, f: seq<Event>, y: Ending)
    requires NoneStraddles(w) && Delivered(sum, w, d, e, x) && Delivered(sum, w, d, f, y)
    ensures SameButFailed(e, f) && x == y
  {
    if d.Stream? {
      var k: nat :| RunsTo(sum, w, d, k, e, x);
      var l: nat :| RunsTo(sum, w, d, l, f, y);
      RunsOneWay(sum, w, d, k, e, x, l, f, y);
    }
  }

  // ------------------------------------------------- exactly when there is one way

  ghost predicate OneWay(w: Folder) {
    forall sum, d, e, x, f, y :: Delivered(sum, w, d, e, x) && Delivered(sum, w, d, f, y) ==> SameButFailed(e, f) && x == y
  }

  /** The same sizes and flags; the checksums may differ. */
  ghost predicate SameSizes(w: Folder, v: Folder) {
    && w.unpackSize == v.unpackSize && w.hasCrc == v.hasCrc && w.verify == v.verify && |w.files| == |v.files|
    && forall k :: 0 <= k < |w.files| ==>
         w.files[k].hasStream == v.files[k].hasStream && w.files[k].size == v.files[k].size
         && w.files[k].hasCrc == v.files[k].hasCrc
  }

  lemma {:induction false} SameStarts(w: Folder, v: Folder, k: nat)
    requires SameSizes(w, v) && k <= |w.files|
    ensures Start(w.files, k) == Start(v.files, k)
  {
    if k > 0 {
      SameStarts(w, v, k - 1);
    }
  }

  /** The same folder with every checksum zero. */
  function Zeroed(w: Folder): (v: Folder)
    ensures SameSizes(w, v) && v.crc == 0 && forall k :: 0 <= k < |v.files| ==> v.files[k].crc == 0
  {
    w.(crc := 0, files := seq(|w.files|, k requires 0 <= k < |w.files| => w.files[k].(crc := 0)))
  }

  /** A folder that came through `k` files is delivered somehow: it goes on as far as its files can. */
  lemma {:induction false} GoesOn(sum: Checksum, w: Folder, d: Decoded, k: nat) returns (l: nat, events: seq<Event>, ending: Ending)
    requires d.Stream? && k <= |w.files| && Start(w.files, |w.files|) <= |d.bytes|
    requires forall j :: 0 <= j < k ==> FileOk(sum, w, d.bytes, j)
    ensures k <= l && RunsTo(sum, w, d, l, events, ending)
    decreases |w.files| - k
  {
    l, events := k, EventsUpTo(w, d.bytes, k);
    if k == |w.files| {
      ending := if EndOk(w, d) then Complete(Start(w.files, k) == w.unpackSize) else InBlock;
    } else if FileOk(sum, w, d.bytes, k) {
      l, events, ending := GoesOn(sum, w, d, k + 1);
    } else if Sized(w.files[k]) {
      ending := InBlock;
      events := FailsAt(sum, w, d, k);
    } else {
      ending := InBlock;
    }
  }

  /** A walk that ends in file `k` before a byte of it is out. */
  lemma FailsAt(sum: Checksum, w: Folder, d: Decoded, k: nat) returns (events: seq<Event>)
    requires d.Stream? && k < |w.files| && Sized(w.files[k]) && FileFails(sum, w, d.bytes, k)
    requires Start(w.files, |w.files|) <= |d.bytes| && forall j :: 0 <= j < k ==> FileOk(sum, w, d.bytes, j)
    ensures events == EventsUpTo(w, d.bytes, k) + [Given(k, [], false)]
    ensures RunsTo(sum, w, d, k, events, InBlock)
  {
    StartGrows(w.files, k, |w.files|);
    var e := Given(k, [], false);
    events := EventsUpTo(w, d.bytes, k) + [e];
    assert FailedPart(w, d.bytes, k, e);
  }

  lemma {:induction false} EventsGoOn(w: Folder, bytes: seq<Byte>, k: nat, l: nat)
    requires k <= l <= |w.files|
    ensures EventsUpTo(w, bytes, k) <= EventsUpTo(w, bytes, l)
    decreases l
  {
    if k < l {
      EventsGoOn(w, bytes, k, l - 1);
    }
  }

  /** Any run past file `k` begins with the files up to it and the file itself, whole. */
  lemma PastFile(sum: Checksum, w: Folder, d: Decoded, k: nat, l: nat, events: seq<Event>, ending: Ending)
    requires d.Stream? && k < l && RunsTo(sum, w, d, l, events, ending) && Sized(w.files[k])
    ensures var n := |EventsUpTo(w, d.bytes, k)|; n < |events| && events[n].Given? && events[n].clean
  {
    EventsGoOn(w, d.bytes, k + 1, l);
    assert EventsUpTo(w, d.bytes, k + 1) <= events;
    assert EventsUpTo(w, d.bytes, k + 1) == EventsUpTo(w, d.bytes, k) + EventsOf(w, d.bytes, k);
  }

  /** A straddling file, with nothing amiss but where reads fall, is delivered whole or not at all. */
  lemma TwoWays(w: Folder, k: nat)
    requires k < |w.files| && Sized(w.files[k]) && Straddles(w, Start(w.files, k), w.files[k])
    ensures exists v :: SameSizes(w, v) && !OneWay(v)
  {
    var v: Folder, sum: Checksum := Zeroed(w), _ => 0;
    var size := Start(v.files, |v.files|);
    var bytes := seq(size, _ => 0);
    var d := Stream(bytes, true);
    SameStarts(w, v, k);
    forall j | 0 <= j <= k ensures FileOk(sum, v, bytes, j) {
      StartGrows(v.files, j + 1, |v.files|);
      StartGrows(v.files, j, k);
    }
    var l, e, x := GoesOn(sum, v, d, k + 1);
    var f := FailsAt(sum, v, d, k);
    PastFile(sum, v, d, k, l, e, x);
    assert Delivered(sum, v, d, e, x) && Delivered(sum, v, d, f, InBlock);
    var n := |EventsUpTo(v, bytes, k)|;
    assert f[n] == Given(k, [], false) && e[n].clean;
    assert !SameButFailed(e, f);
  }

  /**
   Reads tell one story of a folder, whatever its bytes and its checksums, exactly
   when none of its files straddles the declared end of a checked block.
   */
  lemma OneWayExactlyWhen(w: Folder)
    ensures NoneStraddles(w) <==> forall v :: SameSizes(w, v) ==> OneWay(v)
  {
    if NoneStraddles(w) {
      forall v | SameSizes(w, v) ensures OneWay(v) {
        StillNoneStraddles(w, v);
        forall sum, d, e, x, f, y | Delivered(sum, v, d, e, x) && Delivered(sum, v, d, f, y)
          ensures SameButFailed(e, f) && x == y
        {
          DeliveredOneWay(sum, v, d, e, x, f, y);
        }
      }
    } else {
      var k :| 0 <= k < |w.files| && Sized(w.files[k]) && Straddles(w, Start(w.files, k), w.files[k]);
      TwoWays(w, k);
    }
  }

  lemma StillNoneStraddles(w: Folder, v: Folder)
    requires NoneStraddles(w) && SameSizes(w, v)
    ensures NoneStraddles(v)
  {
    forall k | 0 <= k < |v.files| && Sized(v.files[k]) ensures !Straddles(v, Start(v.files, k), v.files[k]) {
      SameStarts(w, v, k);
      assert Sized(w.files[k]);
    }
  }

  /** Thirty bytes in one file of a checked block that declares twenty: whole when read at once, failed when read by tens. */
  lemma ThirtyInTwenty(sum: Checksum, bytes: seq<Byte>)
    requires |bytes| == 30
    ensures var w := Folder([File(true, 30, false, 0)], 20, true, sum(bytes), true);
      && Delivered(sum, w, Stream(bytes, true), [Given(0, bytes, true)], Complete(false))
      && Delivered(sum, w, Stream(bytes, true), [Given(0, bytes[..20], false)], InBlock)
  {
    var w := Folder([File(true, 30, false, 0)], 20, true, sum(bytes), true);
    var d := Stream(bytes, true);
    assert Start(w.files, 0) == 0 && Start(w.files, 1) == 30 && bytes[..30] == bytes;
    assert EventsUpTo(w, bytes, 0) == [];
    assert EventsUpTo(w, bytes, 1) == EventsUpTo(w, bytes, 0) + EventsOf(w, bytes, 0) == [Given(0, bytes, true)];
    assert RunsTo(sum, w, d, 1, [Given(0, bytes, true)], Complete(false));
    var e := Given(0, bytes[..20], false);
    assert FailedPart(w, bytes, 0, e) && [e] == EventsUpTo(w, bytes, 0) + [e];
    assert RunsTo(sum, w, d, 0, [e], InBlock);
  }
}
