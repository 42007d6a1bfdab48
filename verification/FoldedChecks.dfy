/**
 The walk when the coder's workers take the checksums: they become known some
 time after the bytes, so a file handed over may be owed its comparison. Nothing
 is assumed of when the coder answers, or what.
 */
module FoldedChecks {
  import opened Common
  import opened FolderFiles

  datatype Answer = Answer(offset: nat, len: nat, crc: Option<nat>)

  /** The coder's folded checksums, as they are asked for. */
  class Coder {
    ghost var answers: seq<Answer>

    constructor ()
      ensures answers == []
    {
      answers := [];
    }

    /** The checksum of a range of the decoded stream, if the workers have it by now. */
    method Folded(offset: nat, len: nat) returns (crc: Option<nat>)
      modifies this
      ensures answers == old(answers) + [Answer(offset, len, crc)]
    {
      crc := None;
      if * {
        var c: nat := *;
        crc := Some(c);
      }
      answers := answers + [Answer(offset, len, crc)];
    }
  }

  datatype Outcome =
    | Ok(finished: bool, readInFull: bool)
    | CallersError
    | BlockFault
    | Mismatch
    | Unverified

  /** The coder has been asked for the range of file `k` and answered `crc`. */
  ghost predicate Answered(answers: seq<Answer>, w: Folder, k: nat, crc: Option<nat>)
    requires k < |w.files|
  {
    Answer(Start(w.files, k), w.files[k].size, crc) in answers
  }

  /** File `k` was compared with the checksum the coder took of it, and agreed. */
  ghost predicate Vouched(answers: seq<Answer>, w: Folder, k: nat)
    requires k < |w.files|
  {
    Answered(answers, w, k, Some(w.files[k].crc))
  }

  /** A comparison that failed: of a file, of a file without bytes, or of the block. */
  ghost predicate Disagreed(answers: seq<Answer>, w: Folder) {
    || (exists k: nat, c: nat :: k < |w.files| && w.files[k].hasCrc && c != w.files[k].crc && Answered(answers, w, k, Some(c)))
    || (exists k: nat :: k < |w.files| && !Sized(w.files[k]) && EmptyMismatch(w, w.files[k]))
    || (exists c: nat :: w.hasCrc && c != w.crc && Answer(0, w.unpackSize, Some(c)) in answers)
  }

  function Sum(taken: seq<nat>): nat {
    if taken == [] then 0 else Sum(taken[..|taken| - 1]) + taken[|taken| - 1]
  }

  /** File `k` was to be compared: all of it was handed over, or the coder had its checksum once. */
  ghost predicate Comparable(answers: seq<Answer>, w: Folder, taken: seq<nat>, k: nat) {
    && k < |taken| && k < |w.files| && ((w.files[k].hasCrc && taken[k] == w.files[k].size) || HadAnswer(answers, w, k))
  }

  ghost predicate HadAnswer(answers: seq<Answer>, w: Folder, k: nat)
    requires k < |w.files|
  {
    exists c: nat :: Answered(answers, w, k, Some(c))
  }

  /** At the end the coder had no checksum for a file that was to be compared, or for a block read in full. */
  ghost predicate Unanswered(answers: seq<Answer>, w: Folder, taken: seq<nat>) {
    || (exists k: nat :: k < |w.files| && w.files[k].hasCrc && Comparable(answers, w, taken, k) && Answered(answers, w, k, None))
    || (w.hasCrc && w.unpackSize != 0 && Sum(taken) == w.unpackSize && Answer(0, w.unpackSize, None) in answers)
  }

  /** A completion is of a file with bytes, at its place, with a checksum the coder gave and the file's own when it has one. */
  ghost predicate Truthful(answers: seq<Answer>, w: Folder, c: Completion) {
    && c.file < |w.files| && Sized(w.files[c.file])
    && c.subStream == SubStreamAt(w.files, c.file) && c.offset == Start(w.files, c.file) && c.len == w.files[c.file].size
    && Answered(answers, w, c.file, Some(c.crc))
    && (w.files[c.file].hasCrc ==> c.crc == w.files[c.file].crc)
  }

  /** Every completion is truthful, and each file's comes after those of the files before it, once at most. */
  ghost predicate HeardRight(w: Folder, answers: seq<Answer>, heard: seq<Completion>) {
    Increasing(heard) && forall i :: 0 <= i < |heard| ==> Truthful(answers, w, heard[i])
  }

  /** A file handed over whose comparison waits for the coder. */
  datatype Owed = Owed(file: nat, subStream: nat, offset: nat, len: nat)

  ghost predicate OwedRight(w: Folder, o: Owed) {
    && o.file < |w.files| && Sized(w.files[o.file])
    && o.subStream == SubStreamAt(w.files, o.file) && o.offset == Start(w.files, o.file) && o.len == w.files[o.file].size
  }

  ghost predicate Increasing(heard: seq<Completion>) {
    forall i, j :: 0 <= i < j < |heard| ==> heard[i].file < heard[j].file
  }

  ghost predicate Queued(queue: seq<Owed>, k: nat) {
    exists i :: 0 <= i < |queue| && queue[i].file == k
  }

  /** Every file with a CRC that was settled or queued is so still. */
  ghost predicate NoneDropped(w: Folder, answers: seq<Answer>, queue: seq<Owed>, later: seq<Answer>, rest: seq<Owed>) {
    forall k: nat :: k < |w.files| && w.files[k].hasCrc && (Vouched(answers, w, k) || Queued(queue, k)) ==>
      Vouched(later, w, k) || Queued(rest, k)
  }

  /** Completions heard, then files owed theirs, all in file order and before file `k`. */
  ghost predicate Ordered(w: Folder, answers: seq<Answer>, heard: seq<Completion>, queue: seq<Owed>, k: nat) {
    && Increasing(heard)
    && (forall i, j :: 0 <= i < j < |queue| ==> queue[i].file < queue[j].file)
    && (forall i, j :: 0 <= i < |heard| && 0 <= j < |queue| ==> heard[i].file < queue[j].file)
    && (forall i :: 0 <= i < |heard| ==> heard[i].file < k && Truthful(answers, w, heard[i]))
    && (forall i :: 0 <= i < |queue| ==> queue[i].file < k && OwedRight(w, queue[i]))
  }

  lemma OrderedLater(w: Folder, answers: seq<Answer>, later: seq<Answer>, heard: seq<Completion>, queue: seq<Owed>, k: nat)
    requires Ordered(w, answers, heard, queue, k) && answers <= later
    ensures Ordered(w, later, heard, queue, k) && NoneDropped(w, answers, queue, later, queue)
  {
    assert forall a :: a in answers ==> a in later by {
      assert forall i :: 0 <= i < |answers| ==> answers[i] == later[i];
    }
  }

  lemma FrontSettled(w: Folder, answers: seq<Answer>, queue: seq<Owed>)
    requires queue != [] && queue[0].file < |w.files|
    requires w.files[queue[0].file].hasCrc ==> Vouched(answers, w, queue[0].file)
    ensures NoneDropped(w, answers, queue, answers, queue[1..])
  {
    forall k: nat | k < |w.files| && w.files[k].hasCrc && (Vouched(answers, w, k) || Queued(queue, k))
      ensures Vouched(answers, w, k) || Queued(queue[1..], k)
    {
      if Queued(queue, k) {
        var i :| 0 <= i < |queue| && queue[i].file == k;
        if i > 0 {
          assert queue[1..][i - 1].file == k;
        }
      }
    }
  }

  lemma FrontHeard(w: Folder, answers: seq<Answer>, heard: seq<Completion>, queue: seq<Owed>, k: nat, crc: nat)
    requires Ordered(w, answers, heard, queue, k) && queue != []
    requires Answered(answers, w, queue[0].file, Some(crc))
    requires w.files[queue[0].file].hasCrc ==> crc == w.files[queue[0].file].crc
    ensures var o := queue[0];
      Ordered(w, answers, heard + [Completion(o.file, o.subStream, o.offset, o.len, crc)], queue[1..], k)
  {
  }

  /** Handed over at once: nothing is queued, so it comes after everything heard. */
  lemma NextHeard(w: Folder, answers: seq<Answer>, heard: seq<Completion>, c: Completion)
    requires Ordered(w, answers, heard, [], c.file) && Truthful(answers, w, c)
    ensures Ordered(w, answers, heard + [c], [], c.file + 1)
  {
  }

  lemma NextQueued(w: Folder, answers: seq<Answer>, heard: seq<Completion>, queue: seq<Owed>, o: Owed)
    requires Ordered(w, answers, heard, queue, o.file) && OwedRight(w, o)
    ensures Ordered(w, answers, heard, queue + [o], o.file + 1) && Queued(queue + [o], o.file)
    ensures NoneDropped(w, answers, queue, answers, queue + [o])
  {
    var longer := queue + [o];
    assert longer[|queue|] == o;
    forall k: nat | Queued(queue, k) ensures Queued(longer, k) {
      var i :| 0 <= i < |queue| && queue[i].file == k;
      assert longer[i].file == k;
    }
  }

  // ------------------------------------------------- which files are heard of

  /** What the coder answered when it was last asked for a range. */
  function LastAnswer(answers: seq<Answer>, offset: nat, len: nat): Option<nat> {
    if answers == [] then None
    else
      var last := answers[|answers| - 1];
      if last.offset == offset && last.len == len then last.crc else LastAnswer(answers[..|answers| - 1], offset, len)
  }

  /** When it was last asked for file `k`, the coder had its checksum. */
  ghost predicate Gave(answers: seq<Answer>, w: Folder, k: nat)
    requires k < |w.files|
  {
    LastAnswer(answers, Start(w.files, k), w.files[k].size).Some?
  }

  ghost predicate HeardOf(heard: seq<Completion>, k: nat) {
    exists i :: 0 <= i < |heard| && heard[i].file == k
  }

  /** File `k` waits, or the hook heard of it exactly when the coder had its checksum. */
  ghost predicate Told(w: Folder, answers: seq<Answer>, heard: seq<Completion>, queue: seq<Owed>, k: nat)
    requires k < |w.files|
  {
    Queued(queue, k) || (HeardOf(heard, k) <==> Gave(answers, w, k))
  }

  /** What was told stays told, and a file with a CRC that was heard of or waits is not forgotten. */
  ghost predicate StaysTold(w: Folder, answers: seq<Answer>, heard: seq<Completion>, queue: seq<Owed>,
                            later: seq<Answer>, now: seq<Completion>, rest: seq<Owed>) {
    forall k: nat :: k < |w.files| && Sized(w.files[k]) ==>
      && (Told(w, answers, heard, queue, k) ==> Told(w, later, now, rest, k))
      && (w.files[k].hasCrc && (Queued(queue, k) || HeardOf(heard, k)) ==> Queued(rest, k) || HeardOf(now, k))
  }

  lemma StartsApart(files: seq<File>, j: nat, k: nat)
    requires j < k < |files| && Sized(files[j])
    ensures Start(files, j) < Start(files, k)
  {
    StartGrows(files, j + 1, k);
  }

  /** Asking for one file's range says nothing of another's. */
  lemma AskedOne(w: Folder, answers: seq<Answer>, f: nat, crc: Option<nat>, k: nat)
    requires f < |w.files| && k < |w.files| && Sized(w.files[f]) && Sized(w.files[k])
    ensures var later := answers + [Answer(Start(w.files, f), w.files[f].size, crc)];
      if k == f then Gave(later, w, k) <==> crc.Some? else Gave(later, w, k) <==> Gave(answers, w, k)
  {
    var later := answers + [Answer(Start(w.files, f), w.files[f].size, crc)];
    assert later[..|answers|] == answers;
    if k < f {
      StartsApart(w.files, k, f);
    } else if f < k {
      StartsApart(w.files, f, k);
    }
  }

  lemma HeardSnoc(heard: seq<Completion>, c: Completion, k: nat)
    ensures HeardOf(heard + [c], k) <==> HeardOf(heard, k) || c.file == k
  {
    if i :| 0 <= i < |heard| && heard[i].file == k {
      assert (heard + [c])[i].file == k;
    }
    assert (heard + [c])[|heard|] == c;
  }

  lemma QueueSnoc(queue: seq<Owed>, o: Owed, k: nat)
    ensures Queued(queue + [o], k) <==> Queued(queue, k) || o.file == k
  {
    if i :| 0 <= i < |queue| && queue[i].file == k {
      assert (queue + [o])[i].file == k;
    }
    assert (queue + [o])[|queue|] == o;
  }

  lemma QueueTail(queue: seq<Owed>, k: nat)
    requires queue != [] && forall i, j :: 0 <= i < j < |queue| ==> queue[i].file < queue[j].file
    ensures Queued(queue[1..], k) <==> Queued(queue, k) && k != queue[0].file
  {
    if i :| 0 <= i < |queue| && queue[i].file == k {
      if i > 0 {
        assert queue[1..][i - 1].file == k;
      }
    }
  }

  /** One file asked for: whatever happens to it, the others are as they were. */
  lemma ToldOne(w: Folder, answers: seq<Answer>, heard: seq<Completion>, queue: seq<Owed>, f: nat, crc: Option<nat>,
                now: seq<Completion>, rest: seq<Owed>)
    requires f < |w.files| && Sized(w.files[f])
    requires forall k: nat :: k != f ==> (HeardOf(now, k) <==> HeardOf(heard, k)) && (Queued(rest, k) <==> Queued(queue, k))
    requires Queued(rest, f) || (HeardOf(now, f) <==> crc.Some?)
    requires w.files[f].hasCrc && (Queued(queue, f) || HeardOf(heard, f)) ==> Queued(rest, f) || HeardOf(now, f)
    ensures StaysTold(w, answers, heard, queue, answers + [Answer(Start(w.files, f), w.files[f].size, crc)], now, rest)
  {
    var later := answers + [Answer(Start(w.files, f), w.files[f].size, crc)];
    forall k: nat | k < |w.files| && Sized(w.files[k])
      ensures Told(w, answers, heard, queue, k) ==> Told(w, later, now, rest, k)
    {
      AskedOne(w, answers, f, crc, k);
    }
  }

  /** The front of the queue asked for: heard of, still waiting, or without a checksum to wait for. */
  lemma FrontTold(w: Folder, answers: seq<Answer>, heard: seq<Completion>, queue: seq<Owed>, k: nat, crc: Option<nat>, c: Completion)
    requires Ordered(w, answers, heard, queue, k) && queue != [] && c.file == queue[0].file
    ensures var f := queue[0].file;
      var later := answers + [Answer(queue[0].offset, queue[0].len, crc)];
      && (crc.Some? ==> StaysTold(w, answers, heard, queue, later, heard + [c], queue[1..]))
      && StaysTold(w, answers, heard, queue, later, heard, queue)
      && (crc.None? && !w.files[f].hasCrc ==> StaysTold(w, answers, heard, queue, later, heard, queue[1..]))
  {
    var f := queue[0].file;
    assert OwedRight(w, queue[0]) && Queued(queue, f) && !HeardOf(heard, f);
    forall j: nat
      ensures HeardOf(heard + [c], j) <==> HeardOf(heard, j) || f == j
      ensures Queued(queue[1..], j) <==> Queued(queue, j) && j != f
    {
      HeardSnoc(heard, c, j);
      QueueTail(queue, j);
    }
    if crc.Some? {
      ToldOne(w, answers, heard, queue, f, crc, heard + [c], queue[1..]);
    } else if !w.files[f].hasCrc {
      ToldOne(w, answers, heard, queue, f, crc, heard, queue[1..]);
    }
    ToldOne(w, answers, heard, queue, f, crc, heard, queue);
  }

  /** What holds of the account before holds of it after. */
  ghost predicate Carried(w: Folder, answers: seq<Answer>, heard: seq<Completion>, queue: seq<Owed>,
                          later: seq<Answer>, now: seq<Completion>, rest: seq<Owed>, k: nat) {
    && answers <= later && heard <= now
    && Ordered(w, later, now, rest, k)
    && NoneDropped(w, answers, queue, later, rest)
    && StaysTold(w, answers, heard, queue, later, now, rest)
  }

  /** The coder was asked for the front's range. */
  function AskedFront(answers: seq<Answer>, queue: seq<Owed>, crc: Option<nat>): (later: seq<Answer>)
    requires queue != []
  {
    answers + [Answer(queue[0].offset, queue[0].len, crc)]
  }

  lemma AskedIsAnswered(w: Folder, answers: seq<Answer>, heard: seq<Completion>, queue: seq<Owed>, k: nat, crc: Option<nat>)
    requires Ordered(w, answers, heard, queue, k) && queue != []
    ensures var later := AskedFront(answers, queue, crc);
      answers <= later && Answered(later, w, queue[0].file, crc)
  {
    assert OwedRight(w, queue[0]);
    assert AskedFront(answers, queue, crc)[|answers|] == Answer(queue[0].offset, queue[0].len, crc);
  }

  /** The front has its checksum: the hook hears. */
  lemma FrontGiven(w: Folder, answers: seq<Answer>, heard: seq<Completion>, queue: seq<Owed>, k: nat, crc: nat)
    requires Ordered(w, answers, heard, queue, k) && queue != [] && queue[0].file < |w.files|
    requires w.files[queue[0].file].hasCrc ==> crc == w.files[queue[0].file].crc
    ensures var o := queue[0];
      Carried(w, answers, heard, queue, AskedFront(answers, queue, Some(crc)),
              heard + [Completion(o.file, o.subStream, o.offset, o.len, crc)], queue[1..], k)
  {
    var later := AskedFront(answers, queue, Some(crc));
    var c := Completion(queue[0].file, queue[0].subStream, queue[0].offset, queue[0].len, crc);
    AskedIsAnswered(w, answers, heard, queue, k, Some(crc));
    OrderedLater(w, answers, later, heard, queue, k);
    FrontTold(w, answers, heard, queue, k, Some(crc), c);
    FrontSettled(w, later, queue);
    FrontHeard(w, later, heard, queue, k, crc);
  }

  /** The front waits on. */
  lemma FrontWaits(w: Folder, answers: seq<Answer>, heard: seq<Completion>, queue: seq<Owed>, k: nat)
    requires Ordered(w, answers, heard, queue, k) && queue != []
    ensures Carried(w, answers, heard, queue, AskedFront(answers, queue, None), heard, queue, k)
  {
    AskedIsAnswered(w, answers, heard, queue, k, None);
    OrderedLater(w, answers, AskedFront(answers, queue, None), heard, queue, k);
    FrontTold(w, answers, heard, queue, k, None, Completion(queue[0].file, 0, 0, 0, 0));
  }

  /** The front never has a checksum, and needs none. */
  lemma FrontLeft(w: Folder, answers: seq<Answer>, heard: seq<Completion>, queue: seq<Owed>, k: nat)
    requires Ordered(w, answers, heard, queue, k) && queue != []
    requires queue[0].file < |w.files| && !w.files[queue[0].file].hasCrc
    ensures Carried(w, answers, heard, queue, AskedFront(answers, queue, None), heard, queue[1..], k)
  {
    var later := AskedFront(answers, queue, None);
    AskedIsAnswered(w, answers, heard, queue, k, None);
    OrderedLater(w, answers, later, heard, queue, k);
    FrontTold(w, answers, heard, queue, k, None, Completion(queue[0].file, 0, 0, 0, 0));
    FrontSettled(w, later, queue);
  }

  /** The coder has no checksum for the front of the queue, which has one to be compared with. */
  ghost predicate FrontUnanswered(w: Folder, answers: seq<Answer>, queue: seq<Owed>) {
    && queue != [] && queue[0].file < |w.files| && w.files[queue[0].file].hasCrc && Answered(answers, w, queue[0].file, None)
  }

  class OwedCompletions {
    const w: Folder
    const coder: Coder
    var queue: seq<Owed>
    var heard: seq<Completion>

    constructor (w: Folder, coder: Coder)
      ensures this.w == w && this.coder == coder && queue == [] && heard == []
    {
      this.w, this.coder, queue, heard := w, coder, [], [];
    }

    ghost predicate Valid(k: nat)
      reads this, coder
    {
      Ordered(w, coder.answers, heard, queue, k)
    }

    /** The front of the queue compared and completed; `stuck` when its checksum is still to come. */
    method SettleFront(atEnd: bool, ghost k: nat) returns (outcome: Option<Outcome>, stuck: bool)
      requires Valid(k) && queue != []
      modifies this, coder
      ensures Valid(k) && old(coder.answers) <= coder.answers && old(heard) <= heard
      ensures outcome.None? && !stuck ==> queue == old(queue[1..])
      ensures stuck ==> !atEnd && queue == old(queue)
      ensures outcome.None? ==> NoneDropped(w, old(coder.answers), old(queue), coder.answers, queue)
      ensures outcome.None? ==> StaysTold(w, old(coder.answers), old(heard), old(queue), coder.answers, heard, queue)
      ensures outcome in {None, Some(Mismatch), Some(Unverified)}
      ensures outcome == Some(Mismatch) ==> Disagreed(coder.answers, w)
      ensures outcome == Some(Unverified) ==> atEnd && FrontUnanswered(w, coder.answers, queue)
      ensures forall o :: o in queue ==> o in old(queue)
    {
      outcome, stuck := None, false;
      var next := queue[0];
      var crc := coder.Folded(next.offset, next.len);
      AskedIsAnswered(w, old(coder.answers), heard, queue, k, crc);
      OrderedLater(w, old(coder.answers), coder.answers, heard, queue, k);
      if crc.Some? {
        if w.files[next.file].hasCrc && crc.value != w.files[next.file].crc {
          return Some(Mismatch), false;
        }
        FrontGiven(w, old(coder.answers), heard, queue, k, crc.value);
        heard := heard + [Completion(next.file, next.subStream, next.offset, next.len, crc.value)];
      } else if !atEnd {
        FrontWaits(w, old(coder.answers), heard, queue, k);
        return None, true;
      } else if w.files[next.file].hasCrc {
        return Some(Unverified), false;
      } else {
        FrontLeft(w, old(coder.answers), heard, queue, k);
      }
      queue := queue[1..];
    }

    /**
     Compares and completes from the front of the queue, up to the first file
     still without a checksum; at the end of the stream there is no later.
     */
    method Settle(atEnd: bool, ghost k: nat) returns (outcome: Option<Outcome>)
      requires Valid(k)
      modifies this, coder
      ensures Valid(k) && old(coder.answers) <= coder.answers && old(heard) <= heard
      ensures outcome in {None, Some(Mismatch), Some(Unverified)}
      ensures outcome.None? && atEnd ==> queue == []
      ensures outcome.None? ==> NoneDropped(w, old(coder.answers), old(queue), coder.answers, queue)
      ensures outcome.None? ==> StaysTold(w, old(coder.answers), old(heard), old(queue), coder.answers, heard, queue)
      ensures outcome == Some(Mismatch) ==> Disagreed(coder.answers, w)
      ensures outcome == Some(Unverified) ==> atEnd && FrontUnanswered(w, coder.answers, queue)
      ensures forall o :: o in queue ==> o in old(queue)
    {
      outcome := None;
      while queue != []
        invariant outcome.None? && Valid(k) && old(coder.answers) <= coder.answers && old(heard) <= heard
        invariant NoneDropped(w, old(coder.answers), old(queue), coder.answers, queue)
        invariant StaysTold(w, old(coder.answers), old(heard), old(queue), coder.answers, heard, queue)
        invariant forall o :: o in queue ==> o in old(queue)
        decreases |queue|
      {
        var stuck;
        outcome, stuck := SettleFront(atEnd, k);
        if outcome.Some? || stuck {
          return;
        }
      }
    }
  }

  ghost predicate InFull(w: Folder, taken: seq<nat>, j: nat) {
    j < |taken| <= |w.files| && Sized(w.files[j]) && w.files[j].hasCrc && taken[j] == w.files[j].size
  }

  /** Every file handed over in full has been compared, or is owed its comparison. */
  ghost predicate AllHeld(w: Folder, answers: seq<Answer>, queue: seq<Owed>, taken: seq<nat>) {
    forall j: nat :: InFull(w, taken, j) ==> Vouched(answers, w, j) || Queued(queue, j)
  }

  lemma StillHeld(w: Folder, answers: seq<Answer>, queue: seq<Owed>, later: seq<Answer>, rest: seq<Owed>, taken: seq<nat>)
    requires AllHeld(w, answers, queue, taken) && NoneDropped(w, answers, queue, later, rest)
    ensures AllHeld(w, later, rest, taken)
  {
    forall j: nat | InFull(w, taken, j) ensures Vouched(later, w, j) || Queued(rest, j) {
      assert Vouched(answers, w, j) || Queued(queue, j);
    }
  }

  lemma OneMoreHeld(w: Folder, answers: seq<Answer>, queue: seq<Owed>, taken: seq<nat>, took: nat)
    requires AllHeld(w, answers, queue, taken) && |taken| < |w.files|
    requires var f := w.files[|taken|];
      Sized(f) && f.hasCrc && took == f.size ==> Vouched(answers, w, |taken|) || Queued(queue, |taken|)
    ensures AllHeld(w, answers, queue, taken + [took])
  {
    forall j: nat | InFull(w, taken + [took], j) ensures Vouched(answers, w, j) || Queued(queue, j) {
      assert j < |taken| ==> InFull(w, taken, j);
    }
  }

  /** Of every file handed over it is settled whether the hook hears, and of one handed over in full it does. */
  ghost predicate AllTold(w: Folder, answers: seq<Answer>, heard: seq<Completion>, queue: seq<Owed>, taken: seq<nat>) {
    forall j: nat :: j < |taken| <= |w.files| && Sized(w.files[j]) ==>
      && Told(w, answers, heard, queue, j)
      && (InFull(w, taken, j) ==> Queued(queue, j) || HeardOf(heard, j))
  }

  /** What waits is to be compared. */
  ghost predicate AllComparable(w: Folder, answers: seq<Answer>, queue: seq<Owed>, taken: seq<nat>) {
    forall o :: o in queue ==> Comparable(answers, w, taken, o.file)
  }

  lemma StillComparable(w: Folder, answers: seq<Answer>, queue: seq<Owed>, taken: seq<nat>, later: seq<Answer>, rest: seq<Owed>)
    requires AllComparable(w, answers, queue, taken) && answers <= later && forall o :: o in rest ==> o in queue
    ensures AllComparable(w, later, rest, taken)
  {
    assert forall i :: 0 <= i < |answers| ==> answers[i] == later[i];
    forall o | o in rest ensures Comparable(later, w, taken, o.file) {
      assert Comparable(answers, w, taken, o.file);
      if HadAnswer(answers, w, o.file) {
        var c: nat :| Answered(answers, w, o.file, Some(c));
        assert Answered(later, w, o.file, Some(c));
      }
    }
  }

  lemma ComparableLonger(w: Folder, answers: seq<Answer>, queue: seq<Owed>, taken: seq<nat>, took: nat)
    requires AllComparable(w, answers, queue, taken)
    ensures AllComparable(w, answers, queue, taken + [took])
  {
    forall o | o in queue ensures Comparable(answers, w, taken + [took], o.file) {
      assert Comparable(answers, w, taken, o.file);
    }
  }

  lemma OneMoreComparable(w: Folder, answers: seq<Answer>, queue: seq<Owed>, taken: seq<nat>, o: Owed, check: Option<nat>)
    requires AllComparable(w, answers, queue, taken) && o.file < |taken| && o.file < |w.files| && Answered(answers, w, o.file, check)
    requires check.Some? || (w.files[o.file].hasCrc && taken[o.file] == w.files[o.file].size)
    ensures AllComparable(w, answers, queue + [o], taken)
  {
    if check.Some? {
      assert Answered(answers, w, o.file, Some(check.value));
    }
  }

  lemma FrontIsUnanswered(w: Folder, answers: seq<Answer>, queue: seq<Owed>, taken: seq<nat>)
    requires FrontUnanswered(w, answers, queue) && AllComparable(w, answers, queue, taken)
    ensures Unanswered(answers, w, taken)
  {
    assert queue[0] in queue;
  }

  lemma StillTold(w: Folder, answers: seq<Answer>, heard: seq<Completion>, queue: seq<Owed>,
                  later: seq<Answer>, now: seq<Completion>, rest: seq<Owed>, taken: seq<nat>)
    requires AllTold(w, answers, heard, queue, taken) && StaysTold(w, answers, heard, queue, later, now, rest)
    ensures AllTold(w, later, now, rest, taken)
  {
  }

  lemma OneMoreTold(w: Folder, answers: seq<Answer>, heard: seq<Completion>, queue: seq<Owed>, taken: seq<nat>, took: nat)
    requires AllTold(w, answers, heard, queue, taken) && |taken| < |w.files|
    requires var k := |taken|;
      Sized(w.files[k]) ==>
        && Told(w, answers, heard, queue, k)
        && (w.files[k].hasCrc && took == w.files[k].size ==> Queued(queue, k) || HeardOf(heard, k))
    ensures AllTold(w, answers, heard, queue, taken + [took])
  {
    forall j: nat | j < |taken + [took]| && Sized(w.files[j])
      ensures Told(w, answers, heard, queue, j)
      ensures InFull(w, taken + [took], j) ==> Queued(queue, j) || HeardOf(heard, j)
    {
      assert j < |taken| && InFull(w, taken + [took], j) ==> InFull(w, taken, j);
    }
  }

  /** A file asked for when the callback is done with it: heard of now, waiting, or left alone. */
  lemma EndedTold(w: Folder, answers: seq<Answer>, heard: seq<Completion>, queue: seq<Owed>, taken: seq<nat>, took: nat,
                  check: Option<nat>, now: seq<Completion>, rest: seq<Owed>)
    requires |taken| < |w.files| && Sized(w.files[|taken|]) && Ordered(w, answers, heard, queue, |taken|)
    requires AllTold(w, answers, heard, queue, taken)
    requires
      || (check.Some? && rest == queue && |now| == |heard| + 1 && now[..|heard|] == heard && now[|heard|].file == |taken|)
      || (now == heard && |rest| == |queue| + 1 && rest[..|queue|] == queue && rest[|queue|].file == |taken|)
      || (now == heard && rest == queue && check.None? && !(took == w.files[|taken|].size && w.files[|taken|].hasCrc))
    ensures AllTold(w, answers + [Answer(Start(w.files, |taken|), w.files[|taken|].size, check)], now, rest, taken + [took])
  {
    var k := |taken|;
    var later := answers + [Answer(Start(w.files, k), w.files[k].size, check)];
    assert !Queued(queue, k) && !HeardOf(heard, k);
    forall j: nat
      ensures HeardOf(now, j) <==> HeardOf(heard, j) || (|now| > |heard| && k == j)
      ensures Queued(rest, j) <==> Queued(queue, j) || (|rest| > |queue| && k == j)
    {
      if |now| > |heard| {
        assert now == heard + [now[|heard|]];
        HeardSnoc(heard, now[|heard|], j);
      } else if |rest| > |queue| {
        assert rest == queue + [rest[|queue|]];
        QueueSnoc(queue, rest[|queue|], j);
      }
    }
    AskedOne(w, answers, k, check, k);
    ToldOne(w, answers, heard, queue, k, check, now, rest);
    StillTold(w, answers, heard, queue, later, now, rest, taken);
    OneMoreTold(w, later, now, rest, taken, took);
  }

  /** What a callback that went on left unread of a file was read for it, so that the next file begins at its start. */
  ghost predicate Aligned(w: Folder, taken: seq<nat>, upTo: nat) {
    && |taken| <= |w.files|
    && forall i, j :: 0 <= i < j < |w.files| && i < upTo && i < |taken| && Sized(w.files[i]) && Sized(w.files[j]) ==>
         taken[i] == w.files[i].size
  }

  lemma AlignedNext(w: Folder, taken: seq<nat>, took: nat)
    requires Aligned(w, taken, |taken|) && |taken| < |w.files|
    ensures Aligned(w, taken + [took], |taken|)
    ensures (Sized(w.files[|taken|]) && LaterSized(w.files, |taken|) ==> took == w.files[|taken|].size) ==>
      Aligned(w, taken + [took], |taken| + 1)
  {
  }

  /** The callback over a file with bytes: how much it took, whether it goes on, and what it failed with. */
  method Callback(f: File, drain: bool) returns (took: nat, goOn: bool, failure: Option<Outcome>)
    ensures took <= f.size && failure in {None, Some(CallersError), Some(BlockFault)}
    ensures failure.None? && goOn && drain ==> took == f.size
  {
    var faulted: bool := *;
    took :| 0 <= took <= f.size;
    goOn := *;
    failure := None;
    if * {
      return took, false, Some(if faulted then BlockFault else CallersError);
    }
    if goOn && drain {
      if * {
        return took, false, Some(BlockFault);
      }
      took := f.size;
    }
    if goOn && faulted {
      failure := Some(BlockFault);
    }
  }

  /** After the callback: this file compared now, or queued, or left alone when there is nothing to compare. */
  method FileEnded(owed: OwedCompletions, k: nat, offset: nat, subStream: nat, took: nat, ghost taken: seq<nat>)
    returns (outcome: Option<Outcome>)
    requires k == |taken| < |owed.w.files| && Sized(owed.w.files[k]) && took <= owed.w.files[k].size
    requires offset == Start(owed.w.files, k) && subStream == SubStreamAt(owed.w.files, k)
    requires owed.Valid(k) && AllHeld(owed.w, owed.coder.answers, owed.queue, taken)
    requires AllTold(owed.w, owed.coder.answers, owed.heard, owed.queue, taken)
    requires AllComparable(owed.w, owed.coder.answers, owed.queue, taken)
    modifies owed, owed.coder
    ensures old(owed.coder.answers) <= owed.coder.answers
    ensures outcome in {None, Some(Mismatch)}
    ensures outcome.None? ==> AllComparable(owed.w, owed.coder.answers, owed.queue, taken + [took])
    ensures outcome.None? ==> owed.Valid(k + 1) && AllHeld(owed.w, owed.coder.answers, owed.queue, taken + [took])
    ensures outcome.None? ==> AllTold(owed.w, owed.coder.answers, owed.heard, owed.queue, taken + [took])
    ensures outcome.Some? ==> Disagreed(owed.coder.answers, owed.w)
    ensures HeardRight(owed.w, owed.coder.answers, owed.heard)
  {
    var w := owed.w;
    var f := w.files[k];
    outcome := owed.Settle(false, k);
    if outcome.Some? {
      return;
    }
    StillHeld(w, old(owed.coder.answers), old(owed.queue), owed.coder.answers, owed.queue, taken);
    StillTold(w, old(owed.coder.answers), old(owed.heard), old(owed.queue), owed.coder.answers, owed.heard, owed.queue, taken);
    ghost var before, heard, queue := owed.coder.answers, owed.heard, owed.queue;
    var check := owed.coder.Folded(offset, f.size);
    OrderedLater(w, before, owed.coder.answers, owed.heard, owed.queue, k);
    StillHeld(w, before, owed.queue, owed.coder.answers, owed.queue, taken);
    StillComparable(w, old(owed.coder.answers), old(owed.queue), taken, owed.coder.answers, owed.queue);
    ComparableLonger(w, owed.coder.answers, owed.queue, taken, took);
    assert Answered(owed.coder.answers, w, k, check);
    if check.Some? && owed.queue == [] {
      if f.hasCrc && check.value != f.crc {
        return Some(Mismatch);
      }
      var c := Completion(k, subStream, offset, f.size, check.value);
      NextHeard(w, owed.coder.answers, owed.heard, c);
      owed.heard := owed.heard + [c];
    } else if check.Some? || (took == f.size && f.hasCrc) {
      var o := Owed(k, subStream, offset, f.size);
      NextQueued(w, owed.coder.answers, owed.heard, owed.queue, o);
      StillHeld(w, owed.coder.answers, owed.queue, owed.coder.answers, owed.queue + [o], taken);
      OneMoreComparable(w, owed.coder.answers, owed.queue, taken + [took], o, check);
      owed.queue := owed.queue + [o];
    }
    OneMoreHeld(w, owed.coder.answers, owed.queue, taken, took);
    EndedTold(w, before, heard, queue, taken, took, check, owed.heard, owed.queue);
  }

  /** The rest of the stream is read, and nothing may be owed after it. */
  method EndStream(owed: OwedCompletions, k: nat, ghost taken: seq<nat>) returns (outcome: Option<Outcome>)
    requires owed.Valid(k) && AllHeld(owed.w, owed.coder.answers, owed.queue, taken)
    requires AllTold(owed.w, owed.coder.answers, owed.heard, owed.queue, taken)
    requires AllComparable(owed.w, owed.coder.answers, owed.queue, taken)
    modifies owed, owed.coder
    ensures old(owed.coder.answers) <= owed.coder.answers && owed.Valid(k)
    ensures outcome.None? ==> owed.queue == [] && AllHeld(owed.w, owed.coder.answers, owed.queue, taken)
    ensures outcome.None? ==> AllTold(owed.w, owed.coder.answers, owed.heard, owed.queue, taken)
    ensures outcome == Some(Mismatch) ==> Disagreed(owed.coder.answers, owed.w)
    ensures outcome == Some(Unverified) ==> Unanswered(owed.coder.answers, owed.w, taken)
    ensures outcome in {None, Some(Mismatch), Some(Unverified), Some(BlockFault)}
  {
    if * {
      return Some(BlockFault);
    }
    outcome := owed.Settle(true, k);
    StillComparable(owed.w, old(owed.coder.answers), old(owed.queue), taken, owed.coder.answers, owed.queue);
    if outcome == Some(Unverified) {
      FrontIsUnanswered(owed.w, owed.coder.answers, owed.queue, taken);
    }
    if outcome.None? {
      StillHeld(owed.w, old(owed.coder.answers), old(owed.queue), owed.coder.answers, owed.queue, taken);
      StillTold(owed.w, old(owed.coder.answers), old(owed.heard), old(owed.queue), owed.coder.answers, owed.heard, owed.queue, taken);
    }
  }

  /** The block's own checksum was asked for; if the coder had it, it agreed. */
  ghost predicate BlockCompared(asked: seq<Answer>, w: Folder, answers: seq<Answer>) {
    answers in {asked + [Answer(0, w.unpackSize, None)], asked + [Answer(0, w.unpackSize, Some(w.crc))]}
  }

  /** The block's own checksum, owed when all of it was read. */
  method CheckBlock(w: Folder, coder: Coder, readInFull: bool) returns (outcome: Option<Outcome>)
    modifies coder
    ensures old(coder.answers) <= coder.answers && AskedThenBlock(old(coder.answers), w, coder.answers)
    ensures outcome.None? && w.hasCrc && readInFull ==> Answer(0, w.unpackSize, Some(w.crc)) in coder.answers
    ensures outcome == Some(Mismatch) ==> Disagreed(coder.answers, w)
    ensures outcome == Some(Unverified) ==> readInFull && w.hasCrc && Answer(0, w.unpackSize, None) in coder.answers
    ensures outcome.None? && w.hasCrc ==> BlockCompared(old(coder.answers), w, coder.answers)
    ensures outcome in {None, Some(Mismatch), Some(Unverified)}
  {
    outcome := None;
    if w.hasCrc {
      var check := coder.Folded(0, w.unpackSize);
      assert coder.answers[|coder.answers| - 1] == Answer(0, w.unpackSize, check);
      if check.Some? && check.value != w.crc {
        return Some(Mismatch);
      }
      if check.None? && readInFull {
        return Some(Unverified);
      }
    }
  }

  /** What the walk has settled and what it still owes, before file `k`. */
  ghost predicate Walking(owed: OwedCompletions, w: Folder, coder: Coder, k: nat, taken: seq<nat>)
    reads owed, coder
  {
    && owed.w == w && owed.coder == coder && k == |taken| <= |w.files|
    && owed.Valid(k) && AllHeld(w, coder.answers, owed.queue, taken)
    && AllTold(w, coder.answers, owed.heard, owed.queue, taken)
    && AllComparable(w, coder.answers, owed.queue, taken)
  }

  /** One file of the walk; `goOn` is the callback's answer. */
  method WalkFile(owed: OwedCompletions, w: Folder, coder: Coder, k: nat, offset: nat, subStream: nat, consumed: nat, taken: seq<nat>)
    returns (outcome: Option<Outcome>, took: nat, goOn: bool, ended: bool)
    requires Walking(owed, w, coder, k, taken) && k < |w.files| && Sized(w.files[k])
    requires offset == Start(w.files, k) && subStream == SubStreamAt(w.files, k)
    modifies owed, coder
    ensures old(coder.answers) <= coder.answers && HeardRight(w, coder.answers, owed.heard)
    ensures outcome.None? ==> Walking(owed, w, coder, k + 1, taken + [took])
    ensures outcome.None? && goOn && LaterSized(w.files, k) ==> took == w.files[k].size
    ensures outcome.None? && (ended || consumed + took == w.unpackSize) ==> owed.queue == []
    ensures outcome.Some? ==> !outcome.value.Ok?
    ensures outcome == Some(Mismatch) ==> Disagreed(coder.answers, w)
    ensures outcome == Some(Unverified) ==> Unanswered(coder.answers, w, taken + [took])
  {
    ended := false;
    took, goOn, outcome := Callback(w.files[k], LaterSized(w.files, k));
    if outcome.Some? {
      return;
    }
    outcome := FileEnded(owed, k, offset, subStream, took, taken);
    if outcome.Some? {
      return;
    }
    if owed.queue != [] && consumed + took == w.unpackSize {
      outcome := EndStream(owed, k + 1, taken + [took]);
      ended := true;
    }
  }

  /** The next file, with bytes or without. */
  method WalkNext(owed: OwedCompletions, w: Folder, coder: Coder, k: nat, offset: nat, subStream: nat, consumed: nat, taken: seq<nat>)
    returns (outcome: Option<Outcome>, took: nat, goOn: bool, ended: bool)
    requires Walking(owed, w, coder, k, taken) && k < |w.files| && (consumed == w.unpackSize ==> owed.queue == [])
    requires offset == Start(w.files, k) && subStream == SubStreamAt(w.files, k)
    modifies owed, coder
    ensures old(coder.answers) <= coder.answers && HeardRight(w, coder.answers, owed.heard)
    ensures outcome.None? ==> Walking(owed, w, coder, k + 1, taken + [took])
    ensures outcome.None? && consumed + took == w.unpackSize ==> owed.queue == []
    ensures outcome.None? && goOn && Sized(w.files[k]) && LaterSized(w.files, k) ==> took == w.files[k].size
    ensures outcome.Some? ==> Explained(w, coder.answers, outcome.value, taken + [took])
  {
    if Sized(w.files[k]) {
      outcome, took, goOn, ended := WalkFile(owed, w, coder, k, offset, subStream, consumed, taken);
    } else {
      outcome, goOn := WalkEmpty(w, k, coder.answers);
      took, ended := 0, false;
      OneMoreHeld(w, coder.answers, owed.queue, taken, 0);
      OneMoreTold(w, coder.answers, owed.heard, owed.queue, taken, 0);
      ComparableLonger(w, coder.answers, owed.queue, taken, 0);
    }
  }

  /** What a walk that did not end well says of the checksums. */
  ghost predicate Explained(w: Folder, answers: seq<Answer>, outcome: Outcome, taken: seq<nat>) {
    && !outcome.Ok?
    && (outcome.Mismatch? ==> Disagreed(answers, w))
    && (outcome.Unverified? ==> Unanswered(answers, w, taken))
  }

  /** The files, until the callback stops or something fails; nothing waits past the last byte of the stream, not even for files without bytes. */
  method WalkFiles(owed: OwedCompletions, w: Folder, coder: Coder)
    returns (outcome: Option<Outcome>, taken: seq<nat>, consumed: nat, finished: bool, streamEnded: bool)
    requires Walking(owed, w, coder, 0, []) && owed.queue == []
    modifies owed, coder
    ensures HeardRight(w, coder.answers, owed.heard)
    ensures outcome.None? ==> Walking(owed, w, coder, |taken|, taken) && consumed == Sum(taken)
    ensures outcome.None? && finished ==> |taken| == |w.files|
    ensures outcome.None? && consumed == w.unpackSize ==> owed.queue == []
    ensures outcome.None? ==> Aligned(w, taken, |taken| - if finished || taken == [] then 0 else 1)
    ensures outcome.Some? ==> Explained(w, coder.answers, outcome.value, taken)
  {
    outcome, taken, consumed, finished, streamEnded := None, [], 0, true, false;
    var offset, subStream, k := 0, 0, 0;
    while finished && k < |w.files|
      invariant outcome.None? && Walking(owed, w, coder, k, taken)
      invariant offset == Start(w.files, k) && subStream == SubStreamAt(w.files, k) && consumed == Sum(taken)
      invariant consumed == w.unpackSize ==> owed.queue == []
      invariant (!finished ==> k > 0) && Aligned(w, taken, if finished then k else k - 1)
      decreases |w.files| - k
    {
      var took, ended;
      outcome, took, finished, ended := WalkNext(owed, w, coder, k, offset, subStream, consumed, taken);
      if outcome.Some? {
        taken := taken + [took];
        return;
      }
      AlignedNext(w, taken, took);
      streamEnded := streamEnded || ended;
      offset := offset + if Sized(w.files[k]) then w.files[k].size else 0;
      subStream := subStream + if w.files[k].hasStream then 1 else 0;
      taken, consumed, k := taken + [took], consumed + took, k + 1;
    }
  }

  /** Nothing was asked for after the files but the block's own checksum. */
  ghost predicate AskedThenBlock(asked: seq<Answer>, w: Folder, answers: seq<Answer>) {
    answers == asked || exists crc :: answers == asked + [Answer(0, w.unpackSize, crc)]
  }

  /**
   The hook heard of a file with bytes exactly when the coder had its checksum when
   it was last asked; and of every file with a CRC that was handed over in full.
   */
  ghost predicate HeardExactly(w: Folder, asked: seq<Answer>, heard: seq<Completion>, taken: seq<nat>) {
    && |taken| <= |w.files|
    && forall j: nat :: j < |taken| && w.files[j].hasStream && w.files[j].size > 0 ==>
         && (HeardOf(heard, j) <==> LastAnswer(asked, Start(w.files, j), w.files[j].size).Some?)
         && (w.files[j].hasCrc && taken[j] == w.files[j].size ==> HeardOf(heard, j))
  }

  lemma ToldExactly(w: Folder, asked: seq<Answer>, heard: seq<Completion>, taken: seq<nat>)
    requires AllTold(w, asked, heard, [], taken) && |taken| <= |w.files|
    ensures HeardExactly(w, asked, heard, taken)
  {
    forall j: nat | j < |taken| && Sized(w.files[j])
      ensures HeardOf(heard, j) <==> Gave(asked, w, j)
      ensures InFull(w, taken, j) ==> HeardOf(heard, j)
    {
      assert !Queued([], j) && Told(w, asked, heard, [], j);
    }
  }

  /** What is still owed once the callbacks are done: the queue, the stream's end, the block's own checksum. */
  method WalkEnd(owed: OwedCompletions, w: Folder, coder: Coder, taken: seq<nat>, consumed: nat, finished: bool, ended: bool)
    returns (outcome: Outcome, ghost asked: seq<Answer>)
    requires Walking(owed, w, coder, |taken|, taken) && consumed == Sum(taken)
    modifies owed, coder
    ensures outcome.Ok? && w.hasCrc && (finished || (w.unpackSize != 0 && consumed == w.unpackSize)) ==>
      BlockCompared(asked, w, coder.answers)
    ensures outcome.Ok? ==> AskedThenBlock(asked, w, coder.answers) && HeardExactly(w, asked, owed.heard, taken)
    ensures HeardRight(w, coder.answers, owed.heard)
    ensures outcome.Ok? ==> outcome == Ok(finished, consumed == w.unpackSize)
    ensures outcome.Ok? ==> forall j: nat :: InFull(w, taken, j) ==> Vouched(coder.answers, w, j)
    ensures outcome.Ok? && w.hasCrc && w.unpackSize != 0 && consumed == w.unpackSize ==>
      Answer(0, w.unpackSize, Some(w.crc)) in coder.answers
    ensures !outcome.Ok? ==> Explained(w, coder.answers, outcome, taken)
  {
    var streamEnded := ended;
    if owed.queue != [] {
      var next := EndStream(owed, |taken|, taken);
      streamEnded := true;
      if next.Some? {
        return next.value, coder.answers;
      }
    }
    var readInFull := w.unpackSize != 0 && consumed == w.unpackSize;
    if readInFull && !streamEnded {
      if * {
        return BlockFault, coder.answers;
      }
    }
    outcome := Ok(finished, consumed == w.unpackSize);
    ghost var before := coder.answers;
    asked := before;
    ToldExactly(w, asked, owed.heard, taken);
    if finished || readInFull {
      var verdict := CheckBlock(w, coder, readInFull);
      if verdict.Some? {
        outcome := verdict.value;
      }
    }
    OrderedLater(w, before, coder.answers, owed.heard, [], |taken|);
    StillHeld(w, before, [], coder.answers, [], taken);
    SettledNow(w, coder.answers, taken);
  }

  /**
   The walk over a block's files. `Ok` means that every file with a CRC handed
   over in full was compared with the checksum the coder took and agreed, and
   so was the block when all of it was read. Completions are heard once at most
   for each file, in file order, with the checksum compared; and on `Ok` each file
   is heard of exactly when the coder, last asked for it, had its checksum.
   */
  method WalkEntries(w: Folder, coder: Coder)
    returns (outcome: Outcome, taken: seq<nat>, heard: seq<Completion>, ghost asked: seq<Answer>)
    requires w.verify
    modifies coder
    ensures outcome.Ok? ==> AskedThenBlock(asked, w, coder.answers) && HeardExactly(w, asked, heard, taken)
    ensures outcome.Ok? && w.hasCrc && (outcome.finished || (w.unpackSize != 0 && outcome.readInFull)) ==>
      BlockCompared(asked, w, coder.answers)
    ensures outcome.Ok? ==> |taken| <= |w.files| && forall j: nat :: InFull(w, taken, j) ==> Vouched(coder.answers, w, j)
    ensures outcome.Ok? && outcome.finished ==> |taken| == |w.files|
    ensures outcome.Ok? ==> Aligned(w, taken, |taken| - if outcome.finished || taken == [] then 0 else 1)
    ensures outcome.Ok? ==> (outcome.readInFull <==> Sum(taken) == w.unpackSize)
    ensures outcome.Ok? && w.hasCrc && w.unpackSize != 0 && outcome.readInFull ==>
      Answer(0, w.unpackSize, Some(w.crc)) in coder.answers
    ensures HeardRight(w, coder.answers, heard)
    ensures outcome.Mismatch? ==> Disagreed(coder.answers, w)
    ensures outcome.Unverified? ==> Unanswered(coder.answers, w, taken)
  {
    var owed := new OwedCompletions(w, coder);
    var next, consumed, finished, ended;
    next, taken, consumed, finished, ended := WalkFiles(owed, w, coder);
    if next.Some? {
      return next.value, taken, owed.heard, coder.answers;
    }
    outcome, asked := WalkEnd(owed, w, coder, taken, consumed, finished, ended);
    heard := owed.heard;
  }

  /** A file without bytes: its checksum must be that of nothing, before the callback sees it. */
  method WalkEmpty(w: Folder, k: nat, ghost answers: seq<Answer>) returns (outcome: Option<Outcome>, goOn: bool)
    requires k < |w.files| && !Sized(w.files[k])
    ensures outcome in {None, Some(Mismatch), Some(CallersError)}
    ensures outcome == Some(Mismatch) ==> Disagreed(answers, w)
  {
    goOn := *;
    if EmptyMismatch(w, w.files[k]) {
      return Some(Mismatch), false;
    }
    if * {
      return Some(CallersError), false;
    }
    outcome := None;
  }

  lemma SettledNow(w: Folder, answers: seq<Answer>, taken: seq<nat>)
    requires AllHeld(w, answers, [], taken)
    ensures forall j: nat :: InFull(w, taken, j) ==> Vouched(answers, w, j)
  {
    forall j: nat | InFull(w, taken, j) ensures Vouched(answers, w, j) {
      assert !Queued([], j);
    }
  }
}
