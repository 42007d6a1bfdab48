/**
 Folders decoded by the fan-out's workers: what a job's queue gives the caller,
 replayed as its messages, is a delivery of the folder, in whichever schedule.
 */
module FolderFanOut {
  import opened Common
  import opened FolderFiles
  import opened FolderVouching
  import opened FolderReplay
  import opened FolderDelivery
  import FanOut
  import FanOutMonitor
  import FanOutTheorems

  /** A queue's messages, read as those of a folder's worker. */
  function Means(decode: FanOutMonitor.Payload -> Message, queued: seq<FanOutMonitor.Message>): (m: seq<Message>)
    ensures |m| == |queued| && forall i :: 0 <= i < |m| ==> m[i] == decode(queued[i].payload)
  {
    seq(|queued|, i requires 0 <= i < |queued| => decode(queued[i].payload))
  }

  /** Job `job` is a folder whose worker has queued no more than the messages it was decoded to. */
  ghost predicate Carries(decode: FanOutMonitor.Payload -> Message, a: FanOut.System, job: nat, messages: seq<Message>) {
    job < |a.sent| && Means(decode, a.sent[job]) <= messages
  }

  /** The messages heard so far settle the replay only as all of them would. */
  lemma PrefixSettles(sum: Checksum, w: Folder, d: Decoded, raises: bool, messages: seq<Message>, heard: seq<Message>)
    requires Tells(sum, w, d, messages) && heard <= messages
    ensures var st := Fold(w, raises, heard); st.ending.Some? ==> Delivered(sum, w, d, st.events, st.ending.value)
  {
    assert messages[..|heard|] == heard;
    if Fold(w, raises, heard).ending.Some? {
      FoldEnded(w, raises, messages, |heard|);
    }
  }

  /**
   In every reachable state of the fan-out, a replay of what the caller has
   received of a folder, if it has come to an end, has delivered the folder.
   Once the job is over, with its worker never cancelled, it has: the end is
   never that of a lost worker.
   */
  lemma ReplayDelivers(c: FanOutMonitor.Config, workers: nat, a: FanOut.System, job: nat,
                       decode: FanOutMonitor.Payload -> Message, sum: Checksum, w: Folder, d: Decoded, messages: seq<Message>, raises: bool)
    requires c.Valid() && FanOut.Reachable(c, workers, a) && job < c.jobs
    requires Tells(sum, w, d, messages) && Carries(decode, a, job, messages)
    ensures |a.sent| == |a.received| == c.jobs
    ensures var st := Fold(w, raises, Means(decode, a.received[job]));
      && (st.ending.Some? ==>
            Delivered(sum, w, d, st.events, st.ending.value) && Vouched(sum, w, d, st.events, st.ending.value) && !st.ending.value.Lost?)
      && (job in a.over && Means(decode, a.sent[job]) == messages ==>
            var (events, ending) := Closed(w, st); Delivered(sum, w, d, events, ending) && !ending.Lost?)
  {
    FanOutTheorems.ReceivedIsPrefixOfSent(c, workers, a, job);
    var heard := Means(decode, a.received[job]);
    assert heard <= Means(decode, a.sent[job]);
    PrefixSettles(sum, w, d, raises, messages, heard);
    DeliveredIsNotLost(sum, w, d);
    if Fold(w, raises, heard).ending.Some? {
      DeliveredIsVouched(sum, w, d, Fold(w, raises, heard).events, Fold(w, raises, heard).ending.value);
    }
  }

  lemma DeliveredIsNotLost(sum: Checksum, w: Folder, d: Decoded)
    ensures forall events, ending :: Delivered(sum, w, d, events, ending) ==> !ending.Lost?
  {
  }

  /** So a folder walked by its caller and the same folder come through the fan-out agree, unless a file straddles. */
  lemma WalkedOrFannedOut(c: FanOutMonitor.Config, workers: nat, a: FanOut.System, job: nat,
                          decode: FanOutMonitor.Payload -> Message, sum: Checksum, w: Folder, d: Decoded, messages: seq<Message>, raises: bool,
                          direct: seq<Event>, x: Ending)
    requires c.Valid() && FanOut.Reachable(c, workers, a) && job < c.jobs
    requires Tells(sum, w, d, messages) && Carries(decode, a, job, messages)
    requires NoneStraddles(w) && Delivered(sum, w, d, direct, x)
    ensures |a.received| == c.jobs
    ensures var st := Fold(w, raises, Means(decode, a.received[job]));
      st.ending.Some? ==> SameButFailed(direct, st.events) && x == st.ending.value
  {
    ReplayDelivers(c, workers, a, job, decode, sum, w, d, messages, raises);
    var st := Fold(w, raises, Means(decode, a.received[job]));
    if st.ending.Some? {
      DeliveredOneWay(sum, w, d, direct, x, st.events, st.ending.value);
    }
  }
}
