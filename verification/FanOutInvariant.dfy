/** What every reachable state of the ordered fan-out satisfies, in six groups. */
module FanOutInvariant {
  import opened Counting
  import opened FanOutMonitor
  import opened FanOut

  predicate Holds(w: Worker) {
    w.pc.Producing? || w.pc.Sending? || w.pc.AtChanged? || w.pc.Closing?
  }

  predicate Alive(w: Worker) { w.pc != Unborn && w.pc != Exited }

  predicate OnChanged(w: Worker) { w.pc.AtChanged? }

  predicate WokenForAdmission(w: Worker) { w.pc == AtAdmission(true) }

  function Weight(messages: seq<Message>): nat {
    if messages == [] then 0 else messages[0].weight + Weight(messages[1..])
  }

  lemma {:induction false} WeightAppend(messages: seq<Message>, m: Message)
    ensures Weight(messages + [m]) == Weight(messages) + m.weight
  {
    if messages == [] {
      assert [m][1..] == [];
    } else {
      assert (messages + [m])[1..] == messages[1..] + [m];
      WeightAppend(messages[1..], m);
    }
  }

  // Positions of the caller that stand for a worker it has counted but not started.
  function CountedIn(pc: CallerPc): int {
    if pc.Spawning? || pc.Refused? then 1 else 0
  }

  predicate NeverRan(w: Worker) { w == Worker(Unborn, []) }

  ghost predicate CallerPlace(c: Config, a: System) {
    match a.caller.pc
    case Counting(k) =>
      k < |a.workers| && a.s.current == 0 && !a.s.cancelled && a.over == {}
      && forall i :: k <= i < |a.workers| ==> NeverRan(a.workers[i])
    case Spawning(k) =>
      k < |a.workers| && a.s.current == 0 && !a.s.cancelled && a.over == {}
      && forall i :: k <= i < |a.workers| ==> NeverRan(a.workers[i])
    case Refused(k) =>
      k < |a.workers| && a.s.current == 0 && !a.s.cancelled && a.over == {}
      && forall i :: k <= i < |a.workers| ==> NeverRan(a.workers[i])
    case Consuming(j) => j == a.s.current < c.jobs && !a.s.cancelled
    case Receiving(j) => j == a.s.current < c.jobs && !a.s.cancelled
    case AtReady(j, _) => j == a.s.current < c.jobs && !a.s.cancelled && a.s.slots != []
    case Advancing(j, _) => j == a.s.current < c.jobs && !a.s.cancelled
    case Cancelling => true
    case Joining => a.s.cancelled || forall i :: 0 <= i < |a.workers| ==> NeverRan(a.workers[i])
    case Returned => AllGone(a)
  }

  ghost predicate Shape(c: Config, a: System) {
    && c.Valid()
    && |a.sent| == |a.received| == c.jobs
    && |a.workers| <= c.jobs
    && a.s.next <= c.jobs
    && a.s.next <= a.s.current + c.window
    && |a.s.slots| <= c.window
    && a.s.current + |a.s.slots| <= c.jobs
    && a.s.next <= a.s.current + |a.s.slots|
    && CallerPlace(c, a)
    && -1 <= a.failedAt
    && (a.failedAt >= 0 ==> a.s.cancelled && a.s.next <= a.failedAt + c.window)
  }

  ghost predicate Counts(c: Config, a: System) {
    && a.s.busy == Count(a.workers, Holds)
    && a.s.live == Count(a.workers, Alive) + CountedIn(a.caller.pc)
    && a.s.sending == Count(a.workers, OnChanged)
    && (c.paced ==> a.s.busy <= if a.widest > 1 then a.widest else 1)
  }

  /** A slot that is claimed and still open belongs to exactly one worker, and to no other job. */
  ghost predicate Owners(a: System)
    requires a.s.next <= a.s.current + |a.s.slots|
  {
    && (forall i :: 0 <= i < |a.workers| && Holds(a.workers[i]) ==>
        a.workers[i].pc.job < a.s.next
        && (a.workers[i].pc.job >= a.s.current ==> !a.s.slots[a.workers[i].pc.job - a.s.current].closed))
    && (forall i, k :: 0 <= i < k < |a.workers| && Holds(a.workers[i]) && Holds(a.workers[k]) ==>
        a.workers[i].pc.job != a.workers[k].pc.job)
    && (forall x :: 0 <= x < |a.s.slots| ==> (a.s.slots[x].claimed <==> a.s.current + x < a.s.next))
    && (forall job :: a.s.current <= job < a.s.current + |a.s.slots| && OpenSlot(a.s, job) ==> Owned(a, job))
  }

  predicate OpenSlot(s: State, job: nat)
    requires s.current <= job < s.current + |s.slots|
  {
    s.slots[job - s.current].claimed && !s.slots[job - s.current].closed
  }

  ghost predicate Owned(a: System, job: nat) {
    exists i :: 0 <= i < |a.workers| && Holds(a.workers[i]) && a.workers[i].pc.job == job
  }

  predicate SlotSound(c: Config, slot: Slot) {
    && slot.weight == Weight(slot.messages)
    && (slot.weight <= c.cap || |slot.messages| == 1)
    && (!slot.claimed ==> slot.messages == [] && !slot.closed)
  }

  ghost predicate Queues(c: Config, a: System) {
    forall x :: 0 <= x < |a.s.slots| ==> SlotSound(c, a.s.slots[x])
  }

  /** Each log against the queue of its own job: `slots[x]` is the queue of job `current + x`. */
  ghost predicate LogOk(a: System, job: nat)
    requires job < |a.sent| == |a.received|
  {
    if job < a.s.current then a.received[job] <= a.sent[job]
    else if job < a.s.current + |a.s.slots| then
      a.sent[job] == a.received[job] + a.s.slots[job - a.s.current].messages
      && (job > a.s.current ==> a.received[job] == [])
    else a.sent[job] == [] && a.received[job] == []
  }

  ghost predicate History(a: System)
    requires |a.sent| == |a.received|
  {
    && (forall job :: 0 <= job < |a.sent| ==> LogOk(a, job))
    && (forall job :: job in a.over ==>
        job < |a.sent| && job <= a.s.current
        && (job == a.s.current ==> a.s.slots != [] && Settled(a.s)))
    && (forall job :: job in a.over ==> a.received[job] == a.sent[job])
  }

  /** No message is left in the caller's queue and none will come. */
  predicate Settled(s: State)
    requires s.slots != []
  {
    s.slots[0].messages == [] && (s.slots[0].closed || (!s.slots[0].claimed && s.live == 0))
  }

  function Open(c: Config, s: State): int {
    var end := if c.jobs < s.current + c.window then c.jobs else s.current + c.window;
    if end > s.next then end - s.next else 0
  }

  ghost predicate ReadyComing(a: System) {
    exists i :: 0 <= i < |a.workers| && ReadyOne in a.workers[i].notes
  }

  ghost predicate AdmissionComing(a: System) {
    AdmissionAll in a.caller.notes || exists i :: 0 <= i < |a.workers| && AdmissionAll in a.workers[i].notes
  }

  ghost predicate SomeoneAtAdmission(a: System) {
    exists i :: 0 <= i < |a.workers| && SleepsOnAdmission(a.workers[i])
  }

  ghost predicate FullFor(c: Config, s: State, job: nat, m: Message) {
    && !s.cancelled
    && s.current <= job < s.current + |s.slots|
    && s.slots[job - s.current].messages != []
    && s.slots[job - s.current].weight + m.weight > c.cap
  }

  /** A sleeping producer's queue is still full, or the caller is about to wake it. */
  ghost predicate ProducersWoken(c: Config, a: System) {
    ChangedAll !in a.caller.notes ==>
      forall i :: 0 <= i < |a.workers| && SleepsOnChanged(a.workers[i]) ==>
        FullFor(c, a.s, a.workers[i].pc.job, a.workers[i].pc.message)
  }

  /** A sleeping caller has nothing to take and is not done, or a worker is about to wake it. */
  ghost predicate CallerWoken(a: System) {
    a.caller.pc.AtReady? && !a.caller.pc.woken && a.s.slots != [] ==>
      (a.s.slots[0].messages == [] && !Settled(a.s)) || ReadyComing(a)
  }

  /**
   While a worker sleeps on admission un-woken: without pacing, the open places
   are all spoken for by workers that were woken or are about to be; with pacing,
   a job in hand or a pending broadcast will wake it.
   */
  ghost predicate AdmissionWoken(c: Config, a: System) {
    SomeoneAtAdmission(a) && AdmissionAll !in a.caller.notes ==>
      && !a.s.cancelled
      && (!c.paced ==>
          Open(c, a.s) <= Count(a.workers, WokenForAdmission) + if AdmissionOne in a.caller.notes then 1 else 0)
      && (c.paced && Open(c, a.s) > 0 && a.s.busy == 0 ==> AdmissionComing(a))
  }

  ghost predicate Inv(c: Config, a: System) {
    && Shape(c, a)
    && Counts(c, a)
    && Owners(a)
    && Queues(c, a)
    && History(a)
    && ProducersWoken(c, a)
    && CallerWoken(a)
    && AdmissionWoken(c, a)
  }

  // ------------------------------------------------- wake-ups change nothing but who sleeps

  predicate WokenWorker(v: Worker, w: Worker) {
    && (w.pc == v.pc
        || (v.pc.AtAdmission? && w.pc == AtAdmission(true))
        || (v.pc.AtChanged? && w.pc == v.pc.(woken := true)))
    && (w.notes == v.notes || (v.notes != [] && w.notes == v.notes[1..]))
  }

  ghost predicate OnlyWoken(a: System, b: System) {
    && b.s == a.s && b.sent == a.sent && b.received == a.received
    && b.widest == a.widest && b.failedAt == a.failedAt && b.over == a.over
    && |b.workers| == |a.workers|
    && (forall i :: 0 <= i < |a.workers| ==> WokenWorker(a.workers[i], b.workers[i]))
    && (b.caller.pc == a.caller.pc || (a.caller.pc.AtReady? && b.caller.pc == a.caller.pc.(woken := true)))
  }

  lemma WakeIsOnlyWoken(c: Config, a: System, step: Step)
    requires Enabled(c, a, step) && IsWake(step)
    ensures OnlyWoken(a, Apply(c, a, step))
  {
  }

  lemma WokenKeepsCounts(c: Config, a: System, b: System)
    requires Counts(c, a) && OnlyWoken(a, b)
    ensures Counts(c, b)
  {
    CountSame(a.workers, b.workers, Holds);
    CountSame(a.workers, b.workers, Alive);
    CountSame(a.workers, b.workers, OnChanged);
  }

  lemma WokenKeepsShape(c: Config, a: System, b: System)
    requires Shape(c, a) && OnlyWoken(a, b)
    ensures Shape(c, b)
  {
    assert forall i :: 0 <= i < |a.workers| && NeverRan(a.workers[i]) ==> NeverRan(b.workers[i]);
  }

  lemma WokenKeepsOwners(c: Config, a: System, b: System)
    requires Shape(c, a) && Owners(a) && OnlyWoken(a, b)
    ensures Owners(b)
  {
    forall i | 0 <= i < |a.workers| && Holds(b.workers[i])
      ensures Holds(a.workers[i]) && a.workers[i].pc.job == b.workers[i].pc.job
    {
    }
    forall job | Owned(a, job) ensures Owned(b, job) {
      var i :| 0 <= i < |a.workers| && Holds(a.workers[i]) && a.workers[i].pc.job == job;
      assert Holds(b.workers[i]) && b.workers[i].pc.job == job;
    }
  }

  lemma WokenKeepsHistory(c: Config, a: System, b: System)
    requires Shape(c, a) && History(a) && OnlyWoken(a, b)
    ensures Shape(c, b) && History(b)
  {
    WokenKeepsShape(c, a, b);
    forall job | 0 <= job < |a.sent| ensures LogOk(b, job) {
      assert LogOk(a, job);
    }
  }

  // ------------------------------------------------- shape

  lemma ShapeKeptByCaller(c: Config, a: System, step: Step)
    requires Shape(c, a) && Enabled(c, a, step) && IsCaller(step)
    ensures Shape(c, Apply(c, a, step))
  {
    if step.RecvPass? {
      RecvEffect(c, a.s, a.caller.pc.job);
    }
  }

  lemma SendEffect(c: Config, s: State, job: nat, m: Message, woken: bool)
    requires job < s.next <= s.current + |s.slots|
    ensures var (t, outcome) := SendSection(c, s, job, m, woken);
      && t.next == s.next && t.busy == s.busy && t.current == s.current && t.cancelled == s.cancelled && t.live == s.live
      && t.sending == s.sending - Bit(woken) + Bit(outcome.Full?)
      && (outcome.Rejected? <==> s.cancelled || job < s.current)
      && (if outcome.Accepted? then
            var slot := s.slots[job - s.current];
            t.slots == s.slots[job - s.current := slot.(messages := slot.messages + [m], weight := slot.weight + m.weight)]
          else t.slots == s.slots)
      && (outcome.Accepted? ==> s.slots[job - s.current].messages == [] || s.slots[job - s.current].weight + m.weight <= c.cap)
      && (outcome.Full? ==> FullFor(c, t, job, m))
  {
    if job >= s.current {
      assert Padded(s.slots, job - s.current + 1) == s.slots;
    }
  }

  lemma CloseEffect(s: State, job: nat)
    requires job < s.next <= s.current + |s.slots|
    ensures var t := CloseSection(s, job);
      t == s.(busy := s.busy - 1,
              slots := if job < s.current then s.slots
                       else s.slots[job - s.current := s.slots[job - s.current].(closed := true)])
  {
    if job >= s.current {
      assert Padded(s.slots, job - s.current + 1) == s.slots;
    }
  }

  lemma ClaimEffect(c: Config, s: State, width: nat)
    requires c.Valid() && s.next <= c.jobs && s.next <= s.current + |s.slots|
    requires |s.slots| <= c.window && s.current + |s.slots| <= c.jobs
    ensures var (t, outcome) := ClaimSection(c, s, width);
      && t.current == s.current && t.cancelled == s.cancelled && t.live == s.live && t.sending == s.sending
      && (outcome.Stop? <==> s.cancelled || s.next >= c.jobs)
      && (outcome.Claimed? ==>
          && outcome.job == s.next && t.next == s.next + 1 && t.busy == s.busy + 1
          && s.next < s.current + c.window
          && |s.slots| <= |t.slots| <= c.window && t.current + |t.slots| <= c.jobs
          && t.next <= t.current + |t.slots|
          && (forall x :: 0 <= x < |t.slots| ==>
               t.slots[x] == (if x < |s.slots| then s.slots[x] else EMPTY_SLOT).(claimed := t.slots[x].claimed)
               && (t.slots[x].claimed <==> (x < |s.slots| && s.slots[x].claimed) || s.current + x == s.next))
          && (c.paced ==> s.busy < if width > 1 then width else 1))
      && (!outcome.Claimed? ==> t == s)
      && (outcome.Hold? && !c.paced ==> Open(c, s) == 0)
      && (outcome.Hold? && c.paced ==> Open(c, s) == 0 || s.busy > 0)
  {
  }

  lemma RecvEffect(c: Config, s: State, job: nat)
    requires c.Valid() && job == s.current < c.jobs
    requires |s.slots| <= c.window && s.current + |s.slots| <= c.jobs
    ensures var (t, outcome) := RecvSection(s, job);
      && t == s.(slots := t.slots)
      && t.slots != []
      && (s.slots == [] ==> |t.slots| == 1)
      && |t.slots| <= c.window && t.current + |t.slots| <= c.jobs
      && (var first := if s.slots == [] then EMPTY_SLOT else s.slots[0];
          && |t.slots| == (if s.slots == [] then 1 else |s.slots|)
          && (forall x :: 1 <= x < |t.slots| ==> t.slots[x] == s.slots[x])
          && (outcome.Got? <==> first.messages != [])
          && (if outcome.Got? then
                && first.messages == [outcome.message] + t.slots[0].messages
                && t.slots[0] == first.(messages := first.messages[1..], weight := first.weight - outcome.message.weight)
                && outcome.wake == (s.sending != 0)
              else t.slots[0] == first)
          && (outcome.Over? ==> Settled(t))
          && (outcome.Empty? ==> first.messages == [] && !Settled(t)))
  {
  }

  lemma PlaceKept(c: Config, a: System, b: System, i: nat)
    requires CallerPlace(c, a) && b.caller == a.caller && i < |a.workers| && !NeverRan(a.workers[i])
    requires !AllGone(a) && b.over == a.over
    requires |b.workers| == |a.workers| && b.workers == a.workers[i := b.workers[i]]
    requires b.s.current == a.s.current && b.s.cancelled == a.s.cancelled
    requires a.s.slots != [] ==> b.s.slots != []
    ensures CallerPlace(c, b)
  {
  }

  lemma ShapeKeptByWorker(c: Config, a: System, step: Step)
    requires Shape(c, a) && Owners(a) && Enabled(c, a, step) && IsWorker(step)
    ensures Shape(c, Apply(c, a, step))
  {
    var b := Apply(c, a, step);
    var i := step.worker;
    if step.ClaimPass? {
      ClaimEffect(c, a.s, step.width);
    } else if step.SendPass? {
      var pc := a.workers[i].pc;
      assert Holds(a.workers[i]);
      SendEffect(c, a.s, pc.job, pc.message, pc.AtChanged?);
    } else if step.ClosePass? {
      assert Holds(a.workers[i]);
      CloseEffect(a.s, a.workers[i].pc.job);
    }
    PlaceKept(c, a, b, i);
  }

  // ------------------------------------------------- counts

  lemma CountsAfterPut(a: System, b: System, i: nat, w: Worker)
    requires i < |a.workers| && b.workers == a.workers[i := w]
    ensures Count(b.workers, Holds) == Count(a.workers, Holds) - Bit(Holds(a.workers[i])) + Bit(Holds(w))
    ensures Count(b.workers, Alive) == Count(a.workers, Alive) - Bit(Alive(a.workers[i])) + Bit(Alive(w))
    ensures Count(b.workers, OnChanged) == Count(a.workers, OnChanged) - Bit(OnChanged(a.workers[i])) + Bit(OnChanged(w))
    ensures Count(b.workers, WokenForAdmission)
         == Count(a.workers, WokenForAdmission) - Bit(WokenForAdmission(a.workers[i])) + Bit(WokenForAdmission(w))
  {
    CountUpdate(a.workers, i, w, Holds);
    CountUpdate(a.workers, i, w, Alive);
    CountUpdate(a.workers, i, w, OnChanged);
    CountUpdate(a.workers, i, w, WokenForAdmission);
  }

  function Bit(b: bool): int { if b then 1 else 0 }

  lemma CountsKeptByCaller(c: Config, a: System, step: Step)
    requires Shape(c, a) && Counts(c, a) && Enabled(c, a, step) && IsCaller(step)
    ensures Counts(c, Apply(c, a, step))
  {
    if step.SpawnThread? && step.granted {
      CountsAfterPut(a, Apply(c, a, step), a.caller.pc.index, Worker(Starting, []));
    } else if step.RecvPass? {
      RecvEffect(c, a.s, a.caller.pc.job);
    }
  }

  /** Worker `i` moves on, and the counters with it. */
  lemma CountsMoved(c: Config, a: System, b: System, i: nat)
    requires Counts(c, a) && i < |a.workers| == |b.workers| && b.workers == a.workers[i := b.workers[i]]
    requires b.caller == a.caller && b.widest >= a.widest
    requires b.s.busy == a.s.busy - Bit(Holds(a.workers[i])) + Bit(Holds(b.workers[i]))
    requires b.s.live == a.s.live - Bit(Alive(a.workers[i])) + Bit(Alive(b.workers[i]))
    requires b.s.sending == a.s.sending - Bit(OnChanged(a.workers[i])) + Bit(OnChanged(b.workers[i]))
    requires c.paced && b.s.busy > a.s.busy ==> b.s.busy <= if b.widest > 1 then b.widest else 1
    ensures Counts(c, b)
  {
    CountsAfterPut(a, b, i, b.workers[i]);
  }

  lemma CountsAfterSend(c: Config, a: System, i: nat)
    requires Counts(c, a) && Enabled(c, a, SendPass(i))
    ensures Counts(c, RunSend(c, a, i))
  {
    CountsMoved(c, a, RunSend(c, a, i), i);
  }

  lemma CountsAfterClaim(c: Config, a: System, i: nat, width: nat)
    requires Counts(c, a) && Enabled(c, a, ClaimPass(i, width))
    ensures Counts(c, RunClaim(c, a, i, width))
  {
    CountsMoved(c, a, RunClaim(c, a, i, width), i);
  }

  lemma CountsKeptByWorker(c: Config, a: System, step: Step)
    requires Counts(c, a) && Enabled(c, a, step) && IsWorker(step)
    ensures Counts(c, Apply(c, a, step))
  {
    if step.SendPass? {
      CountsAfterSend(c, a, step.worker);
    } else if step.ClaimPass? {
      CountsAfterClaim(c, a, step.worker, step.width);
    } else {
      CountsMoved(c, a, Apply(c, a, step), step.worker);
    }
  }

  // ------------------------------------------------- owners

  /** A worker that keeps its job, with every queue claimed and closed as before. */
  lemma OwnersSame(a: System, b: System)
    requires a.s.next <= a.s.current + |a.s.slots| && Owners(a)
    requires |b.workers| == |a.workers|
    requires forall k :: 0 <= k < |a.workers| ==> Holds(b.workers[k]) == Holds(a.workers[k])
    requires forall k :: 0 <= k < |a.workers| && Holds(a.workers[k]) && Holds(b.workers[k]) ==>
      b.workers[k].pc.job == a.workers[k].pc.job
    requires b.s.next == a.s.next && b.s.current == a.s.current && |b.s.slots| >= |a.s.slots|
    requires forall x :: 0 <= x < |b.s.slots| ==>
      if x < |a.s.slots| then b.s.slots[x].claimed == a.s.slots[x].claimed && b.s.slots[x].closed == a.s.slots[x].closed
      else !b.s.slots[x].claimed
    ensures Owners(b)
  {
    forall job | a.s.current <= job < a.s.current + |b.s.slots| && OpenSlot(b.s, job)
      ensures Owned(b, job)
    {
      assert OpenSlot(a.s, job);
      var k :| 0 <= k < |a.workers| && Holds(a.workers[k]) && a.workers[k].pc.job == job;
      assert Holds(b.workers[k]);
    }
  }

  /** Worker `i`, which had no job, takes the next one. */
  lemma OwnersGain(a: System, b: System, i: nat)
    requires a.s.next <= a.s.current + |a.s.slots| && Owners(a)
    requires i < |a.workers| == |b.workers| && !Holds(a.workers[i]) && b.workers == a.workers[i := b.workers[i]]
    requires Holds(b.workers[i]) && b.workers[i].pc.job == a.s.next
    requires b.s.next == a.s.next + 1 && b.s.current == a.s.current
    requires |a.s.slots| <= |b.s.slots| && b.s.next <= b.s.current + |b.s.slots|
    requires forall x :: 0 <= x < |b.s.slots| ==>
      && b.s.slots[x].closed == (x < |a.s.slots| && a.s.slots[x].closed)
      && (b.s.slots[x].claimed <==> (x < |a.s.slots| && a.s.slots[x].claimed) || a.s.current + x == a.s.next)
    requires forall x :: 0 <= x < |a.s.slots| && a.s.slots[x].closed ==> a.s.slots[x].claimed
    ensures Owners(b)
  {
    forall job | b.s.current <= job < b.s.current + |b.s.slots| && OpenSlot(b.s, job)
      ensures Owned(b, job)
    {
      if job == a.s.next {
        assert Holds(b.workers[i]) && b.workers[i].pc.job == job;
      } else {
        assert OpenSlot(a.s, job);
        var k :| 0 <= k < |a.workers| && Holds(a.workers[k]) && a.workers[k].pc.job == job;
        assert Holds(b.workers[k]) && b.workers[k].pc.job == job;
      }
    }
  }

  /** Worker `i` is done with its job, whose queue it closes. */
  lemma OwnersLose(a: System, b: System, i: nat)
    requires a.s.next <= a.s.current + |a.s.slots| && Owners(a)
    requires i < |a.workers| == |b.workers| && Holds(a.workers[i]) && b.workers == a.workers[i := b.workers[i]]
    requires !Holds(b.workers[i])
    requires b.s.next == a.s.next && b.s.current == a.s.current && |b.s.slots| == |a.s.slots|
    requires forall x :: 0 <= x < |b.s.slots| ==>
      && b.s.slots[x].claimed == a.s.slots[x].claimed
      && (b.s.slots[x].closed <==> a.s.slots[x].closed || a.s.current + x == a.workers[i].pc.job)
    ensures Owners(b)
  {
    forall job | b.s.current <= job < b.s.current + |b.s.slots| && OpenSlot(b.s, job)
      ensures Owned(b, job)
    {
      assert OpenSlot(a.s, job);
      var k :| 0 <= k < |a.workers| && Holds(a.workers[k]) && a.workers[k].pc.job == job;
      assert Holds(b.workers[k]) && b.workers[k].pc.job == job;
    }
  }

  lemma OwnersAfterClaim(c: Config, a: System, i: nat, width: nat)
    requires Shape(c, a) && Owners(a) && Queues(c, a) && Enabled(c, a, ClaimPass(i, width))
    ensures var b := Apply(c, a, ClaimPass(i, width)); b.s.next <= b.s.current + |b.s.slots| && Owners(b)
  {
    var b := RunClaim(c, a, i, width);
    ClaimEffect(c, a.s, width);
    if ClaimSection(c, a.s, width).1.Claimed? {
      assert forall x :: 0 <= x < |a.s.slots| && a.s.slots[x].closed ==> SlotSound(c, a.s.slots[x]);
      OwnersGain(a, b, i);
    } else {
      OwnersSame(a, b);
    }
  }

  lemma OwnersAfterClose(c: Config, a: System, i: nat)
    requires Shape(c, a) && Owners(a) && Enabled(c, a, ClosePass(i))
    ensures var b := Apply(c, a, ClosePass(i)); b.s.next <= b.s.current + |b.s.slots| && Owners(b)
  {
    assert Holds(a.workers[i]);
    CloseEffect(a.s, a.workers[i].pc.job);
    OwnersLose(a, Apply(c, a, ClosePass(i)), i);
  }

  lemma OwnersAfterSend(c: Config, a: System, i: nat)
    requires Shape(c, a) && Owners(a) && Enabled(c, a, SendPass(i))
    ensures var b := RunSend(c, a, i); b.s.next <= b.s.current + |b.s.slots| && Owners(b)
  {
    var pc := a.workers[i].pc;
    assert Holds(a.workers[i]);
    SendEffect(c, a.s, pc.job, pc.message, pc.AtChanged?);
    OwnersPut(a, RunSend(c, a, i), i);
  }

  /** Worker `i` keeps its job, and no queue is claimed or closed. */
  lemma OwnersPut(a: System, b: System, i: nat)
    requires a.s.next <= a.s.current + |a.s.slots| && Owners(a)
    requires i < |a.workers| == |b.workers| && b.workers == a.workers[i := b.workers[i]]
    requires Holds(a.workers[i]) && Holds(b.workers[i]) && b.workers[i].pc.job == a.workers[i].pc.job
    requires b.s.next == a.s.next && b.s.current == a.s.current && |b.s.slots| == |a.s.slots|
    requires forall x :: 0 <= x < |b.s.slots| ==>
      b.s.slots[x].claimed == a.s.slots[x].claimed && b.s.slots[x].closed == a.s.slots[x].closed
    ensures Owners(b)
  {
    OwnersSame(a, b);
  }

  lemma OwnersKeptByWorker(c: Config, a: System, step: Step)
    requires Shape(c, a) && Owners(a) && Queues(c, a) && Enabled(c, a, step) && IsWorker(step)
    ensures var b := Apply(c, a, step); b.s.next <= b.s.current + |b.s.slots| && Owners(b)
  {
    if step.ClaimPass? {
      OwnersAfterClaim(c, a, step.worker, step.width);
    } else if step.ClosePass? {
      OwnersAfterClose(c, a, step.worker);
    } else if step.SendPass? {
      OwnersAfterSend(c, a, step.worker);
    } else {
      OwnersSame(a, Apply(c, a, step));
    }
  }

  lemma OwnersAfterAdvance(c: Config, a: System)
    requires Shape(c, a) && Owners(a) && Enabled(c, a, AdvancePass)
    ensures var b := RunAdvance(c, a); b.s.next <= b.s.current + |b.s.slots| && Owners(b)
  {
    var b := RunAdvance(c, a);
    forall job | b.s.current <= job < b.s.current + |b.s.slots| && OpenSlot(b.s, job)
      ensures Owned(b, job)
    {
      assert OpenSlot(a.s, job);
      var k :| 0 <= k < |a.workers| && Holds(a.workers[k]) && a.workers[k].pc.job == job;
      assert Holds(b.workers[k]) && b.workers[k].pc.job == job;
    }
  }

  lemma OwnersKeptByCaller(c: Config, a: System, step: Step)
    requires Shape(c, a) && Owners(a) && Enabled(c, a, step) && IsCaller(step)
    ensures var b := Apply(c, a, step); b.s.next <= b.s.current + |b.s.slots| && Owners(b)
  {
    ShapeKeptByCaller(c, a, step);
    if step.AdvancePass? {
      OwnersAfterAdvance(c, a);
    } else {
      if step.RecvPass? {
        RecvEffect(c, a.s, a.caller.pc.job);
      }
      OwnersSame(a, Apply(c, a, step));
    }
  }

  // ------------------------------------------------- queues

  lemma SlotFilled(c: Config, slot: Slot, m: Message)
    requires SlotSound(c, slot) && slot.claimed && (slot.messages == [] || slot.weight + m.weight <= c.cap)
    ensures SlotSound(c, slot.(messages := slot.messages + [m], weight := slot.weight + m.weight))
  {
    WeightAppend(slot.messages, m);
  }

  lemma SlotTaken(c: Config, slot: Slot, m: Message, rest: seq<Message>)
    requires SlotSound(c, slot) && slot.messages == [m] + rest
    ensures SlotSound(c, slot.(messages := rest, weight := slot.weight - m.weight))
  {
    assert slot.messages[1..] == rest;
  }

  lemma QueuesAfterSend(c: Config, a: System, i: nat)
    requires Shape(c, a) && Owners(a) && Queues(c, a) && Enabled(c, a, SendPass(i))
    ensures Queues(c, RunSend(c, a, i))
  {
    var pc := a.workers[i].pc;
    assert Holds(a.workers[i]);
    SendEffect(c, a.s, pc.job, pc.message, pc.AtChanged?);
    if SendSection(c, a.s, pc.job, pc.message, pc.AtChanged?).1.Accepted? {
      SlotFilled(c, a.s.slots[pc.job - a.s.current], pc.message);
    }
  }

  lemma QueuesKeptByWorker(c: Config, a: System, step: Step)
    requires Shape(c, a) && Owners(a) && Queues(c, a) && Enabled(c, a, step) && IsWorker(step)
    ensures Queues(c, Apply(c, a, step))
  {
    if step.ClaimPass? {
      ClaimEffect(c, a.s, step.width);
    } else if step.SendPass? {
      QueuesAfterSend(c, a, step.worker);
    } else if step.ClosePass? {
      assert Holds(a.workers[step.worker]);
      CloseEffect(a.s, a.workers[step.worker].pc.job);
    }
  }

  lemma QueuesAfterRecv(c: Config, a: System)
    requires Shape(c, a) && Queues(c, a) && Enabled(c, a, RecvPass)
    ensures Queues(c, RunRecv(c, a))
  {
    var (t, outcome) := RecvSection(a.s, a.caller.pc.job);
    RecvEffect(c, a.s, a.caller.pc.job);
    if outcome.Got? {
      var first := if a.s.slots == [] then EMPTY_SLOT else a.s.slots[0];
      assert SlotSound(c, first);
      SlotTaken(c, first, outcome.message, t.slots[0].messages);
    }
    forall x | 0 <= x < |t.slots| ensures SlotSound(c, t.slots[x]) {
      if x > 0 {
        assert SlotSound(c, a.s.slots[x]);
      }
    }
  }

  lemma QueuesKeptByCaller(c: Config, a: System, step: Step)
    requires Shape(c, a) && Queues(c, a) && Enabled(c, a, step) && IsCaller(step)
    ensures Queues(c, Apply(c, a, step))
  {
    if step.RecvPass? {
      QueuesAfterRecv(c, a);
    } else if step.AdvancePass? {
      var b := RunAdvance(c, a);
      forall x | 0 <= x < |b.s.slots| ensures SlotSound(c, b.s.slots[x]) {
        assert SlotSound(c, a.s.slots[x + 1]);
      }
    }
  }

  // ------------------------------------------------- history

  /** Worker and queue agree on what `job` sent, as on what it had sent before. */
  lemma HistorySent(a: System, b: System, job: nat, m: Message)
    requires |a.sent| == |a.received| && History(a)
    requires b.received == a.received && b.over == a.over && b.s.current == a.s.current && b.s.live == a.s.live
    requires a.s.current <= job < a.s.current + |a.s.slots| && job < |a.sent| && OpenSlot(a.s, job)
    requires b.sent == a.sent[job := a.sent[job] + [m]]
    requires |b.s.slots| == |a.s.slots|
    requires forall x :: 0 <= x < |a.s.slots| ==>
      if a.s.current + x == job then b.s.slots[x].messages == a.s.slots[x].messages + [m] else b.s.slots[x] == a.s.slots[x]
    ensures |b.sent| == |b.received| && History(b)
  {
    forall j | 0 <= j < |b.sent| ensures LogOk(b, j) {
      assert LogOk(a, j);
      if j == job {
        assert a.received[j] + a.s.slots[j - a.s.current].messages + [m]
            == a.received[j] + (a.s.slots[j - a.s.current].messages + [m]);
      }
    }
  }

  /** Queues added, claimed or closed: what they hold is as before, and what was settled still is. */
  lemma HistoryPadded(a: System, b: System)
    requires |a.sent| == |a.received| && History(a)
    requires b.sent == a.sent && b.received == a.received && b.over == a.over && b.s.current == a.s.current
    requires |a.s.slots| <= |b.s.slots|
    requires forall x :: 0 <= x < |b.s.slots| ==> b.s.slots[x].messages == if x < |a.s.slots| then a.s.slots[x].messages else []
    requires a.s.slots != [] && Settled(a.s) ==> Settled(b.s)
    ensures History(b)
  {
    forall job | 0 <= job < |b.sent| ensures LogOk(b, job) {
      assert LogOk(a, job);
    }
  }

  lemma HistoryAfterSend(c: Config, a: System, i: nat)
    requires Shape(c, a) && Owners(a) && History(a) && Enabled(c, a, SendPass(i))
    ensures var b := RunSend(c, a, i); |b.sent| == |b.received| && History(b)
  {
    var b := RunSend(c, a, i);
    var pc := a.workers[i].pc;
    assert Holds(a.workers[i]);
    SendEffect(c, a.s, pc.job, pc.message, pc.AtChanged?);
    if SendSection(c, a.s, pc.job, pc.message, pc.AtChanged?).1.Accepted? {
      HistorySent(a, b, pc.job, pc.message);
    } else {
      HistoryPadded(a, b);
    }
  }

  lemma HistoryAfterClaim(c: Config, a: System, i: nat, width: nat)
    requires Shape(c, a) && Counts(c, a) && History(a) && Enabled(c, a, ClaimPass(i, width))
    ensures var b := RunClaim(c, a, i, width); |b.sent| == |b.received| && History(b)
  {
    ClaimEffect(c, a.s, width);
    assert Alive(a.workers[i]);
    CountPositive(a.workers, Alive);
    HistoryPadded(a, RunClaim(c, a, i, width));
  }

  lemma HistoryAfterClose(c: Config, a: System, i: nat)
    requires Shape(c, a) && Owners(a) && History(a) && Enabled(c, a, ClosePass(i))
    ensures var b := Apply(c, a, ClosePass(i)); |b.sent| == |b.received| && History(b)
  {
    assert Holds(a.workers[i]);
    CloseEffect(a.s, a.workers[i].pc.job);
    HistoryPadded(a, Apply(c, a, ClosePass(i)));
  }

  lemma HistorySame(a: System, b: System)
    requires |a.sent| == |a.received| && History(a)
    requires b.sent == a.sent && b.received == a.received && b.over == a.over
    requires b.s.current == a.s.current && b.s.slots == a.s.slots
    requires b.s.live <= a.s.live || a.over == {}
    requires a.s.live >= 0 && b.s.live >= 0
    ensures History(b)
  {
    forall job | 0 <= job < |b.sent| ensures LogOk(b, job) {
      assert LogOk(a, job);
    }
  }

  lemma HistoryKeptByWorker(c: Config, a: System, step: Step)
    requires Shape(c, a) && Counts(c, a) && Owners(a) && History(a) && Enabled(c, a, step) && IsWorker(step)
    ensures var b := Apply(c, a, step); |b.sent| == |b.received| && History(b)
  {
    if step.SendPass? {
      HistoryAfterSend(c, a, step.worker);
    } else if step.ClaimPass? {
      HistoryAfterClaim(c, a, step.worker, step.width);
    } else if step.ClosePass? {
      HistoryAfterClose(c, a, step.worker);
    } else {
      CountsKeptByWorker(c, a, step);
      HistorySame(a, Apply(c, a, step));
    }
  }

  lemma HistoryAfterRecv(c: Config, a: System)
    requires Shape(c, a) && History(a) && Enabled(c, a, RecvPass)
    ensures var b := RunRecv(c, a); |b.sent| == |b.received| && History(b)
  {
    var b := RunRecv(c, a);
    RecvEffect(c, a.s, a.s.current);
    assert LogOk(a, a.s.current);
    forall job | 0 <= job < |b.sent| ensures LogOk(b, job) {
      LogAfterRecv(c, a, job);
    }
  }

  lemma LogAfterRecv(c: Config, a: System, job: nat)
    requires Shape(c, a) && History(a) && Enabled(c, a, RecvPass) && job < |a.sent|
    ensures var b := RunRecv(c, a); |b.sent| == |b.received| == |a.sent| && LogOk(b, job)
  {
    RecvEffect(c, a.s, a.s.current);
    assert LogOk(a, job);
  }

  lemma HistoryAfterAdvance(c: Config, a: System)
    requires Shape(c, a) && History(a) && Enabled(c, a, AdvancePass)
    ensures var b := RunAdvance(c, a); |b.sent| == |b.received| && History(b)
  {
    var b := RunAdvance(c, a);
    forall job | 0 <= job < |b.sent| ensures LogOk(b, job) {
      assert LogOk(a, job);
    }
  }

  lemma HistoryKeptByCaller(c: Config, a: System, step: Step)
    requires Shape(c, a) && Counts(c, a) && History(a) && Enabled(c, a, step) && IsCaller(step)
    ensures var b := Apply(c, a, step); |b.sent| == |b.received| && History(b)
  {
    if step.RecvPass? {
      HistoryAfterRecv(c, a);
    } else if step.AdvancePass? {
      HistoryAfterAdvance(c, a);
    } else {
      CountsKeptByCaller(c, a, step);
      HistorySame(a, Apply(c, a, step));
    }
  }
}
