/** What holds over every run of the ordered fan-out. */
module FanOutTheorems {
  import opened Counting
  import opened FanOutMonitor
  import opened FanOut
  import opened FanOutInvariant
  import opened FanOutWakeups

  lemma InvInitially(c: Config, workers: nat)
    requires c.Valid()
    ensures Inv(c, Initial(c, workers))
  {
    var a := Initial(c, workers);
    CountPositive(a.workers, Holds);
    CountPositive(a.workers, Alive);
    CountPositive(a.workers, OnChanged);
  }

  lemma InvKeptByWake(c: Config, a: System, step: Step)
    requires Inv(c, a) && Enabled(c, a, step) && IsWake(step)
    ensures Inv(c, Apply(c, a, step))
  {
    var b := Apply(c, a, step);
    WakeIsOnlyWoken(c, a, step);
    WokenKeepsShape(c, a, b);
    WokenKeepsCounts(c, a, b);
    WokenKeepsOwners(c, a, b);
    WokenKeepsHistory(c, a, b);
    ProducersAfterWake(c, a, step);
    CallerAfterWake(c, a, step);
    AdmissionAfterWake(c, a, step);
  }

  lemma InvKeptByCaller(c: Config, a: System, step: Step)
    requires Inv(c, a) && Enabled(c, a, step) && IsCaller(step)
    ensures Inv(c, Apply(c, a, step))
  {
    ShapeKeptByCaller(c, a, step);
    CountsKeptByCaller(c, a, step);
    OwnersKeptByCaller(c, a, step);
    QueuesKeptByCaller(c, a, step);
    HistoryKeptByCaller(c, a, step);
    ProducersAfterCaller(c, a, step);
    CallerAfterCaller(c, a, step);
    AdmissionAfterCaller(c, a, step);
  }

  lemma InvKeptByWorker(c: Config, a: System, step: Step)
    requires Inv(c, a) && Enabled(c, a, step) && IsWorker(step)
    ensures Inv(c, Apply(c, a, step))
  {
    ShapeKeptByWorker(c, a, step);
    CountsKeptByWorker(c, a, step);
    OwnersKeptByWorker(c, a, step);
    QueuesKeptByWorker(c, a, step);
    HistoryKeptByWorker(c, a, step);
    ProducersAfterWorker(c, a, step);
    CallerAfterWorker(c, a, step);
    AdmissionAfterWorker(c, a, step);
  }

  lemma InvKept(c: Config, a: System, step: Step)
    requires Inv(c, a) && Enabled(c, a, step)
    ensures Inv(c, Apply(c, a, step))
  {
    if IsWake(step) {
      InvKeptByWake(c, a, step);
    } else if IsCaller(step) {
      InvKeptByCaller(c, a, step);
    } else {
      InvKeptByWorker(c, a, step);
    }
  }

  lemma {:induction false} InvAlong(c: Config, workers: nat, trace: seq<System>, steps: seq<Step>, k: nat)
    requires c.Valid() && Run(c, workers, trace, steps) && k <= |steps|
    ensures Inv(c, trace[k])
  {
    if k == 0 {
      InvInitially(c, workers);
    } else {
      InvAlong(c, workers, trace, steps, k - 1);
      assert Moves(c, trace, steps, k - 1);
      InvKept(c, trace[k - 1], steps[k - 1]);
    }
  }

  lemma ReachableInv(c: Config, workers: nat, a: System)
    requires c.Valid() && Reachable(c, workers, a)
    ensures Inv(c, a)
  {
    var trace, steps :| Run(c, workers, trace, steps) && trace[|steps|] == a;
    InvAlong(c, workers, trace, steps, |steps|);
  }

  // ------------------------------------------------- no deadlock, no lost wake-up

  predicate Spurious(step: Step) { step.SpuriousCaller? || step.SpuriousWorker? }

  ghost predicate CanMove(c: Config, a: System) {
    exists step :: Enabled(c, a, step) && !Spurious(step)
  }

  predicate Finished(a: System) { a.caller.pc.Returned? && AllGone(a) }

  /** Where a worker has to be for it to have no step of its own. */
  predicate Stuck(w: Worker) {
    w.notes == [] && (w.pc.Unborn? || w.pc.Exited? || SleepsOnAdmission(w) || SleepsOnChanged(w))
  }

  lemma SomePick(a: System, note: Note)
    ensures exists pick: nat :: PickAllowed(a, note, pick)
  {
    if i :| 0 <= i < |a.workers| && SleepsOnAdmission(a.workers[i]) {
      assert PickAllowed(a, note, i);
    } else {
      assert PickAllowed(a, note, |a.workers|);
    }
  }

  lemma WorkerMoves(c: Config, a: System, i: nat)
    requires i < |a.workers| && !Stuck(a.workers[i])
    ensures CanMove(c, a)
  {
    var w := a.workers[i];
    if w.notes != [] {
      SomePick(a, w.notes[0]);
      var pick: nat :| PickAllowed(a, w.notes[0], pick);
      assert Enabled(c, a, WorkerNotifies(i, pick));
    } else {
      var step := match w.pc
        case Starting => StateBuilt(i, false)
        case Claiming => ClaimPass(i, 0)
        case AtAdmission(_) => ClaimPass(i, 0)
        case Producing(_) => ProduceEnds(i, false)
        case Sending(_, _) => SendPass(i)
        case AtChanged(_, _, _) => SendPass(i)
        case Closing(_, _) => ClosePass(i)
        case _ => LeavePass(i);
      assert Enabled(c, a, step);
    }
  }

  predicate CallerStuck(a: System) {
    a.caller.notes == []
    && ((a.caller.pc.AtReady? && !a.caller.pc.woken) || (a.caller.pc.Joining? && !AllGone(a)) || a.caller.pc.Returned?)
  }

  lemma CallerMoves(c: Config, a: System)
    requires Shape(c, a) && !CallerStuck(a)
    ensures CanMove(c, a)
  {
    if a.caller.notes != [] {
      SomePick(a, a.caller.notes[0]);
      var pick: nat :| PickAllowed(a, a.caller.notes[0], pick);
      assert Enabled(c, a, CallerNotifies(pick));
    } else {
      var step := match a.caller.pc
        case Counting(_) => CountIn
        case Spawning(_) => SpawnThread(true)
        case Refused(_) => CountOut
        case Consuming(_) => ConsumeReturns(false)
        case Receiving(_) => RecvPass
        case AtReady(_, _) => RecvPass
        case Advancing(_, _) => AdvancePass
        case Cancelling => CancelPass
        case _ => JoinAll;
      assert Enabled(c, a, step);
    }
  }

  /** Its own queue being claimed, a sleeping caller waits on a worker that can move. */
  lemma OwnerMoves(c: Config, a: System)
    requires Inv(c, a) && a.caller.notes == [] && a.s.slots != [] && a.s.slots[0].messages == []
    requires OpenSlot(a.s, a.s.current)
    ensures exists i :: 0 <= i < |a.workers| && !Stuck(a.workers[i])
  {
    assert Owned(a, a.s.current);
    var i :| 0 <= i < |a.workers| && Holds(a.workers[i]) && a.workers[i].pc.job == a.s.current;
    assert !SleepsOnChanged(a.workers[i]);
  }

  /** No claim having reached the caller, some living worker can move: to claim, or out of a job passed over. */
  lemma ClaimantMoves(c: Config, a: System)
    requires Inv(c, a) && a.caller.notes == [] && a.s.next <= a.s.current < c.jobs
    requires Count(a.workers, Alive) > 0
    ensures exists i :: 0 <= i < |a.workers| && !Stuck(a.workers[i])
  {
    CountPositive(a.workers, Alive);
    CountPositive(a.workers, Holds);
    CountPositive(a.workers, WokenForAdmission);
    var i :| 0 <= i < |a.workers| && Alive(a.workers[i]);
    if k :| 0 <= k < |a.workers| && Holds(a.workers[k]) {
      assert !SleepsOnChanged(a.workers[k]);
    } else if SleepsOnAdmission(a.workers[i]) {
      if c.paced {
        assert AdmissionComing(a);
      }
    } else {
      assert !Stuck(a.workers[i]);
    }
  }

  lemma SleepingCallerIsServed(c: Config, a: System)
    requires Inv(c, a) && CallerStuck(a) && a.caller.pc.AtReady?
    ensures exists i :: 0 <= i < |a.workers| && !Stuck(a.workers[i])
  {
    if ReadyComing(a) {
      var i :| 0 <= i < |a.workers| && ReadyOne in a.workers[i].notes;
      assert !Stuck(a.workers[i]);
    } else if a.s.slots[0].claimed {
      OwnerMoves(c, a);
    } else {
      ClaimantMoves(c, a);
    }
  }

  /** While the caller joins, every sleeper has been told to go. */
  lemma JoinedWorkersLeave(c: Config, a: System)
    requires Inv(c, a) && CallerStuck(a) && a.caller.pc.Joining?
    ensures exists i :: 0 <= i < |a.workers| && !Stuck(a.workers[i])
  {
    var i :| 0 <= i < |a.workers| && !((a.workers[i].pc.Unborn? || a.workers[i].pc.Exited?) && a.workers[i].notes == []);
    assert !Stuck(a.workers[i]);
  }

  /**
   In every reachable state in which the caller has not returned or a worker has
   not exited, some thread has a step to take that is not a spurious wake-up.
   */
  lemma NeverDeadlocks(c: Config, workers: nat, a: System)
    requires c.Valid() && Reachable(c, workers, a)
    ensures Finished(a) || CanMove(c, a)
  {
    ReachableInv(c, workers, a);
    if !CallerStuck(a) {
      CallerMoves(c, a);
    } else if !a.caller.pc.Returned? {
      if a.caller.pc.AtReady? {
        SleepingCallerIsServed(c, a);
      } else {
        JoinedWorkersLeave(c, a);
      }
      var i :| 0 <= i < |a.workers| && !Stuck(a.workers[i]);
      WorkerMoves(c, a, i);
    }
  }

  // ------------------------------------------------- order, prefixes, bounds

  /** What the caller has been given of a job is a prefix of what its worker queued, in order. */
  lemma ReceivedIsPrefixOfSent(c: Config, workers: nat, a: System, job: nat)
    requires c.Valid() && Reachable(c, workers, a) && job < c.jobs
    ensures |a.sent| == |a.received| == c.jobs
    ensures a.received[job] <= a.sent[job]
    ensures job > a.s.current ==> a.received[job] == []
    ensures job in a.over ==> a.received[job] == a.sent[job]
    ensures job in a.over ==> job <= a.s.current
  {
    ReachableInv(c, workers, a);
    assert LogOk(a, job);
  }

  /** The queue at position `x` holds exactly what job `current + x` sent and the caller has not taken. */
  lemma SlotBelongsToItsJob(c: Config, workers: nat, a: System, x: nat)
    requires c.Valid() && Reachable(c, workers, a) && x < |a.s.slots|
    ensures a.s.current + x < |a.sent| == |a.received|
    ensures a.sent[a.s.current + x] == a.received[a.s.current + x] + a.s.slots[x].messages
  {
    ReachableInv(c, workers, a);
    assert LogOk(a, a.s.current + x);
  }

  /** Memory: at most `window` queues, each within `cap` or holding a single message. */
  lemma StagingIsBounded(c: Config, workers: nat, a: System)
    requires c.Valid() && Reachable(c, workers, a)
    ensures |a.s.slots| <= c.window
    ensures forall x :: 0 <= x < |a.s.slots| ==>
      a.s.slots[x].weight == Weight(a.s.slots[x].messages)
      && (a.s.slots[x].weight <= c.cap || |a.s.slots[x].messages| == 1)
  {
    ReachableInv(c, workers, a);
    assert forall x :: 0 <= x < |a.s.slots| ==> SlotSound(c, a.s.slots[x]);
  }

  /** Jobs in hand never exceed the widest pace answered so far, taken as at least one. */
  lemma PaceIsKept(c: Config, workers: nat, a: System)
    requires c.Valid() && Reachable(c, workers, a)
    ensures a.s.busy == Count(a.workers, Holds)
    ensures c.paced ==> a.s.busy <= if a.widest > 1 then a.widest else 1
  {
    ReachableInv(c, workers, a);
  }

  /** Once the consumer has failed at a job, nothing at or past that job plus the window is claimed. */
  lemma NoClaimPastFailure(c: Config, workers: nat, a: System)
    requires c.Valid() && Reachable(c, workers, a)
    ensures a.failedAt >= 0 ==> a.s.next <= a.failedAt + c.window
    ensures forall i :: 0 <= i < |a.workers| && Holds(a.workers[i]) ==> a.workers[i].pc.job < a.s.next
  {
    ReachableInv(c, workers, a);
  }
}
