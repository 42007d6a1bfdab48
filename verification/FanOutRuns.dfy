/** What a whole run of the fan-out comes to: every job consumed in order, and everything produced for it received. */
module FanOutRuns {
  import opened Counting
  import opened FanOutMonitor
  import opened FanOut
  import opened FanOutInvariant
  import opened FanOutTheorems

  function First(n: nat): (r: seq<nat>)
    ensures |r| == n && forall i :: 0 <= i < n ==> r[i] == i
  {
    seq(n, i => i)
  }

  // ------------------------------------------------- the jobs the caller consumes

  /** The jobs the consumer returned from in the first `k` steps, in order. */
  function Consumed(trace: seq<System>, steps: seq<Step>, k: nat): seq<nat>
    requires |trace| == |steps| + 1 && k <= |steps|
  {
    if k == 0 then []
    else
      Consumed(trace, steps, k - 1)
      + if steps[k - 1].ConsumeReturns? && trace[k - 1].caller.pc.Consuming? then [trace[k - 1].caller.pc.job] else []
  }

  /** A worker was started. */
  predicate Started(steps: seq<Step>, k: nat)
    requires k <= |steps|
  {
    exists i :: 0 <= i < k && steps[i] == SpawnThread(true)
  }

  /** The consumer failed or panicked. */
  predicate ConsumerFailed(steps: seq<Step>, k: nat)
    requires k <= |steps|
  {
    exists i :: 0 <= i < k && (steps[i].ConsumePanics? || steps[i] == ConsumeReturns(true))
  }

  /** Where the caller is, against what it has consumed. */
  ghost predicate Along(c: Config, a: System, consumed: seq<nat>, started: bool, failed: bool) {
    match a.caller.pc
    case Counting(i) => consumed == [] && !failed && (i == 0 ==> !started)
    case Spawning(i) => consumed == [] && !failed && (i == 0 ==> !started)
    case Refused(i) => consumed == [] && !failed && (i == 0 ==> !started)
    case Consuming(j) => consumed == First(j) && !failed
    case Receiving(j) => consumed == First(j) && !failed
    case AtReady(j, _) => consumed == First(j) && !failed
    case Advancing(j, f) => consumed == First(j + 1) && failed == f
    case Cancelling => ThroughAll(c, a, consumed, started, failed)
    case Joining => ThroughAll(c, a, consumed, started, failed)
    case Returned => ThroughAll(c, a, consumed, started, failed)
  }

  ghost predicate ThroughAll(c: Config, a: System, consumed: seq<nat>, started: bool, failed: bool) {
    && consumed == First(|consumed|)
    && (started && !failed ==> a.s.current == c.jobs && consumed == First(c.jobs))
  }

  lemma AlongCaller(c: Config, a: System, step: Step, consumed: seq<nat>, started: bool, failed: bool)
    requires Shape(c, a) && Enabled(c, a, step) && IsCaller(step) && Along(c, a, consumed, started, failed)
    ensures Along(c, Apply(c, a, step),
                  consumed + if step.ConsumeReturns? then [a.caller.pc.job] else [],
                  started || step == SpawnThread(true),
                  failed || step.ConsumePanics? || step == ConsumeReturns(true))
  {
    if step.ConsumeReturns? {
      assert First(a.caller.pc.job) + [a.caller.pc.job] == First(a.caller.pc.job + 1);
    } else {
      assert consumed + [] == consumed;
    }
  }

  lemma AlongOther(c: Config, a: System, step: Step, consumed: seq<nat>, started: bool, failed: bool)
    requires Shape(c, a) && Enabled(c, a, step) && !IsCaller(step) && Along(c, a, consumed, started, failed)
    ensures Along(c, Apply(c, a, step), consumed, started, failed)
  {
    if IsWake(step) {
      WakeIsOnlyWoken(c, a, step);
    } else if step.SendPass? || step.ClaimPass? || step.ClosePass? {
      CallerUntouched(c, a, step);
    }
  }

  lemma CallerUntouched(c: Config, a: System, step: Step)
    requires Enabled(c, a, step) && IsWorker(step)
    ensures Apply(c, a, step).caller == a.caller && Apply(c, a, step).s.current == a.s.current
  {
  }

  lemma {:induction false} AlongRun(c: Config, workers: nat, trace: seq<System>, steps: seq<Step>, k: nat)
    requires c.Valid() && Run(c, workers, trace, steps) && k <= |steps|
    ensures Along(c, trace[k], Consumed(trace, steps, k), Started(steps, k), ConsumerFailed(steps, k))
  {
    if k > 0 {
      var a, step := trace[k - 1], steps[k - 1];
      AlongRun(c, workers, trace, steps, k - 1);
      InvAlong(c, workers, trace, steps, k - 1);
      assert Moves(c, trace, steps, k - 1);
      var consumed, started, failed := Consumed(trace, steps, k - 1), Started(steps, k - 1), ConsumerFailed(steps, k - 1);
      assert Started(steps, k) <==> started || step == SpawnThread(true);
      assert ConsumerFailed(steps, k) <==> failed || step.ConsumePanics? || step == ConsumeReturns(true);
      if IsCaller(step) {
        AlongCaller(c, a, step, consumed, started, failed);
      } else {
        AlongOther(c, a, step, consumed, started, failed);
        assert consumed + [] == consumed;
      }
    }
  }

  /**
   The consumer is handed the jobs one after another from the first, none twice and
   none left out; and a caller that is done, having started a worker, with a
   consumer that never failed, has consumed them all.
   */
  lemma EveryJobIsConsumed(c: Config, workers: nat, trace: seq<System>, steps: seq<Step>, k: nat)
    requires c.Valid() && Run(c, workers, trace, steps) && k <= |steps|
    ensures Consumed(trace, steps, k) == First(|Consumed(trace, steps, k)|)
    ensures var pc := trace[k].caller.pc;
      (pc.Cancelling? || pc.Joining? || pc.Returned?) && Started(steps, k) && !ConsumerFailed(steps, k) ==>
        trace[k].s.current == c.jobs && Consumed(trace, steps, k) == First(c.jobs)
  {
    AlongRun(c, workers, trace, steps, k);
  }

  // ------------------------------------------------- what is produced for a job arrives

  /** The messages that `job`'s worker set out to send in the first `k` steps, in order. */
  function ProducedFor(trace: seq<System>, steps: seq<Step>, k: nat, job: nat): seq<Message>
    requires |trace| == |steps| + 1 && k <= |steps|
  {
    if k == 0 then [] else ProducedFor(trace, steps, k - 1, job) + ProducedAt(trace[k - 1], steps[k - 1], job)
  }

  function ProducedAt(a: System, step: Step, job: nat): seq<Message> {
    if step.ProduceSends? && step.worker < |a.workers| && a.workers[step.worker].pc == Producing(job) then [step.message]
    else []
  }

  predicate Has(w: Worker, job: nat) { Holds(w) && w.pc.job == job }

  lemma UnheldSame(a: System, b: System, job: nat)
    requires |b.workers| == |a.workers|
    requires forall i :: 0 <= i < |a.workers| ==> Has(b.workers[i], job) == Has(a.workers[i], job)
    ensures Unheld(b, job) == Unheld(a, job)
  {
    if Unheld(b, job) {
      forall i | 0 <= i < |a.workers| ensures !Has(a.workers[i], job) {
        assert !Has(b.workers[i], job);
      }
    }
  }

  /** The message a worker is trying to send. */
  function InHand(w: Worker): seq<Message> {
    if w.pc.Sending? || w.pc.AtChanged? then [w.pc.message] else []
  }

  ghost predicate Unheld(a: System, job: nat) {
    forall i :: 0 <= i < |a.workers| ==> !Has(a.workers[i], job)
  }

  /** While it is wanted, what was produced is what the queue took and what its worker has in hand. */
  ghost predicate Wanted(a: System, job: nat, made: seq<Message>)
    requires job < |a.sent|
  {
    && (forall i :: 0 <= i < |a.workers| && Has(a.workers[i], job) ==> made == a.sent[job] + InHand(a.workers[i]))
    && (Unheld(a, job) ==> made == a.sent[job])
  }

  /** Nobody produces for the job any more, nor ever will. */
  ghost predicate Finished(a: System, job: nat) {
    Unheld(a, job) && (job < a.s.next || forall i :: 0 <= i < |a.workers| ==> !Alive(a.workers[i]))
  }

  ghost predicate Fed(a: System, job: nat, made: seq<Message>)
    requires job < |a.sent|
  {
    && a.sent[job] <= made
    && (!a.s.cancelled && a.s.current <= job ==> Wanted(a, job, made))
    && (job in a.over ==> made == a.sent[job] && Finished(a, job))
  }

  lemma FedAfterWake(c: Config, a: System, step: Step, job: nat, made: seq<Message>)
    requires Enabled(c, a, step) && IsWake(step) && job < |a.sent| && Fed(a, job, made)
    ensures var b := Apply(c, a, step); |b.sent| == |a.sent| && Fed(b, job, made)
  {
    var b := Apply(c, a, step);
    WakeIsOnlyWoken(c, a, step);
    assert forall i :: 0 <= i < |a.workers| ==> WokenWorker(a.workers[i], b.workers[i]);
    forall i | 0 <= i < |a.workers|
      ensures Has(b.workers[i], job) == Has(a.workers[i], job) && InHand(b.workers[i]) == InHand(a.workers[i])
      ensures Alive(b.workers[i]) == Alive(a.workers[i])
    {
    }
    UnheldSame(a, b, job);
  }

  /** A queue that is over has no worker left. */
  lemma OverIsFinished(c: Config, b: System, job: nat)
    requires Inv(c, b) && job in b.over && job == b.s.current
    ensures Finished(b, job)
  {
    assert b.s.slots != [] && Settled(b.s) && SlotSound(c, b.s.slots[0]);
    CountPositive(b.workers, Alive);
  }

  lemma FedAfterReceive(c: Config, a: System, job: nat, made: seq<Message>)
    requires Inv(c, a) && Enabled(c, a, RecvPass) && job < |a.sent| && Fed(a, job, made)
    ensures var b := Apply(c, a, RecvPass); |b.sent| == |a.sent| && Fed(b, job, made)
  {
    var b := Apply(c, a, RecvPass);
    ReceiveKeeps(c, a);
    if job in b.over && job !in a.over {
      InvKept(c, a, RecvPass);
      OverIsFinished(c, b, job);
    }
  }

  lemma ReceiveKeeps(c: Config, a: System)
    requires Inv(c, a) && Enabled(c, a, RecvPass)
    ensures var b := Apply(c, a, RecvPass);
      && b.workers == a.workers && b.sent == a.sent && b.s.next == a.s.next
      && b.s.current == a.s.current && b.s.cancelled == a.s.cancelled && !a.s.cancelled
      && a.over <= b.over <= a.over + {a.s.current}
  {
    RecvEffect(c, a.s, a.caller.pc.job);
  }

  /** But for starting a worker and receiving, the caller leaves the workers and the queues' logs alone. */
  lemma CallerLeaves(c: Config, a: System, step: Step)
    requires Enabled(c, a, step) && IsCaller(step) && !step.RecvPass? && step != SpawnThread(true)
    ensures var b := Apply(c, a, step);
      && b.workers == a.workers && b.sent == a.sent && b.over == a.over && b.s.next == a.s.next
      && b.s.current >= a.s.current && (a.s.cancelled ==> b.s.cancelled)
  {
  }

  lemma FedAfterStart(c: Config, a: System, job: nat, made: seq<Message>)
    requires Inv(c, a) && Enabled(c, a, SpawnThread(true)) && job < |a.sent| && Fed(a, job, made)
    ensures var b := Apply(c, a, SpawnThread(true)); |b.sent| == |a.sent| && Fed(b, job, made)
  {
    UnheldSame(a, Apply(c, a, SpawnThread(true)), job);
  }

  lemma FedAfterCaller(c: Config, a: System, step: Step, job: nat, made: seq<Message>)
    requires Inv(c, a) && Enabled(c, a, step) && IsCaller(step) && job < |a.sent| && Fed(a, job, made)
    ensures var b := Apply(c, a, step); |b.sent| == |a.sent| && Fed(b, job, made)
  {
    if step.RecvPass? {
      FedAfterReceive(c, a, job, made);
    } else if step == SpawnThread(true) {
      FedAfterStart(c, a, job, made);
    } else {
      CallerLeaves(c, a, step);
    }
  }

  /** Worker `i` keeps its job, or goes about without one. */
  lemma FedPut(a: System, b: System, i: nat, job: nat, made: seq<Message>, more: seq<Message>)
    requires job < |a.sent| && Fed(a, job, made)
    requires i < |a.workers| && |b.workers| == |a.workers| && b.workers == a.workers[i := b.workers[i]]
    requires |b.sent| == |a.sent| && b.sent[job] == a.sent[job] && b.over == a.over && b.s.next == a.s.next
    requires b.s.current == a.s.current && b.s.cancelled == a.s.cancelled
    requires Alive(a.workers[i])
    requires Has(b.workers[i], job) == Has(a.workers[i], job)
    requires forall k :: 0 <= k < |a.workers| && k != i && Has(a.workers[i], job) ==> !Has(a.workers[k], job)
    requires !Has(a.workers[i], job) ==> more == []
    requires Has(a.workers[i], job) && !a.s.cancelled && a.s.current <= job ==>
      InHand(a.workers[i]) + more == InHand(b.workers[i])
    ensures |b.sent| == |a.sent| && Fed(b, job, made + more)
  {
    assert made + [] == made;
    if !a.s.cancelled && a.s.current <= job {
      WantedPut(a, b, i, job, made, more);
    }
    assert Unheld(a, job) ==> Unheld(b, job);
  }

  lemma WantedPut(a: System, b: System, i: nat, job: nat, made: seq<Message>, more: seq<Message>)
    requires job < |a.sent| && Wanted(a, job, made)
    requires i < |a.workers| && |b.workers| == |a.workers| && b.workers == a.workers[i := b.workers[i]]
    requires |b.sent| == |a.sent| && b.sent[job] == a.sent[job]
    requires Has(b.workers[i], job) == Has(a.workers[i], job)
    requires forall k :: 0 <= k < |a.workers| && k != i && Has(a.workers[i], job) ==> !Has(a.workers[k], job)
    requires if Has(a.workers[i], job) then InHand(a.workers[i]) + more == InHand(b.workers[i]) else more == []
    ensures Wanted(b, job, made + more)
  {
    assert made + [] == made;
    if Has(a.workers[i], job) {
      assert made + more == a.sent[job] + (InHand(a.workers[i]) + more);
    } else {
      UnheldSame(a, b, job);
    }
  }

  lemma OnlyHolder(c: Config, a: System, i: nat)
    requires Inv(c, a) && i < |a.workers| && Holds(a.workers[i])
    ensures a.workers[i].pc.job < a.s.next
    ensures forall k :: 0 <= k < |a.workers| && k != i ==> !Has(a.workers[k], a.workers[i].pc.job)
  {
  }

  lemma FedAfterClaim(c: Config, a: System, i: nat, width: nat, job: nat, made: seq<Message>)
    requires Inv(c, a) && Enabled(c, a, ClaimPass(i, width)) && job < |a.sent| && Fed(a, job, made)
    ensures var b := RunClaim(c, a, i, width); |b.sent| == |a.sent| && Fed(b, job, made)
  {
    var b := RunClaim(c, a, i, width);
    ClaimEffect(c, a.s, width);
    assert Alive(a.workers[i]);
    forall k | 0 <= k < |a.workers| && Holds(a.workers[k]) ensures a.workers[k].pc.job < a.s.next {
      OnlyHolder(c, a, k);
    }
    assert !Has(a.workers[i], job);
    if Has(b.workers[i], job) {
      assert Unheld(a, job);
      assert a.sent[job] + [] == a.sent[job];
    } else {
      UnheldSame(a, b, job);
    }
  }

  /** The queue took a message of `job`'s worker. */
  lemma FedWhenAccepted(a: System, b: System, i: nat, job: nat, m: Message, made: seq<Message>)
    requires job < |a.sent| && Fed(a, job, made)
    requires i < |a.workers| && |b.workers| == |a.workers| && b.workers == a.workers[i := b.workers[i]]
    requires Has(a.workers[i], job) && InHand(a.workers[i]) == [m] && !a.s.cancelled && a.s.current <= job
    requires Has(b.workers[i], job) && InHand(b.workers[i]) == []
    requires forall k :: 0 <= k < |a.workers| && k != i ==> !Has(a.workers[k], job)
    requires b.sent == a.sent[job := a.sent[job] + [m]] && b.over == a.over
    ensures |b.sent| == |a.sent| && Fed(b, job, made)
  {
    assert made == a.sent[job] + [m];
    assert b.sent[job] + [] == made;
    assert job !in a.over;
  }

  lemma SendKeeps(c: Config, a: System, i: nat)
    requires Inv(c, a) && Enabled(c, a, SendPass(i))
    ensures var b, pc := RunSend(c, a, i), a.workers[i].pc;
      && b.workers == a.workers[i := b.workers[i]]
      && Holds(b.workers[i]) && b.workers[i].pc.job == pc.job && b.over == a.over && b.s.next == a.s.next
      && b.s.current == a.s.current && b.s.cancelled == a.s.cancelled
      && (if SendSection(c, a.s, pc.job, pc.message, pc.AtChanged?).1.Accepted? then
            && !a.s.cancelled && a.s.current <= pc.job < |a.sent| && InHand(b.workers[i]) == []
            && b.sent == a.sent[pc.job := a.sent[pc.job] + [pc.message]]
          else
            b.sent == a.sent && (a.s.cancelled || pc.job < a.s.current || InHand(b.workers[i]) == [pc.message]))
  {
    var pc := a.workers[i].pc;
    OnlyHolder(c, a, i);
    SendEffect(c, a.s, pc.job, pc.message, pc.AtChanged?);
  }

  lemma FedAfterSend(c: Config, a: System, i: nat, job: nat, made: seq<Message>)
    requires Inv(c, a) && Enabled(c, a, SendPass(i)) && job < |a.sent| && Fed(a, job, made)
    ensures var b := RunSend(c, a, i); |b.sent| == |a.sent| && Fed(b, job, made)
  {
    var b := RunSend(c, a, i);
    OnlyHolder(c, a, i);
    SendKeeps(c, a, i);
    if b.sent != a.sent && a.workers[i].pc.job == job {
      FedWhenAccepted(a, b, i, job, a.workers[i].pc.message, made);
    } else {
      assert made + [] == made;
      FedPut(a, b, i, job, made, []);
    }
  }

  lemma FedAfterClose(c: Config, a: System, i: nat, job: nat, made: seq<Message>)
    requires Inv(c, a) && Enabled(c, a, ClosePass(i)) && job < |a.sent| && Fed(a, job, made)
    ensures var b := Apply(c, a, ClosePass(i)); |b.sent| == |a.sent| && Fed(b, job, made)
  {
    var b := Apply(c, a, ClosePass(i));
    OnlyHolder(c, a, i);
    CloseEffect(a.s, a.workers[i].pc.job);
    if Has(a.workers[i], job) {
      assert a.sent[job] + [] == a.sent[job];
    } else {
      assert made + [] == made;
      FedPut(a, b, i, job, made, []);
    }
  }

  lemma FedAfterProducing(c: Config, a: System, step: Step, job: nat, made: seq<Message>)
    requires Inv(c, a) && Enabled(c, a, step) && (step.ProduceSends? || step.ProduceEnds?)
    requires job < |a.sent| && Fed(a, job, made)
    ensures var b := Apply(c, a, step); |b.sent| == |a.sent| && Fed(b, job, made + ProducedAt(a, step, job))
  {
    OnlyHolder(c, a, step.worker);
    FedPut(a, Apply(c, a, step), step.worker, job, made, ProducedAt(a, step, job));
  }

  lemma FedAfterWorker(c: Config, a: System, step: Step, job: nat, made: seq<Message>)
    requires Inv(c, a) && Enabled(c, a, step) && IsWorker(step) && job < |a.sent| && Fed(a, job, made)
    ensures var b := Apply(c, a, step); |b.sent| == |a.sent| && Fed(b, job, made + ProducedAt(a, step, job))
  {
    assert made + [] == made;
    if step.ClaimPass? {
      FedAfterClaim(c, a, step.worker, step.width, job, made);
    } else if step.SendPass? {
      FedAfterSend(c, a, step.worker, job, made);
    } else if step.ClosePass? {
      FedAfterClose(c, a, step.worker, job, made);
    } else if step.ProduceSends? || step.ProduceEnds? {
      FedAfterProducing(c, a, step, job, made);
    } else {
      FedPut(a, Apply(c, a, step), step.worker, job, made, []);
    }
  }

  lemma FedAfter(c: Config, a: System, step: Step, job: nat, made: seq<Message>)
    requires Inv(c, a) && Enabled(c, a, step) && job < |a.sent| && Fed(a, job, made)
    ensures var b := Apply(c, a, step); |b.sent| == |a.sent| && Fed(b, job, made + ProducedAt(a, step, job))
  {
    assert made + [] == made;
    if IsWake(step) {
      FedAfterWake(c, a, step, job, made);
    } else if IsCaller(step) {
      FedAfterCaller(c, a, step, job, made);
    } else {
      FedAfterWorker(c, a, step, job, made);
    }
  }

  lemma {:induction false} FedAlong(c: Config, workers: nat, trace: seq<System>, steps: seq<Step>, k: nat, job: nat)
    requires c.Valid() && Run(c, workers, trace, steps) && k <= |steps| && job < c.jobs
    ensures |trace[k].sent| == c.jobs && Fed(trace[k], job, ProducedFor(trace, steps, k, job))
  {
    if k > 0 {
      FedAlong(c, workers, trace, steps, k - 1, job);
      InvAlong(c, workers, trace, steps, k - 1);
      assert Moves(c, trace, steps, k - 1);
      FedAfter(c, trace[k - 1], steps[k - 1], job, ProducedFor(trace, steps, k - 1, job));
    }
  }

  /**
   The caller is given a prefix of what was produced for a job, and once it is told
   that the job is over it has been given every message.
   */
  lemma EverythingProducedArrives(c: Config, workers: nat, trace: seq<System>, steps: seq<Step>, k: nat, job: nat)
    requires c.Valid() && Run(c, workers, trace, steps) && k <= |steps| && job < c.jobs
    ensures |trace[k].received| == c.jobs
    ensures trace[k].received[job] <= ProducedFor(trace, steps, k, job)
    ensures job in trace[k].over ==> trace[k].received[job] == ProducedFor(trace, steps, k, job)
  {
    FedAlong(c, workers, trace, steps, k, job);
    InvAlong(c, workers, trace, steps, k);
    assert LogOk(trace[k], job);
  }

  // ------------------------------------------------- and no job is passed over unclaimed

  /** Some worker's state could not be built, or a producer panicked. */
  predicate WorkerFailed(steps: seq<Step>, k: nat)
    requires k <= |steps|
  {
    exists i :: 0 <= i < k && (steps[i].StateBuilt? || steps[i].ProduceEnds?) && steps[i].panicked
  }

  /** Workers leave only when there is nothing left to claim. */
  ghost predicate Willing(c: Config, a: System) {
    forall i :: 0 <= i < |a.workers| ==>
      && (a.workers[i].pc.Leaving? || a.workers[i].pc.Exited? ==> a.s.cancelled || a.s.next >= c.jobs)
      && !(a.workers[i].pc.Closing? && a.workers[i].pc.unwinding)
  }

  ghost predicate Manned(a: System) {
    exists i :: 0 <= i < |a.workers| && !a.workers[i].pc.Unborn?
  }

  /** A job that is over was claimed. */
  ghost predicate OverWasClaimed(a: System) {
    forall job :: job in a.over ==> job < a.s.next
  }

  lemma WillingAfterQueueWork(c: Config, a: System, step: Step)
    requires Inv(c, a) && Enabled(c, a, step) && (step.SendPass? || step.ClosePass?) && Willing(c, a)
    ensures Willing(c, Apply(c, a, step))
  {
    OnlyHolder(c, a, step.worker);
    if step.SendPass? {
      SendKeeps(c, a, step.worker);
    } else {
      CloseEffect(a.s, a.workers[step.worker].pc.job);
    }
  }

  lemma WillingAfterWorker(c: Config, a: System, step: Step)
    requires Inv(c, a) && Enabled(c, a, step) && IsWorker(step) && Willing(c, a)
    requires !((step.StateBuilt? || step.ProduceEnds?) && step.panicked)
    ensures Willing(c, Apply(c, a, step))
  {
    if step.ClaimPass? {
      ClaimEffect(c, a.s, step.width);
    } else if step.SendPass? || step.ClosePass? {
      WillingAfterQueueWork(c, a, step);
    }
  }

  lemma WillingAfterWake(c: Config, a: System, step: Step)
    requires Enabled(c, a, step) && IsWake(step) && Willing(c, a)
    ensures Willing(c, Apply(c, a, step))
  {
    WakeIsOnlyWoken(c, a, step);
    assert forall i :: 0 <= i < |a.workers| ==> WokenWorker(a.workers[i], Apply(c, a, step).workers[i]);
  }

  lemma WillingAfter(c: Config, a: System, step: Step)
    requires Inv(c, a) && Enabled(c, a, step) && Willing(c, a)
    requires !((step.StateBuilt? || step.ProduceEnds?) && step.panicked)
    ensures Willing(c, Apply(c, a, step))
  {
    if IsWake(step) {
      WillingAfterWake(c, a, step);
    } else if IsWorker(step) {
      WillingAfterWorker(c, a, step);
    } else if step.RecvPass? {
      ReceiveKeeps(c, a);
    } else if step != SpawnThread(true) {
      CallerLeaves(c, a, step);
    }
  }

  lemma MannedAfterWake(c: Config, a: System, step: Step)
    requires Enabled(c, a, step) && IsWake(step) && Manned(a)
    ensures Manned(Apply(c, a, step))
  {
    var i :| 0 <= i < |a.workers| && !a.workers[i].pc.Unborn?;
    WakeIsOnlyWoken(c, a, step);
    assert WokenWorker(a.workers[i], Apply(c, a, step).workers[i]);
  }

  lemma MannedAfterWorker(c: Config, a: System, step: Step)
    requires Enabled(c, a, step) && IsWorker(step) && Manned(a)
    ensures Manned(Apply(c, a, step))
  {
    var i :| 0 <= i < |a.workers| && !a.workers[i].pc.Unborn?;
    assert !Apply(c, a, step).workers[i].pc.Unborn?;
  }

  lemma MannedAfter(c: Config, a: System, step: Step)
    requires Inv(c, a) && Enabled(c, a, step) && (Manned(a) || step == SpawnThread(true))
    ensures Manned(Apply(c, a, step))
  {
    if IsWake(step) {
      MannedAfterWake(c, a, step);
    } else if IsWorker(step) {
      MannedAfterWorker(c, a, step);
    } else if step == SpawnThread(true) {
      assert !Apply(c, a, step).workers[a.caller.pc.index].pc.Unborn?;
    } else if step.RecvPass? {
      ReceiveKeeps(c, a);
    } else {
      CallerLeaves(c, a, step);
    }
  }

  /** With a worker still willing, the caller's job can only be over when a worker closed it. */
  lemma OverWhenClosed(c: Config, b: System)
    requires Inv(c, b) && Willing(c, b) && Manned(b) && b.s.current in b.over && !b.s.cancelled
    ensures b.s.current < b.s.next
  {
    assert Settled(b.s) && SlotSound(c, b.s.slots[0]);
    CountPositive(b.workers, Alive);
    var i :| 0 <= i < |b.workers| && !b.workers[i].pc.Unborn?;
    assert b.workers[i].pc.Exited? || Alive(b.workers[i]);
  }

  lemma ClaimedAfter(c: Config, a: System, step: Step)
    requires Inv(c, a) && Enabled(c, a, step) && Willing(c, a) && OverWasClaimed(a)
    requires a.over == {} || Manned(a)
    requires step.RecvPass? ==> Manned(a)
    requires !((step.StateBuilt? || step.ProduceEnds?) && step.panicked)
    ensures OverWasClaimed(Apply(c, a, step))
  {
    var b := Apply(c, a, step);
    if step.RecvPass? {
      InvKept(c, a, step);
      WillingAfter(c, a, step);
      MannedAfter(c, a, step);
      RecvEffect(c, a.s, a.caller.pc.job);
      if a.s.current in b.over {
        OverWhenClosed(c, b);
      }
    } else {
      OverAndNextKept(c, a, step);
    }
  }

  lemma OverAndNextKept(c: Config, a: System, step: Step)
    requires Inv(c, a) && Enabled(c, a, step) && !step.RecvPass?
    ensures Apply(c, a, step).over == a.over && Apply(c, a, step).s.next >= a.s.next
  {
    if IsWake(step) {
      WakeIsOnlyWoken(c, a, step);
    } else if step.ClaimPass? {
      ClaimEffect(c, a.s, step.width);
    } else if step.SendPass? {
      OnlyHolder(c, a, step.worker);
      SendEffect(c, a.s, a.workers[step.worker].pc.job, a.workers[step.worker].pc.message, a.workers[step.worker].pc.AtChanged?);
    } else if step.ClosePass? {
      OnlyHolder(c, a, step.worker);
      CloseEffect(a.s, a.workers[step.worker].pc.job);
    }
  }

  ghost predicate Claims(c: Config, a: System, started: bool) {
    && Willing(c, a)
    && (started ==> Manned(a))
    && (!started ==> a.over == {})
    && OverWasClaimed(a)
  }

  lemma ClaimsAfter(c: Config, a: System, step: Step, started: bool)
    requires Inv(c, a) && Enabled(c, a, step) && Claims(c, a, started)
    requires step.RecvPass? ==> started
    requires !((step.StateBuilt? || step.ProduceEnds?) && step.panicked)
    ensures Claims(c, Apply(c, a, step), started || step == SpawnThread(true))
  {
    WillingAfter(c, a, step);
    ClaimedAfter(c, a, step);
    if started || step == SpawnThread(true) {
      MannedAfter(c, a, step);
    } else {
      OverAndNextKept(c, a, step);
    }
  }

  /** The caller receives nothing before it has started a worker. */
  ghost predicate Underway(a: System, started: bool) {
    match a.caller.pc
    case Counting(i) => i > 0 ==> started
    case Spawning(i) => i > 0 ==> started
    case Refused(i) => i > 0 ==> started
    case Consuming(_) => started
    case Receiving(_) => started
    case AtReady(_, _) => started
    case Advancing(_, _) => started
    case Cancelling => true
    case Joining => true
    case Returned => true
  }

  lemma UnderwayAfter(c: Config, a: System, step: Step, started: bool)
    requires Enabled(c, a, step) && Underway(a, started)
    ensures Underway(Apply(c, a, step), started || step == SpawnThread(true))
  {
    if IsWake(step) {
      WakeIsOnlyWoken(c, a, step);
    } else if IsWorker(step) {
      CallerUntouched(c, a, step);
    }
  }

  lemma {:induction false} ClaimsAlong(c: Config, workers: nat, trace: seq<System>, steps: seq<Step>, k: nat)
    requires c.Valid() && Run(c, workers, trace, steps) && k <= |steps| && !WorkerFailed(steps, k)
    ensures Claims(c, trace[k], Started(steps, k)) && Underway(trace[k], Started(steps, k))
  {
    if k > 0 {
      assert !WorkerFailed(steps, k - 1);
      ClaimsAlong(c, workers, trace, steps, k - 1);
      InvAlong(c, workers, trace, steps, k - 1);
      assert Moves(c, trace, steps, k - 1);
      var step, started := steps[k - 1], Started(steps, k - 1);
      assert Started(steps, k) <==> started || step == SpawnThread(true);
      ClaimsAfter(c, trace[k - 1], step, started);
      UnderwayAfter(c, trace[k - 1], step, started);
    }
  }

  /** Step `i` left a worker with `job` in hand, claimed just then. */
  predicate ClaimsJob(trace: seq<System>, steps: seq<Step>, i: nat, job: nat)
    requires |trace| == |steps| + 1 && i < |steps|
  {
    steps[i].ClaimPass? && steps[i].worker < |trace[i + 1].workers|
    && trace[i + 1].workers[steps[i].worker].pc == Producing(job)
  }

  ghost predicate WasClaimed(trace: seq<System>, steps: seq<Step>, k: nat, job: nat)
    requires |trace| == |steps| + 1 && k <= |steps|
  {
    exists i :: 0 <= i < k && ClaimsJob(trace, steps, i, job)
  }

  /** Where no worker fails, a job is over for the caller only when a worker claimed it. */
  lemma OverMeansClaimed(c: Config, workers: nat, trace: seq<System>, steps: seq<Step>, k: nat, job: nat)
    requires c.Valid() && Run(c, workers, trace, steps) && k <= |steps| && !WorkerFailed(steps, k)
    requires job in trace[k].over
    ensures WasClaimed(trace, steps, k, job)
  {
    ClaimsAlong(c, workers, trace, steps, k);
    NextWasClaimed(c, workers, trace, steps, k, job);
  }

  lemma {:induction false} NextWasClaimed(c: Config, workers: nat, trace: seq<System>, steps: seq<Step>, k: nat, job: nat)
    requires c.Valid() && Run(c, workers, trace, steps) && k <= |steps| && job < trace[k].s.next
    ensures WasClaimed(trace, steps, k, job)
  {
    if k > 0 {
      InvAlong(c, workers, trace, steps, k - 1);
      assert Moves(c, trace, steps, k - 1);
      if job < trace[k - 1].s.next {
        NextWasClaimed(c, workers, trace, steps, k - 1, job);
      } else {
        ClaimTakesNext(c, trace[k - 1], steps[k - 1]);
        assert ClaimsJob(trace, steps, k - 1, job);
      }
    }
  }

  lemma ClaimTakesNext(c: Config, a: System, step: Step)
    requires Inv(c, a) && Enabled(c, a, step) && Apply(c, a, step).s.next > a.s.next
    ensures step.ClaimPass? && step.worker < |Apply(c, a, step).workers|
    ensures Apply(c, a, step).s.next == a.s.next + 1 && Apply(c, a, step).workers[step.worker].pc == Producing(a.s.next)
  {
    if IsWake(step) {
      WakeIsOnlyWoken(c, a, step);
    } else if step.ClaimPass? {
      ClaimEffect(c, a.s, step.width);
    }
  }

  // ------------------------------------------------- the workers themselves

  /** As many workers as were asked for, at least one and no more than there are jobs. */
  lemma {:induction false} WorkersAsAsked(c: Config, workers: nat, trace: seq<System>, steps: seq<Step>, k: nat)
    requires c.Valid() && Run(c, workers, trace, steps) && k <= |steps|
    ensures |trace[k].workers| == if c.jobs <= 1 || workers <= 1 then (if c.jobs == 0 then 0 else 1)
                                  else if workers <= c.jobs then workers else c.jobs
  {
    if k > 0 {
      WorkersAsAsked(c, workers, trace, steps, k - 1);
      assert Moves(c, trace, steps, k - 1);
    }
  }

  /** Worker `i` panicked while its state was built, or in its producer. */
  predicate WorkerPanicked(steps: seq<Step>, k: nat, i: nat)
    requires k <= |steps|
  {
    exists j :: 0 <= j < k && (steps[j] == StateBuilt(i, true) || steps[j] == ProduceEnds(i, true))
  }

  /** On its way out: with its job's queue to close, or leaving, or gone. */
  predicate OnItsWayOut(w: Worker) {
    (w.pc.Closing? && w.pc.unwinding) || w.pc.Leaving? || w.pc.Exited?
  }

  lemma OutStaysOut(c: Config, a: System, step: Step, i: nat)
    requires Enabled(c, a, step) && i < |a.workers| && OnItsWayOut(a.workers[i])
    requires !(step == SpawnThread(true) && a.caller.pc.Spawning? && a.caller.pc.index == i)
    ensures i < |Apply(c, a, step).workers| && OnItsWayOut(Apply(c, a, step).workers[i])
  {
    if IsWake(step) {
      WakeIsOnlyWoken(c, a, step);
      assert WokenWorker(a.workers[i], Apply(c, a, step).workers[i]);
    }
  }

  lemma PanicTakesItOut(c: Config, a: System, step: Step, i: nat)
    requires Enabled(c, a, step) && (step == StateBuilt(i, true) || step == ProduceEnds(i, true))
    ensures i < |Apply(c, a, step).workers| && OnItsWayOut(Apply(c, a, step).workers[i])
  {
  }

  lemma NotSpawnedAgain(c: Config, a: System, i: nat)
    requires Inv(c, a) && Enabled(c, a, SpawnThread(true)) && i < |a.workers| && OnItsWayOut(a.workers[i])
    ensures a.caller.pc.index != i
  {
    assert NeverRan(a.workers[a.caller.pc.index]);
  }

  /** A worker that panicked claims and produces nothing any more, whatever the schedule. */
  lemma {:induction false} PanickedWorkerIsDone(c: Config, workers: nat, trace: seq<System>, steps: seq<Step>, k: nat, i: nat)
    requires c.Valid() && Run(c, workers, trace, steps) && k <= |steps| && WorkerPanicked(steps, k, i)
    ensures i < |trace[k].workers| && OnItsWayOut(trace[k].workers[i])
  {
    assert Moves(c, trace, steps, k - 1);
    var a, step := trace[k - 1], steps[k - 1];
    if step == StateBuilt(i, true) || step == ProduceEnds(i, true) {
      PanicTakesItOut(c, a, step, i);
    } else {
      PanickedWorkerIsDone(c, workers, trace, steps, k - 1, i);
      InvAlong(c, workers, trace, steps, k - 1);
      if step == SpawnThread(true) {
        NotSpawnedAgain(c, a, i);
      }
      OutStaysOut(c, a, step, i);
    }
  }

  /** Some thread was refused. */
  predicate ThreadRefused(steps: seq<Step>, k: nat)
    requires k <= |steps|
  {
    exists j :: 0 <= j < k && steps[j] == SpawnThread(false)
  }

  predicate Born(w: Worker) { !w.pc.Unborn? }

  /** The workers the caller has come to are started; past its spawning all of them are, unless it was refused. */
  ghost predicate StartedSoFar(a: System, refused: bool) {
    match a.caller.pc
    case Counting(i) => !refused && i <= |a.workers| && BornBelow(a, i)
    case Spawning(i) => !refused && i <= |a.workers| && BornBelow(a, i)
    case Refused(_) => refused
    case Consuming(_) => refused || BornBelow(a, |a.workers|)
    case Receiving(_) => refused || BornBelow(a, |a.workers|)
    case AtReady(_, _) => refused || BornBelow(a, |a.workers|)
    case Advancing(_, _) => refused || BornBelow(a, |a.workers|)
    case Cancelling => refused || BornBelow(a, |a.workers|)
    case Joining => refused || BornBelow(a, |a.workers|)
    case Returned => refused || BornBelow(a, |a.workers|)
  }

  ghost predicate BornBelow(a: System, n: nat)
    requires n <= |a.workers|
  {
    forall i :: 0 <= i < n ==> Born(a.workers[i])
  }

  lemma StaysBorn(c: Config, a: System, step: Step, n: nat)
    requires Enabled(c, a, step) && n <= |a.workers| && BornBelow(a, n) && !step.SpawnThread?
    ensures n <= |Apply(c, a, step).workers| == |a.workers| && BornBelow(Apply(c, a, step), n)
  {
    if IsWake(step) {
      WakeIsOnlyWoken(c, a, step);
      assert forall i :: 0 <= i < |a.workers| ==> WokenWorker(a.workers[i], Apply(c, a, step).workers[i]);
    }
  }

  lemma StartedAfterSpawn(c: Config, a: System, granted: bool)
    requires Enabled(c, a, SpawnThread(granted)) && StartedSoFar(a, false)
    ensures StartedSoFar(Apply(c, a, SpawnThread(granted)), !granted)
  {
  }

  lemma StartedAfter(c: Config, a: System, step: Step, refused: bool)
    requires Enabled(c, a, step) && StartedSoFar(a, refused)
    ensures StartedSoFar(Apply(c, a, step), refused || step == SpawnThread(false))
  {
    if step.SpawnThread? {
      StartedAfterSpawn(c, a, step.granted);
    } else {
      var n := match a.caller.pc case Counting(i) => i case Spawning(i) => i case _ => |a.workers|;
      if !refused {
        StaysBorn(c, a, step, n);
      }
      CallerPlaceAfter(c, a, step);
    }
  }

  /** Where the caller can get to by a step other than starting a worker. */
  lemma CallerPlaceAfter(c: Config, a: System, step: Step)
    requires Enabled(c, a, step) && !step.SpawnThread?
    ensures var p, q := a.caller.pc, Apply(c, a, step).caller.pc;
      && (q.Counting? ==> p == q)
      && (q.Spawning? ==> p == q || p == CallerPc.Counting(q.index))
      && (q.Refused? ==> p == q)
      && (p.Counting? ==> q == p || q == Spawning(p.index))
      && (p.Spawning? ==> q == p)
  {
    if IsWake(step) {
      WakeIsOnlyWoken(c, a, step);
    } else if IsWorker(step) {
      CallerUntouched(c, a, step);
    }
  }

  lemma {:induction false} StartedAlong(c: Config, workers: nat, trace: seq<System>, steps: seq<Step>, k: nat)
    requires c.Valid() && Run(c, workers, trace, steps) && k <= |steps|
    ensures StartedSoFar(trace[k], ThreadRefused(steps, k))
  {
    if k > 0 {
      StartedAlong(c, workers, trace, steps, k - 1);
      assert Moves(c, trace, steps, k - 1);
      assert ThreadRefused(steps, k) <==> ThreadRefused(steps, k - 1) || steps[k - 1] == SpawnThread(false);
      StartedAfter(c, trace[k - 1], steps[k - 1], ThreadRefused(steps, k - 1));
    }
  }

  /** Once the caller is past its spawning, every worker was started, unless a thread was refused. */
  lemma AllAreStarted(c: Config, workers: nat, trace: seq<System>, steps: seq<Step>, k: nat)
    requires c.Valid() && Run(c, workers, trace, steps) && k <= |steps|
    ensures var pc := trace[k].caller.pc;
      pc.Counting? || pc.Spawning? || ThreadRefused(steps, k)
      || forall i :: 0 <= i < |trace[k].workers| ==> !trace[k].workers[i].pc.Unborn?
  {
    StartedAlong(c, workers, trace, steps, k);
  }

  // ------------------------------------------------- who is woken

  /** Without pacing all admission sleepers are woken together only by a failure or a farewell. */
  ghost predicate FewWoken(c: Config, a: System) {
    c.paced
    || ((AdmissionAll in a.caller.notes ==> a.s.cancelled)
        && forall i :: 0 <= i < |a.workers| && AdmissionAll in a.workers[i].notes ==> a.workers[i].pc.Exited?)
  }

  lemma FewWokenAfterWake(c: Config, a: System, step: Step)
    requires Enabled(c, a, step) && IsWake(step) && FewWoken(c, a)
    ensures FewWoken(c, Apply(c, a, step))
  {
    WakeIsOnlyWoken(c, a, step);
    var b := Apply(c, a, step);
    assert b.caller.notes == a.caller.notes || (a.caller.notes != [] && b.caller.notes == a.caller.notes[1..]);
    forall i | 0 <= i < |a.workers| && AdmissionAll in b.workers[i].notes && !c.paced ensures b.workers[i].pc.Exited? {
      assert WokenWorker(a.workers[i], b.workers[i]);
    }
  }

  lemma FewWokenAfter(c: Config, a: System, step: Step)
    requires Inv(c, a) && Enabled(c, a, step) && FewWoken(c, a)
    ensures FewWoken(c, Apply(c, a, step))
  {
    if IsWake(step) {
      FewWokenAfterWake(c, a, step);
    } else if IsWorker(step) {
      CallerUntouched(c, a, step);
      FewWokenAfterWorker(c, a, step);
    } else if step.RecvPass? {
      ReceiveKeeps(c, a);
    }
  }

  lemma FewWokenAfterWorker(c: Config, a: System, step: Step)
    requires Inv(c, a) && Enabled(c, a, step) && IsWorker(step) && FewWoken(c, a)
    ensures FewWoken(c, Apply(c, a, step))
  {
    ShapeKeptByWorker(c, a, step);
    var b := Apply(c, a, step);
    assert a.s.cancelled == b.s.cancelled by {
      CancelledKept(c, a, step);
    }
  }

  lemma CancelledKept(c: Config, a: System, step: Step)
    requires Inv(c, a) && Enabled(c, a, step) && IsWorker(step)
    ensures Apply(c, a, step).s.cancelled == a.s.cancelled
  {
    if step.ClaimPass? {
      ClaimEffect(c, a.s, step.width);
    } else if step.SendPass? {
      SendKeeps(c, a, step.worker);
    } else if step.ClosePass? {
      OnlyHolder(c, a, step.worker);
      CloseEffect(a.s, a.workers[step.worker].pc.job);
    }
  }

  lemma {:induction false} FewAreWoken(c: Config, workers: nat, trace: seq<System>, steps: seq<Step>, k: nat)
    requires c.Valid() && Run(c, workers, trace, steps) && k <= |steps|
    ensures FewWoken(c, trace[k])
  {
    if k > 0 {
      FewAreWoken(c, workers, trace, steps, k - 1);
      InvAlong(c, workers, trace, steps, k - 1);
      assert Moves(c, trace, steps, k - 1);
      FewWokenAfter(c, trace[k - 1], steps[k - 1]);
    }
  }

  // ------------------------------------------------- after the consumer failed

  /** The consumer failed at `job`: the caller is about to say so, or has, and claims stay inside the window it had. */
  ghost predicate FailedAt(c: Config, a: System, job: nat) {
    && a.s.next <= job + c.window
    && (a.s.cancelled || (a.caller.pc == Advancing(job, true) && a.s.current == job))
  }

  lemma FailedAfterWorker(c: Config, a: System, step: Step, job: nat)
    requires Inv(c, a) && Enabled(c, a, step) && IsWorker(step) && FailedAt(c, a, job)
    ensures FailedAt(c, Apply(c, a, step), job)
  {
    CallerUntouched(c, a, step);
    CancelledKept(c, a, step);
    ShapeKeptByWorker(c, a, step);
    if a.s.cancelled && Apply(c, a, step).s.next > a.s.next {
      ClaimTakesNext(c, a, step);
      ClaimEffect(c, a.s, step.width);
    }
  }

  lemma FailedAfterCaller(c: Config, a: System, step: Step, job: nat)
    requires Inv(c, a) && Enabled(c, a, step) && IsCaller(step) && FailedAt(c, a, job)
    ensures FailedAt(c, Apply(c, a, step), job)
  {
    if step.RecvPass? {
      ReceiveKeeps(c, a);
    }
  }

  lemma FailedAfter(c: Config, a: System, step: Step, job: nat)
    requires Inv(c, a) && Enabled(c, a, step) && FailedAt(c, a, job)
    ensures FailedAt(c, Apply(c, a, step), job)
  {
    if IsWake(step) {
      WakeIsOnlyWoken(c, a, step);
    } else if IsCaller(step) {
      FailedAfterCaller(c, a, step, job);
    } else {
      FailedAfterWorker(c, a, step, job);
    }
  }

  /** After the consumer returned a failure at a job, nothing at or past it plus the window is ever claimed. */
  lemma {:induction false} NoClaimPastTheFailure(c: Config, workers: nat, trace: seq<System>, steps: seq<Step>, i: nat, k: nat)
    requires c.Valid() && Run(c, workers, trace, steps) && i < k <= |steps|
    requires steps[i] == ConsumeReturns(true) && trace[i].caller.pc.Consuming?
    ensures FailedAt(c, trace[k], trace[i].caller.pc.job)
  {
    InvAlong(c, workers, trace, steps, k - 1);
    assert Moves(c, trace, steps, k - 1);
    if i < k - 1 {
      NoClaimPastTheFailure(c, workers, trace, steps, i, k - 1);
      FailedAfter(c, trace[k - 1], steps[k - 1], trace[i].caller.pc.job);
    }
  }

  // ------------------------------------------------- what is written down is what happened

  /** At step `i` the caller asked for `job`'s next message and was given none, and went back to its consumer: it was told the job is over. */
  predicate ToldOver(trace: seq<System>, steps: seq<Step>, i: nat, job: nat)
    requires |trace| == |steps| + 1 && i < |steps|
  {
    steps[i] == RecvPass && trace[i + 1].caller.pc == Consuming(job) && trace[i + 1].received == trace[i].received
  }

  lemma OverIsWritten(c: Config, a: System, job: nat)
    requires Inv(c, a) && Enabled(c, a, RecvPass)
    requires var b := Apply(c, a, RecvPass); b.caller.pc == Consuming(job) && b.received == a.received
    ensures job in Apply(c, a, RecvPass).over
  {
    RecvEffect(c, a.s, a.caller.pc.job);
    forall m: Message ensures Extended(a.received, a.caller.pc.job, m) != a.received {
      LogGrows(a.received, a.caller.pc.job, m);
    }
  }

  lemma LogGrows(log: seq<seq<Message>>, job: nat, m: Message)
    requires job < |log|
    ensures Extended(log, job, m) != log
  {
    assert |Extended(log, job, m)[job]| == |log[job]| + 1;
  }

  lemma {:induction false} OverStays(c: Config, workers: nat, trace: seq<System>, steps: seq<Step>, i: nat, k: nat, job: nat)
    requires c.Valid() && Run(c, workers, trace, steps) && i <= k <= |steps| && job in trace[i].over
    ensures job in trace[k].over
  {
    if i < k {
      OverStays(c, workers, trace, steps, i, k - 1, job);
      InvAlong(c, workers, trace, steps, k - 1);
      assert Moves(c, trace, steps, k - 1);
      if steps[k - 1] == RecvPass {
        ReceiveKeeps(c, trace[k - 1]);
      } else {
        OverAndNextKept(c, trace[k - 1], steps[k - 1]);
      }
    }
  }

  /** Once the caller was told that a job is over it has every message its producer sent; and where no worker fails, a worker claimed the job. */
  lemma ToldOverHasAll(c: Config, workers: nat, trace: seq<System>, steps: seq<Step>, i: nat, k: nat, job: nat)
    requires c.Valid() && Run(c, workers, trace, steps) && i < k <= |steps| && job < c.jobs && ToldOver(trace, steps, i, job)
    ensures |trace[k].received| == c.jobs && trace[k].received[job] == ProducedFor(trace, steps, k, job)
    ensures !WorkerFailed(steps, k) ==> WasClaimed(trace, steps, k, job)
  {
    InvAlong(c, workers, trace, steps, i);
    assert Moves(c, trace, steps, i);
    OverIsWritten(c, trace[i], job);
    OverStays(c, workers, trace, steps, i + 1, k, job);
    EverythingProducedArrives(c, workers, trace, steps, k, job);
    if !WorkerFailed(steps, k) {
      OverMeansClaimed(c, workers, trace, steps, k, job);
    }
  }

  /** The widest pace answered to any claim so far. */
  function WidestAnswer(steps: seq<Step>, k: nat): nat
    requires k <= |steps|
  {
    if k == 0 then 0
    else
      var before := WidestAnswer(steps, k - 1);
      if steps[k - 1].ClaimPass? && steps[k - 1].width > before then steps[k - 1].width else before
  }

  lemma WidestAfter(c: Config, a: System, step: Step)
    requires Enabled(c, a, step)
    ensures Apply(c, a, step).widest == if step.ClaimPass? && step.width > a.widest then step.width else a.widest
  {
    if IsWake(step) {
      WakeIsOnlyWoken(c, a, step);
    }
  }

  /** With a pace, jobs in hand never exceed the widest of its answers, taken as at least one. */
  lemma {:induction false} WithinThePace(c: Config, workers: nat, trace: seq<System>, steps: seq<Step>, k: nat)
    requires c.Valid() && Run(c, workers, trace, steps) && k <= |steps|
    ensures trace[k].widest == WidestAnswer(steps, k)
    ensures c.paced ==> Count(trace[k].workers, Holds) <= if WidestAnswer(steps, k) > 1 then WidestAnswer(steps, k) else 1
  {
    InvAlong(c, workers, trace, steps, k);
    if k > 0 {
      WithinThePace(c, workers, trace, steps, k - 1);
      assert Moves(c, trace, steps, k - 1);
      WidestAfter(c, trace[k - 1], steps[k - 1]);
    }
  }
}
