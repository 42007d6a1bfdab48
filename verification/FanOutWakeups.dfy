/** No wake-up is lost: the three sleeping sets stay covered by every step. */
module FanOutWakeups {
  import opened Counting
  import opened FanOutMonitor
  import opened FanOut
  import opened FanOutInvariant

  // ------------------------------------------------- producers asleep on a full queue

  lemma ProducersAfterWake(c: Config, a: System, step: Step)
    requires ProducersWoken(c, a) && Enabled(c, a, step) && IsWake(step)
    ensures ProducersWoken(c, Apply(c, a, step))
  {
    var b := Apply(c, a, step);
    WakeIsOnlyWoken(c, a, step);
    if i :| 0 <= i < |b.workers| && SleepsOnChanged(b.workers[i]) {
      assert SleepsOnChanged(a.workers[i]);
      if step.CallerNotifies? {
        assert a.caller.notes == [a.caller.notes[0]] + a.caller.notes[1..];
      }
    }
  }

  lemma ProducersAfterCaller(c: Config, a: System, step: Step)
    requires Shape(c, a) && Counts(c, a) && ProducersWoken(c, a) && Enabled(c, a, step) && IsCaller(step)
    ensures ProducersWoken(c, Apply(c, a, step))
  {
    if step.RecvPass? {
      ProducersAfterRecv(c, a);
    }
  }

  lemma ProducersAfterRecv(c: Config, a: System)
    requires Shape(c, a) && Counts(c, a) && ProducersWoken(c, a) && Enabled(c, a, RecvPass)
    ensures ProducersWoken(c, RunRecv(c, a))
  {
    var b := RunRecv(c, a);
    RecvEffect(c, a.s, a.caller.pc.job);
    CountPositive(a.workers, OnChanged);
    if ChangedAll !in b.caller.notes {
      forall i | 0 <= i < |b.workers| && SleepsOnChanged(b.workers[i])
        ensures FullFor(c, b.s, b.workers[i].pc.job, b.workers[i].pc.message)
      {
        assert OnChanged(a.workers[i]);
        assert FullFor(c, a.s, a.workers[i].pc.job, a.workers[i].pc.message);
      }
    }
  }

  /** Queues other than the one worker `i` fills stay as full as they were. */
  lemma ProducersSame(c: Config, a: System, b: System, i: nat)
    requires a.s.next <= a.s.current + |a.s.slots| && Owners(a) && ProducersWoken(c, a)
    requires i < |a.workers| == |b.workers| && b.workers == a.workers[i := b.workers[i]] && b.caller == a.caller
    requires b.s.current == a.s.current && b.s.cancelled == a.s.cancelled && |b.s.slots| >= |a.s.slots|
    requires forall x :: 0 <= x < |a.s.slots| && (Holds(a.workers[i]) ==> a.s.current + x != a.workers[i].pc.job) ==>
      b.s.slots[x].messages == a.s.slots[x].messages && b.s.slots[x].weight == a.s.slots[x].weight
    requires SleepsOnChanged(b.workers[i]) ==> FullFor(c, b.s, b.workers[i].pc.job, b.workers[i].pc.message)
    ensures ProducersWoken(c, b)
  {
    if ChangedAll !in b.caller.notes {
      forall k | 0 <= k < |b.workers| && k != i && SleepsOnChanged(b.workers[k])
        ensures FullFor(c, b.s, b.workers[k].pc.job, b.workers[k].pc.message)
      {
        assert Holds(a.workers[k]) && SleepsOnChanged(a.workers[k]);
      }
    }
  }

  lemma ProducersAfterSend(c: Config, a: System, i: nat)
    requires Shape(c, a) && Owners(a) && ProducersWoken(c, a) && Enabled(c, a, SendPass(i))
    ensures ProducersWoken(c, RunSend(c, a, i))
  {
    var pc := a.workers[i].pc;
    assert Holds(a.workers[i]);
    SendEffect(c, a.s, pc.job, pc.message, pc.AtChanged?);
    ProducersSame(c, a, RunSend(c, a, i), i);
  }

  lemma ProducersAfterClaim(c: Config, a: System, i: nat, width: nat)
    requires Shape(c, a) && Owners(a) && ProducersWoken(c, a) && Enabled(c, a, ClaimPass(i, width))
    ensures ProducersWoken(c, RunClaim(c, a, i, width))
  {
    ClaimEffect(c, a.s, width);
    ProducersSame(c, a, RunClaim(c, a, i, width), i);
  }

  lemma ProducersAfterClose(c: Config, a: System, i: nat)
    requires Shape(c, a) && Owners(a) && ProducersWoken(c, a) && Enabled(c, a, ClosePass(i))
    ensures ProducersWoken(c, Apply(c, a, ClosePass(i)))
  {
    assert Holds(a.workers[i]);
    CloseEffect(a.s, a.workers[i].pc.job);
    ProducersSame(c, a, Apply(c, a, ClosePass(i)), i);
  }

  lemma ProducersAfterWorker(c: Config, a: System, step: Step)
    requires Shape(c, a) && Owners(a) && ProducersWoken(c, a) && Enabled(c, a, step) && IsWorker(step)
    ensures ProducersWoken(c, Apply(c, a, step))
  {
    if step.SendPass? {
      ProducersAfterSend(c, a, step.worker);
    } else if step.ClosePass? {
      ProducersAfterClose(c, a, step.worker);
    } else if step.ClaimPass? {
      ProducersAfterClaim(c, a, step.worker, step.width);
    } else {
      ProducersSame(c, a, Apply(c, a, step), step.worker);
    }
  }

  // ------------------------------------------------- the caller asleep on an empty queue

  lemma CallerAfterWake(c: Config, a: System, step: Step)
    requires CallerWoken(a) && Enabled(c, a, step) && IsWake(step)
    ensures CallerWoken(Apply(c, a, step))
  {
    var b := Apply(c, a, step);
    WakeIsOnlyWoken(c, a, step);
    if ReadyComing(a) && b.caller.pc.AtReady? && !b.caller.pc.woken {
      var i :| 0 <= i < |a.workers| && ReadyOne in a.workers[i].notes;
      assert a.workers[i].notes == [a.workers[i].notes[0]] + a.workers[i].notes[1..];
      assert ReadyOne in b.workers[i].notes;
    }
  }

  lemma CallerAfterCaller(c: Config, a: System, step: Step)
    requires Shape(c, a) && Enabled(c, a, step) && IsCaller(step)
    ensures CallerWoken(Apply(c, a, step))
  {
    if step.RecvPass? {
      RecvEffect(c, a.s, a.caller.pc.job);
    }
  }

  lemma ReadyStillComing(a: System, b: System, i: nat)
    requires i < |a.workers| == |b.workers| && b.workers == a.workers[i := b.workers[i]] && a.workers[i].notes == []
    ensures ReadyComing(a) ==> ReadyComing(b)
    ensures ReadyOne in b.workers[i].notes ==> ReadyComing(b)
    ensures AdmissionComing(a) && AdmissionAll !in a.caller.notes ==> AdmissionComing(b)
    ensures AdmissionAll in b.workers[i].notes ==> AdmissionComing(b)
  {
    if ReadyComing(a) {
      var k :| 0 <= k < |a.workers| && ReadyOne in a.workers[k].notes;
      assert ReadyOne in b.workers[k].notes;
    }
    if AdmissionComing(a) && AdmissionAll !in a.caller.notes {
      var k :| 0 <= k < |a.workers| && AdmissionAll in a.workers[k].notes;
      assert AdmissionAll in b.workers[k].notes;
    }
  }

  lemma CallerAfterWorker(c: Config, a: System, step: Step)
    requires Shape(c, a) && Owners(a) && CallerWoken(a) && Enabled(c, a, step) && IsWorker(step)
    ensures CallerWoken(Apply(c, a, step))
  {
    var b := Apply(c, a, step);
    var i := step.worker;
    if step.SendPass? {
      var pc := a.workers[i].pc;
      assert Holds(a.workers[i]);
      SendEffect(c, a.s, pc.job, pc.message, pc.AtChanged?);
    } else if step.ClosePass? {
      assert Holds(a.workers[i]);
      CloseEffect(a.s, a.workers[i].pc.job);
    } else if step.ClaimPass? {
      ClaimEffect(c, a.s, step.width);
    }
    ReadyStillComing(a, b, i);
  }

  // ------------------------------------------------- workers asleep on admission

  lemma AdmissionAfterWake(c: Config, a: System, step: Step)
    requires AdmissionWoken(c, a) && Enabled(c, a, step) && IsWake(step)
    ensures AdmissionWoken(c, Apply(c, a, step))
  {
    var b := Apply(c, a, step);
    WakeIsOnlyWoken(c, a, step);
    if SomeoneAtAdmission(b) {
      var i :| 0 <= i < |b.workers| && SleepsOnAdmission(b.workers[i]);
      assert SleepsOnAdmission(a.workers[i]);
      if step.CallerNotifies? {
        assert a.caller.notes == [a.caller.notes[0]] + a.caller.notes[1..];
      }
      if step.WorkerNotifies? {
        assert a.workers[step.worker].notes == [a.workers[step.worker].notes[0]] + a.workers[step.worker].notes[1..];
      }
      WokenCount(c, a, step);
      AdmissionNotesKept(c, a, step);
    }
  }

  /** Waking only adds to the woken; the caller's `notify_one` adds exactly one. */
  lemma WokenCount(c: Config, a: System, step: Step)
    requires Enabled(c, a, step) && IsWake(step)
    requires SomeoneAtAdmission(Apply(c, a, step))
    ensures var b := Apply(c, a, step);
      Count(b.workers, WokenForAdmission) >= Count(a.workers, WokenForAdmission)
      + if step.CallerNotifies? && a.caller.notes[0].AdmissionOne? then 1 else 0
  {
    var b := Apply(c, a, step);
    WakeIsOnlyWoken(c, a, step);
    CountMonotone(a.workers, b.workers, WokenForAdmission);
    if step.CallerNotifies? && a.caller.notes[0].AdmissionOne? {
      if step.pick < |a.workers| {
        CountsAfterPut(a, b, step.pick, b.workers[step.pick]);
      }
    }
  }

  lemma AdmissionNotesKept(c: Config, a: System, step: Step)
    requires Enabled(c, a, step) && IsWake(step)
    requires SomeoneAtAdmission(Apply(c, a, step))
    ensures AdmissionComing(a) ==> AdmissionComing(Apply(c, a, step))
  {
    var b := Apply(c, a, step);
    if AdmissionAll in a.caller.notes {
      assert a.caller.notes == [a.caller.notes[0]] + a.caller.notes[1..];
      assert AdmissionAll in b.caller.notes;
    } else if AdmissionComing(a) {
      var i :| 0 <= i < |a.workers| && AdmissionAll in a.workers[i].notes;
      assert a.workers[i].notes == [a.workers[i].notes[0]] + a.workers[i].notes[1..];
      assert AdmissionAll in b.workers[i].notes;
    }
  }

  lemma AdmissionAfterCaller(c: Config, a: System, step: Step)
    requires Shape(c, a) && AdmissionWoken(c, a) && Enabled(c, a, step) && IsCaller(step)
    ensures AdmissionWoken(c, Apply(c, a, step))
  {
    var b := Apply(c, a, step);
    if SomeoneAtAdmission(b) && AdmissionAll !in b.caller.notes {
      var i :| 0 <= i < |b.workers| && SleepsOnAdmission(b.workers[i]);
      assert SleepsOnAdmission(a.workers[i]);
      if step.RecvPass? {
        RecvEffect(c, a.s, a.caller.pc.job);
      }
      if step.SpawnThread? && step.granted {
        CountsAfterPut(a, b, a.caller.pc.index, Worker(Starting, []));
        ReadyStillComing(a, b, a.caller.pc.index);
      }
    }
  }

  lemma AdmissionAfterClaim(c: Config, a: System, i: nat, width: nat)
    requires Shape(c, a) && Counts(c, a) && AdmissionWoken(c, a) && Enabled(c, a, ClaimPass(i, width))
    ensures AdmissionWoken(c, RunClaim(c, a, i, width))
  {
    var b := RunClaim(c, a, i, width);
    ClaimEffect(c, a.s, width);
    CountsAfterPut(a, b, i, b.workers[i]);
    ReadyStillComing(a, b, i);
    if SomeoneAtAdmission(b) && AdmissionAll !in b.caller.notes && !SleepsOnAdmission(b.workers[i]) {
      var k :| 0 <= k < |b.workers| && SleepsOnAdmission(b.workers[k]);
      assert SleepsOnAdmission(a.workers[k]);
    }
  }

  /** A step of a worker that neither sleeps on admission nor takes a place. */
  lemma AdmissionSame(c: Config, a: System, b: System, i: nat)
    requires AdmissionWoken(c, a) && b.caller == a.caller
    requires i < |a.workers| == |b.workers| && b.workers == a.workers[i := b.workers[i]] && a.workers[i].notes == []
    requires !a.workers[i].pc.AtAdmission? && !b.workers[i].pc.AtAdmission?
    requires b.s.cancelled == a.s.cancelled && b.s.next == a.s.next && b.s.current == a.s.current
    requires b.s.busy == a.s.busy || !c.paced || AdmissionAll in b.workers[i].notes
    ensures AdmissionWoken(c, b)
  {
    CountsAfterPut(a, b, i, b.workers[i]);
    ReadyStillComing(a, b, i);
    if SomeoneAtAdmission(b) {
      var k :| 0 <= k < |b.workers| && SleepsOnAdmission(b.workers[k]);
      assert SleepsOnAdmission(a.workers[k]);
    }
  }

  lemma AdmissionAfterSend(c: Config, a: System, i: nat)
    requires Shape(c, a) && Owners(a) && AdmissionWoken(c, a) && Enabled(c, a, SendPass(i))
    ensures AdmissionWoken(c, RunSend(c, a, i))
  {
    var pc := a.workers[i].pc;
    assert Holds(a.workers[i]);
    SendEffect(c, a.s, pc.job, pc.message, pc.AtChanged?);
    AdmissionSame(c, a, RunSend(c, a, i), i);
  }

  lemma AdmissionAfterClose(c: Config, a: System, i: nat)
    requires Shape(c, a) && Owners(a) && AdmissionWoken(c, a) && Enabled(c, a, ClosePass(i))
    ensures AdmissionWoken(c, Apply(c, a, ClosePass(i)))
  {
    assert Holds(a.workers[i]);
    CloseEffect(a.s, a.workers[i].pc.job);
    AdmissionSame(c, a, Apply(c, a, ClosePass(i)), i);
  }

  lemma AdmissionAfterWorker(c: Config, a: System, step: Step)
    requires Shape(c, a) && Counts(c, a) && Owners(a) && AdmissionWoken(c, a) && Enabled(c, a, step) && IsWorker(step)
    ensures AdmissionWoken(c, Apply(c, a, step))
  {
    if step.ClaimPass? {
      AdmissionAfterClaim(c, a, step.worker, step.width);
    } else if step.SendPass? {
      AdmissionAfterSend(c, a, step.worker);
    } else if step.ClosePass? {
      AdmissionAfterClose(c, a, step.worker);
    } else {
      AdmissionSame(c, a, Apply(c, a, step), step.worker);
    }
  }
}
