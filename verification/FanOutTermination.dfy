/**
 A run without spurious wake-ups is no longer than the configuration, the sends
 of the producers and the receives of the consumer allow. With the absence of
 deadlock this makes every run end with the caller returned and no worker left.
 */
module FanOutTermination {
  import opened FanOutMonitor
  import opened FanOut
  import opened FanOutInvariant
  import opened FanOutTheorems

  function NoteCost(n: nat, note: Note): nat {
    match note
    case ReadyOne => 2
    case AdmissionOne => 2
    case AdmissionAll => n + 1
    case ChangedAll => n + 1
  }

  function NotesCost(n: nat, notes: seq<Note>): nat {
    if notes == [] then 0 else NoteCost(n, notes[0]) + NotesCost(n, notes[1..])
  }

  function PlaceCost(n: nat, pc: WorkerPc): nat {
    match pc
    case Unborn => 0
    case Exited => 0
    case Leaving => 2 * n + 5
    case AtAdmission(woken) => 2 * n + 6 + if woken then 1 else 0
    case Claiming => 2 * n + 7
    case Starting => 2 * n + 8
    case Closing(_, _) => 3 * n + 11
    case Producing(_) => 3 * n + 12
    case AtChanged(_, _, woken) => 4 * n + 15 + if woken then 1 else 0
    case Sending(_, _) => 4 * n + 16
  }

  function WorkerCost(n: nat, w: Worker): nat { PlaceCost(n, w.pc) + NotesCost(n, w.notes) }

  function WorkersCost(n: nat, ws: seq<Worker>): nat {
    if ws == [] then 0 else WorkersCost(n, ws[..|ws| - 1]) + WorkerCost(n, ws[|ws| - 1])
  }

  /** `left` workers still to be started, jobs to be claimed or jobs to be consumed, at `each`. */
  function Budget(left: int, each: nat): nat
    decreases if left > 0 then left else 0
  {
    if left <= 0 then 0 else each + Budget(left - 1, each)
  }

  function CallerCost(n: nat, pc: CallerPc): nat {
    match pc
    case Returned => 0
    case Joining => 1
    case Cancelling => 2 * n + 6
    case Advancing(_, _) => 2 * n + 6
    case Consuming(_) => 2 * n + 7
    case AtReady(_, woken) => 4 * n + 9 + if woken then 1 else 0
    case Receiving(_) => 4 * n + 10
    case Counting(k) => 2 * n + 8 + Budget(n - k, 2 * n + 11)
    case Spawning(k) => 2 * n + 7 + Budget(n - k, 2 * n + 11)
    case Refused(k) => 2 * n + 6 + Budget(n - k, 2 * n + 11)
  }

  function Cost(c: Config, a: System): nat {
    var n := |a.workers|;
    WorkersCost(n, a.workers) + CallerCost(n, a.caller.pc) + NotesCost(n, a.caller.notes)
    + Budget(c.jobs - a.s.next, n + 6) + Budget(c.jobs - a.s.current, 2 * n + 5)
  }

  lemma {:induction false} CostAfterPut(n: nat, ws: seq<Worker>, i: nat, w: Worker)
    requires i < |ws|
    ensures WorkersCost(n, ws[i := w]) == WorkersCost(n, ws) - WorkerCost(n, ws[i]) + WorkerCost(n, w)
  {
    var last := |ws| - 1;
    if i == last {
      assert ws[i := w][..last] == ws[..last];
    } else {
      assert ws[i := w][..last] == ws[..last][i := w];
      CostAfterPut(n, ws[..last], i, w);
    }
  }

  lemma {:induction false} CostAfterBroadcast(n: nat, ws: seq<Worker>, vs: seq<Worker>)
    requires |ws| == |vs|
    requires forall i :: 0 <= i < |ws| ==> WorkerCost(n, vs[i]) <= WorkerCost(n, ws[i]) + 1
    ensures WorkersCost(n, vs) <= WorkersCost(n, ws) + |ws|
  {
    if ws != [] {
      CostAfterBroadcast(n, ws[..|ws| - 1], vs[..|vs| - 1]);
    }
  }

  /** A step of the caller that leaves the workers and the jobs as they are. */
  lemma CallerPlaceSpends(c: Config, a: System, b: System)
    requires b.workers == a.workers && b.s.next == a.s.next && b.s.current == a.s.current
    ensures var n := |a.workers|;
      Cost(c, b) - Cost(c, a) == CallerCost(n, b.caller.pc) + NotesCost(n, b.caller.notes)
                                 - CallerCost(n, a.caller.pc) - NotesCost(n, a.caller.notes)
  {
  }

  /** A step that changes the workers alone. */
  lemma WorkersSpend(c: Config, a: System, b: System)
    requires |b.workers| == |a.workers| && b.s == a.s && b.caller == a.caller
    ensures Cost(c, b) - Cost(c, a) == WorkersCost(|a.workers|, b.workers) - WorkersCost(|a.workers|, a.workers)
  {
  }

  lemma WakeCosts(n: nat, w: Worker)
    ensures WorkerCost(n, WakeAdmission(w)) <= WorkerCost(n, w) + 1
    ensures WorkerCost(n, WakeChanged(w)) <= WorkerCost(n, w) + 1
  {
  }

  lemma CostAfterBroadcastNote(c: Config, a: System, note: Note, pick: nat)
    requires note.AdmissionAll? || note.ChangedAll?
    ensures Cost(c, Notified(a, note, pick)) < Cost(c, a) + NoteCost(|a.workers|, note)
  {
    var n := |a.workers|;
    var b := Notified(a, note, pick);
    forall i | 0 <= i < n ensures WorkerCost(n, b.workers[i]) <= WorkerCost(n, a.workers[i]) + 1 {
      WakeCosts(n, a.workers[i]);
    }
    CostAfterBroadcast(n, a.workers, b.workers);
    WorkersSpend(c, a, b);
  }

  lemma CostAfterNote(c: Config, a: System, note: Note, pick: nat)
    requires PickAllowed(a, note, pick)
    ensures Cost(c, Notified(a, note, pick)) < Cost(c, a) + NoteCost(|a.workers|, note)
  {
    var n := |a.workers|;
    var b := Notified(a, note, pick);
    if note.ReadyOne? {
      CallerPlaceSpends(c, a, b);
    } else if note.AdmissionOne? {
      if pick < n {
        WakeCosts(n, a.workers[pick]);
        CostAfterPut(n, a.workers, pick, b.workers[pick]);
        WorkersSpend(c, a, b);
      }
    } else {
      CostAfterBroadcastNote(c, a, note, pick);
    }
  }

  function Spent(step: Step, n: nat): int {
    if step.ProduceSends? then n + 4 else if step.AskForMessage? then 2 * n + 3 else -1
  }

  lemma CallerNoteSpends(c: Config, a: System, pick: nat)
    requires Enabled(c, a, CallerNotifies(pick))
    ensures Cost(c, Apply(c, a, CallerNotifies(pick))) < Cost(c, a)
  {
    var notes := a.caller.notes;
    var quiet := a.(caller := a.caller.(notes := notes[1..]));
    assert Cost(c, quiet) == Cost(c, a) - NoteCost(|a.workers|, notes[0]);
    CostAfterNote(c, quiet, notes[0], pick);
  }

  lemma WorkerNoteSpends(c: Config, a: System, i: nat, pick: nat)
    requires Enabled(c, a, WorkerNotifies(i, pick))
    ensures Cost(c, Apply(c, a, WorkerNotifies(i, pick))) < Cost(c, a)
  {
    var w := a.workers[i];
    var still := w.(notes := w.notes[1..]);
    var quiet := a.(workers := a.workers[i := still]);
    CostAfterPut(|a.workers|, a.workers, i, still);
    assert Cost(c, quiet) == Cost(c, a) - NoteCost(|a.workers|, w.notes[0]);
    assert PickAllowed(quiet, w.notes[0], pick);
    CostAfterNote(c, quiet, w.notes[0], pick);
  }

  lemma NotesCosts(c: Config, n: nat, wake: bool, failed: bool)
    ensures NotesCost(n, []) == 0
    ensures NotesCost(n, AfterQueueChange(c)) <= n + 3
    ensures NotesCost(n, AfterReceive(c, wake)) <= 2 * n + 2
    ensures NotesCost(n, AfterAdvance(c, failed)) <= 2 * n + 3
    ensures NotesCost(n, FAREWELL) == 2 * n + 4
  {
    assert NotesCost(n, [AdmissionAll]) == n + 1;
    assert [ChangedAll, ReadyOne, AdmissionAll][1..] == [ReadyOne, AdmissionAll];
    assert [ReadyOne, AdmissionAll][1..] == [AdmissionAll];
    assert [ChangedAll, AdmissionAll][1..] == [AdmissionAll];
    assert [ChangedAll] + [AdmissionAll] == [ChangedAll, AdmissionAll];
    assert [ChangedAll, AdmissionOne][1..] == [AdmissionOne];
    assert NotesCost(n, [AdmissionOne]) == 2;
  }

  lemma SpawnSpends(c: Config, a: System, granted: bool)
    requires Shape(c, a) && Enabled(c, a, SpawnThread(granted))
    ensures Cost(c, Apply(c, a, SpawnThread(granted))) < Cost(c, a)
  {
    var n, k := |a.workers|, a.caller.pc.index;
    assert Budget(n - k, 2 * n + 11) == 2 * n + 11 + Budget(n - k - 1, 2 * n + 11);
    if granted {
      assert WorkerCost(n, Worker(Starting, [])) == 2 * n + 8 && WorkerCost(n, Worker(Unborn, [])) == 0;
      CostAfterPut(n, a.workers, k, Worker(Starting, []));
    }
  }

  lemma RecvSpends(c: Config, a: System)
    requires Shape(c, a) && Enabled(c, a, RecvPass)
    ensures Cost(c, RunRecv(c, a)) < Cost(c, a)
  {
    RecvEffect(c, a.s, a.caller.pc.job);
    NotesCosts(c, |a.workers|, a.s.sending != 0, false);
    CallerPlaceSpends(c, a, RunRecv(c, a));
  }

  lemma AdvanceSpends(c: Config, a: System)
    requires Shape(c, a) && Enabled(c, a, AdvancePass)
    ensures Cost(c, RunAdvance(c, a)) < Cost(c, a)
  {
    NotesCosts(c, |a.workers|, true, a.caller.pc.failed);
  }

  lemma CountOutSpends(c: Config, a: System)
    requires Shape(c, a) && Enabled(c, a, CountOut)
    ensures Cost(c, Apply(c, a, CountOut)) < Cost(c, a)
  {
    var n, k := |a.workers|, a.caller.pc.index;
    assert Budget(n - k, 2 * n + 11) == 2 * n + 11 + Budget(n - k - 1, 2 * n + 11);
  }

  lemma CallerSpends(c: Config, a: System, step: Step)
    requires Shape(c, a) && Enabled(c, a, step) && IsCaller(step)
    ensures Cost(c, Apply(c, a, step)) <= Cost(c, a) + Spent(step, |a.workers|)
  {
    if step.SpawnThread? {
      SpawnSpends(c, a, step.granted);
    } else if step.RecvPass? {
      RecvSpends(c, a);
    } else if step.AdvancePass? {
      AdvanceSpends(c, a);
    } else if step.CountOut? {
      CountOutSpends(c, a);
    } else {
      QuietCallerSpends(c, a, step);
    }
  }

  /** The steps of the caller that change nothing but its place, save counting a worker in and cancelling. */
  lemma QuietCallerSpends(c: Config, a: System, step: Step)
    requires Shape(c, a) && Enabled(c, a, step) && IsCaller(step)
    requires !step.SpawnThread? && !step.RecvPass? && !step.AdvancePass? && !step.CountOut?
    ensures Cost(c, Apply(c, a, step)) <= Cost(c, a) + Spent(step, |a.workers|)
  {
    var b := Apply(c, a, step);
    assert b.workers == a.workers && b.s.next == a.s.next && b.s.current == a.s.current;
    CallerPlaceSpends(c, a, b);
    if step.CancelPass? {
      NotesCosts(c, |a.workers|, true, true);
    }
  }

  /** What a step of worker `i` costs when it touches nothing but its place and the next job. */
  lemma PlaceSpends(c: Config, a: System, b: System, i: nat)
    requires i < |a.workers| == |b.workers| && b.workers == a.workers[i := b.workers[i]] && b.caller == a.caller
    requires b.s.current == a.s.current && a.s.next <= b.s.next <= a.s.next + 1 && b.s.next <= c.jobs
    ensures Cost(c, b) == Cost(c, a) - WorkerCost(|a.workers|, a.workers[i]) + WorkerCost(|a.workers|, b.workers[i])
      - if b.s.next > a.s.next then |a.workers| + 6 else 0
  {
    var n := |a.workers|;
    CostAfterPut(n, a.workers, i, b.workers[i]);
    if b.s.next > a.s.next {
      assert Budget(c.jobs - a.s.next, n + 6) == n + 6 + Budget(c.jobs - b.s.next, n + 6);
    }
  }

  lemma SendSpends(c: Config, a: System, i: nat)
    requires Shape(c, a) && Owners(a) && Enabled(c, a, SendPass(i))
    ensures Cost(c, RunSend(c, a, i)) < Cost(c, a)
  {
    var n, pc, b := |a.workers|, a.workers[i].pc, RunSend(c, a, i);
    assert Holds(a.workers[i]);
    SendEffect(c, a.s, pc.job, pc.message, pc.AtChanged?);
    NotesCosts(c, n, true, true);
    SendCosts(n, a.workers[i], b.workers[i]);
    PlaceSpends(c, a, b, i);
  }

  lemma SendCosts(n: nat, v: Worker, w: Worker)
    requires v.notes == [] && (v.pc.Sending? || (v.pc.AtChanged? && v.pc.woken))
    requires (w.pc.Producing? && NotesCost(n, w.notes) <= n + 3) || (w.pc.AtChanged? && !w.pc.woken && w.notes == [])
    ensures WorkerCost(n, w) < WorkerCost(n, v)
  {
  }

  lemma CloseSpends(c: Config, a: System, i: nat)
    requires Shape(c, a) && Owners(a) && Enabled(c, a, ClosePass(i))
    ensures Cost(c, Apply(c, a, ClosePass(i))) < Cost(c, a)
  {
    var n, b := |a.workers|, Apply(c, a, ClosePass(i));
    assert Holds(a.workers[i]);
    CloseEffect(a.s, a.workers[i].pc.job);
    NotesCosts(c, n, true, true);
    assert WorkerCost(n, b.workers[i]) <= 3 * n + 10;
    PlaceSpends(c, a, b, i);
  }

  lemma ClaimSpends(c: Config, a: System, i: nat, width: nat)
    requires Shape(c, a) && Enabled(c, a, ClaimPass(i, width))
    ensures Cost(c, RunClaim(c, a, i, width)) < Cost(c, a)
  {
    ClaimEffect(c, a.s, width);
    PlaceSpends(c, a, RunClaim(c, a, i, width), i);
    NotesCosts(c, |a.workers|, true, true);
  }

  lemma WorkerSpends(c: Config, a: System, step: Step)
    requires Shape(c, a) && Owners(a) && Enabled(c, a, step) && IsWorker(step)
    ensures Cost(c, Apply(c, a, step)) <= Cost(c, a) + Spent(step, |a.workers|)
  {
    if step.SendPass? {
      SendSpends(c, a, step.worker);
    } else if step.ClaimPass? {
      ClaimSpends(c, a, step.worker, step.width);
    } else if step.ClosePass? {
      CloseSpends(c, a, step.worker);
    } else {
      QuietWorkerSpends(c, a, step);
    }
  }

  lemma QuietWorkerSpends(c: Config, a: System, step: Step)
    requires Shape(c, a) && Enabled(c, a, step) && IsWorker(step)
    requires !step.SendPass? && !step.ClaimPass? && !step.ClosePass?
    ensures Cost(c, Apply(c, a, step)) <= Cost(c, a) + Spent(step, |a.workers|)
  {
    PlaceSpends(c, a, Apply(c, a, step), step.worker);
    NotesCosts(c, |a.workers|, true, true);
  }

  lemma StepSpends(c: Config, a: System, step: Step)
    requires Inv(c, a) && Enabled(c, a, step) && !Spurious(step)
    ensures |Apply(c, a, step).workers| == |a.workers|
    ensures Cost(c, Apply(c, a, step)) <= Cost(c, a) + Spent(step, |a.workers|)
  {
    if step.CallerNotifies? {
      CallerNoteSpends(c, a, step.pick);
    } else if step.WorkerNotifies? {
      WorkerNoteSpends(c, a, step.worker, step.pick);
    } else if IsCaller(step) {
      CallerSpends(c, a, step);
    } else {
      WorkerSpends(c, a, step);
    }
  }

  // ------------------------------------------------- whole runs

  function Allowance(steps: seq<Step>, n: nat): nat {
    if steps == [] then 0
    else Allowance(steps[..|steps| - 1], n)
         + (if steps[|steps| - 1].ProduceSends? then n + 5 else if steps[|steps| - 1].AskForMessage? then 2 * n + 4 else 0)
  }

  /**
   The length of a run, and of every beginning of it, is bounded by the
   configuration and the number of sends and receives in it.
   */
  lemma {:induction false} RunsAreFinite(c: Config, workers: nat, trace: seq<System>, steps: seq<Step>, k: nat)
    requires c.Valid() && Run(c, workers, trace, steps) && k <= |steps|
    requires forall i :: 0 <= i < |steps| ==> !Spurious(steps[i])
    ensures |trace[k].workers| == |trace[0].workers|
    ensures k + Cost(c, trace[k]) <= Cost(c, trace[0]) + Allowance(steps[..k], |trace[0].workers|)
  {
    if k > 0 {
      RunsAreFinite(c, workers, trace, steps, k - 1);
      InvAlong(c, workers, trace, steps, k - 1);
      var a, step := trace[k - 1], steps[k - 1];
      assert Moves(c, trace, steps, k - 1);
      assert steps[..k][..k - 1] == steps[..k - 1];
      StepSpends(c, a, step);
    }
  }

  /** A run that cannot go on has returned, with every worker it started gone. */
  lemma FinishedWhenNothingMoves(c: Config, workers: nat, trace: seq<System>, steps: seq<Step>)
    requires c.Valid() && Run(c, workers, trace, steps)
    requires forall step :: Enabled(c, trace[|steps|], step) ==> Spurious(step)
    ensures Finished(trace[|steps|])
  {
    assert Reachable(c, workers, trace[|steps|]);
    NeverDeadlocks(c, workers, trace[|steps|]);
  }
}
