/**
 The ordered fan-out as a system of threads: the caller and its workers. A step
 is one section run under the mutex, one notification, or one choice made by
 the code between them. Each condition variable is the set of threads that
 sleep on it, and every sleeper knows whether it has been woken.
 */
module FanOut {
  import opened FanOutMonitor

  /** Notifications a thread has still to send, after it let go of the mutex. */
  datatype Note = ReadyOne | AdmissionOne | AdmissionAll | ChangedAll

  datatype WorkerPc =
    | Unborn
    | Starting
    | Claiming
    | AtAdmission(woken: bool)
    | Producing(job: nat)
    | Sending(job: nat, message: Message)
    | AtChanged(job: nat, message: Message, woken: bool)
    | Closing(job: nat, unwinding: bool)
    | Leaving
    | Exited

  datatype Worker = Worker(pc: WorkerPc, notes: seq<Note>)

  datatype CallerPc =
    | Counting(index: nat)
    | Spawning(index: nat)
    | Refused(index: nat)
    | Consuming(job: nat)
    | Receiving(job: nat)
    | AtReady(job: nat, woken: bool)
    | Advancing(job: nat, failed: bool)
    | Cancelling
    | Joining
    | Returned

  datatype Caller = Caller(pc: CallerPc, notes: seq<Note>)

  /**
   The whole system, with what an observer would have written down: the messages
   each job's queue accepted and gave out, the widest pace ever answered, the job
   the consumer failed at, and for each job whether its receiver was told it is over.
   */
  datatype System = System(
    s: State,
    workers: seq<Worker>,
    caller: Caller,
    sent: seq<seq<Message>>,
    received: seq<seq<Message>>,
    widest: nat,
    failedAt: int,
    over: set<nat>)

  datatype Step =
    | CallerNotifies(pick: nat)
    | WorkerNotifies(worker: nat, pick: nat)
    | SpuriousCaller
    | SpuriousWorker(worker: nat)
    | CountIn
    | SpawnThread(granted: bool)
    | CountOut
    | AskForMessage
    | ConsumeReturns(failed: bool)
    | ConsumePanics
    | RecvPass
    | AdvancePass
    | CancelPass
    | JoinAll
    | StateBuilt(worker: nat, panicked: bool)
    | ClaimPass(worker: nat, width: nat)
    | ProduceSends(worker: nat, message: Message)
    | ProduceEnds(worker: nat, panicked: bool)
    | SendPass(worker: nat)
    | ClosePass(worker: nat)
    | LeavePass(worker: nat)

  predicate IsWake(step: Step) {
    step.CallerNotifies? || step.WorkerNotifies? || step.SpuriousCaller? || step.SpuriousWorker?
  }

  predicate IsCaller(step: Step) {
    step.CountIn? || step.SpawnThread? || step.CountOut? || step.AskForMessage? || step.ConsumeReturns?
    || step.ConsumePanics? || step.RecvPass? || step.AdvancePass? || step.CancelPass? || step.JoinAll?
  }

  predicate IsWorker(step: Step) { !IsWake(step) && !IsCaller(step) }

  // ---------------------------------------------------------------- the steps

  predicate SleepsOnAdmission(w: Worker) { w.pc == AtAdmission(false) }

  predicate SleepsOnChanged(w: Worker) { w.pc.AtChanged? && !w.pc.woken }

  function WakeAdmission(w: Worker): Worker {
    if w.pc.AtAdmission? then w.(pc := AtAdmission(true)) else w
  }

  function WakeChanged(w: Worker): Worker {
    if w.pc.AtChanged? then w.(pc := w.pc.(woken := true)) else w
  }

  function WakeReady(caller: Caller): Caller {
    if caller.pc.AtReady? then caller.(pc := caller.pc.(woken := true)) else caller
  }

  /** `notify_one` may pick any sleeper, and does nothing only when nobody sleeps. */
  predicate PickAllowed(a: System, note: Note, pick: nat) {
    note.AdmissionOne? ==>
      (pick < |a.workers| && SleepsOnAdmission(a.workers[pick]))
      || (pick == |a.workers| && forall i :: 0 <= i < |a.workers| ==> !SleepsOnAdmission(a.workers[i]))
  }

  function Notified(a: System, note: Note, pick: nat): System {
    match note
    case ReadyOne => a.(caller := WakeReady(a.caller))
    case AdmissionAll =>
      a.(workers := seq(|a.workers|, i requires 0 <= i < |a.workers| => WakeAdmission(a.workers[i])))
    case ChangedAll =>
      a.(workers := seq(|a.workers|, i requires 0 <= i < |a.workers| => WakeChanged(a.workers[i])))
    case AdmissionOne =>
      if pick < |a.workers| then a.(workers := a.workers[pick := WakeAdmission(a.workers[pick])]) else a
  }

  /** Sending a message and closing a queue wake the caller, and a paced worker too. */
  function AfterQueueChange(c: Config): seq<Note> {
    if c.paced then [ReadyOne, AdmissionAll] else [ReadyOne]
  }

  function AfterReceive(c: Config, wake: bool): seq<Note> {
    (if wake then [ChangedAll] else []) + (if c.paced then [AdmissionAll] else [])
  }

  function AfterAdvance(c: Config, failed: bool): seq<Note> {
    [ChangedAll, if c.paced || failed then AdmissionAll else AdmissionOne]
  }

  const FAREWELL: seq<Note> := [ChangedAll, ReadyOne, AdmissionAll]

  function AfterSpawning(started: nat): CallerPc {
    if started == 0 then Joining else Consuming(0)
  }

  predicate WorkerAt(a: System, i: nat) { i < |a.workers| && a.workers[i].notes == [] }

  predicate CallerFree(a: System) { a.caller.notes == [] }

  predicate AllGone(a: System) {
    forall i :: 0 <= i < |a.workers| ==> (a.workers[i].pc.Unborn? || a.workers[i].pc.Exited?) && a.workers[i].notes == []
  }

  predicate Enabled(c: Config, a: System, step: Step) {
    match step
    case CallerNotifies(pick) => a.caller.notes != [] && PickAllowed(a, a.caller.notes[0], pick)
    case WorkerNotifies(i, pick) =>
      i < |a.workers| && a.workers[i].notes != [] && PickAllowed(a, a.workers[i].notes[0], pick)
    case SpuriousCaller => a.caller.pc.AtReady?
    case SpuriousWorker(i) => i < |a.workers| && (a.workers[i].pc.AtAdmission? || a.workers[i].pc.AtChanged?)
    case CountIn => CallerFree(a) && a.caller.pc.Counting?
    case SpawnThread(granted) => CallerFree(a) && a.caller.pc.Spawning? && a.caller.pc.index < |a.workers|
    case CountOut => CallerFree(a) && a.caller.pc.Refused?
    case AskForMessage => CallerFree(a) && a.caller.pc.Consuming?
    case ConsumeReturns(failed) => CallerFree(a) && a.caller.pc.Consuming?
    case ConsumePanics => CallerFree(a) && a.caller.pc.Consuming?
    case RecvPass => CallerFree(a) && (a.caller.pc.Receiving? || (a.caller.pc.AtReady? && a.caller.pc.woken))
    case AdvancePass => CallerFree(a) && a.caller.pc.Advancing?
    case CancelPass => CallerFree(a) && a.caller.pc.Cancelling?
    case JoinAll => CallerFree(a) && a.caller.pc.Joining? && AllGone(a)
    case StateBuilt(i, panicked) => WorkerAt(a, i) && a.workers[i].pc.Starting?
    case ClaimPass(i, width) =>
      WorkerAt(a, i) && (a.workers[i].pc.Claiming? || a.workers[i].pc == AtAdmission(true))
    case ProduceSends(i, m) => WorkerAt(a, i) && a.workers[i].pc.Producing?
    case ProduceEnds(i, panicked) => WorkerAt(a, i) && a.workers[i].pc.Producing?
    case SendPass(i) =>
      WorkerAt(a, i) && (a.workers[i].pc.Sending? || (a.workers[i].pc.AtChanged? && a.workers[i].pc.woken))
    case ClosePass(i) => WorkerAt(a, i) && a.workers[i].pc.Closing?
    case LeavePass(i) => WorkerAt(a, i) && a.workers[i].pc.Leaving?
  }

  function Extended(log: seq<seq<Message>>, job: nat, m: Message): seq<seq<Message>> {
    if job < |log| then log[job := log[job] + [m]] else log
  }

  function RunRecv(c: Config, a: System): System
    requires a.caller.pc.Receiving? || a.caller.pc.AtReady?
  {
    var job := a.caller.pc.job;
    var (s, outcome) := RecvSection(a.s, job);
    match outcome
    case Got(m, wake) =>
      a.(s := s, caller := Caller(Consuming(job), AfterReceive(c, wake)), received := Extended(a.received, job, m))
    case Over => a.(s := s, caller := Caller(Consuming(job), []), over := a.over + {job})
    case Empty => a.(s := s, caller := Caller(AtReady(job, false), []))
  }

  function RunAdvance(c: Config, a: System): System
    requires a.caller.pc.Advancing?
  {
    var job, failed := a.caller.pc.job, a.caller.pc.failed;
    var pc := if failed || job + 1 >= c.jobs then Cancelling else Consuming(job + 1);
    a.(s := AdvanceSection(a.s, failed),
       caller := Caller(pc, AfterAdvance(c, failed)),
       failedAt := if failed then job else a.failedAt)
  }

  function RunClaim(c: Config, a: System, i: nat, width: nat): System
    requires i < |a.workers|
  {
    var (s, outcome) := ClaimSection(c, a.s, width);
    var pc := match outcome
      case Stop => Leaving
      case Claimed(job) => Producing(job)
      case Hold => AtAdmission(false);
    a.(s := s, workers := a.workers[i := Worker(pc, [])],
       widest := if width > a.widest then width else a.widest)
  }

  function RunSend(c: Config, a: System, i: nat): System
    requires i < |a.workers| && (a.workers[i].pc.Sending? || a.workers[i].pc.AtChanged?)
  {
    var pc := a.workers[i].pc;
    var job, m := pc.job, pc.message;
    var (s, outcome) := SendSection(c, a.s, job, m, pc.AtChanged?);
    match outcome
    case Accepted =>
      a.(s := s, workers := a.workers[i := Worker(Producing(job), AfterQueueChange(c))], sent := Extended(a.sent, job, m))
    case Rejected => a.(s := s, workers := a.workers[i := Worker(Producing(job), [])])
    case Full => a.(s := s, workers := a.workers[i := Worker(AtChanged(job, m, false), [])])
  }

  function Put(a: System, i: nat, pc: WorkerPc, notes: seq<Note>): System
    requires i < |a.workers|
  {
    a.(workers := a.workers[i := Worker(pc, notes)])
  }

  function At(a: System, pc: CallerPc): System {
    a.(caller := Caller(pc, []))
  }

  function Apply(c: Config, a: System, step: Step): System
    requires Enabled(c, a, step)
  {
    match step
    case CallerNotifies(pick) =>
      Notified(a.(caller := a.caller.(notes := a.caller.notes[1..])), a.caller.notes[0], pick)
    case WorkerNotifies(i, pick) =>
      var w := a.workers[i];
      Notified(a.(workers := a.workers[i := w.(notes := w.notes[1..])]), w.notes[0], pick)
    case SpuriousCaller => a.(caller := WakeReady(a.caller))
    case SpuriousWorker(i) => a.(workers := a.workers[i := WakeAdmission(WakeChanged(a.workers[i]))])
    case CountIn => At(a, Spawning(a.caller.pc.index)).(s := a.s.(live := a.s.live + 1))
    case SpawnThread(granted) =>
      var k := a.caller.pc.index;
      if granted then
        var pc := if k + 1 < |a.workers| then Counting(k + 1) else AfterSpawning(k + 1);
        At(Put(a, k, Starting, []), pc)
      else At(a, Refused(k))
    case CountOut => At(a, AfterSpawning(a.caller.pc.index)).(s := a.s.(live := a.s.live - 1))
    case AskForMessage => At(a, Receiving(a.caller.pc.job))
    case ConsumeReturns(failed) => At(a, Advancing(a.caller.pc.job, failed))
    case ConsumePanics => At(a, Cancelling)
    case RecvPass => RunRecv(c, a)
    case AdvancePass => RunAdvance(c, a)
    case CancelPass => a.(s := a.s.(cancelled := true), caller := Caller(Joining, FAREWELL))
    case JoinAll => At(a, Returned)
    case StateBuilt(i, panicked) => Put(a, i, if panicked then Leaving else Claiming, [])
    case ClaimPass(i, width) => RunClaim(c, a, i, width)
    case ProduceSends(i, m) => Put(a, i, Sending(a.workers[i].pc.job, m), [])
    case ProduceEnds(i, panicked) => Put(a, i, Closing(a.workers[i].pc.job, panicked), [])
    case SendPass(i) => RunSend(c, a, i)
    case ClosePass(i) =>
      var pc := a.workers[i].pc;
      Put(a, i, if pc.unwinding then Leaving else Claiming, AfterQueueChange(c)).(s := CloseSection(a.s, pc.job))
    case LeavePass(i) => Put(a, i, Exited, FAREWELL).(s := a.s.(live := a.s.live - 1))
  }

  /** `workers.max(1).min(jobs)` threads are asked for. */
  function Initial(c: Config, workers: nat): System {
    var wanted := if workers > 1 then workers else 1;
    var asked := if wanted < c.jobs then wanted else c.jobs;
    System(INITIAL, seq(asked, _ => Worker(Unborn, [])),
           Caller(if asked == 0 then Joining else Counting(0), []),
           seq(c.jobs, _ => []), seq(c.jobs, _ => []), 0, -1, {})
  }

  /** Step `k` is one the threads can take, and leads to the next state. */
  ghost predicate Moves(c: Config, trace: seq<System>, steps: seq<Step>, k: nat)
    requires |trace| == |steps| + 1 && k < |steps|
  {
    Enabled(c, trace[k], steps[k]) && trace[k + 1] == Apply(c, trace[k], steps[k])
  }

  /** A run: every step is one the threads can take. */
  ghost predicate Run(c: Config, workers: nat, trace: seq<System>, steps: seq<Step>) {
    && |trace| == |steps| + 1
    && trace[0] == Initial(c, workers)
    && forall k :: 0 <= k < |steps| ==> Moves(c, trace, steps, k)
  }

  ghost predicate Reachable(c: Config, workers: nat, a: System) {
    exists trace, steps :: Run(c, workers, trace, steps) && trace[|steps|] == a
  }
}
