/**
 The state that the ordered fan-out keeps under its mutex, and every section of
 code that runs while the mutex is held. Each section is a function on states;
 the class at the end runs the same sections on fields it updates in place.
 */
module FanOutMonitor {

  /** What a job sends. The protocol never looks inside it. */
  type Payload(==, !new)

  datatype Message = Message(payload: Payload, weight: nat)

  datatype Slot = Slot(messages: seq<Message>, weight: int, claimed: bool, closed: bool)

  const EMPTY_SLOT := Slot([], 0, false, false)

  datatype Config = Config(jobs: nat, window: nat, cap: nat, paced: bool)
  {
    ghost predicate Valid() {
      window >= 1 && cap >= 1
    }
  }

  /** The counters are integers: that they never run below zero is proved, not assumed. */
  datatype State = State(
    next: nat,
    busy: int,
    current: nat,
    slots: seq<Slot>,
    cancelled: bool,
    live: int,
    sending: int)

  const INITIAL := State(0, 0, 0, [], false, 0, 0)

  function Padded(slots: seq<Slot>, count: nat): (r: seq<Slot>)
    ensures |r| == if |slots| < count then count else |slots|
    ensures forall k :: 0 <= k < |r| ==> r[k] == if k < |slots| then slots[k] else EMPTY_SLOT
  {
    slots + seq(if |slots| < count then count - |slots| else 0, _ => EMPTY_SLOT)
  }

  /** Reaching for a job's queue creates it, and every queue before it, when it is not there. */
  function Reach(s: State, job: nat): State {
    if job < s.current then s else s.(slots := Padded(s.slots, job - s.current + 1))
  }

  datatype SendOutcome = Accepted | Full | Rejected

  /** One pass of the send loop; `woken` says that the pass starts with a return from the wait. */
  function SendSection(c: Config, s: State, job: nat, m: Message, woken: bool): (State, SendOutcome) {
    var s := if woken then s.(sending := s.sending - 1) else s;
    if s.cancelled || job < s.current then (s, Rejected)
    else
      var s := Reach(s, job);
      var slot := s.slots[job - s.current];
      if slot.messages == [] || slot.weight + m.weight <= c.cap then
        var filled := slot.(messages := slot.messages + [m], weight := slot.weight + m.weight);
        (s.(slots := s.slots[job - s.current := filled]), Accepted)
      else
        (s.(sending := s.sending + 1), Full)
  }

  function CloseSection(s: State, job: nat): State {
    var s := s.(busy := s.busy - 1);
    if job < s.current then s
    else
      var s := Reach(s, job);
      s.(slots := s.slots[job - s.current := s.slots[job - s.current].(closed := true)])
  }

  datatype RecvOutcome = Got(message: Message, wake: bool) | Over | Empty

  function RecvSection(s: State, job: nat): (State, RecvOutcome) {
    if job < s.current then (s, Over)
    else
      var s := Reach(s, job);
      var slot := s.slots[job - s.current];
      if slot.messages != [] then
        var m := slot.messages[0];
        var rest := slot.messages[1..];
        (s.(slots := s.slots[job - s.current := slot.(messages := rest, weight := slot.weight - m.weight)]),
         Got(m, s.sending != 0))
      else if slot.closed || (!slot.claimed && s.live == 0) then (s, Over)
      else (s, Empty)
  }

  datatype ClaimOutcome = Stop | Claimed(job: nat) | Hold

  /** `width` is what the pace answered for this pass; without pacing it is not asked. */
  function ClaimSection(c: Config, s: State, width: nat): (State, ClaimOutcome) {
    if s.cancelled || s.next >= c.jobs then (s, Stop)
    else if (!c.paced || s.busy < (if width > 1 then width else 1)) && s.next < s.current + c.window then
      var job := s.next;
      var s := s.(next := s.next + 1, busy := s.busy + 1);
      if job < s.current then (s, Claimed(job))
      else
        var s := Reach(s, job);
        (s.(slots := s.slots[job - s.current := s.slots[job - s.current].(claimed := true)]), Claimed(job))
    else (s, Hold)
  }

  function AdvanceSection(s: State, failed: bool): State {
    s.(slots := if s.slots == [] then [] else s.slots[1..],
       current := s.current + 1,
       cancelled := s.cancelled || failed)
  }

  /** The same sections, run in place on the fields the mutex guards. */
  class Monitor {
    const config: Config
    var next: nat
    var busy: int
    var current: nat
    var slots: seq<Slot>
    var cancelled: bool
    var live: int
    var sending: int

    function View(): State
      reads this
    {
      State(next, busy, current, slots, cancelled, live, sending)
    }

    constructor (c: Config)
      ensures config == c && View() == INITIAL
    {
      config := c;
      next, busy, current, slots, cancelled, live, sending := 0, 0, 0, [], false, 0, 0;
    }

    /** Leaves the index of the job's queue, or nothing when the caller is past the job. */
    method SlotIndex(job: nat) returns (found: bool, index: nat)
      modifies this`slots
      ensures View() == Reach(old(View()), job)
      ensures found <==> job >= current
      ensures found ==> index == job - current && index < |slots|
      ensures !found ==> slots == old(slots)
    {
      if job < current {
        return false, 0;
      }
      index := job - current;
      if |slots| <= index {
        slots := Padded(slots, index + 1);
      }
      assert slots == Padded(old(slots), index + 1);
      found := true;
    }

    method Send(job: nat, m: Message, woken: bool) returns (outcome: SendOutcome)
      modifies this
      ensures (View(), outcome) == SendSection(config, old(View()), job, m, woken)
    {
      if woken {
        sending := sending - 1;
      }
      if cancelled {
        return Rejected;
      }
      var found, index := SlotIndex(job);
      if !found {
        return Rejected;
      }
      var slot := slots[index];
      if slot.messages == [] || slot.weight + m.weight <= config.cap {
        slots := slots[index := slot.(messages := slot.messages + [m], weight := slot.weight + m.weight)];
        return Accepted;
      }
      sending := sending + 1;
      return Full;
    }

    method Close(job: nat)
      modifies this
      ensures View() == CloseSection(old(View()), job)
    {
      busy := busy - 1;
      var found, index := SlotIndex(job);
      if found {
        slots := slots[index := slots[index].(closed := true)];
      }
    }

    method Receive(job: nat) returns (outcome: RecvOutcome)
      modifies this
      ensures (View(), outcome) == RecvSection(old(View()), job)
    {
      var found, index := SlotIndex(job);
      if !found {
        return Over;
      }
      var slot := slots[index];
      if slot.messages != [] {
        var m := slot.messages[0];
        slots := slots[index := slot.(messages := slot.messages[1..], weight := slot.weight - m.weight)];
        return Got(m, sending != 0);
      }
      if slot.closed || (!slot.claimed && live == 0) {
        return Over;
      }
      return Empty;
    }

    method Claim(width: nat) returns (outcome: ClaimOutcome)
      modifies this
      ensures (View(), outcome) == ClaimSection(config, old(View()), width)
    {
      if cancelled || next >= config.jobs {
        return Stop;
      }
      var ceiling := if width > 1 then width else 1;
      if (!config.paced || busy < ceiling) && next < current + config.window {
        var job := next;
        next := next + 1;
        busy := busy + 1;
        var found, index := SlotIndex(job);
        if found {
          slots := slots[index := slots[index].(claimed := true)];
        }
        return Claimed(job);
      }
      return Hold;
    }

    method Advance(failed: bool)
      modifies this
      ensures View() == AdvanceSection(old(View()), failed)
    {
      if slots != [] {
        slots := slots[1..];
      }
      current := current + 1;
      if failed {
        cancelled := true;
      }
    }
  }
}
