/**
 The trigger coalescer (client/cmd/keepass-deltasync/daemon.go): any number of requests during one run of
 the work cause exactly one more run. Its two critical sections are the methods of the class; everything
 else that threads do is interleaved around them by the state machine below.
 */
module CoalescerModel {
  import opened Basics

  class Coalescer {
    var running: bool
    var pending: bool

    constructor ()
      ensures !running && !pending
    {
      running, pending := false, false;
    }

    /** The critical section of `request`; `launch` tells the caller to start a loop. */
    method Request() returns (launch: bool)
      modifies this
      ensures running
      ensures launch == !old(running)
      ensures pending == (old(running) || old(pending))
    {
      if running {
        pending := true;
        return false;
      }
      running := true;
      return true;
    }

    /** The critical section `runLoop` enters after each run of the work; `again` sends it round once more. */
    method FinishRound() returns (again: bool)
      modifies this
      ensures again == old(pending)
      ensures !pending
      ensures running == (old(running) && again)
    {
      if !pending {
        running := false;
        return false;
      }
      pending := false;
      return true;
    }

    /** One look of `wait`. */
    method Observe() returns (idle: bool)
      ensures idle == !running
    {
      idle := !running;
    }
  }

  // Loops by position: told to start but not yet spawned, about to call the work, inside the work, and
  // about to lock after it. The counters below the line are history: requests made, runs started and
  // finished, and how many of the requests had been made when the latest run started.
  datatype State = State(
    running: bool, pending: bool,
    launching: nat, ready: nat, busy: nat, locking: nat,
    requests: nat, started: nat, finished: nat, served: nat)

  datatype Event = Request | Spawn | Begin | Return | Finish

  const IDLE := State(false, false, 0, 0, 0, 0, 0, 0, 0, 0)

  predicate Enabled(s: State, e: Event) {
    match e
    case Request => true
    case Spawn => s.launching > 0
    case Begin => s.ready > 0
    case Return => s.busy > 0
    case Finish => s.locking > 0
  }

  function Next(s: State, e: Event): State
    requires Enabled(s, e)
  {
    match e
    case Request =>
      if s.running then s.(pending := true, requests := s.requests + 1)
      else s.(running := true, launching := s.launching + 1, requests := s.requests + 1)
    case Spawn => s.(launching := s.launching - 1, ready := s.ready + 1)
    case Begin => s.(ready := s.ready - 1, busy := s.busy + 1, started := s.started + 1, served := s.requests)
    case Return => s.(busy := s.busy - 1, locking := s.locking + 1, finished := s.finished + 1)
    case Finish =>
      if !s.pending then s.(running := false, locking := s.locking - 1)
      else s.(pending := false, locking := s.locking - 1, ready := s.ready + 1)
  }

  predicate Legal(s: State, events: seq<Event>)
    decreases |events|
  {
    events == [] || (Enabled(s, events[0]) && Legal(Next(s, events[0]), events[1..]))
  }

  function After(s: State, events: seq<Event>): State
    requires Legal(s, events)
    decreases |events|
  {
    if events == [] then s else After(Next(s, events[0]), events[1..])
  }

  function Loops(s: State): nat {
    s.launching + s.ready + s.busy + s.locking
  }

  /** A run that will start after now is already on its way. */
  predicate RunComing(s: State) {
    s.pending || s.launching > 0 || s.ready > 0
  }

  predicate Inv(s: State) {
    && Loops(s) == (if s.running then 1 else 0)
    && (s.pending ==> s.running)
    && s.served <= s.requests
    && (s.served < s.requests ==> RunComing(s))
    && s.started + s.launching + s.ready + (if s.pending then 1 else 0) <= s.requests
    && s.started == s.finished + s.busy
  }

  /** The two steps that lock are the class's critical sections. */
  method RequestRefines(c: Coalescer, s: State) returns (launch: bool)
    requires c.running == s.running && c.pending == s.pending
    modifies c
    ensures var t := Next(s, Request);
            c.running == t.running && c.pending == t.pending && t.launching == s.launching + (if launch then 1 else 0)
  {
    launch := c.Request();
  }

  method FinishRefines(c: Coalescer, s: State) returns (again: bool)
    requires c.running == s.running && c.pending == s.pending && Inv(s) && Enabled(s, Finish)
    modifies c
    ensures var t := Next(s, Finish);
            c.running == t.running && c.pending == t.pending && t.ready == s.ready + (if again then 1 else 0)
  {
    again := c.FinishRound();
  }

  lemma StepKeepsInv(s: State, e: Event)
    requires Inv(s) && Enabled(s, e)
    ensures Inv(Next(s, e))
  {}

  /**
   At most one loop is alive and `running` says whether; no request is unserved unless a later run is
   already on its way; and runs started never exceed requests.
   */
  predicate Safe(s: State) {
    && Loops(s) == (if s.running then 1 else 0)
    && (s.served < s.requests ==> RunComing(s))
    && s.started <= s.requests
  }

  /** Under every interleaving of requests and loops, every reachable state is safe. */
  lemma CoalescerSafety(start: State, events: seq<Event>)
    requires start == IDLE && Legal(start, events)
    ensures Safe(After(start, events))
  {
    InvAtStart(start);
    SafetyFrom(start, events);
    InvIsSafe(After(start, events));
  }

  lemma InvAtStart(s: State)
    requires s == IDLE
    ensures Inv(s)
  {}

  lemma InvIsSafe(s: State)
    requires Inv(s)
    ensures Safe(s)
  {}

  lemma {:induction false} SafetyFrom(s: State, events: seq<Event>)
    requires Inv(s) && Legal(s, events)
    ensures Inv(After(s, events))
    decreases |events|
  {
    if events != [] {
      StepKeepsInv(s, events[0]);
      SafetyFrom(Next(s, events[0]), events[1..]);
    }
  }

  function Count(events: seq<Event>, e: Event): nat {
    if events == [] then 0 else (if events[0] == e then 1 else 0) + Count(events[1..], e)
  }

  /** The history counts what has happened: the requests made, and the runs begun and finished. */
  lemma {:induction false} HistoryCounts(s: State, events: seq<Event>)
    requires Legal(s, events)
    ensures var u := After(s, events);
            && u.requests == s.requests + Count(events, Request)
            && u.started == s.started + Count(events, Begin) && u.finished == s.finished + Count(events, Return)
    decreases |events|
  {
    if events != [] {
      HistoryCounts(Next(s, events[0]), events[1..]);
    }
  }

  /** How many steps the loop still needs when no one asks for more. */
  function Remaining(s: State): nat {
    4 * s.launching + 3 * s.ready + 2 * s.busy + s.locking + (if s.pending then 3 else 0)
  }

  function LoopStep(s: State): Event
    requires Inv(s) && s.running
  {
    if s.launching > 0 then Spawn else if s.ready > 0 then Begin else if s.busy > 0 then Return else Finish
  }

  /** Every loop step gets closer to idle, so requests are not just kept in mind but carried out. */
  lemma LoopProgress(s: State)
    requires Inv(s)
    ensures s.running ==> Enabled(s, LoopStep(s)) && Remaining(Next(s, LoopStep(s))) < Remaining(s)
    ensures !s.running ==> s.served == s.requests && s.finished == s.started && Remaining(s) == 0
  {}

  /** Nothing is under way and nothing is owed. */
  predicate Quiet(s: State) {
    Loops(s) == 0 && !s.pending && s.served == s.requests && s.finished == s.started
  }

  /**
   When `wait` sees no loop running, at whatever moment it looks, every request made so far has been served by a
   run that has finished.
   */
  method WaitIsOver(c: Coalescer, ghost start: State, ghost events: seq<Event>, ghost now: State) returns (idle: bool)
    requires start == IDLE && Legal(start, events) && now == After(start, events) && c.running == now.running
    ensures idle <==> Quiet(now)
  {
    QuietWhenIdle(start, events, now);
    idle := c.Observe();
  }

  lemma QuietWhenIdle(start: State, events: seq<Event>, now: State)
    requires start == IDLE && Legal(start, events) && now == After(start, events)
    ensures !now.running <==> Quiet(now)
  {
    InvAtStart(start);
    SafetyFrom(start, events);
    QuietIff(now);
  }

  lemma QuietIff(s: State)
    requires Inv(s)
    ensures !s.running <==> Quiet(s)
  {}

  /** Let the loop run until it dies. */
  function Drain(s: State): State
    requires Inv(s)
    decreases Remaining(s)
  {
    if !s.running then s
    else
      LoopProgress(s);
      StepKeepsInv(s, LoopStep(s));
      Drain(Next(s, LoopStep(s)))
  }

  /** Left alone, the loop dies, with every request served by a run that started after it and has finished. */
  lemma {:induction false} DrainServesAll(s: State)
    requires Inv(s)
    ensures var d := Drain(s);
            && !d.running && !d.pending && Loops(d) == 0
            && d.requests == s.requests == d.served && d.finished == d.started
            && d.started == s.started + s.launching + s.ready + (if s.pending then 1 else 0)
    decreases Remaining(s)
  {
    if s.running {
      LoopProgress(s);
      StepKeepsInv(s, LoopStep(s));
      DrainServesAll(Next(s, LoopStep(s)));
    }
  }

  function Burst(n: nat): seq<Event> {
    seq(n, i => Request)
  }

  lemma {:induction false} BurstDuringWork(s: State, n: nat)
    requires Inv(s) && s.running && n > 0
    ensures Legal(s, Burst(n))
    ensures After(s, Burst(n)) == s.(pending := true, requests := s.requests + n)
    decreases n
  {
    var t := Next(s, Request);
    StepKeepsInv(s, Request);
    assert Burst(n)[0] == Request && Burst(n)[1..] == Burst(n - 1);
    if n > 1 {
      BurstDuringWork(t, n - 1);
    } else {
      assert Burst(0) == [];
    }
  }

  /** A burst of any size while the work runs adds exactly one run to what was coming anyway. */
  lemma BurstAddsOneRun(s: State, n: nat)
    requires Inv(s) && s.busy > 0 && !s.pending && n > 0
    ensures Legal(s, Burst(n))
    ensures Inv(After(s, Burst(n)))
    ensures Drain(s).started == s.started
    ensures Drain(After(s, Burst(n))).started == s.started + 1
  {
    BurstDuringWork(s, n);
    SafetyFrom(s, Burst(n));
    DrainServesAll(s);
    DrainServesAll(After(s, Burst(n)));
  }
}
