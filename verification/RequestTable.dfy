/**
 The extension's request table (extension/background.js, `connect`, `send`, `onHostMessage`): promises
 waiting for the native host, each with a timer.
 */
module RequestTable {
  import opened Basics

  type Id = nat
  type Timer = nat

  datatype Reason = NoHost | NotPosted | TimedOut | HostError | HostGone

  datatype Outcome = Waiting | Resolved | Rejected(why: Reason)

  // One call of send(): the id it posted under, if it got that far, and how often it was settled.
  datatype Promise = Promise(id: Option<Id>, outcome: Outcome, settled: nat)

  // `promise` counts calls of send(); the waiter's resolve and reject belong to that call.
  datatype Waiter = Waiter(promise: nat, timer: Timer)

  datatype State = State(port: bool, nextId: Id, pending: map<Id, Waiter>, nextTimer: Timer, armed: map<Timer, Id>,
                         promises: seq<Promise>)

  datatype Event =
    | Send(starts: bool, posts: bool)    // the native host can be started; the port takes the message
    | Answer(id: Id, ok: bool)
    | Fires(t: Timer)
    | Disconnect

  const START: State := State(false, 1, map[], 0, map[], [])

  function Settle(p: Promise, o: Outcome): Promise {
    p.(outcome := o, settled := p.settled + 1)
  }

  function Removed(s: State, id: Id, o: Outcome): State
    requires id in s.pending && s.pending[id].promise < |s.promises|
  {
    var w := s.pending[id];
    s.(pending := s.pending - {id}, armed := s.armed - {w.timer},
       promises := s.promises[w.promise := Settle(s.promises[w.promise], o)])
  }

  function SendNext(s: State, starts: bool, posts: bool): State {
    if !s.port && !starts then
      s.(promises := s.promises + [Promise(None, Rejected(NoHost), 1)])
    else
      var id, t := s.nextId, s.nextTimer;
      var u := s.(port := true, nextId := id + 1, nextTimer := t + 1);
      if posts then
        u.(pending := s.pending[id := Waiter(|s.promises|, t)], armed := s.armed[t := id],
           promises := s.promises + [Promise(Some(id), Waiting, 0)])
      else
        u.(promises := s.promises + [Promise(Some(id), Rejected(NotPosted), 1)])
  }

  /** Every waiter is rejected and the table is empty. */
  function DisconnectNext(s: State): State {
    s.(port := false, pending := map[], armed := map t | t in s.armed && s.armed[t] !in s.pending :: s.armed[t],
       promises := seq(|s.promises|, k requires 0 <= k < |s.promises| =>
                     var p := s.promises[k];
                     if p.id.Some? && p.id.value in s.pending && p.outcome.Waiting? then Settle(p, Rejected(HostGone))
                     else p))
  }

  function Next(s: State, e: Event): State
    requires Inv(s)
  {
    match e
    case Send(starts, posts) => SendNext(s, starts, posts)
    case Answer(id, ok) =>
      if id in s.pending then Removed(s, id, if ok then Resolved else Rejected(HostError)) else s
    case Fires(t) =>
      if t in s.armed then Removed(s, s.armed[t], Rejected(TimedOut)) else s
    case Disconnect =>
      if s.port then DisconnectNext(s) else s
  }

  // ---------------------------------------------------------------- the invariant

  /** The table holds exactly the posted requests that have no outcome yet. */
  ghost predicate TableIsWaiting(s: State) {
    && (forall id | id in s.pending ::
          && s.pending[id].promise < |s.promises|
          && s.promises[s.pending[id].promise].id == Some(id)
          && s.promises[s.pending[id].promise].outcome.Waiting?)
    && (forall k | 0 <= k < |s.promises| && s.promises[k].outcome.Waiting? ::
          && s.promises[k].id.Some? && s.promises[k].id.value in s.pending
          && s.pending[s.promises[k].id.value].promise == k)
  }

  /** One running timer for each request in the table, and no other. */
  ghost predicate TimersMatch(s: State) {
    && (forall id | id in s.pending :: s.pending[id].timer in s.armed && s.armed[s.pending[id].timer] == id)
    && (forall t | t in s.armed :: t < s.nextTimer && s.armed[t] in s.pending && s.pending[s.armed[t]].timer == t)
  }

  ghost predicate IdsUnique(s: State) {
    && (forall k | 0 <= k < |s.promises| :: s.promises[k].id.Some? ==> s.promises[k].id.value < s.nextId)
    && (forall j, k | 0 <= j < k < |s.promises| ::
          s.promises[j].id.Some? ==> s.promises[j].id != s.promises[k].id)
  }

  ghost predicate SettledOnce(s: State) {
    forall k | 0 <= k < |s.promises| :: s.promises[k].settled == if s.promises[k].outcome.Waiting? then 0 else 1
  }

  ghost predicate Inv(s: State) {
    TableIsWaiting(s) && TimersMatch(s) && IdsUnique(s) && SettledOnce(s) && (!s.port ==> s.pending == map[])
  }

  lemma RemovalKeepsInv(s: State, id: Id, o: Outcome)
    requires Inv(s) && id in s.pending && !o.Waiting?
    ensures Inv(Removed(s, id, o))
  {
    RemovalKeepsIds(s, id, o);
    RemovalKeepsTable(s, id, o);
  }

  lemma RemovalKeepsIds(s: State, id: Id, o: Outcome)
    requires Inv(s) && id in s.pending && !o.Waiting?
    ensures IdsUnique(Removed(s, id, o)) && SettledOnce(Removed(s, id, o))
  {
    var u := Removed(s, id, o);
    forall k | 0 <= k < |u.promises| ensures u.promises[k].id == s.promises[k].id {
    }
  }

  lemma RemovalKeepsTable(s: State, id: Id, o: Outcome)
    requires Inv(s) && id in s.pending && !o.Waiting?
    ensures TableIsWaiting(Removed(s, id, o)) && TimersMatch(Removed(s, id, o))
  {}

  lemma SendKeepsIds(s: State, starts: bool, posts: bool)
    requires Inv(s)
    ensures IdsUnique(SendNext(s, starts, posts)) && SettledOnce(SendNext(s, starts, posts))
  {
    var u := SendNext(s, starts, posts);
    assert forall k | 0 <= k < |s.promises| :: u.promises[k] == s.promises[k];
  }

  lemma SendKeepsTable(s: State, starts: bool, posts: bool)
    requires Inv(s)
    ensures TableIsWaiting(SendNext(s, starts, posts))
  {
    var u := SendNext(s, starts, posts);
    assert forall k | 0 <= k < |s.promises| :: u.promises[k] == s.promises[k];
    assert forall id | id in s.pending :: s.promises[s.pending[id].promise].id == Some(id) && id < s.nextId;
  }

  lemma SendKeepsTimers(s: State, starts: bool, posts: bool)
    requires Inv(s)
    ensures TimersMatch(SendNext(s, starts, posts))
  {
    assert s.nextTimer !in s.armed;
    assert forall id | id in s.pending :: s.promises[s.pending[id].promise].id == Some(id) && id < s.nextId;
  }

  lemma SendKeepsInv(s: State, starts: bool, posts: bool)
    requires Inv(s)
    ensures Inv(SendNext(s, starts, posts))
  {
    SendKeepsIds(s, starts, posts);
    SendKeepsTable(s, starts, posts);
    SendKeepsTimers(s, starts, posts);
  }

  lemma DisconnectKeepsInv(s: State)
    requires Inv(s)
    ensures Inv(DisconnectNext(s))
  {
    var u := DisconnectNext(s);
    forall k | 0 <= k < |u.promises|
      ensures u.promises[k].id == s.promises[k].id && !u.promises[k].outcome.Waiting?
    {
    }
    assert u.armed == map[];
  }

  lemma StepKeepsInv(s: State, e: Event)
    requires Inv(s)
    ensures Inv(Next(s, e))
  {
    match e {
      case Send(starts, posts) => SendKeepsInv(s, starts, posts);
      case Answer(id, ok) =>
        if id in s.pending { RemovalKeepsInv(s, id, if ok then Resolved else Rejected(HostError)); }
      case Fires(t) => if t in s.armed { RemovalKeepsInv(s, s.armed[t], Rejected(TimedOut)); }
      case Disconnect => if s.port { DisconnectKeepsInv(s); }
    }
  }

  // ---------------------------------------------------------------- whole runs

  function After(s: State, events: seq<Event>): (r: State)
    requires Inv(s)
    ensures Inv(r)
    decreases |events|
  {
    if events == [] then s
    else
      StepKeepsInv(s, events[0]);
      After(Next(s, events[0]), events[1..])
  }

  /** A run goes through its events one after the other. */
  lemma {:induction false} OneMoreEvent(s: State, events: seq<Event>, e: Event)
    requires Inv(s)
    ensures After(s, events + [e]) == Next(After(s, events), e)
    decreases |events|
  {
    StepKeepsInv(After(s, events), e);
    if events == [] {
      assert [] + [e] == [e] && [e][1..] == [];
    } else {
      assert (events + [e])[1..] == events[1..] + [e];
      StepKeepsInv(s, events[0]);
      OneMoreEvent(Next(s, events[0]), events[1..], e);
    }
  }

  /** What has happened to promises so far stands. */
  ghost predicate Stands(s: State, u: State) {
    && |s.promises| <= |u.promises| && s.nextId <= u.nextId
    && forall k | 0 <= k < |s.promises| ::
         && u.promises[k].id == s.promises[k].id
         && (!s.promises[k].outcome.Waiting? ==> u.promises[k] == s.promises[k])
  }

  lemma StepStands(s: State, e: Event)
    requires Inv(s)
    ensures Stands(s, Next(s, e))
  {}

  /**
   In every run each promise is settled at most once and then keeps its outcome; the table holds exactly
   the unsettled ones; no id is ever posted twice.
   */
  lemma {:induction false} RunStands(s: State, events: seq<Event>)
    requires Inv(s)
    ensures Inv(After(s, events)) && Stands(s, After(s, events))
    decreases |events|
  {
    if events != [] {
      var u := Next(s, events[0]);
      StepKeepsInv(s, events[0]);
      StepStands(s, events[0]);
      RunStands(u, events[1..]);
      StandsOn(s, u, After(u, events[1..]));
    }
  }

  lemma StandsOn(s: State, u: State, v: State)
    requires Stands(s, u) && Stands(u, v)
    ensures Stands(s, v)
  {
    forall k | 0 <= k < |s.promises|
      ensures v.promises[k].id == s.promises[k].id
      ensures !s.promises[k].outcome.Waiting? ==> v.promises[k] == s.promises[k]
    {
      assert u.promises[k].id == s.promises[k].id;
    }
  }

  lemma FromTheStart(events: seq<Event>)
    ensures Inv(START) && Inv(After(START, events))
    ensures forall k | 0 <= k < |After(START, events).promises| :: After(START, events).promises[k].settled <= 1
  {
    var s := After(START, events);
    assert SettledOnce(s);
  }

  /** An answer settles the one promise that posted under its id, or nothing at all. */
  lemma AnswerIsForItsOwn(s: State, id: Id, ok: bool, k: nat)
    requires Inv(s) && k < |s.promises|
    ensures Next(s, Answer(id, ok)).promises[k] ==
            if s.promises[k].id == Some(id) && s.promises[k].outcome.Waiting?
            then Settle(s.promises[k], if ok then Resolved else Rejected(HostError))
            else s.promises[k]
  {
    if s.promises[k].outcome.Waiting? && s.promises[k].id == Some(id) {
      assert s.pending[id].promise == k;
    }
  }

  /**
   A request makes one more promise and touches no other. It waits, under a new id, exactly if the host runs or can be
   started and takes the message; it is rejected at once if not, for want of a host or of a posted message.
   */
  lemma SendOutcome(s: State, starts: bool, posts: bool)
    requires Inv(s)
    ensures var u := Next(s, Send(starts, posts));
            && |u.promises| == |s.promises| + 1 && u.promises[..|s.promises|] == s.promises
            && var p := u.promises[|s.promises|];
               && u.port == (s.port || starts)
               && p.outcome == (if !s.port && !starts then Rejected(NoHost) else if posts then Waiting else Rejected(NotPosted))
               && p.id == (if s.port || starts then Some(s.nextId) else None)
               && (p.outcome.Waiting? ==>
                     s.nextId in u.pending && u.pending[s.nextId].promise == |s.promises|
                     && u.pending - {s.nextId} == s.pending && u.pending[s.nextId].timer !in s.armed)
               && (!p.outcome.Waiting? ==> u.pending == s.pending && u.armed == s.armed)
  {
    assert forall id | id in s.pending :: id < s.nextId by {
      assert forall id | id in s.pending :: s.promises[s.pending[id].promise].id == Some(id);
    }
  }

  /** Nobody waits for ever: each waiting promise has a timer of its own, and its firing rejects it and no other. */
  lemma WaitingHasATimer(s: State, k: nat)
    requires Inv(s) && k < |s.promises| && s.promises[k].outcome.Waiting?
    ensures exists t :: t in s.armed && Next(s, Fires(t)).promises == s.promises[k := Settle(s.promises[k], Rejected(TimedOut))]
  {
    var id := s.promises[k].id.value;
    assert s.pending[id].promise == k && s.armed[s.pending[id].timer] == id;
    var t := s.pending[id].timer;
    assert Next(s, Fires(t)) == Removed(s, id, Rejected(TimedOut));
  }

  /** A disconnect leaves nothing behind: every waiter is rejected, the table and the timers are gone. */
  lemma DisconnectRejectsAll(s: State, k: nat)
    requires Inv(s) && s.port && k < |s.promises|
    ensures var u := Next(s, Disconnect);
            && u.pending == map[] && u.armed == map[] && !u.port
            && u.promises[k] == if s.promises[k].outcome.Waiting? then Settle(s.promises[k], Rejected(HostGone))
                                else s.promises[k]
  {}

  // ---------------------------------------------------------------- the module's own variables

  class Transport {
    var port: bool
    var nextRequestId: Id
    var pending: map<Id, Waiter>
    var nextTimer: Timer
    var armed: map<Timer, Id>
    var promises: seq<Promise>           // as handed to the callers

    ghost function View(): State
      reads this
    {
      State(port, nextRequestId, pending, nextTimer, armed, promises)
    }

    constructor ()
      ensures View() == START
    {
      port, nextRequestId, pending, nextTimer, armed, promises := false, 1, map[], 0, map[], [];
    }

    method Post(starts: bool, posts: bool)
      requires Inv(View())
      modifies this
      ensures View() == Next(old(View()), Send(starts, posts)) && Inv(View())
    {
      ghost var before := View();
      SendKeepsInv(before, starts, posts);
      if !port && !starts {
        promises := promises + [Promise(None, Rejected(NoHost), 1)];
        return;
      }
      port := true;
      var id, timer := nextRequestId, nextTimer;
      nextRequestId, nextTimer := nextRequestId + 1, nextTimer + 1;
      armed := armed[timer := id];
      pending := pending[id := Waiter(|promises|, timer)];
      promises := promises + [Promise(Some(id), Waiting, 0)];
      assert View() == SendNext(before, starts, true);
      if !posts {
        TakeBack(before, starts);
        Take(id, Rejected(NotPosted));
      }
    }

    /** Takes one waiter out of the table and settles its promise. */
    method Take(id: Id, o: Outcome)
      requires id in pending && pending[id].promise < |promises|
      modifies this
      ensures View() == Removed(old(View()), id, o)
    {
      var waiter := pending[id];
      armed := armed - {waiter.timer};
      pending := pending - {id};
      promises := promises[waiter.promise := Settle(promises[waiter.promise], o)];
    }

    method OnHostMessage(id: Id, ok: bool)
      requires Inv(View())
      modifies this
      ensures View() == Next(old(View()), Answer(id, ok)) && Inv(View())
    {
      StepKeepsInv(View(), Answer(id, ok));
      if id !in pending {
        return;
      }
      if ok {
        Take(id, Resolved);
        return;
      }
      Take(id, Rejected(HostError));
    }

    method OnTimeout(t: Timer)
      requires Inv(View()) && t in armed
      modifies this
      ensures View() == Next(old(View()), Fires(t)) && Inv(View())
    {
      StepKeepsInv(View(), Fires(t));
      Take(armed[t], Rejected(TimedOut));
    }

    method RejectWaiter(ghost before: State, waiters: map<Id, Waiter>, id: Id)
      requires Inv(before) && Within(waiters, before.pending) && id in waiters
      requires PartlyRejected(before, waiters, armed, promises)
      modifies this`armed, this`promises
      ensures PartlyRejected(before, waiters - {id}, armed, promises)
    {
      RejectOne(before, waiters, armed, promises, id);
      armed := armed - {waiters[id].timer};
      promises := promises[waiters[id].promise := Settle(promises[waiters[id].promise], Rejected(HostGone))];
    }

    method RejectWaiters(ghost before: State)
      requires Inv(before) && pending == before.pending && armed == before.armed && promises == before.promises
      modifies this`armed, this`promises
      ensures armed == DisconnectNext(before).armed && promises == DisconnectNext(before).promises
    {
      var waiters := pending;
      NoneRejected(before);
      while waiters != map[]
        invariant Within(waiters, before.pending)
        invariant PartlyRejected(before, waiters, armed, promises)
        decreases waiters
      {
        var id :| id in waiters;
        RejectWaiter(before, waiters, id);
        waiters := waiters - {id};
      }
      AllRejected(before, armed, promises);
    }

    method OnDisconnect()
      requires Inv(View()) && port
      modifies this
      ensures View() == Next(old(View()), Disconnect) && Inv(View())
    {
      DisconnectKeepsInv(View());
      ghost var before := View();
      port := false;
      RejectWaiters(before);
      pending := map[];
    }
  }

  /** Taking back a request that could not be posted leaves the table as it was. */
  lemma TakeBack(s: State, starts: bool)
    requires Inv(s) && (s.port || starts)
    ensures var u := SendNext(s, starts, true);
            && s.nextId in u.pending && u.pending[s.nextId].promise < |u.promises|
            && Removed(u, s.nextId, Rejected(NotPosted)) == SendNext(s, starts, false)
  {
    assert s.nextTimer !in s.armed;
    assert forall i | i in s.pending :: s.promises[s.pending[i].promise].id == Some(i) && i < s.nextId;
    var u := SendNext(s, starts, true);
    var p := Promise(Some(s.nextId), Rejected(NotPosted), 1);
    assert u.promises[|s.promises| := p] == s.promises + [p];
    assert u.pending - {s.nextId} == s.pending && u.armed - {s.nextTimer} == s.armed;
  }

  predicate Among(id: Option<Id>, waiters: map<Id, Waiter>) {
    id.Some? && id.value in waiters
  }

  /** Half-way through a disconnect: the waiters still to come wait, the others are rejected. */
  ghost predicate PartlyRejected(s: State, waiters: map<Id, Waiter>, armed: map<Timer, Id>, promises: seq<Promise>) {
    && (forall t :: t in armed <==> t in s.armed && s.armed[t] in waiters)
    && |promises| == |s.promises|
    && forall k | 0 <= k < |promises| ::
         promises[k] == if s.promises[k].outcome.Waiting? && !Among(s.promises[k].id, waiters)
                        then Settle(s.promises[k], Rejected(HostGone))
                        else s.promises[k]
  }

  lemma NoneRejected(s: State)
    requires Inv(s)
    ensures PartlyRejected(s, s.pending, s.armed, s.promises)
  {}

  lemma AllRejected(s: State, armed: map<Timer, Id>, promises: seq<Promise>)
    requires Inv(s) && PartlyRejected(s, map[], armed, promises)
    ensures armed == DisconnectNext(s).armed && promises == DisconnectNext(s).promises
  {}

  predicate Within(waiters: map<Id, Waiter>, table: map<Id, Waiter>) {
    forall id | id in waiters :: id in table && waiters[id] == table[id]
  }

  lemma RejectOne(s: State, waiters: map<Id, Waiter>, armed: map<Timer, Id>, promises: seq<Promise>, id: Id)
    requires Inv(s) && Within(waiters, s.pending) && id in waiters
    requires PartlyRejected(s, waiters, armed, promises)
    ensures var k := waiters[id].promise;
            && k < |promises|
            && PartlyRejected(s, waiters - {id}, armed - {waiters[id].timer},
                              promises[k := Settle(promises[k], Rejected(HostGone))])
  {
    var k := waiters[id].promise;
    assert s.promises[k].id == Some(id);
    forall t ensures t in armed - {waiters[id].timer} <==> t in s.armed && s.armed[t] in waiters - {id} {
      if t in s.armed && s.armed[t] == id {
        assert s.pending[id].timer == t;
      }
    }
  }
}
