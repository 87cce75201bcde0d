/**
 Locking and automatic unlocking in the extension (extension/background.js): the index cache and the
 auto-connect state in session storage, and the handlers that rewrite them.
 */
module AutoConnect {
  import opened Basics

  type Name = string

  // Session storage: the databases with a cached index, and the auto-connect state.
  datatype Store = Store(cache: set<Name>, suppressed: bool, failed: set<Name>)

  /** What the popup is told when it asks for the status. */
  predicate CanAutoConnect(s: Store, hosts: seq<Name>) {
    !s.suppressed && exists i :: 0 <= i < |hosts| && hosts[i] !in s.cache && hosts[i] !in s.failed
  }

  // ---------------------------------------------------------------- one handler at a time

  /**
   The databases an attempt covers: those neither cached nor marked as failed, in the host's order. One that has
   failed is marked at once, and skipped if it is listed again.
   */
  function Untried(hosts: seq<Name>, cache: set<Name>, failed: set<Name>, opens: Name -> bool): seq<Name> {
    if hosts == [] then []
    else
      var n := |hosts| - 1;
      Untried(hosts[..n], cache, failed, opens)
      + (if hosts[n] in cache + failed || (hosts[n] in hosts[..n] && !opens(hosts[n])) then [] else [hosts[n]])
  }

  /** The attempts that succeed, or those that fail. */
  function Those(attempted: seq<Name>, opens: Name -> bool, ok: bool): set<Name> {
    set n | n in attempted && opens(n) == ok
  }

  lemma OneMore(attempted: seq<Name>, opens: Name -> bool, n: Name)
    ensures forall ok :: Those(attempted + [n], opens, ok)
                      == Those(attempted, opens, ok) + (if opens(n) == ok then {n} else {})
  {}

  lemma {:induction false} UntriedIs(hosts: seq<Name>, cache: set<Name>, failed: set<Name>, opens: Name -> bool, n: Name)
    ensures n in Untried(hosts, cache, failed, opens) <==> n in hosts && n !in cache + failed
  {
    if hosts != [] {
      UntriedIs(hosts[..|hosts| - 1], cache, failed, opens, n);
      assert hosts == hosts[..|hosts| - 1] + [hosts[|hosts| - 1]];
    }
  }

  /** Every database is cached or marked as failed once all are attempted. */
  lemma EachSettled(hosts: seq<Name>, cache: set<Name>, failed: set<Name>, opens: Name -> bool)
    ensures var tried := Untried(hosts, cache, failed, opens);
            forall i | 0 <= i < |hosts| ::
              hosts[i] in cache + Those(tried, opens, true) || hosts[i] in failed + Those(tried, opens, false)
  {
    forall i | 0 <= i < |hosts| ensures hosts[i] in cache + failed || hosts[i] in Untried(hosts, cache, failed, opens) {
      UntriedIs(hosts, cache, failed, opens, hosts[i]);
    }
  }

  class Background {
    var store: Store

    constructor ()
      ensures store == Store({}, false, {})
    {
      store := Store({}, false, {});
    }

    /** `hosts` is None when the host cannot be asked. `opens` tells which databases unlock without help. */
    method RunAutoConnect(hosts: Option<seq<Name>>, opens: Name -> bool) returns (attempted: seq<Name>)
      modifies this
      ensures old(store.suppressed) || hosts.None? ==> store == old(store) && attempted == []
      ensures !old(store.suppressed) && hosts.Some? ==>
                && attempted == Untried(hosts.value, old(store.cache), old(store.failed), opens)
                && store.cache == old(store.cache) + Those(attempted, opens, true)
                && store.failed == old(store.failed) + Those(attempted, opens, false)
                && !store.suppressed
                && !CanAutoConnect(store, hosts.value)
    {
      if store.suppressed || hosts.None? {
        return [];
      }
      var failed, known, list := store.failed, store.cache, hosts.value;
      attempted := [];
      for i := 0 to |list|
        invariant attempted == Untried(list[..i], known, old(store.failed), opens)
        invariant store == old(store).(cache := known + Those(attempted, opens, true))
        invariant failed == old(store.failed) + Those(attempted, opens, false)
      {
        assert list[..i + 1][..i] == list[..i];
        UntriedIs(list[..i], known, old(store.failed), opens, list[i]);
        if list[i] in known || list[i] in failed {
          continue;
        }
        OneMore(attempted, opens, list[i]);
        attempted := attempted + [list[i]];
        if opens(list[i]) {
          store := store.(cache := store.cache + {list[i]});
          failed := failed - {list[i]};
        } else {
          failed := failed + {list[i]};
        }
      }
      assert list[..|list|] == list;
      store := store.(suppressed := false, failed := failed);
      EachSettled(list, known, old(store.failed), opens);
    }
  }

  /** The popup is told to attempt exactly when an attempt would try something. */
  lemma NothingLeftToTry(s: Store, hosts: seq<Name>, opens: Name -> bool)
    ensures CanAutoConnect(s, hosts) <==> !s.suppressed && Untried(hosts, s.cache, s.failed, opens) != []
  {
    var tried := Untried(hosts, s.cache, s.failed, opens);
    if tried != [] {
      UntriedIs(hosts, s.cache, s.failed, opens, tried[0]);
      var i :| 0 <= i < |hosts| && hosts[i] == tried[0];
    }
    if i :| 0 <= i < |hosts| && hosts[i] !in s.cache && hosts[i] !in s.failed {
      UntriedIs(hosts, s.cache, s.failed, opens, hosts[i]);
    }
  }

  // ---------------------------------------------------------------- handlers interleaved

  // Where an unlock goes on when it is done: the rest of an auto-connect, nowhere, or a manual unlock.
  datatype Then = Loop(rest: seq<Name>, known: set<Name>, failed: set<Name>) | Quiet | Typed

  // A handler between two of its awaits.
  datatype Job =
    | Reading                                          // auto-connect, before it reads its state
    | Asking(failed: set<Name>)                        // waiting for the host's list
    | Looking(hosts: seq<Name>, failed: set<Name>)     // about to read the cache
    | Trying(rest: seq<Name>, known: set<Name>, failed: set<Name>)
    | Opening(name: Name, next: Then)                  // waiting for the host to unlock and send the index
    | Storing(name: Name, read: set<Name>, next: Then) // has read the cache and will write it back
    | Closing(failed: set<Name>)                       // about to write the auto-connect state
    | Checking(name: Name)                             // a "changed" event, before it reads the cache
    | Noting(name: Name)                               // a manual unlock, about to read the auto-connect state
    | Clearing(name: Name, failed: set<Name>)          // and about to write it
    | Sending                                          // a lock, waiting for the host
    | Removing
    | Suppressing
    | Over

  datatype Answer = Fails | Succeeds | Lists(hosts: seq<Name>)

  datatype State = State(store: Store, jobs: seq<Job>)

  datatype Event = Begin(job: Job) | Advance(i: nat, answer: Answer)

  predicate IsConnect(j: Job) {
    j.Reading? || j.Asking? || j.Looking? || j.Trying? || j.Closing?
    || (j.Opening? && j.next.Loop?) || (j.Storing? && j.next.Loop?)
  }

  predicate IsManual(j: Job) {
    j.Opening? && j.next.Typed?
  }

  /** The handlers the extension starts: auto-connect, a "changed" event, a manual unlock, a lock. */
  predicate Entry(j: Job) {
    j.Reading? || j.Checking? || IsManual(j) || j.Sending?
  }

  function AfterFailure(name: Name, next: Then): Job {
    match next
    case Loop(rest, known, failed) => Trying(rest, known, failed + {name})
    case Quiet => Over
    case Typed => Over
  }

  function AfterSuccess(name: Name, next: Then): Job {
    match next
    case Loop(rest, known, failed) => Trying(rest, known, failed - {name})
    case Quiet => Over
    case Typed => Noting(name)
  }

  /** One handler runs to its next await. */
  function Move(s: Store, j: Job, a: Answer): (Store, Job) {
    match j
    case Reading => (s, if s.suppressed then Over else Asking(s.failed))
    case Asking(failed) => (s, if a.Lists? then Looking(a.hosts, failed) else Over)
    case Looking(hosts, failed) => (s, Trying(hosts, s.cache, failed))
    case Trying(rest, known, failed) =>
      if rest == [] then (s, Closing(failed))
      else if rest[0] in known || rest[0] in failed then (s, Trying(rest[1..], known, failed))
      else (s, Opening(rest[0], Loop(rest[1..], known, failed)))
    case Opening(name, next) =>
      if a.Fails? then (s, AfterFailure(name, next)) else (s, Storing(name, s.cache, next))
    case Storing(name, read, next) => (s.(cache := read + {name}), AfterSuccess(name, next))
    case Closing(failed) => (s.(suppressed := false, failed := failed), Over)
    case Checking(name) => (s, if name in s.cache then Opening(name, Quiet) else Over)
    case Noting(name) => (s, Clearing(name, s.failed))
    case Clearing(name, failed) => (s.(suppressed := false, failed := failed - {name}), Over)
    case Sending => (s, Removing)
    case Removing => (s.(cache := {}), Suppressing)
    case Suppressing => (s.(suppressed := true, failed := {}), Over)
    case Over => (s, Over)
  }

  function Next(s: State, e: Event): State {
    match e
    case Begin(job) =>
      if !Entry(job) || (job.Reading? && exists i :: 0 <= i < |s.jobs| && IsConnect(s.jobs[i])) then s
      else s.(jobs := s.jobs + [job])
    case Advance(i, answer) =>
      if i >= |s.jobs| then s
      else
        var (store, job) := Move(s.store, s.jobs[i], answer);
        State(store, s.jobs[i := job])
  }

  function After(s: State, events: seq<Event>): State
    decreases |events|
  {
    if events == [] then s else After(Next(s, events[0]), events[1..])
  }

  // ---------------------------------------------------------------- the lock

  /** A handler that will yet look at the store before it does anything, or is itself a lock. */
  predicate Harmless(j: Job) {
    j.Reading? || j.Checking? || j.Sending? || j.Removing? || j.Suppressing? || j.Over?
  }

  predicate Locked(s: Store) {
    s.cache == {} && s.suppressed
  }

  predicate NoManual(events: seq<Event>) {
    forall k | 0 <= k < |events| :: events[k].Begin? ==> !IsManual(events[k].job)
  }

  predicate AllHarmless(jobs: seq<Job>) {
    forall i | 0 <= i < |jobs| :: Harmless(jobs[i])
  }

  lemma {:induction false} HarmlessHolds(s: State, events: seq<Event>)
    requires Locked(s.store) && AllHarmless(s.jobs) && NoManual(events)
    ensures Locked(After(s, events).store) && AllHarmless(After(s, events).jobs)
    decreases |events|
  {
    if events != [] {
      assert events[0].Begin? ==> !IsManual(events[0].job);
      HarmlessHolds(Next(s, events[0]), events[1..]);
    }
  }

  lemma After1(s: State, e: Event, rest: seq<Event>)
    ensures After(s, [e] + rest) == After(Next(s, e), rest)
  {
    assert ([e] + rest)[1..] == rest;
  }

  lemma NoManual1(i: nat, a: Answer, rest: seq<Event>)
    requires NoManual(rest)
    ensures NoManual([Advance(i, a)] + rest)
  {
    var events := [Advance(i, a)] + rest;
    forall k | 0 <= k < |events| ensures events[k].Begin? ==> !IsManual(events[k].job) {
      if k > 0 {
        assert events[k] == rest[k - 1];
      }
    }
  }

  /** An auto-connect that is past its check ends by writing a state that is not suppressed. */
  lemma {:induction false} ConnectUndoes(s: State, i: nat) returns (events: seq<Event>)
    requires i < |s.jobs|
    requires s.jobs[i].Asking? || s.jobs[i].Looking? || s.jobs[i].Trying? || s.jobs[i].Closing?
    ensures NoManual(events) && !Locked(After(s, events).store)
    decreases match s.jobs[i]
              case Asking(_) => 3
              case Looking(_, _) => 2
              case Trying(_, _, _) => 1
              case _ => 0,
              if s.jobs[i].Trying? then |s.jobs[i].rest| else 0
  {
    var a := match s.jobs[i] case Asking(_) => Lists([]) case _ => Succeeds;
    var u := Next(s, Advance(i, a));
    var rest: seq<Event>;
    if s.jobs[i].Closing? {
      rest := [];
      assert After(u, rest) == u;
    } else if u.jobs[i].Opening? {
      var v := Next(u, Advance(i, Fails));
      var more := ConnectUndoes(v, i);
      rest := [Advance(i, Fails)] + more;
      After1(u, Advance(i, Fails), more);
      NoManual1(i, Fails, more);
    } else {
      rest := ConnectUndoes(u, i);
    }
    events := [Advance(i, a)] + rest;
    After1(s, Advance(i, a), rest);
    NoManual1(i, a, rest);
  }

  /** So does an unlock in flight, by writing the cache, and a manual unlock about to clear the suppression. */
  lemma {:induction false} UnlockUndoes(s: State, i: nat) returns (events: seq<Event>)
    requires i < |s.jobs|
    requires s.jobs[i].Opening? || s.jobs[i].Storing? || s.jobs[i].Noting? || s.jobs[i].Clearing?
    ensures NoManual(events) && !Locked(After(s, events).store)
    decreases if s.jobs[i].Opening? || s.jobs[i].Noting? then 1 else 0
  {
    var u := Next(s, Advance(i, Succeeds));
    var rest: seq<Event>;
    if s.jobs[i].Opening? || s.jobs[i].Noting? {
      rest := UnlockUndoes(u, i);
    } else {
      rest := [];
      assert s.jobs[i].Storing? ==> s.jobs[i].name in u.store.cache;
      assert After(u, rest) == u;
    }
    events := [Advance(i, Succeeds)] + rest;
    After1(s, Advance(i, Succeeds), rest);
    NoManual1(i, Succeeds, rest);
  }

  /**
   A lock holds until the user unlocks by hand if and only if, when it is complete, every handler still under
   way has yet to make its check. One that is past it undoes the lock in some continuation.
   */
  lemma LockHoldsIff(s: State)
    requires Locked(s.store)
    ensures (forall events | NoManual(events) :: Locked(After(s, events).store)) <==> AllHarmless(s.jobs)
  {
    if AllHarmless(s.jobs) {
      forall events | NoManual(events) ensures Locked(After(s, events).store) {
        HarmlessHolds(s, events);
      }
    } else {
      var i :| 0 <= i < |s.jobs| && !Harmless(s.jobs[i]);
      var events: seq<Event>;
      if s.jobs[i].Asking? || s.jobs[i].Looking? || s.jobs[i].Trying? || s.jobs[i].Closing? {
        events := ConnectUndoes(s, i);
      } else {
        events := UnlockUndoes(s, i);
      }
      assert NoManual(events) && !Locked(After(s, events).store);
    }
  }

  /** The handler that began last moves on. */
  lemma LastMoves(store: Store, jobs: seq<Job>, j: Job, a: Answer)
    ensures Next(State(store, jobs + [j]), Advance(|jobs|, a))
         == State(Move(store, j, a).0, jobs + [Move(store, j, a).1])
  {
    assert (jobs + [j])[|jobs| := Move(store, j, a).1] == jobs + [Move(store, j, a).1];
  }

  /** A lock that runs alone ends locked, whatever the host answers, with no handler past its check. */
  lemma LockAlone(s: State, a: Answer, b: Answer, c: Answer)
    requires AllHarmless(s.jobs)
    ensures var i := |s.jobs|;
            var u := After(s, [Begin(Sending), Advance(i, a), Advance(i, b), Advance(i, c)]);
            Locked(u.store) && AllHarmless(u.jobs) && u.store.failed == {}
  {
    var i := |s.jobs|;
    FourSteps(s, Begin(Sending), Advance(i, a), Advance(i, b), Advance(i, c));
    LockMoves(s.store, s.jobs, a, b, c);
  }

  lemma LockMoves(store: Store, jobs: seq<Job>, a: Answer, b: Answer, c: Answer)
    ensures var i := |jobs|;
            Next(Next(Next(State(store, jobs + [Sending]), Advance(i, a)), Advance(i, b)), Advance(i, c))
            == State(Store({}, true, {}), jobs + [Over])
  {
    LastMoves(store, jobs, Sending, a);
    LastMoves(store, jobs, Removing, b);
    LastMoves(store.(cache := {}), jobs, Suppressing, c);
  }

  lemma FourSteps(s: State, a: Event, b: Event, c: Event, d: Event)
    ensures After(s, [a, b, c, d]) == Next(Next(Next(Next(s, a), b), c), d)
  {
    Unroll(s, [a, b, c, d]);
    Unroll(Next(s, a), [b, c, d]);
    Unroll(Next(Next(s, a), b), [c, d]);
    Unroll(Next(Next(Next(s, a), b), c), [d]);
  }

  /**
   A manual unlock that runs alone, from any store, and that the host grants: the database is cached, no longer
   marked as failed, and an earlier lock is lifted; nothing changes for other databases.
   */
  lemma ManualUnlockAlone(s: State, name: Name, a: Answer, b: Answer, c: Answer)
    ensures var i := |s.jobs|;
            var u := After(s, [Begin(Opening(name, Typed)), Advance(i, Succeeds), Advance(i, a), Advance(i, b), Advance(i, c)]);
            && u.jobs == s.jobs + [Over]
            && u.store.cache == s.store.cache + {name} && !u.store.suppressed && u.store.failed == s.store.failed - {name}
  {
    var i, begin := |s.jobs|, Begin(Opening(name, Typed));
    FiveSteps(s, begin, Advance(i, Succeeds), Advance(i, a), Advance(i, b), Advance(i, c));
    UnlockStores(s.store, s.jobs, name, a);
    UnlockClears(s.store.(cache := s.store.cache + {name}), s.jobs, name, b, c);
  }

  /** The first half: the index is fetched and cached. */
  lemma UnlockStores(store: Store, jobs: seq<Job>, name: Name, a: Answer)
    ensures Next(Next(State(store, jobs + [Opening(name, Typed)]), Advance(|jobs|, Succeeds)), Advance(|jobs|, a))
         == State(store.(cache := store.cache + {name}), jobs + [Noting(name)])
  {
    LastMoves(store, jobs, Opening(name, Typed), Succeeds);
    LastMoves(store, jobs, Storing(name, store.cache, Typed), a);
  }

  /** The second: the auto-connect state is read and written back. */
  lemma UnlockClears(store: Store, jobs: seq<Job>, name: Name, b: Answer, c: Answer)
    ensures Next(Next(State(store, jobs + [Noting(name)]), Advance(|jobs|, b)), Advance(|jobs|, c))
         == State(store.(suppressed := false, failed := store.failed - {name}), jobs + [Over])
  {
    LastMoves(store, jobs, Noting(name), b);
    LastMoves(store, jobs, Clearing(name, store.failed), c);
  }

  /** One that the host refuses changes nothing. */
  lemma RefusedUnlockAlone(s: State, name: Name)
    ensures After(s, [Begin(Opening(name, Typed)), Advance(|s.jobs|, Fails)]) == State(s.store, s.jobs + [Over])
  {
    LastMoves(s.store, s.jobs, Opening(name, Typed), Fails);
    TwoSteps(s, Begin(Opening(name, Typed)), Advance(|s.jobs|, Fails));
  }

  lemma TwoSteps(s: State, a: Event, b: Event)
    ensures After(s, [a, b]) == Next(Next(s, a), b)
  {
    Unroll(s, [a, b]);
    Unroll(Next(s, a), [b]);
  }

  lemma FiveSteps(s: State, a: Event, b: Event, c: Event, d: Event, e: Event)
    ensures After(s, [a, b, c, d, e]) == Next(Next(Next(Next(Next(s, a), b), c), d), e)
  {
    Unroll(s, [a, b, c, d, e]);
    FourSteps(Next(s, a), b, c, d, e);
  }

  /** A "changed" event asks the host to unlock the database exactly if it is cached, and else does nothing. */
  lemma ChangedAsks(s: State, name: Name, a: Answer)
    ensures var asked := After(s, [Begin(Checking(name)), Advance(|s.jobs|, a)]);
            && asked.store == s.store
            && asked.jobs == s.jobs + [if name in s.store.cache then Opening(name, Quiet) else Over]
  {
    TwoSteps(s, Begin(Checking(name)), Advance(|s.jobs|, a));
    LastMoves(s.store, s.jobs, Checking(name), a);
  }

  /** Alone, it ends with the store as it was, whatever the host answers: the name of an index is all the store holds. */
  lemma ChangedAlone(s: State, name: Name, a: Answer, b: Answer, c: Answer)
    ensures var asked := After(s, [Begin(Checking(name)), Advance(|s.jobs|, a)]);
            After(asked, [Advance(|s.jobs|, b), Advance(|s.jobs|, c)]) == State(s.store, s.jobs + [Over])
  {
    ChangedAsks(s, name, a);
    EndsQuietly(s.store, s.jobs, if name in s.store.cache then Opening(name, Quiet) else Over, b, c);
  }

  lemma EndsQuietly(store: Store, jobs: seq<Job>, j: Job, b: Answer, c: Answer)
    requires j == Over || (j.Opening? && j.next == Quiet && j.name in store.cache)
    ensures After(State(store, jobs + [j]), [Advance(|jobs|, b), Advance(|jobs|, c)]) == State(store, jobs + [Over])
  {
    TwoSteps(State(store, jobs + [j]), Advance(|jobs|, b), Advance(|jobs|, c));
    if j == Over {
      LastMoves(store, jobs, Over, b);
      LastMoves(store, jobs, Over, c);
    } else {
      QuietUnlock(store, jobs, j.name, b, c);
    }
  }

  lemma QuietUnlock(store: Store, jobs: seq<Job>, name: Name, b: Answer, c: Answer)
    requires name in store.cache
    ensures Next(Next(State(store, jobs + [Opening(name, Quiet)]), Advance(|jobs|, b)), Advance(|jobs|, c))
         == State(store, jobs + [Over])
  {
    LastMoves(store, jobs, Opening(name, Quiet), b);
    if b.Fails? {
      LastMoves(store, jobs, Over, c);
    } else {
      assert store.cache + {name} == store.cache;
      LastMoves(store, jobs, Storing(name, store.cache, Quiet), c);
    }
  }

  // ---------------------------------------------------------------- one attempt at a time

  /** Of all the handlers under way at most one is an auto-connect. */
  predicate OneConnect(jobs: seq<Job>) {
    forall i, j :: 0 <= i < j < |jobs| ==> !(IsConnect(jobs[i]) && IsConnect(jobs[j]))
  }

  /** A step never turns another handler into an auto-connect. */
  lemma MoveKeepsKind(s: Store, j: Job, a: Answer)
    ensures IsConnect(Move(s, j, a).1) ==> IsConnect(j)
  {}

  /** Whoever asks while an attempt is under way shares it: in every run there is at most one. */
  lemma {:induction false} OneAttemptAtATime(s: State, events: seq<Event>)
    requires OneConnect(s.jobs)
    ensures OneConnect(After(s, events).jobs)
    decreases |events|
  {
    if events != [] {
      var e := events[0];
      if e.Advance? && e.i < |s.jobs| {
        MoveKeepsKind(s.store, s.jobs[e.i], e.answer);
      }
      OneAttemptAtATime(Next(s, e), events[1..]);
    }
  }

  // ---------------------------------------------------------------- an attempt that is left alone

  lemma {:induction false} AfterConcat(s: State, a: seq<Event>, b: seq<Event>)
    ensures After(s, a + b) == After(After(s, a), b)
    decreases |a|
  {
    if a == [] {
      assert a + b == b;
    } else {
      assert (a + b)[0] == a[0] && (a + b)[1..] == a[1..] + b;
      AfterConcat(Next(s, a[0]), a[1..], b);
    }
  }

  /** The databases of `rest` that are still to be tried and will open, or will not. */
  function Due(rest: seq<Name>, known: set<Name>, failed: set<Name>, opens: Name -> bool, ok: bool): set<Name> {
    set n | n in rest && n !in known && n !in failed && opens(n) == ok
  }

  predicate OfJob(events: seq<Event>, i: nat) {
    forall k | 0 <= k < |events| :: events[k].Advance? && events[k].i == i
  }

  lemma DueFront(rest: seq<Name>, known: set<Name>, failed: set<Name>, opens: Name -> bool)
    requires rest != []
    ensures var first, more := rest[0], rest[1..];
            if first in known || first in failed
            then forall ok :: Due(rest, known, failed, opens, ok) == Due(more, known, failed, opens, ok)
            else if opens(first)
            then && failed - {first} == failed && Due(rest, known, failed, opens, false) == Due(more, known, failed, opens, false)
                 && Due(rest, known, failed, opens, true) == Due(more, known, failed, opens, true) + {first}
            else && Due(rest, known, failed, opens, true) == Due(more, known, failed + {first}, opens, true)
                 && Due(rest, known, failed, opens, false) == Due(more, known, failed + {first}, opens, false) + {first}
  {
    assert rest == [rest[0]] + rest[1..];
  }

  /** One turn of the attempt's loop, with nobody else running. */
  lemma TurnAlone(s: State, i: nat, opens: Name -> bool) returns (events: seq<Event>)
    requires i < |s.jobs| && s.jobs[i].Trying? && s.jobs[i].rest != []
    ensures OfJob(events, i)
    ensures var j, u := s.jobs[i], After(s, events);
            var first := j.rest[0];
            && |u.jobs| == |s.jobs|
            && if first in j.known || first in j.failed
               then u.store == s.store && u.jobs[i] == Trying(j.rest[1..], j.known, j.failed)
               else if opens(first)
               then u.store == s.store.(cache := s.store.cache + {first})
                    && u.jobs[i] == Trying(j.rest[1..], j.known, j.failed - {first})
               else u.store == s.store && u.jobs[i] == Trying(j.rest[1..], j.known, j.failed + {first})
  {
    var j := s.jobs[i];
    var go := Advance(i, Succeeds);
    var s1 := Next(s, go);
    After1(s, go, []);
    events := [go];
    assert [go] + [] == [go];
    if !(j.rest[0] in j.known || j.rest[0] in j.failed) {
      var s2 := Next(s1, Advance(i, if opens(j.rest[0]) then Succeeds else Fails));
      if opens(j.rest[0]) {
        After1(s2, go, []);
        After1(s1, go, [go]);
        After1(s, go, [go, go]);
        events := [go, go, go];
        assert [go] + [go] == [go, go] && [go] + [go, go] == events;
      } else {
        var no := Advance(i, Fails);
        After1(s1, no, []);
        After1(s, go, [no]);
        events := [go, no];
        assert [no] + [] == [no] && [go] + [no] == events;
      }
    }
  }

  /** The loop and the write that ends it, with nobody else running. */
  lemma {:induction false} LoopAlone(s: State, i: nat, opens: Name -> bool) returns (events: seq<Event>)
    requires i < |s.jobs| && s.jobs[i].Trying?
    ensures OfJob(events, i)
    ensures var j, u := s.jobs[i], After(s, events);
            && |u.jobs| == |s.jobs| && u.jobs[i].Over?
            && u.store == Store(s.store.cache + Due(j.rest, j.known, j.failed, opens, true), false,
                                j.failed + Due(j.rest, j.known, j.failed, opens, false))
    decreases |s.jobs[i].rest|
  {
    var j := s.jobs[i];
    if j.rest == [] {
      var go := Advance(i, Succeeds);
      After1(Next(s, go), go, []);
      After1(s, go, [go]);
      events := [go, go];
      assert [go] + [] == [go] && [go] + [go] == events;
      assert forall ok :: Due([], j.known, j.failed, opens, ok) == {};
    } else {
      var turn := TurnAlone(s, i, opens);
      var u := After(s, turn);
      var more := LoopAlone(u, i, opens);
      events := turn + more;
      AfterConcat(s, turn, more);
      DueFront(j.rest, j.known, j.failed, opens);
    }
  }

  /** The databases tried are those due, so the loop left alone does what RunAutoConnect does. */
  lemma DueIsUntried(hosts: seq<Name>, cache: set<Name>, failed: set<Name>, opens: Name -> bool, ok: bool)
    ensures Due(hosts, cache, failed, opens, ok) == Those(Untried(hosts, cache, failed, opens), opens, ok)
  {
    forall n: Name ensures n in Untried(hosts, cache, failed, opens) <==> n in hosts && n !in cache + failed {
      UntriedIs(hosts, cache, failed, opens, n);
    }
  }

  /**
   An attempt that runs from its start without interruption leaves the store as RunAutoConnect leaves it. The
   handlers-in-steps machine and the handler itself describe the same code.
   */
  lemma AttemptAlone(s: State, hosts: seq<Name>, opens: Name -> bool) returns (events: seq<Event>)
    requires !s.store.suppressed
    requires forall k | 0 <= k < |s.jobs| :: !IsConnect(s.jobs[k])
    ensures var u, tried := After(s, events), Untried(hosts, s.store.cache, s.store.failed, opens);
            && u.store.cache == s.store.cache + Those(tried, opens, true)
            && u.store.failed == s.store.failed + Those(tried, opens, false)
            && !u.store.suppressed && !CanAutoConnect(u.store, hosts)
  {
    var i := |s.jobs|;
    var s1 := Next(s, Begin(Reading));
    var s2 := Next(s1, Advance(i, Succeeds));
    var s3 := Next(s2, Advance(i, Lists(hosts)));
    var s4 := Next(s3, Advance(i, Succeeds));
    assert s4.store == s.store && s4.jobs[i] == Trying(hosts, s.store.cache, s.store.failed);
    var more := LoopAlone(s4, i, opens);
    events := [Begin(Reading)] + ([Advance(i, Succeeds)] + ([Advance(i, Lists(hosts))] + ([Advance(i, Succeeds)] + more)));
    After1(s3, Advance(i, Succeeds), more);
    After1(s2, Advance(i, Lists(hosts)), [Advance(i, Succeeds)] + more);
    After1(s1, Advance(i, Succeeds), [Advance(i, Lists(hosts))] + ([Advance(i, Succeeds)] + more));
    After1(s, Begin(Reading), [Advance(i, Succeeds)] + ([Advance(i, Lists(hosts))] + ([Advance(i, Succeeds)] + more)));
    DueIsUntried(hosts, s.store.cache, s.store.failed, opens, true);
    DueIsUntried(hosts, s.store.cache, s.store.failed, opens, false);
    EachSettled(hosts, s.store.cache, s.store.failed, opens);
  }

  /**
   The case is reachable from the start: the popup opens, auto-connect asks the host for its list, the user locks,
   the lock completes, and the answer arrives. Auto-connect ends by lifting the suppression.
   */
  lemma LockLiftedByLateConnect(s: State)
    requires s == State(Store({}, false, {}), [])
    ensures var locked := After(s, [Begin(Reading), Advance(0, Succeeds), Begin(Sending),
                                    Advance(1, Succeeds), Advance(1, Succeeds), Advance(1, Succeeds)]);
            && Locked(locked.store) && |locked.jobs| == 2 && locked.jobs[0].Asking?
            && !Locked(After(locked, [Advance(0, Lists([])), Advance(0, Succeeds), Advance(0, Succeeds),
                                      Advance(0, Succeeds)]).store)
  {
    var go := Advance(1, Succeeds);
    var s1 := Next(s, Begin(Reading));
    var s2 := Next(s1, Advance(0, Succeeds));
    LockAlone(s1, Succeeds, Succeeds, Succeeds);
    var s3 := Next(s2, Begin(Sending));
    var s4 := Next(s3, go);
    var s5 := Next(s4, go);
    var s6 := Next(s5, go);
    Unroll(s, [Begin(Reading), Advance(0, Succeeds), Begin(Sending), go, go, go]);
    Unroll(s1, [Advance(0, Succeeds), Begin(Sending), go, go, go]);
    FourSteps(s2, Begin(Sending), go, go, go);
    LateAnswer(s6);
  }

  lemma Unroll(s: State, events: seq<Event>)
    requires events != []
    ensures After(s, events) == After(Next(s, events[0]), events[1..])
  {}

  lemma LateAnswer(s: State)
    requires Locked(s.store) && |s.jobs| == 2 && s.jobs[0].Asking?
    ensures !Locked(After(s, [Advance(0, Lists([])), Advance(0, Succeeds), Advance(0, Succeeds), Advance(0, Succeeds)]).store)
  {
    var go := Advance(0, Succeeds);
    var s1 := Next(s, Advance(0, Lists([])));
    var s2 := Next(s1, go);
    var s3 := Next(s2, go);
    FourSteps(s, Advance(0, Lists([])), go, go, go);
  }
}
