/**
 Does LastSeq ever run past a version that was never merged? One client against a server on which any
 number of other devices write at any moment, with the two halves of a cycle as separate, interleaved
 steps (client/cmd/keepass-deltasync/sync.go, push.go, pull.go, daemon.go).
 */
module NoSkip {
  import opened Basics
  import opened Tracking
  import opened Server

  // Reading: GET /changes has selected its rows from a log of `got` versions. Writing: the answer is merged;
  // `newSeq` is the current sequence number it reported and `top` the highest one a PUT returned.
  datatype Phase = Idle | Reading(got: nat) | Writing(got: nat, newSeq: nat, top: nat)

  // `applied` is history: the positions of the versions handed to a successful merge.
  datatype State = State(log: seq<Version>, file: Local, lastSeq: nat, applied: set<nat>, phase: Phase)

  datatype Event =
    | Foreign(v: Version)              // another device's write is sequenced
    | Edit(u: Uuid, o: Obj)            // the user changes an object, at any moment
    | Select                           // GET: the rows are read
    | Answer                           // GET: the current number is read, the rows are merged
    | PullFails
    | StartPush                        // a push without a pull
    | Put(v: Version, lost: bool)      // an upload; `lost` when the server's reply never arrives
    | Finish                           // LastSeq advances
    | Abandon                          // the cycle fails and its LastSeq is dropped

  predicate Enabled(s: State, e: Event, me: Device) {
    match e
    case Foreign(v) => v.author != me
    case Edit(u, o) => u in s.file ==> s.file[u].mod < o.mod
    case Select => s.phase.Idle?
    case Answer => s.phase.Reading?
    case PullFails => s.phase.Reading?
    case StartPush => s.phase.Idle?
    case Put(v, _) => s.phase.Writing? && v.author == me
    case Finish => s.phase.Writing?
    case Abandon => s.phase.Writing?
  }

  function Next(s: State, e: Event): State
    requires e.Answer? ==> s.phase.Reading? && s.phase.got <= |s.log|
    requires e.Put? || e.Finish? ==> s.phase.Writing?
  {
    match e
    case Foreign(v) => s.(log := s.log + [v])
    case Edit(u, o) => s.(file := s.file[u := o])
    case Select => s.(phase := Reading(|s.log|))
    case Answer =>
      var seen := s.log[..s.phase.got];
      s.(file := MergeOffered(s.file, seen, s.lastSeq),
         applied := s.applied + Offered(seen, s.lastSeq),
         phase := Writing(s.phase.got, |s.log|, 0))
    case PullFails => s.(phase := Idle)
    case StartPush => s.(phase := Writing(|s.log|, s.lastSeq, 0))
    case Put(v, lost) =>
      s.(log := s.log + [v],
         phase := if lost then s.phase else s.phase.(top := |s.log| + 1))
    case Finish => s.(lastSeq := Max(s.phase.newSeq, s.phase.top), phase := Idle)
    case Abandon => s.(phase := Idle)
  }

  function NewLast(p: Phase): nat
    requires p.Writing?
  {
    Max(p.newSeq, p.top)
  }

  /** Bookkeeping that holds under every interleaving whatsoever. */
  predicate Sane(s: State) {
    && s.lastSeq <= |s.log|
    && (forall i | i in s.applied :: i < |s.log|)
    && (s.phase.Reading? ==> s.lastSeq <= s.phase.got <= |s.log| && (forall i | i in s.applied :: i < s.phase.got))
    && (s.phase.Writing? ==>
          && s.phase.got <= |s.log| && s.lastSeq <= s.phase.newSeq <= |s.log| && s.phase.top <= |s.log|
          && (forall i | i in s.applied :: i < s.phase.got))
    && (forall i | i in s.applied ::
          s.log[i].uuid in s.file && s.log[i].obj.mod <= s.file[s.log[i].uuid].mod)
  }

  /**
   Whatever the other devices do: LastSeq never decreases and never exceeds the server's number, and
   everything merged so far stays merged — the local copy is at least as recent.
   */
  lemma StepKeepsSane(s: State, e: Event, me: Device)
    requires Sane(s) && Enabled(s, e, me)
    ensures Sane(Next(s, e)) && s.lastSeq <= Next(s, e).lastSeq && s.log <= Next(s, e).log
    ensures s.applied <= Next(s, e).applied
  {
    var t := Next(s, e);
    if e.Answer? {
      var seen := s.log[..s.phase.got];
      MergeOfferedRaises(s.file, seen, s.lastSeq);
      forall i | i in t.applied ensures t.log[i].uuid in t.file && t.log[i].obj.mod <= t.file[t.log[i].uuid].mod {
        if i in Offered(seen, s.lastSeq) {
          assert seen[i] == s.log[i];
        }
      }
    }
  }

  /** The window opens inside the GET: what is sequenced after its rows are read is passed over by its own answer. */
  lemma WriteDuringTheGetIsLost(s: State, v: Version)
    requires Sane(s) && s.phase.Idle?
    ensures var t := Next(Next(Next(Next(s, Select), Foreign(v)), Answer), Finish);
            && t.log == s.log + [v] && t.lastSeq == |s.log| + 1 && t.phase.Idle?
            && |s.log| !in t.applied && t.applied == s.applied + Offered(s.log, s.lastSeq)
            && t.file == MergeOffered(s.file, s.log, s.lastSeq)
  {
    assert (s.log + [v])[..|s.log|] == s.log;
  }

  // ---------------------------------------------------------------- no skipped change

  /** The newest foreign version of every object among the first `k` versions has been merged. */
  ghost predicate Settled(log: seq<Version>, applied: set<nat>, k: nat, me: Device)
    requires k <= |log|
  {
    forall u :: var n := NewestForeign(log[..k], u, me); n.Some? ==> n.value in applied
  }

  ghost predicate OnlyMine(log: seq<Version>, k: nat, n: nat, me: Device)
    requires k <= n <= |log|
  {
    forall i | k <= i < n :: log[i].author == me
  }

  /**
   The proviso on a step: nothing foreign is sequenced between the GET's selection and its last PUT, and a
   push without a pull starts level with the server.
   */
  ghost predicate Calm(s: State, e: Event, me: Device)
    requires Sane(s) && Enabled(s, e, me)
  {
    match e
    case Answer => OnlyMine(s.log, s.phase.got, |s.log|, me)
    case Put(_, _) => OnlyMine(s.log, s.phase.got, |s.log|, me)
    case StartPush => s.lastSeq == |s.log|
    case _ => true
  }

  ghost predicate Inv(s: State, me: Device) {
    && Sane(s)
    && Settled(s.log, s.applied, s.lastSeq, me)
    && (forall n | 0 <= n < |s.log| && s.log[n].author == me :: Settled(s.log, s.applied, n, me))
    && (s.phase.Writing? ==>
          && Settled(s.log, s.applied, s.phase.got, me)
          && Settled(s.log, s.applied, s.phase.newSeq, me)
          && Settled(s.log, s.applied, s.phase.top, me))
  }

  lemma SettledGrows(log: seq<Version>, log': seq<Version>, applied: set<nat>, applied': set<nat>, k: nat, me: Device)
    requires log <= log' && applied <= applied' && k <= |log|
    requires Settled(log, applied, k, me)
    ensures Settled(log', applied', k, me)
  {
    assert log'[..k] == log[..k];
  }

  lemma SettledThroughMine(log: seq<Version>, applied: set<nat>, k: nat, n: nat, me: Device)
    requires k <= n <= |log| && OnlyMine(log, k, n, me)
    requires Settled(log, applied, k, me)
    ensures Settled(log, applied, n, me)
  {
    forall u | NewestForeign(log[..n], u, me).Some? ensures NewestForeign(log[..n], u, me).value in applied {
      NewestForeignStable(log, k, n, u, me);
    }
  }

  /** What the GET returns completes what was settled: own uploads never hide a foreign version for good. */
  lemma AnswerSettles(s: State, me: Device)
    requires Inv(s, me) && s.phase.Reading?
    ensures Settled(s.log, s.applied + Offered(s.log[..s.phase.got], s.lastSeq), s.phase.got, me)
  {
    var got := s.phase.got;
    var seen := s.log[..got];
    forall u | NewestForeign(seen, u, me).Some?
      ensures NewestForeign(seen, u, me).value in s.applied + Offered(seen, s.lastSeq)
    {
      var w := NewestForeign(seen, u, me).value;
      assert seen[w] == s.log[w];
      if w < s.lastSeq {
        forall i | s.lastSeq <= i < got ensures s.log[i].author == me || s.log[i].uuid != u {
          assert seen[i] == s.log[i];
        }
        NewestForeignStable(s.log, s.lastSeq, got, u, me);
      } else {
        var n := Newest(seen, u).value;
        if n != w {
          assert seen[n] == s.log[n] && s.log[n].author == me;
          forall i | n <= i < got ensures s.log[i].author == me || s.log[i].uuid != u {
            assert seen[i] == s.log[i];
          }
          NewestForeignStable(s.log, n, got, u, me);
        }
      }
    }
  }

  lemma StepKeepsInv(s: State, e: Event, me: Device)
    requires Inv(s, me) && Enabled(s, e, me) && Calm(s, e, me)
    ensures Inv(Next(s, e), me)
  {
    var t := Next(s, e);
    StepKeepsSane(s, e, me);
    SettledGrows(s.log, t.log, s.applied, t.applied, s.lastSeq, me);
    if e.Answer? {
      AnswerSettles(s, me);
      SettledThroughMine(t.log, t.applied, s.phase.got, |t.log|, me);
      SettledAtZero(t.log, t.applied, me);
    }
    if e.StartPush? {
      SettledAtZero(t.log, t.applied, me);
    }
    if s.phase.Writing? {
      SettledGrows(s.log, t.log, s.applied, t.applied, s.phase.got, me);
      SettledGrows(s.log, t.log, s.applied, t.applied, s.phase.newSeq, me);
      SettledGrows(s.log, t.log, s.applied, t.applied, s.phase.top, me);
    }
    if e.Put? {
      SettledThroughMine(t.log, t.applied, s.phase.got, |s.log|, me);
      SettledThroughMine(t.log, t.applied, s.phase.got, |t.log|, me);
    }
    forall n | 0 <= n < |t.log| && t.log[n].author == me ensures Settled(t.log, t.applied, n, me) {
      if n < |s.log| {
        SettledGrows(s.log, t.log, s.applied, t.applied, n, me);
      }
    }
  }

  lemma SettledAtZero(log: seq<Version>, applied: set<nat>, me: Device)
    ensures Settled(log, applied, 0, me)
  {}

  predicate Legal(s: State, events: seq<Event>, me: Device)
    requires Sane(s)
    decreases |events|
  {
    events == [] ||
    (Enabled(s, events[0], me) && (StepKeepsSane(s, events[0], me); Legal(Next(s, events[0]), events[1..], me)))
  }

  function After(s: State, events: seq<Event>, me: Device): (r: State)
    requires Sane(s) && Legal(s, events, me)
    ensures Sane(r)
    decreases |events|
  {
    if events == [] then s
    else StepKeepsSane(s, events[0], me); After(Next(s, events[0]), events[1..], me)
  }

  ghost predicate AllCalm(s: State, events: seq<Event>, me: Device)
    requires Sane(s) && Legal(s, events, me)
    decreases |events|
  {
    events == [] ||
    (Calm(s, events[0], me) &&
     (StepKeepsSane(s, events[0], me); AllCalm(Next(s, events[0]), events[1..], me)))
  }

  predicate Fresh(s: State) {
    s.log == [] && s.lastSeq == 0 && s.applied == {} && s.phase.Idle?
  }

  /** Over any run at all, LastSeq only grows, stays within the server's number, and nothing merged is lost. */
  lemma {:induction false} LastSeqIsMonotone(s: State, events: seq<Event>, me: Device)
    requires Sane(s) && Legal(s, events, me)
    ensures var t := After(s, events, me);
            && Sane(t) && s.lastSeq <= t.lastSeq <= |t.log| && s.log <= t.log && s.applied <= t.applied
    decreases |events|
  {
    if events != [] {
      StepKeepsSane(s, events[0], me);
      LastSeqIsMonotone(Next(s, events[0]), events[1..], me);
    }
  }

  /**
   No skipped change. Over any run that keeps the proviso, with failed pulls, lost replies and abandoned
   pushes among its steps, the newest foreign version of every object with a sequence number at or below
   LastSeq has been merged locally, and the local copy is at least as recent.
   */
  lemma {:induction false} NothingIsSkipped(s: State, events: seq<Event>, me: Device, u: Uuid)
    requires Fresh(s) && Legal(s, events, me) && AllCalm(s, events, me)
    ensures var t := After(s, events, me);
            var n := NewestForeign(t.log[..t.lastSeq], u, me);
            t.lastSeq <= |t.log| && (n.Some? ==>
              n.value in t.applied && u in t.file && t.log[n.value].obj.mod <= t.file[u].mod)
  {
    SettledAtZero(s.log, s.applied, me);
    InvHolds(s, events, me);
    var t := After(s, events, me);
    var n := NewestForeign(t.log[..t.lastSeq], u, me);
    if n.Some? {
      assert t.log[..t.lastSeq][n.value] == t.log[n.value];
    }
  }

  lemma {:induction false} InvHolds(s: State, events: seq<Event>, me: Device)
    requires Inv(s, me) && Legal(s, events, me) && AllCalm(s, events, me)
    ensures Inv(After(s, events, me), me)
    decreases |events|
  {
    if events != [] {
      StepKeepsSane(s, events[0], me);
      StepKeepsInv(s, events[0], me);
      InvHolds(Next(s, events[0]), events[1..], me);
    }
  }

  // ---------------------------------------------------------------- the proviso is exact

  /** Between `k`, up to which all is settled, and the new LastSeq, nothing foreign may lie that was not merged. */
  lemma AdvanceSkipsIff(s: State, me: Device, k: nat)
    requires Sane(s) && s.phase.Writing? && k <= NewLast(s.phase)
    requires Settled(s.log, s.applied, k, me) && forall i | i in s.applied :: i < k
    ensures Settled(s.log, s.applied, NewLast(s.phase), me) <==> OnlyMine(s.log, k, NewLast(s.phase), me)
  {
    var n := NewLast(s.phase);
    if OnlyMine(s.log, k, n, me) {
      SettledThroughMine(s.log, s.applied, k, n, me);
    } else {
      var i :| k <= i < n && s.log[i].author != me;
      assert s.log[..n][i] == s.log[i];
      var w := NewestForeign(s.log[..n], s.log[i].uuid, me);
      assert i <= w.value && w.value !in s.applied;
    }
  }

  /**
   For one cycle the proviso is exact: finishing leaves nothing skipped if and only if no foreign write was
   sequenced after the GET's selection and at or below the new LastSeq.
   */
  lemma FinishSkipsIffWindowForeign(s: State, me: Device)
    requires Sane(s) && s.phase.Writing? && s.phase.got <= NewLast(s.phase)
    requires Settled(s.log, s.applied, s.phase.got, me)
    ensures Settled(s.log, s.applied, NewLast(s.phase), me)
       <==> OnlyMine(s.log, s.phase.got, NewLast(s.phase), me)
  {
    AdvanceSkipsIff(s, me, s.phase.got);
  }

  /** Uploads, and meanwhile edits and writes of others. */
  predicate DuringPush(events: seq<Event>) {
    forall k | 0 <= k < |events| :: events[k].Put? || events[k].Edit? || events[k].Foreign?
  }

  lemma {:induction false} PushOnlyRun(s: State, events: seq<Event>, me: Device)
    requires Sane(s) && Legal(s, events, me) && s.phase.Writing? && DuringPush(events)
    ensures var t := After(s, events, me);
            && t.phase.Writing? && t.applied == s.applied && s.log <= t.log
            && t.phase.newSeq == s.phase.newSeq && t.lastSeq == s.lastSeq
    decreases |events|
  {
    if events != [] {
      StepKeepsSane(s, events[0], me);
      PushOnlyRun(Next(s, events[0]), events[1..], me);
    }
  }

  /**
   For a push without a pull the window opens where LastSeq stands: whatever happens meanwhile, finishing leaves
   nothing skipped if and only if nothing foreign lies between the old LastSeq and the new one.
   */
  lemma PushOnlySkipsIff(s: State, events: seq<Event>, me: Device)
    requires Sane(s) && s.phase.Idle? && Settled(s.log, s.applied, s.lastSeq, me)
    requires forall i | i in s.applied :: i < s.lastSeq
    requires Sane(Next(s, StartPush)) && Legal(Next(s, StartPush), events, me) && DuringPush(events)
    ensures var t := After(Next(s, StartPush), events, me);
            && t.phase.Writing? && Sane(Next(t, Finish))
            && var u := Next(t, Finish);
               && s.lastSeq <= u.lastSeq
               && (Settled(u.log, u.applied, u.lastSeq, me) <==> OnlyMine(u.log, s.lastSeq, u.lastSeq, me))
  {
    var s1 := Next(s, StartPush);
    PushOnlyRun(s1, events, me);
    var t := After(s1, events, me);
    StepKeepsSane(t, Finish, me);
    SettledGrows(s.log, t.log, s.applied, t.applied, s.lastSeq, me);
    AdvanceSkipsIff(t, me, s.lastSeq);
  }

  /** And a skip is permanent: no later GET returns a version LastSeq has passed, whatever happens. */
  lemma {:induction false} SkipIsPermanent(s: State, events: seq<Event>, me: Device, i: nat)
    requires Sane(s) && Legal(s, events, me)
    requires s.phase.Idle? && i < s.lastSeq && i !in s.applied
    ensures i !in After(s, events, me).applied
  {
    NeverOffered(s, events, me, i);
  }

  lemma {:induction false} NeverOffered(s: State, events: seq<Event>, me: Device, i: nat)
    requires Sane(s) && Legal(s, events, me)
    requires i < s.lastSeq && i !in s.applied
    ensures i !in After(s, events, me).applied
    decreases |events|
  {
    if events != [] {
      StepKeepsSane(s, events[0], me);
      NeverOffered(Next(s, events[0]), events[1..], me, i);
    }
  }

  /** A cycle in which another device writes between the GET and an own upload. */
  function WindowCycle(theirs: Version, mine: Version): seq<Event> {
    [Select, Answer, Foreign(theirs), Put(mine, false), Finish]
  }

  lemma WindowCycleRuns(s: State, me: Device, theirs: Version, mine: Version)
    requires Sane(s) && s.phase.Idle? && theirs.author != me && mine.author == me
    ensures Legal(s, WindowCycle(theirs, mine), me)
    ensures var t := After(s, WindowCycle(theirs, mine), me);
            t.lastSeq == |s.log| + 2 && t.log == s.log + [theirs, mine] && |s.log| !in t.applied
  {
    var s1 := Next(s, Select);
    var s2 := Next(s1, Answer);
    var s3 := Next(s2, Foreign(theirs));
    var s4 := Next(s3, Put(mine, false));
    StepKeepsSane(s, Select, me);
    StepKeepsSane(s1, Answer, me);
    StepKeepsSane(s2, Foreign(theirs), me);
    StepKeepsSane(s3, Put(mine, false), me);
    StepKeepsSane(s4, Finish, me);
    var none: seq<Event> := [];
    Unfold(s4, Finish, none, me);
    Unfold(s3, Put(mine, false), [Finish], me);
    Unfold(s2, Foreign(theirs), [Put(mine, false), Finish], me);
    Unfold(s1, Answer, [Foreign(theirs), Put(mine, false), Finish], me);
    Unfold(s, Select, [Answer, Foreign(theirs), Put(mine, false), Finish], me);
    assert Next(s4, Finish).log == s.log + [theirs, mine];
  }

  /** The failing family: any foreign write landing between the GET and an own upload is skipped for ever. */
  lemma WindowWriteIsLost(s: State, me: Device, theirs: Version, mine: Version, later: seq<Event>)
    requires Sane(s) && s.phase.Idle? && theirs.author != me && mine.author == me
    ensures var cycle := [Select, Answer, Foreign(theirs), Put(mine, false), Finish];
            && Legal(s, cycle, me)
            && After(s, cycle, me).lastSeq == |s.log| + 2
            && After(s, cycle, me).log == s.log + [theirs, mine]
            && (Legal(After(s, cycle, me), later, me) ==>
                  |s.log| !in After(After(s, cycle, me), later, me).applied)
  {
    WindowCycleRuns(s, me, theirs, mine);
    var t := After(s, WindowCycle(theirs, mine), me);
    if Legal(t, later, me) {
      NeverOffered(t, later, me, |s.log|);
    }
  }

  lemma Unfold(s: State, e: Event, rest: seq<Event>, me: Device)
    requires Sane(s) && Enabled(s, e, me) && Sane(Next(s, e))
    ensures Legal(s, [e] + rest, me) <==> Legal(Next(s, e), rest, me)
    ensures Legal(s, [e] + rest, me) ==> After(s, [e] + rest, me) == After(Next(s, e), rest, me)
  {
    assert ([e] + rest)[1..] == rest;
  }

  /** The witness for a push without a pull: another device's only version is passed over by one own upload. */
  lemma PushBehindLosesAVersion(s: State, me: Device, theirs: Version, mine: Version, later: seq<Event>)
    requires s == State([theirs], map[], 0, {}, Idle) && theirs.author != me && mine.author == me
    ensures Sane(s) && Legal(s, [StartPush, Put(mine, false), Finish], me)
    ensures var t := After(s, [StartPush, Put(mine, false), Finish], me);
            && t.lastSeq == 2 && t.log == [theirs, mine] && 0 !in t.applied
            && (Legal(t, later, me) ==> 0 !in After(t, later, me).applied)
  {
    var s1 := Next(s, StartPush);
    var s2 := Next(s1, Put(mine, false));
    StepKeepsSane(s, StartPush, me);
    StepKeepsSane(s1, Put(mine, false), me);
    StepKeepsSane(s2, Finish, me);
    var none: seq<Event> := [];
    Unfold(s2, Finish, none, me);
    Unfold(s1, Put(mine, false), [Finish], me);
    Unfold(s, StartPush, [Put(mine, false), Finish], me);
    var t := Next(s2, Finish);
    if Legal(t, later, me) {
      NeverOffered(t, later, me, 0);
    }
  }
}
